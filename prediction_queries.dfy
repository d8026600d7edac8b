/**
 * The computations inside the prediction hooks: query-cache keys, the offset of the next
 * history page, and the statistics aggregated over the loaded history.
 */
module PredictionQueries {
  import opened Wrappers
  import opened Prediction

  // ---------------------------------------------------------------------------
  // Query keys
  // ---------------------------------------------------------------------------

  /** `PredictionHistoryParams`. */
  datatype HistoryParams = HistoryParams(limit: Option<int>, offset: Option<int>)

  /** One element of a query key: a literal, a trading day, or the history parameters. */
  datatype KeyPart = Text(text: string) | ParamsPart(params: Option<HistoryParams>)

  /** The queries `PREDICTION_KEYS` names. */
  datatype PredictionQuery =
    | History(params: Option<HistoryParams>)
    | ForDay(tradingDay: string)
    | Remaining(tradingDay: string)
    | Stats

  /** `PREDICTION_KEYS.all`: what the submit and update mutations invalidate. */
  const AllKey: seq<KeyPart> := [Text("predictions")]

  /** The key `PREDICTION_KEYS` builds for a query; every one begins with `AllKey`. */
  function QueryKey(q: PredictionQuery): (key: seq<KeyPart>)
    ensures AllKey <= key
    ensures |key| >= 2 && key[1].Text?
  {
    match q
    case History(params) => AllKey + [Text("history"), ParamsPart(params)]
    case ForDay(day) => AllKey + [Text("day"), Text(day)]
    case Remaining(day) => AllKey + [Text("remaining"), Text(day)]
    case Stats => AllKey + [Text("stats")]
  }

  /** `invalidateQueries({ queryKey })` matches every cached key that starts with it. */
  predicate Invalidates(prefix: seq<KeyPart>, key: seq<KeyPart>) {
    prefix <= key
  }

  /** A successful submit or update invalidates every prediction query. */
  lemma MutationsInvalidateEveryQuery(q: PredictionQuery)
    ensures Invalidates(AllKey, QueryKey(q))
  {
  }

  /** Different queries never share a cache entry. */
  lemma QueryKeyInjective(q1: PredictionQuery, q2: PredictionQuery)
    requires QueryKey(q1) == QueryKey(q2)
    ensures q1 == q2
  {
    var k1, k2 := QueryKey(q1), QueryKey(q2);
    assert k1[1] == k2[1];
    if q1.History? || q2.History? {
      assert k1[2] == k2[2];
    } else if q1.ForDay? || q1.Remaining? {
      assert k1[2] == k2[2];
    }
  }

  // ---------------------------------------------------------------------------
  // Infinite history: next page offset
  // ---------------------------------------------------------------------------

  /** The fields of a `Prediction` the hooks read; a missing `points_earned` is `None`. */
  datatype PredictionRecord = PredictionRecord(status: PredictionStatus, pointsEarned: Option<int>)

  /** `params?.limit || 50`. */
  function PageLimit(params: Option<HistoryParams>): int {
    if params.None? || params.value.limit.None? || params.value.limit.value == 0 then 50
    else params.value.limit.value
  }

  /** `getNextPageParam`: another page is requested, at offset `allPages.length * limit`,
      only when the last page is an array holding exactly `limit` items. `lastPage` is
      `None` when the response was not an array. */
  function GetNextPageParam(lastPage: Option<seq<PredictionRecord>>, allPages: seq<seq<PredictionRecord>>,
                            params: Option<HistoryParams>): (next: Option<int>)
    ensures next.Some? <==> lastPage.Some? && |lastPage.value| == PageLimit(params)
    ensures next.Some? ==> next.value == |allPages| * PageLimit(params)
  {
    var limit := PageLimit(params);
    if lastPage.Some? && |lastPage.value| == limit then Some(|allPages| * limit) else None
  }

  /** `pages.flat()`. */
  function Flatten(pages: seq<seq<PredictionRecord>>): (all: seq<PredictionRecord>)
    ensures |pages| > 0 ==> |all| >= |pages[0]|
  {
    if |pages| == 0 then [] else pages[0] + Flatten(pages[1..])
  }

  /** When every loaded page was full, the next offset is exactly the number of items
      loaded so far: paging neither skips nor repeats items. */
  lemma {:induction false} NextOffsetIsItemsLoaded(allPages: seq<seq<PredictionRecord>>, params: Option<HistoryParams>)
    requires |allPages| > 0
    requires forall i :: 0 <= i < |allPages| ==> |allPages[i]| == PageLimit(params)
    ensures GetNextPageParam(Some(allPages[|allPages| - 1]), allPages, params) == Some(|Flatten(allPages)|)
  {
    FullPagesCount(allPages, PageLimit(params));
  }

  lemma {:induction false} FullPagesCount(pages: seq<seq<PredictionRecord>>, limit: int)
    requires forall i :: 0 <= i < |pages| ==> |pages[i]| == limit
    ensures |Flatten(pages)| == |pages| * limit
  {
    if |pages| > 0 {
      FullPagesCount(pages[1..], limit);
      assert |Flatten(pages)| == limit + (|pages| - 1) * limit;
    }
  }

  // ---------------------------------------------------------------------------
  // Statistics
  // ---------------------------------------------------------------------------

  /** `PredictionStats` without the floating-point `accuracy_rate`. */
  datatype PredictionStats = PredictionStats(
    totalPredictions: nat,
    correctPredictions: nat,
    incorrectPredictions: nat,
    voidPredictions: nat,
    totalPointsEarned: int,
    totalPointsLost: int,
    netPoints: int)

  /** `p.points_earned || 0`. */
  function Points(p: PredictionRecord): int {
    p.pointsEarned.GetOr(0)
  }

  /** `filter((p) => p.status === status).length`. */
  function CountStatus(ps: seq<PredictionRecord>, status: PredictionStatus): (n: nat)
    ensures n <= |ps|
  {
    if |ps| == 0 then 0 else (if ps[0].status == status then 1 else 0) + CountStatus(ps[1..], status)
  }

  /** Sum of the positive points. */
  function SumEarned(ps: seq<PredictionRecord>): (s: int)
    ensures s >= 0
  {
    if |ps| == 0 then 0 else (if Points(ps[0]) > 0 then Points(ps[0]) else 0) + SumEarned(ps[1..])
  }

  /** Sum of the absolute values of the negative points. */
  function SumLost(ps: seq<PredictionRecord>): (s: int)
    ensures s >= 0
  {
    if |ps| == 0 then 0 else (if Points(ps[0]) < 0 then -Points(ps[0]) else 0) + SumLost(ps[1..])
  }

  /** Sum of all points, a missing value counting as 0. */
  function SumPoints(ps: seq<PredictionRecord>): int {
    if |ps| == 0 then 0 else Points(ps[0]) + SumPoints(ps[1..])
  }

  /** The statistics `usePredictionStats` computes; `pages` is `None` while the history has
      not loaded. */
  function ComputeStats(pages: Option<seq<seq<PredictionRecord>>>): (stats: PredictionStats)
    ensures pages.None? || |pages.value| == 0 ==> stats == PredictionStats(0, 0, 0, 0, 0, 0, 0)
    ensures stats.totalPointsEarned >= 0 && stats.totalPointsLost >= 0
    ensures stats.netPoints == stats.totalPointsEarned - stats.totalPointsLost
    ensures pages.Some? ==> var all := Flatten(pages.value);
      && stats.totalPredictions == |all|
      && stats.correctPredictions == CountStatus(all, Correct)
      && stats.incorrectPredictions == CountStatus(all, Incorrect)
      && stats.voidPredictions == CountStatus(all, Void)
      && stats.totalPointsEarned == SumEarned(all)
      && stats.totalPointsLost == SumLost(all)
  {
    if pages.None? || |pages.value| == 0 then
      PredictionStats(0, 0, 0, 0, 0, 0, 0)
    else
      var all := Flatten(pages.value);
      var earned := SumEarned(all);
      var lost := SumLost(all);
      PredictionStats(|all|, CountStatus(all, Correct), CountStatus(all, Incorrect),
                      CountStatus(all, Void), earned, lost, earned - lost)
  }

  /** Every prediction has exactly one status, so the five counts add up to the total. */
  lemma {:induction false} CountsPartition(ps: seq<PredictionRecord>)
    ensures CountStatus(ps, Pending) + CountStatus(ps, Locked) + CountStatus(ps, Correct)
          + CountStatus(ps, Incorrect) + CountStatus(ps, Void) == |ps|
  {
    if |ps| > 0 {
      CountsPartition(ps[1..]);
    }
  }

  /** Correct, incorrect and void predictions together never exceed the total. */
  lemma FinishedWithinTotal(pages: Option<seq<seq<PredictionRecord>>>)
    ensures var s := ComputeStats(pages);
      s.correctPredictions + s.incorrectPredictions + s.voidPredictions <= s.totalPredictions
  {
    if pages.Some? {
      CountsPartition(Flatten(pages.value));
    }
  }

  /** Earned minus lost is the plain sum of every prediction's points. */
  lemma {:induction false} EarnedMinusLost(ps: seq<PredictionRecord>)
    ensures SumEarned(ps) - SumLost(ps) == SumPoints(ps)
  {
    if |ps| > 0 {
      EarnedMinusLost(ps[1..]);
    }
  }

  /** `net_points` equals the sum of all `points_earned` over the loaded history. */
  lemma NetPointsIsTotal(pages: seq<seq<PredictionRecord>>)
    ensures ComputeStats(Some(pages)).netPoints == SumPoints(Flatten(pages))
  {
    EarnedMinusLost(Flatten(pages));
  }
}
