/**
 * The process-wide store of browsing filters: the selected day, a search text, the chosen
 * AI models with the AND/OR combinators between them, a strategy type, and pagination.
 * The store's setters update its fields in place; the persisted subset and the
 * query-string encoder/decoder are pure functions of a snapshot of the fields.
 */
module FilterStore {
  import opened Wrappers
  import opened Strings
  import opened QueryParams

  /** A combinator between two adjacent models: `'OR' | 'AND'`. */
  datatype Condition = Or | And

  function ConditionText(c: Condition): string {
    match c
    case Or => "OR"
    case And => "AND"
  }

  const DefaultPageSize: int := 20

  /** A snapshot of the store's data fields. */
  datatype FilterValues = FilterValues(
    date: string,
    q: Option<string>,
    models: seq<string>,
    conditions: seq<Condition>,
    strategyType: Option<string>,
    page: int,
    pageSize: int)

  /** The initial state, and the state `resetFilters` restores, for the day `today`. */
  function Initial(today: string): (v: FilterValues)
    ensures v.date == today && v.page == 1 && v.pageSize == DefaultPageSize
    ensures v.models == [] && v.conditions == [] && v.q.None? && v.strategyType.None?
    ensures EncodeParams(v) == ParamIf("date", today)
  {
    FilterValues(today, None, [], [], None, 1, DefaultPageSize)
  }

  /** `Partial<FilterState>`: each field is either left alone (`None`) or replaced. */
  datatype FilterPatch = FilterPatch(
    date: Option<string>,
    q: Option<Option<string>>,
    models: Option<seq<string>>,
    conditions: Option<seq<Condition>>,
    strategyType: Option<Option<string>>,
    page: Option<int>,
    pageSize: Option<int>)

  const EmptyPatch: FilterPatch := FilterPatch(None, None, None, None, None, None, None)

  /** `set(filters)`: a shallow merge of the patch over the current values. */
  function ApplyPatch(v: FilterValues, p: FilterPatch): (w: FilterValues)
    ensures p.date.None? ==> w.date == v.date
    ensures p.q.None? ==> w.q == v.q
    ensures p.models.None? ==> w.models == v.models
    ensures p.conditions.None? ==> w.conditions == v.conditions
    ensures p.strategyType.None? ==> w.strategyType == v.strategyType
    ensures p.page.None? ==> w.page == v.page
    ensures p.pageSize.None? ==> w.pageSize == v.pageSize
  {
    FilterValues(
      p.date.GetOr(v.date),
      p.q.GetOr(v.q),
      p.models.GetOr(v.models),
      p.conditions.GetOr(v.conditions),
      p.strategyType.GetOr(v.strategyType),
      p.page.GetOr(v.page),
      p.pageSize.GetOr(v.pageSize))
  }

  /** The fields written to storage: everything except `date` and `page`. */
  datatype PersistedFilters = PersistedFilters(
    q: Option<string>,
    models: seq<string>,
    conditions: seq<Condition>,
    strategyType: Option<string>,
    pageSize: int)

  /** `partialize`: the snapshot written under the storage key. Restoring it over the state
      it was taken from changes nothing, so no persisted field is lost. */
  function Partialize(v: FilterValues): (snapshot: PersistedFilters)
    ensures Rehydrate(v, snapshot) == v
  {
    PersistedFilters(v.q, v.models, v.conditions, v.strategyType, v.pageSize)
  }

  /** Rehydration at start-up: the persist middleware's default merge spreads the stored
      fields over the current state. */
  function Rehydrate(current: FilterValues, snapshot: PersistedFilters): FilterValues {
    current.(q := snapshot.q, models := snapshot.models, conditions := snapshot.conditions,
             strategyType := snapshot.strategyType, pageSize := snapshot.pageSize)
  }

  /** After a restart, the store holds the filters it had, except that the date is the new
      day and the page is back to 1. */
  lemma RehydrateAfterRestart(v: FilterValues, today: string)
    ensures Rehydrate(Initial(today), Partialize(v)) == v.(date := today, page := 1)
  {
  }

  /** Two states that differ only in `date` and `page` persist identically, and the snapshot
      keeps every other field. */
  lemma PartializeOmitsDateAndPage(v: FilterValues, date: string, page: int)
    ensures Partialize(v.(date := date, page := page)) == Partialize(v)
    ensures var s := Partialize(v);
      s.q == v.q && s.models == v.models && s.conditions == v.conditions
      && s.strategyType == v.strategyType && s.pageSize == v.pageSize
  {
  }

  // ---------------------------------------------------------------------------
  // setModels: conditions follow the number of models
  // ---------------------------------------------------------------------------

  /** The value appended when conditions must grow: the first existing one, else OR. */
  function FillCondition(current: seq<Condition>): Condition {
    if |current| > 0 then current[0] else Or
  }

  /** The conditions `setModels` leaves for `modelCount` models, starting from `current`. */
  function ResizedConditions(current: seq<Condition>, modelCount: nat): (r: seq<Condition>)
    ensures |r| == if modelCount <= 1 then 0 else modelCount - 1
    ensures forall i :: 0 <= i < |r| && i < |current| ==> r[i] == current[i]
    ensures forall i :: |current| <= i < |r| ==> r[i] == FillCondition(current)
  {
    if modelCount <= 1 then []
    else if |current| < modelCount - 1 then
      current + seq(modelCount - 1 - |current|, _ => FillCondition(current))
    else
      current[..modelCount - 1]
  }

  /** Growing keeps the old list as a prefix; shrinking keeps a prefix of the old list. */
  lemma ResizedIsPrefixOrExtension(current: seq<Condition>, modelCount: nat)
    requires modelCount >= 2
    ensures var r := ResizedConditions(current, modelCount);
      if |current| <= modelCount - 1 then current <= r else r <= current
  {
    var r := ResizedConditions(current, modelCount);
    if |current| <= modelCount - 1 {
      assert r[..|current|] == current;
    } else {
      assert current[..|r|] == r;
    }
  }

  /** The copy-pad-truncate step of `setModels` as the source writes it: copy the old
      conditions, push the fill value until long enough, or cut the length down. */
  method ResizeConditions(current: seq<Condition>, modelCount: nat) returns (newConditions: seq<Condition>)
    ensures newConditions == ResizedConditions(current, modelCount)
  {
    if modelCount <= 1 {
      return [];
    }
    newConditions := current;
    var requiredLength := modelCount - 1;
    if |newConditions| < requiredLength {
      var fill := FillCondition(current);
      while |newConditions| < requiredLength
        invariant |current| <= |newConditions| <= requiredLength
        invariant newConditions[..|current|] == current
        invariant forall i :: |current| <= i < |newConditions| ==> newConditions[i] == fill
      {
        newConditions := newConditions + [fill];
      }
      assert forall i :: 0 <= i < |current| ==> newConditions[i] == newConditions[..|current|][i];
    } else if |newConditions| > requiredLength {
      newConditions := newConditions[..requiredLength];
    }
  }

  // ---------------------------------------------------------------------------
  // The store
  // ---------------------------------------------------------------------------

  class FilterStore {
    var date: string
    var q: Option<string>
    var models: seq<string>
    var conditions: seq<Condition>
    var strategyType: Option<string>
    var page: int
    var pageSize: int

    function Values(): FilterValues
      reads this
    {
      FilterValues(date, q, models, conditions, strategyType, page, pageSize)
    }

    /** The relation `setModels` establishes between models and conditions. */
    predicate ConditionsFitModels()
      reads this
    {
      |conditions| == if |models| <= 1 then 0 else |models| - 1
    }

    /** The store as first created, `today` standing for `getTodayKST()` at load time. */
    constructor (today: string)
      ensures Values() == Initial(today)
      ensures ConditionsFitModels()
    {
      date, q, models, conditions, strategyType := today, None, [], [], None;
      page, pageSize := 1, DefaultPageSize;
    }

    method ResetPagination()
      modifies this
      ensures Values() == old(Values()).(page := 1)
    {
      page := 1;
    }

    method SetDate(newDate: string)
      modifies this
      ensures Values() == old(Values()).(date := newDate, page := 1)
    {
      date := newDate;
      ResetPagination();
    }

    method SetQuery(newQ: Option<string>)
      modifies this
      ensures Values() == old(Values()).(q := newQ, page := 1)
    {
      q := newQ;
      ResetPagination();
    }

    /** Replaces the models, resizes the conditions to one fewer than the models (none
        for zero or one model), and goes back to page 1. */
    method SetModels(newModels: seq<string>)
      modifies this
      ensures Values() == old(Values()).(
        models := newModels,
        conditions := ResizedConditions(old(conditions), |newModels|),
        page := 1)
      ensures ConditionsFitModels()
    {
      if |newModels| <= 1 {
        models, conditions := newModels, [];
      } else {
        var newConditions := ResizeConditions(conditions, |newModels|);
        models, conditions := newModels, newConditions;
      }
      ResetPagination();
    }

    /** Replaces the conditions as given; neither the page nor the models are adjusted. */
    method SetConditions(newConditions: seq<Condition>)
      modifies this
      ensures Values() == old(Values()).(conditions := newConditions)
    {
      conditions := newConditions;
    }

    method SetStrategyType(newStrategyType: Option<string>)
      modifies this
      ensures Values() == old(Values()).(strategyType := newStrategyType, page := 1)
    {
      strategyType := newStrategyType;
      ResetPagination();
    }

    method SetPage(newPage: int)
      modifies this
      ensures Values() == old(Values()).(page := newPage)
    {
      page := newPage;
    }

    method SetPageSize(newPageSize: int)
      modifies this
      ensures Values() == old(Values()).(pageSize := newPageSize, page := 1)
    {
      pageSize, page := newPageSize, 1;
    }

    /** Batch update: merges the patch as it is, with no pagination reset and no
        adjustment of conditions to models. */
    method SetFilters(patch: FilterPatch)
      modifies this
      ensures Values() == ApplyPatch(old(Values()), patch)
    {
      if patch.date.Some? { date := patch.date.value; }
      if patch.q.Some? { q := patch.q.value; }
      if patch.models.Some? { models := patch.models.value; }
      if patch.conditions.Some? { conditions := patch.conditions.value; }
      if patch.strategyType.Some? { strategyType := patch.strategyType.value; }
      if patch.page.Some? { page := patch.page.value; }
      if patch.pageSize.Some? { pageSize := patch.pageSize.value; }
    }

    /** Back to the initial values, with `date` set to `today`. */
    method ResetFilters(today: string)
      modifies this
      ensures Values() == Initial(today)
    {
      date, q, models, conditions, strategyType := today, None, [], [], None;
      page, pageSize := 1, DefaultPageSize;
    }

    function Persisted(): PersistedFilters
      reads this
    {
      Partialize(Values())
    }
  }

  /** `setConditions` can break the relation `setModels` establishes: after choosing two
      models the store has one condition, and three conditions set afterwards are kept as
      given. `fitAfterModels` and `fitAfterConditions` report the relation after each step. */
  method SetConditionsCanBreakFit() returns (fitAfterModels: bool, fitAfterConditions: bool)
    ensures fitAfterModels && !fitAfterConditions
  {
    var store := new FilterStore("2024-01-01");
    store.SetModels(["a", "b"]);
    fitAfterModels := store.ConditionsFitModels();
    store.SetConditions([And, And, And]);
    fitAfterConditions := store.ConditionsFitModels();
  }

  // ---------------------------------------------------------------------------
  // Query-string codec
  // ---------------------------------------------------------------------------

  /** A one-pair list when the value is non-empty, as `if (value) params.set(name, value)`. */
  function ParamIf(name: string, value: string): seq<Param> {
    if value != "" then [Param(name, value)] else []
  }

  function ConditionTexts(cs: seq<Condition>): (ts: seq<string>)
    ensures |ts| == |cs|
    ensures forall i :: 0 <= i < |cs| ==> ts[i] == ConditionText(cs[i])
  {
    if |cs| == 0 then [] else [ConditionText(cs[0])] + ConditionTexts(cs[1..])
  }

  /** The pairs `filterStateToQueryString` puts in its `URLSearchParams`, in order:
      `date`, `q`, `models` (comma-joined), `condition` (comma-joined), `strategy_type`;
      each only when the field is non-empty (for the two lists: has an element). */
  function EncodeParams(v: FilterValues): (ps: seq<Param>)
    ensures |ps| <= 5
    ensures forall p :: p in ps ==> p.name in {"date", "q", "models", "condition", "strategy_type"}
    ensures ps == [] <==>
      v.date == "" && IsBlank(v.q) && v.models == [] && v.conditions == [] && IsBlank(v.strategyType)
  {
    ParamIf("date", v.date)
    + (ParamIf("q", v.q.GetOr(""))
    + ((if |v.models| > 0 then [Param("models", Join(v.models, ','))] else [])
    + ((if |v.conditions| > 0 then [Param("condition", Join(ConditionTexts(v.conditions), ','))] else [])
    + ParamIf("strategy_type", v.strategyType.GetOr("")))))
  }

  /** `filterStateToQueryString`. */
  function ToQueryString(v: FilterValues): (queryString: string)
    ensures queryString == "" <==> EncodeParams(v) == []
  {
    var ps := EncodeParams(v);
    if ps == [] then Serialize(ps)
    else
      SerializeStart(ps);
      Serialize(ps)
  }

  /** The value of a parameter when present and non-empty. */
  function NonEmptyParam(ps: seq<Param>, name: string): (r: Option<string>)
    ensures r.Some? ==> r.value != "" && Get(ps, name) == r
    ensures r.None? ==> IsBlank(Get(ps, name))
  {
    match Get(ps, name)
    case Some(v) => if v != "" then Some(v) else None
    case None => None
  }

  /** Each non-empty comma-separated token: exactly "AND" is AND, anything else OR. */
  function ParseConditions(tokens: seq<string>): (cs: seq<Condition>)
    ensures |cs| == |tokens|
    ensures forall i :: 0 <= i < |tokens| ==> (cs[i] == And <==> tokens[i] == "AND")
  {
    if |tokens| == 0 then []
    else [if tokens[0] == "AND" then And else Or] + ParseConditions(tokens[1..])
  }

  /** The patch `queryStringToFilterState` builds from already parsed parameters. It never
      touches pagination, and sets a field only when its parameter is non-empty. */
  function DecodeParams(ps: seq<Param>): (p: FilterPatch)
    ensures p.page.None? && p.pageSize.None?
    ensures p.date == NonEmptyParam(ps, "date")
    ensures p.q.Some? <==> NonEmptyParam(ps, "q").Some?
    ensures p.q.Some? ==> p.q.value == NonEmptyParam(ps, "q")
    ensures p.strategyType.Some? <==> NonEmptyParam(ps, "strategy_type").Some?
    ensures p.strategyType.Some? ==> p.strategyType.value == NonEmptyParam(ps, "strategy_type")
    ensures p.models.Some? <==> NonEmptyParam(ps, "models").Some?
    ensures p.models.Some? ==>
      p.models.value == NonEmpty(Split(NonEmptyParam(ps, "models").value, ','))
      && forall i :: 0 <= i < |p.models.value| ==> p.models.value[i] != "" && ',' !in p.models.value[i]
    ensures p.conditions.Some? <==> NonEmptyParam(ps, "condition").Some?
    ensures p.conditions.Some? ==>
      var tokens := NonEmpty(Split(NonEmptyParam(ps, "condition").value, ','));
      |p.conditions.value| == |tokens|
      && forall i :: 0 <= i < |tokens| ==> (p.conditions.value[i] == And <==> tokens[i] == "AND")
  {
    var models := NonEmptyParam(ps, "models");
    var condition := NonEmptyParam(ps, "condition");
    var q := NonEmptyParam(ps, "q");
    var strategyType := NonEmptyParam(ps, "strategy_type");
    var modelList := if models.Some? then NonEmpty(Split(models.value, ',')) else [];
    assert forall i :: 0 <= i < |modelList| ==> modelList[i] in modelList;
    FilterPatch(
      NonEmptyParam(ps, "date"),
      if q.Some? then Some(q) else None,
      if models.Some? then Some(modelList) else None,
      if condition.Some? then Some(ParseConditions(NonEmpty(Split(condition.value, ',')))) else None,
      if strategyType.Some? then Some(strategyType) else None,
      None,
      None)
  }

  /** `queryStringToFilterState`. */
  function FromQueryString(queryString: string): (patch: FilterPatch)
    ensures patch.page.None? && patch.pageSize.None?
    ensures queryString == "" ==> patch == EmptyPatch
  {
    DecodeParams(ParseQuery(queryString))
  }

  /** A model name that survives the comma-joined `models` parameter. */
  predicate ModelNameEncodable(m: string) {
    m != "" && ',' !in m
  }

  lemma ConditionTextClean(c: Condition)
    ensures ConditionText(c) != "" && ',' !in ConditionText(c) && '&' !in ConditionText(c)
  {
  }

  lemma {:induction false} ParseConditionTexts(cs: seq<Condition>)
    ensures ParseConditions(ConditionTexts(cs)) == cs
  {
    if |cs| > 0 {
      ParseConditionTexts(cs[1..]);
      assert ConditionTexts(cs)[1..] == ConditionTexts(cs[1..]);
      assert cs == [cs[0]] + cs[1..];
    }
  }

  /** The `condition` parameter reads back as the conditions written. */
  lemma ConditionTextsJoin(cs: seq<Condition>)
    requires |cs| > 0
    ensures Join(ConditionTexts(cs), ',') != ""
    ensures ParseConditions(NonEmpty(Split(Join(ConditionTexts(cs), ','), ','))) == cs
  {
    var ts := ConditionTexts(cs);
    forall i | 0 <= i < |ts| ensures ts[i] != "" && ',' !in ts[i] {
      ConditionTextClean(cs[i]);
    }
    SplitJoin(ts, ',');
    NonEmptyKeepsAll(ts);
    ParseConditionTexts(cs);
  }

  /** The `models` parameter reads back as the models written. */
  lemma ModelsJoin(models: seq<string>)
    requires |models| > 0
    requires forall i :: 0 <= i < |models| ==> ModelNameEncodable(models[i])
    ensures Join(models, ',') != ""
    ensures NonEmpty(Split(Join(models, ','), ',')) == models
  {
    SplitJoin(models, ',');
    NonEmptyKeepsAll(models);
  }

  /** Lookup past a list of at most one pair. */
  lemma GetAfter(head: seq<Param>, rest: seq<Param>, name: string)
    requires |head| <= 1
    ensures Get(head + rest, name) ==
      if |head| == 1 && head[0].name == name then Some(head[0].value) else Get(rest, name)
  {
    GetAppend(head, rest, name);
  }

  /** What `params.get(name)` returns on the encoder's output. */
  lemma GetEncoded(v: FilterValues, name: string)
    ensures Get(EncodeParams(v), name) ==
      if name == "date" && v.date != "" then Some(v.date)
      else if name == "q" && v.q.GetOr("") != "" then Some(v.q.GetOr(""))
      else if name == "models" && |v.models| > 0 then Some(Join(v.models, ','))
      else if name == "condition" && |v.conditions| > 0 then Some(Join(ConditionTexts(v.conditions), ','))
      else if name == "strategy_type" && v.strategyType.GetOr("") != "" then Some(v.strategyType.GetOr(""))
      else None
  {
    var d := if |v.conditions| > 0 then [Param("condition", Join(ConditionTexts(v.conditions), ','))] else [];
    var e := ParamIf("strategy_type", v.strategyType.GetOr(""));
    var c := if |v.models| > 0 then [Param("models", Join(v.models, ','))] else [];
    var b := ParamIf("q", v.q.GetOr(""));
    GetAfter(e, [], name);
    GetAfter(d, e, name);
    GetAfter(c, d + e, name);
    GetAfter(b, c + (d + e), name);
    GetAfter(ParamIf("date", v.date), b + (c + (d + e)), name);
  }

  /** The non-empty values `params.get` finds in the encoder's output for the plain fields. */
  lemma EncodedPlainFields(v: FilterValues)
    ensures NonEmptyParam(EncodeParams(v), "date") == if v.date != "" then Some(v.date) else None
    ensures NonEmptyParam(EncodeParams(v), "q") == if v.q.Some? && v.q.value != "" then v.q else None
    ensures NonEmptyParam(EncodeParams(v), "strategy_type") ==
      if v.strategyType.Some? && v.strategyType.value != "" then v.strategyType else None
    ensures NonEmptyParam(EncodeParams(v), "models") ==
      if Join(v.models, ',') != "" then Some(Join(v.models, ',')) else None
  {
    GetEncoded(v, "date");
    GetEncoded(v, "q");
    GetEncoded(v, "models");
    GetEncoded(v, "strategy_type");
  }

  /** The `condition` value found in the encoder's output: present exactly when there are
      conditions. */
  lemma EncodedConditionField(v: FilterValues)
    ensures NonEmptyParam(EncodeParams(v), "condition") ==
      if |v.conditions| > 0 then Some(Join(ConditionTexts(v.conditions), ',')) else None
  {
    GetEncoded(v, "condition");
    if |v.conditions| > 0 {
      ConditionTextsJoin(v.conditions);
    }
  }

  /** Decoding what the encoder wrote gives back every field it wrote: `date`, `q` and
      `strategy_type` when non-empty, `models` (names non-empty and comma-free) and
      `conditions` when non-empty; pagination is never carried. */
  lemma DecodeEncode(v: FilterValues)
    requires forall i :: 0 <= i < |v.models| ==> ModelNameEncodable(v.models[i])
    ensures var p := DecodeParams(EncodeParams(v));
      && p.date == (if v.date != "" then Some(v.date) else None)
      && p.q == (if v.q.Some? && v.q.value != "" then Some(v.q) else None)
      && p.models == (if |v.models| > 0 then Some(v.models) else None)
      && p.conditions == (if |v.conditions| > 0 then Some(v.conditions) else None)
      && p.strategyType == (if v.strategyType.Some? && v.strategyType.value != "" then Some(v.strategyType) else None)
      && p.page.None? && p.pageSize.None?
  {
    EncodedPlainFields(v);
    EncodedConditionField(v);
    if |v.models| > 0 {
      ModelsJoin(v.models);
    }
    if |v.conditions| > 0 {
      ConditionTextsJoin(v.conditions);
    }
  }

  /** Applying a state's own encoding back onto it changes nothing. */
  lemma ApplyOwnEncoding(v: FilterValues)
    requires forall i :: 0 <= i < |v.models| ==> ModelNameEncodable(v.models[i])
    ensures ApplyPatch(v, DecodeParams(EncodeParams(v))) == v
  {
    DecodeEncode(v);
  }

  /** The encoder writes only the five filter parameters, each with a value free of `&`
      when the filter values are, so its pairs survive the text form unchanged. */
  lemma EncodeParamsVerbatim(v: FilterValues)
    requires forall i :: 0 <= i < |v.models| ==> '&' !in v.models[i]
    requires '&' !in v.date && '&' !in v.q.GetOr("") && '&' !in v.strategyType.GetOr("")
    ensures forall p :: p in EncodeParams(v) ==> Verbatim(p)
  {
    JoinFree(v.models, ',', '&');
    var ts := ConditionTexts(v.conditions);
    forall i | 0 <= i < |ts| ensures '&' !in ts[i] {
      ConditionTextClean(v.conditions[i]);
    }
    JoinFree(ts, ',', '&');
    var c := if |v.models| > 0 then [Param("models", Join(v.models, ','))] else [];
    var d := if |v.conditions| > 0 then [Param("condition", Join(ts, ','))] else [];
    assert Verbatim(Param("models", Join(v.models, ',')));
    assert Verbatim(Param("condition", Join(ts, ',')));
    PiecesVerbatim(v.date, v.q.GetOr(""), c, d, v.strategyType.GetOr(""));
  }

  lemma PiecesVerbatim(date: string, q: string, models: seq<Param>, condition: seq<Param>, strategyType: string)
    requires '&' !in date && '&' !in q && '&' !in strategyType
    requires forall p :: p in models ==> Verbatim(p)
    requires forall p :: p in condition ==> Verbatim(p)
    ensures var ps := ParamIf("date", date) + (ParamIf("q", q) + (models
                        + (condition + ParamIf("strategy_type", strategyType))));
      forall p :: p in ps ==> Verbatim(p)
  {
  }

  /** The text-level round trip: `queryStringToFilterState(filterStateToQueryString(v))`
      gives back the encoded fields, for values free of `&` (which `URLSearchParams` would
      percent-encode). */
  lemma QueryStringRoundTrip(v: FilterValues)
    requires forall i :: 0 <= i < |v.models| ==> ModelNameEncodable(v.models[i]) && '&' !in v.models[i]
    requires '&' !in v.date && '&' !in v.q.GetOr("") && '&' !in v.strategyType.GetOr("")
    ensures FromQueryString(ToQueryString(v)) == DecodeParams(EncodeParams(v))
    ensures ApplyPatch(v, FromQueryString(ToQueryString(v))) == v
  {
    EncodeParamsVerbatim(v);
    var ps := EncodeParams(v);
    assert forall i :: 0 <= i < |ps| ==> ps[i] in ps;
    ParseSerialize(ps);
    ApplyOwnEncoding(v);
  }
}
