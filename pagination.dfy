/**
 * Page-size limits per listing and the clamp that validates a requested limit and offset.
 * JavaScript's `x || d` on a number picks `d` when `x` is missing or 0.
 */
module Pagination {
  import opened Wrappers

  datatype Limits = Limits(min: int, max: int, default: int)

  /** The keys of `PAGINATION_LIMITS`. */
  datatype LimitsKind = PredictionsHistory | PointsLedger | RewardsHistory | UserList | UserSearch

  /** `PAGINATION_LIMITS[kind]`; every entry has its default inside its bounds. */
  function PaginationLimits(kind: LimitsKind): (l: Limits)
    ensures 1 <= l.min <= l.default <= l.max
  {
    match kind
    case PredictionsHistory => Limits(1, 100, 50)
    case PointsLedger => Limits(1, 100, 50)
    case RewardsHistory => Limits(1, 100, 50)
    case UserList => Limits(1, 100, 20)
    case UserSearch => Limits(1, 50, 20)
  }

  /** A request's `limit` and `offset`, each possibly absent. */
  datatype PaginationParams = PaginationParams(limit: Option<int>, offset: Option<int>)

  /** A validated page window: both fields present. */
  datatype PageWindow = PageWindow(limit: int, offset: int)

  /** `x || d` for a number: `d` when `x` is absent or 0. */
  function OrDefault(x: Option<int>, d: int): int {
    if x.None? || x.value == 0 then d else x.value
  }

  function Max(a: int, b: int): int { if a >= b then a else b }
  function Min(a: int, b: int): int { if a <= b then a else b }

  /** `Math.min(Math.max(limit || default, min), max)` for limits of `kind`. */
  function ClampLimit(limit: Option<int>, kind: LimitsKind): (r: int)
    ensures var l := PaginationLimits(kind);
      && l.min <= r <= l.max
      && (limit.None? || limit.value == 0 ==> r == l.default)
      && (limit.Some? && limit.value != 0 && l.min <= limit.value <= l.max ==> r == limit.value)
      && (limit.Some? && limit.value != 0 && limit.value < l.min ==> r == l.min)
      && (limit.Some? && limit.value > l.max ==> r == l.max)
  {
    var l := PaginationLimits(kind);
    Min(Max(OrDefault(limit, l.default), l.min), l.max)
  }

  /** `validatePaginationParams(params, PAGINATION_LIMITS[kind])`. */
  function ValidatePaginationParams(params: PaginationParams, kind: LimitsKind): (r: PageWindow)
    ensures PaginationLimits(kind).min <= r.limit <= PaginationLimits(kind).max
    ensures r.limit == ClampLimit(params.limit, kind)
    ensures r.offset >= 0
    ensures params.offset.Some? && params.offset.value >= 0 ==> r.offset == params.offset.value
    ensures params.offset.None? || params.offset.value <= 0 ==> r.offset == 0
  {
    PageWindow(ClampLimit(params.limit, kind), Max(OrDefault(params.offset, 0), 0))
  }

  /** A validated window is a fixed point: validating it again changes nothing. */
  lemma ValidateIdempotent(params: PaginationParams, kind: LimitsKind)
    ensures var r := ValidatePaginationParams(params, kind);
      ValidatePaginationParams(PaginationParams(Some(r.limit), Some(r.offset)), kind) == r
  {
    var r := ValidatePaginationParams(params, kind);
    assert r.limit != 0;
  }

  /** A missing limit gives exactly the default of every listing. */
  lemma MissingLimitIsDefault(offset: Option<int>, kind: LimitsKind)
    ensures ValidatePaginationParams(PaginationParams(None, offset), kind).limit
         == PaginationLimits(kind).default
  {
  }
}
