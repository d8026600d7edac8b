/**
 * Deep-link handling: a link such as `bamtoly://detail?symbol=AAPL&date=2024-01-01` first
 * updates the filter store from its query string, then opens at most one screen chosen by
 * its path.
 *
 * `Linking.parse` and `new URL` are not modelled: their results are parameters, `None`
 * where the parser throws, which the handler catches and reports without effect.
 */
module DeepLinking {
  import opened Wrappers
  import opened QueryParams
  import opened FilterStore

  /** The screens a link can open, with the route parameters each receives. */
  datatype NavTarget =
    | SignalDetail(symbol: string, aiModel: Option<string>, date: Option<string>)
    | PredictionScreen(symbol: string, aiModel: Option<string>, date: Option<string>)
    | LoginScreen
    | DashboardScreen

  /** What `Linking.parse` returns: the path (`None` for `null`) and the query parameters. */
  datatype ParsedLink = ParsedLink(path: Option<string>, queryParams: seq<Param>)

  /** The two updates a link asks for: a filter patch and a navigation, each optional. */
  datatype DeepLinkAction = DeepLinkAction(patch: Option<FilterPatch>, navigation: Option<NavTarget>)

  const NoAction := DeepLinkAction(None, None)

  /** The `switch` on the path. `detail` and `predict` open their screen only with a truthy
      `symbol`; `login` opens the login screen; every other path, `dashboard` included,
      opens the dashboard. */
  function Route(path: string, queryParams: seq<Param>): (nav: Option<NavTarget>)
    ensures nav.None? <==> (path == "detail" || path == "predict") && IsBlank(Get(queryParams, "symbol"))
    ensures nav.Some? && nav.value.SignalDetail? <==> path == "detail" && nav.Some?
    ensures nav.Some? && nav.value.PredictionScreen? <==> path == "predict" && nav.Some?
    ensures nav == Some(LoginScreen) <==> path == "login"
    ensures nav == Some(DashboardScreen) <==> path != "detail" && path != "predict" && path != "login"
    ensures nav.Some? && (nav.value.SignalDetail? || nav.value.PredictionScreen?) ==>
      && Get(queryParams, "symbol") == Some(nav.value.symbol) && nav.value.symbol != ""
      && nav.value.aiModel == Get(queryParams, "aiModel")
      && nav.value.date == Get(queryParams, "date")
  {
    var symbol := Get(queryParams, "symbol");
    var aiModel := Get(queryParams, "aiModel");
    var date := Get(queryParams, "date");
    if path == "detail" then
      if IsBlank(symbol) then None else Some(SignalDetail(symbol.value, aiModel, date))
    else if path == "predict" then
      if IsBlank(symbol) then None else Some(PredictionScreen(symbol.value, aiModel, date))
    else if path == "login" then Some(LoginScreen)
    else Some(DashboardScreen)
  }

  /** `handleDeepLink` as a decision. Nothing happens when navigation is not ready, when
      the link does not parse, when its path is empty, or when `new URL` throws. Otherwise a
      non-empty query string (`search` without its `?`) is decoded into a filter patch, and
      the path alone picks the navigation. */
  function Dispatch(ready: bool, link: Option<ParsedLink>, search: Option<string>): (action: DeepLinkAction)
    ensures !ready || link.None? || IsBlank(link.value.path) || search.None? ==> action == NoAction
    ensures action.patch.Some? <==>
      ready && link.Some? && !IsBlank(link.value.path) && search.Some? && search.value != ""
    ensures action.patch.Some? ==> action.patch.value == FromQueryString(search.value)
    ensures ready && link.Some? && !IsBlank(link.value.path) && search.Some? ==>
      action.navigation == Route(link.value.path.value, link.value.queryParams)
  {
    if !ready || link.None? || IsBlank(link.value.path) || search.None? then NoAction
    else
      DeepLinkAction(
        if search.value != "" then Some(FromQueryString(search.value)) else None,
        Route(link.value.path.value, link.value.queryParams))
  }

  /** The filter update depends only on the query string: two links with different paths
      and the same query update the filters identically. */
  lemma PatchIndependentOfPath(link1: ParsedLink, link2: ParsedLink, search: Option<string>)
    requires !IsBlank(link1.path) && !IsBlank(link2.path)
    ensures Dispatch(true, Some(link1), search).patch == Dispatch(true, Some(link2), search).patch
  {
  }

  /** A link carrying the query string of a complete filter state sets the filter fields of
      any store to that state's, leaving pagination as it was. */
  lemma SharedLinkCarriesFilters(current: FilterValues, shared: FilterValues)
    requires forall i :: 0 <= i < |shared.models| ==> ModelNameEncodable(shared.models[i]) && '&' !in shared.models[i]
    requires '&' !in shared.date && '&' !in shared.q.GetOr("") && '&' !in shared.strategyType.GetOr("")
    requires shared.date != "" && shared.q.Some? && shared.q.value != ""
    requires shared.strategyType.Some? && shared.strategyType.value != ""
    requires |shared.models| > 0 && |shared.conditions| > 0
    ensures ApplyPatch(current, FromQueryString(ToQueryString(shared)))
         == shared.(page := current.page, pageSize := current.pageSize)
  {
    QueryStringRoundTrip(shared);
    DecodeEncode(shared);
  }

  /** The navigation container: the screens opened so far, in order. */
  class Navigator {
    var screens: seq<NavTarget>

    constructor()
      ensures screens == []
    {
      screens := [];
    }

    method Navigate(target: NavTarget)
      modifies this
      ensures screens == old(screens) + [target]
    {
      screens := screens + [target];
    }
  }

  /** `handleDeepLink`: applies the decided patch through `setFilters`, then makes at most
      one navigation. When navigation is not ready, the store and the navigator are left
      untouched. */
  method HandleDeepLink(filters: FilterStore, navigator: Navigator, ready: bool,
                        link: Option<ParsedLink>, search: Option<string>)
    modifies filters, navigator
    ensures var action := Dispatch(ready, link, search);
      && filters.Values() == (if action.patch.Some? then ApplyPatch(old(filters.Values()), action.patch.value)
                              else old(filters.Values()))
      && navigator.screens == old(navigator.screens)
                             + (if action.navigation.Some? then [action.navigation.value] else [])
    ensures !ready ==> filters.Values() == old(filters.Values()) && navigator.screens == old(navigator.screens)
  {
    var action := Dispatch(ready, link, search);
    if action.patch.Some? {
      filters.SetFilters(action.patch.value);
    }
    if action.navigation.Some? {
      navigator.Navigate(action.navigation.value);
    }
  }
}
