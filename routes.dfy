/** The route list screen (app/ruteBus.js): the fetched routes, the search
    filter over route number and name, and the switch between the list and a
    route's detail. */
module Routes {
  import opened Js
  import opened Api
  import opened Seqs
  import opened Text

  /** One entry of the route list. */
  datatype Route = Route(id: Value, number: string, routeName: string)

  /** The search predicate: the lower-cased search occurs in the lower-cased
      number or in the lower-cased route name. */
  predicate Matches(r: Route, search: string) {
    Includes(ToLower(r.number), ToLower(search)) || Includes(ToLower(r.routeName), ToLower(search))
  }

  function MatchesSearch(search: string): (matches: Route -> bool) {
    (r: Route) => Matches(r, search)
  }

  /** `filteredRoutes`. */
  function FilteredRoutes(routes: seq<Route>, search: string): (r: seq<Route>)
    ensures |r| <= |routes|
  {
    Filter(MatchesSearch(search), routes)
  }

  /** A route is listed exactly when it matches, and the list keeps the
      order of `routes` and the multiplicity of every matching route. */
  lemma FilteredRoutesSpec(routes: seq<Route>, search: string)
    ensures forall r :: r in FilteredRoutes(routes, search) <==> r in routes && Matches(r, search)
    ensures IsSubsequence(FilteredRoutes(routes, search), routes)
    ensures forall r ::
              multiset(FilteredRoutes(routes, search))[r] ==
              (if Matches(r, search) then multiset(routes)[r] else 0)
  {
    forall r
      ensures r in FilteredRoutes(routes, search) <==> r in routes && Matches(r, search)
      ensures multiset(FilteredRoutes(routes, search))[r] ==
        (if Matches(r, search) then multiset(routes)[r] else 0)
    {
      FilterMembers(MatchesSearch(search), routes, r);
      FilterMultiset(MatchesSearch(search), routes, r);
    }
    FilterIsSubsequence(MatchesSearch(search), routes);
  }

  /** An empty search lists every route. */
  lemma EmptySearchKeepsAll(routes: seq<Route>)
    ensures FilteredRoutes(routes, "") == routes
  {
    forall i | 0 <= i < |routes|
      ensures MatchesSearch("")(routes[i])
    {
      IncludesEmpty(ToLower(routes[i].number));
    }
    FilterKeepsAll(MatchesSearch(""), routes);
  }

  /** Matching ignores ASCII letter case: a search typed in upper or lower
      case lists the same routes. */
  lemma SearchIgnoresCase(routes: seq<Route>, search: string)
    ensures FilteredRoutes(routes, ToUpper(search)) == FilteredRoutes(routes, search)
    ensures FilteredRoutes(routes, ToLower(search)) == FilteredRoutes(routes, search)
  {
    ToLowerOfCaseChange(search);
    FilterExtensional(MatchesSearch(ToUpper(search)), MatchesSearch(search), routes);
    FilterExtensional(MatchesSearch(ToLower(search)), MatchesSearch(search), routes);
  }

  /** What the screen shows. */
  datatype View = Loading | RouteList(shown: seq<Route>) | Detail(route: Value)

  /** The spinner while loading; the filtered list while no route is
      selected; otherwise the selected route's detail. */
  function ViewOf(loading: bool, selectedRoute: Value, routes: seq<Route>, search: string): (v: View)
    ensures v == Loading <==> loading
    ensures v.RouteList? <==> !loading && !Truthy(selectedRoute)
    ensures v.RouteList? ==> v.shown == FilteredRoutes(routes, search)
    ensures v.Detail? <==> !loading && Truthy(selectedRoute)
    ensures v.Detail? ==> v.route == selectedRoute
  {
    if loading then Loading
    else if !Truthy(selectedRoute) then RouteList(FilteredRoutes(routes, search))
    else Detail(selectedRoute)
  }

  /** The screen's state. */
  class RoutePage {
    var routes: seq<Route>
    var selectedRoute: Value
    var search: string
    var loading: bool

    constructor ()
      ensures routes == [] && selectedRoute == Null && search == "" && loading
    {
      routes := [];
      selectedRoute := Null;
      search := "";
      loading := true;
    }

    function Current(): (v: View)
      reads this
    {
      ViewOf(loading, selectedRoute, routes, search)
    }

    /** fetchRoutes: the list is replaced on success and kept on failure;
        loading ends false either way. */
    method FetchRoutes(resp: Fetch<seq<Route>>)
      modifies this
      ensures resp.Resolved? ==> routes == resp.body
      ensures resp.Rejected? ==> routes == old(routes)
      ensures !loading && selectedRoute == old(selectedRoute) && search == old(search)
    {
      if resp.Resolved? {
        routes := resp.body;
      }
      loading := false;
    }

    /** fetchDetail: loading is raised for the request, the selected route is
        replaced on success and kept on failure, and loading ends false. */
    method FetchDetail(resp: Fetch<Value>)
      modifies this
      ensures resp.Resolved? ==> selectedRoute == resp.body
      ensures resp.Rejected? ==> selectedRoute == old(selectedRoute)
      ensures !loading && routes == old(routes) && search == old(search)
      ensures resp.Resolved? && Truthy(resp.body) ==> Current() == Detail(resp.body)
    {
      loading := true;
      if resp.Resolved? {
        selectedRoute := resp.body;
      }
      loading := false;
    }

    /** The back arrow of the detail view: clears the selection, which shows
        the list again. */
    method Back()
      modifies this
      ensures selectedRoute == Null
      ensures routes == old(routes) && search == old(search) && loading == old(loading)
      ensures !loading ==> Current() == RouteList(FilteredRoutes(routes, search))
    {
      selectedRoute := Null;
    }

    /** Typing in the search box. */
    method SetSearch(text: string)
      modifies this
      ensures search == text
      ensures routes == old(routes) && selectedRoute == old(selectedRoute) && loading == old(loading)
    {
      search := text;
    }
  }
}
