/** The home screen (app/index.js): the live bus position polled from the
    realtime endpoint, the map tab's choice of view, and the redirect of an
    anonymous visitor to onboarding. */
module Home {
  import opened Js
  import opened Api
  import opened Realtime
  import Session

  /** The marker position: coordinates kept as sent (parseFloat is not modelled). */
  datatype Position = Position(latitude: Value, longitude: Value, koridor: string, noBus: string)

  function PositionOf(r: Record): (p: Position)
    ensures p.latitude == r.latitude && p.longitude == r.longitude
    ensures p.koridor == r.koridor && p.noBus == r.noBus
  {
    Position(r.latitude, r.longitude, r.koridor, r.noBus)
  }

  /** fetchBusData's condition: a successful body whose data is an array whose
      first element has truthy coordinates. */
  predicate Usable(resp: Fetch<Body>) {
    && resp.Resolved? && resp.body.success && resp.body.data.Some?
    && |resp.body.data.value| > 0
    && Truthy(resp.body.data.value[0].latitude) && Truthy(resp.body.data.value[0].longitude)
  }

  /** `busPosition` after one tick. */
  function NextPosition(prev: Option<Position>, resp: Fetch<Body>): (p: Option<Position>)
    ensures Usable(resp) ==> p == Some(PositionOf(resp.body.data.value[0]))
    ensures !Usable(resp) ==> p == prev
  {
    match resp
    case Rejected(_) => prev
    case Resolved(body) =>
      if body.success && body.data.Some? then
        var data := body.data.value;
        if |data| > 0 && Truthy(data[0].latitude) && Truthy(data[0].longitude)
        then Some(PositionOf(data[0]))
        else prev
      else prev
  }

  /** Only the first report is examined: what follows it never matters, so a
      first report without coordinates keeps the old position even when later
      reports have them. */
  lemma OnlyFirstReportCounts(prev: Option<Position>, success: bool, first: Record, rest: seq<Record>, rest': seq<Record>)
    ensures NextPosition(prev, Resolved(Body(success, Some([first] + rest))))
         == NextPosition(prev, Resolved(Body(success, Some([first] + rest'))))
    ensures !Truthy(first.latitude) || !Truthy(first.longitude) ==>
      NextPosition(prev, Resolved(Body(success, Some([first] + rest)))) == prev
  {
  }

  /** A changed position comes from a usable response and carries its first
      report's corridor and bus number. */
  lemma PositionChangesOnlyWhenUsable(prev: Option<Position>, resp: Fetch<Body>)
    requires NextPosition(prev, resp) != prev
    ensures Usable(resp)
    ensures NextPosition(prev, resp).value.koridor == resp.body.data.value[0].koridor
    ensures NextPosition(prev, resp).value.noBus == resp.body.data.value[0].noBus
  {
  }

  /** `busPosition` after a run of ticks, resolved in order. */
  function AfterTicks(prev: Option<Position>, resps: seq<Fetch<Body>>): (position: Option<Position>)
    decreases |resps|
  {
    if resps == [] then prev else NextPosition(AfterTicks(prev, resps[..|resps| - 1]), resps[|resps| - 1])
  }

  /** The position is never lost once known: failed or unusable ticks keep it. */
  lemma {:induction false} PositionPersists(prev: Option<Position>, resps: seq<Fetch<Body>>)
    requires prev.Some?
    ensures AfterTicks(prev, resps).Some?
    decreases |resps|
  {
    if resps != [] {
      PositionPersists(prev, resps[..|resps| - 1]);
    }
  }

  /** What the screen shows. */
  datatype View = LoadingUser | HomeTab | MapSpinner | MapUnavailable | MapShown(position: Position)

  /** The session's loading screen first; then the home tab when `activeTab`
      is "home"; otherwise the map tab, which shows a spinner while loading,
      "belum tersedia" without a position, and the map otherwise. */
  function ViewOf(sessionLoading: bool, activeTab: string, loadingBus: bool, busPosition: Option<Position>): (v: View)
    ensures v == LoadingUser <==> sessionLoading
    ensures v == HomeTab <==> !sessionLoading && activeTab == "home"
    ensures v == MapSpinner <==> !sessionLoading && activeTab != "home" && loadingBus
    ensures v == MapUnavailable <==> !sessionLoading && activeTab != "home" && !loadingBus && busPosition.None?
    ensures v.MapShown? <==> !sessionLoading && activeTab != "home" && !loadingBus && busPosition.Some?
    ensures v.MapShown? ==> v.position == busPosition.value
  {
    if sessionLoading then LoadingUser
    else if activeTab == "home" then HomeTab
    else if loadingBus then MapSpinner
    else if busPosition.None? then MapUnavailable
    else MapShown(busPosition.value)
  }

  /** The effect on `[loading, user]`: redirect when the session is settled and
      holds no user. */
  predicate RedirectsToOnboarding(loading: bool, user: Value) {
    !loading && !Truthy(user)
  }

  /** The redirect fires exactly in the session's Anonymous phase, and so
      after every getProfile that finds no usable token. */
  lemma RedirectIffAnonymous(s: Session.State, resp: Fetch<Value>)
    ensures RedirectsToOnboarding(s.loading, s.user) <==> Session.PhaseOf(s) == Session.Anonymous
    ensures !HasToken(StoredToken(s.storage)) ==>
      var t := Session.ProfileStep(s, false, resp); RedirectsToOnboarding(t.loading, t.user)
  {
  }

  /** The screen's polled state. */
  class Screen {
    var busPosition: Option<Position>
    var loadingBus: bool

    constructor ()
      ensures busPosition == None && loadingBus
    {
      busPosition := None;
      loadingBus := true;
    }

    /** One call of fetchBusData with the given outcome of the request. */
    method FetchTick(resp: Fetch<Body>)
      modifies this
      ensures busPosition == NextPosition(old(busPosition), resp)
      ensures !loadingBus
    {
      if resp.Resolved? && resp.body.success && resp.body.data.Some? {
        var data := resp.body.data.value;
        if |data| > 0 {
          var firstBus := data[0];
          if Truthy(firstBus.latitude) && Truthy(firstBus.longitude) {
            busPosition := Some(Position(firstBus.latitude, firstBus.longitude, firstBus.koridor, firstBus.noBus));
          }
        }
      }
      loadingBus := false;
    }
  }
}
