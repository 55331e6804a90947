/**
 * The nearby-helpers screen as a state machine: the React state of the page, the events that
 * set it (location callbacks, filter changes, the refresh button, fetch completions, helper
 * clicks), and the two effects that run after a change of their dependencies: refetch on
 * [location, category, radius] and map rebuild on [location, helper list].
 */
module HelpersScreen {
  import opened Wrappers
  import opened Js
  import opened Decimal
  import opened Url
  import opened Helpers
  import opened HelperQuery
  import opened HelperMap
  import opened HelperList

  /** The error notifications the screen raises. */
  datatype Toast = LocationFallbackToast | FetchErrorToast

  /** The coordinate used when the device location cannot be obtained. */
  const ParisCenter := Coord(Number("48.8566"), Number("2.3522"))

  /**
   * The page state. `locationVersion` and `helpersVersion` count the objects installed by
   * `setMyLocation` and `setNearbyHelpers`: React compares effect dependencies by identity,
   * and each of those calls installs a fresh object even when its contents are equal.
   * `backend` is the configured backend URL.
   */
  datatype Screen = Screen(
    backend: string,
    location: Option<Coord>,
    locationVersion: nat,
    helpers: seq<Helper>,
    helpersVersion: nat,
    loading: bool,
    loadingLocation: bool,
    filter: Filter,
    selected: Option<Helper>,
    maps: MapWorld,
    toasts: seq<Toast>)

  function Initial(backend: string): Screen {
    Screen(backend, None, 0, [], 0, true, false, DefaultFilter, None, NoMap, [])
  }

  /** The map container is rendered, and its reference set, only while no location is being obtained. */
  predicate MapContainerMounted(s: Screen) {
    !s.loadingLocation
  }

  /** The location callbacks: the device position, or Paris with or without a notification. */
  function ResolveLocation(s: Screen, o: GeoOutcome): (r: Screen)
    ensures r.location.Some? && !r.loadingLocation
    ensures r.locationVersion > s.locationVersion
    ensures r.location.value == (if o.Position? then o.coord else ParisCenter)
    ensures r.toasts == s.toasts + (if o.PositionError? then [LocationFallbackToast] else [])
    ensures r.(location := s.location, locationVersion := s.locationVersion,
               loadingLocation := s.loadingLocation, toasts := s.toasts) == s
  {
    match o
    case Position(c) =>
      s.(location := Some(c), locationVersion := s.locationVersion + 1, loadingLocation := false)
    case PositionError =>
      s.(location := Some(ParisCenter), locationVersion := s.locationVersion + 1, loadingLocation := false,
         toasts := s.toasts + [LocationFallbackToast])
    case Unsupported =>
      s.(location := Some(ParisCenter), locationVersion := s.locationVersion + 1, loadingLocation := false)
  }

  /** The screen after `fetchNearbyHelpers` has issued its request, and the request URL. */
  datatype Started = Started(screen: Screen, request: Option<string>)

  /**
   * The synchronous part of `fetchNearbyHelpers`: nothing without a location; otherwise the
   * loading flag is raised and a request is issued for the current location and filter.
   */
  function BeginFetch(s: Screen): (r: Started)
    ensures r.request.Some? <==> s.location.Some?
    ensures r.request.Some? ==> r.request.value == NearbyUrl(s.backend, s.location.value, s.filter) && r.screen.loading
    ensures r.request.None? ==> r.screen == s
    ensures r.screen.(loading := s.loading) == s
  {
    if s.location.None? then Started(s, None)
    else Started(s.(loading := true), Some(NearbyUrl(s.backend, s.location.value, s.filter)))
  }

  /**
   * The completion of a request, whichever request it was: an ok response installs its
   * payload as a new list, a non-ok one changes nothing, a thrown error raises one
   * notification; the loading flag is lowered in every case.
   */
  function SettleFetch(s: Screen, o: FetchOutcome): (r: Screen)
    ensures !r.loading
    ensures o.Ok? ==> r.helpers == o.data && r.helpersVersion > s.helpersVersion
    ensures !o.Ok? ==> r.helpers == s.helpers && r.helpersVersion == s.helpersVersion
    ensures r.toasts == s.toasts + (if o.Thrown? then [FetchErrorToast] else [])
    ensures r.(helpers := s.helpers, helpersVersion := s.helpersVersion, loading := s.loading, toasts := s.toasts) == s
  {
    match o
    case Ok(data) => s.(helpers := data, helpersVersion := s.helpersVersion + 1, loading := false)
    case NotOk => s.(loading := false)
    case Thrown => s.(loading := false, toasts := s.toasts + [FetchErrorToast])
  }

  /** The screen after a commit's effects, and the requests they issued. */
  datatype Step = Step(screen: Screen, requests: seq<string>)

  predicate FetchDepsChanged(prev: Screen, next: Screen) {
    prev.locationVersion != next.locationVersion || prev.filter != next.filter
  }

  predicate MapDepsChanged(prev: Screen, next: Screen) {
    prev.locationVersion != next.locationVersion || prev.helpersVersion != next.helpersVersion
  }

  function RequestList(r: Option<string>): seq<string> {
    if r.Some? then [r.value] else []
  }

  /**
   * The effects of a commit, in declaration order: the refetch effect when the location,
   * category or radius changed and a location exists, then the map effect when the location
   * or the helper list changed, a location exists and the container is mounted.
   */
  function RunEffects(prev: Screen, next: Screen): (r: Step)
    ensures |r.requests| == (if FetchDepsChanged(prev, next) && next.location.Some? then 1 else 0)
    ensures |r.requests| == 1 ==>
      r.requests[0] == NearbyUrl(next.backend, next.location.value, next.filter) && r.screen.loading
    ensures |r.requests| == 0 ==> r.screen.loading == next.loading
    ensures MapDepsChanged(prev, next) && next.location.Some? && MapContainerMounted(next) ==>
      r.screen.maps == InitMap(next.maps, next.location.value, next.helpers, next.filter.radius)
    ensures !(MapDepsChanged(prev, next) && next.location.Some? && MapContainerMounted(next)) ==>
      r.screen.maps == next.maps
    ensures r.screen.(maps := next.maps, loading := next.loading) == next
  {
    var fetched :=
      if FetchDepsChanged(prev, next) && next.location.Some? then BeginFetch(next) else Started(next, None);
    var s := fetched.screen;
    var rebuilt :=
      if MapDepsChanged(prev, next) && next.location.Some? && MapContainerMounted(next)
      then s.(maps := InitMap(s.maps, next.location.value, next.helpers, next.filter.radius))
      else s;
    Step(rebuilt, RequestList(fetched.request))
  }

  datatype Event =
    | Locate                       // getMyLocation asks the device for a position
    | Located(outcome: GeoOutcome) // the geolocation callback, or the unsupported branch
    | ChooseCategory(value: string)
    | ChooseRadius(km: nat)
    | Refresh                      // the refresh button calls fetchNearbyHelpers directly
    | Settled(result: FetchOutcome)
    | PickHelper(helper: Helper)   // a click on a helper's marker or card

  /** The state setters an event calls, before effects run. */
  function Update(s: Screen, e: Event): (r: Screen)
    ensures r.backend == s.backend && r.maps == s.maps
    ensures e.ChooseCategory? ==> r.filter == Filter(e.value, s.filter.radius)
    ensures e.ChooseRadius? ==> r.filter == Filter(s.filter.category, e.km)
    ensures !e.ChooseCategory? && !e.ChooseRadius? ==> r.filter == s.filter
    ensures r.selected == (if e.PickHelper? then Some(e.helper) else s.selected)
    ensures !e.Located? ==> r.location == s.location && r.locationVersion == s.locationVersion
    ensures !e.Settled? ==> r.helpers == s.helpers && r.helpersVersion == s.helpersVersion
    ensures e.ChooseCategory? || e.ChooseRadius? ==> r.(filter := s.filter) == s
    ensures e.PickHelper? ==> r.(selected := s.selected) == s
    ensures e.Refresh? ==> r == s
    ensures e.Locate? ==> r.loadingLocation && r.(loadingLocation := s.loadingLocation) == s
    ensures e.Located? ==> r == ResolveLocation(s, e.outcome)
    ensures e.Settled? ==> r == SettleFetch(s, e.result)
  {
    match e
    case Locate => s.(loadingLocation := true)
    case Located(o) => ResolveLocation(s, o)
    case ChooseCategory(v) => s.(filter := s.filter.(category := v))
    case ChooseRadius(km) => s.(filter := s.filter.(radius := km))
    case Refresh => s
    case Settled(o) => SettleFetch(s, o)
    case PickHelper(h) => s.(selected := Some(h))
  }

  /** One event: its state updates or direct fetch, then the effects of the resulting commit. */
  function Dispatch(s: Screen, e: Event): Step {
    var direct := if e.Refresh? then BeginFetch(s) else Started(Update(s, e), None);
    var effects := RunEffects(s, direct.screen);
    Step(effects.screen, RequestList(direct.request) + effects.requests)
  }

  /** A sequence of events from `s`, with all the requests issued on the way. */
  function Run(s: Screen, es: seq<Event>): Step
    decreases |es|
  {
    if |es| == 0 then Step(s, [])
    else
      var first := Dispatch(s, es[0]);
      var rest := Run(first.screen, es[1..]);
      Step(rest.screen, first.requests + rest.requests)
  }

  /** Whether an event leads to a nearby-helpers request, stated from the page's triggers. */
  predicate TriggersFetch(s: Screen, e: Event) {
    match e
    case Locate => false
    case Located(_) => true
    case ChooseCategory(v) => s.location.Some? && v != s.filter.category
    case ChooseRadius(km) => s.location.Some? && km != s.filter.radius
    case Refresh => s.location.Some?
    case Settled(_) => false
    case PickHelper(_) => false
  }

  /**
   * An event issues exactly one request when it triggers a fetch and none otherwise; the
   * request is for the resulting location and filter, and it leaves the loading flag raised.
   */
  lemma RequestsFollowTriggers(s: Screen, e: Event)
    ensures var st := Dispatch(s, e);
      && |st.requests| == (if TriggersFetch(s, e) then 1 else 0)
      && (TriggersFetch(s, e) ==>
            && st.screen.location.Some?
            && st.requests[0] == NearbyUrl(s.backend, st.screen.location.value, st.screen.filter)
            && st.screen.loading)
  {
  }

  /** Every event keeps the backend, and only the category and radius events change the filter. */
  lemma FilterOnlyChangedByChoices(s: Screen, e: Event)
    requires !e.ChooseCategory? && !e.ChooseRadius?
    ensures Dispatch(s, e).screen.filter == s.filter
    ensures Dispatch(s, e).screen.backend == s.backend
  {
  }

  /** Without a location, the refresh button and the filter changes do nothing at all. */
  lemma NoLocationNoFetch(s: Screen, e: Event)
    requires s.location.None?
    requires e.Refresh? || e.ChooseCategory? || e.ChooseRadius?
    ensures Dispatch(s, e).requests == []
    ensures Dispatch(s, e).screen == Update(s, e)
  {
  }

  /**
   * While the location is present and the map container mounted, the held map is centred
   * at the location, carries the self marker there, and its markers, like the screen's
   * marker list, are those of the current helper list.
   */
  predicate MapSynced(s: Screen) {
    s.location.Some? && MapContainerMounted(s) ==>
      && s.maps.current.Some?
      && s.maps.current.value.center == s.location.value
      && s.maps.current.value.selfMarker == s.location.value
      && s.maps.markerList == s.maps.current.value.markers == HelperMarkers(s.helpers)
  }

  predicate Invariant(s: Screen) {
    SingleLive(s.maps) && MapSynced(s)
  }

  lemma InitialInvariant(backend: string)
    ensures Invariant(Initial(backend))
  {
  }

  lemma RunEffectsKeepInvariant(prev: Screen, next: Screen)
    requires SingleLive(next.maps)
    requires MapSynced(prev)
    requires next.maps == prev.maps
    requires next.location.Some? && MapContainerMounted(next) && !MapDepsChanged(prev, next) ==>
      prev.location == next.location && MapContainerMounted(prev) && prev.helpers == next.helpers
    ensures Invariant(RunEffects(prev, next).screen)
  {
  }

  /** Every event keeps at most one live map and keeps the held map in step with the results. */
  lemma DispatchKeepsInvariant(s: Screen, e: Event)
    requires Invariant(s)
    ensures Invariant(Dispatch(s, e).screen)
  {
    var direct := if e.Refresh? then BeginFetch(s) else Started(Update(s, e), None);
    RunEffectsKeepInvariant(s, direct.screen);
  }

  lemma {:induction false} RunKeepsInvariant(s: Screen, es: seq<Event>)
    requires Invariant(s)
    ensures Invariant(Run(s, es).screen)
    decreases |es|
  {
    if |es| > 0 {
      DispatchKeepsInvariant(s, es[0]);
      RunKeepsInvariant(Dispatch(s, es[0]).screen, es[1..]);
    }
  }

  /**
   * Whatever the events, the screen never has more than one live map, and once the location
   * is known and the container mounted, the map shows exactly the placed helpers of the list.
   */
  lemma AnyRunKeepsOneSyncedMap(backend: string, es: seq<Event>)
    ensures var s := Run(Initial(backend), es).screen;
      && |s.maps.live| <= 1
      && (s.location.Some? && MapContainerMounted(s) ==>
            s.maps.current.Some? && s.maps.current.value.markers == HelperMarkers(s.helpers))
  {
    InitialInvariant(backend);
    RunKeepsInvariant(Initial(backend), es);
  }

  /**
   * Obtaining the location: the device position, or Paris (with one notification on an
   * error), the location spinner gone, one request for the new location, and a fresh map
   * centred there with the radius circle and the markers of the current list.
   */
  lemma LocationArrival(s: Screen, o: GeoOutcome)
    ensures var st := Dispatch(s, Located(o));
      var at := if o.Position? then o.coord else ParisCenter;
      && st.screen.location == Some(at)
      && !st.screen.loadingLocation
      && st.screen.toasts == s.toasts + (if o.PositionError? then [LocationFallbackToast] else [])
      && st.requests == [NearbyUrl(s.backend, at, s.filter)]
      && st.screen.maps.current.Some?
      && st.screen.maps.current.value.center == at
      && st.screen.maps.current.value.circle == Circle(at, s.filter.radius * 1000)
      && st.screen.maps.current.value.markers == HelperMarkers(s.helpers)
  {
  }

  /**
   * Opening the screen: after asking for the location and receiving an outcome, exactly one
   * request is issued, with the default radius and no category parameter; the list is still
   * loading, and the single live map shows only the self marker and a 10 km circle.
   */
  lemma OpeningTheScreen(backend: string, o: GeoOutcome)
    ensures var st := Run(Initial(backend), [Locate, Located(o)]);
      var at := if o.Position? then o.coord else ParisCenter;
      && st.screen.location == Some(at)
      && st.requests == [NearbyUrl(backend, at, Filter(AllCategories, 10))]
      && st.screen.loading
      && |st.screen.maps.live| == 1
      && st.screen.maps.current.Some?
      && st.screen.maps.current.value.markers == []
      && st.screen.maps.current.value.circle == Circle(at, 10000)
      && st.screen.toasts == (if o.PositionError? then [LocationFallbackToast] else [])
  {
    var s1 := Initial(backend).(loadingLocation := true);
    LocateFromInitial(backend);
    RunOfTwo(Initial(backend), Locate, Located(o));
    LocationArrival(s1, o);
  }

  /** Asking for the location on a fresh screen only raises the location spinner. */
  lemma LocateFromInitial(backend: string)
    ensures Dispatch(Initial(backend), Locate) == Step(Initial(backend).(loadingLocation := true), [])
  {
  }

  /** Running two events is dispatching the second from the state the first left. */
  lemma RunOfTwo(s: Screen, e1: Event, e2: Event)
    ensures var d1 := Dispatch(s, e1); var d2 := Dispatch(d1.screen, e2);
      Run(s, [e1, e2]) == Step(d2.screen, d1.requests + d2.requests)
  {
    var d1 := Dispatch(s, e1);
    RunCons(d1.screen, e2, []);
    assert [e2] + [] == [e2];
    RunCons(s, e1, [e2]);
    assert [e1] + [e2] == [e1, e2];
  }

  /**
   * A completed request, whichever it was: an ok payload becomes the list in the order
   * received and the map is rebuilt from it; a non-ok response changes nothing but the
   * loading flag; a thrown error also raises one notification. The selection is kept.
   */
  lemma RequestCompletion(s: Screen, o: FetchOutcome)
    requires Invariant(s)
    ensures var st := Dispatch(s, Settled(o)).screen;
      && !st.loading
      && st.helpers == (if o.Ok? then o.data else s.helpers)
      && st.toasts == s.toasts + (if o.Thrown? then [FetchErrorToast] else [])
      && st.selected == s.selected
      && st.filter == s.filter
      && (!o.Ok? ==> st.maps == s.maps)
      && (o.Ok? && s.location.Some? && MapContainerMounted(s) ==>
            && st.maps.current.Some?
            && st.maps.current.value.markers == HelperMarkers(o.data)
            && st.maps.current.value.circle == Circle(s.location.value, s.filter.radius * 1000)
            && st.maps.current.value.id !in s.maps.live)
  {
  }

  /**
   * There is no guard against stale responses: when the request for an earlier category
   * completes after the request for the later one, its payload is what the list shows.
   */
  lemma LateResponseWins(s: Screen, first: string, second: string, early: seq<Helper>, late: seq<Helper>)
    requires s.location.Some?
    requires first != s.filter.category && second != first
    ensures var st := Run(s, [ChooseCategory(first), ChooseCategory(second), Settled(Ok(late)), Settled(Ok(early))]);
      && |st.requests| == 2
      && st.screen.filter.category == second
      && st.screen.helpers == early
  {
    var choices := [ChooseCategory(first), ChooseCategory(second)];
    var settles := [Settled(Ok(late)), Settled(Ok(early))];
    RunAppend(s, choices, settles);
    assert choices + settles == [ChooseCategory(first), ChooseCategory(second), Settled(Ok(late)), Settled(Ok(early))];
    TwoChoices(s, first, second);
    TwoSettles(Run(s, choices).screen, late, early);
  }

  /** Two category choices in a row, each different from the one before, issue two requests. */
  lemma TwoChoices(s: Screen, first: string, second: string)
    requires s.location.Some?
    requires first != s.filter.category && second != first
    ensures var st := Run(s, [ChooseCategory(first), ChooseCategory(second)]);
      |st.requests| == 2 && st.screen.filter.category == second
  {
    var s1 := Dispatch(s, ChooseCategory(first));
    CategoryChoice(s, first);
    CategoryChoice(s1.screen, second);
    RunCons(s1.screen, ChooseCategory(second), []);
    assert [ChooseCategory(second)] + [] == [ChooseCategory(second)];
    RunCons(s, ChooseCategory(first), [ChooseCategory(second)]);
    assert [ChooseCategory(first)] + [ChooseCategory(second)] == [ChooseCategory(first), ChooseCategory(second)];
  }

  /** Two successful responses in a row: the one that settles last is the list shown. */
  lemma TwoSettles(s: Screen, late: seq<Helper>, early: seq<Helper>)
    ensures var st := Run(s, [Settled(Ok(late)), Settled(Ok(early))]);
      st.requests == [] && st.screen.helpers == early && st.screen.filter == s.filter
  {
    var s1 := Dispatch(s, Settled(Ok(late)));
    OkSettle(s, late);
    OkSettle(s1.screen, early);
    RunCons(s1.screen, Settled(Ok(early)), []);
    assert [Settled(Ok(early))] + [] == [Settled(Ok(early))];
    RunCons(s, Settled(Ok(late)), [Settled(Ok(early))]);
    assert [Settled(Ok(late))] + [Settled(Ok(early))] == [Settled(Ok(late)), Settled(Ok(early))];
  }

  /** Running two event sequences back to back is running the second from where the first left off. */
  lemma {:induction false} RunAppend(s: Screen, a: seq<Event>, b: seq<Event>)
    ensures var first := Run(s, a);
      var rest := Run(first.screen, b);
      Run(s, a + b) == Step(rest.screen, first.requests + rest.requests)
    decreases |a|
  {
    if |a| == 0 {
      assert a + b == b;
    } else {
      var d := Dispatch(s, a[0]);
      assert (a + b)[0] == a[0] && (a + b)[1..] == a[1..] + b;
      RunAppend(d.screen, a[1..], b);
      var mid := Run(d.screen, a[1..]);
      var rest := Run(mid.screen, b);
      assert d.requests + (mid.requests + rest.requests) == (d.requests + mid.requests) + rest.requests;
    }
  }

  /** Running events one after the other: the first event's dispatch, then the rest from its state. */
  lemma RunCons(s: Screen, e: Event, es: seq<Event>)
    ensures var first := Dispatch(s, e);
      var rest := Run(first.screen, es);
      Run(s, [e] + es) == Step(rest.screen, first.requests + rest.requests)
  {
    assert ([e] + es)[1..] == es;
  }

  /** With a location, choosing another category issues one request and sets the category. */
  lemma CategoryChoice(s: Screen, v: string)
    requires s.location.Some? && v != s.filter.category
    ensures var st := Dispatch(s, ChooseCategory(v));
      |st.requests| == 1 && st.screen.filter.category == v && st.screen.location.Some?
  {
    RequestsFollowTriggers(s, ChooseCategory(v));
  }

  /** An ok completion issues no request and installs its payload, keeping the filter. */
  lemma OkSettle(s: Screen, data: seq<Helper>)
    ensures var st := Dispatch(s, Settled(Ok(data)));
      st.requests == [] && st.screen.helpers == data && st.screen.filter == s.filter
  {
    RequestsFollowTriggers(s, Settled(Ok(data)));
  }

  /** A new result does not clear a selection, even one whose helper is not in it. */
  lemma SelectionOutlivesResults(s: Screen, data: seq<Helper>)
    requires s.selected.Some? && s.selected.value !in data
    ensures Dispatch(s, Settled(Ok(data))).screen.selected == s.selected
  {
  }

  /**
   * The map effect does not depend on the radius: choosing another radius leaves the map as
   * it was, and if the refetch then fails, the circle still has the previous radius.
   */
  lemma CircleKeepsRadiusAfterFailedRefetch(s: Screen, km: nat, failure: FetchOutcome)
    requires s.maps.current.Some? && s.maps.current.value.circle.metres == s.filter.radius * 1000
    requires km != s.filter.radius && !failure.Ok?
    ensures var st := Run(s, [ChooseRadius(km), Settled(failure)]).screen;
      && st.filter.radius == km
      && st.maps.current == s.maps.current
      && st.maps.current.value.circle.metres != km * 1000
  {
    var s1 := Dispatch(s, ChooseRadius(km));
    var s2 := Dispatch(s1.screen, Settled(failure));
    assert Run(s1.screen, [Settled(failure)]) == Step(s2.screen, s2.requests);
  }

  /**
   * An empty result: the list shows its empty-state message and the map keeps only the self
   * marker and the radius circle.
   */
  lemma EmptyResult(s: Screen)
    requires Invariant(s) && s.location.Some? && MapContainerMounted(s)
    ensures var st := Dispatch(s, Settled(Ok([]))).screen;
      && ListOf(st.loading, st.helpers, st.selected) == NoHelpers
      && st.maps.current.Some?
      && st.maps.current.value.markers == []
      && st.maps.current.value.selfMarker == s.location.value
      && st.maps.current.value.circle == Circle(s.location.value, s.filter.radius * 1000)
  {
  }

  /**
   * Changing the radius from 10 to 50 km issues exactly one request, whose `radius` reads
   * 50 and whose category parameter is the one sent before.
   */
  lemma RadiusWidening(s: Screen)
    requires s.location.Some? && NumericCoord(s.location.value)
    requires s.filter.radius == 10 && Plain(s.filter.category) && '?' !in s.backend
    ensures var st := Dispatch(s, ChooseRadius(50));
      && |st.requests| == 1
      && var parsed := Parse(st.requests[0]);
      && parsed.Some?
      && Lookup(parsed.value.1, "radius") == Some("50")
      && Lookup(parsed.value.1, "category") == Lookup(NearbyParams(s.location.value, s.filter), "category")
  {
    var g := s.filter.(radius := 50);
    RequestsFollowTriggers(s, ChooseRadius(50));
    assert Dispatch(s, ChooseRadius(50)).requests == [NearbyUrl(s.backend, s.location.value, g)];
    ParseNearbyUrl(s.backend, s.location.value, g);
    NearbyParamsLookups(s.location.value, g);
    NearbyParamsLookups(s.location.value, s.filter);
    FiftyText();
  }

  lemma FiftyText()
    ensures NatToString(50) == "50"
  {
    assert NatToString(5) == "5";
  }
}
