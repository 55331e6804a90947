/**
 * The interactive map of the nearby-helpers screen, with the mapping library reduced to an
 * abstract handle: maps are created and removed, and each carries a view, a self marker,
 * one marker per placed helper and a radius circle.
 */
module HelperMap {
  import opened Wrappers
  import opened Js
  import opened Helpers

  const InitialZoom: nat := 13

  const MetresPerKm: nat := 1000

  datatype Marker = Marker(at: Coord, helper: Helper)

  datatype Circle = Circle(center: Coord, metres: nat)

  /** One map made by the library: its view, the "you are here" marker, helper markers and circle. */
  datatype MapInstance = MapInstance(
    id: nat,
    center: Coord,
    zoom: nat,
    selfMarker: Coord,
    markers: seq<Marker>,
    circle: Circle)

  /**
   * The library's maps as the screen sees them: the ids of maps created and not yet removed,
   * the map held by the screen's map reference, the screen's marker list, and the next id.
   */
  datatype MapWorld = MapWorld(live: set<nat>, current: Option<MapInstance>, markerList: seq<Marker>, nextId: nat)

  const NoMap := MapWorld({}, None, [], 0)

  /** At most one map is alive, and it is the one the screen holds. */
  predicate SingleLive(w: MapWorld) {
    && (w.current.None? ==> w.live == {})
    && (w.current.Some? ==> w.live == {w.current.value.id})
    && forall id :: id in w.live ==> id < w.nextId
  }

  function MarkerFor(h: Helper): Marker
    requires h.location.Some?
  {
    Marker(h.location.value, h)
  }

  /** The helper markers a rebuild pushes: one per helper with a map location, in result order. */
  function HelperMarkers(hs: seq<Helper>): (ms: seq<Marker>)
    ensures |ms| <= |hs|
    ensures forall k :: 0 <= k < |ms| ==>
      HasMapLocation(ms[k].helper) && ms[k] == MarkerFor(ms[k].helper) && ms[k].helper in hs
  {
    if |hs| == 0 then []
    else
      var last := hs[|hs| - 1];
      HelperMarkers(hs[..|hs| - 1]) + (if HasMapLocation(last) then [MarkerFor(last)] else [])
  }

  /** The positions in `hs` of the helpers that have a map location, ascending. */
  function MapIndices(hs: seq<Helper>): (r: seq<nat>)
    ensures forall k :: 0 <= k < |r| ==> r[k] < |hs| && HasMapLocation(hs[r[k]])
    ensures forall k, l :: 0 <= k < l < |r| ==> r[k] < r[l]
    ensures forall i :: 0 <= i < |hs| && HasMapLocation(hs[i]) ==> i in r
  {
    if |hs| == 0 then []
    else
      var n := |hs| - 1;
      var front := MapIndices(hs[..n]);
      assert forall k :: 0 <= k < |front| ==> hs[..n][front[k]] == hs[front[k]];
      front + (if HasMapLocation(hs[n]) then [n] else [])
  }

  /**
   * Markers and located helpers correspond one to one in result order: the k-th marker
   * belongs to the k-th helper that has a map location, and there are as many markers as such helpers.
   */
  lemma {:induction false} MarkersMatchResults(hs: seq<Helper>)
    ensures |HelperMarkers(hs)| == |MapIndices(hs)|
    ensures forall k :: 0 <= k < |MapIndices(hs)| ==>
      HelperMarkers(hs)[k] == MarkerFor(hs[MapIndices(hs)[k]])
  {
    if |hs| > 0 {
      var n := |hs| - 1;
      var init := hs[..n];
      MarkersMatchResults(init);
      var front := MapIndices(init);
      var frontMarkers := HelperMarkers(init);
      var placed := HasMapLocation(hs[n]);
      var ms := HelperMarkers(hs);
      var ix := MapIndices(hs);
      assert ms == frontMarkers + (if placed then [MarkerFor(hs[n])] else []);
      assert ix == front + (if placed then [n] else []);
      forall k | 0 <= k < |ix|
        ensures ms[k] == MarkerFor(hs[ix[k]])
      {
        if k < |front| {
          assert ms[k] == frontMarkers[k] == MarkerFor(init[front[k]]);
          assert init[front[k]] == hs[front[k]];
        }
      }
    }
  }

  /** A helper without a location, or with a zero or missing coordinate, gets no marker. */
  lemma UnplacedHelperHasNoMarker(hs: seq<Helper>, h: Helper)
    requires !HasMapLocation(h)
    ensures forall k :: 0 <= k < |HelperMarkers(hs)| ==> HelperMarkers(hs)[k].helper != h
  {
  }

  /** The id of the map the screen holds, if any. */
  function HeldIds(w: MapWorld): set<nat> {
    if w.current.Some? then {w.current.value.id} else {}
  }

  /**
   * The full rebuild: remove the held map, reset the marker list, create a map centred at
   * `at` with a self marker there, push a marker per placed helper, and add a circle of
   * `radiusKm` kilometres around `at`.
   */
  function InitMap(w: MapWorld, at: Coord, hs: seq<Helper>, radiusKm: nat): (w': MapWorld)
    ensures w'.current.Some?
    ensures w'.live == (w.live - HeldIds(w)) + {w'.current.value.id}
    ensures SingleLive(w) ==> SingleLive(w') && w'.current.value.id !in w.live
    ensures w'.current.value.center == at && w'.current.value.zoom == InitialZoom
    ensures w'.current.value.selfMarker == at
    ensures w'.current.value.circle == Circle(at, radiusKm * 1000)
    ensures w'.markerList == w'.current.value.markers == HelperMarkers(hs)
  {
    var remaining := w.live - HeldIds(w);
    var m := MapInstance(w.nextId, at, InitialZoom, at, HelperMarkers(hs), Circle(at, radiusKm * MetresPerKm));
    MapWorld(remaining + {m.id}, Some(m), m.markers, w.nextId + 1)
  }
}
