/** The nearby-helpers request: its URL and the outcomes a request can have. */
module HelperQuery {
  import opened Wrappers
  import opened Js
  import opened Decimal
  import opened Url
  import opened Helpers

  /** The filter bar's state: a category value and a radius in kilometres. */
  datatype Filter = Filter(category: string, radius: nat)

  const DefaultFilter := Filter(AllCategories, DefaultRadius)

  const NearbyPath := "/api/helpers-nearby"

  /** How a request ends: an ok response with its JSON array, a non-ok status, or a thrown error. */
  datatype FetchOutcome = Ok(data: seq<Helper>) | NotOk | Thrown

  /** The `&category=` suffix; empty for the `all` category. */
  function CategoryParam(category: string): string {
    if category != AllCategories then "&category=" + category else ""
  }

  /** The request URL, as the source interpolates it, under the configured backend URL. */
  function NearbyUrl(backend: string, at: Coord, f: Filter): string {
    backend + NearbyPath + "?lat=" + Text(at.lat) + "&lng=" + Text(at.lng)
      + "&radius=" + NatToString(f.radius) + CategoryParam(f.category)
  }

  /** The parameters the request is meant to carry, in order. */
  function NearbyParams(at: Coord, f: Filter): seq<Param> {
    [Param("lat", Text(at.lat)), Param("lng", Text(at.lng)), Param("radius", NatToString(f.radius))]
      + (if f.category != AllCategories then [Param("category", f.category)] else [])
  }

  /** Regroups the interpolated URL into base, `?` and `&`-joined pairs. */
  lemma RegroupNearbyUrl(base: string, lat: string, lng: string, radius: string, tail: string)
    ensures base + "?lat=" + lat + "&lng=" + lng + "&radius=" + radius + tail
         == base + "?" + ("lat" + "=" + lat + "&" + ("lng" + "=" + lng + "&" + ("radius" + "=" + radius + tail)))
  {
    assert "?lat=" == "?" + "lat" + "=";
    assert "&lng=" == "&" + "lng" + "=";
    assert "&radius=" == "&" + "radius" + "=";
  }

  lemma NearbyUrlIsBuilt(backend: string, at: Coord, f: Filter)
    ensures NearbyUrl(backend, at, f) == Build(backend + NearbyPath, NearbyParams(at, f))
  {
    var ps := NearbyParams(at, f);
    var lat, lng, radius := Text(at.lat), Text(at.lng), NatToString(f.radius);
    var tail := CategoryParam(f.category);
    RegroupNearbyUrl(backend + NearbyPath, lat, lng, radius, tail);
    if f.category != AllCategories {
      assert ps[2..] == [Param("radius", radius), Param("category", f.category)];
      assert "&category=" == "&" + "category" + "=";
      assert RenderQuery(ps[2..]) == "radius" + "=" + radius + tail;
    } else {
      assert ps[2..] == [Param("radius", radius)];
      assert RenderQuery(ps[2..]) == "radius" + "=" + radius + tail;
    }
    assert ps[1..][1..] == ps[2..];
    assert RenderQuery(ps[1..]) == "lng" + "=" + lng + "&" + RenderQuery(ps[2..]);
    assert RenderQuery(ps) == "lat" + "=" + lat + "&" + RenderQuery(ps[1..]);
  }

  /**
   * The request always carries `lat`, `lng` and `radius`, and carries `category` exactly
   * when the category is not `all`; read back from the URL, each has the filter's value.
   */
  lemma NearbyUrlCarriesFilter(backend: string, at: Coord, f: Filter)
    requires '?' !in backend
    requires NumericCoord(at) && Plain(f.category)
    ensures var parsed := Parse(NearbyUrl(backend, at, f));
      && parsed.Some?
      && parsed.value.0 == backend + NearbyPath
      && Lookup(parsed.value.1, "lat") == Some(Text(at.lat))
      && Lookup(parsed.value.1, "lng") == Some(Text(at.lng))
      && Lookup(parsed.value.1, "radius").Some?
      && AllDigits(Lookup(parsed.value.1, "radius").value)
      && ParseDecimal(Lookup(parsed.value.1, "radius").value) == f.radius
      && (Lookup(parsed.value.1, "category").Some? <==> f.category != AllCategories)
      && (f.category != AllCategories ==> Lookup(parsed.value.1, "category") == Some(f.category))
      && |parsed.value.1| == (if f.category == AllCategories then 3 else 4)
  {
    ParseNearbyUrl(backend, at, f);
    NearbyParamsLookups(at, f);
    ParseNatToString(f.radius);
  }

  /** The request URL splits back into the endpoint and the intended parameters. */
  lemma ParseNearbyUrl(backend: string, at: Coord, f: Filter)
    requires '?' !in backend
    requires NumericCoord(at) && Plain(f.category)
    ensures Parse(NearbyUrl(backend, at, f)) == Some((backend + NearbyPath, NearbyParams(at, f)))
  {
    NumeralHasNoDelimiter(at.lat.text);
    NumeralHasNoDelimiter(at.lng.text);
    DigitsArePlain(NatToString(f.radius));
    QueryKeysPlain();
    assert PlainParams(NearbyParams(at, f));
    NearbyUrlIsBuilt(backend, at, f);
    ParseBuild(backend + NearbyPath, NearbyParams(at, f));
  }

  lemma NearbyParamsLookups(at: Coord, f: Filter)
    ensures var ps := NearbyParams(at, f);
      && Lookup(ps, "lat") == Some(Text(at.lat))
      && Lookup(ps, "lng") == Some(Text(at.lng))
      && Lookup(ps, "radius") == Some(NatToString(f.radius))
      && Lookup(ps, "category") == (if f.category != AllCategories then Some(f.category) else None)
      && |ps| == (if f.category == AllCategories then 3 else 4)
  {
    var ps := NearbyParams(at, f);
    assert ps[0].key == "lat" && ps[1].key == "lng" && ps[2].key == "radius";
    assert ps[1..][1..] == ps[2..];
    if f.category != AllCategories {
      assert ps[2..][1..] == [Param("category", f.category)];
      assert Lookup(ps[2..], "category") == Some(f.category);
    } else {
      assert ps[2..][1..] == [];
      assert Lookup(ps[2..], "category") == None;
    }
    assert Lookup(ps[1..], "category") == Lookup(ps[2..], "category");
  }

  lemma QueryKeysPlain()
    ensures Plain("lat") && Plain("lng") && Plain("radius") && Plain("category")
  {
  }

  lemma DigitsArePlain(s: string)
    requires AllDigits(s)
    ensures Plain(s)
  {
  }

  /** Two filters that differ give two different request URLs from the same place. */
  lemma NearbyUrlDistinguishesFilters(backend: string, at: Coord, f: Filter, g: Filter)
    requires '?' !in backend
    requires NumericCoord(at) && Plain(f.category) && Plain(g.category)
    requires f != g
    ensures NearbyUrl(backend, at, f) != NearbyUrl(backend, at, g)
  {
    NearbyUrlCarriesFilter(backend, at, f);
    NearbyUrlCarriesFilter(backend, at, g);
  }
}
