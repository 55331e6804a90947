/** The embedded map preview of a shared location: the guard, the two links, the size and the caption. */
module MapPreview {
  import opened Wrappers
  import opened Js
  import opened Url
  import opened PointText

  /** The `location` prop: a coordinate with an optional address. */
  datatype SharedLocation = SharedLocation(lat: Num, lng: Num, address: Option<string>)

  /** What the component renders when it renders anything. */
  datatype Preview = Preview(embedUrl: string, directUrl: string, sizeClass: string, caption: string)

  const DefaultSize := "medium"

  const SharedLocationCaption := "Localização compartilhada"

  const EmbedBase := "https://www.google.com/maps/embed/v1/place"

  const DirectBase := "https://www.google.com/maps"

  const EmbedZoom := "15"

  const SizeClasses: map<string, string> := map["small" := "h-32", "medium" := "h-48", "large" := "h-64"]

  /**
   * The height class for the `size` prop: the table entry, or the `medium` one for any other
   * size; an absent prop defaults to `medium`.
   */
  function SizeClass(size: Option<string>): (c: string)
    ensures c in SizeClasses.Values
    ensures size.Some? && size.value in SizeClasses ==> c == SizeClasses[size.value]
    ensures size.None? || size.value !in SizeClasses ==> c == "h-48"
  {
    var s := size.GetOr(DefaultSize);
    if s in SizeClasses then SizeClasses[s] else SizeClasses[DefaultSize]
  }

  /** The caption under the map: the address when it is a non-empty string, else a generic caption. */
  function Caption(address: Option<string>): (r: string)
    ensures |r| > 0
    ensures address.Some? && address.value != "" ==> r == address.value
    ensures address.None? || address.value == "" ==> r == SharedLocationCaption
  {
    if address.Some? && address.value != "" then address.value else SharedLocationCaption
  }

  /** The embedded map's source, for the given Maps API key. */
  function EmbedUrl(key: string, c: Coord): string {
    EmbedBase + "?key=" + key + "&q=" + Text(c.lat) + "," + Text(c.lng) + "&zoom=" + EmbedZoom
  }

  /** The "open map" link. */
  function DirectUrl(c: Coord): string {
    DirectBase + "?q=" + Text(c.lat) + "," + Text(c.lng)
  }

  /** The component: nothing without a location or with a falsy latitude or longitude (0 included). */
  function Render(location: Option<SharedLocation>, size: Option<string>, key: string): (r: Option<Preview>)
    ensures r.None? <==> location.None? || !Truthy(location.value.lat) || !Truthy(location.value.lng)
    ensures r.Some? ==>
      var c := Coord(location.value.lat, location.value.lng);
      r.value == Preview(EmbedUrl(key, c), DirectUrl(c), SizeClass(size), Caption(location.value.address))
  {
    if location.None? || !Truthy(location.value.lat) || !Truthy(location.value.lng) then None
    else
      var c := Coord(location.value.lat, location.value.lng);
      Some(Preview(EmbedUrl(key, c), DirectUrl(c), SizeClass(size), Caption(location.value.address)))
  }

  /** A location on the equator or the prime meridian is not previewed. */
  lemma ZeroCoordinateRendersNothing(lng: Num, address: Option<string>, size: Option<string>, key: string)
    ensures Render(Some(SharedLocation(Number("0"), lng, address)), size, key).None?
    ensures Render(Some(SharedLocation(lng, Number("0"), address)), size, key).None?
  {
  }

  /** The "open map" link queries exactly the point `lat,lng`. */
  lemma DirectUrlQueriesPoint(c: Coord)
    requires NumericCoord(c)
    ensures Parse(DirectUrl(c)) == Some((DirectBase, [Param("q", LatLngText(c))]))
    ensures SplitFirst(LatLngText(c), ',') == Some((Text(c.lat), Text(c.lng)))
  {
    DirectUrlIsBuilt(c);
    BasesHaveNoQuery();
    PointTextSplits(c);
    PointQueryParses(DirectBase, c);
  }

  lemma DirectUrlIsBuilt(c: Coord)
    ensures DirectUrl(c) == Build(DirectBase, [Param("q", LatLngText(c))])
  {
    assert "?q=" == "?" + "q" + "=";
  }

  lemma BasesHaveNoQuery()
    ensures '?' !in DirectBase && '?' !in EmbedBase
  {
  }

  lemma PointQueryParses(base: string, c: Coord)
    requires '?' !in base && NumericCoord(c)
    ensures Parse(Build(base, [Param("q", LatLngText(c))])) == Some((base, [Param("q", LatLngText(c))]))
  {
    PointTextSplits(c);
    EmbedKeysPlain();
    var ps := [Param("q", LatLngText(c))];
    assert PlainParams(ps);
    ParseBuild(base, ps);
  }

  lemma EmbedKeysPlain()
    ensures Plain("key") && Plain("q") && Plain("zoom") && Plain(EmbedZoom)
  {
  }

  lemma RegroupEmbed(base: string, key: string, point: string, zoom: string)
    ensures base + "?key=" + key + "&q=" + point + "&zoom=" + zoom
         == base + "?" + ("key" + "=" + key + "&" + ("q" + "=" + point + "&" + ("zoom" + "=" + zoom)))
  {
    assert "?key=" == "?" + "key" + "=";
    assert "&q=" == "&" + "q" + "=";
    assert "&zoom=" == "&" + "zoom" + "=";
  }

  lemma EmbedUrlIsBuilt(key: string, c: Coord)
    ensures EmbedUrl(key, c)
         == Build(EmbedBase, [Param("key", key), Param("q", LatLngText(c)), Param("zoom", EmbedZoom)])
  {
    var point := LatLngText(c);
    var ps := [Param("key", key), Param("q", point), Param("zoom", EmbedZoom)];
    RegroupEmbed(EmbedBase, key, point, EmbedZoom);
    assert ps[1..][1..] == [Param("zoom", EmbedZoom)];
    assert RenderQuery(ps[1..]) == "q" + "=" + point + "&" + ("zoom" + "=" + EmbedZoom);
    assert RenderQuery(ps) == "key" + "=" + key + "&" + RenderQuery(ps[1..]);
  }

  /** The embedded map is a place search for `lat,lng` at zoom 15 with the given key. */
  lemma EmbedUrlShowsPoint(key: string, c: Coord)
    requires NumericCoord(c) && Plain(key)
    ensures var parsed := Parse(EmbedUrl(key, c));
      && parsed == Some((EmbedBase, [Param("key", key), Param("q", LatLngText(c)), Param("zoom", EmbedZoom)]))
      && Lookup(parsed.value.1, "q") == Some(LatLngText(c))
      && Lookup(parsed.value.1, "zoom") == Some("15")
  {
    EmbedUrlIsBuilt(key, c);
    BasesHaveNoQuery();
    EmbedQueryParses(EmbedBase, key, LatLngText(c), c);
  }

  lemma EmbedQueryParses(base: string, key: string, point: string, c: Coord)
    requires '?' !in base && Plain(key) && NumericCoord(c) && point == LatLngText(c)
    ensures var ps := [Param("key", key), Param("q", point), Param("zoom", EmbedZoom)];
      && Parse(Build(base, ps)) == Some((base, ps))
      && Lookup(ps, "q") == Some(point)
      && Lookup(ps, "zoom") == Some("15")
  {
    PointTextSplits(c);
    EmbedKeysPlain();
    var ps := [Param("key", key), Param("q", point), Param("zoom", EmbedZoom)];
    assert PlainParams(ps);
    ParseBuild(base, ps);
    assert ps[1..][1..] == [Param("zoom", EmbedZoom)];
    assert Lookup(ps[1..][1..], "zoom") == Some("15");
    assert Lookup(ps[1..], "zoom") == Some("15");
  }
}
