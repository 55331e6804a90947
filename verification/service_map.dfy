/**
 * The static map of support services: a fixed table of ten services, a category filter over
 * it, markers laid out on a percentage grid, a directions link per service, the details
 * dialog and the user-location dot.
 */
module ServiceMap {
  import opened Wrappers
  import opened Js
  import opened Url
  import opened PointText

  datatype Service = Service(
    id: nat,
    name: string,
    category: string,
    address: string,
    lat: Num,
    lng: Num,
    phone: string,
    hours: string,
    icon: string,
    color: string)

  /**
   * The service table. Coordinates are written as JavaScript renders the source's literals:
   * `48.8720` and `48.8530` render as "48.872" and "48.853".
   */
  const Services: seq<Service> := [
    Service(1, "Secours Catholique", "food", "15 Rue de Maubeuge, 75009 Paris", Number("48.8766"), Number("2.3389"), "01 45 49 73 00", "Seg-Sex: 9h-17h", "🍽️", "bg-green-500"),
    Service(2, "La Cimade", "legal", "176 Rue de Grenelle, 75007 Paris", Number("48.8566"), Number("2.3145"), "01 40 08 05 34", "Ter-Qui: 14h-18h", "⚖️", "bg-blue-500"),
    Service(3, "PASS - Hôpital Saint-Louis", "health", "1 Avenue Claude Vellefaux, 75010 Paris", Number("48.872"), Number("2.3693"), "01 42 49 49 49", "Seg-Sex: 8h30-17h", "🏥", "bg-red-500"),
    Service(4, "France Terre d'Asile", "housing", "24 Rue Marc Seguin, 75018 Paris", Number("48.8975"), Number("2.3589"), "01 53 04 39 99", "Seg-Sex: 9h-18h", "🏠", "bg-purple-500"),
    Service(5, "Pôle Emploi International", "work", "48 Boulevard de la Bastille, 75012 Paris", Number("48.853"), Number("2.3689"), "39 49", "Seg-Sex: 8h30-16h30", "💼", "bg-yellow-500"),
    Service(6, "CASNAV", "education", "12 Boulevard d'Indochine, 75019 Paris", Number("48.8767"), Number("2.3889"), "01 44 62 39 36", "Seg-Sex: 9h-17h", "📚", "bg-indigo-500"),
    Service(7, "Emmaüs Solidarité", "social", "4 Rue des Amandiers, 75020 Paris", Number("48.8641"), Number("2.3889"), "01 43 58 24 52", "Seg-Sex: 10h-18h", "🤝", "bg-pink-500"),
    Service(8, "Croix-Rouge Française", "social", "43 Rue de Valmy, 93100 Montreuil", Number("48.8634"), Number("2.4426"), "01 48 51 96 00", "Qua e Sex: 14h-17h", "👕", "bg-orange-500"),
    Service(9, "Restaurants du Coeur", "food", "42 Rue Championnet, 75018 Paris", Number("48.8947"), Number("2.3479"), "01 53 32 23 23", "Seg-Sex: 11h30-13h30", "🍽️", "bg-green-500"),
    Service(10, "GISTI", "legal", "3 Villa Marcès, 75011 Paris", Number("48.8634"), Number("2.3806"), "01 43 14 84 84", "Seg-Sex: 14h-18h", "⚖️", "bg-blue-500")
  ]

  /** A filter button (the source calls the caption `label`). */
  datatype CategoryEntry = CategoryEntry(value: string, caption: string, icon: string)

  const Categories: seq<CategoryEntry> := [
    CategoryEntry("all", "Todos", "🗺️"),
    CategoryEntry("food", "Alimentação", "🍽️"),
    CategoryEntry("legal", "Jurídico", "⚖️"),
    CategoryEntry("health", "Saúde", "🏥"),
    CategoryEntry("housing", "Moradia", "🏠"),
    CategoryEntry("work", "Trabalho", "💼"),
    CategoryEntry("education", "Educação", "📚"),
    CategoryEntry("social", "Social", "🤝")
  ]

  const AllServices := "all"

  /** The values of the filter buttons other than `all`. */
  function CategoryValues(entries: seq<CategoryEntry>): (r: seq<string>)
    ensures |r| == |entries|
    ensures forall i :: 0 <= i < |r| ==> r[i] == entries[i].value
  {
    if |entries| == 0 then [] else [entries[0].value] + CategoryValues(entries[1..])
  }

  const ServiceCategories: seq<string> := CategoryValues(Categories[1..])

  /** `a` is `b` with some elements left out, the rest in order. */
  predicate IsSubsequence<T(==)>(a: seq<T>, b: seq<T>)
    decreases |b|
  {
    if |a| == 0 then true
    else if |b| == 0 then false
    else if a[0] == b[0] then IsSubsequence(a[1..], b[1..])
    else IsSubsequence(a, b[1..])
  }

  /** `Array.prototype.filter` with the category test: the services of one category, in table order. */
  function ServicesIn(table: seq<Service>, category: string): (r: seq<Service>)
    ensures forall s :: s in r <==> s in table && s.category == category
    ensures IsSubsequence(r, table)
    ensures |r| <= |table|
  {
    if |table| == 0 then []
    else
      var rest := ServicesIn(table[1..], category);
      assert table == [table[0]] + table[1..];
      if table[0].category == category then
        assert ([table[0]] + rest)[1..] == rest;
        [table[0]] + rest
      else
        assert |rest| > 0 ==> rest[0] in table[1..] && rest[0] != table[0];
        rest
  }

  /** The services shown for the selected filter: all of them for `all`, else those of the category. */
  function FilteredServices(category: string): (r: seq<Service>)
    ensures category == AllServices ==> r == Services
    ensures category != AllServices ==> forall s :: s in r <==> s in Services && s.category == category
    ensures IsSubsequence(r, Services)
    ensures |r| <= |Services|
  {
    if category == AllServices then
      SelfSubsequence(Services);
      Services
    else ServicesIn(Services, category)
  }

  lemma {:induction false} SelfSubsequence<T>(s: seq<T>)
    ensures IsSubsequence(s, s)
    decreases |s|
  {
    if |s| > 0 {
      SelfSubsequence(s[1..]);
    }
  }

  /** Service ids are unique; they are in fact the table positions plus one. */
  lemma ServiceIdsUnique()
    ensures forall i :: 0 <= i < |Services| ==> Services[i].id == i + 1
    ensures forall i, j :: 0 <= i < j < |Services| ==> Services[i].id != Services[j].id
  {
  }

  /** Every service's category is one of the filter buttons other than `all`, and those are distinct. */
  lemma ServiceCategoriesAreFilters()
    ensures forall s :: s in Services ==> s.category in ServiceCategories
    ensures AllServices !in ServiceCategories
    ensures forall i, j :: 0 <= i < j < |ServiceCategories| ==> ServiceCategories[i] != ServiceCategories[j]
  {
    ServiceCategoriesListed();
    ServiceCategoriesKnown();
    ServiceCategoriesDistinct();
  }

  lemma ServiceCategoriesDistinct()
    ensures forall i, j :: 0 <= i < j < |ServiceCategories| ==> ServiceCategories[i] != ServiceCategories[j]
  {
    ServiceCategoriesListed();
  }

  lemma ServiceCategoriesKnown()
    ensures forall s :: s in Services ==>
      s.category in ["food", "legal", "health", "housing", "work", "education", "social"]
  {
  }

  /** The seven filter values other than `all`, in button order. */
  lemma ServiceCategoriesListed()
    ensures ServiceCategories == ["food", "legal", "health", "housing", "work", "education", "social"]
  {
    var tail := Categories[1..];
    assert |tail| == 7;
    assert tail[0].value == "food" && tail[1].value == "legal" && tail[2].value == "health";
    assert tail[3].value == "housing" && tail[4].value == "work" && tail[5].value == "education";
    assert tail[6].value == "social";
  }

  /** The sizes of the per-category lists, summed over `categories`. */
  function TotalShown(table: seq<Service>, categories: seq<string>): nat {
    if |categories| == 0 then 0
    else |ServicesIn(table, categories[0])| + TotalShown(table, categories[1..])
  }

  lemma {:induction false} TotalShownStep(x: Service, table: seq<Service>, categories: seq<string>)
    requires forall i, j :: 0 <= i < j < |categories| ==> categories[i] != categories[j]
    ensures TotalShown([x] + table, categories)
         == TotalShown(table, categories) + (if x.category in categories then 1 else 0)
    decreases |categories|
  {
    var t := [x] + table;
    assert t[1..] == table;
    if |categories| > 0 {
      TotalShownStep(x, table, categories[1..]);
      if x.category == categories[0] {
        assert x.category !in categories[1..];
      }
    }
  }

  /** When every service has one of the distinct `categories`, the category lists add up to the table. */
  lemma {:induction false} FiltersPartition(table: seq<Service>, categories: seq<string>)
    requires forall i, j :: 0 <= i < j < |categories| ==> categories[i] != categories[j]
    requires forall s :: s in table ==> s.category in categories
    ensures TotalShown(table, categories) == |table|
    decreases |table|
  {
    if |table| == 0 {
      EmptyTableShowsNothing(categories);
    } else {
      assert table == [table[0]] + table[1..];
      FiltersPartition(table[1..], categories);
      TotalShownStep(table[0], table[1..], categories);
    }
  }

  lemma {:induction false} EmptyTableShowsNothing(categories: seq<string>)
    ensures TotalShown([], categories) == 0
    decreases |categories|
  {
    if |categories| > 0 {
      EmptyTableShowsNothing(categories[1..]);
    }
  }

  /**
   * The non-`all` filters partition the table: each service is shown by exactly the filter
   * of its own category, and the lists of the seven filters hold ten services in all.
   */
  lemma FiltersPartitionServices()
    ensures forall s, c :: s in Services && c in ServiceCategories ==> (s in FilteredServices(c) <==> c == s.category)
    ensures TotalShown(Services, ServiceCategories) == |Services| == 10
  {
    FilterShowsOwnCategory();
    ServiceCategoriesAreFilters();
    FiltersPartition(Services, ServiceCategories);
    TableSize();
  }

  lemma FilterShowsOwnCategory()
    ensures forall s, c :: s in Services && c in ServiceCategories ==> (s in FilteredServices(c) <==> c == s.category)
  {
    ServiceCategoriesListed();
    forall s, c | s in Services && c in ServiceCategories
      ensures s in FilteredServices(c) <==> c == s.category
    {
      assert c != AllServices;
    }
  }

  /** The grid position of the i-th marker, in percent of the map's width and height. */
  datatype GridPoint = GridPoint(x: nat, y: nat)

  function MarkerPosition(i: nat): (p: GridPoint)
    ensures p.x in {20, 35, 50, 65, 80}
    ensures p.y >= 15 && (p.y - 15) % 20 == 0
  {
    GridPoint(20 + (i % 5) * 15, 15 + (i / 5) * 20)
  }

  /** The marker index a grid position belongs to. */
  function IndexAt(p: GridPoint): int {
    (p.x - 20) / 15 + 5 * ((p.y - 15) / 20)
  }

  /** The layout is invertible: the position of a marker determines its index. */
  lemma PositionDeterminesIndex(i: nat)
    ensures IndexAt(MarkerPosition(i)) == i
  {
    var p := MarkerPosition(i);
    assert (p.x - 20) / 15 == i % 5;
    assert (p.y - 15) / 20 == i / 5;
  }

  lemma PositionsDistinct(i: nat, j: nat)
    requires i != j
    ensures MarkerPosition(i) != MarkerPosition(j)
  {
    PositionDeterminesIndex(i);
    PositionDeterminesIndex(j);
  }

  datatype PlacedService = PlacedService(service: Service, at: GridPoint)

  /** Lays out shown services on the marker grid: the i-th at grid position i. */
  function Layout(shown: seq<Service>): (r: seq<PlacedService>)
    requires |shown| <= 10
    ensures |r| == |shown|
    ensures forall i :: 0 <= i < |r| ==> r[i].service == shown[i] && r[i].at == MarkerPosition(i)
    ensures forall i, j :: 0 <= i < j < |r| ==> r[i].at != r[j].at
    ensures forall i :: 0 <= i < |r| ==> r[i].at.y <= 35
  {
    var r := seq(|shown|, i requires 0 <= i < |shown| => PlacedService(shown[i], MarkerPosition(i)));
    forall i, j | 0 <= i < j < |r| ensures r[i].at != r[j].at {
      PositionsDistinct(i, j);
    }
    forall i | 0 <= i < |r| ensures r[i].at.y <= 35 {
      FirstTwoRows(i);
    }
    r
  }

  /**
   * The markers of the map for a filter: one per shown service, in order, at distinct grid
   * positions in the first two rows. The legend shows the number of these markers.
   */
  function PlacedServices(category: string): (r: seq<PlacedService>)
    ensures |r| == |FilteredServices(category)| <= 10
    ensures forall i :: 0 <= i < |r| ==> r[i].service == FilteredServices(category)[i] && r[i].at == MarkerPosition(i)
    ensures forall i, j :: 0 <= i < j < |r| ==> r[i].at != r[j].at
    ensures forall i :: 0 <= i < |r| ==> r[i].at.y <= 35
  {
    FilteredAtMostTen(category);
    Layout(FilteredServices(category))
  }

  lemma FilteredAtMostTen(category: string)
    ensures |FilteredServices(category)| <= 10
  {
    TableSize();
  }

  lemma TableSize()
    ensures |Services| == 10
  {
  }

  /** The first ten markers fill two rows of five. */
  lemma FirstTwoRows(i: nat)
    requires i < 10
    ensures MarkerPosition(i).y <= 35
  {
    assert i / 5 <= 1;
  }

  const DirectionsBase := "https://www.google.com/maps/dir/"

  /** The route-planning link opened in a new tab for a service. */
  function DirectionsUrl(s: Service): string {
    DirectionsBase + "?api=1&destination=" + Text(s.lat) + "," + Text(s.lng)
  }

  /** Every service's coordinates are numbers. */
  lemma ServiceCoordinatesAreNumbers()
    ensures forall s :: s in Services ==> NumericCoord(Coord(s.lat, s.lng))
  {
    forall i | 0 <= i < |Services|
      ensures NumericCoord(Coord(Services[i].lat, Services[i].lng))
    {
      if i < 5 {
        NumericRowsFirstHalf(i);
      } else {
        NumericRowsSecondHalf(i);
      }
    }
  }

  lemma NumericRowsFirstHalf(i: nat)
    requires i < 5
    ensures NumericCoord(Coord(Services[i].lat, Services[i].lng))
  {
  }

  lemma NumericRowsSecondHalf(i: nat)
    requires 5 <= i < 10
    ensures NumericCoord(Coord(Services[i].lat, Services[i].lng))
  {
  }

  /**
   * The directions link asks for a route (`api=1`) whose destination is the service's
   * `lat,lng`, and the destination splits back into the two coordinates.
   */
  lemma DirectionsUrlTargetsService(s: Service)
    requires NumericCoord(Coord(s.lat, s.lng))
    ensures var parsed := Parse(DirectionsUrl(s));
      && parsed == Some((DirectionsBase, [Param("api", "1"), Param("destination", LatLngText(Coord(s.lat, s.lng)))]))
      && Lookup(parsed.value.1, "destination").Some?
      && SplitFirst(Lookup(parsed.value.1, "destination").value, ',') == Some((Text(s.lat), Text(s.lng)))
  {
    DirectionsUrlIsBuilt(s);
    assert '?' !in DirectionsBase;
    RouteQueryParses(DirectionsBase, Coord(s.lat, s.lng));
  }

  lemma RouteQueryParses(base: string, c: Coord)
    requires '?' !in base && NumericCoord(c)
    ensures var ps := [Param("api", "1"), Param("destination", LatLngText(c))];
      && Parse(Build(base, ps)) == Some((base, ps))
      && Lookup(ps, "destination") == Some(LatLngText(c))
      && SplitFirst(LatLngText(c), ',') == Some((Text(c.lat), Text(c.lng)))
  {
    PointTextSplits(c);
    RouteKeysPlain();
    var ps := [Param("api", "1"), Param("destination", LatLngText(c))];
    assert PlainParams(ps);
    ParseBuild(base, ps);
    assert ps[1..] == [Param("destination", LatLngText(c))];
  }

  lemma RouteKeysPlain()
    ensures Plain("api") && Plain("1") && Plain("destination")
  {
  }

  /** The directions link is the route endpoint with the query `api=1` and `destination=lat,lng`. */
  lemma DirectionsUrlIsBuilt(s: Service)
    ensures DirectionsUrl(s)
         == Build(DirectionsBase, [Param("api", "1"), Param("destination", LatLngText(Coord(s.lat, s.lng)))])
  {
    var c := Coord(s.lat, s.lng);
    var ps := [Param("api", "1"), Param("destination", LatLngText(c))];
    RegroupDirections(DirectionsBase, LatLngText(c));
    assert ps[1..] == [Param("destination", LatLngText(c))];
    assert RenderQuery(ps) == "api" + "=" + "1" + "&" + ("destination" + "=" + LatLngText(c));
  }

  lemma RegroupDirections(base: string, destination: string)
    ensures base + "?api=1&destination=" + destination
         == base + "?" + ("api" + "=" + "1" + "&" + ("destination" + "=" + destination))
  {
    assert "?api=1&destination=" == "?" + "api" + "=" + "1" + "&" + "destination" + "=";
  }

  /** The page state: the filter, the service in the details dialog, the dialog flag, the user's position. */
  datatype Page = Page(category: string, selected: Option<Service>, showDetails: bool, userLocation: Option<Coord>)

  const InitialPage := Page(AllServices, None, false, None)

  /** A click on a filter button. */
  function ChooseCategory(p: Page, value: string): (r: Page)
    ensures r.category == value && r.(category := p.category) == p
  {
    p.(category := value)
  }

  /** A click on a marker or a list card opens the details dialog for that service. */
  function OpenServiceDetails(p: Page, s: Service): (r: Page)
    ensures r.selected == Some(s) && r.showDetails
    ensures r.category == p.category && r.userLocation == p.userLocation
    ensures r.(selected := p.selected, showDetails := p.showDetails) == p
  {
    p.(selected := Some(s), showDetails := true)
  }

  /** Closing the dialog hides it and keeps the last service selected. */
  function CloseDetails(p: Page): (r: Page)
    ensures !r.showDetails && r.selected == p.selected
    ensures r.(showDetails := p.showDetails) == p
  {
    p.(showDetails := false)
  }

  /**
   * The location request on opening: a position shows the user's dot; an error, or no
   * geolocation at all, leaves no position and no fallback coordinate.
   */
  function LocateUser(p: Page, o: GeoOutcome): (r: Page)
    ensures r.userLocation == (if o.Position? then Some(o.coord) else p.userLocation)
    ensures r.(userLocation := p.userLocation) == p
  {
    match o
    case Position(c) => p.(userLocation := Some(c))
    case PositionError => p
    case Unsupported => p
  }

  /** A page that has just opened shows a user dot only after a successful location request. */
  lemma NoFallbackLocation(o: GeoOutcome)
    ensures LocateUser(InitialPage, o).userLocation.Some? <==> o.Position?
  {
  }
}
