# Migrant-support frontend: nearby helpers, service map, navigation and map preview

This project models the decision logic of four React components of a migrant-support web
application, as pure functions over immutable records, and proves properties of them.

- **Nearby-helpers screen** (`NearbyHelpersPage.js`). This is the bulk of the model. The page state is a
  `HelpersScreen.Screen` record, and every user or callback event is an `Event`. `Dispatch` applies the
  event's state setters and then runs the page's two effects, in declaration order:
  - the refetch effect runs on a change of location, category or radius;
  - the map effect runs on a change of location or helper list.

  React compares effect dependencies by identity, so the record counts the location objects and helper
  arrays it installs. A successful fetch therefore always rebuilds the map, even when the data is the same.
  The mapping library is reduced to an abstract world of maps (`HelperMap.MapWorld`): a map can be created
  or removed and carries a view, a self marker, helper markers and a circle. The request URL, the fetch
  outcomes, location acquisition with its Paris fallback, the list (chips, `+N` overflow, pluralised
  heading, highlight and chat link) and the category lookup are modelled as in the source.
- **Static service map** (`MapPage.js`). The ten-service table, the category filter, the marker grid
  layout, the directions link, the details dialog and the user-location request.
- **Bottom navigation** (`BottomNav.js`). The items, the admin entry and the active flag.
- **Map preview** (`MapPreview.js`). The location guard, the embed and direct links, the size class and the caption.

Shared modules:
- `Js` represents a JavaScript number by its `String()` rendering. This is exact for truthiness: 0, -0 and
  NaN render as "0" or "NaN".
- `Decimal` renders counts and radii and reads them back.
- `Url` builds `base?k=v&…` strings and parses them back. Each link of the application is proved equal
  to such a build, and what it carries is read back with `Parse` and `Lookup`.

The page has these behaviours, and the model reproduces them:
- Any `ok` response is applied, however late it arrives: there is no request sequence number (`LateResponseWins`).
- The selected helper is never cleared when results change (`SelectionOutlivesResults`).
- A non-ok response raises no notification. Only a thrown error does.
- A platform without geolocation gets the Paris fallback without a notification.
- The map effect does not depend on the radius. After a radius change whose refetch fails, the circle
  keeps the old radius (`CircleKeepsRadiusAfterFailedRefetch`).
- Nothing removes the map when the screen unmounts, so the model has no teardown state.

## Model

| member | source | states |
|---|---|---|
| Decimal.ParseNatToString | frontend/src/pages/NearbyHelpersPage.js:107 | the decimal text interpolated for a radius or a count reads back as that number |
| HelperQuery.NearbyUrl | frontend/src/pages/NearbyHelpersPage.js:105-107 | the request URL; characterised by `NearbyUrlIsBuilt` (it is a `Url.Build` of the endpoint and the four parameters) and `ParseNearbyUrl` (it parses back into them) |
| Helpers.GetCategoryInfo | frontend/src/pages/NearbyHelpersPage.js:201-203 | a value in the category table yields that table entry; any other value yields its own text as caption and the 📝 icon |
| Helpers.FindCategory | frontend/src/pages/NearbyHelpersPage.js:202 | the entry found is in the table and has the looked-up value; nothing is found iff no entry has that value |
| Helpers.CategoryValuesDistinct | frontend/src/pages/NearbyHelpersPage.js:10-22 | the eleven category values are distinct, so the entry found for a value is the only one |
| HelperQuery.NearbyUrlIsBuilt | frontend/src/pages/NearbyHelpersPage.js:105-107 | the interpolated request URL is the endpoint with the query lat, lng, radius and, unless the category is `all`, category, in that order |
| HelperQuery.ParseNearbyUrl | frontend/src/pages/NearbyHelpersPage.js:105-107 | the request URL splits back into the endpoint path and exactly those parameters |
| HelperQuery.NearbyParamsLookups | frontend/src/pages/NearbyHelpersPage.js:105-107 | lat, lng and radius are always present; category is present, with the filter's value, exactly when it is not `all` |
| HelperQuery.NearbyUrlCarriesFilter | frontend/src/pages/NearbyHelpersPage.js:105-107 | read back from the URL: lat and lng are the location's, radius parses to the filter's radius, category is present iff it is not `all`, and there are 3 or 4 parameters |
| HelperQuery.NearbyUrlDistinguishesFilters | frontend/src/pages/NearbyHelpersPage.js:105-107 | from one location, two different filters never produce the same request |
| HelperMap.HelperMarkers | frontend/src/pages/NearbyHelpersPage.js:158-190 | every pushed marker is at its helper's location, and that helper is in the result with a location whose lat and lng are truthy |
| HelperMap.MapIndices | frontend/src/pages/NearbyHelpersPage.js:158-159 | the positions of the placeable helpers, ascending, with every helper whose location passes the guard included |
| HelperMap.MarkersMatchResults | frontend/src/pages/NearbyHelpersPage.js:158-190 | markers and placeable helpers correspond one to one in result order: the k-th marker belongs to the k-th helper with a usable location |
| HelperMap.UnplacedHelperHasNoMarker | frontend/src/pages/NearbyHelpersPage.js:159 | a helper without a location, or with a zero or missing lat or lng, gets no marker |
| HelperMap.InitMap | frontend/src/pages/NearbyHelpersPage.js:125-199 | the held map is removed before a fresh one is created, so one live map stays one; the new map is centred at the location at zoom 13 with the self marker there, the circle there has radius × 1000 m, and the marker list equals the map's helper markers |
| HelperList.Chips | frontend/src/pages/NearbyHelpersPage.js:322-338 | the first min(4, n) categories are shown as their table entries, and a chip `+` followed by the decimal digits of n − 4 appears iff n > 4; no category list shows nothing |
| HelperList.ChipsAccountForAll | frontend/src/pages/NearbyHelpersPage.js:334-337 | the shown chips plus the number after `+` are exactly the helper's n categories |
| HelperList.CountHeading | frontend/src/pages/NearbyHelpersPage.js:283 | while loading, the heading is the searching notice; otherwise it is the count's digits followed by ` ajudante encontrado` when the count is 1 and ` ajudantes encontrados` otherwise |
| HelperList.CountHeadingShowsCount | frontend/src/pages/NearbyHelpersPage.js:283 | the heading starts with the count's digits, which read back as the number of helpers |
| HelperList.ListOf | frontend/src/pages/NearbyHelpersPage.js:287-348 | spinner iff loading; the empty state iff not loading with no helpers; otherwise one card per helper in order, each the helper's `CardFor` card: highlighted iff its id is the selected id, with the role caption and a chat link iff highlighted |
| HelperList.CardFor | frontend/src/pages/NearbyHelpersPage.js:299-357 | the card shows the helper's chips and the role caption `Voluntário Profissional` or `Ajudante`; it is highlighted iff the selected helper has its id, and offers the chat path `/direct-chat/<id>` iff highlighted |
| HelperList.HighlightFollowsSelection | frontend/src/pages/NearbyHelpersPage.js:302-304 | with distinct ids, at most one card is highlighted, and none when the selected id is not in the result |
| HelpersScreen.ResolveLocation | frontend/src/pages/NearbyHelpersPage.js:74-98 | success gives the device coordinate; an error gives Paris and one notification; no geolocation gives Paris and no notification; the location spinner ends in all three cases and nothing else changes |
| HelpersScreen.BeginFetch | frontend/src/pages/NearbyHelpersPage.js:100-111 | a request is issued iff there is a location, for that location and the current filter, with the loading flag raised; without a location nothing changes |
| HelpersScreen.SettleFetch | frontend/src/pages/NearbyHelpersPage.js:113-122 | ok installs the payload unchanged as a new list; non-ok keeps the list and adds no notification; a thrown error keeps the list and adds exactly one; loading is false in all three |
| HelpersScreen.Update | frontend/src/pages/NearbyHelpersPage.js:74-305 | the setters of one event: the category select sets only the category, the radius select only the radius, a marker or card click sets only the selection, the refresh button sets nothing, locating raises only the location spinner; a location outcome is exactly `ResolveLocation` and a completion exactly `SettleFetch`; the backend and maps are never touched |
| HelpersScreen.RunEffects | frontend/src/pages/NearbyHelpersPage.js:62-72 | one request, for the new location and filter and with loading raised, iff location, category or radius changed and a location exists; the map is rebuilt iff location or list changed, a location exists and the container is mounted, and is untouched otherwise; nothing else changes |
| HelpersScreen.Dispatch | frontend/src/pages/NearbyHelpersPage.js:62-72 | an event's setters followed by the two effects; characterised by `RequestsFollowTriggers` (which events issue a request) and `DispatchKeepsInvariant` (the map invariant is kept) |
| HelpersScreen.RequestsFollowTriggers | frontend/src/pages/NearbyHelpersPage.js:62-66 | an event issues exactly one request when it changes the location, or changes the category or radius while a location exists, or is the refresh button with a location; otherwise none |
| HelpersScreen.FilterOnlyChangedByChoices | frontend/src/pages/NearbyHelpersPage.js:225-248 | only the two filter selects change the filter |
| HelpersScreen.NoLocationNoFetch | frontend/src/pages/NearbyHelpersPage.js:101 | without a location, refresh and filter changes issue no request and do nothing beyond their own setter |
| HelpersScreen.InitialInvariant | frontend/src/pages/NearbyHelpersPage.js:27-37 | the initial state has no map and satisfies the map invariant |
| HelpersScreen.RunEffectsKeepInvariant | frontend/src/pages/NearbyHelpersPage.js:62-72 | the two effects re-establish the invariant when the map's dependencies changed and keep it when they did not |
| HelpersScreen.DispatchKeepsInvariant | frontend/src/pages/NearbyHelpersPage.js:62-72 | every event keeps at most one live map and keeps the held map centred at the location with the current list's markers |
| HelpersScreen.RunKeepsInvariant | frontend/src/pages/NearbyHelpersPage.js:62-72 | the invariant holds after any sequence of events |
| HelpersScreen.AnyRunKeepsOneSyncedMap | frontend/src/pages/NearbyHelpersPage.js:128-138 | from the initial state, any event sequence leaves at most one live map, and once the location is known and the map container is mounted the map shows exactly the list's placeable helpers |
| HelpersScreen.LocationArrival | frontend/src/pages/NearbyHelpersPage.js:74-98 | a location outcome sets the device coordinate or Paris, adds a notification only on error, issues one request for it, and rebuilds the map centred there with the current radius and markers |
| HelpersScreen.OpeningTheScreen | frontend/src/pages/NearbyHelpersPage.js:62-98 | opening the screen issues one request with radius 10 and no category, and shows one map with only the self marker and a 10 km circle |
| HelpersScreen.RequestCompletion | frontend/src/pages/NearbyHelpersPage.js:113-122 | a completion sets the list, notifications and loading flag as SettleFetch does; it keeps the selection and filter, and rebuilds the map from an ok payload with a fresh map id |
| HelpersScreen.LateResponseWins | frontend/src/pages/NearbyHelpersPage.js:113-116 | two category changes issue two requests, and the response of the earlier one, arriving last, is what the list shows |
| HelpersScreen.SelectionOutlivesResults | frontend/src/pages/NearbyHelpersPage.js:115 | new results do not clear a selected helper that is no longer among them |
| HelpersScreen.CircleKeepsRadiusAfterFailedRefetch | frontend/src/pages/NearbyHelpersPage.js:68-72 | a radius change leaves the map untouched, and after a failed refetch the circle still shows the old radius |
| HelpersScreen.EmptyResult | frontend/src/pages/NearbyHelpersPage.js:291-296 | an empty ok result shows the empty-state message and a map with only the self marker and the radius circle |
| HelpersScreen.RadiusWidening | frontend/src/pages/NearbyHelpersPage.js:239-242 | going from 10 to 50 km issues exactly one request; its radius reads 50 and its category parameter is unchanged |
| ServiceMap.ServicesIn | frontend/src/pages/MapPage.js:166 | the filter keeps exactly the services of the category, as a subsequence of the table |
| ServiceMap.FilteredServices | frontend/src/pages/MapPage.js:164-166 | `all` shows the whole table; any other value shows exactly the services of that category; either way a subsequence of the table |
| ServiceMap.ServiceIdsUnique | frontend/src/pages/MapPage.js:8-129 | service ids are the positions plus one, hence unique |
| ServiceMap.ServiceCategoriesAreFilters | frontend/src/pages/MapPage.js:8-140 | every service's category is one of the seven distinct non-`all` filter values |
| ServiceMap.FiltersPartition | frontend/src/pages/MapPage.js:164-166 | when every service has one of a list of distinct categories, the sizes of the per-category lists add up to the table size |
| ServiceMap.FiltersPartitionServices | frontend/src/pages/MapPage.js:8-166 | each service is shown by exactly the filter of its category, and the seven lists together hold the ten services |
| ServiceMap.MarkerPosition | frontend/src/pages/MapPage.js:256-257 | x is one of 20, 35, 50, 65 or 80, and y is 15 plus a multiple of 20 |
| ServiceMap.PositionDeterminesIndex | frontend/src/pages/MapPage.js:256-257 | the grid position of a marker gives back its index |
| ServiceMap.PositionsDistinct | frontend/src/pages/MapPage.js:256-257 | distinct indices have distinct positions |
| ServiceMap.FirstTwoRows | frontend/src/pages/MapPage.js:257 | the first ten markers sit in the rows at 15 % and 35 % |
| ServiceMap.PlacedServices | frontend/src/pages/MapPage.js:254-290 | one marker per shown service, in order, the i-th at grid position i, so at pairwise distinct positions in the first two rows; the legend count is the number of shown services, at most 10 |
| ServiceMap.ServiceCoordinatesAreNumbers | frontend/src/pages/MapPage.js:8-129 | every service has numeric coordinates |
| ServiceMap.DirectionsUrl | frontend/src/pages/MapPage.js:171-173 | the directions link; characterised by `DirectionsUrlIsBuilt` and `DirectionsUrlTargetsService` |
| ServiceMap.DirectionsUrlIsBuilt | frontend/src/pages/MapPage.js:171-173 | the directions link is the route endpoint with the parameters `api=1` and `destination=lat,lng`, in that order |
| ServiceMap.DirectionsUrlTargetsService | frontend/src/pages/MapPage.js:171-173 | the directions link is a route request (`api=1`) whose destination is `lat,lng`, and that destination splits back into the two coordinates |
| ServiceMap.ChooseCategory | frontend/src/pages/MapPage.js:195 | a filter button sets the category and nothing else |
| ServiceMap.OpenServiceDetails | frontend/src/pages/MapPage.js:175-178 | opening details selects the service and shows the dialog, changing nothing else |
| ServiceMap.CloseDetails | frontend/src/pages/MapPage.js:349 | closing the dialog hides it and changes nothing else, so the selection is kept |
| ServiceMap.LocateUser | frontend/src/pages/MapPage.js:149-162 | a position sets the user location; an error or no geolocation leaves it unchanged |
| ServiceMap.NoFallbackLocation | frontend/src/pages/MapPage.js:149-162 | on a fresh page the user dot appears iff the location request succeeded: there is no fallback coordinate |
| BottomNav.NavItems | frontend/src/components/BottomNav.js:11-21 | five base items in the order Home, Voluntários, Chat AI, Serviços, Perfil as a prefix, plus exactly one Admin item at `/admin` iff the user is an admin |
| BottomNav.Buttons | frontend/src/components/BottomNav.js:25-32 | one button per item in order, active iff the current path equals the item's path, navigating to that path |
| BottomNav.PathsDistinct | frontend/src/components/BottomNav.js:11-21 | no two items share a path |
| BottomNav.AtMostOneActive | frontend/src/components/BottomNav.js:27 | at most one button is active, and one is iff the current path is one of the visible items' paths |
| BottomNav.AdminPathOnlyForAdmins | frontend/src/components/BottomNav.js:19-21 | an `/admin` button exists iff the user is an admin |
| MapPreview.SizeClass | frontend/src/components/MapPreview.js:13-21 | small, medium and large map to h-32, h-48 and h-64; an absent size (default `medium`) or any other size gives h-48 |
| MapPreview.Caption | frontend/src/components/MapPreview.js:37 | a non-empty address is shown as is; a missing or empty one shows the shared-location caption |
| MapPreview.Render | frontend/src/components/MapPreview.js:4-11 | nothing is rendered iff the location is absent or its lat or lng is falsy; otherwise the preview has the two links, the size class and the caption |
| MapPreview.ZeroCoordinateRendersNothing | frontend/src/components/MapPreview.js:5 | a location with lat or lng 0 renders nothing |
| MapPreview.DirectUrl | frontend/src/components/MapPreview.js:11 | the direct link; characterised by `DirectUrlIsBuilt` and `DirectUrlQueriesPoint` |
| MapPreview.DirectUrlIsBuilt | frontend/src/components/MapPreview.js:11 | the direct link is the maps URL with the single parameter `q=lat,lng` |
| MapPreview.EmbedUrl | frontend/src/components/MapPreview.js:10 | the embed URL; characterised by `EmbedUrlIsBuilt` and `EmbedUrlShowsPoint` |
| MapPreview.DirectUrlQueriesPoint | frontend/src/components/MapPreview.js:11 | the direct link is the maps URL with the single parameter `q=lat,lng`, which splits back into the coordinates |
| MapPreview.EmbedUrlIsBuilt | frontend/src/components/MapPreview.js:10 | the embed URL is the place endpoint with the parameters key, q and zoom, in that order |
| MapPreview.EmbedUrlShowsPoint | frontend/src/components/MapPreview.js:10 | the embed URL's `q` is `lat,lng` and its `zoom` is 15 |

## Left out

- Loading the mapping library's stylesheet and script (NearbyHelpersPage.js:39-60). The library is assumed loaded, and the `window.L` checks are not modelled.
- The tile layer, marker icon HTML and popup HTML, including the popup's list of category icons. These are presentation passed to the mapping library.
- The network and JSON decoding. An ok response is assumed to carry an array of helper records. The bearer token is not modelled, and the backend URL is a field of the screen state.
- Notifications are a recorded list of `Toast` values. `console.error` and `console.log` are omitted.
- `navigate` and `window.open` are modelled only by the path or URL they would receive.
- Asynchronous interleaving. Each callback is one atomic event. React is assumed to batch the setters of one callback into one commit, and state updates with an unchanged value are treated like any other update.
- Floating-point values. Coordinates and distances are known only by their rendering. Non-numeric `lat` values, such as strings, are not modelled.
- The Maps API key is a parameter, not the source's constant. The geolocation timeout and accuracy options are not modelled.
- The category and radius selects accept any value in the model. In the page they only offer the table's values and 5, 10, 20 or 50.
- MapPreview.SizeClass: treats every size outside small, medium and large as unknown. JavaScript's object lookup would also find inherited names such as `toString`, which the model does not represent.
- HelperQuery.NearbyUrlCarriesFilter: the read-back holds for plain category values and numeric coordinates. Values containing `&`, `=` or `?` are sent unescaped by the source and are not covered.
- LandingPage.js and tailwind.config.js are not part of this model. They hold static content and styling.
