# Nearest-site map page: a Dafny model

The page lets a user type an address. It geocodes the address and picks the
closest of five fixed sites, then centers the map on the two points. This
project models three parts of it:

- the static site catalog (`src/data/locations.ts`);
- the initial map view, computed from the catalog's bounding box (`src/utils/map.ts`);
- the search handler `findNearestLocation` (`src/App.tsx`). This covers the
  empty-input guard, the linear scan for the closest site, the error paths
  and the state updates.

Files and modules:

- `types.dfy`, module `Types`: the `Location`, `RouteInfo`, coordinate and
  viewport shapes.
- `locations.dfy`, module `Locations`: the catalog `Addresses()` and facts
  about its contents.
- `map_utils.dfy`, module `MapUtils`: `Math.max`/`Math.min` over a spread,
  `CalculateMapCenter` and `CalculateInitialZoom`, and lemmas about the center.
- `nearest.dfy`, module `Nearest`: the reference answer `FirstMinIndex` and
  the scan `FindNearest`. `FirstMinIndex` is the earliest index holding a
  least distance. `FindNearest` is a `while` loop with invariants, proved to
  return that entry.
- `app.dfy`, module `App`: the class `SearchController`. Its fields are the
  page's React state: `searchAddress`, `nearestLocation`, `loading`, `error`,
  `mapCenter`, `mapZoom` and `userLocation`. The handler is split after
  the geocoding request's two awaits, the fetch and the JSON body. No state
  changes between those two awaits.
  - `StartSearch` is the synchronous part.
  - `FinishSearch` runs once the geocoder has answered.
  - `FindNearestLocation` runs both in sequence.
  - `Valid()` is kept by every method. It says that a shown result always
    belongs to the shown query point and is the earliest closest site to it.

Outside collaborators enter the model as values:

- The geocoder's answer is a `GeocodeOutcome` parameter: a first hit, no
  results, or a thrown value with or without a message.
- The Haversine distance is an arbitrary function `dist`. Nothing is assumed
  about it, except where a lemma's `requires` says so. Those requires speak
  only of the distances to the catalog's own sites.
- Leaflet's padded-bounds center and fitted zoom are the arbitrary function
  `fit`. It is applied to the query point and the chosen site.
- The controller is built over a `catalog` constant. The page builds it over
  `Addresses()`.

Coordinates and distances are exact `real`s.

Three behaviours of the code that the model keeps:

- The code has no empty-catalog guard. It always searches the fixed
  five-site list, so the scan requires a non-empty catalog. The catalog is
  proved to have five entries.
- The blank check is `!searchAddress`, so only the empty string is refused.
  Whitespace-only input goes on to the geocoder.
- On success the handler itself does not touch `error`. `error` ends up
  cleared only because the synchronous part cleared it before the request.
  This is why `FinishSearch` keeps `error` on success, and
  `FindNearestLocation` ends with `error == None`.

## Model

| member | source | states |
|---|---|---|
| Locations.Addresses | src/data/locations.ts:3-29 | the catalog has exactly five sites, so `addresses[0]` is defined |
| Locations.NamesInOrder | src/data/locations.ts:4-28 | the site names are "Cơ sở 1" … "Cơ sở 5" in catalog order |
| Locations.NamesDistinct | src/data/locations.ts:4-28 | no two sites share a name |
| Locations.CoordinatesDistinct | src/data/locations.ts:4-28 | no two sites share coordinates |
| Locations.CoordinatesInRange | src/data/locations.ts:4-28 | every latitude is in [-90, 90] and every longitude in [-180, 180] |
| Locations.EntryThree | src/data/locations.ts:14-18 | the third site is "Cơ sở 3" at (21.0373, 105.7827) |
| MapUtils.Lats | src/utils/map.ts:30 | the latitude list has one entry per location, in the same order |
| MapUtils.Lngs | src/utils/map.ts:31 | the longitude list has one entry per location, in the same order |
| MapUtils.MaxOf | src/utils/map.ts:33-34 | `Math.max(...s)` is an element of `s` that no element exceeds; an empty spread is excluded |
| MapUtils.MinOf | src/utils/map.ts:33-34 | `Math.min(...s)` is an element of `s` that no element is below; an empty spread is excluded |
| MapUtils.CalculateMapCenter | src/utils/map.ts:29-37 | the midpoint of the bounding box, non-empty input only. Its meaning is given by CenterIsBoxMidpoint, CenterInBoundingBox, CenterOfOne, CenterDependsOnlyOnMembers and CenterPermutationInvariant |
| MapUtils.CalculateInitialZoom | src/utils/map.ts:39-41 | the initial zoom. InitialViewport proves that it is 13 |
| MapUtils.ExtremesUnique | src/utils/map.ts:33-34 | any element bounding the list from above is the maximum, and likewise for the minimum |
| MapUtils.CenterIsBoxMidpoint | src/utils/map.ts:29-37 | the center is ((north + south)/2, (east + west)/2) for the extreme locations, however they were found |
| MapUtils.CenterInBoundingBox | src/utils/map.ts:33-34 | each coordinate of the center lies between some location's coordinate and some other's, so the center is inside the bounding box |
| MapUtils.CenterOfOne | src/utils/map.ts:33-34 | the center of a single location is that location |
| MapUtils.CenterDependsOnlyOnMembers | src/utils/map.ts:30-34 | two lists with the same locations have the same center, whatever their order or repetitions |
| MapUtils.CenterPermutationInvariant | src/utils/map.ts:30-34 | reordering the locations does not move the center |
| MapUtils.SameExtremes | src/utils/map.ts:33-34 | two lists of the same values have the same maximum and minimum |
| MapUtils.LatsLngsFollowMembers | src/utils/map.ts:30-31 | if every location of one list is in another, so is every latitude and longitude |
| Nearest.Distances | src/App.tsx:59-72 | entry i is the distance from the query to site i |
| Nearest.FirstMinIndex | src/App.tsx:58-77 | the earliest index holding a least distance: no distance is smaller, and every earlier one is strictly larger |
| Nearest.FirstMinUnique | src/App.tsx:73-76 | at most one index is the earliest least distance, so the tie-break determines the site |
| Nearest.FindNearest | src/App.tsx:58-77 | the scan, seeded with entry 0 and revisiting it, returns a catalog site and its distance. No site is closer, and the site is the one at the earliest least distance: ties go to the earlier site |
| Nearest.ExactHitSelected | src/App.tsx:58-77 | a query on site m selects site m at distance 0, if the distance to every site is non-negative and is zero to site m alone |
| App.FailureMessage | src/App.tsx:105-107 | no results give the not-found message of line 48; a thrown Error gives its own message; any other thrown value gives the fallback message |
| App.RoundHalfUp | src/App.tsx:102 | `Math.round` returns the integer within half a unit of x, halves rounded up |
| App.InitialViewport | src/App.tsx:30-31 | the page opens centered on (21.01955, 105.81565), the midpoint of the catalog's box, at zoom 13 |
| App.SearchController.ResultFor | src/App.tsx:58-103 | the shown result is a catalog site at the least distance from the query, with all earlier sites strictly farther. Its travel time is the distance × 3 rounded |
| App.SearchController.constructor | src/App.tsx:26-32 | the initial state: empty box, no result, no error, not loading, no query point, center `calculateMapCenter(catalog)`, zoom 13 |
| App.SearchController.SetSearchAddress | src/App.tsx:126-127 | typing replaces `searchAddress` and nothing else |
| App.SearchController.StartSearch | src/App.tsx:35-41 | only the empty string is refused. Empty input sets "Please enter an address" and changes nothing else, not even `loading`. Other input sets `loading` and clears `error` |
| App.SearchController.FinishSearch | src/App.tsx:43-110 | on a hit: the query point is shown, the result is `ResultFor(query)`, and the view is `fit(query, site)`. On a miss or exception: the error message is set and the result, query point, center and zoom are kept. `loading` ends false either way |
| App.SearchController.FindNearestLocation | src/App.tsx:34-111 | empty input: only `error` changes. Any other input ends with `loading` false. A hit ends with `error` null, the query point shown and the nearest site as result. A miss ends with the message set and the previous result kept |
| App.SearchOnEntryThree | src/App.tsx:58-103 | over the page's catalog, a search landing on "Cơ sở 3"'s coordinates selects it at distance 0 with a 0-minute estimate, if the distance to each of the five sites is non-negative and is zero to the third site alone |

## Left out

- The Haversine formula (`src/utils/map.ts:4-18`) is not modelled. It is
  floating-point trigonometry. The distance is an arbitrary function, and no
  symmetry or zero property is claimed for it. Two lemmas take such
  properties as hypotheses.
- The geocoding request (`fetch` and `response.json()`, `src/App.tsx:44-45`)
  is network I/O. Its outcome is a parameter.
- `parseFloat` of the hit's strings is not modelled. If a hit is malformed
  it yields NaN, and then `L.latLng` throws after `userLocation` has already
  been set. The model has no NaN, so this path is not modelled.
- Leaflet's `latLngBounds`, `pad(0.1)`, `getCenter()` and the throwaway map
  used for `fitBounds`/`getZoom` (`src/App.tsx:80-97`) are a library the
  model cannot see. They are collapsed into the arbitrary function `fit` of
  the two points.
- `toFixed(2)` and the " km"/" minutes" strings (`src/App.tsx:101-102`) are
  display formatting. `RouteInfo` keeps the distance as a real and the
  rounded minutes as an integer. Floating-point rounding of `d * 3` is not
  modelled.
- The order in which overlapping asynchronous searches resolve is not
  modelled, so a stale response overwriting a newer one is not covered.
  `StartSearch` and `FinishSearch` can be called in any interleaving, and
  each keeps `Valid()`: a shown result is always the nearest site to the
  shown query point. Nothing beyond that is proved about interleavings,
  and in particular nothing about which response wins. The search button
  is disabled while `loading` (`src/components/SearchBar.tsx:24`), so the
  page itself stops a second search from being started from the button
  while one is pending. That UI guard is not modelled.
- `createCustomIcon` (`src/utils/map.ts:20-27`) is not modelled. It builds
  HTML for a Leaflet marker.
- The JSX render (`src/App.tsx:113-194`) and the components `SearchBar`,
  `RouteDisplay`, `NearestLocation`, `LocationList` and `MapUpdater` are
  presentation and map-library effects. They are not modelled.
- `console.error` (`src/App.tsx:106`) is logging only and is not modelled.
