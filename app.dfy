/** The page's search controller (src/App.tsx, `App` and its
    `findNearestLocation` handler). The React state hooks are the fields of
    a class; the asynchronous handler is split after the geocoding
    request's two awaits (the fetch and the JSON body, between which no
    state changes) into the part that runs when the search button is
    pressed (StartSearch) and the part that runs once the geocoder has
    answered (FinishSearch).

    Outside collaborators enter as values: the geocoder's answer is a
    parameter, the Haversine distance is the function `dist`, and the
    viewport Leaflet fits around two points is the function `fit`. The
    imported site list is the constant `catalog`; the page builds its
    controller over `Addresses()`. */
module App {
  import opened Types
  import opened Locations
  import opened MapUtils
  import opened Nearest

  const EmptyInputMessage := "Please enter an address"
  const NotFoundMessage := "Address not found. Please check the address and try again."
  const FallbackMessage := "Failed to find location. Please check the address and try again."

  /** What the geocoding request produced: a first hit, an empty (or null)
      result list, or an exception on the way (a failed request, a body that
      is not JSON, a hit that cannot be read because `data[0]` is missing or
      not an object), carrying its message when the thrown value is an
      Error. */
  datatype GeocodeOutcome =
    | Found(first: Coord)
    | NoResults
    | Failed(thrown: Option<string>)

  /** The message the catch block stores for a failed geocoding step. */
  function FailureMessage(o: GeocodeOutcome): (m: string)
    requires !o.Found?
    ensures o.NoResults? ==> m == NotFoundMessage
    ensures o.Failed? && o.thrown.Some? ==> m == o.thrown.value
    ensures o.Failed? && o.thrown.None? ==> m == FallbackMessage
  {
    match o
    case NoResults => NotFoundMessage
    case Failed(Some(msg)) => msg
    case Failed(None) => FallbackMessage
  }

  /** `Math.round`: the nearest integer, halves rounded up. */
  function RoundHalfUp(x: real): (r: int)
    ensures r as real - 0.5 <= x < r as real + 0.5
  {
    (x + 0.5).Floor
  }

  /** The initial map view is centered on the catalog's bounding box,
      (21.01955, 105.81565), at zoom 13. */
  lemma InitialViewport()
    ensures CalculateMapCenter(Addresses()) == Coord(21.01955, 105.81565)
    ensures CalculateInitialZoom() == 13
  {
    var a := Addresses();
    // South-most is the second site, north-most the third, west-most the third, east-most the fourth.
    CenterIsBoxMidpoint(a, 1, 2, 2, 3);
  }

  class SearchController {
    /** The sites searched (the imported `addresses`). */
    const catalog: seq<Location>
    /** The distance used to rank sites (calculateDistance). */
    const dist: (Coord, Coord) -> real
    /** The center and zoom Leaflet picks for the padded bounds of two points. */
    const fit: (Coord, Coord) -> Viewport

    var searchAddress: string
    var nearestLocation: Option<RouteInfo>
    var loading: bool
    var error: Option<string>
    var mapCenter: Coord
    var mapZoom: int
    var userLocation: Option<Coord>

    /** The result a successful search for `q` shows: the earliest closest
        site, its distance and the travel time estimated from it. */
    function ResultFor(q: Coord): (r: RouteInfo)
      requires |catalog| > 0
      ensures r.location in catalog
      ensures r.distanceKm == dist(q, r.location.coordinates)
      ensures forall j :: 0 <= j < |catalog| ==> r.distanceKm <= dist(q, catalog[j].coordinates)
      ensures exists k :: 0 <= k < |catalog| && r.location == catalog[k]
                && forall j :: 0 <= j < k ==> r.distanceKm < dist(q, catalog[j].coordinates)
      ensures r.durationMinutes as real - 0.5 <= 3.0 * r.distanceKm < r.durationMinutes as real + 0.5
    {
      var k := FirstMinIndex(Distances(q, catalog, dist));
      var d := dist(q, catalog[k].coordinates);
      RouteInfo(catalog[k], d, RoundHalfUp(d * 3.0))
    }

    /** A shown result always belongs to the shown query point and is the
        nearest site to it. */
    ghost predicate Valid()
      reads this
    {
      && |catalog| > 0
      && (nearestLocation.Some? ==> userLocation.Some? && nearestLocation.value == ResultFor(userLocation.value))
    }

    /** The state the page starts in, over a non-empty catalog (the bounds
        of an empty one are not numbers). */
    constructor (catalog: seq<Location>, dist: (Coord, Coord) -> real, fit: (Coord, Coord) -> Viewport)
      requires |catalog| > 0
      ensures Valid()
      ensures this.catalog == catalog && this.dist == dist && this.fit == fit
      ensures searchAddress == "" && nearestLocation == None && !loading && error == None
      ensures userLocation == None
      ensures mapCenter == CalculateMapCenter(catalog)
      ensures mapZoom == CalculateInitialZoom() == 13
    {
      this.catalog := catalog;
      this.dist := dist;
      this.fit := fit;
      searchAddress := "";
      nearestLocation := None;
      loading := false;
      error := None;
      mapCenter := CalculateMapCenter(catalog);
      mapZoom := CalculateInitialZoom();
      userLocation := None;
    }

    /** The search box's change handler. */
    method SetSearchAddress(value: string)
      requires Valid()
      modifies this`searchAddress
      ensures Valid()
      ensures searchAddress == value
    {
      searchAddress := value;
    }

    /** The handler up to the geocoding request. Only the empty string is
        rejected; whitespace goes on to the geocoder. A rejected search sets
        the error and changes nothing else; an accepted one starts loading and
        clears the error. */
    method StartSearch() returns (started: bool)
      requires Valid()
      modifies this`loading, this`error
      ensures Valid()
      ensures started <==> searchAddress != ""
      ensures !started ==> error == Some(EmptyInputMessage) && loading == old(loading)
      ensures started ==> loading && error == None
    {
      if searchAddress == "" {
        error := Some(EmptyInputMessage);
        started := false;
        return;
      }
      loading := true;
      error := None;
      started := true;
    }

    /** The handler from the geocoder's answer on. On a hit the query point
        is shown, the nearest site becomes the result and the view is fitted
        around both; on a miss or an exception the error message is stored and
        the previous result, query point and view are kept. Loading ends
        either way. */
    method FinishSearch(outcome: GeocodeOutcome)
      requires Valid()
      modifies this`loading, this`error, this`userLocation, this`mapCenter, this`mapZoom, this`nearestLocation
      ensures Valid()
      ensures !loading
      ensures outcome.Found? ==>
        var q := outcome.first;
        && error == old(error)
        && userLocation == Some(q)
        && nearestLocation == Some(ResultFor(q))
        && mapCenter == fit(q, ResultFor(q).location.coordinates).center
        && mapZoom == fit(q, ResultFor(q).location.coordinates).zoom
      ensures !outcome.Found? ==>
        && error == Some(FailureMessage(outcome))
        && userLocation == old(userLocation)
        && nearestLocation == old(nearestLocation)
        && mapCenter == old(mapCenter)
        && mapZoom == old(mapZoom)
    {
      match outcome {
        case Found(q) =>
          userLocation := Some(q);
          var nearest, shortestDistance := FindNearest(q, catalog, dist);
          var view := fit(q, nearest.coordinates);
          mapCenter := view.center;
          mapZoom := view.zoom;
          nearestLocation := Some(RouteInfo(nearest, shortestDistance, RoundHalfUp(shortestDistance * 3.0)));
        case NoResults =>
          error := Some(FailureMessage(outcome));
        case Failed(_) =>
          error := Some(FailureMessage(outcome));
      }
      loading := false;
    }

    /** The whole handler, when no other search overlaps it. */
    method FindNearestLocation(outcome: GeocodeOutcome)
      requires Valid()
      modifies this`loading, this`error, this`userLocation, this`mapCenter, this`mapZoom, this`nearestLocation
      ensures Valid()
      ensures old(searchAddress) == "" ==>
        && error == Some(EmptyInputMessage)
        && loading == old(loading)
        && nearestLocation == old(nearestLocation)
        && userLocation == old(userLocation)
        && mapCenter == old(mapCenter)
        && mapZoom == old(mapZoom)
      ensures old(searchAddress) != "" ==> !loading
      ensures old(searchAddress) != "" && outcome.Found? ==>
        var q := outcome.first;
        && error == None
        && userLocation == Some(q)
        && nearestLocation == Some(ResultFor(q))
        && mapCenter == fit(q, ResultFor(q).location.coordinates).center
        && mapZoom == fit(q, ResultFor(q).location.coordinates).zoom
      ensures old(searchAddress) != "" && !outcome.Found? ==>
        && error == Some(FailureMessage(outcome))
        && userLocation == old(userLocation)
        && nearestLocation == old(nearestLocation)
        && mapCenter == old(mapCenter)
        && mapZoom == old(mapZoom)
    {
      var started := StartSearch();
      if started {
        FinishSearch(outcome);
      }
    }
  }

  /** On the page's catalog, a search landing exactly on the third site
      ("Cơ sở 3") selects it at distance zero with a zero-minute estimate,
      for any distance that is non-negative to every site and zero to the
      third site alone. */
  lemma SearchOnEntryThree(c: SearchController)
    requires c.catalog == Addresses()
    requires forall j :: 0 <= j < |Addresses()| ==> c.dist(Coord(21.0373, 105.7827), Addresses()[j].coordinates) >= 0.0
    requires forall j :: 0 <= j < |Addresses()| ==>
      (c.dist(Coord(21.0373, 105.7827), Addresses()[j].coordinates) == 0.0 <==> j == 2)
    ensures c.ResultFor(Coord(21.0373, 105.7827)).location == Addresses()[2]
    ensures c.ResultFor(Coord(21.0373, 105.7827)).location.name == "Cơ sở 3"
    ensures c.ResultFor(Coord(21.0373, 105.7827)).distanceKm == 0.0
    ensures c.ResultFor(Coord(21.0373, 105.7827)).durationMinutes == 0
  {
    ExactHitSelected(Coord(21.0373, 105.7827), Addresses(), c.dist, 2);
  }
}
