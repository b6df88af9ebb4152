/** Map helpers (src/utils/map.ts): the initial center and zoom of the map.
    The Haversine distance there enters the rest of the model only as an
    abstract function; see module Nearest. */
module MapUtils {
  import opened Types

  /** `locations.map(addr => addr.coordinates.lat)` */
  function Lats(locations: seq<Location>): (r: seq<real>)
    ensures |r| == |locations|
    ensures forall i :: 0 <= i < |locations| ==> r[i] == locations[i].coordinates.lat
  {
    seq(|locations|, i requires 0 <= i < |locations| => locations[i].coordinates.lat)
  }

  /** `locations.map(addr => addr.coordinates.lng)` */
  function Lngs(locations: seq<Location>): (r: seq<real>)
    ensures |r| == |locations|
    ensures forall i :: 0 <= i < |locations| ==> r[i] == locations[i].coordinates.lng
  {
    seq(|locations|, i requires 0 <= i < |locations| => locations[i].coordinates.lng)
  }

  /** `Math.max(...s)`: an element of `s` that no element exceeds. On an empty
      spread the source's result is not a finite number, hence the requires. */
  function MaxOf(s: seq<real>): (m: real)
    requires |s| > 0
    ensures m in s
    ensures forall i :: 0 <= i < |s| ==> s[i] <= m
  {
    if |s| == 1 then s[0]
    else
      var rest := MaxOf(s[1..]);
      if s[0] < rest then rest else s[0]
  }

  /** `Math.min(...s)`: an element of `s` that no element is below. */
  function MinOf(s: seq<real>): (m: real)
    requires |s| > 0
    ensures m in s
    ensures forall i :: 0 <= i < |s| ==> m <= s[i]
  {
    if |s| == 1 then s[0]
    else
      var rest := MinOf(s[1..]);
      if rest < s[0] then rest else s[0]
  }

  /** The midpoint of the bounding box of the locations: half-way between the
      least and greatest latitude, and between the least and greatest
      longitude. */
  function CalculateMapCenter(locations: seq<Location>): (c: Coord)
    requires |locations| > 0
  {
    Coord((MaxOf(Lats(locations)) + MinOf(Lats(locations))) / 2.0,
          (MaxOf(Lngs(locations)) + MinOf(Lngs(locations))) / 2.0)
  }

  /** The zoom level the map opens at. */
  function CalculateInitialZoom(): (zoom: int)
  {
    13
  }

  /** The extremes are determined by the values alone: any value of `s` that
      bounds `s` from above is `MaxOf(s)`, and likewise for `MinOf`. */
  lemma ExtremesUnique(s: seq<real>, lo: real, hi: real)
    requires |s| > 0
    requires lo in s && forall i :: 0 <= i < |s| ==> lo <= s[i]
    requires hi in s && forall i :: 0 <= i < |s| ==> s[i] <= hi
    ensures MinOf(s) == lo && MaxOf(s) == hi
  {
  }

  /** The center is the midpoint of whatever least and greatest coordinates
      the locations have: a characterisation independent of how MaxOf and
      MinOf compute them. */
  lemma CenterIsBoxMidpoint(locations: seq<Location>, south: nat, north: nat, west: nat, east: nat)
    requires south < |locations| && north < |locations| && west < |locations| && east < |locations|
    requires forall i :: 0 <= i < |locations| ==>
      locations[south].coordinates.lat <= locations[i].coordinates.lat <= locations[north].coordinates.lat
    requires forall i :: 0 <= i < |locations| ==>
      locations[west].coordinates.lng <= locations[i].coordinates.lng <= locations[east].coordinates.lng
    ensures CalculateMapCenter(locations).lat
      == (locations[north].coordinates.lat + locations[south].coordinates.lat) / 2.0
    ensures CalculateMapCenter(locations).lng
      == (locations[east].coordinates.lng + locations[west].coordinates.lng) / 2.0
  {
    // The extremes of each axis are unique (ExtremesUnique), so they are the given indices' values.
  }

  /** The center lies inside the bounding box of the locations: some location
      is at or south of it and some at or north of it, and likewise west and
      east. */
  lemma CenterInBoundingBox(locations: seq<Location>)
    requires |locations| > 0
    ensures exists i :: 0 <= i < |locations| && locations[i].coordinates.lat <= CalculateMapCenter(locations).lat
    ensures exists i :: 0 <= i < |locations| && CalculateMapCenter(locations).lat <= locations[i].coordinates.lat
    ensures exists i :: 0 <= i < |locations| && locations[i].coordinates.lng <= CalculateMapCenter(locations).lng
    ensures exists i :: 0 <= i < |locations| && CalculateMapCenter(locations).lng <= locations[i].coordinates.lng
  {
    var lats, lngs := Lats(locations), Lngs(locations);
    var c := CalculateMapCenter(locations);
    var s :| 0 <= s < |lats| && lats[s] == MinOf(lats);
    var n :| 0 <= n < |lats| && lats[n] == MaxOf(lats);
    var w :| 0 <= w < |lngs| && lngs[w] == MinOf(lngs);
    var e :| 0 <= e < |lngs| && lngs[e] == MaxOf(lngs);
    assert locations[s].coordinates.lat <= c.lat <= locations[n].coordinates.lat;
    assert locations[w].coordinates.lng <= c.lng <= locations[e].coordinates.lng;
  }

  /** The center of a single location is that location. */
  lemma CenterOfOne(l: Location)
    ensures CalculateMapCenter([l]) == l.coordinates
  {
  }

  /** The center depends only on which locations are present, not on their
      order or repetition. */
  lemma CenterDependsOnlyOnMembers(a: seq<Location>, b: seq<Location>)
    requires |a| > 0 && |b| > 0
    requires forall l :: l in a <==> l in b
    ensures CalculateMapCenter(a) == CalculateMapCenter(b)
  {
    LatsLngsFollowMembers(a, b);
    LatsLngsFollowMembers(b, a);
    SameExtremes(Lats(a), Lats(b));
    SameExtremes(Lngs(a), Lngs(b));
  }

  /** Every latitude and longitude of `a` is one of some location of `b`
      when every location of `a` is in `b`. */
  lemma LatsLngsFollowMembers(a: seq<Location>, b: seq<Location>)
    requires forall l :: l in a ==> l in b
    ensures forall x :: x in Lats(a) ==> x in Lats(b)
    ensures forall x :: x in Lngs(a) ==> x in Lngs(b)
  {
    forall i | 0 <= i < |a| ensures Lats(a)[i] in Lats(b) && Lngs(a)[i] in Lngs(b) {
      assert a[i] in b;
      var j :| 0 <= j < |b| && b[j] == a[i];
      assert Lats(b)[j] == Lats(a)[i] && Lngs(b)[j] == Lngs(a)[i];
    }
  }

  /** Reordering the locations leaves the center where it was. */
  lemma CenterPermutationInvariant(a: seq<Location>, b: seq<Location>)
    requires |a| > 0
    requires multiset(a) == multiset(b)
    ensures |b| > 0
    ensures CalculateMapCenter(a) == CalculateMapCenter(b)
  {
    assert a[0] in multiset(b);
    forall l ensures l in a <==> l in b {
      assert l in a <==> l in multiset(a);
      assert l in b <==> l in multiset(b);
    }
    CenterDependsOnlyOnMembers(a, b);
  }

  /** Two sequences of the same values have the same extremes. */
  lemma SameExtremes(s: seq<real>, t: seq<real>)
    requires |s| > 0 && |t| > 0
    requires forall x :: x in s <==> x in t
    ensures MaxOf(s) == MaxOf(t) && MinOf(s) == MinOf(t)
  {
    forall i | 0 <= i < |t| ensures MinOf(s) <= t[i] <= MaxOf(s) {
      assert t[i] in t;
    }
    ExtremesUnique(t, MinOf(s), MaxOf(s));
  }
}
