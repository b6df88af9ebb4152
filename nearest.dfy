/** Selection of the catalog site closest to a geocoded point
    (src/App.tsx, inside `findNearestLocation`). The Haversine distance of
    src/utils/map.ts is not modelled: the distance is any function `dist`
    from a query point and a site's coordinates to a real, about which
    nothing is assumed unless a lemma says so in its requires. */
module Nearest {
  import opened Types

  /** The distance from `query` to each site of `catalog`, in catalog order. */
  function Distances(query: Coord, catalog: seq<Location>, dist: (Coord, Coord) -> real): (ds: seq<real>)
    ensures |ds| == |catalog|
    ensures forall i :: 0 <= i < |catalog| ==> ds[i] == dist(query, catalog[i].coordinates)
  {
    seq(|catalog|, i requires 0 <= i < |catalog| => dist(query, catalog[i].coordinates))
  }

  /** `k` holds a least value of `ds`, and every earlier index holds a
      strictly greater one: the earliest of the least values. */
  predicate IsFirstMin(ds: seq<real>, k: nat) {
    k < |ds|
    && (forall j :: 0 <= j < |ds| ==> ds[k] <= ds[j])
    && (forall j :: 0 <= j < k ==> ds[k] < ds[j])
  }

  /** The reference answer: the index of the earliest least distance. */
  function FirstMinIndex(ds: seq<real>): (k: nat)
    requires |ds| > 0
    ensures IsFirstMin(ds, k)
  {
    if |ds| == 1 then 0
    else
      var k' := FirstMinIndex(ds[..|ds| - 1]);
      if ds[|ds| - 1] < ds[k'] then |ds| - 1 else k'
  }

  /** At most one index is the earliest least value. */
  lemma FirstMinUnique(ds: seq<real>, a: nat, b: nat)
    requires IsFirstMin(ds, a) && IsFirstMin(ds, b)
    ensures a == b
  {
    // Mentioning both values lets each index's strictness clause speak about the other.
    assert ds[a] <= ds[b] && ds[b] <= ds[a];
  }

  /** The scan of `findNearestLocation`: seeded with the first site, then
      every site, the first included again, replaces the current best only
      when strictly closer. The site found is the earliest closest one, and
      the distance returned is the distance to it. */
  method FindNearest(query: Coord, catalog: seq<Location>, dist: (Coord, Coord) -> real)
    returns (nearest: Location, shortestDistance: real)
    requires |catalog| > 0
    ensures nearest in catalog
    ensures shortestDistance == dist(query, nearest.coordinates)
    ensures forall j :: 0 <= j < |catalog| ==> shortestDistance <= dist(query, catalog[j].coordinates)
    ensures nearest == catalog[FirstMinIndex(Distances(query, catalog, dist))]
  {
    ghost var ds := Distances(query, catalog, dist);
    nearest := catalog[0];
    shortestDistance := dist(query, nearest.coordinates);
    ghost var k: nat := 0;
    var i := 0;
    while i < |catalog|
      invariant 0 <= i <= |catalog|
      invariant k < |catalog| && k <= i
      invariant nearest == catalog[k] && shortestDistance == ds[k]
      invariant forall j :: 0 <= j < i ==> shortestDistance <= ds[j]
      invariant forall j :: 0 <= j < k ==> shortestDistance < ds[j]
    {
      var distance := dist(query, catalog[i].coordinates);
      if distance < shortestDistance {
        shortestDistance := distance;
        nearest := catalog[i];
        k := i;
      }
      i := i + 1;
    }
    FirstMinUnique(ds, k, FirstMinIndex(ds));
  }

  /** A query sitting exactly on site `m` selects that site, at distance
      zero, provided the distance to every site is non-negative and is zero
      to site `m` alone. Only the catalog's own points are constrained, so
      a distance that is zero between other distinct points (a Haversine
      across a 360-degree longitude shift, say) still qualifies. */
  lemma ExactHitSelected(query: Coord, catalog: seq<Location>, dist: (Coord, Coord) -> real, m: nat)
    requires m < |catalog| && catalog[m].coordinates == query
    requires forall j :: 0 <= j < |catalog| ==> dist(query, catalog[j].coordinates) >= 0.0
    requires forall j :: 0 <= j < |catalog| ==> (dist(query, catalog[j].coordinates) == 0.0 <==> j == m)
    ensures FirstMinIndex(Distances(query, catalog, dist)) == m
    ensures Distances(query, catalog, dist)[m] == 0.0
  {
    // Site m is at distance zero and every other site strictly farther, so m is the only earliest least index.
  }
}
