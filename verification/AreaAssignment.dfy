/** Which analysis areas a polygon is counted in. */
module AreaAssignment {
  import opened Options
  import opened Sets

  type Geometry = string

  datatype Area = Area(areaType: string, areaM2: real, geometry: Geometry)
  datatype Assignment = Assignment(polygon: int, area: int, overlap: Option<real>)

  /** `covers(area, polygon)`: the area covers a point on the polygon's surface.
      `overlap(polygon, area)`: the ratio, absent for a polygon without area. */
  datatype Gis = Gis(covers: (Geometry, Geometry) -> bool, overlap: (Geometry, Geometry) -> Option<real>)

  type Polygons = map<int, Geometry>
  type Areas = map<int, Area>

  predicate Covers(g: Gis, polygons: Polygons, areas: Areas, p: int, a: int) {
    p in polygons && a in areas && g.covers(areas[a].geometry, polygons[p])
  }

  /** ORDER BY area_m2, id. */
  predicate Before(areas: Areas, a: int, b: int)
    requires a in areas && b in areas
  {
    areas[a].areaM2 < areas[b].areaM2 || (areas[a].areaM2 == areas[b].areaM2 && a < b)
  }

  /** The covering areas of one type: a partition of the window. */
  function Partition(g: Gis, polygons: Polygons, areas: Areas, p: int, areaType: string): set<int> {
    set a | a in areas && Covers(g, polygons, areas, p, a) && areas[a].areaType == areaType
  }

  function Ahead(areas: Areas, among: set<int>, a: int): set<int>
    requires a in areas && among <= areas.Keys
  {
    set b | b in among && Before(areas, b, a)
  }

  /** `row_number()`. */
  function Rank(g: Gis, polygons: Polygons, areas: Areas, p: int, a: int): nat
    requires a in areas
  {
    1 + |Ahead(areas, Partition(g, polygons, areas, p, areas[a].areaType), a)|
  }

  predicate Wins(g: Gis, polygons: Polygons, areas: Areas, p: int, a: int) {
    Covers(g, polygons, areas, p, a) && Rank(g, polygons, areas, p, a) == 1
  }

  function Make(g: Gis, polygons: Polygons, areas: Areas, p: int, a: int): Assignment
    requires p in polygons && a in areas
  {
    Assignment(p, a, g.overlap(polygons[p], areas[a].geometry))
  }

  predicate Matches(only: Option<int>, p: int) { only.None? || only.value == p }

  /** The rows the INSERT produces. */
  function Inserted(g: Gis, polygons: Polygons, areas: Areas, only: Option<int>): set<Assignment> {
    set p, a | p in polygons && a in areas && Matches(only, p) && Wins(g, polygons, areas, p, a) ::
      Make(g, polygons, areas, p, a)
  }

  function Kept(rows: set<Assignment>, only: Option<int>): set<Assignment> {
    set r | r in rows && !Matches(only, r.polygon)
  }

  function Refreshed(g: Gis, polygons: Polygons, areas: Areas, rows: set<Assignment>, only: Option<int>)
    : set<Assignment>
  {
    Kept(rows, only) + Inserted(g, polygons, areas, only)
  }

  class Assignments {
    var polygons: Polygons
    var areas: Areas
    var rows: set<Assignment>

    constructor (polygons: Polygons, areas: Areas)
      ensures this.polygons == polygons && this.areas == areas && rows == {}
    {
      this.polygons, this.areas, rows := polygons, areas, {};
    }

    /** DELETE, then INSERT of the first-ranked areas; returns the number of new rows.  The rows of
        other polygons stay; each polygon in question gets, of every type that covers it, the
        smallest area, the lowest id among equals, with its overlap, and nothing else. */
    method Refresh(g: Gis, only: Option<int>) returns (count: nat)
      modifies this`rows
      ensures rows == Refreshed(g, polygons, areas, old(rows), only)
      ensures forall r | r in rows ::
        || (only.Some? && only.value != r.polygon && r in old(rows))
        || (&& (only.Some? ==> only.value == r.polygon)
            && IsLeast(g, polygons, areas, r.polygon, r.area)
            && r.overlap == g.overlap(polygons[r.polygon], areas[r.area].geometry))
      ensures forall r | r in old(rows) && only.Some? && only.value != r.polygon :: r in rows
      ensures forall p, a | IsLeast(g, polygons, areas, p, a) && (only.Some? ==> only.value == p) ::
        Assignment(p, a, g.overlap(polygons[p], areas[a].geometry)) in rows
      ensures count == |set r | r in rows && (only.Some? ==> only.value == r.polygon)|
    {
      forall p, a ensures Wins(g, polygons, areas, p, a) <==> IsLeast(g, polygons, areas, p, a) {
        WinsIff(g, polygons, areas, p, a);
      }
      rows := Kept(rows, only);
      var inserted := Inserted(g, polygons, areas, only);
      rows := rows + inserted;
      assert inserted == set r | r in rows && (only.Some? ==> only.value == r.polygon);
      forall p, a | IsLeast(g, polygons, areas, p, a) && (only.Some? ==> only.value == p)
        ensures Assignment(p, a, g.overlap(polygons[p], areas[a].geometry)) in rows
      {
        assert Make(g, polygons, areas, p, a) in inserted;
      }
      count := |inserted|;
    }
  }

  // ----- one area per type -----

  /** The area covers the polygon, and every other covering area of its type is larger, or of the
      same size with a higher id. */
  predicate IsLeast(g: Gis, polygons: Polygons, areas: Areas, p: int, a: int) {
    && p in polygons && a in areas && g.covers(areas[a].geometry, polygons[p])
    && (forall b | b in areas && b != a && areas[b].areaType == areas[a].areaType
                   && g.covers(areas[b].geometry, polygons[p]) ::
          areas[a].areaM2 < areas[b].areaM2 || (areas[a].areaM2 == areas[b].areaM2 && a < b))
  }

  /** First rank is being the least. */
  lemma WinsIff(g: Gis, polygons: Polygons, areas: Areas, p: int, a: int)
    ensures Wins(g, polygons, areas, p, a) <==> IsLeast(g, polygons, areas, p, a)
  {
    if a in areas {
      var ahead := Ahead(areas, Partition(g, polygons, areas, p, areas[a].areaType), a);
      if IsLeast(g, polygons, areas, p, a) {
        assert ahead == {};
      }
      if Wins(g, polygons, areas, p, a) {
        assert ahead == {};
        forall b | b in areas && b != a && areas[b].areaType == areas[a].areaType
                   && g.covers(areas[b].geometry, polygons[p])
          ensures areas[a].areaM2 < areas[b].areaM2 || (areas[a].areaM2 == areas[b].areaM2 && a < b)
        {
          assert b !in ahead;
        }
      }
    }
  }

  lemma LeastExists(areas: Areas, among: set<int>) returns (least: int)
    requires |among| > 0 && among <= areas.Keys
    ensures least in among && Ahead(areas, among, least) == {}
    decreases |among|
  {
    var x := Choose(among);
    if among == {x} {
      least := x;
    } else {
      var rest := LeastExists(areas, among - {x});
      least := if Before(areas, x, rest) then x else rest;
      forall b | b in among ensures !Before(areas, b, least) {
        if b != x {
          assert b !in Ahead(areas, among - {x}, rest);
        }
      }
    }
  }

  /** The area is the only winner of its type, smaller than every other covering area of the type,
      or of the same size with a lower id. */
  ghost predicate OnlyWinner(g: Gis, polygons: Polygons, areas: Areas, p: int, areaType: string, a: int) {
    && a in areas && areas[a].areaType == areaType && Wins(g, polygons, areas, p, a)
    && IsLeast(g, polygons, areas, p, a)
    && (forall b | b in areas && b != a && areas[b].areaType == areaType :: !Wins(g, polygons, areas, p, b))
  }

  ghost predicate SomeCovers(g: Gis, polygons: Polygons, areas: Areas, p: int, areaType: string) {
    p in polygons
    && exists a :: a in areas && areas[a].areaType == areaType && g.covers(areas[a].geometry, polygons[p])
  }

  /** A polygon gets exactly one area of each type that covers it, the smallest, and the lowest
      id among equals; of a type that does not cover it, it gets none. */
  lemma OneAreaPerType(g: Gis, polygons: Polygons, areas: Areas, p: int, areaType: string)
    ensures
      if SomeCovers(g, polygons, areas, p, areaType) then
        exists a :: OnlyWinner(g, polygons, areas, p, areaType, a)
      else
        forall a | a in areas && areas[a].areaType == areaType :: !Wins(g, polygons, areas, p, a)
  {
    var covering := Partition(g, polygons, areas, p, areaType);
    if SomeCovers(g, polygons, areas, p, areaType) {
      var c :| c in areas && areas[c].areaType == areaType && g.covers(areas[c].geometry, polygons[p]);
      assert c in covering;
      var a := LeastExists(areas, covering);
      assert Wins(g, polygons, areas, p, a);
      forall b ensures Wins(g, polygons, areas, p, b) <==> IsLeast(g, polygons, areas, p, b) {
        WinsIff(g, polygons, areas, p, b);
      }
      assert OnlyWinner(g, polygons, areas, p, areaType, a);
    }
  }

  /** The assignments of a polygon depend on that polygon alone. */
  lemma WinsLocal(g: Gis, before: Polygons, after: Polygons, areas: Areas, p: int, a: int)
    requires (p in before <==> p in after) && (p in before ==> before[p] == after[p]) && a in areas
    ensures Wins(g, before, areas, p, a) == Wins(g, after, areas, p, a)
  {
    assert Partition(g, before, areas, p, areas[a].areaType) == Partition(g, after, areas, p, areas[a].areaType);
  }

  /** The two polygon tables differ at most in `p`. */
  predicate SameBut(before: Polygons, after: Polygons, p: int) {
    forall q | q in before.Keys + after.Keys && q != p :: q in before && q in after && before[q] == after[q]
  }

  /** Refreshing only polygon `p` after only `p` changed, appeared or was deleted gives the
      same assignments as refreshing everything. */
  lemma IncrementalEqualsFull(g: Gis, before: Polygons, after: Polygons, areas: Areas, p: int, any: set<Assignment>)
    requires SameBut(before, after, p)
    ensures
      Refreshed(g, after, areas, Refreshed(g, before, areas, any, None), Some(p))
      == Refreshed(g, after, areas, any, None)
  {
    var full := Inserted(g, after, areas, None);
    var rows := Inserted(g, before, areas, None);
    assert Kept(any, None) == {};
    forall q, a | q in before && a in areas && q != p
      ensures q in after && Make(g, before, areas, q, a) == Make(g, after, areas, q, a)
      ensures Wins(g, before, areas, q, a) == Wins(g, after, areas, q, a)
    {
      assert q in before.Keys + after.Keys;
      WinsLocal(g, before, after, areas, q, a);
    }
    forall r ensures r in Kept(rows, Some(p)) + Inserted(g, after, areas, Some(p)) <==> r in full {
      if r in full && r.polygon != p {
        assert r.polygon in before.Keys + after.Keys;
        assert Make(g, before, areas, r.polygon, r.area) in rows;
      }
    }
  }

  /** Refreshing is idempotent. */
  lemma RefreshTwice(g: Gis, polygons: Polygons, areas: Areas, rows: set<Assignment>, only: Option<int>)
    ensures
      var once := Refreshed(g, polygons, areas, rows, only);
      Refreshed(g, polygons, areas, once, only) == once
  {
    assert Kept(Refreshed(g, polygons, areas, rows, only), only) == Kept(rows, only);
  }

  // ----- counting polygons over areas -----

  function OfArea(rows: set<Assignment>, a: int): set<Assignment> { set r | r in rows && r.area == a }

  /** The polygon counts of the given areas, added up. */
  ghost function TotalCount(rows: set<Assignment>, ids: set<int>): nat {
    if ids == {} then 0
    else
      var a := Choose(ids);
      |OfArea(rows, a)| + TotalCount(rows, ids - {a})
  }

  lemma {:induction false} TotalIsUnion(rows: set<Assignment>, ids: set<int>)
    ensures TotalCount(rows, ids) == |set r | r in rows && r.area in ids|
    decreases |ids|
  {
    if ids == {} {
      assert (set r | r in rows && r.area in ids) == {};
    } else {
      var a := Choose(ids);
      TotalIsUnion(rows, ids - {a});
      var rest := set r | r in rows && r.area in ids - {a};
      assert (set r | r in rows && r.area in ids) == OfArea(rows, a) + rest;
    }
  }

  function PolygonsOf(rows: set<Assignment>): set<int> { set r | r in rows :: r.polygon }

  lemma {:induction false} SizeByPolygon(rows: set<Assignment>)
    requires forall r, q | r in rows && q in rows :: r.polygon == q.polygon ==> r == q
    ensures |rows| == |PolygonsOf(rows)|
    decreases |rows|
  {
    if rows == {} {
    } else {
      var r := Choose(rows);
      SizeByPolygon(rows - {r});
      assert PolygonsOf(rows - {r}) == PolygonsOf(rows) - {r.polygon};
    }
  }

  function AreasOfType(areas: Areas, areaType: string): set<int> { set a | a in areas && areas[a].areaType == areaType }

  /** Counts over all areas of one type never exceed the number of polygons: they add up to
      the number of polygons that some area of the type covers. */
  lemma CountsAddUp(g: Gis, polygons: Polygons, areas: Areas, areaType: string)
    ensures
      var total := TotalCount(Refreshed(g, polygons, areas, {}, None), AreasOfType(areas, areaType));
      && total == |set p | p in polygons && SomeCovers(g, polygons, areas, p, areaType)|
      && total <= |polygons|
  {
    var rows := Refreshed(g, polygons, areas, {}, None);
    var ids := AreasOfType(areas, areaType);
    TotalIsUnion(rows, ids);
    var mine := set r | r in rows && r.area in ids;
    forall r, q | r in mine && q in mine && r.polygon == q.polygon ensures r == q {
      OneAreaPerType(g, polygons, areas, r.polygon, areaType);
    }
    SizeByPolygon(mine);
    var covered := set p | p in polygons && SomeCovers(g, polygons, areas, p, areaType);
    forall p ensures p in PolygonsOf(mine) <==> p in covered {
      OneAreaPerType(g, polygons, areas, p, areaType);
      if p in covered {
        var a :| OnlyWinner(g, polygons, areas, p, areaType, a);
        assert Make(g, polygons, areas, p, a) in mine;
      }
    }
    assert PolygonsOf(mine) == covered;
    SubsetSize(covered, polygons.Keys);
  }
}
