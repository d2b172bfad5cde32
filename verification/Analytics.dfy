/** Two queries for the same figures: one per selection, one grouped by area. */
module Analytics {
  import opened Options
  import opened Lists
  import opened Sorting
  import opened Permutations
  import opened Sets

  /** A row of the polygon table; `area` is its size in square metres. */
  datatype Polygon = Polygon(
    id: int, category: string, occupancy: string, business: string,
    floorGroup: Option<string>, size: Option<string>, area: real, updatedAt: real)

  const OCCUPIED := "OCCUPIED"
  const VACANT := "VACANT"
  const CHAIN := "CHAIN"
  const INDEPENDENT := "INDEPENDENT"
  const UNKNOWN := "UNKNOWN"
  const SIZES: set<string> := {"S", "M", "L", "XL"}
  const FLOOR_GROUPS: set<string> := {"UG", "EG", "OG"}
  const SHOP_CATEGORIES: set<string> := {
    "warehouse", "fashion", "food", "electronics", "furniture", "garden", "other", "gastronomy", "services"}

  /** The CHECK constraints, and the three values of the floor expression. */
  predicate Checked(p: Polygon) {
    && p.occupancy in {OCCUPIED, VACANT, UNKNOWN}
    && p.business in {CHAIN, INDEPENDENT, UNKNOWN}
    && (p.floorGroup.Some? ==> p.floorGroup.value in FLOOR_GROUPS)
  }

  // ----- SQL aggregates -----

  function Total(xs: seq<real>): real { if xs == [] then 0.0 else xs[0] + Total(xs[1..]) }

  function Greatest(xs: seq<real>): real
    requires xs != []
  {
    if |xs| == 1 then xs[0]
    else
      var rest := Greatest(xs[1..]);
      if xs[0] >= rest then xs[0] else rest
  }

  function AreaOf(p: Polygon): real { p.area }
  function TimeOf(p: Polygon): real { p.updatedAt }

  function Areas(rows: seq<Polygon>): seq<real> { Map(AreaOf, rows) }

  function Times(rows: seq<Polygon>): seq<real> { Map(TimeOf, rows) }

  function Sum(rows: seq<Polygon>): Option<real> { if rows == [] then None else Some(Total(Areas(rows))) }

  function Avg(rows: seq<Polygon>): Option<real> {
    if rows == [] then None else Some(Total(Areas(rows)) / |rows| as real)
  }

  function Max(rows: seq<Polygon>): Option<real> { if rows == [] then None else Some(Greatest(Times(rows))) }

  predicate Leq(a: real, b: real) { a <= b }

  /** `percentile_cont(0.5)` of sorted values: the middle one, or halfway between the middle two. */
  function Middle(s: seq<real>): Option<real> {
    var n := |s|;
    if n == 0 then None
    else if n % 2 == 1 then Some(s[n / 2]) else Some((s[n / 2 - 1] + s[n / 2]) / 2.0)
  }

  function Median(rows: seq<Polygon>): Option<real> { Middle(Sort(Leq, Areas(rows))) }

  function IsOccupancy(v: string): Polygon -> bool { (p: Polygon) => p.occupancy == v }
  function IsBusiness(v: string): Polygon -> bool { (p: Polygon) => p.business == v }
  predicate KnownOccupancy(p: Polygon) { p.occupancy != UNKNOWN }
  predicate KnownBusiness(p: Polygon) { p.business != UNKNOWN }
  predicate KnownSize(p: Polygon) { p.size.Some? }
  predicate KnownFloor(p: Polygon) { p.floorGroup.Some? }
  predicate KnownCategory(p: Polygon) { p.category != "custom" }
  function IsSize(v: string): Polygon -> bool { (p: Polygon) => p.size == Some(v) }
  function IsFloor(v: string): Polygon -> bool { (p: Polygon) => p.floorGroup == Some(v) }
  function InCategory(v: string): Polygon -> bool { (p: Polygon) => p.category == v }

  // ----- the figures -----

  datatype CompareMetrics = CompareMetrics(
    polygonCount: nat, occupied: int, vacant: nat, chains: nat, independent: int,
    total: Option<real>, average: Option<real>, median: Option<real>,
    vacancyRate: Option<real>, chainRate: Option<real>,
    knownOccupancy: nat, knownBusiness: nat, updatedAt: Option<real>)

  datatype BenchmarkMetrics = BenchmarkMetrics(
    shared: CompareMetrics,
    vacantArea: Option<real>, vacancyAreaRate: Option<real>,
    sizes: seq<int>, floors: seq<int>, statuses: seq<int>, businesses: seq<int>,
    completeness: seq<Option<real>>)

  /** Python's `round` to one or two digits. */
  datatype Rounding = Rounding(one: real -> real, two: real -> real)

  function Rate(r: Rounding, part: nat, whole: nat): Option<real> {
    if whole == 0 then None else Some(r.two(part as real / whole as real * 100.0))
  }

  /** `count or otherwise`: zero is replaced. */
  function OrElse(count: int, otherwise: int): int { if count != 0 then count else otherwise }

  function Percent(r: Rounding, complete: nat, whole: nat): Option<real> {
    if whole == 0 then None else Some(r.one(complete as real / whole as real * 100.0))
  }

  function AreaRate(r: Rounding, vacant: Option<real>, known: Option<real>): Option<real> {
    if vacant.Some? && known.Some? && known.value != 0.0 then Some(r.two(vacant.value / known.value * 100.0)) else None
  }

  function SizeCounts(rows: seq<Polygon>): seq<int> {
    [Count(IsSize("S"), rows), Count(IsSize("M"), rows), Count(IsSize("L"), rows), Count(IsSize("XL"), rows),
     |rows| - Count(KnownSize, rows)]
  }

  function FloorCounts(rows: seq<Polygon>): seq<int> {
    [Count(IsFloor("UG"), rows), Count(IsFloor("EG"), rows), Count(IsFloor("OG"), rows),
     |rows| - Count(KnownFloor, rows)]
  }

  function Completeness(r: Rounding, rows: seq<Polygon>): seq<Option<real>> {
    [Percent(r, Count(KnownCategory, rows), |rows|), Percent(r, Count(KnownSize, rows), |rows|),
     Percent(r, Count(KnownFloor, rows), |rows|), Percent(r, Count(KnownOccupancy, rows), |rows|),
     Percent(r, Count(KnownBusiness, rows), |rows|)]
  }

  /** One selection: occupied and independent are differences of counts. */
  function Benchmark(r: Rounding, rows: seq<Polygon>): BenchmarkMetrics {
    var n := |rows|;
    var knownO, vacant := Count(KnownOccupancy, rows), Count(IsOccupancy(VACANT), rows);
    var knownB, chains := Count(KnownBusiness, rows), Count(IsBusiness(CHAIN), rows);
    var vacantArea := Sum(Filter(IsOccupancy(VACANT), rows));
    var knownArea := Sum(Filter(KnownOccupancy, rows));
    BenchmarkMetrics(
      CompareMetrics(n, knownO - vacant, vacant, chains, knownB - chains, Sum(rows), Avg(rows), Median(rows),
                     Rate(r, vacant, knownO), Rate(r, chains, knownB), knownO, knownB, Max(rows)),
      vacantArea,
      AreaRate(r, vacantArea, knownArea),
      SizeCounts(rows),
      FloorCounts(rows),
      [OrElse(Count(IsOccupancy(OCCUPIED), rows), knownO - vacant), vacant, n - knownO],
      [chains, OrElse(Count(IsBusiness(INDEPENDENT), rows), knownB - chains), n - knownB],
      Completeness(r, rows))
  }

  /** One group: every count is its own aggregate. */
  function GroupMetrics(r: Rounding, rows: seq<Polygon>): CompareMetrics {
    var knownO, vacant := Count(KnownOccupancy, rows), Count(IsOccupancy(VACANT), rows);
    var knownB, chains := Count(KnownBusiness, rows), Count(IsBusiness(CHAIN), rows);
    CompareMetrics(|rows|, Count(IsOccupancy(OCCUPIED), rows), vacant, chains, Count(IsBusiness(INDEPENDENT), rows),
                   Sum(rows), Avg(rows), Median(rows),
                   Rate(r, vacant, knownO), Rate(r, chains, knownB), knownO, knownB, Max(rows))
  }

  const NO_METRICS := CompareMetrics(0, 0, 0, 0, 0, None, None, None, None, None, 0, 0, None)

  // ----- the two queries -----

  datatype Link = Link(polygon: int, area: int)

  predicate DistinctIds(table: seq<Polygon>) {
    forall i, j | 0 <= i < j < |table| :: table[i].id != table[j].id
  }

  /** The key and CHECK constraints of the two tables. */
  ghost predicate WellFormed(table: seq<Polygon>, links: seq<Link>) {
    DistinctIds(table) && Distinct(links) && forall p | p in table :: Checked(p)
  }

  function Linked(links: seq<Link>, keep: Polygon -> bool, area: int): Polygon -> bool {
    (p: Polygon) => keep(p) && Link(p.id, area) in links
  }

  /** WHERE the filters hold AND id IN (the area's polygons). */
  function Selection(table: seq<Polygon>, links: seq<Link>, keep: Polygon -> bool, area: int): seq<Polygon> {
    Filter(Linked(links, keep, area), table)
  }

  datatype Joined = Joined(area: int, polygon: Polygon)

  function Matching(l: Link, keep: Polygon -> bool): Polygon -> bool {
    (p: Polygon) => p.id == l.polygon && keep(p)
  }

  function Tagged(area: int): Polygon -> Joined { (p: Polygon) => Joined(area, p) }

  /** The join of links with polygons, in link order. */
  function Join(table: seq<Polygon>, links: seq<Link>, keep: Polygon -> bool, areas: seq<int>): seq<Joined> {
    if links == [] then []
    else
      var l := links[0];
      (if l.area in areas then Map(Tagged(l.area), Filter(Matching(l, keep), table)) else [])
      + Join(table, links[1..], keep, areas)
  }

  function InArea(area: int): Joined -> bool { (x: Joined) => x.area == area }
  function PolygonOf(x: Joined): Polygon { x.polygon }
  function IdOf(x: Joined): int { x.area }

  function RowsOf(joined: seq<Joined>, area: int): seq<Polygon> { Map(PolygonOf, Filter(InArea(area), joined)) }

  function GroupIds(joined: seq<Joined>): seq<int> { Dedup(Map(IdOf, joined)) }

  datatype GroupRow = GroupRow(area: int, metrics: CompareMetrics)

  function ToRow(r: Rounding, joined: seq<Joined>): int -> GroupRow {
    (a: int) => GroupRow(a, GroupMetrics(r, RowsOf(joined, a)))
  }

  /** GROUP BY area: one row for each area that occurs. */
  function Grouped(r: Rounding, joined: seq<Joined>): seq<GroupRow> { Map(ToRow(r, joined), GroupIds(joined)) }

  predicate OneRowPerArea(rows: seq<GroupRow>) {
    forall i, j | 0 <= i < j < |rows| :: rows[i].area != rows[j].area
  }

  /** The dictionary holds each row's metrics under its area and nothing else. */
  predicate IsDictionary(rows: seq<GroupRow>, result: map<int, CompareMetrics>) {
    && (forall i | 0 <= i < |rows| :: rows[i].area in result && result[rows[i].area] == rows[i].metrics)
    && (forall a | a in result :: exists i :: 0 <= i < |rows| && rows[i].area == a)
  }

  /** The loop over the rows. */
  method FillDictionary(rows: seq<GroupRow>) returns (result: map<int, CompareMetrics>)
    requires OneRowPerArea(rows)
    ensures IsDictionary(rows, result)
  {
    result := map[];
    for i := 0 to |rows|
      invariant IsDictionary(rows[..i], result)
    {
      result := result[rows[i].area := rows[i].metrics];
      assert rows[..i + 1] == rows[..i] + [rows[i]];
      assert rows[..i + 1][i].area == rows[i].area;
      assert forall j | 0 <= j < i :: rows[..i + 1][j] == rows[..i][j];
    }
    assert rows[..|rows|] == rows;
  }

  /** The rows of the grouped query, put into a dictionary by area. */
  method CompareMetricsByArea(r: Rounding, table: seq<Polygon>, links: seq<Link>,
                              keep: Polygon -> bool, areas: seq<int>)
    returns (result: map<int, CompareMetrics>)
    ensures IsDictionary(Grouped(r, Join(table, links, keep, areas)), result)
  {
    if areas == [] {
      EmptyJoin(table, links, keep);
      return map[];
    }
    GroupedDistinct(r, Join(table, links, keep, areas));
    result := FillDictionary(Grouped(r, Join(table, links, keep, areas)));
  }

  lemma GroupedDistinct(r: Rounding, joined: seq<Joined>)
    ensures OneRowPerArea(Grouped(r, joined))
  {
  }

  lemma {:induction false} EmptyJoin(table: seq<Polygon>, links: seq<Link>, keep: Polygon -> bool)
    ensures Join(table, links, keep, []) == []
    decreases |links|
  {
    if links == [] {
    } else {
      EmptyJoin(table, links[1..], keep);
    }
  }

  // ----- aggregates do not depend on the order of the rows -----

  lemma {:induction false} TotalInsert(x: real, xs: seq<real>)
    ensures Total(Insert(Leq, x, xs)) == x + Total(xs)
    decreases |xs|
  {
    if xs == [] || Leq(x, xs[0]) {
      assert ([x] + xs)[1..] == xs;
    } else {
      TotalInsert(x, xs[1..]);
      assert ([xs[0]] + Insert(Leq, x, xs[1..]))[1..] == Insert(Leq, x, xs[1..]);
    }
  }

  lemma {:induction false} TotalSorted(xs: seq<real>)
    ensures Total(Sort(Leq, xs)) == Total(xs)
    decreases |xs|
  {
    if xs == [] {
    } else {
      TotalSorted(xs[1..]);
      TotalInsert(xs[0], Sort(Leq, xs[1..]));
    }
  }

  lemma {:induction false} GreatestIs(xs: seq<real>)
    requires xs != []
    ensures Greatest(xs) in xs && forall x | x in xs :: x <= Greatest(xs)
    decreases |xs|
  {
    if |xs| > 1 {
      GreatestIs(xs[1..]);
      assert xs == [xs[0]] + xs[1..];
    }
  }

  lemma TotalPermutes(a: seq<real>, b: seq<real>)
    requires multiset(a) == multiset(b)
    ensures Total(a) == Total(b) && Sort(Leq, a) == Sort(Leq, b)
  {
    SortIff(Leq, a, b);
    TotalSorted(a);
    TotalSorted(b);
  }

  lemma GreatestPermutes(a: seq<real>, b: seq<real>)
    requires multiset(a) == multiset(b) && a != [] && b != []
    ensures Greatest(a) == Greatest(b)
  {
    GreatestIs(a);
    GreatestIs(b);
    assert Greatest(a) in multiset(a) && Greatest(b) in multiset(b);
    assert Greatest(a) in b && Greatest(b) in a;
  }

  lemma SizePermutes<T>(a: seq<T>, b: seq<T>)
    requires multiset(a) == multiset(b)
    ensures |a| == |b|
  {
    assert |multiset(a)| == |a| && |multiset(b)| == |b|;
  }

  lemma SumPermutes(a: seq<Polygon>, b: seq<Polygon>)
    requires multiset(a) == multiset(b)
    ensures Sum(a) == Sum(b) && Avg(a) == Avg(b)
  {
    SizePermutes(a, b);
    MapPermutes(AreaOf, a, b);
    TotalPermutes(Areas(a), Areas(b));
  }

  lemma MedianPermutes(a: seq<Polygon>, b: seq<Polygon>)
    requires multiset(a) == multiset(b)
    ensures Median(a) == Median(b)
  {
    MapPermutes(AreaOf, a, b);
    TotalPermutes(Areas(a), Areas(b));
  }

  lemma MaxPermutes(a: seq<Polygon>, b: seq<Polygon>)
    requires multiset(a) == multiset(b)
    ensures Max(a) == Max(b)
  {
    SizePermutes(a, b);
    MapPermutes(TimeOf, a, b);
    if a != [] {
      GreatestPermutes(Times(a), Times(b));
    }
  }

  lemma GroupMetricsPermute(r: Rounding, a: seq<Polygon>, b: seq<Polygon>)
    requires multiset(a) == multiset(b)
    ensures GroupMetrics(r, a) == GroupMetrics(r, b)
  {
    SizePermutes(a, b);
    SumPermutes(a, b);
    MedianPermutes(a, b);
    MaxPermutes(a, b);
    CountPermutes(KnownOccupancy, a, b);
    CountPermutes(IsOccupancy(VACANT), a, b);
    CountPermutes(IsOccupancy(OCCUPIED), a, b);
    CountPermutes(KnownBusiness, a, b);
    CountPermutes(IsBusiness(CHAIN), a, b);
    CountPermutes(IsBusiness(INDEPENDENT), a, b);
  }

  // ----- the grouped rows are the selected rows -----

  /** The rows one link contributes to the group of `area`. */
  lemma {:induction false} LinkRows(l: Link, keep: Polygon -> bool, table: seq<Polygon>, area: int)
    ensures
      RowsOf(Map(Tagged(l.area), Filter(Matching(l, keep), table)), area)
      == if l.area == area then Filter(Matching(l, keep), table) else []
    decreases |table|
  {
    if table == [] {
    } else {
      LinkRows(l, keep, table[1..], area);
      var rest := Map(Tagged(l.area), Filter(Matching(l, keep), table[1..]));
      if Matching(l, keep)(table[0]) {
        assert Map(Tagged(l.area), Filter(Matching(l, keep), table)) == [Joined(l.area, table[0])] + rest;
      }
    }
  }

  /** The rows of `area` in the join: for each link to it, in link order, the kept polygon. */
  function RowsFor(table: seq<Polygon>, links: seq<Link>, keep: Polygon -> bool, area: int): seq<Polygon> {
    if links == [] then []
    else
      (if links[0].area == area then Filter(Matching(links[0], keep), table) else [])
      + RowsFor(table, links[1..], keep, area)
  }

  lemma {:induction false} GroupIsRowsFor(table: seq<Polygon>, links: seq<Link>, keep: Polygon -> bool,
                                          areas: seq<int>, area: int)
    requires area in areas
    ensures RowsOf(Join(table, links, keep, areas), area) == RowsFor(table, links, keep, area)
    decreases |links|
  {
    if links == [] {
    } else {
      var l := links[0];
      var first := if l.area in areas then Map(Tagged(l.area), Filter(Matching(l, keep), table)) else [];
      var rest := Join(table, links[1..], keep, areas);
      GroupIsRowsFor(table, links[1..], keep, areas, area);
      FilterAppend(InArea(area), first, rest);
      MapAppend(PolygonOf, Filter(InArea(area), first), Filter(InArea(area), rest));
      LinkRows(l, keep, table, area);
    }
  }

  lemma {:induction false} FilterDistinct<T>(p: T -> bool, s: seq<T>)
    requires Distinct(s)
    ensures Distinct(Filter(p, s))
    decreases |s|
  {
    if s == [] {
    } else {
      FilterDistinct(p, s[1..]);
      assert s[0] !in s[1..];
    }
  }

  lemma AppendDistinct<T>(a: seq<T>, b: seq<T>)
    requires Distinct(a) && Distinct(b) && forall x | x in a :: x !in b
    ensures Distinct(a + b)
  {
    var s := a + b;
    forall i, j | 0 <= i < j < |s| ensures s[i] != s[j] {
      if i < |a| <= j {
        assert s[i] in a && s[j] in b;
      }
    }
  }

  lemma {:induction false} RowsForElements(table: seq<Polygon>, links: seq<Link>, keep: Polygon -> bool,
                                           area: int, x: Polygon)
    ensures x in RowsFor(table, links, keep, area) <==> x in table && keep(x) && Link(x.id, area) in links
    decreases |links|
  {
    if links == [] {
    } else {
      RowsForElements(table, links[1..], keep, area, x);
      assert links == [links[0]] + links[1..];
    }
  }

  lemma {:induction false} RowsForDistinct(table: seq<Polygon>, links: seq<Link>, keep: Polygon -> bool, area: int)
    requires DistinctIds(table) && Distinct(links)
    ensures Distinct(RowsFor(table, links, keep, area))
    decreases |links|
  {
    if links == [] {
    } else {
      RowsForDistinct(table, links[1..], keep, area);
      var l := links[0];
      if l.area == area {
        var first := Filter(Matching(l, keep), table);
        FilterDistinct(Matching(l, keep), table);
        assert l !in links[1..];
        forall x | x in first ensures x !in RowsFor(table, links[1..], keep, area) {
          RowsForElements(table, links[1..], keep, area, x);
        }
        AppendDistinct(first, RowsFor(table, links[1..], keep, area));
      }
    }
  }

  lemma GroupIsSelection(table: seq<Polygon>, links: seq<Link>, keep: Polygon -> bool, areas: seq<int>, area: int)
    requires DistinctIds(table) && Distinct(links) && area in areas
    ensures multiset(RowsOf(Join(table, links, keep, areas), area)) == multiset(Selection(table, links, keep, area))
  {
    GroupIsRowsFor(table, links, keep, areas, area);
    RowsForDistinct(table, links, keep, area);
    FilterDistinct(Linked(links, keep, area), table);
    forall x ensures x in RowsFor(table, links, keep, area) <==> x in Selection(table, links, keep, area) {
      RowsForElements(table, links, keep, area, x);
    }
    SameElements(RowsFor(table, links, keep, area), Selection(table, links, keep, area));
  }

  // ----- differences of counts and counts -----

  predicate OtherOccupancy(p: Polygon) { p.occupancy !in {OCCUPIED, VACANT, UNKNOWN} }
  predicate OtherBusiness(p: Polygon) { p.business !in {CHAIN, INDEPENDENT, UNKNOWN} }

  lemma {:induction false} OccupancySplits(rows: seq<Polygon>)
    ensures Count(KnownOccupancy, rows)
      == Count(IsOccupancy(OCCUPIED), rows) + Count(IsOccupancy(VACANT), rows) + Count(OtherOccupancy, rows)
    decreases |rows|
  {
    if rows == [] {
    } else {
      OccupancySplits(rows[1..]);
    }
  }

  lemma {:induction false} BusinessSplits(rows: seq<Polygon>)
    ensures Count(KnownBusiness, rows)
      == Count(IsBusiness(CHAIN), rows) + Count(IsBusiness(INDEPENDENT), rows) + Count(OtherBusiness, rows)
    decreases |rows|
  {
    if rows == [] {
    } else {
      BusinessSplits(rows[1..]);
    }
  }

  /** The two queries compute the same figures from the same rows exactly when every row has
      one of the three statuses and one of the three structures the CHECK constraints allow. */
  lemma SameFiguresIff(r: Rounding, rows: seq<Polygon>)
    ensures Benchmark(r, rows).shared == GroupMetrics(r, rows) <==>
      forall p | p in rows :: !OtherOccupancy(p) && !OtherBusiness(p)
  {
    OccupancySplits(rows);
    BusinessSplits(rows);
    NoneCounted(OtherOccupancy, rows);
    NoneCounted(OtherBusiness, rows);
  }

  // ----- what the figures are -----

  function AtMost(x: real): real -> bool { (y: real) => y <= x }
  function Below(x: real): real -> bool { (y: real) => y < x }
  function AtLeast(x: real): real -> bool { (y: real) => y >= x }
  function Above(x: real): real -> bool { (y: real) => y > x }

  lemma SortedCounts(s: seq<real>, i: nat)
    requires Sorted(Leq, s) && i < |s|
    ensures Count(AtMost(s[i]), s) >= i + 1 && Count(Below(s[i]), s) <= i
    ensures Count(AtLeast(s[i]), s) >= |s| - i && Count(Above(s[i]), s) <= |s| - 1 - i
  {
    forall j, k | 0 <= j < k < |s| ensures s[j] <= s[k] {
      assert Leq(s[j], s[k]);
    }
    PrefixCounted(AtMost(s[i]), s, i + 1);
    SuffixNotCounted(Below(s[i]), s, i);
    SuffixCounted(AtLeast(s[i]), s, i);
    PrefixNotCounted(Above(s[i]), s, i + 1);
  }

  /** The value halves the rows: at least half of the areas are up to `low` and fewer than half below
      it, at least half are from `high` on and fewer than half above it, and the value lies halfway
      between the two. */
  predicate Halves(xs: seq<real>, low: real, high: real, value: real) {
    && low in xs && high in xs && value == (low + high) / 2.0
    && 2 * Count(AtMost(low), xs) >= |xs| && 2 * Count(Below(low), xs) < |xs|
    && 2 * Count(AtLeast(high), xs) >= |xs| && 2 * Count(Above(high), xs) < |xs|
  }

  ghost predicate IsMedian(xs: seq<real>, m: Option<real>) {
    if xs == [] then m == None else m.Some? && exists low, high :: Halves(xs, low, high, m.value)
  }

  lemma MiddleIs(s: seq<real>)
    requires s != []
    ensures Middle(s).Some? && Middle(s).value == (s[(|s| - 1) / 2] + s[|s| / 2]) / 2.0
  {
  }

  lemma MiddlePlaces(n: nat, i: nat, j: nat)
    requires n > 0 && i == (n - 1) / 2 && j == n / 2
    ensures i < n && j < n && 2 * (i + 1) >= n && 2 * i < n && 2 * (n - j) >= n && 2 * (n - 1 - j) < n
  {
  }

  lemma SortedHalves(s: seq<real>)
    requires Sorted(Leq, s) && s != []
    ensures Middle(s).Some? && Halves(s, s[(|s| - 1) / 2], s[|s| / 2], Middle(s).value)
  {
    var i, j := (|s| - 1) / 2, |s| / 2;
    MiddlePlaces(|s|, i, j);
    SortedCounts(s, i);
    SortedCounts(s, j);
    MiddleIs(s);
  }

  lemma HalvesPermute(a: seq<real>, b: seq<real>, low: real, high: real, value: real)
    requires multiset(a) == multiset(b) && Halves(a, low, high, value)
    ensures Halves(b, low, high, value)
  {
    CountPermutes(AtMost(low), a, b);
    CountPermutes(Below(low), a, b);
    CountPermutes(AtLeast(high), a, b);
    CountPermutes(Above(high), a, b);
    SizePermutes(a, b);
    assert low in multiset(b) && high in multiset(b);
  }

  /** The median halves the rows; no row has none. */
  lemma MedianHalves(rows: seq<Polygon>)
    ensures IsMedian(Areas(rows), Median(rows))
  {
    var xs := Areas(rows);
    if xs != [] {
      var s := Sort(Leq, xs);
      SortSorts(Leq, xs);
      SortedHalves(s);
      HalvesPermute(s, xs, s[(|s| - 1) / 2], s[|s| / 2], Median(rows).value);
    }
  }

  // The numbers of rows, the sums and the rates, said once more from the rows alone.

  function OccupancyRows(v: string, rows: seq<Polygon>): set<int> {
    set i | 0 <= i < |rows| && rows[i].occupancy == v
  }

  function BusinessRows(v: string, rows: seq<Polygon>): set<int> {
    set i | 0 <= i < |rows| && rows[i].business == v
  }

  function SizeRows(v: Option<string>, rows: seq<Polygon>): set<int> { set i | 0 <= i < |rows| && rows[i].size == v }

  function FloorRows(v: Option<string>, rows: seq<Polygon>): set<int> {
    set i | 0 <= i < |rows| && rows[i].floorGroup == v
  }

  function AreaSum(rows: seq<Polygon>): real { if rows == [] then 0.0 else rows[0].area + AreaSum(rows[1..]) }

  function VacantSum(rows: seq<Polygon>): real {
    if rows == [] then 0.0
    else (if rows[0].occupancy == "VACANT" then rows[0].area else 0.0) + VacantSum(rows[1..])
  }

  function KnownSum(rows: seq<Polygon>): real {
    if rows == [] then 0.0
    else (if rows[0].occupancy != "UNKNOWN" then rows[0].area else 0.0) + KnownSum(rows[1..])
  }

  /** The rate is the rounded number of per cent that `part` is of `whole`, and absent for none. */
  ghost predicate PerCent(round: real -> real, rate: Option<real>, part: real, whole: real) {
    if whole == 0.0 then rate == None else exists q: real :: q * whole == 100.0 * part && rate == Some(round(q))
  }

  lemma PerCentOf(round: real -> real, part: real, whole: real)
    requires whole != 0.0
    ensures PerCent(round, Some(round(part / whole * 100.0)), part, whole)
  {
    var q := part / whole * 100.0;
    assert q * whole == 100.0 * part;
    assert Some(round(q)) == Some(round(part / whole * 100.0));
  }

  lemma RateIs(r: Rounding, part: nat, whole: nat)
    ensures PerCent(r.two, Rate(r, part, whole), part as real, whole as real)
  {
    if whole != 0 {
      PerCentOf(r.two, part as real, whole as real);
    }
  }

  lemma PercentIs(r: Rounding, part: nat, whole: nat)
    ensures PerCent(r.one, Percent(r, part, whole), part as real, whole as real)
  {
    if whole != 0 {
      PerCentOf(r.one, part as real, whole as real);
    }
  }

  lemma AreaRateIs(r: Rounding, part: real, whole: real)
    ensures PerCent(r.two, AreaRate(r, Some(part), Some(whole)), part, whole)
  {
    if whole != 0.0 {
      PerCentOf(r.two, part, whole);
    }
  }

  lemma OccupancyCount(v: string, rows: seq<Polygon>)
    ensures Count(IsOccupancy(v), rows) == |OccupancyRows(v, rows)|
  {
    CountIs(IsOccupancy(v), rows);
    assert Places(IsOccupancy(v), rows) == OccupancyRows(v, rows);
  }

  lemma BusinessCount(v: string, rows: seq<Polygon>)
    ensures Count(IsBusiness(v), rows) == |BusinessRows(v, rows)|
  {
    CountIs(IsBusiness(v), rows);
    assert Places(IsBusiness(v), rows) == BusinessRows(v, rows);
  }

  lemma SizeCount(v: string, rows: seq<Polygon>)
    ensures Count(IsSize(v), rows) == |SizeRows(Some(v), rows)|
  {
    CountIs(IsSize(v), rows);
    assert Places(IsSize(v), rows) == SizeRows(Some(v), rows);
  }

  lemma FloorCount(v: string, rows: seq<Polygon>)
    ensures Count(IsFloor(v), rows) == |FloorRows(Some(v), rows)|
  {
    CountIs(IsFloor(v), rows);
    assert Places(IsFloor(v), rows) == FloorRows(Some(v), rows);
  }

  predicate NoSize(p: Polygon) { p.size.None? }
  predicate NoFloor(p: Polygon) { p.floorGroup.None? }

  /** What is not known is the rest. */
  lemma UnknownCounts(rows: seq<Polygon>)
    ensures |rows| - Count(KnownOccupancy, rows) == |OccupancyRows("UNKNOWN", rows)|
    ensures |rows| - Count(KnownBusiness, rows) == |BusinessRows("UNKNOWN", rows)|
  {
    Complement(KnownOccupancy, IsOccupancy("UNKNOWN"), rows);
    OccupancyCount("UNKNOWN", rows);
    Complement(KnownBusiness, IsBusiness("UNKNOWN"), rows);
    BusinessCount("UNKNOWN", rows);
  }

  lemma MissingCounts(rows: seq<Polygon>)
    ensures |rows| - Count(KnownSize, rows) == |SizeRows(None, rows)|
    ensures |rows| - Count(KnownFloor, rows) == |FloorRows(None, rows)|
  {
    Complement(KnownSize, NoSize, rows);
    CountIs(NoSize, rows);
    assert Places(NoSize, rows) == SizeRows(None, rows);
    Complement(KnownFloor, NoFloor, rows);
    CountIs(NoFloor, rows);
    assert Places(NoFloor, rows) == FloorRows(None, rows);
  }

  lemma {:induction false} SumIs(rows: seq<Polygon>)
    ensures Total(Areas(rows)) == AreaSum(rows)
    decreases |rows|
  {
    if rows == [] {
    } else {
      SumIs(rows[1..]);
    }
  }

  lemma {:induction false} VacantSumIs(rows: seq<Polygon>)
    ensures Total(Areas(Filter(IsOccupancy("VACANT"), rows))) == VacantSum(rows)
    decreases |rows|
  {
    if rows == [] {
    } else {
      VacantSumIs(rows[1..]);
    }
  }

  lemma {:induction false} KnownSumIs(rows: seq<Polygon>)
    ensures Total(Areas(Filter(KnownOccupancy, rows))) == KnownSum(rows)
    decreases |rows|
  {
    if rows == [] {
    } else {
      KnownSumIs(rows[1..]);
    }
  }

  /** Sum, average, median and the time of the last change of the rows; no row has none of them. */
  ghost predicate Aggregates(rows: seq<Polygon>, f: CompareMetrics) {
    && f.polygonCount == |rows| && IsMedian(Areas(rows), f.median)
    && (if rows == [] then f.total == None && f.average == None && f.updatedAt == None
        else
          && f.total == Some(AreaSum(rows))
          && f.average.Some? && IsAverage(f.average.value, AreaSum(rows), |rows|)
          && f.updatedAt.Some? && Latest(rows, f.updatedAt.value))
  }

  ghost predicate Numbers(r: Rounding, rows: seq<Polygon>, f: CompareMetrics) {
    && f.occupied == |OccupancyRows("OCCUPIED", rows)| && f.vacant == |OccupancyRows("VACANT", rows)|
    && f.chains == |BusinessRows("CHAIN", rows)| && f.independent == |BusinessRows("INDEPENDENT", rows)|
    && f.knownOccupancy == |rows| - |OccupancyRows("UNKNOWN", rows)|
    && f.knownBusiness == |rows| - |BusinessRows("UNKNOWN", rows)|
    && PerCent(r.two, f.vacancyRate, f.vacant as real, f.knownOccupancy as real)
    && PerCent(r.two, f.chainRate, f.chains as real, f.knownBusiness as real)
  }

  predicate Latest(rows: seq<Polygon>, at: real) {
    && (exists p | p in rows :: p.updatedAt == at)
    && (forall p | p in rows :: p.updatedAt <= at)
  }

  lemma MaxIs(rows: seq<Polygon>)
    requires rows != []
    ensures Max(rows).Some? && Latest(rows, Max(rows).value)
  {
    GreatestIs(Times(rows));
    var latest := Greatest(Times(rows));
    var i :| 0 <= i < |rows| && Times(rows)[i] == latest;
    assert rows[i] in rows && rows[i].updatedAt == latest;
    forall p | p in rows ensures p.updatedAt <= latest {
      var j :| 0 <= j < |rows| && rows[j] == p;
      assert Times(rows)[j] == p.updatedAt && Times(rows)[j] in Times(rows);
    }
  }

  predicate IsAverage(value: real, total: real, n: nat) { value * n as real == total }

  lemma Quotient(total: real, n: nat)
    requires n > 0
    ensures IsAverage(total / n as real, total, n)
  {
  }

  lemma AverageIs(rows: seq<Polygon>)
    requires rows != []
    ensures Avg(rows).Some? && IsAverage(Avg(rows).value, AreaSum(rows), |rows|)
  {
    SumIs(rows);
    assert Avg(rows).value == AreaSum(rows) / |rows| as real;
    Quotient(AreaSum(rows), |rows|);
  }

  lemma AggregatesAre(r: Rounding, rows: seq<Polygon>)
    ensures Aggregates(rows, GroupMetrics(r, rows))
  {
    MedianHalves(rows);
    if rows != [] {
      SumIs(rows);
      AverageIs(rows);
      MaxIs(rows);
    }
  }

  lemma NumbersAre(r: Rounding, rows: seq<Polygon>)
    ensures Numbers(r, rows, GroupMetrics(r, rows))
  {
    OccupancyCount("OCCUPIED", rows);
    OccupancyCount("VACANT", rows);
    BusinessCount("CHAIN", rows);
    BusinessCount("INDEPENDENT", rows);
    UnknownCounts(rows);
    RateIs(r, Count(IsOccupancy(VACANT), rows), Count(KnownOccupancy, rows));
    RateIs(r, Count(IsBusiness(CHAIN), rows), Count(KnownBusiness, rows));
  }

  /** What the figures mean, for the grouped query over any rows and for the single query over
      rows that meet the CHECK constraints. */
  lemma FiguresAre(r: Rounding, rows: seq<Polygon>)
    ensures Aggregates(rows, GroupMetrics(r, rows)) && Numbers(r, rows, GroupMetrics(r, rows))
    ensures (forall p | p in rows :: Checked(p)) ==>
      Aggregates(rows, Benchmark(r, rows).shared) && Numbers(r, rows, Benchmark(r, rows).shared)
  {
    AggregatesAre(r, rows);
    NumbersAre(r, rows);
    if forall p | p in rows :: Checked(p) {
      SameFiguresIff(r, rows);
    }
  }

  /** The distributions count the rows of each value and those without one. */
  lemma SizesAre(r: Rounding, rows: seq<Polygon>)
    ensures Benchmark(r, rows).sizes
         == [|SizeRows(Some("S"), rows)|, |SizeRows(Some("M"), rows)|, |SizeRows(Some("L"), rows)|,
             |SizeRows(Some("XL"), rows)|, |SizeRows(None, rows)|]
  {
    SizeCount("S", rows);
    SizeCount("M", rows);
    SizeCount("L", rows);
    SizeCount("XL", rows);
    MissingCounts(rows);
  }

  lemma FloorsAre(r: Rounding, rows: seq<Polygon>)
    ensures Benchmark(r, rows).floors
         == [|FloorRows(Some("UG"), rows)|, |FloorRows(Some("EG"), rows)|, |FloorRows(Some("OG"), rows)|,
             |FloorRows(None, rows)|]
  {
    ThreeFloors("UG", "EG", "OG", rows);
  }

  lemma ThreeFloors(a: string, b: string, c: string, rows: seq<Polygon>)
    ensures
      [Count(IsFloor(a), rows), Count(IsFloor(b), rows), Count(IsFloor(c), rows), |rows| - Count(KnownFloor, rows)]
      == [|FloorRows(Some(a), rows)|, |FloorRows(Some(b), rows)|, |FloorRows(Some(c), rows)|, |FloorRows(None, rows)|]
  {
    FloorCount(a, rows);
    FloorCount(b, rows);
    FloorCount(c, rows);
    MissingCounts(rows);
  }

  lemma StatusesAre(r: Rounding, rows: seq<Polygon>)
    requires forall p | p in rows :: Checked(p)
    ensures Benchmark(r, rows).statuses
         == [|OccupancyRows("OCCUPIED", rows)|, |OccupancyRows("VACANT", rows)|, |OccupancyRows("UNKNOWN", rows)|]
  {
    OccupancyCount("OCCUPIED", rows);
    OccupancyCount("VACANT", rows);
    UnknownCounts(rows);
    OccupancySplits(rows);
    NoneCounted(OtherOccupancy, rows);
  }

  lemma BusinessesAre(r: Rounding, rows: seq<Polygon>)
    requires forall p | p in rows :: Checked(p)
    ensures Benchmark(r, rows).businesses
         == [|BusinessRows("CHAIN", rows)|, |BusinessRows("INDEPENDENT", rows)|, |BusinessRows("UNKNOWN", rows)|]
  {
    BusinessCount("CHAIN", rows);
    BusinessCount("INDEPENDENT", rows);
    UnknownCounts(rows);
    BusinessSplits(rows);
    NoneCounted(OtherBusiness, rows);
  }

  /** Without the CHECK constraints too: a count that is not zero is shown, else the difference. */
  lemma FirstShown(r: Rounding, rows: seq<Polygon>)
    ensures
      var b, occupied, independent :=
        Benchmark(r, rows), |OccupancyRows("OCCUPIED", rows)|, |BusinessRows("INDEPENDENT", rows)|;
      && |b.statuses| == 3 && |b.businesses| == 3
      && b.statuses[0] == (if occupied > 0 then occupied else b.shared.knownOccupancy - b.shared.vacant)
      && b.businesses[1] == (if independent > 0 then independent else b.shared.knownBusiness - b.shared.chains)
  {
    OccupancyCount("OCCUPIED", rows);
    BusinessCount("INDEPENDENT", rows);
  }

  lemma VacantSomeIff(rows: seq<Polygon>)
    ensures Filter(IsOccupancy("VACANT"), rows) != [] <==> OccupancyRows("VACANT", rows) != {}
    ensures Filter(IsOccupancy("VACANT"), rows) != [] ==> Filter(KnownOccupancy, rows) != []
  {
    OccupancyCount("VACANT", rows);
    if Filter(IsOccupancy("VACANT"), rows) != [] {
      var p := Filter(IsOccupancy("VACANT"), rows)[0];
      assert p in Filter(IsOccupancy("VACANT"), rows) && p in Filter(KnownOccupancy, rows);
    }
  }

  lemma VacantSumsAre(rows: seq<Polygon>)
    ensures
      Sum(Filter(IsOccupancy("VACANT"), rows))
      == if OccupancyRows("VACANT", rows) == {} then None else Some(VacantSum(rows))
    ensures OccupancyRows("VACANT", rows) != {} ==> Sum(Filter(KnownOccupancy, rows)) == Some(KnownSum(rows))
  {
    VacantSumIs(rows);
    KnownSumIs(rows);
    VacantSomeIff(rows);
  }

  /** The vacant area and its share of the area whose occupancy is known. */
  lemma VacantAreaIs(r: Rounding, rows: seq<Polygon>)
    ensures
      var b := Benchmark(r, rows);
      && (b.vacantArea == if OccupancyRows("VACANT", rows) == {} then None else Some(VacantSum(rows)))
      && (if OccupancyRows("VACANT", rows) == {} then b.vacancyAreaRate == None
          else PerCent(r.two, b.vacancyAreaRate, VacantSum(rows), KnownSum(rows)))
  {
    VacantSumsAre(rows);
    AreaRateIs(r, VacantSum(rows), KnownSum(rows));
  }

  function OwnCategoryRows(rows: seq<Polygon>): set<int> {
    set i | 0 <= i < |rows| && rows[i].category != "custom"
  }

  lemma KnownCounts(rows: seq<Polygon>)
    ensures Count(KnownCategory, rows) == |OwnCategoryRows(rows)|
    ensures Count(KnownSize, rows) == |rows| - |SizeRows(None, rows)|
    ensures Count(KnownFloor, rows) == |rows| - |FloorRows(None, rows)|
    ensures Count(KnownOccupancy, rows) == |rows| - |OccupancyRows("UNKNOWN", rows)|
    ensures Count(KnownBusiness, rows) == |rows| - |BusinessRows("UNKNOWN", rows)|
  {
    CountIs(KnownCategory, rows);
    assert Places(KnownCategory, rows) == OwnCategoryRows(rows);
    UnknownCounts(rows);
    MissingCounts(rows);
  }

  /** Completeness: the share of rows with a category of their own, a size, a floor, a known
      occupancy and a known business structure. */
  lemma CompletenessIs(r: Rounding, rows: seq<Polygon>)
    ensures
      var c, n := Benchmark(r, rows).completeness, |rows| as real;
      && |c| == 5
      && PerCent(r.one, c[0], |OwnCategoryRows(rows)| as real, n)
      && PerCent(r.one, c[1], (|rows| - |SizeRows(None, rows)|) as real, n)
      && PerCent(r.one, c[2], (|rows| - |FloorRows(None, rows)|) as real, n)
      && PerCent(r.one, c[3], (|rows| - |OccupancyRows("UNKNOWN", rows)|) as real, n)
      && PerCent(r.one, c[4], (|rows| - |BusinessRows("UNKNOWN", rows)|) as real, n)
  {
    KnownCounts(rows);
    PercentIs(r, Count(KnownCategory, rows), |rows|);
    PercentIs(r, Count(KnownSize, rows), |rows|);
    PercentIs(r, Count(KnownFloor, rows), |rows|);
    PercentIs(r, Count(KnownOccupancy, rows), |rows|);
    PercentIs(r, Count(KnownBusiness, rows), |rows|);
  }

  // ----- main results -----

  lemma GroupIdsAreAreasWithRows(joined: seq<Joined>, area: int)
    ensures area in GroupIds(joined) <==> RowsOf(joined, area) != []
  {
    if area in GroupIds(joined) {
      var i :| 0 <= i < |joined| && Map(IdOf, joined)[i] == area;
      assert joined[i] in Filter(InArea(area), joined);
    }
    if RowsOf(joined, area) != [] {
      var x := Filter(InArea(area), joined)[0];
      assert x in Filter(InArea(area), joined) && x in joined && InArea(area)(x);
      var i :| 0 <= i < |joined| && joined[i] == x;
      assert Map(IdOf, joined)[i] == area;
    }
  }

  /** What the comparison shows for an area. */
  function Shown(result: map<int, CompareMetrics>, area: int): CompareMetrics {
    if area in result then result[area] else NO_METRICS
  }

  lemma GroupRowAt(r: Rounding, joined: seq<Joined>, i: nat)
    requires i < |GroupIds(joined)|
    ensures i < |Grouped(r, joined)|
    ensures
      var area := GroupIds(joined)[i];
      Grouped(r, joined)[i] == GroupRow(area, GroupMetrics(r, RowsOf(joined, area)))
  {
  }

  lemma PresentIsGroup(r: Rounding, joined: seq<Joined>, result: map<int, CompareMetrics>, area: int)
    requires IsDictionary(Grouped(r, joined), result)
    ensures area in GroupIds(joined) ==> area in result && result[area] == GroupMetrics(r, RowsOf(joined, area))
  {
    if area in GroupIds(joined) {
      var i :| 0 <= i < |GroupIds(joined)| && GroupIds(joined)[i] == area;
      GroupRowAt(r, joined, i);
    }
  }

  lemma AbsentIsEmpty(r: Rounding, joined: seq<Joined>, result: map<int, CompareMetrics>, area: int)
    requires IsDictionary(Grouped(r, joined), result) && area !in GroupIds(joined)
    ensures area !in result
  {
  }

  lemma NoMetricsAreEmpty(r: Rounding)
    ensures GroupMetrics(r, []) == NO_METRICS
  {
  }

  lemma ShownIsGroup(r: Rounding, joined: seq<Joined>, result: map<int, CompareMetrics>, area: int)
    requires IsDictionary(Grouped(r, joined), result)
    ensures Shown(result, area) == GroupMetrics(r, RowsOf(joined, area))
  {
    if area in GroupIds(joined) {
      PresentIsGroup(r, joined, result, area);
    } else {
      AbsentIsEmpty(r, joined, result, area);
      GroupIdsAreAreasWithRows(joined, area);
      NoMetricsAreEmpty(r);
    }
  }

  /** The polygons of the area that pass the filters, each once. */
  lemma SelectionIs(table: seq<Polygon>, links: seq<Link>, keep: Polygon -> bool, area: int)
    requires WellFormed(table, links)
    ensures forall p :: p in Selection(table, links, keep, area) <==> p in table && keep(p) && Link(p.id, area) in links
    ensures Distinct(Selection(table, links, keep, area))
  {
    assert Distinct(table);
    FilterDistinct(Linked(links, keep, area), table);
  }

  /** For every requested area the grouped query shows the figures of the single-selection
      query restricted to that area, and they are what the rows say; an area without rows
      shows those of an empty selection. */
  lemma GroupedAgreesWithSingle(r: Rounding, table: seq<Polygon>, links: seq<Link>, keep: Polygon -> bool,
                                areas: seq<int>, result: map<int, CompareMetrics>, area: int)
    requires WellFormed(table, links) && area in areas
    requires IsDictionary(Grouped(r, Join(table, links, keep, areas)), result)
    ensures Shown(result, area) == Benchmark(r, Selection(table, links, keep, area)).shared
    ensures Aggregates(Selection(table, links, keep, area), Shown(result, area))
    ensures Numbers(r, Selection(table, links, keep, area), Shown(result, area))
  {
    var joined := Join(table, links, keep, areas);
    ShownIsGroup(r, joined, result, area);
    GroupIsSelection(table, links, keep, areas, area);
    GroupMetricsPermute(r, RowsOf(joined, area), Selection(table, links, keep, area));
    SameFiguresIff(r, Selection(table, links, keep, area));
    FiguresAre(r, Selection(table, links, keep, area));
  }

  function TotalOf(counts: seq<int>): int { if counts == [] then 0 else counts[0] + TotalOf(counts[1..]) }

  lemma TotalOfAppend(a: seq<int>, x: int)
    ensures TotalOf(a + [x]) == TotalOf(a) + x
    decreases |a|
  {
    if a != [] {
      assert (a + [x])[1..] == a[1..] + [x];
      TotalOfAppend(a[1..], x);
    }
  }

  lemma TotalOfThree(a: int, b: int, c: int)
    ensures TotalOf([a, b, c]) == a + b + c
  {
    TotalOfAppend([a, b], c);
    TotalOfAppend([a], b);
    assert [a, b] == [a] + [b] && [a, b, c] == [a, b] + [c];
  }

  lemma TotalOfFive(a: int, b: int, c: int, d: int, e: int)
    ensures TotalOf([a, b, c, d, e]) == a + b + c + d + e
  {
    TotalOfThree(a, b, c);
    TotalOfAppend([a, b, c], d);
    TotalOfAppend([a, b, c, d], e);
    assert [a, b, c, d] == [a, b, c] + [d] && [a, b, c, d, e] == [a, b, c, d] + [e];
  }

  /** The status and structure distributions add up to the number of polygons. */
  lemma DistributionsAddUp(r: Rounding, rows: seq<Polygon>)
    requires forall p | p in rows :: Checked(p)
    ensures TotalOf(Benchmark(r, rows).statuses) == |rows|
    ensures TotalOf(Benchmark(r, rows).businesses) == |rows|
  {
    OccupancySplits(rows);
    BusinessSplits(rows);
    NoneCounted(OtherOccupancy, rows);
    NoneCounted(OtherBusiness, rows);
    var s, b := Benchmark(r, rows).statuses, Benchmark(r, rows).businesses;
    TotalOfThree(s[0], s[1], s[2]);
    TotalOfThree(b[0], b[1], b[2]);
  }

  predicate OddSize(p: Polygon) { p.size.Some? && p.size.value !in SIZES }

  lemma {:induction false} SizesSplit(rows: seq<Polygon>)
    ensures Count(KnownSize, rows)
      == Count(IsSize("S"), rows) + Count(IsSize("M"), rows) + Count(IsSize("L"), rows) + Count(IsSize("XL"), rows)
         + Count(OddSize, rows)
    decreases |rows|
  {
    if rows == [] {
    } else {
      SizesSplit(rows[1..]);
    }
  }

  /** The size distribution has no CHECK behind it: it adds up exactly when every stated
      size is one of the four. */
  lemma SizesAddUpIff(r: Rounding, rows: seq<Polygon>)
    ensures TotalOf(Benchmark(r, rows).sizes) == |rows| <==> forall p | p in rows :: !OddSize(p)
  {
    SizesSplit(rows);
    NoneCounted(OddSize, rows);
    var s := Benchmark(r, rows).sizes;
    TotalOfFive(s[0], s[1], s[2], s[3], s[4]);
  }

  // ----- the category distribution -----

  function CategoryOf(p: Polygon): string { p.category }

  /** Adding up the counts of the categories in `among`. */
  function Within(categories: seq<string>, rows: seq<Polygon>, among: set<string>): nat {
    if categories == [] then 0
    else
      (if categories[0] in among then Count(InCategory(categories[0]), rows) else 0)
      + Within(categories[1..], rows, among)
  }

  lemma {:induction false} WithinNone(categories: seq<string>, among: set<string>)
    ensures Within(categories, [], among) == 0
    decreases |categories|
  {
    if categories == [] {
    } else {
      WithinNone(categories[1..], among);
    }
  }

  /** One more row adds one to the count of its category. */
  lemma {:induction false} WithinOneMore(categories: seq<string>, p: Polygon, rows: seq<Polygon>, among: set<string>)
    requires Distinct(categories)
    ensures Within(categories, [p] + rows, among)
      == Within(categories, rows, among) + (if p.category in categories && p.category in among then 1 else 0)
    decreases |categories|
  {
    if categories == [] {
    } else {
      WithinOneMore(categories[1..], p, rows, among);
      assert ([p] + rows)[1..] == rows;
      assert categories == [categories[0]] + categories[1..];
      assert categories[0] !in categories[1..];
    }
  }

  predicate InSet(among: set<string>, p: Polygon) { p.category in among }

  function InAny(among: set<string>): Polygon -> bool { (p: Polygon) => InSet(among, p) }

  lemma {:induction false} WithinCounts(categories: seq<string>, rows: seq<Polygon>, among: set<string>)
    requires Distinct(categories) && forall p | p in rows :: p.category in categories
    ensures Within(categories, rows, among) == Count(InAny(among), rows)
    decreases |rows|
  {
    if rows == [] {
      WithinNone(categories, among);
    } else {
      assert rows == [rows[0]] + rows[1..];
      WithinOneMore(categories, rows[0], rows[1..], among);
      WithinCounts(categories, rows[1..], among);
    }
  }

  function Categories(rows: seq<Polygon>): seq<string> { Dedup(Map(CategoryOf, rows)) }

  lemma CategoriesCover(rows: seq<Polygon>)
    ensures Distinct(Categories(rows)) && forall p | p in rows :: p.category in Categories(rows)
  {
    forall p | p in rows ensures p.category in Categories(rows) {
      var i :| 0 <= i < |rows| && rows[i] == p;
      assert Map(CategoryOf, rows)[i] == p.category;
    }
  }

  /** The category counts add up to the number of polygons, and the `shops` figure, added up
      from them, is the number of polygons in a shop category. */
  lemma {:induction false} CategoriesAddUp(rows: seq<Polygon>)
    ensures Within(Categories(rows), rows, (set p | p in rows :: p.category)) == |rows|
    ensures Within(Categories(rows), rows, SHOP_CATEGORIES) == |ShopRows(rows)|
  {
    CategoriesCover(rows);
    var all := set p | p in rows :: p.category;
    WithinCounts(Categories(rows), rows, all);
    WithinCounts(Categories(rows), rows, SHOP_CATEGORIES);
    AllCounted(InAny(all), rows);
    ShopRowsAre(rows);
  }

  /** The rows that are shops. */
  function ShopRows(rows: seq<Polygon>): set<int> {
    set i | 0 <= i < |rows| && rows[i].category in
      {"warehouse", "fashion", "food", "electronics", "furniture", "garden", "other", "gastronomy", "services"}
  }

  lemma ShopRowsAre(rows: seq<Polygon>)
    ensures Count(InAny(SHOP_CATEGORIES), rows) == |ShopRows(rows)|
  {
    CountIs(InAny(SHOP_CATEGORIES), rows);
    assert Places(InAny(SHOP_CATEGORIES), rows) == ShopRows(rows);
  }
}
