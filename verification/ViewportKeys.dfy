/** The cached map viewports: what a shared cache key says about two requests. */
module ViewportKeys {
  import opened Lists
  import opened Options
  import opened Permutations
  import opened Powers
  import opened Sorting
  import opened ViewportTiles
  import Keys = CacheKeys
  import Filters = PolygonFilters

  const RESOURCE := "osm:viewport:v5"

  /** A request: the viewport and what else selects features. */
  datatype Request = Request(
    west: real, south: real, east: real, north: real, zoom: real,
    categories: seq<string>, area: Option<string>, poi: Option<string>,
    buildings: bool, limit: nat, filters: Filters.Params)
  {
    function View(): Viewport { Viewport(west, south, east, north, zoom, area.Some?, poi.Some?) }
  }

  /** An accepted request that reaches the cache; below zoom 11 the answer is empty. */
  predicate Cached(r: Request) { Validate(r.View()).Accepted? && r.zoom >= 11.0 }

  // ----- the cache parameters -----

  function ToText(s: string): Keys.Scalar { Keys.Text(s) }

  function Texts(s: seq<string>): Keys.Param { Keys.Many(Map(ToText, s)) }

  function Range(low: int, high: int): Keys.Param { Keys.Many([Keys.Number(low), Keys.Number(high)]) }

  function Maybe(s: Option<string>): Keys.Param { Keys.One(if s.Some? then Keys.Text(s.value) else Keys.Null) }

  /** The mapping with these names and values. */
  function Dict(names: seq<string>, values: seq<Keys.Param>): Keys.Params
    requires |names| == |values|
  {
    if names == [] then map[] else Dict(names[1..], values[1..])[names[0] := values[0]]
  }

  const FILTER_NAMES: seq<string> :=
    ["categories", "floors", "area_sizes", "occupancy_statuses", "business_structures", "sources"]

  function FilterValues(f: Filters.Params): (values: seq<Keys.Param>)
    ensures |values| == |FILTER_NAMES|
  {
    [Texts(f.categories), Texts(f.floors), Texts(f.areaSizes),
     Texts(f.occupancyStatuses), Texts(f.businessStructures), Texts(f.sources)]
  }

  function FilterParams(f: Filters.Params): Keys.Params { Dict(FILTER_NAMES, FilterValues(f)) }

  const NAMES: seq<string> :=
    ["tile_zoom", "x_range", "y_range", "zoom", "categories", "analysis_area", "poi_category",
     "buildings", "limit", "filters"]

  /** The values under the first five of those names, and under the others. */
  function Place(b: Bucket, zoom: string, categories: seq<string>): (values: seq<Keys.Param>)
    ensures |values| == 5
  {
    [Keys.One(Keys.Number(b.tileZoom)), Range(b.xMin, b.xMax), Range(b.yMin, b.yMax),
     Keys.One(Keys.HexLike(zoom)), Texts(categories)]
  }

  function Choice(r: Request): (values: seq<Keys.Param>)
    ensures |values| == 5
  {
    [Maybe(r.area), Maybe(r.poi), Keys.One(Keys.Flag(r.buildings)), Keys.One(Keys.Number(r.limit)),
     Keys.Nested(FilterParams(r.filters))]
  }

  function Values(b: Bucket, zoom: string, r: Request): (values: seq<Keys.Param>)
    ensures |values| == |NAMES|
  {
    Place(b, zoom, Sort(Keys.Lex, r.categories)) + Choice(r)
  }

  /** `rounded` gives the text of the zoom rounded to one digit. */
  function CacheParams(m: Mercator, rounded: real -> string, r: Request): Keys.Params
    requires r.zoom >= 0.0
  {
    Dict(NAMES, Values(TileBucket(m, r.View()), rounded(r.zoom), r))
  }

  function Key(e: Keys.Env, m: Mercator, rounded: real -> string, r: Request, version: nat): string
    requires r.zoom >= 0.0
  {
    Keys.BuildKey(e, RESOURCE, CacheParams(m, rounded, r), Keys.Single(version))
  }

  // ----- what the query reads -----

  /** The zoom enters the query in comparisons with 13, 15 and 17 only. */
  function Band(zoom: real): nat {
    if zoom < 13.0 then 0 else if zoom < 15.0 then 1 else if zoom < 17.0 then 2 else 3
  }

  datatype Settings = Settings(features: nat, lowZoom: nat, midZoom: nat, points: nat, polygons: nat, buildings: nat)

  datatype Limits = Limits(points: int, polygons: int, buildings: int)

  function Least(x: int, y: int): int { if x <= y then x else y }

  function ZoomLimit(c: Settings, r: Request): nat {
    if r.zoom < 15.0 then c.lowZoom else if r.zoom < 17.0 then c.midZoom else c.features
  }

  /** How many points, polygons and buildings are returned. */
  function LimitsOf(c: Settings, r: Request): Limits {
    var limit := Least(r.limit, Least(c.features, ZoomLimit(c, r)));
    if r.zoom < 15.0 then Limits(limit, 0, 0)
    else if r.zoom < 17.0 then
      var polygons := Least(c.polygons, limit / 6);
      Limits(limit - polygons, polygons, 0)
    else
      var buildings := if r.buildings && limit >= 10 then Least(c.buildings, limit / 10) else 0;
      var wanted := if limit > buildings + 1 then (if limit / 5 >= 1 then limit / 5 else 1) else 0;
      var polygons := Least(c.polygons, wanted);
      Limits(Least(c.points, limit - polygons - buildings), polygons, buildings)
  }

  /** Lists are read through membership and emptiness, so as multisets. */
  datatype FilterSets = FilterSets(
    categories: multiset<string>, floors: multiset<string>, areaSizes: multiset<string>,
    occupancyStatuses: multiset<string>, businessStructures: multiset<string>, sources: multiset<string>)

  function SetsOf(f: Filters.Params): FilterSets {
    FilterSets(multiset(f.categories), multiset(f.floors), multiset(f.areaSizes),
               multiset(f.occupancyStatuses), multiset(f.businessStructures), multiset(f.sources))
  }

  /** Everything an answer depends on, apart from the zoom it reports. */
  datatype Reads = Reads(
    bucket: Bucket, band: nat, limits: Limits, categories: multiset<string>,
    area: Option<string>, poi: Option<string>, buildings: bool, filters: FilterSets)

  function ReadsOf(m: Mercator, c: Settings, r: Request): Reads
    requires r.zoom >= 0.0
  {
    Reads(TileBucket(m, r.View()), Band(r.zoom), LimitsOf(c, r), multiset(r.categories),
          r.area, r.poi, r.buildings, SetsOf(r.filters))
  }

  // ----- equal parameters -----

  lemma TextsIff(a: seq<string>, b: seq<string>)
    ensures Keys.SameParam(Texts(a), Texts(b)) <==> multiset(a) == multiset(b)
  {
    var u, v := Map(ToText, a), Map(ToText, b);
    assert Keys.Items(u) == u && Keys.Items(v) == v;
    Keys.OneKindIff(u, v);
    if multiset(a) == multiset(b) {
      MapPermutes(ToText, a, b);
    }
    if multiset(u) == multiset(v) {
      forall x ensures multiset(a)[x] == multiset(b)[x] {
        TextMultiplicity(a, x);
        TextMultiplicity(b, x);
      }
    }
  }

  lemma {:induction false} TextMultiplicity(s: seq<string>, x: string)
    ensures multiset(Map(ToText, s))[Keys.Text(x)] == multiset(s)[x]
    decreases |s|
  {
    if s == [] {
    } else {
      TextMultiplicity(s[1..], x);
      assert s == [s[0]] + s[1..];
    }
  }

  /** The two ends of a range survive being sorted as text, since they are in order. */
  lemma RangeIff(a: int, b: int, c: int, d: int)
    requires a <= b && c <= d
    ensures Keys.SameParam(Range(a, b), Range(c, d)) <==> a == c && b == d
  {
    var u, v := [Keys.Number(a), Keys.Number(b)], [Keys.Number(c), Keys.Number(d)];
    assert Keys.Items(u) == u && Keys.Items(v) == v;
    Keys.OneKindIff(u, v);
    PairIff(u[0], u[1], v[0], v[1]);
  }

  lemma PairIff<T>(x: T, y: T, z: T, w: T)
    ensures multiset([x, y]) == multiset([z, w]) <==> (x == z && y == w) || (x == w && y == z)
  {
    assert multiset([x, y]) == multiset{x, y} && multiset([z, w]) == multiset{z, w};
    if multiset([x, y]) == multiset([z, w]) {
      assert x in multiset{z, w};
      assert multiset{x, y} - multiset{x} == multiset{y};
    }
  }

  lemma {:induction false} DictKeys(names: seq<string>, values: seq<Keys.Param>)
    requires |names| == |values|
    ensures forall n :: n in Dict(names, values) <==> n in names
    decreases |names|
  {
    if names == [] {
    } else {
      DictKeys(names[1..], values[1..]);
      assert names == [names[0]] + names[1..];
    }
  }

  lemma InsertIff(f: Keys.Params, g: Keys.Params, name: string, x: Keys.Param, y: Keys.Param)
    requires name !in f && name !in g
    ensures Keys.SameSelection(f[name := x], g[name := y]) <==> Keys.SameSelection(f, g) && Keys.SameParam(x, y)
  {
    var f', g' := f[name := x], g[name := y];
    assert f'.Keys == f.Keys + {name} && g'.Keys == g.Keys + {name};
    if Keys.SameSelection(f', g') {
      assert f.Keys == f'.Keys - {name} && g.Keys == g'.Keys - {name};
      assert forall k | k in f :: Keys.SameParam(f'[k], g'[k]);
      assert Keys.SameParam(f'[name], g'[name]);
    }
  }

  /** Two such mappings select the same exactly when their values do, one by one. */
  lemma {:induction false} DictIff(names: seq<string>, a: seq<Keys.Param>, b: seq<Keys.Param>)
    requires Distinct(names) && |names| == |a| == |b|
    ensures Keys.SameSelection(Dict(names, a), Dict(names, b)) <==>
      forall i | 0 <= i < |a| :: Keys.SameParam(a[i], b[i])
    decreases |names|
  {
    if names == [] {
    } else {
      DictIff(names[1..], a[1..], b[1..]);
      DictKeys(names[1..], a[1..]);
      DictKeys(names[1..], b[1..]);
      InsertIff(Dict(names[1..], a[1..]), Dict(names[1..], b[1..]), names[0], a[0], b[0]);
      EachIff(a, b);
    }
  }

  lemma EachIff(a: seq<Keys.Param>, b: seq<Keys.Param>)
    requires |a| == |b| && a != []
    ensures (forall i | 0 <= i < |a| :: Keys.SameParam(a[i], b[i])) <==>
      Keys.SameParam(a[0], b[0]) && forall i | 0 <= i < |a| - 1 :: Keys.SameParam(a[1..][i], b[1..][i])
  {
    if Keys.SameParam(a[0], b[0]) && forall i | 0 <= i < |a| - 1 :: Keys.SameParam(a[1..][i], b[1..][i]) {
      forall i | 0 < i < |a| ensures Keys.SameParam(a[i], b[i]) {
        assert a[1..][i - 1] == a[i] && b[1..][i - 1] == b[i];
      }
    }
  }

  /** Names with different first letters. */
  lemma ByInitials(names: seq<string>, initials: string)
    requires |names| == |initials| && Distinct(initials)
    requires forall i | 0 <= i < |names| :: names[i] != "" && names[i][0] == initials[i]
    ensures Distinct(names)
  {
  }

  lemma NamesDistinct()
    ensures Distinct(FILTER_NAMES) && Distinct(NAMES)
  {
    ByInitials(FILTER_NAMES, "cfaobs");
    ByInitials(NAMES, "txyzcapblf");
  }

  lemma EachOfSix(a: seq<Keys.Param>, b: seq<Keys.Param>)
    requires |a| == |b| == 6
    ensures (forall i | 0 <= i < |a| :: Keys.SameParam(a[i], b[i])) <==>
      && Keys.SameParam(a[0], b[0]) && Keys.SameParam(a[1], b[1]) && Keys.SameParam(a[2], b[2])
      && Keys.SameParam(a[3], b[3]) && Keys.SameParam(a[4], b[4]) && Keys.SameParam(a[5], b[5])
  {
  }

  lemma EachOfFive(a: seq<Keys.Param>, b: seq<Keys.Param>)
    requires |a| == |b| == 5
    ensures (forall i | 0 <= i < |a| :: Keys.SameParam(a[i], b[i])) <==>
      && Keys.SameParam(a[0], b[0]) && Keys.SameParam(a[1], b[1]) && Keys.SameParam(a[2], b[2])
      && Keys.SameParam(a[3], b[3]) && Keys.SameParam(a[4], b[4])
  {
  }

  lemma EachOfBoth(a: seq<Keys.Param>, b: seq<Keys.Param>, c: seq<Keys.Param>, d: seq<Keys.Param>)
    requires |a| == |b| && |c| == |d|
    ensures (forall i | 0 <= i < |a + c| :: Keys.SameParam((a + c)[i], (b + d)[i])) <==>
      && (forall i | 0 <= i < |a| :: Keys.SameParam(a[i], b[i]))
      && (forall i | 0 <= i < |c| :: Keys.SameParam(c[i], d[i]))
  {
    if forall i | 0 <= i < |a + c| :: Keys.SameParam((a + c)[i], (b + d)[i]) {
      forall i | 0 <= i < |a| ensures Keys.SameParam(a[i], b[i]) {
        assert (a + c)[i] == a[i] && (b + d)[i] == b[i];
      }
      forall i | 0 <= i < |c| ensures Keys.SameParam(c[i], d[i]) {
        assert (a + c)[|a| + i] == c[i] && (b + d)[|a| + i] == d[i];
      }
    }
  }

  lemma FiltersIff(f: Filters.Params, g: Filters.Params)
    ensures Keys.SameSelection(FilterParams(f), FilterParams(g)) <==> SetsOf(f) == SetsOf(g)
  {
    NamesDistinct();
    DictIff(FILTER_NAMES, FilterValues(f), FilterValues(g));
    EachOfSix(FilterValues(f), FilterValues(g));
    TextsIff(f.categories, g.categories);
    TextsIff(f.floors, g.floors);
    TextsIff(f.areaSizes, g.areaSizes);
    TextsIff(f.occupancyStatuses, g.occupancyStatuses);
    TextsIff(f.businessStructures, g.businessStructures);
    TextsIff(f.sources, g.sources);
  }

  lemma OneIff(s: Keys.Scalar, t: Keys.Scalar)
    ensures Keys.SameParam(Keys.One(s), Keys.One(t)) <==> Keys.CanonicalScalar(s) == Keys.CanonicalScalar(t)
  {
  }

  lemma MaybeIff(s: Option<string>, t: Option<string>)
    ensures Keys.SameParam(Maybe(s), Maybe(t)) <==> s == t
  {
  }

  lemma NestedIff(f: Keys.Params, g: Keys.Params)
    ensures Keys.SameParam(Keys.Nested(f), Keys.Nested(g)) <==> Keys.SameSelection(f, g)
  {
  }

  predicate SameTiles(a: Bucket, b: Bucket) {
    a.tileZoom == b.tileZoom && a.xMin == b.xMin && a.xMax == b.xMax && a.yMin == b.yMin && a.yMax == b.yMax
  }

  /** The requests select the same apart from place and zoom. */
  predicate SameChoice(r: Request, q: Request) {
    && multiset(r.categories) == multiset(q.categories)
    && r.area == q.area && r.poi == q.poi && r.buildings == q.buildings && r.limit == q.limit
    && SetsOf(r.filters) == SetsOf(q.filters)
  }

  /** The requests agree on everything in the key. */
  predicate SameRequest(m: Mercator, rounded: real -> string, r: Request, q: Request)
    requires r.zoom >= 0.0 && q.zoom >= 0.0
  {
    && SameTiles(TileBucket(m, r.View()), TileBucket(m, q.View()))
    && rounded(r.zoom) == rounded(q.zoom)
    && SameChoice(r, q)
  }

  predicate Ordered(b: Bucket) { b.xMin <= b.xMax && b.yMin <= b.yMax }

  lemma PlaceIff(a: Bucket, s: string, c: seq<string>, b: Bucket, t: string, d: seq<string>)
    requires Ordered(a) && Ordered(b)
    ensures
      var u, v := Place(a, s, c), Place(b, t, d);
      (forall i | 0 <= i < |u| :: Keys.SameParam(u[i], v[i])) <==>
        SameTiles(a, b) && s == t && multiset(c) == multiset(d)
  {
    EachOfFive(Place(a, s, c), Place(b, t, d));
    OneIff(Keys.Number(a.tileZoom), Keys.Number(b.tileZoom));
    OneIff(Keys.HexLike(s), Keys.HexLike(t));
    RangeIff(a.xMin, a.xMax, b.xMin, b.xMax);
    RangeIff(a.yMin, a.yMax, b.yMin, b.yMax);
    TextsIff(c, d);
  }

  lemma ChoiceIff(r: Request, q: Request)
    ensures
      var u, v := Choice(r), Choice(q);
      (forall i | 0 <= i < |u| :: Keys.SameParam(u[i], v[i])) <==>
        && r.area == q.area && r.poi == q.poi && r.buildings == q.buildings && r.limit == q.limit
        && SetsOf(r.filters) == SetsOf(q.filters)
  {
    EachOfFive(Choice(r), Choice(q));
    MaybeIff(r.area, q.area);
    MaybeIff(r.poi, q.poi);
    OneIff(Keys.Flag(r.buildings), Keys.Flag(q.buildings));
    OneIff(Keys.Number(r.limit), Keys.Number(q.limit));
    NestedIff(FilterParams(r.filters), FilterParams(q.filters));
    FiltersIff(r.filters, q.filters);
  }

  lemma ParamsIff(a: Bucket, b: Bucket, s: string, t: string, r: Request, q: Request)
    requires Ordered(a) && Ordered(b)
    ensures Keys.SameSelection(Dict(NAMES, Values(a, s, r)), Dict(NAMES, Values(b, t, q))) <==>
      SameTiles(a, b) && s == t && SameChoice(r, q)
  {
    var c, d := Sort(Keys.Lex, r.categories), Sort(Keys.Lex, q.categories);
    NamesDistinct();
    DictIff(NAMES, Values(a, s, r), Values(b, t, q));
    EachOfBoth(Place(a, s, c), Place(b, t, d), Choice(r), Choice(q));
    PlaceIff(a, s, c, b, t, d);
    ChoiceIff(r, q);
  }

  /** Two cached requests share a key exactly when they agree on buckets, rounded zoom and
      selection; the version must agree as well. */
  lemma KeyIff(e: Keys.Env, m: Mercator, rounded: real -> string, r: Request, v: nat, q: Request, w: nat)
    requires Keys.Lawful(e) && Lawful(m) && Cached(r) && Cached(q)
    ensures Key(e, m, rounded, r, v) == Key(e, m, rounded, q, w) <==> v == w && SameRequest(m, rounded, r, q)
  {
    Keys.KeyIff(e, RESOURCE, CacheParams(m, rounded, r), Keys.Single(v),
                RESOURCE, CacheParams(m, rounded, q), Keys.Single(w));
    BucketOrdered(m, r.View());
    BucketOrdered(m, q.View());
    ParamsIff(TileBucket(m, r.View()), TileBucket(m, q.View()), rounded(r.zoom), rounded(q.zoom), r, q);
  }

  // ----- equal answers -----

  /** From zoom 11 on the tile zoom tells the two sides of every threshold apart. */
  lemma SameBand(a: real, b: real)
    requires a >= 11.0 && b >= 11.0 && TileZoom(a) == TileZoom(b)
    ensures Band(a) == Band(b)
    ensures (a < 13.0 <==> b < 13.0) && (a < 15.0 <==> b < 15.0) && (a < 17.0 <==> b < 17.0)
  {
  }

  /** The bands are those between the zooms the query compares with. */
  lemma BandIff(a: real, b: real)
    ensures Band(a) == Band(b) <==> (a < 13.0 <==> b < 13.0) && (a < 15.0 <==> b < 15.0) && (a < 17.0 <==> b < 17.0)
  {
  }

  predicate IsLeast(x: int, a: int, b: int) { (x == a || x == b) && x <= a && x <= b }

  /** How many features there may be in all: the least of what is asked for, the general limit and
      the limit of the zoom. */
  predicate IsTotal(c: Settings, r: Request, total: int) {
    && total <= r.limit && total <= c.features
    && (r.zoom < 15.0 ==> total <= c.lowZoom && total in {r.limit, c.features, c.lowZoom})
    && (15.0 <= r.zoom < 17.0 ==> total <= c.midZoom && total in {r.limit, c.features, c.midZoom})
    && (17.0 <= r.zoom ==> total in {r.limit, c.features})
  }

  /** The total is shared out: below zoom 15 points only; below 17 at most a sixth are polygons and
      the rest points; from 17 on up to a tenth are buildings if asked for, up to a fifth are
      polygons, but one where there is room for it, and points fill up to their own limit. */
  lemma LimitsAre(c: Settings, r: Request, total: int)
    requires IsTotal(c, r, total)
    ensures
      var l := LimitsOf(c, r);
      && 0 <= l.points && 0 <= l.polygons && 0 <= l.buildings && l.points + l.polygons + l.buildings <= total
      && (r.zoom < 15.0 ==> l == Limits(total, 0, 0))
      && (15.0 <= r.zoom < 17.0 ==>
            IsLeast(l.polygons, c.polygons, total / 6) && l == Limits(total - l.polygons, l.polygons, 0))
      && (17.0 <= r.zoom ==>
            && IsLeast(l.buildings, c.buildings, if r.buildings then total / 10 else 0)
            && IsLeast(l.polygons, c.polygons, if total <= l.buildings + 1 then 0
                                               else if total < 5 then 1 else total / 5)
            && IsLeast(l.points, c.points, total - l.polygons - l.buildings))
  {
  }

  lemma SameLimits(c: Settings, r: Request, q: Request)
    requires (r.zoom < 15.0 <==> q.zoom < 15.0) && (r.zoom < 17.0 <==> q.zoom < 17.0)
    requires r.limit == q.limit && r.buildings == q.buildings
    ensures LimitsOf(c, r) == LimitsOf(c, q)
  {
  }

  /** Main result: requests that share a key make the query read the same, although the key
      rounds the zoom and sorts the tile ranges as text. */
  lemma SharedKeyReadsSame(e: Keys.Env, m: Mercator, rounded: real -> string, c: Settings,
                           r: Request, v: nat, q: Request, w: nat)
    requires Keys.Lawful(e) && Lawful(m) && Cached(r) && Cached(q)
    ensures Key(e, m, rounded, r, v) == Key(e, m, rounded, q, w) ==> ReadsOf(m, c, r) == ReadsOf(m, c, q)
  {
    KeyIff(e, m, rounded, r, v, q, w);
    if SameRequest(m, rounded, r, q) {
      SameBand(r.zoom, q.zoom);
      SameBuckets(m, r.View(), q.View());
      SameLimits(c, r, q);
    }
  }

  lemma SameBuckets(m: Mercator, v: Viewport, w: Viewport)
    requires v.zoom >= 0.0 && w.zoom >= 0.0
    requires SameTiles(TileBucket(m, v), TileBucket(m, w))
    ensures TileBucket(m, v) == TileBucket(m, w)
  {
  }

  const NO_FILTERS := Filters.Params([], [], [], [], [], [])
  const NEAR := Request(9.0, 54.0, 9.01, 54.01, 16.0, [], None, None, false, 2000, NO_FILTERS)
  const NEARER := NEAR.(zoom := 16.01)

  lemma BothCached()
    ensures Cached(NEAR) && Cached(NEARER)
  {
    assert Pow2(4) == 16 && Pow2(8) == 256 && Pow2(16) == 65536;
  }

  /** The zoom a shared answer reports may be that of another request. */
  lemma ReportedZoomMayDiffer(e: Keys.Env, m: Mercator, rounded: real -> string, version: nat)
    requires rounded(16.0) == rounded(16.01)
    ensures exists r, q ::
      && Cached(r) && Cached(q) && r.zoom != q.zoom
      && Key(e, m, rounded, r, version) == Key(e, m, rounded, q, version)
  {
    BothCached();
    assert TileZoom(16.0) == TileZoom(16.01) == 18;
    SameBuckets(m, NEAR.View(), NEARER.View());
    assert CacheParams(m, rounded, NEARER) == CacheParams(m, rounded, NEAR);
    assert Key(e, m, rounded, NEAR, version) == Key(e, m, rounded, NEARER, version);
  }
}
