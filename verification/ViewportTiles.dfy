/** Map viewports and the tile range they are cached under, in exact arithmetic. */
module ViewportTiles {
  import opened Powers

  /** The latitude the projection is clamped to. */
  const LATITUDE_LIMIT: real := 85.05112878

  const MIN_TILE_ZOOM := 13
  const MAX_TILE_ZOOM := 19

  /** `int(x)`: truncation toward zero. */
  function Trunc(x: real): int { if x >= 0.0 then x.Floor else -((-x).Floor) }

  function Clamp(x: int, size: nat): int
    requires size > 0
  {
    if x < 0 then 0 else if x > size - 1 then size - 1 else x
  }

  /** The Mercator projection: `y` maps a latitude to the fraction of the map height from
      the north edge, `latitude` is its inverse on the map. */
  datatype Mercator = Mercator(y: real -> real, latitude: real -> real)

  ghost predicate Lawful(m: Mercator) {
    && (forall a, b :: -LATITUDE_LIMIT <= a < b <= LATITUDE_LIMIT ==> m.y(b) < m.y(a))
    && (forall f, h :: 0.0 <= f < h <= 1.0 ==> m.latitude(h) < m.latitude(f))
    && (forall f :: 0.0 <= f <= 1.0 ==> m.y(m.latitude(f)) == f)
    && -LATITUDE_LIMIT <= m.latitude(1.0) && m.latitude(0.0) <= LATITUDE_LIMIT
  }

  // ----- tiles -----

  /** The tile, of `size` in a row, that a fraction of the row falls into. */
  function Tile(fraction: real, size: nat): int
    requires size > 0
  {
    Clamp(Trunc(fraction * size as real), size)
  }

  function LongitudeFraction(longitude: real): real { (longitude + 180.0) / 360.0 }

  function LongitudeAt(fraction: real): real { fraction * 360.0 - 180.0 }

  function LongitudeToTileX(longitude: real, zoom: nat): int {
    Tile(LongitudeFraction(longitude), Pow2(zoom))
  }

  function Clamped(latitude: real): real {
    if latitude > LATITUDE_LIMIT then LATITUDE_LIMIT
    else if latitude < -LATITUDE_LIMIT then -LATITUDE_LIMIT else latitude
  }

  function LatitudeToTileY(m: Mercator, latitude: real, zoom: nat): int {
    Tile(m.y(Clamped(latitude)), Pow2(zoom))
  }

  function Edge(x: int, size: nat): real
    requires size > 0
  {
    x as real / size as real
  }

  function TileXToLongitude(x: int, zoom: nat): real {
    LongitudeAt(Edge(x, Pow2(zoom)))
  }

  function TileYToLatitude(m: Mercator, y: int, zoom: nat): real {
    m.latitude(Edge(y, Pow2(zoom)))
  }

  // ----- one row of tiles -----

  lemma ScaleUp(fraction: real, size: real)
    requires 0.0 <= fraction <= 1.0 && size > 0.0
    ensures 0.0 <= fraction * size <= size
  {
  }

  lemma ScaleDown(a: real, size: real)
    requires size > 0.0
    ensures a / size * size == a
  {
  }

  lemma BelowFraction(x: real, fraction: real, size: real)
    requires size > 0.0 && x <= fraction * size
    ensures x / size <= fraction
  {
    ScaleDown(x, size);
  }

  lemma AboveFraction(x: real, fraction: real, size: real)
    requires size > 0.0 && fraction * size <= x
    ensures fraction <= x / size
  {
    ScaleDown(x, size);
  }

  lemma IntegerTile(scaled: real, size: nat)
    requires size > 0 && 0.0 <= scaled <= size as real
    ensures
      var x := Clamp(Trunc(scaled), size);
      0 <= x < size && x as real <= scaled <= (x + 1) as real
  {
  }

  /** The tile of a fraction holds it; the far edge belongs to the last tile. */
  lemma TileHolds(fraction: real, size: nat)
    requires size > 0 && 0.0 <= fraction <= 1.0
    ensures
      var x := Tile(fraction, size);
      && 0 <= x < size
      && Edge(x, size) <= fraction <= Edge(x + 1, size)
  {
    ScaleUp(fraction, size as real);
    IntegerTile(fraction * size as real, size);
    var x := Tile(fraction, size);
    BelowFraction(x as real, fraction, size as real);
    AboveFraction((x + 1) as real, fraction, size as real);
  }

  lemma EdgeOnMap(x: int, size: nat)
    requires size > 0 && 0 <= x <= size
    ensures 0.0 <= Edge(x, size) <= 1.0
  {
  }

  lemma NextEdge(x: int, size: nat)
    requires size > 0
    ensures Edge(x + 1, size) == Edge(x, size) + 1.0 / size as real
  {
  }

  lemma MulMono(a: real, b: real, size: real)
    requires a <= b && size >= 0.0
    ensures a * size <= b * size
  {
  }

  lemma ClampMono(a: real, b: real, size: nat)
    requires a <= b && size > 0
    ensures Clamp(Trunc(a), size) <= Clamp(Trunc(b), size)
  {
  }

  lemma TileMono(a: real, b: real, size: nat)
    requires a <= b && size > 0
    ensures Tile(a, size) <= Tile(b, size)
  {
    MulMono(a, b, size as real);
    ClampMono(a * size as real, b * size as real, size);
  }

  lemma TileOfEdge(x: int, size: nat)
    requires 0 <= x < size
    ensures Tile(Edge(x, size), size) == x
  {
    ScaleDown(x as real, size as real);
  }

  // ----- accepted viewports -----

  datatype Viewport = Viewport(west: real, south: real, east: real, north: real, zoom: real,
                               hasArea: bool, hasCategory: bool)

  datatype Verdict =
    | Accepted | FieldOutOfRange | AreaWithoutCategory | WestNotBeforeEast | SouthNotBelowNorth | TooLarge

  function MaxSpan(zoom: real): real
    requires zoom >= 0.0
  {
    2880.0 / Pow2(Trunc(zoom)) as real
  }

  /** The field limits, then the checks of the validator in their order. */
  function Validate(v: Viewport): Verdict {
    if !(-180.0 <= v.west <= 180.0 && -90.0 <= v.south <= 90.0 && -180.0 <= v.east <= 180.0
         && -90.0 <= v.north <= 90.0 && 0.0 <= v.zoom <= 24.0) then FieldOutOfRange
    else if v.hasArea != v.hasCategory then AreaWithoutCategory
    else if v.west >= v.east then WestNotBeforeEast
    else if v.south >= v.north then SouthNotBelowNorth
    else if v.zoom >= 11.0 && (v.east - v.west > MaxSpan(v.zoom) || v.north - v.south > MaxSpan(v.zoom)) then TooLarge
    else Accepted
  }

  datatype Bucket = Bucket(tileZoom: nat, xMin: int, xMax: int, yMin: int, yMax: int,
                           west: real, east: real, north: real, south: real)

  function TileZoom(zoom: real): nat
    requires zoom >= 0.0
  {
    var wanted := zoom.Floor + 2;
    if wanted < MIN_TILE_ZOOM then MIN_TILE_ZOOM else if wanted > MAX_TILE_ZOOM then MAX_TILE_ZOOM else wanted
  }

  function TileBucket(m: Mercator, v: Viewport): Bucket
    requires v.zoom >= 0.0
  {
    var z := TileZoom(v.zoom);
    var xMin, xMax := LongitudeToTileX(v.west, z), LongitudeToTileX(v.east, z);
    var yMin, yMax := LatitudeToTileY(m, v.north, z), LatitudeToTileY(m, v.south, z);
    Bucket(z, xMin, xMax, yMin, yMax,
           TileXToLongitude(xMin, z), TileXToLongitude(xMax + 1, z),
           TileYToLatitude(m, yMin, z), TileYToLatitude(m, yMax + 1, z))
  }

  function TileWidth(zoom: nat): real {
    360.0 / Pow2(zoom) as real
  }

  // ----- longitudes and latitudes -----

  /** The tile of a longitude reaches from it to at most one tile width on either side. */
  lemma LongitudeTile(longitude: real, zoom: nat)
    requires -180.0 <= longitude <= 180.0
    ensures
      var x := LongitudeToTileX(longitude, zoom);
      && 0 <= x < Pow2(zoom)
      && TileXToLongitude(x, zoom) <= longitude <= TileXToLongitude(x + 1, zoom)
      && TileXToLongitude(x + 1, zoom) == TileXToLongitude(x, zoom) + TileWidth(zoom)
  {
    LongitudeInRow(longitude, Pow2(zoom));
  }

  lemma LongitudeInRow(longitude: real, size: nat)
    requires size > 0 && -180.0 <= longitude <= 180.0
    ensures
      var x := Tile(LongitudeFraction(longitude), size);
      && 0 <= x < size
      && LongitudeAt(Edge(x, size)) <= longitude <= LongitudeAt(Edge(x + 1, size))
      && LongitudeAt(Edge(x + 1, size)) == LongitudeAt(Edge(x, size)) + 360.0 / size as real
  {
    var x := Tile(LongitudeFraction(longitude), size);
    TileHolds(LongitudeFraction(longitude), size);
    NextEdge(x, size);
    assert 360.0 * (1.0 / size as real) == 360.0 / size as real;
  }

  /** From tile to longitude and back is the identity. */
  lemma TileRoundTrip(x: int, zoom: nat)
    requires 0 <= x < Pow2(zoom)
    ensures LongitudeToTileX(TileXToLongitude(x, zoom), zoom) == x
  {
    assert LongitudeFraction(TileXToLongitude(x, zoom)) == Edge(x, Pow2(zoom));
    TileOfEdge(x, Pow2(zoom));
  }

  /** A latitude on the map is inside the tile of its row. */
  lemma LatitudeTile(m: Mercator, latitude: real, zoom: nat)
    requires Lawful(m) && m.latitude(1.0) <= latitude <= m.latitude(0.0)
    ensures
      var y := LatitudeToTileY(m, latitude, zoom);
      && 0 <= y < Pow2(zoom)
      && TileYToLatitude(m, y + 1, zoom) <= latitude <= TileYToLatitude(m, y, zoom)
  {
    OnMap(m, latitude);
    LatitudeInRow(m, m.y(latitude), Pow2(zoom));
  }

  lemma LatitudeInRow(m: Mercator, fraction: real, size: nat)
    requires Lawful(m) && size > 0 && 0.0 <= fraction <= 1.0
    ensures
      var y := Tile(fraction, size);
      && 0 <= y < size
      && m.latitude(Edge(y + 1, size)) <= m.latitude(fraction) <= m.latitude(Edge(y, size))
  {
    var y := Tile(fraction, size);
    TileHolds(fraction, size);
    EdgeOnMap(y, size);
    EdgeOnMap(y + 1, size);
    Between(m, Edge(y, size), fraction, Edge(y + 1, size));
  }

  lemma Between(m: Mercator, low: real, f: real, high: real)
    requires Lawful(m) && 0.0 <= low <= f <= high <= 1.0
    ensures m.latitude(high) <= m.latitude(f) <= m.latitude(low)
  {
  }

  /** On the map the two projections undo each other. */
  lemma OnMap(m: Mercator, latitude: real)
    requires Lawful(m) && m.latitude(1.0) <= latitude <= m.latitude(0.0)
    ensures 0.0 <= m.y(latitude) <= 1.0 && m.latitude(m.y(latitude)) == latitude
    ensures Clamped(latitude) == latitude
  {
    assert m.y(m.latitude(0.0)) == 0.0 && m.y(m.latitude(1.0)) == 1.0;
    assert latitude < m.latitude(0.0) ==> m.y(m.latitude(0.0)) < m.y(latitude);
    assert m.latitude(1.0) < latitude ==> m.y(latitude) < m.y(m.latitude(1.0));
    var back := m.latitude(m.y(latitude));
    Between(m, 0.0, m.y(latitude), 1.0);
    assert m.y(back) == m.y(latitude);
    assert back < latitude ==> m.y(latitude) < m.y(back);
    assert latitude < back ==> m.y(back) < m.y(latitude);
  }

  lemma RowsOrdered(m: Mercator, south: real, north: real, zoom: nat)
    requires Lawful(m) && -90.0 <= south <= north <= 90.0
    ensures LatitudeToTileY(m, north, zoom) <= LatitudeToTileY(m, south, zoom)
  {
    assert Clamped(south) < Clamped(north) ==> m.y(Clamped(north)) < m.y(Clamped(south));
    TileMono(m.y(Clamped(north)), m.y(Clamped(south)), Pow2(zoom));
  }

  // ----- main results -----

  /** The tile indices of every accepted viewport are ordered and on the map. */
  lemma BucketOrdered(m: Mercator, v: Viewport)
    requires Lawful(m) && Validate(v).Accepted?
    ensures
      var b := TileBucket(m, v);
      && 0 <= b.xMin <= b.xMax < Pow2(b.tileZoom)
      && 0 <= b.yMin <= b.yMax < Pow2(b.tileZoom)
      && 13 <= b.tileZoom <= 19
  {
    var z := TileZoom(v.zoom);
    LongitudeTile(v.west, z);
    LongitudeTile(v.east, z);
    TileMono(LongitudeFraction(v.west), LongitudeFraction(v.east), Pow2(z));
    RowsOrdered(m, v.south, v.north, z);
  }

  /** The bucket contains every accepted viewport within the Mercator latitudes and overshoots
      each longitude side by at most one tile width, each latitude side by less than one row. */
  lemma BucketContains(m: Mercator, v: Viewport)
    requires Lawful(m) && Validate(v).Accepted?
    requires m.latitude(1.0) <= v.south && v.north <= m.latitude(0.0)
    ensures
      var b := TileBucket(m, v);
      && b.west <= v.west && v.east <= b.east
      && b.south <= v.south && v.north <= b.north
      && v.west - b.west <= TileWidth(b.tileZoom)
      && b.east - v.east <= TileWidth(b.tileZoom)
      && TileYToLatitude(m, b.yMin + 1, b.tileZoom) <= v.north
      && v.south <= TileYToLatitude(m, b.yMax, b.tileZoom)
  {
    var z := TileZoom(v.zoom);
    LongitudeTile(v.west, z);
    LongitudeTile(v.east, z);
    LatitudeTile(m, v.north, z);
    LatitudeTile(m, v.south, z);
  }

  /** Two levels finer than the display zoom, between 13 and 19. */
  lemma TileZoomIs(zoom: real)
    requires zoom >= 0.0
    ensures zoom < 12.0 ==> TileZoom(zoom) == 13
    ensures 12.0 <= zoom < 17.0 ==> (TileZoom(zoom) - 2) as real <= zoom < (TileZoom(zoom) - 1) as real
    ensures 17.0 <= zoom ==> TileZoom(zoom) == 19
  {
  }

  /** Latitudes off the map fall into the row of its edge. */
  lemma OffTheMap(m: Mercator, latitude: real, zoom: nat)
    ensures latitude > 85.05112878 ==> LatitudeToTileY(m, latitude, zoom) == LatitudeToTileY(m, 85.05112878, zoom)
    ensures latitude < -85.05112878 ==> LatitudeToTileY(m, latitude, zoom) == LatitudeToTileY(m, -85.05112878, zoom)
  {
  }

  /** Accepted: on the globe, west before east and south below north, area and category both or
      neither, and from zoom 11 on no side longer than 2880 degrees halved once a zoom level. */
  lemma AcceptedIff(v: Viewport)
    ensures Validate(v).Accepted? <==>
      && -180.0 <= v.west < v.east <= 180.0 && -90.0 <= v.south < v.north <= 90.0 && 0.0 <= v.zoom <= 24.0
      && (v.hasArea <==> v.hasCategory)
      && (v.zoom >= 11.0 ==>
            var span := 2880.0 / Pow2(v.zoom.Floor) as real;
            v.east - v.west <= span && v.north - v.south <= span)
  {
  }

  /** A field out of range is complained about first, then a category without area, then the order
      of the sides, and the size last. */
  lemma FirstComplaint(v: Viewport)
    ensures
      var ranges := -180.0 <= v.west <= 180.0 && -180.0 <= v.east <= 180.0
                    && -90.0 <= v.south <= 90.0 && -90.0 <= v.north <= 90.0 && 0.0 <= v.zoom <= 24.0;
      var pair := v.hasArea <==> v.hasCategory;
      && (Validate(v).FieldOutOfRange? <==> !ranges)
      && (Validate(v).AreaWithoutCategory? <==> ranges && !pair)
      && (Validate(v).WestNotBeforeEast? <==> ranges && pair && v.east <= v.west)
      && (Validate(v).SouthNotBelowNorth? <==> ranges && pair && v.west < v.east && v.north <= v.south)
  {
  }

  /** Every accepted viewport at zoom 11 or more covers at most 33 tile columns. */
  lemma AtMost33Columns(m: Mercator, v: Viewport)
    requires Validate(v).Accepted? && v.zoom >= 11.0
    ensures TileBucket(m, v).xMax - TileBucket(m, v).xMin + 1 <= 33
  {
    var z := TileZoom(v.zoom);
    SizeRatio(v.zoom.Floor, z);
    Columns(v.west, v.east, Pow2(v.zoom.Floor), Pow2(z));
  }

  lemma Columns(west: real, east: real, n: nat, size: nat)
    requires 0 < size <= 4 * n && -180.0 <= west <= east && east - west <= 2880.0 / n as real
    ensures Tile(LongitudeFraction(east), size) <= Tile(LongitudeFraction(west), size) + 32
  {
    Within32(west, east, n as real, size as real);
    TileSpan(LongitudeFraction(west), LongitudeFraction(east), size);
  }

  lemma TileSpan(a: real, b: real, size: nat)
    requires size > 0 && 0.0 <= a && b * size as real <= a * size as real + 32.0
    ensures Tile(b, size) <= Tile(a, size) + 32
  {
    NonNegative(a, size as real);
    ColumnSpan(a * size as real, b * size as real, size);
  }

  lemma NonNegative(a: real, size: real)
    requires a >= 0.0 && size >= 0.0
    ensures a * size >= 0.0
  {
  }

  /** The largest span at zoom n, seen at most two zoom levels deeper, is at most 32 tiles. */
  lemma Within32(west: real, east: real, n: real, z: real)
    requires n > 0.0 && 0.0 < z <= 4.0 * n && west <= east && east - west <= 2880.0 / n
    ensures LongitudeFraction(east) * z <= LongitudeFraction(west) * z + 32.0
  {
    var span := (east - west) / 360.0;
    assert LongitudeFraction(east) == LongitudeFraction(west) + span;
    SpanInTiles(span, n, z);
    Distribute(LongitudeFraction(west), span, z);
  }

  lemma Distribute(a: real, b: real, z: real)
    ensures (a + b) * z == a * z + b * z
  {
  }

  lemma SizeRatio(n: nat, z: nat)
    requires z <= n + 2
    ensures Pow2(z) <= 4 * Pow2(n)
    decreases n + 2 - z
  {
    if z == n + 2 {
      assert Pow2(z) == 2 * Pow2(n + 1);
    } else {
      SizeRatio(n, z + 1);
    }
  }

  lemma SpanInTiles(fraction: real, n: real, z: real)
    requires n > 0.0 && 0.0 < z <= 4.0 * n && fraction <= 8.0 / n
    ensures fraction * z <= 32.0
  {
    var eighth := 8.0 / n;
    assert eighth * n == 8.0;
    MulMono(fraction, eighth, z);
    MulMono(z, 4.0 * n, eighth);
  }

  lemma ColumnSpan(a: real, b: real, size: nat)
    requires 0.0 <= a && b <= a + 32.0 && size > 0
    ensures Clamp(Trunc(b), size) <= Clamp(Trunc(a), size) + 32
  {
  }

  /** The bound is reached: a viewport of the largest width at zoom 11 covers 33 columns. */
  lemma ThirtyThreeReached(m: Mercator)
    ensures exists v ::
      Validate(v).Accepted? && v.zoom >= 11.0 && TileBucket(m, v).xMax - TileBucket(m, v).xMin + 1 == 33
  {
    assert Pow2(4) == 16;
    assert Pow2(8) == 256;
    assert Pow2(11) == 2048;
    assert Pow2(13) == 8192;
    var v := Viewport(0.02, 0.0, 0.02 + 1.40625, 1.0, 11.0, false, false);
    assert Validate(v).Accepted?;
    assert TileZoom(11.0) == 13;
    assert Tile(LongitudeFraction(v.west), 8192) == 4096;
    assert Tile(LongitudeFraction(v.east), 8192) == 4128;
    assert TileBucket(m, v).xMax - TileBucket(m, v).xMin + 1 == 33;
  }
}
