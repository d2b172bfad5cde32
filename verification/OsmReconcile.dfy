/** Publishing the staged OpenStreetMap rows: upsert, delete, refresh of linked sources. */
module OsmReconcile {
  import opened Options

  type Geometry = string
  type Tags = map<string, string>
  type Time = real

  /** The spatial predicates of the database. */
  datatype Gis = Gis(
    dimension: Geometry -> int,
    intersects: (Geometry, Geometry) -> bool,
    boxesMeet: (Geometry, Geometry) -> bool)

  /** Geometries that intersect have bounding boxes that meet. */
  ghost predicate Lawful(g: Gis) {
    forall a, b :: g.intersects(a, b) ==> g.boxesMeet(a, b)
  }

  datatype StageKey = StageKey(osmType: string, osmId: int)
  datatype FeatureKey = FeatureKey(osmType: string, osmId: int)
  datatype Row = Row(geometry: Geometry, tags: Tags)
  datatype Feature = Feature(row: Row, importedAt: Time)
  datatype Source = Source(key: FeatureKey, snapshot: Row, updatedAt: Option<Time>)
  datatype Counts = Counts(inserted: nat, updated: nat, deleted: nat)
  datatype SyncState = SyncState(sequence: Option<int>, timestamp: Time, counts: Counts)

  type Stage = map<StageKey, Row>
  type Table = map<FeatureKey, Feature>

  // ----- selecting stage rows -----

  predicate IsRegion(k: StageKey, r: Row) {
    && k.osmType == "R"
    && "boundary" in r.tags && r.tags["boundary"] == "administrative"
    && "ISO3166-2" in r.tags && r.tags["ISO3166-2"] == "DE-SH"
  }

  /** The geometries `LIMIT 1` may return. */
  function Regions(stage: Stage): set<Geometry> {
    set k | k in stage && IsRegion(k, stage[k]) :: stage[k].geometry
  }

  /** The rows the upsert inserts. */
  function Selected(g: Gis, stage: Stage, region: Geometry): set<StageKey> {
    set k | k in stage && g.dimension(stage[k].geometry) in {0, 2} && g.intersects(stage[k].geometry, region)
  }

  /** The rows that keep a feature from being deleted: the same test with a bounding-box
      filter in front. */
  function Keeping(g: Gis, stage: Stage, region: Geometry): set<StageKey> {
    set k | k in stage && g.dimension(stage[k].geometry) in {0, 2}
            && g.boxesMeet(stage[k].geometry, region) && g.intersects(stage[k].geometry, region)
  }

  function NameOf(k: StageKey): FeatureKey {
    FeatureKey(if k.osmType == "N" then "node" else if k.osmType == "W" then "way" else "relation", k.osmId)
  }

  /** The stage key a feature is looked up under, if its type is one of the three. */
  function StageKeyOf(f: FeatureKey): Option<StageKey> {
    if f.osmType == "node" then Some(StageKey("N", f.osmId))
    else if f.osmType == "way" then Some(StageKey("W", f.osmId))
    else if f.osmType == "relation" then Some(StageKey("R", f.osmId))
    else None
  }

  function Names(rows: set<StageKey>): set<FeatureKey> { set k | k in rows :: NameOf(k) }

  /** No two rows of one insert have the same key: otherwise the statement is an error. */
  predicate OneRowPerName(rows: set<StageKey>) {
    forall k, l | k in rows && l in rows :: NameOf(k) == NameOf(l) ==> k == l
  }

  function RowFor(stage: Stage, rows: set<StageKey>, f: FeatureKey): Row
    requires f in Names(rows) && OneRowPerName(rows) && rows <= stage.Keys
  {
    var k :| k in rows && NameOf(k) == f;
    stage[k]
  }

  // ----- the statements -----

  /** INSERT ... ON CONFLICT DO UPDATE WHERE something differs. */
  function Upserted(stage: Stage, rows: set<StageKey>, t: Table, now: Time): Table
    requires OneRowPerName(rows) && rows <= stage.Keys
  {
    map f | f in t.Keys + Names(rows) ::
      if f !in Names(rows) then t[f]
      else if f in t && t[f].row == RowFor(stage, rows, f) then t[f]
      else Feature(RowFor(stage, rows, f), now)
  }

  function Inserted(rows: set<StageKey>, t: Table): set<FeatureKey> { Names(rows) - t.Keys }

  function Updated(stage: Stage, rows: set<StageKey>, t: Table): set<FeatureKey>
    requires OneRowPerName(rows) && rows <= stage.Keys
  {
    set f | f in Names(rows) && f in t && t[f].row != RowFor(stage, rows, f)
  }

  predicate IsKept(keeping: set<StageKey>, f: FeatureKey) {
    StageKeyOf(f).Some? && StageKeyOf(f).value in keeping
  }

  function Deleted(keeping: set<StageKey>, t: Table): set<FeatureKey> {
    set f | f in t && !IsKept(keeping, f)
  }

  function Refreshed(s: Source, t: Table): Source {
    if s.key in t && s.snapshot != t[s.key].row
    then Source(s.key, t[s.key].row, Some(t[s.key].importedAt))
    else s
  }

  function RefreshedAll(sources: map<int, Source>, t: Table): map<int, Source> {
    map i | i in sources :: Refreshed(sources[i], t)
  }

  // ----- the rows the table is meant to hold -----

  predicate KnownType(k: StageKey) { k.osmType in {"N", "W", "R"} }

  predicate KnownTypes(rows: set<StageKey>) { forall k | k in rows :: KnownType(k) }

  /** The table holds exactly the given stage rows. */
  ghost predicate Publishes(stage: Stage, rows: set<StageKey>, t: Table)
    requires rows <= stage.Keys
  {
    && t.Keys == Names(rows)
    && (forall k | k in rows :: t[NameOf(k)].row == stage[k])
  }

  /** Upsert and delete.  Each statement finds its boundary for itself: `up` and `down` are what
      `LIMIT 1` returns to them, the same geometry when there is one boundary relation. */
  function Reconciled(g: Gis, stage: Stage, up: Geometry, down: Geometry, t: Table, now: Time): Table
    requires OneRowPerName(Selected(g, stage, up))
  {
    var upserted := Upserted(stage, Selected(g, stage, up), t, now);
    upserted - Deleted(Keeping(g, stage, down), upserted)
  }

  function CountsOf(g: Gis, stage: Stage, up: Geometry, down: Geometry, t: Table, now: Time): Counts
    requires OneRowPerName(Selected(g, stage, up))
  {
    var rows := Selected(g, stage, up);
    Counts(|Inserted(rows, t)|, |Updated(stage, rows, t)|,
           |Deleted(Keeping(g, stage, down), Upserted(stage, rows, t, now))|)
  }

  // ----- what the statements do to each feature -----

  /** The feature is there with the row: as it was, or written now. */
  predicate HasRow(after: Table, f: FeatureKey, row: Row, before: Table, now: Time) {
    f in after && after[f] == if f in before && before[f].row == row then before[f] else Feature(row, now)
  }

  /** The rows are there, an equal one untouched down to its import time; other features stay
      as they were, and nothing else appears. */
  predicate UpsertEffect(stage: Stage, rows: set<StageKey>, before: Table, after: Table, now: Time)
    requires rows <= stage.Keys
  {
    && (forall f | f in after :: f in before || f in Names(rows))
    && (forall f | f in before :: f in after && (f !in Names(rows) ==> after[f] == before[f]))
    && (forall k | k in rows :: HasRow(after, NameOf(k), stage[k], before, now))
  }

  /** The features with a kept stage row stay as they were and the others go. */
  predicate DeleteEffect(keeping: set<StageKey>, before: Table, after: Table) {
    && (forall f | f in after :: f in before && IsKept(keeping, f) && after[f] == before[f])
    && (forall f | f in before && IsKept(keeping, f) :: f in after)
  }

  /** The features that are there before and after and differ. */
  function Changed(before: Table, after: Table): set<FeatureKey> {
    set f | f in before && f in after && before[f] != after[f]
  }

  lemma UpsertHasEffect(stage: Stage, rows: set<StageKey>, t: Table, now: Time)
    requires OneRowPerName(rows) && rows <= stage.Keys
    ensures UpsertEffect(stage, rows, t, Upserted(stage, rows, t, now), now)
  {
    forall k | k in rows ensures HasRow(Upserted(stage, rows, t, now), NameOf(k), stage[k], t, now) {
      RowForIs(stage, rows, k);
    }
  }

  /** The effect determines the table. */
  lemma UpsertEffectIff(stage: Stage, rows: set<StageKey>, before: Table, after: Table, now: Time)
    requires OneRowPerName(rows) && rows <= stage.Keys
    ensures UpsertEffect(stage, rows, before, after, now) <==> after == Upserted(stage, rows, before, now)
  {
    var up := Upserted(stage, rows, before, now);
    UpsertHasEffect(stage, rows, before, now);
    if UpsertEffect(stage, rows, before, after, now) {
      forall f | f in Names(rows) ensures f in after && f in up && after[f] == up[f] {
        var k :| k in rows && NameOf(k) == f;
        assert HasRow(after, NameOf(k), stage[k], before, now) && HasRow(up, NameOf(k), stage[k], before, now);
      }
      assert after.Keys == up.Keys;
    }
  }

  lemma DeleteEffectIff(keeping: set<StageKey>, before: Table, after: Table)
    ensures DeleteEffect(keeping, before, after) <==> after == before - Deleted(keeping, before)
  {
    if DeleteEffect(keeping, before, after) {
      assert after.Keys == (before - Deleted(keeping, before)).Keys;
    }
  }

  /** The rows counted as inserted and updated are those that appear and those that change. */
  lemma UpsertCounts(stage: Stage, rows: set<StageKey>, t: Table, now: Time)
    requires OneRowPerName(rows) && rows <= stage.Keys
    ensures Inserted(rows, t) == Upserted(stage, rows, t, now).Keys - t.Keys
    ensures Updated(stage, rows, t) == Changed(t, Upserted(stage, rows, t, now))
  {
  }

  /** Rows of known type never collide: the key of one is the key of no other. */
  lemma KnownTypesOneRow(rows: set<StageKey>)
    requires KnownTypes(rows)
    ensures OneRowPerName(rows)
  {
    assert forall k | k in rows :: KnownType(k) && StageKeyOf(NameOf(k)) == Some(k);
  }

  lemma RowForIs(stage: Stage, rows: set<StageKey>, k: StageKey)
    requires k in rows && OneRowPerName(rows) && rows <= stage.Keys
    ensures NameOf(k) in Names(rows) && RowFor(stage, rows, NameOf(k)) == stage[k]
  {
  }

  lemma SelectedIsKeeping(g: Gis, stage: Stage, region: Geometry)
    requires Lawful(g)
    ensures Selected(g, stage, region) == Keeping(g, stage, region)
  {
  }

  /** The delete keeps the selected rows of known type: a row of another type is looked up
      as a relation and not found. */
  lemma KeptIff(rows: set<StageKey>, k: StageKey)
    requires OneRowPerName(rows) && k in rows
    ensures IsKept(rows, NameOf(k)) <==> KnownType(k)
  {
    if !KnownType(k) {
      assert NameOf(StageKey("R", k.osmId)) == NameOf(k);
    }
  }

  lemma KeptIsNamed(rows: set<StageKey>, f: FeatureKey)
    requires IsKept(rows, f)
    ensures f in Names(rows)
  {
    assert NameOf(StageKeyOf(f).value) == f;
  }

  /** What the job does to each feature, whichever boundaries its statements find: it stays or
      appears exactly if the delete keeps it, with its row if the upsert selected one. */
  lemma FeatureEffect(g: Gis, stage: Stage, up: Geometry, down: Geometry, t: Table, now: Time)
    requires OneRowPerName(Selected(g, stage, up))
    ensures
      var rows, after := Selected(g, stage, up), Reconciled(g, stage, up, down, t, now);
      && (forall f :: f in after <==> (f in t || f in Names(rows)) && IsKept(Keeping(g, stage, down), f))
      && (forall f | f in after && f !in Names(rows) :: after[f] == t[f])
      && (forall k | k in rows && NameOf(k) in after :: HasRow(after, NameOf(k), stage[k], t, now))
  {
    var rows, after := Selected(g, stage, up), Reconciled(g, stage, up, down, t, now);
    UpsertHasEffect(stage, rows, t, now);
    assert forall k | k in rows :: HasRow(Upserted(stage, rows, t, now), NameOf(k), stage[k], t, now);
  }

  /** With one boundary: a selected row of known type is there and nothing else is. */
  lemma SelectedEffect(g: Gis, stage: Stage, region: Geometry, t: Table, now: Time)
    requires Lawful(g) && OneRowPerName(Selected(g, stage, region))
    ensures
      var rows, after := Selected(g, stage, region), Reconciled(g, stage, region, region, t, now);
      && (forall f | f in after :: f in Names(rows))
      && (forall k | k in rows :: NameOf(k) in after <==> KnownType(k))
      && (forall k | k in rows && KnownType(k) :: HasRow(after, NameOf(k), stage[k], t, now))
  {
    var rows, after := Selected(g, stage, region), Reconciled(g, stage, region, region, t, now);
    SelectedIsKeeping(g, stage, region);
    FeatureEffect(g, stage, region, region, t, now);
    forall f | f in after ensures f in Names(rows) {
      KeptIsNamed(rows, f);
    }
    forall k | k in rows ensures NameOf(k) in after <==> KnownType(k) {
      KeptIff(rows, k);
    }
  }

  /** After upsert and delete the table equals the selected stage rows exactly when every
      selected row is a node, way or relation; other rows are inserted as relations and
      deleted again. */
  lemma PublishesIff(g: Gis, stage: Stage, region: Geometry, t: Table, now: Time)
    requires Lawful(g) && OneRowPerName(Selected(g, stage, region))
    ensures
      var rows := Selected(g, stage, region);
      Publishes(stage, rows, Reconciled(g, stage, region, region, t, now)) <==> KnownTypes(rows)
  {
    var rows, after := Selected(g, stage, region), Reconciled(g, stage, region, region, t, now);
    SelectedEffect(g, stage, region, t, now);
    if KnownTypes(rows) {
      assert forall k | k in rows :: KnownType(k);
      assert after.Keys == Names(rows);
    } else {
      var k :| k in rows && !KnownType(k);
      assert NameOf(k) in Names(rows);
    }
  }

  lemma SizeOfUnion(a: set<FeatureKey>, b: set<FeatureKey>)
    requires a !! b
    ensures |a + b| == |a| + |b|
  {
  }

  lemma UpsertedKeys(stage: Stage, rows: set<StageKey>, t: Table, now: Time)
    requires OneRowPerName(rows) && rows <= stage.Keys
    ensures Upserted(stage, rows, t, now).Keys == t.Keys + Names(rows)
  {
  }

  lemma SizeAfterUpsert(stage: Stage, rows: set<StageKey>, t: Table, now: Time)
    requires OneRowPerName(rows) && rows <= stage.Keys
    ensures |Upserted(stage, rows, t, now)| == |t| + |Inserted(rows, t)|
  {
    UpsertedKeys(stage, rows, t, now);
    UnionOfNew(t.Keys, Names(rows));
    SizeOfUnion(t.Keys, Names(rows) - t.Keys);
    SizeOfTable(t);
    SizeOfTable(Upserted(stage, rows, t, now));
  }

  lemma UnionOfNew(a: set<FeatureKey>, b: set<FeatureKey>)
    ensures a + b == a + (b - a)
  {
  }

  lemma SizeOfTable(t: Table)
    ensures |t| == |t.Keys|
  {
  }

  lemma SizeAfterRemoval(t: Table, gone: set<FeatureKey>)
    requires gone <= t.Keys
    ensures |t - gone| == |t| - |gone|
  {
    assert (t - gone).Keys == t.Keys - gone;
    assert |t.Keys - gone| == |t.Keys| - |gone|;
  }

  /** Conservation: size after = size before + inserted - deleted. */
  lemma SizeAfter(g: Gis, stage: Stage, up: Geometry, down: Geometry, t: Table, now: Time)
    requires OneRowPerName(Selected(g, stage, up))
    ensures
      var c := CountsOf(g, stage, up, down, t, now);
      |Reconciled(g, stage, up, down, t, now)| == |t| + c.inserted - c.deleted
  {
    var rows := Selected(g, stage, up);
    var upserted := Upserted(stage, rows, t, now);
    SizeAfterUpsert(stage, rows, t, now);
    SizeAfterRemoval(upserted, Deleted(Keeping(g, stage, down), upserted));
  }

  /** A table of kept features that have their rows is left alone by both statements. */
  lemma KeptStays(stage: Stage, rows: set<StageKey>, t: Table, later: Time)
    requires OneRowPerName(rows) && rows <= stage.Keys
    requires forall f | f in t :: IsKept(rows, f) && f in Names(rows) && t[f].row == RowFor(stage, rows, f)
    requires forall f | IsKept(rows, f) :: f in t
    ensures
      var up := Upserted(stage, rows, t, later);
      up - Deleted(rows, up) == t
  {
    var up := Upserted(stage, rows, t, later);
    assert DeleteEffect(rows, up, t);
    DeleteEffectIff(rows, up, t);
  }

  lemma ReconciledIsKept(g: Gis, stage: Stage, region: Geometry, t: Table, now: Time)
    requires Lawful(g) && OneRowPerName(Selected(g, stage, region))
    ensures
      var rows, after := Selected(g, stage, region), Reconciled(g, stage, region, region, t, now);
      && (forall f | f in after :: IsKept(rows, f) && f in Names(rows) && after[f].row == RowFor(stage, rows, f))
      && (forall f | IsKept(rows, f) :: f in after)
  {
    var rows := Selected(g, stage, region);
    SelectedIsKeeping(g, stage, region);
    forall f | IsKept(rows, f) ensures f in Names(rows) {
      KeptIsNamed(rows, f);
    }
  }

  /** A second run on the same stage changes nothing, import times included, and reports
      0/0/0 exactly when every selected row is a node, way or relation. */
  lemma SecondRunIsNoop(g: Gis, stage: Stage, region: Geometry, t: Table, now: Time, later: Time)
    requires Lawful(g) && OneRowPerName(Selected(g, stage, region))
    ensures
      var after := Reconciled(g, stage, region, region, t, now);
      && Reconciled(g, stage, region, region, after, later) == after
      && (CountsOf(g, stage, region, region, after, later) == Counts(0, 0, 0)
          <==> KnownTypes(Selected(g, stage, region)))
  {
    var rows, after := Selected(g, stage, region), Reconciled(g, stage, region, region, t, now);
    SelectedIsKeeping(g, stage, region);
    SelectedEffect(g, stage, region, t, now);
    ReconciledIsKept(g, stage, region, t, now);
    KeptStays(stage, rows, after, later);
    var up := Upserted(stage, rows, after, later);
    if KnownTypes(rows) {
      assert Inserted(rows, after) == {} && Updated(stage, rows, after) == {} && Deleted(rows, up) == {};
    } else {
      var k :| k in rows && !KnownType(k);
      assert NameOf(k) in Inserted(rows, after);
    }
  }

  /** What the importer writes: only nodes, ways and relations, so no two rows collide.  Then the
      table is the selected rows, and a second run reports nothing and changes nothing. */
  lemma KnownTypesPublish(g: Gis, stage: Stage, region: Geometry, t: Table, now: Time, later: Time)
    requires Lawful(g) && KnownTypes(Selected(g, stage, region))
    ensures OneRowPerName(Selected(g, stage, region))
    ensures
      var after := Reconciled(g, stage, region, region, t, now);
      && Publishes(stage, Selected(g, stage, region), after)
      && Reconciled(g, stage, region, region, after, later) == after
      && CountsOf(g, stage, region, region, after, later) == Counts(0, 0, 0)
  {
    KnownTypesOneRow(Selected(g, stage, region));
    PublishesIff(g, stage, region, t, now);
    SecondRunIsNoop(g, stage, region, t, now, later);
  }

  /** A stage row inside the region: a point or an area that intersects it. */
  predicate Staged(g: Gis, stage: Stage, region: Geometry, k: StageKey) {
    && k in stage && (g.dimension(stage[k].geometry) == 0 || g.dimension(stage[k].geometry) == 2)
    && g.intersects(stage[k].geometry, region)
  }

  /** The feature of stage row `k` is `f`: there exactly if the row is inside the region, with its
      import time if its row is the same as before. */
  predicate Mirrors(g: Gis, stage: Stage, region: Geometry, k: StageKey, f: FeatureKey,
                    before: Table, after: Table, now: Time) {
    && (f in after <==> Staged(g, stage, region, k))
    && (f in after ==> after[f] == if f in before && before[f].row == stage[k] then before[f]
                                   else Feature(stage[k], now))
  }

  /** What the job publishes, type by type: N as node, W as way, R as relation. */
  lemma PublishedAre(g: Gis, stage: Stage, region: Geometry, t: Table, now: Time, id: int)
    requires Lawful(g) && OneRowPerName(Selected(g, stage, region))
    ensures
      var after := Reconciled(g, stage, region, region, t, now);
      && Mirrors(g, stage, region, StageKey("N", id), FeatureKey("node", id), t, after, now)
      && Mirrors(g, stage, region, StageKey("W", id), FeatureKey("way", id), t, after, now)
      && Mirrors(g, stage, region, StageKey("R", id), FeatureKey("relation", id), t, after, now)
  {
    MirroredIs(g, stage, region, StageKey("N", id), t, now);
    MirroredIs(g, stage, region, StageKey("W", id), t, now);
    MirroredIs(g, stage, region, StageKey("R", id), t, now);
  }

  lemma MirroredIs(g: Gis, stage: Stage, region: Geometry, k: StageKey, t: Table, now: Time)
    requires Lawful(g) && OneRowPerName(Selected(g, stage, region)) && KnownType(k)
    ensures Mirrors(g, stage, region, k, NameOf(k), t, Reconciled(g, stage, region, region, t, now), now)
  {
    var rows := Selected(g, stage, region);
    SelectedIsKeeping(g, stage, region);
    SelectedEffect(g, stage, region, t, now);
    FeatureEffect(g, stage, region, region, t, now);
    assert StageKeyOf(NameOf(k)) == Some(k);
    assert k in rows <==> Staged(g, stage, region, k);
  }

  /** Nothing else is published, whichever boundaries the statements find. */
  lemma NoOtherTypes(g: Gis, stage: Stage, up: Geometry, down: Geometry, t: Table, now: Time)
    requires OneRowPerName(Selected(g, stage, up))
    ensures forall f | f in Reconciled(g, stage, up, down, t, now) :: f.osmType in {"node", "way", "relation"}
  {
    FeatureEffect(g, stage, up, down, t, now);
  }

  /** The boundary: a relation tagged as the administrative boundary of Schleswig-Holstein. */
  lemma RegionsAre(stage: Stage, region: Geometry)
    ensures region in Regions(stage) <==>
      exists id ::
        var k := StageKey("R", id);
        && k in stage && stage[k].geometry == region
        && "boundary" in stage[k].tags && stage[k].tags["boundary"] == "administrative"
        && "ISO3166-2" in stage[k].tags && stage[k].tags["ISO3166-2"] == "DE-SH"
  {
    if region in Regions(stage) {
      var k :| k in stage && IsRegion(k, stage[k]) && stage[k].geometry == region;
      assert k == StageKey("R", k.osmId);
    }
  }

  /** The refresh makes every source with a surviving feature equal to it, at the feature's
      import time, leaves the others alone, and does nothing the second time. */
  lemma RefreshAgrees(sources: map<int, Source>, t: Table)
    ensures
      var after := RefreshedAll(sources, t);
      && after.Keys == sources.Keys
      && (forall i | i in after ::
            && after[i].key == sources[i].key
            && (if after[i].key in t then after[i].snapshot == t[after[i].key].row else after[i] == sources[i])
            && (after[i].snapshot == sources[i].snapshot ==> after[i] == sources[i])
            && (after[i].snapshot != sources[i].snapshot ==>
                  after[i].updatedAt == Some(t[after[i].key].importedAt)))
      && RefreshedAll(after, t) == after
  {
    var after := RefreshedAll(sources, t);
    forall i | i in after ensures Refreshed(after[i], t) == after[i] {
      assert after[i] == Refreshed(sources[i], t);
    }
    assert RefreshedAll(after, t) == after;
  }

  // ----- the job -----

  class OsmDatabase {
    var features: Table
    var sources: map<int, Source>
    var state: Option<SyncState>

    constructor (features: Table, sources: map<int, Source>)
      ensures this.features == features && this.sources == sources && state == None
    {
      this.features, this.sources, state := features, sources, None;
    }

    /** Every selected row is there, equal ones untouched; the counts are of the features that
        appear and of those that change. */
    method Upsert(g: Gis, stage: Stage, region: Geometry, now: Time) returns (inserted: nat, updated: nat)
      requires OneRowPerName(Selected(g, stage, region))
      modifies this`features
      ensures UpsertEffect(stage, Selected(g, stage, region), old(features), features, now)
      ensures inserted == |features.Keys - old(features).Keys|
      ensures updated == |Changed(old(features), features)|
    {
      var rows := Selected(g, stage, region);
      inserted, updated := |Inserted(rows, features)|, |Updated(stage, rows, features)|;
      UpsertHasEffect(stage, rows, features, now);
      UpsertCounts(stage, rows, features, now);
      features := Upserted(stage, rows, features, now);
    }

    /** Exactly the features with a kept stage row stay, as they were; the count is of the rest. */
    method DeleteMissing(g: Gis, stage: Stage, region: Geometry) returns (deleted: nat)
      modifies this`features
      ensures DeleteEffect(Keeping(g, stage, region), old(features), features)
      ensures |features| + deleted == |old(features)|
    {
      var gone := Deleted(Keeping(g, stage, region), features);
      deleted := |gone|;
      SizeAfterRemoval(features, gone);
      features := features - gone;
    }

    method RefreshSources() returns (refreshed: nat)
      modifies this`sources
      ensures sources == RefreshedAll(old(sources), features)
      ensures refreshed == |set i | i in old(sources) && sources[i] != old(sources)[i]|
    {
      var changed :=
        set i | i in sources && sources[i].key in features && sources[i].snapshot != features[sources[i].key].row;
      refreshed := |changed|;
      sources := RefreshedAll(sources, features);
      assert forall i | i in sources :: sources[i] == Refreshed(old(sources)[i], features);
      assert changed == set i | i in old(sources) && sources[i] != old(sources)[i];
    }

    /** Upsert, then delete. */
    method Reconcile(g: Gis, stage: Stage, up: Geometry, down: Geometry, now: Time) returns (counts: Counts)
      requires OneRowPerName(Selected(g, stage, up))
      modifies this`features
      ensures features == Reconciled(g, stage, up, down, old(features), now)
      ensures counts == CountsOf(g, stage, up, down, old(features), now)
      ensures |features| == |old(features)| + counts.inserted - counts.deleted
    {
      ghost var rows, before := Selected(g, stage, up), features;
      var inserted, updated := Upsert(g, stage, up, now);
      UpsertEffectIff(stage, rows, before, features, now);
      UpsertCounts(stage, rows, before, now);
      ghost var upserted := features;
      var deleted := DeleteMissing(g, stage, down);
      DeleteEffectIff(Keeping(g, stage, down), upserted, features);
      SizeAfterRemoval(upserted, Deleted(Keeping(g, stage, down), upserted));
      SizeAfter(g, stage, up, down, before, now);
      counts := Counts(inserted, updated, deleted);
    }

    /** The job: without a boundary it stops and changes nothing.  Otherwise it reconciles with the
        boundaries its statements find, the sources follow, and the counts are recorded; with one
        boundary the table is the selected rows exactly when all are of known type. */
    method Run(g: Gis, stage: Stage, up: Geometry, down: Geometry,
               sequence: Option<int>, timestamp: Time, now: Time)
      returns (ok: bool)
      requires Lawful(g)
      requires Regions(stage) != {} ==>
        up in Regions(stage) && down in Regions(stage) && OneRowPerName(Selected(g, stage, up))
      modifies this
      ensures ok <==> Regions(stage) != {}
      ensures !ok ==> features == old(features) && sources == old(sources) && state == old(state)
      ensures ok ==>
        && features == Reconciled(g, stage, up, down, old(features), now)
        && sources == RefreshedAll(old(sources), features)
        && state == Some(SyncState(sequence, timestamp, CountsOf(g, stage, up, down, old(features), now)))
        && |features| == |old(features)| + state.value.counts.inserted - state.value.counts.deleted
      ensures ok && up == down ==>
        (Publishes(stage, Selected(g, stage, up), features) <==> KnownTypes(Selected(g, stage, up)))
    {
      if Regions(stage) == {} {
        return false;
      }
      var counts := Reconcile(g, stage, up, down, now);
      var _ := RefreshSources();
      state := Some(SyncState(sequence, timestamp, counts));
      if up == down {
        PublishesIff(g, stage, up, old(features), now);
      }
      return true;
    }
  }
}
