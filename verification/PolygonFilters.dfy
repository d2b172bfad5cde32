/** Parsing of the repeated or comma-separated polygon filters. */
module PolygonFilters {
  import opened Options
  import opened Lists
  import opened Text

  const NONE := "NONE"

  const CATEGORIES: set<string> := {
    "warehouse", "fashion", "food", "electronics", "furniture", "garden",
    "other", "gastronomy", "services", "otherAreas", "__none__"}
  const FLOORS: set<string> := {"UG", "EG", "OG"}
  const AREA_SIZES: set<string> := {"S", "M", "L", "XL"}
  const OCCUPANCY_STATUSES: set<string> := {"OCCUPIED", "VACANT", "UNKNOWN"}
  const BUSINESS_STRUCTURES: set<string> := {"CHAIN", "INDEPENDENT", "UNKNOWN"}
  const DATA_SOURCES: set<string> := {"STADTPLANNER", "OSM"}

  /** The 422 answer: unknown values, or NONE combined with others. */
  datatype Error = Invalid(field: string, values: set<string>) | NoneCombined(field: string, values: set<string>)
  datatype Result<T> = Ok(value: T) | Err(error: Error)

  /** The parts of one item, stripped, without empty ones. */
  function Clean(parts: seq<string>): (r: seq<string>)
    ensures forall p | p in r :: p != "" && Stripped(p)
  {
    if parts == [] then []
    else
      var p := Strip(parts[0]);
      if p == "" then Clean(parts[1..]) else [p] + Clean(parts[1..])
  }

  /** All non-empty parts of all items, in order. */
  function Tokens(items: seq<string>): seq<string> {
    if items == [] then [] else Clean(Split(items[0], ',')) + Tokens(items[1..])
  }

  function Elements(s: seq<string>): set<string> { set x | x in s }

  function Values(raw: Option<seq<string>>, allowed: set<string>, field: string): Result<seq<string>> {
    var values := Dedup(Tokens(if raw.Some? then raw.value else []));
    var invalid := Elements(values) - (allowed + {NONE});
    if invalid != {} then Err(Invalid(field, invalid))
    else if NONE in values && |values| > 1 then Err(NoneCombined(field, Elements(values)))
    else Ok(values)
  }

  // ----- repeated parameters and CSV mean the same -----

  lemma {:induction false} CleanAppend(a: seq<string>, b: seq<string>)
    ensures Clean(a + b) == Clean(a) + Clean(b)
    decreases |a|
  {
    if a == [] {
      assert a + b == b;
    } else {
      assert (a + b)[1..] == a[1..] + b;
      CleanAppend(a[1..], b);
    }
  }

  lemma {:induction false} TokensOfJoin(items: seq<string>)
    ensures Tokens([Join(items, ',')]) == Tokens(items)
    decreases |items|
  {
    if items == [] {
      assert Clean([""]) == [];
    } else if |items| == 1 {
      assert items == [items[0]];
    } else {
      var rest := Join(items[1..], ',');
      SplitAppend(items[0], rest, ',');
      CleanAppend(Split(items[0], ','), Split(rest, ','));
      TokensOfJoin(items[1..]);
      assert Tokens([rest]) == Clean(Split(rest, ','));
      assert Tokens([Join(items, ',')]) == Clean(Split(Join(items, ','), ','));
    }
  }

  /** Parsing a list of filter strings equals parsing their comma-join, errors included. */
  lemma RepeatedEqualsCsv(items: seq<string>, allowed: set<string>, field: string)
    ensures Values(Some([Join(items, ',')]), allowed, field) == Values(Some(items), allowed, field)
  {
    TokensOfJoin(items);
  }

  // ----- what is accepted -----

  predicate Canonical(values: seq<string>, allowed: set<string>) {
    && Distinct(values)
    && (forall v | v in values :: v in allowed || v == NONE)
    && (NONE in values ==> values == [NONE])
  }

  /** Accepted values have no duplicates, are allowed, contain NONE only alone, are exactly
      the tokens given, and keep the order of their first occurrence. */
  lemma AcceptedIsCanonical(items: seq<string>, allowed: set<string>, field: string)
    requires Values(Some(items), allowed, field).Ok?
    ensures
      var values := Values(Some(items), allowed, field).value;
      && Canonical(values, allowed)
      && Elements(values) == Elements(Tokens(items))
      && (forall x, y | x in values && y in values ::
            FirstIndex(values, x) < FirstIndex(values, y)
            <==> FirstIndex(Tokens(items), x) < FirstIndex(Tokens(items), y))
  {
    var values := Values(Some(items), allowed, field).value;
    forall x, y | x in values && y in values
      ensures
        FirstIndex(values, x) < FirstIndex(values, y)
        <==> FirstIndex(Tokens(items), x) < FirstIndex(Tokens(items), y)
    {
      DedupKeepsOrder(Tokens(items), x, y);
    }
    forall v | v in values ensures v in allowed || v == NONE {
      assert v in Elements(values) && v !in Elements(values) - (allowed + {NONE});
    }
  }

  lemma NoneAccompanied(values: seq<string>)
    requires forall i, j | 0 <= i < j < |values| :: values[i] != values[j]
    ensures NONE in values ==> (|values| > 1 <==> exists t :: t in values && t != NONE)
  {
    assert |values| > 1 ==> values[0] in values && values[1] in values;
  }

  /** Rejection, exactly: an unknown token, or NONE beside another token. */
  lemma RejectedIff(items: seq<string>, allowed: set<string>, field: string)
    ensures Values(Some(items), allowed, field).Err? <==>
      || (exists t :: t in Tokens(items) && t !in allowed && t != "NONE")
      || ("NONE" in Tokens(items) && exists t :: t in Tokens(items) && t != "NONE")
  {
    var values := Dedup(Tokens(items));
    var invalid := Elements(values) - (allowed + {NONE});
    NoneAccompanied(values);
    assert forall t :: t in Tokens(items) <==> t in values;
    assert (exists t :: t in values && t !in allowed && t != NONE) <==> invalid != {} by {
      if t :| t in values && t !in allowed && t != NONE {
        assert t in invalid;
      }
    }
  }

  /** The error names every unknown token; without one, it names all tokens beside NONE.  A missing
      parameter is an empty list, which is accepted. */
  lemma ErrorNames(items: seq<string>, allowed: set<string>, field: string)
    ensures Values(None, allowed, field) == Ok([]) && Values(Some([]), allowed, field) == Ok([])
    ensures Values(Some(items), allowed, field).Err? ==>
      var unknown := set t | t in Tokens(items) && t !in allowed && t != "NONE";
      Values(Some(items), allowed, field).error
      == if unknown != {} then Invalid(field, unknown) else NoneCombined(field, set t | t in Tokens(items))
  {
    var values := Dedup(Tokens(items));
    assert Elements(values) - (allowed + {NONE}) == set t | t in Tokens(items) && t !in allowed && t != "NONE";
    assert Elements(values) == set t | t in Tokens(items);
  }

  lemma {:induction false} CleanIs(parts: seq<string>, x: string)
    ensures x in Clean(parts) <==> x != "" && exists i :: 0 <= i < |parts| && Strip(parts[i]) == x
    decreases |parts|
  {
    if parts == [] {
    } else {
      CleanIs(parts[1..], x);
      assert parts == [parts[0]] + parts[1..];
      if x in Clean(parts[1..]) {
        var i :| 0 <= i < |parts[1..]| && Strip(parts[1..][i]) == x;
        assert Strip(parts[i + 1]) == x;
      }
      if x != "" && exists i :: 0 <= i < |parts| && Strip(parts[i]) == x {
        var i :| 0 <= i < |parts| && Strip(parts[i]) == x;
        if i > 0 {
          assert parts[1..][i - 1] == parts[i];
        }
      }
    }
  }

  /** A part between the commas of the item, without surrounding white space. */
  predicate IsPart(item: string, x: string) {
    exists k :: 0 <= k < |Split(item, ',')| && Strip(Split(item, ',')[k]) == x
  }

  /** The tokens are exactly the non-empty parts between the commas of the items. */
  lemma {:induction false} TokensAre(items: seq<string>, x: string)
    ensures x in Tokens(items) <==> x != "" && exists i :: 0 <= i < |items| && IsPart(items[i], x)
    decreases |items|
  {
    if items == [] {
    } else {
      TokensAre(items[1..], x);
      CleanIs(Split(items[0], ','), x);
      assert (exists i :: 0 <= i < |items| && IsPart(items[i], x))
        <==> IsPart(items[0], x) || exists i :: 0 <= i < |items[1..]| && IsPart(items[1..][i], x) by {
        AnyPart(items, x);
      }
    }
  }

  lemma AnyPart(items: seq<string>, x: string)
    requires items != []
    ensures (exists i :: 0 <= i < |items| && IsPart(items[i], x))
      <==> IsPart(items[0], x) || exists i :: 0 <= i < |items[1..]| && IsPart(items[1..][i], x)
  {
    assert forall i | 0 <= i < |items[1..]| :: items[1..][i] == items[i + 1];
    assert forall i | 0 < i < |items| :: items[1..][i - 1] == items[i];
  }

  // ----- printing -----

  /** Tokens that survive being printed: no comma, not empty, no surrounding space. */
  predicate Printable(s: string) { s != "" && ',' !in s && Stripped(s) }

  lemma {:induction false} CleanPrintable(values: seq<string>)
    requires forall v | v in values :: Printable(v)
    ensures Clean(values) == values
    decreases |values|
  {
    if values == [] {
    } else {
      assert Printable(values[0]);
      CleanPrintable(values[1..]);
      assert [values[0]] + values[1..] == values;
    }
  }

  /** Printing accepted values as CSV and parsing them again returns them unchanged. */
  lemma PrintThenParse(values: seq<string>, allowed: set<string>, field: string)
    requires forall a | a in allowed :: Printable(a)
    requires Canonical(values, allowed)
    ensures Values(Some([Join(values, ',')]), allowed, field) == Ok(values)
  {
    assert Printable(NONE);
    if values == [] {
      assert Clean([""]) == [];
    } else {
      SplitJoin(values, ',');
    }
    CleanPrintable(values);
    DedupDistinct(values);
    assert Tokens([Join(values, ',')]) == values;
    assert Elements(values) - (allowed + {NONE}) == {};
    RejectedIff([Join(values, ',')], allowed, field);
  }

  lemma CategoriesPrintable()
    ensures forall a | a in CATEGORIES :: Printable(a)
  {
    assert Printable("warehouse") && Printable("fashion") && Printable("food");
    assert Printable("electronics") && Printable("furniture") && Printable("garden");
    assert Printable("other") && Printable("gastronomy") && Printable("services");
    assert Printable("otherAreas") && Printable("__none__");
  }

  lemma FloorsAndSizesPrintable()
    ensures forall a | a in FLOORS + AREA_SIZES :: Printable(a)
  {
  }

  lemma StatusesPrintable()
    ensures forall a | a in OCCUPANCY_STATUSES + BUSINESS_STRUCTURES + DATA_SOURCES :: Printable(a)
  {
    assert Printable("OCCUPIED") && Printable("VACANT") && Printable("UNKNOWN");
    assert Printable("CHAIN") && Printable("INDEPENDENT");
    assert Printable("STADTPLANNER") && Printable("OSM");
  }

  // ----- the whole query -----

  datatype Params = Params(
    categories: seq<string>, floors: seq<string>, areaSizes: seq<string>,
    occupancyStatuses: seq<string>, businessStructures: seq<string>, sources: seq<string>)

  datatype RawParams = RawParams(
    categories: Option<seq<string>>, floors: Option<seq<string>>, areaSizes: Option<seq<string>>,
    occupancyStatuses: Option<seq<string>>, businessStructures: Option<seq<string>>, sources: Option<seq<string>>)

  /** The sources are parsed first, so their error wins; then the fields in order. */
  function Query(raw: RawParams): Result<Params> {
    var sources := Values(raw.sources, DATA_SOURCES, "sources");
    if sources.Err? then Err(sources.error) else
    var categories := Values(raw.categories, CATEGORIES, "categories");
    if categories.Err? then Err(categories.error) else
    var floors := Values(raw.floors, FLOORS, "floors");
    if floors.Err? then Err(floors.error) else
    var areaSizes := Values(raw.areaSizes, AREA_SIZES, "area_sizes");
    if areaSizes.Err? then Err(areaSizes.error) else
    var occupancy := Values(raw.occupancyStatuses, OCCUPANCY_STATUSES, "occupancy_statuses");
    if occupancy.Err? then Err(occupancy.error) else
    var business := Values(raw.businessStructures, BUSINESS_STRUCTURES, "business_structures");
    if business.Err? then Err(business.error) else
    Ok(Params(categories.value, floors.value, areaSizes.value, occupancy.value, business.value, sources.value))
  }

  function Print(values: seq<string>): Option<seq<string>> {
    if values == [] then None else Some([Join(values, ',')])
  }

  function PrintAll(p: Params): RawParams {
    RawParams(Print(p.categories), Print(p.floors), Print(p.areaSizes),
              Print(p.occupancyStatuses), Print(p.businessStructures), Print(p.sources))
  }

  lemma FieldRoundTrip(raw: Option<seq<string>>, allowed: set<string>, field: string)
    requires Values(raw, allowed, field).Ok? && forall a | a in allowed :: Printable(a)
    ensures
      var values := Values(raw, allowed, field).value;
      Values(Print(values), allowed, field) == Ok(values)
  {
    var items := if raw.Some? then raw.value else [];
    AcceptedIsCanonical(items, allowed, field);
    var values := Values(raw, allowed, field).value;
    if values == [] {
      assert Tokens([]) == [];
    } else {
      PrintThenParse(values, allowed, field);
    }
  }

  /** Main result: whatever request is accepted, its filters printed as CSV parse to the
      same filters. */
  lemma QueryRoundTrip(raw: RawParams)
    requires Query(raw).Ok?
    ensures Query(PrintAll(Query(raw).value)) == Query(raw)
  {
    CategoriesPrintable();
    FloorsAndSizesPrintable();
    StatusesPrintable();
    FieldRoundTrip(raw.sources, DATA_SOURCES, "sources");
    FieldRoundTrip(raw.categories, CATEGORIES, "categories");
    FieldRoundTrip(raw.floors, FLOORS, "floors");
    FieldRoundTrip(raw.areaSizes, AREA_SIZES, "area_sizes");
    FieldRoundTrip(raw.occupancyStatuses, OCCUPANCY_STATUSES, "occupancy_statuses");
    FieldRoundTrip(raw.businessStructures, BUSINESS_STRUCTURES, "business_structures");
  }

  /** The answers of the fields, in the order they are asked. */
  function Results(raw: RawParams): seq<Result<seq<string>>> {
    [Values(raw.sources, DATA_SOURCES, "sources"),
     Values(raw.categories, CATEGORIES, "categories"),
     Values(raw.floors, FLOORS, "floors"),
     Values(raw.areaSizes, AREA_SIZES, "area_sizes"),
     Values(raw.occupancyStatuses, OCCUPANCY_STATUSES, "occupancy_statuses"),
     Values(raw.businessStructures, BUSINESS_STRUCTURES, "business_structures")]
  }

  /** The error is that of the first field that has one, the sources before all others; without
      any the request is accepted. */
  lemma QueryComplains(raw: RawParams, i: nat)
    requires i < |Results(raw)| && Results(raw)[i].Err? && forall j | 0 <= j < i :: Results(raw)[j].Ok?
    ensures Query(raw) == Err(Results(raw)[i].error)
  {
    var r := Results(raw);
    assert i > 0 ==> r[0].Ok?;
    assert i > 1 ==> r[1].Ok?;
    assert i > 2 ==> r[2].Ok?;
    assert i > 3 ==> r[3].Ok?;
    assert i > 4 ==> r[4].Ok?;
  }

  /** A request is accepted when all fields are, each with its own values. */
  lemma QueryAccepts(raw: RawParams)
    requires forall i | 0 <= i < |Results(raw)| :: Results(raw)[i].Ok?
    ensures Query(raw).Ok?
    ensures
      var p, r := Query(raw).value, Results(raw);
      [p.sources, p.categories, p.floors, p.areaSizes, p.occupancyStatuses, p.businessStructures]
      == [r[0].value, r[1].value, r[2].value, r[3].value, r[4].value, r[5].value]
  {
    var r := Results(raw);
    assert r[0].Ok? && r[1].Ok? && r[2].Ok? && r[3].Ok? && r[4].Ok? && r[5].Ok?;
  }
}
