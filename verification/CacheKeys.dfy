/** Cache keys: a canonical form of the parameters, hashed, with resource and version. */
module CacheKeys {
  import opened Text
  import opened Permutations
  import opened Sorting

  // ----- the order of Python strings -----

  /** Code point by code point, a prefix first. */
  predicate Lex(a: string, b: string) {
    a == "" || (b != "" && (a[0] < b[0] || (a[0] == b[0] && Lex(a[1..], b[1..]))))
  }

  lemma {:induction false} LexTotal(a: string, b: string)
    ensures Lex(a, b) || Lex(b, a)
    decreases |a|
  {
    if a != "" && b != "" {
      LexTotal(a[1..], b[1..]);
    }
  }

  lemma {:induction false} LexAntisymmetric(a: string, b: string)
    requires Lex(a, b) && Lex(b, a)
    ensures a == b
    decreases |a|
  {
    if a != "" && b != "" {
      LexAntisymmetric(a[1..], b[1..]);
      assert a == [a[0]] + a[1..] && b == [b[0]] + b[1..];
    }
  }

  lemma {:induction false} LexTransitive(a: string, b: string, c: string)
    requires Lex(a, b) && Lex(b, c)
    ensures Lex(a, c)
    decreases |a|
  {
    if a != "" && a[0] == b[0] && b[0] == c[0] {
      LexTransitive(a[1..], b[1..], c[1..]);
    }
  }

  lemma LexIsTotalOrder()
    ensures TotalOrder(Lex)
  {
    forall a, b ensures Lex(a, b) || Lex(b, a) { LexTotal(a, b); }
    forall a, b | Lex(a, b) && Lex(b, a) ensures a == b { LexAntisymmetric(a, b); }
    forall a, b, c | Lex(a, b) && Lex(b, c) ensures Lex(a, c) { LexTransitive(a, b, c); }
  }

  /** The shorter text is a prefix, or the texts first differ where it has the lower character. */
  predicate Precedes(a: string, b: string, k: nat) {
    k <= |a| && k <= |b| && a[..k] == b[..k] && (k == |a| || (k < |b| && a[k] < b[k]))
  }

  lemma {:induction false} LexIff(a: string, b: string)
    ensures Lex(a, b) <==> exists k :: 0 <= k <= |a| && Precedes(a, b, k)
    decreases |a|
  {
    if a == "" {
      assert Precedes(a, b, 0);
    } else if b == "" {
    } else if a[0] != b[0] {
      if a[0] < b[0] {
        assert Precedes(a, b, 0);
      }
      assert forall k | 0 < k <= |a| && k <= |b| :: a[..k][0] != b[..k][0];
    } else {
      LexIff(a[1..], b[1..]);
      forall k | 0 <= k < |a| ensures Precedes(a[1..], b[1..], k) <==> Precedes(a, b, k + 1) {
        PrecedesTail(a, b, k);
      }
      assert !Precedes(a, b, 0);
      if k :| 0 < k <= |a| && Precedes(a, b, k) {
        assert Precedes(a[1..], b[1..], k - 1);
      }
    }
  }

  lemma PrecedesTail(a: string, b: string, k: nat)
    requires a != "" && b != "" && a[0] == b[0]
    ensures Precedes(a[1..], b[1..], k) <==> Precedes(a, b, k + 1)
  {
    if k < |a| && k < |b| {
      assert a[..k + 1] == [a[0]] + a[1..][..k] && b[..k + 1] == [b[0]] + b[1..][..k];
      if a[..k + 1] == b[..k + 1] {
        assert a[1..][..k] == a[..k + 1][1..] && b[1..][..k] == b[..k + 1][1..];
      }
    }
  }

  // ----- numbers as text -----

  function Digit(d: nat): char
    requires d < 10
  {
    '0' + d as char
  }

  function Decimal(n: nat): (s: string)
    ensures s != "" && forall c | c in s :: '0' <= c <= '9'
  {
    if n < 10 then [Digit(n)] else Decimal(n / 10) + [Digit(n % 10)]
  }

  /** The number some decimal digits write. */
  function Read(s: string): int {
    if s == "" then 0 else 10 * Read(s[..|s| - 1]) + (s[|s| - 1] as int - '0' as int)
  }

  /** Reading a printed number gives the number, and it has no leading zero. */
  lemma {:induction false} ReadDecimal(n: nat)
    ensures Read(Decimal(n)) == n && (n > 0 ==> Decimal(n)[0] != '0') && (n == 0 ==> Decimal(n) == "0")
    decreases n
  {
    if n >= 10 {
      ReadDecimal(n / 10);
      var s := Decimal(n);
      assert s[..|s| - 1] == Decimal(n / 10);
    } else {
      assert Read([]) == 0;
      assert Decimal(n)[..0] == [];
    }
  }

  lemma {:induction false} DecimalInjective(m: nat, n: nat)
    requires Decimal(m) == Decimal(n)
    ensures m == n
    decreases m
  {
    var s, t := Decimal(m), Decimal(n);
    assert s[|s| - 1] == Digit(m % 10) && t[|t| - 1] == Digit(n % 10);
    if m >= 10 && n >= 10 {
      assert s[..|s| - 1] == Decimal(m / 10) && t[..|t| - 1] == Decimal(n / 10);
      DecimalInjective(m / 10, n / 10);
    }
  }

  function IntText(n: int): string { if n < 0 then "-" + Decimal(-n) else Decimal(n) }

  lemma {:induction false} IntTextInjective(m: int, n: int)
    requires IntText(m) == IntText(n)
    ensures m == n
  {
    if m >= 0 && n >= 0 {
      DecimalInjective(m, n);
    } else if m < 0 && n < 0 {
      assert IntText(m)[1..] == Decimal(-m) && IntText(n)[1..] == Decimal(-n);
      DecimalInjective(-m, -n);
    } else {
      var k := if m < 0 then n else m;
      assert Decimal(k)[0] in Decimal(k);
    }
  }

  // ----- parameters and their canonical form -----

  /** A value that has a `hex` method, such as a UUID or a float, is replaced by its text. */
  datatype Scalar = Text(text: string) | Number(n: int) | Flag(b: bool) | Null | HexLike(repr: string)

  /** What the calls pass: scalars, lists of scalars, and mappings of such values. */
  datatype Param = One(scalar: Scalar) | Many(items: seq<Scalar>) | Nested(fields: map<string, Param>)

  type Params = map<string, Param>

  function CanonicalScalar(s: Scalar): Scalar { if s.HexLike? then Text(s.repr) else s }

  /** `str(item)`. */
  function TextOf(s: Scalar): string {
    match s
    case Text(text) => text
    case Number(n) => IntText(n)
    case Flag(b) => if b then "True" else "False"
    case Null => "None"
    case HexLike(repr) => repr
  }

  predicate TextLeq(a: Scalar, b: Scalar) { Lex(TextOf(a), TextOf(b)) }

  function Items(items: seq<Scalar>): seq<Scalar> { Map(CanonicalScalar, items) }

  function CanonicalParam(p: Param): Param {
    match p
    case One(s) => One(CanonicalScalar(s))
    case Many(items) => Many(Sort(TextLeq, Items(items)))
    case Nested(fields) => Nested(map k | k in fields :: CanonicalParam(fields[k]))
  }

  function Canonical(params: Params): Params {
    map k | k in params :: CanonicalParam(params[k])
  }

  function HasText(t: string): Scalar -> bool { (s: Scalar) => TextOf(s) == t }

  function WithText(t: string, items: seq<Scalar>): seq<Scalar> { Filter(HasText(t), items) }

  /** The lists hold the same values, those with one text in the same order. */
  ghost predicate SameItems(a: seq<Scalar>, b: seq<Scalar>) {
    forall t :: WithText(t, Items(a)) == WithText(t, Items(b))
  }

  /** Equal scalars, the same list items, or mappings that agree key by key. */
  ghost predicate SameParam(p: Param, q: Param)
    decreases p
  {
    match (p, q)
    case (One(s), One(t)) => CanonicalScalar(s) == CanonicalScalar(t)
    case (Many(a), Many(b)) => SameItems(a, b)
    case (Nested(f), Nested(g)) => f.Keys == g.Keys && forall k | k in f :: SameParam(f[k], g[k])
    case _ => false
  }

  ghost predicate SameSelection(p: Params, q: Params) {
    p.Keys == q.Keys && forall k | k in p :: SameParam(p[k], q[k])
  }

  lemma TextLeqIsPreorder()
    ensures TotalPreorder(TextLeq)
  {
    LexIsTotalOrder();
  }

  /** Values tie in the sort exactly when their texts are equal. */
  lemma TiesAreTexts(x: Scalar, items: seq<Scalar>)
    ensures Filter(Ties(TextLeq, x), items) == WithText(TextOf(x), items)
  {
    forall y ensures Ties(TextLeq, x)(y) <==> HasText(TextOf(x))(y) {
      LexTotal(TextOf(x), TextOf(x));
      if TextLeq(x, y) && TextLeq(y, x) {
        LexAntisymmetric(TextOf(x), TextOf(y));
      }
    }
    FilterBy(Ties(TextLeq, x), HasText(TextOf(x)), items);
  }

  lemma ListIff(a: seq<Scalar>, b: seq<Scalar>)
    ensures Sort(TextLeq, Items(a)) == Sort(TextLeq, Items(b)) <==> SameItems(a, b)
  {
    TextLeqIsPreorder();
    StableIff(TextLeq, Items(a), Items(b));
    forall x ensures Filter(Ties(TextLeq, x), Items(a)) == WithText(TextOf(x), Items(a))
      ensures Filter(Ties(TextLeq, x), Items(b)) == WithText(TextOf(x), Items(b))
    {
      TiesAreTexts(x, Items(a));
      TiesAreTexts(x, Items(b));
    }
    if SameTies(TextLeq, Items(a), Items(b)) {
      forall t ensures WithText(t, Items(a)) == WithText(t, Items(b)) {
        assert TextOf(Text(t)) == t;
        assert Filter(Ties(TextLeq, Text(t)), Items(a)) == Filter(Ties(TextLeq, Text(t)), Items(b));
      }
    }
  }

  lemma {:induction false} CanonicalParamIff(p: Param, q: Param)
    ensures CanonicalParam(p) == CanonicalParam(q) <==> SameParam(p, q)
    decreases p
  {
    if p.Many? && q.Many? {
      ListIff(p.items, q.items);
    } else if p.Nested? && q.Nested? {
      forall k | k in p.fields && k in q.fields
        ensures CanonicalParam(p.fields[k]) == CanonicalParam(q.fields[k]) <==> SameParam(p.fields[k], q.fields[k])
      {
        CanonicalParamIff(p.fields[k], q.fields[k]);
      }
      MapsIff(CanonicalParam(p).fields, CanonicalParam(q).fields);
      assert CanonicalParam(p).fields.Keys == p.fields.Keys && CanonicalParam(q).fields.Keys == q.fields.Keys;
    }
  }

  /** Maps are equal exactly when they have the same keys and values. */
  lemma MapsIff(f: Params, g: Params)
    ensures f == g <==> f.Keys == g.Keys && forall k | k in f :: f[k] == g[k]
  {
  }

  /** Two parameter mappings get the same canonical form exactly when they select the same. */
  lemma CanonicalIff(p: Params, q: Params)
    ensures Canonical(p) == Canonical(q) <==> SameSelection(p, q)
  {
    forall k | k in p && k in q ensures Canonical(p)[k] == Canonical(q)[k] <==> SameParam(p[k], q[k]) {
      CanonicalParamIff(p[k], q[k]);
    }
    MapsIff(Canonical(p), Canonical(q));
    assert Canonical(p).Keys == p.Keys && Canonical(q).Keys == q.Keys;
  }

  /** Scalars are confused only if one is the text that stands for the other. */
  lemma ScalarIff(s: Scalar, t: Scalar)
    ensures CanonicalScalar(s) == CanonicalScalar(t) <==>
      s == t || ((s.Text? || s.HexLike?) && (t.Text? || t.HexLike?) && TextOf(s) == TextOf(t))
  {
  }

  /** `str` of the values that are no text. */
  lemma TextsAre(n: int)
    requires n >= 0
    ensures TextOf(Flag(true)) == "True" && TextOf(Flag(false)) == "False" && TextOf(Null) == "None"
    ensures Read(TextOf(Number(n))) == n
    ensures n > 0 ==> TextOf(Number(-n)) == "-" + TextOf(Number(n))
  {
    ReadDecimal(n);
  }

  /** A list becomes its items in the order of their texts, equal texts in the order given. */
  lemma ListIsSorted(items: seq<Scalar>)
    ensures CanonicalParam(Many(items)).Many?
    ensures
      var list := CanonicalParam(Many(items)).items;
      && multiset(list) == multiset(Items(items))
      && (forall i, j | 0 <= i < j < |list| :: Lex(TextOf(list[i]), TextOf(list[j])))
      && (forall t :: WithText(t, list) == WithText(t, Items(items)))
  {
    TextLeqIsPreorder();
    SortSorts(TextLeq, Items(items));
    var list := Sort(TextLeq, Items(items));
    forall i, j | 0 <= i < j < |list| ensures Lex(TextOf(list[i]), TextOf(list[j])) {
      assert TextLeq(list[i], list[j]);
    }
    forall t ensures WithText(t, list) == WithText(t, Items(items)) {
      LexTotal(t, t);
      SortStable(TextLeq, HasText(t), Items(items));
    }
  }

  // ----- lists of one kind -----

  /** All strings (or values replaced by their text), or all numbers. */
  predicate OneKind(items: seq<Scalar>) {
    || (forall s | s in items :: s.Text? || s.HexLike?)
    || (forall s | s in items :: s.Number?)
  }

  lemma KindIsReadable(items: seq<Scalar>, x: Scalar, y: Scalar)
    requires OneKind(items) && x in Items(items) && y in Items(items) && TextOf(x) == TextOf(y)
    ensures x == y
  {
    var i :| 0 <= i < |items| && Items(items)[i] == x;
    var j :| 0 <= j < |items| && Items(items)[j] == y;
    assert items[i] in items && items[j] in items;
    if x.Number? && y.Number? {
      IntTextInjective(x.n, y.n);
    }
  }

  lemma OneKindSameText(a: seq<Scalar>, b: seq<Scalar>, t: string)
    requires OneKind(a + b) && multiset(Items(a)) == multiset(Items(b))
    ensures WithText(t, Items(a)) == WithText(t, Items(b))
  {
    var u, v := WithText(t, Items(a)), WithText(t, Items(b));
    CountPermutes(HasText(t), Items(a), Items(b));
    MapAppend(CanonicalScalar, a, b);
    forall i | 0 <= i < |u| ensures u[i] == v[i] {
      assert u[i] in u && v[i] in v;
      KindIsReadable(a + b, u[i], v[i]);
    }
  }

  /** For lists of strings and for lists of numbers the same items means the same multiset. */
  lemma OneKindIff(a: seq<Scalar>, b: seq<Scalar>)
    requires OneKind(a + b)
    ensures SameItems(a, b) <==> multiset(Items(a)) == multiset(Items(b))
  {
    ListIff(a, b);
    if SameItems(a, b) {
      assert multiset(Sort(TextLeq, Items(a))) == multiset(Sort(TextLeq, Items(b)));
    }
    if multiset(Items(a)) == multiset(Items(b)) {
      forall t ensures WithText(t, Items(a)) == WithText(t, Items(b)) {
        OneKindSameText(a, b, t);
      }
    }
  }

  /** A list that mixes a number with its own text is split by order. */
  lemma MixedListsSplit()
    ensures multiset([Text("1"), Number(1)]) == multiset([Number(1), Text("1")])
    ensures !SameItems([Text("1"), Number(1)], [Number(1), Text("1")])
  {
    var a, b := [Text("1"), Number(1)], [Number(1), Text("1")];
    assert TextOf(a[0]) == "1" && TextOf(b[0]) == "1";
    assert Items(a)[0] == a[0] && Items(b)[0] == b[0];
    assert WithText("1", Items(a))[0] == Text("1") && WithText("1", Items(b))[0] == Number(1);
  }

  // ----- the key -----

  /** `digest` stands for the hash of the JSON text of the canonical form. */
  datatype Env = Env(prefix: string, digest: Params -> string)

  ghost predicate Lawful(e: Env) {
    && (forall p, q :: e.digest(p) == e.digest(q) ==> p == q)
    && (forall p :: ':' !in e.digest(p))
  }

  /** A namespace version, or those of two namespaces joined by a colon or by a dash. */
  datatype Version = Single(n: nat) | Pair(first: nat, second: nat) | Dashed(left: nat, right: nat)

  function VersionText(v: Version): string {
    match v
    case Single(n) => Decimal(n)
    case Pair(a, b) => Decimal(a) + ":" + Decimal(b)
    case Dashed(a, b) => Decimal(a) + "-" + Decimal(b)
  }

  function BuildKey(e: Env, resource: string, params: Params, v: Version): string {
    e.prefix + ":v1:" + resource + ":v" + VersionText(v) + ":" + e.digest(Canonical(params))
  }

  /** The three forms of version, and a key. */
  lemma KeyText(e: Env, params: Params)
    ensures VersionText(Pair(3, 4)) == "3:4" && VersionText(Dashed(3, 4)) == "3-4"
    ensures e.prefix == "city" ==>
      BuildKey(e, "areas", params, Single(12)) == "city:v1:areas:v12:" + e.digest(Canonical(params))
  {
    assert Decimal(12) == "12" && VersionText(Single(12)) == "12";
    assert "city" + ":v1:" + "areas" + ":v" + "12" + ":" == "city:v1:areas:v12:";
  }

  /** Equal text splits at the last colon into equal halves. */
  lemma SameHalves(a: string, x: string, b: string, y: string)
    requires ':' !in x && ':' !in y && a + ":" + x == b + ":" + y
    ensures a == b && x == y
  {
    SplitLastOf(a, ':', x);
    SplitLastOf(b, ':', y);
  }

  lemma SamePrefix(p: string, a: string, b: string)
    requires p + a == p + b
    ensures a == b
  {
    assert a == (p + a)[|p|..] && b == (p + b)[|p|..];
  }

  // ----- reading the version back -----

  lemma NoSeparator(n: nat)
    ensures ':' !in Decimal(n) && '-' !in Decimal(n)
  {
  }

  lemma DashedInjective(a: nat, b: nat, c: nat, d: nat)
    requires Decimal(a) + "-" + Decimal(b) == Decimal(c) + "-" + Decimal(d)
    ensures a == c && b == d
  {
    NoSeparator(b);
    NoSeparator(d);
    SplitLastOf(Decimal(a), '-', Decimal(b));
    SplitLastOf(Decimal(c), '-', Decimal(d));
    DecimalInjective(a, c);
    DecimalInjective(b, d);
  }

  lemma SingleIsNotDashed(m: nat, c: nat, d: nat)
    ensures Decimal(m) != Decimal(c) + "-" + Decimal(d)
  {
    NoSeparator(m);
    assert '-' in Decimal(c) + "-" + Decimal(d);
  }

  /** Versions whose text has no colon. */
  lemma FlatInjective(v: Version, w: Version)
    requires !v.Pair? && !w.Pair? && VersionText(v) == VersionText(w)
    ensures v == w
  {
    if v.Single? && w.Single? {
      DecimalInjective(v.n, w.n);
    } else if v.Dashed? && w.Dashed? {
      DashedInjective(v.left, v.right, w.left, w.right);
    } else if v.Single? {
      SingleIsNotDashed(v.n, w.left, w.right);
    } else {
      SingleIsNotDashed(w.n, v.left, v.right);
    }
  }

  lemma FlatHasNoColon(v: Version)
    requires !v.Pair?
    ensures ':' !in VersionText(v)
  {
    if v.Dashed? {
      NoSeparator(v.left);
      NoSeparator(v.right);
    } else {
      NoSeparator(v.n);
    }
  }

  function Stem(r: string, v: Version): string { r + ":v" + VersionText(v) }

  lemma FlatStem(r: string, v: Version)
    requires !v.Pair?
    ensures Stem(r, v) == r + ":" + ("v" + VersionText(v)) && ':' !in "v" + VersionText(v)
  {
    FlatHasNoColon(v);
  }

  lemma PairStem(r: string, a: nat, b: nat)
    ensures Stem(r, Pair(a, b)) == Stem(r, Single(a)) + ":" + Decimal(b)
  {
  }

  lemma FlatStemInjective(r: string, v: Version, q: string, w: Version)
    requires !v.Pair? && !w.Pair? && Stem(r, v) == Stem(q, w)
    ensures r == q && v == w
  {
    FlatStem(r, v);
    FlatStem(q, w);
    SameHalves(r, "v" + VersionText(v), q, "v" + VersionText(w));
    SamePrefix("v", VersionText(v), VersionText(w));
    FlatInjective(v, w);
  }

  lemma PairStemInjective(r: string, a: nat, b: nat, q: string, c: nat, d: nat)
    requires Stem(r, Pair(a, b)) == Stem(q, Pair(c, d))
    ensures r == q && a == c && b == d
  {
    PairStem(r, a, b);
    PairStem(q, c, d);
    NoSeparator(b);
    NoSeparator(d);
    SameHalves(Stem(r, Single(a)), Decimal(b), Stem(q, Single(c)), Decimal(d));
    FlatStemInjective(r, Single(a), q, Single(c));
    DecimalInjective(b, d);
  }

  lemma FlatIsNotPair(r: string, v: Version, q: string, c: nat, d: nat)
    requires !v.Pair?
    ensures Stem(r, v) != Stem(q, Pair(c, d))
  {
    FlatStem(r, v);
    PairStem(q, c, d);
    NoSeparator(d);
    assert Decimal(d)[0] in Decimal(d) && ("v" + VersionText(v))[0] == 'v';
    if Stem(r, v) == Stem(q, Pair(c, d)) {
      SameHalves(r, "v" + VersionText(v), Stem(q, Single(c)), Decimal(d));
    }
  }

  /** Resource and version can be read back from the text before the hash. */
  lemma VersionInjective(r: string, v: Version, q: string, w: Version)
    requires Stem(r, v) == Stem(q, w)
    ensures r == q && v == w
  {
    if v.Pair? && w.Pair? {
      PairStemInjective(r, v.first, v.second, q, w.first, w.second);
    } else if v.Pair? {
      FlatIsNotPair(q, w, r, v.first, v.second);
    } else if w.Pair? {
      FlatIsNotPair(r, v, q, w.first, w.second);
    } else {
      FlatStemInjective(r, v, q, w);
    }
  }

  lemma KeyAfterPrefix(e: Env, r: string, p: Params, v: Version)
    ensures BuildKey(e, r, p, v) == (e.prefix + ":v1:") + (Stem(r, v) + ":" + e.digest(Canonical(p)))
  {
  }

  /** Main result: cache keys neither merge nor split selections: two calls share a key
      exactly when resource, version and selection agree. */
  lemma KeyIff(e: Env, r: string, p: Params, v: Version, q: string, o: Params, w: Version)
    requires Lawful(e)
    ensures BuildKey(e, r, p, v) == BuildKey(e, q, o, w) <==> r == q && v == w && SameSelection(p, o)
  {
    CanonicalIff(p, o);
    if BuildKey(e, r, p, v) == BuildKey(e, q, o, w) {
      KeyAfterPrefix(e, r, p, v);
      KeyAfterPrefix(e, q, o, w);
      var rest, other := Stem(r, v) + ":" + e.digest(Canonical(p)), Stem(q, w) + ":" + e.digest(Canonical(o));
      SamePrefix(e.prefix + ":v1:", rest, other);
      SameHalves(Stem(r, v), e.digest(Canonical(p)), Stem(q, w), e.digest(Canonical(o)));
      VersionInjective(r, v, q, w);
    }
  }
}
