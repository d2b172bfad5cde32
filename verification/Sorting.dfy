/** Stable sorting, as `sorted` does it. */
module Sorting {
  import opened Permutations

  ghost predicate TotalOrder<T(!new)>(leq: (T, T) -> bool) {
    && (forall a, b :: leq(a, b) || leq(b, a))
    && (forall a, b :: leq(a, b) && leq(b, a) ==> a == b)
    && (forall a, b, c :: leq(a, b) && leq(b, c) ==> leq(a, c))
  }

  /** Elements may tie, as different values with the same sort key do. */
  ghost predicate TotalPreorder<T(!new)>(leq: (T, T) -> bool) {
    && (forall a, b :: leq(a, b) || leq(b, a))
    && (forall a, b, c :: leq(a, b) && leq(b, c) ==> leq(a, c))
  }

  ghost predicate Sorted<T>(leq: (T, T) -> bool, s: seq<T>) {
    forall i, j :: 0 <= i < j < |s| ==> leq(s[i], s[j])
  }

  function Insert<T>(leq: (T, T) -> bool, x: T, s: seq<T>): (r: seq<T>)
    ensures multiset(r) == multiset(s) + multiset{x} && |r| == |s| + 1
  {
    if s == [] || leq(x, s[0]) then [x] + s
    else
      assert s == [s[0]] + s[1..];
      [s[0]] + Insert(leq, x, s[1..])
  }

  function Sort<T>(leq: (T, T) -> bool, s: seq<T>): (r: seq<T>)
    ensures multiset(r) == multiset(s) && |r| == |s|
  {
    if s == [] then []
    else
      assert s == [s[0]] + s[1..];
      Insert(leq, s[0], Sort(leq, s[1..]))
  }

  lemma {:induction false} InsertSorted<T(!new)>(leq: (T, T) -> bool, x: T, s: seq<T>)
    requires TotalPreorder(leq) && Sorted(leq, s)
    ensures Sorted(leq, Insert(leq, x, s))
    decreases |s|
  {
    if s == [] || leq(x, s[0]) {
    } else {
      InsertSorted(leq, x, s[1..]);
      var rest := Insert(leq, x, s[1..]);
      forall i | 0 <= i < |rest| ensures leq(s[0], rest[i]) {
        assert rest[i] in multiset(rest);
        assert rest[i] in multiset(s[1..]) || rest[i] == x;
      }
    }
  }

  lemma {:induction false} SortSorts<T(!new)>(leq: (T, T) -> bool, s: seq<T>)
    requires TotalPreorder(leq)
    ensures Sorted(leq, Sort(leq, s))
    decreases |s|
  {
    if s == [] {
    } else {
      SortSorts(leq, s[1..]);
      InsertSorted(leq, s[0], Sort(leq, s[1..]));
    }
  }

  lemma {:induction false} SortedUnique<T(!new)>(leq: (T, T) -> bool, a: seq<T>, b: seq<T>)
    requires TotalOrder(leq) && Sorted(leq, a) && Sorted(leq, b) && multiset(a) == multiset(b)
    ensures a == b
    decreases |a|
  {
    assert |multiset(a)| == |a| && |multiset(b)| == |b|;
    if a == [] {
    } else {
      assert a[0] in multiset(b) && b[0] in multiset(a);
      assert a == [a[0]] + a[1..] && b == [b[0]] + b[1..];
      assert a[0] == b[0];
      assert multiset(a[1..]) == multiset(a) - multiset{a[0]};
      SortedUnique(leq, a[1..], b[1..]);
    }
  }

  /** Sorting forgets the order and nothing else. */
  lemma SortIff<T(!new)>(leq: (T, T) -> bool, a: seq<T>, b: seq<T>)
    requires TotalOrder(leq)
    ensures Sort(leq, a) == Sort(leq, b) <==> multiset(a) == multiset(b)
  {
    SortSorts(leq, a);
    SortSorts(leq, b);
    if multiset(a) == multiset(b) {
      SortedUnique(leq, Sort(leq, a), Sort(leq, b));
    }
  }

  // ----- elements that tie -----

  function Ties<T>(leq: (T, T) -> bool, x: T): T -> bool { (y: T) => leq(x, y) && leq(y, x) }

  lemma {:induction false} InsertStable<T(!new)>(leq: (T, T) -> bool, p: T -> bool, x: T, s: seq<T>)
    requires forall y, z :: p(y) && p(z) ==> leq(y, z)
    ensures Filter(p, Insert(leq, x, s)) == if p(x) then [x] + Filter(p, s) else Filter(p, s)
    decreases |s|
  {
    if s == [] || leq(x, s[0]) {
    } else {
      InsertStable(leq, p, x, s[1..]);
    }
  }

  /** Sorting keeps the order of elements that tie. */
  lemma {:induction false} SortStable<T(!new)>(leq: (T, T) -> bool, p: T -> bool, s: seq<T>)
    requires forall y, z :: p(y) && p(z) ==> leq(y, z)
    ensures Filter(p, Sort(leq, s)) == Filter(p, s)
    decreases |s|
  {
    if s == [] {
    } else {
      SortStable(leq, p, s[1..]);
      InsertStable(leq, p, s[0], Sort(leq, s[1..]));
    }
  }

  ghost predicate SameTies<T(!new)>(leq: (T, T) -> bool, a: seq<T>, b: seq<T>) {
    forall x :: Filter(Ties(leq, x), a) == Filter(Ties(leq, x), b)
  }

  lemma SameHead<T(!new)>(leq: (T, T) -> bool, a: seq<T>, b: seq<T>)
    requires TotalPreorder(leq) && Sorted(leq, a) && Sorted(leq, b) && SameTies(leq, a, b)
    requires a != []
    ensures b != [] && a[0] == b[0]
  {
    assert Filter(Ties(leq, a[0]), a)[0] == a[0];
    assert a[0] in Filter(Ties(leq, a[0]), b) && a[0] in b;
    assert Filter(Ties(leq, b[0]), b)[0] == b[0];
    assert b[0] in Filter(Ties(leq, b[0]), a) && b[0] in a;
    assert Ties(leq, a[0])(b[0]);
  }

  lemma {:induction false} SameTail<T>(p: T -> bool, a: seq<T>, b: seq<T>)
    requires a != [] && b != [] && a[0] == b[0] && Filter(p, a) == Filter(p, b)
    ensures Filter(p, a[1..]) == Filter(p, b[1..])
  {
    if p(a[0]) {
      assert Filter(p, a)[1..] == Filter(p, a[1..]) && Filter(p, b)[1..] == Filter(p, b[1..]);
    }
  }

  lemma {:induction false} SortedTiesUnique<T(!new)>(leq: (T, T) -> bool, a: seq<T>, b: seq<T>)
    requires TotalPreorder(leq) && Sorted(leq, a) && Sorted(leq, b) && SameTies(leq, a, b)
    ensures a == b
    decreases |a|
  {
    if a == [] {
      if b != [] {
        SameHead(leq, b, a);
      }
    } else {
      SameHead(leq, a, b);
      forall x ensures Filter(Ties(leq, x), a[1..]) == Filter(Ties(leq, x), b[1..]) {
        SameTail(Ties(leq, x), a, b);
      }
      SortedTiesUnique(leq, a[1..], b[1..]);
      assert a == [a[0]] + a[1..] && b == [b[0]] + b[1..];
    }
  }

  /** Stable sorting makes two lists equal exactly when, among elements that tie, they hold
      the same in the same order. */
  lemma StableIff<T(!new)>(leq: (T, T) -> bool, a: seq<T>, b: seq<T>)
    requires TotalPreorder(leq)
    ensures Sort(leq, a) == Sort(leq, b) <==> SameTies(leq, a, b)
  {
    forall x ensures Filter(Ties(leq, x), Sort(leq, a)) == Filter(Ties(leq, x), a)
      ensures Filter(Ties(leq, x), Sort(leq, b)) == Filter(Ties(leq, x), b)
    {
      SortStable(leq, Ties(leq, x), a);
      SortStable(leq, Ties(leq, x), b);
    }
    SortSorts(leq, a);
    SortSorts(leq, b);
    if SameTies(leq, a, b) {
      SortedTiesUnique(leq, Sort(leq, a), Sort(leq, b));
    }
  }
}
