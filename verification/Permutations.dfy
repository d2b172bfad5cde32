/** Sequences up to order. */
module Permutations {
  import opened Lists

  function Map<T, U>(f: T -> U, s: seq<T>): (r: seq<U>)
    ensures |r| == |s| && forall i | 0 <= i < |s| :: r[i] == f(s[i])
  {
    if s == [] then [] else [f(s[0])] + Map(f, s[1..])
  }

  function Filter<T>(p: T -> bool, s: seq<T>): (r: seq<T>)
    ensures (forall x | x in r :: x in s && p(x)) && (forall x | x in s && p(x) :: x in r)
    ensures |r| <= |s|
  {
    if s == [] then []
    else if p(s[0]) then [s[0]] + Filter(p, s[1..]) else Filter(p, s[1..])
  }

  function Count<T>(p: T -> bool, s: seq<T>): nat { |Filter(p, s)| }

  lemma {:induction false} FilterAppend<T>(p: T -> bool, a: seq<T>, b: seq<T>)
    ensures Filter(p, a + b) == Filter(p, a) + Filter(p, b)
    decreases |a|
  {
    if a == [] {
      assert a + b == b;
    } else {
      assert (a + b)[1..] == a[1..] + b;
      FilterAppend(p, a[1..], b);
    }
  }

  lemma {:induction false} MapAppend<T, U>(f: T -> U, a: seq<T>, b: seq<T>)
    ensures Map(f, a + b) == Map(f, a) + Map(f, b)
    decreases |a|
  {
    if a == [] {
      assert a + b == b;
    } else {
      assert (a + b)[1..] == a[1..] + b;
      MapAppend(f, a[1..], b);
    }
  }

  /** The places that satisfy the predicate. */
  function Places<T>(p: T -> bool, s: seq<T>): set<int> { set i | 0 <= i < |s| && p(s[i]) }

  lemma PlacesOneMore<T>(p: T -> bool, s: seq<T>, last: T)
    ensures Places(p, s + [last]) == Places(p, s) + (if p(last) then {|s|} else {})
  {
    forall i | 0 <= i < |s| ensures (s + [last])[i] == s[i] {
    }
  }

  lemma CountOneMore<T>(p: T -> bool, s: seq<T>, last: T)
    ensures Count(p, s + [last]) == Count(p, s) + (if p(last) then 1 else 0)
  {
    FilterAppend(p, s, [last]);
  }

  /** A count is the number of places that satisfy the predicate. */
  lemma {:induction false} CountIs<T>(p: T -> bool, s: seq<T>)
    ensures Count(p, s) == |Places(p, s)|
    decreases |s|
  {
    if s == [] {
      assert Places(p, s) == {};
    } else {
      var n := |s| - 1;
      CountIs(p, s[..n]);
      CountOneMore(p, s[..n], s[n]);
      PlacesOneMore(p, s[..n], s[n]);
      assert s == s[..n] + [s[n]];
    }
  }

  lemma {:induction false} AllCounted<T>(p: T -> bool, s: seq<T>)
    requires forall x | x in s :: p(x)
    ensures Count(p, s) == |s|
    decreases |s|
  {
    if s == [] {
    } else {
      AllCounted(p, s[1..]);
    }
  }

  lemma {:induction false} Complement<T>(p: T -> bool, q: T -> bool, s: seq<T>)
    requires forall x | x in s :: p(x) <==> !q(x)
    ensures Count(p, s) + Count(q, s) == |s|
    decreases |s|
  {
    if s == [] {
    } else {
      Complement(p, q, s[1..]);
    }
  }

  lemma SplitCount<T>(p: T -> bool, s: seq<T>, k: nat)
    requires k <= |s|
    ensures Count(p, s) == Count(p, s[..k]) + Count(p, s[k..])
  {
    FilterAppend(p, s[..k], s[k..]);
    assert s == s[..k] + s[k..];
  }

  lemma PrefixCounted<T>(p: T -> bool, s: seq<T>, k: nat)
    requires k <= |s| && forall i | 0 <= i < k :: p(s[i])
    ensures Count(p, s) >= k
  {
    SplitCount(p, s, k);
    AllCounted(p, s[..k]);
  }

  lemma SuffixCounted<T>(p: T -> bool, s: seq<T>, k: nat)
    requires k <= |s| && forall i | k <= i < |s| :: p(s[i])
    ensures Count(p, s) >= |s| - k
  {
    SplitCount(p, s, k);
    AllCounted(p, s[k..]);
  }

  lemma PrefixNotCounted<T>(p: T -> bool, s: seq<T>, k: nat)
    requires k <= |s| && forall i | 0 <= i < k :: !p(s[i])
    ensures Count(p, s) <= |s| - k
  {
    SplitCount(p, s, k);
    NoneCounted(p, s[..k]);
  }

  lemma SuffixNotCounted<T>(p: T -> bool, s: seq<T>, k: nat)
    requires k <= |s| && forall i | k <= i < |s| :: !p(s[i])
    ensures Count(p, s) <= k
  {
    SplitCount(p, s, k);
    NoneCounted(p, s[k..]);
  }

  /** Predicates that agree on the elements select the same. */
  lemma {:induction false} FilterBy<T>(p: T -> bool, q: T -> bool, s: seq<T>)
    requires forall x | x in s :: p(x) == q(x)
    ensures Filter(p, s) == Filter(q, s)
    decreases |s|
  {
    if s == [] {
    } else {
      FilterBy(p, q, s[1..]);
    }
  }

  lemma {:induction false} FilterTwice<T>(p: T -> bool, q: T -> bool, both: T -> bool, s: seq<T>)
    requires forall x | x in s :: both(x) <==> p(x) && q(x)
    ensures Filter(q, Filter(p, s)) == Filter(both, s)
    decreases |s|
  {
    if s == [] {
    } else {
      FilterTwice(p, q, both, s[1..]);
    }
  }

  lemma {:induction false} FilterMultiplicity<T>(p: T -> bool, s: seq<T>, x: T)
    ensures multiset(Filter(p, s))[x] == if p(x) then multiset(s)[x] else 0
    decreases |s|
  {
    if s == [] {
    } else {
      FilterMultiplicity(p, s[1..], x);
      assert s == [s[0]] + s[1..];
    }
  }

  lemma CountPermutes<T(!new)>(p: T -> bool, a: seq<T>, b: seq<T>)
    requires multiset(a) == multiset(b)
    ensures Count(p, a) == Count(p, b)
  {
    forall x ensures multiset(Filter(p, a))[x] == multiset(Filter(p, b))[x] {
      FilterMultiplicity(p, a, x);
      FilterMultiplicity(p, b, x);
    }
    assert multiset(Filter(p, a)) == multiset(Filter(p, b));
    assert |multiset(Filter(p, a))| == |Filter(p, a)| && |multiset(Filter(p, b))| == |Filter(p, b)|;
  }

  lemma {:induction false} MapMultiplicity<T, U>(f: T -> U, s: seq<T>, y: U)
    ensures multiset(Map(f, s))[y] == Count((x: T) => f(x) == y, s)
    decreases |s|
  {
    if s == [] {
    } else {
      MapMultiplicity(f, s[1..], y);
    }
  }

  lemma {:induction false} MapPermutes<T(!new), U(!new)>(f: T -> U, a: seq<T>, b: seq<T>)
    requires multiset(a) == multiset(b)
    ensures multiset(Map(f, a)) == multiset(Map(f, b))
  {
    forall y ensures multiset(Map(f, a))[y] == multiset(Map(f, b))[y] {
      MapMultiplicity(f, a, y);
      MapMultiplicity(f, b, y);
      CountPermutes((x: T) => f(x) == y, a, b);
    }
  }

  lemma {:induction false} DistinctMultiplicity<T>(s: seq<T>, x: T)
    requires Distinct(s)
    ensures multiset(s)[x] == if x in s then 1 else 0
    decreases |s|
  {
    if s == [] {
    } else {
      DistinctMultiplicity(s[1..], x);
      assert s == [s[0]] + s[1..];
    }
  }

  /** Without repetitions the elements decide. */
  lemma SameElements<T(!new)>(a: seq<T>, b: seq<T>)
    requires Distinct(a) && Distinct(b) && forall x :: x in a <==> x in b
    ensures multiset(a) == multiset(b)
  {
    forall x ensures multiset(a)[x] == multiset(b)[x] {
      DistinctMultiplicity(a, x);
      DistinctMultiplicity(b, x);
    }
  }

  lemma NoneCounted<T>(p: T -> bool, s: seq<T>)
    ensures Count(p, s) == 0 <==> forall x | x in s :: !p(x)
  {
    if Count(p, s) != 0 {
      assert Filter(p, s)[0] in Filter(p, s);
    } else {
      assert forall x | x in s && p(x) :: x in Filter(p, s);
    }
  }
}
