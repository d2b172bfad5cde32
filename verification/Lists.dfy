/** Order-preserving removal of duplicates, as `dict.fromkeys` does it. */
module Lists {

  /** The first occurrence of each element, in order. */
  function Dedup<T(==)>(s: seq<T>): (r: seq<T>)
    ensures (forall x | x in r :: x in s) && (forall x | x in s :: x in r)
    ensures forall i, j :: 0 <= i < j < |r| ==> r[i] != r[j]
    ensures |r| <= |s|
  {
    if s == [] then []
    else
      var front := Dedup(s[..|s| - 1]);
      assert s == s[..|s| - 1] + [s[|s| - 1]];
      if s[|s| - 1] in front then front else front + [s[|s| - 1]]
  }

  predicate Distinct<T(==)>(s: seq<T>) {
    forall i, j :: 0 <= i < j < |s| ==> s[i] != s[j]
  }

  /** The number of positions of `s` before the first occurrence of `x`. */
  function FirstIndex<T(==)>(s: seq<T>, x: T): (i: nat)
    requires x in s
    ensures i < |s| && s[i] == x && x !in s[..i]
  {
    if s[0] == x then 0
    else
      assert x in s[1..];
      var i := FirstIndex(s[1..], x) + 1;
      assert s[..i] == [s[0]] + s[1..][..i - 1];
      i
  }

  /** A list without repetitions is left as it is. */
  lemma {:induction false} DedupDistinct<T>(s: seq<T>)
    requires Distinct(s)
    ensures Dedup(s) == s
    decreases |s|
  {
    if s == [] {
    } else {
      var front := s[..|s| - 1];
      DedupDistinct(front);
      assert s == front + [s[|s| - 1]];
    }
  }

  /** Elements stay in the order of their first occurrences. */
  lemma {:induction false} DedupKeepsOrder<T>(s: seq<T>, x: T, y: T)
    requires x in s && y in s
    ensures FirstIndex(s, x) < FirstIndex(s, y) <==> FirstIndex(Dedup(s), x) < FirstIndex(Dedup(s), y)
    decreases |s|
  {
    var front, last := s[..|s| - 1], s[|s| - 1];
    assert s == front + [last];
    var d := Dedup(front);
    forall z | z in s ensures FirstIndex(s, z) == if z in front then FirstIndex(front, z) else |front| {
      FirstIndexAppend(front, last, z);
    }
    forall z | z in s ensures FirstIndex(Dedup(s), z) == if z in front then FirstIndex(d, z) else |d| {
      FirstIndexAppend(d, last, z);
    }
    if x in front && y in front {
      DedupKeepsOrder(front, x, y);
    }
  }

  lemma {:induction false} FirstIndexAppend<T>(s: seq<T>, last: T, x: T)
    requires x in s || x == last
    ensures FirstIndex(s + [last], x) == if x in s then FirstIndex(s, x) else |s|
    decreases |s|
  {
    if s == [] {
    } else if s[0] == x {
    } else {
      assert (s + [last])[1..] == s[1..] + [last];
      FirstIndexAppend(s[1..], last, x);
    }
  }
}
