/** Python string operations on sequences of characters. */
module Text {

  /** The characters `str.strip` removes. */
  predicate IsSpace(c: char) {
    var n := c as int;
    9 <= n <= 13 || 28 <= n <= 32 || n == 0x85 || n == 0xA0 || n == 0x1680 || 0x2000 <= n <= 0x200A
    || n == 0x2028 || n == 0x2029 || n == 0x202F || n == 0x205F || n == 0x3000
  }

  function LStrip(s: string): (r: string)
    ensures |r| <= |s| && (forall c | c in r :: c in s)
    ensures r != "" ==> !IsSpace(r[0]) && r[|r| - 1] == s[|s| - 1]
  {
    if s != "" && IsSpace(s[0]) then LStrip(s[1..]) else s
  }

  function RStrip(s: string): (r: string)
    ensures r <= s
    ensures r != "" ==> !IsSpace(r[|r| - 1]) && r[0] == s[0]
  {
    if s != "" && IsSpace(s[|s| - 1]) then RStrip(s[..|s| - 1]) else s
  }

  function Strip(s: string): (r: string)
    ensures Stripped(r)
    ensures Stripped(s) ==> r == s
    ensures |r| <= |s| && (forall c | c in r :: c in s)
  {
    RStrip(LStrip(s))
  }

  predicate Stripped(s: string) { s != "" ==> !IsSpace(s[0]) && !IsSpace(s[|s| - 1]) }

  /** `s.split(c)` for a single separator character. */
  function Split(s: string, c: char): (parts: seq<string>)
    ensures parts != []
    ensures forall p | p in parts :: c !in p
  {
    if s == "" then [""]
    else
      var rest := Split(s[1..], c);
      if s[0] == c then [""] + rest else [[s[0]] + rest[0]] + rest[1..]
  }

  /** `c.join(parts)`. */
  function Join(parts: seq<string>, c: char): string {
    if parts == [] then ""
    else if |parts| == 1 then parts[0]
    else parts[0] + [c] + Join(parts[1..], c)
  }

  lemma {:induction false} SplitAppend(a: string, b: string, c: char)
    ensures Split(a + [c] + b, c) == Split(a, c) + Split(b, c)
    decreases |a|
  {
    if a == "" {
      assert a + [c] + b == [c] + b;
      assert ([c] + b)[1..] == b;
    } else {
      assert (a + [c] + b)[1..] == a[1..] + [c] + b;
      SplitAppend(a[1..], b, c);
    }
  }

  lemma {:induction false} SplitPlain(a: string, c: char)
    requires c !in a
    ensures Split(a, c) == [a]
    decreases |a|
  {
    if a == "" {
    } else {
      SplitPlain(a[1..], c);
      assert [a[0]] + a[1..] == a;
    }
  }

  /** Splitting undoes joining for parts without the separator. */
  lemma {:induction false} SplitJoin(parts: seq<string>, c: char)
    requires parts != [] && forall p | p in parts :: c !in p
    ensures Split(Join(parts, c), c) == parts
    decreases |parts|
  {
    SplitPlain(parts[0], c);
    if |parts| > 1 {
      SplitAppend(parts[0], Join(parts[1..], c), c);
      SplitJoin(parts[1..], c);
    }
  }

  /** The text before and after the last `c`, as `rsplit(c, 1)` gives them. */
  datatype Halves = NoSeparator | Halves(before: string, after: string)

  function SplitLast(s: string, c: char): (h: Halves)
    ensures h.NoSeparator? <==> c !in s
    ensures h.Halves? ==> s == h.before + [c] + h.after && c !in h.after
  {
    if s == "" then NoSeparator
    else if s[|s| - 1] == c then Halves(s[..|s| - 1], "")
    else
      assert s == s[..|s| - 1] + [s[|s| - 1]];
      match SplitLast(s[..|s| - 1], c)
      case NoSeparator => NoSeparator
      case Halves(before, after) => Halves(before, after + [s[|s| - 1]])
  }

  /** There is one way to split at the last separator. */
  lemma {:induction false} SplitLastOf(before: string, c: char, after: string)
    requires c !in after
    ensures SplitLast(before + [c] + after, c) == Halves(before, after)
  {
    var s := before + [c] + after;
    assert s[|before|] == c;
    var h := SplitLast(s, c);
    assert forall i | |before| < i < |s| :: s[i] == after[i - |before| - 1];
    assert forall i | |h.before| < i < |s| :: s[i] == h.after[i - |h.before| - 1];
    assert s[|h.before|] == c && |h.before| == |before|;
    assert h.before == s[..|before|] && h.after == s[|before| + 1..];
  }

  // ----- what stripping and splitting are -----

  /** The code points Python takes for white space, one by one. */
  const SPACES: set<int> := {
    9, 10, 11, 12, 13, 28, 29, 30, 31, 32, 133, 160, 5760, 8192, 8193, 8194, 8195, 8196, 8197, 8198,
    8199, 8200, 8201, 8202, 8232, 8233, 8239, 8287, 12288}

  lemma SpaceIff(c: char)
    ensures IsSpace(c) <==> c as int in SPACES
  {
  }

  /** `r` is `s` without some white space at both ends. */
  predicate IsTrimmed(s: string, r: string, i: nat, j: nat) {
    && i <= j <= |s| && r == s[i..j]
    && (forall k | 0 <= k < i :: IsSpace(s[k])) && (forall k | j <= k < |s| :: IsSpace(s[k]))
  }

  lemma {:induction false} LStripIs(s: string) returns (i: nat)
    ensures i <= |s| && LStrip(s) == s[i..] && forall k | 0 <= k < i :: IsSpace(s[k])
    decreases |s|
  {
    if s != "" && IsSpace(s[0]) {
      var rest := LStripIs(s[1..]);
      i := rest + 1;
      assert forall k | 1 <= k < i :: s[k] == s[1..][k - 1];
    } else {
      i := 0;
    }
  }

  lemma {:induction false} RStripIs(s: string) returns (j: nat)
    ensures j <= |s| && RStrip(s) == s[..j] && forall k | j <= k < |s| :: IsSpace(s[k])
    decreases |s|
  {
    if s != "" && IsSpace(s[|s| - 1]) {
      j := RStripIs(s[..|s| - 1]);
    } else {
      j := |s|;
    }
  }

  /** Stripping removes all white space at both ends and nothing else. */
  lemma StripIs(s: string)
    ensures Stripped(Strip(s)) && exists i, j :: IsTrimmed(s, Strip(s), i, j)
  {
    var i := LStripIs(s);
    var j := RStripIs(s[i..]);
    assert forall k | j <= k < |s| - i :: s[i..][k] == s[i + k];
    assert forall k | i + j <= k < |s| :: s[k] == s[i..][k - i];
    assert IsTrimmed(s, Strip(s), i, i + j);
  }

  /** Joining undoes splitting: no character is lost, added or moved. */
  lemma {:induction false} JoinSplit(s: string, c: char)
    ensures Join(Split(s, c), c) == s
    decreases |s|
  {
    if s == "" {
    } else {
      JoinSplit(s[1..], c);
      var rest := Split(s[1..], c);
      if s[0] == c {
        assert ([""] + rest)[1..] == rest;
        assert s == [c] + s[1..];
      } else {
        JoinFront(s[0], rest, c);
        assert s == [s[0]] + s[1..];
      }
    }
  }

  lemma JoinFront(x: char, parts: seq<string>, c: char)
    requires parts != []
    ensures Join([[x] + parts[0]] + parts[1..], c) == [x] + Join(parts, c)
  {
    var longer := [[x] + parts[0]] + parts[1..];
    assert longer[1..] == parts[1..];
  }
}
