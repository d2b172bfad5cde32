/** URL-safe base64 (section 5 of RFC 4648) and dropping its padding (section 3.2). */
module Base64Url {
  import opened Options

  type Byte = n: int | 0 <= n < 256
  type Sextet = n: int | 0 <= n < 64

  function Digit(n: Sextet): (c: char)
    ensures IsDigit(c) && Value(c) == n
  {
    if n < 26 then 'A' + n as char
    else if n < 52 then 'a' + (n - 26) as char
    else if n < 62 then '0' + (n - 52) as char
    else if n == 62 then '-' else '_'
  }

  predicate IsDigit(c: char) {
    'A' <= c <= 'Z' || 'a' <= c <= 'z' || '0' <= c <= '9' || c == '-' || c == '_'
  }

  function Value(c: char): Sextet
    requires IsDigit(c)
  {
    if 'A' <= c <= 'Z' then c as int - 'A' as int
    else if 'a' <= c <= 'z' then c as int - 'a' as int + 26
    else if '0' <= c <= '9' then c as int - '0' as int + 52
    else if c == '-' then 62 else 63
  }

  /** Three bytes and four sextets carry the same 24 bits. */
  lemma Regroup(x: Byte, y: Byte, z: Byte)
    ensures x / 4 * 4 + (x % 4 * 16 + y / 16) / 16 == x
    ensures (x % 4 * 16 + y / 16) % 16 * 16 + (y % 16 * 4 + z / 64) / 4 == y
    ensures (y % 16 * 4 + z / 64) % 4 * 64 + z % 64 == z
  {
    assert (x % 4 * 16 + y / 16) / 16 == x % 4;
    assert (y % 16 * 4 + z / 64) / 4 == y % 16;
  }

  /** `base64.urlsafe_b64encode`. */
  function Encode(b: seq<Byte>): string {
    if |b| == 0 then ""
    else if |b| == 1 then [Digit(b[0] / 4), Digit(b[0] % 4 * 16), '=', '=']
    else if |b| == 2 then [Digit(b[0] / 4), Digit(b[0] % 4 * 16 + b[1] / 16), Digit(b[1] % 16 * 4), '=']
    else Group(b[0], b[1], b[2]) + Encode(b[3..])
  }

  /** Three bytes as four digits. */
  function Group(x: Byte, y: Byte, z: Byte): string {
    [Digit(x / 4), Digit(x % 4 * 16 + y / 16), Digit(y % 16 * 4 + z / 64), Digit(z % 64)]
  }

  /** Decoding of text made of whole groups of digits, the last one padded or not.  Spare
      bits of a padded group are dropped unseen. */
  function Decode(s: string): Option<seq<Byte>> {
    if s == "" then Some([])
    else if |s| < 4 || !IsDigit(s[0]) || !IsDigit(s[1]) then None
    else if |s| == 4 && s[2] == '=' && s[3] == '=' then
      Some([Value(s[0]) * 4 + Value(s[1]) / 16])
    else if !IsDigit(s[2]) then None
    else if |s| == 4 && s[3] == '=' then
      Some([Value(s[0]) * 4 + Value(s[1]) / 16, Value(s[1]) % 16 * 16 + Value(s[2]) / 4])
    else if !IsDigit(s[3]) then None
    else
      match Decode(s[4..])
      case None => None
      case Some(rest) =>
        Some([Value(s[0]) * 4 + Value(s[1]) / 16, Value(s[1]) % 16 * 16 + Value(s[2]) / 4,
              Value(s[2]) % 4 * 64 + Value(s[3])] + rest)
  }

  lemma DecodeGroup(x: Byte, y: Byte, z: Byte, text: string, rest: seq<Byte>)
    requires Decode(text) == Some(rest)
    ensures
      Decode([Digit(x / 4), Digit(x % 4 * 16 + y / 16), Digit(y % 16 * 4 + z / 64), Digit(z % 64)] + text)
      == Some([x, y, z] + rest)
  {
    var s := [Digit(x / 4), Digit(x % 4 * 16 + y / 16), Digit(y % 16 * 4 + z / 64), Digit(z % 64)] + text;
    Regroup(x, y, z);
    assert s[4..] == text;
  }

  lemma DecodeOneByte(x: Byte)
    ensures Decode([Digit(x / 4), Digit(x % 4 * 16), '=', '=']) == Some([x])
  {
    Regroup(x, 0, 0);
  }

  lemma DecodeTwoBytes(x: Byte, y: Byte)
    ensures Decode([Digit(x / 4), Digit(x % 4 * 16 + y / 16), Digit(y % 16 * 4), '=']) == Some([x, y])
  {
    Regroup(x, y, 0);
  }

  lemma {:induction false} DecodeShort(b: seq<Byte>)
    requires |b| < 3
    ensures Decode(Encode(b)) == Some(b)
  {
    if |b| == 1 {
      DecodeOneByte(b[0]);
      assert b == [b[0]];
    } else if |b| == 2 {
      DecodeTwoBytes(b[0], b[1]);
      assert b == [b[0], b[1]];
    }
  }

  lemma {:induction false} DecodeEncode(b: seq<Byte>)
    ensures Decode(Encode(b)) == Some(b)
    decreases |b|
  {
    if |b| < 3 {
      DecodeShort(b);
    } else {
      DecodeEncode(b[3..]);
      DecodeGroup(b[0], b[1], b[2], Encode(b[3..]), b[3..]);
      assert b == [b[0], b[1], b[2]] + b[3..];
    }
  }

  /** `s.rstrip("=")`. */
  function Unpad(s: string): (r: string)
    ensures r <= s && (r != "" ==> r[|r| - 1] != '=')
    ensures forall i | |r| <= i < |s| :: s[i] == '='
  {
    if s != "" && s[|s| - 1] == '=' then Unpad(s[..|s| - 1]) else s
  }

  /** `"=" * (-len(s) % 4)`. */
  function Padding(s: string): string { seq((4 - |s| % 4) % 4, _ => '=') }

  /** The digits of the encoding. */
  function Body(b: seq<Byte>): (s: string)
    ensures forall c | c in s :: IsDigit(c)
  {
    if |b| == 0 then ""
    else if |b| == 1 then [Digit(b[0] / 4), Digit(b[0] % 4 * 16)]
    else if |b| == 2 then [Digit(b[0] / 4), Digit(b[0] % 4 * 16 + b[1] / 16), Digit(b[1] % 16 * 4)]
    else
      [Digit(b[0] / 4), Digit(b[0] % 4 * 16 + b[1] / 16), Digit(b[1] % 16 * 4 + b[2] / 64), Digit(b[2] % 64)]
      + Body(b[3..])
  }

  lemma PaddingOfLength(s: string, t: string)
    requires |s| == |t| + 4
    ensures Padding(s) == Padding(t)
  {
    assert |s| % 4 == |t| % 4;
  }

  /** Encoded text is its digits, padded to a multiple of four. */
  lemma {:induction false} EncodeIsPadded(b: seq<Byte>)
    ensures Encode(b) == Body(b) + Padding(Body(b))
    decreases |b|
  {
    if |b| == 0 {
    } else if |b| == 1 {
      assert Padding(Body(b)) == "==";
    } else if |b| == 2 {
      assert Padding(Body(b)) == "=";
    } else {
      EncodeIsPadded(b[3..]);
      PaddingOfLength(Body(b), Body(b[3..]));
    }
  }

  lemma {:induction false} UnpadPads(s: string, pads: string)
    requires s != "" ==> s[|s| - 1] != '='
    requires forall i | 0 <= i < |pads| :: pads[i] == '='
    ensures Unpad(s + pads) == s
    decreases |pads|
  {
    if pads == "" {
      assert s + pads == s;
    } else {
      var rest := pads[..|pads| - 1];
      UnpadPads(s, rest);
      assert (s + pads)[..|s + pads| - 1] == s + rest;
    }
  }

  /** Restoring the padding undoes stripping it. */
  lemma {:induction false} PadUnpad(b: seq<Byte>)
    ensures Unpad(Encode(b)) == Body(b)
    ensures Unpad(Encode(b)) + Padding(Unpad(Encode(b))) == Encode(b)
  {
    EncodeIsPadded(b);
    var s := Body(b);
    assert s != "" ==> s[|s| - 1] in s;
    UnpadPads(s, Padding(s));
  }

  // ----- the alphabet and the layout -----

  /** The URL-safe alphabet, in order (table 2 of RFC 4648). */
  const UPPER := "ABCDEFGHIJKLMNOPQRSTUVWXYZ"
  const LOWER := "abcdefghijklmnopqrstuvwxyz"
  const DIGITS := "0123456789"
  const ALPHABET := UPPER + LOWER + DIGITS + "-_"

  lemma UpperIs(n: nat)
    requires n < 26
    ensures UPPER[n] == 'A' + n as char
  {
    assert UPPER[..13] == "ABCDEFGHIJKLM" && UPPER[13..] == "NOPQRSTUVWXYZ";
    if n < 13 {
      assert UPPER[..13][n] == 'A' + n as char;
    } else {
      assert UPPER[13..][n - 13] == 'A' + n as char;
    }
  }

  lemma LowerIs(n: nat)
    requires n < 26
    ensures LOWER[n] == 'a' + n as char
  {
    assert LOWER[..13] == "abcdefghijklm" && LOWER[13..] == "nopqrstuvwxyz";
    if n < 13 {
      assert LOWER[..13][n] == 'a' + n as char;
    } else {
      assert LOWER[13..][n - 13] == 'a' + n as char;
    }
  }

  lemma DigitsAre(n: Sextet)
    ensures |ALPHABET| == 64 && Digit(n) == ALPHABET[n]
  {
    if n < 26 {
      UpperIs(n);
    } else if n < 52 {
      LowerIs(n - 26);
    } else if n < 62 {
      assert DIGITS[n - 52] == '0' + (n - 52) as char;
    }
  }

  /** Four digits that write a number of 24 bits, the highest first. */
  predicate Spells(text: string, number: int) {
    exists p: Sextet, q: Sextet, r: Sextet, s: Sextet ::
      text == [ALPHABET[p], ALPHABET[q], ALPHABET[r], ALPHABET[s]] && ((p * 64 + q) * 64 + r) * 64 + s == number
  }

  lemma Bits(x: Byte, y: Byte, z: Byte)
    ensures ((x / 4 * 64 + (x % 4 * 16 + y / 16)) * 64 + (y % 16 * 4 + z / 64)) * 64 + z % 64
            == x * 65536 + y * 256 + z
  {
  }

  /** Three bytes are written as one number of 24 bits. */
  lemma GroupSpells(x: Byte, y: Byte, z: Byte)
    ensures Spells(Group(x, y, z), x * 65536 + y * 256 + z)
  {
    var p, q, r, s := x / 4, x % 4 * 16 + y / 16, y % 16 * 4 + z / 64, z % 64;
    DigitsAre(p);
    DigitsAre(q);
    DigitsAre(r);
    DigitsAre(s);
    Bits(x, y, z);
    assert Group(x, y, z) == [ALPHABET[p], ALPHABET[q], ALPHABET[r], ALPHABET[s]];
  }
}
