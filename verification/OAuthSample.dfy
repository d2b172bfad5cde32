/** An environment that satisfies the laws of the flow codec, and a cookie it raises on. */
module OAuthSample {
  import opened Options
  import opened Base64Url
  import opened OAuthFlow

  // ----- a small text format for payloads -----

  /** A character is three bytes behind a 1; a 0 ends the text. */
  function CharBytes(c: char): seq<Byte> {
    [1, c as int / 0x1_0000, c as int / 0x100 % 0x100, c as int % 0x100]
  }

  function Write(s: string): seq<Byte> {
    if s == "" then [0] else CharBytes(s[0]) + Write(s[1..])
  }

  function Code(x: int, y: int, z: int): int { x * 0x1_0000 + y * 0x100 + z }

  predicate IsCharCode(n: int) { 0 <= n < 0xD800 || 0xE000 <= n < 0x11_0000 }

  datatype Parsed<T> = Failed | Parsed(value: T, rest: seq<Byte>)

  function Read(b: seq<Byte>): Parsed<string> {
    if b == [] then Failed
    else if b[0] == 0 then Parsed("", b[1..])
    else if |b| < 4 || !IsCharCode(Code(b[1], b[2], b[3])) then Failed
    else
      match Read(b[4..])
      case Failed => Failed
      case Parsed(text, rest) => Parsed([Code(b[1], b[2], b[3]) as char] + text, rest)
  }

  lemma CodeOfChar(c: char)
    ensures Code(c as int / 0x1_0000, c as int / 0x100 % 0x100, c as int % 0x100) == c as int
  {
  }

  lemma ReadOneMore(c: char, text: seq<Byte>, s: string, rest: seq<Byte>)
    requires Read(text) == Parsed(s, rest)
    ensures Read(CharBytes(c) + text) == Parsed([c] + s, rest)
  {
    CodeOfChar(c);
    assert (CharBytes(c) + text)[4..] == text;
  }

  lemma Front<T>(s: seq<T>, a: seq<Byte>, b: seq<Byte>, rest: seq<Byte>)
    requires s != []
    ensures [s[0]] + s[1..] == s && (a + b) + rest == a + (b + rest)
  {
  }

  lemma {:induction false} ReadWrite(s: string, rest: seq<Byte>)
    ensures Read(Write(s) + rest) == Parsed(s, rest)
    decreases |s|
  {
    if s == "" {
      assert ([0] + rest)[1..] == rest;
    } else {
      ReadWrite(s[1..], rest);
      ReadOneMore(s[0], Write(s[1..]) + rest, s[1..], rest);
      Front(s, CharBytes(s[0]), Write(s[1..]), rest);
    }
  }

  function WriteAll(texts: seq<string>): seq<Byte> {
    if texts == [] then [] else Write(texts[0]) + WriteAll(texts[1..])
  }

  function ReadAll(n: nat, b: seq<Byte>): (r: Parsed<seq<string>>)
    ensures r.Parsed? ==> |r.value| == n
  {
    if n == 0 then Parsed([], b)
    else
      match Read(b)
      case Failed => Failed
      case Parsed(text, rest) =>
        match ReadAll(n - 1, rest)
        case Failed => Failed
        case Parsed(texts, end) => Parsed([text] + texts, end)
  }

  lemma {:induction false} ReadAllWriteAll(texts: seq<string>, rest: seq<Byte>)
    ensures ReadAll(|texts|, WriteAll(texts) + rest) == Parsed(texts, rest)
    decreases |texts|
  {
    if texts == [] {
      assert WriteAll(texts) + rest == rest;
    } else {
      ReadAllWriteAll(texts[1..], rest);
      ReadWrite(texts[0], WriteAll(texts[1..]) + rest);
      Front(texts, Write(texts[0]), WriteAll(texts[1..]), rest);
    }
  }

  // ----- the environment -----

  function TextOf(m: map<string, Json>, key: string): string {
    if Get(m, key).JString? then Get(m, key).text else ""
  }

  function Texts(m: map<string, Json>): seq<string> {
    [TextOf(m, "state"), TextOf(m, "mode"), TextOf(m, "redirect_path"), TextOf(m, "user_id")]
  }

  /** Four texts behind an opening brace; the last byte says whether there is a user. */
  function Dumps(m: map<string, Json>): seq<Byte> {
    [123] + (WriteAll(Texts(m)) + [if Get(m, "user_id").JString? then 1 else 0])
  }

  function Fields(texts: seq<string>, user: bool): map<string, Json>
    requires |texts| == 4
  {
    map["state" := JString(texts[0]), "mode" := JString(texts[1]), "redirect_path" := JString(texts[2]),
        "user_id" := if user then JString(texts[3]) else JNull]
  }

  /** Reads what `Dumps` writes, and `[]`. */
  function Loads(b: seq<Byte>): Option<Json> {
    if b == [91, 93] then Some(JOther)
    else if b == [] || b[0] != 123 then None
    else
      match ReadAll(4, b[1..])
      case Failed => None
      case Parsed(texts, rest) => Some(JObject(Fields(texts, rest == [1])))
  }

  function Sign(s: string): string { "signature" }

  function NoText(s: string): Option<seq<Byte>> { None }

  const ENV := Env(Sign, Dumps, Loads, NoText)

  lemma LoadsDumps(f: Flow)
    ensures Loads(Dumps(Payload(f))) == Some(JObject(Payload(f)))
  {
    var m := Payload(f);
    var user: seq<Byte> := [if Get(m, "user_id").JString? then 1 else 0];
    ReadAllWriteAll(Texts(m), user);
    assert Dumps(m)[1..] == WriteAll(Texts(m)) + user;
    assert Fields(Texts(m), user == [1]) == m;
  }

  /** The laws can be met, and a signed `[]` raises. */
  lemma SignedListRaises()
    ensures Lawful(ENV)
    ensures DecodeFlow(ENV, Some(Signed(ENV, [91, 93]))) == AttributeError
  {
    forall f: Flow ensures ENV.loads(ENV.dumps(Payload(f))) == Some(JObject(Payload(f))) {
      LoadsDumps(f);
    }
    SignedRaises(ENV, [91, 93], Flow("", "", "", None));
  }
}
