/** The signed cookie that carries an OAuth flow. */
module OAuthFlow {
  import opened Options
  import opened Text
  import opened Base64Url

  datatype Flow = Flow(state: string, mode: string, redirectPath: string, userId: Option<string>)

  datatype Json = JString(text: string) | JNull | JObject(fields: map<string, Json>) | JOther

  /** What the codec takes from elsewhere: the keyed HMAC in hex, JSON, and how the base64
      decoder treats text that is not made of whole groups of digits. */
  datatype Env = Env(
    sign: string -> string,
    dumps: map<string, Json> -> seq<Byte>,
    loads: seq<Byte> -> Option<Json>,
    lenient: string -> Option<seq<Byte>>)

  ghost predicate Lawful(e: Env) {
    && (forall f :: e.loads(e.dumps(Payload(f))) == Some(JObject(Payload(f))))
    && (forall s :: '.' !in e.sign(s))
  }

  datatype Decoded = Accepted(flow: Flow) | Rejected | AttributeError

  // ----- redirect paths -----

  predicate Forbidden(s: string) {
    || !("/" <= s) || "//" <= s
    || '\\' in s || exists c | c in s :: c as int < 32
  }

  function SafeRedirectPath(path: Option<string>): string {
    if path.None? || path.value == "" then "/"
    else
      var candidate := Strip(path.value);
      if Forbidden(candidate) then "/" else candidate
  }

  /** One leading slash, no backslash, no control character, no surrounding space. */
  predicate IsSafe(path: string) { !Forbidden(path) && Stripped(path) }

  /** The result is always safe, and the safe paths are exactly those left as they are. */
  lemma SafeIffUnchanged(path: string)
    ensures IsSafe(SafeRedirectPath(Some(path)))
    ensures SafeRedirectPath(Some(path)) == path <==> IsSafe(path)
    ensures SafeRedirectPath(Some(SafeRedirectPath(Some(path)))) == SafeRedirectPath(Some(path))
  {
    assert IsSafe("/");
  }

  /** A path inside the site: one slash in front, no backslash and no control character. */
  predicate InsideSite(s: string) {
    && s != "" && s[0] == '/' && (|s| > 1 ==> s[1] != '/')
    && (forall i | 0 <= i < |s| :: s[i] != '\\' && s[i] as int >= 32)
  }

  lemma InsideIff(s: string)
    ensures InsideSite(s) <==> !Forbidden(s)
  {
    assert "//" <= s <==> |s| > 1 && s[0] == '/' && s[1] == '/';
    if InsideSite(s) {
      assert forall c | c in s :: c as int >= 32;
    }
    assert forall i | 0 <= i < |s| :: s[i] in s;
  }

  /** The path without surrounding white space if that is inside the site, else the root. */
  lemma RedirectIs(path: Option<string>)
    ensures InsideSite(SafeRedirectPath(path)) && Stripped(SafeRedirectPath(path))
    ensures path.None? ==> SafeRedirectPath(path) == "/"
    ensures path.Some? ==>
      SafeRedirectPath(path) == if InsideSite(Strip(path.value)) then Strip(path.value) else "/"
  {
    InsideIff("/");
    if path.Some? {
      InsideIff(Strip(path.value));
    }
  }

  // ----- the codec -----

  function Payload(f: Flow): map<string, Json> {
    map["state" := JString(f.state),
        "mode" := JString(f.mode),
        "redirect_path" := JString(SafeRedirectPath(Some(f.redirectPath))),
        "user_id" := if f.userId.Some? then JString(f.userId.value) else JNull]
  }

  /** Some JSON text as a signed cookie. */
  function Signed(e: Env, bytes: seq<Byte>): string {
    var encoded := Unpad(Encode(bytes));
    encoded + "." + e.sign(encoded)
  }

  function EncodeFlow(e: Env, f: Flow): string { Signed(e, e.dumps(Payload(f))) }

  function Get(m: map<string, Json>, key: string): Json { if key in m then m[key] else JNull }

  function DecodeBytes(e: Env, s: string): Option<seq<Byte>> {
    if Decode(s).Some? then Decode(s) else e.lenient(s)
  }

  /** What the text before the signature holds. */
  function Load(e: Env, encoded: string): Option<Json> {
    match DecodeBytes(e, encoded + Padding(encoded))
    case None => None
    case Some(bytes) => e.loads(bytes)
  }

  /** The checks on a decoded payload. */
  function Check(m: map<string, Json>): Decoded {
    var state, mode, path, user := Get(m, "state"), Get(m, "mode"), Get(m, "redirect_path"), Get(m, "user_id");
    if !state.JString? || !(mode.JString? && mode.text in {"login", "link"}) then Rejected
    else if !path.JString? then Rejected
    else if !user.JNull? && !user.JString? then Rejected
    else if mode.text == "link" && (user.JNull? || user.text == "") then Rejected
    else
      Accepted(Flow(state.text, mode.text, SafeRedirectPath(Some(path.text)),
                    if user.JNull? then None else Some(user.text)))
  }

  function DecodeFlow(e: Env, value: Option<string>): Decoded {
    if value.None? || value.value == "" then Rejected
    else
      match SplitLast(value.value, '.')
      case NoSeparator => Rejected
      case Halves(encoded, signature) =>
        if signature != e.sign(encoded) then Rejected
        else
          match Load(e, encoded)
          case None => Rejected
          case Some(JObject(m)) => Check(m)
          case Some(_) => AttributeError   // `payload.get` on something that is no object
  }

  /** The flows the login and link routes make. */
  predicate WellFormed(f: Flow) {
    f.mode in {"login", "link"} && (f.mode == "link" ==> f.userId.Some? && f.userId.value != "")
  }

  function Normalised(f: Flow): Flow { f.(redirectPath := SafeRedirectPath(Some(f.redirectPath))) }

  lemma CheckPayload(f: Flow)
    ensures Check(Payload(f)) == if WellFormed(f) then Accepted(Normalised(f)) else Rejected
  {
    SafeIffUnchanged(f.redirectPath);
  }

  lemma LoadSigned(e: Env, bytes: seq<Byte>)
    ensures Load(e, Unpad(Encode(bytes))) == e.loads(bytes)
  {
    PadUnpad(bytes);
    DecodeEncode(bytes);
  }

  /** Main result: decoding an encoded flow gives that flow with its redirect path
      normalised exactly when it is a login flow or a link flow with a user; any other
      flow is rejected. */
  lemma DecodeEncodeFlow(e: Env, f: Flow)
    requires Lawful(e)
    ensures DecodeFlow(e, Some(EncodeFlow(e, f))) == if WellFormed(f) then Accepted(Normalised(f)) else Rejected
  {
    var bytes := e.dumps(Payload(f));
    var encoded := Unpad(Encode(bytes));
    SplitLastOf(encoded, '.', e.sign(encoded));
    LoadSigned(e, bytes);
    CheckPayload(f);
  }

  /** An accepted cookie carries the signature of its own text, and its flow is well formed
      and normalised, so encoding it again and decoding gives the same flow. */
  lemma AcceptedIsSigned(e: Env, value: string)
    requires Lawful(e) && DecodeFlow(e, Some(value)).Accepted?
    ensures
      var f := DecodeFlow(e, Some(value)).flow;
      && (exists encoded :: value == encoded + "." + e.sign(encoded))
      && WellFormed(f) && IsSafe(f.redirectPath)
      && DecodeFlow(e, Some(EncodeFlow(e, f))) == Accepted(f)
  {
    var f := DecodeFlow(e, Some(value)).flow;
    var h := SplitLast(value, '.');
    assert value == h.before + "." + e.sign(h.before);
    var m := Load(e, h.before).value.fields;
    SafeIffUnchanged(Get(m, "redirect_path").text);
    SafeIffUnchanged(f.redirectPath);
    DecodeEncodeFlow(e, f);
  }

  // ----- the error that is not caught -----

  /** The text is signed and holds JSON that is no object. */
  predicate SignedNonObject(e: Env, value: string, encoded: string) {
    && value == encoded + "." + e.sign(encoded)
    && Load(e, encoded).Some? && !Load(e, encoded).value.JObject?
  }

  /** The decoder raises `AttributeError` exactly for a correctly signed text whose JSON is no
      object; everything else is accepted or rejected. */
  lemma AttributeErrorIff(e: Env, value: Option<string>)
    requires Lawful(e)
    ensures DecodeFlow(e, value) == AttributeError <==>
      value.Some? && exists encoded :: SignedNonObject(e, value.value, encoded)
  {
    if value.Some? {
      if encoded :| SignedNonObject(e, value.value, encoded) {
        SplitLastOf(encoded, '.', e.sign(encoded));
      }
      if DecodeFlow(e, value) == AttributeError {
        assert SignedNonObject(e, value.value, SplitLast(value.value, '.').before);
      }
    }
  }

  /** Signing the text of anything but an object makes such a cookie; signing a flow never does. */
  lemma SignedRaises(e: Env, bytes: seq<Byte>, f: Flow)
    requires Lawful(e) && e.loads(bytes).Some? && !e.loads(bytes).value.JObject?
    ensures DecodeFlow(e, Some(Signed(e, bytes))) == AttributeError
    ensures DecodeFlow(e, Some(EncodeFlow(e, f))) != AttributeError
  {
    var encoded := Unpad(Encode(bytes));
    LoadSigned(e, bytes);
    assert SignedNonObject(e, Signed(e, bytes), encoded);
    AttributeErrorIff(e, Some(Signed(e, bytes)));
    DecodeEncodeFlow(e, f);
  }

  // ----- what cookies hold -----

  /** The text before the signature holds an object with the flow's four fields, the path inside
      the site whatever it was. */
  predicate HoldsFlow(m: map<string, Json>, f: Flow) {
    && m.Keys == {"state", "mode", "redirect_path", "user_id"}
    && m["state"] == JString(f.state) && m["mode"] == JString(f.mode)
    && m["redirect_path"].JString? && InsideSite(m["redirect_path"].text)
    && (InsideSite(f.redirectPath) && Stripped(f.redirectPath) ==> m["redirect_path"].text == f.redirectPath)
    && m["user_id"] == (if f.userId.Some? then JString(f.userId.value) else JNull)
  }

  lemma CookieHolds(e: Env, f: Flow)
    requires Lawful(e)
    ensures exists encoded, m: map<string, Json> ::
      && EncodeFlow(e, f) == encoded + "." + e.sign(encoded) && '=' !in encoded
      && Load(e, encoded) == Some(JObject(m)) && HoldsFlow(m, f)
  {
    var bytes := e.dumps(Payload(f));
    var encoded := Unpad(Encode(bytes));
    LoadSigned(e, bytes);
    RedirectIs(Some(f.redirectPath));
    PadUnpad(bytes);
    assert forall c | c in Body(bytes) :: IsDigit(c);
    assert HoldsFlow(Payload(f), f);
  }

  /** The fields a cookie must have: a text as state, a known mode, a text as path, a text or
      nothing as user, and a user for a link. */
  predicate Acceptable(m: map<string, Json>) {
    && "state" in m && m["state"].JString?
    && "mode" in m && m["mode"] in {JString("login"), JString("link")}
    && "redirect_path" in m && m["redirect_path"].JString?
    && ("user_id" in m ==> m["user_id"].JString? || m["user_id"].JNull?)
    && (m["mode"] == JString("link") ==> "user_id" in m && m["user_id"].JString? && m["user_id"].text != "")
  }

  /** What a padded text holds: the bytes its digits write or, if it is not made of whole groups,
      what the lenient decoder makes of it; and what those bytes mean as JSON. */
  lemma LoadIs(e: Env, encoded: string)
    ensures
      var text := encoded + Padding(encoded);
      Load(e, encoded) ==
        if Decode(text).Some? then e.loads(Decode(text).value)
        else if e.lenient(text).Some? then e.loads(e.lenient(text).value)
        else None
  {
  }

  predicate SignedObject(e: Env, value: string, encoded: string, m: map<string, Json>) {
    value == encoded + "." + e.sign(encoded) && Load(e, encoded) == Some(JObject(m))
  }

  /** A cookie is accepted exactly when it is signed and holds an object with acceptable fields. */
  lemma AcceptedIff(e: Env, value: Option<string>)
    requires Lawful(e)
    ensures DecodeFlow(e, value).Accepted? <==>
      value.Some? && exists encoded, m: map<string, Json> :: SignedObject(e, value.value, encoded, m) && Acceptable(m)
  {
    if value.Some? {
      if encoded, m: map<string, Json> :| SignedObject(e, value.value, encoded, m) && Acceptable(m) {
        SplitLastOf(encoded, '.', e.sign(encoded));
      }
      if DecodeFlow(e, value).Accepted? {
        AcceptedFields(e, value.value);
      }
    }
  }

  /** The accepted flow has the fields of the object, its path brought inside the site. */
  predicate HasFields(f: Flow, m: map<string, Json>) {
    && Acceptable(m)
    && JString(f.state) == m["state"] && JString(f.mode) == m["mode"]
    && f.redirectPath == SafeRedirectPath(Some(m["redirect_path"].text))
    && (if "user_id" in m && m["user_id"].JString? then f.userId == Some(m["user_id"].text) else f.userId == None)
  }

  lemma AcceptedFields(e: Env, value: string)
    requires DecodeFlow(e, Some(value)).Accepted?
    ensures exists encoded, m: map<string, Json> ::
      SignedObject(e, value, encoded, m) && HasFields(DecodeFlow(e, Some(value)).flow, m)
  {
    var encoded := SplitLast(value, '.').before;
    var m := Load(e, encoded).value.fields;
    assert SignedObject(e, value, encoded, m) && HasFields(DecodeFlow(e, Some(value)).flow, m);
  }
}
