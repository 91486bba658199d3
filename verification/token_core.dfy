/**
 * The bearer-token core: the permanent server tokens, the token shape
 * `<expiry digits>.<hex ciphertext>`, issuing a token for a user and
 * checking one. The cipher (AES-256-CTR with a random IV) and JSON are
 * parameters; all that is assumed of them is stated by `Sound` and
 * `RoundTrips`.
 */
module TokenCore {
  import opened Wrappers
  import opened Js
  import Strings
  import Utils

  /** encrypt/decrypt under the configured key; decrypt reports failures by message. */
  datatype Cipher = Cipher(encrypt: string -> string, decrypt: string -> Result<string, string>)

  /** JSON.stringify and JSON.parse (parse failures reported by message). */
  datatype JsonCodec = JsonCodec(stringify: Value -> string, parse: string -> Result<Value, string>)

  /** What the token functions read from the configuration. */
  datatype TokenConfig = TokenConfig(
    permanentServerTokens: Value,
    cipher: Cipher,
    json: JsonCodec,
    serviceName: string)

  /** Decryption undoes encryption, whose output is hex text of at least one 16-byte IV. */
  ghost predicate Sound(c: Cipher) {
    forall s :: c.decrypt(c.encrypt(s)) == Success(s)
      && |c.encrypt(s)| >= 32 && Strings.AllHex(c.encrypt(s))
  }

  /** Parsing undoes serialisation for every value JSON can represent. */
  ghost predicate RoundTrips(j: JsonCodec) {
    forall v :: JsonSafe(v) ==> j.parse(j.stringify(v)) == Success(v)
  }

  /** `new Set(Array.isArray(pt) ? pt : [pt])`. */
  function PermanentSet(pt: Value): (r: set<Value>)
    ensures pt.Arr? ==> forall i :: 0 <= i < |pt.items| ==> pt.items[i] in r
    ensures pt.Arr? ==> forall x :: x in r ==> x in pt.items
    ensures !pt.Arr? ==> r == {pt}
  {
    if pt.Arr? then set i | 0 <= i < |pt.items| :: pt.items[i] else {pt}
  }

  predicate IsPermanent(cfg: TokenConfig, token: string) {
    Str(token) in PermanentSet(cfg.permanentServerTokens)
  }

  /**
   * `^(\d{13,})\.([\da-fA-F]{32,})$`: the expiry digits and the ciphertext.
   * Digits contain no '.', so the split is at the first dot.
   */
  function MatchToken(s: string): (r: Option<(string, string)>)
    ensures r.Some? ==> s == r.value.0 + "." + r.value.1
    ensures r.Some? ==> |r.value.0| >= 13 && Strings.AllDigits(r.value.0)
    ensures r.Some? ==> |r.value.1| >= 32 && Strings.AllHex(r.value.1)
  {
    match Strings.IndexOf(s, ".")
    case None => None
    case Some(i) =>
      var digits := s[..i];
      var hex := s[i + 1..];
      if |digits| >= 13 && Strings.AllDigits(digits) && |hex| >= 32 && Strings.AllHex(hex) then
        assert s == digits + "." + hex;
        Some((digits, hex))
      else None
  }

  /** Every string of the shape is matched, and split into its two parts. */
  lemma MatchTokenComplete(digits: string, hex: string)
    requires |digits| >= 13 && Strings.AllDigits(digits)
    requires |hex| >= 32 && Strings.AllHex(hex)
    ensures MatchToken(digits + "." + hex) == Some((digits, hex))
  {
    var s := digits + "." + hex;
    assert Strings.OccursAt(s, ".", |digits|);
    forall j | 0 <= j < |digits| ensures !Strings.OccursAt(s, ".", j) {
      assert s[j] == digits[j];
      assert s[j..j + 1][0] == s[j];
    }
    var i := Strings.IndexOf(s, ".").value;
    assert i == |digits|;
    assert s[..i] == digits && s[i + 1..] == hex;
  }

  /** A string of the token shape has nothing for trim to remove. */
  lemma TokenShapeIsTrimmed(digits: string, hex: string)
    requires |digits| >= 1 && Strings.AllDigits(digits)
    requires |hex| >= 1 && Strings.AllHex(hex)
    ensures Strings.Trim(digits + "." + hex) == digits + "." + hex
  {
    var t := digits + "." + hex;
    assert t[0] == digits[0] && Strings.IsDigit(digits[0]);
    assert t[|t| - 1] == hex[|hex| - 1] && Strings.IsHexDigit(hex[|hex| - 1]);
    Strings.HexDigitIsNotSpace(t[0]);
    Strings.HexDigitIsNotSpace(t[|t| - 1]);
    Strings.TrimUntouched(t);
  }

  /** A well-shaped token whose ciphertext decrypts and parses opens to its expiry and payload. */
  lemma OpensTo(cfg: TokenConfig, digits: string, hex: string, text: string, payload: Value)
    requires |digits| >= 13 && Strings.AllDigits(digits)
    requires |hex| >= 32 && Strings.AllHex(hex)
    requires !IsPermanent(cfg, digits + "." + hex)
    requires cfg.cipher.decrypt(hex) == Success(text) && cfg.json.parse(text) == Success(payload)
    ensures Open(cfg, Strings.Trim(digits + "." + hex)) == Decrypted(Strings.ParseDigits(digits), payload)
  {
    TokenShapeIsTrimmed(digits, hex);
    MatchTokenComplete(digits, hex);
  }

  datatype TokenType = Permanent | Jwt

  /** ICheckTokenResult; `isTokenDecrypted` is either absent (false) or true. */
  datatype CheckResult = CheckResult(
    inTokenType: Option<TokenType>,
    payload: Option<Value>,
    errorReason: Option<string>,
    isTokenDecrypted: bool)

  const NotPassed := CheckResult(None, None, Some("Token not passed"), false)
  const PermanentOk := CheckResult(Some(Permanent), None, None, false)
  const NotAJwt := CheckResult(Some(Permanent), None,
    Some("The token is not a JWT and is not on the list of registered server tokens"), false)

  function DecryptFailed(message: string): (r: CheckResult)
    ensures r.errorReason.Some? && r.errorReason.value != ""
  {
    CheckResult(None, None, Some("Error decrypting JWT token :: " + message), false)
  }

  function ParseFailed(message: string): (r: CheckResult)
    ensures r.errorReason.Some? && r.errorReason.value != ""
  {
    CheckResult(Some(Jwt), None, Some("Error deserializing payload of JWT token :: " + message), false)
  }

  /** A decrypt failure and a parse failure never give the same reason, whatever their messages. */
  lemma FailureReasonsDiffer(m1: string, m2: string)
    ensures DecryptFailed(m1).errorReason != ParseFailed(m2).errorReason
  {
    var d := DecryptFailed(m1).errorReason.value;
    var p := ParseFailed(m2).errorReason.value;
    assert d[8] == 'c' && p[8] == 's';
  }

  function UserMismatch(expected: string, obtained: Value): (r: CheckResult)
    ensures r.errorReason.Some? && r.errorReason.value != ""
  {
    CheckResult(Some(Jwt), None,
      Some("JWT Token: user not match :: Expected  '" + expected + "' / obtained from the token: '" + ToStr(obtained) + "'"),
      true)
  }

  function Expired(expiredOn: int): (r: CheckResult)
    ensures r.errorReason.Some? && r.errorReason.value != ""
  {
    CheckResult(Some(Jwt), None, Some("JWT Token expired :: on " + Strings.IntToString(expiredOn) + " mc"), true)
  }

  /** `trim(u).toLowerCase()`, the normal form of a user name. */
  function NormalizeUser(u: Value): (r: string)
    ensures !Truthy(u) ==> r == ""
    ensures u.Str? && r == "" ==> forall i :: 0 <= i < |u.s| ==> Strings.IsSpace(u.s[i])
  {
    Strings.Lower(Utils.Trim(u))
  }

  /** A non-empty token, not a permanent one, of the JWT shape: checkToken goes on to decrypt it. */
  predicate Sealed(cfg: TokenConfig, t: string)
  {
    t != "" && !IsPermanent(cfg, t) && MatchToken(t).Some?
  }

  /** The ciphertext part of a token of the JWT shape. */
  function Ciphertext(t: string): string
    requires MatchToken(t).Some?
  {
    MatchToken(t).value.1
  }

  /** How far the first five steps of checkToken get with a trimmed token. */
  datatype Opened = Early(result: CheckResult) | Decrypted(expire: nat, payload: Value)

  function Open(cfg: TokenConfig, t: string): (r: Opened)
    ensures t == "" ==> r == Early(NotPassed)
    ensures t != "" && IsPermanent(cfg, t) ==> r == Early(PermanentOk)
    ensures t != "" && !IsPermanent(cfg, t) && MatchToken(t).None? ==> r == Early(NotAJwt)
    ensures Sealed(cfg, t) && cfg.cipher.decrypt(Ciphertext(t)).Failure? ==>
      r == Early(DecryptFailed(cfg.cipher.decrypt(Ciphertext(t)).error))
    ensures (Sealed(cfg, t) && cfg.cipher.decrypt(Ciphertext(t)).Success? &&
             cfg.json.parse(cfg.cipher.decrypt(Ciphertext(t)).value).Failure?) ==>
      r == Early(ParseFailed(cfg.json.parse(cfg.cipher.decrypt(Ciphertext(t)).value).error))
    ensures (Sealed(cfg, t) && cfg.cipher.decrypt(Ciphertext(t)).Success? &&
             cfg.json.parse(cfg.cipher.decrypt(Ciphertext(t)).value).Success?) ==> r.Decrypted?
    ensures r.Early? ==> r.result.payload.None? && !r.result.isTokenDecrypted
    ensures r.Decrypted? ==> !IsPermanent(cfg, t) && MatchToken(t).Some?
    ensures r.Decrypted? ==> r.expire == Strings.ParseDigits(MatchToken(t).value.0)
    ensures r.Decrypted? ==>
      var plain := cfg.cipher.decrypt(MatchToken(t).value.1);
      plain.Success? && cfg.json.parse(plain.value) == Success(r.payload)
  {
    if t == "" then Early(NotPassed)
    else if IsPermanent(cfg, t) then Early(PermanentOk)
    else match MatchToken(t)
      case None => Early(NotAJwt)
      case Some((digits, hex)) =>
        match cfg.cipher.decrypt(hex)
        case Failure(m) => Early(DecryptFailed(m))
        case Success(text) =>
          match cfg.json.parse(text)
          case Failure(m) => Early(ParseFailed(m))
          case Success(payload) => Decrypted(Strings.ParseDigits(digits), payload)
  }

  /** The user and expiry steps, given the normalised expected user and the token's user. */
  function Verdict(expected: string, user: Value, expire: nat, payload: Value, now: int): (r: CheckResult)
    ensures r.errorReason.None? <==> (expected == "" || user == Str(expected)) && now <= expire
    ensures r.errorReason.None? ==> r == CheckResult(Some(Jwt), Some(payload), None, false)
    ensures expected != "" && user != Str(expected) ==> r == UserMismatch(expected, user)
    ensures r.payload.Some? ==> r.errorReason.None? && r.inTokenType == Some(Jwt)
    ensures r.isTokenDecrypted ==> r.errorReason.Some? && r.inTokenType == Some(Jwt)
  {
    if expected != "" && user != Str(expected) then UserMismatch(expected, user)
    else if now - expire > 0 then Expired(now - expire)
    else CheckResult(Some(Jwt), Some(payload), None, false)
  }

  /**
   * checkToken as written: reading `payload.user` throws a TypeError when
   * the payload decrypts to JSON `null` and an expected user is given
   * (JSON.parse never yields undefined, the other value without properties).
   */
  function CheckTokenAsWritten(cfg: TokenConfig, token: string, expectedUser: Value, now: int): (r: Result<CheckResult, string>)
    ensures r.Failure? <==>
      && Open(cfg, Strings.Trim(token)).Decrypted?
      && IsNullish(Open(cfg, Strings.Trim(token)).payload)
      && NormalizeUser(expectedUser) != ""
  {
    match Open(cfg, Strings.Trim(token))
    case Early(result) => Success(result)
    case Decrypted(expire, payload) =>
      var expected := NormalizeUser(expectedUser);
      if expected != "" then
        match Read(payload, "user")
        case Failure(e) => Failure(e)
        case Success(user) => Success(Verdict(expected, user, expire, payload, now))
      else Success(Verdict(expected, Undefined, expire, payload, now))
  }

  /**
   * checkToken: every token gets a result. A `null` payload has no user,
   * so with an expected user it is a user mismatch.
   */
  function CheckToken(cfg: TokenConfig, token: string, expectedUser: Value, now: int): (r: CheckResult)
    ensures Strings.Trim(token) == "" ==> r == NotPassed
    ensures Strings.Trim(token) != "" && IsPermanent(cfg, Strings.Trim(token)) ==> r == PermanentOk
    ensures Strings.Trim(token) != "" && !IsPermanent(cfg, Strings.Trim(token)) && MatchToken(Strings.Trim(token)).None? ==>
      r == NotAJwt
    ensures Sealed(cfg, Strings.Trim(token)) && cfg.cipher.decrypt(Ciphertext(Strings.Trim(token))).Failure? ==>
      r == DecryptFailed(cfg.cipher.decrypt(Ciphertext(Strings.Trim(token))).error)
    ensures (Sealed(cfg, Strings.Trim(token)) && cfg.cipher.decrypt(Ciphertext(Strings.Trim(token))).Success? &&
             cfg.json.parse(cfg.cipher.decrypt(Ciphertext(Strings.Trim(token))).value).Failure?) ==>
      r == ParseFailed(cfg.json.parse(cfg.cipher.decrypt(Ciphertext(Strings.Trim(token))).value).error)
    ensures Open(cfg, Strings.Trim(token)).Decrypted? ==>
      r == Verdict(NormalizeUser(expectedUser), Get(Open(cfg, Strings.Trim(token)).payload, "user"),
                   Open(cfg, Strings.Trim(token)).expire, Open(cfg, Strings.Trim(token)).payload, now)
    ensures r.payload.Some? ==> r.errorReason.None? && r.inTokenType == Some(Jwt)
    ensures r.isTokenDecrypted ==> r.errorReason.Some? && r.inTokenType == Some(Jwt)
  {
    match Open(cfg, Strings.Trim(token))
    case Early(result) => result
    case Decrypted(expire, payload) => Verdict(NormalizeUser(expectedUser), Get(payload, "user"), expire, payload, now)
  }

  /** Every reason checkToken gives is a non-empty (truthy) string. */
  lemma ReasonIsNonEmpty(cfg: TokenConfig, token: string, expectedUser: Value, now: int)
    ensures CheckToken(cfg, token, expectedUser, now).errorReason.Some? ==>
      CheckToken(cfg, token, expectedUser, now).errorReason.value != ""
  {
    match Open(cfg, Strings.Trim(token))
    case Early(result) =>
      EarlyReasonIsNonEmpty(cfg, Strings.Trim(token));
    case Decrypted(expire, payload) =>
      var expected := NormalizeUser(expectedUser);
      var user := Get(payload, "user");
      assert CheckToken(cfg, token, expectedUser, now) == Verdict(expected, user, expire, payload, now);
  }

  lemma EarlyReasonIsNonEmpty(cfg: TokenConfig, t: string)
    requires Open(cfg, t).Early?
    ensures Open(cfg, t).result.errorReason.Some? ==> Open(cfg, t).result.errorReason.value != ""
  {
    if t != "" && !IsPermanent(cfg, t) && MatchToken(t).Some? {
      var hex := MatchToken(t).value.1;
      match cfg.cipher.decrypt(hex)
      case Failure(m) =>
        assert Open(cfg, t) == Early(DecryptFailed(m));
      case Success(text) =>
        match cfg.json.parse(text)
        case Failure(m) =>
          assert Open(cfg, t) == Early(ParseFailed(m));
        case Success(_) =>
    }
  }

  /** The two versions differ only where the as-written one throws. */
  lemma CheckTokenAgrees(cfg: TokenConfig, token: string, expectedUser: Value, now: int)
    ensures CheckTokenAsWritten(cfg, token, expectedUser, now).Success? ==>
      CheckTokenAsWritten(cfg, token, expectedUser, now).value == CheckToken(cfg, token, expectedUser, now)
  {
    match Open(cfg, Strings.Trim(token))
    case Early(result) =>
    case Decrypted(expire, payload) =>
      if NormalizeUser(expectedUser) != "" && !IsNullish(payload) {
        assert Read(payload, "user") == Success(Get(payload, "user"));
      }
  }

  /** A JWT token is accepted exactly when it opens, its user matches (if one is expected) and it has not expired. */
  lemma CheckTokenAccepts(cfg: TokenConfig, token: string, expectedUser: Value, now: int)
    ensures var r := CheckToken(cfg, token, expectedUser, now);
      var o := Open(cfg, Strings.Trim(token));
      var expected := NormalizeUser(expectedUser);
      (r.errorReason.None? && r.inTokenType == Some(Jwt)) <==>
        o.Decrypted? && (expected == "" || Get(o.payload, "user") == Str(expected)) && now <= o.expire
  {
    var o := Open(cfg, Strings.Trim(token));
    if o.Early? {
      assert o.result.errorReason.Some? || o.result.inTokenType == Some(Permanent);
    }
  }

  /** A permanent token is recognised without touching the cipher or JSON. */
  lemma PermanentNeedsNoCipher(cfg: TokenConfig, token: string, expectedUser: Value, now: int, c: Cipher, j: JsonCodec)
    requires Strings.Trim(token) != "" && IsPermanent(cfg, Strings.Trim(token))
    ensures CheckToken(cfg.(cipher := c, json := j), token, expectedUser, now) == CheckToken(cfg, token, expectedUser, now) == PermanentOk
  {
  }

  /** The user check comes before the expiry check. */
  lemma UserCheckedBeforeExpiry(cfg: TokenConfig, token: string, expectedUser: Value, now: int)
    requires Open(cfg, Strings.Trim(token)).Decrypted?
    requires var o := Open(cfg, Strings.Trim(token));
      NormalizeUser(expectedUser) != "" && Get(o.payload, "user") != Str(NormalizeUser(expectedUser))
    ensures CheckToken(cfg, token, expectedUser, now).isTokenDecrypted
    ensures CheckToken(cfg, token, expectedUser, now) ==
      UserMismatch(NormalizeUser(expectedUser), Get(Open(cfg, Strings.Trim(token)).payload, "user"))
  {
  }

  /**
   * A well-shaped token whose ciphertext decrypts to the text `null`, checked
   * with an expected user, makes checkToken as written throw, where the
   * corrected version reports a user mismatch.
   */
  lemma NullPayloadThrows(cfg: TokenConfig, digits: string, hex: string, user: Value, now: int)
    requires |digits| >= 13 && Strings.AllDigits(digits)
    requires |hex| >= 32 && Strings.AllHex(hex)
    requires cfg.cipher.decrypt(hex) == Success("null")
    requires cfg.json.parse("null") == Success(Null)
    requires !IsPermanent(cfg, digits + "." + hex)
    requires NormalizeUser(user) != ""
    ensures CheckTokenAsWritten(cfg, digits + "." + hex, user, now).Failure?
  {
    OpensTo(cfg, digits, hex, "null", Null);
  }

  /** The same token under the corrected checkToken: a user mismatch, reported as a result. */
  lemma NullPayloadMismatch(cfg: TokenConfig, digits: string, hex: string, user: Value, now: int)
    requires |digits| >= 13 && Strings.AllDigits(digits)
    requires |hex| >= 32 && Strings.AllHex(hex)
    requires cfg.cipher.decrypt(hex) == Success("null")
    requires cfg.json.parse("null") == Success(Null)
    requires !IsPermanent(cfg, digits + "." + hex)
    requires NormalizeUser(user) != ""
    ensures CheckToken(cfg, digits + "." + hex, user, now) == UserMismatch(NormalizeUser(user), Undefined)
  {
    OpensTo(cfg, digits, hex, "null", Null);
    var expire := Strings.ParseDigits(digits);
    assert CheckToken(cfg, digits + "." + hex, user, now) == Verdict(NormalizeUser(user), Get(Null, "user"), expire, Null, now);
    assert Get(Null, "user") == Undefined;
  }

  /** The result of issuing a token: the token text and the payload it carries. */
  datatype Issued = Issued(token: string, payload: Value)

  /**
   * The payload an issued token carries: the caller's object, or `{}` for a
   * non-object, with user, expire and serviceName written over its keys.
   * An array keeps its items, since named properties are not part of it.
   */
  function StampPayload(payload: Value, user: string, expire: int, serviceName: string): (r: Value)
    ensures payload.Arr? ==> r == payload
    ensures !payload.Arr? ==>
      && r.Obj?
      && Get(r, "user") == Str(user)
      && Get(r, "expire") == Num(expire)
      && Get(r, "serviceName") == Str(serviceName)
      && forall k :: k != "user" && k != "expire" && k != "serviceName" ==> Get(r, k) == Get(payload, k)
  {
    var base := if Utils.IsObject(payload) then payload else EmptyObj;
    SetProp(SetProp(SetProp(base, "user", Str(user)), "expire", Num(expire)), "serviceName", Str(serviceName))
  }

  /**
   * generateToken at time `now`: the user is normalised and must not be
   * empty; the token is the expiry time, a dot, and the encrypted JSON of
   * the stamped payload.
   */
  const EmptyUserMessage: string := "generateToken: Username is empty"

  function GenerateToken(cfg: TokenConfig, user: Value, liveTimeSec: int, payload: Value, now: int): (r: Result<Issued, string>)
    ensures NormalizeUser(user) == "" <==> r.Failure?
    ensures r.Failure? ==> r.error == EmptyUserMessage
    ensures r.Success? ==> r.value.payload == StampPayload(payload, NormalizeUser(user), now + liveTimeSec * 1000, cfg.serviceName)
    ensures r.Success? ==>
      r.value.token == Strings.IntToString(now + liveTimeSec * 1000) + "." + cfg.cipher.encrypt(cfg.json.stringify(r.value.payload))
  {
    if NormalizeUser(user) == "" then Failure(EmptyUserMessage)
    else Success(Issue(cfg, NormalizeUser(user), now + liveTimeSec * 1000, payload))
  }

  /**
   * The payload generateToken stamps when the lifetime is NaN: the expire
   * property is NaN, which JSON.stringify writes as null (Null here).
   */
  function StampPayloadNaN(payload: Value, user: string, serviceName: string): (r: Value)
    ensures payload.Arr? ==> r == payload
    ensures !payload.Arr? ==>
      && r.Obj?
      && Get(r, "user") == Str(user)
      && Get(r, "expire") == Null
      && Get(r, "serviceName") == Str(serviceName)
      && forall k :: k != "user" && k != "expire" && k != "serviceName" ==> Get(r, k) == Get(payload, k)
  {
    var stamped := StampPayload(payload, user, 0, serviceName);
    SetProp(stamped, "expire", Null)
  }

  /**
   * generateToken given a NaN lifetime: `Date.now() + NaN * 1000` is NaN,
   * so the token is "NaN", a dot and the encrypted payload.
   */
  function GenerateTokenNaN(cfg: TokenConfig, user: Value, payload: Value): (r: Result<string, string>)
    ensures NormalizeUser(user) == "" <==> r.Failure?
    ensures r.Failure? ==> r.error == EmptyUserMessage
    ensures r.Success? ==> |r.value| >= 4 && r.value[..4] == "NaN."
    ensures r.Success? ==>
      r.value[4..] == cfg.cipher.encrypt(cfg.json.stringify(StampPayloadNaN(payload, NormalizeUser(user), cfg.serviceName)))
  {
    if NormalizeUser(user) == "" then Failure(EmptyUserMessage)
    else
      var text := cfg.cipher.encrypt(cfg.json.stringify(StampPayloadNaN(payload, NormalizeUser(user), cfg.serviceName)));
      assert ("NaN." + text)[4..] == text;
      Success("NaN." + text)
  }

  /** A token that starts with "NaN" is never a JWT: checkToken rejects it unless it is a permanent token. */
  lemma NaNTokenIsNotAJwt(cfg: TokenConfig, token: string, expectedUser: Value, now: int)
    requires |token| >= 4 && token[..4] == "NaN."
    requires !IsPermanent(cfg, Strings.Trim(token))
    ensures CheckToken(cfg, token, expectedUser, now) == NotAJwt
  {
    Strings.TrimIsInnerSlice(token);
    assert Strings.LeadingSpaces(token) == 0 by {
      assert token[0] == 'N';
    }
    var t := Strings.Trim(token);
    assert t != [] by {
      assert !Strings.IsSpace(token[0]);
    }
    assert t[0] == 'N';
  }

  /** The token for an already normalised user and its expiry: the stamped payload, encrypted behind the expiry. */
  function Issue(cfg: TokenConfig, u: string, expire: int, payload: Value): (r: Issued)
    ensures r.payload == StampPayload(payload, u, expire, cfg.serviceName)
    ensures r.token == Strings.IntToString(expire) + "." + cfg.cipher.encrypt(cfg.json.stringify(r.payload))
  {
    var p := StampPayload(payload, u, expire, cfg.serviceName);
    Issued(Strings.IntToString(expire) + "." + cfg.cipher.encrypt(cfg.json.stringify(p)), p)
  }

  /**
   * Issue, then check: a token issued for a user at a time whose expiry has
   * at least 13 digits is accepted, with the issued payload, at every moment
   * up to its expiry, when checked for the same user or for no user.
   */
  lemma IssueThenCheck(cfg: TokenConfig, user: Value, liveTimeSec: int, payload: Value, now: int,
                       checkedUser: Value, later: int)
    requires Sound(cfg.cipher) && RoundTrips(cfg.json)
    requires !payload.Arr? && (payload.Obj? ==> JsonSafe(payload))
    requires NormalizeUser(user) != ""
    requires NormalizeUser(checkedUser) == "" || NormalizeUser(checkedUser) == NormalizeUser(user)
    requires now + liveTimeSec * 1000 >= Strings.Pow10(12)
    requires later <= now + liveTimeSec * 1000
    requires !IsPermanent(cfg, GenerateToken(cfg, user, liveTimeSec, payload, now).value.token)
    ensures var issued := GenerateToken(cfg, user, liveTimeSec, payload, now).value;
      && CheckToken(cfg, issued.token, checkedUser, later) == CheckResult(Some(Jwt), Some(issued.payload), None, false)
      && Get(issued.payload, "user") == Str(NormalizeUser(user))
  {
    var issued := GenerateToken(cfg, user, liveTimeSec, payload, now).value;
    var expire := now + liveTimeSec * 1000;
    var p := issued.payload;
    StampKeepsJsonSafe(payload, NormalizeUser(user), expire, cfg.serviceName);
    var digits := Strings.NatToString(expire);
    var text := cfg.json.stringify(p);
    var hex := cfg.cipher.encrypt(text);
    Strings.NatToStringLength(expire, 12);
    Strings.ParseNatToString(expire);
    assert issued.token == digits + "." + hex;
    OpensTo(cfg, digits, hex, text, p);
    assert Open(cfg, Strings.Trim(issued.token)) == Decrypted(expire, p);
    AcceptedWhenDecrypted(cfg, issued.token, checkedUser, later, expire, p, NormalizeUser(user));
  }

  /** A token that opens to a payload naming the expected user (or with no user expected) is accepted until its expiry. */
  lemma AcceptedWhenDecrypted(cfg: TokenConfig, token: string, checkedUser: Value, later: int, expire: nat, p: Value, u: string)
    requires Open(cfg, Strings.Trim(token)) == Decrypted(expire, p)
    requires Get(p, "user") == Str(u)
    requires NormalizeUser(checkedUser) == "" || NormalizeUser(checkedUser) == u
    requires later <= expire
    ensures CheckToken(cfg, token, checkedUser, later) == CheckResult(Some(Jwt), Some(p), None, false)
  {
  }

  /** Stamping a JSON-safe object (or a primitive) gives a JSON-safe object. */
  lemma StampKeepsJsonSafe(payload: Value, user: string, expire: int, serviceName: string)
    requires !payload.Arr? && (payload.Obj? ==> JsonSafe(payload))
    ensures JsonSafe(StampPayload(payload, user, expire, serviceName))
  {
    var p := StampPayload(payload, user, expire, serviceName);
    forall k | k in p.props ensures JsonSafe(p.props[k]) {
      if k != "user" && k != "expire" && k != "serviceName" {
        assert p.props[k] == Get(payload, k);
      }
    }
  }

  /** An array payload keeps none of the written keys, so such a token fails every user check. */
  lemma ArrayPayloadLosesUser(cfg: TokenConfig, user: Value, liveTimeSec: int, items: seq<Value>, now: int)
    requires NormalizeUser(user) != ""
    ensures Get(GenerateToken(cfg, user, liveTimeSec, Arr(items), now).value.payload, "user") == Undefined
  {
  }
}
