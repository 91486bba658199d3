/**
 * The token generator's two JSON endpoints: generate-token turns a user,
 * a lifetime and a payload into a token, validate-token reports what
 * checkToken makes of a token. Each handler's reply is the JSON value it
 * sends; an exception inside the handler becomes `{success: false, error}`.
 */
module GenTokenServer {
  import opened Wrappers
  import opened Js
  import Strings
  import TokenCore

  /** The lifetime units and their length in seconds; any other key has none. */
  function TimeToSeconds(unit: string): (r: Option<nat>)
    ensures r.Some? <==> unit in {"minutes", "hours", "days", "months", "years"}
    ensures unit == "minutes" ==> r == Some(60)
    ensures unit == "hours" ==> r == Some(60 * 60)
    ensures unit == "days" ==> r == Some(24 * 60 * 60)
    ensures unit == "months" ==> r == Some(30 * 24 * 60 * 60)
    ensures unit == "years" ==> r == Some(365 * 24 * 60 * 60)
  {
    if unit == "minutes" then Some(60)
    else if unit == "hours" then Some(3600)
    else if unit == "days" then Some(86400)
    else if unit == "months" then Some(2592000)
    else if unit == "years" then Some(31536000)
    else None
  }

  /**
   * The keys every object literal inherits from Object.prototype. Looking
   * one of them up in the unit table finds a function (an object for
   * `__proto__`): truthy, and NaN once multiplied.
   */
  const InheritedKeys: set<string> := {
    "constructor", "toString", "toLocaleString", "valueOf", "hasOwnProperty", "isPrototypeOf",
    "propertyIsEnumerable", "__defineGetter__", "__defineSetter__", "__lookupGetter__",
    "__lookupSetter__", "__proto__"}

  /** What `timeToSeconds[timeUnit]` reads: a unit's seconds, an inherited member, or undefined. */
  datatype Multiplier = UnitSeconds(seconds: nat) | InheritedMember | NoMultiplier

  /** The unit table lookup as written: an own key, then the inherited members of every object. */
  function TimeToSecondsAsWritten(unit: string): (r: Multiplier)
    ensures r.UnitSeconds? <==> TimeToSeconds(unit).Some?
    ensures r.UnitSeconds? ==> r.seconds == TimeToSeconds(unit).value
    ensures r.InheritedMember? <==> unit in InheritedKeys
  {
    match TimeToSeconds(unit)
    case Some(n) => UnitSeconds(n)
    case None => if unit in InheritedKeys then InheritedMember else NoMultiplier
  }

  /** Every unit is a whole number of minutes, and a longer unit is longer. */
  lemma UnitsAreOrdered()
    ensures TimeToSeconds("minutes").value < TimeToSeconds("hours").value < TimeToSeconds("days").value
      < TimeToSeconds("months").value < TimeToSeconds("years").value
    ensures forall u :: TimeToSeconds(u).Some? ==> TimeToSeconds(u).value % 60 == 0
  {
  }

  /**
   * What a handler replies, before serialisation: a failure with its
   * message, a freshly issued token, or a valid token's payload and type.
   */
  datatype Reply =
    | Failed(error: string)
    | Generated(token: string)
    | Valid(payload: Value, tokenType: TokenCore.TokenType)

  function TokenTypeName(t: TokenCore.TokenType): string {
    match t
    case Permanent => "permanent"
    case Jwt => "JWT"
  }

  /**
   * The JSON object `res.json` is given. A permanent token has no payload,
   * so that key holds undefined (and is dropped when serialised).
   */
  function ReplyJson(r: Reply): (j: Value)
    ensures j.Obj? && "success" in j.props
    ensures Get(j, "success") == Bool(!r.Failed?)
    ensures r.Failed? ==> j.props.Keys == {"success", "error"} && Get(j, "error") == Str(r.error)
    ensures r.Generated? ==> j.props.Keys == {"success", "token"} && Get(j, "token") == Str(r.token)
    ensures r.Valid? ==>
      && j.props.Keys == {"success", "payload", "tokenType"}
      && Get(j, "payload") == r.payload && Get(j, "tokenType") == Str(TokenTypeName(r.tokenType))
  {
    match r
    case Failed(error) => Obj(map["success" := Bool(false), "error" := Str(error)])
    case Generated(token) => Obj(map["success" := Bool(true), "token" := Str(token)])
    case Valid(payload, tokenType) =>
      Obj(map["success" := Bool(true), "payload" := payload, "tokenType" := Str(TokenTypeName(tokenType))])
  }

  /** A falsy time unit names no unit. */
  lemma FalsyUnitIsUnknown(unit: Value)
    requires !Truthy(unit)
    ensures TimeToSeconds(ToStr(unit)).None?
  {
    if unit.Num? {
      assert ToStr(unit) == "0";
    }
  }

  /** Nor is it the name of an inherited member. */
  lemma FalsyUnitIsNotInherited(unit: Value)
    requires !Truthy(unit)
    ensures ToStr(unit) !in InheritedKeys
  {
    if unit.Num? {
      assert ToStr(unit) == "0";
    }
    assert ToStr(unit) in {"undefined", "null", "false", "0", ""};
    assert ToStr(unit) == [] || ToStr(unit)[0] in {'u', 'n', 'f', '0'};
  }

  /**
   * The body of a generate-token request as its fields are declared; an
   * absent timeValue reads as 0, which the handler treats the same way.
   */
  datatype GenerateRequest = GenerateRequest(user: Value, timeValue: int, timeUnit: Value, payload: Value)

  /** The lifetime in seconds that a request asks for, when its unit is known. */
  function LiveTimeSec(req: GenerateRequest): (r: Option<int>)
    ensures r.Some? <==> TimeToSeconds(ToStr(req.timeUnit)).Some?
    ensures r.Some? ==> r.value == req.timeValue * TimeToSeconds(ToStr(req.timeUnit)).value
  {
    match TimeToSeconds(ToStr(req.timeUnit))
    case None => None
    case Some(m) => Some(req.timeValue * m)
  }

  /** `payload || {}`. */
  function PayloadOrEmpty(payload: Value): (r: Value)
    ensures Truthy(payload) ==> r == payload
    ensures !Truthy(payload) ==> r == EmptyObj
  {
    if Truthy(payload) then payload else EmptyObj
  }

  /** POST /api/generate-token at time `now`. */
  function GenerateTokenReply(cfg: TokenCore.TokenConfig, req: GenerateRequest, now: int): (r: Reply)
    ensures !Truthy(req.user) || req.timeValue == 0 || !Truthy(req.timeUnit) ==>
      r == Failed("Need to fill in the user and token lifetime")
    ensures Truthy(req.user) && req.timeValue != 0 && Truthy(req.timeUnit) && LiveTimeSec(req).None? ==>
      r == Failed("Invalid Time Unit")
    ensures r.Generated? <==>
      Truthy(req.user) && req.timeValue != 0 && LiveTimeSec(req).Some? && TokenCore.NormalizeUser(req.user) != ""
    ensures !r.Valid?
    ensures r.Generated? ==>
      r.token == TokenCore.GenerateToken(cfg, req.user, LiveTimeSec(req).value, PayloadOrEmpty(req.payload), now).value.token
  {
    if !Truthy(req.user) || req.timeValue == 0 || !Truthy(req.timeUnit) then
      Failed("Need to fill in the user and token lifetime")
    else match LiveTimeSec(req)
      case None => Failed("Invalid Time Unit")
      case Some(liveTimeSec) =>
        match TokenCore.GenerateToken(cfg, req.user, liveTimeSec, PayloadOrEmpty(req.payload), now)
        case Failure(message) => Failed(message)
        case Success(issued) => Generated(issued.token)
  }

  /**
   * POST /api/generate-token as written: a unit named like an inherited
   * member passes the unit test, the lifetime is NaN, and generateToken
   * hands out a "NaN." token.
   */
  function GenerateTokenReplyAsWritten(cfg: TokenCore.TokenConfig, req: GenerateRequest, now: int): (r: Reply)
    ensures ToStr(req.timeUnit) !in InheritedKeys ==> r == GenerateTokenReply(cfg, req, now)
    ensures Truthy(req.user) && req.timeValue != 0 && ToStr(req.timeUnit) in InheritedKeys ==>
      r == match TokenCore.GenerateTokenNaN(cfg, req.user, PayloadOrEmpty(req.payload))
           case Failure(message) => Failed(message)
           case Success(token) => Generated(token)
  {
    if !Truthy(req.user) || req.timeValue == 0 || !Truthy(req.timeUnit) then
      Failed("Need to fill in the user and token lifetime")
    else match TimeToSecondsAsWritten(ToStr(req.timeUnit))
      case NoMultiplier => Failed("Invalid Time Unit")
      case InheritedMember =>
        (match TokenCore.GenerateTokenNaN(cfg, req.user, PayloadOrEmpty(req.payload))
         case Failure(message) => Failed(message)
         case Success(token) => Generated(token))
      case UnitSeconds(m) =>
        match TokenCore.GenerateToken(cfg, req.user, req.timeValue * m, PayloadOrEmpty(req.payload), now)
        case Failure(message) => Failed(message)
        case Success(issued) => Generated(issued.token)
  }

  /**
   * An inherited unit name such as "constructor": as written the request
   * succeeds with a token that validate-token then rejects; the corrected
   * handler refuses the unit.
   */
  lemma InheritedUnitGivesUnusableToken(cfg: TokenCore.TokenConfig, req: GenerateRequest, now: int, later: int)
    requires Truthy(req.user) && req.timeValue != 0 && ToStr(req.timeUnit) in InheritedKeys
    requires TokenCore.NormalizeUser(req.user) != ""
    requires var t := TokenCore.GenerateTokenNaN(cfg, req.user, PayloadOrEmpty(req.payload)).value;
      !TokenCore.IsPermanent(cfg, Strings.Trim(t))
    ensures GenerateTokenReply(cfg, req, now) == Failed("Invalid Time Unit")
    ensures var t := TokenCore.GenerateTokenNaN(cfg, req.user, PayloadOrEmpty(req.payload)).value;
      && GenerateTokenReplyAsWritten(cfg, req, now) == Generated(t)
      && ValidateTokenReply(cfg, Str(t), later) == Failed(TokenCore.NotAJwt.errorReason.value)
  {
    var t := TokenCore.GenerateTokenNaN(cfg, req.user, PayloadOrEmpty(req.payload)).value;
    assert Truthy(req.timeUnit) by {
      if !Truthy(req.timeUnit) {
        FalsyUnitIsNotInherited(req.timeUnit);
      }
    }
    assert TimeToSecondsAsWritten(ToStr(req.timeUnit)).InheritedMember?;
    assert LiveTimeSec(req).None?;
    TokenCore.NaNTokenIsNotAJwt(cfg, t, Undefined, later);
    assert ValidateTokenString(cfg, t, later) == Failed(TokenCore.NotAJwt.errorReason.value);
  }

  /** A user name of only spaces passes the first test but is refused by generateToken. */
  lemma BlankUserIsRefused(cfg: TokenCore.TokenConfig, req: GenerateRequest, now: int)
    requires req.user.Str? && req.user.s != "" && forall i :: 0 <= i < |req.user.s| ==> Strings.IsSpace(req.user.s[i])
    requires req.timeValue != 0 && LiveTimeSec(req).Some?
    ensures GenerateTokenReply(cfg, req, now) == Failed(TokenCore.EmptyUserMessage)
  {
    if !Truthy(req.timeUnit) {
      FalsyUnitIsUnknown(req.timeUnit);
      assert false;
    }
    assert Strings.Trim(req.user.s) == "";
  }

  /** V8's TypeError when checkToken calls `trim` on a token that is not a string. */
  const TrimNotAFunction := "(token || \"\").trim is not a function"

  /**
   * POST /api/validate-token at time `now`: checkToken without an expected
   * user. A truthy token that is not a string makes checkToken's `trim`
   * throw, and the handler replies with that TypeError's message.
   */
  function ValidateTokenReply(cfg: TokenCore.TokenConfig, token: Value, now: int): (r: Reply)
    ensures !Truthy(token) ==> r == Failed("Token Not Transferred")
    ensures Truthy(token) && !token.Str? ==> r == Failed(TrimNotAFunction)
    ensures token.Str? ==> r == ValidateTokenString(cfg, token.s, now)
    ensures !r.Generated?
  {
    match token
    case Str(s) => ValidateTokenString(cfg, s, now)
    case _ => if Truthy(token) then Failed(TrimNotAFunction) else Failed("Token Not Transferred")
  }

  /** The validate-token reply for a string token. */
  function ValidateTokenString(cfg: TokenCore.TokenConfig, token: string, now: int): (r: Reply)
    ensures token == "" ==> r == Failed("Token Not Transferred")
    ensures !r.Generated?
    ensures token != "" ==>
      var check := TokenCore.CheckToken(cfg, token, Undefined, now);
      && (r.Valid? <==> check.errorReason.None?)
      && (check.errorReason.Some? ==> r == Failed(check.errorReason.value))
      && (r.Valid? ==> r.payload == check.payload.GetOr(Undefined) && Some(r.tokenType) == check.inTokenType)
  {
    if token == "" then Failed("Token Not Transferred")
    else
      var check := TokenCore.CheckToken(cfg, token, Undefined, now);
      match check.errorReason
      case Some(reason) => Failed(reason)
      case None => Valid(check.payload.GetOr(Undefined), check.inTokenType.GetOr(TokenCore.Jwt))
  }

  /**
   * Generate, then validate: with a sound cipher and a faithful JSON codec,
   * the token handed out by generate-token is reported valid, as a JWT
   * carrying the stamped payload, until it expires.
   */
  lemma GenerateThenValidate(cfg: TokenCore.TokenConfig, req: GenerateRequest, now: int, later: int)
    requires TokenCore.Sound(cfg.cipher) && TokenCore.RoundTrips(cfg.json)
    requires Truthy(req.user) && req.timeValue != 0 && LiveTimeSec(req).Some?
    requires TokenCore.NormalizeUser(req.user) != ""
    requires var p := PayloadOrEmpty(req.payload); !p.Arr? && (p.Obj? ==> JsonSafe(p))
    requires now + LiveTimeSec(req).value * 1000 >= Strings.Pow10(12)
    requires later <= now + LiveTimeSec(req).value * 1000
    requires var issued := TokenCore.GenerateToken(cfg, req.user, LiveTimeSec(req).value, PayloadOrEmpty(req.payload), now);
      !TokenCore.IsPermanent(cfg, issued.value.token)
    ensures var issued := TokenCore.GenerateToken(cfg, req.user, LiveTimeSec(req).value, PayloadOrEmpty(req.payload), now);
      && GenerateTokenReply(cfg, req, now) == Generated(issued.value.token)
      && ValidateTokenReply(cfg, Str(issued.value.token), later) == Valid(issued.value.payload, TokenCore.Jwt)
  {
    var liveTimeSec := LiveTimeSec(req).value;
    var p := PayloadOrEmpty(req.payload);
    if !Truthy(req.timeUnit) {
      FalsyUnitIsUnknown(req.timeUnit);
      assert false;
    }
    var issued := TokenCore.GenerateToken(cfg, req.user, liveTimeSec, p, now).value;
    assert GenerateTokenReply(cfg, req, now) == Generated(issued.token);
    assert ValidateTokenString(cfg, issued.token, later) == Valid(issued.payload, TokenCore.Jwt) by {
      TokenCore.IssueThenCheck(cfg, req.user, liveTimeSec, p, now, Undefined, later);
      Strings.NatToStringLength(now + liveTimeSec * 1000, 0);
      assert issued.token != "";
    }
  }
}
