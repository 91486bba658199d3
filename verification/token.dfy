/**
 * HTTP bearer-token authorisation: the token and user taken from the
 * request headers, the verdict (none, 400 or 401) and the middleware that
 * either answers the request or lets it through.
 */
module TokenAuth {
  import opened Wrappers
  import opened Js
  import Strings
  import TokenCore

  /** Request headers by lower-case name. */
  type Headers = map<string, string>

  function Header(headers: Headers, name: string): string {
    if name in headers then headers[name] else ""
  }

  // The authorization header without a leading "Bearer" and the spaces after it.
  function StripBearer(authorization: string): (r: string)
    ensures !Strings.StartsWith(authorization, "Bearer") ==> r == authorization
    ensures Strings.StartsWith(authorization, "Bearer") ==>
      |r| <= |authorization| - 6 && r == authorization[|authorization| - |r|..]
      && (r == [] || r[0] != ' ')
      && forall i :: 6 <= i < |authorization| - |r| ==> authorization[i] == ' '
  {
    if Strings.StartsWith(authorization, "Bearer") then Strings.DropLeading(authorization[6..], ' ')
    else authorization
  }

  datatype Credentials = Credentials(user: string, token: string)

  /** The `authorization` header without its Bearer prefix, and the `user` header in lower case. */
  function GetTokenFromHttpHeader(headers: Headers): (r: Credentials)
    ensures "authorization" !in headers ==> r.token == ""
    ensures "user" !in headers ==> r.user == ""
    ensures |r.user| == |Header(headers, "user")|
    ensures r.user == Strings.Lower(Header(headers, "user"))
    ensures forall i :: 0 <= i < |r.user| ==> !('A' <= r.user[i] <= 'Z')
    ensures r.token == StripBearer(Header(headers, "authorization"))
  {
    Strings.LowerFoldsEach(Header(headers, "user"));
    Credentials(Strings.Lower(Header(headers, "user")), StripBearer(Header(headers, "authorization")))
  }

  datatype AuthError = AuthError(code: int, message: string)

  /** debugAuth: logs when token debugging is on (not modelled) and returns its arguments. */
  function DebugAuth(debugEnabled: bool, headers: Headers, code: int, message: string): (r: AuthError)
    ensures r.code == code && r.message == message
  {
    AuthError(code, message)
  }

  /** The authorisation settings and the check's inputs that do not come from the request. */
  datatype AuthSettings = AuthSettings(enabled: bool, debug: bool, tokens: TokenCore.TokenConfig)

  /**
   * getAuthByTokenError: nothing when authorisation is off; 400 when no
   * token was sent; 401 with checkToken's reason when it gives one.
   */
  function GetAuthByTokenError(auth: AuthSettings, headers: Headers, now: int): (r: Option<AuthError>)
    ensures !auth.enabled ==> r.None?
    ensures auth.enabled && GetTokenFromHttpHeader(headers).token == "" ==>
      r == Some(AuthError(400, "Missing authorization header"))
    ensures auth.enabled && GetTokenFromHttpHeader(headers).token != "" ==>
      var c := GetTokenFromHttpHeader(headers);
      var check := TokenCore.CheckToken(auth.tokens, c.token, Str(c.user), now);
      && (r.Some? <==> check.errorReason.Some? && check.errorReason.value != "")
      && (r.Some? ==> r.value == AuthError(401, check.errorReason.value))
  {
    if !auth.enabled then None
    else
      var c := GetTokenFromHttpHeader(headers);
      if c.token == "" then Some(DebugAuth(auth.debug, headers, 400, "Missing authorization header"))
      else
        var check := TokenCore.CheckToken(auth.tokens, c.token, Str(c.user), now);
        if check.errorReason.Some? && check.errorReason.value != "" then
          Some(DebugAuth(auth.debug, headers, 401, check.errorReason.value))
        else None
  }

  /** A reply written by the middleware: the status and the plain-text body. */
  datatype MiddlewareOutcome = Next | Respond(status: int, body: string)

  /** authTokenMW: answers with the error's status and message, or passes the request on. */
  function AuthTokenMW(auth: AuthSettings, headers: Headers, now: int): (r: MiddlewareOutcome)
    ensures r.Next? <==> GetAuthByTokenError(auth, headers, now).None?
    ensures r.Respond? ==>
      var e := GetAuthByTokenError(auth, headers, now).value;
      r.status == e.code && r.body == e.message
    ensures r.Respond? ==> r.status == 400 || r.status == 401
  {
    match GetAuthByTokenError(auth, headers, now)
    case None => Next
    case Some(e) => Respond(e.code, e.message)
  }

  /** authByToken: the same decision as a boolean, with the reply it writes when it refuses. */
  function AuthByToken(auth: AuthSettings, headers: Headers, now: int): (r: (bool, Option<MiddlewareOutcome>))
    ensures r.0 <==> r.1.None?
    ensures r.0 <==> AuthTokenMW(auth, headers, now).Next?
    ensures !r.0 ==> r.1 == Some(AuthTokenMW(auth, headers, now))
  {
    match GetAuthByTokenError(auth, headers, now)
    case None => (true, None)
    case Some(e) => (false, Some(Respond(e.code, e.message)))
  }

  /** An enabled check answers 401 exactly when checkToken gives a reason. */
  lemma RejectsExactlyWhenCheckFails(auth: AuthSettings, headers: Headers, now: int)
    requires auth.enabled && GetTokenFromHttpHeader(headers).token != ""
    ensures var c := GetTokenFromHttpHeader(headers);
      var check := TokenCore.CheckToken(auth.tokens, c.token, Str(c.user), now);
      AuthTokenMW(auth, headers, now) ==
        (if check.errorReason.Some? then Respond(401, check.errorReason.value) else Next)
  {
    var c := GetTokenFromHttpHeader(headers);
    TokenCore.ReasonIsNonEmpty(auth.tokens, c.token, Str(c.user), now);
  }

  /** With authorisation off every request gets through. */
  lemma DisabledLetsEverythingThrough(auth: AuthSettings, headers: Headers, now: int)
    requires !auth.enabled
    ensures AuthTokenMW(auth, headers, now) == Next && AuthByToken(auth, headers, now).0
  {
  }

  /** An authorization header of only "Bearer" and spaces is a missing token. */
  lemma BareBearerIsMissing(auth: AuthSettings, headers: Headers, now: int, spaces: nat)
    requires auth.enabled
    requires "authorization" in headers && headers["authorization"] == "Bearer" + seq(spaces, _ => ' ')
    ensures AuthTokenMW(auth, headers, now) == Respond(400, "Missing authorization header")
  {
    var a := headers["authorization"];
    assert Strings.StartsWith(a, "Bearer");
    assert a[6..] == seq(spaces, _ => ' ');
  }
}
