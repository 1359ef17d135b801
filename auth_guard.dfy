/**
 * The authentication middleware: it takes the token out of an
 * `Authorization: Bearer <token>` header (the Bearer scheme of section 2.1 of
 * RFC 6750), asks the identity service to verify it, and either lets the
 * request through with its user or stops it with an AppError.
 *
 * The identity service is a parameter: a function from the token to what
 * `verify` resolved to or threw.
 */
module AuthGuard {
  import opened Wrappers
  import opened AppErrors
  import opened JsText

  /** The user record the identity service returns; `user_id` may be missing. */
  datatype User = User(userId: Option<string>, email: string, firstName: string, lastName: string,
                       role: string, picture: string, externalId: string)

  /** What `verify(token)` did: resolved with a body (whose `user` may be missing), or threw. */
  datatype Verification = Verified(user: Option<User>) | Threw(name: string, message: Option<string>)

  /** What the middleware does: set `req.user` and call `next()`, or call `next(error)`. */
  datatype Decision = Proceed(user: User) | Reject(error: AppError)

  const MissingToken := AppError(401, "Authorization token is missing")
  const InvalidHeader := AppError(401, "Invalid authorization header")
  const UserNotFound := AppError(404, "User not found")
  const TokenExpired := AppError(401, "Token expired")
  const InvalidToken := AppError(401, "Invalid token")

  const BearerLength := 6

  function LowerAscii(c: char): char {
    if 'A' <= c <= 'Z' then (c as int + 32) as char else c
  }

  /** The six letters of "Bearer" in any mix of cases. */
  predicate IsBearerWord(w: string) {
    |w| == BearerLength && forall i :: 0 <= i < BearerLength ==> LowerAscii(w[i]) == "bearer"[i]
  }

  /** Whether the pattern `^Bearer\s+` (case-insensitive) matches. */
  predicate HasBearerPrefix(raw: string) {
    |raw| > BearerLength && IsBearerWord(raw[..BearerLength]) && IsJsSpace(raw[BearerLength])
  }

  /**
   * `raw.replace(/^Bearer\s+/i, '')`: the match, the word and every whitespace
   * character after it, is removed; without a match the header is returned as it is.
   */
  function StripBearer(raw: string): (token: string)
    ensures token == raw <==> !HasBearerPrefix(raw)
    ensures |token| <= |raw| && token == raw[|raw| - |token|..]
    ensures HasBearerPrefix(raw) ==>
      |token| < |raw| - BearerLength && AllSpace(raw[BearerLength..|raw| - |token|]) && (token == [] || !IsJsSpace(token[0]))
  {
    if HasBearerPrefix(raw) then
      var token := TrimStart(raw[BearerLength..]);
      assert raw[BearerLength..][..|raw| - BearerLength - |token|] == raw[BearerLength..|raw| - |token|];
      token
    else raw
  }

  /**
   * The header checks: a missing or empty header, then a header without the
   * Bearer prefix or with nothing after it.
   */
  function ExtractToken(header: Option<string>): (r: Result<string, AppError>)
    ensures !Truthy(header) <==> r == Failure(MissingToken)
    ensures Truthy(header) ==>
      (r == Failure(InvalidHeader) <==> !HasBearerPrefix(header.value) || AllSpace(header.value[BearerLength..]))
    ensures r.Success? ==>
      && HasBearerPrefix(header.value)
      && r.value != [] && !IsJsSpace(r.value[0])
      && |r.value| < |header.value|
      && r.value == header.value[|header.value| - |r.value|..]
  {
    if !Truthy(header) then Failure(MissingToken)
    else
      var raw := header.value;
      var token := StripBearer(raw);
      if token == "" || token == raw then
        Failure(InvalidHeader)
      else
        assert raw[BearerLength..] == raw[BearerLength..|raw| - |token|] + token;
        Success(token)
  }

  /** A "Bearer" prefix of any case, whitespace, and a token: the token is what reaches `verify`. */
  lemma BearerRoundTrip(word: string, spaces: string, token: string)
    requires IsBearerWord(word) && spaces != [] && AllSpace(spaces)
    requires token != [] && !IsJsSpace(token[0])
    ensures ExtractToken(Some(word + spaces + token)) == Success(token)
  {
    var raw := word + spaces + token;
    var rest := spaces + token;
    assert raw[..BearerLength] == word;
    assert raw[BearerLength..] == rest;
    assert raw[BearerLength] == spaces[0];
    assert HasBearerPrefix(raw);
    assert forall k :: 0 <= k < |spaces| ==> rest[k] == spaces[k];
    assert rest[|spaces|] == token[0];
    assert SpaceRunEnd(rest, 0) == |spaces|;
    assert rest[|spaces|..] == token;
    assert StripBearer(raw) == token;
    assert token != raw by { assert |token| < |raw|; }
  }

  /** The catch clause: "expired" in the message, or a TokenExpiredError, means an expired token. */
  function ClassifyFailure(name: string, message: Option<string>): (error: AppError)
    ensures error == TokenExpired <==> (message.Some? && Includes(message.value, "expired")) || name == "TokenExpiredError"
    ensures error == TokenExpired || error == InvalidToken
  {
    if (message.Some? && Includes(message.value, "expired")) || name == "TokenExpiredError" then TokenExpired
    else InvalidToken
  }

  /** What follows a `verify` call, given what it did. */
  function AfterVerify(v: Verification): (d: Decision)
    ensures d.Proceed? <==> v.Verified? && v.user.Some? && Truthy(v.user.value.userId)
    ensures d.Proceed? ==> d.user == v.user.value
    ensures d == Reject(UserNotFound) <==> v.Verified? && v.user.Some? && !Truthy(v.user.value.userId)
  {
    match v
    case Verified(Some(user)) => if !Truthy(user.userId) then Reject(UserNotFound) else Proceed(user)
    // reading `user_id` of a missing `user` throws a TypeError whose message does not mention "expired"
    case Verified(None) => Reject(InvalidToken)
    case Threw(name, message) => Reject(ClassifyFailure(name, message))
  }

  /** The middleware. `verify` is consulted only on the token the header checks produced. */
  function Authenticate(header: Option<string>, verify: string -> Verification): (d: Decision)
    ensures ExtractToken(header).Failure? ==> d == Reject(ExtractToken(header).error)
    ensures d.Proceed? ==>
      && ExtractToken(header).Success?
      && verify(ExtractToken(header).value) == Verified(Some(d.user))
      && Truthy(d.user.userId)
    ensures ExtractToken(header).Success? ==> d == AfterVerify(verify(ExtractToken(header).value))
    ensures ExtractToken(header).Success? ==>
      var v := verify(ExtractToken(header).value);
      v.Verified? && v.user.Some? && Truthy(v.user.value.userId) ==> d == Proceed(v.user.value)
  {
    match ExtractToken(header)
    case Failure(e) => Reject(e)
    case Success(token) => AfterVerify(verify(token))
  }

  /** When the header checks fail, `verify` is not called: the decision is the same whatever it would do. */
  lemma NoVerifyWithoutToken(header: Option<string>, v1: string -> Verification, v2: string -> Verification)
    requires ExtractToken(header).Failure?
    ensures Authenticate(header, v1) == Authenticate(header, v2)
  {
  }
}
