/**
 * The Check-Auth route (Check-Auth/index.js): read the session cookie, decode
 * it, compare its expiry with the clock, and ask the provider who the token
 * belongs to. The cookie, the decoder's result, the clock and the provider's
 * answer are inputs (`AuthWorld`).
 */
module CheckAuth {
  import opened Wrappers
  import opened Http

  /**
   * `session` is the `pixele_session` cookie (None when absent); `decoded` is
   * the `exp` claim `jwtDecode` finds (None when the claim is absent) or the
   * error it throws; `now` is `Date.now()` in milliseconds; `getUser` is the
   * `Username` the provider returns or the error it throws.
   */
  datatype AuthWorld = AuthWorld(
    session: Option<string>,
    decoded: Result<Option<int>, Fault>,
    now: int,
    getUser: Result<string, Fault>)

  const NoSession := Reply(401, "No session found.", "NO_SESSION", AuthStatus(false, None))
  const Expired := Reply(401, "Session expired.", "SESSION_EXPIRED", AuthStatus(false, None))

  /** Lines 57-60: the 200 reply carries only the user's name. */
  function Authenticated(username: string): Reply {
    Reply(200, "", "", AuthStatus(true, Some(username)))
  }

  /** Lines 61-88: an error that reaches the handler, by its code. */
  function ErrorReply(f: Fault): (r: Reply)
    ensures f.code == "NotAuthorizedException" <==> r.code == "INVALID_SESSION"
    ensures f.code == "LimitExceededException" <==> r.status == 429
    ensures f.code == "UserNotFoundException" <==> r.status == 404
    ensures f.code !in {"NotAuthorizedException", "LimitExceededException", "UserNotFoundException"}
      <==> r.status == 500
    ensures r.code == "INVALID_SESSION" <==> r.status == 401
    ensures r.status == 429 ==> r.code == "RATE_LIMIT_EXCEEDED"
    ensures r.status == 404 ==> r.code == "USER_NOT_FOUND"
    ensures r.status == 500 ==> r.code == "SERVER_ERROR"
    ensures r.status != 200 && r.info == AuthStatus(false, None)
  {
    match f.code
    case "NotAuthorizedException" => Reply(401, "Invalid/Expired session.", "INVALID_SESSION", AuthStatus(false, None))
    case "LimitExceededException" => Reply(429, "Too many attempts. Please try again later.", "RATE_LIMIT_EXCEEDED", AuthStatus(false, None))
    case "UserNotFoundException" => Reply(404, "User Not Found", "USER_NOT_FOUND", AuthStatus(false, None))
    case _ => Reply(500, "Internal Server Error", "SERVER_ERROR", AuthStatus(false, None))
  }

  /** `!sessionToken`: the cookie is absent or empty. */
  predicate NoToken(w: AuthWorld) {
    w.session.None? || w.session.value == ""
  }

  /**
   * Line 38: `exp * 1000 < Date.now()`. An absent claim makes the product NaN,
   * and a comparison with NaN is false, so the session is not expired.
   */
  predicate ExpiredAt(exp: Option<int>, now: int) {
    exp.Some? && exp.value * 1000 < now
  }

  /** What the route does, in order: at most one provider call, then its reply. */
  function CheckAuthEffects(w: AuthWorld): seq<Effect> {
    if NoToken(w) then [Respond(NoSession)]
    else match w.decoded
      case Err(e) => [Respond(ErrorReply(e))]
      case Ok(exp) =>
        if ExpiredAt(exp, w.now) then [Respond(Expired)]
        else [Call("getUser", w.session),
              Respond(match w.getUser case Ok(name) => Authenticated(name) case Err(e) => ErrorReply(e))]
  }

  /** Lines 24-89: the handler, step by step; thrown errors reach the catch at line 61. */
  method HandleCheckAuth(w: AuthWorld, res: Recorder)
    modifies res
    ensures res.effects == old(res.effects) + CheckAuthEffects(w)
  {
    if NoToken(w) {
      res.Add(Respond(NoSession));
      return;
    }
    if w.decoded.Err? {
      res.Add(Respond(ErrorReply(w.decoded.error)));
      return;
    }
    if ExpiredAt(w.decoded.value, w.now) {
      res.Add(Respond(Expired));
      return;
    }
    res.Add(Call("getUser", w.session));
    match w.getUser
    case Ok(name) => res.Add(Respond(Authenticated(name)));
    case Err(e) => res.Add(Respond(ErrorReply(e)));
  }

  /** The provider is asked only for a present, decodable, unexpired token. */
  predicate Reaches(w: AuthWorld) {
    !NoToken(w) && w.decoded.Ok? && !ExpiredAt(w.decoded.value, w.now)
  }

  /**
   * Exactly one reply is written; it says the user is authenticated exactly
   * when its status is 200, and that happens exactly when the provider
   * recognised a token that reached it.
   */
  lemma OneReply(w: AuthWorld)
    ensures |Responses(CheckAuthEffects(w))| == 1
    ensures var r := Responses(CheckAuthEffects(w))[0];
      && r.info.AuthStatus?
      && (r.info.isAuthenticated <==> r.status == 200)
      && (r.status == 200 <==> Reaches(w) && w.getUser.Ok?)
      && (r.status == 200 ==> r == Authenticated(w.getUser.value))
  {
    var t := CheckAuthEffects(w);
    if Reaches(w) {
      var r := Respond(match w.getUser case Ok(name) => Authenticated(name) case Err(e) => ErrorReply(e));
      Peel(r, []);
      Peel(Call("getUser", w.session), [r]);
    } else {
      Peel(t[0], []);
      assert t == [t[0]] + [];
    }
  }

  /** The provider is called, once and with the cookie's token, exactly when the token reaches it. */
  lemma ProviderCalls(w: AuthWorld)
    ensures Calls(CheckAuthEffects(w)) == if Reaches(w) then ["getUser"] else []
    ensures Reaches(w) ==> CheckAuthEffects(w)[0] == Call("getUser", w.session)
  {
    var t := CheckAuthEffects(w);
    if Reaches(w) {
      var r := Respond(match w.getUser case Ok(name) => Authenticated(name) case Err(e) => ErrorReply(e));
      Peel(r, []);
      Peel(Call("getUser", w.session), [r]);
    } else {
      Peel(t[0], []);
      assert t == [t[0]] + [];
    }
  }

  /** No cookie: 401 NO_SESSION before anything is decoded or called. */
  lemma NoSessionFirst(w: AuthWorld)
    requires NoToken(w)
    ensures CheckAuthEffects(w) == [Respond(NoSession)]
  {
  }

  /**
   * The expiry test is strict: a token whose `exp` is exactly now (in
   * milliseconds) still reaches the provider, and one a millisecond older is
   * refused.
   */
  lemma ExpiryBoundary(w: AuthWorld, exp: int)
    requires !NoToken(w) && w.decoded == Ok(Some(exp))
    ensures exp * 1000 == w.now ==> Reaches(w)
    ensures exp * 1000 < w.now <==> CheckAuthEffects(w) == [Respond(Expired)]
  {
  }

  /** A token without an `exp` claim is never treated as expired. */
  lemma MissingExpiryReaches(w: AuthWorld)
    requires !NoToken(w) && w.decoded == Ok(None)
    ensures Reaches(w)
  {
  }
}
