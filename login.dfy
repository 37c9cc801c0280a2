/**
 * The Login-User route (Login-User/index.js) after its input middleware: it
 * signs any previous session out, resolves the identifier to a username and
 * an email, signs in, and on success records the login time in a transaction
 * on a pooled connection before setting the session cookie. Every provider
 * outcome, the connection outcomes and the clock are inputs (`LoginWorld`).
 */
module Login {
  import opened Wrappers
  import opened Http
  import opened Db
  import Checks

  /** What `signIn` resolves to: whether the user is signed in, and `nextStep.signInStep` (None when absent). */
  datatype SignInResult = SignInResult(isSignedIn: bool, signInStep: Option<string>)

  /** The access token of a fetched session: its text and its `exp` claim in seconds. */
  datatype AccessToken = AccessToken(text: string, exp: int)

  /**
   * The outcomes of everything the route calls. `listing` answers the email
   * filter, `lookup` the `adminGetUser` call; `session` is None inside Ok when
   * the session has no access token; `now` is `Date.now()`.
   */
  datatype LoginWorld = LoginWorld(
    listing: Listing,
    lookup: Result<CognitoUser, Fault>,
    signIn: Result<SignInResult, Fault>,
    session: Result<Option<AccessToken>, Fault>,
    acquireOk: bool, beginOk: bool, executeOk: bool, commitOk: bool, rollbackOk: bool,
    now: int)

  /** The account the identifier resolved to. */
  datatype Who = Who(username: Option<string>, email: string)

  const InvalidCredentials := Reply(401, "Invalid Username/Email or Password.", "INVALID_CREDENTIALS", NoInfo)
  const TooManyRequests := Reply(429, "Too many attempts. Please try again later.", "RATE_LIMIT_EXCEEDED", NoInfo)
  const LimitExceeded := Reply(429, "Request limit exceeded. Please try again later.", "LIMIT_EXCEEDED", NoInfo)
  const ServerError := Reply(500, "Internal Server Error", "SERVER_ERROR", NoInfo)
  const AuthFailed := Reply(500, "Failed to complete authentication.", "AUTH_COMPLETION_FAILED", NoInfo)

  function UserNotFound(identifier: string): Reply {
    Reply(404, "No account associated with this Email/Username.", "USER_NOT_FOUND", Value(JsValues.Str(identifier)))
  }

  function AuthIncomplete(who: Who, step: Option<string>): Reply {
    Reply(403, "Further authentication required.", "AUTH_INCOMPLETE", SignInPending(who.username, who.email, step))
  }

  function TokenUnavailable(who: Who): Reply {
    Reply(500, "No access token available after authentication.", "TOKEN_UNAVAILABLE", Account(who.username, Some(who.email)))
  }

  function DatabaseError(who: Who): Reply {
    Reply(500, "Database error occurred. Please try again later.", "DATABASE_ERROR", Account(who.username, Some(who.email)))
  }

  function SessionReply(who: Who, t: AccessToken): Reply {
    Reply(200, "", "", SessionInfo(t.text, who.username, who.email, t.exp * 1000))
  }

  /** Line 45: the email filter, built without escaping. */
  function LoginFilter(identifier: string): string {
    "email = \"" + identifier + "\""
  }

  /** Without a double quote in the identifier the unescaped filter is the one registration builds. */
  lemma LoginFilterAgrees(identifier: string)
    requires '"' !in identifier
    ensures LoginFilter(identifier) == Checks.EmailFilter(identifier)
  {
  }

  /**
   * Lines 39-66: an identifier with an '@' is an email and is looked up by a
   * listing; otherwise it is a username whose email attribute is looked up.
   * Look-up errors are swallowed and leave the identifier in place.
   */
  function Identify(identifier: string, w: LoginWorld): (who: Who)
    ensures '@' in identifier ==> who.email == identifier
    ensures '@' in identifier && w.listing.Ok? && w.listing.value.Some? ==>
      who.username == (if |w.listing.value.value| > 0 then Some(w.listing.value.value[0].username) else None)
    ensures '@' in identifier && (w.listing.Err? || w.listing.value.None?) ==> who.username == Some(identifier)
    ensures '@' !in identifier ==> who.username == Some(identifier)
    ensures '@' !in identifier ==>
      who.email == (if w.lookup.Ok? && w.lookup.value.email.Some? && w.lookup.value.email.value != ""
        then w.lookup.value.email.value else identifier)
  {
    if '@' in identifier then
      match w.listing
      case Ok(Some(users)) => Who(if |users| > 0 then Some(users[0].username) else None, identifier)
      case _ => Who(Some(identifier), identifier)
    else
      match w.lookup
      case Ok(user) => Who(Some(identifier), if user.email.Some? && user.email.value != "" then user.email.value else identifier)
      case _ => Who(Some(identifier), identifier)
  }

  /** Lines 178-221: the sign-in error by its name. */
  function SignInErrorReply(f: Fault, identifier: string): (r: Reply)
    ensures f.name == "NotAuthorizedException" <==> r == InvalidCredentials
    ensures f.name == "UserNotFoundException" <==> r == UserNotFound(identifier)
    ensures f.name == "TooManyRequestsException" <==> r == TooManyRequests
    ensures f.name == "LimitExceededException" <==> r == LimitExceeded
    ensures r.status == 500 <==> r == ServerError
    ensures r == ServerError <==>
      f.name !in {"NotAuthorizedException", "UserNotFoundException", "TooManyRequestsException", "LimitExceededException"}
  {
    match f.name
    case "NotAuthorizedException" => InvalidCredentials
    case "UserNotFoundException" => UserNotFound(identifier)
    case "TooManyRequestsException" => TooManyRequests
    case "LimitExceededException" => LimitExceeded
    case _ => ServerError
  }

  const ConfirmSignUp := "CONFIRM_SIGN_UP"
  const Done := "DONE"

  /** Line 84: the sign-in needs a further step. */
  predicate Incomplete(s: SignInResult) {
    !s.isSignedIn && s.signInStep != Some(Done)
  }

  /** Lines 121-135 after a failed begin, update or commit. */
  function RollbackEffects(who: Who, w: LoginWorld): seq<Effect> {
    if w.rollbackOk then [Db(Rollback, true), Respond(DatabaseError(who)), Db(Release, true)]
    else [Db(Rollback, false), Db(Release, true), Call("signOut", None), Respond(AuthFailed)]
  }

  /** Lines 137-156 after the commit: release, set the cookie, answer 200. */
  function CommittedEffects(who: Who, t: AccessToken, w: LoginWorld): seq<Effect> {
    [Db(Release, true), SetCookie("pixele_session", t.text, t.exp * 1000 - w.now), Respond(SessionReply(who, t))]
  }

  /** Line 119 onwards: commit. */
  function CommitEffects(who: Who, t: AccessToken, w: LoginWorld): seq<Effect> {
    [Db(Commit, w.commitOk)] + (if w.commitOk then CommittedEffects(who, t, w) else RollbackEffects(who, w))
  }

  /** Lines 115-118 onwards: the last_login update. */
  function UpdateEffects(who: Who, t: AccessToken, w: LoginWorld): seq<Effect> {
    [Db(Execute(UpdateLastLogin(who.username)), w.executeOk)]
      + (if w.executeOk then CommitEffects(who, t, w) else RollbackEffects(who, w))
  }

  /** Lines 113-156 on an acquired connection: begin, and the rest of the transaction. */
  function TxEffects(who: Who, t: AccessToken, w: LoginWorld): seq<Effect> {
    [Db(Begin, w.beginOk)] + (if w.beginOk then UpdateEffects(who, t, w) else RollbackEffects(who, w))
  }

  /** Lines 111-156 once the session holds a token. */
  function ConnectionEffects(who: Who, t: AccessToken, w: LoginWorld): seq<Effect> {
    if !w.acquireOk then [Db(Acquire, false), Call("signOut", None), Respond(AuthFailed)]
    else [Db(Acquire, true)] + TxEffects(who, t, w)
  }

  /** Lines 96-171. */
  function SessionEffects(who: Who, w: LoginWorld): seq<Effect> {
    [Call("fetchAuthSession", None)] +
    match w.session
    case Err(_) => [Call("signOut", None), Respond(AuthFailed)]
    case Ok(None) => [Respond(TokenUnavailable(who))]
    case Ok(Some(t)) => ConnectionEffects(who, t, w)
  }

  /** Line 77: the confirmation code is sent again when the account is unconfirmed. */
  function ResendEffects(s: SignInResult, who: Who): seq<Effect> {
    if s.signInStep == Some(ConfirmSignUp) then [Call("resendConfirmationCode", who.username)] else []
  }

  /** Lines 77-94 after a sign-in that resolved. */
  function SignedInEffects(s: SignInResult, who: Who, w: LoginWorld): seq<Effect> {
    ResendEffects(s, who) + (if Incomplete(s) then [Respond(AuthIncomplete(who, s.signInStep))] else SessionEffects(who, w))
  }

  /** Lines 75-94: what follows the sign-in attempt. */
  function AfterSignIn(identifier: string, who: Who, w: LoginWorld): seq<Effect> {
    match w.signIn
    case Err(f) => [Call("signOut", None), Respond(SignInErrorReply(f, identifier))]
    case Ok(s) => SignedInEffects(s, who, w)
  }

  /** Lines 68-94 and what follows a completed sign-in. */
  function SignInEffects(identifier: string, who: Who, w: LoginWorld): seq<Effect> {
    [Call("signIn", who.username)] + AfterSignIn(identifier, who, w)
  }

  /** The look-up call of lines 41-66. */
  function LookupCall(identifier: string): Effect {
    if '@' in identifier then Call("listUsers", Some(LoginFilter(identifier))) else Call("adminGetUser", Some(identifier))
  }

  /** Everything the route does for a validated identifier, in order. */
  function LoginEffects(identifier: string, w: LoginWorld): seq<Effect> {
    [Call("signOut", None), LookupCall(identifier)] + SignInEffects(identifier, Identify(identifier, w), w)
  }

  /** Lines 39-66: the look-up, with the username and email it settles on. */
  method Resolve(identifier: string, w: LoginWorld, res: Recorder) returns (who: Who)
    modifies res
    ensures who == Identify(identifier, w)
    ensures res.effects == old(res.effects) + [LookupCall(identifier)]
  {
    var username := Some(identifier);
    var email := identifier;
    if '@' in identifier {
      res.Add(Call("listUsers", Some(LoginFilter(identifier))));
      if w.listing.Ok? && w.listing.value.Some? {
        var users := w.listing.value.value;
        username := if |users| > 0 then Some(users[0].username) else None;
      }
    } else {
      res.Add(Call("adminGetUser", Some(identifier)));
      if w.lookup.Ok? && w.lookup.value.email.Some? && w.lookup.value.email.value != "" {
        email := w.lookup.value.email.value;
      }
    }
    who := Who(username, email);
  }

  /** Lines 121-135: roll back, then answer and release. */
  method Abort(c: Connection, who: Who, w: LoginWorld)
    requires !c.state.released && c.state.tx != Committed
    modifies c, c.log
    ensures c.log.effects == old(c.log.effects) + RollbackEffects(who, w)
  {
    c.Rollback(w.rollbackOk);
    if w.rollbackOk {
      c.log.Add(Respond(DatabaseError(who)));
      c.Release();
    } else {
      c.Release();
      c.log.Add(Call("signOut", None));
      c.log.Add(Respond(AuthFailed));
    }
  }

  /** Lines 113-156: the last_login transaction, then the cookie and the session reply. */
  method Transaction(c: Connection, who: Who, t: AccessToken, w: LoginWorld)
    requires c.state == Fresh
    modifies c, c.log
    ensures c.log.effects == old(c.log.effects) + TxEffects(who, t, w)
  {
    c.Begin(w.beginOk);
    ghost var e1 := c.log.effects;
    if !w.beginOk {
      Abort(c, who, w);
      Regroup(old(c.log.effects), [Db(Begin, false)], RollbackEffects(who, w));
      return;
    }
    c.Execute(UpdateLastLogin(who.username), w.executeOk);
    ghost var e2 := c.log.effects;
    if !w.executeOk {
      Abort(c, who, w);
      Regroup(e1, [Db(Execute(UpdateLastLogin(who.username)), false)], RollbackEffects(who, w));
      Regroup(old(c.log.effects), [Db(Begin, true)], UpdateEffects(who, t, w));
      return;
    }
    c.Commit(w.commitOk);
    if !w.commitOk {
      Abort(c, who, w);
      Regroup(e2, [Db(Commit, false)], RollbackEffects(who, w));
    } else {
      c.Release();
      c.log.AddAll([SetCookie("pixele_session", t.text, t.exp * 1000 - w.now), Respond(SessionReply(who, t))]);
    }
    Regroup(e1, [Db(Execute(UpdateLastLogin(who.username)), true)], CommitEffects(who, t, w));
    Regroup(old(c.log.effects), [Db(Begin, true)], UpdateEffects(who, t, w));
  }

  /** Lines 96-171: fetch the session and, with a token, run the transaction. */
  method Session(who: Who, w: LoginWorld, res: Recorder)
    modifies res
    ensures res.effects == old(res.effects) + SessionEffects(who, w)
  {
    res.Add(Call("fetchAuthSession", None));
    ghost var pre := res.effects;
    match w.session
    case Err(_) =>
      res.AddAll([Call("signOut", None), Respond(AuthFailed)]);
      Regroup(old(res.effects), [Call("fetchAuthSession", None)], [Call("signOut", None), Respond(AuthFailed)]);
    case Ok(None) =>
      res.Add(Respond(TokenUnavailable(who)));
      Regroup(old(res.effects), [Call("fetchAuthSession", None)], [Respond(TokenUnavailable(who))]);
    case Ok(Some(t)) =>
      var c := AcquireConnection(res, w.acquireOk);
      if c == null {
        res.AddAll([Call("signOut", None), Respond(AuthFailed)]);
        Regroup(pre, [Db(Acquire, false)], [Call("signOut", None), Respond(AuthFailed)]);
      } else {
        Transaction(c, who, t, w);
        Regroup(pre, [Db(Acquire, true)], TxEffects(who, t, w));
      }
      Regroup(old(res.effects), [Call("fetchAuthSession", None)], ConnectionEffects(who, t, w));
  }

  /** Lines 77-94: resend the code if needed, then answer AUTH_INCOMPLETE or go on to the session. */
  method SignedIn(s: SignInResult, who: Who, w: LoginWorld, res: Recorder)
    modifies res
    ensures res.effects == old(res.effects) + SignedInEffects(s, who, w)
  {
    if s.signInStep == Some(ConfirmSignUp) {
      res.Add(Call("resendConfirmationCode", who.username));
    }
    ghost var mid := res.effects;
    assert mid == old(res.effects) + ResendEffects(s, who);
    if Incomplete(s) {
      res.Add(Respond(AuthIncomplete(who, s.signInStep)));
      Regroup(old(res.effects), ResendEffects(s, who), [Respond(AuthIncomplete(who, s.signInStep))]);
    } else {
      Session(who, w, res);
      Regroup(old(res.effects), ResendEffects(s, who), SessionEffects(who, w));
    }
  }

  /** Lines 75-94: answer a failed sign-in, or carry on with the resolved one. */
  method Proceed(identifier: string, who: Who, w: LoginWorld, res: Recorder)
    modifies res
    ensures res.effects == old(res.effects) + AfterSignIn(identifier, who, w)
  {
    match w.signIn
    case Err(f) =>
      res.AddAll([Call("signOut", None), Respond(SignInErrorReply(f, identifier))]);
    case Ok(s) =>
      SignedIn(s, who, w, res);
  }

  /** The route handler; `identifier` is the body field as the middleware stored it. */
  method HandleLogin(identifier: string, w: LoginWorld, res: Recorder)
    modifies res
    ensures res.effects == old(res.effects) + LoginEffects(identifier, w)
  {
    res.Add(Call("signOut", None));
    var who := Resolve(identifier, w, res);
    Regroup(old(res.effects), [Call("signOut", None)], [LookupCall(identifier)]);
    ghost var pre := res.effects;
    res.Add(Call("signIn", who.username));
    Proceed(identifier, who, w, res);
    Regroup(pre, [Call("signIn", who.username)], AfterSignIn(identifier, who, w));
    Regroup(old(res.effects), [Call("signOut", None), LookupCall(identifier)], SignInEffects(identifier, who, w));
  }

  /** The reply once signed in: lines 96-171 classified by the session and connection outcomes. */
  function SessionOutcome(who: Who, w: LoginWorld): Reply {
    match w.session
    case Err(_) => AuthFailed
    case Ok(None) => TokenUnavailable(who)
    case Ok(Some(t)) =>
      if !w.acquireOk then AuthFailed
      else if w.beginOk && w.executeOk && w.commitOk then SessionReply(who, t)
      else if w.rollbackOk then DatabaseError(who)
      else AuthFailed
  }

  /** The reply by the sign-in outcome, for the account the identifier resolved to. */
  function SignInOutcome(identifier: string, who: Who, w: LoginWorld): Reply {
    match w.signIn
    case Err(f) => SignInErrorReply(f, identifier)
    case Ok(s) => if Incomplete(s) then AuthIncomplete(who, s.signInStep) else SessionOutcome(who, w)
  }

  /** The one reply the route writes, as an independent classification of the outcomes. */
  function LoginOutcome(identifier: string, w: LoginWorld): Reply {
    SignInOutcome(identifier, Identify(identifier, w), w)
  }

  lemma RollbackResponds(who: Who, w: LoginWorld)
    ensures Responses(RollbackEffects(who, w)) == [if w.rollbackOk then DatabaseError(who) else AuthFailed]
  {
    var r := RollbackEffects(who, w);
    UnfoldResponses(r);
    assert r[0..] == r && r[|r|..] == [];
  }

  /** A written-out prefix without replies followed by a tail. */
  lemma QuietPrefix(p: seq<Effect>, q: seq<Effect>)
    requires forall i :: 0 <= i < |p| ==> !p[i].Respond?
    ensures Responses(p + q) == Responses(q)
  {
    Silent(p);
    ResponsesAppend(p, q);
  }

  /** The single reply of the transaction. */
  function TxReply(who: Who, t: AccessToken, w: LoginWorld): Reply {
    if w.beginOk && w.executeOk && w.commitOk then SessionReply(who, t)
    else if w.rollbackOk then DatabaseError(who) else AuthFailed
  }

  /** The reply of the commit step and what follows it. */
  lemma CommitResponds(who: Who, t: AccessToken, w: LoginWorld)
    ensures Responses(CommitEffects(who, t, w))
      == [if w.commitOk then SessionReply(who, t) else if w.rollbackOk then DatabaseError(who) else AuthFailed]
  {
    if w.commitOk {
      var c := CommittedEffects(who, t, w);
      UnfoldResponses(c);
      assert c[0..] == c && c[3..] == [];
      Peel(Db(Commit, true), c);
    } else {
      RollbackResponds(who, w);
      Peel(Db(Commit, false), RollbackEffects(who, w));
    }
  }

  /** The reply of the update step and what follows it. */
  lemma UpdateResponds(who: Who, t: AccessToken, w: LoginWorld)
    ensures Responses(UpdateEffects(who, t, w))
      == [if w.executeOk && w.commitOk then SessionReply(who, t) else if w.rollbackOk then DatabaseError(who) else AuthFailed]
  {
    var op := Db(Execute(UpdateLastLogin(who.username)), w.executeOk);
    if w.executeOk {
      CommitResponds(who, t, w);
      Peel(op, CommitEffects(who, t, w));
    } else {
      RollbackResponds(who, w);
      Peel(op, RollbackEffects(who, w));
    }
  }

  lemma TxResponds(who: Who, t: AccessToken, w: LoginWorld)
    ensures Responses(TxEffects(who, t, w)) == [TxReply(who, t, w)]
  {
    if w.beginOk {
      UpdateResponds(who, t, w);
      Peel(Db(Begin, true), UpdateEffects(who, t, w));
    } else {
      RollbackResponds(who, w);
      Peel(Db(Begin, false), RollbackEffects(who, w));
    }
  }

  lemma ConnectionResponds(who: Who, t: AccessToken, w: LoginWorld)
    ensures Responses(ConnectionEffects(who, t, w)) == [if w.acquireOk then TxReply(who, t, w) else AuthFailed]
  {
    if w.acquireOk {
      TxResponds(who, t, w);
      Peel(Db(Acquire, true), TxEffects(who, t, w));
    } else {
      var r := ConnectionEffects(who, t, w);
      UnfoldResponses(r);
      assert r[0..] == r && r[3..] == [];
    }
  }

  /** The token of the session when the route gets as far as the connection. */
  function Reached(w: LoginWorld): Option<AccessToken> {
    if w.signIn.Ok? && !Incomplete(w.signIn.value) && w.session.Ok? then w.session.value else None
  }

  lemma SessionResponds(who: Who, w: LoginWorld)
    ensures Responses(SessionEffects(who, w)) == [SessionOutcome(who, w)]
  {
    var tail := match w.session
      case Err(_) => [Call("signOut", None), Respond(AuthFailed)]
      case Ok(None) => [Respond(TokenUnavailable(who))]
      case Ok(Some(t)) => ConnectionEffects(who, t, w);
    Peel(Call("fetchAuthSession", None), tail);
    if w.session.Ok? && w.session.value.Some? {
      ConnectionResponds(who, w.session.value.value, w);
    } else {
      UnfoldResponses(tail);
      assert tail[0..] == tail && tail[|tail|..] == [];
    }
  }

  lemma AfterSignInResponds(identifier: string, who: Who, w: LoginWorld)
    ensures Responses(AfterSignIn(identifier, who, w)) == [SignInOutcome(identifier, who, w)]
  {
    var after := AfterSignIn(identifier, who, w);
    match w.signIn
    case Err(f) =>
      UnfoldResponses(after);
      assert after[0..] == after && after[2..] == [];
    case Ok(s) =>
      Silent(ResendEffects(s, who));
      ResponsesAppend(ResendEffects(s, who),
        if Incomplete(s) then [Respond(AuthIncomplete(who, s.signInStep))] else SessionEffects(who, w));
      SessionResponds(who, w);
  }

  /** Before the sign-in outcome is known the route neither answers nor touches the database. */
  lemma PrefixQuiet(identifier: string, w: LoginWorld)
    ensures Responses(LoginEffects(identifier, w)) == Responses(AfterSignIn(identifier, Identify(identifier, w), w))
    ensures DbOps(LoginEffects(identifier, w)) == DbOps(AfterSignIn(identifier, Identify(identifier, w), w))
  {
    var pre := [Call("signOut", None), LookupCall(identifier)];
    Silent(pre);
    NoDb(pre);
    ResponsesAppend(pre, SignInEffects(identifier, Identify(identifier, w), w));
    DbOpsAppend(pre, SignInEffects(identifier, Identify(identifier, w), w));
    Peel(Call("signIn", Identify(identifier, w).username), AfterSignIn(identifier, Identify(identifier, w), w));
  }

  /** The route writes exactly one reply, the one the classification names. */
  lemma LoginResponds(identifier: string, w: LoginWorld)
    ensures Responses(LoginEffects(identifier, w)) == [LoginOutcome(identifier, w)]
  {
    PrefixQuiet(identifier, w);
    AfterSignInResponds(identifier, Identify(identifier, w), w);
  }

  lemma SessionOps(who: Who, w: LoginWorld)
    ensures DbOps(SessionEffects(who, w)) ==
      (match w.session case Ok(Some(t)) => DbOps(ConnectionEffects(who, t, w)) case _ => [])
  {
    var tail := match w.session
      case Err(_) => [Call("signOut", None), Respond(AuthFailed)]
      case Ok(None) => [Respond(TokenUnavailable(who))]
      case Ok(Some(t)) => ConnectionEffects(who, t, w);
    Peel(Call("fetchAuthSession", None), tail);
    if !(w.session.Ok? && w.session.value.Some?) {
      NoDb(tail);
    }
  }

  lemma AfterSignInOps(identifier: string, who: Who, w: LoginWorld)
    ensures DbOps(AfterSignIn(identifier, who, w)) ==
      (match Reached(w) case Some(t) => DbOps(ConnectionEffects(who, t, w)) case None => [])
  {
    var after := AfterSignIn(identifier, who, w);
    match w.signIn
    case Err(f) =>
      NoDb(after);
    case Ok(s) =>
      var tail := if Incomplete(s) then [Respond(AuthIncomplete(who, s.signInStep))] else SessionEffects(who, w);
      NoDb(ResendEffects(s, who));
      DbOpsAppend(ResendEffects(s, who), tail);
      if Incomplete(s) {
        NoDb(tail);
      } else {
        SessionOps(who, w);
      }
  }

  /** The connection operations of the route: none unless it gets as far as the connection. */
  lemma LoginOps(identifier: string, w: LoginWorld)
    ensures DbOps(LoginEffects(identifier, w)) ==
      (match Reached(w) case Some(t) => DbOps(ConnectionEffects(Identify(identifier, w), t, w)) case None => [])
  {
    PrefixQuiet(identifier, w);
    AfterSignInOps(identifier, Identify(identifier, w), w);
  }

  lemma RollbackReplay(who: Who, w: LoginWorld, s: ConnState)
    requires !s.released && s.tx != Committed
    ensures EndsReleased(s, DbOps(RollbackEffects(who, w)))
  {
    var r := RollbackEffects(who, w);
    UnfoldDbOps(r);
    assert r[0..] == r && r[|r|..] == [];
    assert DbOps(r) == [(Rollback, w.rollbackOk)] + [(Release, true)];
    var s1 := Step(s, Rollback, w.rollbackOk).value;
    ReplayStep(s, Rollback, w.rollbackOk, [(Release, true)]);
    ReplayStep(s1, Release, true, []);
  }

  lemma CommitReplay(who: Who, t: AccessToken, w: LoginWorld)
    ensures EndsReleased(ConnState(InTx, false), DbOps(CommitEffects(who, t, w)))
    ensures w.commitOk ==> DbOps(CommitEffects(who, t, w)) == [(Commit, true), (Release, true)]
  {
    var s := ConnState(InTx, false);
    var c := CommittedEffects(who, t, w);
    var rest := if w.commitOk then c else RollbackEffects(who, w);
    Peel(Db(Commit, w.commitOk), rest);
    ReplayStep(s, Commit, w.commitOk, DbOps(rest));
    if w.commitOk {
      UnfoldDbOps(c);
      assert c[0..] == c && c[3..] == [];
      ReplayStep(s.(tx := Committed), Release, true, []);
    } else {
      RollbackReplay(who, w, s);
    }
  }

  lemma UpdateReplay(who: Who, t: AccessToken, w: LoginWorld)
    ensures EndsReleased(ConnState(InTx, false), DbOps(UpdateEffects(who, t, w)))
    ensures w.executeOk && w.commitOk ==>
      DbOps(UpdateEffects(who, t, w)) == [(Execute(UpdateLastLogin(who.username)), true), (Commit, true), (Release, true)]
  {
    var s := ConnState(InTx, false);
    var u := Execute(UpdateLastLogin(who.username));
    var rest := if w.executeOk then CommitEffects(who, t, w) else RollbackEffects(who, w);
    Peel(Db(u, w.executeOk), rest);
    ReplayStep(s, u, w.executeOk, DbOps(rest));
    if w.executeOk {
      CommitReplay(who, t, w);
    } else {
      RollbackReplay(who, w, s);
    }
  }

  /** The last_login transaction follows the connection protocol and releases the connection on every path. */
  lemma TxReplay(who: Who, t: AccessToken, w: LoginWorld)
    ensures EndsReleased(Fresh, DbOps(TxEffects(who, t, w)))
    ensures w.beginOk && w.executeOk && w.commitOk ==>
      DbOps(TxEffects(who, t, w)) == [(Begin, true), (Execute(UpdateLastLogin(who.username)), true), (Commit, true), (Release, true)]
  {
    var rest := if w.beginOk then UpdateEffects(who, t, w) else RollbackEffects(who, w);
    Peel(Db(Begin, w.beginOk), rest);
    ReplayStep(Fresh, Begin, w.beginOk, DbOps(rest));
    if w.beginOk {
      UpdateReplay(who, t, w);
    } else {
      RollbackReplay(who, w, Fresh);
    }
  }

  lemma ConnectionDisciplined(who: Who, t: AccessToken, w: LoginWorld)
    ensures w.acquireOk ==> DbOps(ConnectionEffects(who, t, w)) == [(Acquire, true)] + DbOps(TxEffects(who, t, w))
    ensures !w.acquireOk ==> DbOps(ConnectionEffects(who, t, w)) == [(Acquire, false)]
  {
    if w.acquireOk {
      Peel(Db(Acquire, true), TxEffects(who, t, w));
    } else {
      var r := ConnectionEffects(who, t, w);
      UnfoldDbOps(r);
      assert r[0..] == r && r[3..] == [];
    }
  }

  /**
   * Every path of the route uses the connection by the protocol: after a
   * successful acquisition it releases the connection, and without one it
   * touches nothing else.
   */
  lemma LoginDisciplined(identifier: string, w: LoginWorld)
    ensures Disciplined(LoginEffects(identifier, w))
  {
    LoginOps(identifier, w);
    if Reached(w).Some? {
      var who, t := Identify(identifier, w), Reached(w).value;
      ConnectionDisciplined(who, t, w);
      TxReplay(who, t, w);
      var ops := DbOps(LoginEffects(identifier, w));
      if w.acquireOk {
        assert ops[1..] == DbOps(TxEffects(who, t, w));
      }
    }
  }

  /** 403 AUTH_INCOMPLETE exactly when the sign-in resolved without being complete. */
  lemma AuthIncompleteExactly(identifier: string, w: LoginWorld)
    ensures LoginOutcome(identifier, w).code == "AUTH_INCOMPLETE" <==> w.signIn.Ok? && Incomplete(w.signIn.value)
    ensures LoginOutcome(identifier, w).code == "AUTH_INCOMPLETE" ==> LoginOutcome(identifier, w).status == 403
  {
  }

  /** TOKEN_UNAVAILABLE exactly when the session has no token, and then no connection is acquired. */
  lemma TokenUnavailableBeforeConnection(identifier: string, w: LoginWorld)
    ensures LoginOutcome(identifier, w).code == "TOKEN_UNAVAILABLE" <==>
      w.signIn.Ok? && !Incomplete(w.signIn.value) && w.session == Ok(None)
    ensures LoginOutcome(identifier, w).code == "TOKEN_UNAVAILABLE" ==> DbOps(LoginEffects(identifier, w)) == []
  {
    LoginOps(identifier, w);
  }

  /**
   * 200 exactly when every step succeeded; the connection then saw acquire,
   * begin, the update, commit and release, in that order, and the session's
   * expiry is the token's `exp` in milliseconds.
   */
  lemma SuccessAfterCommit(identifier: string, w: LoginWorld)
    ensures LoginOutcome(identifier, w).status == 200 <==>
      Reached(w).Some? && w.acquireOk && w.beginOk && w.executeOk && w.commitOk
    ensures LoginOutcome(identifier, w).status == 200 ==>
      var who, t := Identify(identifier, w), Reached(w).value;
      && DbOps(LoginEffects(identifier, w)) ==
        [(Acquire, true), (Begin, true), (Execute(UpdateLastLogin(who.username)), true), (Commit, true), (Release, true)]
      && LoginOutcome(identifier, w).info == SessionInfo(t.text, who.username, who.email, t.exp * 1000)
  {
    if Reached(w).Some? && w.acquireOk && w.beginOk && w.executeOk && w.commitOk {
      SuccessTrace(identifier, w);
    }
  }

  lemma SuccessTrace(identifier: string, w: LoginWorld)
    requires Reached(w).Some? && w.acquireOk && w.beginOk && w.executeOk && w.commitOk
    ensures var who, t := Identify(identifier, w), Reached(w).value;
      DbOps(LoginEffects(identifier, w)) ==
        [(Acquire, true), (Begin, true), (Execute(UpdateLastLogin(who.username)), true), (Commit, true), (Release, true)]
  {
    LoginOps(identifier, w);
    SuccessConnectionOps(Identify(identifier, w), Reached(w).value, w);
  }

  /** On an acquired connection where every step succeeds: acquire, begin, the update, commit, release. */
  lemma SuccessConnectionOps(who: Who, t: AccessToken, w: LoginWorld)
    requires w.acquireOk && w.beginOk && w.executeOk && w.commitOk
    ensures DbOps(ConnectionEffects(who, t, w)) ==
      [(Acquire, true), (Begin, true), (Execute(UpdateLastLogin(who.username)), true), (Commit, true), (Release, true)]
  {
    ConnectionDisciplined(who, t, w);
    TxReplay(who, t, w);
  }

  /** The session cookie lives until the token expires: its max-age is `exp` in milliseconds minus the clock. */
  lemma CookieUntilExpiry(who: Who, t: AccessToken, w: LoginWorld)
    requires w.beginOk && w.executeOk && w.commitOk
    ensures SetCookie("pixele_session", t.text, t.exp * 1000 - w.now) in TxEffects(who, t, w)
  {
    var c := CommittedEffects(who, t, w);
    assert TxEffects(who, t, w) == [Db(Begin, true)] + ([Db(Execute(UpdateLastLogin(who.username)), true)] + ([Db(Commit, true)] + c));
    assert c[1] == SetCookie("pixele_session", t.text, t.exp * 1000 - w.now);
  }
}
