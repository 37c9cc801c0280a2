/**
 * The Confirm-New-Password route (Confirm-New-Password/index.js) after its
 * input middleware: look the account up; resend the confirmation code to an
 * unconfirmed account; otherwise confirm the new password with the provider.
 * Every provider outcome is an input (`ConfirmWorld`).
 */
module Confirm {
  import opened Wrappers
  import opened Http
  import ConfirmInput

  /**
   * The outcomes of the provider calls: the account `adminGetUser` returns or
   * the error it throws, and the errors `resendConfirmationCode` and
   * `confirmForgotPassword` throw (None when the call succeeds).
   */
  datatype ConfirmWorld = ConfirmWorld(
    lookup: Result<CognitoUser, Fault>,
    resend: Option<Fault>,
    confirm: Option<Fault>)

  const Confirmed := "CONFIRMED"
  const Limit := "LimitExceededException"
  const NotFound := "UserNotFoundException"

  /** Reading `UserStatus` of the undefined `userData` at line 44 throws a TypeError. */
  const ReadOfUndefined := TypeError

  const InvalidCredentials := Reply(401, "Invalid credentials.", "INVALID_CREDENTIALS", NoInfo)
  const ResendLimited := Reply(429, "Too many attempts. Please try again later.", "RATE_LIMIT_EXCEEDED", NoInfo)
  const ResendFailed := Reply(500, "Failed to resend verification code.", "SERVER_ERROR", NoInfo)
  const ResetDone := Reply(200, "Successfully reset password.", "PASSWORD_RESET_SUCCESS", NoInfo)
  const ServerError := Reply(500, "Internal Server Error", "SERVER_ERROR", NoInfo)

  /** Lines 52-59: the 403 names the username of the request and the account's email. */
  function ConfirmSignUp(username: string, user: CognitoUser): Reply {
    Reply(403, "Email verification required. Confirmation code has been resent.", "CONFIRM_SIGN_UP",
      Account(Some(username), user.email))
  }

  /** Lines 89-112: an error that reaches the outer handler, by its name. */
  function ErrorReply(f: Fault): (r: Reply)
    ensures f.name == "CodeMismatchException" <==> r.code == "INVALID_CODE"
    ensures f.name == "ExpiredCodeException" <==> r.code == "EXPIRED_CODE"
    ensures f.name in {"CodeMismatchException", "ExpiredCodeException"} <==> r.status == 400
    ensures f.name in {Limit, "TooManyRequestsException"} <==> r.status == 429
    ensures f.name !in {"CodeMismatchException", "ExpiredCodeException", Limit, "TooManyRequestsException"}
      <==> r == ServerError
    ensures r.status != 200 && r.status != 403
  {
    if f.name == "CodeMismatchException" then Reply(400, "Invalid confirmation code.", "INVALID_CODE", NoInfo)
    else if f.name == "ExpiredCodeException" then Reply(400, "Confirmation code has expired.", "EXPIRED_CODE", NoInfo)
    else if f.name == Limit || f.name == "TooManyRequestsException" then
      Reply(429, "Too many attempts. Please try again later.", "RATE_LIMIT_EXCEEDED", NoInfo)
    else ServerError
  }

  /** The reply of the password confirmation. */
  function ResetReply(w: ConfirmWorld): Reply {
    match w.confirm case None => ResetDone case Some(e) => ErrorReply(e)
  }

  /** Lines 76-88: confirm the new password, then answer; a failure goes to the outer handler. */
  function ResetEffects(f: ConfirmInput.Fields, w: ConfirmWorld): seq<Effect> {
    [Call("confirmForgotPassword", Some(f.username)), Respond(ResetReply(w))]
  }

  /** Lines 46-73: after the resend; a failure other than the rate limit answers 500 and carries on. */
  function ResendEffects(f: ConfirmInput.Fields, user: CognitoUser, w: ConfirmWorld): seq<Effect> {
    match w.resend
    case None => [Respond(ConfirmSignUp(f.username, user))]
    case Some(e) => if e.code == Limit then [Respond(ResendLimited)] else [Respond(ResendFailed)] + ResetEffects(f, w)
  }

  /** Lines 44-88 for the account found. */
  function AccountEffects(f: ConfirmInput.Fields, user: CognitoUser, w: ConfirmWorld): seq<Effect> {
    if user.status != Confirmed then [Call("resendConfirmationCode", Some(f.username))] + ResendEffects(f, user, w)
    else ResetEffects(f, w)
  }

  /** Lines 32-42: only an unknown user is answered here; any other lookup error leaves `userData` undefined. */
  function LookupFailedReply(e: Fault): Reply {
    if e.code == NotFound then InvalidCredentials else ErrorReply(ReadOfUndefined)
  }

  /** Everything the route does for validated fields, in order. */
  function ConfirmEffects(f: ConfirmInput.Fields, w: ConfirmWorld): seq<Effect> {
    [Call("adminGetUser", Some(f.username))]
      + (match w.lookup case Err(e) => [Respond(LookupFailedReply(e))] case Ok(user) => AccountEffects(f, user, w))
  }

  /** Lines 76-88: the password confirmation call, then its reply or the outer handler's. */
  method Reset(f: ConfirmInput.Fields, w: ConfirmWorld, res: Recorder)
    modifies res
    ensures res.effects == old(res.effects) + ResetEffects(f, w)
  {
    res.Add(Call("confirmForgotPassword", Some(f.username)));
    if w.confirm.Some? {
      res.Add(Respond(ErrorReply(w.confirm.value)));
    } else {
      res.Add(Respond(ResetDone));
    }
  }

  /** Lines 44-88 once the account is known. */
  method Proceed(f: ConfirmInput.Fields, user: CognitoUser, w: ConfirmWorld, res: Recorder)
    modifies res
    ensures res.effects == old(res.effects) + AccountEffects(f, user, w)
  {
    if user.status != Confirmed {
      res.Add(Call("resendConfirmationCode", Some(f.username)));
      ghost var e1 := res.effects;
      if w.resend.None? {
        res.Add(Respond(ConfirmSignUp(f.username, user)));
        return;
      }
      if w.resend.value.code == Limit {
        res.Add(Respond(ResendLimited));
        return;
      }
      res.Add(Respond(ResendFailed));
      Reset(f, w, res);
      Regroup(e1, [Respond(ResendFailed)], ResetEffects(f, w));
      Regroup(old(res.effects), [Call("resendConfirmationCode", Some(f.username))], ResendEffects(f, user, w));
      return;
    }
    Reset(f, w, res);
  }

  /** The route handler; `f` holds the body fields as the middleware stored them. */
  method HandleConfirm(f: ConfirmInput.Fields, w: ConfirmWorld, res: Recorder)
    modifies res
    ensures res.effects == old(res.effects) + ConfirmEffects(f, w)
  {
    res.Add(Call("adminGetUser", Some(f.username)));
    var userData: Option<CognitoUser> := None;
    if w.lookup.Err? {
      if w.lookup.error.code == NotFound {
        res.Add(Respond(InvalidCredentials));
        return;
      }
    } else {
      userData := Some(w.lookup.value);
    }
    if userData.None? {
      res.Add(Respond(ErrorReply(ReadOfUndefined)));
      return;
    }
    Proceed(f, userData.value, w, res);
  }

  /** The resend failed for a reason other than the rate limit. */
  predicate ResendBroke(w: ConfirmWorld) {
    w.resend.Some? && w.resend.value.code != Limit
  }

  /** The replies written, as an independent classification of the outcomes. */
  function ConfirmReplies(f: ConfirmInput.Fields, w: ConfirmWorld): seq<Reply> {
    match w.lookup
    case Err(e) => if e.code == NotFound then [InvalidCredentials] else [ServerError]
    case Ok(user) =>
      if user.status == Confirmed then [ResetReply(w)]
      else if w.resend.None? then [ConfirmSignUp(f.username, user)]
      else if !ResendBroke(w) then [ResendLimited]
      else [ResendFailed, ResetReply(w)]
  }

  /** The provider operations called, as an independent classification of the outcomes. */
  function ConfirmCalls(w: ConfirmWorld): seq<string> {
    ["adminGetUser"]
      + (match w.lookup
         case Err(_) => []
         case Ok(user) =>
           if user.status == Confirmed then ["confirmForgotPassword"]
           else ["resendConfirmationCode"] + (if ResendBroke(w) then ["confirmForgotPassword"] else []))
  }

  lemma ResetProjects(f: ConfirmInput.Fields, w: ConfirmWorld)
    ensures Responses(ResetEffects(f, w)) == [ResetReply(w)]
    ensures Calls(ResetEffects(f, w)) == ["confirmForgotPassword"]
  {
    var r := Respond(ResetReply(w));
    Peel(r, []);
    Peel(Call("confirmForgotPassword", Some(f.username)), [r]);
  }

  lemma AccountProjects(f: ConfirmInput.Fields, user: CognitoUser, w: ConfirmWorld)
    requires w.lookup == Ok(user)
    ensures Responses(AccountEffects(f, user, w)) == ConfirmReplies(f, w)
    ensures Calls(AccountEffects(f, user, w)) == ConfirmCalls(w)[1..]
  {
    ResetProjects(f, w);
    if user.status != Confirmed {
      if w.resend.None? {
        Peel(Respond(ConfirmSignUp(f.username, user)), []);
      } else if !ResendBroke(w) {
        Peel(Respond(ResendLimited), []);
      } else {
        Peel(Respond(ResendFailed), ResetEffects(f, w));
      }
      Peel(Call("resendConfirmationCode", Some(f.username)), ResendEffects(f, user, w));
    }
  }

  /** The replies written are the ones the classification names; two of them when a failed resend falls through. */
  lemma ConfirmResponds(f: ConfirmInput.Fields, w: ConfirmWorld)
    ensures Responses(ConfirmEffects(f, w)) == ConfirmReplies(f, w)
    ensures Calls(ConfirmEffects(f, w)) == ConfirmCalls(w)
  {
    var tail := match w.lookup case Err(e) => [Respond(LookupFailedReply(e))] case Ok(user) => AccountEffects(f, user, w);
    Peel(Call("adminGetUser", Some(f.username)), tail);
    match w.lookup
    case Err(e) => Peel(Respond(LookupFailedReply(e)), []);
    case Ok(user) => AccountProjects(f, user, w);
  }

  /**
   * A lookup error other than an unknown user is swallowed, the status read
   * on the undefined result throws, and the outer handler answers 500;
   * neither a resend nor the confirmation is attempted.
   */
  lemma SwallowedLookup(f: ConfirmInput.Fields, w: ConfirmWorld)
    requires w.lookup.Err? && w.lookup.error.code != NotFound
    ensures ConfirmEffects(f, w) == [Call("adminGetUser", Some(f.username)), Respond(ServerError)]
  {
  }

  /** An unknown user is answered 401, and nothing else is called. */
  lemma UnknownUser(f: ConfirmInput.Fields, w: ConfirmWorld)
    requires w.lookup.Err? && w.lookup.error.code == NotFound
    ensures ConfirmEffects(f, w) == [Call("adminGetUser", Some(f.username)), Respond(InvalidCredentials)]
  {
  }

  /** An unconfirmed account whose code was resent gets 403 CONFIRM_SIGN_UP, and the password is not confirmed. */
  lemma ResentNoReset(f: ConfirmInput.Fields, w: ConfirmWorld)
    requires w.lookup.Ok? && w.lookup.value.status != Confirmed && w.resend.None?
    ensures Responses(ConfirmEffects(f, w)) == [ConfirmSignUp(f.username, w.lookup.value)]
    ensures "confirmForgotPassword" !in Calls(ConfirmEffects(f, w))
  {
    ConfirmResponds(f, w);
  }

  /**
   * A resend failure other than the rate limit writes 500 without returning:
   * the confirmation still runs and a second reply is written after it.
   */
  lemma FallThrough(f: ConfirmInput.Fields, w: ConfirmWorld)
    requires w.lookup.Ok? && w.lookup.value.status != Confirmed && ResendBroke(w)
    ensures EndsWith(ConfirmEffects(f, w), [Respond(ResendFailed)] + ResetEffects(f, w))
    ensures Responses(ConfirmEffects(f, w)) == [ResendFailed, ResetReply(w)]
    ensures "confirmForgotPassword" in Calls(ConfirmEffects(f, w))
  {
    ConfirmResponds(f, w);
    var tail := [Respond(ResendFailed)] + ResetEffects(f, w);
    assert EndsWith(tail, tail);
    EndsWithAfter([Call("resendConfirmationCode", Some(f.username))], tail, tail);
    EndsWithAfter([Call("adminGetUser", Some(f.username))], AccountEffects(f, w.lookup.value, w), tail);
  }

  /** A confirmed account: the password is confirmed and its outcome is the only reply; 200 exactly when it succeeds. */
  lemma ConfirmedResets(f: ConfirmInput.Fields, w: ConfirmWorld)
    requires w.lookup.Ok? && w.lookup.value.status == Confirmed
    ensures ConfirmEffects(f, w) == [Call("adminGetUser", Some(f.username))] + ResetEffects(f, w)
    ensures ConfirmReplies(f, w) == [ResetReply(w)]
    ensures ResetReply(w) == ResetDone <==> w.confirm.None?
  {
  }
}
