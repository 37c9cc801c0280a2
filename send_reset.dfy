/**
 * The Send-Reset-Password-Email route (Send-Reset-Password-Email/index.js)
 * after its input middleware: find the account by username, else by email;
 * resend the confirmation code to an unconfirmed account; otherwise start the
 * provider's forgot-password flow. Every provider outcome is an input
 * (`SendResetWorld`).
 */
module SendReset {
  import opened Wrappers
  import opened Http

  /**
   * The outcomes of the provider calls: the two listings, the error
   * `resendConfirmationCode` throws and the error `forgotPassword` throws
   * (None when the call succeeds).
   */
  datatype SendResetWorld = SendResetWorld(
    byUsername: Listing,
    byEmail: Listing,
    resend: Option<Fault>,
    forgot: Option<Fault>)

  const Confirmed := "CONFIRMED"
  const Limit := "LimitExceededException"

  const NoAccount := Reply(404, "No account found with this identifier.", "USER_NOT_FOUND", NoInfo)
  const ResendLimited := Reply(429, "Too many attempts. Please try again later.", "RATE_LIMIT_EXCEEDED", NoInfo)
  const ResendFailed := Reply(500, "Failed to resend verification code.", "SERVER_ERROR", NoInfo)
  const Sent := Reply(200, "Password reset email sent successfully.", "EMAIL_SEND_SUCCESS", NoInfo)

  /** Lines 58-65: the account still has to confirm its email; the code was sent again. */
  function ConfirmSignUp(user: CognitoUser): Reply {
    Reply(403, "Email verification required. Confirmation code has been resent.", "CONFIRM_SIGN_UP",
      Account(Some(user.username), user.email))
  }

  /** Lines 29 and 36: the listing filters, built without escaping. */
  function UsernameFilter(identifier: string): string {
    "username = \"" + identifier + "\""
  }

  function EmailFilter(identifier: string): string {
    "email = \"" + identifier + "\""
  }

  /** The two filters never coincide: they differ in their first character. */
  lemma FiltersDiffer(identifier: string)
    ensures UsernameFilter(identifier) != EmailFilter(identifier)
  {
    assert UsernameFilter(identifier)[0] == 'u' && EmailFilter(identifier)[0] == 'e';
  }

  /** Lines 93-121: an error that reaches the outer handler, by its code. */
  function ErrorReply(f: Fault): (r: Reply)
    ensures f.code == "UserNotFoundException" <==> r.status == 404
    ensures f.code == "InvalidParameterException" <==> r.status == 400
    ensures f.code in {"TooManyRequestsException", Limit} <==> r.status == 429
    ensures f.code !in {"UserNotFoundException", "InvalidParameterException", "TooManyRequestsException", Limit}
      <==> r.status == 500
    ensures r.status == 404 ==> r.code == "USER_NOT_FOUND"
    ensures r.status == 400 ==> r.code == "INVALID_EMAIL"
    ensures r.status == 429 ==> r.code == "RATE_LIMIT_EXCEEDED"
    ensures r.status == 500 ==> r.code == "SERVER_ERROR"
    ensures r.status != 200 && r.status != 403
  {
    match f.code
    case "UserNotFoundException" => Reply(404, "No account found with this email address.", "USER_NOT_FOUND", NoInfo)
    case "InvalidParameterException" => Reply(400, "Invalid email format.", "INVALID_EMAIL", NoInfo)
    case "TooManyRequestsException" => Reply(429, "Too many attempts. Please try again later.", "RATE_LIMIT_EXCEEDED", NoInfo)
    case "LimitExceededException" => Reply(429, "Request limit exceeded. Please try again later.", "RATE_LIMIT_EXCEEDED", NoInfo)
    case _ => Reply(500, "Internal server error.", "SERVER_ERROR", NoInfo)
  }

  /** Lines 82-92: start the reset, then answer; a failure goes to the outer handler. */
  function ForgotEffects(user: CognitoUser, w: SendResetWorld): seq<Effect> {
    [Call("forgotPassword", Some(user.username)),
     Respond(match w.forgot case None => Sent case Some(e) => ErrorReply(e))]
  }

  /** Lines 58-79: after the resend; a failure other than the rate limit answers 500 and carries on to the reset. */
  function ResendEffects(user: CognitoUser, w: SendResetWorld): seq<Effect> {
    match w.resend
    case None => [Respond(ConfirmSignUp(user))]
    case Some(e) => if e.code == Limit then [Respond(ResendLimited)] else [Respond(ResendFailed)] + ForgotEffects(user, w)
  }

  /** Lines 47-92 for the account found. */
  function AccountEffects(user: CognitoUser, w: SendResetWorld): seq<Effect> {
    if user.status != Confirmed then [Call("resendConfirmationCode", Some(user.username))] + ResendEffects(user, w)
    else ForgotEffects(user, w)
  }

  /** Lines 36-45: the email listing. */
  function ByEmailEffects(w: SendResetWorld): seq<Effect> {
    match w.byEmail
    case Err(e) => [Respond(ErrorReply(e))]
    case Ok(_) =>
      match FirstListed(w.byEmail)
      case None => [Respond(NoAccount)]
      case Some(user) => AccountEffects(user, w)
  }

  /** Lines 33-45: the username listing, and the email listing when it finds no one. */
  function ByUsernameEffects(identifier: string, w: SendResetWorld): seq<Effect> {
    match w.byUsername
    case Err(e) => [Respond(ErrorReply(e))]
    case Ok(_) =>
      match FirstListed(w.byUsername)
      case None => [Call("listUsers", Some(EmailFilter(identifier)))] + ByEmailEffects(w)
      case Some(user) => AccountEffects(user, w)
  }

  /** Everything the route does for the stored identifier, in order. */
  function SendResetEffects(identifier: string, w: SendResetWorld): seq<Effect> {
    [Call("listUsers", Some(UsernameFilter(identifier)))] + ByUsernameEffects(identifier, w)
  }

  /** Lines 47-92 once an account is found. */
  method Proceed(user: CognitoUser, w: SendResetWorld, res: Recorder)
    modifies res
    ensures res.effects == old(res.effects) + AccountEffects(user, w)
  {
    if user.status != Confirmed {
      res.Add(Call("resendConfirmationCode", Some(user.username)));
      if w.resend.None? {
        res.Add(Respond(ConfirmSignUp(user)));
        return;
      }
      if w.resend.value.code == Limit {
        res.Add(Respond(ResendLimited));
        return;
      }
      res.Add(Respond(ResendFailed));
    }
    res.Add(Call("forgotPassword", Some(user.username)));
    if w.forgot.None? {
      res.Add(Respond(Sent));
    } else {
      res.Add(Respond(ErrorReply(w.forgot.value)));
    }
  }

  /** Lines 40-92 on the listing the route settled on. */
  method Answer(userData: Listing, w: SendResetWorld, res: Recorder)
    modifies res
    ensures res.effects == old(res.effects)
      + (match FirstListed(userData) case None => [Respond(NoAccount)] case Some(user) => AccountEffects(user, w))
  {
    var user := FirstListed(userData);
    if user.None? {
      res.Add(Respond(NoAccount));
    } else {
      Proceed(user.value, w, res);
    }
  }

  /** The route handler; `identifier` is the body field as the middleware stored it. */
  method HandleSendReset(identifier: string, w: SendResetWorld, res: Recorder)
    modifies res
    ensures res.effects == old(res.effects) + SendResetEffects(identifier, w)
  {
    var filter := UsernameFilter(identifier);
    res.Add(Call("listUsers", Some(filter)));
    var userData := w.byUsername;
    ghost var e1 := res.effects;
    if userData.Err? {
      res.Add(Respond(ErrorReply(userData.error)));
    } else if FirstListed(userData).None? {
      filter := EmailFilter(identifier);
      res.Add(Call("listUsers", Some(filter)));
      userData := w.byEmail;
      if userData.Err? {
        res.Add(Respond(ErrorReply(userData.error)));
      } else {
        Answer(userData, w, res);
      }
      Regroup(e1, [Call("listUsers", Some(EmailFilter(identifier)))], ByEmailEffects(w));
    } else {
      Answer(userData, w, res);
    }
    assert res.effects == e1 + ByUsernameEffects(identifier, w);
    Regroup(old(res.effects), [Call("listUsers", Some(UsernameFilter(identifier)))], ByUsernameEffects(identifier, w));
  }

  /** The account the route acts on: the username match, else the email match; or the error a listing threw. */
  function Target(w: SendResetWorld): Result<Option<CognitoUser>, Fault> {
    if w.byUsername.Err? then Err(w.byUsername.error)
    else if FirstListed(w.byUsername).Some? then Ok(FirstListed(w.byUsername))
    else if w.byEmail.Err? then Err(w.byEmail.error)
    else Ok(FirstListed(w.byEmail))
  }

  /** The reply of the reset step. */
  function ForgotReply(w: SendResetWorld): Reply {
    match w.forgot case None => Sent case Some(e) => ErrorReply(e)
  }

  /** The resend failed for a reason other than the rate limit. */
  predicate ResendBroke(w: SendResetWorld) {
    w.resend.Some? && w.resend.value.code != Limit
  }

  /** The replies written, as an independent classification of the outcomes. */
  function SendResetReplies(w: SendResetWorld): seq<Reply> {
    match Target(w)
    case Err(e) => [ErrorReply(e)]
    case Ok(None) => [NoAccount]
    case Ok(Some(user)) =>
      if user.status == Confirmed then [ForgotReply(w)]
      else if w.resend.None? then [ConfirmSignUp(user)]
      else if !ResendBroke(w) then [ResendLimited]
      else [ResendFailed, ForgotReply(w)]
  }

  /** The provider operations called, as an independent classification of the outcomes. */
  function SendResetCalls(w: SendResetWorld): seq<string> {
    ["listUsers"]
      + (if w.byUsername.Ok? && FirstListed(w.byUsername).None? then ["listUsers"] else [])
      + (match Target(w)
         case Ok(Some(user)) =>
           if user.status == Confirmed then ["forgotPassword"]
           else ["resendConfirmationCode"] + (if ResendBroke(w) then ["forgotPassword"] else [])
         case _ => [])
  }

  lemma ForgotProjects(user: CognitoUser, w: SendResetWorld)
    ensures Responses(ForgotEffects(user, w)) == [ForgotReply(w)]
    ensures Calls(ForgotEffects(user, w)) == ["forgotPassword"]
  {
    var r := Respond(ForgotReply(w));
    Peel(r, []);
    Peel(Call("forgotPassword", Some(user.username)), [r]);
  }

  lemma AccountProjects(user: CognitoUser, w: SendResetWorld)
    ensures Responses(AccountEffects(user, w)) ==
      if user.status == Confirmed then [ForgotReply(w)]
      else if w.resend.None? then [ConfirmSignUp(user)]
      else if !ResendBroke(w) then [ResendLimited]
      else [ResendFailed, ForgotReply(w)]
    ensures Calls(AccountEffects(user, w)) ==
      if user.status == Confirmed then ["forgotPassword"]
      else ["resendConfirmationCode"] + (if ResendBroke(w) then ["forgotPassword"] else [])
  {
    ForgotProjects(user, w);
    if user.status != Confirmed {
      if w.resend.None? {
        Peel(Respond(ConfirmSignUp(user)), []);
      } else if !ResendBroke(w) {
        Peel(Respond(ResendLimited), []);
      } else {
        Peel(Respond(ResendFailed), ForgotEffects(user, w));
      }
      Peel(Call("resendConfirmationCode", Some(user.username)), ResendEffects(user, w));
    }
  }

  lemma ByEmailProjects(w: SendResetWorld)
    requires w.byUsername.Ok? && FirstListed(w.byUsername).None?
    ensures Responses(ByEmailEffects(w)) == SendResetReplies(w)
    ensures Calls(ByEmailEffects(w)) == SendResetCalls(w)[2..]
  {
    match w.byEmail
    case Err(e) => Peel(Respond(ErrorReply(e)), []);
    case Ok(_) =>
      match FirstListed(w.byEmail)
      case None => Peel(Respond(NoAccount), []);
      case Some(user) => AccountProjects(user, w);
  }

  /** The replies written are the ones the classification names; two of them when a failed resend falls through. */
  lemma SendResetResponds(identifier: string, w: SendResetWorld)
    ensures Responses(SendResetEffects(identifier, w)) == SendResetReplies(w)
    ensures Calls(SendResetEffects(identifier, w)) == SendResetCalls(w)
  {
    SendResetReplyTrace(identifier, w);
    SendResetCallTrace(identifier, w);
  }

  lemma SendResetReplyTrace(identifier: string, w: SendResetWorld)
    ensures Responses(SendResetEffects(identifier, w)) == SendResetReplies(w)
  {
    var first := Call("listUsers", Some(UsernameFilter(identifier)));
    Peel(first, ByUsernameEffects(identifier, w));
    match w.byUsername
    case Err(e) => Peel(Respond(ErrorReply(e)), []);
    case Ok(_) =>
      match FirstListed(w.byUsername)
      case None =>
        ByEmailProjects(w);
        Peel(Call("listUsers", Some(EmailFilter(identifier))), ByEmailEffects(w));
      case Some(user) => AccountProjects(user, w);
  }

  lemma SendResetCallTrace(identifier: string, w: SendResetWorld)
    ensures Calls(SendResetEffects(identifier, w)) == SendResetCalls(w)
  {
    var first := Call("listUsers", Some(UsernameFilter(identifier)));
    Peel(first, ByUsernameEffects(identifier, w));
    ByUsernameCalls(identifier, w);
  }

  /** The calls after the username listing. */
  lemma ByUsernameCalls(identifier: string, w: SendResetWorld)
    ensures Calls(ByUsernameEffects(identifier, w)) == SendResetCalls(w)[1..]
  {
    match w.byUsername
    case Err(e) =>
      Peel(Respond(ErrorReply(e)), []);
      assert SendResetCalls(w) == ["listUsers"] + [] + [];
    case Ok(_) =>
      match FirstListed(w.byUsername)
      case None =>
        ByEmailProjects(w);
        Peel(Call("listUsers", Some(EmailFilter(identifier))), ByEmailEffects(w));
        assert SendResetCalls(w) == ["listUsers", "listUsers"] + SendResetCalls(w)[2..];
      case Some(user) =>
        AccountProjects(user, w);
        assert SendResetCalls(w) == ["listUsers"] + [] + Calls(AccountEffects(user, w));
  }

  /** The email listing runs exactly when the username listing succeeded and found no one. */
  lemma EmailLookupExactly(identifier: string, w: SendResetWorld)
    ensures Call("listUsers", Some(EmailFilter(identifier))) in SendResetEffects(identifier, w)
      <==> w.byUsername.Ok? && FirstListed(w.byUsername).None?
  {
    var c := Call("listUsers", Some(EmailFilter(identifier)));
    FiltersDiffer(identifier);
    if w.byUsername.Ok? && FirstListed(w.byUsername).Some? {
      AccountNoListing(FirstListed(w.byUsername).value, w, c);
    }
  }

  lemma AccountNoListing(user: CognitoUser, w: SendResetWorld, c: Effect)
    requires c.Call? && c.op == "listUsers"
    ensures c !in AccountEffects(user, w)
  {
  }

  /** No account under either filter: 404, and neither a resend nor a reset is attempted. */
  lemma NoAccountQuiet(identifier: string, w: SendResetWorld)
    requires Target(w) == Ok(None)
    ensures SendResetEffects(identifier, w) == [Call("listUsers", Some(UsernameFilter(identifier))),
      Call("listUsers", Some(EmailFilter(identifier))), Respond(NoAccount)]
    ensures SendResetReplies(w) == [NoAccount]
  {
  }

  /** An unconfirmed account whose code was resent gets 403 CONFIRM_SIGN_UP, and no reset is started. */
  lemma ResentNoReset(identifier: string, w: SendResetWorld)
    requires Target(w).Ok? && Target(w).value.Some? && Target(w).value.value.status != Confirmed
    requires w.resend.None?
    ensures Responses(SendResetEffects(identifier, w)) == [ConfirmSignUp(Target(w).value.value)]
    ensures "forgotPassword" !in Calls(SendResetEffects(identifier, w))
  {
    SendResetResponds(identifier, w);
  }

  /**
   * A resend failure other than the rate limit writes 500 without returning:
   * the reset still runs and a second reply is written after it.
   */
  lemma FallThrough(identifier: string, w: SendResetWorld)
    requires Target(w).Ok? && Target(w).value.Some? && Target(w).value.value.status != Confirmed
    requires ResendBroke(w)
    ensures EndsWith(SendResetEffects(identifier, w), [Respond(ResendFailed)] + ForgotEffects(Target(w).value.value, w))
    ensures Responses(SendResetEffects(identifier, w)) == [ResendFailed, ForgotReply(w)]
    ensures "forgotPassword" in Calls(SendResetEffects(identifier, w))
  {
    SendResetResponds(identifier, w);
    var user := Target(w).value.value;
    var tail := [Respond(ResendFailed)] + ForgotEffects(user, w);
    assert EndsWith(tail, tail);
    EndsWithAfter([Call("resendConfirmationCode", Some(user.username))], tail, tail);
    if FirstListed(w.byUsername).None? {
      EndsWithAfter([Call("listUsers", Some(EmailFilter(identifier)))], ByEmailEffects(w), tail);
    }
    EndsWithAfter([Call("listUsers", Some(UsernameFilter(identifier)))], ByUsernameEffects(identifier, w), tail);
  }

  /** A confirmed account: the reset is started and its outcome is the only reply. */
  lemma ConfirmedResets(identifier: string, w: SendResetWorld)
    requires Target(w).Ok? && Target(w).value.Some? && Target(w).value.value.status == Confirmed
    ensures EndsWith(SendResetEffects(identifier, w), ForgotEffects(Target(w).value.value, w))
    ensures Responses(SendResetEffects(identifier, w)) == [ForgotReply(w)]
    ensures ForgotReply(w) == Sent <==> w.forgot.None?
  {
    SendResetResponds(identifier, w);
    var tail := ForgotEffects(Target(w).value.value, w);
    assert EndsWith(tail, tail);
    if FirstListed(w.byUsername).None? {
      EndsWithAfter([Call("listUsers", Some(EmailFilter(identifier)))], ByEmailEffects(w), tail);
    }
    EndsWithAfter([Call("listUsers", Some(UsernameFilter(identifier)))], ByUsernameEffects(identifier, w), tail);
  }
}
