/**
 * The Resend-Verification-Code route (Resend-Verification-Code/index.js)
 * after its input middleware: look the account up, refuse a confirmed or
 * unknown one, and otherwise ask the provider to resend the confirmation
 * code. The provider's outcomes are inputs (`ResendWorld`).
 */
module Resend {
  import opened Wrappers
  import opened Http

  /** The account `adminGetUser` returns or the error it throws; the error `resendConfirmationCode` throws. */
  datatype ResendWorld = ResendWorld(lookup: Result<CognitoUser, Fault>, resend: Option<Fault>)

  const Confirmed := "CONFIRMED"
  const Limit := "LimitExceededException"
  const NotFound := "UserNotFoundException"

  const AlreadyVerified := Reply(409, "This account is already verified.", "ALREADY_VERIFIED", NoInfo)
  const UnknownUser := Reply(404, "User not found.", "USER_NOT_FOUND", NoInfo)
  const Resent := Reply(200, "Successfully resent verification code.", "RESEND_SUCCESS", NoInfo)
  const Limited := Reply(429, "Too many attempts. Please try again later.", "RATE_LIMIT_EXCEEDED", NoInfo)
  const Failed := Reply(500, "Failed to resend verification code.", "SERVER_ERROR", NoInfo)

  /** Lines 55-73: the reply once the resend was attempted. */
  function ResendReply(resend: Option<Fault>): (r: Reply)
    ensures r == Resent <==> resend.None?
    ensures r == Limited <==> resend.Some? && resend.value.code == Limit
    ensures r == Failed <==> resend.Some? && resend.value.code != Limit
  {
    match resend
    case None => Resent
    case Some(e) => if e.code == Limit then Limited else Failed
  }

  /** Lines 32-48: the lookup stops the route for a confirmed or an unknown account; any other error is swallowed. */
  function Refusal(lookup: Result<CognitoUser, Fault>): (r: Option<Reply>)
    ensures r == Some(AlreadyVerified) <==> lookup.Ok? && lookup.value.status == Confirmed
    ensures r == Some(UnknownUser) <==> lookup.Err? && lookup.error.code == NotFound
    ensures r.None? <==> (lookup.Ok? && lookup.value.status != Confirmed) || (lookup.Err? && lookup.error.code != NotFound)
  {
    match lookup
    case Ok(user) => if user.status == Confirmed then Some(AlreadyVerified) else None
    case Err(e) => if e.code == NotFound then Some(UnknownUser) else None
  }

  /** What the route does for the stored username, in order. */
  function ResendEffects(username: string, w: ResendWorld): seq<Effect> {
    [Call("adminGetUser", Some(username))]
      + match Refusal(w.lookup)
        case Some(r) => [Respond(r)]
        case None => [Call("resendConfirmationCode", Some(username)), Respond(ResendReply(w.resend))]
  }

  /** Lines 21-74: the handler, step by step. */
  method HandleResend(username: string, w: ResendWorld, res: Recorder)
    modifies res
    ensures res.effects == old(res.effects) + ResendEffects(username, w)
  {
    res.Add(Call("adminGetUser", Some(username)));
    if w.lookup.Ok? {
      if w.lookup.value.status == Confirmed {
        res.Add(Respond(AlreadyVerified));
        return;
      }
    } else if w.lookup.error.code == NotFound {
      res.Add(Respond(UnknownUser));
      return;
    }
    res.Add(Call("resendConfirmationCode", Some(username)));
    if w.resend.None? {
      res.Add(Respond(Resent));
    } else if w.resend.value.code == Limit {
      res.Add(Respond(Limited));
    } else {
      res.Add(Respond(Failed));
    }
  }

  /**
   * Exactly one reply: the refusal when there is one, otherwise the resend's
   * outcome; the resend is attempted exactly when there is no refusal.
   */
  lemma ResendProjects(username: string, w: ResendWorld)
    ensures Responses(ResendEffects(username, w)) ==
      [match Refusal(w.lookup) case Some(r) => r case None => ResendReply(w.resend)]
    ensures Calls(ResendEffects(username, w)) ==
      ["adminGetUser"] + (if Refusal(w.lookup).None? then ["resendConfirmationCode"] else [])
  {
    var tail := match Refusal(w.lookup)
      case Some(r) => [Respond(r)]
      case None => [Call("resendConfirmationCode", Some(username)), Respond(ResendReply(w.resend))];
    Peel(Call("adminGetUser", Some(username)), tail);
    if Refusal(w.lookup).Some? {
      Peel(Respond(Refusal(w.lookup).value), []);
    } else {
      Peel(Respond(ResendReply(w.resend)), []);
      Peel(Call("resendConfirmationCode", Some(username)), [Respond(ResendReply(w.resend))]);
    }
  }

  /** A confirmed account is answered 409 and no code is resent. */
  lemma ConfirmedShortCircuit(username: string, w: ResendWorld)
    requires w.lookup.Ok? && w.lookup.value.status == Confirmed
    ensures Responses(ResendEffects(username, w)) == [AlreadyVerified]
    ensures "resendConfirmationCode" !in Calls(ResendEffects(username, w))
  {
    ResendProjects(username, w);
  }

  /** A lookup error other than an unknown user is swallowed: the code is still resent, and its outcome decides. */
  lemma SwallowedLookup(username: string, w: ResendWorld)
    requires w.lookup.Err? && w.lookup.error.code != NotFound
    ensures Responses(ResendEffects(username, w)) == [ResendReply(w.resend)]
    ensures "resendConfirmationCode" in Calls(ResendEffects(username, w))
  {
    ResendProjects(username, w);
  }
}
