/**
 * The Verify-User route (Verify-User/index.js) after its input middleware:
 * confirm the sign-up with the provider, then mark the user confirmed in one
 * transaction. Every provider and connection outcome is an input
 * (`VerifyWorld`).
 */
module Verify {
  import opened Wrappers
  import opened Http
  import opened Db
  import VerifyInput

  /**
   * The outcomes of everything the route calls. `confirm` is the error
   * `confirmSignUp` throws (None when it succeeds); `acquire` the error
   * `getConnection` throws; `update` the affected-row count of the update
   * (None when it throws); `rollback` the error a rollback throws (None when
   * it succeeds), the same for every attempt.
   */
  datatype VerifyWorld = VerifyWorld(
    confirm: Option<Fault>,
    acquire: Option<Fault>,
    beginOk: bool,
    update: Option<nat>,
    commitOk: bool,
    rollback: Option<Fault>)

  const NotFoundCode := "USER_NOT_FOUND"
  const VerifiedCode := "VERIFICATION_SUCCESS"
  const DatabaseCode := "DATABASE_ERROR"

  function UserNotFound(username: string): Reply {
    Reply(404, "User not found.", NotFoundCode, UserDetail(username))
  }

  function Verified(username: string): Reply {
    Reply(200, "Verification Successful!", VerifiedCode, UserDetail(username))
  }

  function DatabaseError(username: string): Reply {
    Reply(500, "Database error occurred. Please try again later.", DatabaseCode, UserDetail(username))
  }

  /** Lines 76-119: an error that reaches the outer handler, by its code. */
  function ErrorReply(f: Fault, username: string): (r: Reply)
    ensures f.code == "UserNotFoundException" <==> r == UserNotFound(username)
    ensures f.code == "CodeMismatchException" <==> r.status == 400
    ensures f.code == "NotAuthorizedException" <==> r.status == 409
    ensures f.code == "ExpiredCodeException" <==> r.status == 410
    ensures f.code == "LimitExceededException" <==> r.status == 429
    ensures r.status == 500 <==> f.code !in {"UserNotFoundException", "CodeMismatchException",
      "NotAuthorizedException", "ExpiredCodeException", "LimitExceededException"}
    ensures r.status == 400 ==> r.code == "INVALID_CODE"
    ensures r.status == 409 ==> r.code == "ALREADY_VERIFIED"
    ensures r.status == 410 ==> r.code == "EXPIRED_CODE"
    ensures r.status == 429 ==> r.code == "RATE_LIMIT_EXCEEDED"
    ensures r.status == 500 ==> r.code == "SERVER_ERROR"
    ensures r.status != 200 && r.code != VerifiedCode && r.code != DatabaseCode
  {
    match f.code
    case "UserNotFoundException" => UserNotFound(username)
    case "CodeMismatchException" => Reply(400, "Verification code is incorrect.", "INVALID_CODE", UserDetail(username))
    case "NotAuthorizedException" => Reply(409, "This account is already verified.", "ALREADY_VERIFIED", UserDetail(username))
    case "ExpiredCodeException" =>
      Reply(410, "Verification code has expired. Please request a new one.", "EXPIRED_CODE", UserDetail(username))
    case "LimitExceededException" => Reply(429, "Too many attempts. Please try again later.", "RATE_LIMIT_EXCEEDED", NoInfo)
    case _ => Reply(500, "Unable to complete verification. Please try again later.", "SERVER_ERROR", NoInfo)
  }

  /** Lines 63-75: roll back, then answer DATABASE_ERROR and release; a failed rollback releases and goes to the outer handler. */
  function DbErrorEffects(u: string, w: VerifyWorld): seq<Effect> {
    match w.rollback
    case None => [Db(Rollback, true), Respond(DatabaseError(u)), Db(Release, true)]
    case Some(e) => [Db(Rollback, false), Db(Release, true), Respond(ErrorReply(e, u))]
  }

  /** Lines 47-54: no row updated; a failed rollback here is itself a database error. */
  function NoRowEffects(u: string, w: VerifyWorld): seq<Effect> {
    match w.rollback
    case None => [Db(Rollback, true), Respond(UserNotFound(u)), Db(Release, true)]
    case Some(_) => [Db(Rollback, false)] + DbErrorEffects(u, w)
  }

  /** Lines 56-62 and the release of line 74. */
  function CommitEffects(u: string, w: VerifyWorld): seq<Effect> {
    [Db(Commit, w.commitOk)] + (if w.commitOk then [Respond(Verified(u)), Db(Release, true)] else DbErrorEffects(u, w))
  }

  /** Lines 42-62: the update, then by its affected-row count. */
  function UpdateEffects(u: string, w: VerifyWorld): seq<Effect> {
    [Db(Execute(MarkConfirmed(u)), w.update.Some?)]
      + (match w.update
         case None => DbErrorEffects(u, w)
         case Some(n) => if n == 0 then NoRowEffects(u, w) else CommitEffects(u, w))
  }

  /** Lines 39-75 on an acquired connection. */
  function TxEffects(u: string, w: VerifyWorld): seq<Effect> {
    [Db(Begin, w.beginOk)] + (if w.beginOk then UpdateEffects(u, w) else DbErrorEffects(u, w))
  }

  /** Line 38 onwards: a failed acquisition goes to the outer handler. */
  function ConnectEffects(u: string, w: VerifyWorld): seq<Effect> {
    match w.acquire
    case Some(e) => [Db(Acquire, false), Respond(ErrorReply(e, u))]
    case None => [Db(Acquire, true)] + TxEffects(u, w)
  }

  /** Everything the route does for validated fields, in order. */
  function VerifyEffects(f: VerifyInput.Fields, w: VerifyWorld): seq<Effect> {
    [Call("confirmSignUp", Some(f.username))]
      + (match w.confirm case Some(e) => [Respond(ErrorReply(e, f.username))] case None => ConnectEffects(f.username, w))
  }

  /** Lines 63-75. */
  method Abort(c: Connection, u: string, w: VerifyWorld)
    requires !c.state.released && c.state.tx != Committed
    modifies c, c.log
    ensures c.log.effects == old(c.log.effects) + DbErrorEffects(u, w)
  {
    c.Rollback(w.rollback.None?);
    if w.rollback.None? {
      c.log.Add(Respond(DatabaseError(u)));
      c.Release();
    } else {
      c.Release();
      c.log.Add(Respond(ErrorReply(w.rollback.value, u)));
    }
  }

  /** Lines 47-54. */
  method NoRow(c: Connection, u: string, w: VerifyWorld)
    requires c.state == ConnState(InTx, false)
    modifies c, c.log
    ensures c.log.effects == old(c.log.effects) + NoRowEffects(u, w)
  {
    c.Rollback(w.rollback.None?);
    if w.rollback.None? {
      c.log.Add(Respond(UserNotFound(u)));
      c.Release();
    } else {
      Abort(c, u, w);
      Regroup(old(c.log.effects), [Db(Rollback, false)], DbErrorEffects(u, w));
    }
  }

  /** Lines 56-62. */
  method Finish(c: Connection, u: string, w: VerifyWorld)
    requires c.state == ConnState(InTx, false)
    modifies c, c.log
    ensures c.log.effects == old(c.log.effects) + CommitEffects(u, w)
  {
    c.Commit(w.commitOk);
    if w.commitOk {
      c.log.Add(Respond(Verified(u)));
      c.Release();
    } else {
      Abort(c, u, w);
    }
    Regroup(old(c.log.effects), [Db(Commit, w.commitOk)], if w.commitOk then [Respond(Verified(u)), Db(Release, true)] else DbErrorEffects(u, w));
  }

  /** Lines 39-75 on an acquired connection. */
  method Transaction(c: Connection, u: string, w: VerifyWorld)
    requires c.state == Fresh
    modifies c, c.log
    ensures c.log.effects == old(c.log.effects) + TxEffects(u, w)
  {
    c.Begin(w.beginOk);
    ghost var e1 := c.log.effects;
    if !w.beginOk {
      Abort(c, u, w);
      Regroup(old(c.log.effects), [Db(Begin, false)], DbErrorEffects(u, w));
      return;
    }
    c.Execute(MarkConfirmed(u), w.update.Some?);
    if w.update.None? {
      Abort(c, u, w);
    } else if w.update.value == 0 {
      NoRow(c, u, w);
    } else {
      Finish(c, u, w);
    }
    Regroup(e1, [Db(Execute(MarkConfirmed(u)), w.update.Some?)],
      match w.update
      case None => DbErrorEffects(u, w)
      case Some(n) => if n == 0 then NoRowEffects(u, w) else CommitEffects(u, w));
    Regroup(old(c.log.effects), [Db(Begin, true)], UpdateEffects(u, w));
  }

  /** The route handler; `f` holds the body fields as the middleware stored them. */
  method HandleVerify(f: VerifyInput.Fields, w: VerifyWorld, res: Recorder)
    modifies res
    ensures res.effects == old(res.effects) + VerifyEffects(f, w)
  {
    var u := f.username;
    res.Add(Call("confirmSignUp", Some(u)));
    ghost var e1 := res.effects;
    if w.confirm.Some? {
      res.Add(Respond(ErrorReply(w.confirm.value, u)));
    } else if w.acquire.Some? {
      var _ := AcquireConnection(res, false);
      res.Add(Respond(ErrorReply(w.acquire.value, u)));
      Regroup(e1, [Db(Acquire, false)], [Respond(ErrorReply(w.acquire.value, u))]);
    } else {
      var c := AcquireConnection(res, true);
      Transaction(c, u, w);
      Regroup(e1, [Db(Acquire, true)], TxEffects(u, w));
    }
    Regroup(old(res.effects), [Call("confirmSignUp", Some(u))],
      match w.confirm case Some(e) => [Respond(ErrorReply(e, u))] case None => ConnectEffects(u, w));
  }

  /** The reply written on a database error: DATABASE_ERROR, or the outer mapping of the rollback's error. */
  function DbErrorReply(u: string, w: VerifyWorld): Reply {
    match w.rollback case None => DatabaseError(u) case Some(e) => ErrorReply(e, u)
  }

  /** The reply once the connection is acquired. */
  function TxOutcome(u: string, w: VerifyWorld): Reply {
    if !w.beginOk || w.update.None? then DbErrorReply(u, w)
    else if w.update.value == 0 then (if w.rollback.None? then UserNotFound(u) else DbErrorReply(u, w))
    else if w.commitOk then Verified(u)
    else DbErrorReply(u, w)
  }

  /** The reply of the route, as an independent classification of the outcomes. */
  function VerifyOutcome(u: string, w: VerifyWorld): Reply {
    if w.confirm.Some? then ErrorReply(w.confirm.value, u)
    else if w.acquire.Some? then ErrorReply(w.acquire.value, u)
    else TxOutcome(u, w)
  }

  lemma DbErrorResponds(u: string, w: VerifyWorld)
    ensures Responses(DbErrorEffects(u, w)) == [DbErrorReply(u, w)]
  {
    var r := DbErrorEffects(u, w);
    UnfoldResponses(r);
    assert r[0..] == r && r[3..] == [];
  }

  lemma NoRowResponds(u: string, w: VerifyWorld)
    ensures Responses(NoRowEffects(u, w)) == [if w.rollback.None? then UserNotFound(u) else DbErrorReply(u, w)]
  {
    if w.rollback.None? {
      var r := NoRowEffects(u, w);
      UnfoldResponses(r);
      assert r[0..] == r && r[3..] == [];
    } else {
      DbErrorResponds(u, w);
      Peel(Db(Rollback, false), DbErrorEffects(u, w));
    }
  }

  lemma CommitResponds(u: string, w: VerifyWorld)
    ensures Responses(CommitEffects(u, w)) == [if w.commitOk then Verified(u) else DbErrorReply(u, w)]
  {
    var done := [Respond(Verified(u)), Db(Release, true)];
    UnfoldResponses(done);
    assert done[0..] == done && done[2..] == [];
    DbErrorResponds(u, w);
    Peel(Db(Commit, w.commitOk), if w.commitOk then done else DbErrorEffects(u, w));
  }

  lemma TxResponds(u: string, w: VerifyWorld)
    ensures Responses(TxEffects(u, w)) == [TxOutcome(u, w)]
  {
    DbErrorResponds(u, w);
    if w.beginOk {
      NoRowResponds(u, w);
      CommitResponds(u, w);
      Peel(Db(Execute(MarkConfirmed(u)), w.update.Some?),
        match w.update
        case None => DbErrorEffects(u, w)
        case Some(n) => if n == 0 then NoRowEffects(u, w) else CommitEffects(u, w));
    }
    Peel(Db(Begin, w.beginOk), if w.beginOk then UpdateEffects(u, w) else DbErrorEffects(u, w));
  }

  /** Every path writes exactly one reply, the one the classification names. */
  lemma VerifyResponds(f: VerifyInput.Fields, w: VerifyWorld)
    ensures Responses(VerifyEffects(f, w)) == [VerifyOutcome(f.username, w)]
  {
    var u := f.username;
    var tail := match w.confirm case Some(e) => [Respond(ErrorReply(e, u))] case None => ConnectEffects(u, w);
    Peel(Call("confirmSignUp", Some(u)), tail);
    if w.confirm.Some? {
      Peel(Respond(ErrorReply(w.confirm.value, u)), []);
    } else if w.acquire.Some? {
      UnfoldResponses(tail);
      assert tail[0..] == tail && tail[2..] == [];
    } else {
      TxResponds(u, w);
      Peel(Db(Acquire, true), TxEffects(u, w));
    }
  }

  /** The provider is asked once, to confirm, and nothing later undoes the confirmation. */
  lemma ConfirmationKept(f: VerifyInput.Fields, w: VerifyWorld)
    ensures Calls(VerifyEffects(f, w)) == ["confirmSignUp"]
  {
    var u := f.username;
    var tail := match w.confirm case Some(e) => [Respond(ErrorReply(e, u))] case None => ConnectEffects(u, w);
    Peel(Call("confirmSignUp", Some(u)), tail);
    CallsFree(u, w);
    if w.confirm.Some? {
      Peel(Respond(ErrorReply(w.confirm.value, u)), []);
    }
  }

  /** The connection phase calls nothing foreign. */
  lemma CallsFree(u: string, w: VerifyWorld)
    ensures Calls(ConnectEffects(u, w)) == []
  {
    DbErrorCallsFree(u, w);
    if w.acquire.Some? {
      var t := ConnectEffects(u, w);
      assert forall i :: 0 <= i < |t| ==> !t[i].Call?;
      NoCalls(t);
    } else {
      if w.beginOk {
        NoRowCallsFree(u, w);
        CommitCallsFree(u, w);
        Peel(Db(Execute(MarkConfirmed(u)), w.update.Some?),
          match w.update
          case None => DbErrorEffects(u, w)
          case Some(n) => if n == 0 then NoRowEffects(u, w) else CommitEffects(u, w));
      }
      Peel(Db(Begin, w.beginOk), if w.beginOk then UpdateEffects(u, w) else DbErrorEffects(u, w));
      Peel(Db(Acquire, true), TxEffects(u, w));
    }
  }

  lemma DbErrorCallsFree(u: string, w: VerifyWorld)
    ensures Calls(DbErrorEffects(u, w)) == []
  {
    var d := DbErrorEffects(u, w);
    assert forall i :: 0 <= i < |d| ==> !d[i].Call?;
    NoCalls(d);
  }

  lemma NoRowCallsFree(u: string, w: VerifyWorld)
    ensures Calls(NoRowEffects(u, w)) == []
  {
    var n := NoRowEffects(u, w);
    if w.rollback.None? {
      assert forall i :: 0 <= i < |n| ==> !n[i].Call?;
      NoCalls(n);
    } else {
      DbErrorCallsFree(u, w);
      Peel(Db(Rollback, false), DbErrorEffects(u, w));
    }
  }

  lemma CommitCallsFree(u: string, w: VerifyWorld)
    ensures Calls(CommitEffects(u, w)) == []
  {
    var done := [Respond(Verified(u)), Db(Release, true)];
    assert forall i :: 0 <= i < |done| ==> !done[i].Call?;
    NoCalls(done);
    DbErrorCallsFree(u, w);
    Peel(Db(Commit, w.commitOk), if w.commitOk then done else DbErrorEffects(u, w));
  }

  lemma {:induction false} NoCalls(t: seq<Effect>)
    requires forall i :: 0 <= i < |t| ==> !t[i].Call?
    ensures Calls(t) == []
  {
    if t != [] {
      NoCalls(t[1..]);
    }
  }

  /** The connection operations of the database-error path. */
  lemma DbErrorOps(u: string, w: VerifyWorld)
    ensures DbOps(DbErrorEffects(u, w)) == [(Rollback, w.rollback.None?)] + [(Release, true)]
  {
    if w.rollback.None? {
      Peel(Db(Release, true), []);
      Peel(Respond(DatabaseError(u)), [Db(Release, true)]);
      Peel(Db(Rollback, true), [Respond(DatabaseError(u)), Db(Release, true)]);
    } else {
      var e := Respond(ErrorReply(w.rollback.value, u));
      Peel(e, []);
      Peel(Db(Release, true), [e]);
      Peel(Db(Rollback, false), [Db(Release, true), e]);
    }
  }

  /** A rollback, whatever its outcome, then a release, ends released. */
  lemma RollbackReleaseReplay(s: ConnState, ok: bool)
    requires !s.released && s.tx != Committed
    ensures EndsReleased(s, [(Rollback, ok)] + [(Release, true)])
  {
    var s' := Step(s, Rollback, ok).value;
    ReplayStep(s, Rollback, ok, [(Release, true)]);
    ReplayStep(s', Release, true, []);
  }

  lemma DbErrorReplay(u: string, w: VerifyWorld, s: ConnState)
    requires !s.released && s.tx != Committed
    ensures EndsReleased(s, DbOps(DbErrorEffects(u, w)))
  {
    DbErrorOps(u, w);
    RollbackReleaseReplay(s, w.rollback.None?);
  }

  lemma NoRowReplay(u: string, w: VerifyWorld)
    ensures EndsReleased(ConnState(InTx, false), DbOps(NoRowEffects(u, w)))
  {
    var s := ConnState(InTx, false);
    if w.rollback.None? {
      var r := NoRowEffects(u, w);
      UnfoldDbOps(r);
      assert r[0..] == r && r[3..] == [];
      assert DbOps(r) == [(Rollback, true)] + [(Release, true)];
      ReplayStep(s, Rollback, true, [(Release, true)]);
      ReplayStep(s.(tx := RolledBack), Release, true, []);
    } else {
      Peel(Db(Rollback, false), DbErrorEffects(u, w));
      ReplayStep(s, Rollback, false, DbOps(DbErrorEffects(u, w)));
      DbErrorReplay(u, w, s);
    }
  }

  lemma CommitReplay(u: string, w: VerifyWorld)
    ensures EndsReleased(ConnState(InTx, false), DbOps(CommitEffects(u, w)))
  {
    var s := ConnState(InTx, false);
    var done := [Respond(Verified(u)), Db(Release, true)];
    var rest := if w.commitOk then done else DbErrorEffects(u, w);
    Peel(Db(Commit, w.commitOk), rest);
    ReplayStep(s, Commit, w.commitOk, DbOps(rest));
    if w.commitOk {
      UnfoldDbOps(done);
      assert done[0..] == done && done[2..] == [];
      assert DbOps(done) == [(Release, true)];
      ReplayStep(s.(tx := Committed), Release, true, []);
    } else {
      DbErrorReplay(u, w, s);
    }
  }

  lemma TxReplay(u: string, w: VerifyWorld)
    ensures EndsReleased(Fresh, DbOps(TxEffects(u, w)))
  {
    var s := ConnState(InTx, false);
    DbErrorReplay(u, w, Fresh);
    if w.beginOk {
      DbErrorReplay(u, w, s);
      NoRowReplay(u, w);
      CommitReplay(u, w);
      var rest := match w.update
        case None => DbErrorEffects(u, w)
        case Some(n) => if n == 0 then NoRowEffects(u, w) else CommitEffects(u, w);
      Peel(Db(Execute(MarkConfirmed(u)), w.update.Some?), rest);
      ReplayStep(s, Execute(MarkConfirmed(u)), w.update.Some?, DbOps(rest));
    }
    var rest := if w.beginOk then UpdateEffects(u, w) else DbErrorEffects(u, w);
    Peel(Db(Begin, w.beginOk), rest);
    ReplayStep(Fresh, Begin, w.beginOk, DbOps(rest));
  }

  /**
   * The database is touched only after the provider confirmed the sign-up;
   * an acquired connection is used by the protocol and released on every path.
   */
  lemma VerifyDisciplined(f: VerifyInput.Fields, w: VerifyWorld)
    ensures Disciplined(VerifyEffects(f, w))
    ensures DbOps(VerifyEffects(f, w)) != [] ==> w.confirm.None?
  {
    var u := f.username;
    var tail := match w.confirm case Some(e) => [Respond(ErrorReply(e, u))] case None => ConnectEffects(u, w);
    Peel(Call("confirmSignUp", Some(u)), tail);
    assert DbOps(VerifyEffects(f, w)) == DbOps(tail);
    if w.confirm.Some? {
      Peel(Respond(ErrorReply(w.confirm.value, u)), []);
    } else {
      ConnectDisciplined(u, w);
    }
  }

  lemma ConnectDisciplined(u: string, w: VerifyWorld)
    ensures Disciplined(ConnectEffects(u, w))
  {
    var t := ConnectEffects(u, w);
    if w.acquire.Some? {
      UnfoldDbOps(t);
      assert t[0..] == t && t[2..] == [];
    } else {
      Peel(Db(Acquire, true), TxEffects(u, w));
      TxReplay(u, w);
      assert DbOps(t)[1..] == DbOps(TxEffects(u, w));
    }
  }

  /** 200 exactly when the confirmation, the connection, the update of at least one row and the commit all succeed. */
  lemma VerifiedExactly(f: VerifyInput.Fields, w: VerifyWorld)
    ensures VerifyOutcome(f.username, w) == Verified(f.username) <==>
      w.confirm.None? && w.acquire.None? && w.beginOk && w.update.Some? && w.update.value > 0 && w.commitOk
  {
  }

  /** The 200 path in full: the reply comes after the commit, and the release after the reply. */
  lemma VerifiedTrace(f: VerifyInput.Fields, w: VerifyWorld)
    requires VerifyOutcome(f.username, w) == Verified(f.username)
    ensures VerifyEffects(f, w) == [Call("confirmSignUp", Some(f.username)), Db(Acquire, true), Db(Begin, true),
      Db(Execute(MarkConfirmed(f.username)), true), Db(Commit, true), Respond(Verified(f.username)), Db(Release, true)]
  {
    VerifiedExactly(f, w);
  }

  /** No row updated: the transaction is rolled back, never committed, and the reply is 404. */
  lemma NoRowRollsBack(f: VerifyInput.Fields, w: VerifyWorld)
    requires w.confirm.None? && w.acquire.None? && w.beginOk && w.update == Some(0) && w.rollback.None?
    ensures VerifyEffects(f, w) == [Call("confirmSignUp", Some(f.username)), Db(Acquire, true), Db(Begin, true),
      Db(Execute(MarkConfirmed(f.username)), true), Db(Rollback, true), Respond(UserNotFound(f.username)), Db(Release, true)]
    ensures VerifyOutcome(f.username, w) == UserNotFound(f.username)
  {
  }

  /** A failed begin, update or commit rolls back and ends the trace with the database-error reply. */
  lemma DbErrorRollsBack(f: VerifyInput.Fields, w: VerifyWorld)
    requires w.confirm.None? && w.acquire.None?
    requires !w.beginOk || w.update.None? || (w.update.value > 0 && !w.commitOk)
    ensures EndsWith(VerifyEffects(f, w), DbErrorEffects(f.username, w))
    ensures VerifyOutcome(f.username, w) == DbErrorReply(f.username, w)
  {
    var u := f.username;
    var e := DbErrorEffects(u, w);
    assert EndsWith(e, e);
    if w.beginOk {
      if w.update.Some? {
        EndsWithAfter([Db(Commit, false)], e, e);
      }
      EndsWithAfter([Db(Execute(MarkConfirmed(u)), w.update.Some?)],
        match w.update case None => e case Some(n) => if n == 0 then NoRowEffects(u, w) else CommitEffects(u, w), e);
    }
    EndsWithAfter([Db(Begin, w.beginOk)], if w.beginOk then UpdateEffects(u, w) else e, e);
    EndsWithAfter([Db(Acquire, true)], TxEffects(u, w), e);
    EndsWithAfter([Call("confirmSignUp", Some(u))], ConnectEffects(u, w), e);
  }
}
