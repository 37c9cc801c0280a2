/**
 * The Register-User route (Register-User/index.js) after its input
 * middleware: the two duplicate checks, then one transaction on a pooled
 * connection that inserts the user and one game_stats row per game, signs
 * the user up with the provider and commits. Every provider and connection
 * outcome is an input (`RegisterWorld`).
 */
module Register {
  import opened Wrappers
  import opened Http
  import opened Db
  import Checks
  import RegisterInput

  /**
   * The outcomes of everything the route calls. `acquire` is the error
   * `getConnection` throws (None when it hands out a connection); `games` is
   * the id column of the games select (None when it fails); `statsOk(i)` is
   * the outcome of the insert for the i-th game; `rollback` is the error a
   * rollback throws (None when it succeeds), the same for every attempt.
   */
  datatype RegisterWorld = RegisterWorld(
    listUsers: string -> Listing,
    acquire: Option<Fault>,
    beginOk: bool,
    insertOk: bool,
    userId: int,
    games: Option<seq<int>>,
    statsOk: nat -> bool,
    signUpOk: bool,
    commitOk: bool,
    rollback: Option<Fault>)

  const DuplicateCredentials := Reply(409, "Both Email and Username are already in use.", "DUPLICATE_CREDENTIALS", NoInfo)
  const EmailExists := Reply(409, "Email already in use.", "EMAIL_EXISTS", NoInfo)
  const UsernameExists := Reply(409, "Username already in use.", "USERNAME_EXISTS", NoInfo)
  const Registered := Reply(201, "Registration Successful!", "REGISTRATION_SUCCESS", NoInfo)
  const DatabaseError := Reply(500, "Database error occurred. Please try again later.", "DATABASE_ERROR", NoInfo)
  const RateLimited := Reply(429, "Too many attempts. Please try again later.", "RATE_LIMIT_EXCEEDED", NoInfo)
  const ServerError := Reply(500, "Internal Server Error", "SERVER_ERROR", NoInfo)

  /** Lines 111-122: an error that reaches the outer handler, by its code. */
  function OuterReply(f: Fault): (r: Reply)
    ensures f.code == "LimitExceededException" <==> r == RateLimited
    ensures f.code != "LimitExceededException" <==> r == ServerError
  {
    if f.code == "LimitExceededException" then RateLimited else ServerError
  }

  /** Lines 36-55: the 409 for the duplicates found, None when there are none. */
  function Duplicate(emailExists: bool, usernameExists: bool): (r: Option<Reply>)
    ensures r.None? <==> !emailExists && !usernameExists
    ensures r == Some(DuplicateCredentials) <==> emailExists && usernameExists
    ensures r == Some(EmailExists) <==> emailExists && !usernameExists
    ensures r == Some(UsernameExists) <==> !emailExists && usernameExists
    ensures r.Some? ==> r.value.status == 409
  {
    if emailExists && usernameExists then Some(DuplicateCredentials)
    else if emailExists then Some(EmailExists)
    else if usernameExists then Some(UsernameExists)
    else None
  }

  /** Lines 31-34: what the two checks find for the normalised fields. */
  function Duplicates(f: RegisterInput.Fields, w: RegisterWorld): Option<Reply> {
    Duplicate(Checks.CheckForDuplicateEmail(f.email, w.listUsers), Checks.CheckForDuplicateUsername(f.username, w.listUsers))
  }

  /** Every game_stats insert succeeded. */
  predicate StatsAllOk(games: seq<int>, ok: nat -> bool) {
    forall i :: 0 <= i < |games| ==> ok(i)
  }

  /** Lines 69-74: one insert per game, in the order of the rows, each with its outcome. */
  function StatsEffects(userId: int, games: seq<int>, ok: nat -> bool): seq<Effect>
    decreases |games|
  {
    if games == [] then []
    else StatsEffects(userId, games[..|games| - 1], ok) + [Db(Execute(InsertGameStats(userId, games[|games| - 1])), ok(|games| - 1))]
  }

  /** Lines 101-110: a database error rolls back; the reply, or the rollback's error, follows. */
  function DbErrorEffects(w: RegisterWorld): seq<Effect> {
    match w.rollback
    case None => [Db(Rollback, true), Respond(DatabaseError), Db(Release, true)]
    case Some(e) => [Db(Rollback, false), Db(Release, true), Respond(OuterReply(e))]
  }

  /** Lines 97-100: a failed sign-up or commit rolls back and writes nothing; a failed rollback is a database error. */
  function SignUpFailEffects(w: RegisterWorld): seq<Effect> {
    match w.rollback
    case None => [Db(Rollback, true), Db(Release, true)]
    case Some(_) => [Db(Rollback, false)] + DbErrorEffects(w)
  }

  /** Lines 89-96 and what follows a successful sign-up. */
  function CommitEffects(w: RegisterWorld): seq<Effect> {
    [Db(Commit, w.commitOk)] + (if w.commitOk then [Respond(Registered), Db(Release, true)] else SignUpFailEffects(w))
  }

  /** Lines 76-100: sign up, then commit. */
  function SignUpEffects(f: RegisterInput.Fields, w: RegisterWorld): seq<Effect> {
    [Call("signUp", Some(f.username))] + (if w.signUpOk then CommitEffects(w) else SignUpFailEffects(w))
  }

  /** Lines 69-100 once the games are known. */
  function GamesEffects(f: RegisterInput.Fields, w: RegisterWorld, games: seq<int>): seq<Effect> {
    StatsEffects(w.userId, games, w.statsOk)
      + (if StatsAllOk(games, w.statsOk) then SignUpEffects(f, w) else DbErrorEffects(w))
  }

  /** Line 67 onwards: the games select. */
  function SelectEffects(f: RegisterInput.Fields, w: RegisterWorld): seq<Effect> {
    [Db(Execute(SelectGames), w.games.Some?)]
      + (match w.games case None => DbErrorEffects(w) case Some(games) => GamesEffects(f, w, games))
  }

  /** Lines 61-64 onwards: the user insert. */
  function InsertEffects(f: RegisterInput.Fields, w: RegisterWorld): seq<Effect> {
    [Db(Execute(InsertUser(f.username)), w.insertOk)] + (if w.insertOk then SelectEffects(f, w) else DbErrorEffects(w))
  }

  /** Lines 59-110 on an acquired connection. */
  function TxEffects(f: RegisterInput.Fields, w: RegisterWorld): seq<Effect> {
    [Db(Begin, w.beginOk)] + (if w.beginOk then InsertEffects(f, w) else DbErrorEffects(w))
  }

  /** Line 57 onwards: a failed acquisition goes to the outer handler. */
  function ConnectEffects(f: RegisterInput.Fields, w: RegisterWorld): seq<Effect> {
    match w.acquire
    case Some(e) => [Db(Acquire, false), Respond(OuterReply(e))]
    case None => [Db(Acquire, true)] + TxEffects(f, w)
  }

  /** The two look-ups of lines 31-34, email first. */
  function CheckCalls(f: RegisterInput.Fields): seq<Effect> {
    [Call("listUsers", Some(Checks.EmailFilter(f.email))), Call("listUsers", Some(Checks.UsernameFilter(f.username)))]
  }

  /** Everything the route does for validated fields, in order. */
  function RegisterEffects(f: RegisterInput.Fields, w: RegisterWorld): seq<Effect> {
    CheckCalls(f) + (match Duplicates(f, w) case Some(r) => [Respond(r)] case None => ConnectEffects(f, w))
  }

  /** Lines 101-110: roll back, then answer and release. */
  method Abort(c: Connection, w: RegisterWorld)
    requires !c.state.released && c.state.tx != Committed
    modifies c, c.log
    ensures c.log.effects == old(c.log.effects) + DbErrorEffects(w)
  {
    c.Rollback(w.rollback.None?);
    if w.rollback.None? {
      c.log.Add(Respond(DatabaseError));
      c.Release();
    } else {
      c.Release();
      c.log.Add(Respond(OuterReply(w.rollback.value)));
    }
  }

  /** Lines 97-100: roll back after a failed sign-up or commit. */
  method Undo(c: Connection, w: RegisterWorld)
    requires !c.state.released && c.state.tx != Committed
    modifies c, c.log
    ensures c.log.effects == old(c.log.effects) + SignUpFailEffects(w)
  {
    c.Rollback(w.rollback.None?);
    if w.rollback.None? {
      c.Release();
    } else {
      Abort(c, w);
      Regroup(old(c.log.effects), [Db(Rollback, false)], DbErrorEffects(w));
    }
  }

  /** Lines 69-74: one game_stats insert per game row, all issued; reports whether every one succeeded. */
  method InsertStats(c: Connection, userId: int, games: seq<int>, ok: nat -> bool) returns (allOk: bool)
    requires !c.state.released && c.state.tx == InTx
    modifies c, c.log
    ensures allOk == StatsAllOk(games, ok)
    ensures c.state == old(c.state)
    ensures c.log.effects == old(c.log.effects) + StatsEffects(userId, games, ok)
  {
    allOk := true;
    var i := 0;
    while i < |games|
      invariant 0 <= i <= |games|
      invariant c.state == old(c.state)
      invariant allOk == StatsAllOk(games[..i], ok)
      invariant c.log.effects == old(c.log.effects) + StatsEffects(userId, games[..i], ok)
    {
      c.Execute(InsertGameStats(userId, games[i]), ok(i));
      allOk := allOk && ok(i);
      assert games[..i + 1][..i] == games[..i];
      i := i + 1;
    }
    assert games[..i] == games;
  }

  /** Lines 76-100: sign up and commit. */
  method SignUp(c: Connection, f: RegisterInput.Fields, w: RegisterWorld)
    requires c.state == ConnState(InTx, false)
    modifies c, c.log
    ensures c.log.effects == old(c.log.effects) + SignUpEffects(f, w)
  {
    c.log.Add(Call("signUp", Some(f.username)));
    ghost var e1 := c.log.effects;
    if !w.signUpOk {
      Undo(c, w);
      Regroup(old(c.log.effects), [Call("signUp", Some(f.username))], SignUpFailEffects(w));
      return;
    }
    c.Commit(w.commitOk);
    if w.commitOk {
      c.log.Add(Respond(Registered));
      c.Release();
    } else {
      Undo(c, w);
      Regroup(e1, [Db(Commit, false)], SignUpFailEffects(w));
    }
    Regroup(old(c.log.effects), [Call("signUp", Some(f.username))], CommitEffects(w));
  }

  /** Lines 67-100: the select, the game_stats inserts, and the sign-up. */
  method Games(c: Connection, f: RegisterInput.Fields, w: RegisterWorld)
    requires c.state == ConnState(InTx, false)
    modifies c, c.log
    ensures c.log.effects == old(c.log.effects) + SelectEffects(f, w)
  {
    c.Execute(SelectGames, w.games.Some?);
    ghost var e1 := c.log.effects;
    if w.games.None? {
      Abort(c, w);
      Regroup(old(c.log.effects), [Db(Execute(SelectGames), false)], DbErrorEffects(w));
      return;
    }
    var games := w.games.value;
    var allOk := InsertStats(c, w.userId, games, w.statsOk);
    if allOk {
      SignUp(c, f, w);
    } else {
      Abort(c, w);
    }
    Regroup(e1, StatsEffects(w.userId, games, w.statsOk),
      if StatsAllOk(games, w.statsOk) then SignUpEffects(f, w) else DbErrorEffects(w));
    Regroup(old(c.log.effects), [Db(Execute(SelectGames), true)], GamesEffects(f, w, games));
  }

  /** Lines 59-110: the transaction on an acquired connection. */
  method Transaction(c: Connection, f: RegisterInput.Fields, w: RegisterWorld)
    requires c.state == Fresh
    modifies c, c.log
    ensures c.log.effects == old(c.log.effects) + TxEffects(f, w)
  {
    c.Begin(w.beginOk);
    ghost var e1 := c.log.effects;
    if !w.beginOk {
      Abort(c, w);
      Regroup(old(c.log.effects), [Db(Begin, false)], DbErrorEffects(w));
      return;
    }
    c.Execute(InsertUser(f.username), w.insertOk);
    if w.insertOk {
      Games(c, f, w);
    } else {
      Abort(c, w);
    }
    Regroup(e1, [Db(Execute(InsertUser(f.username)), w.insertOk)], if w.insertOk then SelectEffects(f, w) else DbErrorEffects(w));
    Regroup(old(c.log.effects), [Db(Begin, true)], InsertEffects(f, w));
  }

  /** Lines 57-122: acquire a connection and run the transaction on it. */
  method Connect(f: RegisterInput.Fields, w: RegisterWorld, res: Recorder)
    modifies res
    ensures res.effects == old(res.effects) + ConnectEffects(f, w)
  {
    if w.acquire.Some? {
      var _ := AcquireConnection(res, false);
      res.Add(Respond(OuterReply(w.acquire.value)));
    } else {
      var c := AcquireConnection(res, true);
      Transaction(c, f, w);
      Regroup(old(res.effects), [Db(Acquire, true)], TxEffects(f, w));
    }
  }

  /** The route handler; `f` holds the body fields as the middleware stored them. */
  method HandleRegister(f: RegisterInput.Fields, w: RegisterWorld, res: Recorder)
    modifies res
    ensures res.effects == old(res.effects) + RegisterEffects(f, w)
  {
    res.AddAll(CheckCalls(f));
    var emailExists := Checks.CheckForDuplicateEmail(f.email, w.listUsers);
    var usernameExists := Checks.CheckForDuplicateUsername(f.username, w.listUsers);
    var dup := Duplicate(emailExists, usernameExists);
    ghost var e1 := res.effects;
    ghost var rest := match Duplicates(f, w) case Some(r) => [Respond(r)] case None => ConnectEffects(f, w);
    if dup.Some? {
      res.Add(Respond(dup.value));
    } else {
      Connect(f, w, res);
    }
    assert res.effects == e1 + rest;
    Regroup(old(res.effects), CheckCalls(f), rest);
  }

  /** The reply written on a database error: DATABASE_ERROR, or the outer mapping of the rollback's error. */
  function DbErrorReply(w: RegisterWorld): Reply {
    match w.rollback case None => DatabaseError case Some(e) => OuterReply(e)
  }

  /** Some statement of the transaction before the sign-up failed. */
  predicate DbFailed(w: RegisterWorld) {
    !w.beginOk || !w.insertOk || w.games.None? || !StatsAllOk(w.games.value, w.statsOk)
  }

  /** The reply once the connection is acquired, None when the route writes none. */
  function TxOutcome(w: RegisterWorld): Option<Reply> {
    if DbFailed(w) then Some(DbErrorReply(w))
    else if w.signUpOk && w.commitOk then Some(Registered)
    else if w.rollback.None? then None
    else Some(DbErrorReply(w))
  }

  /** The reply of the route, as an independent classification of the outcomes; None when it writes none. */
  function RegisterOutcome(f: RegisterInput.Fields, w: RegisterWorld): Option<Reply> {
    if Duplicates(f, w).Some? then Duplicates(f, w)
    else if w.acquire.Some? then Some(OuterReply(w.acquire.value))
    else TxOutcome(w)
  }

  function AsSeq(o: Option<Reply>): seq<Reply> {
    match o case None => [] case Some(r) => [r]
  }

  /** The game_stats inserts write nothing. */
  lemma {:induction false} StatsSilent(userId: int, games: seq<int>, ok: nat -> bool)
    ensures Responses(StatsEffects(userId, games, ok)) == []
    decreases |games|
  {
    if games != [] {
      var n := |games| - 1;
      StatsSilent(userId, games[..n], ok);
      ResponsesAppend(StatsEffects(userId, games[..n], ok), [Db(Execute(InsertGameStats(userId, games[n])), ok(n))]);
    }
  }

  /** Exactly one game_stats insert per game row, in row order, each for the new user's id. */
  lemma {:induction false} StatsRows(userId: int, games: seq<int>, ok: nat -> bool)
    ensures DbOps(StatsEffects(userId, games, ok)) == seq(|games|, i requires 0 <= i < |games| => (Execute(InsertGameStats(userId, games[i])), ok(i)))
    decreases |games|
  {
    if games != [] {
      var n := |games| - 1;
      StatsRows(userId, games[..n], ok);
      DbOpsAppend(StatsEffects(userId, games[..n], ok), [Db(Execute(InsertGameStats(userId, games[n])), ok(n))]);
    }
  }

  lemma DbErrorResponds(w: RegisterWorld)
    ensures Responses(DbErrorEffects(w)) == [DbErrorReply(w)]
  {
    var r := DbErrorEffects(w);
    UnfoldResponses(r);
    assert r[0..] == r && r[3..] == [];
  }

  lemma SignUpFailResponds(w: RegisterWorld)
    ensures Responses(SignUpFailEffects(w)) == if w.rollback.None? then [] else [DbErrorReply(w)]
  {
    if w.rollback.None? {
      var r := SignUpFailEffects(w);
      UnfoldResponses(r);
      assert r[0..] == r && r[2..] == [];
    } else {
      DbErrorResponds(w);
      Peel(Db(Rollback, false), DbErrorEffects(w));
    }
  }

  lemma SignUpResponds(f: RegisterInput.Fields, w: RegisterWorld)
    ensures Responses(SignUpEffects(f, w)) ==
      (if w.signUpOk && w.commitOk then [Registered] else Responses(SignUpFailEffects(w)))
  {
    var done := [Respond(Registered), Db(Release, true)];
    UnfoldResponses(done);
    assert done[0..] == done && done[2..] == [];
    Peel(Db(Commit, w.commitOk), if w.commitOk then done else SignUpFailEffects(w));
    Peel(Call("signUp", Some(f.username)), if w.signUpOk then CommitEffects(w) else SignUpFailEffects(w));
  }

  lemma GamesResponds(f: RegisterInput.Fields, w: RegisterWorld, games: seq<int>)
    requires w.beginOk && w.insertOk && w.games == Some(games)
    ensures Responses(GamesEffects(f, w, games)) == AsSeq(TxOutcome(w))
  {
    StatsSilent(w.userId, games, w.statsOk);
    ResponsesAppend(StatsEffects(w.userId, games, w.statsOk),
      if StatsAllOk(games, w.statsOk) then SignUpEffects(f, w) else DbErrorEffects(w));
    DbErrorResponds(w);
    SignUpResponds(f, w);
    SignUpFailResponds(w);
  }

  lemma TxResponds(f: RegisterInput.Fields, w: RegisterWorld)
    ensures Responses(TxEffects(f, w)) == AsSeq(TxOutcome(w))
  {
    DbErrorResponds(w);
    if w.beginOk {
      if w.insertOk {
        if w.games.Some? {
          GamesResponds(f, w, w.games.value);
        }
        Peel(Db(Execute(SelectGames), w.games.Some?),
          match w.games case None => DbErrorEffects(w) case Some(games) => GamesEffects(f, w, games));
      }
      Peel(Db(Execute(InsertUser(f.username)), w.insertOk), if w.insertOk then SelectEffects(f, w) else DbErrorEffects(w));
    }
    Peel(Db(Begin, w.beginOk), if w.beginOk then InsertEffects(f, w) else DbErrorEffects(w));
  }

  /**
   * The route writes at most one reply, the one the classification names; it
   * writes none exactly when the sign-up or the commit failed and the
   * rollback succeeded.
   */
  lemma RegisterResponds(f: RegisterInput.Fields, w: RegisterWorld)
    ensures Responses(RegisterEffects(f, w)) == AsSeq(RegisterOutcome(f, w))
  {
    var tail := match Duplicates(f, w) case Some(r) => [Respond(r)] case None => ConnectEffects(f, w);
    Silent(CheckCalls(f));
    ResponsesAppend(CheckCalls(f), tail);
    if Duplicates(f, w).None? {
      if w.acquire.Some? {
        UnfoldResponses(tail);
        assert tail[0..] == tail && tail[2..] == [];
      } else {
        TxResponds(f, w);
        Peel(Db(Acquire, true), TxEffects(f, w));
      }
    }
  }

  /** No reply at all exactly when the sign-up or commit failed and was rolled back. */
  lemma SilentExactly(f: RegisterInput.Fields, w: RegisterWorld)
    ensures RegisterOutcome(f, w).None? <==>
      Duplicates(f, w).None? && w.acquire.None? && !DbFailed(w) && !(w.signUpOk && w.commitOk) && w.rollback.None?
  {
  }

  lemma DbErrorReplay(w: RegisterWorld, s: ConnState)
    requires !s.released && s.tx != Committed
    ensures EndsReleased(s, DbOps(DbErrorEffects(w)))
  {
    var r := DbErrorEffects(w);
    UnfoldDbOps(r);
    assert r[0..] == r && r[3..] == [];
    assert DbOps(r) == [(Rollback, w.rollback.None?)] + [(Release, true)];
    ReplayStep(s, Rollback, w.rollback.None?, [(Release, true)]);
    ReplayStep(Step(s, Rollback, w.rollback.None?).value, Release, true, []);
  }

  lemma SignUpFailReplay(w: RegisterWorld)
    ensures EndsReleased(ConnState(InTx, false), DbOps(SignUpFailEffects(w)))
  {
    var s := ConnState(InTx, false);
    if w.rollback.None? {
      var r := SignUpFailEffects(w);
      UnfoldDbOps(r);
      assert r[0..] == r && r[2..] == [];
      assert DbOps(r) == [(Rollback, true)] + [(Release, true)];
      ReplayStep(s, Rollback, true, [(Release, true)]);
      ReplayStep(s.(tx := RolledBack), Release, true, []);
    } else {
      Peel(Db(Rollback, false), DbErrorEffects(w));
      ReplayStep(s, Rollback, false, DbOps(DbErrorEffects(w)));
      DbErrorReplay(w, s);
    }
  }

  lemma CommitReplay(w: RegisterWorld)
    ensures EndsReleased(ConnState(InTx, false), DbOps(CommitEffects(w)))
  {
    var s := ConnState(InTx, false);
    var done := [Respond(Registered), Db(Release, true)];
    var rest := if w.commitOk then done else SignUpFailEffects(w);
    Peel(Db(Commit, w.commitOk), rest);
    ReplayStep(s, Commit, w.commitOk, DbOps(rest));
    if w.commitOk {
      UnfoldDbOps(done);
      assert done[0..] == done && done[2..] == [];
      assert DbOps(done) == [(Release, true)];
      ReplayStep(s.(tx := Committed), Release, true, []);
    } else {
      SignUpFailReplay(w);
    }
  }

  lemma SignUpReplay(f: RegisterInput.Fields, w: RegisterWorld)
    ensures EndsReleased(ConnState(InTx, false), DbOps(SignUpEffects(f, w)))
  {
    var rest := if w.signUpOk then CommitEffects(w) else SignUpFailEffects(w);
    Peel(Call("signUp", Some(f.username)), rest);
    assert DbOps(SignUpEffects(f, w)) == DbOps(rest);
    if w.signUpOk {
      CommitReplay(w);
    } else {
      SignUpFailReplay(w);
    }
  }

  lemma GamesReplay(f: RegisterInput.Fields, w: RegisterWorld, games: seq<int>)
    ensures EndsReleased(ConnState(InTx, false), DbOps(GamesEffects(f, w, games)))
  {
    var s := ConnState(InTx, false);
    var stats := DbOps(StatsEffects(w.userId, games, w.statsOk));
    var rest := if StatsAllOk(games, w.statsOk) then SignUpEffects(f, w) else DbErrorEffects(w);
    StatsRows(w.userId, games, w.statsOk);
    ReplayExecutes(s, stats);
    DbOpsAppend(StatsEffects(w.userId, games, w.statsOk), rest);
    ReplayAppend(s, stats, DbOps(rest));
    SignUpReplay(f, w);
    DbErrorReplay(w, s);
  }

  lemma InsertReplay(f: RegisterInput.Fields, w: RegisterWorld)
    ensures EndsReleased(ConnState(InTx, false), DbOps(InsertEffects(f, w)))
  {
    var s := ConnState(InTx, false);
    DbErrorReplay(w, s);
    if w.insertOk {
      if w.games.Some? {
        GamesReplay(f, w, w.games.value);
      }
      var rest := match w.games case None => DbErrorEffects(w) case Some(games) => GamesEffects(f, w, games);
      Peel(Db(Execute(SelectGames), w.games.Some?), rest);
      ReplayStep(s, Execute(SelectGames), w.games.Some?, DbOps(rest));
    }
    var rest := if w.insertOk then SelectEffects(f, w) else DbErrorEffects(w);
    Peel(Db(Execute(InsertUser(f.username)), w.insertOk), rest);
    ReplayStep(s, Execute(InsertUser(f.username)), w.insertOk, DbOps(rest));
  }

  lemma TxReplay(f: RegisterInput.Fields, w: RegisterWorld)
    ensures EndsReleased(Fresh, DbOps(TxEffects(f, w)))
  {
    DbErrorReplay(w, Fresh);
    InsertReplay(f, w);
    var rest := if w.beginOk then InsertEffects(f, w) else DbErrorEffects(w);
    Peel(Db(Begin, w.beginOk), rest);
    ReplayStep(Fresh, Begin, w.beginOk, DbOps(rest));
  }

  /**
   * A connection is acquired only when neither duplicate exists; once
   * acquired it is used by the protocol and released on every path.
   */
  lemma RegisterDisciplined(f: RegisterInput.Fields, w: RegisterWorld)
    ensures Disciplined(RegisterEffects(f, w))
    ensures DbOps(RegisterEffects(f, w)) != [] ==> Duplicates(f, w).None?
  {
    var tail := match Duplicates(f, w) case Some(r) => [Respond(r)] case None => ConnectEffects(f, w);
    NoDb(CheckCalls(f));
    DbOpsAppend(CheckCalls(f), tail);
    assert DbOps(RegisterEffects(f, w)) == DbOps(tail);
    if Duplicates(f, w).Some? {
      NoDb(tail);
    } else {
      ConnectDisciplined(f, w);
    }
  }

  lemma ConnectDisciplined(f: RegisterInput.Fields, w: RegisterWorld)
    ensures Disciplined(ConnectEffects(f, w))
  {
    var t := ConnectEffects(f, w);
    if w.acquire.Some? {
      UnfoldDbOps(t);
      assert t[0..] == t && t[2..] == [];
    } else {
      Peel(Db(Acquire, true), TxEffects(f, w));
      TxReplay(f, w);
      assert DbOps(t)[1..] == DbOps(TxEffects(f, w));
    }
  }

  /** 201 exactly when there is no duplicate and every step succeeded. */
  lemma RegisteredExactly(f: RegisterInput.Fields, w: RegisterWorld)
    ensures RegisterOutcome(f, w) == Some(Registered) <==>
      Duplicates(f, w).None? && w.acquire.None? && !DbFailed(w) && w.signUpOk && w.commitOk
  {
  }

  /** No game_stats insert is a commit. */
  lemma {:induction false} StatsNoCommit(userId: int, games: seq<int>, ok: nat -> bool, c: bool)
    ensures Db(Commit, c) !in StatsEffects(userId, games, ok)
    decreases |games|
  {
    if games != [] {
      StatsNoCommit(userId, games[..|games| - 1], ok, c);
    }
  }

  /** What a commit in the sign-up step and after it says about the world. */
  lemma SignUpCommit(f: RegisterInput.Fields, w: RegisterWorld, c: bool)
    ensures Db(Commit, c) in SignUpEffects(f, w) ==> w.signUpOk && c == w.commitOk
  {
    var commit := Db(Commit, c);
    assert commit !in DbErrorEffects(w);
    assert commit !in SignUpFailEffects(w);
  }

  lemma GamesCommit(f: RegisterInput.Fields, w: RegisterWorld, games: seq<int>, c: bool)
    ensures Db(Commit, c) in GamesEffects(f, w, games) ==> w.signUpOk && c == w.commitOk
  {
    StatsNoCommit(w.userId, games, w.statsOk, c);
    SignUpCommit(f, w, c);
    assert Db(Commit, c) !in DbErrorEffects(w);
  }

  lemma InsertCommit(f: RegisterInput.Fields, w: RegisterWorld, c: bool)
    ensures Db(Commit, c) in InsertEffects(f, w) ==> w.signUpOk && c == w.commitOk
  {
    assert Db(Commit, c) !in DbErrorEffects(w);
    if w.games.Some? {
      GamesCommit(f, w, w.games.value, c);
    }
  }

  /** Lines 89-91: the transaction is committed only after the sign-up succeeded, and with the commit's outcome. */
  lemma CommitAfterSignUp(f: RegisterInput.Fields, w: RegisterWorld, c: bool)
    ensures Db(Commit, c) in RegisterEffects(f, w) ==> w.signUpOk && c == w.commitOk
  {
    var commit := Db(Commit, c);
    InsertCommit(f, w, c);
    assert commit !in DbErrorEffects(w);
    assert commit !in CheckCalls(f);
    assert commit in TxEffects(f, w) ==> commit in InsertEffects(f, w);
  }

  /**
   * The 201 path in full: the checks, acquire, begin, the user insert, the
   * select, one insert per game, sign-up, commit, and only then the reply and
   * the release.
   */
  lemma RegisteredTrace(f: RegisterInput.Fields, w: RegisterWorld)
    requires RegisterOutcome(f, w) == Some(Registered)
    ensures w.games.Some?
    ensures RegisterEffects(f, w) == CheckCalls(f)
      + [Db(Acquire, true), Db(Begin, true), Db(Execute(InsertUser(f.username)), true), Db(Execute(SelectGames), true)]
      + StatsEffects(w.userId, w.games.value, w.statsOk)
      + [Call("signUp", Some(f.username)), Db(Commit, true), Respond(Registered), Db(Release, true)]
  {
    RegisteredExactly(f, w);
    var games := w.games.value;
    var stats := StatsEffects(w.userId, games, w.statsOk);
    var tail := [Call("signUp", Some(f.username)), Db(Commit, true), Respond(Registered), Db(Release, true)];
    assert SignUpEffects(f, w) == tail;
    assert GamesEffects(f, w, games) == stats + tail;
    var four := [Db(Acquire, true), Db(Begin, true), Db(Execute(InsertUser(f.username)), true), Db(Execute(SelectGames), true)];
    assert SelectEffects(f, w) == [Db(Execute(SelectGames), true)] + (stats + tail);
    assert InsertEffects(f, w) == [Db(Execute(InsertUser(f.username)), true)] + SelectEffects(f, w);
    assert TxEffects(f, w) == [Db(Begin, true)] + InsertEffects(f, w);
    assert ConnectEffects(f, w) == four + (stats + tail);
    assert RegisterEffects(f, w) == CheckCalls(f) + ConnectEffects(f, w);
    Regroup(CheckCalls(f), four, stats + tail);
    Regroup(CheckCalls(f) + four, stats, tail);
  }

  /** A failed begin, insert or select rolls back and ends the trace with the database-error reply. */
  lemma DbErrorRollsBack(f: RegisterInput.Fields, w: RegisterWorld)
    requires Duplicates(f, w).None? && w.acquire.None? && DbFailed(w)
    ensures EndsWith(RegisterEffects(f, w), DbErrorEffects(w))
    ensures RegisterOutcome(f, w) == Some(DbErrorReply(w))
  {
    var e := DbErrorEffects(w);
    assert EndsWith(e, e);
    if w.beginOk {
      if w.insertOk {
        if w.games.Some? {
          EndsWithAfter(StatsEffects(w.userId, w.games.value, w.statsOk), e, e);
        }
        EndsWithAfter([Db(Execute(SelectGames), w.games.Some?)],
          match w.games case None => e case Some(games) => GamesEffects(f, w, games), e);
      }
      EndsWithAfter([Db(Execute(InsertUser(f.username)), w.insertOk)], if w.insertOk then SelectEffects(f, w) else e, e);
    }
    EndsWithAfter([Db(Begin, w.beginOk)], if w.beginOk then InsertEffects(f, w) else e, e);
    EndsWithAfter([Db(Acquire, true)], TxEffects(f, w), e);
    EndsWithAfter(CheckCalls(f), ConnectEffects(f, w), e);
  }
}
