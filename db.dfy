/**
 * A pooled MySQL connection as a small state machine: its transaction is
 * Idle, InTx, Committed or RolledBack, and it is released once. The same
 * transition function drives the `Connection` class the handlers use and the
 * replay of a recorded trace, so a handler's trace can be checked against the
 * protocol after the fact.
 */
module Db {
  import opened Wrappers
  import opened Http

  datatype TxState = Idle | InTx | Committed | RolledBack

  datatype ConnState = ConnState(tx: TxState, released: bool)

  /** A connection straight from the pool. */
  const Fresh := ConnState(Idle, false)

  /**
   * One operation on the connection with its outcome; None when the protocol
   * forbids it: nothing after release, begin only when idle, execute and
   * commit only inside a transaction, no rollback after a commit. A failed
   * operation leaves the transaction where it was.
   */
  function Step(s: ConnState, op: DbOp, ok: bool): (r: Option<ConnState>)
    ensures r.Some? ==> !s.released
    ensures r.Some? && op != Release ==> r.value.released == s.released
    ensures r.Some? && r.value.tx == Committed ==> s.tx == Committed || op == Commit
  {
    if s.released then None
    else match op
      case Acquire => None
      case Begin => if s.tx == Idle then Some(if ok then s.(tx := InTx) else s) else None
      case Execute(_) => if s.tx == InTx then Some(s) else None
      case Commit => if s.tx == InTx then Some(if ok then s.(tx := Committed) else s) else None
      case Rollback => if s.tx == Committed then None else Some(if ok then s.(tx := RolledBack) else s)
      case Release => Some(s.(released := true))
  }

  /** Runs operations from a state; None as soon as one is forbidden. */
  function Replay(s: ConnState, ops: seq<(DbOp, bool)>): (r: Option<ConnState>)
    decreases |ops|
  {
    if ops == [] then Some(s)
    else match Step(s, ops[0].0, ops[0].1)
      case None => None
      case Some(s') => Replay(s', ops[1..])
  }

  lemma {:induction false} ReplayAppend(s: ConnState, a: seq<(DbOp, bool)>, b: seq<(DbOp, bool)>)
    ensures Replay(s, a + b) == if Replay(s, a).None? then None else Replay(Replay(s, a).value, b)
    decreases |a|
  {
    if a == [] {
      assert a + b == b;
    } else {
      assert (a + b)[0] == a[0] && (a + b)[1..] == a[1..] + b;
      var n := Step(s, a[0].0, a[0].1);
      if n.Some? {
        ReplayAppend(n.value, a[1..], b);
      }
    }
  }

  /** Replaying one permitted operation, then the rest. */
  lemma ReplayStep(s: ConnState, op: DbOp, ok: bool, rest: seq<(DbOp, bool)>)
    requires Step(s, op, ok).Some?
    ensures Replay(s, [(op, ok)] + rest) == Replay(Step(s, op, ok).value, rest)
  {
    assert ([(op, ok)] + rest)[0] == (op, ok) && ([(op, ok)] + rest)[1..] == rest;
  }

  /** From `s`, the operations follow the protocol and leave the connection released. */
  predicate EndsReleased(s: ConnState, ops: seq<(DbOp, bool)>) {
    var f := Replay(s, ops);
    f.Some? && f.value.released
  }

  /** Statements inside an open transaction leave it as it was. */
  lemma {:induction false} ReplayExecutes(s: ConnState, ops: seq<(DbOp, bool)>)
    requires !s.released && s.tx == InTx
    requires forall i :: 0 <= i < |ops| ==> ops[i].0.Execute?
    ensures Replay(s, ops) == Some(s)
    decreases |ops|
  {
    if ops != [] {
      ReplayExecutes(s, ops[1..]);
    }
  }

  /**
   * The trace uses a connection only after a successful acquisition, follows
   * the protocol, and releases it in the end.
   */
  predicate Disciplined(t: seq<Effect>) {
    var ops := DbOps(t);
    if ops != [] && ops[0] == (Acquire, true) then EndsReleased(Fresh, ops[1..])
    else forall i :: 0 <= i < |ops| ==> ops[i] == (Acquire, false)
  }

  /** A connection handed out by the pool; each operation is recorded on the handler's recorder. */
  class Connection {
    const log: Recorder
    var state: ConnState

    constructor (log: Recorder)
      ensures this.log == log && state == Fresh
    {
      this.log := log;
      state := Fresh;
    }

    method Begin(ok: bool)
      requires !state.released && state.tx == Idle
      modifies this, log
      ensures Step(old(state), DbOp.Begin, ok) == Some(state)
      ensures state.tx == (if ok then InTx else Idle) && !state.released
      ensures log.effects == old(log.effects) + [Db(DbOp.Begin, ok)]
    {
      state := if ok then state.(tx := InTx) else state;
      log.Add(Db(DbOp.Begin, ok));
    }

    method Execute(stmt: Stmt, ok: bool)
      requires !state.released && state.tx == InTx
      modifies this, log
      ensures Step(old(state), DbOp.Execute(stmt), ok) == Some(state)
      ensures state == old(state)
      ensures log.effects == old(log.effects) + [Db(DbOp.Execute(stmt), ok)]
    {
      log.Add(Db(DbOp.Execute(stmt), ok));
    }

    method Commit(ok: bool)
      requires !state.released && state.tx == InTx
      modifies this, log
      ensures Step(old(state), DbOp.Commit, ok) == Some(state)
      ensures state.tx == (if ok then Committed else InTx) && !state.released
      ensures log.effects == old(log.effects) + [Db(DbOp.Commit, ok)]
    {
      state := if ok then state.(tx := Committed) else state;
      log.Add(Db(DbOp.Commit, ok));
    }

    method Rollback(ok: bool)
      requires !state.released && state.tx != Committed
      modifies this, log
      ensures Step(old(state), DbOp.Rollback, ok) == Some(state)
      ensures state.tx == (if ok then RolledBack else old(state.tx)) && !state.released
      ensures log.effects == old(log.effects) + [Db(DbOp.Rollback, ok)]
    {
      state := if ok then state.(tx := RolledBack) else state;
      log.Add(Db(DbOp.Rollback, ok));
    }

    method Release()
      requires !state.released
      modifies this, log
      ensures Step(old(state), DbOp.Release, true) == Some(state)
      ensures state == old(state).(released := true)
      ensures log.effects == old(log.effects) + [Db(DbOp.Release, true)]
    {
      state := state.(released := true);
      log.Add(Db(DbOp.Release, true));
    }
  }

  /** `pool.getConnection()`: records the attempt; on success hands out a fresh connection. */
  method AcquireConnection(log: Recorder, ok: bool) returns (c: Connection?)
    modifies log
    ensures log.effects == old(log.effects) + [Db(Acquire, ok)]
    ensures c != null <==> ok
    ensures c != null ==> fresh(c) && c.log == log && c.state == Fresh
  {
    log.Add(Db(Acquire, ok));
    if ok {
      c := new Connection(log);
    } else {
      c := null;
    }
  }
}
