/**
 * What every route shares: the provider's outcomes as the handlers see them,
 * the JSON replies, the effects a handler performs (calls into the provider or
 * other foreign code, connection operations, cookies, response writes), the
 * request object whose body the middleware rewrites, and the recorder a
 * handler writes its effects to.
 */
module Http {
  import opened Wrappers
  import opened JsValues

  /** A thrown error: its `name` and its `code` (the empty string when it has none). */
  datatype Fault = Fault(name: string, code: string)

  /**
   * What the language itself throws: reading a member of undefined or null,
   * calling a missing method, or converting an object that has no primitive.
   */
  const TypeError := Fault("TypeError", "")

  /** An account as a provider listing or lookup returns it. */
  datatype CognitoUser = CognitoUser(username: string, status: string, email: Option<string>)

  /** A `listUsers` outcome: the `Users` field (None when absent) or the thrown error. */
  type Listing = Result<Option<seq<CognitoUser>>, Fault>

  /** `Users[0]` of a successful listing with a non-empty `Users` array. */
  function FirstListed(l: Listing): (r: Option<CognitoUser>)
    ensures r.Some? <==> l.Ok? && l.value.Some? && |l.value.value| > 0
    ensures r.Some? ==> r.value == l.value.value[0]
  {
    match l
    case Ok(Some(users)) => if |users| > 0 then Some(users[0]) else None
    case _ => None
  }

  /**
   * The parts of a JSON body other than `message` and `code`, as far as they
   * are modelled. LengthRule, CharsetRule and PasswordRule sit under
   * `details.requirements`; FlatPasswordRule puts the same policy directly
   * under `details`.
   */
  datatype Info =
    | NoInfo
    | MissingFields(missing: seq<string>)
    | InvalidFields(invalid: seq<string>)
    | Value(value: JsValue)
    | LengthRule(minLength: int, maxLength: int)
    | CharsetRule(allowed: string)
    | PasswordRule(minLength: int, requiresNumber: bool, requiresSpecial: bool)
    | FlatPasswordRule(minLength: int, requiresNumber: bool, requiresSpecial: bool)
    | Account(username: Option<string>, email: Option<string>)
    | SignInPending(pendingUser: Option<string>, pendingEmail: string, nextStep: Option<string>)
    | SessionInfo(token: string, sessionUser: Option<string>, sessionEmail: string, expiresAt: int)
    | Locked(remainingTime: int)
    | AuthStatus(isAuthenticated: bool, authUser: Option<string>)
    | Token(verificationToken: string)
    | UserDetail(detailUser: string)

  /** `res.status(status).json({ message, code, ... })`; "" for a message or code the body does not carry. */
  datatype Reply = Reply(status: nat, message: string, code: string, info: Info)

  /** The statements the handlers run, by purpose (their SQL text is not modelled). */
  datatype Stmt =
    | UpdateLastLogin(user: Option<string>)
    | InsertUser(newUser: string)
    | SelectGames
    | InsertGameStats(userId: int, gameId: int)
    | MarkConfirmed(confirmedUser: string)

  datatype DbOp = Acquire | Begin | Execute(stmt: Stmt) | Commit | Rollback | Release

  /** One thing a handler does, in the order it does it; `ok` says whether a connection operation succeeded. */
  datatype Effect =
    | Call(op: string, arg: Option<string>)
    | Db(dbOp: DbOp, ok: bool)
    | SetCookie(name: string, cookie: string, maxAge: int)
    | Respond(reply: Reply)

  /** Regrouping a trace that was recorded in pieces. */
  lemma Regroup<T>(a: seq<T>, b: seq<T>, c: seq<T>)
    ensures (a + b) + c == a + (b + c)
  {
  }

  /** The replies written, in order. */
  function Responses(t: seq<Effect>): (r: seq<Reply>)
    ensures |r| <= |t|
  {
    if t == [] then [] else (if t[0].Respond? then [t[0].reply] else []) + Responses(t[1..])
  }

  lemma {:induction false} ResponsesAppend(a: seq<Effect>, b: seq<Effect>)
    ensures Responses(a + b) == Responses(a) + Responses(b)
  {
    if a == [] {
      assert a + b == b;
    } else {
      assert (a + b)[0] == a[0] && (a + b)[1..] == a[1..] + b;
      ResponsesAppend(a[1..], b);
    }
  }

  /** A trace without response writes projects to no replies. */
  lemma {:induction false} Silent(t: seq<Effect>)
    requires forall i :: 0 <= i < |t| ==> !t[i].Respond?
    ensures Responses(t) == []
  {
    if t != [] {
      Silent(t[1..]);
    }
  }

  /** The foreign operations called, in order. */
  function Calls(t: seq<Effect>): (r: seq<string>)
    ensures |r| <= |t|
  {
    if t == [] then [] else (if t[0].Call? then [t[0].op] else []) + Calls(t[1..])
  }

  lemma {:induction false} CallsAppend(a: seq<Effect>, b: seq<Effect>)
    ensures Calls(a + b) == Calls(a) + Calls(b)
  {
    if a == [] {
      assert a + b == b;
    } else {
      assert (a + b)[0] == a[0] && (a + b)[1..] == a[1..] + b;
      CallsAppend(a[1..], b);
    }
  }

  /** The connection operations, in order, with their outcomes. */
  function DbOps(t: seq<Effect>): (r: seq<(DbOp, bool)>)
    ensures |r| <= |t|
  {
    if t == [] then [] else (if t[0].Db? then [(t[0].dbOp, t[0].ok)] else []) + DbOps(t[1..])
  }

  lemma {:induction false} DbOpsAppend(a: seq<Effect>, b: seq<Effect>)
    ensures DbOps(a + b) == DbOps(a) + DbOps(b)
  {
    if a == [] {
      assert a + b == b;
    } else {
      assert (a + b)[0] == a[0] && (a + b)[1..] == a[1..] + b;
      DbOpsAppend(a[1..], b);
    }
  }

  /** A trace without connection operations projects to none. */
  lemma {:induction false} NoDb(t: seq<Effect>)
    requires forall i :: 0 <= i < |t| ==> !t[i].Db?
    ensures DbOps(t) == []
  {
    if t != [] {
      NoDb(t[1..]);
    }
  }

  /** The projections of a trace peel off its first effect. */
  lemma Peel(e: Effect, t: seq<Effect>)
    ensures Responses([e] + t) == (if e.Respond? then [e.reply] else []) + Responses(t)
    ensures Calls([e] + t) == (if e.Call? then [e.op] else []) + Calls(t)
    ensures DbOps([e] + t) == (if e.Db? then [(e.dbOp, e.ok)] else []) + DbOps(t)
  {
    assert ([e] + t)[0] == e && ([e] + t)[1..] == t;
  }

  /** The replies of a trace, one effect at a time: what a caller needs to project a written-out trace. */
  lemma UnfoldResponses(t: seq<Effect>)
    ensures forall k :: 0 <= k < |t| ==> Responses(t[k..]) == (if t[k].Respond? then [t[k].reply] else []) + Responses(t[k + 1..])
  {
    forall k | 0 <= k < |t|
      ensures t[k..][0] == t[k] && t[k..][1..] == t[k + 1..]
    {
    }
  }

  /** The connection operations of a trace, one effect at a time. */
  lemma UnfoldDbOps(t: seq<Effect>)
    ensures forall k :: 0 <= k < |t| ==> DbOps(t[k..]) == (if t[k].Db? then [(t[k].dbOp, t[k].ok)] else []) + DbOps(t[k + 1..])
  {
    forall k | 0 <= k < |t|
      ensures t[k..][0] == t[k] && t[k..][1..] == t[k + 1..]
    {
    }
  }

  /** The trace `t` ends with the effects `s`. */
  predicate EndsWith(t: seq<Effect>, s: seq<Effect>) {
    |s| <= |t| && t[|t| - |s|..] == s
  }

  /** Effects recorded earlier keep the ending of what follows them. */
  lemma EndsWithAfter(a: seq<Effect>, b: seq<Effect>, s: seq<Effect>)
    requires EndsWith(b, s)
    ensures EndsWith(a + b, s)
  {
    assert (a + b)[|a + b| - |s|..] == b[|b| - |s|..];
  }

  /** `[c1 && n1, c2 && n2, ...].filter(Boolean)`: the names whose flag is set, in order. */
  function Pick(flags: seq<bool>, names: seq<string>): (r: seq<string>)
    requires |flags| == |names|
    ensures |r| <= |names|
    ensures forall n :: n in r ==> n in names
    ensures r == [] <==> forall i :: 0 <= i < |flags| ==> !flags[i]
  {
    if flags == [] then [] else (if flags[0] then [names[0]] else []) + Pick(flags[1..], names[1..])
  }

  lemma PickTwo(a: bool, b: bool, x: string, y: string)
    ensures Pick([a, b], [x, y]) == (if a then [x] else []) + (if b then [y] else [])
  {
    assert [a, b][1..] == [b] && [x, y][1..] == [y];
  }

  lemma PickFour(a: bool, b: bool, c: bool, d: bool, w: string, x: string, y: string, z: string)
    ensures Pick([a, b, c, d], [w, x, y, z])
      == (if a then [w] else []) + (if b then [x] else []) + (if c then [y] else []) + (if d then [z] else [])
  {
    assert [a, b, c, d][1..] == [b, c, d] && [w, x, y, z][1..] == [x, y, z];
    assert [b, c, d][1..] == [c, d] && [x, y, z][1..] == [y, z];
    PickTwo(c, d, y, z);
  }

  /** The 400 reply naming the fields that are absent or falsy. */
  function MissingReply(message: string, names: seq<string>): (r: Reply)
    ensures r.status == 400 && r.code == "MISSING_FIELDS" && r.info == MissingFields(names)
  {
    Reply(400, message, "MISSING_FIELDS", MissingFields(names))
  }

  /** The 400 reply naming the fields that are present but not strings. */
  function InvalidReply(names: seq<string>): (r: Reply)
    ensures r.status == 400 && r.code == "INVALID_INPUT" && r.info == InvalidFields(names)
  {
    Reply(400, "All fields must be valid.", "INVALID_INPUT", InvalidFields(names))
  }

  /** What a validation middleware does: answer 400, call `next()` with the normalised fields, or throw. */
  datatype MwResult<T> = Reject(reply: Reply) | Next(fields: T) | Throw(fault: Fault)

  /** The effects of a middleware's verdict: nothing when it calls `next()` or throws, the reply when it refuses. */
  function VerdictEffects<T>(r: MwResult<T>): (es: seq<Effect>)
    ensures |es| <= 1
  {
    if r.Reject? then [Respond(r.reply)] else []
  }

  /** The request as the middleware sees it: the parsed body and query string. */
  class Request {
    var body: map<string, JsValue>
    var query: map<string, JsValue>

    constructor (body: map<string, JsValue>, query: map<string, JsValue>)
      ensures this.body == body && this.query == query
    {
      this.body := body;
      this.query := query;
    }
  }

  /** The effects a handler has performed so far. */
  class Recorder {
    var effects: seq<Effect>

    constructor ()
      ensures effects == []
    {
      effects := [];
    }

    method Add(e: Effect)
      modifies this
      ensures effects == old(effects) + [e]
    {
      effects := effects + [e];
    }

    /** What a middleware does with its verdict on the response: writes the reply of a refusal and nothing else. */
    method Deliver<T>(r: MwResult<T>) returns (next: bool, thrown: Option<Fault>)
      modifies this
      ensures next == r.Next?
      ensures thrown == (if r.Throw? then Some(r.fault) else None)
      ensures effects == old(effects) + VerdictEffects(r)
    {
      next := r.Next?;
      thrown := if r.Throw? then Some(r.fault) else None;
      if r.Reject? {
        effects := effects + [Respond(r.reply)];
      }
    }

    /** Several effects in a row. */
    method AddAll(es: seq<Effect>)
      modifies this
      ensures effects == old(effects) + es
    {
      effects := effects + es;
    }
  }
}
