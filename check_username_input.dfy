/**
 * The Check-Username-Availability input middleware
 * (Check-Username-Availability/utils/middleware/validate-input.js) as
 * written: line 2 destructures the member `username` out of the query value
 * `req.query.username` instead of taking the value itself, so a string query
 * value always reads as missing. `CheckIntended` is the evidently intended
 * middleware, which reads the query value directly.
 */
module CheckUsernameInput {
  import opened Wrappers
  import opened Text
  import opened JsValues
  import opened Http

  function MissingUsername(m: JsValue): Reply {
    Reply(400, "Username is required.", "MISSING_FIELDS", Value(m))
  }

  /** Lines 16-29 for the extracted member `m` of the query value `q`. */
  function AfterPresence(q: JsValue, m: JsValue): (r: MwResult<string>)
    requires !Nullish(q)
  {
    if !m.Str? then Reject(InvalidReply(Pick([!m.Str?], ["username"])))
    else if q.Str? then Next(Normalise(q.s))
    else Throw(TypeError)
  }

  /**
   * validate-input.js:2-29 as written. The presence test of line 5 repeats the
   * one of line 4 inside its own branch, so it is modelled once.
   */
  function Check(q: JsValue): (r: MwResult<string>)
    ensures !r.Next?
    ensures Nullish(q) <==> r == Throw(TypeError) && !q.Obj?
    ensures q.Str? ==> r == Reject(MissingUsername(Undefined))
    ensures !Nullish(q) ==> (Falsy(Member(q, "username")) <==> r == Reject(MissingUsername(Member(q, "username"))))
    ensures r == Reject(InvalidReply(["username"])) <==> q.Obj? && !Falsy(Member(q, "username")) && !Member(q, "username").Str?
  {
    if Nullish(q) then Throw(TypeError)
    else
      var m := Member(q, "username");
      if Falsy(m) then Reject(MissingUsername(m)) else AfterPresence(q, m)
  }

  /**
   * An object with a string `username` member gets past both tests, and then
   * `.trim` is called on the object itself, which has no such method.
   */
  lemma ObjectQueryThrows(f: map<string, JsValue>, s: string)
    requires "username" in f && f["username"] == Str(s) && s != ""
    ensures Check(Obj(f)) == Throw(TypeError)
  {
  }

  /** The intended middleware: the query value itself is tested and normalised. */
  function CheckIntended(q: JsValue): (r: MwResult<string>)
    ensures !r.Throw?
    ensures r.Reject? ==> r.reply.status == 400
    ensures r.Next? <==> !Falsy(q) && q.Str?
    ensures r.Next? ==> r.fields == Normalise(q.s)
    ensures Falsy(q) <==> r == Reject(MissingUsername(q))
  {
    if Falsy(q) then Reject(MissingUsername(q))
    else if !q.Str? then Reject(InvalidReply(["username"]))
    else Next(Normalise(q.s))
  }

  /** Every non-empty string is refused as missing as written, and accepted by the intended middleware. */
  lemma StringQueryRefused(s: string)
    requires s != ""
    ensures Check(Str(s)) == Reject(MissingUsername(Undefined))
    ensures CheckIntended(Str(s)) == Next(Normalise(s))
  {
  }

  /** A stored non-empty name passes the intended middleware again unchanged. */
  lemma IntendedRevalidates(q: JsValue)
    requires CheckIntended(q).Next? && CheckIntended(q).fields != ""
    ensures CheckIntended(Str(CheckIntended(q).fields)) == CheckIntended(q)
  {
    NormaliseIdempotent(q.s);
  }

  /** `validateInput(req, res, next)` as written: a 400 reply or a thrown error, never `next()`. */
  method ValidateInput(req: Request, res: Recorder) returns (next: bool, thrown: Option<Fault>)
    modifies req, res
    ensures var r := Check(Field(old(req.query), "username"));
      && !next
      && thrown == (if r.Throw? then Some(r.fault) else None)
      && res.effects == old(res.effects) + (if r.Reject? then [Respond(r.reply)] else [])
    ensures req.query == old(req.query) && req.body == old(req.body)
  {
    var r := Check(Field(req.query, "username"));
    next := false;
    if r.Reject? {
      res.Add(Respond(r.reply));
      thrown := None;
    } else {
      thrown := Some(r.fault);
    }
  }
}
