/**
 * The Resend-Verification-Code input middleware (Resend-Verification-Code/utils/middleware/validate-input.js):
 * a presence rule and a type rule on the username, which is then normalised in
 * place before `next()` is called.
 */
module ResendInput {
  import opened Text
  import opened JsValues
  import opened Http

  /** validate-input.js:4-28; the stored username is the Next value. */
  function Check(v: JsValue): (r: MwResult<string>)
    ensures !r.Throw?
    ensures r.Reject? ==> r.reply.status == 400
    ensures Falsy(v) <==> r == Reject(MissingReply("All fields are required.", ["username"]))
    ensures !Falsy(v) && !v.Str? <==> r == Reject(InvalidReply(["username"]))
    ensures r.Next? <==> !Falsy(v) && v.Str?
    ensures r.Next? ==> r.fields == Normalise(v.s)
  {
    if Falsy(v) then
      Reject(MissingReply("All fields are required.", Pick([Falsy(v)], ["username"])))
    else if !v.Str? then
      Reject(InvalidReply(Pick([!v.Str?], ["username"])))
    else
      Next(Normalise(v.s))
  }

  /** Presence is tested before trimming: a username of whitespace only is accepted and stored as "". */
  lemma BlankAccepted(s: string)
    requires |s| > 0 && forall k :: 0 <= k < |s| ==> IsSpace(s[k])
    ensures Check(Str(s)) == Next("")
  {
    NormaliseAllSpace(s);
  }

  /** A stored non-empty username passes again and is stored unchanged. */
  lemma NormalisedRevalidates(v: JsValue)
    requires Check(v).Next? && Check(v).fields != ""
    ensures Check(Str(Check(v).fields)) == Check(v)
  {
    NormaliseIdempotent(v.s);
  }

  /** `validateInput(req, res, next)`: exactly one of a 400 reply and `next()`. */
  method ValidateInput(req: Request, res: Recorder) returns (next: bool)
    modifies req, res
    ensures var r := Check(Field(old(req.body), "username"));
      && next == r.Next?
      && res.effects == old(res.effects) + (if r.Reject? then [Respond(r.reply)] else [])
      && req.body == (if r.Next? then old(req.body)["username" := Str(r.fields)] else old(req.body))
    ensures req.query == old(req.query)
  {
    var r := Check(Field(req.body, "username"));
    if r.Reject? {
      res.Add(Respond(r.reply));
      next := false;
    } else {
      req.body := req.body["username" := Str(r.fields)];
      next := true;
    }
  }
}
