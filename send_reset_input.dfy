/**
 * The Send-Reset-Password-Email input middleware (Send-Reset-Password-Email/utils/middleware/validate-input.js):
 * a presence rule and a type rule on the identifier, which is then normalised in
 * place before `next()` is called.
 */
module SendResetInput {
  import opened Text
  import opened JsValues
  import opened Http

  /** validate-input.js:4-28; the stored identifier is the Next value. */
  function Check(v: JsValue): (r: MwResult<string>)
    ensures !r.Throw?
    ensures r.Reject? ==> r.reply.status == 400
    ensures Falsy(v) <==> r == Reject(MissingReply("Username or Email is required.", ["identifier"]))
    ensures !Falsy(v) && !v.Str? <==> r == Reject(InvalidReply(["identifier"]))
    ensures r.Next? <==> !Falsy(v) && v.Str?
    ensures r.Next? ==> r.fields == Normalise(v.s)
  {
    if Falsy(v) then
      Reject(MissingReply("Username or Email is required.", Pick([Falsy(v)], ["identifier"])))
    else if !v.Str? then
      Reject(InvalidReply(Pick([!v.Str?], ["identifier"])))
    else
      Next(Normalise(v.s))
  }

  /** Presence is tested before trimming: an identifier of whitespace only is accepted and stored as "". */
  lemma BlankAccepted(s: string)
    requires |s| > 0 && forall k :: 0 <= k < |s| ==> IsSpace(s[k])
    ensures Check(Str(s)) == Next("")
  {
    NormaliseAllSpace(s);
  }

  /** A stored non-empty identifier passes again and is stored unchanged. */
  lemma NormalisedRevalidates(v: JsValue)
    requires Check(v).Next? && Check(v).fields != ""
    ensures Check(Str(Check(v).fields)) == Check(v)
  {
    NormaliseIdempotent(v.s);
  }

  /** `validateInput(req, res, next)`: exactly one of a 400 reply and `next()`. */
  method ValidateInput(req: Request, res: Recorder) returns (next: bool)
    modifies req, res
    ensures var r := Check(Field(old(req.body), "identifier"));
      && next == r.Next?
      && res.effects == old(res.effects) + (if r.Reject? then [Respond(r.reply)] else [])
      && req.body == (if r.Next? then old(req.body)["identifier" := Str(r.fields)] else old(req.body))
    ensures req.query == old(req.query)
  {
    var r := Check(Field(req.body, "identifier"));
    if r.Reject? {
      res.Add(Respond(r.reply));
      next := false;
    } else {
      req.body := req.body["identifier" := Str(r.fields)];
      next := true;
    }
  }
}
