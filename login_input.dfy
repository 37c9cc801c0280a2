/**
 * The Login-User input middleware (Login-User/utils/middleware/validate-input.js):
 * a presence rule and a type rule on the identifier and password, then the
 * identifier is normalised in place and `next()` is called.
 */
module LoginInput {
  import opened Text
  import opened JsValues
  import opened Http

  datatype Fields = Fields(identifier: string, password: string)

  /** validate-input.js:4-31: the two rules on the raw values, then the stored forms. */
  function Check(i: JsValue, p: JsValue): (r: MwResult<Fields>)
    ensures !r.Throw?
    ensures r.Reject? ==> r.reply.status == 400
    ensures r.Next? <==> !Falsy(i) && !Falsy(p) && i.Str? && p.Str?
    ensures r.Next? ==> r.fields == Fields(Normalise(i.s), p.s)
  {
    if Falsy(i) || Falsy(p) then
      Reject(MissingReply("All fields are required.", Pick([Falsy(i), Falsy(p)], ["identifier", "password"])))
    else if !i.Str? || !p.Str? then
      Reject(InvalidReply(Pick([!i.Str?, !p.Str?], ["identifier", "password"])))
    else
      Next(Fields(Normalise(i.s), p.s))
  }

  /** A falsy field gives MISSING_FIELDS naming the falsy ones, identifier first. */
  lemma MissingRule(i: JsValue, p: JsValue)
    requires Falsy(i) || Falsy(p)
    ensures Check(i, p) == Reject(MissingReply("All fields are required.",
      (if Falsy(i) then ["identifier"] else []) + (if Falsy(p) then ["password"] else [])))
  {
    PickTwo(Falsy(i), Falsy(p), "identifier", "password");
  }

  /** Present fields that are not both strings give INVALID_INPUT naming exactly the non-strings. */
  lemma TypeRule(i: JsValue, p: JsValue)
    requires !Falsy(i) && !Falsy(p) && (!i.Str? || !p.Str?)
    ensures Check(i, p) == Reject(InvalidReply(
      (if !i.Str? then ["identifier"] else []) + (if !p.Str? then ["password"] else [])))
  {
    PickTwo(!i.Str?, !p.Str?, "identifier", "password");
  }

  /** Presence is tested before trimming: an identifier of whitespace only is accepted and stored as "". */
  lemma BlankIdentifierAccepted(s: string, p: string)
    requires |s| > 0 && (forall k :: 0 <= k < |s| ==> IsSpace(s[k])) && p != ""
    ensures Check(Str(s), Str(p)) == Next(Fields("", p))
  {
    NormaliseAllSpace(s);
  }

  /** A stored non-empty identifier passes the rules again and is stored unchanged. */
  lemma NormalisedRevalidates(i: JsValue, p: JsValue)
    requires Check(i, p).Next? && Check(i, p).fields.identifier != ""
    ensures var f := Check(i, p).fields; Check(Str(f.identifier), Str(f.password)) == Next(f)
  {
    NormaliseIdempotent(i.s);
  }

  /** `validateInput(req, res, next)`: writes the 400 reply, or rewrites the body and continues. */
  method ValidateInput(req: Request, res: Recorder) returns (next: bool)
    modifies req, res
    ensures var r := Check(Field(old(req.body), "identifier"), Field(old(req.body), "password"));
      && next == r.Next?
      && res.effects == old(res.effects) + (if r.Reject? then [Respond(r.reply)] else [])
      && req.body == (if r.Next? then old(req.body)["identifier" := Str(r.fields.identifier)]
        ["password" := Str(r.fields.password)] else old(req.body))
    ensures req.query == old(req.query)
  {
    var r := Check(Field(req.body, "identifier"), Field(req.body, "password"));
    if r.Reject? {
      res.Add(Respond(r.reply));
      next := false;
    } else {
      req.body := req.body["identifier" := Str(r.fields.identifier)];
      req.body := req.body["password" := Str(r.fields.password)];
      next := true;
    }
  }
}
