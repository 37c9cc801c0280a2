/**
 * The Verify-User input middleware (Verify-User/utils/middleware/validate-input.js):
 * a presence rule and a type rule on the username and verification code; the
 * username is trimmed and lower-cased, the code only trimmed.
 */
module VerifyInput {
  import opened Text
  import opened JsValues
  import opened Http

  datatype Fields = Fields(username: string, verificationCode: string)

  /** validate-input.js:4-31. */
  function Check(u: JsValue, c: JsValue): (r: MwResult<Fields>)
    ensures !r.Throw?
    ensures r.Reject? ==> r.reply.status == 400
    ensures r.Next? <==> !Falsy(u) && !Falsy(c) && u.Str? && c.Str?
    ensures r.Next? ==> r.fields == Fields(Normalise(u.s), Trim(c.s))
  {
    if Falsy(u) || Falsy(c) then
      Reject(MissingReply("All fields are required.", Pick([Falsy(u), Falsy(c)], ["username", "verificationCode"])))
    else if !u.Str? || !c.Str? then
      Reject(InvalidReply(Pick([!u.Str?, !c.Str?], ["username", "verificationCode"])))
    else
      Next(Fields(Normalise(u.s), Trim(c.s)))
  }

  /** A falsy field gives MISSING_FIELDS naming the falsy ones, username first. */
  lemma MissingRule(u: JsValue, c: JsValue)
    requires Falsy(u) || Falsy(c)
    ensures Check(u, c) == Reject(MissingReply("All fields are required.",
      (if Falsy(u) then ["username"] else []) + (if Falsy(c) then ["verificationCode"] else [])))
  {
    PickTwo(Falsy(u), Falsy(c), "username", "verificationCode");
  }

  /** Present fields that are not both strings give INVALID_INPUT naming exactly the non-strings. */
  lemma TypeRule(u: JsValue, c: JsValue)
    requires !Falsy(u) && !Falsy(c) && (!u.Str? || !c.Str?)
    ensures Check(u, c) == Reject(InvalidReply(
      (if !u.Str? then ["username"] else []) + (if !c.Str? then ["verificationCode"] else [])))
  {
    PickTwo(!u.Str?, !c.Str?, "username", "verificationCode");
  }

  /** The code keeps its letter case: an accepted code with no surrounding whitespace is stored exactly as sent. */
  lemma CodeCaseKept(u: JsValue, c: string)
    requires Check(u, Str(c)).Next?
    requires !IsSpace(c[0]) && !IsSpace(c[|c| - 1])
    ensures Check(u, Str(c)).fields.verificationCode == c
  {
    TrimNoEdgeSpace(c);
  }

  /** `validateInput(req, res, next)`: writes the 400 reply, or rewrites the body and continues. */
  method ValidateInput(req: Request, res: Recorder) returns (next: bool)
    modifies req, res
    ensures var r := Check(Field(old(req.body), "username"), Field(old(req.body), "verificationCode"));
      && next == r.Next?
      && res.effects == old(res.effects) + (if r.Reject? then [Respond(r.reply)] else [])
      && req.body == (if r.Next? then old(req.body)["username" := Str(r.fields.username)]
        ["verificationCode" := Str(r.fields.verificationCode)] else old(req.body))
    ensures req.query == old(req.query)
  {
    var r := Check(Field(req.body, "username"), Field(req.body, "verificationCode"));
    if r.Reject? {
      res.Add(Respond(r.reply));
      next := false;
    } else {
      req.body := req.body["username" := Str(r.fields.username)];
      req.body := req.body["verificationCode" := Str(r.fields.verificationCode)];
      next := true;
    }
  }
}
