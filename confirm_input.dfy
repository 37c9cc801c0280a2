/**
 * The Confirm-New-Password input middleware
 * (Confirm-New-Password/utils/middleware/validate-inputs.js): presence, the
 * password policy, then types; the username is normalised, the confirmation
 * code only trimmed, the new password kept. The password policy module it
 * imports is not part of this model and is a parameter here.
 */
module ConfirmInput {
  import opened Text
  import opened JsValues
  import opened Http

  datatype Fields = Fields(username: string, confirmationCode: string, newPassword: string)

  /** The policy reply; its requirements sit directly in the details object here. */
  const PasswordReply := Reply(400, "Password requirements not met.", "INVALID_PASSWORD", FlatPasswordRule(8, true, true))

  /** validate-inputs.js:8-52. */
  function Check(passwordOk: JsValue -> bool, u: JsValue, c: JsValue, p: JsValue): (r: MwResult<Fields>)
    ensures !r.Throw?
    ensures r.Reject? ==> r.reply.status == 400
    ensures r.Next? <==> !Falsy(u) && !Falsy(c) && !Falsy(p) && passwordOk(p) && u.Str? && c.Str? && p.Str?
    ensures r.Next? ==> r.fields == Fields(Normalise(u.s), Trim(c.s), p.s)
  {
    if Falsy(u) || Falsy(c) || Falsy(p) then
      Reject(MissingReply("All fields are required.",
        Pick([Falsy(u), Falsy(c), Falsy(p), Falsy(p)], ["username", "code", "password", "confirmPassword"])))
    else if !passwordOk(p) then
      Reject(PasswordReply)
    else if !u.Str? || !c.Str? || !p.Str? then
      Reject(InvalidReply(Pick([!u.Str?, !c.Str?, !p.Str?, !p.Str?], ["username", "code", "password", "confirmPassword"])))
    else
      Next(Fields(Normalise(u.s), Trim(c.s), p.s))
  }

  /**
   * A falsy field gives MISSING_FIELDS naming the falsy ones as username,
   * code, password, with password and confirmPassword together for the new password.
   */
  lemma MissingRule(passwordOk: JsValue -> bool, u: JsValue, c: JsValue, p: JsValue)
    requires Falsy(u) || Falsy(c) || Falsy(p)
    ensures Check(passwordOk, u, c, p) == Reject(MissingReply("All fields are required.",
      (if Falsy(u) then ["username"] else []) + (if Falsy(c) then ["code"] else [])
      + (if Falsy(p) then ["password", "confirmPassword"] else [])))
  {
    PickFour(Falsy(u), Falsy(c), Falsy(p), Falsy(p), "username", "code", "password", "confirmPassword");
  }

  /** The policy is consulted before the types: a present password it refuses gives INVALID_PASSWORD whatever the types. */
  lemma PolicyBeforeTypes(passwordOk: JsValue -> bool, u: JsValue, c: JsValue, p: JsValue)
    requires !Falsy(u) && !Falsy(c) && !Falsy(p) && !passwordOk(p)
    ensures Check(passwordOk, u, c, p) == Reject(PasswordReply)
  {
  }

  /** Once presence and policy pass, INVALID_INPUT names exactly the non-strings, the code as 'code'. */
  lemma TypeRule(passwordOk: JsValue -> bool, u: JsValue, c: JsValue, p: JsValue)
    requires !Falsy(u) && !Falsy(c) && !Falsy(p) && passwordOk(p)
    requires !u.Str? || !c.Str? || !p.Str?
    ensures Check(passwordOk, u, c, p) == Reject(InvalidReply(
      (if !u.Str? then ["username"] else []) + (if !c.Str? then ["code"] else [])
      + (if !p.Str? then ["password", "confirmPassword"] else [])))
  {
    PickFour(!u.Str?, !c.Str?, !p.Str?, !p.Str?, "username", "code", "password", "confirmPassword");
  }

  /** The code keeps its letter case: an accepted code with no surrounding whitespace is stored exactly as sent. */
  lemma CodeCaseKept(passwordOk: JsValue -> bool, u: JsValue, c: string, p: JsValue)
    requires Check(passwordOk, u, Str(c), p).Next?
    requires !IsSpace(c[0]) && !IsSpace(c[|c| - 1])
    ensures Check(passwordOk, u, Str(c), p).fields.confirmationCode == c
  {
    TrimNoEdgeSpace(c);
  }

  /** `validateInputs(req, res, next)`: writes the 400 reply, or rewrites the body and continues. */
  method ValidateInputs(req: Request, res: Recorder, passwordOk: JsValue -> bool) returns (next: bool)
    modifies req, res
    ensures var r := Check(passwordOk, Field(old(req.body), "username"), Field(old(req.body), "confirmationCode"),
        Field(old(req.body), "newPassword"));
      && next == r.Next?
      && res.effects == old(res.effects) + (if r.Reject? then [Respond(r.reply)] else [])
      && req.body == (if r.Next? then old(req.body)["username" := Str(r.fields.username)]
        ["confirmationCode" := Str(r.fields.confirmationCode)]["newPassword" := Str(r.fields.newPassword)] else old(req.body))
    ensures req.query == old(req.query)
  {
    var r := Check(passwordOk, Field(req.body, "username"), Field(req.body, "confirmationCode"), Field(req.body, "newPassword"));
    if r.Reject? {
      res.Add(Respond(r.reply));
      next := false;
    } else {
      req.body := req.body["username" := Str(r.fields.username)];
      req.body := req.body["confirmationCode" := Str(r.fields.confirmationCode)];
      req.body := req.body["newPassword" := Str(r.fields.newPassword)];
      next := true;
    }
  }
}
