/**
 * The Register-User input middleware (Register-User/utils/middleware/validate-input.js):
 * seven rejections tried in a fixed order on the raw body fields, then the
 * username and email are rewritten in place, trimmed and lower-cased, and
 * `next()` is called. A rule whose conversion throws (an object with its own
 * `toString`) ends the chain with that TypeError. The profanity filter is a
 * parameter.
 */
module RegisterInput {
  import opened Wrappers
  import opened Text
  import opened JsValues
  import opened Validation
  import opened Http

  datatype Fields = Fields(username: string, email: string, password: string)

  const LengthReply := Reply(400, "Username must be 5-18 characters.", "INVALID_USERNAME", LengthRule(5, 18))
  const CharsetReply := Reply(400, "Username cannot contain any special characters.", "INVALID_USERNAME", CharsetRule("alphanumeric"))
  const PasswordReply := Reply(400, "Password requirements not met.", "INVALID_PASSWORD", PasswordRule(8, true, true))

  /** What an accepted body satisfies: every rule, checked on the raw values. */
  predicate Acceptable(isProfane: JsValue -> bool, u: JsValue, e: JsValue, p: JsValue) {
    !Falsy(u) && !Falsy(e) && !Falsy(p)
    && ValidateEmail(e) && ValidateUsernameLength(u) && ValidateUsernameSpecialCharacters(u)
    && ValidatePassword(p) && !isProfane(u)
    && u.Str? && e.Str? && p.Str?
  }

  /**
   * With every field present, the rule chain reaches a rule whose conversion
   * throws: each rule is reached only when the ones before it passed.
   */
  predicate Throws(u: JsValue, e: JsValue, p: JsValue)
    requires !Falsy(u) && !Falsy(e) && !Falsy(p)
  {
    ToPrimitiveThrows(e)
    || (ValidateEmail(e) && (LengthThrows(u)
      || (ValidateUsernameLength(u) && (ToPrimitiveThrows(u)
        || (ValidateUsernameSpecialCharacters(u) && PasswordThrows(p))))))
  }

  /** The rejection chain of validate-input.js:18-105 and the normalisation of lines 107-109. */
  function Check(isProfane: JsValue -> bool, u: JsValue, e: JsValue, p: JsValue): (r: MwResult<Fields>)
    ensures r.Throw? <==> !Falsy(u) && !Falsy(e) && !Falsy(p) && Throws(u, e, p)
    ensures r.Throw? ==> r.fault == TypeError
    ensures r.Throw? ==> ToPrimitiveThrows(e) || ToPrimitiveThrows(u) || LengthThrows(u) || PasswordThrows(p)
    ensures u.Str? && e.Str? && p.Str? ==> !r.Throw?
    ensures r.Reject? ==> r.reply.status == 400
    ensures r.Next? <==> Acceptable(isProfane, u, e, p)
    ensures r.Next? ==> r.fields == Fields(Lower(u.s), Lower(e.s), p.s)
  {
    if Falsy(u) || Falsy(e) || Falsy(p) then
      PickFour(Falsy(u), Falsy(e), Falsy(p), Falsy(p), "username", "email", "password", "confirmPassword");
      Reject(MissingReply("All fields are required.",
        Pick([Falsy(u), Falsy(e), Falsy(p), Falsy(p)], ["username", "email", "password", "confirmPassword"])))
    else
      Rules(isProfane, u, e, p)
  }

  /** Lines 33-41 on present fields: the email rule, whose regex test may throw first. */
  function Rules(isProfane: JsValue -> bool, u: JsValue, e: JsValue, p: JsValue): (r: MwResult<Fields>)
    requires !Falsy(u) && !Falsy(e) && !Falsy(p)
    ensures r.Throw? <==> Throws(u, e, p)
    ensures r.Throw? ==> r.fault == TypeError
    ensures r.Reject? ==> r.reply.status == 400 && r.reply.code != "MISSING_FIELDS"
    ensures r.Next? <==> Acceptable(isProfane, u, e, p)
    ensures r.Next? ==> r.fields == Fields(Lower(u.s), Lower(e.s), p.s)
  {
    if ToPrimitiveThrows(e) then Throw(TypeError)
    else if !ValidateEmail(e) then
      Reject(Reply(400, "Enter a valid email.", "INVALID_EMAIL", Value(e)))
    else
      UsernameSteps(isProfane, u, e, p)
  }

  /** Lines 43-66, after the email rule: the two username rules, each of which may throw first. */
  function UsernameSteps(isProfane: JsValue -> bool, u: JsValue, e: JsValue, p: JsValue): (r: MwResult<Fields>)
    requires !Falsy(u) && !Falsy(e) && !Falsy(p) && ValidateEmail(e)
    ensures r.Throw? <==>
      LengthThrows(u) || (ValidateUsernameLength(u) && (ToPrimitiveThrows(u) || (ValidateUsernameSpecialCharacters(u) && PasswordThrows(p))))
    ensures r.Throw? ==> r.fault == TypeError
    ensures r.Reject? ==> r.reply.status == 400 && r.reply.code != "MISSING_FIELDS"
    ensures r.Next? <==> Acceptable(isProfane, u, e, p)
    ensures r.Next? ==> r.fields == Fields(Lower(u.s), Lower(e.s), p.s)
  {
    if LengthThrows(u) then Throw(TypeError)
    else if !ValidateUsernameLength(u) then
      Reject(LengthReply)
    else if ToPrimitiveThrows(u) then Throw(TypeError)
    else if !ValidateUsernameSpecialCharacters(u) then
      Reject(CharsetReply)
    else
      PasswordStep(isProfane, u, e, p)
  }

  /** Lines 68-80, after the username rules: the password rule, whose conversions may throw first. */
  function PasswordStep(isProfane: JsValue -> bool, u: JsValue, e: JsValue, p: JsValue): (r: MwResult<Fields>)
    requires !Falsy(u) && !Falsy(p) && ValidateEmail(e) && ValidateUsernameLength(u) && ValidateUsernameSpecialCharacters(u)
    ensures r.Throw? <==> PasswordThrows(p)
    ensures r.Throw? ==> r.fault == TypeError
    ensures r.Reject? ==> r.reply.status == 400 && r.reply.code != "MISSING_FIELDS"
    ensures r.Next? <==> ValidatePassword(p) && !isProfane(u) && u.Str? && e.Str? && p.Str?
    ensures r.Next? ==> r.fields == Fields(Lower(u.s), Lower(e.s), p.s)
  {
    if PasswordThrows(p) then Throw(TypeError)
    else if !ValidatePassword(p) then
      Reject(PasswordReply)
    else
      Final(isProfane, u, e, p)
  }

  /** Lines 82-90, once the validators have passed: the profanity rule, then the type rule. */
  function Final(isProfane: JsValue -> bool, u: JsValue, e: JsValue, p: JsValue): (r: MwResult<Fields>)
    requires !Falsy(u) && ValidateEmail(e) && ValidateUsernameLength(u) && ValidateUsernameSpecialCharacters(u)
    ensures !r.Throw?
    ensures r.Reject? ==> r.reply.status == 400 && r.reply.code in {"INAPPROPRIATE_CONTENT", "INVALID_INPUT"}
    ensures r.Next? <==> !isProfane(u) && u.Str? && e.Str? && p.Str?
    ensures r.Next? ==> r.fields == Fields(Lower(u.s), Lower(e.s), p.s)
  {
    if isProfane(u) then
      Reject(Reply(400, "Seriously?", "INAPPROPRIATE_CONTENT", Value(u)))
    else
      UsernameChecksOnlyStrings(u);
      NormalisedForms(u, e);
      Typed(u, e, p)
  }

  /**
   * Lines 92-110: the type rule names every non-string field (the password
   * twice), and otherwise the normalised fields go on. The username is a
   * string by now: no other value passes both username rules.
   */
  function Typed(u: JsValue, e: JsValue, p: JsValue): (r: MwResult<Fields>)
    requires u.Str? && Trim(u.s) == u.s && (e.Str? ==> Trim(e.s) == e.s)
    ensures !r.Throw?
    ensures r.Reject? ==> r.reply == InvalidReply((if e.Str? then [] else ["email"]) + (if p.Str? then [] else ["password", "confirmPassword"]))
    ensures r.Next? <==> e.Str? && p.Str?
    ensures r.Next? ==> r.fields == Fields(Lower(u.s), Lower(e.s), p.s)
  {
    if !u.Str? || !e.Str? || !p.Str? then
      TypeNames(e.Str?, p.Str?);
      Reject(InvalidReply(Pick([!u.Str?, !e.Str?, !p.Str?, !p.Str?], ["username", "email", "password", "confirmPassword"])))
    else
      Next(Normalised(u.s, e.s, p.s))
  }

  /** Lines 107-109: trimming changes neither accepted value, so the stored forms are only lower-cased. */
  function Normalised(u: string, e: string, p: string): (f: Fields)
    requires Trim(u) == u && Trim(e) == e
    ensures f == Fields(Lower(u), Lower(e), p)
  {
    Fields(Normalise(u), Normalise(e), p)
  }

  /** An email object with its own `toString` throws at the email rule, before any reply. */
  lemma EmailObjectThrows(isProfane: JsValue -> bool, m: map<string, JsValue>)
    requires "toString" in m
    ensures Check(isProfane, Str("alice"), Obj(m), Str("passw0rd!")) == Throw(TypeError)
  {
  }

  /**
   * An object whose `length` is the string "7" passes the length rule, since
   * the comparison reads "7" as 7, and is refused by the character rule.
   */
  lemma NumericLengthRefusedByCharset(isProfane: JsValue -> bool, e: JsValue, p: JsValue)
    requires !Falsy(e) && !Falsy(p) && ValidateEmail(e)
    ensures Check(isProfane, Obj(map["length" := Str("7")]), e, p) == Reject(CharsetReply)
  {
    NumericStringLength();
    CharsetRefusal(isProfane, Obj(map["length" := Str("7")]), e, p);
  }

  /** A value that passes the length rule and fails, without throwing, the character rule gets CharsetReply. */
  lemma CharsetRefusal(isProfane: JsValue -> bool, u: JsValue, e: JsValue, p: JsValue)
    requires !Falsy(u) && !Falsy(e) && !Falsy(p) && ValidateEmail(e)
    requires !LengthThrows(u) && ValidateUsernameLength(u) && !ToPrimitiveThrows(u) && !ValidateUsernameSpecialCharacters(u)
    ensures Check(isProfane, u, e, p) == Reject(CharsetReply)
  {
    RefusedValuesDoNotThrow(e);
  }

  /** Values none of whose conversions throws make the chain throw nowhere. */
  lemma NoThrowAnywhere(u: JsValue, e: JsValue, p: JsValue)
    requires !Falsy(u) && !Falsy(e) && !Falsy(p)
    requires !ToPrimitiveThrows(e) && !LengthThrows(u) && !ToPrimitiveThrows(u) && !PasswordThrows(p)
    ensures !Throws(u, e, p)
  {
  }

  /**
   * A falsy field gives MISSING_FIELDS, naming the falsy fields in the order
   * username, email, password, with confirmPassword exactly when the password
   * is missing.
   */
  lemma MissingRule(isProfane: JsValue -> bool, u: JsValue, e: JsValue, p: JsValue)
    requires Falsy(u) || Falsy(e) || Falsy(p)
    ensures Check(isProfane, u, e, p) == Reject(MissingReply("All fields are required.",
      (if Falsy(u) then ["username"] else []) + (if Falsy(e) then ["email"] else [])
      + (if Falsy(p) then ["password", "confirmPassword"] else [])))
  {
    MissingNames(Falsy(u), Falsy(e), Falsy(p));
  }

  /** With every field present, the reply is never MISSING_FIELDS. */
  lemma PresentNotMissing(isProfane: JsValue -> bool, u: JsValue, e: JsValue, p: JsValue)
    requires !Falsy(u) && !Falsy(e) && !Falsy(p)
    ensures var r := Check(isProfane, u, e, p); r.Reject? ==> r.reply.code != "MISSING_FIELDS"
  {
  }

  lemma MissingNames(us: bool, es: bool, ps: bool)
    ensures Pick([us, es, ps, ps], ["username", "email", "password", "confirmPassword"])
      == (if us then ["username"] else []) + (if es then ["email"] else []) + (if ps then ["password", "confirmPassword"] else [])
  {
    PickFour(us, es, ps, ps, "username", "email", "password", "confirmPassword");
  }

  /**
   * Once every rule has passed, the type rule names exactly the fields that
   * are not strings, and never the username: a non-string cannot pass both
   * username rules.
   */
  lemma TypeRule(isProfane: JsValue -> bool, u: JsValue, e: JsValue, p: JsValue)
    requires !Falsy(u) && !Falsy(e) && !Falsy(p)
    requires ValidateEmail(e) && ValidateUsernameLength(u) && ValidateUsernameSpecialCharacters(u)
    requires ValidatePassword(p) && !isProfane(u)
    requires !Throws(u, e, p)
    requires !e.Str? || !p.Str?
    ensures u.Str?
    ensures Check(isProfane, u, e, p) == Reject(InvalidReply(
      (if !e.Str? then ["email"] else []) + (if !p.Str? then ["password", "confirmPassword"] else [])))
  {
    UsernameChecksOnlyStrings(u);
    TypeNames(e.Str?, p.Str?);
  }

  lemma TypeNames(es: bool, ps: bool)
    ensures Pick([false, !es, !ps, !ps], ["username", "email", "password", "confirmPassword"])
      == (if !es then ["email"] else []) + (if !ps then ["password", "confirmPassword"] else [])
  {
    PickFour(false, !es, !ps, !ps, "username", "email", "password", "confirmPassword");
  }

  /** Trimming changes neither an accepted username (all alphanumeric) nor an accepted email (no whitespace). */
  lemma NormalisedForms(u: JsValue, e: JsValue)
    requires u.Str? && ValidateUsernameSpecialCharacters(u) && ValidateEmail(e)
    ensures Trim(u.s) == u.s && (e.Str? ==> Trim(e.s) == e.s)
  {
    UsernameTrimmed(u);
    EmailTrimmed(e);
  }

  lemma UsernameTrimmed(u: JsValue)
    requires u.Str? && ValidateUsernameSpecialCharacters(u)
    ensures Trim(u.s) == u.s
  {
    assert IsAlnum(u.s[0]) && IsAlnum(u.s[|u.s| - 1]);
    TrimNoEdgeSpace(u.s);
  }

  lemma EmailTrimmed(e: JsValue)
    requires ValidateEmail(e)
    ensures e.Str? ==> Trim(e.s) == e.s
  {
    if e.Str? {
      assert ToStr(e) == e.s;
      assert e.s == [] || (!IsSpace(e.s[0]) && !IsSpace(e.s[|e.s| - 1]));
      TrimNoEdgeSpace(e.s);
    }
  }

  /**
   * The first rule that fails decides the reply, in the order missing fields,
   * email, username length, username characters, password, profanity, types.
   */
  lemma RejectionOrder(isProfane: JsValue -> bool, u: JsValue, e: JsValue, p: JsValue)
    requires !Falsy(u) && !Falsy(e) && !Falsy(p) && !Throws(u, e, p)
    ensures !ValidateEmail(e) ==> Check(isProfane, u, e, p).reply.code == "INVALID_EMAIL"
    ensures ValidateEmail(e) && !ValidateUsernameLength(u) ==> Check(isProfane, u, e, p) == Reject(LengthReply)
    ensures ValidateEmail(e) && ValidateUsernameLength(u) && !ValidateUsernameSpecialCharacters(u)
      ==> Check(isProfane, u, e, p) == Reject(CharsetReply)
  {
  }

  /** Past the username rules, the password rule comes before the profanity filter. */
  lemma LaterRejectionOrder(isProfane: JsValue -> bool, u: JsValue, e: JsValue, p: JsValue)
    requires !Falsy(u) && !Falsy(e) && !Falsy(p) && !Throws(u, e, p)
    requires ValidateEmail(e) && ValidateUsernameLength(u) && ValidateUsernameSpecialCharacters(u)
    ensures !ValidatePassword(p) ==> Check(isProfane, u, e, p) == Reject(PasswordReply)
    ensures ValidatePassword(p) && isProfane(u) ==> Check(isProfane, u, e, p).reply.code == "INAPPROPRIATE_CONTENT"
  {
  }

  /** A throw happens only at a rule the body reaches; the rules before it have passed. */
  lemma ThrowOrder(isProfane: JsValue -> bool, u: JsValue, e: JsValue, p: JsValue)
    requires !Falsy(u) && !Falsy(e) && !Falsy(p)
    ensures ToPrimitiveThrows(e) ==> Check(isProfane, u, e, p) == Throw(TypeError)
    ensures ValidateEmail(e) && !ToPrimitiveThrows(e) && LengthThrows(u) ==> Check(isProfane, u, e, p) == Throw(TypeError)
    ensures !ValidateEmail(e) && !ToPrimitiveThrows(e) ==> !Check(isProfane, u, e, p).Throw?
  {
  }

  lemma LeadingSpaceFacts(u: string)
    requires |u| > 0 && IsSpace(u[0]) && 5 <= Utf16Len(u) <= 18
    ensures !Falsy(Str(u)) && ValidateUsernameLength(Str(u)) && !ValidateUsernameSpecialCharacters(Str(u))
  {
    SpaceIsNotAlnum(u[0]);
  }

  /** A username with leading whitespace is refused by the character rule, not trimmed: the rules see the raw value. */
  lemma LeadingSpaceRejected(isProfane: JsValue -> bool, u: string, e: JsValue, p: JsValue)
    requires |u| > 0 && IsSpace(u[0]) && 5 <= Utf16Len(u) <= 18
    requires !Falsy(e) && !Falsy(p) && ValidateEmail(e)
    ensures Check(isProfane, Str(u), e, p) == Reject(CharsetReply)
  {
    LeadingSpaceFacts(u);
    CharsetRefusal(isProfane, Str(u), e, p);
  }

  /**
   * The stored fields pass every rule again and normalise to themselves, for
   * a filter that ignores letter case (bad-words compares case-insensitively).
   */
  lemma NormalisedRevalidates(isProfane: JsValue -> bool, u: JsValue, e: JsValue, p: JsValue)
    requires Check(isProfane, u, e, p).Next?
    requires isProfane(Str(Lower(u.s))) == isProfane(u)
    ensures var f := Check(isProfane, u, e, p).fields;
      Check(isProfane, Str(f.username), Str(f.email), Str(f.password)) == Next(f)
  {
    NormalisedAcceptable(isProfane, u.s, e.s, p.s);
    LowerIdempotent(u.s);
    LowerIdempotent(e.s);
  }

  lemma NormalisedAcceptable(isProfane: JsValue -> bool, u: string, e: string, p: string)
    requires Acceptable(isProfane, Str(u), Str(e), Str(p))
    requires isProfane(Str(Lower(u))) == isProfane(Str(u))
    ensures Acceptable(isProfane, Str(Lower(u)), Str(Lower(e)), Str(p))
  {
    LowerKeepsUsername(u);
    LowerKeepsEmail(e);
  }

  lemma SampleUsername()
    ensures !Falsy(Str("alice")) && ValidateUsernameLength(Str("alice")) && ValidateUsernameSpecialCharacters(Str("alice"))
  {
  }

  lemma SampleEmailString()
    ensures ValidateEmail(Str("a@b.co"))
  {
    RegexToEmailMatches("a@b.co", 1, 3);
  }

  lemma SampleEmail()
    ensures !Falsy(Arr([Str("a@b.co")])) && ValidateEmail(Arr([Str("a@b.co")]))
  {
    SampleEmailString();
    assert ToStr(Arr([Str("a@b.co")])) == "a@b.co";
  }

  lemma SamplePassword()
    ensures !Falsy(Str("passw0rd!")) && ValidatePassword(Str("passw0rd!"))
  {
    StringPassword("passw0rd!", 5, 8);
  }

  /** A string of eight or more characters with a digit and a special character is a valid password. */
  lemma StringPassword(s: string, i: nat, j: nat)
    requires |s| >= 8 && i < |s| && j < |s| && IsDigit(s[i]) && !IsAlnum(s[j])
    ensures !Falsy(Str(s)) && ValidatePassword(Str(s))
  {
  }

  lemma SampleNoThrow()
    ensures !ToPrimitiveThrows(Arr([Str("a@b.co")]))
  {
    assert forall i :: 0 <= i < |[Str("a@b.co")]| ==> !ToPrimitiveThrows([Str("a@b.co")][i]);
  }

  /** The body of TypeRuleReachable makes no rule throw. */
  lemma SampleBody()
    ensures !Throws(Str("alice"), Arr([Str("a@b.co")]), Str("passw0rd!"))
  {
    SampleNoThrow();
    NoThrowAnywhere(Str("alice"), Arr([Str("a@b.co")]), Str("passw0rd!"));
  }

  /** An email sent as a one-element array spells a valid address and reaches the type rule. */
  lemma TypeRuleReachable(isProfane: JsValue -> bool)
    requires !isProfane(Str("alice"))
    ensures Check(isProfane, Str("alice"), Arr([Str("a@b.co")]), Str("passw0rd!")) == Reject(InvalidReply(["email"]))
  {
    SampleUsername();
    SampleEmail();
    SamplePassword();
    SampleBody();
    TypeRule(isProfane, Str("alice"), Arr([Str("a@b.co")]), Str("passw0rd!"));
    assert ["email"] + [] == ["email"];
  }

  /** Lines 107-109: the body after the middleware, with the normalised fields written back when it calls `next()`. */
  function Rewritten(body: map<string, JsValue>, r: MwResult<Fields>): (b: map<string, JsValue>)
    ensures !r.Next? ==> b == body
    ensures r.Next? ==> b.Keys == body.Keys + {"username", "email", "password"}
    ensures r.Next? ==> b["username"] == Str(r.fields.username) && b["email"] == Str(r.fields.email)
    ensures forall k :: k in body && k !in {"username", "email", "password"} ==> k in b && b[k] == body[k]
  {
    if r.Next? then body["username" := Str(r.fields.username)]["email" := Str(r.fields.email)]["password" := Str(r.fields.password)]
    else body
  }

  /**
   * `validateInput(req, res, next)`: writes the 400 reply, or rewrites the
   * body and continues, or throws the TypeError before writing anything.
   */
  method ValidateInput(req: Request, res: Recorder, isProfane: JsValue -> bool) returns (next: bool, thrown: Option<Fault>)
    modifies req, res
    ensures var r := Check(isProfane, Field(old(req.body), "username"), Field(old(req.body), "email"), Field(old(req.body), "password"));
      && next == r.Next?
      && thrown == (if r.Throw? then Some(r.fault) else None)
      && res.effects == old(res.effects) + VerdictEffects(r)
      && req.body == Rewritten(old(req.body), r)
    ensures req.query == old(req.query)
  {
    var r := Check(isProfane, Field(req.body, "username"), Field(req.body, "email"), Field(req.body, "password"));
    next, thrown := res.Deliver(r);
    req.body := Rewritten(req.body, r);
  }
}
