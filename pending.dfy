/**
 * The Register-Pending-User route (Register-Pending-User/index.js): the same
 * rules as registration on the raw body, with the username tested for length
 * only, then two look-ups for a username or email already in use, and the
 * insert of a pending user with a fresh verification token. The database and
 * the random bytes are inputs.
 */
module Pending {
  import opened Wrappers
  import opened Text
  import opened JsValues
  import opened Validation
  import opened Http

  newtype Byte = x: int | 0 <= x < 256

  /** The lower-case hexadecimal digit of a value below 16. */
  function HexDigit(n: int): (c: char)
    requires 0 <= n < 16
    ensures IsHexChar(c)
  {
    if n < 10 then ('0' as int + n) as char else ('a' as int + n - 10) as char
  }

  predicate IsHexChar(c: char) { '0' <= c <= '9' || 'a' <= c <= 'f' }

  /** The value of a lower-case hexadecimal digit. */
  function HexValue(c: char): (n: int)
    requires IsHexChar(c)
    ensures 0 <= n < 16 && HexDigit(n) == c
  {
    if c <= '9' then c as int - '0' as int else c as int - 'a' as int + 10
  }

  /** `buffer.toString('hex')`: two lower-case digits per byte, high nibble first. */
  function Hex(b: seq<Byte>): (r: string)
    ensures |r| == 2 * |b|
    ensures forall i :: 0 <= i < |r| ==> IsHexChar(r[i])
  {
    if b == [] then [] else [HexDigit(b[0] as int / 16), HexDigit(b[0] as int % 16)] + Hex(b[1..])
  }

  /** Reads the bytes back from a string of an even number of hexadecimal digits. */
  function Unhex(r: string): (b: seq<Byte>)
    requires |r| % 2 == 0 && forall i :: 0 <= i < |r| ==> IsHexChar(r[i])
    ensures |b| * 2 == |r|
  {
    if r == [] then [] else [(HexValue(r[0]) * 16 + HexValue(r[1])) as Byte] + Unhex(r[2..])
  }

  /** The token determines the bytes: reading the hexadecimal back gives them again. */
  lemma {:induction false} HexRoundTrip(b: seq<Byte>)
    ensures Unhex(Hex(b)) == b
  {
    if b != [] {
      var r := Hex(b);
      assert r[2..] == Hex(b[1..]);
      HexRoundTrip(b[1..]);
      assert HexValue(r[0]) == b[0] as int / 16 && HexValue(r[1]) == b[0] as int % 16;
    }
  }

  /** A token from 32 random bytes is 64 lower-case hexadecimal characters. */
  lemma TokenShape(b: seq<Byte>)
    requires |b| == 32
    ensures |Hex(b)| == 64 && forall i :: 0 <= i < 64 ==> IsHexChar(Hex(b)[i])
  {
  }

  /** The outcomes of the route's database calls; None for a query that throws. */
  datatype DbWorld = DbWorld(connectOk: bool, usernameRows: Option<nat>, emailRows: Option<nat>, insertOk: bool, endOk: bool)

  /**
   * The reply (None when a rule throws before the `try`: the async handler's
   * promise is rejected and the handler itself writes nothing), and how far
   * the route got with the connection: asked for it, ran the insert, ended it.
   */
  datatype Outcome = Outcome(reply: Option<Reply>, connected: bool, inserted: bool, ended: bool)

  function Plain(status: nat, message: string): Reply { Reply(status, message, "", NoInfo) }

  const ServerError := Plain(500, "Internal Server Error")
  const MissingField := Plain(400, "All fields are required.")
  const BadEmail := Plain(400, "Enter a valid email.")
  const BadUsername := Plain(400, "Username must be 5-18 characters.")
  const BadPassword := Plain(400, "Password requirements not met.")
  const Profane := Plain(400, "Seriously?")

  /** With every field present, the rules reach one whose conversion throws. */
  predicate Throws(u: JsValue, e: JsValue, p: JsValue)
    requires !Falsy(u) && !Falsy(e) && !Falsy(p)
  {
    ToPrimitiveThrows(e) || (ValidateEmail(e) && (LengthThrows(u) || (ValidateUsernameLength(u) && PasswordThrows(p))))
  }

  /** The rules of lines 19-37 on the raw body values, in order: a refusal, a TypeError, or Next when all pass. */
  function Rules(isProfane: JsValue -> bool, u: JsValue, e: JsValue, p: JsValue): (r: MwResult<()>)
    ensures r == Reject(MissingField) <==> Falsy(u) || Falsy(e) || Falsy(p)
    ensures r.Throw? <==> !Falsy(u) && !Falsy(e) && !Falsy(p) && Throws(u, e, p)
    ensures r.Throw? ==> r.fault == TypeError
    ensures r.Next? <==> (!Falsy(u) && !Falsy(e) && !Falsy(p) && !Throws(u, e, p) && ValidateEmail(e)
      && ValidateUsernameLength(u) && ValidatePassword(p) && !isProfane(u))
    ensures r.Reject? ==> r.reply.status == 400
  {
    if Falsy(u) || Falsy(e) || Falsy(p) || Falsy(p) then Reject(MissingField)
    else if ToPrimitiveThrows(e) then Throw(TypeError)
    else if !ValidateEmail(e) then Reject(BadEmail)
    else if LengthThrows(u) then Throw(TypeError)
    else if !ValidateUsernameLength(u) then Reject(BadUsername)
    else if PasswordThrows(p) then Throw(TypeError)
    else if !ValidatePassword(p) then Reject(BadPassword)
    else if isProfane(u) then Reject(Profane)
    else Next(())
  }

  /** The conflict decision of lines 57-67 for the two row counts; None when neither is in use. */
  function Conflict(usernameRows: nat, emailRows: nat): (r: Option<Reply>)
    ensures r.None? <==> usernameRows == 0 && emailRows == 0
    ensures r.Some? ==> r.value.status == 409
    ensures usernameRows > 0 && emailRows > 0 ==> r == Some(Plain(409, "Both Email and Username are already in use"))
    ensures usernameRows == 0 && emailRows > 0 ==> r == Some(Plain(409, "Email already in use"))
    ensures usernameRows > 0 && emailRows == 0 ==> r == Some(Plain(409, "Username already in use"))
  {
    if usernameRows > 0 && emailRows > 0 then Some(Plain(409, "Both Email and Username are already in use"))
    else if emailRows > 0 then Some(Plain(409, "Email already in use"))
    else if usernameRows > 0 then Some(Plain(409, "Username already in use"))
    else None
  }

  /** Both look-ups ran and returned their rows. */
  predicate LookedUp(db: DbWorld) {
    db.connectOk && db.usernameRows.Some? && db.emailRows.Some?
  }

  /** The `try` block throws: the connection or a look-up fails, or, with neither name in use, the insert or the end does. */
  predicate TryFails(db: DbWorld) {
    !LookedUp(db) || (db.usernameRows == Some(0) && db.emailRows == Some(0) && !(db.insertOk && db.endOk))
  }

  /** The route of lines 15-85 for one request. */
  function Route(isProfane: JsValue -> bool, u: JsValue, e: JsValue, p: JsValue, db: DbWorld, bytes: seq<Byte>): (r: Outcome)
    ensures r.connected <==> Rules(isProfane, u, e, p).Next?
    ensures r.reply.None? <==> Rules(isProfane, u, e, p).Throw?
    ensures Rules(isProfane, u, e, p).Reject? ==> r.reply == Some(Rules(isProfane, u, e, p).reply)
    ensures r.connected && LookedUp(db) && Conflict(db.usernameRows.value, db.emailRows.value).Some?
      ==> r.reply == Conflict(db.usernameRows.value, db.emailRows.value) && !r.inserted
    ensures r.inserted <==> r.connected && LookedUp(db) && db.usernameRows == Some(0) && db.emailRows == Some(0)
    ensures r.ended <==> r.inserted && db.insertOk
    ensures r.reply == Some(ServerError) <==> r.connected && TryFails(db)
    ensures r.reply.Some? && r.reply.value.status == 201 <==> r.ended && db.endOk
    ensures r.reply.Some? && r.reply.value.status == 201 ==> r.reply.value == Reply(201, "Registration Successful!", "", Token(Hex(bytes)))
  {
    match Rules(isProfane, u, e, p)
    case Reject(reply) => Outcome(Some(reply), false, false, false)
    case Throw(_) => Outcome(None, false, false, false)
    case Next(_) =>
      if !LookedUp(db) then Outcome(Some(ServerError), true, false, false)
      else match Conflict(db.usernameRows.value, db.emailRows.value)
        case Some(reply) => Outcome(Some(reply), true, false, false)
        case None =>
          if !db.insertOk then Outcome(Some(ServerError), true, true, false)
          else if !db.endOk then Outcome(Some(ServerError), true, true, true)
          else Outcome(Some(Reply(201, "Registration Successful!", "", Token(Hex(bytes)))), true, true, true)
  }

  /** A 409 reply returns without ending the connection it opened. */
  lemma ConflictLeavesConnectionOpen(isProfane: JsValue -> bool, u: JsValue, e: JsValue, p: JsValue, db: DbWorld, bytes: seq<Byte>)
    requires Route(isProfane, u, e, p, db, bytes).reply.Some?
    requires Route(isProfane, u, e, p, db, bytes).reply.value.status == 409
    ensures var r := Route(isProfane, u, e, p, db, bytes); r.connected && !r.inserted && !r.ended
  {
  }

  /** An email object with its own `toString` throws before the `try`: no reply, and no connection. */
  lemma EmailObjectThrows(isProfane: JsValue -> bool, m: map<string, JsValue>, db: DbWorld, bytes: seq<Byte>)
    requires "toString" in m
    ensures Route(isProfane, Str("alice"), Obj(m), Str("passw0rd!"), db, bytes) == Outcome(None, false, false, false)
  {
  }

  /** The username rule here is length only: a name with punctuation goes on to the database. */
  lemma PunctuatedNameAccepted(isProfane: JsValue -> bool, e: JsValue, p: JsValue, db: DbWorld, bytes: seq<Byte>)
    requires !Falsy(e) && !Falsy(p) && ValidateEmail(e) && ValidatePassword(p) && !PasswordThrows(p)
    requires !isProfane(Str("al-ice"))
    ensures Route(isProfane, Str("al-ice"), e, p, db, bytes).connected
    ensures !ValidateUsernameSpecialCharacters(Str("al-ice"))
  {
    RefusedValuesDoNotThrow(e);
    PunctuatedName();
  }

  lemma PunctuatedName()
    ensures !Falsy(Str("al-ice")) && !LengthThrows(Str("al-ice")) && ValidateUsernameLength(Str("al-ice"))
    ensures !ValidateUsernameSpecialCharacters(Str("al-ice"))
  {
    assert !IsAlnum("al-ice"[2]);
  }

  /** The first failing rule picks the message, in the order presence, email, username, password, profanity. */
  lemma RuleOrder(isProfane: JsValue -> bool, u: JsValue, e: JsValue, p: JsValue)
    requires !Falsy(u) && !Falsy(e) && !Falsy(p) && !Throws(u, e, p)
    ensures !ValidateEmail(e) ==> Rules(isProfane, u, e, p) == Reject(BadEmail)
    ensures ValidateEmail(e) && !ValidateUsernameLength(u) ==> Rules(isProfane, u, e, p) == Reject(BadUsername)
    ensures (ValidateEmail(e) && ValidateUsernameLength(u) && !ValidatePassword(p))
      ==> Rules(isProfane, u, e, p) == Reject(BadPassword)
    ensures (ValidateEmail(e) && ValidateUsernameLength(u) && ValidatePassword(p) && isProfane(u))
      ==> Rules(isProfane, u, e, p) == Reject(Profane)
  {
  }
}
