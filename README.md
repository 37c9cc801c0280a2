# PixeleAPI authentication routes in Dafny

PixeleAPI is a set of serverless Express handlers for the Pixele game. Each
handler answers one route of the user-account flow: registration (with and
without Cognito), login, account verification, password-reset email,
password-reset confirmation, resending the verification code, and the
session check. Each route runs behind a small input middleware that checks
and normalises the request body. The model covers these seven middlewares
and the validation predicates they share. It also covers the duplicate
checks of the registration route, the lockout reply helper and the route
handlers themselves.

How the handlers are modelled:

- **Inputs.** Every answer from the outside world is a parameter of the
  model, with one "world" datatype per route. This covers the identity
  provider (Cognito `listUsers`, `adminGetUser`, `signIn`, `signUp`,
  `confirmSignUp`, `forgotPassword` and so on) and the MySQL connection
  (acquire, begin, execute, commit, rollback). It also covers the clock,
  the random bytes of a verification token and the profanity filter.
- **Effect trace.** A handler is a `method` that appends to a
  `Http.Recorder`. It logs, in order, each provider call, each connection
  operation, each cookie set and each reply written.
- **Specification.** The handler's `ensures` equates the recorded trace
  with a specification function of the inputs (`LoginEffects`,
  `RegisterEffects`, …).
- **Classifiers.** An independent classifier per route (`LoginOutcome`,
  `RegisterOutcome`, `VerifyOutcome`, `SendResetReplies`, …) states which
  reply a given world produces, and which provider calls it makes.
- **Connection protocol.** `Db.Step` is a transition function over
  `ConnState` that forbids using a connection after release and rolling
  back after commit. `Db.Connection` is a class whose methods may only take
  a defined step. The lemmas `…Disciplined` prove that every trace a route
  produces replays through that protocol and ends with the connection
  released.

The middlewares are pure checks (`Check`) over JavaScript values
(`JsValues.JsValue`: undefined, null, booleans, numbers, strings, arrays
and objects). Each one has a method (`ValidateInput`, or
`ValidateInputs` for Confirm-New-Password) that rewrites `req.body` in place
exactly as the middleware does. The exception is
`CheckUsernameInput.ValidateInput`: it reads `req.query`, changes neither
`req.query` nor `req.body`, and never calls next(). The validation
predicates follow JavaScript semantics:

- falsiness;
- `.length` in UTF-16 code units;
- the comparisons `length >= 5` and `length <= 18` convert the length to a
  number, so an object whose `length` member is the string "7" passes
  (`JsNumbers.StringToNumber` follows section 7.1.4.1.1 of ECMAScript 2024);
- the regex test converts its argument to a string first, so an array
  password can pass;
- that conversion throws a TypeError for an object with its own `toString`
  member, because no JSON value is callable. A rule that reaches such a
  value ends the middleware with that TypeError (`MwResult.Throw`);
- `trim` uses the ECMAScript whitespace set.

`Register-Pending-User/index.js` carries its own copies of `validateEmail`,
`validateUsername` (the length rule) and `validatePassword` at lines
106-125. They are the same code as `Register-User/utils/auth/validation.js`,
and the model uses the `Validation` module for both.

## Model

| member | source | states |
|---|---|---|
| Text.NormaliseIdempotent | Login-User/utils/middleware/validate-input.js:30 | trimming and lower-casing a value the middleware already normalised leaves it unchanged |
| Text.NormaliseAllSpace | Login-User/utils/middleware/validate-input.js:30 | an all-whitespace string normalises to the empty string |
| Text.LowerUtf16Len | Register-User/utils/middleware/validate-input.js:107 | lower-casing keeps the UTF-16 length, so the length rule gives the same verdict on the stored username |
| JsNumbers.StringToNumberTrim | Register-User/utils/auth/validation.js:7 | whitespace around a numeric string never changes the number it spells |
| JsNumbers.DigitsToNumber | Register-User/utils/auth/validation.js:7 | a run of decimal digits is read as its value |
| JsNumbers.NegativeDigitsToNumber | Register-User/utils/auth/validation.js:7 | a minus sign before a run of digits negates its value |
| JsNumbers.NoLeadingDigit | Register-User/utils/auth/validation.js:7 | after trimming and the sign, a string starting with anything but a digit, '.', 'e' or 'E' is NaN unless it is "Infinity" |
| JsNumbers.NonDigitIsNaN | Register-User/utils/auth/validation.js:7 | after trimming and the sign, a string with no '.', 'e' or 'E' and one character that is not a digit is NaN |
| JsNumbers.TrailingLetter | Register-User/utils/auth/validation.js:7 | digits followed by a letter other than 'e' are NaN ("7a") |
| JsNumbers.HexLiteral | Register-User/utils/auth/validation.js:7 | "0x" followed by hexadecimal digits is read in base 16 |
| JsNumbers.HexSample | Register-User/utils/auth/validation.js:7 | "0x1F" is 31 |
| JsValues.NumberValue | Register-User/utils/auth/validation.js:7 | Number(v): a number is itself, a string or array is the number its string form spells, undefined and plain objects are NaN |
| JsValues.LengthOf | Register-User/utils/auth/validation.js:6-16 | `.length` as a comparison reads it: UTF-16 length of a string, element count of an array, NaN for numbers and booleans, Number of an object's `length` member |
| JsValues.NumberOfDecimal | Register-User/utils/auth/validation.js:7 | Number(String(n)) is n for every integer n |
| JsValues.ObjectIsNaN | Register-User/utils/auth/validation.js:7 | "[object Object]" spells no number |
| JsValues.MemberLengthThrows | Register-User/utils/auth/validation.js:7 | converting `v.length` can throw only for an object that has a `length` member |
| Validation.EmailMatchesIsRegex | Register-User/utils/auth/validation.js:2 | the executable email test holds exactly when the string has the form local@domain.tld, each part non-empty and free of whitespace and '@' (both directions) |
| Validation.ValidateEmailShape | Register-User/utils/auth/validation.js:1-4 | validateEmail on a string accepts exactly the strings the regex describes |
| Validation.ValidateEmail | Register-User/utils/auth/validation.js:1-4 | an accepted value's string form has exactly one '@' and no whitespace |
| Validation.ValidateUsernameLength | Register-User/utils/auth/validation.js:6-8 | on a string: accepted iff 5 <= UTF-16 length <= 18 (code-point length for BMP text); on an array iff it has 5 to 18 elements; numbers and booleans are refused; an object is judged by Number of its `length` member |
| Validation.NumericStringLength | Register-User/utils/auth/validation.js:6-8 | an object whose `length` is the string "7" passes the length rule, and converting it does not throw |
| Validation.StringLengthField | Register-User/utils/auth/validation.js:7 | an object with a string `length` and no own `toString` is measured by the number that string spells, and neither conversion throws |
| Validation.NonNumericLength | Register-User/utils/auth/validation.js:6-8 | an object whose `length` string spells no number fails the length rule |
| Validation.StringsNeverThrow | Register-User/utils/auth/validation.js:1-21 | a string, a number or a boolean never makes a rule throw |
| Validation.RefusedValuesDoNotThrow | Register-User/utils/auth/validation.js:1-13 | a value the email rule or the character rule accepts converts without throwing, so those rules throw only on values they would refuse |
| Validation.OwnToStringThrows | Register-User/utils/auth/validation.js:1-18 | an object with its own `toString` member makes the regex tests throw |
| Validation.ValidateUsernameSpecialCharacters | Register-User/utils/auth/validation.js:10-13 | on a string: accepted iff non-empty and all ASCII letters or digits; objects are refused |
| Validation.ValidatePassword | Register-User/utils/auth/validation.js:15-21 | on a string: accepted iff length >= 8, with a digit and a character outside [A-Za-z0-9]; an all-alphanumeric value and numbers/booleans are refused |
| Validation.PasswordExtension | Register-User/utils/auth/validation.js:15-21 | appending characters to an accepted password keeps it accepted |
| Validation.UsernameChecksOnlyStrings | Register-User/utils/auth/validation.js:6-13 | a value passing both username rules is a string |
| Validation.ArrayPasswordPasses | Register-User/utils/auth/validation.js:15-21 | an array of eight numbers passes the password rule, through its comma-joined string form |
| Validation.LowerKeepsEmail | Register-User/utils/middleware/validate-input.js:108 | the lower-cased stored email still passes validateEmail |
| Validation.LowerKeepsUsername | Register-User/utils/middleware/validate-input.js:107 | the lower-cased stored username still passes both username rules |
| RegisterInput.Check | Register-User/utils/middleware/validate-input.js:16-110 | throws a TypeError iff all fields are present and the chain reaches a rule whose conversion throws, which needs an object inside the email, username or password; strings never throw; rejections are 400; next() is reached iff all fields are present, every rule passes, the name is not profane and all three are strings; the stored fields are the lower-cased username and email and the untouched password |
| RegisterInput.Rules | Register-User/utils/middleware/validate-input.js:33-110 | on present fields: throws iff Throws, rejects with 400 but never MISSING_FIELDS, and goes on iff every rule accepts |
| RegisterInput.UsernameSteps | Register-User/utils/middleware/validate-input.js:43-110 | after the email rule: throws iff the length or character rule is reached with a throwing conversion, or the password rule is; goes on iff every later rule accepts |
| RegisterInput.PasswordStep | Register-User/utils/middleware/validate-input.js:68-110 | after the username rules: throws iff the password's conversions throw; goes on iff the password passes, the name is not profane and all three are strings |
| RegisterInput.Final | Register-User/utils/middleware/validate-input.js:82-110 | never throws; rejects only with INAPPROPRIATE_CONTENT or INVALID_INPUT; goes on iff the name is not profane and all three are strings |
| RegisterInput.Typed | Register-User/utils/middleware/validate-input.js:92-110 | never lists the username (it is a string by then); lists the email, and the password twice, exactly when they are not strings |
| RegisterInput.EmailObjectThrows | Register-User/utils/middleware/validate-input.js:33 | an email object with its own `toString` throws at the email rule |
| RegisterInput.NumericLengthRefusedByCharset | Register-User/utils/middleware/validate-input.js:43-66 | an object username whose `length` is "7" passes the length rule and is refused by the character rule |
| RegisterInput.CharsetRefusal | Register-User/utils/middleware/validate-input.js:56-66 | a value that passes the length rule and fails the character rule without throwing gets the charset reply |
| RegisterInput.ThrowOrder | Register-User/utils/middleware/validate-input.js:33-66 | a throwing email throws first; a valid email with a throwing `length` throws next; a refused email that does not throw never throws |
| RegisterInput.LaterRejectionOrder | Register-User/utils/middleware/validate-input.js:68-90 | the password rule comes before the profanity rule |
| RegisterInput.Rewritten | Register-User/utils/middleware/validate-input.js:107-109 | the body is unchanged unless next() is called; then the three keys hold the stored fields and every other key is kept |
| RegisterInput.ValidateInput | Register-User/utils/middleware/validate-input.js:14-111 | the middleware calls next() or throws exactly as Check says, records only Check's reply, and rewrites req.body to Rewritten |
| RegisterInput.MissingRule | Register-User/utils/middleware/validate-input.js:18-31 | any falsy field gives MISSING_FIELDS naming exactly the missing fields, with password and confirmPassword together |
| RegisterInput.PresentNotMissing | Register-User/utils/middleware/validate-input.js:18-31 | with every field present the rejection is never MISSING_FIELDS |
| RegisterInput.RejectionOrder | Register-User/utils/middleware/validate-input.js:33-90 | email, username length, username charset, password and profanity are tried in that order, and the first failing rule decides the reply |
| RegisterInput.TypeRule | Register-User/utils/middleware/validate-input.js:92-105 | a non-string email or password that survived the rules gives INVALID_INPUT naming exactly those fields |
| RegisterInput.TypeRuleReachable | Register-User/utils/middleware/validate-input.js:92-105 | the type rule is reachable: an email given as a one-element array is refused there |
| RegisterInput.LeadingSpaceRejected | Register-User/utils/middleware/validate-input.js:56-66 | a username with leading whitespace fails the charset rule before trimming could remove it |
| RegisterInput.NormalisedForms | Register-User/utils/middleware/validate-input.js:107-108 | trim changes neither an accepted string username nor an accepted string email; only lower-casing takes effect |
| RegisterInput.NormalisedRevalidates | Register-User/utils/middleware/validate-input.js:107-110 | the stored fields pass the middleware again unchanged (given a case-insensitive profanity filter) |
| RegisterInput.NormalisedAcceptable | Register-User/utils/middleware/validate-input.js:107-109 | the lower-cased fields still satisfy every rule |
| LoginInput.Check | Login-User/utils/middleware/validate-input.js:2-32 | never throws; next() iff both fields are present strings; the identifier is stored trimmed and lower-cased and the password untouched |
| LoginInput.MissingRule | Login-User/utils/middleware/validate-input.js:4-15 | a falsy field gives MISSING_FIELDS naming exactly the missing ones |
| LoginInput.TypeRule | Login-User/utils/middleware/validate-input.js:17-28 | a present non-string field gives INVALID_INPUT naming exactly those fields |
| LoginInput.BlankIdentifierAccepted | Login-User/utils/middleware/validate-input.js:30 | an all-whitespace identifier passes and is stored as the empty string |
| LoginInput.NormalisedRevalidates | Login-User/utils/middleware/validate-input.js:30-31 | a stored non-empty identifier passes the middleware again unchanged |
| LoginInput.ValidateInput | Login-User/utils/middleware/validate-input.js:2-32 | calls next() exactly when Check accepts, records only Check's reply, and writes the stored fields into req.body only then |
| ConfirmInput.Check | Confirm-New-Password/utils/middleware/validate-inputs.js:6-53 | next() iff the three fields are present, the password policy holds and all are strings; the username is normalised, the code only trimmed |
| ConfirmInput.MissingRule | Confirm-New-Password/utils/middleware/validate-inputs.js:8-21 | a falsy field gives MISSING_FIELDS naming exactly the missing ones |
| ConfirmInput.PolicyBeforeTypes | Confirm-New-Password/utils/middleware/validate-inputs.js:23-33 | the password policy is checked before the types |
| ConfirmInput.TypeRule | Confirm-New-Password/utils/middleware/validate-inputs.js:35-48 | a non-string field that survived the policy gives INVALID_INPUT naming exactly those fields |
| ConfirmInput.CodeCaseKept | Confirm-New-Password/utils/middleware/validate-inputs.js:51 | the confirmation code keeps its case: with no edge whitespace it is stored verbatim |
| ConfirmInput.ValidateInputs | Confirm-New-Password/utils/middleware/validate-inputs.js:6-53 | calls next() exactly when Check accepts, records only Check's reply, and writes the stored fields into req.body only then |
| VerifyInput.Check | Verify-User/utils/middleware/validate-input.js:2-32 | next() iff both fields are present strings; the username is normalised and the code only trimmed |
| VerifyInput.MissingRule | Verify-User/utils/middleware/validate-input.js:4-15 | a falsy field gives MISSING_FIELDS naming exactly the missing ones |
| VerifyInput.TypeRule | Verify-User/utils/middleware/validate-input.js:17-28 | a present non-string field gives INVALID_INPUT naming exactly those fields |
| VerifyInput.CodeCaseKept | Verify-User/utils/middleware/validate-input.js:31 | the verification code keeps its case |
| VerifyInput.ValidateInput | Verify-User/utils/middleware/validate-input.js:2-32 | calls next() exactly when Check accepts, records only Check's reply, and writes the stored fields into req.body only then |
| SendResetInput.Check | Send-Reset-Password-Email/utils/middleware/validate-input.js:2-29 | falsy gives MISSING_FIELDS, present non-string gives INVALID_INPUT, and otherwise next() with the normalised identifier (each an iff) |
| SendResetInput.BlankAccepted | Send-Reset-Password-Email/utils/middleware/validate-input.js:28 | an all-whitespace identifier passes and is stored empty |
| SendResetInput.NormalisedRevalidates | Send-Reset-Password-Email/utils/middleware/validate-input.js:28 | a stored non-empty identifier passes again unchanged |
| SendResetInput.ValidateInput | Send-Reset-Password-Email/utils/middleware/validate-input.js:2-29 | calls next() exactly when Check accepts, records only Check's reply, and stores the normalised identifier only then |
| ResendInput.Check | Resend-Verification-Code/utils/middleware/validate-input.js:2-29 | falsy gives MISSING_FIELDS, present non-string gives INVALID_INPUT, and otherwise next() with the normalised username (each an iff) |
| ResendInput.BlankAccepted | Resend-Verification-Code/utils/middleware/validate-input.js:28 | an all-whitespace username passes and is stored empty |
| ResendInput.NormalisedRevalidates | Resend-Verification-Code/utils/middleware/validate-input.js:28 | a stored non-empty username passes again unchanged |
| ResendInput.ValidateInput | Resend-Verification-Code/utils/middleware/validate-input.js:2-29 | calls next() exactly when Check accepts, records only Check's reply, and stores the normalised username only then |
| CheckUsernameInput.Check | Check-Username-Availability/utils/middleware/validate-input.js:2-29 | as written, next() is never reached: an undefined or null query throws, and a string query is refused as missing |
| CheckUsernameInput.ObjectQueryThrows | Check-Username-Availability/utils/middleware/validate-input.js:28 | an object query with a non-empty username member throws a TypeError at the trim |
| CheckUsernameInput.StringQueryRefused | Check-Username-Availability/utils/middleware/validate-input.js:2-14 | a non-empty string query is refused as MISSING_FIELDS, while the intended check would pass it on |
| CheckUsernameInput.CheckIntended | Check-Username-Availability/utils/middleware/validate-input.js:2-29 | the intended check: next() iff the query value is a present string, stored normalised |
| CheckUsernameInput.IntendedRevalidates | Check-Username-Availability/utils/middleware/validate-input.js:28 | under the intended check a stored non-empty username passes again |
| CheckUsernameInput.ValidateInput | Check-Username-Availability/utils/middleware/validate-input.js:2-29 | never calls next(); it throws or records Check's reply, and leaves the request unchanged |
| Checks.EscapeRoundTrip | Register-User/utils/auth/checks.js:5 | unescaping the escaped value gives back the original string |
| Checks.EscapedQuotes | Register-User/utils/auth/checks.js:5 | every double quote in an escaped value is directly preceded by a backslash |
| Checks.Escape | Register-User/utils/auth/checks.js:5 | escaping adds one character per double quote and leaves a quote-free string unchanged |
| Checks.FilterQuotesValue | Register-User/utils/auth/checks.js:1-29 | each filter is `attr = "…"`, and its quoted part unescapes to exactly the queried value |
| Checks.CheckForDuplicateEmail | Register-User/utils/auth/checks.js:1-14 | true iff the provider lists at least one user for the email filter |
| Checks.CheckForDuplicateUsername | Register-User/utils/auth/checks.js:16-29 | true iff the provider lists at least one user for the username filter |
| Checks.FailOpen | Register-User/utils/auth/checks.js:10-13 | a failing listUsers call reports "no duplicate" |
| Lockout.CeilDiv | Login-User/utils/helper/get-lockout-response.js:4 | the rounded-up quotient q satisfies m(q-1) < d <= mq |
| Lockout.RemainingMinutes | Login-User/utils/helper/get-lockout-response.js:2-4 | max(1, ceiling of the minutes left until the unlock time): it is 1, or the r with 60000(r - 1) < time left <= 60000r |
| Lockout.GetLockoutResponse | Login-User/utils/helper/get-lockout-response.js:6-15 | 403 ACCOUNT_LOCKED carrying the remaining minutes (>= 1) |
| Lockout.OneMinuteExactly | Login-User/utils/helper/get-lockout-response.js:2-4 | the reply says one minute iff at most a minute is left |
| Lockout.AtMostFifteen | Login-User/utils/helper/get-lockout-response.js:2-4 | after a failure in the past it says at most 15 minutes, and exactly 15 iff less than a minute has passed |
| Lockout.Monotone | Login-User/utils/helper/get-lockout-response.js:2-4 | the remaining minutes never increase as time passes |
| Pending.HexRoundTrip | Register-Pending-User/index.js:100-102 | hex-encoding the random bytes is decoded back to the same bytes |
| Pending.TokenShape | Register-Pending-User/index.js:100-102 | 32 random bytes give a 64-character lower-case hex token |
| Pending.Rules | Register-Pending-User/index.js:19-37 | 400 "All fields are required." iff a field is falsy; throws a TypeError iff all fields are present and a reached rule's conversion throws; no rule fires iff all fields are present, nothing throws, the email, username-length and password rules pass and the name is not profane; every rule reply is 400 |
| Pending.EmailObjectThrows | Register-Pending-User/index.js:23 | an email object with its own `toString` throws before the `try`: no reply and no connection |
| Pending.RuleOrder | Register-Pending-User/index.js:19-37 | the email, username, password and profanity rules are tried in that order |
| Pending.PunctuatedNameAccepted | Register-Pending-User/index.js:27-29 | this route has no charset rule, so `al-ice` reaches the database although the other registration route refuses it |
| Pending.Conflict | Register-Pending-User/index.js:57-67 | 409 iff either row count is positive, with the message saying which one is taken |
| Pending.Route | Register-Pending-User/index.js:15-85 | a rule's refusal is the reply and a rule's throw leaves no reply; it connects iff the rules pass; a conflict's 409 is the reply and nothing is inserted; it inserts iff both counts are zero; 500 iff a query after connecting fails; 201, carrying the hex token, iff the insert and the close succeed |
| Pending.ConflictLeavesConnectionOpen | Register-Pending-User/index.js:57-67 | a 409 returns with the connection still open (no end on that path) |
| Login.LoginFilterAgrees | Login-User/index.js:45 | Login's unescaped email filter equals the registration check's filter whenever the identifier has no quote |
| Login.Identify | Login-User/index.js:39-66 | an email identifier is looked up by filter: a listing gives its first user's username, or none when it is empty, and a failed lookup or a missing Users field falls back to the identifier; a username identifier keeps itself and takes the account's non-empty email, else falls back to itself as email |
| Login.SignInErrorReply | Login-User/index.js:178-221 | each sign-in error name maps to its own reply, and the reply is 500 SERVER_ERROR iff the name is none of the four (each an iff) |
| Login.Resolve | Login-User/index.js:39-66 | records the one lookup call and returns Identify's answer |
| Login.Transaction | Login-User/index.js:113-156 | the recorded trace is the transaction's specification for these outcomes |
| Login.HandleLogin | Login-User/index.js:27-222 | the recorded trace is LoginEffects of the inputs |
| Login.LoginResponds | Login-User/index.js:27-222 | exactly one reply is written, and it is LoginOutcome |
| Login.LoginOps | Login-User/index.js:96-171 | connection operations happen only once a session token has been fetched after a complete sign-in |
| Login.LoginDisciplined | Login-User/index.js:111-156 | every trace obeys the connection protocol and releases what it acquired |
| Login.TxReplay | Login-User/index.js:113-156 | the transaction replays from a fresh connection and ends released; on success it is begin, update, commit, release |
| Login.AuthIncompleteExactly | Login-User/index.js:84-94 | AUTH_INCOMPLETE (403) iff sign-in resolved without being done |
| Login.TokenUnavailableBeforeConnection | Login-User/index.js:97-109 | TOKEN_UNAVAILABLE iff the session has no token, and then no connection is touched |
| Login.SuccessAfterCommit | Login-User/index.js:111-156 | 200 iff every step succeeded; then the connection did exactly acquire, begin, update, commit, release, and the reply carries the token and its expiry |
| Login.CookieUntilExpiry | Login-User/index.js:137-141 | on commit the session cookie is set with the token, living until the token's expiry |
| Register.OuterReply | Register-User/index.js:111-122 | LimitExceededException gives 429 and any other error gives 500 (both iff) |
| Register.Duplicate | Register-User/index.js:36-55 | the 409 names both, the email or the username exactly by which checks found a duplicate; None iff neither did |
| Register.InsertStats | Register-User/index.js:69-74 | issues one game_stats insert per game row, in order, and reports whether all succeeded |
| Register.HandleRegister | Register-User/index.js:25-123 | the recorded trace is RegisterEffects of the inputs |
| Register.StatsRows | Register-User/index.js:69-74 | the inserts' connection operations are exactly one per game row, with that game's id and outcome |
| Register.RegisterResponds | Register-User/index.js:25-123 | the replies written are exactly the outcome's reply: one for every path except a failed sign-up or commit whose rollback succeeds |
| Register.SilentExactly | Register-User/index.js:97-100 | no reply is written iff sign-up or commit failed after every statement succeeded and the rollback succeeded |
| Register.RegisterDisciplined | Register-User/index.js:57-110 | every trace obeys the connection protocol and releases the connection; no connection is touched when a duplicate is found |
| Register.TxReplay | Register-User/index.js:59-110 | the transaction replays from a fresh connection and ends released |
| Register.RegisteredExactly | Register-User/index.js:89-96 | 201 iff no duplicate, the acquisition and every statement succeeded, and sign-up and commit succeeded |
| Register.CommitAfterSignUp | Register-User/index.js:89-91 | a commit in the trace means the sign-up succeeded, and it carries the commit's own outcome |
| Register.RegisteredTrace | Register-User/index.js:31-110 | the full 201 trace: checks, acquire, begin, user insert, select, one insert per game, sign-up, commit, reply, release |
| Register.DbErrorRollsBack | Register-User/index.js:101-110 | a failed begin, user insert, select or game_stats insert ends the trace with DbErrorEffects: rollback, DATABASE_ERROR and release when the rollback succeeds, otherwise rollback, release and the outer 429/500 |
| Verify.ErrorReply | Verify-User/index.js:76-119 | each provider error code maps to its own status (each an iff), and each status has its own code: 400 INVALID_CODE, 409 ALREADY_VERIFIED, 410 EXPIRED_CODE, 429 RATE_LIMIT_EXCEEDED, 500 SERVER_ERROR for every other error; none is a success or a database reply |
| Verify.HandleVerify | Verify-User/index.js:24-121 | the recorded trace is VerifyEffects of the inputs |
| Verify.VerifyResponds | Verify-User/index.js:24-121 | exactly one reply is written, and it is VerifyOutcome |
| Verify.ConfirmationKept | Verify-User/index.js:36 | the provider is called exactly once, with confirmSignUp |
| Verify.VerifyDisciplined | Verify-User/index.js:38-75 | every trace obeys the connection protocol and releases; the connection is used only after confirmation succeeded |
| Verify.TxReplay | Verify-User/index.js:39-75 | the transaction replays from a fresh connection and ends released |
| Verify.VerifiedExactly | Verify-User/index.js:56-62 | VERIFICATION_SUCCESS iff confirmation, acquisition and begin succeed, the update changes a row, and the commit succeeds |
| Verify.VerifiedTrace | Verify-User/index.js:36-62 | the full success trace: confirm, acquire, begin, update, commit, reply, release |
| Verify.NoRowRollsBack | Verify-User/index.js:47-54 | when the rollback succeeds, an update that changes no row rolls back and answers USER_NOT_FOUND, without committing |
| Verify.DbErrorRollsBack | Verify-User/index.js:63-75 | a failed begin, update or commit ends the trace with the database-error path |
| SendReset.FiltersDiffer | Send-Reset-Password-Email/index.js:29-36 | the username and email filters for one identifier are different queries |
| SendReset.ErrorReply | Send-Reset-Password-Email/index.js:93-121 | each error code maps to its own status (each an iff), and each status has its own code: 404 USER_NOT_FOUND, 400 INVALID_EMAIL, 429 RATE_LIMIT_EXCEEDED, 500 SERVER_ERROR for every other error; none is a success or the confirm-sign-up reply |
| SendReset.HandleSendReset | Send-Reset-Password-Email/index.js:21-123 | the recorded trace is SendResetEffects of the inputs |
| SendReset.SendResetResponds | Send-Reset-Password-Email/index.js:21-123 | the replies and the provider calls are exactly those the independent classification predicts |
| SendReset.EmailLookupExactly | Send-Reset-Password-Email/index.js:33-38 | the email lookup is made iff the username lookup succeeded without a match |
| SendReset.NoAccountQuiet | Send-Reset-Password-Email/index.js:40-45 | with no account, the trace is the two lookups and one 404 |
| SendReset.ResentNoReset | Send-Reset-Password-Email/index.js:51-65 | an unconfirmed account whose code is resent gets CONFIRM_SIGN_UP, and no reset email is sent |
| SendReset.FallThrough | Send-Reset-Password-Email/index.js:66-92 | a resend failing for another reason writes 500 and then still sends the reset email, giving two replies |
| SendReset.ConfirmedResets | Send-Reset-Password-Email/index.js:82-92 | a confirmed account gets the reset email; EMAIL_SEND_SUCCESS iff forgotPassword succeeds |
| Confirm.ErrorReply | Confirm-New-Password/index.js:89-112 | each error name maps to its own reply, every other error gives SERVER_ERROR, and none is a success or a confirm-sign-up reply |
| Confirm.HandleConfirm | Confirm-New-Password/index.js:20-114 | the recorded trace is ConfirmEffects of the inputs |
| Confirm.Reset | Confirm-New-Password/index.js:76-88 | records the confirmForgotPassword call, then the success reply or the error's reply: the trace is ResetEffects |
| Confirm.ConfirmResponds | Confirm-New-Password/index.js:20-114 | the replies and provider calls are exactly those the independent classification predicts |
| Confirm.SwallowedLookup | Confirm-New-Password/index.js:32-44 | a lookup error other than UserNotFound is swallowed; reading the missing user's status then throws, and the route answers 500 |
| Confirm.UnknownUser | Confirm-New-Password/index.js:35-42 | an unknown user gets 401 INVALID_CREDENTIALS after the one lookup |
| Confirm.ResentNoReset | Confirm-New-Password/index.js:44-59 | an unconfirmed account whose code is resent gets CONFIRM_SIGN_UP and no reset is attempted |
| Confirm.FallThrough | Confirm-New-Password/index.js:60-88 | a resend failing for another reason writes 500 and still attempts the reset, giving two replies |
| Confirm.ConfirmedResets | Confirm-New-Password/index.js:76-88 | a confirmed account goes straight to the reset; PASSWORD_RESET_SUCCESS iff it succeeds |
| CheckAuth.ErrorReply | Check-Auth/index.js:61-88 | each error code maps to its own reply: NotAuthorizedException iff 401 INVALID_SESSION, 429 RATE_LIMIT_EXCEEDED, 404 USER_NOT_FOUND, and 500 SERVER_ERROR iff the code is none of the three; the reply is never authenticated |
| CheckAuth.HandleCheckAuth | Check-Auth/index.js:23-89 | the recorded trace is CheckAuthEffects of the inputs |
| CheckAuth.OneReply | Check-Auth/index.js:23-90 | exactly one reply; it says authenticated iff its status is 200, iff the token reached the provider and was recognised |
| CheckAuth.ProviderCalls | Check-Auth/index.js:36-51 | the provider is called once, with the cookie's token, iff the token is present, decodable and unexpired |
| Resend.HandleResend | Resend-Verification-Code/index.js:20-75 | the recorded trace is ResendEffects of the inputs |
| Resend.ResendReply | Resend-Verification-Code/index.js:55-73 | RESEND_SUCCESS, RATE_LIMIT_EXCEEDED or SERVER_ERROR, by the resend's outcome (each an iff) |
| Resend.Refusal | Resend-Verification-Code/index.js:32-48 | 409 iff the account is confirmed, 404 iff it is unknown, and nothing for any other outcome, including a swallowed lookup error |
| Resend.ResendProjects | Resend-Verification-Code/index.js:20-75 | exactly one reply; the code is resent iff the lookup refused nothing |
| Resend.ConfirmedShortCircuit | Resend-Verification-Code/index.js:35-40 | a confirmed account gets 409 and no code is resent |
| Resend.SwallowedLookup | Resend-Verification-Code/index.js:41-48 | any other lookup error is ignored: the code is still resent and its outcome decides |

## Left out

- Cognito, Amplify and MySQL are not modelled. Their outcomes are inputs
  (one world datatype per route), and SQL text is represented only by the
  statement kind it issues.
- Secrets retrieval, app initialisation, the connection pool, CORS,
  cookie parsing middleware, `serverless` wrapping and logging are outside
  the model. So are Logout-User and the Check-Username-Availability route
  handler; only that route's input middleware is modelled.
- Register.HandleRegister: the two duplicate checks run under
  `Promise.all`, and the game_stats inserts are issued together. The model
  records them sequentially, in source order.
- Register.RegisterWorld, Verify.VerifyWorld and Login.LoginWorld each have
  a single rollback outcome, used by every rollback attempt of the route.
- Register.HandleRegister: a failed commit is answered by the same
  rollback path as a failed sign-up, because both sit inside the sign-up
  `try`.
- Login.HandleLogin: the `resendConfirmationCode` call on the
  CONFIRM_SIGN_UP step is recorded, but its outcome is not an input. The
  source swallows any error from it.
- Express response mechanics are not modelled; every write is recorded.
  Where the source writes a 500 and then falls through to a second reply
  (SendReset.FallThrough, Confirm.FallThrough), the model records both.
- Verify.ErrorReply: the `details` field that echoes the provider's error
  object on 429/500 is modelled as empty, since error objects are opaque
  here. Login.SignInErrorReply and Login.HandleLogin do the same for the
  `details` and `error` members that echo error objects
  (Login-User/index.js:127-130, 167-169, 183-185, 191-193, 200-202,
  208-210, 217-219).
- Provider records are assumed to carry their `Attributes` /
  `UserAttributes` arrays. Only `UserStatus`, the username and the email
  attribute are read.
- Lockout.RemainingMinutes: timestamps are integer milliseconds. Date
  parsing of the stored timestamp is left out, and the float division is
  computed exactly as a rounded-up integer quotient.
- CheckAuth.ExpiredAt: the `exp` claim is an integer or absent. A
  non-numeric claim, which yields NaN in the source, is not distinguished
  from an absent one; both make the comparison false.
- JsValues.JsValue: numbers in the request body are integers, because only
  truthiness, decimal string conversion and `.length` matter to the rules.
  `toLowerCase` is ASCII only, and whitespace is the ECMAScript WhiteSpace
  and LineTerminator set. A Dafny `char` is a Unicode scalar value, so a
  string holding a lone UTF-16 surrogate (a JSON body carrying "\uD800")
  cannot be represented.
- JsNumbers.StringToNumber: a decimal literal is kept as the exact value
  it spells, with no rounding to the nearest double. Only comparisons with
  the constants 5, 8 and 18 read it, so the verdict differs only for decimals
  within half a unit in the last place of 5, 8 or 18: "4.9999999999999999"
  rounds to 5 and passes the length rule in the source, while the model
  refuses it, and "18.000000000000001" likewise.
- JsValues.ToPrimitiveThrows: an object's own `toString` member always makes
  the conversion throw, because no JSON value is callable and the inherited
  `valueOf` returns the object itself. Getters and prototypes cannot occur in
  a parsed JSON body.
- ConfirmInput.Check: the password-policy predicate is a parameter, and it
  is taken not to throw.
- Pending.Rules: the profanity filter is a parameter, and it is taken not
  to throw. bad-words' regex test would throw on an object username with its
  own `toString`, and the length-only username rule lets such an object
  reach the filter.
- What Express does after a middleware or handler throws (its error
  handler's 500) is not modelled: a throw is the `Throw` verdict, with no
  reply recorded.
- Pending.Route: the profanity filter, the random bytes and the outcomes of
  the connection's queries are parameters.
- CheckAuth.NoSessionFirst, CheckAuth.ExpiryBoundary and
  CheckAuth.MissingExpiryReaches state boundary facts (a missing cookie
  answers first; an `exp` exactly at the current time still reaches the
  provider; a token without `exp` is never expired) that follow directly
  from the definitions.

## Findings

| source | as written | input that shows it | evidently intended | confidence | as-written member | corrected member |
|---|---|---|---|---|---|---|
| Check-Username-Availability/utils/middleware/validate-input.js:2 | `const { username } = req.query.username` destructures a member of the query value, and line 28 trims the query value itself | `?username=alice` gives `req.query.username == "alice"`, a string with no `username` member, so the route answers 400 MISSING_FIELDS; an absent query throws a TypeError | `const { username } = req.query`, so a present string username is normalised and passed to the route | not executed | CheckUsernameInput.StringQueryRefused | CheckUsernameInput.CheckIntended |
