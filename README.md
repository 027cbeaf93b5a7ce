# Credential and access-token lifecycle of gt-lab-server, in Dafny

This project models the part of the gt-lab-server backend that issues and checks credentials,
plus two small utilities next to it:

- **Challenge authentication** (`POST /auth`). This covers the admin console, the admin router
  and the user router.
  - A client sends an e-mail, a date and `Hash(email + ISO(date))`.
  - When the digest matches, the server stores a one-hour access token
    `Hash(email + ISO(now) + ttl)` and returns it. The new token replaces any earlier one for
    that e-mail.
- **The access guard** (`verifyAccessToken`), which runs in front of every protected route.
  - It reads the principal and its stored token.
  - It revokes a token it finds past `created + ttl`.
  - It calls `next()` only for an existing principal that presents its stored token, with the
    token still live. The expiry instant itself counts as live.
- **Registration tokens** (`POST /new-user`, behind the guard). The handler issues a random
  16-letter token with a six-hour TTL for an e-mail that is valid and does not already belong to
  a user.
- **The store** (`db/cassandra.js`).
  - Every table is a map keyed by e-mail.
  - Token writes are upserts and revocations are deletes.
  - A lookup returns the row or null.
  - `trim` lower-cases each argument and strips its surrounding white space.
- **The request-body validator** (`middleware/verify-request-body.js`).
  - It walks a sample object's keys recursively and collects one message per missing, empty or
    mistyped key.
  - It converts Date-typed keys in place and restores them when the text is not a date.
  - It calls `next()` when nothing was collected; otherwise it sends one 400 with every message.
- **The CSV writer** (`util/array-to-csv.js`).
  - The header comes from the first element's flattened keys.
  - Each element then adds one line of its flattened leaf values.

## How the model is built

The three handler files make the same decisions. They differ in the tables they use, in the way
they answer, and in where the guard reads its credentials: at the top level of the body in
`admin/admin.js`, under `body.credentials` in `routes/admin.js` and `routes/user.js`. The model
takes the credentials as parameters, already read. Module `Credentials` states the shared
decisions once:
- `Authenticate` and `Guard` are pure functions. Each returns a trace: the failures met in
  order, the token granted, and whether a revocation happened and whether `next()` ran.
- `AfterAuth` and `AfterGuard` give the token table that follows from a trace.

Each handler is an imperative method over a `Store.Database` object and an `Http.Reply` log of
sent responses. Its postcondition ties the new state of both to the trace:
- the routes send one response per failure (`RouteAuthReplies`, `RouteGuardReplies`);
- the admin console sends one 400 listing every message, unless its reporter's `stop` flag is
  raised (`ConsoleAuthReplies`, `ConsoleGuardReplies`).

The modelling choices:
- **The hash** is an uninterpreted parameter `hash: string -> string` applied to the message.
  `crypto.createHash('sha256', password)` passes the password as the *options* argument, so the
  digest does not depend on the password.
- **Time** is integer milliseconds.
  - `Date.prototype.toISOString` is an uninterpreted parameter `iso`.
  - The guard reads `Date.now()` twice, once for the expiry check and once for the grant, and
    the model takes both readings as parameters.
- **Randomness**: each `Math.random()` draw is a nondeterministic choice.
- **`email-validator`** is an uninterpreted predicate `isEmail`.

Where the code and its own comments disagree, the model follows the code:
- The comments above `/auth` describe an HMAC keyed by the password. The code computes an
  unkeyed SHA-256 of the message, and `Credentials.ChallengeIgnoresPassword` states the
  consequence: knowing a principal's e-mail is enough to compute a valid challenge.
- The comments list the failure codes as if one were sent per request. The routes can attempt
  several sends for one request, and `Http.Reply.sent` records every attempted send. Under
  Express only the first one reaches the client; the second throws because the headers were
  already sent, and the handler stops there. In every path with several sends, the later sends
  come after the handler's last change to the tables and after its decision on `next()`, so
  the tables and `next()` are as the model states.
- The guard's two clock readings can fall on either side of the expiry instant.
  `Credentials.ClockStraddlingExpiry` and `AdminConsole.StraddledExpiryReportsNothingListed`
  show what then happens: no failure is recorded and `next()` is not called.

## Model

| member | source | states |
|---|---|---|
| Common.DecimalText | server/src/routes/admin.js:63 | `+ ttl` renders the TTL as a non-empty string of decimal digits, and it is one digit exactly when the TTL is below 10 |
| Common.DecimalRoundTrip | server/src/routes/admin.js:63 | reading the decimal rendering back gives the number, so the TTL text inside the token message loses nothing |
| Common.DecimalTextInjective | server/src/routes/admin.js:63 | two TTLs render alike only when they are equal |
| Common.IntText | server/src/middleware/verify-request-body.js:79 | an integer's text is non-empty and starts with `-` exactly when the integer is negative |
| Store.WithoutPassword | server/src/routes/admin.js:168 | `delete user['password']` removes the password column and keeps every other column with its value |
| Store.StripPasswords | server/src/routes/admin.js:144-147 | the map over the user rows keeps their number and order and strips the password of each one |
| Store.StripSpaces | server/src/db/cassandra.js:13 | `trim()` keeps an infix of the text that starts and ends with no white space and drops only white space around it |
| Store.Normalize | server/src/db/cassandra.js:13 | `arg.toLowerCase().trim()` never lengthens its argument; `Store.NormalizeShape` states what the result looks like |
| Store.NormalizeShape | server/src/db/cassandra.js:12-14 | a trimmed argument has no upper-case letter and no surrounding white space |
| Store.NormalizeIdempotent | server/src/db/cassandra.js:12-14 | trimming an already trimmed argument changes nothing |
| Store.Trim | server/src/db/cassandra.js:11-18 | one argument gives one normalized string; any other count gives the list of normalized arguments, in order |
| Store.Lookup | server/src/db/cassandra.js:26-32 | a query by e-mail returns the row exactly when the table holds one for that key, and otherwise null; `getAdmin` and `getAdminAccessToken` behave the same |
| Store.Upsert | server/src/db/cassandra.js:62-72 | after a token write the key holds exactly the new record, and every other key reads as before |
| Store.Remove | server/src/db/cassandra.js:74-77 | after a delete the key reads as null, and every other key reads as before |
| Store.WriteToken | server/src/db/cassandra.js:62-72 | UPDATE when a row exists and INSERT otherwise both give the upsert of the new record |
| Store.AllRows | server/src/db/cassandra.js:20-24 | `SELECT *` returns every row of the table once, in some enumeration of its keys (for a table that fits in the driver's first page) |
| Store.Database.GetUsers | server/src/db/cassandra.js:20-24 | returns every user row once (within the first page) |
| Store.Database.GetAdmins | server/src/db/cassandra.js:34-38 | returns every admin row once (within the first page) |
| Store.Database.GetAdminAccessTokens | server/src/db/cassandra.js:48-52 | returns every admin access-token row once (within the first page) |
| Store.Database.CreateAdminAccessToken | server/src/db/cassandra.js:62-72 | the admin token table becomes the upsert of the new record; no other table changes |
| Store.Database.RevokeAdminAccessToken | server/src/db/cassandra.js:74-77 | the admin token table loses the e-mail's record and keeps the rest |
| Store.Database.CreateUserAccessToken | server/src/routes/user.js:65 | the user token table becomes the upsert of the new record |
| Store.Database.RevokeUserAccessToken | server/src/routes/user.js:119 | the user token table loses the e-mail's record and keeps the rest |
| Store.Database.CreateUserRegistrationToken | server/src/routes/admin.js:215 | the registration table becomes the upsert of the new record |
| Http.Reply.Send | server/src/routes/admin.js:36 | `res.status(code).send(body)` appends one response to what was sent |
| Credentials.AuthFieldFailures | server/src/admin/admin.js:40-54 | no field failure is recorded exactly when the e-mail, a valid date and the challenge are all present |
| Credentials.AuthFieldFailuresInCheckOrder | server/src/admin/admin.js:38-57 | each missing field is reported exactly when it is missing, nothing else is reported, and the reports follow the order of the checks |
| Credentials.Authenticate | server/src/routes/admin.js:28-80 | a token is granted iff every field is present, the principal exists and the challenge equals `Hash(row.email + ISO(date))`; the grant is `Hash(email + ISO(now) + 3600000)` with `created = now` and `ttl = 3600000` and comes with no failure; otherwise the failures are the missing fields, or exactly one of unknown account and wrong challenge |
| Credentials.AuthTexts | server/src/admin/admin.js:40-54 | one message per failure, in the same order |
| Credentials.AuthTextsSnoc | server/src/admin/admin.js:40-54 | pushing a failure pushes its message after the earlier ones |
| Credentials.GuardFieldFailures | server/src/routes/admin.js:97-103 | no credential failure is recorded exactly when both the e-mail and the access token are present |
| Credentials.GuardFieldFailuresInCheckOrder | server/src/routes/admin.js:97-105 | each missing credential is reported exactly when it is missing, nothing else is reported, and the e-mail comes first |
| Credentials.Expired | server/src/routes/admin.js:117-126 | a stored token has expired when `created + ttl` is strictly below the clock reading, so it is still live at that instant; the guard's behaviour at the boundary is stated by `Credentials.ExpiryBoundary` |
| Credentials.Guard | server/src/routes/admin.js:105-131 | the token is revoked iff the principal exists and its stored token has `created + ttl` below the first clock reading; `next()` runs iff the principal exists and the stored token matches and is live at both readings; a missing credential ends the check before any lookup; an unknown principal is reported; a known principal whose stored token is absent, expired at the first reading or different from the one presented gets exactly the token failure |
| Credentials.RouteAuthFailureReplies | server/src/routes/admin.js:35-49 | the routes answer each failure with one response |
| Credentials.RouteAuthReplies | server/src/routes/admin.js:35-78 | a grant is answered with one 200 carrying the token and the TTL; a refusal gets one response per failure |
| Credentials.RouteAuthRepliesInOrder | server/src/routes/admin.js:35-78 | the i-th response answers the i-th failure: 401 for an unknown account or a wrong challenge, 400 otherwise, with that failure's text |
| Credentials.RouteAuthRepliesSingle | server/src/routes/admin.js:72-77 | a single failure is answered with a single response |
| Credentials.RouteAuthRepliesSnoc | server/src/routes/admin.js:35-49 | a further failure adds its response after those already sent |
| Credentials.RouteGuardReplies | server/src/routes/admin.js:97-131 | the guard in the routes sends one response per failure |
| Credentials.RouteGuardRepliesInOrder | server/src/routes/admin.js:97-131 | the i-th response answers the i-th guard failure: 401 for an unknown holder or a wrong token, 400 otherwise |
| Credentials.RouteGuardRepliesSnoc | server/src/routes/admin.js:97-131 | a further guard failure adds its response after those already sent |
| Credentials.SendAuthFailure | server/src/routes/admin.js:35-49 | sends that failure's status and text once |
| Credentials.SendAuthFieldFailures | server/src/routes/admin.js:35-49 | the field checks send one 400 per missing field, in check order, and nothing when every field is present |
| Credentials.SendGuardFailure | server/src/routes/admin.js:97-103 | sends that guard failure's status and text once |
| Credentials.SendGuardFieldFailures | server/src/routes/admin.js:97-103 | the credential checks send one 400 per missing credential, in order |
| Credentials.ChallengeRoundTrip | server/src/routes/admin.js:57-70 | the digest of the principal's e-mail column and the date is accepted, and the token issued for it passes the guard while it is live |
| Credentials.ExpiryBoundary | server/src/routes/admin.js:117-128 | a matching stored token passes exactly up to and including `created + ttl`; later it is revoked, removed from the table and refused |
| Credentials.GuardWithMonotoneClock | server/src/routes/admin.js:117-128 | with a clock that does not run backwards, `next()` runs iff the principal exists and its stored token matches and is live at the later reading |
| Credentials.ClockStraddlingExpiry | server/src/routes/admin.js:117-128 | when the two clock readings straddle the expiry instant, the guard records no failure, revokes nothing and does not call `next()` |
| Credentials.RotationRevokesEarlierToken | server/src/routes/admin.js:65 | after re-authentication with a different token, the earlier token no longer passes the guard and is reported as invalid |
| Credentials.UnknownPrincipalRefused | server/src/routes/admin.js:53-77 | an e-mail with no principal row is refused by `/auth` with only the unknown-account failure, and by the guard, which revokes nothing |
| Credentials.TamperedChallengeRefused | server/src/routes/admin.js:57-74 | any challenge other than the expected digest is refused with only the wrong-challenge failure |
| Credentials.ChallengeIgnoresPassword | server/src/routes/admin.js:57 | two principal tables that differ only in their passwords give every request the same outcome, so the digest is not keyed by the password |
| Credentials.ChallengeReplayable | server/src/routes/admin.js:52-59 | whether a challenge is accepted does not depend on the current time, so a captured challenge is accepted again later |
| AdminRoutes.Auth | server/src/routes/admin.js:28-80 | sends the route replies of the authentication trace for the admin table and leaves the admin token table as the upsert of the grant, or unchanged when nothing was granted |
| AdminRoutes.VerifyAccessToken | server/src/routes/admin.js:92-133 | `next()` runs iff the guard proceeds; one response is sent per guard failure; the admin token table loses an expired record and nothing else |
| AdminRoutes.CheckStoredToken | server/src/routes/admin.js:105-131 | with both credentials present, the same guarantees as the guard |
| AdminRoutes.ExpireToken | server/src/routes/admin.js:117-121 | an expired token of a known admin is revoked and treated as absent; otherwise the token and the table are kept |
| AdminRoutes.CompareToken | server/src/routes/admin.js:123-131 | `next()` runs iff the live token matches and the admin exists with the token unexpired at the grant reading; a match sends nothing, and an absent or wrong token sends one 401 |
| AdminRoutes.Users | server/src/routes/admin.js:142-150 | sends every user row once, each without its password |
| AdminRoutes.UserByEmail | server/src/routes/admin.js:160-173 | sends the user's row without its password, or a 404 naming the e-mail when there is no such user |
| AdminRoutes.LetterCode | server/src/routes/admin.js:207 | a draw of a base and an offset below 26 is a code of an ASCII letter (65..90 or 97..122) |
| AdminRoutes.EveryLetterDrawable | server/src/routes/admin.js:207 | each of the 52 letter codes can be drawn |
| AdminRoutes.FromCharCodes | server/src/routes/admin.js:211 | `String.fromCharCode` gives one character per code, equal to the code |
| AdminRoutes.GenerateRegistrationToken | server/src/routes/admin.js:205-211 | the loop produces a token of exactly 16 characters, each an ASCII letter |
| AdminRoutes.RegistrationRefusal | server/src/routes/admin.js:194-204 | a token is issued iff the e-mail is present, valid and not the stored e-mail of an existing user; otherwise the refusal carries the message of the first check that fails |
| AdminRoutes.NewUser | server/src/routes/admin.js:187-222 | a refusal sends its one 400 and writes nothing; otherwise a 16-letter token is upserted for the e-mail with `created = now` and `ttl = 21600000`, and one 200 with that token and TTL is sent |
| AdminRoutes.UsersRoute | server/src/routes/admin.js:142-150 | the listing runs iff the guard proceeds: an admitted request gets one 200 with every user row stripped of its password; a refused one gets only the guard's responses; either way the admin token table is as the guard leaves it |
| AdminRoutes.UserByEmailRoute | server/src/routes/admin.js:160-173 | the lookup runs iff the guard proceeds: an admitted request gets the user's row without its password, or a 404; a refused one gets only the guard's responses; either way the admin token table is as the guard leaves it |
| AdminRoutes.NewUserRoute | server/src/routes/admin.js:187-222 | no registration token is written unless the guard proceeds; a token is issued iff the guard proceeds and the e-mail is not refused, and it is then upserted with `ttl = 21600000` and sent in one 200; an admitted refusal sends its one 400 and writes nothing; the admin token table is as the guard leaves it |
| UserRoutes.Auth | server/src/routes/user.js:28-80 | as the admin `/auth`, against the user table and the user token table |
| UserRoutes.VerifyAccessToken | server/src/routes/user.js:92-133 | as the admin guard, against the user table and the user token table |
| UserRoutes.CheckStoredToken | server/src/routes/user.js:105-131 | with both credentials present, the same guarantees as the user guard |
| UserRoutes.ExpireToken | server/src/routes/user.js:117-121 | an expired token of a known user is revoked and treated as absent |
| UserRoutes.CompareToken | server/src/routes/user.js:123-131 | `next()` runs iff the live token matches and the user exists with the token unexpired; an absent or wrong token sends one 401 |
| AdminConsole.ErrorReporter.constructor | server/src/admin/admin.js:7-8 | a fresh reporter is not stopped |
| AdminConsole.ErrorReporter.Report | server/src/admin/admin.js:8-14 | a stopped reporter sends nothing; otherwise it sends one 400 carrying every message |
| AdminConsole.ConsoleAuthReplies | server/src/admin/admin.js:72-86 | the console answers `/auth` exactly once: 200 with the grant, or one 400 listing the failures' messages in order |
| AdminConsole.ConsoleGuardTexts | server/src/admin/admin.js:99-133 | one message per guard failure, in the same order |
| AdminConsole.ConsoleGuardReplies | server/src/admin/admin.js:129-137 | nothing is sent exactly when `next()` ran; otherwise one 400 lists the failures |
| AdminConsole.AuthFieldErrors | server/src/admin/admin.js:38-54 | the pushed messages are the field failures' messages in check order |
| AdminConsole.Auth | server/src/admin/admin.js:29-87 | sends the console reply of the authentication trace for the admin table and leaves the token table as the upsert of the grant, or unchanged |
| AdminConsole.GuardFieldErrors | server/src/admin/admin.js:97-105 | the pushed messages are those of the missing credentials, in order |
| AdminConsole.CheckStoredToken | server/src/admin/admin.js:107-135 | with both credentials present, `next()` runs iff the guard proceeds, the reporter is stopped exactly then, the messages are those of the guard's failures, and the table loses only an expired record |
| AdminConsole.VerifyAccessToken | server/src/admin/admin.js:89-138 | `next()` runs iff the guard proceeds; a request let through gets no 400, and a refused one gets one 400 listing the failures; the table loses only an expired record |
| AdminConsole.UsersRoute | server/src/admin/admin.js:144-152 | the password-stripped user listing is sent iff the guard proceeds; otherwise only the guard's answer is sent; the admin token table is as the guard leaves it |
| AdminConsole.ConsoleAuthAnswersOnce | server/src/admin/admin.js:56-86 | exactly one response: a 200 iff every field is present, the admin exists and the challenge is the digest of its e-mail column and the date; otherwise a 400 |
| AdminConsole.EveryFieldMissingReported | server/src/admin/admin.js:38-57 | with every field missing, the single 400 lists the three field messages in check order |
| AdminConsole.StraddledExpiryReportsNothingListed | server/src/admin/admin.js:119-137 | when the clock readings straddle the expiry instant, the console sends a 400 with an empty message list |
| Json.KeyIndex | server/src/middleware/verify-request-body.js:32 | finds the first entry with the key, or shows that none has it |
| Json.TypeOf | server/src/middleware/verify-request-body.js:49 | `typeof` is "object" exactly for `null`, an object and a Date |
| Json.ValueText | server/src/middleware/verify-request-body.js:79 | the text a value shows inside a template literal is empty only for a string |
| Json.Set | server/src/middleware/verify-request-body.js:68 | `obj[key] = v` makes the key read `v` and keeps every other key and its value; an existing key is overwritten where it stands, and a new key is appended at the end |
| RequestBody.ExpectedType | server/src/middleware/verify-request-body.js:29 | the expected `typeof` is "object" exactly for a nested sample |
| RequestBody.Message | server/src/middleware/verify-request-body.js:35-79 | the four message texts: a missing key, an empty value, a type mismatch with both type names, and a failed Date conversion; `RequestBody.ErrorMessages` keeps one per error, in order |
| RequestBody.IsEmptyValue | server/src/middleware/verify-request-body.js:41 | the falsy values other than the number 0; `RequestBody.EmptyValueReported` states that they are reported and that 0 passes |
| RequestBody.ErrorMessages | server/src/middleware/verify-request-body.js:94 | one message per collected error, in order |
| RequestBody.ToDate | server/src/middleware/verify-request-body.js:68-69 | `new Date(v)`: a Date keeps its time, `undefined` is invalid, `null` is the epoch, a number is valid iff within the Date range, and a text is what the parser gives |
| RequestBody.ChainError | server/src/middleware/verify-request-body.js:32-53 | the else-if chain reports nothing iff the key is present, non-empty and of the expected type; a report names `path + key` |
| RequestBody.Convert | server/src/middleware/verify-request-body.js:63-80 | only a Date-typed key changes: a convertible value becomes the Date with no error; otherwise the value is restored and exactly one error is appended, showing the value's text and its `typeof`; other keys are untouched and no key is removed |
| RequestBody.CheckKeys | server/src/middleware/verify-request-body.js:20-82 | the errors and the body after `recursiveCheck` has walked the first n keys of the sample; its properties are stated by the `CheckKeys*` lemmas and by the lemmas after them |
| RequestBody.Checked | server/src/middleware/verify-request-body.js:29-61 | the else-if chain for one key, recursing into a nested object under `path + key + "."`, only appends errors to those collected before |
| RequestBody.CheckedFrame | server/src/middleware/verify-request-body.js:32-61 | the check of one key leaves every other key alone and removes no key |
| RequestBody.CheckKeysLeavesOthers | server/src/middleware/verify-request-body.js:20-82 | a key the sample does not name keeps its value, and its presence or absence |
| RequestBody.CheckKeysKeepsKeys | server/src/middleware/verify-request-body.js:20-82 | no key of the body disappears |
| RequestBody.CheckKeysErrorPaths | server/src/middleware/verify-request-body.js:35-59 | every missing, empty or mistyped key is reported under the path the check started from |
| RequestBody.RecursiveCheck | server/src/middleware/verify-request-body.js:20-82 | the loop over the sample's keys collects the errors and rewrites the body as `CheckKeys` defines key by key |
| RequestBody.ConvertKey | server/src/middleware/verify-request-body.js:63-80 | the try/catch converts a Date-typed key or restores it and reports it, as `Convert` states |
| RequestBody.VerifyRequestBody | server/src/middleware/verify-request-body.js:84-95 | `next()` runs iff no error was collected; otherwise one 400 carries every message in order; the next handler sees the converted body |
| RequestBody.CheckKeysStep | server/src/middleware/verify-request-body.js:20-81 | the loop checks the key at position n of the sample exactly as a one-key sample would be checked, against the body the earlier keys left; its errors follow theirs |
| RequestBody.MissingKeyReportedInTurn | server/src/middleware/verify-request-body.js:22-35 | in any sample, a key that no earlier key shares and that the body lacks is reported as missing right after the earlier keys' errors |
| RequestBody.MissingKeyReported | server/src/middleware/verify-request-body.js:32-35 | a key the body lacks is reported as missing under its path; a Date-typed one is also reported as unconvertible and left holding `undefined` (for one key's own check; `RequestBody.CheckKeysStep` places it at any position of a longer sample) |
| RequestBody.EmptyValueReported | server/src/middleware/verify-request-body.js:41-44 | a falsy value is reported as null or empty, but the number 0 passes; for a Date-typed key the empty report comes first and at most one conversion error follows it (for one key's own check; `RequestBody.CheckKeysStep` places it at any position of a longer sample) |
| RequestBody.NullDateReportedAndConverted | server/src/middleware/verify-request-body.js:41-70 | a Date-typed `null` is reported as null or empty, and then converted anyway: the body holds the epoch Date |
| RequestBody.WrongTypeReported | server/src/middleware/verify-request-body.js:49-52 | a present, non-empty value of another type is reported with both type names; for a key that is not Date-typed that is the only report and the body is unchanged, and a Date-typed key is reported against "string" first, with at most one conversion error after (for one key's own check; `RequestBody.CheckKeysStep` places it at any position of a longer sample) |
| RequestBody.DateTextConverted | server/src/middleware/verify-request-body.js:64-70 | a valid date text is replaced by its Date and nothing is reported (for one key's own check; `RequestBody.CheckKeysStep` places it at any position of a longer sample) |
| RequestBody.InvalidDateRestored | server/src/middleware/verify-request-body.js:76-79 | a text the parser rejects is put back unchanged and reported once as unconvertible from string (for one key's own check; `RequestBody.CheckKeysStep` places it at any position of a longer sample) |
| RequestBody.AtMostOneChainErrorPerKey | server/src/middleware/verify-request-body.js:32-61 | a non-nested key gets at most one of missing, empty and wrong type, possibly followed by one conversion error, which only a Date-typed key can get (for one key's own check; `RequestBody.CheckKeysStep` places it at any position of a longer sample) |
| RequestBody.NestedKeyPrefixed | server/src/middleware/verify-request-body.js:56-59 | a missing key of a nested object is reported as `path + parent + "." + key` (for a one-entry nested sample; `RequestBody.CheckKeysStep` places the parent at any position) |
| RequestBody.ConvertedBodyFailsAgain | server/src/middleware/verify-request-body.js:29-70 | a Date-typed key that passed now holds a Date where the sample expects a string, so checking the converted body again reports a type mismatch (for one key's own check; `RequestBody.CheckKeysStep` places it at any position of a longer sample) |
| Csv.HeaderNames | server/src/util/array-to-csv.js:3-12 | the header names of one object, in key order; `Csv.HeaderMatchesValues` states that there are as many as there are values |
| Csv.LeafValues | server/src/util/array-to-csv.js:14-23 | the flattened values contain no object |
| Csv.Terminated | server/src/util/array-to-csv.js:9 | every header field is followed by a comma, so a non-empty header ends with `,` |
| Csv.TerminatedSnoc | server/src/util/array-to-csv.js:9 | one more leaf adds its name and a comma at the end of the header |
| Csv.TerminatedAppend | server/src/util/array-to-csv.js:8 | a nested object's header is appended as it is |
| Csv.HeaderNamesStep | server/src/util/array-to-csv.js:6-10 | each key adds its fields after those of the keys before it |
| Csv.FlatKeys | server/src/util/array-to-csv.js:3-12 | the loop builds the comma-terminated list of header names: `path + key` for a leaf, and for a nested object only that object's key and `_` |
| Csv.FlatValues | server/src/util/array-to-csv.js:14-23 | the loop emits the leaf values depth-first in key order |
| Csv.HeaderMatchesValues | server/src/util/array-to-csv.js:3-23 | for every object, the header has as many fields as there are values |
| Csv.NestedNameKeepsOnlyParent | server/src/util/array-to-csv.js:8 | a doubly nested leaf is named only by its parent key, `_` and its own key; outer keys are dropped |
| Csv.DateVanishes | server/src/util/array-to-csv.js:8 | a Date has no keys of its own, so it adds nothing to the header or to the values |
| Csv.CellText | server/src/util/array-to-csv.js:27 | `join` renders a cell as empty text exactly for `null`, `undefined` and the empty string |
| Csv.JoinCells | server/src/util/array-to-csv.js:27 | `values.join(',')`: the cells' texts with a comma between each two |
| Csv.Line | server/src/util/array-to-csv.js:27 | one element's line: a line break, then its values joined by commas |
| Csv.Lines | server/src/util/array-to-csv.js:26-28 | the `reduce` adds each element's line in array order; `Csv.LinesAppend` states how the lines of two runs combine |
| Csv.LinesAppend | server/src/util/array-to-csv.js:26-28 | the lines of two runs of elements are the lines of the first followed by those of the second |
| Csv.ArrayToCsv | server/src/util/array-to-csv.js:25-30 | an empty array makes the writer throw, because `flatKeys` is called on the missing first element; otherwise the output starts with the first element's header |
| Csv.AppendingRowAddsOneLine | server/src/util/array-to-csv.js:25-28 | appending an element appends its line and leaves the header alone, because the header comes from the first element only |
| Csv.SingleElement | server/src/util/array-to-csv.js:25-28 | one element gives its header, a line break and its values joined by commas |
| Csv.CsvIsHeaderThenLines | server/src/util/array-to-csv.js:26-28 | the output is the header followed by each element's line, in array order |

## Left out

- Express transport: routing, middleware chaining and `app.listen` are not modelled. A handler's
  answer is the list of responses it sends, and `next()` is a returned boolean.
- SHA-256 and base64 are not modelled: the hash is an uninterpreted function of the message.
- JavaScript `Date` parsing and `toISOString` are not modelled: they are uninterpreted
  parameters. A stored `created` is kept in milliseconds, so the model assumes that
  `new Date(created.toISOString())` gives back the same instant.
- `Math.random` and its floating point are not modelled: each draw is a nondeterministic choice
  of base and offset.
- Concurrency is not modelled. `Promise.all`, and the revocation and registration-token writes
  that are not awaited, run as sequential steps, so interleavings of concurrent requests are not
  captured.
- The Cassandra driver, the CQL text and the schema are not modelled: the tables are maps keyed
  by e-mail.
  - `createUserAccessToken`, `revokeUserAccessToken`, `getUserAccessToken` and
    `createUserRegistrationToken` are called by the routes but are not defined in
    `db/cassandra.js`. They are modelled as the same upsert, delete and lookup on tables of
    their own.
  - `trim` is modelled, but no route calls it.
- `email-validator` is not modelled: it is an uninterpreted predicate.
- The logger, the Geotab client, the server and main entry points, and the empty placeholder
  routes of `routes/user.js` are not part of this model. The `{ messages }` wrapper of
  `util/error-msg.js` is folded into the `Messages` response body.
- The branch that sends "No date provided" is not modelled. `new Date(...)` always returns an
  object, so that branch is dead; an absent or unparsable date is reported as "Invalid date
  format".
- Strings are simplified:
  - a missing or falsy string field is the empty string;
  - `toLowerCase` is modelled on ASCII letters only;
  - white space is the ECMAScript set of characters.
- Values are simplified:
  - numbers in request bodies and CSV rows are integers, so floating point, `NaN` and the
    rendering of fractions are not modelled;
  - arrays, prototype keys seen by `in`, and properties added to Date objects are not modelled;
  - Json.Set appends a new key at the end of the object. `Object.keys` lists integer-like keys
    such as "0" first, in ascending order, so such a key added by the validator would not come
    last.
- Mutation is modelled on values. The validator's in-place rewrite of `req.body`, and
  `delete user['password']` on the driver's row objects, are modelled as values returned or
  sent. Aliasing between those objects and other references is not captured.
- Store.Database.GetUser, Store.Database.GetAdmin, Store.Database.GetAdminAccessToken and
  Store.Database.GetUserAccessToken carry no contract of their own. Each is `Lookup` on its
  table, and `Store.Lookup` states the "row or null" guarantee.
- Store.AllRows, Store.Database.GetUsers, Store.Database.GetAdmins and
  Store.Database.GetAdminAccessTokens list the whole table. `execute` without paging options
  returns only the first page of results (5000 rows by default), so a larger table would be
  listed only in part; the model assumes every table fits in one page.
- Http.Reply.Send records every attempted send. Express delivers only the first response of a
  request and throws on a later one, and that throw is not modelled.
- Common.IntText states only that the text is non-empty and carries the sign, not the digits of
  a negative number.
- Csv.ArrayToCsv states that the output starts with the header. The header-then-lines shape is
  stated by `Csv.CsvIsHeaderThenLines`, `Csv.SingleElement` and
  `Csv.AppendingRowAddsOneLine`.
