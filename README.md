# Session lifecycle of the e-commerce auth backend

This project models the authentication core of the backend: the four handlers of
`backend/controllers/auth.controller.js` (`signUp`, `login`, `logout` and `refreshToken`),
with their helpers `generateTokens` and `storeRefreshToken` and the cookie lifetimes
of `setCookies`. It also models the user schema of `backend/models/user.model.js`:
required fields, email normalisation, minimum password length, the role enum, the
pre-save hashing hook and `comparePassword`.

The handlers run over two stores:

- the users collection, keyed by normalised email;
- the Redis keyspace, where `refresh_token:<userId>` holds the user's one live
  refresh token, with a 7-day TTL.

Modules:

- `Wrappers`: `Option` and `Result`.
- `DecimalText`: the decimal rendering of user ids in Redis keys, proved injective.
- `UserModel`: schema validation, the `lowercase`/`trim` setters, an abstract bcrypt,
  and the `UserDocument` class whose `Save` validates and then runs the pre-save hook
  in place.
- `Tokens`: JSON Web Tokens as a datatype tagged with the secret that signed them,
  plus `jwt.verify`.
- `SessionStore`: Redis as a map from key to value and expiry instant.
- `Auth`: each handler as a function from the store state to the new state and the
  HTTP reply.
- `AuthProperties`: the store invariant and the properties that span several
  requests: one session per user, last login wins, logout revokes, and indistinguishable
  login failures.
- `AuthController`: the `Controller` class. Its `users`, `sessions` and `nextId`
  fields are updated in place, step by step as the handlers do. The four handler
  methods are proved equal to the matching `Auth` functions, and the three that write
  to the stores are proved to keep the invariant. The helper methods
  (`StoreRefreshToken`, `IssueTokens`, `CreateAndIssue`, `Register`, and `CreateUser`
  outside the class) state their results and the new state directly. Two client methods,
  `LoginSupersedesSignUpSession` and `LogoutEndsSession`, drive one controller through
  sign-up, login, refresh and logout and assert the replies at each step.

Time is a parameter `now`, in whole seconds. A token or a Redis key is dead once
`now` reaches its expiry instant. The randomness `bcrypt.genSalt` draws is a
parameter `nonce`.

## Model

| member | source | states |
|---|---|---|
| DecimalText.Text | backend/controllers/auth.controller.js:20 | the rendering of an id is a non-empty string of decimal digits, one digit exactly for ids below 10 |
| DecimalText.TextInjective | backend/controllers/auth.controller.js:20 | distinct user ids render to distinct texts, so the template key never mixes two users |
| UserModel.ParseRole | backend/models/user.model.js:35-39 | a role is accepted iff it is "customer" or "admin", and the accepted role has exactly that name; any other text is refused with Mongoose's enum message "`<text>` is not a valid enum value for path `role`." |
| UserModel.ComparePassword | backend/models/user.model.js:60-64 | a candidate matches iff the stored value is a digest of exactly that plaintext; a stored plaintext never matches |
| UserModel.ComparePasswordOfHash | backend/models/user.model.js:60-64 | a digest of `p` verifies `q` iff `q == p`, for every salt |
| UserModel.SaltsDistinguishDigests | backend/models/user.model.js:50-51 | two salts from `genSalt(10)` drawn with different randomness give the same password two different digests, and both still verify it |
| UserModel.RehashBreaksCompare | backend/models/user.model.js:47-51 | hashing an already hashed password makes the original password fail to verify, which is why the hook checks `isModified` |
| UserModel.TrimStart | backend/models/user.model.js:15 | the result is a suffix of the input; every dropped character is white space, and the result does not start with white space |
| UserModel.TrimEnd | backend/models/user.model.js:15 | the result is a prefix of the input; every dropped character is white space, and the result does not end with white space |
| UserModel.LowerKeepsTrimmable | backend/models/user.model.js:14-15 | lowercasing neither creates nor removes white space |
| UserModel.TrimStartOfLower | backend/models/user.model.js:14-15 | trimming the start commutes with lowercasing |
| UserModel.TrimEndOfLower | backend/models/user.model.js:14-15 | trimming the end commutes with lowercasing |
| UserModel.SettersCommute | backend/models/user.model.js:14-15 | the `lowercase` and `trim` setters give the same address in either order |
| UserModel.TrimIdempotent | backend/models/user.model.js:15 | trimming twice is trimming once |
| UserModel.TrimmedEnds | backend/models/user.model.js:15 | a non-empty trimmed string starts and ends with a character that is not white space |
| UserModel.LowerHasNoCapitals | backend/models/user.model.js:14 | a lowercased string holds no ASCII capital |
| UserModel.TrimKeepsNoCapitals | backend/models/user.model.js:14-15 | trimming a string without capitals leaves a string without capitals |
| UserModel.NormalizedShape | backend/models/user.model.js:10-16 | every stored email has no capitals and no white space at either end |
| UserModel.NormalizedIsFixedPoint | backend/models/user.model.js:10-16 | an address is left unchanged by the setters iff it has that normalised shape |
| UserModel.NormalizeIdempotent | backend/models/user.model.js:10-16 | normalising a stored address again changes nothing, so a query with a stored address finds its record |
| UserModel.Validate | backend/models/user.model.js:4-44 | one error per failing path and only those: name required, email required, password required or shorter than 6 characters (digests count as 60), role outside the enum; each error carries the schema's message |
| UserModel.UserDocument.constructor | backend/models/user.model.js:10-39 | a new document holds the name, the normalised email, the plaintext password marked as modified, and the given role or the "customer" default |
| UserModel.UserDocument.PreSave | backend/models/user.model.js:47-57 | the hook replaces the password with its salted hash when the password was modified, and leaves it untouched otherwise |
| UserModel.UserDocument.Save | backend/models/user.model.js:47-51 | save returns the validation errors of the document as it was; on an error nothing changes, otherwise the hook has run and the document is no longer modified |
| Tokens.GenerateTokens | backend/controllers/auth.controller.js:6-15 | both tokens name the user and are issued now; the access token is signed with the access secret for 900 s, the refresh token with the refresh secret for 604800 s, and the two differ |
| Tokens.Verify | backend/controllers/auth.controller.js:145 | verification yields the token's user iff the token is signed with the given secret and not expired; text that is not a token is "jwt malformed", parts that do not decode are "invalid token", a signature by another secret or by none of ours is "invalid signature", and an expired token is "jwt expired" |
| Tokens.VerifySigned | backend/controllers/auth.controller.js:6-15 | a freshly signed token verifies against its own secret for exactly its lifetime and is expired afterwards |
| Tokens.WrongClassRejected | backend/controllers/auth.controller.js:145 | an access token never verifies as a refresh token and a refresh token never verifies as an access token, at any time |
| Tokens.CookieMaxAgeMatchesLifetime | backend/controllers/auth.controller.js:28-41 | each cookie's max-age, in milliseconds, equals the lifetime of the token it carries |
| SessionStore.SessionKey | backend/controllers/auth.controller.js:20 | a session key is the prefix `refresh_token:` followed by a non-empty id |
| SessionStore.SessionKeyInjective | backend/controllers/auth.controller.js:20 | two users never share a session key |
| SessionStore.StoreRefreshToken | backend/controllers/auth.controller.js:18-25 | afterwards the user's key reads back exactly the token, overwriting any earlier one, with expiry now + 604800; no other user's key reads differently at any time |
| SessionStore.SessionTtlMatchesRefreshLifetime | backend/controllers/auth.controller.js:10-23 | the session record for a fresh refresh token expires at the very instant the token does |
| Auth.SetCookies | backend/controllers/auth.controller.js:28-41 | the access and refresh cookies carry their tokens, with max-ages of 1000 times the tokens' lifetimes |
| Auth.SignUpCatchAsWritten | backend/controllers/auth.controller.js:77-80 | the catch block as written replies 500 with the password message iff the password path failed, and throws otherwise |
| Auth.SignUpCatch | backend/controllers/auth.controller.js:77-80 | the corrected catch block always replies 500 with one of the validation messages, without cookies, and with the password message whenever the password failed |
| Auth.CreateErrors | backend/controllers/auth.controller.js:62 | `User.create` validates the normalised email, the plaintext password and the default role; it fails iff the email normalises to "" or the password is shorter than 6 |
| Auth.SignUp | backend/controllers/auth.controller.js:44-81 | a missing field gives 400 and an existing address gives "User already exists", both with nothing stored; sign-up succeeds iff the address is new and non-empty once normalised and the password is long enough, and then exactly one user is added under the next id, its password stored as the digest with the salt `genSalt` drew, which verifies the password, its refresh token is stored, and it replies 201 with the profile and both cookies; when `User.create` fails, nothing is stored and the reply is the 500 of the catch block, carrying the password's validation message whenever the password failed |
| Auth.CreateAndIssue | backend/controllers/auth.controller.js:62-80 | once both guards pass, sign-up succeeds iff `User.create` reports no error; a failure replies with the catch block's 500 and stores nothing; a success adds exactly the new user under the next id, its password stored as the salted digest that verifies it, stores its refresh token, and replies 201 |
| Auth.Login | backend/controllers/auth.controller.js:84-113 | users never change; missing fields give 400; login succeeds iff the normalised address is registered and the password verifies, and then only the user's session key is overwritten with a fresh refresh token and it replies with the profile and both cookies; every other case is 400 "Invalid email or password" with nothing written |
| Auth.Logout | backend/controllers/auth.controller.js:116-134 | no token gives success and changes nothing; a verifying token deletes the session key of the user it names and clears both cookies; a token that does not verify gives 500 with the verifier's message and changes nothing |
| Auth.Refresh | backend/controllers/auth.controller.js:137-170 | neither store ever changes; no token gives 401; it succeeds iff the token verifies as a refresh token and equals the stored one, and then issues only a new 15-minute access cookie; a verifying token that is not the stored one gives 401 "Invalid refresh token"; a token that does not verify gives 500 |
| AuthProperties.SignUpPreservesValid | backend/controllers/auth.controller.js:44-81 | sign-up keeps users unique by email and by id, every stored email normalised, every password a digest, and every session record a refresh token of a registered user, under that user's key, whose record expires when the token does |
| AuthProperties.LoginPreservesValid | backend/controllers/auth.controller.js:84-113 | login keeps that invariant |
| AuthProperties.LogoutPreservesValid | backend/controllers/auth.controller.js:116-134 | logout keeps that invariant |
| AuthProperties.OneAcceptedTokenPerUser | backend/controllers/auth.controller.js:146-150 | at any instant at most one refresh token per user is accepted |
| AuthProperties.AcceptedTokenIsStoredRefreshToken | backend/controllers/auth.controller.js:145-150 | in a valid store, an accepted token is an unexpired refresh-class token, the one stored under its user's key, for a registered user |
| AuthProperties.NewerSessionWins | backend/controllers/auth.controller.js:146-150 | when the session holds the token issued at a later second, the earlier token gets 401 and the later one is accepted |
| AuthProperties.LaterLoginSupersedesEarlier | backend/controllers/auth.controller.js:95-97 | a second login at a later second succeeds too, and the first login's refresh token is then refused while the second's is accepted |
| AuthProperties.LoginSupersedesSignUpToken | backend/controllers/auth.controller.js:95-97 | a login after sign-up, at a later second, makes the sign-up's refresh token refused and the login's accepted |
| AuthProperties.SameSecondLoginsShareToken | backend/controllers/auth.controller.js:6-15 | two logins in the same second issue the same refresh token, so the first one's token stays accepted |
| AuthProperties.LoginLeavesOtherUsersSessions | backend/controllers/auth.controller.js:96-97 | a login never changes whether another user's refresh token is accepted |
| AuthProperties.LogoutRevokesRefreshToken | backend/controllers/auth.controller.js:119-129 | logout with a verifying refresh token succeeds, and afterwards that token is never accepted again; while it still verifies, refresh answers 401 "Invalid refresh token" |
| AuthProperties.LogoutWithOlderTokenEndsCurrentSession | backend/controllers/auth.controller.js:120-124 | logout with any still-verifying older token of a user also ends that user's current session |
| AuthProperties.AccessTokenRejected | backend/controllers/auth.controller.js:145 | an access token, or a token signed by none of our secrets, presented as a refresh token gives 500 "invalid signature" on refresh and on logout, and logout then changes nothing |
| AuthProperties.LoginFailuresIndistinguishable | backend/controllers/auth.controller.js:93-108 | an unknown address and a wrong password get the identical 400 reply and write nothing |
| AuthProperties.SignUpSucceeds | backend/controllers/auth.controller.js:62-76 | a new, non-blank address with a name and a password of at least 6 characters signs up, with 201 and the profile under the next id |
| AuthProperties.ShortPasswordRejected | backend/controllers/auth.controller.js:77-80 | a new, non-blank address with a password of one to five characters gets 500 "Password must be at least 6 characters long" and nothing is stored |
| AuthProperties.SignUpTokenAccepted | backend/controllers/auth.controller.js:64-65 | the refresh token sign-up issues is accepted until it expires |
| AuthProperties.WrongPasswordRefused | backend/controllers/auth.controller.js:95-107 | after sign-up, any other password with any spelling of the address is refused with 400 and nothing written |
| AuthProperties.SignUpThenLogin | backend/controllers/auth.controller.js:93-105 | after sign-up, the same password with any spelling of the address logs in as the created user and stores a fresh refresh token for them |
| AuthProperties.SecondSignUpRefused | backend/controllers/auth.controller.js:57-60 | a second sign-up with the same address, in any spelling, gets "User already exists" and changes nothing |
| AuthProperties.ScenarioPlainEmail | backend/models/user.model.js:14-15 | "a@x.com" is stored as it is |
| AuthProperties.ScenarioShoutedEmail | backend/models/user.model.js:14-15 | "A@X.COM " is stored as "a@x.com" |
| AuthProperties.ScenarioBlankEmail | backend/models/user.model.js:14-15 | " " is not empty but is stored as "" |
| AuthProperties.BlankEmailSignUpThrowsAsWritten | backend/controllers/auth.controller.js:77-80 | for a non-empty email that normalises to "", only the email path fails validation, the catch block as written throws, and the corrected one replies 500 "Email is required" with nothing stored |
| AuthController.Controller.StoreRefreshToken | backend/controllers/auth.controller.js:18-25 | the sessions field becomes `StoreRefreshToken` of its old value |
| AuthController.Controller.IssueTokens | backend/controllers/auth.controller.js:64-65 | for a registered user, returns the generated pair and stores its refresh token, keeping the invariant |
| AuthController.Controller.SignUp | backend/controllers/auth.controller.js:44-81 | the in-place handler leaves the state that `Auth.SignUp` gives for the old state, returns the reply it gives, and keeps the invariant |
| AuthController.Controller.CreateAndIssue | backend/controllers/auth.controller.js:62-80 | the in-place steps after the guards agree with `Auth.CreateAndIssue` and keep the invariant |
| AuthController.Controller.Register | backend/controllers/auth.controller.js:62-76 | inserts the new user under the next id, stores its refresh token, replies 201, and keeps the invariant |
| AuthController.Controller.Login | backend/controllers/auth.controller.js:84-113 | the in-place handler agrees with `Auth.Login` and keeps the invariant |
| AuthController.Controller.Logout | backend/controllers/auth.controller.js:116-134 | the in-place handler agrees with `Auth.Logout` and keeps the invariant |
| AuthController.Controller.RefreshToken | backend/controllers/auth.controller.js:137-170 | the handler changes nothing and replies as `Auth.Refresh` does |
| AuthController.CreateUser | backend/controllers/auth.controller.js:62 | building and saving a user document reports exactly `CreateErrors`, and on success yields the record with the normalised email, the salted digest and the default role |

## Left out

- Express, `console.log`, `getProfile` (a pass-through of `req.user`), `cartItems` and the schema timestamps.
- Cookie attributes (`httpOnly`, `secure`, `sameSite`). Only the cookie names, values and max-ages are modelled.
- The JWT and bcrypt cryptography. A token is a datatype tagged with its secret, and a digest is the salt plus the hashed value.
- Tokens.Verify: a token is classified by its shape (not three parts, parts that do not decode, a signature that matches neither secret) rather than parsed, and the remaining jsonwebtoken checks (algorithm, `nbf`, audience, a missing signature) are not modelled.
- The environment secrets are two tags, and they are assumed to differ.
- The Mongo `ObjectId` is a counter `nextId`, which is fresh and unique as ObjectIds are.
- The clock and the salt randomness are parameters `now` and `nonce`.
- Failures of Redis or Mongo and all I/O errors. Because of this, the `catch` of `login` at backend/controllers/auth.controller.js:109-112 and the non-validation failures of `User.create` (such as a duplicate-key error) are not modelled.
- Concurrency. Each handler is one atomic step, so the race in which two sign-ups for one address both pass `findOne` is not modelled.
- Request fields of a type other than string. A missing or falsy field is the empty string, and a missing cookie is `None`.
- UserModel.Lower: only ASCII capitals are lowered; JavaScript's `toLowerCase` also lowers non-ASCII letters.
- UserModel.LowerChar: maps only `A`-`Z`, for the same reason.
- UserModel.ComparePassword: bcryptjs hashes only the first 72 UTF-8 bytes of a password, so two passwords sharing those bytes both verify against one digest; the model hashes the whole text.
- UserModel.Validate: a password's length is counted in Unicode scalar values, whereas Mongoose's `minlength` counts UTF-16 code units.
- UserModel.UserDocument.constructor: the explicit role argument is modelled, but `signUp` never passes one, so only the default role is reachable from the handlers.
- The `catch` block of `signUp` as written throws a TypeError, so the handler's promise rejects and no JSON reply is sent from the handler; what the client then sees depends on the Express version (Express 5 answers with its default 500 error page, Express 4 leaves the rejection unhandled), and the repository does not pin one. It is modelled as the `Threw` outcome of `Auth.SignUpCatchAsWritten`; the handler model uses the corrected block.
- The model follows the handlers' code, not their documented intent, in two places:
  - A refresh or logout with a token that does not verify (expired, wrong class, malformed) replies 500 "Server error" with the verifier's message, not 401 or a successful logout.
  - Logout deletes the key of whichever user the token names, even when that key holds a newer token.

## Findings

| source | as written | input that shows it | evidently intended | confidence | as-written member | corrected member |
|---|---|---|---|---|---|---|
| backend/controllers/auth.controller.js:77-80 | the catch block reads `error.errors.password.message`, which exists only when the password path failed validation | sign-up with name "n", email " " and password "secret1": the email passes `!email`, normalises to "", and only the email path fails, so the catch block throws a TypeError and the handler sends no JSON reply | reply 500 with the message of the path that failed, here "Email is required" | not executed | Auth.SignUpCatchAsWritten, AuthProperties.BlankEmailSignUpThrowsAsWritten | Auth.SignUpCatch |
