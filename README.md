# Session protocol of the FLEX-CART auth controller, in Dafny

This project models the authentication core of the FLEX-CART storefront
backend: the `signup`, `login`, `logout`, `refreshAccessToken` and
`getProfile` handlers of `backend/controllers/auth.controller.js`, the token
helpers `generateTokens` and `storeRefreshToken` of
`backend/utils/tokenUtils.js`, and the user schema of
`backend/models/user.model.js` (its casting rules, validators, `pre("save")`
hook and `comparePassword`).

The handlers run one after another over two pieces of state:

- the Redis cache, a map from `refresh_token:<userId>` to a refresh token with an expiry time;
- the Mongo user collection, a map from stored (normalised) email to a user record.

A JSON Web Token (RFC 7519) is an immutable value. It records which of the two
secrets signed it (`Access` or `Refresh`) and carries the claims `userId`,
`iat` and `exp` (sections 4.1.6 and 4.1.4 of RFC 7519). `Opaque` stands for
any string neither secret signed. `Verify` follows jsonwebtoken: it checks
the signature first and then `exp`, and a token counts as expired once the
clock, in whole seconds, reaches `exp`.

Layout:

- `wrappers.dfy`: `Option` and `Result`.
- `jwt.dfy`: the token codec (`Sign`, `Verify`).
- `redis.dfy`: the cache: `SET … EX`, `GET` and `DEL` on a `SessionCache` object.
- `token_utils.dfy`: `GenerateTokens`, the cache key, and `StoreRefreshToken`.
- `user_model.dfy`: email normalisation, validators, defaults, bcrypt as a free constructor, and a `UserDocument` class with the pre-save hook.
- `protocol.dfy`: each handler as a function from state and request to a response and the next state.
- `controller.dfy`: class `AuthController`. It holds the user table and the cache, and has one imperative method per handler, using the source's early returns. Every handler method except `GetProfile` is proved equal to its `Protocol` function. `GetProfile` has no `Protocol` function; its contract states its response directly.
- `session_properties.dfy`: lemmas about the protocol functions: rotation, failures that write nothing, refresh without rotation, logout, and how handlers interact over time.

The model follows the code as written, including these points:

- A refresh cookie that fails `jwt.verify` makes `refreshAccessToken` throw. The handler then answers 500 `{message: "Server error", error}`, not 401.
- `logout` with a cookie that does not verify (expired, for one) answers 500 and clears no cookie.
- `logout` deletes the key of whatever user a verifiable cookie names. It never compares the cookie with the stored token, so a superseded refresh token can end the current session (`StaleLogoutEndsCurrentSession`).
- The signup user record is written before the cache. The two stores are not written as one atomic step.
- `jwt.sign` records `iat` in whole seconds. So two logins by one user within the same second produce the same refresh token, and the older one keeps working (`SameSecondLoginsShareToken`). Rotation only takes effect across different seconds.
- The cache TTL written is 604800 seconds; Redis reads `EX` as seconds, whatever the comment beside it says. `StoreOutlivesToken` shows that this TTL covers the refresh token's whole 7-day window.

Parameters stand for what the source reads from its environment:

- `nowMs` is `Date.now()`. One instant serves as the time of everything a handler does: both `jwt.sign` calls, the clock of `jwt.verify`, and the Redis server's clock, which decides whether a cache entry has expired.
- `production` is `NODE_ENV === "production"`.
- `newId` is the `_id` the database assigns.
- `salt` is the salt `bcrypt.genSalt` returns.

## Model

| member | source | states |
|---|---|---|
| Jwt.Sign | backend/utils/tokenUtils.js:8-15 | a signed token carries the given kind and userId, `iat` is the issue time rounded down to the second, and `exp` is `iat` plus the lifetime |
| Jwt.Verify | backend/controllers/auth.controller.js:133 | succeeds, with the token's claims, exactly when the token was signed with the expected secret and the clock has not reached `exp`; a token of that secret past `exp` gives `Expired`, and exactly the unsigned strings give `Malformed` |
| Jwt.VerifySigned | backend/controllers/auth.controller.js:133 | verifying with the signing secret returns the payload before the deadline and `Expired` from the deadline on; the other secret gives `InvalidSignature`, never `Expired` |
| Jwt.LifetimeWindow | backend/utils/tokenUtils.js:8-15 | a token is accepted for more than `lifetime - 1` and at most `lifetime` seconds after it is signed |
| Redis.Lookup | backend/controllers/auth.controller.js:135 | GET returns a key's value exactly while the key is present and not expired |
| Redis.SessionCache.SetEx | backend/utils/tokenUtils.js:25-30 | SET with EX overwrites the key with the value and an expiry `seconds * 1000` ms later, and changes no other key |
| Redis.SessionCache.Get | backend/controllers/auth.controller.js:135 | GET reads the cache and changes nothing |
| Redis.SessionCache.Del | backend/controllers/auth.controller.js:104 | DEL removes exactly that key; an absent key is not an error |
| TokenUtils.RefreshKeyInjective | backend/utils/tokenUtils.js:26 | `refresh_token:<u>` and `refresh_token:<v>` are equal exactly when `u == v` |
| TokenUtils.GenerateTokens | backend/utils/tokenUtils.js:5-19 | both tokens carry `userId`; the access token lasts 900 s under the access secret and the refresh token 604800 s under the refresh secret; each verifies under its own secret and fails with `InvalidSignature` under the other; the two differ; as a function it cannot touch the cache |
| TokenUtils.StoreRefreshToken | backend/utils/tokenUtils.js:22-31 | the cache afterwards is the old cache with only `refresh_token:<u>` overwritten by the token, which expires 604800 s later |
| TokenUtils.StoredLookup | backend/utils/tokenUtils.js:25-30 | after the store, the user's key yields the new token until the TTL ends, whatever it held before; every other user's key reads as before |
| TokenUtils.StoredFrame | backend/utils/tokenUtils.js:25-30 | no key other than `refresh_token:<u>` is added, removed or changed |
| TokenUtils.StoreOutlivesToken | backend/utils/tokenUtils.js:13-29 | while a freshly issued refresh token still verifies, the cache entry written with it is still alive: the 604800 s TTL (seconds, not ms) covers the 7-day expiry |
| UserModel.TrimStart | backend/models/user.model.js:18 | the result is the suffix left after removing leading whitespace, and it starts with no whitespace |
| UserModel.TrimEnd | backend/models/user.model.js:18 | the result is the prefix left after removing trailing whitespace, and it ends with no whitespace |
| UserModel.Trim | backend/models/user.model.js:18 | the trimmed string is no longer than the input and has no whitespace at either end |
| UserModel.TrimIsSlice | backend/models/user.model.js:18 | the trimmed string is a contiguous slice of the input, and everything cut off before and after it is whitespace |
| UserModel.ToLower | backend/models/user.model.js:17 | each character is lowercased in place and no ASCII capital remains |
| UserModel.NormalizeEmail | backend/models/user.model.js:17-18 | a stored email is no longer than the input and has no ASCII capital and no whitespace at either end |
| UserModel.NormalizeEmailLowersTrim | backend/models/user.model.js:17-18 | the stored email has the length of the trimmed input, and each of its characters is the lowercase of the trimmed input's character at that position |
| UserModel.TrimIdempotent | backend/models/user.model.js:18 | trimming twice is the same as trimming once |
| UserModel.TrimOfTrimmed | backend/models/user.model.js:18 | a string with no whitespace at either end is left as it is by trimming |
| UserModel.ToLowerIdempotent | backend/models/user.model.js:17 | lowercasing twice is the same as lowercasing once |
| UserModel.NormalizeEmailIdempotent | backend/models/user.model.js:17-18 | normalising an already stored email leaves it unchanged, so queries with a stored email find it |
| UserModel.CastRole | backend/models/user.model.js:37-41 | an absent role defaults to customer; only "admin" and "customer" are accepted; anything else fails on path `role` |
| UserModel.CastCartItem | backend/models/user.model.js:27-30 | an absent quantity defaults to 1; a given one and the product are kept |
| UserModel.CastCart | backend/models/user.model.js:25-36 | every cart item is cast by the item rule, keeping order and length |
| UserModel.Validate | backend/models/user.model.js:9-41 | a document is accepted exactly when name, email (after trimming) and password are present and non-empty, the password has at least 6 characters and the role is valid; then the document keeps the id and name, the email is normalised, the password is still plaintext, the role is the cast role (customer when absent) and the cart items are the cast cart; otherwise the error list is exactly the failures in schema order, and it is non-empty |
| UserModel.RequiredMessages | backend/models/user.model.js:11-23 | a missing name, email or password is reported with its "… is required" message, and a short password with "Password must be at least 6 characters long" |
| UserModel.ValidationMessage | backend/controllers/auth.controller.js:44-46 | the 500 body text is "User validation failed: " followed exactly by the joined failures, so it starts with the first failure as "path: message" |
| UserModel.JoinErrors | backend/controllers/auth.controller.js:46 | the joined text is empty exactly when there are no failures; a single failure gives exactly "path: message"; with more than one, the first failure's "path: message" is followed by ", " and the rest joined the same way (`errors.join(", ")`) |
| UserModel.Matches | backend/models/user.model.js:66-68 | a candidate matches a stored secret exactly when the secret is a bcrypt digest of that plaintext |
| UserModel.ComparePassword | backend/models/user.model.js:66-68 | a missing candidate throws (bcryptjs "Illegal arguments"); otherwise the answer is whether the candidate matches the stored hash |
| UserModel.Create | backend/models/user.model.js:47-62 | creation succeeds exactly when validation does, and the saved password matches the given plaintext and no other |
| UserModel.UserDocument.constructor | backend/models/user.model.js:6-44 | a new document holds the given fields and counts its password as modified |
| UserModel.UserDocument.PreSave | backend/models/user.model.js:47-62 | the password is left untouched when not modified and replaced by its hash when modified |
| Controller.AuthController.FindOne | backend/controllers/auth.controller.js:17 | `User.findOne({email})` finds a record exactly when some record's stored email equals the normalised query; the record found is in the table and has that email; no email finds nobody |
| Protocol.FindByEmailFinds | backend/models/user.model.js:16-18 | in a table keyed by normalised email, a query finds a record exactly when some record's email is the normalised query, and the record found is in the table with that email |
| Protocol.StoredRecordFound | backend/controllers/auth.controller.js:17 | every stored record is found again by querying its own stored email |
| Protocol.InsertKeepsTableValid | backend/models/user.model.js:16-18 | inserting a record under its own normalised email keeps every record under its own normalised email |
| Protocol.Signup | backend/controllers/auth.controller.js:10-48 | the answer is 201, 400 or 500; a refusal writes nothing and sets no cookie; success adds a key to the table and sets one cookie effect |
| Protocol.Login | backend/controllers/auth.controller.js:51-87 | the answer is 200, 400 or 500 and the table is never written; a refusal writes nothing and sets no cookie; success answers with the user's public fields, and the cache's keys become the old keys plus that user's refresh key |
| Protocol.Logout | backend/controllers/auth.controller.js:90-117 | the answer is 200 or 500; the table is never written and no cache key is added; the answer is 200 exactly when both cookies are cleared; a 500 writes nothing and sets no cookie; without a refresh cookie nothing is written |
| Protocol.RefreshAccessToken | backend/controllers/auth.controller.js:120-164 | the answer is 200, 401 or 500; only a 200 sets a cookie, and then exactly one, `accessToken` |
| Controller.AuthController.Signup | backend/controllers/auth.controller.js:10-48 | the response and the new table and cache are those of `Protocol.Signup`, and the table stays keyed by email |
| Controller.AuthController.Login | backend/controllers/auth.controller.js:51-87 | the response and the new state are those of `Protocol.Login` |
| Controller.AuthController.Logout | backend/controllers/auth.controller.js:90-117 | the response and the new state are those of `Protocol.Logout` |
| Controller.AuthController.RefreshAccessToken | backend/controllers/auth.controller.js:120-164 | the response is that of `Protocol.RefreshAccessToken`, and the method writes nothing |
| Controller.AuthController.GetProfile | backend/controllers/auth.controller.js:167-173 | answers 200 with the authenticated user as the body and sets no cookie |
| SessionProperties.SignupExistingEmail | backend/controllers/auth.controller.js:17-22 | an email already in use gives 400 "User already exists" and leaves the table and cache unchanged |
| SessionProperties.SignupInvalid | backend/controllers/auth.controller.js:24-46 | fields the schema rejects give 500 with the ValidationError text, no cookie and no write |
| SessionProperties.SignupCreatesOneUser | backend/controllers/auth.controller.js:24-41 | a fresh valid signup adds exactly one customer under the normalised email with a matching hashed password, stores the issued refresh token under the new id, leaves the cache as the old cache with only the new id's key overwritten by the issued refresh token, and answers 201 with `{_id, name, email, role}` and both cookies |
| SessionProperties.SignupKeepsTableInvariants | backend/controllers/auth.controller.js:24 | signup keeps every record under its own normalised email and, with a fresh `_id`, keeps ids distinct |
| SessionProperties.SignupLeavesOtherSessions | backend/controllers/auth.controller.js:30 | a signup never changes what the cache holds for any user other than the new one |
| SessionProperties.SignupThenRefresh | backend/controllers/auth.controller.js:27-33 | refreshing with the refresh token signup issued succeeds while that token is valid, with an access token for the new user |
| SessionProperties.LoginRejected | backend/controllers/auth.controller.js:58-81 | an unknown email or a wrong password gives 400 "Invalid email or password", no cookie, and no write |
| SessionProperties.LoginWithoutPassword | backend/controllers/auth.controller.js:61-85 | a known email with no password makes the hash comparison throw: 500 and no write |
| SessionProperties.LoginIssuesSession | backend/controllers/auth.controller.js:61-77 | correct credentials give 200 with the public fields and both cookies, leave the table unchanged, and overwrite the user's cache entry with the new refresh token |
| SessionProperties.LoginLeavesOtherSessions | backend/controllers/auth.controller.js:66 | a login never changes what the cache holds for another user |
| SessionProperties.LoginThenRefresh | backend/controllers/auth.controller.js:63-69 | login followed by a refresh with the issued token succeeds with an access token for the same user |
| SessionProperties.RotationInvalidatesOlderToken | backend/controllers/auth.controller.js:66 | after two logins of one user in different seconds, the first refresh token, still valid as a token, gets 401 "Invalid refresh token", and the second succeeds |
| SessionProperties.SameSecondLoginsShareToken | backend/utils/tokenUtils.js:13-15 | two logins within one second issue identical tokens, so the earlier one keeps refreshing |
| SessionProperties.RefreshLeavesStateAlone | backend/controllers/auth.controller.js:120-164 | no refresh outcome writes the table or the cache: the refresh token is never rotated |
| SessionProperties.RefreshWithoutCookie | backend/controllers/auth.controller.js:125-130 | a missing or empty refresh cookie gives 401 "No refresh token provided" and no cookie |
| SessionProperties.RefreshUnverifiable | backend/controllers/auth.controller.js:133-162 | a cookie failing verification gives 500 "Server error" with the jwt error text, not 401, and no cookie |
| SessionProperties.RefreshMismatch | backend/controllers/auth.controller.js:135-140 | a verified token whose stored value is absent or different gives 401 "Invalid refresh token" and no cookie |
| SessionProperties.RefreshSucceeds | backend/controllers/auth.controller.js:142-157 | refresh succeeds exactly when the cookie verifies as a refresh token and equals its user's stored token; it then sets only an `accessToken` cookie (httpOnly, secure iff production, strict, 900000 ms) with a new access token for the same user |
| SessionProperties.LogoutWithoutCookie | backend/controllers/auth.controller.js:94-111 | no refresh cookie: the cache is not touched, both cookies are cleared, and the answer is 200 |
| SessionProperties.LogoutUnverifiable | backend/controllers/auth.controller.js:99-116 | a cookie failing verification gives 500, clears no cookie and leaves the state unchanged |
| SessionProperties.LogoutEndsSession | backend/controllers/auth.controller.js:99-111 | a verifiable cookie deletes only its user's cache key, clears both cookies and answers 200; the session is then gone |
| SessionProperties.LogoutIdempotent | backend/controllers/auth.controller.js:94-111 | a second logout with the same cookie at the same instant gives the same answer and removes nothing more |
| SessionProperties.LogoutAgainWritesNothing | backend/controllers/auth.controller.js:94-116 | a second logout with the same cookie at any later time leaves the table and cache as the first left them, even when the cookie has expired in between and the answer becomes 500 |
| SessionProperties.RefreshAfterLogout | backend/controllers/auth.controller.js:104-140 | after logout, refreshing with the same still-valid token gets 401 "Invalid refresh token" |
| SessionProperties.StaleLogoutEndsCurrentSession | backend/controllers/auth.controller.js:97-104 | logout with a superseded but valid refresh token deletes the user's current session, so the newer token no longer refreshes |

## Left out

- `setCookies` (`backend/utils/cokieeUtils.js`) is not part of this model. Its call is recorded as one `SetSession` effect carrying both tokens, with no attributes.
- `protectRoute` (`backend/middleware/auth.middleware.js`) is not part of this model. `GetProfile` takes the user that middleware attaches as a parameter.
- JWT signing internals are not modelled: HMAC-SHA256 (section 3.2 of RFC 7518), base64url and the header. Tamper detection is not modelled bit by bit: any string neither secret signed is one `Opaque` value.
- Jwt.Verify: reports every `Opaque` string as "jwt malformed". jsonwebtoken says "invalid signature" for a well-formed token signed elsewhere, and that message only surfaces in 500 bodies.
- bcrypt's algorithm is not modelled: `Hash` is a free constructor. Its 72-byte truncation and the failure of `genSalt`/`hash` (the `next(error)` branch of the pre-save hook) are left out.
- I/O failures are left out: Redis and Mongo being unavailable, and the duplicate-key error of the unique email index. Sequential handlers never reach that error, because `findOne` runs first.
- Concurrency is left out: `async`/`await`, interleaved requests and the last-write-wins race between simultaneous logins. The handlers are sequential.
- Console logging is left out.
- Time passing within one handler, and any skew between the application's clock and the Redis server's clock, are left out: one `nowMs` serves for every clock read of a handler.
- `backend/server.js` and `backend/routes/auth.route.js` (bootstrap and route wiring) are not part of this model.
- UserModel.ToLower: lowercases ASCII letters only. JavaScript's `toLowerCase` is full Unicode.
- UserModel.Validate: counts password length in Unicode scalar values, not UTF-16 code units. It does not model casting of non-string inputs.
- UserModel.Validate: lists errors in schema order, one per path. The order in which Mongoose joins a ValidationError message is taken to be that order.
- UserModel.CastCartItem: models quantities as integers, not JavaScript numbers.
- Timestamps (`createdAt`, `updatedAt`) are left out.
- Controller.AuthController.FindOne: assumes Mongoose applies the trim and lowercase setters to query filters. It also assumes a filter on an absent email finds no user.
- Redis.Lookup: treats a key as alive up to and including its expiry millisecond. The lazy eviction of expired keys is not modelled.
- `newId` freshness is not checked by `Signup`. The database guarantees distinct `_id`s; `SignupKeepsTableInvariants` assumes it.
