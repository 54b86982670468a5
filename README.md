# News summarizer backend: accounts, refresh tokens, article cache

This project models the backend core of the news summarizer and proves properties of it in Dafny:

- **The account and refresh-token state machine** of the user routes. The users collection is a map from document id to `User` record, and each record has one refresh-token slot. The handlers are `register_user`, `login_user`, `logout_user`, `refresh_token`, `get_current_user`, `read_me` and `delete_user`.
- **The token layer beneath it.** This covers password hashing and the JSON Web Tokens (RFC 7519) with their `exp`, `iat`, `sub`, `jti` and private `type` claims.
- **The article routes.** These are the URL-keyed scrape cache `ARTICLE_CACHE` and the reshaping of the upstream news listing.
- **The settings.** These are the defaults and the `ALLOWED_ORIGINS` validator.

Modules:

- `Common` (common.dfy): `Option`, `Result`, and HTTP errors as status plus detail.
- `Config` (config.dfy): the `Settings` record and its defaults, and `ALLOWED_ORIGINS` splitting with its round trip.
- `Auth` (auth.dfy): password hashing, token claims, encoding and decoding, and token lifetimes.
- `UserModel` (user_model.dfy): the `User` document, ObjectId text and parsing, and the unique indexes.
- `UserRoutes` (users_spec.dfy): each user handler as a function from the collection to a reply and the next collection.
- `UserRoutesProperties` (users_props.dfy): the account invariant, request sequences, and the proofs that a rotated-out or logged-out refresh token is never accepted again.
- `UserService` (users_service.dfy): the handlers as methods of a `Users` class that updates its `accounts` map in place. Each method is proved to agree with the matching `UserRoutes` function and to keep the invariant.
- `ArticleRoutes` (articles.dfy): the detail handler as an `ArticleCache` class over a map, its specification function and cache lemmas, and the listing reshaping.

How the environment enters the model:

- The clock is an integer parameter `now`, in whole seconds.
- `uuid.uuid4()` is a counter `nextJti` held in the store. An access token takes the next id and its refresh token the one after.
- The id that the database driver gives a new document is a parameter, `newId`, required to be absent from the collection.
- The Argon2 salt is a parameter.
- The document that `find_one` returns is a parameter too, constrained to be a matching document, or none when nothing matches.
- The scraper is a function parameter, and the news API's reply is an input.

Signing and hashing are modelled by their ideal behaviour:

- A token is the value built from its claims, key and algorithm.
- Decoding returns the claims of a token that was signed with the configured key and algorithm and has not expired.
- A password hash records the password it came from.

Behaviour of the code that a reader might not expect, which the model keeps:

- **Undecodable access token.** `get_current_user` (backend/routes/users.py:217) does not catch a decode failure, unlike `refresh_token` (backend/routes/users.py:149-155). A bad or expired access cookie therefore ends in an unhandled exception, which FastAPI answers with 500 "Internal Server Error", not 401. `CurrentUser` answers `UnhandledException` there.
- **Lenient id parsing.** `PydanticObjectId(text)` is bson's `ObjectId`. It checks only that the text has 24 characters, then decodes it with `bytes.fromhex`, which skips ASCII whitespace before any pair of digits. So a 24-character text such as 22 digits followed by two spaces passes the id check as a shorter, 11-byte id, where a malformed id would get "Invalid user id". `ParseObjectId` models this. What the database does with a short id depends on the driver and is not modelled: in the model a short id names no document, so the handlers answer 404 "User not found", as `PaddedIdIsNotFound` shows for `delete_user`.
- **Which routes are modelled.** The model follows `backend/routes/users.py` and `backend/routes/articles.py` as written, although `backend/main.py` mounts the `routers` package.

## Model

| member | source | states |
|---|---|---|
| Config.SettingsFromEnvironment | backend/core/config.py:6-16 | API prefix "/api", debug off, database "news_app", algorithm "HS256", 15-minute access and 7-day refresh lifetimes; the three required variables are taken as given; the origins list joins back to the raw text and is empty for empty text |
| Config.ParseAllowedOrigins | backend/core/config.py:18-20 | empty text gives no origins; other text gives one more piece than it has commas, no piece holds a comma, and joining the pieces with "," gives the text back |
| Config.Split | backend/core/config.py:20 | `str.split(",")` yields exactly one more piece than the text has commas |
| Config.PartsHaveNoComma | backend/core/config.py:20 | no piece of a split contains a comma (empty and untrimmed pieces are kept) |
| Config.JoinSplit | backend/core/config.py:20 | joining the pieces of a split with "," gives back the original text |
| Config.SplitJoin | backend/core/config.py:20 | splitting comma-free pieces joined with "," gives back exactly those pieces |
| Config.OriginsRoundTrip | backend/core/config.py:18-20 | a non-empty list of comma-free origins written out as ALLOWED_ORIGINS parses back to the same list |
| Auth.HashPassword | backend/utils/auth.py:12-17 | the hash verifies against the password it was made from and against no other password, and carries the salt drawn for the call |
| Auth.VerifyPassword | backend/utils/auth.py:16-17 | a password verifies against a hash exactly when the hash is the one made from that password with the hash's own salt |
| Auth.Encode | backend/utils/auth.py:33 | the token determines the claims, key and algorithm it was made from |
| Auth.DecodeToken | backend/utils/auth.py:57-62 | a successful decode means the token was encoded from exactly the returned claims with the configured secret and algorithm, and has not expired at `now` |
| Auth.DecodeEncode | backend/utils/auth.py:57-62 | decoding a token signed with the configured key and algorithm gives its claims up to and including its expiry time, and the expired error after it |
| Auth.Lifetime | backend/utils/auth.py:22-25 | a missing or zero `expires_delta` is falsy and falls back to the configured default; any other delta is used as given |
| Auth.CreateAccessToken | backend/utils/auth.py:20-35 | claims are exp, iat = now, sub = subject and the given jti, with no "type"; exp = iat + lifetime; the token decodes to its claims at every time up to exp and is rejected as expired after |
| Auth.CreateRefreshToken | backend/utils/auth.py:38-54 | claims are exp, iat = now, sub, jti and type "refresh"; exp = iat + lifetime (7 days by default); decodes to its claims until exp, expired after |
| Auth.DefaultLifetimes | backend/utils/auth.py:24-25 | with default settings an access token expires 900 s and a refresh token 604800 s after issue, and a zero delta gives the same token as no delta |
| Auth.FreshIdsGiveDistinctTokens | backend/utils/auth.py:31 | tokens drawn with different ids differ whatever their subject, time and delta, and an access token never equals a refresh token |
| UserModel.FromHex | backend/routes/users.py:171-177 | `bytes.fromhex`: the result is an even number of lower-case digits no longer than the text; an even run of hexadecimal digits is always accepted and gives those digits in lower case; a result as long as the text means the text was all digits |
| UserModel.ParseObjectId | backend/routes/users.py:171-177 | `PydanticObjectId(s)` accepts only 24-character texts, and gives at most 24 lower-case digits; it gives a full 12-byte id exactly when the text is 24 hexadecimal digits (in either case), and then the id is that text in lower case |
| UserModel.FromHexSkipsTrailingSpace | backend/routes/users.py:171-177 | an even run of lower-case digits followed by any ASCII whitespace decodes to exactly those digits |
| UserModel.PaddedTextParsesToShortId | backend/routes/users.py:254-260 | the 24-character text of 22 digits and two spaces is accepted, and gives an 11-byte id that is not a full ObjectId |
| UserModel.ParseObjectIdText | backend/routes/users.py:28 | parsing the text `str(id)` of a document id gives back that id |
| UserModel.NewAccount | backend/models/user.py:7-20 | a new document has the given names, email, hash and creation time, no refresh token and no saved articles |
| UserRoutes.Register | backend/routes/users.py:34-66 | fails with 400 "Email or username already exists" and no change exactly when some account has the same email or the same username; otherwise adds exactly the new document (names, email, username, a hash that verifies only the given password, no refresh token, no saved articles) and changes no other account |
| UserRoutes.Login | backend/routes/users.py:69-121 | fails with the same 401 "Invalid credentials" and no change both when no account matches the identifier as email or username and when the password does not verify; on success the matched account's slot becomes exactly the refresh cookie handed back, nothing else changes, and the cookies are the access and refresh tokens `create_access_token`/`create_refresh_token` make for the account id at `now` with no delta (so default lifetimes) and fresh ids |
| UserRoutes.Refresh | backend/routes/users.py:143-203 | checks in order (decode 401, type 400, missing sub 401, bad id 400, unknown account 404, token differs from the stored slot 401), each failure leaving the store unchanged; succeeds exactly when every check passes, and then rotates the slot to the new refresh token and returns as "bearer" the pair made for the token's own "sub" text at `now` with default lifetimes and fresh ids |
| UserRoutes.CurrentUser | backend/routes/users.py:206-240 | a missing or empty cookie gives 401 "Not authenticated"; an undecodable token gives an unhandled exception (500); missing sub 401, bad id 401, unknown account 404; success exactly when the token decodes and its sub names an existing account, whose id is returned; the "type" claim is not looked at |
| UserRoutes.Me | backend/routes/users.py:243-247 | fails exactly when the current-user lookup fails, with its error; otherwise returns that account's id, email and username |
| UserRoutes.Logout | backend/routes/users.py:124-141 | fails with the current-user error and no change; otherwise clears the current account's refresh slot and changes nothing else |
| UserRoutes.Delete | backend/routes/users.py:250-271 | 400 for a text the id parser refuses and 404 for an id no document has (in the model, this includes every short id from a padded text), with no change; otherwise removes exactly that account and leaves every other as it was |
| UserRoutes.ToResponse | backend/routes/users.py:26-31 | the response carries the document's id, email and username and no message |
| UserRoutesProperties.RegisterKeepsInv | backend/models/user.py:11-12 | a successful registration keeps usernames and emails unique and keeps every stored refresh token issued and distinct |
| UserRoutesProperties.LoginKeepsInv | backend/routes/users.py:90-95 | storing the login refresh token keeps stored refresh tokens pairwise distinct and issued |
| UserRoutesProperties.RefreshKeepsInv | backend/routes/users.py:196-201 | rotation keeps stored refresh tokens pairwise distinct and issued |
| UserRoutesProperties.ApplyKeepsInv | backend/routes/users.py:34-271 | every admissible request to the user routes keeps the account invariant |
| UserRoutesProperties.RetiredIsRejected | backend/routes/users.py:187-193 | a token that was issued but is held by no account is refused by refresh at any time, and the store is unchanged |
| UserRoutesProperties.ApplyKeepsRetired | backend/routes/users.py:94 | no request puts a retired token back into a slot, since every token written has a fresh id |
| UserRoutesProperties.RetiredForever | backend/routes/users.py:188-201 | along any sequence of requests the invariant holds and a retired token stays retired |
| UserRoutesProperties.RefreshRetiresPresented | backend/routes/users.py:196-201 | after a successful refresh the presented token is held by no account |
| UserRoutesProperties.SupersededTokenNeverAcceptedAgain | backend/routes/users.py:188-203 | once a refresh token has been exchanged, every later refresh with it, after any requests and at any time, fails and changes nothing; while it still decodes and its account exists, it fails the stored-token comparison with 401 "Refresh token invalid" |
| UserRoutesProperties.LogoutRetiresStored | backend/routes/users.py:129-133 | logout leaves the account's previous refresh token held by no account |
| UserRoutesProperties.LoggedOutTokenNeverAccepted | backend/routes/users.py:129-133 | the refresh token held at logout is refused by every later refresh, after any requests |
| UserRoutesProperties.ApplyKeepsSlotEmpty | backend/routes/users.py:132 | an empty refresh slot stays empty under every request other than a login of that account |
| UserRoutesProperties.EmptySlotUntilLogin | backend/routes/users.py:132 | after logout the account's slot stays empty along any requests that contain no login of it |
| UserRoutesProperties.NoRefreshAfterLogoutUntilLogin | backend/routes/users.py:188-193 | after logout every refresh naming the account fails until it logs in again, and a decodable refresh-typed token for it fails with "Refresh token invalid" |
| UserRoutesProperties.LogoutIdempotent | backend/routes/users.py:124-141 | logging out a second time with the same cookie gives the same reply and changes nothing further |
| UserRoutesProperties.LoginThenRefresh | backend/routes/users.py:90-203 | the login refresh cookie is accepted while unexpired; the token it is exchanged for is accepted in turn while unexpired, and the login cookie is refused afterwards, with 401 "Refresh token invalid" while it is unexpired |
| UserRoutesProperties.RefreshCookieAuthenticates | backend/routes/users.py:217-232 | because the "type" claim is not checked, the refresh cookie from login authenticates as the logged-in account |
| UserRoutesProperties.LoginAccessCookieAuthenticates | backend/routes/users.py:90-91 | with default settings the login cookies expire 900 s and 604800 s after login; the access cookie authenticates as the account up to its expiry and fails with an unhandled exception after it |
| UserRoutesProperties.PaddedIdIsNotFound | backend/routes/users.py:250-267 | in the model, where a short id names no document, deleting by a whitespace-padded 24-character id passes the id check and answers 404 "User not found", not 400, and changes nothing |
| UserRoutesProperties.RegisteredAccountIsFound | backend/routes/users.py:40-44 | after registering, a login lookup by the new email finds the new account, or an older account whose username is that email, which the registration check does not compare against |
| UserRoutesProperties.ResponseHidesSecrets | backend/routes/users.py:26-31 | the public response depends on the id, email and username only, never on the password hash or refresh token |
| UserService.Users.FindOne | backend/routes/users.py:40-42 | answers nothing exactly when no document has the email or the username; otherwise a document that has one of them |
| UserService.Users.RegisterUser | backend/routes/users.py:34-66 | the reply and the new collection are those of `Register`, and the account invariant is kept |
| UserService.Users.LoginUser | backend/routes/users.py:69-121 | the lookup answer matches the identifier; the reply and the new collection are those of `Login`; the invariant is kept |
| UserService.Users.GetCurrentUser | backend/routes/users.py:206-240 | returns what `CurrentUser` gives for the collection, without changing it |
| UserService.Users.ReadMe | backend/routes/users.py:243-247 | returns what `Me` gives for the collection |
| UserService.Users.LogoutUser | backend/routes/users.py:124-141 | the reply and the new collection are those of `Logout`; the invariant is kept |
| UserService.Users.RefreshToken | backend/routes/users.py:143-203 | the reply and the new collection are those of `Refresh`; the invariant is kept |
| UserService.Users.DeleteUser | backend/routes/users.py:250-271 | the reply and the new collection are those of `Delete`; the invariant is kept |
| UserService.RotationScenario | backend/routes/users.py:34-203 | on a fresh collection, register then log in by username: exchanging the login refresh cookie succeeds, and presenting it again fails with "Refresh token invalid" |
| ArticleRoutes.ArticleDetailStep | backend/routes/articles.py:15-38 | scrapes exactly on a cache miss; a hit returns the cached record with the cache unchanged; a failed scrape gives 500 and is not cached; a successful one adds exactly that URL's record and returns it; existing entries are never changed |
| ArticleRoutes.ToDetail | backend/routes/articles.py:28-34 | the record has the scraped title, text, top image and authors, and the publish date as text, "None" when there is none |
| ArticleRoutes.ArticleCache.GetArticleDetail | backend/routes/articles.py:15-38 | the reply and the new cache are those of `ArticleDetailStep` on the old cache |
| ArticleRoutes.SecondRequestHitsCache | backend/routes/articles.py:18-19 | after a successful request, a second request for the same URL returns the identical record without scraping, whatever the scraper would now do |
| ArticleRoutes.FailureIsNotSticky | backend/routes/articles.py:21-26 | after a failed scrape the next request for the URL scrapes again and returns its success |
| ArticleRoutes.CachedEntryIsPermanent | backend/routes/articles.py:12-38 | along any sequence of detail requests a cached entry is never overwritten or removed, and every request for its URL returns it |
| ArticleRoutes.Summaries | backend/routes/articles.py:63-73 | one summary per upstream article; the i-th has id i and the title, description, image, source name and url of the i-th article |
| ArticleRoutes.GetArticles | backend/routes/articles.py:57-73 | an upstream status other than 200 gives 502 "Failed to fetch news articles", and only then; a missing "articles" key gives an empty list; otherwise exactly the summaries of the upstream articles |
| ArticleRoutes.SummariesOfPrefix | backend/routes/articles.py:63-73 | summaries are positional: appending upstream articles leaves the earlier summaries unchanged, and no two summaries are equal |

## Left out

- HTTP plumbing is left out: routing, status codes on success, cookie options, and `set_cookie`/`delete_cookie` (backend/routes/users.py:97-114, 136-137). Handlers return a result value. The cookies set at login are the two tokens in `LoginReply`.
- MongoDB and Beanie I/O (`insert`, `save`, `get`, `delete`, `find_one`) are replaced by an in-memory map. The index declarations become the invariant `UniqueUsernamesAndEmails`.
- `UserRoutes.Register` and `UserService.Users.RegisterUser` require the new document id to be absent from the collection. The driver generates it, so a clash with an existing id is not modelled.
- `UserRoutes.Login` receives the answer of the `Or(email, username)` lookup as a parameter. When one account has the identifier as its email and another as its username, the model does not say which of the two the database returns.
- python-jose signing (HS256, section 3.2 of RFC 7518) and Argon2 via passlib are foreign code, modelled by their ideal behaviour:
  - a forged or malformed token never decodes;
  - a hash determines its password.
  
  Token byte formats, base64 and the hardness of inverting the hash are not modelled.
- The clock is left out:
  - Time is one integer clock in whole seconds.
  - The code takes `datetime.utcnow()` for access tokens and `datetime.now()` for refresh tokens. On a host not set to UTC, that shifts a refresh token's expiry by the zone offset, which the model does not capture.
  - python-jose drops sub-second parts of "exp" and "iat", and the model has none.
- `Auth.CreateAccessToken`, `Auth.CreateRefreshToken` and `Auth.Lifetime` take `expires_delta` as whole seconds. A timedelta that is non-zero but shorter than a second is truthy in the code and zero here.
- `uuid.uuid4()` is a counter, so ids are unique by construction. The code relies on random 122-bit ids not colliding.
- Concurrency is left out. Handlers run one at a time. Under concurrent requests, the check-then-insert in `register_user` and the read-compare-write in `refresh_token` could interleave; the model does not capture this.
- `print(ARTICLE_CACHE)` (backend/routes/articles.py:37) is logging and is left out.
- The news API request (URL, query parameters, API key) and `newspaper.Article` download and parsing are left out. The reply and the scraper are inputs.
- `ArticleRoutes.GetArticles` assumes that every upstream article carries the keys it reads, and that "articles", when present, is a list. A missing key, a null "source", or `"articles": null` (on which `enumerate` raises, backend/routes/articles.py:72) would make the code raise and answer 500; the model does not represent these cases.
- The `routers` package (backend/routers/users.py, backend/routers/articles.py) is not part of this model. It is legacy code: backend/main.py:5 and 25-26 mount it, but its users router is truncated and its articles router is a bare proxy.
- backend/models/users.py, backend/models/article.py and the frontend are not part of this model: they are unused records or UI code.
- The pydantic classes of backend/schemas/users.py are used by the handlers but disagree with them, and are not modelled. The model uses the fields the handlers read and the replies they build. As written:
  - `UserRegisterRequest` has only `email` and `password`, so the first read of a missing field, `body.username` at backend/routes/users.py:41, would raise;
  - `UserLoginRequest` has `email` where the handler reads `emailOrUsername`;
  - the schema's `UserResponse` has only `id` and `email`, and pydantic drops the other keyword arguments. So every `UserResponse` the handlers build (register, login and `_user_dict_to_response`) keeps only `id` and `email`, with or without `response_model`. The model keeps all the arguments the handlers pass, `username` and `message` included.
  
  `TokenResponse.tokenType` is "bearer", the schema's default.
- `UserRoutes.Delete`, `UserRoutes.Refresh` and `UserRoutes.CurrentUser` assume that looking up a short id, one parsed from a whitespace-padded text, finds no document. The driver's encoding of such an id is not modelled. An encoder that pads it to 12 bytes could find and delete the document whose id is the digits followed by "00"; another could make the query fail.
- `UserRoutesProperties.PaddedIdIsNotFound` holds under that same assumption: its 404 is the model's answer for a short id, not a behaviour the source guarantees.
- `UserModel.ParseObjectId` rejects every non-ASCII text. `bytes.fromhex` does too, so this is faithful; the model does not cover any other input type `PydanticObjectId` accepts, such as bytes.
- `saved_articles` and `created_at` are stored but never read by the core. `created_at` is given the request's clock value.
