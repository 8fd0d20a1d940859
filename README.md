# Scoreboard service backend, modelled in Dafny

The backend is a small web service. Users register a username and password, log in to get a bearer token, and post integer scores. Anyone can list the scores and the users. All state lives in two process-global stores:

- `fake_users_db` is a dict from username to a `UserInDB` row holding the bcrypt hash.
- `scores` is an append-only list of `{username, score}` records.

The model is one module, `App` (`app.dfy`), plus a helper module `Wrappers` (`wrappers.dfy`) with `Option` and `Result`.

- The two stores are fields of `class Server`. The dict's insertion order, which `GET /users` exposes, is kept as a third field `order`.
- The two routes that mutate, `register_user` and `post_score`, are methods with `modifies this`.
- The reading routes (`get_scores`, `get_current_user`, `login_for_access_token`, `get_users`) and `create_access_token` are functions.
- HTTP errors are `Result` failures. Each carries the source's status, detail text and `WWW-Authenticate` header.

Library calls become parameters:

- bcrypt is a `PasswordContext` holding two function values: `hash(password, salt)` and `verify(plain, hashed)`. The random salt bcrypt would draw is a parameter of `Register`.
- `datetime.utcnow()` is an integer clock `now`, in seconds.
- A token is the triple that `jwt.encode` signs: claims, key and algorithm.
- `jwt.decode` (signature and expiry check) enters `GetCurrentUser` and `PostScore` as its outcome, `Option<Payload>`. `None` stands for a `JWTError`.

The `Server.Valid()` invariant is kept by every route. It says:

- usernames are unique;
- every row is stored under its own username;
- `order` lists exactly the keys;
- every ledger entry names a registered user. This holds because users are never removed.

Token lifetime: the login route asks for 30 minutes. `create_access_token` falls back to 15 minutes when it gets no lifetime or a zero one, since `timedelta(0)` is falsy. The model keeps both values exactly as the code has them and does not choose one default.

## Model

| member | source | states |
|---|---|---|
| App.CreateAccessToken | backend/app.py:57-65 | the token is signed with key "secret" and HS256; "exp" is now + expires_delta when that is present and non-zero, else now + 15 minutes; every other claim of `data` is carried over unchanged and no other claim is added |
| App.Listing | backend/app.py:143-144 | the projection has one entry per listed key, in that order, with the row's username and its stored hash in the password field |
| App.Server.constructor | backend/app.py:37-41 | the ledger and the credential table both start empty |
| App.Server.Register | backend/app.py:116-123 | a taken username gives the 400 "Username already registered" and leaves the table (stored hash included), the order and the ledger unchanged; otherwise exactly one row `UserInDB(username, hash(password, salt))` is added, every other row is unchanged, the ledger is untouched, the response echoes the request body with its plaintext password, and the invariant is kept |
| App.Server.GetCurrentUser | backend/app.py:67-83 | succeeds exactly when decoding succeeded, the payload has a string "sub" and that name is a key of the table, and then returns that row, whose username is the subject; every failure (decode error, missing subject, unknown user) is the same 401 "Could not validate credentials" with a Bearer challenge |
| App.Server.GetScores | backend/app.py:104-107 | returns the ledger entry for entry in insertion order; under the invariant every entry names a registered user |
| App.Server.PostScore | backend/app.py:109-114 | when the caller does not authenticate: the 401 and no change; otherwise exactly one entry is appended at the end, holding the authenticated user's name (the body's username is ignored) and the body's score, with earlier entries unchanged; the credential table is never changed |
| App.Server.Login | backend/app.py:125-139 | fails exactly when the username is unknown or the password does not verify against the stored hash, with the 400 "Incorrect username or password"; on success the response has token_type "bearer" and a token signed with the server key whose claims are exactly the stored username as "sub" and now + 30 minutes as "exp" |
| App.Server.GetUsers | backend/app.py:141-144 | one entry per stored user, in registration order, with no username twice and as many entries as users; each entry's password field is that user's stored hash |
| App.IssuedTokenResolves | backend/app.py:128-139 | the claims of a token that login issued resolve, through get_current_user, to the row of the user who logged in, whose stored username is the one given at login |
| App.RegisteredPasswordLogsIn | backend/app.py:121-129 | when bcrypt's verify accepts every hash it made, a row stored as hash(password, salt) accepts a login with that password |
| App.AliceScenario | backend/app.py:105-144 | registering alice with pw123, logging in and posting 42 with her token leaves the ledger exactly [alice: 42], even when the body names another user; the user listing is exactly alice with her stored hash as password |

## Left out

- FastAPI wiring is not modelled: decorators, dependency injection, request validation, response-model coercion and CORS (backend/app.py:11-20). A missing `Authorization` header gets its own 401 from `OAuth2PasswordBearer`; the model folds it into a failed decode (`None`), which also ends in a 401.
- The static welcome page of `GET /` (backend/app.py:86-102) has no logic and is not modelled.
- bcrypt internals are not modelled. Hashing and verification are function parameters. `Consistent` (a hash verifies against its own password) is a hypothesis of the lemmas that need it. Rejecting other passwords is not assumed, because bcrypt does not promise it beyond 72 bytes.
- JWT encoding, the signature and the expiry check are not modelled. So "a token authenticates until its lifetime elapses, then fails" is not proved. The model only proves that the issued claims name the user and expire 30 minutes after `now`.
- Time is whole seconds. The microsecond part of `utcnow()` and the rounding of `exp` to a whole-second timestamp are not modelled.
- A non-string "sub" claim is treated like a missing one. In the source, jose rejects it at decode time, or the dict lookup misses; both end in the same 401.
- `async` handlers over unsynchronised globals can interleave. Each route is modelled as one atomic step.
- The React front end (frontend/src/login.js, frontend/src/App.js) is UI and HTTP calls and is not part of this model.
- Scores are unbounded integers, as Python's `int` is. No 32-bit range is enforced, because the source enforces none.
