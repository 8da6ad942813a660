# PhishGuard: a verified model of the sign-in flow and the AI chat

PhishGuard is a phishing-awareness app. A React Native client lets customers and
training providers sign in, buy training modules and ask an AI assistant. A FastAPI
server keeps users, roles and wallets in a database. This project models the parts of
both that hold state or enforce rules, and proves what they promise:

- **Chat** (`phishguard/app/ai.tsx`) models the AI chat screen's `onAsk`. It is a class
  holding the input text, the `loading` flag and the append-only list of turns. The
  invariant `WellFormed` says that:
  - the greeting comes first;
  - then each accepted question and its reply alternate, with ids prefixed `u-` and `a-`;
  - the last reply is missing exactly while a request is in flight.
- **Api** (`phishguard/src/api.ts`) models the client's HTTP layer:
  - the secure store, as a key-value map;
  - the axios default `Authorization` header;
  - a ghost log of every request sent, with the header it carried;
  - the token helpers, `login`/`logout`, and the helpers that do or do not refresh the
    header from the store before sending.
- **Session** (`phishguard/src/session.tsx`) models the in-memory `{token, role}` session,
  `signIn`/`signOut`, and the `useSession` guard.
- **Tables** and **Auth** (`server/auth.py`) model the `roles`, `users` and `wallets`
  tables as sequences of rows, in the order a query returns them. `row[0]` is the first
  matching row. On these tables they model:
  - `create_user`, `verify_user`, `user_role`;
  - the claims `make_jwt` signs.
  The invariant `WellKeyed` holds the tables' keys and references.
- **App** (`server/app.py`) models the `/health`, `/auth/register` and `/auth/login`
  handlers.
- **Text** and **Wrappers** are helpers:
  - JavaScript's `trim`;
  - decimal rendering of ids in paths and message ids;
  - ASCII upper-casing;
  - `Option` and `Result`.

Clocks, random salts and server responses are parameters. Hashing and JWT signing are
idealised:
- a hash records the password it was made from, so verification is exact;
- a token records its payload and the secret it was signed with.

## Model

| member | source | states |
|---|---|---|
| Chat.AcceptedQuestion | phishguard/app/ai.tsx:25-26 | a question is accepted exactly when nothing is in flight and the input is not all white space; it is then the trimmed input, non-empty and with no white space at either end |
| Chat.SubmitKeepsWellFormed | phishguard/app/ai.tsx:29-33 | appending the user turn of an accepted question to an idle, well-formed conversation yields a well-formed conversation with the request in flight |
| Chat.ReceiveKeepsWellFormed | phishguard/app/ai.tsx:36-50 | appending an assistant turn to a conversation with a request in flight makes it well formed and idle again |
| Chat.UserTurn | phishguard/app/ai.tsx:29 | the optimistic turn is a user turn holding the question, and its id is `u-` followed by a rendering that parses back to the `Date.now()` it was stamped with |
| Chat.ReplyTurn | phishguard/app/ai.tsx:37-45 | the reply is an assistant turn holding the answer, or the fixed apology when the request threw, and its id is `a-` followed by a rendering that parses back to its time |
| Chat.TurnIdsDistinct | phishguard/app/ai.tsx:13-42 | a user turn's id never equals a reply's id or the greeting's; two turns of the same kind share an id exactly when stamped at the same millisecond, whatever their texts |
| Chat.Conversation.constructor | phishguard/app/ai.tsx:9-17 | the screen starts with an empty input, idle, with only the `sys-hello` greeting |
| Chat.Conversation.Edit | phishguard/app/ai.tsx:115 | typing replaces the input and keeps the conversation well formed |
| Chat.Conversation.Submit | phishguard/app/ai.tsx:24-33 | a rejected question changes nothing; an accepted one appends exactly the user turn with the trimmed question, clears the input and sets `loading` |
| Chat.Conversation.Receive | phishguard/app/ai.tsx:35-50 | exactly one assistant turn, the answer or the fixed apology, is appended; the earlier turns are kept; `loading` is cleared on both paths |
| Chat.Conversation.OnAsk | phishguard/app/ai.tsx:24-51 | an accepted ask grows the turns by exactly two (the user turn, then the reply) and never rewrites an earlier turn; a rejected ask leaves everything as it was |
| Api.Truthy | phishguard/src/api.ts:43 | JavaScript truthiness of a JSON value: `null`, `false`, `0` and `""` are falsy, everything else truthy (used by LoginToken's contract) |
| Api.Member | phishguard/src/api.ts:43 | `data?.token` finds nothing on a value that is not an object; on an object it finds a value exactly when some field carries the key, and that value is stored under the key (LastFieldIsLast says which occurrence) |
| Api.LastField | phishguard/src/api.ts:43 | a field is found exactly when some field has the key, and the value found is stored under that key |
| Api.LastFieldIsLast | phishguard/src/api.ts:43 | the value found is that of the last field with the key, as in a parsed JSON object |
| Api.BearerHeader | phishguard/src/api.ts:28-32 | a header exists exactly when the stored token is present and non-empty; it starts with `Bearer ` and carries exactly that token |
| Api.PurchasePath | phishguard/src/api.ts:84-88 | the path `/purchase/{id}` gives back the module id it was built from |
| Api.ScenariosPath | phishguard/src/api.ts:102-106 | the path `/provider/modules/{id}/scenarios` gives back the module id it was built from |
| Api.ModulePathsInjective | phishguard/src/api.ts:86-104 | distinct module ids give distinct purchase and scenario paths |
| Api.ScenarioBody | phishguard/src/api.ts:104 | the scenario body's `channel`, `prompt` and `correct_choice` members hold the arguments |
| Api.LoginToken | phishguard/src/api.ts:41-43 | a token is taken from a login response exactly when the response arrived and its `token` member is truthy |
| Api.Client.constructor | phishguard/src/api.ts:7-13 | a fresh client keeps the store as it finds it, sets no header and has sent nothing |
| Api.Client.LoadToken | phishguard/src/api.ts:19-21 | the stored token is present exactly when the `phishguard_token` key is, and is that key's value |
| Api.Client.SaveToken | phishguard/src/api.ts:15-17 | only the token key changes, and loading then yields the saved token |
| Api.Client.RemoveToken | phishguard/src/api.ts:23-25 | only the token key is removed, and loading then yields nothing |
| Api.Client.SetAuthHeaderFromStorage | phishguard/src/api.ts:28-32 | the header becomes the one the stored token gives |
| Api.Client.Send | phishguard/src/api.ts:7-10 | a request goes out with the header set at that moment, and its response is returned unmodified |
| Api.Client.SendWithStoredToken | phishguard/src/api.ts:72-113 | the authenticated helpers' pattern: the header sent is the one the stored token gives at that moment |
| Api.Client.Register | phishguard/src/api.ts:35-38 | posts the credentials and role with the current header, without a refresh |
| Api.Client.Login | phishguard/src/api.ts:40-48 | a truthy string token is stored and becomes the `Bearer` header; a truthy non-string token throws and changes nothing; otherwise the store and the header are unchanged; the request carries the old header |
| Api.Client.Logout | phishguard/src/api.ts:50-53 | whatever the state before, no token is stored and no header is set afterwards, so a second logout changes nothing |
| Api.Client.ListModules | phishguard/src/api.ts:56-60 | `GET /modules` with the current header, without a refresh |
| Api.Client.Topup | phishguard/src/api.ts:62-65 | `POST /wallet/topup` with the amount and the current header, without a refresh |
| Api.Client.ListCatalog | phishguard/src/api.ts:67-70 | `GET /catalog/modules` with the current header, without a refresh |
| Api.Client.WalletBalance | phishguard/src/api.ts:72-76 | refreshes the header from the store, then `GET /wallet/balance` with it |
| Api.Client.WalletTopup | phishguard/src/api.ts:78-82 | refreshes the header, then `POST /wallet/topup` with the amount |
| Api.Client.Purchase | phishguard/src/api.ts:84-88 | refreshes the header, then a body-less `POST /purchase/{id}` |
| Api.Client.ProviderListModules | phishguard/src/api.ts:90-94 | refreshes the header, then `GET /provider/modules` |
| Api.Client.ProviderCreateModule | phishguard/src/api.ts:96-100 | refreshes the header, then `POST /provider/modules` with title, description and price |
| Api.Client.ProviderCreateScenario | phishguard/src/api.ts:102-106 | refreshes the header, then posts the scenario body to the module's scenarios path |
| Api.Client.AskAI | phishguard/src/api.ts:109-113 | refreshes the header, then `POST /ai/ask` with the question |
| Session.SessionProvider.constructor | phishguard/src/session.tsx:18-20 | a provider starts signed out, with a consistent session, and has forwarded nothing |
| Session.SessionProvider.SignIn | phishguard/src/session.tsx:25-28 | the session becomes exactly `{token, role}`, which is consistent, and the token is forwarded to the API layer |
| Session.SessionProvider.SignOut | phishguard/src/session.tsx:29-32 | whatever the state before, the session is the initial one again and null is forwarded |
| Session.UseSession | phishguard/src/session.tsx:40-43 | the context is returned exactly when a provider supplies one; otherwise the fixed error |
| Text.Trim | phishguard/app/ai.tsx:25 | the result has no white space at either end and is empty exactly when the input is all white space |
| Text.TrimCutsOnlySpaces | phishguard/app/ai.tsx:25 | the result is a contiguous slice of the input, and every character cut before or after it is white space |
| Text.DecimalRoundTrip | phishguard/src/api.ts:86 | the decimal digits of a natural number parse back to that number |
| Text.IntRoundTrip | phishguard/src/api.ts:86 | an integer rendered as in a template string parses back to itself |
| Text.ToUpper | server/app.py:43 | upper-casing keeps the length, leaves no lower-case letter and changes only lower-case letters |
| Tables.FirstWhere | server/auth.py:11-16 | a query finds a row exactly when some row matches, and the row found is in the table and matches |
| Tables.FirstWhereIsFirst | server/auth.py:14 | the row found is the earliest matching one, as `row[0]` reads it |
| Tables.FirstWhereAppend | server/auth.py:21-25 | an appended row is found only when no earlier row matched |
| Tables.FirstWhereUnique | server/auth.py:29-37 | when exactly one row matches, it is the row found |
| Tables.RoleNamed | server/auth.py:11-13 | `SELECT id FROM roles WHERE name=:n` finds a role exactly when the name is non-empty and some role has it (the empty name binds as NULL in Oracle), and what it finds has that name |
| Tables.UserWithEmail | server/auth.py:16-18 | `SELECT 1 FROM users WHERE email=:e` finds a user exactly when the email is non-empty and some user has it (the empty email is NULL), and what it finds has that email |
| Tables.InsertUserKeepsKeys | server/auth.py:20-25 | inserting a user with a fresh email, an existing role and the next id, plus its wallet, keeps every key unique and every reference valid |
| Tables.InsertedUserFound | server/auth.py:20-26 | after that insertion, the new user is found by its email and its id, its role id finds its role, and its id finds its new wallet |
| Tables.Database.constructor | server/auth.py:10-26 | a database with distinct role ids and no users satisfies the invariant |
| Auth.JwtSecret | server/auth.py:6 | the signing secret is the environment's `JWT_SECRET` when set, and `devsecret` otherwise |
| Auth.VerifyUser | server/auth.py:28-33 | a uid is returned only for a stored user with that email whose hash the password verifies, and never for the empty email (VerifyUserAt and VerifyUserUnknown give both directions) |
| Auth.UserRole | server/auth.py:35-37 | a role is found exactly when some user has the uid, and it is the name of an existing role (UserRoleAt says which) |
| Auth.HashThenVerify | server/auth.py:20-33 | a hash verifies exactly the password it was made from, whatever the salt |
| Auth.MakeJwt | server/auth.py:39-41 | the token's payload is exactly `uid`, `role` and `iat`; it reads back with the signing secret and with no other |
| Auth.CreateUser | server/auth.py:10-26 | an unknown role gives 400 "Invalid role" before the email is checked; a registered email gives 400 "Email already registered"; an empty email then fails the insert with a 500; all three insert nothing; otherwise exactly one user row with the role's id and one zero-credit wallet are appended for the returned uid, other rows are untouched, and that user then verifies with the password and has the role |
| Auth.InsertUser | server/auth.py:20-26 | the inserts of `create_user` for a free, non-empty email: the exact new rows, and the new uid verifies, has its role and owns its wallet |
| Auth.VerifyUserAt | server/auth.py:28-33 | for a registered email, the uid is returned exactly when the password verifies against that user's hash |
| Auth.VerifyUserUnknown | server/auth.py:29-31 | an unknown email yields no uid |
| Auth.UserRoleAt | server/auth.py:35-37 | a user's role is the name of the role row its role id refers to |
| Auth.UserRoleUnknown | server/auth.py:35-37 | no role is found for an id that no user has |
| App.Health | server/app.py:16-18 | the health check always reports `ok` |
| App.RequestedRole | server/app.py:35-43 | `b.role.upper()` on the given or default role: every lower-case ASCII letter becomes its capital, every other character stays in place, so `provider` requests `PROVIDER` |
| App.DefaultRoleIsCustomer | server/app.py:35-43 | an omitted role, or `customer` in lower case, requests `CUSTOMER` |
| App.VerifiedUserHasRole | server/app.py:50-53 | a uid that `verify_user` returns always has a role, so `user_role` does not fail during login |
| App.Login | server/app.py:48-55 | 401 "Bad credentials" exactly when `verify_user` yields no uid or the uid 0; otherwise the role is the verified user's role and the token, read with the `JWT_SECRET` in force, carries that uid, role and `iat` |
| App.LoginAt | server/app.py:48-55 | a registered user logs in exactly when the password matches its hash and its id is not 0, and then receives its own id and role |
| App.LoginUnknown | server/app.py:49-52 | an email nobody registered, and the empty email, always get 401 |
| App.Truthy | server/app.py:51 | Python's `not uid` on `verify_user`'s result: falsy for no uid and for the uid 0 (used by Login's contract) |
| App.Register | server/app.py:41-46 | the role is upper-cased and defaults to `CUSTOMER`; `create_user`'s errors pass through, including the 500 for an empty email; on success the response role is the requested role and the token carries the new uid; that account can then log in with the same credentials, receiving the same response, exactly when its uid is not 0 |

## Left out

- Screen rendering, `scrollToEnd`, navigation and styling are not modelled: they are UI.
- `Date.now()` and `time.time()` are parameters. The uniqueness of the `u-`/`a-` message ids is not claimed, because the code does not guarantee it: `Chat.TurnIdsDistinct` shows ids of one kind differ whenever their times differ, and two turns of one kind stamped in the same millisecond share an id.
- Async interleavings are not modelled, and each operation is atomic. This covers:
  - two screens sharing the global axios header;
  - React's batching of `setMessages`;
  - a second `onAsk` fired before the `loading` update renders.
  `Chat.Conversation.Receive` requires a request in flight. It is only reached as the continuation of an accepted ask.
- `Chat.Conversation.Receive`: `res.answer` is taken to be a string. A response without a string `answer` is not modelled.
- JSON numbers are integers. Fractions, NaN and exponent notation of large numbers are left out, so module ids in paths are integers.
- `Text.ToUpper` upper-cases ASCII letters only. Python's `str.upper()` also maps other Unicode letters, and some of them to several characters.
- `App.RequestedRole` and `App.Register` inherit that gap: a role such as `provıder` (dotless ı) upper-cases to `PROVIDER` in Python, so the server accepts it, while the model answers 400 "Invalid role".
- Hashing and signing are not modelled. argon2 is idealised as collision-free, JWT encoding as a record of payload and secret, and the random salt is a parameter.
- Transport is not modelled: the axios base URL, the 8000 ms timeout, and transport errors beyond a `Network` failure. The secure store's own failures are reduced to rejecting non-string values.
- `setAuthToken` is not defined in `phishguard/src/api.ts`. Its calls from `session.tsx` are recorded in a ghost log, `forwarded`, and have no other effect.
- The connection pool of `server/db.py`, the `/driver/mode` and `/db/ping` routes, and the CORS middleware are not part of this model. Queries are modelled as functions over the rows. Of Oracle's semantics, only one point is kept: an empty string binds as NULL, so a `WHERE` on an empty email or role name matches nothing.
- `Auth.CreateUser`, `Auth.InsertUser` and `App.Register`: the table schema is not part of this model. The `users.email` column is taken to be NOT NULL, so an empty email fails the INSERT and nothing is committed. If the column were nullable, the source would instead commit a user row without a wallet, then fail the read-back at `server/auth.py:24`. Both paths answer 500; the model keeps only the first.
- The database is the three tables used here. Identity-column gaps and concurrent registrations are not modelled: each new user receives `nextUserId`.
- `Auth.UserRole` and `App.Login`: `user_role` raises an `IndexError` (a 500) for a uid with no user. The model returns no role there. The table invariant shows that this never happens on the paths of `register` and `login`.
- `Tables.FirstWhere` states membership and matching. That the row found is the first is stated separately by `Tables.FirstWhereIsFirst`.
- `Api.LastField` likewise leaves "last occurrence" to `Api.LastFieldIsLast`.
- The other screens' imports that `api.ts` does not define (`createModule`, `createScenario`, `getScenarios`, `attemptScenario`) are not part of this model.
