# Access gate and user accounts of the Pislager server

This project models, in Dafny, the access control of the Pislager inventory
server (`server.js`): the table of user accounts, the session user named by
the `user` cookie, the middleware that refuses API requests while a user must
change their password, the `authorize(permission)` capability check, and the
four account routes: login, `/api/me`, change-password and the admin
password reset.

- `accounts.dfy` (module `Accounts`): user records; `find` as the first match;
  the cookie read as `req.cookies.user || null`; `getPermissions`.
- `http.dfy` (module `Http`): the replies, status codes and error texts.
- `gate.dfy` (module `Gate`): the password-change middleware, `authorize`, and
  the two chained in registration order.
- `handlers.dfy` (module `Handlers`): login and `/api/me` as functions over the
  table. A class `UserStore` holds the `users` collection. Its
  `ChangePassword` and `ResetPassword` methods update the first matching
  record in place. Its `Handle` method runs one request through the
  middleware and then the route.

The stored `mustChangePassword` is modelled by its truthiness, a `bool`.
A user's permissions are modelled as that record's own boolean flags: a
permission is granted when its name is a key of the record's `permissions`
with the value `true` (see `Gate.Authorize` under "## Left out").

The capability guarding the admin reset is `reset-password` (server.js:132).

`server.js` has no article or booking routes; lines 145-146 are only a
placeholder comment.

## Model

| member | source | states |
|---|---|---|
| `Accounts.FirstMatch` | server.js:44 | `find`: the result is the index of an element satisfying the predicate with none before it; None exactly when no element satisfies it |
| `Accounts.FindByName` | server.js:121 | the lookup by username gives the first record with that name; None exactly when no record has it |
| `Accounts.CookieUser` | server.js:42 | a session name exists exactly when the cookie is present and non-empty, and it is the cookie's value |
| `Accounts.SessionIndex` | server.js:53 | the session record is the first record named by a present, non-empty cookie; None exactly when the cookie is absent, empty, or names no record |
| `Accounts.GetPermissions` | server.js:43-46 | no session user gives `{}`; otherwise the permissions of the first record named by the cookie |
| `Gate.PasswordGate` | server.js:49-59 | refuses (403, must-change text) exactly when the path starts with `/api`, is not one of the three open paths, and the first record named by a non-empty cookie has `mustChangePassword`; otherwise `next()` |
| `Gate.Authorize` | server.js:62-68 | lets the request on exactly when the first record named by a non-empty cookie grants the permission; otherwise 403 naming the permission |
| `Gate.Admit` | server.js:49-68 | the request goes on exactly when the first record named by a non-empty cookie grants the permission and is not a must-change user on a gated path; a refusal carries the must-change text exactly when the path is gated and that user must change their password, and the missing permission's text otherwise |
| `Gate.OpenPathsPass` | server.js:50-51 | paths outside `/api`, and the three open paths, are never refused by the gate |
| `Gate.OpenPathsExact` | server.js:50-51 | open paths match exactly: every path longer than an open path that starts with it is an `/api` path outside the open list, refused exactly when the first record named by a non-empty cookie must change its password |
| `Gate.NoSessionNoPermission` | server.js:43-67 | a missing, empty or unknown cookie gets `{}` and is refused every modelled permission flag with 403 |
| `Gate.GateBeforeCapability` | server.js:49-68 | a user who must change their password is refused by the gate on a gated path even though the capability check alone would admit them |
| `Handlers.Login` | server.js:73-89 | fails with 401 exactly when no record has both the username and the password; otherwise reports the first such record's name, role, permissions and `!!mustChangePassword` |
| `Handlers.Me` | server.js:100-112 | 401 exactly when there is no session user; otherwise the first record named by the cookie |
| `Handlers.UserStore.constructor` | server.js:33-38 | the store starts with the table read from the document store |
| `Handlers.UserStore.ChangePassword` | server.js:117-129 | with a session user: `{ success: true }`, that record's password is the new one and its flag false, every other record unchanged; without one: 401 and the table unchanged |
| `Handlers.UserStore.ResetPassword` | server.js:133-143 | with a record named by the target: success, its password is the new one and its flag true, every other record unchanged; otherwise 404 and the table unchanged |
| `Handlers.UserStore.Handle` | server.js:49-143 | a gate refusal answers 403 and writes nothing; login, logout, `/api/me` and unrouted requests never change the table; the reset runs only if the gate and then `authorize('reset-password')` admit it |
| `Handlers.AccountRoutesOpen` | server.js:50-51 | login, logout and change-password are never refused by the gate |
| `Handlers.MeRefusedWhileMustChange` | server.js:50-56 | `/api/me` is gated: a user who must change their password gets 403 there |
| `Handlers.ResetRefusedWhileMustChange` | server.js:132 | the admin reset route is refused by the gate (must-change text), not by the capability check, for a user who must change their password |
| `Handlers.PasswordSetKeepsSessions` | server.js:125-140 | setting a password changes no username, so every cookie names the same record before and after |
| `Handlers.PasswordSetKeepsUniqueNames` | server.js:125-140 | the two updates keep usernames unique |
| `Handlers.FirstNamedLogsIn` | server.js:76-88 | the first record with a username logs in with its own password and the reply describes that record |
| `Handlers.ChangePasswordLiftsGate` | server.js:117-129 | after a change the user passes the gate on every path and logs in with the new password with `mustChangePassword: false` |
| `Handlers.ChangePasswordNeedsSession` | server.js:119-124 | without a session user (absent or empty cookie, or one naming no record) change-password answers 401 and writes nothing |
| `Handlers.ResetBlocksTarget` | server.js:132-143 | after a reset the target logs in with the new password, is told `mustChangePassword: true`, and is refused on every gated API path |
| `Handlers.ResetUnknownTarget` | server.js:135-138 | an unknown target gets 404 and nothing is written |
| `Handlers.LoginMatchesSession` | server.js:50-111 | with unique usernames, the `/api/me` handler after a login reports exactly what the login reported; the `/api/me` route lets the request through to it exactly when login reported `mustChangePassword: false`, and otherwise answers 403 with the must-change text |
| `Handlers.LoginSessionSplit` | server.js:42-102 | when the first record with the given credentials is not the first record with that username, login reports the former while the cookie, `/api/me` and `authorize` resolve to the latter |
| `Handlers.DuplicateNamesSplitSession` | server.js:76-102 | an instance: with two records named `anna`, logging in with the second one's password reports the second record (role `user`, no permissions), while `/api/me` reports the first (`admin`) and `authorize('reset-password')` admits the session |

## Left out

- Cookie issuance and clearing on login and logout (server.js:80-82, 92-97):
  the cookie is an optional username given with each request, and logout is
  modelled only by its `{ success: true }` reply.
- The document store's file I/O: creating the data directory, copying the seed
  file, `db.read()` and `db.write()` (server.js:21-39 and the reads and writes
  in the handlers). The user table is in-memory state; the other collections
  of the document are not part of this model, and the methods change only
  `users`.
- Express plumbing: `next()` chaining is modelled by `Gate.Verdict` and
  `UserStore.Handle`; static file serving, the SPA fallback and `listen`
  (server.js:18, 149-158) are not modelled. A request the account routes do
  not answer ends as `NoRoute`.
- Express route matching is case-insensitive and ignores a trailing slash by
  default, while the gate compares `req.path` exactly. A path such as
  `/API/me` can therefore reach a handler without the gate seeing an `/api`
  prefix. The model identifies each route with its exact lower-case path, so
  it does not capture this.
- Request bodies and cookies are strings. Missing or non-string JSON fields
  (an `undefined` username or new password, a JSON cookie decoded into an
  object) are not modelled.
- Gate.Authorize: permissions are modelled as the record's own boolean
  flags. In the source `perms[permission]` also reads names inherited from
  `Object.prototype` (such as `constructor` or `toString`), which are truthy
  even on `{}`, and treats non-boolean truthy values such as `1` as granted;
  neither is captured. The only guarded route asks for `reset-password`,
  which is not such a name.
- Gate.NoSessionNoPermission: for the same reason it covers only permission
  names that are not inherited object properties.
- A user record always has a `permissions` object. A record without one would
  make `authorize` throw; that is not modelled.
- Concurrent requests interleaving between `db.read()` and `db.write()`: each
  request runs to completion on its own.
- The browser client (`public/js/app.js`) is not part of this model.
