# Login handler and role-authorization hook, modelled in Dafny

This project models the two decision procedures at the core of the application's
authentication:

- **The login handler** (`POST` in `app/api/auth/login/route.ts`) turns a credential pair
  into one of four answers: 400 when a field is missing, 401 with one shared message for an
  unknown email or a wrong password, 200 with a projection of the user after a session is
  created, and 500 for anything thrown. It obtains a database connection and closes it in
  `finally`.
- **The authorization hook** (`useAuthorization` in `lib/hooks/useAuthorization.ts`) has an
  effect that decides whether to navigate and where to. It also returns a `hasRole` predicate.

Files:

- `wrappers.dfy`: the `Option` type.
- `login_route.dfy`, module `LoginRoute`:
  - Every collaborator of the handler is a field of a `World` value: the parsed body,
    `getConnection`, the SELECT by email, `bcrypt.compare`, `createSession` and
    `connection.close`. Each one answers with `Step<T>`, which is either `Ok(value)` or
    `Throw(message)`.
  - The function `TryBlock` is the `try` block. It returns how the block was left, the calls
    made, the log written and whether a connection was assigned.
  - `Settle` applies the `catch` and `finally` blocks to that state, and `Handle` composes the two.
  - The imperative methods `TryBody` and `Post` run the same steps with early returns. They
    update a `ConnectionState` object (`acquired`, `closeCount`) and an append-only
    `Console`, and they are proved to agree with `Handle`.
  - JavaScript truthiness (`!email`) is modelled over a small `JsValue` type.
- `authorization.dfy`, module `Authorization`:
  - `Role` is the five-value union.
  - The store's user is read through `as any`, so its `roles` is untyped data: an optional
    list of strings.
  - `Includes` and `Any` model `Array.prototype.includes` and `.some`.
  - `EffectTarget` is the body of the effect callback. It returns the page pushed, if any.
  - `HasRole` is the returned closure.

Behaviour of the code worth knowing:

- When the store is unauthenticated and holds no user, the hook does nothing. The hook's
  documentation says `redirectTo` is where an unauthenticated user is sent
  (`lib/hooks/useAuthorization.ts:14`), but the only push to it is commented out
  (`lib/hooks/useAuthorization.ts:24`), so no login redirect ever happens.
- When the user is unauthenticated but a user object is present, the hook also does nothing.
- The 500 answer carries the thrown error's message in `details`.
- The login route returns a user with a singular `role`. The hook reads a plural `roles`.
  If the client store keeps the returned object as it is, every authenticated user is sent
  to `/unauthorized` by every guarded page (`Authorization.SingularRoleIsNeverConsulted`).
- An empty list of required roles rejects every authenticated user.

## Model

| member | source | states |
|---|---|---|
| `LoginRoute.TryBlock` | app/api/auth/login/route.ts:10-62 | The first call is reading the body. No step runs after one that threw, and the block is left by an exception exactly when its last call threw, carrying that call's message. The answer is 400 exactly when the body parsed with a falsy email or password; in that case nothing else was called and no connection was assigned. The answer is 401 exactly when there are no rows or bcrypt answered false, always with the same body. With no rows, no compare or session call happens. A 200 happens only when bcrypt accepted the request's password against the first row's hash; it carries that row's projection and follows a successful `createSession` with its ID, EMAIL and ROLE. The connection is assigned exactly when `getConnection` returned, and the block never closes it. |
| `LoginRoute.SessionFollowsAcceptedPassword` | app/api/auth/login/route.ts:36-50 | `createSession` is called at most once, right after the compare of the request's password with the first row's hash, only when that compare returned true, and with that row's ID, EMAIL and ROLE. |
| `LoginRoute.TryBlockLogDisclosesNoSecret` | app/api/auth/login/route.ts:14-61 | Every log entry of the `try` block names only the request's email or the first row with its hash replaced by `'***'`; the block writes no free-text error entry. |
| `LoginRoute.Settle` | app/api/auth/login/route.ts:64-77 | A returned answer is kept unchanged, whatever closing does. An exception becomes 500 with "Error interno del servidor" and the thrown message as `details`. An assigned connection is closed exactly once, as the last call, and an unassigned one is never closed. The only log entries added are the login error and the close error. |
| `LoginRoute.Handle` | app/api/auth/login/route.ts:7-79 | The status is one of 200, 400, 401 and 500. 400 happens exactly when a field is missing, and then no connection is acquired and nothing is queried. Every 401 has the body "Credenciales inválidas". 500 happens exactly when some call other than close threw. `closeCount` is 1 if the connection was acquired and 0 otherwise, and close is then the last call. A session is created only right after bcrypt accepted the request's password against the first row's hash. |
| `LoginRoute.UnknownEmailLooksLikeWrongPassword` | app/api/auth/login/route.ts:28-41 | A world with no rows and a world whose password bcrypt rejects get identical answers (401, the same string). Neither run creates a session. |
| `LoginRoute.SuccessfulLogin` | app/api/auth/login/route.ts:33-62 | When a row is found, bcrypt accepts and the session is created, the answer is 200 with id, email, role, username and fullName from the first row. The calls are exactly body, connect, query, compare, createSession and close, and the connection is closed once. |
| `LoginRoute.CloseFailureIsSwallowed` | app/api/auth/login/route.ts:70-77 | A `connection.close()` that throws leaves the answer and the calls as they would have been. |
| `LoginRoute.LogIgnoresPassword` | app/api/auth/login/route.ts:14-61 | Take two passwords that are equally truthy and that bcrypt judges alike against every hash. They produce the same log and the same answer, so the log depends on the password only through bcrypt's verdict. |
| `LoginRoute.TryBody` | app/api/auth/login/route.ts:10-62 | The step-by-step `try` block leaves the exit, the calls, the appended log and the connection flag as `TryBlock` describes. It never closes the connection. |
| `LoginRoute.CatchFinally` | app/api/auth/login/route.ts:64-77 | Run on the state the `try` block left, the step-by-step `catch` and `finally` produce the answer, calls, appended log and close count that `Settle` describes. |
| `LoginRoute.Post` | app/api/auth/login/route.ts:7-79 | The imperative handler answers and calls as `Handle` does and appends `Handle`'s log to the console. It leaves `closeCount` at 1 if the connection was acquired and 0 otherwise. |
| `Authorization.Includes` | lib/hooks/useAuthorization.ts:30 | `userRoles.includes(role)` is true exactly when the role's name is an element of the list. |
| `Authorization.Any` | lib/hooks/useAuthorization.ts:30 | `.some(p)` is true exactly when `p` holds of some element. |
| `Authorization.EffectTarget` | lib/hooks/useAuthorization.ts:20-35 | If not authenticated, there is no navigation, whatever the user holds. Any target is "/unauthorized". A redirect happens exactly when the user is authenticated and no required role is among `roles`, where a null user or an absent `roles` counts as []. |
| `Authorization.HasRole` | lib/hooks/useAuthorization.ts:38-42 | False without a user. Otherwise true exactly when the user has a `roles` field and some queried role is in it. |
| `Authorization.UnresolvedStateDoesNothing` | lib/hooks/useAuthorization.ts:22-26 | Not authenticated with a null user: no navigation. |
| `Authorization.RedirectToIsUnused` | lib/hooks/useAuthorization.ts:16-26 | The target does not depend on `redirectTo`. |
| `Authorization.NeverNavigatesToLogin` | lib/hooks/useAuthorization.ts:16-26 | With the default `redirectTo`, "/login" is never the target. |
| `Authorization.MissingRolesAlwaysRedirected` | lib/hooks/useAuthorization.ts:29-33 | An authenticated null user, or one without `roles`, is always sent to "/unauthorized". |
| `Authorization.SingularRoleIsNeverConsulted` | lib/hooks/useAuthorization.ts:29-41 | A user that carries only the singular `role` the login route returns (as it would if the client store kept that object as it is) is redirected by every guarded page, and `hasRole` is false for it. |
| `Authorization.EmptyRequirementAlwaysRedirects` | lib/hooks/useAuthorization.ts:30-33 | With no required roles, every authenticated user is redirected. |
| `Authorization.EffectAgreesWithHasRole` | lib/hooks/useAuthorization.ts:29-41 | For an authenticated user, the effect redirects exactly when `hasRole(requiredRoles)` is false. |
| `Authorization.HasRoleOneIsSingletonList` | lib/hooks/useAuthorization.ts:40 | `hasRole(r)` equals `hasRole([r])`. |
| `Authorization.HasRoleOfNothingIsFalse` | lib/hooks/useAuthorization.ts:41 | `hasRole([])` is false. |
| `Authorization.HasRoleWithoutRolesIsFalse` | lib/hooks/useAuthorization.ts:39-41 | A user without a `roles` field has no role. |
| `Authorization.HasRoleMonotone` | lib/hooks/useAuthorization.ts:41 | `hasRole(xs)` implies `hasRole(xs + ys)`. |
| `Authorization.HasRoleIgnoresOrder` | lib/hooks/useAuthorization.ts:41 | `hasRole(xs + ys)` equals `hasRole(ys + xs)`. |

## Left out

- The Oracle access (`getConnection`, the SQL text, `OUT_FORMAT_OBJECT`) is I/O. It is a parameter of the model: a connection outcome, a rows-by-email lookup and a close outcome.
- `bcrypt.compare` is a foreign cryptographic library. It is an arbitrary function from a password and a hash to a boolean or an exception.
- `createSession` and the JWT session code in `lib/auth/session` are not part of this model. Session signing, expiry, reading and tamper detection are therefore not modelled. The model only records that `createSession` was called with the claims `{userId, email, role}` and that it may throw.
- `NextRequest`/`NextResponse` and JSON parsing are transport. The parsed body is a parameter (a value or an exception), and the answer is a `(status, body)` datatype.
- Thrown values are modelled by their `message` string. A thrown value without a `message` (so `details` is undefined) is not modelled. Neither is a thrown `null`, whose `.message` would itself throw inside `catch`.
- `console.log` and `console.error` are modelled as appends of structured entries. Their formatting is not modelled, and neither is the chance that logging itself throws.
- JavaScript `NaN` is not a value of `JsValue`, so its falsiness is not modelled. JSON bodies cannot contain it.
- async/await and concurrent requests are not modelled. Each request is one sequential run with its own connection.
- React's `useEffect` scheduling and dependency list, `useRouter` and the Zustand store are UI plumbing. The store's `user` and `isAuthenticated` are inputs, and `router.push` is the returned target.
- A `roles` field that holds something other than an array (for example a string, where `.includes` would be a substring test) is not modelled. `roles` is either absent/null or a list of strings.
