# Authenticated-session core of the AI Cargo front-end, in Dafny

This project models the three pieces of the Nuxt front-end that make
decisions about an authenticated session:

- **the role guard** (`app/middleware/auth.ts`). It is a named route
  middleware and runs before navigations to the pages that use it. It reads the `token` cookie and the role decoded from it.
  It lets the navigation through, or redirects to the login page or to
  the role's own area (`/admin`, `/superAdmin`, `/user`).
- **the activity guard** (`app/middleware/user-active.ts`). For pages
  strictly below `/user/`, it looks up the profile. It sends an inactive
  account, and any failed lookup, to `/user`.
- **the axios client** (`app/plugins/axios.ts`). Its request interceptor
  attaches `Authorization: Bearer <token>`. Its response-error interceptor
  handles the first 401 of a request. It posts the refresh token, stores the
  new tokens and replays the request once. When there is no refresh token,
  or the refresh fails, it logs the user out and redirects to the login page.

Files:

- `wrappers.dfy`: module `Wrappers`, an `Option` type.
- `routing.dfy`: module `Routing`, shared by both guards. It holds the
  navigation `Action`, the token cookie as `Jwt` (raw text plus decoded
  claims) and JavaScript's `startsWith`.
- `auth_middleware.dfy`: module `AuthMiddleware`.
- `user_active_middleware.dfy`: module `UserActiveMiddleware`.
- `axios_plugin.dfy`: module `AxiosPlugin`. Pure functions say what one
  interceptor call and one whole request do. The classes `Request` (a
  request config with `headers` and the `_retry` flag) and `Client` (the
  two cookies, plus a log of `navigateTo` calls and refresh posts) change
  that state in place. Their methods are proved equal to the pure functions.

Both guards are pure functions. The client is a class whose methods update
its fields in place, as the interceptors do.

JavaScript truthiness is modelled explicitly. A cookie or response field
counts as present only when it is set and is not the empty string.

Points where the code's behaviour is easy to misread; the model follows the code:

- An empty `token` cookie counts as no token, in both guards and in the
  request interceptor.
- A refresh response's new refresh token replaces the stored one only when
  it is a non-empty string. Otherwise the old one is kept.
- The activity guard also tests `to.path === '/user'`. That test can never
  matter, because such a path does not start with `/user/`.
  `UserActiveMiddleware.NeedsCheck` states the resulting condition exactly.

## Model

| member | source | states |
|---|---|---|
| `Routing.StartsWith` | app/middleware/auth.ts:16-20 | `startsWith`, compared character by character, holds exactly when the prefix is an initial slice of the path |
| `AuthMiddleware.Home` | app/middleware/auth.ts:16-21 | only the roles `admin`, `superAdmin` and `user` have a home area, and it is `/` followed by the role name |
| `AuthMiddleware.Guard` | app/middleware/auth.ts:4-23 | the guard allows exactly the `Permitted` navigations: without a token only `/auth/login`; with a token, paths string-prefixed by the role's home, and every path for another role. A redirect goes to `/auth/login` without a token and to the role's home with one |
| `AuthMiddleware.GuardIdempotent` | app/middleware/auth.ts:7-22 | running the guard again on its own redirect target, with the same token, allows |
| `AuthMiddleware.TargetIndependentOfPath` | app/middleware/auth.ts:16-22 | for a token holder, any two redirected paths get the same target: it depends on the role only |
| `AuthMiddleware.PrefixIsNotSegment` | app/middleware/auth.ts:16-21 | the prefix test is a string prefix, so `/adminPanel` counts as under `/admin` and `/users` as under `/user` |
| `AuthMiddleware.UserAskingForAdmin` | app/middleware/auth.ts:20-21 | a `user` asking for `/admin` is redirected to `/user` |
| `UserActiveMiddleware.NeedsCheck` | app/middleware/user-active.ts:5-8 | the profile is looked up exactly when there is a token and the path is strictly longer than `/user/` and starts with it; `/user` and `/user/` are never checked |
| `UserActiveMiddleware.Guard` | app/middleware/user-active.ts:1-25 | the only outcomes are allow and a redirect to `/user`; unchecked paths are allowed; a checked path is allowed exactly when the lookup succeeded with `isActive` true |
| `UserActiveMiddleware.FailureLikeInactive` | app/middleware/user-active.ts:18-23 | a failed lookup gives the same action as `isActive` false and as `isActive` missing (fail-closed) |
| `UserActiveMiddleware.GuardIdempotent` | app/middleware/user-active.ts:8-23 | re-running the guard on its redirect target allows, whatever the second lookup returns |
| `UserActiveMiddleware.GuardsAgreeForUser` | app/middleware/user-active.ts:8-23 | for a `user` token that the profile lookup leaves in place, the activity guard's target passes the role guard, and the role guard's target is not checked by the activity guard |
| `AxiosPlugin.WithBearer` | app/plugins/axios.ts:14-18 | with a non-empty access token, `Authorization` becomes `Bearer ` + token and is the only header added or changed; without one, the headers are unchanged |
| `AxiosPlugin.OnResponseError` | app/plugins/axios.ts:28-73 | a status other than 401, or a request already retried, rejects with the original error and changes nothing. A handled 401 sets the retry flag. The refresh endpoint is called only then, with the stored refresh token. With no refresh token, both cookies are cleared, the client goes to `/auth/login` and rejects with the original error. A failed refresh does the same but rejects with the refresh error. A successful refresh stores the new access token and rotates the refresh token only when a non-empty one is returned. The replayed request then carries `Bearer ` + the new token |
| `AxiosPlugin.Exchange` | app/plugins/axios.ts:12-73 | one request makes at most one refresh call and at most one navigation. A success passes through unchanged. An error other than a first 401 reaches the caller unchanged, with no refresh call and no navigation. A first 401 without a refresh token clears both cookies, goes to `/auth/login`, makes no refresh call and fails with the original error. A first 401 whose refresh fails does the same after one refresh call, and fails with the refresh error. After a successful refresh, the caller gets the replay's answer, even a second 401. The session then holds the new access token and the refresh token rotated only when a non-empty one came back. There is no navigation, and the replay carries the new bearer token |
| `AxiosPlugin.RefreshAtMostOncePerRequest` | app/plugins/axios.ts:32-33 | over any series of requests, each gets one answer, and refresh calls and navigations number at most the requests |
| `AxiosPlugin.NoRefreshTokenStaysOut` | app/plugins/axios.ts:35-43 | from a session without a refresh token, no series of requests calls the refresh endpoint or gains a refresh token |
| `AxiosPlugin.Request.constructor` | app/plugins/axios.ts:29-32 | a new request config carries its headers and has not been retried |
| `AxiosPlugin.Client.constructor` | app/plugins/axios.ts:4-5 | the client starts from the current cookies, with no navigation and no refresh call recorded |
| `AxiosPlugin.Client.InterceptRequest` | app/plugins/axios.ts:12-19 | updates the config's headers in place to `WithBearer` of the current access token, and returns the same config |
| `AxiosPlugin.Client.InterceptError` | app/plugins/axios.ts:26-73 | updates the cookies, the config and the effect logs in place, exactly as `OnResponseError` says |
| `AxiosPlugin.Client.Send` | app/plugins/axios.ts:12-73 | updates the cookies, the config and the effect logs as `Exchange` says, and posts to the refresh endpoint at most once |

## Left out

- `nuxt.config.ts`: static configuration (PWA manifest, meta tags, modules) with no logic.
- JWT decoding (`jwtDecode`, app/middleware/auth.ts:14) is a foreign library. The token is given already decoded (`Jwt`). A malformed token, which makes the source throw an unhandled error, is therefore not representable.
- The role claim is a string. A missing role behaves like any string other than the three roles.
- The HTTP transport (`axios.create`, `axios.post` to the refresh URL, `$axios.get('profile')`) and the base URLs. Replies, the refresh outcome and the profile lookup are inputs.
- UserActiveMiddleware.Guard: the profile body's `isActive` is modelled as missing, `true` or `false`. Other JSON values and their truthiness are not modelled. A missing or malformed body, which throws inside the `try`, is part of `LookupFailed`.
- UserActiveMiddleware.GuardsAgreeForUser: the profile lookup goes through the plugin's client, so a 401 on it can refresh the tokens or log the user out and navigate to `/auth/login`. Those effects of the lookup on the session are not modelled. The agreement assumes the lookup leaves the token unchanged; after such a logout the role guard sends `/user` on to `/auth/login`.
- The activity guard's own `Authorization` header (app/middleware/user-active.ts:14) is not modelled: the lookup result is an input.
- AxiosPlugin.OnResponseError: the refresh response's access token is always a string. A response without one, which the source would store as `undefined`, is not modelled.
- The request interceptor's error handler (app/plugins/axios.ts:20-22) and the response success handler (line 27) pass their argument through unchanged. The second is the `Answered` case of `Exchange`. The first concerns failures before a request is sent, which this model does not represent.
- Cookie persistence (`useCookie`) is two fields of `Client`. `navigateTo` is a recorded entry in `Client.navigations`, and the refresh call is one in `Client.refreshPosts`.
- Promises, `await`, and concurrent requests. Two requests that get a 401 at the same time each refresh independently. The source has no safeguard there to verify, and the model runs requests one after another (`Run`).
