# Session lifecycle of the forum client, in Dafny

This project models the client-side session lifecycle of a web forum front
end. It also models the decision logic around that lifecycle, and proves
properties of the model.

- **Session store** (`AuthStore`, module `@/store/auth`).
  - Holds the user, the two tokens, `isAuthenticated` and `lastAuthChangeAt`.
  - It is seeded from three persisted entries when the module loads.
  - `setSession` and `clearSession` write in a fixed order: the persisted entries (access, refresh, user), then the dispatcher's token slot, then the store's own fields.
  - `login` and `register` install a session only when the server call resolves. `logout` is `clearSession`.
- **Request dispatcher** (`Api`, module `@/lib/api`).
  - Owns the module-level access-token slot.
  - The request interceptor attaches `Authorization: Bearer <token>`.
  - The response interceptor sorts each settled call into one of five cases: delivered, a non-401 pass-through, the auth-page guard, a guest rejection, or a session teardown.
  - The teardown nulls storage and the slot at once. It only schedules the store's `clearSession`, which is modelled as a counter of pending clears.
- **Persistent store** (`Storage`): three nullable entries with a get/set contract.
- **Effect journal** (`Effects`): one ghost event log shared by the store, the dispatcher and the persistent store. The contracts state the order of their writes across all three objects.
- **Server bearer check** (`Middleware`, `AuthMiddleware` in Go).
  - The ordered chain of early-return checks, each failure mapped to its error code and message.
  - An exact model of `strings.Split(header, " ")`.
  - The effects on the Gin context: abort with 401, set the two context keys, call `Next` once.
  - The JWT library and `uuid.Parse` are oracle parameters.
- **Across the wire** (`Wire`): the header the client attaches, read back by the server's checks.
- **Home page choice** (`Home`): the pure choice of one of four landing pages.
- **Service callers**.
  - `Threads` (thread list and reply list) builds its query with `URLSearchParams` (`Url`), keeping only truthy parameters. The thread list replaces a malformed answer or a failure with an empty page.
  - `Moderation` covers `getReports` with its defaults and two fallback branches, plus the stats, actions and report-action calls.
  - `Categories` covers `listCategories` (array or `[]`) and the pass-through calls.

The backend appears as a function `Server` from a request to the promise it
settles to.

Each state-changing method states its new state as a function of the old
one: `State() == SetSessionSpec(old(State()), a, now)`. Its `ensures` also
gives the exact events it appends to the journal. The properties of the
session lifecycle are then lemmas about those specification functions.

Two behaviours of the code are worth stating outright, because a reader
might expect otherwise:

- At load time `isAuthenticated` is `!!storage.getAccessToken()` (`frontend/src/store/auth.ts`, line 25). So a stored token with no stored user gives an authenticated store with no user (`AuthStore.BootstrapTrustsToken`).
- Nothing repairs such a partial record later. The landing page (`frontend/src/pages/home/index.tsx`) only reads the store, and shows the public page in the token-only case (`Home.TokenOnlyBootstrapIsPublic`). A repair would need a pass that the page does not have, so none is modelled.

## Model

| member | source | states |
|---|---|---|
| Api.AttachToken | frontend/src/lib/api.ts:16-21 | A truthy slot token `t` yields headers containing `Authorization: Bearer t`; every other header is kept and the URL is unchanged. A null or empty slot returns the request config untouched. |
| Api.Dispatcher.Intercept | frontend/src/lib/api.ts:16-22 | The interceptor reads the current slot: a truthy slot puts `"Bearer " + slot` under `Authorization`; otherwise the config is returned as it came. |
| Api.Dispatcher.constructor | frontend/src/lib/api.ts:10 | The slot starts null and no clear is scheduled. |
| Api.Dispatcher.SetAccessToken | frontend/src/lib/api.ts:12-14 | Overwrites the slot with the given value, changes nothing else, and logs exactly one slot write. |
| Api.Classify | frontend/src/lib/api.ts:47-75 | One case per handling, each as an if-and-only-if. Success → delivered. A non-401 failure → pass-through. A 401 under `/login` or `/register` → auth-page guard. A 401 elsewhere → teardown exactly when the slot held a truthy token, guest rejection otherwise. |
| Api.Dispatcher.OnResponse | frontend/src/lib/api.ts:27-77 | Every reply is returned as it came, so a failure is rejected with its original error. The case is decided on the slot as it was before any write; the new state is `AfterResponse` of the old one; the journal gains exactly the teardown writes (access, refresh, user, slot, one scheduled clear) or nothing. |
| Api.OnlyTeardownWrites | frontend/src/lib/api.ts:47-75 | The interceptor changes state only for a 401 off the auth pages with a truthy token. Success, non-401 failures, auth pages and guest 401s leave storage, slot and schedule unchanged. |
| Api.TeardownClearsEverything | frontend/src/lib/api.ts:60-71 | A teardown nulls all three persisted entries and the slot, and schedules exactly one more store clear. |
| Api.OneClearPerRevokedSession | frontend/src/lib/api.ts:49-71 | After a teardown the slot is empty, so any later 401 is not a teardown and changes nothing further. |
| AuthStore.Store.constructor | frontend/src/store/auth.ts:20-25 | Each field is seeded from its persisted entry; `isAuthenticated` is the truthiness of the stored access token; `lastAuthChangeAt` is null. |
| AuthStore.LoadModules | frontend/src/store/auth.ts:20-68 | Loading both modules gives the `Bootstrap` state of the stored entries: the store is seeded as above, and the last line primes the slot with the same stored access token (one slot write). |
| AuthStore.Store.SetSession | frontend/src/store/auth.ts:26-39 | The state becomes `SetSessionSpec`. The journal gains, in this order: access token, refresh token and user persisted, then the slot set, then the store fields set. The persisted writes go through `Storage.PersistentStore.SetAccessToken`, `SetRefreshToken` and `SetUser`, each of which changes one entry and logs one event. |
| AuthStore.Store.ClearSession | frontend/src/store/auth.ts:40-53 | The state becomes `ClearSessionSpec`. The journal gains, in this order: three null entries, the null slot, then the cleared fields. |
| AuthStore.Store.Login | frontend/src/store/auth.ts:54-57 | The returned promise resolves exactly when the login call does and otherwise carries its error. `setSession(result)` runs only on success; on rejection state and journal are unchanged. |
| AuthStore.Store.Register | frontend/src/store/auth.ts:58-61 | The same as login, against the registration call. |
| AuthStore.Store.Logout | frontend/src/store/auth.ts:62-64 | Exactly the state change and the writes of `clearSession`. |
| AuthStore.Store.RunScheduledClear | frontend/src/lib/api.ts:69-71 | The callback of the scheduled import runs one `clearSession` and consumes one pending clear; with none pending it does nothing. |
| AuthStore.SetSessionInstalls | frontend/src/store/auth.ts:26-38 | After `setSession(a)`: tokens and user equal `a`'s, `isAuthenticated` is true, the timestamp is `now`, the slot holds `a.access_token`, and storage, slot and fields agree. |
| AuthStore.ClearSessionEmpties | frontend/src/store/auth.ts:40-52 | After `clearSession()`: three null entries, a null slot, null user and tokens, `isAuthenticated` false, the timestamp set; everything agrees. |
| AuthStore.ClearSessionIdempotent | frontend/src/store/auth.ts:40-53 | A second clear changes nothing but `lastAuthChangeAt`. |
| AuthStore.SetThenClear | frontend/src/store/auth.ts:26-52 | Whatever session was installed, a following clear leaves storage and the slot null and the store unauthenticated. |
| AuthStore.ReloadAfterSetSession | frontend/src/store/auth.ts:21-30 | A reload right after `setSession(a)` recovers `a`'s user and both tokens and primes the slot with `a`'s token. The reloaded store is authenticated exactly when `a.access_token` is non-empty. |
| AuthStore.BootstrapTrustsToken | frontend/src/store/auth.ts:21-25 | At load, `isAuthenticated` holds iff the stored access token is truthy, regardless of the stored user. The loaded state is consistent with no pending clear. |
| AuthStore.SignInOnlyOnSuccess | frontend/src/store/auth.ts:54-61 | A rejected login or registration leaves the whole state unchanged. A resolved one persists the server's result and authenticates the store. |
| AuthStore.CoherenceKept | frontend/src/store/auth.ts:26-53 | Storage, slot and fields agree, or a clear is pending; `setSession`, `clearSession`, the response interceptor and the scheduled clear each keep this true. |
| AuthStore.ScheduledClearWipesLaterLogin | frontend/src/lib/api.ts:60-71 | Take a teardown, then a completed `setSession`, then the scheduled clear. At the end the new session is gone: unauthenticated, null token, empty storage and slot. This order is possible in the model but unlikely in a browser, where the scheduled import settles before any network reply. |
| AuthStore.TeardownWindow | frontend/src/lib/api.ts:60-71 | Between a teardown and its scheduled clear, storage and slot are empty while the store still shows the old session. Running the clear at time `now` unauthenticates the store, sets `lastAuthChangeAt` to `now`, and restores the pending count. |
| Middleware.BearerFormatIff | internal/middleware/auth.go:35-36 | `"Bearer " + t` splits into exactly two pieces with first piece `Bearer` iff `t` has no space; the second piece is then `t`. |
| Middleware.SplitLength | internal/middleware/auth.go:35 | `strings.Split(s, " ")` yields one piece more than `s` has spaces. `Middleware.Split` is the model of `strings.Split`. |
| Middleware.SchemeExact | internal/middleware/auth.go:36 | For a scheme and a token without spaces, the header passes the format rule iff the scheme is exactly `Bearer`, so the comparison is case-sensitive. |
| Middleware.CheckOrder | internal/middleware/auth.go:25-102 | Each error code comes out iff its own check fails after every earlier one passed. The order is: empty header, format, token (parse error, non-HMAC, invalid or non-map claims), `sub` not a string, `sub` not a UUID, `role` not a string. The chain of checks is `Middleware.Authenticate`. |
| Middleware.AuthorizedIff | internal/middleware/auth.go:62-95 | Authorization succeeds iff every check passes, and then carries the parsed subject and the role claim. |
| Middleware.ClientTokenReachesParser | internal/middleware/auth.go:35-53 | For a non-empty token without spaces, the server passes exactly that token to `jwt.Parse` and decides on it alone. |
| Middleware.AuthMiddleware | internal/middleware/auth.go:23-104 | On success: both context keys are set, `Next` is called exactly once, and nothing aborts. On any failure: abort with 401 and that failure's message and code, plus the request id when there is one; no key is set and `Next` is not called. |
| Wire.SlotDecidesServerCheck | internal/middleware/auth.go:25-53 | For a request without its own `Authorization` header, the slot decides what happens at the server. Let `u` be the token without trailing whitespace, which is trimmed in transit. An empty or null slot gets `AUTH_HEADER_MISSING`. The browser refuses to send a `u` containing NUL, CR, LF or a wide character (`Wire.Transmit`). A sent `u` with any other control character or DEL is refused with 400 by Go's request reader before the middleware runs (`Wire.Deliver`). A delivered `u` that is empty or contains a space gets `AUTH_HEADER_INVALID_FORMAT`. Any other delivered `u` reaches `jwt.Parse` as it is. |
| Wire.TrailingSpaceIsTrimmed | internal/middleware/auth.go:25 | Slot `abc ` is delivered as the header `Bearer abc`, so trailing whitespace does not make the format check fail. |
| Wire.ControlCharacterRefused | internal/middleware/auth.go:23-25 | Slot `a\u0001b` is sent by the browser but refused by Go's request reader, so the middleware never runs for it. |
| Home.HomePageByRole | frontend/src/pages/home/index.tsx:20-36 | Public iff not authenticated or no user. Otherwise `admin` → admin page, `moderator` → moderator page, and any other role → user page. Each case is an if-and-only-if. The choice is `Home.SelectHomePage`. |
| Home.SelectionReadsOnlyRole | frontend/src/pages/home/index.tsx:8-21 | Two snapshots that agree on `isAuthenticated`, on having a user and on that user's role select the same page; the tokens play no part. |
| Home.TokenOnlyBootstrapIsPublic | frontend/src/pages/home/index.tsx:21-24 | A load with a stored token and no stored user is authenticated, yet shows the public page. |
| Home.LoginRoutesByRole | frontend/src/pages/home/index.tsx:26-36 | Right after `setSession(a)` the page follows `a.user.role`. |
| Home.ClearedShowsPublic | frontend/src/pages/home/index.tsx:21-24 | After any `clearSession` the public page is shown. |
| Url.SearchParams.Set | frontend/src/services/threads.ts:45-49 | `params.set(name, v)` makes the pairs `SetEntry` of the old ones: the first pair of that name takes the value, later ones go, and an absent name is appended. |
| Url.SetNewNameAppends | frontend/src/services/threads.ts:45-49 | `set` of a name not yet present appends exactly one pair at the end. |
| Url.SetThenGet | frontend/src/services/threads.ts:45-49 | After `set(name, v)`, `get(name)` is `v` and every other name reads as before. |
| Url.WithQueryBareIff | frontend/src/services/threads.ts:51-53 | The URL gains `?` and a query exactly when some pair is set. |
| Threads.ListThreads | frontend/src/services/threads.ts:37-85 | The successive `set` calls build exactly `ThreadQuery` of the given (or absent) parameters. The URL is `/threads` plus `?query` only when the query is non-empty. The result is the fallback of the server's answer. |
| Threads.ThreadQueryNames | frontend/src/services/threads.ts:44-49 | The query names exactly the truthy parameters, in the order `category_id`, `page`, `page_size`, `sort`. A zero `page` or `page_size` is left out. |
| Threads.ThreadQueryValues | frontend/src/services/threads.ts:45-49 | Every included parameter has the given value, with numbers in decimal. |
| Threads.ThreadsUrlBare | frontend/src/services/threads.ts:51-53 | The URL is exactly `/threads` iff no parameter is truthy. |
| Threads.ThreadListOrFallback | frontend/src/services/threads.ts:55-84 | The result is always a thread list. A well-formed answer comes back unchanged. A malformed answer or a rejection gives the empty page with `page_size` equal to `params?.page_size \|\| 20`. |
| Threads.FallbackIdempotent | frontend/src/services/threads.ts:55-84 | Passing the fallback's own result through it again changes nothing. |
| Threads.ListReplies | frontend/src/services/threads.ts:93-113 | The query is built with the same truthy-only rule from `page`, `page_size` and `sort`, and the URL gets `?query` only when it is non-empty. The server's answer, rejection included, is returned unchanged. |
| Threads.ReplyQueryShape | frontend/src/services/threads.ts:101-105 | The reply query holds `page`, `page_size` and `sort` exactly when each is truthy, and never `category_id`. |
| Threads.GetThreadPassword | frontend/src/services/threads.ts:18-23 | The params object holds `password` exactly when a non-empty password is given, and holds nothing else. `getThread` is `Threads.GetThread`. |
| Threads.WritesPropagate | frontend/src/services/threads.ts:13-35 | Thread create, update and delete send their verb, path and body and return the server's answer; failures propagate. The calls are `Threads.CreateThread`, `Threads.UpdateThread` and `Threads.DeleteThread`. |
| Threads.ReplyWritePropagates | frontend/src/services/threads.ts:88-91 | `createReply` posts the body to `/threads/{id}/replies` and returns the server's answer; failures propagate. The call is `Threads.CreateReply`. |
| Moderation.ReportsQueryShape | frontend/src/services/moderation.ts:16-24 | `page` and `pageSize` are always sent first, defaulted to 1 and 20 only when absent, so 0 is sent as 0. `status` and `priority` follow, in that order, exactly when truthy. |
| Moderation.GetReports | frontend/src/services/moderation.ts:9-53 | The result is always a report list. A well-formed answer is returned unchanged. A malformed answer gives the empty page sized by the defaulted `pageSize`. A rejection gives the empty page sized by `params.pageSize \|\| 20`. |
| Moderation.ReportFallbacksDiffer | frontend/src/services/moderation.ts:33-51 | The malformed and rejection fallbacks agree iff `pageSize` is not 0. With 0 they report `page_size` 0 and 20 respectively. |
| Moderation.ReportsFallbackIdempotent | frontend/src/services/moderation.ts:26-52 | A report list that `getReports` returned passes through it again unchanged. |
| Moderation.ProcessReportPropagates | frontend/src/services/moderation.ts:55-64 | Posts the body to `/moderation/reports/{id}/actions`, returns the server's answer and propagates rejections. The call is `Moderation.ProcessReport`. |
| Moderation.StatsParamsRule | frontend/src/services/moderation.ts:66-71 | Sends `{moderator_id}` exactly when a truthy id is given, and no params object otherwise. The call is `Moderation.GetModerationStats`. |
| Moderation.ActionsQueryShape | frontend/src/services/moderation.ts:73-87 | A missing params object means `{}`. `page` and `pageSize` are always sent, defaulted to 1 and 20 only when absent. `action` comes last, exactly when truthy. The query is sent by `Moderation.GetModerationActions`. |
| Categories.ListCategories | frontend/src/services/categories.ts:8-22 | The result is always an array. An array answer is returned unchanged. Any other answer, or a rejection, gives `[]`. |
| Categories.ListCategoriesIdempotent | frontend/src/services/categories.ts:8-22 | The fallback's own result passes through it unchanged. |
| Categories.ListCategoriesNeverRejects | frontend/src/services/categories.ts:18-20 | A rejected call gives `[]`; any non-empty result is exactly the server's answer. |
| Categories.CategoryCallsPropagate | frontend/src/services/categories.ts:24-44 | The admin listing, create, update and delete return the server's answer with no shape check; update and delete address `/categories/{id}`. Unlike `listCategories`, the admin listing keeps a non-array answer. The calls are `Categories.ListAdminCategories`, `CreateCategory`, `UpdateCategory` and `DeleteCategory`. |

## Left out

- The implementation of `@/lib/storage` is not part of this model. It is modelled as three nullable entries with a get/set round trip; its serialisation and the browser storage behind it are not modelled.
- The JWT library (parsing, HMAC verification) and `uuid.Parse` are parameters of the model: oracles that succeed or fail.
- The authentication service calls behind `login` and `register` are parameters, and so is the backend behind every service caller (`Server`).
- Asynchrony: every promise is modelled as already settled. The dynamic import that schedules `clearSession` is a counter of pending clears, run by `Store.RunScheduledClear`. Other interleavings of promise callbacks are not modelled.
- `Date.now()` is an integer parameter.
- Header normalisation in transit is modelled only for the `Authorization` value the interceptor builds. The model covers the trailing whitespace that `setRequestHeader` and Go's header reader trim, and the characters the browser refuses to send. What the browser does on a refusal (the call failing before it leaves) is not modelled; the model only says nothing reaches the server.
- Wire.SlotDecidesServerCheck: the refusals before the handler are modelled only for the bytes of the `Authorization` value. A header block larger than Go's `MaxHeaderBytes` (answered with 431), any other invalid header, and any proxy in front of `/api` are not modelled, because they depend on the rest of the request and on the deployment.
- `location` is an optional path; `undefined` outside a browser is the `None` case.
- Axios internals, the `/api` base URL, `URLSearchParams` percent-encoding and the rendering of axios `params` objects are left out. Queries are ordered name/value lists.
- JavaScript numbers are unbounded integers: NaN, fractions and the float formatting of `toString()` are not modelled.
- `null` and `undefined` are one `None`. Because of this, the destructuring defaults of `getReports` and `getModerationActions` also replace an explicit `null`.
- Zustand's subscription machinery, React rendering and every `console.*` call are left out. Only the value each component or function computes is modelled.
- `token_type` and `expires_in` of the auth response are carried but never read, as in the code.
- `internal/routes/routes.go` (route wiring, rate limits, health check) is not part of this model.
- A render-time repair of the session on the landing page is not modelled, because the code has none.
