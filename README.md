# Session and authentication core of the learning-center IAM module

This project models the session state machine of the IAM module of the
learning-center Angular client and proves properties of it in Dafny.

- `AuthenticationService` (module `Authentication`) holds the signed-in flag,
  the current user id and user name, and the `token` entry of local storage.
  `SignUp`, `SignIn` and `SignOut` update them in place and return the
  navigation intent they trigger (`Root` = `/`, `SignInPage` = `/sign-in`,
  `SignUpPage` = `/sign-up`). The remote call of sign-up and sign-in is
  replaced by its completion, an `Outcome` argument: `Success(response)` when
  the `next` callback runs, `Failure` when the `error` callback runs.
- `SessionModel` gives the same state as a value (`Session`) and the effect of
  each completed operation (`Next`, `Intent`). `Run` folds a sequence of
  completed operations. The class keeps a ghost `history` of the operations and
  its `Valid()` ties its fields to `Run` over that history. So every lemma
  about `Run` holds of every state a real service object is in between
  completed operations.
- `Guard.AuthenticationGuard` is the route guard. It is a decision on one
  snapshot of the signed-in flag: admit, or deny and redirect to `/sign-in`.
- `Interceptor.HandledRequest` and `Interceptor.AuthenticationInterceptor` are
  the HTTP interceptor. An outgoing request gets `Authorization: Bearer <token>`
  when the stored token is truthy. Otherwise the request is forwarded
  unchanged. Requests are immutable values, so the original is never altered.

Two details of the source, one resolved and one kept:

- The service's flag getter is spelled `isIsSignedIn`
  (src/app/iam/services/authentication.service.ts:39), while the guard
  (src/app/iam/services/authentication.guard.ts:18) and the authentication
  section component read `isSignedIn`, which the service does not define. The
  model resolves the mismatch to one flag getter, `IsSignedIn`. The guard
  function takes the flag's value as its argument, and `Guard.GuardOnService`
  applies it to `IsSignedIn` of a service object.
- The interceptor tests the token for JavaScript truthiness. The empty string
  counts as no token (`IsTruthy`). A sign-in whose response carries an empty
  token therefore signs the user in, but adds no header to later requests.

Two consequences of the code worth knowing:

- At start-up a stored token does not mean a signed-in session. The constructor
  (src/app/iam/services/authentication.service.ts:34) neither reads nor clears
  local storage, so a token left by an earlier run stays. While nobody has
  signed in or out, the guard denies and the interceptor still sends that token
  (`Interceptor.StaleTokenIsSent`). The constructor therefore takes the stored
  token as a parameter.
- The flag can be `true` with an empty user name: sign-in copies whatever name
  the response carries (src/app/iam/services/authentication.service.ts:99).
  The invariant proved (`SessionModel.Consistent`) is: signed out implies id
  `0` and name `""`, and signed in implies a stored token. (`SessionModel.EmptyUsernameSignedIn`)

## Model

| member | source | states |
|---|---|---|
| `Authentication.AuthenticationService.constructor` | src/app/iam/services/authentication.service.ts:25-27 | a new service is signed out with id 0 and name "", and keeps whatever token local storage already held |
| `Authentication.AuthenticationService.IsSignedIn` | src/app/iam/services/authentication.service.ts:39-41 | the flag is set exactly when the last successful sign-in or sign-out to complete was a sign-in |
| `Authentication.AuthenticationService.CurrentUserId` | src/app/iam/services/authentication.service.ts:46-48 | the current id is that of the last successful sign-in, or 0 when a sign-out came after it or there was none |
| `Authentication.AuthenticationService.CurrentUsername` | src/app/iam/services/authentication.service.ts:53-55 | the current name is that of the last successful sign-in, or "" when a sign-out came after it or there was none |
| `Authentication.AuthenticationService.SignUp` | src/app/iam/services/authentication.service.ts:69-81 | sign-up never changes the triple or the token (no automatic sign-in); it goes to `/sign-in` on success and `/sign-up` on failure |
| `Authentication.AuthenticationService.SignIn` | src/app/iam/services/authentication.service.ts:92-109 | on success the state is `{true, id, username}` from the response, its token is stored, and the intent is `/`; on failure the state is unchanged and the intent is `/sign-in`; the intent is the one `SessionModel.Intent` gives |
| `Authentication.AuthenticationService.SignOut` | src/app/iam/services/authentication.service.ts:117-123 | from any state the triple ends at `{false, 0, ""}`, the token is removed, and the intent is `/sign-in` |
| `Authentication.AliceSignsIn` | src/app/iam/services/authentication.service.ts:96-102 | a fresh service that signs in with response `{7, "alice", "abc123"}` holds `{true, 7, "alice"}` and token "abc123", and navigates to `/` |
| `Authentication.BobSignsUp` | src/app/iam/services/authentication.service.ts:72-107 | a successful sign-up leaves a fresh session anonymous and goes to `/sign-in`; a failed sign-in after it still leaves it anonymous |
| `SessionModel.SignInSuccessState` | src/app/iam/services/authentication.service.ts:96-102 | a successful sign-in yields exactly `{true, id, username}` with the response token stored, whatever the prior state, and the intent `/` |
| `SessionModel.NonCommittingIsNoOp` | src/app/iam/services/authentication.service.ts:72-107 | sign-up, in either outcome, and a failed sign-in leave the whole session as it was |
| `SessionModel.SignOutIdempotent` | src/app/iam/services/authentication.service.ts:117-123 | sign-out reaches `{false, 0, ""}` with no token from any state, and a second sign-out gives the same state as one |
| `SessionModel.SignInThenSignOut` | src/app/iam/services/authentication.service.ts:96-121 | a successful sign-in followed by a sign-out ends at the initial triple with no token, whatever the response and the prior state |
| `SessionModel.NextConsistent` | src/app/iam/services/authentication.service.ts:96-121 | every operation keeps the session coherent: signed out means id 0 and name "", signed in means a token is stored |
| `SessionModel.RunConsistent` | src/app/iam/services/authentication.service.ts:25-121 | any sequence of operations from a coherent session ends in a coherent session |
| `SessionModel.LastCommit` | src/app/iam/services/authentication.service.ts:96-121 | a successful sign-in or sign-out that occurs in the sequence with no such operation after it; none exactly when the sequence has neither |
| `SessionModel.LastCommitWins` | src/app/iam/services/authentication.service.ts:96-121 | after any sequence of operations, the session is what the last successful sign-in or sign-out alone produces; the starting session if there is none |
| `SessionModel.EmptyUsernameSignedIn` | src/app/iam/services/authentication.service.ts:96-99 | a sign-in whose response has an empty user name yields a coherent session that is signed in with name "" |
| `SessionModel.SignedInOnlyBySignIn` | src/app/iam/services/authentication.service.ts:97 | a signed-out session becomes signed in only if the sequence contains a successful sign-in |
| `Guard.AuthenticationGuard` | src/app/iam/services/authentication.guard.ts:15-25 | the guard admits if and only if the flag is true; when it admits there is no redirect; when it denies it redirects to `/sign-in` |
| `Guard.GuardAfterTransitions` | src/app/iam/services/authentication.guard.ts:18-23 | composed with the service, the guard denies after a sign-out and admits after a successful sign-in |
| `Guard.GuardAfterRun` | src/app/iam/services/authentication.guard.ts:18-23 | after any sequence of operations the guard admits exactly when the last successful sign-in or sign-out was a sign-in, or there was neither and the start was signed in |
| `Guard.GuardDeniesFreshSession` | src/app/iam/services/authentication.guard.ts:18-23 | a fresh service that has had no successful sign-in is always denied and redirected to `/sign-in` |
| `Guard.GuardOnService` | src/app/iam/services/authentication.guard.ts:18-23 | the guard on a service object's `IsSignedIn` admits exactly when the last successful sign-in or sign-out was a sign-in, and otherwise redirects to `/sign-in` |
| `Interceptor.SetHeader` | src/app/iam/services/authentication.interceptor.ts:18 | setting a header leaves it with the single new value, replacing and not duplicating an old one, and keeps every other header and value |
| `Interceptor.HandledRequest` | src/app/iam/services/authentication.interceptor.ts:15-19 | with a truthy token the handed-on request carries `Authorization: Bearer <token>` and the same method, URL, body and other headers; with no token or an empty one it is the original request |
| `Interceptor.AuthenticationInterceptor` | src/app/iam/services/authentication.interceptor.ts:13-23 | `next` is called once, with the original request when the token is not truthy and with the request plus the bearer header otherwise |
| `Interceptor.InterceptorAfterTransitions` | src/app/iam/services/authentication.interceptor.ts:17-19 | after a sign-in with a non-empty token requests carry that token; after one with an empty token, or after a sign-out, they pass unchanged |
| `Interceptor.PassThroughAfterSignOut` | src/app/iam/services/authentication.interceptor.ts:17-19 | whenever the last successful sign-in or sign-out was a sign-out, requests pass through unchanged |
| `Interceptor.BearerAfterSignIn` | src/app/iam/services/authentication.interceptor.ts:17-18 | whenever the last successful sign-in or sign-out was a sign-in with a non-empty token, requests carry `Bearer` and that token |
| `Interceptor.StaleTokenIsSent` | src/app/iam/services/authentication.interceptor.ts:15-18 | a token persisted by an earlier run is sent on every request of a fresh service that has not signed in or out, while the service reports signed out |
| `Interceptor.InterceptorOnService` | src/app/iam/services/authentication.interceptor.ts:15-19 | on a service object, requests pass unchanged after a sign-out, carry `Bearer t` after a sign-in with non-empty token `t`, and follow the token stored at construction when neither happened |

## Left out

- HTTP transport: the POST calls, the base path, the JSON content type and the asynchronous subscription. Each completion is an explicit `Outcome` argument, and the time a call is pending is not modelled. The order in which completions and sign-outs interleave is captured by the order of `Event`s in a `Run`.
- Intermediate states inside one operation: the model applies the four writes of a successful sign-in (src/app/iam/services/authentication.service.ts:97-100) and of a sign-out (118-121) as one step. In the source each `next` notifies subscribers synchronously, so a subscriber to the flag can observe, for example, `{true, 0, "", None}` during a first sign-in, or `{false, oldId, oldName, oldToken}` during a sign-out, and a request issued from that subscriber would not carry the new token. `SessionModel.Consistent` and the lemmas about `Run` hold only between completed operations.
- The request arguments of `SignUp` and `SignIn` are kept, but they only reach the remote authority, so they do not affect the modelled state.
- RxJS: the `BehaviorSubject`s, `asObservable`, the replay to new subscribers and the guard's `pipe(take(1), map(...))`. Only the current value is modelled, through the getters `IsSignedIn`, `CurrentUserId` and `CurrentUsername`.
- Routing: `router.navigate(...).then()` becomes a returned `Route` (the guard's redirect is its `Option<Route>`). No routing is performed.
- Local storage durability: the `token` entry is a field of type `Option<string>`. Its content at construction is a constructor parameter.
- Logging: every `console.log` and `console.error`, including the ones that print credentials, the token and the request. They only produce diagnostics.
- Angular `HttpHeaders` case-insensitive header names and lazy initialisation: headers are a map keyed by the exact name. Request parameters and other request options are not modelled.
- JavaScript numbers are doubles; user ids are unbounded integers, because the client only copies them.
- The required-field check on the sign-in and sign-up forms is not a `requires` on `SignIn` and `SignUp`. The service itself does not validate its input, and the model accepts any request as the service does.
- The form components, the authentication section component, the course form and the generic CRUD base service: form and template glue with no session logic.
- Token expiry and validation: the client has none.
