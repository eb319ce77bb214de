# Todo client session and task-list model

A Dafny model of a small single-page todo client. The client signs a user in
against an identity service. It keeps the session token in the browser's
`localStorage` under `todoAppToken` and checks that token on reload. It lists
and creates tasks against a second service.

Modules, one per source file plus three helpers:

- `Session` (src/App.jsx): the three-phase session machine — Loading,
  Unauthenticated, Authenticated — with `checkAuth`, `handleLogin`,
  `handleLogout` and the screen choice. The `App` class holds `user`, `loading`
  and the store.
- `AuthForm` (src/components/Login.jsx): the sign-in and registration
  handlers, their input guards, the `loading`/`error` lifecycle, the error
  text, and the `showRegister` links. The `LoginForm` class calls the App's
  `HandleLogin` as its `onLogin` callback.
- `Tasks` (src/components/TodoList.jsx): `fetchTodos`, `handleInputChange`,
  `handleSubmit`, the payload, the prepend, and the `null` branch of
  `formatDate`. The `TodoList` class holds the component state.
- `Api` (src/services/api.js): URL building, the request interceptor rule,
  the global interceptor registry and the six operations. The `Client` class
  is the module-level axios instance.
- `Storage` (`localStorage` as a `map<string, string>`), `JsText` (JavaScript
  string truthiness and `trim`), `Wrappers` (`Option`).

Each component's state is a class. Each of its methods states its new
state as a pure step function of the old state (`CheckAuthStep`, `SignIn`,
`SubmitStep`, `Perform`, ...). The lemmas about those step functions carry the
properties. The network is a parameter: every operation receives the
server's answer as `Ok(data)` or `Err(message)`. The `Client` records each
request it sends, together with the interceptors registered at that moment.
The browser store is a field of `App`.

Three behaviours of the code that the model keeps as written:

- `setupAuthInterceptor` appends an interceptor on every call. None is ever
  removed or replaced (src/services/api.js:10). The registry only grows
  (`Api.RegistryOnlyGrows`), and logout does not touch it. A token once
  registered stays active for every later request (`Api.TokenStaysActive`),
  including after logout, and after a second login the first token can still
  win (`Api.StaleCredential`).
- A failed fetch keeps the previous list (src/components/TodoList.jsx:21-23).
  On mount that list is empty (`Tasks.MountFetchFailure`).
- A successful creation does not clear an earlier error
  (src/components/TodoList.jsx:46-49, `Tasks.CreateSuccess`).

## Model

| member | source | states |
|---|---|---|
| `Session.MountIsLoading` | src/App.jsx:10-11 | App mounts with no user and loading set, so it is in the Loading phase and shows the spinner on every path |
| `Session.CheckAuthWithoutToken` | src/App.jsx:16-17 | with no truthy stored token, no verification request is made, the user and the store are unchanged, and loading ends |
| `Session.CheckAuthAccepted` | src/App.jsx:17-20 | a stored token the service accepts is sent for verification, the returned user becomes current, and the store is not rewritten |
| `Session.CheckAuthRejected` | src/App.jsx:21-24 | a stored token the service rejects is removed from the store, and the user stays as it was |
| `Session.StartupPhase` | src/App.jsx:15-27 | startup always leaves Loading, and ends Authenticated exactly when a truthy token was verified successfully |
| `Session.LoginStoresToken` | src/App.jsx:32-36 | login makes the given user current and stores its token under the key |
| `Session.LogoutClears` | src/App.jsx:38-41 | logout clears the user and removes the key; logging out twice equals logging out once |
| `Session.ReloadAfterLogout` | src/App.jsx:16-17 | after logout, a reload makes no verification request and ends Unauthenticated |
| `Session.OnlyTokenKeyTouched` | src/App.jsx:16-40 | every store entry other than `todoAppToken` survives startup, login and logout |
| `Session.ViewFollowsPhase` | src/App.jsx:43-63 | spinner iff Loading, login form iff Unauthenticated, task list at "/" and a redirect on every other path iff Authenticated |
| `Session.StartupIsConsistent` | src/App.jsx:15-27 | after startup, a user is set only with the key present, and a truthy stored token only with a user set |
| `Session.EventPreservesConsistency` | src/App.jsx:32-41 | login and logout each preserve that consistency |
| `Session.SessionStaysConsistent` | src/App.jsx:32-41 | any sequence of logins and logouts preserves it |
| `Session.EverySessionConsistent` | src/App.jsx:15-41 | startup followed by any logins and logouts is consistent |
| `Session.App.constructor` | src/App.jsx:10-11 | the App starts with user null, loading true and the browser's store as it was |
| `Session.App.CheckAuth` | src/App.jsx:15-27 | the new App state is the startup step; the client registers and sends a verification exactly when the stored token is truthy |
| `Session.App.HandleLogin` | src/App.jsx:32-36 | the new App state is the login step |
| `Session.App.HandleLogout` | src/App.jsx:38-41 | the new App state is the logout step; the client is not touched |
| `Session.App.Render` | src/App.jsx:43-63 | the spinner exactly while Loading, the login form exactly while Unauthenticated, and when Authenticated the task list at "/" and a redirect elsewhere |
| `AuthForm.ErrorText` | src/components/Login.jsx:23 | the server's message when it is non-empty, else the fixed fallback; never empty when the fallback is not |
| `AuthForm.SignInGuard` | src/components/Login.jsx:14 | sign-in dispatches iff email and password are both non-empty; otherwise nothing changes and `onLogin` is not called |
| `AuthForm.WhitespaceCredentialsDispatched` | src/components/Login.jsx:14 | non-empty credentials made only of white space trim to "" and are still sent: the guard tests emptiness, not trimmed emptiness |
| `AuthForm.SignUpGuard` | src/components/Login.jsx:31 | registration dispatches iff name, email and password are all non-empty; otherwise nothing changes |
| `AuthForm.PendingState` | src/components/Login.jsx:16-17 | while a request is in flight, the error is cleared, loading is set, and no other field moves |
| `AuthForm.SubmissionOutcome` | src/components/Login.jsx:19-26 | after a dispatched submit, loading is false; success calls `onLogin` once with the returned user; failure does not call it and shows the server's message or the fallback |
| `AuthForm.EditOnlyThat` | src/components/Login.jsx:77-107 | an input's change sets that input to the typed value; the other two inputs, the mode, the error and loading keep their values |
| `AuthForm.ShowRegisterOnly` | src/components/Login.jsx:124 | each link sets `showRegister` to its value and changes nothing else |
| `AuthForm.LoginForm.constructor` | src/components/Login.jsx:5-10 | the form starts in sign-in mode with empty name, email, password and error, not loading |
| `AuthForm.LoginForm.HandleLogin` | src/components/Login.jsx:12-27 | the new form state is the sign-in submission's; the client performs the login call iff it was dispatched; the App logs in iff the call succeeded |
| `AuthForm.LoginForm.HandleRegister` | src/components/Login.jsx:29-44 | the same for registration, with the registration call |
| `AuthForm.LoginForm.SetShowRegister` | src/components/Login.jsx:176 | the new form state differs only in `showRegister` |
| `AuthForm.LoginForm.HandleEdit` | src/components/Login.jsx:77-107 | the new form state differs only in the edited input |
| `Tasks.FetchOutcome` | src/components/TodoList.jsx:15-27 | success replaces the list and clears the error; failure keeps the list and sets the fetch error; loading ends either way; the form is untouched |
| `Tasks.MountFetchFailure` | src/components/TodoList.jsx:5-27 | a failed fetch on mount leaves an empty list and a non-empty error |
| `Tasks.SetFieldOnlyThat` | src/components/TodoList.jsx:29-32 | an input change sets the named field and no other |
| `Tasks.PayloadFields` | src/components/TodoList.jsx:40-44 | the payload carries title and description verbatim; the due date is `null` iff the input is empty, else the input |
| `Tasks.Prepend` | src/components/TodoList.jsx:47 | the result is one longer, starts with the created task, and keeps the old tasks in order after it |
| `Tasks.BlankTitleGuard` | src/components/TodoList.jsx:37 | a submit sends no request and changes no state iff the title is white space only |
| `Tasks.CreateSuccess` | src/components/TodoList.jsx:46-49 | success prepends the created task, resets the form to three empty strings and hides it |
| `Tasks.CreateFailure` | src/components/TodoList.jsx:50-52 | failure sets the creation error; the list, form and visibility are unchanged |
| `Tasks.FormatDateNull` | src/components/TodoList.jsx:56-65 | absent and empty dates format to `null` whatever the renderer; every other date is handed to the renderer |
| `Tasks.TodoList.constructor` | src/components/TodoList.jsx:5-9 | the list starts empty and loading, with no error, an empty form and the form hidden |
| `Tasks.TodoList.FetchTodos` | src/components/TodoList.jsx:15-27 | the new state is the fetch step; the client sends exactly one list request |
| `Tasks.TodoList.HandleInputChange` | src/components/TodoList.jsx:29-32 | the new state differs only in the form, by the one field |
| `Tasks.TodoList.HandleSubmit` | src/components/TodoList.jsx:34-54 | the new state is the submit step; the client sends the creation request iff the title is not blank |
| `Tasks.TodoList.ToggleForm` | src/components/TodoList.jsx:74 | only `showForm` changes, to its negation |
| `Tasks.TodoList.OpenForm` | src/components/TodoList.jsx:162 | only `showForm` changes, to true |
| `JsText.TrimEmptyIff` | src/components/TodoList.jsx:37 | `trim` yields the empty string exactly when every character is ECMAScript white space |
| `Api.RouteUrl` | src/services/api.js:3-6 | a URL built from a base and a path determines both; the two base URLs never overlap |
| `Api.RequestTargets` | src/services/api.js:25-67 | login, register, users/{id} and verify-token go to the user service; both todo operations go to `/todos` on the todo service |
| `Api.Intercept` | src/services/api.js:11-16 | a truthy token sets `Authorization` to `"Bearer " + token`; a falsy one returns the config unchanged; other headers are never touched |
| `Api.HeadersForAnyOrder` | src/services/api.js:9-19 | whatever order the registry's interceptors run in, other headers are kept; with no truthy token the config is unchanged; otherwise the header is `"Bearer " + t` for a truthy registered `t` |
| `Api.CallRegistration` | src/services/api.js:23-69 | login and register add the returned token only on success; verifyToken always adds its argument; getUser, getTodos and createTodo add nothing |
| `Api.CallDispatch` | src/services/api.js:49-53 | each call sends one request; only verifyToken sends it with its own token already registered |
| `Api.RegistryOnlyGrows` | src/services/api.js:9-19 | over any sequence of calls, no interceptor is removed, at most one is added per call, and one request is logged per call |
| `Api.TokenStaysActive` | src/services/api.js:9-19 | a registered token stays registered and is active for every later request |
| `Api.StaleCredential` | src/services/api.js:9-29 | from any registry, a login as A with a truthy token adds A's interceptor after the existing ones for the next request; a second login as B adds B's after it, and run in the order B then A the header is "Bearer " + A's token |
| `Api.RejectedTokenThenLogin` | src/services/api.js:23-54 | a token the service rejects at verification stays registered, so after a later login as A the next request carries the earlier interceptors, then that token, then A's |
| `Api.Client.Send` | src/services/api.js:24-25 | the shared send step of every operation: one request is logged together with the interceptors registered at that moment, and the registry is unchanged |
| `Api.Client.constructor` | src/services/api.js:1-10 | the axios instance starts with no interceptors and no requests sent |
| `Api.Client.SetupAuthInterceptor` | src/services/api.js:9-19 | appends exactly one interceptor and sends nothing |
| `Api.Client.Login` | src/services/api.js:23-31 | returns the server's answer; the new state is the login call's effect |
| `Api.Client.Register` | src/services/api.js:33-41 | returns the server's answer; the new state is the register call's effect |
| `Api.Client.GetUser` | src/services/api.js:43-47 | returns the server's answer; the new state is the getUser call's effect |
| `Api.Client.VerifyToken` | src/services/api.js:49-54 | registers the token, then sends; returns the server's answer |
| `Api.Client.GetTodos` | src/services/api.js:59-63 | returns the server's answer; the new state is the getTodos call's effect |
| `Api.Client.CreateTodo` | src/services/api.js:65-69 | returns the server's answer; the new state is the createTodo call's effect |

## Left out

- HTTP, axios internals and the order in which axios runs stacked interceptors. Each request records the registry it was sent with. Header properties are proved for every order (`Api.HeadersForAnyOrder`).
- Asynchrony, React effect timing and re-rendering. Each handler is one atomic step over a given server answer. The in-flight form state is `AuthForm.Pending`; it is asserted inside the methods.
- A server response without a `token` field. Tokens are always strings here, so a missing token is not modelled. In JavaScript it would register a falsy interceptor and store the string "undefined".
- `Tasks.TodoList.HandleInputChange`: input names other than `title`, `description` and `due_date` are not modelled. The form only has these three; any other name would add a new key.
- `Date` parsing and `toLocaleDateString`. The non-null branch of `formatDate` is a `render` parameter.
- `console.error` logging, `e.preventDefault()`, JSX markup, styling and src/components/Header.jsx.
- The service base URLs are kept only as two distinct string constants.

