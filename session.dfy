/**
 * The session lifecycle of src/App.jsx: the current user, the `loading` flag
 * and the session token kept in the browser store under `todoAppToken`.
 *
 * The App is in one of three phases: Loading (before `checkAuth` finishes),
 * Unauthenticated (no user) and Authenticated (a user is set).
 */
module Session {
  import opened Wrappers
  import opened Storage
  import JsText
  import opened Api

  const TokenKey: string := "todoAppToken"

  datatype AppState = AppState(user: Option<User>, loading: bool, store: Store)

  /** The state App mounts with: no user, loading, and whatever the browser had stored. */
  function Initial(store: Store): AppState
  {
    AppState(None, true, store)
  }

  /** `localStorage.getItem('todoAppToken')`. */
  function StoredToken(s: AppState): Option<string>
  {
    GetItem(s.store, TokenKey)
  }

  /** The verification request `checkAuth` makes: one exactly when the stored token is truthy. */
  function CheckAuthCall(s: AppState, verify: Outcome<User>): Option<Call>
  {
    if JsText.Truthy(StoredToken(s)) then Some(VerifyTokenCall(StoredToken(s).value, verify)) else None
  }

  /** The state after `checkAuth`, given the identity service's answer to the verification. */
  function CheckAuthStep(s: AppState, verify: Outcome<User>): AppState
  {
    if JsText.Truthy(StoredToken(s)) then
      match verify
      case Ok(userData) => s.(user := Some(userData), loading := false)
      case Err(_) => s.(store := RemoveItem(s.store, TokenKey), loading := false)
    else
      s.(loading := false)
  }

  /** `handleLogin(userData)`. */
  function LoginStep(s: AppState, userData: User): AppState
  {
    s.(user := Some(userData), store := SetItem(s.store, TokenKey, userData.token))
  }

  /** `handleLogout()`. */
  function LogoutStep(s: AppState): AppState
  {
    s.(user := None, store := RemoveItem(s.store, TokenKey))
  }

  datatype Phase = Loading | Unauthenticated | Authenticated

  function PhaseOf(s: AppState): Phase
  {
    if s.loading then Loading else if s.user.None? then Unauthenticated else Authenticated
  }

  /** What App renders for the current location `path`. */
  datatype Screen = Spinner | LoginScreen | TodoListScreen | RedirectHome

  function View(s: AppState, path: string): Screen
  {
    if s.loading then Spinner
    else if s.user.None? then LoginScreen
    else if path == "/" then TodoListScreen
    else RedirectHome
  }

  // ------------------------------------------------------------ startup

  /** App mounts in the Loading phase with no user, showing the spinner on every path. */
  lemma MountIsLoading(store: Store, path: string)
    ensures Initial(store).user == None && Initial(store).store == store
    ensures PhaseOf(Initial(store)) == Loading
    ensures View(Initial(store), path) == Spinner
  {
  }

  /** No truthy stored token: no verification request, the user and the store stay as they are. */
  lemma CheckAuthWithoutToken(s: AppState, verify: Outcome<User>)
    requires !JsText.Truthy(StoredToken(s))
    ensures CheckAuthCall(s, verify) == None
    ensures CheckAuthStep(s, verify) == s.(loading := false)
  {
  }

  /** A stored token the service accepts: it is verified, the returned user is set, the store is untouched. */
  lemma CheckAuthAccepted(s: AppState, userData: User)
    requires JsText.Truthy(StoredToken(s))
    ensures CheckAuthCall(s, Ok(userData)) == Some(VerifyTokenCall(s.store[TokenKey], Ok(userData)))
    ensures CheckAuthStep(s, Ok(userData)).user == Some(userData)
    ensures CheckAuthStep(s, Ok(userData)).store == s.store
  {
  }

  /** A stored token the service rejects: the key is removed and the user is left as it was. */
  lemma CheckAuthRejected(s: AppState, message: Option<string>)
    requires JsText.Truthy(StoredToken(s))
    ensures CheckAuthCall(s, Err(message)) == Some(VerifyTokenCall(s.store[TokenKey], Err(message)))
    ensures StoredToken(CheckAuthStep(s, Err(message))) == None
    ensures CheckAuthStep(s, Err(message)).user == s.user
  {
  }

  /** Startup always ends the Loading phase; it is Authenticated exactly when a truthy token was verified. */
  lemma StartupPhase(store: Store, verify: Outcome<User>)
    ensures !CheckAuthStep(Initial(store), verify).loading
    ensures PhaseOf(CheckAuthStep(Initial(store), verify)) == Authenticated <==>
      JsText.Truthy(GetItem(store, TokenKey)) && verify.Ok?
    ensures PhaseOf(CheckAuthStep(Initial(store), verify)) != Loading
  {
  }

  // ------------------------------------------------------ login, logout

  /** Login sets the user and stores its token; `loading` is unchanged. */
  lemma LoginStoresToken(s: AppState, userData: User)
    ensures LoginStep(s, userData).user == Some(userData)
    ensures StoredToken(LoginStep(s, userData)) == Some(userData.token)
    ensures LoginStep(s, userData).loading == s.loading
  {
  }

  /** Logout clears the user and the stored token, and doing it twice is doing it once. */
  lemma LogoutClears(s: AppState)
    ensures LogoutStep(s).user == None
    ensures StoredToken(LogoutStep(s)) == None
    ensures LogoutStep(LogoutStep(s)) == LogoutStep(s)
  {
  }

  /** After logout a reload does not verify anything and ends Unauthenticated. */
  lemma ReloadAfterLogout(s: AppState, verify: Outcome<User>)
    ensures CheckAuthCall(Initial(LogoutStep(s).store), verify) == None
    ensures PhaseOf(CheckAuthStep(Initial(LogoutStep(s).store), verify)) == Unauthenticated
  {
  }

  /** Only `todoAppToken` is read or written: every other entry survives each step. */
  lemma OnlyTokenKeyTouched(s: AppState, verify: Outcome<User>, userData: User, key: string)
    requires key != TokenKey
    ensures GetItem(CheckAuthStep(s, verify).store, key) == GetItem(s.store, key)
    ensures GetItem(LoginStep(s, userData).store, key) == GetItem(s.store, key)
    ensures GetItem(LogoutStep(s).store, key) == GetItem(s.store, key)
  {
  }

  // --------------------------------------------------------------- view

  /** The screen follows the phase: spinner, login form, or the task list at "/" with every other path redirected. */
  lemma ViewFollowsPhase(s: AppState, path: string)
    ensures View(s, path) == Spinner <==> PhaseOf(s) == Loading
    ensures View(s, path) == LoginScreen <==> PhaseOf(s) == Unauthenticated
    ensures View(s, path) == TodoListScreen <==> PhaseOf(s) == Authenticated && path == "/"
    ensures View(s, path) == RedirectHome <==> PhaseOf(s) == Authenticated && path != "/"
  {
  }

  // ---------------------------------------------------------- invariant

  /**
   * Once startup is over, a user is set only while the key is present, and a
   * truthy stored token is present only while a user is set.
   */
  ghost predicate Consistent(s: AppState)
  {
    !s.loading
    && (s.user.Some? ==> TokenKey in s.store)
    && (JsText.Truthy(StoredToken(s)) ==> s.user.Some?)
  }

  /** The user-driven transitions after startup. */
  datatype Event = LoggedIn(userData: User) | LoggedOut

  function Apply(s: AppState, e: Event): AppState
  {
    match e
    case LoggedIn(userData) => LoginStep(s, userData)
    case LoggedOut => LogoutStep(s)
  }

  function Replay(s: AppState, events: seq<Event>): AppState
    decreases |events|
  {
    if events == [] then s else Replay(Apply(s, events[0]), events[1..])
  }

  lemma StartupIsConsistent(store: Store, verify: Outcome<User>)
    ensures Consistent(CheckAuthStep(Initial(store), verify))
  {
  }

  lemma EventPreservesConsistency(s: AppState, e: Event)
    requires Consistent(s)
    ensures Consistent(Apply(s, e))
  {
  }

  /** Every session — startup followed by any logins and logouts — stays consistent. */
  lemma {:induction false} SessionStaysConsistent(s: AppState, events: seq<Event>)
    requires Consistent(s)
    ensures Consistent(Replay(s, events))
    decreases |events|
  {
    if events != [] {
      EventPreservesConsistency(s, events[0]);
      SessionStaysConsistent(Apply(s, events[0]), events[1..]);
    }
  }

  lemma EverySessionConsistent(store: Store, verify: Outcome<User>, events: seq<Event>)
    ensures Consistent(Replay(CheckAuthStep(Initial(store), verify), events))
  {
    StartupIsConsistent(store, verify);
    SessionStaysConsistent(CheckAuthStep(Initial(store), verify), events);
  }

  // -------------------------------------------------------------- class

  /** The App component's state. The store is the browser's `localStorage`. */
  class App {
    var user: Option<User>
    var loading: bool
    var store: Store

    constructor (store0: Store)
      ensures Model() == Initial(store0)
      ensures user == None && loading && store == store0
    {
      user := None;
      loading := true;
      store := store0;
    }

    function Model(): AppState
      reads this
    {
      AppState(user, loading, store)
    }

    /** `checkAuth`, given the identity service's answer should the token be sent for verification. */
    method CheckAuth(api: Client, verify: Outcome<User>)
      modifies this, api
      ensures Model() == CheckAuthStep(old(Model()), verify)
      ensures api.State() == match CheckAuthCall(old(Model()), verify)
        case None => old(api.State())
        case Some(call) => Perform(old(api.State()), call)
    {
      var token := GetItem(store, TokenKey);
      if JsText.Truthy(token) {
        var userData := api.VerifyToken(token.value, verify);
        match userData {
          case Ok(data) => user := Some(data);
          case Err(_) => store := RemoveItem(store, TokenKey);
        }
      }
      loading := false;
    }

    method HandleLogin(userData: User)
      modifies this
      ensures Model() == LoginStep(old(Model()), userData)
    {
      user := Some(userData);
      store := SetItem(store, TokenKey, userData.token);
    }

    method HandleLogout()
      modifies this
      ensures Model() == LogoutStep(old(Model()))
    {
      user := None;
      store := RemoveItem(store, TokenKey);
    }

    /** The rendered screen, by phase. */
    function Render(path: string): (r: Screen)
      reads this
      ensures r == Spinner <==> PhaseOf(Model()) == Loading
      ensures r == LoginScreen <==> PhaseOf(Model()) == Unauthenticated
      ensures PhaseOf(Model()) == Authenticated ==> r == (if path == "/" then TodoListScreen else RedirectHome)
    {
      ViewFollowsPhase(Model(), path);
      View(Model(), path)
    }
  }
}
