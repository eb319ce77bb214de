/**
 * The sign-in / registration form of src/components/Login.jsx: its input
 * guards, the `loading` and `error` lifecycle around each request, and the
 * hand-over of the authenticated user to the App through `onLogin`.
 */
module AuthForm {
  import opened Wrappers
  import JsText
  import opened Api
  import Session

  const LoginFallback: string := "Failed to login. Please check your credentials."
  const RegisterFallback: string := "Failed to register user."

  datatype Form = Form(showRegister: bool, name: string, email: string, password: string,
                       error: string, loading: bool)

  function Initial(): Form
  {
    Form(false, "", "", "", "", false)
  }

  /** `err.response?.data?.error || fallback`: the server's text unless it is absent or empty. */
  function ErrorText(message: Option<string>, fallback: string): (r: string)
    ensures JsText.Truthy(message) ==> r == message.value
    ensures !JsText.Truthy(message) ==> r == fallback
    ensures fallback != "" ==> r != ""
  {
    if JsText.Truthy(message) then message.value else fallback
  }

  /** The form while a request is in flight: error cleared, loading set. */
  function Pending(f: Form): Form
  {
    f.(loading := true, error := "")
  }

  /** The form once the request has settled (the `catch` and `finally` blocks). */
  function Settle(f: Form, response: Outcome<User>, fallback: string): Form
  {
    match response
    case Ok(_) => f.(loading := false)
    case Err(message) => f.(error := ErrorText(message, fallback), loading := false)
  }

  /** What a submit does: the new form, the API call made if any, and the users passed to `onLogin`. */
  datatype Submission = Submission(form: Form, call: Option<Call>, onLogin: seq<User>)

  function Handed(response: Outcome<User>): seq<User>
  {
    if response.Ok? then [response.data] else []
  }

  /** `handleLogin`: dispatches only with a non-empty email and password. */
  function SignIn(f: Form, response: Outcome<User>): Submission
  {
    if f.email == "" || f.password == "" then Submission(f, None, [])
    else Submission(Settle(Pending(f), response, LoginFallback),
                    Some(LoginCall(f.email, f.password, response)), Handed(response))
  }

  /** `handleRegister`: dispatches only with a non-empty name, email and password. */
  function SignUp(f: Form, response: Outcome<User>): Submission
  {
    if f.name == "" || f.email == "" || f.password == "" then Submission(f, None, [])
    else Submission(Settle(Pending(f), response, RegisterFallback),
                    Some(RegisterCall(f.name, f.email, f.password, response)), Handed(response))
  }

  /** The "Already have an account?" (false) and "Register" (true) links. */
  function ShowRegister(f: Form, show: bool): Form
  {
    f.(showRegister := show)
  }

  datatype Input = NameInput | EmailInput | PasswordInput

  /** An input's `onChange`: `setName`, `setEmail` or `setPassword`. */
  function Edit(f: Form, input: Input, value: string): Form
  {
    match input
    case NameInput => f.(name := value)
    case EmailInput => f.(email := value)
    case PasswordInput => f.(password := value)
  }

  // ------------------------------------------------------------- guards

  /** Sign-in dispatches exactly when email and password are non-empty; otherwise nothing changes. */
  lemma SignInGuard(f: Form, response: Outcome<User>)
    ensures SignIn(f, response).call.Some? <==> f.email != "" && f.password != ""
    ensures SignIn(f, response).call.Some? ==>
      SignIn(f, response).call == Some(LoginCall(f.email, f.password, response))
    ensures SignIn(f, response).call.None? ==> SignIn(f, response) == Submission(f, None, [])
  {
  }

  /**
   * The guard tests emptiness, not trimmed emptiness: non-empty credentials
   * made only of white space, which trim to "", are still sent.
   */
  lemma WhitespaceCredentialsDispatched(f: Form, response: Outcome<User>)
    requires f.email != "" && f.password != ""
    requires JsText.AllWhitespace(f.email) && JsText.AllWhitespace(f.password)
    ensures JsText.Trim(f.email) == "" && JsText.Trim(f.password) == ""
    ensures SignIn(f, response).call == Some(LoginCall(f.email, f.password, response))
  {
    JsText.TrimEmptyIff(f.email);
    JsText.TrimEmptyIff(f.password);
  }

  /** Registration dispatches exactly when name, email and password are all non-empty; otherwise nothing changes. */
  lemma SignUpGuard(f: Form, response: Outcome<User>)
    ensures SignUp(f, response).call.Some? <==> f.name != "" && f.email != "" && f.password != ""
    ensures SignUp(f, response).call.Some? ==>
      SignUp(f, response).call == Some(RegisterCall(f.name, f.email, f.password, response))
    ensures SignUp(f, response).call.None? ==> SignUp(f, response) == Submission(f, None, [])
  {
  }

  /** Before the call goes out, the error is cleared and loading is set; nothing else moves. */
  lemma PendingState(f: Form)
    ensures Pending(f).loading && Pending(f).error == ""
    ensures Pending(f).(loading := f.loading, error := f.error) == f
  {
  }

  // ----------------------------------------------------------- outcomes

  /**
   * A dispatched submit settles with loading false. On success `onLogin`
   * receives the returned user exactly once and the error stays cleared; on
   * failure `onLogin` is not called and the error is the server's message or
   * the fallback.
   */
  lemma SubmissionOutcome(f: Form, response: Outcome<User>, register: bool)
    requires if register then f.name != "" && f.email != "" && f.password != ""
             else f.email != "" && f.password != ""
    ensures var sub := if register then SignUp(f, response) else SignIn(f, response);
      var fallback := if register then RegisterFallback else LoginFallback;
      && !sub.form.loading
      && sub.form.(loading := f.loading, error := f.error) == f
      && (response.Ok? ==> sub.onLogin == [response.data] && sub.form.error == "")
      && (response.Err? ==> sub.onLogin == [] && sub.form.error == ErrorText(response.message, fallback)
                            && sub.form.error != "")
  {
  }

  /** An input's change sets that input and leaves the other inputs, the mode, the error and loading alone. */
  lemma EditOnlyThat(f: Form, input: Input, value: string)
    ensures Edit(f, input, value).name == if input == NameInput then value else f.name
    ensures Edit(f, input, value).email == if input == EmailInput then value else f.email
    ensures Edit(f, input, value).password == if input == PasswordInput then value else f.password
    ensures Edit(f, input, value).showRegister == f.showRegister
    ensures Edit(f, input, value).error == f.error && Edit(f, input, value).loading == f.loading
  {
  }

  /** The two links toggle `showRegister` and nothing else. */
  lemma ShowRegisterOnly(f: Form, show: bool)
    ensures ShowRegister(f, show).showRegister == show
    ensures ShowRegister(f, show).(showRegister := f.showRegister) == f
  {
  }

  // -------------------------------------------------------------- class

  /** The Login component's state. */
  class LoginForm {
    var showRegister: bool
    var name: string
    var email: string
    var password: string
    var error: string
    var loading: bool

    constructor ()
      ensures Model() == Initial()
      ensures !showRegister && name == "" && email == "" && password == ""
      ensures error == "" && !loading
    {
      showRegister, name, email, password, error, loading := false, "", "", "", "", false;
    }

    function Model(): Form
      reads this
    {
      Form(showRegister, name, email, password, error, loading)
    }

    /** Submits the sign-in form; `app.HandleLogin` is the `onLogin` callback. */
    method HandleLogin(api: Client, app: Session.App, response: Outcome<User>)
      modifies this, api, app
      ensures Model() == SignIn(old(Model()), response).form
      ensures api.State() == match SignIn(old(Model()), response).call
        case None => old(api.State())
        case Some(call) => Perform(old(api.State()), call)
      ensures app.Model() == if response.Ok? && SignIn(old(Model()), response).call.Some?
        then Session.LoginStep(old(app.Model()), response.data) else old(app.Model())
    {
      if email == "" || password == "" {
        return;
      }
      loading := true;
      error := "";
      assert Model() == Pending(old(Model()));
      var user := api.Login(email, password, response);
      match user {
        case Ok(data) => app.HandleLogin(data);
        case Err(message) => error := ErrorText(message, LoginFallback);
      }
      loading := false;
    }

    /** Submits the registration form; `app.HandleLogin` is the `onLogin` callback. */
    method HandleRegister(api: Client, app: Session.App, response: Outcome<User>)
      modifies this, api, app
      ensures Model() == SignUp(old(Model()), response).form
      ensures api.State() == match SignUp(old(Model()), response).call
        case None => old(api.State())
        case Some(call) => Perform(old(api.State()), call)
      ensures app.Model() == if response.Ok? && SignUp(old(Model()), response).call.Some?
        then Session.LoginStep(old(app.Model()), response.data) else old(app.Model())
    {
      if name == "" || email == "" || password == "" {
        return;
      }
      loading := true;
      error := "";
      assert Model() == Pending(old(Model()));
      var user := api.Register(name, email, password, response);
      match user {
        case Ok(data) => app.HandleLogin(data);
        case Err(message) => error := ErrorText(message, RegisterFallback);
      }
      loading := false;
    }

    method SetShowRegister(show: bool)
      modifies this
      ensures Model() == ShowRegister(old(Model()), show)
    {
      showRegister := show;
    }

    method HandleEdit(input: Input, value: string)
      modifies this
      ensures Model() == Edit(old(Model()), input, value)
    {
      match input
      case NameInput => name := value;
      case EmailInput => email := value;
      case PasswordInput => password := value;
    }
  }
}
