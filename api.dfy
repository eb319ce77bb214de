/**
 * The HTTP client adapter of src/services/api.js.
 *
 * The network is not modelled: every operation takes the outcome the server
 * would produce (`Ok(data)` or `Err(message)`) and records the request it
 * sends, together with the interceptors registered at that moment, in a log.
 * The global axios interceptor list is a sequence of tokens that only grows.
 */
module Api {
  import opened Wrappers
  import JsText

  /** The two remote services. */
  datatype Service = UserService | TodoService

  // Each base URL is written in two pieces, split where the two host names first differ.
  const UserServiceUrl: string := "https://backend-" + "hpgudzech6h5e9e7.indonesiacentral-01.azurewebsites.net"
  const TodoServiceUrl: string := "https://backend2" + "-eudvexdnfqe5h5d5.indonesiacentral-01.azurewebsites.net"

  function BaseUrl(service: Service): string
  {
    match service
    case UserService => UserServiceUrl
    case TodoService => TodoServiceUrl
  }

  /** A template string `${baseUrl}${path}`. */
  function Url(service: Service, path: string): string
  {
    BaseUrl(service) + path
  }

  /** Splits a URL into the service whose base it starts with and the rest. */
  function Route(url: string): Option<(Service, string)>
  {
    if UserServiceUrl <= url then Some((UserService, url[|UserServiceUrl|..]))
    else if TodoServiceUrl <= url then Some((TodoService, url[|TodoServiceUrl|..]))
    else None
  }

  /** Every URL the client builds names its service and path unambiguously. */
  lemma RouteUrl(service: Service, path: string)
    ensures Route(Url(service, path)) == Some((service, path))
  {
    var url := Url(service, path);
    assert url[..|BaseUrl(service)|] == BaseUrl(service);
    if service == TodoService {
      assert UserServiceUrl[15] == "https://backend-"[15] == '-';
      assert url[15] == "https://backend2"[15] == '2';
    }
  }

  // ---------------------------------------------------------------- data

  /** The identity service's user object: {id, name, email, token}. */
  datatype User = User(id: int, name: string, email: string, token: string)

  /** The task service's todo object. */
  datatype Todo = Todo(id: int, title: string, description: Option<string>,
                       dueDate: Option<string>, isCompleted: bool, createdAt: string)

  /** The body of a creation request; `dueDate == None` is an explicit `null`. */
  datatype TodoPayload = TodoPayload(title: string, description: string, dueDate: Option<string>)

  /** What the server answers: the response data, or a failure carrying `err.response.data.error` if any. */
  datatype Outcome<+T> = Ok(data: T) | Err(message: Option<string>)

  datatype HttpMethod = Get | Post

  datatype Body =
    | NoBody
    | Credentials(email: string, password: string)
    | Registration(name: string, email: string, password: string)
    | TokenBody(token: string)
    | TodoBody(payload: TodoPayload)

  datatype Request = Request(verb: HttpMethod, url: string, body: Body)

  /** A request as it left the client, with the interceptors registered at that moment. */
  datatype Dispatch = Dispatch(request: Request, interceptors: seq<string>)

  // ------------------------------------------------------------ requests

  function LoginRequest(email: string, password: string): Request
  {
    Request(Post, Url(UserService, "/login"), Credentials(email, password))
  }

  function RegisterRequest(name: string, email: string, password: string): Request
  {
    Request(Post, Url(UserService, "/register"), Registration(name, email, password))
  }

  function GetUserRequest(userId: string): Request
  {
    Request(Get, Url(UserService, "/users/" + userId), NoBody)
  }

  function VerifyTokenRequest(token: string): Request
  {
    Request(Post, Url(UserService, "/verify-token"), TokenBody(token))
  }

  function GetTodosRequest(): Request
  {
    Request(Get, Url(TodoService, "/todos"), NoBody)
  }

  function CreateTodoRequest(payload: TodoPayload): Request
  {
    Request(Post, Url(TodoService, "/todos"), TodoBody(payload))
  }

  /** One call of an exported operation, with the answer the server gives it. */
  datatype Call =
    | LoginCall(email: string, password: string, loginResponse: Outcome<User>)
    | RegisterCall(name: string, email: string, password: string, registerResponse: Outcome<User>)
    | GetUserCall(userId: string, userResponse: Outcome<User>)
    | VerifyTokenCall(token: string, verifyResponse: Outcome<User>)
    | GetTodosCall(todosResponse: Outcome<seq<Todo>>)
    | CreateTodoCall(payload: TodoPayload, createResponse: Outcome<Todo>)

  function RequestOf(call: Call): Request
  {
    match call
    case LoginCall(email, password, _) => LoginRequest(email, password)
    case RegisterCall(name, email, password, _) => RegisterRequest(name, email, password)
    case GetUserCall(userId, _) => GetUserRequest(userId)
    case VerifyTokenCall(token, _) => VerifyTokenRequest(token)
    case GetTodosCall(_) => GetTodosRequest()
    case CreateTodoCall(payload, _) => CreateTodoRequest(payload)
  }

  /** The identity operations go to the user service, the todo operations to the todo service, each at its own path. */
  lemma RequestTargets(call: Call)
    ensures Route(RequestOf(call).url) == Some(match call
      case LoginCall(_, _, _) => (UserService, "/login")
      case RegisterCall(_, _, _, _) => (UserService, "/register")
      case GetUserCall(userId, _) => (UserService, "/users/" + userId)
      case VerifyTokenCall(_, _) => (UserService, "/verify-token")
      case GetTodosCall(_) => (TodoService, "/todos")
      case CreateTodoCall(_, _) => (TodoService, "/todos"))
  {
    match call
    case LoginCall(_, _, _) => RouteUrl(UserService, "/login");
    case RegisterCall(_, _, _, _) => RouteUrl(UserService, "/register");
    case GetUserCall(userId, _) => RouteUrl(UserService, "/users/" + userId);
    case VerifyTokenCall(_, _) => RouteUrl(UserService, "/verify-token");
    case GetTodosCall(_) => RouteUrl(TodoService, "/todos");
    case CreateTodoCall(_, _) => RouteUrl(TodoService, "/todos");
  }

  // --------------------------------------------------------- interceptors

  type Headers = map<string, string>

  const Authorization: string := "Authorization"

  /** The request interceptor installed for `token`. */
  function Intercept(token: string, config: Headers): (r: Headers)
    ensures JsText.Truthy(Some(token)) ==> Authorization in r && r[Authorization] == "Bearer " + token
    ensures !JsText.Truthy(Some(token)) ==> r == config
    ensures forall k :: k != Authorization ==> (k in r <==> k in config)
    ensures forall k :: k != Authorization && k in r ==> r[k] == config[k]
  {
    if JsText.Truthy(Some(token)) then config[Authorization := "Bearer " + token] else config
  }

  /** Runs the interceptors of `order` on `config`, first element first. */
  function ApplyInOrder(order: seq<string>, config: Headers): Headers
    decreases |order|
  {
    if order == [] then config else ApplyInOrder(order[1..], Intercept(order[0], config))
  }

  /** The last truthy token of `order`, if any. */
  function LastTruthy(order: seq<string>): Option<string>
    decreases |order|
  {
    if order == [] then None
    else if JsText.Truthy(Some(order[|order| - 1])) then Some(order[|order| - 1])
    else LastTruthy(order[..|order| - 1])
  }

  lemma {:induction false} LastTruthyFound(order: seq<string>)
    ensures LastTruthy(order).Some? <==> exists t :: t in order && t != ""
    ensures LastTruthy(order).Some? ==> LastTruthy(order).value in order && LastTruthy(order).value != ""
    decreases |order|
  {
    if order != [] {
      var init := order[..|order| - 1];
      LastTruthyFound(init);
      var last := order[|order| - 1];
      assert order == init + [last];
      assert last in order;
      if last == "" {
        forall t | t in order && t != "" ensures t in init {
          assert t in init || t == last;
        }
      }
      if LastTruthy(init).Some? {
        assert LastTruthy(init).value in order;
      }
    }
  }

  lemma {:induction false} ApplyInOrderEffect(order: seq<string>, config: Headers)
    ensures ApplyInOrder(order, config) ==
      match LastTruthy(order)
      case None => config
      case Some(t) => config[Authorization := "Bearer " + t]
    decreases |order|
  {
    if order != [] {
      var rest := order[1..];
      ApplyInOrderEffect(rest, Intercept(order[0], config));
      LastTruthySplit(order[0], rest);
      assert order == [order[0]] + rest;
    }
  }

  lemma {:induction false} LastTruthySplit(first: string, rest: seq<string>)
    ensures LastTruthy([first] + rest) ==
      if LastTruthy(rest).Some? then LastTruthy(rest)
      else if first != "" then Some(first) else None
    decreases |rest|
  {
    var s := [first] + rest;
    if rest != [] {
      assert s[..|s| - 1] == [first] + rest[..|rest| - 1];
      LastTruthySplit(first, rest[..|rest| - 1]);
    } else {
      assert s[..|s| - 1] == [];
    }
  }

  /**
   * The order in which axios runs stacked interceptors is not modelled, so this
   * holds for every order of the registry: other headers are untouched; with no
   * truthy token the config is unchanged; otherwise `Authorization` is
   * `"Bearer " + t` for some truthy registered token `t`.
   */
  lemma HeadersForAnyOrder(registry: seq<string>, order: seq<string>, config: Headers)
    requires multiset(order) == multiset(registry)
    ensures forall k :: k != Authorization ==>
      (k in ApplyInOrder(order, config) <==> k in config) &&
      (k in config ==> ApplyInOrder(order, config)[k] == config[k])
    ensures (forall t :: t in registry ==> t == "") ==> ApplyInOrder(order, config) == config
    ensures (exists t :: t in registry && t != "") ==>
      Authorization in ApplyInOrder(order, config) &&
      exists t :: t in registry && t != "" && ApplyInOrder(order, config)[Authorization] == "Bearer " + t
  {
    ApplyInOrderEffect(order, config);
    LastTruthyFound(order);
    forall t | t in order ensures t in registry {
      assert t in multiset(order);
    }
    forall t | t in registry ensures t in order {
      assert t in multiset(registry);
    }
    if LastTruthy(order).Some? {
      var t := LastTruthy(order).value;
      assert t in registry && t != "";
    }
  }

  // -------------------------------------------------------------- state

  /** The interceptor registry and the log of requests sent. */
  datatype ApiState = ApiState(interceptors: seq<string>, sent: seq<Dispatch>)

  /**
   * The effect of one call on the registry and the request log: `verifyToken`
   * registers its argument before sending; `login` and `register` register the
   * returned token once a successful response arrives; nothing else registers.
   */
  function Perform(st: ApiState, call: Call): ApiState
  {
    var before := if call.VerifyTokenCall? then st.interceptors + [call.token] else st.interceptors;
    var after := match call
      case LoginCall(_, _, Ok(user)) => before + [user.token]
      case RegisterCall(_, _, _, Ok(user)) => before + [user.token]
      case _ => before;
    ApiState(after, st.sent + [Dispatch(RequestOf(call), before)])
  }

  /** The per-operation registration rule. */
  lemma CallRegistration(st: ApiState, call: Call)
    ensures call.LoginCall? ==> (Perform(st, call).interceptors ==
      st.interceptors + (if call.loginResponse.Ok? then [call.loginResponse.data.token] else []))
    ensures call.RegisterCall? ==> (Perform(st, call).interceptors ==
      st.interceptors + (if call.registerResponse.Ok? then [call.registerResponse.data.token] else []))
    ensures call.VerifyTokenCall? ==> Perform(st, call).interceptors == st.interceptors + [call.token]
    ensures call.GetUserCall? || call.GetTodosCall? || call.CreateTodoCall? ==>
      Perform(st, call).interceptors == st.interceptors
  {
  }

  /** Each call sends exactly one request; only `verifyToken` sends it with its own token already registered. */
  lemma CallDispatch(st: ApiState, call: Call)
    ensures Perform(st, call).sent == st.sent + [Dispatch(RequestOf(call),
      if call.VerifyTokenCall? then st.interceptors + [call.token] else st.interceptors)]
  {
  }

  /** The effect of a sequence of calls, first call first. */
  function Run(st: ApiState, calls: seq<Call>): ApiState
    decreases |calls|
  {
    if calls == [] then st else Run(Perform(st, calls[0]), calls[1..])
  }

  /** No interceptor is ever removed, and each call adds at most one and logs exactly one request. */
  lemma {:induction false} RegistryOnlyGrows(st: ApiState, calls: seq<Call>)
    ensures st.interceptors <= Run(st, calls).interceptors
    ensures |Run(st, calls).interceptors| <= |st.interceptors| + |calls|
    ensures st.sent <= Run(st, calls).sent
    ensures |Run(st, calls).sent| == |st.sent| + |calls|
    decreases |calls|
  {
    if calls != [] {
      RegistryOnlyGrows(Perform(st, calls[0]), calls[1..]);
    }
  }

  /** A registered token stays registered and is active for every later request. */
  lemma {:induction false} TokenStaysActive(st: ApiState, calls: seq<Call>, token: string)
    requires token in st.interceptors
    ensures token in Run(st, calls).interceptors
    ensures forall i :: |st.sent| <= i < |Run(st, calls).sent| ==> token in Run(st, calls).sent[i].interceptors
    decreases |calls|
  {
    if calls != [] {
      var next := Perform(st, calls[0]);
      TokenStaysActive(next, calls[1..], token);
      RegistryOnlyGrows(next, calls[1..]);
      assert Run(st, calls).sent[|st.sent|] == next.sent[|st.sent|];
    }
  }

  /**
   * Registering a token does not replace the previous one. After a login as
   * `a` the next request still carries `a`'s interceptor, whatever happens
   * in the App in between: a logout makes no call. After a second login as
   * `b`, the next request carries both, so when `a`'s interceptor runs last
   * its token wins.
   */
  lemma StaleCredential(st: ApiState, e1: string, p1: string, a: User, e2: string, p2: string, b: User,
                        next: Outcome<seq<Todo>>, config: Headers)
    requires a.token != ""
    ensures var once := Perform(st, LoginCall(e1, p1, Ok(a)));
      Perform(once, GetTodosCall(next)).sent[|st.sent| + 1].interceptors == st.interceptors + [a.token]
      && Authorization in ApplyInOrder([a.token], config)
      && ApplyInOrder([a.token], config)[Authorization] == "Bearer " + a.token
    ensures var twice := Perform(Perform(st, LoginCall(e1, p1, Ok(a))), LoginCall(e2, p2, Ok(b)));
      Perform(twice, GetTodosCall(next)).sent[|st.sent| + 2].interceptors == st.interceptors + [a.token, b.token]
      && Authorization in ApplyInOrder([b.token, a.token], config)
      && ApplyInOrder([b.token, a.token], config)[Authorization] == "Bearer " + a.token
  {
    ApplyInOrderEffect([a.token], config);
    ApplyInOrderEffect([b.token, a.token], config);
    assert [a.token][..0] == [];
    assert st.interceptors + [a.token] + [b.token] == st.interceptors + [a.token, b.token];
  }

  /**
   * A stored token the service rejects is registered anyway, so a later login
   * adds a second interceptor after it: both go out with the next request.
   */
  lemma RejectedTokenThenLogin(st: ApiState, t: string, message: Option<string>,
                               e: string, p: string, a: User, next: Outcome<seq<Todo>>)
    ensures var after := Perform(Perform(st, VerifyTokenCall(t, Err(message))), LoginCall(e, p, Ok(a)));
      Perform(after, GetTodosCall(next)).sent[|st.sent| + 2].interceptors == st.interceptors + [t, a.token]
      && |after.sent| == |st.sent| + 2
  {
    assert st.interceptors + [t] + [a.token] == st.interceptors + [t, a.token];
  }

  // ------------------------------------------------------------- client

  /** The module-level axios instance: its interceptor list and the requests it has sent. */
  class Client {
    var interceptors: seq<string>
    var sent: seq<Dispatch>

    /** The axios instance starts with no interceptors and nothing sent. */
    constructor ()
      ensures interceptors == [] && sent == []
    {
      interceptors := [];
      sent := [];
    }

    function State(): ApiState
      reads this
    {
      ApiState(interceptors, sent)
    }

    /** `setupAuthInterceptor(token)`: appends one interceptor and removes none. */
    method SetupAuthInterceptor(token: string)
      modifies this
      ensures interceptors == old(interceptors) + [token]
      ensures sent == old(sent)
    {
      interceptors := interceptors + [token];
    }

    /** Sends a request through the current interceptors. */
    method Send(request: Request)
      modifies this
      ensures sent == old(sent) + [Dispatch(request, old(interceptors))]
      ensures interceptors == old(interceptors)
    {
      sent := sent + [Dispatch(request, interceptors)];
    }

    method Login(email: string, password: string, response: Outcome<User>) returns (r: Outcome<User>)
      modifies this
      ensures r == response
      ensures State() == Perform(old(State()), LoginCall(email, password, response))
    {
      Send(LoginRequest(email, password));
      if response.Ok? {
        SetupAuthInterceptor(response.data.token);
      }
      r := response;
    }

    method Register(name: string, email: string, password: string, response: Outcome<User>) returns (r: Outcome<User>)
      modifies this
      ensures r == response
      ensures State() == Perform(old(State()), RegisterCall(name, email, password, response))
    {
      Send(RegisterRequest(name, email, password));
      if response.Ok? {
        SetupAuthInterceptor(response.data.token);
      }
      r := response;
    }

    method GetUser(userId: string, response: Outcome<User>) returns (r: Outcome<User>)
      modifies this
      ensures r == response
      ensures State() == Perform(old(State()), GetUserCall(userId, response))
    {
      Send(GetUserRequest(userId));
      r := response;
    }

    method VerifyToken(token: string, response: Outcome<User>) returns (r: Outcome<User>)
      modifies this
      ensures r == response
      ensures State() == Perform(old(State()), VerifyTokenCall(token, response))
    {
      SetupAuthInterceptor(token);
      Send(VerifyTokenRequest(token));
      r := response;
    }

    method GetTodos(response: Outcome<seq<Todo>>) returns (r: Outcome<seq<Todo>>)
      modifies this
      ensures r == response
      ensures State() == Perform(old(State()), GetTodosCall(response))
    {
      Send(GetTodosRequest());
      r := response;
    }

    method CreateTodo(payload: TodoPayload, response: Outcome<Todo>) returns (r: Outcome<Todo>)
      modifies this
      ensures r == response
      ensures State() == Perform(old(State()), CreateTodoCall(payload, response))
    {
      Send(CreateTodoRequest(payload));
      r := response;
    }
  }
}
