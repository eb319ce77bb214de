/**
 * The task list of src/components/TodoList.jsx: fetching the list, editing
 * the new-task form, submitting it, and the empty-date branch of date
 * formatting.
 */
module Tasks {
  import opened Wrappers
  import JsText
  import opened Api

  const FetchError: string := "Failed to fetch todos. Please try again."
  const CreateError: string := "Failed to create todo. Please try again."

  /** The new-task form's three inputs, as the strings the inputs hold. */
  datatype NewTodo = NewTodo(title: string, description: string, dueDate: string)

  const EmptyForm: NewTodo := NewTodo("", "", "")

  /** The `name` attribute of a form input. */
  datatype Field = Title | Description | DueDate

  datatype ListState = ListState(todos: seq<Todo>, loading: bool, error: string,
                                 form: NewTodo, showForm: bool)

  /** The state TodoList mounts with. */
  function Initial(): ListState
  {
    ListState([], true, "", EmptyForm, false)
  }

  /** The state after `fetchTodos`, given the todo service's answer. */
  function FetchStep(s: ListState, response: Outcome<seq<Todo>>): ListState
  {
    match response
    case Ok(data) => s.(todos := data, error := "", loading := false)
    case Err(_) => s.(error := FetchError, loading := false)
  }

  function Get(form: NewTodo, field: Field): string
  {
    match field
    case Title => form.title
    case Description => form.description
    case DueDate => form.dueDate
  }

  /** `{ ...newTodo, [name]: value }`. */
  function SetField(form: NewTodo, field: Field, value: string): NewTodo
  {
    match field
    case Title => form.(title := value)
    case Description => form.(description := value)
    case DueDate => form.(dueDate := value)
  }

  /** The creation payload: title and description as typed, an empty due date sent as `null`. */
  function PayloadOf(form: NewTodo): TodoPayload
  {
    TodoPayload(form.title, form.description, if form.dueDate == "" then None else Some(form.dueDate))
  }

  /** `[createdTodo, ...todos]`. */
  function Prepend(created: Todo, todos: seq<Todo>): (r: seq<Todo>)
    ensures |r| == |todos| + 1 && r[0] == created
    ensures forall i :: 0 <= i < |todos| ==> r[i + 1] == todos[i]
  {
    [created] + todos
  }

  /** `!newTodo.title.trim()`: the guard that stops a submit before any request. */
  predicate BlankTitle(form: NewTodo)
  {
    JsText.Trim(form.title) == ""
  }

  /** The creation request a submit makes, if any. */
  function SubmitCall(s: ListState, response: Outcome<Todo>): Option<Call>
  {
    if BlankTitle(s.form) then None else Some(CreateTodoCall(PayloadOf(s.form), response))
  }

  /** The state after `handleSubmit`, given the todo service's answer. */
  function SubmitStep(s: ListState, response: Outcome<Todo>): ListState
  {
    if BlankTitle(s.form) then s
    else match response
      case Ok(created) => s.(todos := Prepend(created, s.todos), form := EmptyForm, showForm := false)
      case Err(_) => s.(error := CreateError)
  }

  /** The header button (`!showForm`) and the "Add your first task" button (`true`). */
  function SetShowForm(s: ListState, show: bool): ListState
  {
    s.(showForm := show)
  }

  /**
   * `formatDate`: `null` for an empty or absent date; otherwise the locale
   * rendering, which the host library does and which is `render` here.
   */
  function FormatDate(date: Option<string>, render: string -> string): Option<string>
  {
    if JsText.Truthy(date) then Some(render(date.value)) else None
  }

  // -------------------------------------------------------------- fetch

  /** A successful fetch replaces the list and clears the error; a failed one keeps the list and sets the error. Loading ends either way. */
  lemma FetchOutcome(s: ListState, response: Outcome<seq<Todo>>)
    ensures !FetchStep(s, response).loading
    ensures response.Ok? ==> FetchStep(s, response).todos == response.data && FetchStep(s, response).error == ""
    ensures response.Err? ==> FetchStep(s, response).todos == s.todos && FetchStep(s, response).error == FetchError
    ensures FetchStep(s, response).form == s.form && FetchStep(s, response).showForm == s.showForm
  {
  }

  /** The fetch on mount that fails leaves an empty list and shows an error. */
  lemma MountFetchFailure(message: Option<string>)
    ensures FetchStep(Initial(), Err(message)).todos == []
    ensures FetchStep(Initial(), Err(message)).error != ""
    ensures !FetchStep(Initial(), Err(message)).loading
  {
  }

  // --------------------------------------------------------------- form

  /** An input change sets the named field and no other. */
  lemma SetFieldOnlyThat(form: NewTodo, field: Field, value: string, other: Field)
    ensures Get(SetField(form, field, value), other) == if other == field then value else Get(form, other)
  {
  }

  /** The payload carries title and description verbatim; the due date is `null` exactly when the input is empty. */
  lemma PayloadFields(form: NewTodo)
    ensures PayloadOf(form).title == form.title && PayloadOf(form).description == form.description
    ensures PayloadOf(form).dueDate.None? <==> form.dueDate == ""
    ensures PayloadOf(form).dueDate.Some? ==> PayloadOf(form).dueDate.value == form.dueDate
  {
  }

  // ------------------------------------------------------------- submit

  /** A submit sends nothing and changes nothing exactly when the title is white space only. */
  lemma BlankTitleGuard(s: ListState, response: Outcome<Todo>)
    ensures SubmitCall(s, response).None? <==> JsText.AllWhitespace(s.form.title)
    ensures JsText.AllWhitespace(s.form.title) ==> SubmitStep(s, response) == s
    ensures !JsText.AllWhitespace(s.form.title) ==>
      SubmitCall(s, response) == Some(CreateTodoCall(PayloadOf(s.form), response))
  {
    JsText.TrimEmptyIff(s.form.title);
  }

  /**
   * A successful creation puts the created task first and keeps the old tasks,
   * in order, after it; the form is reset and hidden. The error and the
   * loading flag are left as they were.
   */
  lemma CreateSuccess(s: ListState, created: Todo)
    requires !JsText.AllWhitespace(s.form.title)
    ensures var t := SubmitStep(s, Ok(created));
      && |t.todos| == |s.todos| + 1
      && t.todos[0] == created
      && t.todos[1..] == s.todos
      && t.form == EmptyForm && !t.showForm
      && t.error == s.error && t.loading == s.loading
  {
    JsText.TrimEmptyIff(s.form.title);
    var t := SubmitStep(s, Ok(created));
    assert t.todos == Prepend(created, s.todos);
    assert t.todos[1..] == s.todos;
  }

  /** A failed creation sets the error and keeps the list, the form and its visibility. */
  lemma CreateFailure(s: ListState, message: Option<string>)
    requires !JsText.AllWhitespace(s.form.title)
    ensures SubmitStep(s, Err(message)) == s.(error := CreateError)
  {
    JsText.TrimEmptyIff(s.form.title);
  }

  /** An absent or empty date formats to `null`, whatever the renderer; any other date is handed to the renderer. */
  lemma FormatDateNull(render: string -> string)
    ensures FormatDate(None, render) == None
    ensures FormatDate(Some(""), render) == None
    ensures forall d :: d != "" ==> FormatDate(Some(d), render) == Some(render(d))
  {
  }

  // -------------------------------------------------------------- class

  /** The TodoList component's state. */
  class TodoList {
    var todos: seq<Todo>
    var loading: bool
    var error: string
    var newTodo: NewTodo
    var showForm: bool

    constructor ()
      ensures Model() == Initial()
      ensures todos == [] && loading && error == "" && !showForm
      ensures newTodo == NewTodo("", "", "")
    {
      todos, loading, error, newTodo, showForm := [], true, "", EmptyForm, false;
    }

    function Model(): ListState
      reads this
    {
      ListState(todos, loading, error, newTodo, showForm)
    }

    method FetchTodos(api: Client, response: Outcome<seq<Todo>>)
      modifies this, api
      ensures Model() == FetchStep(old(Model()), response)
      ensures api.State() == Perform(old(api.State()), GetTodosCall(response))
    {
      loading := true;
      var data := api.GetTodos(response);
      match data {
        case Ok(list) =>
          todos := list;
          error := "";
        case Err(_) =>
          error := FetchError;
      }
      loading := false;
    }

    method HandleInputChange(field: Field, value: string)
      modifies this
      ensures Model() == old(Model()).(form := SetField(old(newTodo), field, value))
    {
      newTodo := SetField(newTodo, field, value);
    }

    method HandleSubmit(api: Client, response: Outcome<Todo>)
      modifies this, api
      ensures Model() == SubmitStep(old(Model()), response)
      ensures api.State() == match SubmitCall(old(Model()), response)
        case None => old(api.State())
        case Some(call) => Perform(old(api.State()), call)
    {
      if JsText.Trim(newTodo.title) == "" {
        return;
      }
      var todoData := PayloadOf(newTodo);
      var created := api.CreateTodo(todoData, response);
      match created {
        case Ok(t) =>
          todos := Prepend(t, todos);
          newTodo := EmptyForm;
          showForm := false;
        case Err(_) =>
          error := CreateError;
      }
    }

    method ToggleForm()
      modifies this
      ensures Model() == SetShowForm(old(Model()), !old(showForm))
    {
      showForm := !showForm;
    }

    method OpenForm()
      modifies this
      ensures Model() == SetShowForm(old(Model()), true)
    {
      showForm := true;
    }
  }
}
