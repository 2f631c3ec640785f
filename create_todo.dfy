/** The create/edit form of src/components/CreateTodo.jsx: its field state,
    the effect that loads the todo being edited, the tag and status buttons,
    and the submit handler that builds the payload, picks the endpoint and
    closes the modal only on success. */
module CreateTodo {
  import opened TodoData

  const NoUserError := "No user found. Please login."
  const FailureNotice := "Something went wrong. Please try again."
  const CreatedNotice := "Todo created successfully!"
  const UpdatedNotice := "Todo updated successfully!"
  const CreatePath := "/todo/create"
  const UpdatePathPrefix := "/todo/update/"

  /** What a submit does, in order: the request sent, the toast raised, and
      the call of the parent's `closeModal`. */
  datatype Event = Sent(request: Request) | Notified(notice: Notice) | ModalClosed

  /** The form fields. `tag` and `status` are None when they hold `undefined`. */
  datatype FormState = FormState(
    title: string,
    description: string,
    tag: Option<string>,
    status: Option<string>,
    isEditMode: bool)

  const InitialForm := FormState("", "", Some("personal"), Some("pending"), false)

  /** `list[0]`: None (undefined) for an empty list. */
  function First(list: seq<string>): (v: Option<string>)
    ensures v.Some? <==> |list| > 0
    ensures v.Some? ==> v.value == list[0]
  {
    if |list| > 0 then Some(list[0]) else None
  }

  /** The fields the `todoToEdit` effect loads. */
  function FromTodo(todo: Todo): (f: FormState)
    ensures f.isEditMode && f.title == todo.title && f.description == todo.description
    ensures f.tag == First(todo.tag) && f.status == First(todo.status)
  {
    FormState(todo.title, todo.description, First(todo.tag), First(todo.status), true)
  }

  /** Both choices hold one of the values the buttons offer. */
  predicate ChoicesValid(f: FormState) {
    f.tag.Some? && f.tag.value in TagValues && f.status.Some? && f.status.value in StatusValues
  }

  /** The initial form offers valid choices, and so does one loaded from a
      todo whose first tag and first status are valid values. */
  lemma ChoicesValidAtStart(todo: Todo)
    ensures ChoicesValid(InitialForm)
    ensures |todo.tag| > 0 && todo.tag[0] in TagValues && |todo.status| > 0 && todo.status[0] in StatusValues
      <==> ChoicesValid(FromTodo(todo))
  {
  }

  /** The body both endpoints receive. */
  function Payload(user: User, f: FormState): (b: Body)
    ensures b.TodoPayload?
  {
    TodoPayload(user.userId, f.title, f.description, [f.tag], [f.status])
  }

  /** Edit mode updates the loaded todo by id; otherwise a todo is created. */
  function SubmitRequest(user: User, f: FormState, todoToEdit: Option<Todo>): (r: Request)
    requires f.isEditMode ==> todoToEdit.Some?
  {
    if f.isEditMode then Request(Put, UpdatePathPrefix + todoToEdit.value.id, Payload(user, f))
    else Request(Post, CreatePath, Payload(user, f))
  }

  /** The payload carries the user and the fields, with `tag` and `status`
      wrapped in single-element lists, and goes to the endpoint the mode picks. */
  lemma SubmitRequestShape(user: User, f: FormState, todoToEdit: Option<Todo>)
    requires f.isEditMode ==> todoToEdit.Some?
    ensures var r := SubmitRequest(user, f, todoToEdit);
      r.body.TodoPayload? &&
      r.body.userId == user.userId && r.body.title == f.title && r.body.description == f.description &&
      |r.body.tags| == 1 && r.body.tags[0] == f.tag &&
      |r.body.statuses| == 1 && r.body.statuses[0] == f.status
    ensures var r := SubmitRequest(user, f, todoToEdit);
      (r.verb == Put <==> f.isEditMode) &&
      (f.isEditMode ==> r.path == UpdatePathPrefix + todoToEdit.value.id) &&
      (!f.isEditMode ==> r.verb == Post && r.path == CreatePath)
  {
  }

  /** `handleSubmit`, with the server's answer given as `outcome`. */
  function SubmitEvents(user: Option<User>, f: FormState, todoToEdit: Option<Todo>, outcome: Outcome): seq<Event>
    requires f.isEditMode ==> todoToEdit.Some?
  {
    if user.None? then []
    else
      var request := SubmitRequest(user.value, f, todoToEdit);
      match outcome
      case Success =>
        [Sent(request), Notified(SuccessNotice(if f.isEditMode then UpdatedNotice else CreatedNotice)), ModalClosed]
      case Failure(_) =>
        [Sent(request), Notified(ErrorNotice(FailureNotice))]
  }

  /** How many times `closeModal` is called. */
  function CloseCount(events: seq<Event>): nat {
    if events == [] then 0 else (if events[0] == ModalClosed then 1 else 0) + CloseCount(events[1..])
  }

  /** The requests sent, in order. */
  function SentRequests(events: seq<Event>): seq<Request> {
    if events == [] then [] else (if events[0].Sent? then [events[0].request] else []) + SentRequests(events[1..])
  }

  /** Without a session user nothing is sent and nothing closes. */
  lemma NoUserSendsNothing(f: FormState, todoToEdit: Option<Todo>, outcome: Outcome)
    requires f.isEditMode ==> todoToEdit.Some?
    ensures SubmitEvents(None, f, todoToEdit, outcome) == []
  {
  }

  /** With a user exactly one request goes out; `closeModal` runs exactly
      once on success and never on failure, where the error toast is raised. */
  lemma SubmitClosesOnlyOnSuccess(user: User, f: FormState, todoToEdit: Option<Todo>, outcome: Outcome)
    requires f.isEditMode ==> todoToEdit.Some?
    ensures var events := SubmitEvents(Some(user), f, todoToEdit, outcome);
      SentRequests(events) == [SubmitRequest(user, f, todoToEdit)] &&
      CloseCount(events) == (if outcome.Success? then 1 else 0) &&
      (outcome.Failure? <==> Notified(ErrorNotice(FailureNotice)) in events)
  {
    var events := SubmitEvents(Some(user), f, todoToEdit, outcome);
    var rest := events[1..][1..];
    assert rest == if outcome.Success? then [ModalClosed] else [];
    assert CloseCount(rest) == (if outcome.Success? then 1 else 0) by {
      if outcome.Success? {
        assert rest[1..] == [];
      }
    }
    assert SentRequests(rest) == [] by {
      if outcome.Success? {
        assert rest[1..] == [];
      }
    }
    assert CloseCount(events) == CloseCount(rest);
    assert SentRequests(events[1..]) == SentRequests(rest);
  }

  /** The browser's `required` check: the form submits only with a
      non-empty title and description. */
  predicate RequiredFilled(f: FormState) {
    f.title != "" && f.description != ""
  }

  /** The form, one instance per opening of the modal. */
  class TodoForm {
    const todoToEdit: Option<Todo>
    var title: string
    var description: string
    var tag: Option<string>
    var status: Option<string>
    var error: string
    var isEditMode: bool

    ghost predicate Valid()
      reads this
    {
      isEditMode ==> todoToEdit.Some?
    }

    function Fields(): FormState
      reads this
    {
      FormState(title, description, tag, status, isEditMode)
    }

    constructor (todoToEdit: Option<Todo>)
      ensures Valid() && this.todoToEdit == todoToEdit
      ensures Fields() == InitialForm && error == ""
    {
      this.todoToEdit := todoToEdit;
      title, description := "", "";
      tag, status := Some("personal"), Some("pending");
      error := "";
      isEditMode := false;
    }

    /** The effect on `todoToEdit`: loads the todo, or leaves the form alone. */
    method LoadTodoToEdit()
      requires Valid()
      modifies this`isEditMode, this`title, this`description, this`tag, this`status
      ensures Valid()
      ensures todoToEdit.Some? ==> Fields() == FromTodo(todoToEdit.value)
      ensures todoToEdit.None? ==> Fields() == old(Fields())
      ensures error == old(error)
    {
      if todoToEdit.Some? {
        var todo := todoToEdit.value;
        isEditMode := true;
        title := todo.title;
        description := todo.description;
        tag := First(todo.tag);
        status := First(todo.status);
      }
    }

    method SetTitle(s: string)
      modifies this`title
      ensures title == s
    {
      title := s;
    }

    method SetDescription(s: string)
      modifies this`description
      ensures description == s
    {
      description := s;
    }

    /** The Personal and Work buttons. */
    method ChooseTag(t: Tag)
      modifies this`tag
      ensures tag == Some(TagText(t)) && tag.value in TagValues
      ensures ChoicesValid(old(Fields())) ==> ChoicesValid(Fields())
    {
      tag := Some(TagText(t));
    }

    /** The Pending, In Progress and Completed buttons. */
    method ChooseStatus(s: Status)
      modifies this`status
      ensures status == Some(StatusText(s)) && status.value in StatusValues
      ensures ChoicesValid(old(Fields())) ==> ChoicesValid(Fields())
    {
      status := Some(StatusText(s));
    }

    /** `handleSubmit`: sets the error when no user is stored, otherwise
        sends the request and reacts to `outcome`. */
    method Submit(user: Option<User>, outcome: Outcome) returns (events: seq<Event>)
      requires Valid()
      modifies this`error
      ensures events == SubmitEvents(user, Fields(), todoToEdit, outcome)
      ensures error == if user.None? then NoUserError else old(error)
    {
      if user.None? {
        error := NoUserError;
        return [];
      }
      events := SubmitEvents(user, Fields(), todoToEdit, outcome);
    }

    /** Pressing the submit button: the browser blocks an empty required
        field before `handleSubmit` runs. */
    method PressSubmit(user: Option<User>, outcome: Outcome) returns (events: seq<Event>)
      requires Valid()
      modifies this`error
      ensures !RequiredFilled(Fields()) ==> events == [] && error == old(error)
      ensures RequiredFilled(Fields()) ==> events == SubmitEvents(user, Fields(), todoToEdit, outcome)
      ensures RequiredFilled(Fields()) ==> error == if user.None? then NoUserError else old(error)
    {
      if title == "" || description == "" {
        return [];
      }
      events := Submit(user, outcome);
    }
  }
}
