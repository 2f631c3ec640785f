/** The todo list component of src/components/TodoList.jsx: the fetched
    page, the bulk selection, the filters and the page number, the handlers
    that change them, and the conditions that choose what is rendered. */
module TodoList {
  import opened TodoData
  import opened Text
  import Api

  const NoUserError := "No user found. Please login."
  const DeletedNotice := "Todo removed successfully!"
  const DeleteFailedNotice := "Error deleting todo"
  const MassDeletedNotice := "Selected todos removed successfully!"
  const MassDeleteFailedNotice := "Error deleting selected todos"
  const StatusUpdatedNotice := "Status updated successfully!"
  const StatusFailedNotice := "Error updating status"
  const MassStatusUpdatedNotice := "Selected todos status updated successfully!"
  const MassStatusFailedNotice := "Error updating status for selected todos"

  const MassDeletePath := "/todo/delete-multiple-todos"
  const MassStatusPath := "/todo/update-multiple-todos-status"

  // ---------------------------------------------------------------------
  // Filters

  /** The options of the status filter. */
  datatype StatusFilter = AllStatuses | StatusIs(status: Status)

  /** The options of the tag filter. */
  datatype TagFilter = AllTags | PersonalOption | WorkOption

  const StatusFilterValues: set<string> := {"", "pending", "in-progress", "completed"}
  const TagFilterValues: set<string> := {"", "perosnal", "work"}

  function StatusFilterValue(f: StatusFilter): (v: string)
    ensures v in StatusFilterValues
    ensures v == "" <==> f == AllStatuses
    ensures f.StatusIs? ==> v == StatusText(f.status)
  {
    match f
    case AllStatuses => ""
    case StatusIs(s) => StatusText(s)
  }

  /** The option values as written, including the misspelt 'perosnal'. */
  function TagFilterValue(f: TagFilter): (v: string)
    ensures v in TagFilterValues
    ensures v == "" <==> f == AllTags
  {
    match f
    case AllTags => ""
    case PersonalOption => "perosnal"
    case WorkOption => "work"
  }

  /** The Personal filter option asks for a tag the form never writes, while
      the Work option asks for the one it does. */
  lemma PersonalFilterMissesPersonalTag()
    ensures TagFilterValue(PersonalOption) !in TagValues
    ensures TagFilterValue(PersonalOption) != TagText(Personal)
    ensures TagFilterValue(WorkOption) == TagText(Work)
  {
  }

  predicate AnyFilter(filterStatus: string, filterTag: string) {
    filterStatus != "" || filterTag != ""
  }

  // ---------------------------------------------------------------------
  // The fetch query

  /** `${userDetails?.userId}`: the id, or "undefined" without a user. */
  function UserIdText(user: Option<User>): string {
    if user.Some? then user.value.userId else "undefined"
  }

  function FetchPath(userId: string, tag: string, status: string, page: int): string {
    "/todo/getAll/" + userId + "?tag=" + tag + "&status=" + status + "&count=4&offset=" + IntToString(page)
  }

  /** The query asks for 4 items (the declared page size is 5) and ends in
      the page number, which reads back as itself. */
  lemma FetchPathEncodesPage(userId: string, tag: string, status: string, page: nat)
    ensures var p := FetchPath(userId, tag, status, page);
      var k := |p| - |NatToString(page)|;
      0 <= k &&
      p[..k] == "/todo/getAll/" + userId + "?tag=" + tag + "&status=" + status + "&count=4&offset=" &&
      IsDigits(p[k..]) && DecimalValue(p[k..]) == page
  {
    var p := FetchPath(userId, tag, status, page);
    var prefix := "/todo/getAll/" + userId + "?tag=" + tag + "&status=" + status + "&count=4&offset=";
    assert p == prefix + NatToString(page);
    assert p[..|prefix|] == prefix;
    assert p[|prefix|..] == NatToString(page);
    DecimalRoundTrip(page);
  }

  /** A fetch's reply: the page of todos with its pagination record, or the
      error message the client produced. */
  datatype FetchReply = Fetched(todos: seq<Todo>, pagination: Pagination) | FetchFailed(message: string)

  // ---------------------------------------------------------------------
  // What is rendered

  datatype Screen = LoaderScreen | ErrorScreen(message: string) | FilteredEmptyScreen | EmptyScreen | TableScreen

  /** `if (error)`: a non-empty message. */
  predicate ErrorShown(error: Option<string>) {
    error.Some? && error.value != ""
  }

  function ScreenOf(loading: bool, error: Option<string>, todos: seq<Todo>, filterStatus: string, filterTag: string): Screen {
    if loading then LoaderScreen
    else if ErrorShown(error) then ErrorScreen(error.value)
    else if |todos| == 0 && AnyFilter(filterStatus, filterTag) then FilteredEmptyScreen
    else if |todos| == 0 then EmptyScreen
    else TableScreen
  }

  /** The screens in priority order, each with the exact condition that
      selects it. */
  lemma ScreenOrder(loading: bool, error: Option<string>, todos: seq<Todo>, filterStatus: string, filterTag: string)
    ensures var s := ScreenOf(loading, error, todos, filterStatus, filterTag);
      (s == LoaderScreen <==> loading) &&
      (s.ErrorScreen? <==> !loading && ErrorShown(error)) &&
      (s == FilteredEmptyScreen <==> !loading && !ErrorShown(error) && |todos| == 0 && AnyFilter(filterStatus, filterTag)) &&
      (s == EmptyScreen <==> !loading && !ErrorShown(error) && |todos| == 0 && !AnyFilter(filterStatus, filterTag)) &&
      (s == TableScreen <==> !loading && !ErrorShown(error) && |todos| > 0)
  {
  }

  /** A failed fetch always shows the error screen once loading ends, since
      the client's message is never empty. */
  lemma FailedFetchShowsError(message: Option<string>, todos: seq<Todo>, filterStatus: string, filterTag: string)
    ensures ScreenOf(false, Some(Api.ErrorMessage(message)), todos, filterStatus, filterTag)
      == ErrorScreen(Api.ErrorMessage(message))
  {
  }

  // ---------------------------------------------------------------------
  // Selection

  /** `todos.map((todo) => todo._id)`. */
  function Ids(todos: seq<Todo>): (ids: seq<string>)
    ensures |ids| == |todos|
    ensures forall i :: 0 <= i < |todos| ==> ids[i] == todos[i].id
  {
    if todos == [] then [] else [todos[0].id] + Ids(todos[1..])
  }

  /** The header checkbox's `checked`: a length comparison. */
  predicate HeaderChecked(selected: seq<string>, todos: seq<Todo>) {
    |selected| == |todos| && |todos| > 0
  }

  /** The header checkbox's `onChange`. */
  function HeaderSelection(checked: bool, todos: seq<Todo>): (s: seq<string>) {
    if checked then Ids(todos) else []
  }

  /** Checking the header selects exactly the displayed ids and shows it
      checked (if any row is shown); unchecking empties the selection. */
  lemma HeaderSelectionSpec(todos: seq<Todo>)
    ensures |HeaderSelection(true, todos)| == |todos|
    ensures forall i :: 0 <= i < |todos| ==> HeaderSelection(true, todos)[i] == todos[i].id
    ensures HeaderChecked(HeaderSelection(true, todos), todos) <==> |todos| > 0
    ensures HeaderSelection(false, todos) == [] && !HeaderChecked([], todos)
  {
  }

  /** The header shows checked after any selection of the right length, even
      one holding ids of another page. */
  lemma HeaderCheckedByLengthOnly(other: string, todo: Todo)
    requires other != todo.id
    ensures HeaderChecked([other], [todo]) && todo.id !in [other]
  {
  }

  /** `filter((id) => id !== todoId)`. */
  function Without(s: seq<string>, id: string): (r: seq<string>)
    ensures id !in r
    ensures forall x :: x in r <==> x in s && x != id
    ensures |r| <= |s|
  {
    if s == [] then [] else (if s[0] == id then [] else [s[0]]) + Without(s[1..], id)
  }

  /** Removal distributes over concatenation, so the kept ids stay in order. */
  lemma {:induction false} WithoutConcat(a: seq<string>, b: seq<string>, id: string)
    ensures Without(a + b, id) == Without(a, id) + Without(b, id)
    decreases |a|
  {
    if a != [] {
      var head := if a[0] == id then [] else [a[0]];
      assert (a + b)[0] == a[0];
      assert (a + b)[1..] == a[1..] + b;
      WithoutConcat(a[1..], b, id);
      calc {
        Without(a + b, id);
        head + Without(a[1..] + b, id);
        head + (Without(a[1..], id) + Without(b, id));
        (head + Without(a[1..], id)) + Without(b, id);
      }
    } else {
      assert a + b == b;
    }
  }

  /** Removal drops every occurrence of `id` and keeps every other id as often. */
  lemma {:induction false} WithoutMultiset(s: seq<string>, id: string)
    ensures multiset(Without(s, id)) == multiset(s)[id := 0]
    decreases |s|
  {
    if s != [] {
      WithoutMultiset(s[1..], id);
      assert s == [s[0]] + s[1..];
    }
  }

  lemma {:induction false} WithoutAbsent(s: seq<string>, id: string)
    requires id !in s
    ensures Without(s, id) == s
    decreases |s|
  {
    if s != [] {
      WithoutAbsent(s[1..], id);
    }
  }

  predicate NoDuplicates(s: seq<string>) {
    forall i, j :: 0 <= i < j < |s| ==> s[i] != s[j]
  }

  /** In a duplicate-free list, removing a present id shortens it by one. */
  lemma {:induction false} WithoutOnce(s: seq<string>, id: string)
    requires NoDuplicates(s) && id in s
    ensures |Without(s, id)| == |s| - 1
    decreases |s|
  {
    if s[0] == id {
      assert id !in s[1..] by {
        forall j | 0 <= j < |s[1..]|
          ensures s[1..][j] != id
        {
          assert s[j + 1] != s[0];
        }
      }
      WithoutAbsent(s[1..], id);
    } else {
      WithoutOnce(s[1..], id);
    }
  }

  /** `handleToggleSelectTodo`'s update of the selection. */
  function Toggled(selected: seq<string>, id: string): (r: seq<string>)
    ensures id in r <==> id !in selected
    ensures forall x :: x != id ==> (x in r <==> x in selected)
  {
    if id in selected then Without(selected, id) else selected + [id]
  }

  /** An absent id is appended at the end; a present one is removed
      everywhere while every other id keeps its count and its order. */
  lemma ToggleSpec(selected: seq<string>, id: string, before: seq<string>, after: seq<string>)
    ensures id !in selected ==> Toggled(selected, id) == selected + [id]
    ensures id in selected ==> id !in Toggled(selected, id)
    ensures id in selected ==> multiset(Toggled(selected, id)) == multiset(selected)[id := 0]
    ensures id in selected && selected == before + after ==>
      Toggled(selected, id) == Without(before, id) + Without(after, id)
  {
    WithoutMultiset(selected, id);
    if selected == before + after {
      WithoutConcat(before, after, id);
    }
  }

  /** Toggling twice restores the set of selected ids; it restores the list
      itself when the id was absent, and its contents when it had no duplicates. */
  lemma ToggleTwice(selected: seq<string>, id: string)
    ensures forall x :: x in Toggled(Toggled(selected, id), id) <==> x in selected
    ensures id !in selected ==> Toggled(Toggled(selected, id), id) == selected
    ensures NoDuplicates(selected) ==> multiset(Toggled(Toggled(selected, id), id)) == multiset(selected)
  {
    if id in selected {
      var once := Without(selected, id);
      assert Toggled(once, id) == once + [id];
      if NoDuplicates(selected) {
        WithoutMultiset(selected, id);
        var k :| 0 <= k < |selected| && selected[k] == id;
        assert multiset(selected)[id] == 1 by {
          WithoutOnce(selected, id);
          assert |multiset(once)| == |selected| - 1;
          assert |multiset(selected)[id := 0]| == |multiset(selected)| - multiset(selected)[id];
        }
        assert multiset(once + [id]) == multiset(selected);
      }
    } else {
      WithoutConcat(selected, [id], id);
      WithoutAbsent(selected, id);
    }
  }

  /** Toggling keeps a duplicate-free selection duplicate-free. */
  lemma ToggleKeepsNoDuplicates(selected: seq<string>, id: string)
    requires NoDuplicates(selected)
    ensures NoDuplicates(Toggled(selected, id))
  {
    if id in selected {
      var r := Without(selected, id);
      WithoutMultiset(selected, id);
      forall i, j | 0 <= i < j < |r|
        ensures r[i] != r[j]
      {
        MultisetOfDistinct(selected, r[i]);
        assert multiset(r)[r[i]] <= 1;
        TwoPositionsCount(r, i, j);
      }
    }
  }

  /** In a duplicate-free list every value occurs at most once. */
  lemma {:induction false} MultisetOfDistinct(s: seq<string>, x: string)
    requires NoDuplicates(s)
    ensures multiset(s)[x] <= 1
    decreases |s|
  {
    if s != [] {
      assert s == [s[0]] + s[1..];
      MultisetOfDistinct(s[1..], x);
      if s[0] == x {
        assert x !in s[1..] by {
          forall j | 0 <= j < |s[1..]|
            ensures s[1..][j] != x
          {
            assert s[j + 1] != s[0];
          }
        }
      }
    }
  }

  /** A value at two positions occurs at least twice. */
  lemma TwoPositionsCount(s: seq<string>, i: int, j: int)
    requires 0 <= i < j < |s|
    ensures s[i] == s[j] ==> multiset(s)[s[i]] >= 2
  {
    assert s == s[..i] + [s[i]] + s[i + 1..j] + [s[j]] + s[j + 1..];
  }

  /** With every displayed row selected, toggling one row deselects it: one
      id fewer, and the header box no longer shows checked. */
  lemma ToggleAfterSelectAll(todos: seq<Todo>, i: int)
    requires NoDuplicates(Ids(todos)) && 0 <= i < |todos|
    ensures |Toggled(HeaderSelection(true, todos), todos[i].id)| == |todos| - 1
    ensures !HeaderChecked(Toggled(HeaderSelection(true, todos), todos[i].id), todos)
  {
    var ids := Ids(todos);
    assert ids[i] == todos[i].id;
    WithoutOnce(ids, todos[i].id);
  }

  // ---------------------------------------------------------------------
  // Pagination buttons

  predicate PreviousDisabled(currentPage: int) {
    currentPage == 1
  }

  predicate NextDisabled(currentPage: int, totalPages: int, todos: seq<Todo>) {
    currentPage == totalPages || |todos| == 0
  }

  /** From a page within range, the enabled buttons lead to a page within
      range. */
  lemma EnabledButtonsStayInRange(page: int, totalPages: int, todos: seq<Todo>)
    requires 1 <= page <= totalPages
    ensures !PreviousDisabled(page) ==> 1 <= page - 1 <= totalPages
    ensures !NextDisabled(page, totalPages, todos) ==> 1 <= page + 1 <= totalPages
  {
  }

  /** Next tests equality only: past the last page it stays enabled. */
  lemma NextEnabledPastLastPage(page: int, totalPages: int, todos: seq<Todo>)
    requires page > totalPages && |todos| > 0
    ensures !NextDisabled(page, totalPages, todos) && !NextDisabled(page + 1, totalPages, todos)
  {
  }

  /** The buttons are rendered only with the table, so there the empty-list
      test of Next never decides. */
  lemma NextEmptyTestIsDead(loading: bool, error: Option<string>, todos: seq<Todo>,
                            filterStatus: string, filterTag: string, page: int, totalPages: int)
    requires ScreenOf(loading, error, todos, filterStatus, filterTag) == TableScreen
    ensures NextDisabled(page, totalPages, todos) <==> page == totalPages
  {
  }

  /** The bulk toolbar replaces the Create button while anything is selected. */
  predicate BulkActionsShown(selected: seq<string>) {
    |selected| > 0
  }

  /** The toast a fetch raises: its error message when it fails. */
  function FetchNotice(reply: FetchReply): (n: Option<Notice>)
    ensures n.Some? <==> reply.FetchFailed?
    ensures n.Some? ==> n.value == ErrorNotice(reply.message)
  {
    if reply.FetchFailed? then Some(ErrorNotice(reply.message)) else None
  }

  /** The toasts after a successful change: its own, then the refetch's. */
  function AfterChange(success: string, reply: FetchReply): (ns: seq<Notice>)
    ensures |ns| == (if reply.FetchFailed? then 2 else 1) && ns[0] == SuccessNotice(success)
    ensures reply.FetchFailed? ==> ns[1] == ErrorNotice(reply.message)
  {
    [SuccessNotice(success)] + (if reply.FetchFailed? then [ErrorNotice(reply.message)] else [])
  }

  // ---------------------------------------------------------------------
  // The component

  class TodoListView {
    const user: Option<User>
    var todos: seq<Todo>
    var loading: bool
    var error: Option<string>
    var isModalOpen: bool
    var todoToEdit: Option<Todo>
    var selected: seq<string>
    var currentPage: int
    var pagination: Pagination
    var filterStatus: string
    var filterTag: string

    constructor (user: Option<User>)
      ensures this.user == user
      ensures todos == [] && loading && error == None
      ensures !isModalOpen && todoToEdit == None
      ensures selected == [] && currentPage == 1 && pagination == Pagination(0, 0, 0, 0)
      ensures filterStatus == "" && filterTag == ""
    {
      this.user := user;
      todos, loading, error := [], true, None;
      isModalOpen, todoToEdit := false, None;
      selected, currentPage := [], 1;
      pagination := Pagination(0, 0, 0, 0);
      filterStatus, filterTag := "", "";
    }

    function CurrentScreen(): Screen
      reads this
    {
      ScreenOf(loading, error, todos, filterStatus, filterTag)
    }

    predicate HeaderBoxChecked()
      reads this
    {
      HeaderChecked(selected, todos)
    }

    /** The request `fetchTodos` sends from the current state. */
    function FetchRequest(): Request
      reads this
    {
      Request(Get, FetchPath(UserIdText(user), filterTag, filterStatus, currentPage), NoBody)
    }

    /** The fetch's reply has been applied: a page replaces todos and
        pagination (the error stays), a failure sets the error. */
    twostate predicate AppliedFetch(reply: FetchReply)
      reads this
    {
      !loading &&
      match reply
      case Fetched(page, meta) => todos == page && pagination == meta && error == old(error)
      case FetchFailed(message) => error == Some(message) && todos == old(todos) && pagination == old(pagination)
    }

    twostate predicate FetchedStateUnchanged()
      reads this
    {
      todos == old(todos) && pagination == old(pagination) && loading == old(loading) && error == old(error)
    }

    /** `fetchTodos`, with the server's reply given. */
    method FetchTodos(reply: FetchReply) returns (request: Request, notice: Option<Notice>)
      modifies this`todos, this`pagination, this`loading, this`error
      ensures request == FetchRequest()
      ensures AppliedFetch(reply)
      ensures notice == FetchNotice(reply)
    {
      request := FetchRequest();
      match reply
      case Fetched(page, meta) =>
        todos := page;
        pagination := meta;
        loading := false;
        notice := None;
      case FetchFailed(message) =>
        error := Some(message);
        loading := false;
        notice := Some(ErrorNotice(message));
    }

    /** The effect on filterStatus, filterTag and currentPage: without a
        user it reports the error, otherwise it fetches. */
    method Refresh(reply: FetchReply) returns (request: Option<Request>, notice: Option<Notice>)
      modifies this`todos, this`pagination, this`loading, this`error
      ensures user.None? ==> request == None && notice == None && !loading && error == Some(NoUserError)
      ensures user.None? ==> todos == old(todos) && pagination == old(pagination)
      ensures user.Some? ==> request == Some(FetchRequest()) && AppliedFetch(reply) && notice == FetchNotice(reply)
    {
      if user.None? {
        error := Some(NoUserError);
        loading := false;
        return None, None;
      }
      var r;
      r, notice := FetchTodos(reply);
      request := Some(r);
    }

    method OpenForCreate()
      modifies this`todoToEdit, this`isModalOpen
      ensures todoToEdit == None && isModalOpen
    {
      todoToEdit := None;
      isModalOpen := true;
    }

    method OpenForEdit(todo: Todo)
      modifies this`todoToEdit, this`isModalOpen
      ensures todoToEdit == Some(todo) && isModalOpen
    {
      todoToEdit := Some(todo);
      isModalOpen := true;
    }

    /** `closeModal`: closes and refetches. */
    method CloseModal(reply: FetchReply) returns (request: Request, notice: Option<Notice>)
      modifies this`isModalOpen, this`todos, this`pagination, this`loading, this`error
      ensures !isModalOpen && request == FetchRequest() && AppliedFetch(reply) && notice == FetchNotice(reply)
    {
      isModalOpen := false;
      request, notice := FetchTodos(reply);
    }

    /** `handleDeleteTodo`: delete by id, refetch on success. The selection
        is not touched. */
    method DeleteTodo(todoId: string, outcome: Outcome, reply: FetchReply)
      returns (requests: seq<Request>, notices: seq<Notice>)
      modifies this`todos, this`pagination, this`loading, this`error
      ensures currentPage == old(currentPage)
      ensures selected == old(selected)
      ensures outcome.Success? ==>
        requests == [Request(Delete, "/todo/delete/" + todoId, NoBody), FetchRequest()] &&
        AppliedFetch(reply) && notices == AfterChange(DeletedNotice, reply)
      ensures outcome.Failure? ==>
        requests == [Request(Delete, "/todo/delete/" + todoId, NoBody)] &&
        FetchedStateUnchanged() && notices == [ErrorNotice(DeleteFailedNotice)]
    {
      requests := [Request(Delete, "/todo/delete/" + todoId, NoBody)];
      if outcome.Success? {
        var r, _ := FetchTodos(reply);
        requests := requests + [r];
        notices := AfterChange(DeletedNotice, reply);
      } else {
        notices := [ErrorNotice(DeleteFailedNotice)];
      }
    }

    /** `handleMassDelete`: one request with the whole selection; on success
        the selection is emptied and the list refetched. */
    method MassDelete(outcome: Outcome, reply: FetchReply)
      returns (requests: seq<Request>, notices: seq<Notice>)
      modifies this`selected, this`todos, this`pagination, this`loading, this`error
      ensures currentPage == old(currentPage)
      ensures |requests| > 0 && requests[0] == Request(Delete, MassDeletePath, TodoIds(old(selected)))
      ensures outcome.Success? ==>
        selected == [] && !BulkActionsShown(selected) && requests == [requests[0], FetchRequest()] &&
        AppliedFetch(reply) && notices == AfterChange(MassDeletedNotice, reply)
      ensures outcome.Failure? ==>
        selected == old(selected) && requests == [requests[0]] &&
        FetchedStateUnchanged() && notices == [ErrorNotice(MassDeleteFailedNotice)]
    {
      requests := [Request(Delete, MassDeletePath, TodoIds(selected))];
      if outcome.Success? {
        selected := [];
        var r, _ := FetchTodos(reply);
        requests := requests + [r];
        notices := AfterChange(MassDeletedNotice, reply);
      } else {
        notices := [ErrorNotice(MassDeleteFailedNotice)];
      }
    }

    /** `handleStatusChange` from a row's select. The selection is not touched. */
    method StatusChange(todoId: string, newStatus: Status, outcome: Outcome, reply: FetchReply)
      returns (requests: seq<Request>, notices: seq<Notice>)
      modifies this`todos, this`pagination, this`loading, this`error
      ensures currentPage == old(currentPage)
      ensures selected == old(selected)
      ensures |requests| > 0 && requests[0] == Request(Patch, "/todo/update-status/" + todoId, StatusList([StatusText(newStatus)]))
      ensures outcome.Success? ==>
        requests == [requests[0], FetchRequest()] &&
        AppliedFetch(reply) && notices == AfterChange(StatusUpdatedNotice, reply)
      ensures outcome.Failure? ==>
        requests == [requests[0]] && FetchedStateUnchanged() && notices == [ErrorNotice(StatusFailedNotice)]
    {
      requests := [Request(Patch, "/todo/update-status/" + todoId, StatusList([StatusText(newStatus)]))];
      if outcome.Success? {
        var r, _ := FetchTodos(reply);
        requests := requests + [r];
        notices := AfterChange(StatusUpdatedNotice, reply);
      } else {
        notices := [ErrorNotice(StatusFailedNotice)];
      }
    }

    /** `handleMassStatusUpdate` from the three bulk buttons. */
    method MassStatusUpdate(newStatus: Status, outcome: Outcome, reply: FetchReply)
      returns (requests: seq<Request>, notices: seq<Notice>)
      modifies this`selected, this`todos, this`pagination, this`loading, this`error
      ensures currentPage == old(currentPage)
      ensures |requests| > 0 && requests[0] == Request(Put, MassStatusPath, TodoIdsAndStatus(old(selected), [StatusText(newStatus)]))
      ensures outcome.Success? ==>
        selected == [] && !BulkActionsShown(selected) && requests == [requests[0], FetchRequest()] &&
        AppliedFetch(reply) && notices == AfterChange(MassStatusUpdatedNotice, reply)
      ensures outcome.Failure? ==>
        selected == old(selected) && requests == [requests[0]] &&
        FetchedStateUnchanged() && notices == [ErrorNotice(MassStatusFailedNotice)]
    {
      requests := [Request(Put, MassStatusPath, TodoIdsAndStatus(selected, [StatusText(newStatus)]))];
      if outcome.Success? {
        selected := [];
        var r, _ := FetchTodos(reply);
        requests := requests + [r];
        notices := AfterChange(MassStatusUpdatedNotice, reply);
      } else {
        notices := [ErrorNotice(MassStatusFailedNotice)];
      }
    }

    /** A row checkbox. */
    method ToggleSelect(todoId: string)
      modifies this`selected
      ensures selected == Toggled(old(selected), todoId)
    {
      selected := Toggled(selected, todoId);
    }

    /** The header checkbox. */
    method HeaderCheckboxChange(checked: bool)
      modifies this`selected
      ensures selected == HeaderSelection(checked, todos)
      ensures HeaderBoxChecked() <==> checked && |todos| > 0
    {
      selected := HeaderSelection(checked, todos);
    }

    /** The status select, followed by the page-reset effect, which runs
        only when the value changed. */
    method ChangeStatusFilter(f: StatusFilter)
      modifies this`filterStatus, this`currentPage
      ensures filterStatus == StatusFilterValue(f) && filterStatus in StatusFilterValues
      ensures currentPage == if filterStatus != old(filterStatus) then 1 else old(currentPage)
    {
      var v := StatusFilterValue(f);
      if v != filterStatus {
        filterStatus := v;
        currentPage := 1;
      }
    }

    /** The tag select, followed by the page-reset effect. */
    method ChangeTagFilter(f: TagFilter)
      modifies this`filterTag, this`currentPage
      ensures filterTag == TagFilterValue(f) && filterTag in TagFilterValues
      ensures currentPage == if filterTag != old(filterTag) then 1 else old(currentPage)
    {
      var v := TagFilterValue(f);
      if v != filterTag {
        filterTag := v;
        currentPage := 1;
      }
    }

    /** Clear Filters, followed by the page-reset effect. */
    method ClearFilters()
      modifies this`filterStatus, this`filterTag, this`currentPage
      ensures filterStatus == "" && filterTag == ""
      ensures currentPage == if AnyFilter(old(filterStatus), old(filterTag)) then 1 else old(currentPage)
    {
      if AnyFilter(filterStatus, filterTag) {
        filterStatus, filterTag := "", "";
        currentPage := 1;
      }
    }

    /** `paginate(n)`. */
    method Paginate(n: int)
      modifies this`currentPage
      ensures currentPage == n
    {
      currentPage := n;
    }

    /** A click on Previous; a disabled button ignores it. */
    method ClickPrevious()
      modifies this`currentPage
      ensures currentPage == if PreviousDisabled(old(currentPage)) then old(currentPage) else old(currentPage) - 1
    {
      if !PreviousDisabled(currentPage) {
        Paginate(currentPage - 1);
      }
    }

    /** A click on Next; a disabled button ignores it. */
    method ClickNext()
      modifies this`currentPage
      ensures currentPage ==
        if NextDisabled(old(currentPage), pagination.totalPages, todos) then old(currentPage) else old(currentPage) + 1
    {
      if !NextDisabled(currentPage, pagination.totalPages, todos) {
        Paginate(currentPage + 1);
      }
    }
  }

  /** A user with no completed todos filters by Completed and sees the
      filtered-empty screen; Clear Filters goes back to page 1 with no
      filters, and the refetch shows the plain empty screen. */
  method ClearFiltersScenario(userRecord: User, meta: Pagination)
    returns (before: Screen, after: Screen, requests: seq<Request>)
    ensures before == FilteredEmptyScreen && after == EmptyScreen
    ensures requests == [
      Request(Get, FetchPath(userRecord.userId, "", "", 1), NoBody),
      Request(Get, FetchPath(userRecord.userId, "", "completed", 1), NoBody),
      Request(Get, FetchPath(userRecord.userId, "", "", 1), NoBody)]
  {
    var view := new TodoListView(Some(userRecord));
    var r0, _ := view.Refresh(Fetched([], meta));
    view.ChangeStatusFilter(StatusIs(Completed));
    var r1, _ := view.Refresh(Fetched([], meta));
    before := view.CurrentScreen();
    view.ClearFilters();
    var r2, _ := view.Refresh(Fetched([], meta));
    after := view.CurrentScreen();
    requests := [r0.value, r1.value, r2.value];
  }
}
