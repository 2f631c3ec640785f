/** The values the front end exchanges with the backend and shows to the
    user: todos, the pagination record, the requests it issues and the
    notifications it raises. Network calls are not modelled; their outcomes
    arrive as `Outcome` values. */
module TodoData {

  datatype Option<T> = None | Some(value: T)

  /** How a request the front end issued ended. */
  datatype Outcome = Success | Failure(message: string)

  /** The parsed `userDetails` session record. */
  datatype User = User(userId: string, fullName: string)

  /** A todo as the backend sends it; `tag` and `status` are lists on the wire. */
  datatype Todo = Todo(
    id: string,
    title: string,
    description: string,
    tag: seq<string>,
    status: seq<string>,
    createdAt: string)

  datatype Pagination = Pagination(totalTodos: int, totalPages: int, currentPage: int, itemsPerPage: int)

  /** The three statuses the user can pick (form buttons, row select, bulk buttons). */
  datatype Status = Pending | InProgress | Completed

  /** The two tags the form offers. */
  datatype Tag = Personal | Work

  function StatusText(s: Status): (t: string)
    ensures t in StatusValues
  {
    match s
    case Pending => "pending"
    case InProgress => "in-progress"
    case Completed => "completed"
  }

  function TagText(t: Tag): (s: string)
    ensures s in TagValues
  {
    match t
    case Personal => "personal"
    case Work => "work"
  }

  const StatusValues: set<string> := {"pending", "in-progress", "completed"}
  const TagValues: set<string> := {"personal", "work"}

  /** Every status string is the text of exactly one choice. */
  lemma StatusTextBijective()
    ensures forall v :: v in StatusValues ==> exists s :: StatusText(s) == v
    ensures forall a, b :: StatusText(a) == StatusText(b) ==> a == b
  {
    assert StatusText(Pending) == "pending";
    assert StatusText(InProgress) == "in-progress";
    assert StatusText(Completed) == "completed";
  }

  /** Every tag string is the text of exactly one choice. */
  lemma TagTextBijective()
    ensures forall v :: v in TagValues ==> exists t :: TagText(t) == v
    ensures forall a, b :: TagText(a) == TagText(b) ==> a == b
  {
    assert TagText(Personal) == "personal";
    assert TagText(Work) == "work";
  }

  datatype Verb = Get | Post | Put | Patch | Delete

  /** Request bodies. In the form payload, `None` stands for JavaScript's
      `undefined` (what `todo.tag[0]` gives for an empty list). */
  datatype Body =
    | NoBody
    | TodoIds(todoIds: seq<string>)
    | StatusList(status: seq<string>)
    | TodoIdsAndStatus(todoIds: seq<string>, status: seq<string>)
    | TodoPayload(userId: string, title: string, description: string,
                  tags: seq<Option<string>>, statuses: seq<Option<string>>)

  datatype Request = Request(verb: Verb, path: string, body: Body)

  /** A toast notification. */
  datatype Notice = SuccessNotice(text: string) | ErrorNotice(text: string) | InfoNotice(text: string)
}
