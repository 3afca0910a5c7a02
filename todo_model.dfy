/** The task records of the back end: status and priority with their database
    codecs, the task record itself, and the request, filter and statistics
    records that the repository takes and returns. */
module TodoModel {
  import opened Wrappers

  datatype TodoStatus = Pending | InProgress | Completed | Cancelled

  datatype Priority = Low | Medium | High

  /** `#[default]` on the two enums. */
  const DefaultStatus: TodoStatus := Pending
  const DefaultPriority: Priority := Low

  /** The text a status is stored and filtered as (`as_str`). */
  function StatusText(s: TodoStatus): (r: string)
    ensures StatusFromText(r) == s
  {
    match s
    case Pending => "pending"
    case InProgress => "in_progress"
    case Completed => "completed"
    case Cancelled => "cancelled"
  }

  /** Reads a stored status back (`from_str`); unknown text reads as Pending. */
  function StatusFromText(t: string): (s: TodoStatus)
    ensures s != DefaultStatus ==> t in {"in_progress", "completed", "cancelled"}
  {
    if t == "pending" then Pending
    else if t == "in_progress" then InProgress
    else if t == "completed" then Completed
    else if t == "cancelled" then Cancelled
    else Pending
  }

  /** Text that is none of the four status names reads as the default status. */
  lemma StatusFromUnknownText(t: string)
    requires forall s :: StatusText(s) != t
    ensures StatusFromText(t) == DefaultStatus
  {
    assert StatusText(InProgress) != t && StatusText(Completed) != t && StatusText(Cancelled) != t;
  }

  /** The four texts are distinct, so distinct statuses are stored distinctly. */
  lemma StatusTextInjective(a: TodoStatus, b: TodoStatus)
    ensures StatusText(a) == StatusText(b) <==> a == b
  {
  }

  /** The integer a priority is stored as (`as_i32`). */
  function PriorityCode(p: Priority): (r: int)
    ensures 0 <= r <= 2 && PriorityFromCode(r) == p
  {
    match p
    case Low => 0
    case Medium => 1
    case High => 2
  }

  /** Reads a stored priority back (`from_i32`); anything outside 0..2 reads as Low. */
  function PriorityFromCode(v: int): (p: Priority)
    ensures p != DefaultPriority ==> v == 1 || v == 2
  {
    if v == 0 then Low
    else if v == 1 then Medium
    else if v == 2 then High
    else Low
  }

  /** A code outside 0..2 reads as the default priority. */
  lemma PriorityFromUnknownCode(v: int)
    requires v < 0 || v > 2
    ensures PriorityFromCode(v) == DefaultPriority
  {
  }

  lemma PriorityCodeInjective(a: Priority, b: Priority)
    ensures PriorityCode(a) == PriorityCode(b) <==> a == b
  {
  }

  /** Milliseconds on the back end's clock; the RFC 3339 text the source stores is
      taken to order exactly like the clock readings it renders. */
  type Timestamp = nat

  datatype Todo = Todo(
    id: string,
    text: string,
    completed: bool,
    status: TodoStatus,
    priority: Priority,
    dueDate: Option<string>,
    tags: seq<string>,
    createdAt: Timestamp,
    updatedAt: Timestamp)

  datatype CreateTodoRequest = CreateTodoRequest(
    text: string,
    priority: Option<Priority>,
    dueDate: Option<string>,
    tags: Option<seq<string>>)

  datatype UpdateTodoRequest = UpdateTodoRequest(
    text: Option<string>,
    completed: Option<bool>,
    status: Option<TodoStatus>,
    priority: Option<Priority>,
    dueDate: Option<string>,
    tags: Option<seq<string>>)

  /** `UpdateTodoRequest::default()`: every field absent. */
  const NoUpdate := UpdateTodoRequest(None, None, None, None, None, None)

  datatype TodoFilter = TodoFilter(
    status: Option<TodoStatus>,
    completed: Option<bool>,
    priority: Option<Priority>,
    search: Option<string>,
    tag: Option<string>)

  /** `TodoFilter::default()`: every predicate absent. */
  const NoFilter := TodoFilter(None, None, None, None, None)

  datatype TodoStatistics = TodoStatistics(
    total: nat,
    completed: nat,
    pending: nat,
    inProgress: nat,
    cancelled: nat)
}
