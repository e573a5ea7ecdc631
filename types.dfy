/** The task-management data model: the status and priority enumerations,
    users, tasks, form values and the filter record shared by the filter
    context, the filter controls and the query hook. Dates are integer
    timestamps; only their order matters to the model. */
module Types {
  import opened Wrappers

  // ---------------------------------------------------------------------
  // Enumerations
  // ---------------------------------------------------------------------

  datatype TaskPriority = Low | Medium | High | Urgent

  datatype TaskStatus = Todo | InProgress | Review | Completed | Cancelled

  /** The string literal of each status. */
  function StatusName(s: TaskStatus): string {
    match s
    case Todo => "todo"
    case InProgress => "in_progress"
    case Review => "review"
    case Completed => "completed"
    case Cancelled => "cancelled"
  }

  /** The string literal of each priority. */
  function PriorityName(p: TaskPriority): string {
    match p
    case Low => "low"
    case Medium => "medium"
    case High => "high"
    case Urgent => "urgent"
  }

  /** The status whose literal is `s`, if any. */
  function ParseStatus(s: string): (r: Option<TaskStatus>)
    ensures r.Some? ==> StatusName(r.value) == s
  {
    if s == "todo" then Some(Todo)
    else if s == "in_progress" then Some(InProgress)
    else if s == "review" then Some(Review)
    else if s == "completed" then Some(Completed)
    else if s == "cancelled" then Some(Cancelled)
    else None
  }

  /** The priority whose literal is `s`, if any. */
  function ParsePriority(s: string): (r: Option<TaskPriority>)
    ensures r.Some? ==> PriorityName(r.value) == s
  {
    if s == "low" then Some(Low)
    else if s == "medium" then Some(Medium)
    else if s == "high" then Some(High)
    else if s == "urgent" then Some(Urgent)
    else None
  }

  /** Parsing a status literal gives back the status. */
  lemma StatusRoundTrip(s: TaskStatus)
    ensures ParseStatus(StatusName(s)) == Some(s)
  {
  }

  /** Parsing a priority literal gives back the priority. */
  lemma PriorityRoundTrip(p: TaskPriority)
    ensures ParsePriority(PriorityName(p)) == Some(p)
  {
  }

  /** The five statuses, in declaration order. */
  const AllStatuses: seq<TaskStatus> := [Todo, InProgress, Review, Completed, Cancelled]

  /** The four priorities, in declaration order. */
  const AllPriorities: seq<TaskPriority> := [Low, Medium, High, Urgent]

  /** There are exactly five statuses: each occurs once in `AllStatuses`. */
  lemma StatusesEnumerated(s: TaskStatus)
    ensures |AllStatuses| == 5
    ensures multiset(AllStatuses)[s] == 1
  {
  }

  /** There are exactly four priorities: each occurs once in `AllPriorities`. */
  lemma PrioritiesEnumerated(p: TaskPriority)
    ensures |AllPriorities| == 4
    ensures multiset(AllPriorities)[p] == 1
  {
  }

  // ---------------------------------------------------------------------
  // Users, tasks and form values
  // ---------------------------------------------------------------------

  datatype User = User(id: string, name: string, email: string, avatarUrl: Option<string>)

  datatype TaskComment = TaskComment(id: string, content: string, createdAt: int, userId: string, user: Option<User>)

  /** A task. The lists `tags`, `comments` and `attachments` are always
      present; due date, assignee and the embedded user records are
      optional. */
  datatype Task = Task(
    id: string,
    title: string,
    description: string,
    status: TaskStatus,
    priority: TaskPriority,
    dueDate: Option<int>,
    createdAt: int,
    updatedAt: int,
    assigneeId: Option<string>,
    assignee: Option<User>,
    creatorId: string,
    creator: Option<User>,
    tags: seq<string>,
    comments: seq<TaskComment>,
    attachments: seq<string>)

  /** The values of the create/edit form as the interface declares them. */
  datatype TaskFormValues = TaskFormValues(
    title: string,
    description: string,
    status: TaskStatus,
    priority: TaskPriority,
    dueDate: Option<int>,
    assigneeId: Option<string>,
    tags: Option<seq<string>>,
    creatorId: Option<string>)

  /** JavaScript truthiness of an optional string: `undefined` and `''`
      are falsy. */
  predicate Truthy(s: Option<string>) {
    s.Some? && s.value != ""
  }

  // ---------------------------------------------------------------------
  // The filter record
  // ---------------------------------------------------------------------

  /** The value of one optional, nullable filter key. `Unset` stands both
      for a missing key and for a key holding `undefined`: every consumer
      of the filter treats the two alike. */
  datatype Nullable<T> = Unset | Null | Val(v: T)

  /** A filter value that is either one string or an array of strings. The
      status and priority keys hold `One` of a literal or of `'all'`, or an
      array; the user interface casts whatever a select yields into `One`. */
  datatype Choice = One(s: string) | Many(items: seq<string>)

  /** The filter record: every key optional and nullable. */
  datatype TaskFilter = TaskFilter(
    status: Nullable<Choice>,
    priority: Nullable<Choice>,
    assigneeId: Nullable<Choice>,
    creatorId: Nullable<Choice>,
    tags: Nullable<seq<string>>,
    search: Nullable<string>,
    dueDateFrom: Nullable<int>,
    dueDateTo: Nullable<int>)

  /** The empty record `{}`, which is a valid filter. */
  const EmptyFilter: TaskFilter := TaskFilter(Unset, Unset, Unset, Unset, Unset, Unset, Unset, Unset)

  /** The number of keys that hold something other than `undefined`. */
  function DefinedKeys(f: TaskFilter): (n: nat)
    ensures n <= 8
    ensures n == 0 <==> f == EmptyFilter
  {
    (if f.status.Unset? then 0 else 1) + (if f.priority.Unset? then 0 else 1)
    + (if f.assigneeId.Unset? then 0 else 1) + (if f.creatorId.Unset? then 0 else 1)
    + (if f.tags.Unset? then 0 else 1) + (if f.search.Unset? then 0 else 1)
    + (if f.dueDateFrom.Unset? then 0 else 1) + (if f.dueDateTo.Unset? then 0 else 1)
  }

  /** JavaScript truthiness of a string-or-array filter value: `null`,
      `undefined` and `''` are falsy, and every array is truthy. */
  predicate ChoiceTruthy(c: Nullable<Choice>) {
    c.Val? && (c.v.Many? || c.v.s != "")
  }

  /** `value === literal` for a filter value: only a single string can be
      strictly equal to a string; an array never is. */
  predicate ChoiceIs(c: Nullable<Choice>, literal: string) {
    c.Val? && c.v.One? && c.v.s == literal
  }
}
