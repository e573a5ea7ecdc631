/** The local task store: an in-memory task list, its own filter record
    (status, priority, assignee, search and a due-date range) and the
    derived `filteredTasks` list that every synchronous action recomputes.
    Generated ids and the current time are parameters of the actions. */
module TaskStore {
  import opened Wrappers
  import opened Types
  import opened JsText
  import opened Seqs

  // ---------------------------------------------------------------------
  // Filters and the filter predicate
  // ---------------------------------------------------------------------

  /** The store's filter record; `None` is `null`. Status and priority are
      whatever string the setter received, which is only cast to the enum. */
  datatype StoreFilters = StoreFilters(
    searchQuery: Option<string>,
    status: Option<string>,
    priority: Option<string>,
    assigneeId: Option<string>,
    dueDateFrom: Option<int>,
    dueDateTo: Option<int>)

  /** The initial filter record, also restored by `resetFilters`. */
  const NoFilters: StoreFilters := StoreFilters(None, None, None, None, None, None)

  predicate StatusPasses(t: Task, f: StoreFilters) {
    !Truthy(f.status) || StatusName(t.status) == f.status.value
  }

  predicate PriorityPasses(t: Task, f: StoreFilters) {
    !Truthy(f.priority) || PriorityName(t.priority) == f.priority.value
  }

  /** `'unassigned'` keeps the tasks with a falsy assignee id; any other
      non-empty id keeps the tasks assigned to exactly that id. */
  predicate AssigneePasses(t: Task, f: StoreFilters) {
    !Truthy(f.assigneeId)
    || (if f.assigneeId.value == "unassigned" then !Truthy(t.assigneeId)
        else t.assigneeId == f.assigneeId)
  }

  /** Lower-cased, untrimmed substring match on the title or the description. */
  predicate SearchPasses(t: Task, f: StoreFilters) {
    !Truthy(f.searchQuery)
    || (var q := Lower(f.searchQuery.value);
        Includes(Lower(t.title), q) || Includes(Lower(t.description), q))
  }

  /** A task without a due date passes both bounds; the bounds are inclusive. */
  predicate DatePasses(t: Task, f: StoreFilters) {
    && !(f.dueDateFrom.Some? && t.dueDate.Some? && t.dueDate.value < f.dueDateFrom.value)
    && !(f.dueDateTo.Some? && t.dueDate.Some? && t.dueDate.value > f.dueDateTo.value)
  }

  /** The predicate `filterTasks` passes to `Array.filter`. */
  predicate Keeps(t: Task, f: StoreFilters) {
    StatusPasses(t, f) && PriorityPasses(t, f) && AssigneePasses(t, f)
    && SearchPasses(t, f) && DatePasses(t, f)
  }

  function Keeper(f: StoreFilters): Task -> bool {
    (t: Task) => Keeps(t, f)
  }

  /** `filterTasks(tasks, filters)`: exactly the tasks that pass every
      dimension, in their original order. */
  function FilterTasks(tasks: seq<Task>, f: StoreFilters): (r: seq<Task>)
    ensures |r| <= |tasks|
    ensures forall t :: t in r <==> t in tasks && Keeps(t, f)
  {
    Filter(tasks, Keeper(f))
  }

  // ---------------------------------------------------------------------
  // Properties of filterTasks
  // ---------------------------------------------------------------------

  /** The result is a subsequence of the input in the original order. */
  lemma FilterTasksIsSubsequence(tasks: seq<Task>, f: StoreFilters)
    ensures IsSubsequence(FilterTasks(tasks, f), tasks)
  {
    FilterIsSubsequence(tasks, Keeper(f));
  }

  /** With every filter `null`, every task is returned, in order. */
  lemma NoFiltersKeepAll(tasks: seq<Task>)
    ensures FilterTasks(tasks, NoFilters) == tasks
  {
    FilterAll(tasks, Keeper(NoFilters));
  }

  /** Filtering a filtered list again changes nothing. */
  lemma FilterTasksIdempotent(tasks: seq<Task>, f: StoreFilters)
    ensures FilterTasks(FilterTasks(tasks, f), f) == FilterTasks(tasks, f)
  {
    FilterIdempotent(tasks, Keeper(f));
  }

  /** The assignee dimension alone: `'unassigned'` keeps exactly the tasks
      with a falsy assignee id, any other id exactly the tasks with that id. */
  lemma AssigneeFilterExact(tasks: seq<Task>, a: string)
    requires a != ""
    ensures forall t :: t in FilterTasks(tasks, NoFilters.(assigneeId := Some(a))) <==>
      t in tasks && (if a == "unassigned" then !Truthy(t.assigneeId) else t.assigneeId == Some(a))
  {
  }

  /** The search dimension alone: a case-insensitive substring match on the
      title or the description, with the query not trimmed. */
  lemma SearchFilterExact(tasks: seq<Task>, q: string)
    requires q != ""
    ensures forall t :: t in FilterTasks(tasks, NoFilters.(searchQuery := Some(q))) <==>
      t in tasks && (Occurs(Lower(t.title), Lower(q)) || Occurs(Lower(t.description), Lower(q)))
  {
    forall t | t in tasks
      ensures Keeps(t, NoFilters.(searchQuery := Some(q))) <==>
        (Occurs(Lower(t.title), Lower(q)) || Occurs(Lower(t.description), Lower(q)))
    {
      IncludesIff(Lower(t.title), Lower(q));
      IncludesIff(Lower(t.description), Lower(q));
    }
  }

  /** Both due-date bounds are inclusive, and a task without a due date
      passes them. */
  lemma DueDateRangeInclusive(t: Task, from: int, to: int)
    ensures Keeps(t, NoFilters.(dueDateFrom := Some(from), dueDateTo := Some(to)))
        <==> t.dueDate.None? || from <= t.dueDate.value <= to
  {
  }

  // ---------------------------------------------------------------------
  // List updates and the filtered view
  // ---------------------------------------------------------------------

  /** `tasks.filter(task => task.id !== id)`. */
  function IdIsNot(id: string): Task -> bool {
    (t: Task) => t.id != id
  }

  function RemoveById(tasks: seq<Task>, id: string): (r: seq<Task>)
    ensures forall t :: t in r <==> t in tasks && t.id != id
  {
    Filter(tasks, IdIsNot(id))
  }

  /** Deleting keeps the remaining tasks in their order. */
  lemma RemoveByIdIsSubsequence(tasks: seq<Task>, id: string)
    ensures IsSubsequence(RemoveById(tasks, id), tasks)
  {
    FilterIsSubsequence(tasks, IdIsNot(id));
  }

  /** Appending a task appends it to the filtered view iff it passes. */
  lemma FilterTasksAppend(tasks: seq<Task>, t: Task, f: StoreFilters)
    ensures FilterTasks(tasks + [t], f) == FilterTasks(tasks, f) + (if Keeps(t, f) then [t] else [])
  {
    FilterAppend(tasks, t, Keeper(f));
  }

  /** Replacing the task at index `i` affects the filtered view only there. */
  lemma FilterTasksReplace(tasks: seq<Task>, i: nat, t: Task, f: StoreFilters)
    requires i < |tasks|
    ensures FilterTasks(tasks[i := t], f)
         == FilterTasks(tasks[..i], f) + (if Keeps(t, f) then [t] else []) + FilterTasks(tasks[i + 1..], f)
  {
    FilterReplace(tasks, i, t, Keeper(f));
  }

  /** Removing by id before or after filtering gives the same view. */
  lemma FilterTasksRemove(tasks: seq<Task>, id: string, f: StoreFilters)
    ensures FilterTasks(RemoveById(tasks, id), f) == RemoveById(FilterTasks(tasks, f), id)
  {
    FilterCommute(tasks, IdIsNot(id), Keeper(f));
  }

  // ---------------------------------------------------------------------
  // Task construction and partial updates
  // ---------------------------------------------------------------------

  /** `Omit<Task, 'id' | 'createdAt' | 'updatedAt'>`: what `addTask` receives. */
  datatype TaskDraft = TaskDraft(
    title: string,
    description: string,
    status: TaskStatus,
    priority: TaskPriority,
    dueDate: Option<int>,
    assigneeId: Option<string>,
    assignee: Option<User>,
    creatorId: string,
    creator: Option<User>,
    tags: seq<string>,
    comments: seq<TaskComment>,
    attachments: seq<string>)

  /** `{ id, ...taskData, createdAt: now, updatedAt: now, comments: [], attachments: [] }`. */
  function NewTask(d: TaskDraft, id: string, now: int): Task {
    Task(id, d.title, d.description, d.status, d.priority, d.dueDate, now, now,
         d.assigneeId, d.assignee, d.creatorId, d.creator, d.tags, [], [])
  }

  /** One key of a `Partial<Task>`: absent, or present with a value (for
      an optional field the value may be `undefined`, i.e. `None`). */
  datatype Patch<T> = Keep | Put(value: T)

  function Override<T>(current: T, p: Patch<T>): T {
    match p
    case Keep => current
    case Put(v) => v
  }

  datatype TaskPatch = TaskPatch(
    id: Patch<string>,
    title: Patch<string>,
    description: Patch<string>,
    status: Patch<TaskStatus>,
    priority: Patch<TaskPriority>,
    dueDate: Patch<Option<int>>,
    createdAt: Patch<int>,
    updatedAt: Patch<int>,
    assigneeId: Patch<Option<string>>,
    assignee: Patch<Option<User>>,
    creatorId: Patch<string>,
    creator: Patch<Option<User>>,
    tags: Patch<seq<string>>,
    comments: Patch<seq<TaskComment>>,
    attachments: Patch<seq<string>>)

  /** `{ ...task, ...updates, updatedAt: now }`: supplied keys overwrite,
      the others are kept, and `updatedAt` is `now` whatever `updates`
      says, because it is written last. */
  function ApplyUpdate(t: Task, u: TaskPatch, now: int): (r: Task)
    ensures r.updatedAt == now
    ensures u.title.Keep? ==> r.title == t.title
    ensures u.title.Put? ==> r.title == u.title.value
  {
    Task(Override(t.id, u.id), Override(t.title, u.title), Override(t.description, u.description),
         Override(t.status, u.status), Override(t.priority, u.priority), Override(t.dueDate, u.dueDate),
         Override(t.createdAt, u.createdAt), now,
         Override(t.assigneeId, u.assigneeId), Override(t.assignee, u.assignee),
         Override(t.creatorId, u.creatorId), Override(t.creator, u.creator),
         Override(t.tags, u.tags), Override(t.comments, u.comments), Override(t.attachments, u.attachments))
  }

  /** An empty update only bumps `updatedAt`. */
  lemma EmptyUpdateOnlyBumps(t: Task, now: int)
    ensures ApplyUpdate(t, TaskPatch(Keep, Keep, Keep, Keep, Keep, Keep, Keep, Keep, Keep, Keep, Keep, Keep, Keep, Keep, Keep), now)
         == t.(updatedAt := now)
  {
  }

  /** `assigneeId === null ? undefined : assigneeId`. */
  function AssigneeValue(a: Nullable<string>): (r: Option<string>)
    ensures r.Some? <==> a.Val?
    ensures a.Val? ==> r == Some(a.v)
  {
    match a
    case Val(s) => Some(s)
    case _ => None
  }

  /** `tasks.findIndex(task => task.id === id)`: the first index holding
      that id, or `None` for -1. */
  function FindIndex(tasks: seq<Task>, id: string): (r: Option<nat>)
    ensures r.Some? ==> r.value < |tasks| && tasks[r.value].id == id
    ensures r.Some? ==> forall j :: 0 <= j < r.value ==> tasks[j].id != id
    ensures r.None? ==> forall j :: 0 <= j < |tasks| ==> tasks[j].id != id
  {
    if tasks == [] then None
    else if tasks[0].id == id then Some(0)
    else match FindIndex(tasks[1..], id)
      case None => None
      case Some(k) => Some(k + 1)
  }

  // ---------------------------------------------------------------------
  // Mock data loaded by fetchTasks
  // ---------------------------------------------------------------------

  /** `new Date(year, monthIndex, day)` as an order-preserving day number. */
  function LocalDate(year: int, monthIndex: int, day: int): int {
    (year * 12 + monthIndex) * 31 + day
  }

  const John: User := User("user1", "John Doe", "john@example.com", None)
  const Jane: User := User("user2", "Jane Smith", "jane@example.com", None)

  const MockTasks: seq<Task> := [
    Task("1", "Implémenter le système de thèmes",
         "Créer un système permettant de basculer entre Material UI et ShadCN",
         Completed, High, Some(LocalDate(2025, 5, 30)), LocalDate(2025, 5, 20), LocalDate(2025, 5, 22),
         Some("user1"), Some(John), "user1", Some(John), ["frontend", "ui"], [], []),
    Task("2", "Créer les composants de tâche",
         "Développer les composants pour afficher et éditer les tâches",
         InProgress, Medium, Some(LocalDate(2025, 6, 5)), LocalDate(2025, 5, 25), LocalDate(2025, 5, 25),
         Some("user2"), Some(Jane), "user1", Some(John), ["frontend", "component"], [], []),
    Task("3", "Intégrer le store Zustand",
         "Mettre en place la gestion d'état avec Zustand pour les tâches",
         Todo, High, Some(LocalDate(2025, 6, 10)), LocalDate(2025, 5, 28), LocalDate(2025, 5, 28),
         None, None, "user2", Some(Jane), ["frontend", "state-management"], [], [])
  ]

  /** `fetchTasks` as written stores the mock list as `filteredTasks`
      unfiltered: with a status filter `'todo'` in place the view shows all
      three mock tasks although only one passes. */
  lemma FetchIgnoresFilters()
    ensures FilterTasks(MockTasks, NoFilters.(status := Some("todo"))) == [MockTasks[2]]
    ensures FilterTasks(MockTasks, NoFilters.(status := Some("todo"))) != MockTasks
  {
    var f := NoFilters.(status := Some("todo"));
    assert !Keeps(MockTasks[0], f) && !Keeps(MockTasks[1], f) && Keeps(MockTasks[2], f);
    assert MockTasks == [MockTasks[0]] + [MockTasks[1]] + [MockTasks[2]];
    FilterConcat([MockTasks[0]] + [MockTasks[1]], [MockTasks[2]], Keeper(f));
    FilterConcat([MockTasks[0]], [MockTasks[1]], Keeper(f));
  }

  // ---------------------------------------------------------------------
  // The store
  // ---------------------------------------------------------------------

  class Store {
    var tasks: seq<Task>
    var filteredTasks: seq<Task>
    var filters: StoreFilters
    var isLoading: bool
    var error: Option<string>

    /** The derived view agrees with the tasks and the filters. */
    ghost predicate Valid()
      reads this
    {
      filteredTasks == FilterTasks(tasks, filters)
    }

    /** The initial state: no tasks, every filter `null`, not loading. */
    constructor ()
      ensures Valid()
      ensures tasks == [] && filteredTasks == [] && filters == NoFilters
      ensures !isLoading && error == None
    {
      tasks := [];
      filteredTasks := [];
      filters := NoFilters;
      isLoading := false;
      error := None;
    }

    /** `addTask`: appends exactly one task, with the generated id, the
        given time and empty comments and attachments. */
    method AddTask(data: TaskDraft, id: string, now: int)
      modifies this
      ensures tasks == old(tasks) + [NewTask(data, id, now)]
      ensures tasks[|tasks| - 1].id == id && tasks[|tasks| - 1].comments == [] && tasks[|tasks| - 1].attachments == []
      ensures filters == old(filters) && isLoading == old(isLoading) && error == old(error)
      ensures Valid()
      ensures old(Valid()) ==>
        filteredTasks == old(filteredTasks) + (if Keeps(NewTask(data, id, now), filters) then [NewTask(data, id, now)] else [])
    {
      var t := NewTask(data, id, now);
      FilterTasksAppend(tasks, t, filters);
      tasks := tasks + [t];
      filteredTasks := FilterTasks(tasks, filters);
    }

    /** `updateTask`: an unknown id changes nothing; a known id replaces the
        first task holding it and nothing else. */
    method UpdateTask(id: string, updates: TaskPatch, now: int)
      modifies this
      ensures FindIndex(old(tasks), id).None? ==>
        tasks == old(tasks) && filteredTasks == old(filteredTasks) && filters == old(filters)
      ensures FindIndex(old(tasks), id).Some? ==>
        var i := FindIndex(old(tasks), id).value;
        && tasks == old(tasks)[i := ApplyUpdate(old(tasks)[i], updates, now)]
        && filters == old(filters) && Valid()
        && filteredTasks == FilterTasks(old(tasks)[..i], filters)
             + (if Keeps(tasks[i], filters) then [tasks[i]] else [])
             + FilterTasks(old(tasks)[i + 1..], filters)
      ensures |tasks| == |old(tasks)|
      ensures isLoading == old(isLoading) && error == old(error)
      ensures old(Valid()) ==> Valid()
    {
      var index := FindIndex(tasks, id);
      if index.Some? {
        var i := index.value;
        var t := ApplyUpdate(tasks[i], updates, now);
        FilterTasksReplace(tasks, i, t, filters);
        tasks := tasks[i := t];
        filteredTasks := FilterTasks(tasks, filters);
      }
    }

    /** `updateTaskAssignee`: like `updateTask` with only the assignee id
        supplied; `null` and `undefined` both unassign. */
    method UpdateTaskAssignee(id: string, assigneeId: Nullable<string>, now: int)
      modifies this
      ensures FindIndex(old(tasks), id).None? ==>
        tasks == old(tasks) && filteredTasks == old(filteredTasks) && filters == old(filters)
      ensures FindIndex(old(tasks), id).Some? ==>
        var i := FindIndex(old(tasks), id).value;
        && tasks == old(tasks)[i := old(tasks)[i].(assigneeId := AssigneeValue(assigneeId), updatedAt := now)]
        && filters == old(filters) && Valid()
      ensures |tasks| == |old(tasks)|
      ensures isLoading == old(isLoading) && error == old(error)
      ensures old(Valid()) ==> Valid()
    {
      var index := FindIndex(tasks, id);
      if index.Some? {
        var i := index.value;
        tasks := tasks[i := tasks[i].(assigneeId := AssigneeValue(assigneeId), updatedAt := now)];
        filteredTasks := FilterTasks(tasks, filters);
      }
    }

    /** `deleteTask`: removes every task with that id, keeps the rest in
        order, and removes the same tasks from a consistent view. */
    method DeleteTask(id: string)
      modifies this
      ensures tasks == RemoveById(old(tasks), id)
      ensures IsSubsequence(tasks, old(tasks))
      ensures filters == old(filters) && isLoading == old(isLoading) && error == old(error)
      ensures Valid()
      ensures old(Valid()) ==> filteredTasks == RemoveById(old(filteredTasks), id)
    {
      RemoveByIdIsSubsequence(tasks, id);
      FilterTasksRemove(tasks, id, filters);
      tasks := RemoveById(tasks, id);
      filteredTasks := FilterTasks(tasks, filters);
    }

    /** `setSearchQuery`: the empty string is stored as `null`. */
    method SetSearchQuery(query: string)
      modifies this
      ensures filters == old(filters).(searchQuery := if query == "" then None else Some(query))
      ensures tasks == old(tasks) && isLoading == old(isLoading) && error == old(error)
      ensures Valid()
    {
      filters := filters.(searchQuery := if query == "" then None else Some(query));
      filteredTasks := FilterTasks(tasks, filters);
    }

    /** `setStatusFilter`: the string is stored as is, `''` as `null`. */
    method SetStatusFilter(status: string)
      modifies this
      ensures filters == old(filters).(status := if status == "" then None else Some(status))
      ensures tasks == old(tasks) && isLoading == old(isLoading) && error == old(error)
      ensures Valid()
    {
      filters := filters.(status := if status == "" then None else Some(status));
      filteredTasks := FilterTasks(tasks, filters);
    }

    /** `setPriorityFilter`: the string is stored as is, `''` as `null`. */
    method SetPriorityFilter(priority: string)
      modifies this
      ensures filters == old(filters).(priority := if priority == "" then None else Some(priority))
      ensures tasks == old(tasks) && isLoading == old(isLoading) && error == old(error)
      ensures Valid()
    {
      filters := filters.(priority := if priority == "" then None else Some(priority));
      filteredTasks := FilterTasks(tasks, filters);
    }

    /** `setAssigneeFilter`: the string is stored as is, `''` as `null`. */
    method SetAssigneeFilter(assigneeId: string)
      modifies this
      ensures filters == old(filters).(assigneeId := if assigneeId == "" then None else Some(assigneeId))
      ensures tasks == old(tasks) && isLoading == old(isLoading) && error == old(error)
      ensures Valid()
    {
      filters := filters.(assigneeId := if assigneeId == "" then None else Some(assigneeId));
      filteredTasks := FilterTasks(tasks, filters);
    }

    /** `resetFilters`: all six filters `null` and the view a copy of the
        tasks, which is what filtering by no filter gives. */
    method ResetFilters()
      modifies this
      ensures filters == NoFilters && filteredTasks == tasks
      ensures tasks == old(tasks) && isLoading == old(isLoading) && error == old(error)
      ensures Valid()
    {
      NoFiltersKeepAll(tasks);
      filters := NoFilters;
      filteredTasks := tasks;
    }

    /** `getFilteredTasks`: recomputes the view from the current state. */
    method GetFilteredTasks() returns (r: seq<Task>)
      ensures r == FilterTasks(tasks, filters)
      ensures IsSubsequence(r, tasks)
      ensures Valid() ==> r == filteredTasks
    {
      FilterTasksIsSubsequence(tasks, filters);
      r := FilterTasks(tasks, filters);
    }

    /** `fetchTasks` once its timer has fired, as written: the mock list
        becomes both `tasks` and `filteredTasks`, whatever the filters. */
    method FetchTasks()
      modifies this
      ensures tasks == MockTasks && filteredTasks == MockTasks
      ensures filters == old(filters) && !isLoading && error == None
    {
      tasks := MockTasks;
      filteredTasks := MockTasks;
      isLoading := false;
      error := None;
    }

    /** `fetchTasks` corrected: the mock list is loaded and the view is
        recomputed from the current filters, like every other action. */
    method FetchTasksFiltered()
      modifies this
      ensures tasks == MockTasks && filters == old(filters) && !isLoading && error == None
      ensures Valid()
    {
      tasks := MockTasks;
      filteredTasks := FilterTasks(tasks, filters);
      isLoading := false;
      error := None;
    }
  }
}
