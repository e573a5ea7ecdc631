/** The query hook's filtered view: a four-stage pipeline (status, priority,
    assignee, search) over the fetched task collection, with a removal
    counter per stage, and the hook's count of active filter keys. */
module QueryFilter {
  import opened Types
  import opened JsText
  import opened Seqs
  import Wrappers
  import TaskStore
  import FilterState

  // ---------------------------------------------------------------------
  // The stages
  // ---------------------------------------------------------------------

  /** `filter.status && filter.status !== 'all'`. */
  predicate StatusActive(f: TaskFilter) {
    ChoiceTruthy(f.status) && !ChoiceIs(f.status, "all")
  }

  /** `filter.priority && filter.priority !== 'all'`. */
  predicate PriorityActive(f: TaskFilter) {
    ChoiceTruthy(f.priority) && !ChoiceIs(f.priority, "all")
  }

  /** `filter.assigneeId` is truthy. */
  predicate AssigneeActive(f: TaskFilter) {
    ChoiceTruthy(f.assigneeId)
  }

  /** `filter.search && filter.search.trim() !== ''`. */
  predicate SearchActive(f: TaskFilter) {
    f.search.Val? && f.search.v != "" && Trim(f.search.v) != ""
  }

  /** `task.status === filter.status`. */
  predicate StatusMatch(f: TaskFilter, t: Task) {
    ChoiceIs(f.status, StatusName(t.status))
  }

  /** `task.priority === filter.priority`. */
  predicate PriorityMatch(f: TaskFilter, t: Task) {
    ChoiceIs(f.priority, PriorityName(t.priority))
  }

  /** `!task.assigneeId`. */
  predicate Unassigned(t: Task) {
    !Truthy(t.assigneeId)
  }

  /** `task.assigneeId === filter.assigneeId`. */
  predicate AssigneeMatch(f: TaskFilter, t: Task) {
    t.assigneeId.Some? && ChoiceIs(f.assigneeId, t.assigneeId.value)
  }

  /** The search query: lower-cased, then trimmed. */
  function Query(f: TaskFilter): string
    requires f.search.Val?
  {
    Trim(Lower(f.search.v))
  }

  /** Title match, or a non-empty description that matches. */
  predicate SearchMatch(f: TaskFilter, t: Task)
    requires f.search.Val?
  {
    Includes(Lower(t.title), Query(f))
    || (t.description != "" && Includes(Lower(t.description), Query(f)))
  }

  /** What each stage lets through, inactive stages letting everything through. */
  predicate StatusStage(f: TaskFilter, t: Task) { !StatusActive(f) || StatusMatch(f, t) }

  predicate PriorityStage(f: TaskFilter, t: Task) { !PriorityActive(f) || PriorityMatch(f, t) }

  predicate AssigneeStage(f: TaskFilter, t: Task) {
    !AssigneeActive(f)
    || (if ChoiceIs(f.assigneeId, "unassigned") then Unassigned(t)
        else ChoiceIs(f.assigneeId, "all_assignees") || AssigneeMatch(f, t))
  }

  predicate SearchStage(f: TaskFilter, t: Task) { !SearchActive(f) || SearchMatch(f, t) }

  /** The first `k` stages together. */
  predicate UpTo(f: TaskFilter, k: nat, t: Task) {
    && (k < 1 || StatusStage(f, t))
    && (k < 2 || PriorityStage(f, t))
    && (k < 3 || AssigneeStage(f, t))
    && (k < 4 || SearchStage(f, t))
  }

  function UpToKeeper(f: TaskFilter, k: nat): Task -> bool {
    (t: Task) => UpTo(f, k, t)
  }

  /** The four stages composed by AND. */
  predicate PipelineKeeps(f: TaskFilter, t: Task) {
    StatusStage(f, t) && PriorityStage(f, t) && AssigneeStage(f, t) && SearchStage(f, t)
  }

  function PipelineKeeper(f: TaskFilter): Task -> bool {
    (t: Task) => PipelineKeeps(f, t)
  }

  /** The specification of the view: the tasks that pass every stage, in
      their original order. */
  function FilteredTasks(allTasks: seq<Task>, f: TaskFilter): (r: seq<Task>)
    ensures forall t :: t in r <==> t in allTasks && PipelineKeeps(f, t)
  {
    Filter(allTasks, PipelineKeeper(f))
  }

  // The stage filters the memo applies, one `Array.filter` callback each.

  function StatusFilter(f: TaskFilter): Task -> bool { (t: Task) => StatusMatch(f, t) }

  function PriorityFilter(f: TaskFilter): Task -> bool { (t: Task) => PriorityMatch(f, t) }

  function UnassignedFilter(): Task -> bool { (t: Task) => Unassigned(t) }

  function AssigneeFilter(f: TaskFilter): Task -> bool { (t: Task) => AssigneeMatch(f, t) }

  function SearchFilter(f: TaskFilter): Task -> bool
    requires f.search.Val?
  {
    (t: Task) => SearchMatch(f, t)
  }

  /** Applying stage `k` after the first `k - 1` stages is the first `k`
      stages. */
  lemma NextStage(s: seq<Task>, f: TaskFilter, k: nat, stage: Task -> bool)
    requires 1 <= k <= 4
    requires forall t :: UpTo(f, k - 1, t) ==> (stage(t) <==> UpTo(f, k, t))
    ensures Filter(Filter(s, UpToKeeper(f, k - 1)), stage) == Filter(s, UpToKeeper(f, k))
  {
    FilterCompose(s, UpToKeeper(f, k - 1), stage);
    FilterExt(s, And(UpToKeeper(f, k - 1), stage), UpToKeeper(f, k));
  }

  /** A stage that lets everything through is the same as not applying it. */
  lemma SkipStage(s: seq<Task>, f: TaskFilter, k: nat)
    requires 1 <= k <= 4
    requires forall t :: UpTo(f, k - 1, t) ==> UpTo(f, k, t)
    ensures Filter(s, UpToKeeper(f, k - 1)) == Filter(s, UpToKeeper(f, k))
  {
    FilterExt(s, UpToKeeper(f, k - 1), UpToKeeper(f, k));
  }

  /** Stage 1 after no stage: filtering by status when it is active. */
  lemma StatusStep(s: seq<Task>, f: TaskFilter)
    ensures Filter(s, UpToKeeper(f, 1))
         == if StatusActive(f) then Filter(Filter(s, UpToKeeper(f, 0)), StatusFilter(f))
            else Filter(s, UpToKeeper(f, 0))
  {
    if StatusActive(f) { NextStage(s, f, 1, StatusFilter(f)); } else { SkipStage(s, f, 1); }
  }

  /** Stage 2 after stage 1: filtering by priority when it is active. */
  lemma PriorityStep(s: seq<Task>, f: TaskFilter)
    ensures Filter(s, UpToKeeper(f, 2))
         == if PriorityActive(f) then Filter(Filter(s, UpToKeeper(f, 1)), PriorityFilter(f))
            else Filter(s, UpToKeeper(f, 1))
  {
    if PriorityActive(f) { NextStage(s, f, 2, PriorityFilter(f)); } else { SkipStage(s, f, 2); }
  }

  /** Stage 3 after stage 2: `'unassigned'` keeps the unassigned tasks,
      `'all_assignees'` keeps everything, any other id the tasks with it. */
  lemma AssigneeStep(s: seq<Task>, f: TaskFilter)
    ensures Filter(s, UpToKeeper(f, 3))
         == if !AssigneeActive(f) || ChoiceIs(f.assigneeId, "all_assignees") then Filter(s, UpToKeeper(f, 2))
            else if ChoiceIs(f.assigneeId, "unassigned") then Filter(Filter(s, UpToKeeper(f, 2)), UnassignedFilter())
            else Filter(Filter(s, UpToKeeper(f, 2)), AssigneeFilter(f))
  {
    if !AssigneeActive(f) || ChoiceIs(f.assigneeId, "all_assignees") {
      SkipStage(s, f, 3);
    } else if ChoiceIs(f.assigneeId, "unassigned") {
      NextStage(s, f, 3, UnassignedFilter());
    } else {
      NextStage(s, f, 3, AssigneeFilter(f));
    }
  }

  /** Stage 4 after stage 3: filtering by the search when it is active. */
  lemma SearchStep(s: seq<Task>, f: TaskFilter)
    ensures Filter(s, UpToKeeper(f, 4))
         == if SearchActive(f) then Filter(Filter(s, UpToKeeper(f, 3)), SearchFilter(f))
            else Filter(s, UpToKeeper(f, 3))
  {
    if SearchActive(f) { NextStage(s, f, 4, SearchFilter(f)); } else { SkipStage(s, f, 4); }
  }

  /** All four stages are the pipeline. */
  lemma AllStages(s: seq<Task>, f: TaskFilter)
    ensures Filter(s, UpToKeeper(f, 0)) == s
    ensures Filter(s, UpToKeeper(f, 4)) == FilteredTasks(s, f)
  {
    FilterAll(s, UpToKeeper(f, 0));
    FilterExt(s, UpToKeeper(f, 4), PipelineKeeper(f));
  }

  // ---------------------------------------------------------------------
  // The memo
  // ---------------------------------------------------------------------

  /** `tasksRemovedByFilter`. */
  datatype RemovalCounts = RemovalCounts(byStatus: nat, byPriority: nat, byAssignee: nat, bySearch: nat)

  function TotalRemoved(c: RemovalCounts): nat {
    c.byStatus + c.byPriority + c.byAssignee + c.bySearch
  }

  /** The status block of the memo: when the status is active, filter by
      it and count the tasks it removed. */
  method StatusPass(allTasks: seq<Task>, filter: TaskFilter, filteredResult: seq<Task>)
    returns (next: seq<Task>, removedCount: nat)
    requires filteredResult == Filter(allTasks, UpToKeeper(filter, 0))
    ensures next == Filter(allTasks, UpToKeeper(filter, 1))
    ensures |next| + removedCount == |filteredResult|
  {
    StatusStep(allTasks, filter);
    next, removedCount := filteredResult, 0;
    if StatusActive(filter) {
      var initialCount := |filteredResult|;
      next := Filter(filteredResult, StatusFilter(filter));
      removedCount := initialCount - |next|;
    }
  }

  /** The priority block of the memo. */
  method PriorityPass(allTasks: seq<Task>, filter: TaskFilter, filteredResult: seq<Task>)
    returns (next: seq<Task>, removedCount: nat)
    requires filteredResult == Filter(allTasks, UpToKeeper(filter, 1))
    ensures next == Filter(allTasks, UpToKeeper(filter, 2))
    ensures |next| + removedCount == |filteredResult|
  {
    PriorityStep(allTasks, filter);
    next, removedCount := filteredResult, 0;
    if PriorityActive(filter) {
      var initialCount := |filteredResult|;
      next := Filter(filteredResult, PriorityFilter(filter));
      removedCount := initialCount - |next|;
    }
  }

  /** The assignee block of the memo; its counter is written whenever the
      assignee is truthy, `'all_assignees'` included. */
  method AssigneePass(allTasks: seq<Task>, filter: TaskFilter, filteredResult: seq<Task>)
    returns (next: seq<Task>, removedCount: nat)
    requires filteredResult == Filter(allTasks, UpToKeeper(filter, 2))
    ensures next == Filter(allTasks, UpToKeeper(filter, 3))
    ensures |next| + removedCount == |filteredResult|
  {
    AssigneeStep(allTasks, filter);
    next, removedCount := filteredResult, 0;
    if AssigneeActive(filter) {
      var initialCount := |filteredResult|;
      if ChoiceIs(filter.assigneeId, "unassigned") {
        next := Filter(filteredResult, UnassignedFilter());
      } else if !ChoiceIs(filter.assigneeId, "all_assignees") {
        next := Filter(filteredResult, AssigneeFilter(filter));
      }
      removedCount := initialCount - |next|;
    }
  }

  /** The search block of the memo. */
  method SearchPass(allTasks: seq<Task>, filter: TaskFilter, filteredResult: seq<Task>)
    returns (next: seq<Task>, removedCount: nat)
    requires filteredResult == Filter(allTasks, UpToKeeper(filter, 3))
    ensures next == Filter(allTasks, UpToKeeper(filter, 4))
    ensures |next| + removedCount == |filteredResult|
  {
    SearchStep(allTasks, filter);
    next, removedCount := filteredResult, 0;
    if SearchActive(filter) {
      var initialCount := |filteredResult|;
      next := Filter(filteredResult, SearchFilter(filter));
      removedCount := initialCount - |next|;
    }
  }

  /** The `filteredTasks` memo: an empty collection gives `[]`; otherwise
      the four blocks run in order over `filteredResult`. The result is the
      specified view, and the counters add up to the number of tasks
      removed in all. */
  method FilterPipeline(allTasks: seq<Task>, filter: TaskFilter) returns (filteredResult: seq<Task>, removed: RemovalCounts)
    ensures filteredResult == FilteredTasks(allTasks, filter)
    ensures TotalRemoved(removed) == |allTasks| - |filteredResult|
  {
    if |allTasks| == 0 {
      return [], RemovalCounts(0, 0, 0, 0);
    }
    AllStages(allTasks, filter);
    filteredResult := allTasks;
    var byStatus, byPriority, byAssignee, bySearch;
    filteredResult, byStatus := StatusPass(allTasks, filter, filteredResult);
    filteredResult, byPriority := PriorityPass(allTasks, filter, filteredResult);
    filteredResult, byAssignee := AssigneePass(allTasks, filter, filteredResult);
    filteredResult, bySearch := SearchPass(allTasks, filter, filteredResult);
    removed := RemovalCounts(byStatus, byPriority, byAssignee, bySearch);
  }

  // ---------------------------------------------------------------------
  // Properties of the view
  // ---------------------------------------------------------------------

  /** The view keeps the surviving tasks in their original order. */
  lemma FilteredIsSubsequence(allTasks: seq<Task>, f: TaskFilter)
    ensures IsSubsequence(FilteredTasks(allTasks, f), allTasks)
  {
    FilterIsSubsequence(allTasks, PipelineKeeper(f));
  }

  /** Applying the pipeline twice with the same filter gives the same list. */
  lemma FilteredIdempotent(allTasks: seq<Task>, f: TaskFilter)
    ensures FilteredTasks(FilteredTasks(allTasks, f), f) == FilteredTasks(allTasks, f)
  {
    FilterIdempotent(allTasks, PipelineKeeper(f));
  }

  /** The empty filter and the context's default filter keep every task. */
  lemma UnconstrainedKeepsAll(allTasks: seq<Task>)
    ensures FilteredTasks(allTasks, EmptyFilter) == allTasks
    ensures FilteredTasks(allTasks, FilterState.DefaultFilter) == allTasks
  {
    FilterAll(allTasks, PipelineKeeper(EmptyFilter));
    FilterAll(allTasks, PipelineKeeper(FilterState.DefaultFilter));
  }

  /** `'all'` as status constrains nothing: it filters like `null`. */
  lemma AllStatusIsNull(allTasks: seq<Task>, f: TaskFilter)
    ensures FilteredTasks(allTasks, f.(status := Val(One("all")))) == FilteredTasks(allTasks, f.(status := Null))
  {
    FilterExt(allTasks, PipelineKeeper(f.(status := Val(One("all")))), PipelineKeeper(f.(status := Null)));
  }

  /** `'all'` as priority constrains nothing: it filters like `null`. */
  lemma AllPriorityIsNull(allTasks: seq<Task>, f: TaskFilter)
    ensures FilteredTasks(allTasks, f.(priority := Val(One("all")))) == FilteredTasks(allTasks, f.(priority := Null))
  {
    FilterExt(allTasks, PipelineKeeper(f.(priority := Val(One("all")))), PipelineKeeper(f.(priority := Null)));
  }

  /** `'all_assignees'` constrains nothing: it filters like `null`. */
  lemma AllAssigneesIsNull(allTasks: seq<Task>, f: TaskFilter)
    ensures FilteredTasks(allTasks, f.(assigneeId := Val(One("all_assignees"))))
         == FilteredTasks(allTasks, f.(assigneeId := Null))
  {
    FilterExt(allTasks, PipelineKeeper(f.(assigneeId := Val(One("all_assignees")))),
              PipelineKeeper(f.(assigneeId := Null)));
  }

  /** A specific status keeps exactly the tasks with that status. */
  lemma StatusKeepsExactly(allTasks: seq<Task>, s: TaskStatus)
    ensures forall t :: t in FilteredTasks(allTasks, EmptyFilter.(status := Val(One(StatusName(s))))) <==>
      t in allTasks && t.status == s
  {
    forall t: Task ensures StatusName(t.status) == StatusName(s) <==> t.status == s {
      StatusRoundTrip(t.status);
      StatusRoundTrip(s);
    }
  }

  /** An array-valued status is never `===` a task's status: it empties the view. */
  lemma ArrayStatusMatchesNothing(allTasks: seq<Task>, f: TaskFilter, xs: seq<string>)
    ensures FilteredTasks(allTasks, f.(status := Val(Many(xs)))) == []
  {
    FilterNone(allTasks, PipelineKeeper(f.(status := Val(Many(xs)))));
  }

  /** `'unassigned'` keeps exactly the tasks with a falsy assignee id; any
      other id (the sentinels aside) exactly the tasks with that id. */
  lemma AssigneeKeepsExactly(allTasks: seq<Task>, a: string)
    requires a != "" && a != "all_assignees"
    ensures forall t :: t in FilteredTasks(allTasks, EmptyFilter.(assigneeId := Val(One(a)))) <==>
      t in allTasks && (if a == "unassigned" then !Truthy(t.assigneeId) else t.assigneeId == Wrappers.Some(a))
  {
  }

  /** A whitespace-only search constrains nothing. */
  lemma BlankSearchIsNull(allTasks: seq<Task>, f: TaskFilter, s: string)
    requires AllSpace(s)
    ensures FilteredTasks(allTasks, f.(search := Val(s))) == FilteredTasks(allTasks, f.(search := Null))
  {
    FilterExt(allTasks, PipelineKeeper(f.(search := Val(s))), PipelineKeeper(f.(search := Null)));
  }

  /** The search is trimmed: trimming it beforehand changes nothing. */
  lemma SearchIsTrimmed(allTasks: seq<Task>, f: TaskFilter, s: string)
    ensures FilteredTasks(allTasks, f.(search := Val(s))) == FilteredTasks(allTasks, f.(search := Val(Trim(s))))
  {
    var f1, f2 := f.(search := Val(s)), f.(search := Val(Trim(s)));
    TrimmedQuery(s);
    assert SearchActive(f1) == SearchActive(f2);
    assert Query(f1) == Query(f2);
    FilterExt(allTasks, PipelineKeeper(f1), PipelineKeeper(f2));
  }

  /** Trimming a search beforehand neither changes whether it is active nor
      the query it yields. */
  lemma TrimmedQuery(s: string)
    ensures (s != "" && Trim(s) != "") == (Trim(s) != "" && Trim(Trim(s)) != "")
    ensures Trim(Lower(s)) == Trim(Lower(Trim(s)))
  {
    TrimIdempotent(s);
    LowerTrimCommute(s);
    LowerTrimCommute(Trim(s));
  }

  /** An active search keeps exactly the tasks whose lower-cased title, or
      non-empty lower-cased description, contains the trimmed lower-cased
      query. */
  lemma SearchKeepsExactly(allTasks: seq<Task>, s: string)
    requires Trim(s) != ""
    ensures forall t :: t in FilteredTasks(allTasks, EmptyFilter.(search := Val(s))) <==>
      t in allTasks && (Occurs(Lower(t.title), Lower(Trim(s)))
                        || (t.description != "" && Occurs(Lower(t.description), Lower(Trim(s)))))
  {
    LowerTrimCommute(s);
    forall t | t in allTasks
      ensures Includes(Lower(t.title), Lower(Trim(s))) == Occurs(Lower(t.title), Lower(Trim(s)))
      ensures Includes(Lower(t.description), Lower(Trim(s))) == Occurs(Lower(t.description), Lower(Trim(s)))
    {
      IncludesIff(Lower(t.title), Lower(Trim(s)));
      IncludesIff(Lower(t.description), Lower(Trim(s)));
    }
  }

  // ---------------------------------------------------------------------
  // The two engines
  // ---------------------------------------------------------------------

  /** A single-valued key holding no sentinel of the hook. */
  predicate PlainChoice(c: Nullable<Choice>, sentinel: string) {
    c.Unset? || c.Null? || (c.v.One? && c.v.s != sentinel)
  }

  /** A filter without sentinels and arrays, with an already trimmed
      search and no due-date bounds. */
  predicate Plain(f: TaskFilter) {
    && PlainChoice(f.status, "all") && PlainChoice(f.priority, "all")
    && PlainChoice(f.assigneeId, "all_assignees")
    && (f.search.Val? ==> Trim(f.search.v) == f.search.v)
    && !f.dueDateFrom.Val? && !f.dueDateTo.Val?
  }

  function ChoiceToStore(c: Nullable<Choice>): Wrappers.Option<string> {
    if c.Val? && c.v.One? then Wrappers.Some(c.v.s) else Wrappers.None
  }

  /** The store's filter record holding the same criteria. */
  function ToStoreFilters(f: TaskFilter): TaskStore.StoreFilters {
    TaskStore.StoreFilters(
      if f.search.Val? then Wrappers.Some(f.search.v) else Wrappers.None,
      ChoiceToStore(f.status), ChoiceToStore(f.priority), ChoiceToStore(f.assigneeId),
      Wrappers.None, Wrappers.None)
  }

  /** On sentinel-free, pre-trimmed criteria the hook's pipeline and the
      store's `filterTasks` select the same tasks in the same order. */
  lemma EnginesAgree(allTasks: seq<Task>, f: TaskFilter)
    requires Plain(f)
    ensures FilteredTasks(allTasks, f) == TaskStore.FilterTasks(allTasks, ToStoreFilters(f))
  {
    forall t | t in allTasks
      ensures PipelineKeeps(f, t) == TaskStore.Keeps(t, ToStoreFilters(f))
    {
      SearchAgrees(f, t);
    }
    FilterExt(allTasks, PipelineKeeper(f), TaskStore.Keeper(ToStoreFilters(f)));
  }

  /** The search stages agree on a pre-trimmed search: an empty description
      contains no non-empty query, so the hook's extra test changes nothing. */
  lemma SearchAgrees(f: TaskFilter, t: Task)
    requires f.search.Val? ==> Trim(f.search.v) == f.search.v
    ensures SearchStage(f, t) == TaskStore.SearchPasses(t, ToStoreFilters(f))
  {
    if f.search.Val? && f.search.v != "" {
      LowerTrimCommute(f.search.v);
      assert Query(f) == Lower(f.search.v);
      if t.description == "" {
        assert Lower(t.description) == "";
      }
    }
  }

  // ---------------------------------------------------------------------
  // activeFiltersCount
  // ---------------------------------------------------------------------

  function Counted<T>(v: Nullable<T>): nat {
    if v.Val? then 1 else 0
  }

  /** The hook's count: `search` when its trimmed value is non-empty, every
      other key when it is neither `null` nor `undefined`. */
  function ActiveFiltersCount(f: TaskFilter): (n: nat)
    ensures n <= DefinedKeys(f)
    ensures n == 0 <==> !f.status.Val? && !f.priority.Val? && !f.assigneeId.Val? && !f.creatorId.Val?
                        && !f.tags.Val? && !SearchActive(f) && !f.dueDateFrom.Val? && !f.dueDateTo.Val?
  {
    Counted(f.status) + Counted(f.priority) + Counted(f.assigneeId) + Counted(f.creatorId)
    + Counted(f.tags) + (if SearchActive(f) then 1 else 0)
    + Counted(f.dueDateFrom) + Counted(f.dueDateTo)
  }

  /** The default filter counts 0; a whitespace-only search counts 0; and
      `'all'`, although it constrains nothing, counts 1. */
  lemma ActiveCountExamples(s: string)
    requires AllSpace(s)
    ensures ActiveFiltersCount(FilterState.DefaultFilter) == 0
    ensures ActiveFiltersCount(EmptyFilter.(search := Val(s))) == 0
    ensures ActiveFiltersCount(EmptyFilter.(status := Val(One("all")))) == 1
  {
  }
}
