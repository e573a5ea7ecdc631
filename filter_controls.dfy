/** The filter panel: its own count of active filter values, the update
    each control hands to `setFilter`, and when the reset badge shows.
    Both themes render the same four controls; they differ in the value a
    select uses for "no constraint". */
module FilterControls {
  import opened Wrappers
  import opened Types
  import opened JsText
  import FilterState
  import QueryFilter

  // ---------------------------------------------------------------------
  // The panel's count
  // ---------------------------------------------------------------------

  /** `value !== null && value !== undefined && value !== ''` for a string
      or array value: only the empty string itself is excluded. */
  predicate ChoiceCounts(c: Nullable<Choice>) {
    c.Val? && !(c.v.One? && c.v.s == "")
  }

  /** The same test for a plain string value. */
  predicate TextCounts(s: Nullable<string>) {
    s.Val? && s.v != ""
  }

  /** The same test for a value that is never a string (tags, dates): an
      empty array and the date 0 count too. */
  predicate OtherCounts<T>(v: Nullable<T>) {
    v.Val?
  }

  function Indicator(b: bool): nat {
    if b then 1 else 0
  }

  /** `Object.values(filter).filter(...).length`. */
  function UiActiveCount(f: TaskFilter): (n: nat)
    ensures n <= DefinedKeys(f)
    ensures n == 0 <==>
      && !ChoiceCounts(f.status) && !ChoiceCounts(f.priority)
      && !ChoiceCounts(f.assigneeId) && !ChoiceCounts(f.creatorId)
      && !OtherCounts(f.tags) && !TextCounts(f.search)
      && !OtherCounts(f.dueDateFrom) && !OtherCounts(f.dueDateTo)
  {
    Indicator(ChoiceCounts(f.status)) + Indicator(ChoiceCounts(f.priority))
    + Indicator(ChoiceCounts(f.assigneeId)) + Indicator(ChoiceCounts(f.creatorId))
    + Indicator(OtherCounts(f.tags)) + Indicator(TextCounts(f.search))
    + Indicator(OtherCounts(f.dueDateFrom)) + Indicator(OtherCounts(f.dueDateTo))
  }

  /** The chip (Material) and the badge (ShadCN) with the reset action are
      shown when the count is positive. */
  predicate ShowReset(f: TaskFilter) {
    UiActiveCount(f) > 0
  }

  /** The chip's text: the count, then `filtre actif` or, above one,
      `filtres actifs`. */
  function CountLabel(n: nat): string {
    NatToString(n) + " " + (if n > 1 then "filtres actifs" else "filtre actif")
  }

  /** The label starts with the count's digits and uses the singular only
      for one active value. */
  lemma CountLabelForms(n: nat)
    requires n >= 1
    ensures NatToString(n) <= CountLabel(n)
    ensures n == 1 ==> CountLabel(n) == "1 filtre actif"
    ensures n == 3 ==> CountLabel(n) == "3 filtres actifs"
    ensures n > 1 ==> CountLabel(n) == NatToString(n) + " filtres actifs"
    ensures n == 1 <==> CountLabel(n)[|NatToString(n)|..] == " filtre actif"
  {
  }

  /** The default filter counts nothing, so no reset badge shows. */
  lemma DefaultCountsNothing()
    ensures UiActiveCount(FilterState.DefaultFilter) == 0
    ensures !ShowReset(FilterState.DefaultFilter)
  {
  }

  /** A whitespace-only search counts as active on the panel, while the
      hook does not count it. */
  lemma BlankSearchCountsHere(s: string)
    requires s != "" && AllSpace(s)
    ensures UiActiveCount(EmptyFilter.(search := Val(s))) == 1
    ensures QueryFilter.ActiveFiltersCount(EmptyFilter.(search := Val(s))) == 0
  {
  }

  /** The hook counts a key the panel does not only for a single `''`
      value; the panel counts a search the hook does not only when the
      search is blank. Elsewhere the two counts agree. */
  lemma CountsAgreeOnPlainValues(f: TaskFilter)
    requires !(f.status == Val(One(""))) && !(f.priority == Val(One("")))
    requires !(f.assigneeId == Val(One(""))) && !(f.creatorId == Val(One("")))
    requires f.search.Val? ==> (f.search.v == "" || Trim(f.search.v) != "")
    ensures UiActiveCount(f) == QueryFilter.ActiveFiltersCount(f)
  {
  }

  // ---------------------------------------------------------------------
  // The controls
  // ---------------------------------------------------------------------

  /** The four controls of each theme's panel. */
  datatype Control =
    | MaterialSearch | MaterialStatus | MaterialPriority | MaterialAssignee
    | ShadcnSearch | ShadcnStatus | ShadcnPriority | ShadcnAssignee

  /** The select value that stands for "no constraint": `''` in the
      Material selects, `all_status`, `all_priority` and `all_assignees` in
      the ShadCN selects; the search fields have none. */
  function ClearValue(c: Control): Option<string> {
    match c
    case MaterialSearch => None
    case ShadcnSearch => None
    case MaterialStatus => Some("")
    case MaterialPriority => Some("")
    case MaterialAssignee => Some("")
    case ShadcnStatus => Some("all_status")
    case ShadcnPriority => Some("all_priority")
    case ShadcnAssignee => Some("all_assignees")
  }

  /** A select value: `null` for the control's clear value, the value
      itself otherwise. */
  function SelectChoice(c: Control, v: string): Nullable<Choice> {
    if ClearValue(c) == Some(v) then Null else Val(One(v))
  }

  /** The single-key object a control's change handler passes to
      `setFilter`. */
  function Update(c: Control, v: string): (r: TaskFilter)
    ensures DefinedKeys(r) == 1
  {
    match c
    case MaterialSearch => EmptyFilter.(search := Val(v))
    case ShadcnSearch => EmptyFilter.(search := Val(v))
    case MaterialStatus => EmptyFilter.(status := SelectChoice(c, v))
    case ShadcnStatus => EmptyFilter.(status := SelectChoice(c, v))
    case MaterialPriority => EmptyFilter.(priority := SelectChoice(c, v))
    case ShadcnPriority => EmptyFilter.(priority := SelectChoice(c, v))
    case MaterialAssignee => EmptyFilter.(assigneeId := SelectChoice(c, v))
    case ShadcnAssignee => EmptyFilter.(assigneeId := SelectChoice(c, v))
  }

  /** The single string a choice holds, or `None` for anything else. */
  function SingleOf(c: Nullable<Choice>): Option<string> {
    if c.Val? && c.v.One? then Some(c.v.s) else None
  }

  /** The value an update stores under its one key, or `None` for `null`. */
  function Stored(c: Control, r: TaskFilter): Option<string> {
    match c
    case MaterialSearch => if r.search.Val? then Some(r.search.v) else None
    case ShadcnSearch => if r.search.Val? then Some(r.search.v) else None
    case MaterialStatus => SingleOf(r.status)
    case ShadcnStatus => SingleOf(r.status)
    case MaterialPriority => SingleOf(r.priority)
    case ShadcnPriority => SingleOf(r.priority)
    case MaterialAssignee => SingleOf(r.assigneeId)
    case ShadcnAssignee => SingleOf(r.assigneeId)
  }

  /** A control stores `null` for its clear value and any other value
      unchanged, `'unassigned'` included. */
  lemma UpdateMapsSentinelToNull(c: Control, v: string)
    ensures Stored(c, Update(c, v)) == if ClearValue(c) == Some(v) then None else Some(v)
  {
  }

  /** After any control change the filter holds one key, so the panel
      counts at most one active value. */
  lemma UpdateCountsAtMostOne(c: Control, v: string)
    ensures UiActiveCount(Update(c, v)) <= 1
  {
  }

  /** After a control change the reset badge shows exactly when the chosen
      value is neither `''` nor the control's clear value. */
  lemma ShowResetAfterUpdate(c: Control, v: string)
    ensures ShowReset(Update(c, v)) <==> v != "" && ClearValue(c) != Some(v)
  {
  }

  /** The `'unassigned'` choice of either theme reaches the hook's pipeline
      unchanged and keeps exactly the unassigned tasks. */
  lemma UnassignedChoiceKeepsUnassigned(c: Control, allTasks: seq<Task>)
    requires c == MaterialAssignee || c == ShadcnAssignee
    ensures forall t :: t in QueryFilter.FilteredTasks(allTasks, Update(c, "unassigned")) <==>
      t in allTasks && !Truthy(t.assigneeId)
  {
  }
}
