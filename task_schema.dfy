/** The form validation schema for creating and editing a task: length
    bounds on title and description, enumerated status and priority,
    optional due date and assignee, and tags defaulting to the empty list.
    Also the option lists of the status and priority selects and the
    fictitious users offered for assignment. */
module TaskSchema {
  import opened Wrappers
  import opened Types

  // ---------------------------------------------------------------------
  // Input, output and issues
  // ---------------------------------------------------------------------

  /** What the form hands to the schema. `None` is a missing key. Each key
      holds a value of the declared type; values of other types are not part
      of this model. */
  datatype FormInput = FormInput(
    title: Option<string>,
    description: Option<string>,
    status: Option<string>,
    priority: Option<string>,
    dueDate: Nullable<int>,
    assigneeId: Option<string>,
    tags: Option<seq<string>>)

  /** What a successful parse yields. */
  datatype ParsedTask = ParsedTask(
    title: string,
    description: string,
    status: TaskStatus,
    priority: TaskPriority,
    dueDate: Nullable<int>,
    assigneeId: Option<string>,
    tags: seq<string>)

  datatype Field = TitleField | DescriptionField | StatusField | PriorityField

  datatype IssueCode =
    | Required
    | TooSmall(minimum: nat)
    | TooBig(maximum: nat)
    | InvalidEnumValue(received: string)

  /** One validation issue. `message` is `None` where the schema leaves the
      validation library's default message. */
  datatype Issue = Issue(path: Field, code: IssueCode, message: Option<string>)

  const TitleMin: nat := 3
  const TitleMax: nat := 100
  const DescriptionMin: nat := 10
  const DescriptionMax: nat := 1000

  const TitleTooShort: string := "Le titre doit comporter au moins 3 caractères"
  const TitleTooLong: string := "Le titre ne peut pas dépasser 100 caractères"
  const DescriptionTooShort: string := "La description doit comporter au moins 10 caractères"
  const DescriptionTooLong: string := "La description ne peut pas dépasser 1000 caractères"
  const StatusRequired: string := "Veuillez sélectionner un statut"
  const PriorityRequired: string := "Veuillez sélectionner une priorité"

  // ---------------------------------------------------------------------
  // The field rules
  // ---------------------------------------------------------------------

  /** `z.string().min(lo, ...).max(hi, ...)`: a missing value is required;
      a present one gets one issue per violated bound. Lengths are not
      trimmed. */
  function LengthIssues(field: Field, v: Option<string>, lo: nat, hi: nat, short: string, long: string): (r: seq<Issue>)
    ensures r == [] <==> v.Some? && lo <= |v.value| <= hi
    ensures v.Some? && |v.value| < lo ==> Issue(field, TooSmall(lo), Some(short)) in r
    ensures v.Some? && |v.value| > hi ==> Issue(field, TooBig(hi), Some(long)) in r
    ensures forall i :: i in r ==> i.path == field
  {
    match v
    case None => [Issue(field, Required, None)]
    case Some(s) =>
      (if |s| < lo then [Issue(field, TooSmall(lo), Some(short))] else [])
      + (if |s| > hi then [Issue(field, TooBig(hi), Some(long))] else [])
  }

  function TitleIssues(v: Option<string>): seq<Issue> {
    LengthIssues(TitleField, v, TitleMin, TitleMax, TitleTooShort, TitleTooLong)
  }

  function DescriptionIssues(v: Option<string>): seq<Issue> {
    LengthIssues(DescriptionField, v, DescriptionMin, DescriptionMax, DescriptionTooShort, DescriptionTooLong)
  }

  /** `z.enum([...], { required_error })`: a missing value gets the custom
      message, a value outside the enumeration the library's default. */
  function StatusIssues(v: Option<string>): (r: seq<Issue>)
    ensures r == [] <==> v.Some? && ParseStatus(v.value).Some?
  {
    match v
    case None => [Issue(StatusField, Required, Some(StatusRequired))]
    case Some(s) => if ParseStatus(s).Some? then [] else [Issue(StatusField, InvalidEnumValue(s), None)]
  }

  function PriorityIssues(v: Option<string>): (r: seq<Issue>)
    ensures r == [] <==> v.Some? && ParsePriority(v.value).Some?
  {
    match v
    case None => [Issue(PriorityField, Required, Some(PriorityRequired))]
    case Some(s) => if ParsePriority(s).Some? then [] else [Issue(PriorityField, InvalidEnumValue(s), None)]
  }

  /** Every issue, in the schema's key order. */
  function Issues(input: FormInput): seq<Issue> {
    TitleIssues(input.title) + DescriptionIssues(input.description)
    + StatusIssues(input.status) + PriorityIssues(input.priority)
  }

  /** `taskSchema.safeParse(input)`. `dueDate` (absent, `null` or a date)
      and `assigneeId` (absent or a string) raise no issue; missing `tags`
      become `[]`. */
  function SafeParse(input: FormInput): (r: Result<ParsedTask, seq<Issue>>)
    ensures r.Err? ==> r.error == Issues(input) && r.error != []
  {
    var issues := Issues(input);
    if issues != [] then Err(issues)
    else
      Ok(ParsedTask(
        input.title.value, input.description.value,
        ParseStatus(input.status.value).value, ParsePriority(input.priority.value).value,
        input.dueDate, input.assigneeId,
        if input.tags.Some? then input.tags.value else []))
  }

  // ---------------------------------------------------------------------
  // Properties of the schema
  // ---------------------------------------------------------------------

  /** A form is accepted exactly when the title has 3 to 100 characters,
      the description 10 to 1000, and status and priority are enumerated
      literals. */
  lemma AcceptedIff(input: FormInput)
    ensures SafeParse(input).Ok? <==>
      && input.title.Some? && TitleMin <= |input.title.value| <= TitleMax
      && input.description.Some? && DescriptionMin <= |input.description.value| <= DescriptionMax
      && input.status.Some? && ParseStatus(input.status.value).Some?
      && input.priority.Some? && ParsePriority(input.priority.value).Some?
  {
  }

  /** An accepted form keeps its texts, its enumerated values and its
      optional fields. */
  lemma AcceptedKeepsValues(input: FormInput)
    requires SafeParse(input).Ok?
    ensures var p := SafeParse(input).value;
      && Some(p.title) == input.title && Some(p.description) == input.description
      && Some(StatusName(p.status)) == input.status && Some(PriorityName(p.priority)) == input.priority
      && p.dueDate == input.dueDate && p.assigneeId == input.assigneeId
  {
  }

  /** A title is without issue exactly when it has 3 to 100 characters; too
      short and too long each carry their own message. */
  lemma TitleRule(input: FormInput)
    ensures (forall i :: i in Issues(input) ==> i.path != TitleField)
        <==> input.title.Some? && 3 <= |input.title.value| <= 100
    ensures input.title.Some? && |input.title.value| < 3 ==>
      Issue(TitleField, TooSmall(3), Some("Le titre doit comporter au moins 3 caractères")) in Issues(input)
    ensures input.title.Some? && |input.title.value| > 100 ==>
      Issue(TitleField, TooBig(100), Some("Le titre ne peut pas dépasser 100 caractères")) in Issues(input)
  {
    var t := TitleIssues(input.title);
    if t != [] {
      assert t[0] in Issues(input);
    }
  }

  /** A description is without issue exactly when it has 10 to 1000
      characters; too short and too long each carry their own message. */
  lemma DescriptionRule(input: FormInput)
    ensures (forall i :: i in Issues(input) ==> i.path != DescriptionField)
        <==> input.description.Some? && 10 <= |input.description.value| <= 1000
    ensures input.description.Some? && |input.description.value| < 10 ==>
      Issue(DescriptionField, TooSmall(10), Some("La description doit comporter au moins 10 caractères")) in Issues(input)
    ensures input.description.Some? && |input.description.value| > 1000 ==>
      Issue(DescriptionField, TooBig(1000), Some("La description ne peut pas dépasser 1000 caractères")) in Issues(input)
  {
    var d := DescriptionIssues(input.description);
    if d != [] {
      assert d[0] in TitleIssues(input.title) + d;
      assert d[0] in Issues(input);
    }
  }

  /** A status or priority outside the enumerations is rejected, naming
      the value received; a missing one gets its own message. */
  lemma EnumRule(input: FormInput)
    ensures input.status.None? ==> Issue(StatusField, Required, Some("Veuillez sélectionner un statut")) in Issues(input)
    ensures input.status.Some? && ParseStatus(input.status.value).None? ==>
      Issue(StatusField, InvalidEnumValue(input.status.value), None) in Issues(input)
    ensures input.priority.None? ==> Issue(PriorityField, Required, Some("Veuillez sélectionner une priorité")) in Issues(input)
    ensures input.priority.Some? && ParsePriority(input.priority.value).None? ==>
      Issue(PriorityField, InvalidEnumValue(input.priority.value), None) in Issues(input)
  {
  }

  /** Due date and assignee never decide acceptance. */
  lemma OptionalFieldsFree(input: FormInput, d: Nullable<int>, a: Option<string>)
    ensures SafeParse(input.(dueDate := d, assigneeId := a)).Ok? == SafeParse(input).Ok?
  {
  }

  /** Missing tags parse to the empty list. */
  lemma MissingTagsDefault(input: FormInput)
    requires input.tags.None? && SafeParse(input).Ok?
    ensures SafeParse(input).value.tags == []
  {
  }

  /** Lengths are not trimmed: a title of three spaces passes. */
  lemma BlankTitlePasses(input: FormInput)
    ensures forall i :: i in Issues(input.(title := Some("   "))) ==> i.path != TitleField
  {
    TitleRule(input.(title := Some("   ")));
  }

  // ---------------------------------------------------------------------
  // Select options and fictitious users
  // ---------------------------------------------------------------------

  datatype StatusOption = StatusOption(caption: string, value: TaskStatus)

  datatype PriorityOption = PriorityOption(caption: string, value: TaskPriority)

  const StatusOptions: seq<StatusOption> := [
    StatusOption("À faire", Todo),
    StatusOption("En cours", InProgress),
    StatusOption("En revue", Review),
    StatusOption("Terminé", Completed),
    StatusOption("Annulé", Cancelled)
  ]

  const PriorityOptions: seq<PriorityOption> := [
    PriorityOption("Basse", Low),
    PriorityOption("Moyenne", Medium),
    PriorityOption("Haute", High),
    PriorityOption("Urgente", Urgent)
  ]

  /** The status options list every status once, in enumeration order, under
      distinct labels. */
  lemma StatusOptionsEnumerate()
    ensures |StatusOptions| == |AllStatuses|
    ensures forall i :: 0 <= i < |StatusOptions| ==> StatusOptions[i].value == AllStatuses[i]
    ensures forall i, j :: 0 <= i < j < |StatusOptions| ==> StatusOptions[i].caption != StatusOptions[j].caption
  {
  }

  /** The priority options list every priority once, in enumeration order,
      under distinct labels. */
  lemma PriorityOptionsEnumerate()
    ensures |PriorityOptions| == |AllPriorities|
    ensures forall i :: 0 <= i < |PriorityOptions| ==> PriorityOptions[i].value == AllPriorities[i]
    ensures forall i, j :: 0 <= i < j < |PriorityOptions| ==> PriorityOptions[i].caption != PriorityOptions[j].caption
  {
  }

  /** The fictitious users offered for assignment. */
  const MockUsers: seq<User> := [
    User("user1", "John Doe", "john@example.com", None),
    User("user2", "Jane Smith", "jane@example.com", None),
    User("user3", "Robert Johnson", "robert@example.com", None),
    User("user4", "Emily Williams", "emily@example.com", None)
  ]

  /** Their ids are distinct. */
  lemma MockUserIdsDistinct()
    ensures forall i, j :: 0 <= i < j < |MockUsers| ==> MockUsers[i].id != MockUsers[j].id
  {
  }
}
