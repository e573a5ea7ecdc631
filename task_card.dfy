/** What a task card shows besides the task's own text: the colour, CSS
    class and label of its priority, the label of its status, and the
    assignee's name. */
module TaskCard {
  import opened Wrappers
  import opened Types
  import opened Users
  import TaskSchema

  /** `priorityColorMap`: the Material chip colour. */
  function PriorityColor(p: TaskPriority): string {
    match p
    case Low => "success"
    case Medium => "info"
    case High => "warning"
    case Urgent => "error"
  }

  /** `priorityClassMap`: the ShadCN badge class. */
  function PriorityClass(p: TaskPriority): string {
    match p
    case Low => "bg-green-500"
    case Medium => "bg-blue-500"
    case High => "bg-amber-500"
    case Urgent => "bg-red-500"
  }

  /** `priorityLabelMap`. */
  function PriorityLabel(p: TaskPriority): string {
    match p
    case Low => "Basse"
    case Medium => "Moyenne"
    case High => "Haute"
    case Urgent => "Urgente"
  }

  /** `statusLabelMap`. */
  function StatusLabel(s: TaskStatus): string {
    match s
    case Todo => "À faire"
    case InProgress => "En cours"
    case Review => "En revue"
    case Completed => "Terminé"
    case Cancelled => "Annulé"
  }

  /** Every priority has a colour, a class and a label, and different
      priorities look different in each. */
  lemma PriorityMapsTotalAndDistinct(p: TaskPriority, q: TaskPriority)
    ensures PriorityColor(p) != "" && PriorityClass(p) != "" && PriorityLabel(p) != ""
    ensures p != q ==> PriorityColor(p) != PriorityColor(q) && PriorityClass(p) != PriorityClass(q)
                       && PriorityLabel(p) != PriorityLabel(q)
  {
  }

  /** Every status has a label, and different statuses different labels. */
  lemma StatusLabelsTotalAndDistinct(s: TaskStatus, t: TaskStatus)
    ensures StatusLabel(s) != ""
    ensures s != t ==> StatusLabel(s) != StatusLabel(t)
  {
  }

  /** The card's labels are the ones the form's selects offer. */
  lemma LabelsMatchSelectOptions()
    ensures forall i :: 0 <= i < |TaskSchema.StatusOptions| ==>
      StatusLabel(TaskSchema.StatusOptions[i].value) == TaskSchema.StatusOptions[i].caption
    ensures forall i :: 0 <= i < |TaskSchema.PriorityOptions| ==>
      PriorityLabel(TaskSchema.PriorityOptions[i].value) == TaskSchema.PriorityOptions[i].caption
  {
  }

  /** `getAssigneeName(assigneeId)`. */
  function AssigneeName(users: seq<ListedUser>, assigneeId: Option<string>): (r: string)
    ensures !Truthy(assigneeId) ==> r == "Non assigné"
  {
    if !Truthy(assigneeId) then "Non assigné"
    else
      match FindUserById(users, Some(StrId(assigneeId.value)))
      case Some(u) => u.name
      case None => "Inconnu"
  }

  /** A set id that no user has gives `Inconnu`; one that a user has gives
      the name of the first such user. */
  lemma AssigneeNameCases(users: seq<ListedUser>, a: string)
    requires a != ""
    ensures (forall u :: u in users ==> IdString(u.id) != a) ==> AssigneeName(users, Some(a)) == "Inconnu"
    ensures forall i :: FirstWithId(users, i, a) ==> AssigneeName(users, Some(a)) == users[i].name
  {
    forall i | FirstWithId(users, i, a)
      ensures AssigneeName(users, Some(a)) == users[i].name
    {
      var r := FindIndex(users, a);
      assert r.Some?;
      assert r.value == i;
    }
  }
}
