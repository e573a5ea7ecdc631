/** The quick assignment control of a task: the assignee's initials shown
    on its avatar, the update it sends when a user (or nobody) is chosen,
    and the notification it raises afterwards. */
module AssigneeSelector {
  import opened Wrappers
  import opened JsText
  import opened Seqs
  import opened Users
  import opened ApiService
  import opened TaskUseCases

  // ---------------------------------------------------------------------
  // Initials
  // ---------------------------------------------------------------------

  /** `s.substring(0, n)`. */
  function Prefix(s: string, n: nat): (r: string)
    ensures |r| <= n && r <= s
    ensures |r| == if |s| <= n then |s| else n
  {
    if |s| <= n then s else s[..n]
  }

  /** `part[0]` inside a template literal: the first character, or the text
      `undefined` for an empty part. */
  function FirstCharText(part: string): string {
    if part == "" then "undefined" else [part[0]]
  }

  /** `getAssigneeInitials` as written: with two or more space-separated
      parts, the first character of each of the first two; otherwise the
      first two characters of the name, upper-cased. */
  function InitialsAsWritten(assignee: Option<ListedUser>): string {
    match assignee
    case None => ""
    case Some(u) =>
      var nameParts := Split(u.name, ' ');
      if |nameParts| > 1 then FirstCharText(nameParts[0]) + FirstCharText(nameParts[1])
      else Upper(Prefix(u.name, 2))
  }

  /** No assignee, no initials. */
  lemma NoAssigneeNoInitials()
    ensures InitialsAsWritten(None) == ""
  {
  }

  /** With two non-empty leading parts the initials are their first
      characters, case unchanged, later parts ignored. */
  lemma InitialsOfTwoParts(u: ListedUser)
    requires var p := Split(u.name, ' '); |p| > 1 && p[0] != "" && p[1] != ""
    ensures var p := Split(u.name, ' '); InitialsAsWritten(Some(u)) == [p[0][0], p[1][0]]
  {
  }

  /** A name without a space gives its first two characters upper-cased:
      at most two characters. */
  lemma InitialsOfOnePart(u: ListedUser)
    requires ' ' !in u.name
    ensures InitialsAsWritten(Some(u)) == Upper(Prefix(u.name, 2))
    ensures |InitialsAsWritten(Some(u))| <= 2
  {
    SplitWithoutSeparator(u.name, ' ');
  }

  /** A string without the separator splits into itself alone. */
  lemma {:induction false} SplitWithoutSeparator(s: string, c: char)
    requires c !in s
    ensures Split(s, c) == [s]
    decreases |s|
  {
    if s != [] {
      SplitWithoutSeparator(s[1..], c);
      assert [s[0]] + s[1..] == s;
    }
  }

  /** A word without the separator, then the separator: the word is the
      first part. */
  lemma {:induction false} SplitAfterWord(w: string, c: char, rest: string)
    requires c !in w
    ensures Split(w + [c] + rest, c) == [w] + Split(rest, c)
    decreases |w|
  {
    if w == [] {
      assert w + [c] + rest == [c] + rest;
      assert ([c] + rest)[1..] == rest;
    } else {
      SplitAfterWord(w[1..], c, rest);
      assert (w + [c] + rest)[1..] == w[1..] + [c] + rest;
      assert [w[0]] + w[1..] == w;
    }
  }

  /** A doubled space makes an empty second part, whose first character
      prints as `undefined`: `John  Doe` gets `Jundefined`, ten characters
      of initials. */
  lemma DoubleSpaceInitials(u: ListedUser, first: string, last: string)
    requires first != "" && ' ' !in first && ' ' !in last
    requires u.name == first + "  " + last
    ensures InitialsAsWritten(Some(u)) == [first[0]] + "undefined"
    ensures |InitialsAsWritten(Some(u))| == 10
  {
    SplitWithoutSeparator(last, ' ');
    SplitAfterWord("", ' ', last);
    assert "" + [' '] + last == [' '] + last;
    SplitAfterWord(first, ' ', [' '] + last);
    assert first + [' '] + ([' '] + last) == u.name;
    assert Split(u.name, ' ') == [first, "", last];
  }

  function NonEmpty(): string -> bool {
    (p: string) => p != ""
  }

  /** The initials evidently intended: the words of the name are its
      non-empty space-separated parts; two or more words give the first
      character of each of the first two, one word its first two characters
      upper-cased, and a blank name nothing. */
  function Initials(assignee: Option<ListedUser>): (r: string)
    ensures |r| <= 2
  {
    match assignee
    case None => ""
    case Some(u) =>
      var words := Filter(Split(u.name, ' '), NonEmpty());
      if |words| > 1 then
        assert words[0] in words && words[1] in words;
        [words[0][0], words[1][0]]
      else if |words| == 1 then Upper(Prefix(words[0], 2))
      else ""
  }

  /** On a name without empty parts (no leading, trailing or doubled space)
      the intended initials are what the code computes. */
  lemma InitialsAgreeOnWellSpacedNames(u: ListedUser)
    requires forall k :: 0 <= k < |Split(u.name, ' ')| ==> Split(u.name, ' ')[k] != ""
    ensures Initials(Some(u)) == InitialsAsWritten(Some(u))
  {
    var parts := Split(u.name, ' ');
    FilterAll(parts, NonEmpty());
    if |parts| == 1 {
      SplitJoin(u.name, ' ');
    }
  }

  // ---------------------------------------------------------------------
  // Assignment
  // ---------------------------------------------------------------------

  /** `{ id: Number(taskId), data: { assigneeId } }`. */
  datatype AssignRequest = AssignRequest(id: NumberValue, assigneeId: Option<string>)

  /** `handleAssign(userId)` builds its update: `null` (`None`) becomes an
      absent `assigneeId`, and the task id is converted with `Number`. */
  function AssignPayload(taskId: string, userId: Option<string>): (r: AssignRequest)
    ensures r.assigneeId == userId
  {
    AssignRequest(ToNumber(taskId), if userId.None? then None else userId)
  }

  /** A decimal task id is sent as that number; unassigning sends no
      assignee at all. */
  lemma AssignPayloadForms(n: nat, userId: Option<string>)
    ensures AssignPayload(NatToString(n), userId).id == Integer(n)
    ensures AssignPayload(NatToString(n), None).assigneeId.None?
  {
    ToNumberOfNatString(n);
  }

  /** How `updateTask.mutateAsync(...)` settles: with the use case's
      envelope, or by throwing. */
  datatype Mutation = Settled(envelope: OperationResult<ApiValue>) | Threw(error: Thrown)

  /** `user?.name || 'un utilisateur'`. */
  function AssigneeLabel(users: seq<ListedUser>, userId: string): string {
    match FindUserById(users, Some(StrId(userId)))
    case Some(u) => if u.name != "" then u.name else "un utilisateur"
    case None => "un utilisateur"
  }

  /** The notification after a successful assignment or unassignment. */
  function SuccessNotice(users: seq<ListedUser>, userId: Option<string>): Toast {
    if userId.Some? && userId.value != "" then SuccessToast("Tâche assignée à " + AssigneeLabel(users, userId.value))
    else SuccessToast("Tâche désassignée")
  }

  function FailureNotice(message: string): Toast {
    ErrorToast("Erreur lors de l'assignation: " + message)
  }

  /** `handleAssign`'s notification as written: any settled mutation counts
      as a success; only a thrown error is reported. */
  function AssignNoticeAsWritten(users: seq<ListedUser>, userId: Option<string>, m: Mutation): Toast {
    match m
    case Settled(_) => SuccessNotice(users, userId)
    case Threw(e) => FailureNotice(if e.ErrorValue? then e.message else "Erreur inconnue")
  }

  /** The use case never throws: it settles with a failure envelope. So a
      rejected update still makes the selector report a successful
      assignment. */
  lemma FailedAssignmentReportedAsSuccess(users: seq<ListedUser>, u: string, id: int, payload: string, e: Thrown)
    requires u != ""
    ensures var env := Run(UpdateTask(id, payload), Rejected(e)).result;
      !env.success && AssignNoticeAsWritten(users, Some(u), Settled(env)).SuccessToast?
  {
  }

  /** The notification evidently intended: a success only when the
      envelope reports one, otherwise the failure with the envelope's
      error. */
  function AssignNotice(users: seq<ListedUser>, userId: Option<string>, m: Mutation): (t: Toast)
    ensures t.SuccessToast? <==> m.Settled? && m.envelope.success
  {
    match m
    case Settled(env) =>
      if env.success then SuccessNotice(users, userId)
      else FailureNotice(if env.error.Some? then env.error.value else "Erreur inconnue")
    case Threw(e) => FailureNotice(if e.ErrorValue? then e.message else "Erreur inconnue")
  }

  /** Through the use case, the intended notification is a success exactly
      when the update call resolved, and a failure names the call's error. */
  lemma AssignNoticeFollowsCall(users: seq<ListedUser>, userId: Option<string>, id: int, payload: string, call: Promise<ApiValue>)
    ensures var env := Run(UpdateTask(id, payload), call).result;
      AssignNotice(users, userId, Settled(env)).SuccessToast? <==> call.Resolved?
    ensures call.Rejected? && call.reason.ErrorValue? && call.reason.message != "" ==>
      AssignNotice(users, userId, Settled(Run(UpdateTask(id, payload), call).result))
        == ErrorToast("Erreur lors de l'assignation: " + call.reason.message)
  {
  }
}
