/** The use-case layer between the interface and the HTTP client: each of
    the six operations calls the client, catches whatever it throws, and
    returns a `{ success, data, error }` envelope, raising a notification
    on the way. The settled client call is a parameter. */
module TaskUseCases {
  import opened Wrappers
  import opened Types
  import opened JsText
  import opened ApiService
  import JsonServer

  /** `OperationResult<T>`: `data` and `error` are optional keys. */
  datatype OperationResult<+T> = OperationResult(success: bool, data: Option<T>, error: Option<string>)

  /** A notification: `toast.success(...)` or `toast.error(...)`. */
  datatype Toast = SuccessToast(text: string) | ErrorToast(text: string)

  /** The envelope an operation returns and the notifications it raised. */
  datatype Outcome = Outcome(result: OperationResult<ApiValue>, toasts: seq<Toast>)

  const GenericError: string := "Une erreur est survenue"

  /** `error instanceof Error ? error.message : 'Une erreur est survenue'`. */
  function ErrorMessage(e: Thrown): string {
    match e
    case ErrorValue(m) => m
    case NonErrorValue => GenericError
  }

  /** The operation's own message, used only when the error message is
      empty. */
  function Fallback(op: Operation): string {
    match op
    case GetTasks => "Erreur lors de la récupération des tâches"
    case GetTask(id) => "Erreur lors de la récupération de la tâche " + IntToString(id)
    case CreateTask(_) => "Erreur lors de la création de la tâche"
    case UpdateTask(id, _) => "Erreur lors de la mise à jour de la tâche " + IntToString(id)
    case DeleteTask(id) => "Erreur lors de la suppression de la tâche " + IntToString(id)
    case GetUsers => "Erreur lors de la récupération des utilisateurs"
  }

  /** The success notification, which only the three changing operations
      raise. */
  function SuccessText(op: Operation): Option<string> {
    match op
    case CreateTask(_) => Some("Tâche créée avec succès")
    case UpdateTask(_, _) => Some("Tâche mise à jour avec succès")
    case DeleteTask(_) => Some("Tâche supprimée avec succès")
    case _ => None
  }

  /** One use case given how its client call settled. A resolved call gives
      success with the client's value (`deleteTask` carries none); a
      rejected one gives failure with the error's message, or the
      operation's fallback when that message is empty. Nothing is thrown. */
  function Run(op: Operation, call: Promise<ApiValue>): (o: Outcome)
    ensures o.result.success <==> call.Resolved?
    ensures o.result.success ==> o.result.error.None?
    ensures !o.result.success ==> o.result.data.None? && o.result.error.Some? && o.result.error.value != ""
  {
    match call
    case Resolved(v) =>
      Outcome(
        OperationResult(true, if op.DeleteTask? then None else Some(v), None),
        if SuccessText(op).Some? then [SuccessToast(SuccessText(op).value)] else [])
    case Rejected(e) =>
      var errorMessage := ErrorMessage(e);
      Outcome(
        OperationResult(false, None, Some(if errorMessage != "" then errorMessage else Fallback(op))),
        [ErrorToast("Erreur: " + errorMessage)])
  }

  // ---------------------------------------------------------------------
  // The payload of a creation
  // ---------------------------------------------------------------------

  /** `{ ...taskData, comments: [], attachments: [] }`. */
  datatype CreatePayload = CreatePayload(form: TaskFormValues, comments: seq<TaskComment>, attachments: seq<string>)

  function Augment(taskData: TaskFormValues): CreatePayload {
    CreatePayload(taskData, [], [])
  }

  /** A creation forwards every form value and adds empty comment and
      attachment lists. */
  lemma AugmentKeepsForm(taskData: TaskFormValues)
    ensures Augment(taskData).form == taskData
    ensures Augment(taskData).comments == [] && Augment(taskData).attachments == []
  {
  }

  // ---------------------------------------------------------------------
  // Properties of the envelopes
  // ---------------------------------------------------------------------

  /** A resolved call gives `{ success: true, data }` with the client's
      value, except that a deletion carries no data. */
  lemma ResolvedGivesData(op: Operation, v: ApiValue)
    ensures Run(op, Resolved(v)).result == OperationResult(true, if op.DeleteTask? then None else Some(v), None)
  {
  }

  /** A call rejected with an `Error` whose message is not empty reports
      exactly that message, and the error notification contains it. */
  lemma ErrorMessageReported(op: Operation, m: string)
    requires m != ""
    ensures Run(op, Rejected(ErrorValue(m))).result == OperationResult(false, None, Some(m))
    ensures Run(op, Rejected(ErrorValue(m))).toasts == [ErrorToast("Erreur: " + m)]
    ensures Includes("Erreur: " + m, m)
  {
    var s := "Erreur: " + m;
    assert s[8..] == m;
    IncludesIff(s, m);
  }

  /** A rejection with something that is not an `Error` reports the generic
      message; an `Error` with an empty message reports the operation's
      fallback while the notification stays `Erreur: `. */
  lemma FallbackMessages(op: Operation)
    ensures Run(op, Rejected(NonErrorValue)).result.error == Some("Une erreur est survenue")
    ensures Run(op, Rejected(NonErrorValue)).toasts == [ErrorToast("Erreur: Une erreur est survenue")]
    ensures Run(op, Rejected(ErrorValue(""))).result.error == Some(Fallback(op))
    ensures Run(op, Rejected(ErrorValue(""))).toasts == [ErrorToast("Erreur: ")]
  {
    assert "Erreur: " + GenericError == "Erreur: Une erreur est survenue";
    assert "Erreur: " + "" == "Erreur: ";
  }

  /** A success notification is raised exactly for a resolved creation,
      update or deletion; every failure raises exactly one error
      notification, prefixed `Erreur: `. */
  lemma NotificationRule(op: Operation, call: Promise<ApiValue>)
    ensures (exists t :: t in Run(op, call).toasts && t.SuccessToast?)
        <==> call.Resolved? && (op.CreateTask? || op.UpdateTask? || op.DeleteTask?)
    ensures call.Rejected? ==> |Run(op, call).toasts| == 1 && Run(op, call).toasts[0].ErrorToast?
                               && "Erreur: " <= Run(op, call).toasts[0].text
    ensures call.Resolved? ==> forall t :: t in Run(op, call).toasts ==> t.SuccessToast?
  {
    if call.Resolved? && (op.CreateTask? || op.UpdateTask? || op.DeleteTask?) {
      assert Run(op, call).toasts[0] in Run(op, call).toasts;
    }
  }

  /** The fallbacks of the operations on one task end with its id. */
  lemma FallbackNamesId(op: Operation)
    requires op.GetTask? || op.UpdateTask? || op.DeleteTask?
    ensures var f, d := Fallback(op), IntToString(op.id);
      |d| < |f| && f[|f| - |d|..] == d
  {
  }

  // ---------------------------------------------------------------------
  // Across the layers
  // ---------------------------------------------------------------------

  /** The body the server decodes from a creation's payload: the form's
      title and description arrive as strings. */
  function WireBody(taskData: TaskFormValues): (b: JsonServer.Body)
    ensures b.title == JsonServer.Text(taskData.title)
    ensures b.description == JsonServer.Text(taskData.description)
  {
    JsonServer.Body(JsonServer.Text(taskData.title), JsonServer.Text(taskData.description))
  }

  /** With the server as configured, every creation sent through the
      client comes back as the failed envelope `Erreur API: 500`, whatever
      the form holds. */
  lemma CreationEnvelopeAsConfigured(taskData: TaskFormValues, payload: string, downstream: JsonServer.Downstream, reply: HttpBody)
    ensures var rq := RequestFor(CreateTask(payload));
      var served := JsonServer.Serve(JsonServer.Request(rq.verb, rq.path, Some(WireBody(taskData)), Some(rq.headers["Authorization"])), downstream);
      && served == JsonServer.ServerError
      && Run(CreateTask(payload), Call(CreateTask(payload), Received(HttpResponse(served.status, reply)))).result
         == OperationResult(false, None, Some("Erreur API: 500"))
  {
    assert NatToString(500) == "500" by {
      assert NatToString(5) == "5";
      assert NatToString(50) == "50";
    }
    assert StatusMessage(500) == "Erreur API: 500";
  }

  /** With the body parsed before the validation, a creation whose title
      is empty or whitespace only (three spaces pass the form's schema) is
      refused by the server with 400 and comes back as the envelope error
      `Erreur API: 400`: the server's own message is not shown. */
  lemma BlankTitleCreationEnvelope(taskData: TaskFormValues, payload: string, downstream: JsonServer.Downstream, reply: HttpBody)
    requires AllSpace(taskData.title)
    ensures var rq := RequestFor(CreateTask(payload));
      var served := JsonServer.ServeParsedFirst(JsonServer.Request(rq.verb, rq.path, Some(WireBody(taskData)), Some(rq.headers["Authorization"])), downstream);
      && served == JsonServer.TitleRequired
      && Run(CreateTask(payload), Call(CreateTask(payload), Received(HttpResponse(served.status, reply)))).result
         == OperationResult(false, None, Some("Erreur API: 400"))
  {
    var rq := RequestFor(CreateTask(payload));
    JsonServer.BlankTitleRejected(JsonServer.Request(rq.verb, rq.path, Some(WireBody(taskData)), Some(rq.headers["Authorization"])), downstream);
    assert NatToString(400) == "400" by {
      assert NatToString(4) == "4";
      assert NatToString(40) == "40";
    }
    assert StatusMessage(400) == "Erreur API: 400";
  }
}
