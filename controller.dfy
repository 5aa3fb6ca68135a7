/** The board controller: `loadTasks` and the three user actions
    `handleAddTask`, `moveTask` and `deleteTask` (kanban-app/public/app.js:7-18,
    81-143). The network is replaced by the reply each request gets, and the
    confirmation dialog by the user's answer. */
module Controller {
  import opened Tasks
  import opened Cards
  import opened Boards

  /** What an `await fetch(...)` followed by `await response.json()` yields:
      `Rejected` when either throws (no connection, a body that is not JSON),
      otherwise the parsed body's `success` flag and `data`. */
  datatype Reply<T> = Rejected | Answered(success: bool, data: T)

  /** The requests the client sends. */
  datatype Request =
    | CreateTask(title: string, description: string, status: string)
    | UpdateStatus(id: int, status: string)
    | RemoveTask(id: int)

  /** The HTTP method of a request; it tells the three kinds apart. */
  function Verb(r: Request): (v: string)
    ensures v == "POST" <==> r.CreateTask?
    ensures v == "PUT" <==> r.UpdateStatus?
    ensures v == "DELETE" <==> r.RemoveTask?
  {
    match r
    case CreateTask(_, _, _) => "POST"
    case UpdateStatus(_, _) => "PUT"
    case RemoveTask(_) => "DELETE"
  }

  const TasksPath := "/api/tasks"

  /** The URL path of a request: the collection for a creation, otherwise
      the collection, a slash and the task id in decimal, which reads back
      as the id. */
  function Path(r: Request): (p: string)
    ensures r.CreateTask? <==> p == TasksPath
    ensures !r.CreateTask? ==>
      |TasksPath| + 1 < |p| && p[..|TasksPath| + 1] == TasksPath + "/" && DecimalValue(p[|TasksPath| + 1..]) == r.id
    ensures !r.CreateTask? ==> p == ItemPath(r.id)
  {
    match r
    case CreateTask(_, _, _) => TasksPath
    case UpdateStatus(id, _) => ItemPath(id)
    case RemoveTask(id) => ItemPath(id)
  }

  function ItemPath(id: int): (p: string)
    ensures |TasksPath| + 1 < |p| && p[..|TasksPath| + 1] == TasksPath + "/" && DecimalValue(p[|TasksPath| + 1..]) == id
    ensures p[|TasksPath| + 1..] == DecimalString(id)
  {
    SplitAt(TasksPath + "/", DecimalString(id));
    TasksPath + "/" + DecimalString(id)
  }

  /** The JSON object a request sends as its body, as a map from keys to
      string values; a deletion sends no body. */
  function Body(r: Request): (b: Option<map<string, string>>)
    ensures b.None? <==> r.RemoveTask?
    ensures r.CreateTask? ==>
      b.Some? && b.value.Keys == {"title", "description", "status"} &&
      b.value["title"] == r.title && b.value["description"] == r.description && b.value["status"] == r.status
    ensures r.UpdateStatus? ==> b.Some? && b.value.Keys == {"status"} && b.value["status"] == r.status
  {
    match r
    case CreateTask(title, description, status) =>
      Some(map["title" := title, "description" := description, "status" := status])
    case UpdateStatus(_, status) => Some(map["status" := status])
    case RemoveTask(_) => None
  }

  /** The method, the path and the body together determine the request: no
      two different requests look the same on the wire. */
  lemma WireDetermines(r1: Request, r2: Request)
    requires Verb(r1) == Verb(r2) && Path(r1) == Path(r2) && Body(r1) == Body(r2)
    ensures r1 == r2
  {
  }

  /** A user action: submitting the form with the values of its three fields,
      pressing a card's advance button, or pressing its delete button and
      answering the confirmation dialog. */
  datatype Action =
    | AddTask(title: string, description: string, status: string)
    | MoveTask(id: int, newStatus: string)
    | DeleteTask(id: int, confirmed: bool)

  /** What handling an action does: the request it sends (if any) and, once
      the reply is in, whether it resets the form, reloads the board, and
      which alert it shows. Logging is not modelled. */
  datatype Effects = Effects(request: Option<Request>, resetForm: bool, reload: bool, alert: Option<string>)

  const NoEffects := Effects(None, false, false, None)

  /** The request an action sends. Only a declined deletion sends nothing. A
      form submission POSTs its three field values to the collection, an
      advance PUTs the new status to the task, and a confirmed deletion
      DELETEs the task. */
  function RequestFor(a: Action): (r: Option<Request>)
    ensures r.None? <==> a.DeleteTask? && !a.confirmed
    ensures r.Some? ==> Verb(r.value) == (match a
      case AddTask(_, _, _) => "POST"
      case MoveTask(_, _) => "PUT"
      case DeleteTask(_, _) => "DELETE")
    ensures a.AddTask? ==>
      r.Some? && Path(r.value) == TasksPath &&
      Body(r.value) == Some(map["title" := a.title, "description" := a.description, "status" := a.status])
    ensures r.Some? && !a.AddTask? ==> Path(r.value) == TasksPath + "/" + DecimalString(a.id)
    ensures a.MoveTask? ==> r.Some? && Body(r.value) == Some(map["status" := a.newStatus])
    ensures a.DeleteTask? && r.Some? ==> Body(r.value) == None
  {
    match a
    case AddTask(title, description, status) => Some(CreateTask(title, description, status))
    case MoveTask(id, newStatus) => Some(UpdateStatus(id, newStatus))
    case DeleteTask(id, confirmed) => if confirmed then Some(RemoveTask(id)) else None
  }

  /** The alert text of a failed action: "Failed to", the verb of the
      action, "task". */
  function FailureMessage(a: Action): (m: string)
    ensures |m| > 15 && m[..10] == "Failed to " && m[|m| - 5..] == " task"
    ensures m[10..|m| - 5] == match a
      case AddTask(_, _, _) => "add"
      case MoveTask(_, _) => "move"
      case DeleteTask(_, _) => "delete"
  {
    match a
    case AddTask(_, _, _) => "Failed to add task"
    case MoveTask(_, _) => "Failed to move task"
    case DeleteTask(_, _) => "Failed to delete task"
  }

  /** The three failure alerts differ, so the alert names the action that
      failed. */
  lemma FailureMessagesDistinct(a: Action, b: Action)
    requires FailureMessage(a) == FailureMessage(b)
    ensures a.AddTask? == b.AddTask? && a.MoveTask? == b.MoveTask? && a.DeleteTask? == b.DeleteTask?
  {
  }

  /** `handleAddTask`, `moveTask` and `deleteTask`. A reload is triggered only
      by a reply with `success` set, and the form is reset only then; an alert
      is shown only when the request or the parsing of its reply fails. A
      reply whose `success` is false has no visible effect. */
  function Handle(a: Action, reply: Reply<()>): (e: Effects)
    ensures e.request == RequestFor(a)
    ensures e.reload <==> e.request.Some? && reply.Answered? && reply.success
    ensures e.resetForm <==> e.reload && a.AddTask?
    ensures e.alert.Some? <==> e.request.Some? && reply.Rejected?
    ensures e.alert.Some? ==> e.alert.value == FailureMessage(a)
  {
    match RequestFor(a)
    case None => NoEffects
    case Some(r) =>
      match reply
      case Rejected => Effects(Some(r), false, false, Some(FailureMessage(a)))
      case Answered(success, _) => Effects(Some(r), success && a.AddTask?, success, None)
  }

  /** A declined deletion sends nothing and changes nothing, whatever reply
      would have come. */
  lemma DeclinedDeleteDoesNothing(id: int, reply: Reply<()>)
    ensures Handle(DeleteTask(id, false), reply) == NoEffects
  {
  }

  /** No action both reloads the board and alerts. */
  lemma ReloadAndAlertExclusive(a: Action, reply: Reply<()>)
    ensures !(Handle(a, reply).reload && Handle(a, reply).alert.Some?)
  {
  }

  /** A reply with `success` false is neither reloaded nor alerted on. */
  lemma UnsuccessfulReplyIsSilent(a: Action)
    ensures Handle(a, Answered(false, ())).reload == false
    ensures Handle(a, Answered(false, ())).alert == None
    ensures Handle(a, Answered(false, ())).resetForm == false
  {
  }

  /** The `onclick` of a card's advance button: a move of the button's task
      to a status name that reads back as the button's target. */
  function AdvanceAction(c: Card): (a: Action)
    ensures a.MoveTask? && a.id == c.move.taskId
    ensures StatusOf(a.newStatus) == Some(c.move.target)
  {
    NameRoundTrip(c.move.target);
    MoveTask(c.move.taskId, Name(c.move.target))
  }

  /** The `onclick` of a card's delete button, with the dialog's answer: a
      deletion of the card's task, which sends the removal of that task when
      the user confirms and nothing when the user declines. */
  function DeleteAction(c: Card, confirmed: bool): (a: Action)
    ensures a.DeleteTask? && a.id == c.deleteId && a.confirmed == confirmed
    ensures RequestFor(a) == if confirmed then Some(RemoveTask(c.deleteId)) else None
    ensures confirmed ==> Path(RequestFor(a).value) == TasksPath + "/" + DecimalString(c.deleteId)
  {
    DeleteTask(c.deleteId, confirmed)
  }

  /** Pressing a card's advance button asks the backend to move that task to
      the next status of the cycle; pressing its delete button and confirming
      asks to remove that task. */
  lemma CardButtonsTargetTheirTask(t: Task, date: string)
    requires IsStatusName(t.status)
    ensures RequestFor(AdvanceAction(CardOf(t, date))) ==
      Some(UpdateStatus(t.id, Name(Next(StatusOf(t.status).value))))
    ensures RequestFor(DeleteAction(CardOf(t, date), true)) == Some(RemoveTask(t.id))
    ensures RequestFor(DeleteAction(CardOf(t, date), false)) == None
  {
  }

  /** `loadTasks`: the board is re-rendered only from a reply with `success`
      set; otherwise it is left as it was. It returns whether an error is
      logged: when the request fails, or when rendering throws on a task
      whose status is not a column key. */
  method LoadTasks(board: Board, reply: Reply<seq<Task>>, localDate: string -> string) returns (logged: bool)
    modifies board
    ensures logged <==> reply.Rejected? || (reply.success && !AllKnown(reply.data))
    ensures reply.Answered? && reply.success ==>
      forall s :: board.Column(s) == Rendered(reply.data, s, localDate)
    ensures !(reply.Answered? && reply.success) ==>
      forall s :: board.Column(s) == old(board.Column(s))
  {
    match reply
    case Rejected =>
      logged := true;
    case Answered(success, tasks) =>
      if success {
        var ok := board.Render(tasks, localDate);
        logged := !ok;
      } else {
        logged := false;
      }
  }

  /** An action followed, when it succeeded, by the `loadTasks` it triggers,
      which gets the reply `reload`. The board changes only through that
      reload. */
  method Perform(board: Board, a: Action, reply: Reply<()>, reload: Reply<seq<Task>>, localDate: string -> string)
    returns (e: Effects)
    modifies board
    ensures e == Handle(a, reply)
    ensures e.reload && reload.Answered? && reload.success ==>
      forall s :: board.Column(s) == Rendered(reload.data, s, localDate)
    ensures !(e.reload && reload.Answered? && reload.success) ==>
      forall s :: board.Column(s) == old(board.Column(s))
  {
    e := Handle(a, reply);
    if e.reload {
      var _ := LoadTasks(board, reload, localDate);
    }
  }
}
