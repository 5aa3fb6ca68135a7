/** Tasks as the backend sends them, and the fixed status cycle of the board
    (the `statusMap` and `statusLabelMap` tables of kanban-app/public/app.js). */
module Tasks {

  datatype Option<T> = None | Some(value: T)

  /** The three lifecycle stages; each one is also a column of the board. */
  datatype Status = Todo | InProgress | Done

  /** A task record of `GET /api/tasks`. The status is kept as the raw string
      the backend sent, because the client never checks it before using it as
      a column key; `description` is `None` when the field is absent or null. */
  datatype Task = Task(id: int, title: string, description: Option<string>,
                       status: string, createdAt: string)

  /** The wire name of a status: the key of the column and of the maps. */
  function Name(s: Status): string {
    match s
    case Todo => "todo"
    case InProgress => "in-progress"
    case Done => "done"
  }

  /** Reads a wire name back; `None` for every string that is not one of the
      three keys. */
  function StatusOf(name: string): (r: Option<Status>)
    ensures r.Some? ==> Name(r.value) == name
    ensures r.None? ==> forall s :: Name(s) != name
  {
    if name == "todo" then Some(Todo)
    else if name == "in-progress" then Some(InProgress)
    else if name == "done" then Some(Done)
    else None
  }

  predicate IsStatusName(name: string) {
    StatusOf(name).Some?
  }

  /** Every status is recognised under its own name, so names and statuses
      are in one-to-one correspondence. */
  lemma NameRoundTrip(s: Status)
    ensures StatusOf(Name(s)) == Some(s)
    ensures IsStatusName(Name(s))
  {
  }

  lemma NamesDiffer(s: Status, t: Status)
    requires s != t
    ensures Name(s) != Name(t)
  {
    NameRoundTrip(s);
    NameRoundTrip(t);
  }

  /** Position of a status in the cycle, an independent statement of the order. */
  function Rank(s: Status): nat {
    match s
    case Todo => 0
    case InProgress => 1
    case Done => 2
  }

  /** The status the advance button requests (`statusMap`). */
  function Next(s: Status): (r: Status)
    ensures Rank(r) == (Rank(s) + 1) % 3
  {
    match s
    case Todo => InProgress
    case InProgress => Done
    case Done => Todo
  }

  /** The caption of the advance button for a task in status `s`
      (`statusLabelMap`). */
  function Label(s: Status): string {
    match s
    case Todo => "🚀 Start"
    case InProgress => "✅ Complete"
    case Done => "📝 Restart"
  }

  /** Advancing is a cycle of length exactly three. */
  lemma NextIsThreeCycle(s: Status)
    ensures Next(s) != s && Next(Next(s)) != s
    ensures Next(Next(Next(s))) == s
  {
  }

  lemma NextInjective(s: Status, t: Status)
    requires Next(s) == Next(t)
    ensures s == t
  {
  }

  /** No two statuses share a caption, so the caption shows the current status. */
  lemma LabelsDistinct(s: Status, t: Status)
    requires Label(s) == Label(t)
    ensures s == t
  {
  }
}
