/** The three-column board and `renderTasks` (kanban-app/public/app.js:20-46). */
module Boards {
  import opened Tasks
  import opened Cards

  /** A child of a column container: a task card, or the `empty-state`
      placeholder with its message. */
  datatype Entry = CardEntry(card: Card) | EmptyState(message: string)

  const NoTasksYet := "No tasks yet"
  const NoTasks := "No tasks"

  /** The column containers in the order of the `lists` object. */
  const Columns: seq<Status> := [Todo, InProgress, Done]

  lemma ColumnsListsEveryStatus(s: Status)
    ensures exists k :: 0 <= k < |Columns| && Columns[k] == s
  {
    if s == Todo { assert Columns[0] == s; }
    else if s == InProgress { assert Columns[1] == s; }
    else { assert Columns[2] == s; }
  }

  predicate AllKnown(ts: seq<Task>) {
    forall i :: 0 <= i < |ts| ==> IsStatusName(ts[i].status)
  }

  /** The number of leading tasks whose status is one of the three keys: the
      index of the task whose column lookup throws, when there is one. */
  function KnownPrefix(ts: seq<Task>): (k: nat)
    ensures k <= |ts|
    ensures forall j :: 0 <= j < k ==> IsStatusName(ts[j].status)
    ensures k < |ts| ==> !IsStatusName(ts[k].status)
  {
    if ts == [] || !IsStatusName(ts[0].status) then 0
    else 1 + KnownPrefix(ts[1..])
  }

  lemma KnownPrefixAll(ts: seq<Task>)
    ensures KnownPrefix(ts) == |ts| <==> AllKnown(ts)
  {
  }

  /** The tasks of status `s`, in input order. */
  function Filter(ts: seq<Task>, s: Status): (r: seq<Task>)
    ensures |r| <= |ts|
    ensures forall k :: 0 <= k < |r| ==> r[k].status == Name(s)
  {
    if ts == [] then []
    else Filter(ts[..|ts| - 1], s) + (if ts[|ts| - 1].status == Name(s) then [ts[|ts| - 1]] else [])
  }

  /** The cards of the tasks `ts`, one per task and in the same order. */
  function CardEntries(ts: seq<Task>, localDate: string -> string): (r: seq<Entry>)
    requires AllKnown(ts)
    ensures |r| == |ts|
    ensures forall k :: 0 <= k < |r| ==> r[k] == CardEntry(CardOf(ts[k], localDate(ts[k].createdAt)))
  {
    if ts == [] then []
    else CardEntries(ts[..|ts| - 1], localDate) + [CardEntry(CardOf(ts[|ts| - 1], localDate(ts[|ts| - 1].createdAt)))]
  }

  lemma FilterAllKnown(ts: seq<Task>, s: Status)
    ensures AllKnown(Filter(ts, s))
  {
    NameRoundTrip(s);
  }

  /** The cards of the tasks of status `s`, in input order. */
  function Placed(ts: seq<Task>, s: Status, localDate: string -> string): seq<Entry> {
    FilterAllKnown(ts, s);
    CardEntries(Filter(ts, s), localDate)
  }

  /** What the column of status `s` holds once `renderTasks(tasks)` has run
      or thrown. A completed render leaves no column without children, and a
      column never holds more children than there are tasks, except for the
      one placeholder of an empty list. */
  function Rendered(tasks: seq<Task>, s: Status, localDate: string -> string): (r: seq<Entry>)
    ensures AllKnown(tasks) ==> r != []
    ensures tasks != [] ==> |r| <= |tasks|
  {
    if tasks == [] then [EmptyState(NoTasksYet)]
    else if !AllKnown(tasks) then Placed(tasks[..KnownPrefix(tasks)], s, localDate)
    else if Filter(tasks, s) == [] then [EmptyState(NoTasks)]
    else Placed(tasks, s, localDate)
  }

  lemma FilterSnoc(ts: seq<Task>, t: Task, s: Status)
    ensures Filter(ts + [t], s) == Filter(ts, s) + (if t.status == Name(s) then [t] else [])
  {
    assert (ts + [t])[..|ts|] == ts;
  }

  lemma CardEntriesSnoc(ts: seq<Task>, t: Task, localDate: string -> string)
    requires AllKnown(ts) && IsStatusName(t.status)
    ensures AllKnown(ts + [t])
    ensures CardEntries(ts + [t], localDate) == CardEntries(ts, localDate) + [CardEntry(CardOf(t, localDate(t.createdAt)))]
  {
    assert (ts + [t])[..|ts|] == ts;
  }

  /** One step of the placing loop: the card of `t` goes to the end of its
      own column and no other column changes. */
  lemma PlaceStep(placed: seq<Task>, t: Task, s: Status, u: Status, localDate: string -> string)
    requires AllKnown(placed) && StatusOf(t.status) == Some(s)
    ensures Placed(placed + [t], u, localDate) ==
      if u == s then Placed(placed, u, localDate) + [CardEntry(CardOf(t, localDate(t.createdAt)))]
      else Placed(placed, u, localDate)
  {
    if u == s {
      PlaceStepOwn(placed, t, s, localDate);
    } else {
      PlaceStepOther(placed, t, s, u, localDate);
    }
  }

  lemma AllKnownSnoc(placed: seq<Task>, t: Task)
    requires AllKnown(placed) && IsStatusName(t.status)
    ensures AllKnown(placed + [t])
  {
  }

  lemma PlaceStepOwn(placed: seq<Task>, t: Task, s: Status, localDate: string -> string)
    requires AllKnown(placed) && StatusOf(t.status) == Some(s)
    ensures Placed(placed + [t], s, localDate) ==
      Placed(placed, s, localDate) + [CardEntry(CardOf(t, localDate(t.createdAt)))]
  {
    assert t.status == Name(s);
    FilterSnoc(placed, t, s);
    FilterAllKnown(placed, s);
    CardEntriesSnoc(Filter(placed, s), t, localDate);
  }

  lemma PlaceStepOther(placed: seq<Task>, t: Task, s: Status, u: Status, localDate: string -> string)
    requires StatusOf(t.status) == Some(s) && u != s
    ensures Placed(placed + [t], u, localDate) == Placed(placed, u, localDate)
  {
    NamesDiffer(s, u);
    FilterSnoc(placed, t, u);
  }

  lemma {:induction false} KnownPrefixAt(tasks: seq<Task>, i: nat)
    requires i < |tasks| && AllKnown(tasks[..i]) && !IsStatusName(tasks[i].status)
    ensures KnownPrefix(tasks) == i
  {
    if i > 0 {
      assert tasks[..i][0] == tasks[0];
      assert tasks[1..][..i - 1] == tasks[..i][1..];
      KnownPrefixAt(tasks[1..], i - 1);
    }
  }

  lemma RenderedThrown(tasks: seq<Task>, s: Status, localDate: string -> string)
    requires tasks != [] && KnownPrefix(tasks) < |tasks|
    ensures Rendered(tasks, s, localDate) == Placed(tasks[..KnownPrefix(tasks)], s, localDate)
  {
    KnownPrefixAll(tasks);
    FilterAllKnown(tasks[..KnownPrefix(tasks)], s);
  }

  lemma RenderedCompleted(tasks: seq<Task>, s: Status, localDate: string -> string)
    requires tasks != [] && AllKnown(tasks)
    ensures var cards := Placed(tasks, s, localDate);
      Rendered(tasks, s, localDate) == if cards == [] then [EmptyState(NoTasks)] else cards
  {
    FilterAllKnown(tasks, s);
  }

  /** The page's three column containers. */
  class Board {
    var todo: seq<Entry>
    var inProgress: seq<Entry>
    var done: seq<Entry>

    constructor (todo0: seq<Entry>, inProgress0: seq<Entry>, done0: seq<Entry>)
      ensures Column(Todo) == todo0 && Column(InProgress) == inProgress0 && Column(Done) == done0
    {
      todo, inProgress, done := todo0, inProgress0, done0;
    }

    /** The children of the container keyed by `s`. */
    function Column(s: Status): seq<Entry>
      reads this
    {
      match s
      case Todo => todo
      case InProgress => inProgress
      case Done => done
    }

    /** Replaces the children of one container. */
    method SetColumn(s: Status, entries: seq<Entry>)
      modifies this
      ensures Column(s) == entries
      ensures forall t :: t != s ==> Column(t) == old(Column(t))
    {
      match s
      case Todo => todo := entries;
      case InProgress => inProgress := entries;
      case Done => done := entries;
    }

    /** Sets the contents of every container, as the two `forEach` loops
        over `Object.values(lists)` do. */
    method FillAll(entries: seq<Entry>)
      modifies this
      ensures forall s :: Column(s) == entries
    {
      for k := 0 to |Columns|
        invariant forall j :: 0 <= j < k ==> Column(Columns[j]) == entries
      {
        SetColumn(Columns[k], entries);
      }
      forall s ensures Column(s) == entries {
        ColumnsListsEveryStatus(s);
      }
    }

    /** The final loop: a container left without children gets the
        "No tasks" placeholder; the others are untouched. */
    method MarkEmptyColumns()
      modifies this
      ensures forall s :: Column(s) == if old(Column(s)) == [] then [EmptyState(NoTasks)] else old(Column(s))
    {
      for k := 0 to |Columns|
        invariant forall j :: 0 <= j < k ==>
          Column(Columns[j]) == if old(Column(Columns[j])) == [] then [EmptyState(NoTasks)] else old(Column(Columns[j]))
        invariant forall j :: k <= j < |Columns| ==> Column(Columns[j]) == old(Column(Columns[j]))
      {
        var s := Columns[k];
        if |Column(s)| == 0 {
          SetColumn(s, [EmptyState(NoTasks)]);
        }
      }
      forall s ensures Column(s) == if old(Column(s)) == [] then [EmptyState(NoTasks)] else old(Column(s)) {
        ColumnsListsEveryStatus(s);
      }
    }

    /** The `tasks.forEach` loop: appends each task's card to the container
        of its status, in input order, and stops at the first task whose
        status is not a container key (where the source throws). It returns
        the number of tasks placed. */
    method PlaceCards(tasks: seq<Task>, localDate: string -> string) returns (placed: nat)
      modifies this
      requires forall s :: Column(s) == []
      ensures placed == KnownPrefix(tasks)
      ensures AllKnown(tasks[..placed])
      ensures forall s :: Column(s) == Placed(tasks[..placed], s, localDate)
    {
      assert tasks[..0] == [];
      placed := 0;
      while placed < |tasks|
        invariant 0 <= placed <= |tasks|
        invariant AllKnown(tasks[..placed])
        invariant forall s :: Column(s) == Placed(tasks[..placed], s, localDate)
      {
        var t := tasks[placed];
        assert tasks[..placed + 1] == tasks[..placed] + [t];
        match StatusOf(t.status)
        case None =>
          KnownPrefixAt(tasks, placed);
          return;
        case Some(s) =>
          SetColumn(s, Column(s) + [CardEntry(CardOf(t, localDate(t.createdAt)))]);
          AllKnownSnoc(tasks[..placed], t);
          forall u ensures Column(u) == Placed(tasks[..placed + 1], u, localDate) {
            PlaceStep(tasks[..placed], t, s, u, localDate);
          }
        placed := placed + 1;
      }
      assert tasks[..placed] == tasks;
      KnownPrefixAll(tasks);
    }

    /** `renderTasks(tasks)`. It returns false where the source throws: on the
        first task whose status is not a container key, after the earlier
        tasks' cards are in place and before any placeholder is written. The
        new board is a function of `tasks` alone: nothing of the old contents
        survives. */
    method Render(tasks: seq<Task>, localDate: string -> string) returns (ok: bool)
      modifies this
      ensures ok == AllKnown(tasks)
      ensures forall s :: Column(s) == Rendered(tasks, s, localDate)
    {
      FillAll([]);
      if |tasks| == 0 {
        FillAll([EmptyState(NoTasksYet)]);
        return true;
      }
      var placed := PlaceCards(tasks, localDate);
      if placed < |tasks| {
        forall u ensures Column(u) == Rendered(tasks, u, localDate) {
          RenderedThrown(tasks, u, localDate);
        }
        return false;
      }
      assert tasks[..placed] == tasks;
      MarkEmptyColumns();
      forall u ensures Column(u) == Rendered(tasks, u, localDate) {
        RenderedCompleted(tasks, u, localDate);
      }
      ok := true;
    }
  }
}
