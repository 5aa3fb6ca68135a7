/** What `renderTasks` promises about the board it produces: the columns
    partition the input by status, keep its order, and show the placeholders
    exactly where a column is empty. */
module RenderProperties {
  import opened Tasks
  import opened Cards
  import opened Boards

  /** Filtering keeps every task of status `s` as often as it occurs in the
      input, and no task of another status. */
  lemma {:induction false} FilterCount(ts: seq<Task>, s: Status, t: Task)
    ensures multiset(Filter(ts, s))[t] == if t.status == Name(s) then multiset(ts)[t] else 0
  {
    if ts != [] {
      var init, last := ts[..|ts| - 1], ts[|ts| - 1];
      assert ts == init + [last];
      FilterCount(init, s, t);
    }
  }

  /** For a list of tasks with known statuses, the three columns together hold
      every task exactly once: the split is exhaustive and exclusive. */
  lemma {:induction false} FilterPartition(ts: seq<Task>)
    requires AllKnown(ts)
    ensures multiset(Filter(ts, Todo)) + multiset(Filter(ts, InProgress)) + multiset(Filter(ts, Done)) == multiset(ts)
  {
    if ts != [] {
      var init, last := ts[..|ts| - 1], ts[|ts| - 1];
      assert ts == init + [last];
      assert AllKnown(init) by {
        forall i | 0 <= i < |init| ensures IsStatusName(init[i].status) {
          assert init[i] == ts[i];
        }
      }
      FilterPartition(init);
      assert IsStatusName(last.status);
      var s := StatusOf(last.status).value;
      forall u | u != s ensures last.status != Name(u) {
        NamesDiffer(s, u);
      }
    }
  }

  /** The indices of the tasks of status `s`, in increasing order. */
  function Positions(ts: seq<Task>, s: Status): seq<int> {
    if ts == [] then []
    else Positions(ts[..|ts| - 1], s) + (if ts[|ts| - 1].status == Name(s) then [|ts| - 1] else [])
  }

  /** Positions are input indices, one per filtered task, and the filtered
      task at place `k` is the input task at index `Positions[k]`. */
  lemma {:induction false} PositionsLocateFilter(ts: seq<Task>, s: Status)
    ensures var p := Positions(ts, s); |p| == |Filter(ts, s)|
    ensures var p := Positions(ts, s);
      forall k :: 0 <= k < |p| ==> 0 <= p[k] < |ts| && Filter(ts, s)[k] == ts[p[k]]
  {
    if ts != [] {
      var init, last := ts[..|ts| - 1], ts[|ts| - 1];
      PositionsLocateFilter(init, s);
      var p0, f0 := Positions(init, s), Filter(init, s);
      var p, f := Positions(ts, s), Filter(ts, s);
      if last.status == Name(s) {
        assert p == p0 + [|init|] && f == f0 + [last];
        forall k | 0 <= k < |p| ensures 0 <= p[k] < |ts| && f[k] == ts[p[k]] {
          if k < |p0| { assert f[k] == f0[k] == init[p0[k]] == ts[p[k]]; }
        }
      } else {
        assert p == p0 && f == f0;
        forall k | 0 <= k < |p| ensures 0 <= p[k] < |ts| && f[k] == ts[p[k]] {
          assert f0[k] == init[p0[k]];
        }
      }
    }
  }

  /** Positions lie below the input length and strictly increase. */
  lemma {:induction false} PositionsIncrease(ts: seq<Task>, s: Status)
    ensures forall k :: 0 <= k < |Positions(ts, s)| ==> 0 <= Positions(ts, s)[k] < |ts|
    ensures forall k, l :: 0 <= k < l < |Positions(ts, s)| ==> Positions(ts, s)[k] < Positions(ts, s)[l]
  {
    if ts != [] {
      var init := ts[..|ts| - 1];
      PositionsIncrease(init, s);
      var p0, p := Positions(init, s), Positions(ts, s);
      if ts[|ts| - 1].status == Name(s) {
        assert p == p0 + [|init|];
        forall k, l | 0 <= k < l < |p| ensures p[k] < p[l] {
          if l < |p0| {
            assert p[k] == p0[k] && p[l] == p0[l];
          } else {
            assert p[k] == p0[k] < |init|;
          }
        }
      } else {
        assert p == p0;
      }
    }
  }

  /** The positions are exactly the indices of the tasks of status `s`. */
  lemma {:induction false} PositionsExactly(ts: seq<Task>, s: Status)
    ensures forall i :: 0 <= i < |ts| ==> (i in Positions(ts, s) <==> ts[i].status == Name(s))
  {
    if ts != [] {
      var init := ts[..|ts| - 1];
      PositionsExactly(init, s);
      PositionsIncrease(init, s);
      var p0, p := Positions(init, s), Positions(ts, s);
      forall i | 0 <= i < |ts| ensures i in p <==> ts[i].status == Name(s) {
        if i < |init| {
          assert ts[i] == init[i];
        } else {
          assert forall k :: 0 <= k < |p0| ==> p0[k] != i;
        }
      }
    }
  }

  /** A column lists exactly the tasks of its status, each at the place of
      an increasing sequence of input indices: the input order is kept and
      nothing is sorted. */
  lemma FilterKeepsInputOrder(ts: seq<Task>, s: Status)
    ensures var p := Positions(ts, s); |p| == |Filter(ts, s)|
    ensures var p := Positions(ts, s);
      forall k :: 0 <= k < |p| ==> 0 <= p[k] < |ts| && Filter(ts, s)[k] == ts[p[k]]
    ensures var p := Positions(ts, s);
      forall k, l :: 0 <= k < l < |p| ==> p[k] < p[l]
    ensures var p := Positions(ts, s);
      forall i :: 0 <= i < |ts| ==> (i in p <==> ts[i].status == Name(s))
  {
    PositionsLocateFilter(ts, s);
    PositionsIncrease(ts, s);
    PositionsExactly(ts, s);
  }

  /** A column receives no task exactly when no input task has its status. */
  lemma {:induction false} FilterEmptyIff(ts: seq<Task>, s: Status)
    ensures Filter(ts, s) == [] <==> forall i :: 0 <= i < |ts| ==> ts[i].status != Name(s)
  {
    FilterKeepsInputOrder(ts, s);
    var p := Positions(ts, s);
    if Filter(ts, s) != [] {
      assert ts[p[0]].status == Name(s);
    } else {
      forall i | 0 <= i < |ts| ensures ts[i].status != Name(s) {
        assert i !in p;
      }
    }
  }

  /** An empty input puts the "No tasks yet" placeholder, alone, in every column. */
  lemma RenderEmptyInput(s: Status, localDate: string -> string)
    ensures Rendered([], s, localDate) == [EmptyState(NoTasksYet)]
  {
  }

  /** For a non-empty input whose statuses are all known, a column shows the
      "No tasks" placeholder exactly when no task has its status; the
      placeholder is then the column's only child, and otherwise the column
      holds only the cards of its tasks, in input order. */
  lemma RenderPlaceholderIff(tasks: seq<Task>, s: Status, localDate: string -> string)
    requires tasks != [] && AllKnown(tasks)
    ensures EmptyState(NoTasks) in Rendered(tasks, s, localDate) <==>
      forall i :: 0 <= i < |tasks| ==> tasks[i].status != Name(s)
    ensures forall k :: 0 <= k < |Rendered(tasks, s, localDate)| && Rendered(tasks, s, localDate)[k].EmptyState? ==>
      Rendered(tasks, s, localDate) == [EmptyState(NoTasks)]
    ensures Rendered(tasks, s, localDate) != [EmptyState(NoTasks)] ==> Rendered(tasks, s, localDate) == Placed(tasks, s, localDate)
  {
    FilterEmptyIff(tasks, s);
    var col := Rendered(tasks, s, localDate);
    if Filter(tasks, s) == [] {
      assert col == [EmptyState(NoTasks)];
    } else {
      FilterAllKnown(tasks, s);
      assert col == Placed(tasks, s, localDate);
      assert forall k :: 0 <= k < |col| ==> col[k].CardEntry?;
      assert EmptyState(NoTasks) !in col;
    }
  }

  /** A card in the column of `u` has its advance button aimed at `Next(u)`. */
  lemma ColumnCardsAdvanceFrom(tasks: seq<Task>, u: Status, localDate: string -> string, j: nat)
    requires AllKnown(tasks)
    requires j < |Rendered(tasks, u, localDate)| && Rendered(tasks, u, localDate)[j].CardEntry?
    ensures Rendered(tasks, u, localDate)[j].card.move.target == Next(u)
  {
    FilterAllKnown(tasks, u);
    NameRoundTrip(u);
    if tasks != [] && Filter(tasks, u) != [] {
      var f := Filter(tasks, u)[j];
      assert Rendered(tasks, u, localDate)[j] == CardEntry(CardOf(f, localDate(f.createdAt)));
    }
  }

  /** Every task's card lands in the column of its status, and in no other. */
  lemma CardInItsColumnOnly(tasks: seq<Task>, i: nat, localDate: string -> string)
    requires AllKnown(tasks) && i < |tasks|
    ensures var s := StatusOf(tasks[i].status).value;
      var e := CardEntry(CardOf(tasks[i], localDate(tasks[i].createdAt)));
      e in Rendered(tasks, s, localDate) &&
      forall u :: u != s ==> e !in Rendered(tasks, u, localDate)
  {
    var t := tasks[i];
    var s := StatusOf(t.status).value;
    var e := CardEntry(CardOf(t, localDate(t.createdAt)));
    FilterKeepsInputOrder(tasks, s);
    var p := Positions(tasks, s);
    assert i in p;
    var k :| 0 <= k < |p| && p[k] == i;
    FilterAllKnown(tasks, s);
    assert Placed(tasks, s, localDate)[k] == e;
    forall u | u != s ensures e !in Rendered(tasks, u, localDate) {
      var col := Rendered(tasks, u, localDate);
      forall j | 0 <= j < |col| && col[j].CardEntry? ensures col[j] != e {
        ColumnCardsAdvanceFrom(tasks, u, localDate, j);
        if Next(u) == Next(s) { NextInjective(u, s); }
      }
    }
  }

  /** When a task with an unknown status stops the render, the columns hold
      the cards placed so far and no placeholder at all. */
  lemma RenderThrownNoPlaceholder(tasks: seq<Task>, s: Status, localDate: string -> string)
    requires !AllKnown(tasks)
    ensures forall k :: 0 <= k < |Rendered(tasks, s, localDate)| ==> Rendered(tasks, s, localDate)[k].CardEntry?
    ensures |Rendered(tasks, s, localDate)| <= KnownPrefix(tasks) < |tasks|
  {
    KnownPrefixAll(tasks);
  }

  /** Two boards with any previous contents end up the same after rendering
      the same tasks: every column is cleared before anything is placed. */
  method RenderForgetsPreviousContents(b1: Board, b2: Board, tasks: seq<Task>, localDate: string -> string)
    modifies b1, b2
    ensures forall s :: b1.Column(s) == b2.Column(s)
  {
    var _ := b1.Render(tasks, localDate);
    var _ := b2.Render(tasks, localDate);
  }

  /** Rendering tasks onto a board that already shows them changes nothing. */
  method RenderIsIdempotent(b: Board, tasks: seq<Task>, localDate: string -> string)
    requires forall s :: b.Column(s) == Rendered(tasks, s, localDate)
    modifies b
    ensures forall s :: b.Column(s) == old(b.Column(s))
  {
    var _ := b.Render(tasks, localDate);
  }
}
