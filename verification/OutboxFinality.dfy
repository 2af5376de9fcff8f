// When a settled row stays as it is, whatever workers and operators do.

module OutboxFinality {
  import opened Prelude
  import opened Outbox
  import opened OutboxProtocol
  import opened OutboxLimits

  /** The holder has seen its outcome on the row, and recording it would change nothing. */
  predicate Spent(s: State, w: WorkerId, id: Id)
    requires Holds(s, w, id) && id in s.rows
  {
    var worker := s.workers[w];
    && worker.seen.Some? && worker.seen.value.0 == id
    && Flush(s.rows[id], worker.held[id], worker.seen.value.1, worker.clock) == s.rows[id]
  }

  /** No live worker holds the row, but for such as have nothing left to change. */
  ghost predicate Released(s: State, id: Id)
    requires id in s.rows
  {
    forall w | Holds(s, w, id) :: Spent(s, w, id)
  }

  predicate NoRetryOf(run: seq<Event>, id: Id) { forall i | 0 <= i < |run| :: run[i] != Retry(id) }

  predicate NoSendOf(run: seq<Event>, id: Id) { forall i | 0 <= i < |run| :: !(run[i].Send? && run[i].id == id) }

  /** A settled, released row can only be moved by a redrive, which a delivered row refuses. */
  lemma ReleasedStep(s: State, e: Event, id: Id)
    requires Kept(s) && Enabled(s, e) && id in s.rows && !Unsettled(s.rows[id]) && Released(s, id)
    requires s.rows[id].status == Dead ==> e != Retry(id)
    ensures id in Next(s, e).rows && Next(s, e).rows[id] == s.rows[id] && Released(Next(s, e), id)
    ensures !(e.Send? && e.id == id)
  {
    hide Flush, RowKept, Accepted, Counted;
    if e.Commit? && s.workers[e.worker].seen.value.0 == id {
      assert Holds(s, e.worker, id);
    }
    assert e.Send? && e.id == id ==> Holds(s, e.worker, id);
    if e.ClaimBatch? {
      assert id !in e.ids;
    }
    forall w | Holds(Next(s, e), w, id)
      ensures Spent(Next(s, e), w, id)
    {
      assert Holds(s, w, id) && Spent(s, w, id);
    }
  }

  lemma {:induction false} ReleasedRun(s: State, run: seq<Event>, id: Id)
    requires Kept(s) && Feasible(s, run) && id in s.rows && !Unsettled(s.rows[id]) && Released(s, id)
    requires s.rows[id].status == Dead ==> NoRetryOf(run, id)
    ensures id in After(s, run).rows && After(s, run).rows[id] == s.rows[id]
    ensures NoSendOf(run, id)
    decreases |run|
  {
    hide Kept, Released, Enabled, Next;
    if run != [] {
      StepKeeps(s, run[0]);
      ReleasedStep(s, run[0], id);
      ReleasedRun(Next(s, run[0]), run[1..], id);
    }
  }

  /** An outcome whose record a row of this status cannot look like. */
  function Spoiler(row: Row): Outcome { if row.status == Delivered then Answered(Some(500)) else Answered(Some(200)) }

  lemma SpoilerSpoils(row: Row, copy: Row, now: int)
    requires !Unsettled(row)
    ensures Flush(row, copy, Spoiler(row), now) != row
  {}

  /** A holder that has seen nothing yet can change the settled row. */
  lemma SpoilUnseen(s: State, w: WorkerId, id: Id) returns (run: seq<Event>)
    requires id in s.rows && !Unsettled(s.rows[id]) && Holds(s, w, id) && s.workers[w].seen.None?
    ensures Feasible(s, run) && NoRetryOf(run, id)
    ensures id in After(s, run).rows && After(s, run).rows[id] != s.rows[id]
  {
    hide Flush, Accepted;
    var send := Send(w, id, Spoiler(s.rows[id]));
    var sent := Next(s, send);
    SpoilerSpoils(s.rows[id], s.workers[w].held[id], s.workers[w].clock);
    Nothing(Next(sent, Commit(w)));
    Chain(sent, Commit(w), Next(sent, Commit(w)), []);
    Chain(s, send, sent, [Commit(w)] + []);
    run := [send] + ([Commit(w)] + []);
  }

  /** Any holder that is not spent can. */
  lemma Spoil(s: State, w: WorkerId, id: Id) returns (run: seq<Event>)
    requires Kept(s) && id in s.rows && !Unsettled(s.rows[id]) && Holds(s, w, id) && !Spent(s, w, id)
    ensures Feasible(s, run) && NoRetryOf(run, id)
    ensures id in After(s, run).rows && After(s, run).rows[id] != s.rows[id]
  {
    hide Flush, Accepted, Unsettled;
    var seen := s.workers[w].seen;
    if seen.None? {
      run := SpoilUnseen(s, w, id);
    } else {
      assert WorkerKept(s.workers[w], s.rows, s.accepted);
      var next := Next(s, Commit(w));
      if seen.value.0 == id {
        Nothing(next);
        Chain(s, Commit(w), next, []);
        run := [Commit(w)] + [];
      } else {
        assert id in s.workers[w].held - {seen.value.0};
        assert next.rows[id] == s.rows[id] && next.workers[w].seen.None? && Holds(next, w, id);
        run := SpoilUnseen(next, w, id);
        Chain(s, Commit(w), next, run);
        run := [Commit(w)] + run;
      }
    }
  }

  /** A delivered row stays as it is in every run exactly if it is released, and is then never sent. */
  lemma DeliveredIsFinalIffReleased(s: State, id: Id)
    requires Kept(s) && id in s.rows && s.rows[id].status == Delivered
    ensures (forall run | Feasible(s, run) :: id in After(s, run).rows && After(s, run).rows[id] == s.rows[id])
       <==> Released(s, id)
    ensures Released(s, id) ==> forall run | Feasible(s, run) :: NoSendOf(run, id)
  {
    hide Kept, Spent, Feasible, After, Holds;
    if Released(s, id) {
      forall run | Feasible(s, run)
        ensures id in After(s, run).rows && After(s, run).rows[id] == s.rows[id] && NoSendOf(run, id)
      {
        ReleasedRun(s, run, id);
      }
    } else {
      var w :| Holds(s, w, id) && !Spent(s, w, id);
      var run := Spoil(s, w, id);
    }
  }

  /** A dead row stays as it is in every run without a redrive of it exactly if it is released. */
  lemma DeadMovesOnlyByRetryIffReleased(s: State, id: Id)
    requires Kept(s) && id in s.rows && s.rows[id].status == Dead
    ensures (forall run | Feasible(s, run) && NoRetryOf(run, id) ::
               id in After(s, run).rows && After(s, run).rows[id] == s.rows[id])
       <==> Released(s, id)
    ensures Released(s, id) ==> forall run | Feasible(s, run) && NoRetryOf(run, id) :: NoSendOf(run, id)
  {
    hide Kept, Spent, Feasible, After, Holds;
    if Released(s, id) {
      forall run | Feasible(s, run) && NoRetryOf(run, id)
        ensures id in After(s, run).rows && After(s, run).rows[id] == s.rows[id] && NoSendOf(run, id)
      {
        ReleasedRun(s, run, id);
      }
    } else {
      var w :| Holds(s, w, id) && !Spent(s, w, id);
      var run := Spoil(s, w, id);
    }
  }

  lemma SettledIsUnheld(s: State, id: Id)
    requires Owned(s) && id in s.rows && !Unsettled(s.rows[id])
    ensures forall w :: !Holds(s, w, id)
  {
    hide Kept, TriesMatch;
    forall w
      ensures !Holds(s, w, id)
    {
      assert w in s.workers ==> WorkerOwns(s.workers[w], s.rows, s.clock);
    }
  }

  /** What a disciplined run has delivered, no later run changes or sends again, disciplined or not. */
  lemma DeliveredIsFinal(start: State, run: seq<Event>, later: seq<Event>, id: Id)
    requires Initial(start) && DisciplinedRun(start, run) && Feasible(start, run)
    requires Feasible(After(start, run), later)
    requires id in After(start, run).rows && After(start, run).rows[id].status == Delivered
    ensures var end := After(After(start, run), later);
      id in end.rows && end.rows[id] == After(start, run).rows[id]
    ensures NoSendOf(later, id)
  {
    hide Kept, Feasible, DisciplinedRun, After, Initial;
    StartIsOwned(start);
    RunOwned(start, run);
    SettledIsUnheld(After(start, run), id);
    ReleasedRun(After(start, run), later, id);
  }

  /** What a disciplined run has declared dead, only a redrive moves. */
  lemma DeadLeavesOnlyByRetry(start: State, run: seq<Event>, later: seq<Event>, id: Id)
    requires Initial(start) && DisciplinedRun(start, run) && Feasible(start, run)
    requires Feasible(After(start, run), later) && NoRetryOf(later, id)
    requires id in After(start, run).rows && After(start, run).rows[id].status == Dead
    ensures var end := After(After(start, run), later);
      id in end.rows && end.rows[id] == After(start, run).rows[id]
    ensures NoSendOf(later, id)
  {
    hide Kept, Feasible, DisciplinedRun, After, Initial;
    StartIsOwned(start);
    RunOwned(start, run);
    SettledIsUnheld(After(start, run), id);
    ReleasedRun(After(start, run), later, id);
  }

  lemma StartIsOwned(s: State)
    requires Initial(s)
    ensures Owned(s)
  {}
}
