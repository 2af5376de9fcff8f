// A member's open pipeline, and handing it to somebody else as one batch that
// the action log can undo.

module LeadOwnership {
  import opened Prelude
  import opened FilterDsl
  import opened Timeline
  import opened Merge
  import Sql = FilterSql

  datatype StageKind = OpenStage | Won | Lost

  type Stages = map<Id, StageKind>

  // --- the query --------------------------------------------------------------------

  function ClosedStages(stages: Stages): set<Id> { set id | id in stages && stages[id] in {Won, Lost} }

  /** `x NOT IN (subquery)`: unknown for a null unless the subquery is empty. */
  function NotIn(x: Option<Id>, among: set<Id>): Sql.Truth {
    if among == {} then Sql.Yes else if x.None? then Sql.Unknown else Sql.Known(x.value !in among)
  }

  function BareNotIn(assignee: Option<Id>, deleted: bool, stage: Option<Id>, stages: Stages, member: Id): Sql.Truth {
    Sql.TruthAnd(Sql.TruthAnd(Sql.OptionEquals(assignee, member), Sql.Known(!deleted)),
                 NotIn(stage, ClosedStages(stages)))
  }

  function OpenSql(assignee: Option<Id>, deleted: bool, stage: Option<Id>, stages: Stages, member: Id): Sql.Truth {
    Sql.TruthAnd(Sql.TruthAnd(Sql.OptionEquals(assignee, member), Sql.Known(!deleted)),
                 Sql.TruthOr(Sql.Known(stage.None?), NotIn(stage, ClosedStages(stages))))
  }

  /** Still pipeline for the member: theirs, not deleted, and not parked in a won or lost stage. */
  predicate IsOpen(assignee: Option<Id>, deleted: bool, stage: Option<Id>, stages: Stages, member: Id) {
    && assignee == Some(member) && !deleted
    && !(stage.Some? && stage.value in stages && stages[stage.value] != OpenStage)
  }

  lemma StageIsClosed(stage: Option<Id>, stages: Stages)
    ensures stage.Some? ==>
      (stage.value in ClosedStages(stages) <==> stage.value in stages && stages[stage.value] != OpenStage)
  {}

  /** The query selects exactly the open leads, those without a stage included. */
  lemma QueryMeansOpen(assignee: Option<Id>, deleted: bool, stage: Option<Id>, stages: Stages, member: Id)
    ensures OpenSql(assignee, deleted, stage, stages, member) == Sql.Yes
       <==> IsOpen(assignee, deleted, stage, stages, member)
  {
    StageIsClosed(stage, stages);
  }

  /** Without its null test it would miss the stageless ones as soon as there is a closed stage. */
  lemma NullTestIsNeeded(stages: Stages, assignee: Option<Id>, deleted: bool, stage: Option<Id>, member: Id)
    ensures BareNotIn(assignee, deleted, stage, stages, member) == Sql.Yes
       <==> IsOpen(assignee, deleted, stage, stages, member) && (stage.Some? || ClosedStages(stages) == {})
  {
    StageIsClosed(stage, stages);
  }

  /** The three columns of a lead that the query reads. */
  datatype Seat = Seat(assignee: Option<Id>, deleted: bool, stage: Option<Id>)

  type Seats = map<Id, Seat>

  predicate IsOpenFor(seat: Seat, stages: Stages, member: Id) {
    IsOpen(seat.assignee, seat.deleted, seat.stage, stages, member)
  }

  function OpenAmong(seats: Seats, stages: Stages, member: Id): set<Id> {
    set id | id in seats && IsOpenFor(seats[id], stages, member)
  }

  function Reseated(seats: Seats, moved: set<Id>, to: Id): Seats {
    map id | id in seats :: if id in moved then seats[id].(assignee := Some(to)) else seats[id]
  }

  lemma OneSeatMoves(seat: Seat, stages: Stages, from: Id, to: Id, member: Id)
    requires from != to
    ensures IsOpenFor(seat, stages, from) ==> !IsOpenFor(seat, stages, to)
    ensures IsOpenFor(seat, stages, from) ==> (IsOpenFor(seat.(assignee := Some(to)), stages, member) <==> member == to)
  {}

  /** Handing over a member's open leads empties their pipeline into the other's and touches no third. */
  lemma PipelineMoves(seats: Seats, stages: Stages, from: Id, to: Id)
    requires from != to
    ensures var moved := OpenAmong(seats, stages, from);
      var after := Reseated(seats, moved, to);
      && OpenAmong(after, stages, from) == {}
      && OpenAmong(after, stages, to) == OpenAmong(seats, stages, to) + moved
      && |OpenAmong(after, stages, to)| == |OpenAmong(seats, stages, to)| + |moved|
      && forall member | member != from && member != to ::
        OpenAmong(after, stages, member) == OpenAmong(seats, stages, member)
  {
    hide IsOpen;
    var moved := OpenAmong(seats, stages, from);
    forall id, member | id in seats
      ensures IsOpenFor(Reseated(seats, moved, to)[id], stages, member)
         <==> if id in moved then member == to else IsOpenFor(seats[id], stages, member)
    {
      OneSeatMoves(seats[id], stages, from, to, member);
    }
    forall id | id in seats
      ensures !(id in moved && id in OpenAmong(seats, stages, to))
    {
      OneSeatMoves(seats[id], stages, from, to, to);
    }
    assert OpenAmong(seats, stages, to) !! moved;
    assert OpenAmong(Reseated(seats, moved, to), stages, to) == OpenAmong(seats, stages, to) + moved;
    assert OpenAmong(Reseated(seats, moved, to), stages, from) == {};
    forall member | member != from && member != to
      ensures OpenAmong(Reseated(seats, moved, to), stages, member) == OpenAmong(seats, stages, member)
    {
      forall id | id in moved
        ensures !IsOpenFor(seats[id], stages, member)
      {
        OneSeatMoves(seats[id], stages, from, member, to);
      }
    }
  }

  ghost function SeatsOf(w: Workspace): Seats
    reads w.leads.Values
  {
    map id | id in w.leads :: var lead := w.leads[id]; Seat(lead.assignee, lead.deleted, lead.stage)
  }

  ghost function OpenIds(w: Workspace, stages: Stages, member: Id): set<Id>
    reads w.leads.Values
  {
    OpenAmong(SeatsOf(w), stages, member)
  }

  /** The query's answer, in the database's order. */
  ghost predicate OpenAnswer(w: Workspace, stages: Stages, member: Id, found: seq<Lead>)
    reads w.leads.Values, found
  {
    && Rows(w, found)
    && (forall id | id in w.leads ::
          var lead := w.leads[id];
          OpenSql(lead.assignee, lead.deleted, lead.stage, stages, member) == Sql.Yes <==> id in IdsOf(found))
  }

  // --- what the log says ---------------------------------------------------------------

  type Assignees = map<Id, Option<Id>>

  function AssigneesIn(seats: Seats): Assignees { map id | id in seats :: seats[id].assignee }

  function Mentioned(payload: map<string, Json>, key: string): Option<Id> {
    if key in payload && payload[key].Str? then Some(payload[key].text) else None
  }

  function Undo(assignees: Assignees, entries: seq<Entry>): Assignees
    decreases |entries|
  {
    if entries == [] then assignees
    else
      var last := entries[|entries| - 1];
      Undo(assignees[last.lead := Mentioned(last.payload, "old_assignee_id")], entries[..|entries| - 1])
  }

  function Redo(assignees: Assignees, entries: seq<Entry>): Assignees {
    if entries == [] then assignees
    else
      var last := entries[|entries| - 1];
      Redo(assignees, entries[..|entries| - 1])[last.lead := Mentioned(last.payload, "new_assignee_id")]
  }

  function Handovers(leads: seq<Id>, changeset: Id, from: Id, to: Id, now: int): seq<Entry> {
    seq(|leads|, i requires 0 <= i < |leads| => AssignmentEntry(leads[i], changeset, Some(from), Some(to), now))
  }

  function HandedOver(before: Assignees, leads: seq<Id>, to: Id): Assignees {
    map id | id in before :: if id in leads then Some(to) else before[id]
  }

  lemma HandoversLast(leads: seq<Id>, changeset: Id, from: Id, to: Id, now: int)
    ensures |Handovers(leads, changeset, from, to, now)| == |leads|
    ensures leads != [] ==>
      var k := |leads| - 1;
      var entries := Handovers(leads, changeset, from, to, now);
      && entries[..k] == Handovers(leads[..k], changeset, from, to, now)
      && entries[k].lead == leads[k]
      && Mentioned(entries[k].payload, "old_assignee_id") == Some(from)
      && Mentioned(entries[k].payload, "new_assignee_id") == Some(to)
  {}

  lemma HandedOverLast(before: Assignees, leads: seq<Id>, from: Id, to: Id)
    requires forall i | 0 <= i < |leads| :: leads[i] in before && before[leads[i]] == Some(from)
    requires forall i, j | 0 <= i < j < |leads| :: leads[i] != leads[j]
    ensures leads == [] ==> HandedOver(before, leads, to) == before
    ensures leads != [] ==>
      var k := |leads| - 1;
      && HandedOver(before, leads, to) == HandedOver(before, leads[..k], to)[leads[k] := Some(to)]
      && HandedOver(before, leads, to)[leads[k] := Some(from)] == HandedOver(before, leads[..k], to)
  {
    if leads != [] {
      assert leads == leads[..|leads| - 1] + [leads[|leads| - 1]];
    }
  }

  /** The batch's log entries lead from the old assignees to the new ones and back. */
  lemma {:induction false} HandoverIsLogged(before: Assignees, leads: seq<Id>, changeset: Id, from: Id, to: Id,
                                            now: int)
    requires forall i | 0 <= i < |leads| :: leads[i] in before && before[leads[i]] == Some(from)
    requires forall i, j | 0 <= i < j < |leads| :: leads[i] != leads[j]
    ensures Redo(before, Handovers(leads, changeset, from, to, now)) == HandedOver(before, leads, to)
    ensures Undo(HandedOver(before, leads, to), Handovers(leads, changeset, from, to, now)) == before
  {
    hide Handovers, HandedOver, Mentioned;
    HandoversLast(leads, changeset, from, to, now);
    HandedOverLast(before, leads, from, to);
    if leads != [] {
      HandoverIsLogged(before, leads[..|leads| - 1], changeset, from, to, now);
    }
  }

  ghost predicate Rows(w: Workspace, found: seq<Lead>) {
    && (forall i, j | 0 <= i < j < |found| :: found[i].id != found[j].id)
    && (forall i | 0 <= i < |found| :: found[i].id in w.leads && w.leads[found[i].id] == found[i])
  }

  ghost function IdSeq(found: seq<Lead>): seq<Id> { seq(|found|, i requires 0 <= i < |found| => found[i].id) }

  lemma IdSeqSet(found: seq<Lead>)
    requires forall i, j | 0 <= i < j < |found| :: found[i].id != found[j].id
    ensures forall id :: id in IdSeq(found) <==> id in IdsOf(found)
    ensures |IdsOf(found)| == |found|
  {
    OneId(found);
    forall id | id in IdsOf(found)
      ensures id in IdSeq(found)
    {
      var i :| 0 <= i < |found| && found[i].id == id;
      assert IdSeq(found)[i] == id;
    }
    forall id | id in IdSeq(found)
      ensures id in IdsOf(found)
    {
      var i :| 0 <= i < |found| && IdSeq(found)[i] == id;
      assert found[i] in found;
    }
  }

  lemma HandoversGrow(leads: seq<Id>, k: nat, changeset: Id, from: Id, to: Id, now: int)
    requires k < |leads|
    ensures Handovers(leads[..k + 1], changeset, from, to, now)
         == Handovers(leads[..k], changeset, from, to, now)
           + [AssignmentEntry(leads[k], changeset, Some(from), Some(to), now)]
  {}

  lemma {:induction false} HandoversScoreNothing(log: seq<Entry>, leads: seq<Id>, changeset: Id, from: Id, to: Id,
                                                 now: int)
    ensures forall id :: ScoreSum(log + Handovers(leads, changeset, from, to, now), id) == ScoreSum(log, id)
  {
    if leads == [] {
      assert log + Handovers(leads, changeset, from, to, now) == log;
    } else {
      var k := |leads| - 1;
      HandoversScoreNothing(log, leads[..k], changeset, from, to, now);
      HandoversGrow(leads, k, changeset, from, to, now);
      assert leads[..k + 1] == leads;
      ExtendLog(log + Handovers(leads[..k], changeset, from, to, now),
                AssignmentEntry(leads[k], changeset, Some(from), Some(to), now));
      assert log + Handovers(leads, changeset, from, to, now)
          == (log + Handovers(leads[..k], changeset, from, to, now))
            + [AssignmentEntry(leads[k], changeset, Some(from), Some(to), now)];
    }
  }

  /** The loop over the query's answer. */
  method HandOver(w: Workspace, from: Id, to: Id, found: seq<Lead>, changeset: Id, endpoints: seq<Endpoint>, now: int)
    requires w.Valid() && Rows(w, found) && DistinctEndpoints(endpoints)
    requires forall i | 0 <= i < |found| :: found[i].assignee == Some(from)
    modifies w`log, w`queue, found`assignee, found`score, found`lastActionAt
    ensures w.log == old(w.log) + Handovers(IdSeq(found), changeset, from, to, now)
    ensures forall i | 0 <= i < |found| :: found[i].assignee == Some(to) && found[i].score == old(found[i].score)
    ensures forall i | 0 <= i < |found| :: found[i].lastActionAt == Later(old(found[i].lastActionAt), Some(now))
    ensures QueueKeptUp(old(w.queue), w.queue, Handovers(IdSeq(found), changeset, from, to, now), endpoints)
  {
    hide Handovers, QueueKeptUp, DistinctEndpoints;
    ghost var ids := IdSeq(found);
    var writer := new ActionWriter(changeset, endpoints, w.log);
    NoHandovers(changeset, from, to, now);
    NothingQueued([], endpoints);
    for k := 0 to |found|
      invariant w.queue == old(w.queue)
      invariant writer.endpoints == endpoints && writer.changeset == changeset
      invariant writer.log == old(w.log) + Handovers(ids[..k], changeset, from, to, now)
      invariant forall i | 0 <= i < k :: found[i].assignee == Some(to)
      invariant forall i | k <= i < |found| :: found[i].assignee == Some(from)
      invariant QueueKeptUp([], writer.queue, Handovers(ids[..k], changeset, from, to, now), endpoints)
      invariant forall i | 0 <= i < |found| :: found[i].score == old(found[i].score)
      invariant forall i | 0 <= i < k :: found[i].lastActionAt == Later(old(found[i].lastActionAt), Some(now))
      invariant forall i | k <= i < |found| :: found[i].lastActionAt == old(found[i].lastActionAt)
    {
      ghost var sent := writer.queue;
      HandoversGrow(ids, k, changeset, from, to, now);
      writer.RecordAssignmentChange(found[k], found[k].assignee, Some(to), now);
      KeepsUp([], sent, writer.queue, Handovers(ids[..k], changeset, from, to, now),
              [AssignmentEntry(ids[k], changeset, Some(from), Some(to), now)], endpoints);
      found[k].assignee := Some(to);
    }
    assert ids[..|found|] == ids;
    JoinsQueue(w.queue, writer.queue, Handovers(ids, changeset, from, to, now), endpoints);
    w.log, w.queue := writer.log, w.queue + writer.queue;
  }

  lemma NoHandovers(changeset: Id, from: Id, to: Id, now: int)
    ensures Handovers([], changeset, from, to, now) == []
  {}

  /** What the loop did to the table as a whole. */
  method HandOverRows(w: Workspace, from: Id, to: Id, found: seq<Lead>, changeset: Id, endpoints: seq<Endpoint>,
                      now: int)
    requires w.Valid() && Rows(w, found) && DistinctEndpoints(endpoints)
    requires forall i | 0 <= i < |found| :: found[i].assignee == Some(from)
    modifies w`log, w`queue, w.leads.Values`assignee, w.leads.Values`score, w.leads.Values`lastActionAt
    ensures w.log == old(w.log) + Handovers(IdSeq(found), changeset, from, to, now)
    ensures SeatsOf(w) == Reseated(old(SeatsOf(w)), IdsOf(found), to)
    ensures forall id | id in w.leads && id !in IdsOf(found) :: unchanged(w.leads[id])
    ensures forall id | id in w.leads && id in IdsOf(found) ::
      w.leads[id].score == old(w.leads[id].score)
        && w.leads[id].lastActionAt == Later(old(w.leads[id].lastActionAt), Some(now))
    ensures old(w.ScoresAddUp()) ==> w.ScoresAddUp()
    ensures QueueKeptUp(old(w.queue), w.queue, Handovers(IdSeq(found), changeset, from, to, now), endpoints)
  {
    hide Handovers, ScoreSum, DistinctEndpoints, QueueKeptUp;
    HandoversScoreNothing(w.log, IdSeq(found), changeset, from, to, now);
    HandOver(w, from, to, found, changeset, endpoints, now);
  }

  /** Moves the open pipeline of one member to another in one changeset. */
  method ReassignOpenLeads(w: Workspace, stages: Stages, from: Id, to: Id, found: seq<Lead>,
                           changeset: Id, endpoints: seq<Endpoint>, now: int) returns (moved: nat)
    requires w.Valid() && OpenAnswer(w, stages, from, found) && DistinctEndpoints(endpoints)
    modifies w`log, w`queue, w.leads.Values`assignee, w.leads.Values`score, w.leads.Values`lastActionAt
    ensures moved == |old(OpenIds(w, stages, from))|
    ensures moved == 0 ==> unchanged(w)
    ensures SeatsOf(w) == Reseated(old(SeatsOf(w)), old(OpenIds(w, stages, from)), to)
    ensures from != to ==>
      OpenIds(w, stages, from) == {} && |OpenIds(w, stages, to)| == |old(OpenIds(w, stages, to))| + moved
    ensures forall id | id in w.leads && id !in old(OpenIds(w, stages, from)) :: unchanged(w.leads[id])
    ensures forall id | id in old(OpenIds(w, stages, from)) ::
      w.leads[id].score == old(w.leads[id].score)
        && w.leads[id].lastActionAt == Later(old(w.leads[id].lastActionAt), Some(now))
    ensures old(w.log) <= w.log && |w.log| == |old(w.log)| + moved
    ensures QueueKeptUp(old(w.queue), w.queue, w.log[|old(w.log)|..], endpoints)
    ensures Redo(AssigneesIn(old(SeatsOf(w))), w.log[|old(w.log)|..]) == AssigneesIn(SeatsOf(w))
    ensures Undo(AssigneesIn(SeatsOf(w)), w.log[|old(w.log)|..]) == AssigneesIn(old(SeatsOf(w)))
    ensures old(w.ScoresAddUp()) ==> w.ScoresAddUp()
  {
    hide OpenAmong, AssigneesIn, Handovers, Redo, Undo, OpenSql, ScoreSum, DistinctEndpoints, Reseated,
         OpenAnswer, IdsOf, IdSeq, QueueKeptUp;
    NothingQueued(w.queue, endpoints);
    FoundIsOpen(w, stages, from, found);
    ghost var seats := SeatsOf(w);
    BatchIsLogged(w.log, seats, found, changeset, from, to, now);
    if found != [] {
      HandOverRows(w, from, to, found, changeset, endpoints, now);
    }
    assert w.log[|old(w.log)|..] == Handovers(IdSeq(found), changeset, from, to, now);
    if from != to {
      PipelineMoves(seats, stages, from, to);
    }
    return |found|;
  }

  lemma BatchIsLogged(log: seq<Entry>, seats: Seats, found: seq<Lead>, changeset: Id, from: Id, to: Id, now: int)
    requires forall i | 0 <= i < |found| :: found[i].id in seats && seats[found[i].id].assignee == Some(from)
    requires forall i, j | 0 <= i < j < |found| :: found[i].id != found[j].id
    ensures var entries := Handovers(IdSeq(found), changeset, from, to, now);
      && |log + entries| == |log| + |found|
      && (log + entries)[|log|..] == entries
      && var after := Reseated(seats, IdsOf(found), to);
      && (found == [] ==> entries == [] && after == seats)
      && Redo(AssigneesIn(seats), entries) == AssigneesIn(after)
      && Undo(AssigneesIn(after), entries) == AssigneesIn(seats)
  {
    var ids := IdSeq(found);
    IdSeqSet(found);
    HandoverIsLogged(AssigneesIn(seats), ids, changeset, from, to, now);
    assert HandedOver(AssigneesIn(seats), ids, to) == AssigneesIn(Reseated(seats, IdsOf(found), to));
    if found == [] {
      assert Reseated(seats, IdsOf(found), to) == seats;
    }
  }

  lemma FoundIsOpen(w: Workspace, stages: Stages, member: Id, found: seq<Lead>)
    requires w.Valid() && OpenAnswer(w, stages, member, found)
    ensures Rows(w, found) && IdsOf(found) == OpenIds(w, stages, member) && |IdsOf(found)| == |found|
    ensures OpenIds(w, stages, member) <= w.leads.Keys && (found == [] ==> OpenIds(w, stages, member) == {})
    ensures forall i | 0 <= i < |found| :: found[i].assignee == Some(member)
  {
    IdSeqSet(found);
    forall id | id in w.leads
      ensures id in IdsOf(found) <==> id in OpenIds(w, stages, member)
    {
      var lead := w.leads[id];
      QueryMeansOpen(lead.assignee, lead.deleted, lead.stage, stages, member);
    }
    forall i | 0 <= i < |found|
      ensures found[i].assignee == Some(member)
    {
      assert found[i] in found;
    }
  }
}
