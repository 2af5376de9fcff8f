// Folding several leads into one: values fill blanks, history moves, scores add
// up, and the merged records are soft-deleted.

module Merge {
  import opened Prelude
  import opened FilterDsl
  import opened Timeline
  import opened MergeValues

  // --- rows that change hands ---------------------------------------------------------

  /** A task or a label on a lead. */
  datatype Row = Row(lead: Id, what: Id)

  function Heir(lead: Id, gone: set<Id>, heir: Id): Id { if lead in gone then heir else lead }

  function RowsAfter(rows: seq<Row>, gone: set<Id>, heir: Id): seq<Row> {
    seq(|rows|, i requires 0 <= i < |rows| => rows[i].(lead := Heir(rows[i].lead, gone, heir)))
  }

  function LogAfter(log: seq<Entry>, gone: set<Id>, heir: Id): seq<Entry> {
    seq(|log|, i requires 0 <= i < |log| => log[i].(lead := Heir(log[i].lead, gone, heir)))
  }

  /** Row by row: the same rows in the same order, those of the leads that are gone now the heir's. */
  predicate Inherited(before: seq<Row>, after: seq<Row>, gone: set<Id>, heir: Id) {
    && |after| == |before|
    && (forall i | 0 <= i < |before| :: after[i].what == before[i].what)
    && (forall i | 0 <= i < |before| && before[i].lead in gone :: after[i].lead == heir)
    && (forall i | 0 <= i < |before| && before[i].lead !in gone :: after[i].lead == before[i].lead)
    && (heir !in gone ==> forall i | 0 <= i < |after| :: after[i].lead !in gone)
  }

  predicate LogInherited(before: seq<Entry>, after: seq<Entry>, gone: set<Id>, heir: Id) {
    && |after| == |before|
    && (forall i | 0 <= i < |before| && before[i].lead in gone :: after[i] == before[i].(lead := heir))
    && (forall i | 0 <= i < |before| && before[i].lead !in gone :: after[i] == before[i])
    && (heir !in gone ==> forall i | 0 <= i < |after| :: after[i].lead !in gone)
  }

  lemma MovingIsInheriting(log: seq<Entry>, tasks: seq<Row>, labels: seq<Row>, gone: set<Id>, heir: Id)
    ensures LogInherited(log, LogAfter(log, gone, heir), gone, heir)
    ensures Inherited(tasks, RowsAfter(tasks, gone, heir), gone, heir)
    ensures Inherited(labels, RowsAfter(labels, gone, heir), gone, heir)
  {}

  lemma RowsInTwoSteps(rows: seq<Row>, gone: set<Id>, next: Id, heir: Id)
    requires heir !in gone && heir != next
    ensures RowsAfter(RowsAfter(rows, gone, heir), {next}, heir) == RowsAfter(rows, gone + {next}, heir)
    ensures RowsAfter(rows, {}, heir) == rows
  {}

  lemma LogInTwoSteps(log: seq<Entry>, gone: set<Id>, next: Id, heir: Id)
    requires heir !in gone && heir != next
    ensures LogAfter(LogAfter(log, gone, heir), {next}, heir) == LogAfter(log, gone + {next}, heir)
    ensures LogAfter(log, {}, heir) == log
  {}

  /** Moving one lead's history adds its score to the heir's and leaves it none. */
  lemma {:induction false} ScoreMoves(log: seq<Entry>, from: Id, heir: Id)
    requires from != heir
    ensures forall lead | lead != from && lead != heir ::
      ScoreSum(LogAfter(log, {from}, heir), lead) == ScoreSum(log, lead)
    ensures ScoreSum(LogAfter(log, {from}, heir), heir) == ScoreSum(log, heir) + ScoreSum(log, from)
    ensures ScoreSum(LogAfter(log, {from}, heir), from) == 0
  {
    if log != [] {
      ScoreMoves(log[..|log| - 1], from, heir);
      assert LogAfter(log, {from}, heir)[..|log| - 1] == LogAfter(log[..|log| - 1], {from}, heir);
    }
  }

  lemma {:induction false} FieldEntriesScoreNothing(log: seq<Entry>, lead: Id, changeset: Id, deltas: seq<FieldDelta>,
                                                    now: int)
    ensures forall id :: ScoreSum(log + FieldEntries(lead, changeset, deltas, now), id) == ScoreSum(log, id)
  {
    var entries := FieldEntries(lead, changeset, deltas, now);
    if deltas == [] {
      assert log + entries == log;
    } else {
      var init := deltas[..|deltas| - 1];
      FieldEntriesScoreNothing(log, lead, changeset, init, now);
      assert (log + entries)[..|log + entries| - 1] == log + FieldEntries(lead, changeset, init, now);
    }
  }

  lemma {:induction false} FieldEntriesContact(log: seq<Entry>, lead: Id, changeset: Id, deltas: seq<FieldDelta>,
                                               now: int)
    ensures Latest(log + FieldEntries(lead, changeset, deltas, now), lead)
         == if deltas == [] then Latest(log, lead) else Later(Latest(log, lead), Some(now))
  {
    var entries := FieldEntries(lead, changeset, deltas, now);
    if deltas == [] {
      assert log + entries == log;
    } else {
      var init := deltas[..|deltas| - 1];
      FieldEntriesContact(log, lead, changeset, init, now);
      assert (log + entries)[..|log + entries| - 1] == log + FieldEntries(lead, changeset, init, now);
    }
  }

  ghost predicate NoLaterThan(log: seq<Entry>, leads: set<Id>, bound: Option<int>) {
    forall e | e in log && e.lead in leads :: bound.Some? && e.performedAt <= bound.value
  }

  lemma LogAfterLast(log: seq<Entry>, gone: set<Id>, heir: Id)
    ensures |LogAfter(log, gone, heir)| == |log|
    ensures log != [] ==>
      var last := log[|log| - 1];
      && LogAfter(log, gone, heir)[..|log| - 1] == LogAfter(log[..|log| - 1], gone, heir)
      && LogAfter(log, gone, heir)[|log| - 1] == last.(lead := Heir(last.lead, gone, heir))
  {}

  lemma {:induction false} InheritedContact(log: seq<Entry>, gone: set<Id>, heir: Id, other: Option<int>)
    requires heir !in gone
    ensures var own, all := Latest(log, heir), Latest(LogAfter(log, gone, heir), heir);
      && Later(all, own) == all
      && (Later(own, other) == Later(all, other) <==> NoLaterThan(log, gone, Later(own, other)))
  {
    hide LogAfter;
    LogAfterLast(log, gone, heir);
    if log != [] {
      var init, last := log[..|log| - 1], log[|log| - 1];
      assert log == init + [last];
      if last.lead == heir {
        InheritedContact(init, gone, heir, Later(Some(last.performedAt), other));
      } else {
        InheritedContact(init, gone, heir, other);
      }
    }
  }

  /** A merge does not carry the last contact over: afterwards it is the latest of its starting value
      and the joined history exactly when nothing that moved is later than what the primary then shows. */
  lemma LastContactAfterMerge(start: Option<int>, log: seq<Entry>, gone: set<Id>, heir: Id, changeset: Id,
                              deltas: seq<FieldDelta>, now: int)
    requires heir !in gone
    ensures var before := Later(start, Latest(log, heir));
      var shown := if deltas == [] then before else Later(before, Some(now));
      shown == Later(start, Latest(LogAfter(log, gone, heir) + FieldEntries(heir, changeset, deltas, now), heir))
      <==> NoLaterThan(log, gone, shown)
  {
    hide Later, Latest, LogAfter, FieldEntries, NoLaterThan;
    FieldEntriesContact(LogAfter(log, gone, heir), heir, changeset, deltas, now);
    InheritedContact(log, gone, heir, if deltas == [] then start else Later(start, Some(now)));
    LaterInAnyOrder(start, Latest(log, heir), Some(now));
    LaterInAnyOrder(start, Latest(LogAfter(log, gone, heir), heir), Some(now));
  }

  lemma LaterInAnyOrder(a: Option<int>, b: Option<int>, c: Option<int>)
    ensures Later(a, b) == Later(b, a)
    ensures Later(Later(a, b), c) == Later(b, Later(a, c)) == Later(a, Later(b, c))
  {}

  /** A call logged on the merged record goes unseen by the primary's last contact. */
  lemma LastContactIsLost(call: Entry, heir: Id)
    requires call.lead != heir
    ensures Latest([call], heir) != Latest(LogAfter([call], {call.lead}, heir), heir)
  {}

  // --- the table of leads ---------------------------------------------------------------

  datatype MergeError = MergeWithItself | NothingNamed | NotFound

  function IdsOf(leads: seq<Lead>): set<Id> { set lead | lead in leads :: lead.id }

  ghost predicate DistinctIds(leads: seq<Lead>) {
    forall i, j | 0 <= i < j < |leads| :: leads[i].id != leads[j].id
  }

  ghost function ValuesOf(leads: seq<Lead>): seq<Values>
    reads leads
  {
    seq(|leads|, i requires 0 <= i < |leads| reads leads => leads[i].values)
  }

  ghost function ScoresOf(leads: seq<Lead>): seq<int>
    reads leads
  {
    seq(|leads|, i requires 0 <= i < |leads| reads leads => leads[i].Rolled().Score())
  }

  function Total(scores: seq<int>): int {
    if scores == [] then 0 else Total(scores[..|scores| - 1]) + scores[|scores| - 1]
  }

  lemma NoTotal(scores: seq<int>)
    ensures Total(scores[..0]) == 0
  {}

  lemma TotalNext(scores: seq<int>, k: nat)
    requires k < |scores|
    ensures Total(scores[..k + 1]) == Total(scores[..k]) + scores[k]
  {
    assert scores[..k + 1][..k] == scores[..k];
  }

  lemma {:induction false} OneId(leads: seq<Lead>)
    requires DistinctIds(leads)
    ensures |IdsOf(leads)| == |leads|
  {
    if leads != [] {
      var init, last := leads[..|leads| - 1], leads[|leads| - 1];
      OneId(init);
      assert IdsOf(leads) == IdsOf(init) + {last.id};
      assert last.id !in IdsOf(init);
    }
  }

  /** The three tables that change hands. */
  datatype History = History(log: seq<Entry>, tasks: seq<Row>, labels: seq<Row>) {
    function Moved(gone: set<Id>, heir: Id): History {
      History(LogAfter(log, gone, heir), RowsAfter(tasks, gone, heir), RowsAfter(labels, gone, heir))
    }
  }

  lemma MovedLog(history: History, gone: set<Id>, heir: Id)
    ensures history.Moved(gone, heir).log == LogAfter(history.log, gone, heir)
    ensures |LogAfter(history.log, gone, heir)| == |history.log|
    ensures LogInherited(history.log, history.Moved(gone, heir).log, gone, heir)
    ensures Inherited(history.tasks, history.Moved(gone, heir).tasks, gone, heir)
    ensures Inherited(history.labels, history.Moved(gone, heir).labels, gone, heir)
  {
    MovingIsInheriting(history.log, history.tasks, history.labels, gone, heir);
  }

  lemma MovedNone(history: History, found: seq<Lead>, heir: Id)
    ensures history.Moved(IdsOf(found[..0]), heir) == history
  {
    assert IdsOf(found[..0]) == {};
    LogInTwoSteps(history.log, {}, heir + "x", heir);
    RowsInTwoSteps(history.tasks, {}, heir + "x", heir);
    RowsInTwoSteps(history.labels, {}, heir + "x", heir);
  }

  lemma MovedNext(history: History, found: seq<Lead>, k: nat, heir: Id)
    requires k < |found| && heir !in IdsOf(found)
    ensures history.Moved(IdsOf(found[..k]), heir).Moved({found[k].id}, heir)
         == history.Moved(IdsOf(found[..k + 1]), heir)
  {
    assert found[k] in found && found[k].id != heir;
    assert forall lead | lead in found[..k] :: lead in found;
    assert IdsOf(found[..k + 1]) == IdsOf(found[..k]) + {found[k].id};
    LogInTwoSteps(history.log, IdsOf(found[..k]), found[k].id, heir);
    RowsInTwoSteps(history.tasks, IdsOf(found[..k]), found[k].id, heir);
    RowsInTwoSteps(history.labels, IdsOf(found[..k]), found[k].id, heir);
  }

  /** As many rows as distinct names were found exactly when every name was. */
  lemma AllFound(named: seq<Id>, found: seq<Lead>)
    requires DistinctIds(found) && forall lead | lead in found :: lead.id in named
    ensures var wanted := set id | id in named;
      |found| == |wanted| <==> forall id | id in named :: id in IdsOf(found)
  {
    OneId(found);
    var wanted := set id | id in named;
    assert IdsOf(found) <= wanted;
    SubsetSize(IdsOf(found), wanted);
  }

  /** The rows one workspace holds; `queue` is the outbox. */
  class Workspace {
    const leads: map<Id, Lead>
    var log: seq<Entry>
    var queue: seq<Queued>
    var tasks: seq<Row>
    var labels: seq<Row>

    ghost predicate Valid()
    {
      forall id | id in leads :: leads[id].id == id
    }

    ghost predicate Live(id: Id)
      reads leads.Values
    {
      id in leads && !leads[id].deleted
    }

    ghost function Held(): History
      reads this
    {
      History(log, tasks, labels)
    }

    /** Every live lead's score is the sum of what its actions scored. */
    ghost predicate ScoresAddUp()
      reads this, leads.Values
    {
      forall id | Live(id) :: leads[id].Rolled().Score() == ScoreSum(log, id)
    }

    /** What the query for the named live leads returns; their order is the database's. */
    ghost predicate Answers(named: seq<Id>, found: seq<Lead>)
      reads leads.Values
    {
      && DistinctIds(found)
      && (forall lead | lead in found :: lead.id in named && Live(lead.id) && leads[lead.id] == lead)
      && (forall id | id in named && Live(id) :: id in IdsOf(found))
    }

    /** Moves one lead's history and score to the primary and soft-deletes it. */
    method TakeOver(primary: Lead, other: Lead)
      requires Valid() && primary.id in leads && leads[primary.id] == primary
      requires other.id in leads && leads[other.id] == other
      requires primary != other
      modifies this`log, this`tasks, this`labels, primary`score, other`deleted
      ensures Held() == old(Held()).Moved({other.id}, primary.id)
      ensures LogInherited(old(log), log, {other.id}, primary.id)
      ensures Inherited(old(tasks), tasks, {other.id}, primary.id)
        && Inherited(old(labels), labels, {other.id}, primary.id)
      ensures other.deleted
      ensures primary.Rolled().Score() == old(primary.Rolled().Score()) + old(other.Rolled().Score())
      ensures old(ScoresAddUp()) && !primary.deleted && !old(other.deleted) ==> ScoresAddUp()
    {
      hide LogAfter, RowsAfter, ScoreSum, Inherited, LogInherited;
      MovingIsInheriting(log, tasks, labels, {other.id}, primary.id);
      ScoreMoves(log, other.id, primary.id);
      log := LogAfter(log, {other.id}, primary.id);
      tasks := RowsAfter(tasks, {other.id}, primary.id);
      labels := RowsAfter(labels, {other.id}, primary.id);
      other.deleted := true;
      if other.score.Some? && other.score.value != 0 {
        primary.score := Some((if primary.score.Some? then primary.score.value else 0) + other.score.value);
      }
    }

    /** Everything a successful merge changes, and what it leaves alone. */
    twostate predicate Merged(primary: Lead, found: seq<Lead>, changeset: Id, endpoints: seq<Endpoint>, now: int,
                              deltas: seq<FieldDelta>)
      reads this, leads.Values, primary, found
    {
      && ValuesFolded(old(primary.values), old(ValuesOf(found)), primary.values, deltas)
      && FoldedIn(primary, found)
      && primary.lastActionAt
         == (if deltas == [] then old(primary.lastActionAt) else Later(old(primary.lastActionAt), Some(now)))
      && Held() == (var history := old(Held()).Moved(IdsOf(found), primary.id);
                    history.(log := history.log + FieldEntries(primary.id, changeset, deltas, now)))
      && QueueKeptUp(old(queue), queue, FieldEntries(primary.id, changeset, deltas, now), endpoints)
    }

    /** Every entry, task and label of the merged records is the primary's now, and the rest is as it was. */
    twostate predicate HistoryInherited(primary: Lead, found: seq<Lead>)
      reads this
    {
      && |log| >= |old(log)| && LogInherited(old(log), log[..|old(log)|], IdsOf(found), primary.id)
      && Inherited(old(tasks), tasks, IdsOf(found), primary.id)
      && Inherited(old(labels), labels, IdsOf(found), primary.id)
    }

    twostate predicate FoldedIn(primary: Lead, found: seq<Lead>)
      reads this, leads.Values, primary, found
    {
      && !primary.deleted
      && primary.Rolled().Score() == old(primary.Rolled().Score()) + Total(old(ScoresOf(found)))
      && (forall lead | lead in found ::
        lead.deleted && lead.values == old(lead.values) && lead.Rolled() == old(lead.Rolled()))
      && (forall lead | lead in leads.Values && lead != primary && lead !in found :: unchanged(lead))
    }

    /** The loop over the merged records. */
    method FoldIn(primary: Lead, found: seq<Lead>) returns (merged: Values, deltas: seq<FieldDelta>)
      requires Valid() && Live(primary.id) && leads[primary.id] == primary && primary.id !in IdsOf(found)
      requires forall i | 0 <= i < |found| ::
        found[i].id in leads && leads[found[i].id] == found[i] && !found[i].deleted && found[i] != primary
      requires forall i, j | 0 <= i < j < |found| :: found[i] != found[j]
      modifies this`log, this`tasks, this`labels, primary`score, found`deleted
      ensures ValuesFolded(primary.values, old(ValuesOf(found)), merged, deltas)
      ensures Held() == old(Held()).Moved(IdsOf(found), primary.id)
      ensures primary.Rolled().Score() == old(primary.Rolled().Score()) + Total(old(ScoresOf(found)))
      ensures forall lead | lead in found :: lead.deleted
      ensures !primary.deleted
      ensures old(ScoresAddUp()) ==> ScoresAddUp()
    {
      hide ValuesFolded, History.Moved, ScoresAddUp, Total, IdsOf, Inherited, LogInherited;
      ghost var start, sources, scores, history := primary.values, ValuesOf(found), ScoresOf(found), Held();
      merged, deltas := primary.values, [];
      NothingFolded(start);
      MovedNone(history, found, primary.id);
      assert Total(scores[..0]) == 0 by { NoTotal(scores); }
      for k := 0 to |found|
        invariant ValuesFolded(start, sources[..k], merged, deltas)
        invariant Held() == history.Moved(IdsOf(found[..k]), primary.id)
        invariant primary.Rolled().Score() == old(primary.Rolled().Score()) + Total(scores[..k])
        invariant !primary.deleted
        invariant forall i | 0 <= i < k :: found[i].deleted
        invariant forall i | k <= i < |found| :: !found[i].deleted
        invariant old(ScoresAddUp()) ==> ScoresAddUp()
      {
        merged, deltas := FillFrom(primary.values, sources[..k], merged, deltas, found[k].values);
        assert sources[..k + 1] == sources[..k] + [sources[k]];
        TakeOver(primary, found[k]);
        TotalNext(scores, k);
        MovedNext(history, found, k, primary.id);
      }
      assert found[..|found|] == found && sources[..|found|] == sources && scores[..|found|] == scores;
    }

    /** Writes the merged values and one logged change for each filled field. */
    method LogFills(primary: Lead, merged: Values, deltas: seq<FieldDelta>, changeset: Id, endpoints: seq<Endpoint>,
                    now: int)
      requires Valid() && DistinctEndpoints(endpoints) && primary in leads.Values
      modifies this`log, this`queue, primary`values, primary`score, primary`lastActionAt
      ensures primary.values == merged && primary.score == old(primary.score)
      ensures primary.lastActionAt
           == (if deltas == [] then old(primary.lastActionAt) else Later(old(primary.lastActionAt), Some(now)))
      ensures log == old(log) + FieldEntries(primary.id, changeset, deltas, now)
      ensures QueueKeptUp(old(queue), queue, FieldEntries(primary.id, changeset, deltas, now), endpoints)
      ensures old(ScoresAddUp()) ==> ScoresAddUp()
    {
      hide QueueKeptUp, DistinctEndpoints, ScoreSum;
      NothingQueued(queue, endpoints);
      primary.values := merged;
      if deltas != [] {
        var writer := new ActionWriter(changeset, endpoints, log);
        writer.RecordFieldChanges(primary, deltas, now);
        FieldEntriesScoreNothing(log, primary.id, changeset, deltas, now);
        JoinsQueue(queue, writer.queue, FieldEntries(primary.id, changeset, deltas, now), endpoints);
        log, queue := writer.log, queue + writer.queue;
      }
    }

    /** The primary's last contact after a merge, whatever value it started from. */
    twostate predicate ContactAsFarAsShown(primary: Lead, found: seq<Lead>)
      reads this, primary
    {
      forall start | old(primary.lastActionAt) == Later(start, Latest(old(log), primary.id)) ::
        primary.lastActionAt == Later(start, Latest(log, primary.id))
        <==> NoLaterThan(old(log), IdsOf(found), primary.lastActionAt)
    }

    /** `found` is the answer of the query for the named leads. */
    method Merge(primaryId: Id, named: seq<Id>, found: seq<Lead>, changeset: Id, endpoints: seq<Endpoint>, now: int)
      returns (outcome: Result<seq<FieldDelta>, MergeError>)
      requires Valid() && Answers(named, found) && DistinctEndpoints(endpoints)
      modifies this`log, this`queue, this`tasks, this`labels
      modifies leads.Values`values, leads.Values`score, leads.Values`lastActionAt, leads.Values`deleted
      ensures outcome == Fail(MergeWithItself) <==> primaryId in named
      ensures outcome == Fail(NothingNamed) <==> named == []
      ensures outcome == Fail(NotFound) <==>
        primaryId !in named && named != [] && (!old(Live(primaryId)) || exists id :: id in named && !old(Live(id)))
      ensures outcome.Fail? ==> unchanged(this) && forall lead | lead in leads.Values :: unchanged(lead)
      ensures outcome.Ok? ==> Merged(leads[primaryId], found, changeset, endpoints, now, outcome.value)
      ensures outcome.Ok? ==> HistoryInherited(leads[primaryId], found)
      ensures outcome.Ok? ==> ContactAsFarAsShown(leads[primaryId], found)
      ensures old(ScoresAddUp()) ==> ScoresAddUp()
    {
      hide ValuesFolded, History.Moved, FieldEntries, ScoresAddUp, Total, DistinctEndpoints, QueueKeptUp,
           Later, Latest, LogAfter, NoLaterThan, Inherited, LogInherited;
      if primaryId in named {
        return Fail(MergeWithItself);
      }
      if named == [] {
        return Fail(NothingNamed);
      }
      if primaryId !in leads || leads[primaryId].deleted {
        return Fail(NotFound);
      }
      var wanted := set id | id in named;
      AllFound(named, found);
      if |found| != |wanted| {
        return Fail(NotFound);
      }
      var primary := leads[primaryId];
      var merged, deltas := FoldIn(primary, found);
      LogFills(primary, merged, deltas, changeset, endpoints, now);
      MovedLog(old(Held()), IdsOf(found), primaryId);
      assert log[..|old(log)|] == LogAfter(old(log), IdsOf(found), primaryId);
      assert log == LogAfter(old(log), IdsOf(found), primaryId) + FieldEntries(primaryId, changeset, deltas, now);
      forall start | old(primary.lastActionAt) == Later(start, Latest(old(log), primaryId))
        ensures primary.lastActionAt == Later(start, Latest(log, primaryId))
           <==> NoLaterThan(old(log), IdsOf(found), primary.lastActionAt)
      {
        LastContactAfterMerge(start, old(log), IdsOf(found), primaryId, changeset, deltas, now);
      }
      return Ok(deltas);
    }
  }
}
