// The action log: appending actions, the rollups kept on the lead, and the
// outbound events queued with each action.

module Timeline {
  import opened Prelude
  import opened FilterDsl

  datatype Entry = Entry(
    lead: Id, changeset: Id, kind: ActionKind, actionType: Option<Id>, payload: map<string, Json>, body: Option<string>,
    scoreApplied: int, performedAt: int)

  /** The two denormalised columns. */
  datatype Rollup = Rollup(score: Option<int>, lastActionAt: Option<int>) {
    function Score(): int { if score.None? then 0 else score.value }
  }

  datatype Endpoint = Endpoint(id: Id, events: set<string>)

  datatype Queued = Queued(
    endpoint: Id, event: string, lead: Id, changeset: Id, payload: map<string, Json>,
    occurredAt: int, nextAttemptAt: int)

  function EventFor(kind: ActionKind): string {
    match kind
    case LeadCreated => "lead.created"
    case FieldChange => "lead.field_changed"
    case StageChange => "lead.stage_changed"
    case AssignmentChange => "lead.assigned"
    case RatingChange => "lead.updated"
    case TaskCreated => "task.created"
    case TaskCompleted => "task.completed"
    case _ => "action.created"
  }

  /** The same table read the other way: which kinds an event name stands for. */
  predicate Names(event: string, kind: ActionKind) {
    if event == "lead.created" then kind == LeadCreated
    else if event == "lead.field_changed" then kind == FieldChange
    else if event == "lead.stage_changed" then kind == StageChange
    else if event == "lead.assigned" then kind == AssignmentChange
    else if event == "lead.updated" then kind == RatingChange
    else if event == "task.created" then kind == TaskCreated
    else if event == "task.completed" then kind == TaskCompleted
    else event == "action.created" && kind in {Note, CallLogged, WhatsappSent, EmailSent, SmsSent, Custom}
  }

  lemma OneName(event: string, kind: ActionKind)
    ensures Names(event, kind) <==> event == EventFor(kind)
  {}

  /** An empty subscription list means everything. */
  predicate Subscribes(endpoint: Endpoint, event: string) { endpoint.events == {} || event in endpoint.events }

  // --- what the rollups stand for --------------------------------------------------

  function ScoreSum(log: seq<Entry>, lead: Id): int {
    if log == [] then 0
    else ScoreSum(log[..|log| - 1], lead) + (if log[|log| - 1].lead == lead then log[|log| - 1].scoreApplied else 0)
  }

  function Later(a: Option<int>, b: Option<int>): Option<int> {
    if a.None? then b else if b.None? then a else Some(Max(a.value, b.value))
  }

  function Latest(log: seq<Entry>, lead: Id): Option<int> {
    if log == [] then None
    else
      var last := log[|log| - 1];
      Later(Latest(log[..|log| - 1], lead), if last.lead == lead then Some(last.performedAt) else None)
  }

  /** An endpoint's rows of the queue, in order. */
  function RowsOf(queue: seq<Queued>, endpoint: Id): seq<Queued> {
    if queue == [] then []
    else
      var last := queue[|queue| - 1];
      RowsOf(queue[..|queue| - 1], endpoint) + (if last.endpoint == endpoint then [last] else [])
  }

  /** How an action is announced to an endpoint: due from the moment it was performed. */
  function Announced(e: Entry, endpoint: Id): Queued {
    Queued(endpoint, EventFor(e.kind), e.lead, e.changeset, e.payload, e.performedAt, e.performedAt)
  }

  function AnnouncedIfWanted(e: Entry, endpoint: Endpoint): seq<Queued> {
    if Subscribes(endpoint, EventFor(e.kind)) then [Announced(e, endpoint.id)] else []
  }

  /** One row for each action the endpoint subscribes to, in the order of the log. */
  function Announcements(log: seq<Entry>, endpoint: Endpoint): seq<Queued> {
    if log == [] then []
    else Announcements(log[..|log| - 1], endpoint) + AnnouncedIfWanted(log[|log| - 1], endpoint)
  }

  lemma {:induction false} RowsOfConcat(a: seq<Queued>, b: seq<Queued>, endpoint: Id)
    ensures RowsOf(a + b, endpoint) == RowsOf(a, endpoint) + RowsOf(b, endpoint)
  {
    if b == [] {
      assert a + b == a;
    } else {
      RowsOfConcat(a, b[..|b| - 1], endpoint);
      assert (a + b)[..|a + b| - 1] == a + b[..|b| - 1];
    }
  }

  lemma {:induction false} AnnouncementsConcat(a: seq<Entry>, b: seq<Entry>, endpoint: Endpoint)
    ensures Announcements(a + b, endpoint) == Announcements(a, endpoint) + Announcements(b, endpoint)
  {
    hide AnnouncedIfWanted;
    if b == [] {
      assert a + b == a;
    } else {
      AnnouncementsConcat(a, b[..|b| - 1], endpoint);
      assert (a + b)[..|a + b| - 1] == a + b[..|b| - 1];
    }
  }

  lemma ExtendLog(log: seq<Entry>, e: Entry)
    ensures forall lead ::
      ScoreSum(log + [e], lead) == ScoreSum(log, lead) + (if e.lead == lead then e.scoreApplied else 0)
    ensures forall lead ::
      Latest(log + [e], lead) == Later(Latest(log, lead), if e.lead == lead then Some(e.performedAt) else None)
  {
    assert (log + [e])[..|log|] == log;
  }

  ghost predicate DistinctEndpoints(endpoints: seq<Endpoint>) {
    forall i, j | 0 <= i < j < |endpoints| :: endpoints[i].id != endpoints[j].id
  }

  predicate Known(endpoints: seq<Endpoint>, id: Id) { exists i | 0 <= i < |endpoints| :: endpoints[i].id == id }

  /** The queue grew by exactly one row for each endpoint and each of these log entries that it
      subscribes to, in log order, and by nothing else. */
  ghost predicate QueueKeptUp(before: seq<Queued>, after: seq<Queued>, entries: seq<Entry>, endpoints: seq<Endpoint>) {
    && before <= after
    && (forall endpoint | endpoint in endpoints ::
          RowsOf(after[|before|..], endpoint.id) == Announcements(entries, endpoint))
    && (forall i | |before| <= i < |after| :: Known(endpoints, after[i].endpoint))
  }

  lemma NothingQueued(queue: seq<Queued>, endpoints: seq<Endpoint>)
    ensures QueueKeptUp(queue, queue, [], endpoints)
  {}

  lemma JoinsQueue(queue: seq<Queued>, added: seq<Queued>, entries: seq<Entry>, endpoints: seq<Endpoint>)
    requires QueueKeptUp([], added, entries, endpoints)
    ensures QueueKeptUp(queue, queue + added, entries, endpoints)
  {
    assert (queue + added)[|queue|..] == added == added[0..];
  }

  lemma KeepsUp(queue0: seq<Queued>, queue1: seq<Queued>, queue2: seq<Queued>, first: seq<Entry>, second: seq<Entry>,
                endpoints: seq<Endpoint>)
    requires QueueKeptUp(queue0, queue1, first, endpoints) && QueueKeptUp(queue1, queue2, second, endpoints)
    ensures QueueKeptUp(queue0, queue2, first + second, endpoints)
  {
    hide RowsOf, Announcements, Known;
    assert queue2[|queue0|..] == queue1[|queue0|..] + queue2[|queue1|..];
    forall endpoint | endpoint in endpoints
      ensures RowsOf(queue2[|queue0|..], endpoint.id) == Announcements(first + second, endpoint)
    {
      RowsOfConcat(queue1[|queue0|..], queue2[|queue1|..], endpoint.id);
      AnnouncementsConcat(first, second, endpoint);
    }
  }

  /** What one action sends to the first `k` endpoints. */
  ghost predicate SentFirst(sent: seq<Queued>, entry: Entry, endpoints: seq<Endpoint>, k: nat) {
    && (forall i | 0 <= i < |endpoints| ::
          RowsOf(sent, endpoints[i].id) == if i < k then AnnouncedIfWanted(entry, endpoints[i]) else [])
    && (forall i | 0 <= i < |sent| :: Known(endpoints, sent[i].endpoint))
  }

  lemma NothingSent(entry: Entry, endpoints: seq<Endpoint>)
    ensures SentFirst([], entry, endpoints, 0)
  {}

  lemma SentNext(sent: seq<Queued>, entry: Entry, endpoints: seq<Endpoint>, k: nat)
    requires DistinctEndpoints(endpoints) && k < |endpoints| && SentFirst(sent, entry, endpoints, k)
    ensures SentFirst(sent + AnnouncedIfWanted(entry, endpoints[k]), entry, endpoints, k + 1)
    ensures AnnouncedIfWanted(entry, endpoints[k])
         == if Subscribes(endpoints[k], EventFor(entry.kind)) then [Announced(entry, endpoints[k].id)] else []
  {
    hide RowsOf, EventFor, Subscribes;
    var more := AnnouncedIfWanted(entry, endpoints[k]);
    forall i | 0 <= i < |endpoints|
      ensures RowsOf(sent + more, endpoints[i].id) == if i < k + 1 then AnnouncedIfWanted(entry, endpoints[i]) else []
    {
      RowsOfConcat(sent, more, endpoints[i].id);
      RowsOfOne(Announced(entry, endpoints[k].id), endpoints[i].id);
    }
  }

  lemma RowsOfOne(row: Queued, endpoint: Id)
    ensures RowsOf([], endpoint) == []
    ensures RowsOf([row], endpoint) == if row.endpoint == endpoint then [row] else []
  {
    assert [row][..0] == [];
  }

  lemma OneEach(before: seq<Queued>, after: seq<Queued>, entry: Entry, endpoints: seq<Endpoint>)
    requires QueueKeptUp(before, after, [entry], endpoints)
    ensures before <= after
    ensures forall event, endpoint | Names(event, entry.kind) && endpoint in endpoints ::
      RowsOf(after[|before|..], endpoint.id)
      == if endpoint.events == {} || event in endpoint.events
         then [Queued(endpoint.id, event, entry.lead, entry.changeset, entry.payload, entry.performedAt,
                      entry.performedAt)]
         else []
  {
    hide RowsOf, Names, EventFor, Announcements;
    forall event, endpoint | Names(event, entry.kind) && endpoint in endpoints
      ensures RowsOf(after[|before|..], endpoint.id) == AnnouncedIfWanted(entry, endpoint)
        && event == EventFor(entry.kind)
    {
      OneName(event, entry.kind);
      OneAnnouncement(entry, endpoint);
    }
  }

  lemma OneAnnouncement(entry: Entry, endpoint: Endpoint)
    ensures Announcements([entry], endpoint) == AnnouncedIfWanted(entry, endpoint)
  {
    assert [entry][..0] == [];
  }

  lemma AllSent(queue: seq<Queued>, sent: seq<Queued>, entry: Entry, endpoints: seq<Endpoint>)
    requires SentFirst(sent, entry, endpoints, |endpoints|)
    ensures QueueKeptUp(queue, queue + sent, [entry], endpoints)
  {
    assert [entry][..0] == [] && (queue + sent)[|queue|..] == sent;
  }

  class Lead {
    const id: Id
    var values: map<string, Json>
    var score: Option<int>
    var lastActionAt: Option<int>
    var assignee: Option<Id>
    var stage: Option<Id>
    var deleted: bool

    ghost function Rolled(): Rollup
      reads this
    {
      Rollup(score, lastActionAt)
    }

    constructor (id: Id, values: map<string, Json>, assignee: Option<Id>, stage: Option<Id>)
      ensures this.id == id && this.values == values && this.assignee == assignee && this.stage == stage
      ensures Rolled() == Rollup(None, None) && !deleted
    {
      this.id, this.values, this.assignee, this.stage := id, values, assignee, stage;
      score, lastActionAt, deleted := None, None, false;
    }

    /** Keeps the two rollups in step with one more action. */
    method RollUp(scoreApplied: int, performedAt: int)
      modifies this`score, this`lastActionAt
      ensures Rolled().Score() == old(Rolled().Score()) + scoreApplied
      ensures scoreApplied == 0 ==> score == old(score)
      ensures lastActionAt == Later(old(lastActionAt), Some(performedAt))
    {
      if scoreApplied != 0 {
        score := Some((if score.Some? then score.value else 0) + scoreApplied);
      }
      if lastActionAt.None? || performedAt > lastActionAt.value {
        lastActionAt := Some(performedAt);
      }
    }
  }

  datatype FieldDelta = FieldDelta(key: string, before: Json, after: Json)

  function DeltaPayload(d: FieldDelta): map<string, Json> {
    map["field_key" := Str(d.key), "old" := d.before, "new" := d.after]
  }

  function IdJson(id: Option<Id>): Json { if id.None? then Null else Str(id.value) }

  /** `log` and `queue` hold the rows this transaction has added to the two tables. */
  class ActionWriter {
    var changeset: Id
    var endpoints: seq<Endpoint>
    var log: seq<Entry>
    var queue: seq<Queued>

    /** Opens a changeset, loading the active endpoints once. */
    constructor (changeset: Id, endpoints: seq<Endpoint>, log: seq<Entry>)
      ensures this.changeset == changeset && this.endpoints == endpoints && this.log == log && queue == []
    {
      this.changeset, this.endpoints, this.log, queue := changeset, endpoints, log, [];
    }

    method Append(lead: Lead, kind: ActionKind, payload: map<string, Json>, body: Option<string>,
                  actionType: Option<Id>, scoreApplied: int, performedAt: Option<int>, now: int) returns (entry: Entry)
      requires DistinctEndpoints(endpoints)
      modifies this`log, this`queue, lead`score, lead`lastActionAt
      ensures entry == Entry(lead.id, changeset, kind, actionType, payload, body, scoreApplied,
                             if performedAt.Some? then performedAt.value else now)
      ensures log == old(log) + [entry]
      ensures lead.Rolled().Score() == old(lead.Rolled().Score()) + scoreApplied
      ensures scoreApplied == 0 ==> lead.score == old(lead.score)
      ensures lead.lastActionAt == Later(old(lead.lastActionAt), Some(entry.performedAt))
      ensures QueueKeptUp(old(queue), queue, [entry], endpoints)
    {
      hide QueueKeptUp, DistinctEndpoints;
      entry := Entry(lead.id, changeset, kind, actionType, payload, body, scoreApplied,
                     if performedAt.Some? then performedAt.value else now);
      log := log + [entry];
      lead.RollUp(scoreApplied, entry.performedAt);
      Publish(entry);
    }

    /** Queues the action's event once for each endpoint that wants it. */
    method Publish(entry: Entry)
      requires DistinctEndpoints(endpoints)
      modifies this`queue
      ensures QueueKeptUp(old(queue), queue, [entry], endpoints)
      ensures forall event, endpoint | Names(event, entry.kind) && endpoint in endpoints ::
        RowsOf(queue[|old(queue)|..], endpoint.id)
        == if endpoint.events == {} || event in endpoint.events
           then [Queued(endpoint.id, event, entry.lead, entry.changeset, entry.payload, entry.performedAt,
                        entry.performedAt)]
           else []
    {
      hide SentFirst, QueueKeptUp, DistinctEndpoints, Subscribes, EventFor, RowsOf, AnnouncedIfWanted;
      NothingSent(entry, endpoints);
      var event := EventFor(entry.kind);
      ghost var sent: seq<Queued> := [];
      for k := 0 to |endpoints|
        invariant queue == old(queue) + sent
        invariant SentFirst(sent, entry, endpoints, k)
      {
        SentNext(sent, entry, endpoints, k);
        assert sent + [] == sent;
        if Subscribes(endpoints[k], event) {
          queue := queue + [Queued(endpoints[k].id, event, entry.lead, entry.changeset, entry.payload,
                                   entry.performedAt, entry.performedAt)];
          sent := sent + [Announced(entry, endpoints[k].id)];
        }
      }
      AllSent(old(queue), sent, entry, endpoints);
      OneEach(old(queue), queue, entry, endpoints);
    }

    /** One FIELD_CHANGE per delta. */
    method RecordFieldChanges(lead: Lead, deltas: seq<FieldDelta>, now: int)
      requires DistinctEndpoints(endpoints)
      modifies this`log, this`queue, lead`score, lead`lastActionAt
      ensures log == old(log) + FieldEntries(lead.id, changeset, deltas, now)
      ensures |log| == |old(log)| + |deltas| && old(log) <= log
      ensures forall i | 0 <= i < |deltas| ::
        log[|old(log)| + i] == Entry(lead.id, changeset, FieldChange, None,
                                     map["field_key" := Str(deltas[i].key), "old" := deltas[i].before,
                                         "new" := deltas[i].after],
                                     None, 0, now)
      ensures lead.score == old(lead.score)
      ensures lead.lastActionAt
           == if deltas == [] then old(lead.lastActionAt) else Later(old(lead.lastActionAt), Some(now))
      ensures QueueKeptUp(old(queue), queue, FieldEntries(lead.id, changeset, deltas, now), endpoints)
    {
      hide QueueKeptUp, DistinctEndpoints;
      NothingQueued(queue, endpoints);
      FieldEntriesAt(lead.id, changeset, deltas, now);
      for k := 0 to |deltas|
        invariant log == old(log) + FieldEntries(lead.id, changeset, deltas[..k], now)
        invariant lead.score == old(lead.score)
        invariant lead.lastActionAt
               == if k == 0 then old(lead.lastActionAt) else Later(old(lead.lastActionAt), Some(now))
        invariant QueueKeptUp(old(queue), queue, FieldEntries(lead.id, changeset, deltas[..k], now), endpoints)
      {
        ghost var sent := queue;
        var entry := Append(lead, FieldChange, DeltaPayload(deltas[k]), None, None, 0, None, now);
        KeepsUp(old(queue), sent, queue, FieldEntries(lead.id, changeset, deltas[..k], now), [entry], endpoints);
        assert deltas[..k + 1][..k] == deltas[..k];
      }
      assert deltas[..|deltas|] == deltas;
    }

    method RecordAssignmentChange(lead: Lead, oldAssignee: Option<Id>, newAssignee: Option<Id>, now: int)
      requires DistinctEndpoints(endpoints)
      modifies this`log, this`queue, lead`score, lead`lastActionAt
      ensures log == old(log) + [AssignmentEntry(lead.id, changeset, oldAssignee, newAssignee, now)]
      ensures lead.score == old(lead.score) && lead.lastActionAt == Later(old(lead.lastActionAt), Some(now))
      ensures QueueKeptUp(old(queue), queue, [AssignmentEntry(lead.id, changeset, oldAssignee, newAssignee, now)],
                          endpoints)
    {
      hide QueueKeptUp, DistinctEndpoints;
      var entry := Append(lead, AssignmentChange, AssignmentPayload(oldAssignee, newAssignee), None, None, 0, None,
                          now);
    }

    /** A custom action with its score snapshotted; a past timestamp needs the type's permission. */
    method RecordCustom(lead: Lead, actionType: Id, score: int, allowPredated: bool, values: map<string, Json>,
                        performedAt: Option<int>, now: int) returns (recorded: bool)
      requires DistinctEndpoints(endpoints)
      modifies this`log, this`queue, lead`score, lead`lastActionAt
      ensures recorded <==> performedAt.None? || performedAt.value >= now - 60_000_000 || allowPredated
      ensures !recorded ==> log == old(log) && queue == old(queue) && lead.Rolled() == old(lead.Rolled())
      ensures recorded ==>
        var entry := Entry(lead.id, changeset, Custom, Some(actionType), values, None, score,
                           if performedAt.Some? then performedAt.value else now);
        && log == old(log) + [entry]
        && lead.Rolled().Score() == old(lead.Rolled().Score()) + score
        && lead.lastActionAt == Later(old(lead.lastActionAt), Some(entry.performedAt))
        && QueueKeptUp(old(queue), queue, [entry], endpoints)
    {
      hide QueueKeptUp, DistinctEndpoints;
      if performedAt.Some? && performedAt.value < now - 60_000_000 && !allowPredated {
        return false;
      }
      var entry := Append(lead, Custom, values, None, Some(actionType), score, performedAt, now);
      return true;
    }

    /** Re-derives a lead's score from the log. */
    method RecomputeScore(lead: Lead) returns (total: int)
      modifies lead`score
      ensures total == ScoreSum(log, lead.id) && lead.score == Some(total)
    {
      total := 0;
      for k := 0 to |log|
        invariant total == ScoreSum(log[..k], lead.id)
      {
        assert log[..k + 1][..k] == log[..k];
        if log[k].lead == lead.id {
          total := total + log[k].scoreApplied;
        }
      }
      assert log[..|log|] == log;
      lead.score := Some(total);
    }
  }

  function FieldEntries(lead: Id, changeset: Id, deltas: seq<FieldDelta>, now: int): (entries: seq<Entry>)
    ensures |entries| == |deltas|
    ensures forall i | 0 <= i < |entries| ::
      entries[i].lead == lead && entries[i].scoreApplied == 0 && entries[i].kind == FieldChange
  {
    if deltas == [] then []
    else FieldEntries(lead, changeset, deltas[..|deltas| - 1], now)
         + [Entry(lead, changeset, FieldChange, None, DeltaPayload(deltas[|deltas| - 1]), None, 0, now)]
  }

  lemma {:induction false} FieldEntriesAt(lead: Id, changeset: Id, deltas: seq<FieldDelta>, now: int)
    ensures forall i | 0 <= i < |deltas| ::
      FieldEntries(lead, changeset, deltas, now)[i]
      == Entry(lead, changeset, FieldChange, None,
               map["field_key" := Str(deltas[i].key), "old" := deltas[i].before, "new" := deltas[i].after],
               None, 0, now)
  {
    if deltas != [] {
      FieldEntriesAt(lead, changeset, deltas[..|deltas| - 1], now);
    }
  }

  function AssignmentPayload(oldAssignee: Option<Id>, newAssignee: Option<Id>): map<string, Json> {
    map["old_assignee_id" := IdJson(oldAssignee), "new_assignee_id" := IdJson(newAssignee)]
  }

  function AssignmentEntry(lead: Id, changeset: Id, oldAssignee: Option<Id>, newAssignee: Option<Id>, now: int): Entry {
    Entry(lead, changeset, AssignmentChange, None, AssignmentPayload(oldAssignee, newAssignee), None, 0, now)
  }

  // --- whole changesets -------------------------------------------------------------

  /** One record_* call: what it passes on to the log. */
  datatype Call = Call(
    lead: Lead, kind: ActionKind, payload: map<string, Json>, body: Option<string>, actionType: Option<Id>,
    scoreApplied: int, performedAt: Option<int>, now: int)

  function EntryOf(c: Call, changeset: Id): Entry
    reads c.lead
  {
    Entry(c.lead.id, changeset, c.kind, c.actionType, c.payload, c.body, c.scoreApplied,
          if c.performedAt.Some? then c.performedAt.value else c.now)
  }

  /** Every lead's rollups agree with the log. */
  ghost predicate InStep(leads: set<Lead>, log: seq<Entry>, start: map<Id, Option<int>>)
    reads leads
  {
    forall lead | lead in leads ::
      && lead.id in start
      && lead.Rolled().Score() == ScoreSum(log, lead.id)
      && lead.lastActionAt == Later(start[lead.id], Latest(log, lead.id))
  }

  ghost predicate DistinctLeads(leads: set<Lead>) {
    forall a, b | a in leads && b in leads && a.id == b.id :: a == b
  }

  /** Any sequence of calls in one changeset: scores stay what recomputing would give, last contact
      is the latest of its starting value and everything performed, and each endpoint has one
      queued event for each action it subscribes to. */
  method RecordAll(writer: ActionWriter, leads: set<Lead>, calls: seq<Call>, ghost start: map<Id, Option<int>>)
    requires DistinctEndpoints(writer.endpoints) && DistinctLeads(leads)
    requires forall i | 0 <= i < |calls| :: calls[i].lead in leads
    requires InStep(leads, writer.log, start)
    modifies writer`log, writer`queue, leads`score, leads`lastActionAt
    ensures InStep(leads, writer.log, start)
    ensures old(writer.log) <= writer.log && |writer.log| == |old(writer.log)| + |calls|
    ensures forall i | 0 <= i < |calls| :: writer.log[|old(writer.log)| + i] == EntryOf(calls[i], writer.changeset)
    ensures QueueKeptUp(old(writer.queue), writer.queue, writer.log[|old(writer.log)|..], writer.endpoints)
  {
    hide QueueKeptUp, DistinctEndpoints;
    NothingQueued(writer.queue, writer.endpoints);
    assert writer.log[|writer.log|..] == [];
    for k := 0 to |calls|
      invariant InStep(leads, writer.log, start)
      invariant old(writer.log) <= writer.log && |writer.log| == |old(writer.log)| + k
      invariant forall i | 0 <= i < k :: writer.log[|old(writer.log)| + i] == EntryOf(calls[i], writer.changeset)
      invariant QueueKeptUp(old(writer.queue), writer.queue, writer.log[|old(writer.log)|..], writer.endpoints)
    {
      var c := calls[k];
      assert c.lead in leads;
      ghost var log, sent := writer.log, writer.queue;
      var entry := writer.Append(c.lead, c.kind, c.payload, c.body, c.actionType, c.scoreApplied, c.performedAt, c.now);
      ExtendLog(log, entry);
      KeepsUp(old(writer.queue), sent, writer.queue, log[|old(writer.log)|..], [entry], writer.endpoints);
      assert writer.log[|old(writer.log)|..] == log[|old(writer.log)|..] + [entry];
    }
  }
}
