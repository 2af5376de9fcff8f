// The delivery protocol: any number of workers, crashes, redrives and a clock,
// interleaved one atomic step at a time.

module OutboxProtocol {
  import opened Prelude
  import opened Outbox

  type WorkerId = nat

  /** A dispatch pass in progress: its clock, its own copies of the rows it still has to handle,
      and the outcome it has seen but not yet committed. */
  datatype Worker = Worker(clock: int, held: map<Id, Row>, seen: Option<(Id, Outcome)>)

  /** `accepted`: event ids some consumer answered 2xx. `tries`: per row, the pass clocks of the
      attempts counted since it was published or last redriven. */
  datatype State = State(
    rows: map<Id, Row>, workers: map<WorkerId, Worker>, clock: int,
    accepted: set<Id>, tries: map<Id, seq<int>>)

  datatype Event =
    | Publish(id: Id, eventId: Id, when: int)
    | ClaimBatch(worker: WorkerId, passClock: int, locked: set<Id>, limit: nat, ids: set<Id>)
    | Send(worker: WorkerId, id: Id, outcome: Outcome)
    | Commit(worker: WorkerId)
    | Crash(worker: WorkerId)
    | Retry(id: Id)
    | Tick(clock: int)

  ghost predicate Enabled(s: State, e: Event) {
    match e
    case Publish(id, _, _) => id !in s.rows
    case ClaimBatch(w, passClock, locked, limit, ids) =>
      w !in s.workers && passClock <= s.clock && ids != {} && Selects(s.rows, locked, passClock, limit, ids)
    case Send(w, id, _) => w in s.workers && id in s.workers[w].held && s.workers[w].seen.None?
    case Commit(w) => CanCommit(s, w)
    case Crash(w) => w in s.workers
    case Retry(id) => id in s.rows && s.rows[id].status != Delivered
    case Tick(clock) => s.clock <= clock
  }

  /** Flushing a handled row: exactly the columns the pass assigned, from the worker's own copy. */
  function Flush(stored: Row, copy: Row, outcome: Outcome, now: int): Row {
    var r := Record(copy, outcome, now);
    match outcome
    case EndpointGone => stored.(status := r.status, claimedAt := r.claimedAt)
    case Raised =>
      stored.(status := r.status, attempts := r.attempts, claimedAt := r.claimedAt, nextAttemptAt := r.nextAttemptAt)
    case Answered(_) =>
      var common := stored.(status := r.status, attempts := r.attempts, claimedAt := r.claimedAt,
                            lastStatusCode := r.lastStatusCode);
      if r.status == Delivered then common.(deliveredAt := r.deliveredAt)
      else if r.status == Failed then common.(nextAttemptAt := r.nextAttemptAt)
      else common
  }

  lemma FlushOfExactCopy(row: Row, outcome: Outcome, now: int)
    ensures Flush(row, row, outcome, now) == Record(row, outcome, now)
  {}

  predicate CanCommit(s: State, w: WorkerId) {
    && w in s.workers && s.workers[w].seen.Some?
    && s.workers[w].seen.value.0 in s.workers[w].held && s.workers[w].seen.value.0 in s.rows
  }

  function Committed(s: State, w: WorkerId): State
    requires CanCommit(s, w)
  {
    var worker := s.workers[w];
    var (id, outcome) := worker.seen.value;
    var left := worker.held - {id};
    s.(rows := s.rows[id := Flush(s.rows[id], worker.held[id], outcome, worker.clock)],
       workers := if left == map[] then s.workers - {w}
                  else s.workers[w := worker.(held := left, seen := None)],
       tries := if Counted(outcome) && id in s.tries then s.tries[id := s.tries[id] + [worker.clock]] else s.tries)
  }

  ghost function Next(s: State, e: Event): State
    requires Enabled(s, e)
  {
    match e
    case Publish(id, eventId, when) =>
      s.(rows := s.rows[id := NewRow(eventId, when)], tries := s.tries[id := []])
    case ClaimBatch(w, passClock, _, _, ids) =>
      var taken := map id | id in ids :: Claim(s.rows[id], passClock);
      s.(rows := s.rows + taken, workers := s.workers[w := Worker(passClock, taken, None)])
    case Send(w, id, outcome) =>
      s.(workers := s.workers[w := s.workers[w].(seen := Some((id, outcome)))],
         accepted := if Accepted(outcome) then s.accepted + {s.workers[w].held[id].eventId} else s.accepted)
    case Commit(w) => Committed(s, w)
    case Crash(w) => s.(workers := s.workers - {w})
    case Retry(id) => s.(rows := s.rows[id := Redrive(s.rows[id], s.clock)], tries := s.tries[id := []])
    case Tick(clock) => s.(clock := clock)
  }

  /** The working assumptions: a live worker finishes within the claim timeout of its pass clock,
      and an operator does not redrive a row that is being delivered. */
  ghost predicate Disciplined(s: State, e: Event) {
    match e
    case ClaimBatch(_, passClock, _, _, _) => s.clock <= passClock + CLAIM_TIMEOUT
    case Tick(clock) => forall w | w in s.workers :: clock <= s.workers[w].clock + CLAIM_TIMEOUT
    case Retry(id) => id in s.rows ==> s.rows[id].status != Delivering
    case _ => true
  }

  ghost predicate Feasible(s: State, run: seq<Event>)
    decreases |run|
  {
    run == [] || (Enabled(s, run[0]) && Feasible(Next(s, run[0]), run[1..]))
  }

  ghost predicate DisciplinedRun(s: State, run: seq<Event>)
    decreases |run|
  {
    run == [] || (Enabled(s, run[0]) && Disciplined(s, run[0]) && DisciplinedRun(Next(s, run[0]), run[1..]))
  }

  ghost function After(s: State, run: seq<Event>): State
    requires Feasible(s, run)
    decreases |run|
  {
    if run == [] then s else After(Next(s, run[0]), run[1..])
  }

  predicate Initial(s: State) { s.rows == map[] && s.workers == map[] && s.accepted == {} && s.tries == map[] }

  // --- what every run keeps, disciplined or not --------------------------------

  predicate RowKept(row: Row, accepted: set<Id>) {
    && (row.status == Delivering ==> row.claimedAt.Some? && row.nextAttemptAt <= row.claimedAt.value)
    && (row.status == Delivered ==> row.eventId in accepted)
  }

  predicate WorkerKept(worker: Worker, rows: map<Id, Row>, accepted: set<Id>) {
    && (forall id | id in worker.held :: id in rows && worker.held[id].eventId == rows[id].eventId)
    && (worker.seen.Some? ==>
          && worker.seen.value.0 in worker.held
          && (Accepted(worker.seen.value.1) ==> worker.held[worker.seen.value.0].eventId in accepted))
  }

  ghost predicate Kept(s: State) {
    && s.tries.Keys == s.rows.Keys
    && (forall id | id in s.rows :: RowKept(s.rows[id], s.accepted))
    && (forall w | w in s.workers :: WorkerKept(s.workers[w], s.rows, s.accepted))
  }

  lemma FlushKeeps(stored: Row, copy: Row, outcome: Outcome, now: int, accepted: set<Id>)
    requires RowKept(stored, accepted) && copy.eventId == stored.eventId
    requires Accepted(outcome) ==> copy.eventId in accepted
    ensures RowKept(Flush(stored, copy, outcome, now), accepted)
    ensures Flush(stored, copy, outcome, now).eventId == stored.eventId
  {}

  lemma CommitKeeps(s: State, w: WorkerId)
    requires Kept(s) && CanCommit(s, w)
    ensures Kept(Committed(s, w))
    ensures forall id | id in s.rows ::
      id in Committed(s, w).rows && Committed(s, w).rows[id].eventId == s.rows[id].eventId
  {
    hide Flush, RowKept, Accepted, Counted;
    var worker := s.workers[w];
    var (id, outcome) := worker.seen.value;
    assert WorkerKept(worker, s.rows, s.accepted);
    FlushKeeps(s.rows[id], worker.held[id], outcome, worker.clock, s.accepted);
  }

  lemma StepKeeps(s: State, e: Event)
    requires Kept(s) && Enabled(s, e)
    ensures Kept(Next(s, e))
    ensures forall id | id in s.rows :: id in Next(s, e).rows && Next(s, e).rows[id].eventId == s.rows[id].eventId
  {
    hide Committed, CanCommit, Accepted, Selects;
    match e
    case Commit(w) => CommitKeeps(s, w);
    case ClaimBatch(w, passClock, locked, limit, ids) => ClaimKeeps(s, e);
    case Send(w, id, outcome) =>
      forall v | v in s.workers { WorkerAcceptsMore(s.workers[v], s.rows, s.accepted, Next(s, e).accepted); }
    case _ =>
  }

  lemma WorkerAcceptsMore(worker: Worker, rows: map<Id, Row>, accepted: set<Id>, more: set<Id>)
    requires WorkerKept(worker, rows, accepted) && accepted <= more
    ensures WorkerKept(worker, rows, more)
  {}

  lemma ClaimKeeps(s: State, e: Event)
    requires Kept(s) && Enabled(s, e) && e.ClaimBatch?
    ensures Kept(Next(s, e))
    ensures forall id | id in s.rows :: id in Next(s, e).rows && Next(s, e).rows[id].eventId == s.rows[id].eventId
  {
    hide Accepted;
  }

  lemma {:induction false} RunKeeps(s: State, run: seq<Event>)
    requires Kept(s) && Feasible(s, run)
    ensures Kept(After(s, run))
    ensures forall id | id in s.rows ::
      id in After(s, run).rows && After(s, run).rows[id].eventId == s.rows[id].eventId
    decreases |run|
  {
    if run != [] {
      StepKeeps(s, run[0]);
      RunKeeps(Next(s, run[0]), run[1..]);
    }
  }

  /** A send of the row that the consumer answered from 200 to 299. */
  predicate SentWell(e: Event, id: Id) {
    && e.Send? && e.id == id
    && e.outcome.Answered? && e.outcome.statusCode.Some? && 200 <= e.outcome.statusCode.value <= 299
  }

  /** The row is delivered, or some worker has seen such an answer for it. */
  ghost predicate Answered2xx(s: State, id: Id) {
    || (id in s.rows && s.rows[id].status == Delivered)
    || (exists w | w in s.workers ::
      s.workers[w].seen.Some? && s.workers[w].seen.value.0 == id && Accepted(s.workers[w].seen.value.1))
  }

  lemma AnswerWasSent(s: State, e: Event, id: Id)
    requires Enabled(s, e) && Answered2xx(Next(s, e), id)
    ensures Answered2xx(s, id) || SentWell(e, id)
  {
    if e.Commit? && s.workers[e.worker].seen.value.0 == id {
      assert Accepted(s.workers[e.worker].seen.value.1) ==> Answered2xx(s, id);
    }
  }

  lemma {:induction false} AnswersWereSent(s: State, run: seq<Event>, id: Id)
    requires Feasible(s, run) && Answered2xx(After(s, run), id)
    ensures Answered2xx(s, id) || exists i | 0 <= i < |run| :: SentWell(run[i], id)
    decreases |run|
  {
    hide Enabled, Next, Answered2xx, SentWell;
    if run != [] {
      AnswersWereSent(Next(s, run[0]), run[1..], id);
      if Answered2xx(Next(s, run[0]), id) {
        AnswerWasSent(s, run[0], id);
        assert SentWell(run[0], id) || Answered2xx(s, id);
      } else {
        var i :| 0 <= i < |run[1..]| && SentWell(run[1..][i], id);
        assert SentWell(run[i + 1], id);
      }
    }
  }

  /** No event is lost, whatever workers and operators do: every row that ever existed is still
      there under its event id, delivered only if some send of it was answered from 200 to 299, dead,
      or due again from a known instant on. */
  lemma NothingIsLost(s: State, run: seq<Event>, id: Id)
    requires Initial(s) && Feasible(s, run) && id in After(s, run).rows
    ensures var row := After(s, run).rows[id];
      match row.status
      case Delivered => row.eventId in After(s, run).accepted && exists i | 0 <= i < |run| :: SentWell(run[i], id)
      case Delivering => row.claimedAt.Some? && forall t | t > row.claimedAt.value + CLAIM_TIMEOUT :: Due(row, t)
      case Dead => true
      case _ => forall t | t >= row.nextAttemptAt :: Due(row, t)
  {
    RunKeeps(s, run);
    if After(s, run).rows[id].status == Delivered {
      AnswersWereSent(s, run, id);
    }
  }

  // --- what disciplined runs keep -----------------------------------------------

  /** A worker's copies are the rows themselves, claimed by this pass, and it still has time. */
  predicate WorkerOwns(worker: Worker, rows: map<Id, Row>, clock: int) {
    && clock <= worker.clock + CLAIM_TIMEOUT
    && forall id | id in worker.held ::
         && id in rows && rows[id] == worker.held[id]
         && rows[id].status == Delivering && rows[id].claimedAt == Some(worker.clock)
  }

  /** The counted attempts of a row, spaced by the backoff, with the next one held back likewise. */
  predicate TriesMatch(row: Row, clocks: seq<int>) {
    && |clocks| == row.attempts && Spaced(clocks)
    && (row.status == Pending ==> clocks == [])
    && (clocks != [] && (row.status == Failed || row.status == Delivering) ==>
          row.nextAttemptAt >= clocks[|clocks| - 1] + BackoffMinutes(|clocks|) * MINUTE)
  }

  ghost predicate Exclusive(s: State) {
    forall v, w | v in s.workers && w in s.workers && v != w :: s.workers[v].held.Keys !! s.workers[w].held.Keys
  }

  ghost predicate Owned(s: State) {
    && Kept(s) && Exclusive(s)
    && (forall w | w in s.workers :: WorkerOwns(s.workers[w], s.rows, s.clock))
    && (forall id | id in s.rows :: TriesMatch(s.rows[id], s.tries[id]))
  }

  lemma RecordTries(row: Row, clocks: seq<int>, outcome: Outcome, now: int)
    requires TriesMatch(row, clocks) && row.status == Delivering && row.nextAttemptAt <= now
    ensures TriesMatch(Record(row, outcome, now), if Counted(outcome) then clocks + [now] else clocks)
  {
    var more := clocks + [now];
    assert Spaced(more) by {
      forall i | 0 < i < |more| ensures more[i] >= more[i - 1] + BackoffMinutes(i) * MINUTE {
        if i < |clocks| { assert clocks[i] >= clocks[i - 1] + BackoffMinutes(i) * MINUTE; }
      }
    }
  }

  lemma CommitOwned(s: State, w: WorkerId)
    requires Owned(s) && CanCommit(s, w)
    ensures Owned(Committed(s, w))
  {
    hide Record, Flush, TriesMatch, Counted, RowKept;
    CommitKeeps(s, w);
    var worker := s.workers[w];
    var (id, outcome) := worker.seen.value;
    assert WorkerOwns(worker, s.rows, s.clock) && RowKept(s.rows[id], s.accepted);
    DeliveringIsDue(s.rows[id], s.accepted);
    FlushOfExactCopy(s.rows[id], outcome, worker.clock);
    RecordTries(s.rows[id], s.tries[id], outcome, worker.clock);
  }

  lemma DeliveringIsDue(row: Row, accepted: set<Id>)
    requires RowKept(row, accepted) && row.status == Delivering && row.claimedAt.Some?
    ensures row.nextAttemptAt <= row.claimedAt.value
  {}

  /** A due row is held by nobody: a holder would have to have outlived its claim. */
  lemma DueMeansFree(s: State, w: WorkerId, id: Id, passClock: int)
    requires Owned(s) && w in s.workers && id in s.rows && passClock <= s.clock && Due(s.rows[id], passClock)
    ensures id !in s.workers[w].held
  {
    assert WorkerOwns(s.workers[w], s.rows, s.clock);
  }

  lemma ClaimOwned(s: State, e: Event)
    requires Owned(s) && Enabled(s, e) && Disciplined(s, e) && e.ClaimBatch?
    ensures Owned(Next(s, e))
  {
    hide TriesMatch, Due, Kept;
    ClaimKeeps'(s, e);
    forall w, id | w in s.workers && id in e.ids
      ensures id !in s.workers[w].held
    {
      DueMeansFree(s, w, id, e.passClock);
    }
    forall id | id in e.ids
      ensures TriesMatch(Claim(s.rows[id], e.passClock), s.tries[id])
    {
      ClaimTries(s.rows[id], s.tries[id], e.passClock);
    }
    TriesCover(s);
  }

  lemma TriesCover(s: State)
    requires Kept(s)
    ensures s.tries.Keys == s.rows.Keys
  {}

  lemma ClaimKeeps'(s: State, e: Event)
    requires Kept(s) && Enabled(s, e) && e.ClaimBatch?
    ensures Kept(Next(s, e))
  {
    ClaimKeeps(s, e);
  }

  lemma ClaimTries(row: Row, clocks: seq<int>, now: int)
    requires TriesMatch(row, clocks) && Due(row, now)
    ensures TriesMatch(Claim(row, now), clocks)
  {}

  lemma StepOwned(s: State, e: Event)
    requires Owned(s) && Enabled(s, e) && Disciplined(s, e)
    ensures Owned(Next(s, e))
  {
    hide Owned, Next;
    if e.Commit? {
      CommitNext(s, e);
      CommitOwned(s, e.worker);
    } else if e.ClaimBatch? {
      ClaimOwned(s, e);
    } else if e.Publish? || e.Retry? {
      ResetOwned(s, e);
    } else {
      QuietOwned(s, e);
    }
  }

  lemma CommitNext(s: State, e: Event)
    requires Enabled(s, e) && e.Commit?
    ensures CanCommit(s, e.worker) && Next(s, e) == Committed(s, e.worker)
  {}

  /** Sending, crashing and waiting leave every row as it is. */
  lemma QuietOwned(s: State, e: Event)
    requires Owned(s) && Enabled(s, e) && Disciplined(s, e) && (e.Send? || e.Crash? || e.Tick?)
    ensures Owned(Next(s, e))
  {
    hide Kept, TriesMatch;
    StepKeeps(s, e);
  }

  /** Publishing and redriving write one row that nobody holds, with no attempts counted. */
  lemma ResetOwned(s: State, e: Event)
    requires Owned(s) && Enabled(s, e) && Disciplined(s, e) && (e.Publish? || e.Retry?)
    ensures Owned(Next(s, e))
  {
    hide Kept, TriesMatch;
    StepKeeps(s, e);
    TriesCover(s);
    FreshTries(Next(s, e).rows[e.id]);
  }

  lemma FreshTries(row: Row)
    requires row.attempts == 0
    ensures TriesMatch(row, [])
  {}

  lemma {:induction false} RunOwned(s: State, run: seq<Event>)
    requires Owned(s) && DisciplinedRun(s, run)
    ensures Feasible(s, run) && Owned(After(s, run))
    decreases |run|
  {
    hide Owned, Enabled, Disciplined, Next;
    if run != [] {
      StepOwned(s, run[0]);
      RunOwned(Next(s, run[0]), run[1..]);
    }
  }

  predicate Holds(s: State, w: WorkerId, id: Id) { w in s.workers && id in s.workers[w].held }

  /** Reachable under discipline: no row is ever held by two live workers. */
  lemma NoRowHeldTwice(s: State, run: seq<Event>, v: WorkerId, w: WorkerId, id: Id)
    requires Initial(s) && DisciplinedRun(s, run)
    ensures Feasible(s, run)
    ensures Holds(After(s, run), v, id) && Holds(After(s, run), w, id) ==> v == w
  {
    RunOwned(s, run);
  }

  /** In a disciplined run a row that a delivery turns dead has all its counted attempts, at least
      eight, spaced by the backoff, so the first and last of them are at least 182 minutes apart. */
  lemma DisciplinedDeath(start: State, run: seq<Event>, w: WorkerId)
    requires Initial(start) && DisciplinedRun(start, run) && Feasible(start, run)
    requires CanCommit(After(start, run), w) && After(start, run).workers[w].seen.value.1.Answered?
    requires var s := After(start, run);
      Committed(s, w).rows[s.workers[w].seen.value.0].status == Dead
    ensures var s := After(start, run);
      var id := s.workers[w].seen.value.0;
      && id in Committed(s, w).tries
      && var clocks := Committed(s, w).tries[id];
      && |clocks| >= DEAD_AFTER_ATTEMPTS && Spaced(clocks)
      && clocks[|clocks| - 1] == s.workers[w].clock
      && clocks[|clocks| - 1] - clocks[0] >= 182 * MINUTE
  {
    hide Enabled, Next, DisciplinedRun, Feasible;
    RunOwned(start, run);
    OwnedDeath(After(start, run), w);
  }

  lemma OwnedDeath(s: State, w: WorkerId)
    requires Owned(s) && CanCommit(s, w) && s.workers[w].seen.value.1.Answered?
    requires Committed(s, w).rows[s.workers[w].seen.value.0].status == Dead
    ensures var clocks := Committed(s, w).tries[s.workers[w].seen.value.0];
      && |clocks| >= DEAD_AFTER_ATTEMPTS && Spaced(clocks)
      && clocks[|clocks| - 1] == s.workers[w].clock
      && clocks[|clocks| - 1] - clocks[0] >= 182 * MINUTE
  {
    CommitOwned(s, w);
    var id := s.workers[w].seen.value.0;
    var row, clocks := Committed(s, w).rows[id], Committed(s, w).tries[id];
    assert WorkerOwns(s.workers[w], s.rows, s.clock) && TriesMatch(row, clocks);
    BackoffSchedule();
    SpacedSpan(clocks, |clocks| - 1);
    TotalGrows(7, |clocks| - 1);
  }

  lemma {:induction false} TotalGrows(m: nat, n: nat)
    requires m <= n
    ensures BackoffTotal(m) <= BackoffTotal(n)
  {
    if m < n { TotalGrows(m, n - 1); }
  }

  // --- why the discipline is needed ----------------------------------------------

  /** One row "a", with the given workers on it. */
  function OneRow(row: Row, workers: map<WorkerId, Worker>, clock: int, accepted: set<Id>, tries: seq<int>): State {
    State(map["a" := row], workers, clock, accepted, map["a" := tries])
  }

  function Holder(row: Row, clock: int, seen: Option<(Id, Outcome)>): Worker { Worker(clock, map["a" := row], seen) }

  const FRESH := NewRow("e", 0)
  const PUBLISHED := OneRow(FRESH, map[], 0, {}, [])

  lemma PublishedIsOwned()
    ensures Owned(PUBLISHED)
  {}

  lemma ClaimOne(s: State, row: Row, w: WorkerId)
    requires s.rows == map["a" := row] && Due(row, s.clock) && w !in s.workers
    ensures Enabled(s, ClaimBatch(w, s.clock, {}, 1, {"a"}))
    ensures Next(s, ClaimBatch(w, s.clock, {}, 1, {"a"}))
         == s.(rows := map["a" := Claim(row, s.clock)],
               workers := s.workers[w := Holder(Claim(row, s.clock), s.clock, None)])
  {
    var e := ClaimBatch(w, s.clock, {}, 1, {"a"});
    assert Selects(s.rows, {}, s.clock, 1, {"a"});
    assert (map id | id in e.ids :: Claim(s.rows[id], s.clock)) == map["a" := Claim(row, s.clock)];
  }

  lemma Chain(s: State, e: Event, t: State, rest: seq<Event>)
    requires Enabled(s, e) && Next(s, e) == t && Feasible(t, rest)
    ensures Feasible(s, [e] + rest) && After(s, [e] + rest) == After(t, rest)
  {
    assert ([e] + rest)[1..] == rest;
  }

  /** A worker that outlives its claim shares the row with the one that reclaims it. */
  lemma SlowWorkerSharesItsRow() returns (run: seq<Event>)
    ensures Owned(PUBLISHED) && Feasible(PUBLISHED, run)
    ensures Holds(After(PUBLISHED, run), 1, "a") && Holds(After(PUBLISHED, run), 2, "a")
  {
    PublishedIsOwned();
    var late := 6 * MINUTE;
    ClaimOne(PUBLISHED, FRESH, 1);
    var claimed := Claim(FRESH, 0);
    var s1 := OneRow(claimed, map[1 := Holder(claimed, 0, None)], 0, {}, []);
    var s2 := s1.(clock := late);
    ClaimOne(s2, claimed, 2);
    var claim1, claim2 := ClaimBatch(1, 0, {}, 1, {"a"}), ClaimBatch(2, late, {}, 1, {"a"});
    var s3 := Next(s2, claim2);
    Chain(s2, claim2, s3, []);
    Chain(s1, Tick(late), s2, [claim2] + []);
    Chain(PUBLISHED, claim1, s1, [Tick(late)] + ([claim2] + []));
    run := [claim1] + ([Tick(late)] + ([claim2] + []));
  }

  lemma SendOne(s: State, row: Row, w: WorkerId, outcome: Outcome)
    requires w in s.workers && s.workers[w] == Holder(row, 0, None)
    ensures Enabled(s, Send(w, "a", outcome))
    ensures Next(s, Send(w, "a", outcome))
         == s.(workers := s.workers[w := Holder(row, 0, Some(("a", outcome)))],
               accepted := if Accepted(outcome) then s.accepted + {row.eventId} else s.accepted)
  {}

  lemma CommitOne(s: State, stored: Row, row: Row, w: WorkerId, outcome: Outcome)
    requires w in s.workers && s.workers[w] == Holder(row, 0, Some(("a", outcome))) && s.rows == map["a" := stored]
    ensures Enabled(s, Commit(w))
    ensures Next(s, Commit(w)).rows == map["a" := Flush(stored, row, outcome, 0)]
    ensures Next(s, Commit(w)).workers == s.workers - {w}
  {
    assert s.workers[w].held - {"a"} == map[];
  }

  lemma RetryOne(s: State, row: Row)
    requires s.rows == map["a" := row] && row.status != Delivered
    ensures Enabled(s, Retry("a"))
    ensures Next(s, Retry("a")).rows == map["a" := Redrive(row, s.clock)]
    ensures Next(s, Retry("a")) == s.(rows := Next(s, Retry("a")).rows, tries := Next(s, Retry("a")).tries)
  {}

  /** A redrive of a row in flight lets a second worker send it, and then overwrite a delivery. */
  lemma RetryInFlightOverwritesDelivery() returns (before: seq<Event>, after: seq<Event>)
    ensures Owned(PUBLISHED) && Feasible(PUBLISHED, before) && Feasible(After(PUBLISHED, before), after)
    ensures After(PUBLISHED, before).rows.Keys == {"a"} && After(PUBLISHED, before).rows["a"].status == Delivered
    ensures After(After(PUBLISHED, before), after).rows.Keys == {"a"}
    ensures After(After(PUBLISHED, before), after).rows["a"].status == Failed
  {
    hide Enabled, Next, Feasible, After, Owned;
    PublishedIsOwned();
    var claimed, ok, refused := Claim(FRESH, 0), Answered(Some(200)), Answered(Some(500));
    var holder := Holder(claimed, 0, None);
    var claim1, claim2 := ClaimBatch(1, 0, {}, 1, {"a"}), ClaimBatch(2, 0, {}, 1, {"a"});
    ClaimOne(PUBLISHED, FRESH, 1);
    var s1 := Next(PUBLISHED, claim1);
    RetryOne(s1, claimed);
    var s2 := Next(s1, Retry("a"));
    ClaimOne(s2, FRESH, 2);
    var s3 := Next(s2, claim2);
    SendOne(s3, claimed, 1, ok);
    var s4 := Next(s3, Send(1, "a", ok));
    CommitOne(s4, claimed, claimed, 1, ok);
    var s5 := Next(s4, Commit(1));
    SendOne(s5, claimed, 2, refused);
    var s6 := Next(s5, Send(2, "a", refused));
    CommitOne(s6, s5.rows["a"], claimed, 2, refused);
    var s7 := Next(s6, Commit(2));
    Nothing(s5);
    Nothing(s7);
    var commit1, commit2 := [Commit(1)] + [], [Commit(2)] + [];
    Chain(s4, Commit(1), s5, []);
    Chain(s3, Send(1, "a", ok), s4, commit1);
    Chain(s2, claim2, s3, [Send(1, "a", ok)] + commit1);
    Chain(s1, Retry("a"), s2, [claim2] + ([Send(1, "a", ok)] + commit1));
    Chain(PUBLISHED, claim1, s1, [Retry("a")] + ([claim2] + ([Send(1, "a", ok)] + commit1)));
    before := [claim1] + ([Retry("a")] + ([claim2] + ([Send(1, "a", ok)] + commit1)));
    Chain(s6, Commit(2), s7, []);
    Chain(s5, Send(2, "a", refused), s6, commit2);
    after := [Send(2, "a", refused)] + commit2;
  }

  lemma Nothing(s: State)
    ensures Feasible(s, []) && After(s, []) == s
  {}
}
