// What the delivery protocol does not promise by itself: exactly when two
// workers can share a row, and exactly when the attempt count passes eight.

module OutboxLimits {
  import opened Prelude
  import opened Outbox
  import opened OutboxProtocol

  // --- sharing a row -------------------------------------------------------------

  /** One claim by `v` would leave the row held by both workers. */
  ghost predicate CanShare(s: State, w: WorkerId, v: WorkerId, id: Id) {
    v != w && exists e: Event :: SharesBy(s, e, w, v, id)
  }

  ghost predicate SharesBy(s: State, e: Event, w: WorkerId, v: WorkerId, id: Id) {
    e.ClaimBatch? && e.worker == v && Enabled(s, e) && Holds(Next(s, e), w, id) && Holds(Next(s, e), v, id)
  }

  lemma SharedClaim(s: State, e: Event, w: WorkerId, v: WorkerId, id: Id)
    requires v != w && SharesBy(s, e, w, v, id)
    ensures Holds(s, w, id) && id in s.rows && e.passClock <= s.clock && Due(s.rows[id], e.passClock)
  {
    hide Due;
    assert id in e.ids;
  }

  /** The claim of a single row by a worker that finds all others locked. */
  function ClaimAlone(s: State, v: WorkerId, id: Id): Event {
    ClaimBatch(v, s.clock, s.rows.Keys - {id}, 1, {id})
  }

  lemma AloneIsEnabled(s: State, v: WorkerId, id: Id)
    requires id in s.rows && v !in s.workers && Due(s.rows[id], s.clock)
    ensures Enabled(s, ClaimAlone(s, v, id)) && Holds(Next(s, ClaimAlone(s, v, id)), v, id)
    ensures forall w | w != v :: Holds(Next(s, ClaimAlone(s, v, id)), w, id) <==> Holds(s, w, id)
  {
    var e := ClaimAlone(s, v, id);
    assert Selects(s.rows, e.locked, s.clock, 1, e.ids);
  }

  /** A held row can be shared exactly if it is due at some clock the newcomer may read. */
  lemma SharingNeedsDue(s: State, w: WorkerId, v: WorkerId, id: Id)
    requires v !in s.workers && Holds(s, w, id) && id in s.rows
    ensures CanShare(s, w, v, id) <==> exists t :: t <= s.clock && Due(s.rows[id], t)
  {
    hide Due;
    if CanShare(s, w, v, id) {
      var e: Event :| SharesBy(s, e, w, v, id);
      SharedClaim(s, e, w, v, id);
    }
    if t :| t <= s.clock && Due(s.rows[id], t) {
      DueStays(s.rows[id], t, s.clock);
      AloneIsEnabled(s, v, id);
      assert SharesBy(s, ClaimAlone(s, v, id), w, v, id);
    }
  }

  lemma DueStays(row: Row, t: int, later: int)
    requires Due(row, t) && t <= later
    ensures Due(row, later)
  {}

  /** A worker's row can be taken by another as soon as, and only when, the clock has passed the
      worker's claim timeout. */
  lemma SharedIffTimeoutPassed(s: State, w: WorkerId, v: WorkerId, id: Id, clock: int)
    requires Owned(s) && Holds(s, w, id) && v !in s.workers && s.clock <= clock
    ensures Enabled(s, Tick(clock))
    ensures CanShare(Next(s, Tick(clock)), w, v, id) <==> clock > s.workers[w].clock + CLAIM_TIMEOUT
  {
    hide CanShare, TriesMatch;
    assert WorkerOwns(s.workers[w], s.rows, s.clock) && RowKept(s.rows[id], s.accepted);
    var later := Next(s, Tick(clock));
    SharingNeedsDue(later, w, v, id);
    assert clock > s.workers[w].clock + CLAIM_TIMEOUT ==> Due(s.rows[id], clock);
  }

  /** After a redrive the row can be held by two workers exactly if it was held before. */
  lemma RetrySharesIffHeld(s: State, w: WorkerId, v: WorkerId, id: Id)
    requires Owned(s) && Enabled(s, Retry(id)) && v !in s.workers
    ensures CanShare(Next(s, Retry(id)), w, v, id) <==> Holds(s, w, id)
  {
    hide SharesBy;
    var after := Next(s, Retry(id));
    if Holds(s, w, id) {
      assert Due(after.rows[id], after.clock);
      SharingNeedsDue(after, w, v, id);
    } else if CanShare(after, w, v, id) {
      var e: Event :| SharesBy(after, e, w, v, id);
      SharedClaim(after, e, w, v, id);
    }
  }

  // --- counting attempts -----------------------------------------------------------

  predicate Unsettled(row: Row) { row.status != Delivered && row.status != Dead }

  predicate RowWithin(row: Row) {
    row.attempts <= DEAD_AFTER_ATTEMPTS && (Unsettled(row) ==> row.attempts < DEAD_AFTER_ATTEMPTS)
  }

  /** At most eight attempts on every row, and at most seven on a row that may see more. */
  ghost predicate WithinLimit(s: State) {
    && (forall id | id in s.rows :: RowWithin(s.rows[id]))
    && (forall w, id | w in s.workers && id in s.workers[w].held ::
      s.workers[w].held[id].attempts < DEAD_AFTER_ATTEMPTS)
  }

  /** The pass commits an unexpected exception around the row's eighth attempt. */
  predicate RaisedAtEighth(s: State, e: Event) {
    && e.Commit? && CanCommit(s, e.worker)
    && s.workers[e.worker].seen.value.1.Raised?
    && s.workers[e.worker].held[s.workers[e.worker].seen.value.0].attempts == DEAD_AFTER_ATTEMPTS - 1
  }

  lemma FlushWithin(stored: Row, copy: Row, outcome: Outcome, now: int)
    requires RowWithin(stored) && copy.attempts < DEAD_AFTER_ATTEMPTS
    ensures RowWithin(Flush(stored, copy, outcome, now))
       <==> !(outcome.Raised? && copy.attempts == DEAD_AFTER_ATTEMPTS - 1)
  {}

  /** One step breaks the limit exactly if it commits an exception at the eighth attempt. */
  lemma LimitBreaksIffRaised(s: State, e: Event)
    requires WithinLimit(s) && Enabled(s, e)
    ensures WithinLimit(Next(s, e)) <==> !RaisedAtEighth(s, e)
  {
    hide RowWithin, Flush, Accepted, Counted, Selects;
    RowsWithin();
    if e.Commit? {
      var worker := s.workers[e.worker];
      var (id, outcome) := worker.seen.value;
      FlushWithin(s.rows[id], worker.held[id], outcome, worker.clock);
      assert Next(s, e).rows[id] == Flush(s.rows[id], worker.held[id], outcome, worker.clock);
    } else if e.ClaimBatch? {
      ClaimWithin(s, e);
    }
  }

  lemma RowsWithin()
    ensures forall id, when :: RowWithin(NewRow(id, when))
    ensures forall row: Row, now | row.status != Delivered :: RowWithin(Redrive(row, now))
  {}

  lemma ClaimWithin(s: State, e: Event)
    requires WithinLimit(s) && Enabled(s, e) && e.ClaimBatch?
    ensures WithinLimit(Next(s, e))
  {
    hide RowWithin, Due;
    forall id | id in e.ids
      ensures RowWithin(Claim(s.rows[id], e.passClock)) && s.rows[id].attempts < DEAD_AFTER_ATTEMPTS
    {
      DueIsBelow(s.rows[id], e.passClock);
    }
  }

  lemma DueIsBelow(row: Row, now: int)
    requires RowWithin(row) && Due(row, now)
    ensures RowWithin(Claim(row, now)) && row.attempts < DEAD_AFTER_ATTEMPTS
  {}

  /** No pass of the run commits an unexpected exception at an eighth attempt. */
  ghost predicate NoneRaisedAtEighth(s: State, run: seq<Event>)
    requires Feasible(s, run)
    decreases |run|
  {
    run == [] || (!RaisedAtEighth(s, run[0]) && NoneRaisedAtEighth(Next(s, run[0]), run[1..]))
  }

  /** A run, disciplined or not, in which no exception is committed at an eighth attempt keeps every
      row at eight attempts or fewer, and every row that may be sent again at seven or fewer. */
  lemma {:induction false} AttemptsStayWithin(s: State, run: seq<Event>)
    requires WithinLimit(s) && Feasible(s, run) && NoneRaisedAtEighth(s, run)
    ensures WithinLimit(After(s, run))
    decreases |run|
  {
    hide WithinLimit, RaisedAtEighth, Enabled, Next;
    if run != [] {
      LimitBreaksIffRaised(s, run[0]);
      AttemptsStayWithin(Next(s, run[0]), run[1..]);
    }
  }

  /** From an empty start the limit holds at every point of a run exactly if the run is free of
      such commits. */
  lemma LimitHoldsThroughoutIff(s: State, run: seq<Event>)
    requires Initial(s) && Feasible(s, run)
    ensures WithinThroughout(s, run) <==> NoneRaisedAtEighth(s, run)
  {
    LimitHoldsFromIff(s, run);
  }

  lemma {:induction false} LimitHoldsFromIff(s: State, run: seq<Event>)
    requires WithinLimit(s) && Feasible(s, run)
    ensures WithinThroughout(s, run) <==> NoneRaisedAtEighth(s, run)
    decreases |run|
  {
    hide WithinLimit, RaisedAtEighth, Enabled, Next;
    if run != [] {
      LimitBreaksIffRaised(s, run[0]);
      if WithinLimit(Next(s, run[0])) {
        LimitHoldsFromIff(Next(s, run[0]), run[1..]);
      }
    }
  }

  ghost predicate WithinThroughout(s: State, run: seq<Event>)
    requires Feasible(s, run)
    decreases |run|
  {
    WithinLimit(s) && (run == [] || WithinThroughout(Next(s, run[0]), run[1..]))
  }

  // --- a run to any number of attempts --------------------------------------------------

  /** The row "a" waiting for its next attempt, nobody holding it, at the clock it falls due. */
  function Waiting(row: Row, clock: int, accepted: set<Id>, tries: seq<int>): State {
    OneRow(row, map[], clock, accepted, tries)
  }

  ghost predicate Leads(s: State, run: seq<Event>, t: State) {
    DisciplinedRun(s, run) && Feasible(s, run) && After(s, run) == t
  }

  lemma LeadsOn(s: State, e: Event, t: State, rest: seq<Event>, u: State)
    requires Enabled(s, e) && Disciplined(s, e) && Next(s, e) == t && Leads(t, rest, u)
    ensures Leads(s, [e] + rest, u)
  {
    Chain(s, e, t, rest);
    assert ([e] + rest)[1..] == rest;
  }

  lemma {:induction false} LeadsThen(s: State, run: seq<Event>, t: State, e: Event, u: State)
    requires Leads(s, run, t) && Enabled(t, e) && Disciplined(t, e) && Next(t, e) == u
    ensures Leads(s, run + [e], u)
    decreases |run|
  {
    hide Enabled, Disciplined, Next;
    if run == [] {
      LeadsNowhere(u);
      LeadsOn(s, e, u, [], u);
      assert [e] + [] == run + [e];
    } else {
      LeadsThen(Next(s, run[0]), run[1..], t, e, u);
      LeadsOn(s, run[0], Next(s, run[0]), run[1..] + [e], u);
      assert [run[0]] + (run[1..] + [e]) == run + [e];
    }
  }

  lemma LeadsNowhere(s: State)
    ensures Leads(s, [], s)
  {}

  /** The row after one more attempt that ended in an exception at this clock. */
  function RaisedOnce(row: Row, clock: int): Row { Record(Claim(row, clock), Raised, clock) }

  lemma ClaimWaiting(row: Row, clock: int, accepted: set<Id>, tries: seq<int>)
    requires Due(row, clock)
    ensures var s, e := Waiting(row, clock, accepted, tries), ClaimBatch(1, clock, {}, 1, {"a"});
      && Enabled(s, e) && Disciplined(s, e)
      && Next(s, e)
         == OneRow(Claim(row, clock), map[1 := Holder(Claim(row, clock), clock, None)], clock, accepted, tries)
  {
    ClaimOne(Waiting(row, clock, accepted, tries), row, 1);
  }

  lemma SendRaised(row: Row, clock: int, accepted: set<Id>, tries: seq<int>)
    ensures var s, e := OneRow(row, map[1 := Holder(row, clock, None)], clock, accepted, tries), Send(1, "a", Raised);
      && Enabled(s, e) && Disciplined(s, e)
      && Next(s, e) == OneRow(row, map[1 := Holder(row, clock, Some(("a", Raised)))], clock, accepted, tries)
  {}

  lemma CommitRaised(row: Row, clock: int, accepted: set<Id>, tries: seq<int>)
    ensures var s := OneRow(row, map[1 := Holder(row, clock, Some(("a", Raised)))], clock, accepted, tries);
      var e := Commit(1);
      && Enabled(s, e) && Disciplined(s, e)
      && Next(s, e) == Waiting(Record(row, Raised, clock), clock, accepted, tries + [clock])
  {
    var s := OneRow(row, map[1 := Holder(row, clock, Some(("a", Raised)))], clock, accepted, tries);
    var e := Commit(1);
    assert s.workers[1].held - {"a"} == map[];
    assert s.workers - {1} == map[];
    FlushOfExactCopy(row, Raised, clock);
    assert Next(s, e).rows == map["a" := Record(row, Raised, clock)];
    assert Next(s, e).tries == map["a" := tries + [clock]];
  }

  lemma WaitOn(row: Row, clock: int, accepted: set<Id>, tries: seq<int>)
    requires clock <= row.nextAttemptAt
    ensures var s, e := Waiting(row, clock, accepted, tries), Tick(row.nextAttemptAt);
      && Enabled(s, e) && Disciplined(s, e)
      && Next(s, e) == Waiting(row, row.nextAttemptAt, accepted, tries)
  {}

  /** `n` more attempts, each ending in an exception. */
  lemma {:induction false} RaiseMore(row: Row, clock: int, accepted: set<Id>, tries: seq<int>, n: nat)
    returns (run: seq<Event>, last: Row, end: int, all: seq<int>)
    requires (row.status == Pending || row.status == Failed) && row.nextAttemptAt <= clock
    ensures Leads(Waiting(row, clock, accepted, tries), run, Waiting(last, end, accepted, all))
    ensures last.attempts == row.attempts + n && (if n == 0 then last == row else last.status == Failed)
    ensures last.nextAttemptAt <= end
    decreases n
  {
    hide Enabled, Disciplined, Next, Leads, Waiting, OneRow;
    if n == 0 {
      LeadsNowhere(Waiting(row, clock, accepted, tries));
      return [], row, clock, tries;
    }
    var claimed, raised := Claim(row, clock), RaisedOnce(row, clock);
    var due := raised.nextAttemptAt;
    run, last, end, all := RaiseMore(raised, due, accepted, tries + [clock], n - 1);
    var goal := Waiting(last, end, accepted, all);
    WaitOn(raised, clock, accepted, tries + [clock]);
    LeadsOn(Waiting(raised, clock, accepted, tries + [clock]), Tick(due),
            Waiting(raised, due, accepted, tries + [clock]), run, goal);
    run := [Tick(due)] + run;
    CommitRaised(claimed, clock, accepted, tries);
    var seen := OneRow(claimed, map[1 := Holder(claimed, clock, Some(("a", Raised)))], clock, accepted, tries);
    LeadsOn(seen, Commit(1), Waiting(raised, clock, accepted, tries + [clock]), run, goal);
    run := [Commit(1)] + run;
    SendRaised(claimed, clock, accepted, tries);
    var held := OneRow(claimed, map[1 := Holder(claimed, clock, None)], clock, accepted, tries);
    LeadsOn(held, Send(1, "a", Raised), seen, run, goal);
    run := [Send(1, "a", Raised)] + run;
    ClaimWaiting(row, clock, accepted, tries);
    LeadsOn(Waiting(row, clock, accepted, tries), ClaimBatch(1, clock, {}, 1, {"a"}), held, run, goal);
    run := [ClaimBatch(1, clock, {}, 1, {"a"})] + run;
  }

  /** Exceptions take a row to any number of attempts, with every working assumption met, and leave
      it waiting for one more. */
  lemma AttemptsHaveNoBound(n: nat) returns (run: seq<Event>)
    requires n > 0
    ensures DisciplinedRun(PUBLISHED, run) && Feasible(PUBLISHED, run)
    ensures var after := After(PUBLISHED, run).rows;
      after.Keys == {"a"} && after["a"].status == Failed && after["a"].attempts == n
  {
    var last, end, all;
    run, last, end, all := RaiseMore(FRESH, 0, {}, [], n);
    assert PUBLISHED == Waiting(FRESH, 0, {}, []);
  }

  // --- that deliveries happen ------------------------------------------------------------

  /** What is published and due is delivered by one pass whose consumer accepts it. */
  lemma PublishedCanBeDelivered(s: State, id: Id, eventId: Id, when: int, v: WorkerId)
    requires id !in s.rows && v !in s.workers && when <= s.clock
    ensures var published := Next(s, Publish(id, eventId, when));
      var run := [Publish(id, eventId, when), ClaimAlone(published, v, id),
                  Send(v, id, Answered(Some(200))), Commit(v)];
      && Feasible(s, run)
      && id in After(s, run).rows && After(s, run).rows[id].status == Delivered
      && After(s, run).rows[id].eventId == eventId && After(s, run).rows[id].attempts == 1
      && eventId in After(s, run).accepted && v !in After(s, run).workers
  {
    hide Flush, Due, Selects, Accepted, Counted;
    FreshIsDue(eventId, when, s.clock);
    GoodAnswerDelivers(Claim(NewRow(eventId, when), s.clock), s.clock);
    var publish, send, commit := Publish(id, eventId, when), Send(v, id, Answered(Some(200))), Commit(v);
    var published := Next(s, publish);
    var claim := ClaimAlone(published, v, id);
    AloneIsEnabled(published, v, id);
    var claimed := Next(published, claim);
    assert claimed.workers[v].held == map[id := Claim(NewRow(eventId, when), published.clock)];
    var sent := Next(claimed, send);
    assert sent.workers[v].held - {id} == map[];
    var done := Next(sent, commit);
    Nothing(done);
    Chain(sent, commit, done, []);
    Chain(claimed, send, sent, [commit] + []);
    Chain(published, claim, claimed, [send] + ([commit] + []));
    Chain(s, publish, published, [claim] + ([send] + ([commit] + [])));
    assert [publish] + ([claim] + ([send] + ([commit] + []))) == [publish, claim, send, commit];
  }

  lemma FreshIsDue(eventId: Id, when: int, now: int)
    requires when <= now
    ensures Due(NewRow(eventId, when), now)
  {}

  lemma GoodAnswerDelivers(row: Row, now: int)
    ensures var after := Flush(row, row, Answered(Some(200)), now);
      after.status == Delivered && after.eventId == row.eventId && after.attempts == row.attempts + 1
    ensures Accepted(Answered(Some(200)))
  {}

  /** A crash takes the worker and what it had seen, and leaves every row as stored. */
  lemma CrashForgets(s: State, w: WorkerId)
    requires w in s.workers
    ensures var after := Next(s, Crash(w));
      && after.rows == s.rows && w !in after.workers && after.accepted == s.accepted
      && forall v | v != w && v in s.workers :: v in after.workers && after.workers[v] == s.workers[v]
  {}
}
