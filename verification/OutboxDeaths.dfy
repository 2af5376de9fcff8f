// What a row has behind it when a delivery turns it dead, in runs with slow and
// crashing workers, and exactly which redrives put that at risk.

module OutboxDeaths {
  import opened Prelude
  import opened Outbox
  import opened OutboxProtocol
  import opened OutboxLimits
  import opened OutboxFinality

  // --- chains of attempts ----------------------------------------------------------

  /** `c` is what remains of `d` after leaving some entries out. */
  predicate Within(c: seq<int>, d: seq<int>) {
    c == []
    || (d != []
        && ((c[|c| - 1] == d[|d| - 1] && Within(c[..|c| - 1], d[..|d| - 1])) || Within(c, d[..|d| - 1])))
  }

  lemma {:induction false} WithinSize(c: seq<int>, d: seq<int>)
    requires Within(c, d)
    ensures |c| <= |d|
  {
    if c != [] {
      if Within(c, d[..|d| - 1]) {
        WithinSize(c, d[..|d| - 1]);
      } else {
        WithinSize(c[..|c| - 1], d[..|d| - 1]);
      }
    }
  }

  lemma WithinMore(c: seq<int>, d: seq<int>, x: int)
    requires Within(c, d)
    ensures Within(c, d + [x]) && Within(c + [x], d + [x])
  {
    assert (d + [x])[..|d|] == d && (c + [x])[..|c|] == c;
  }

  /** Counted attempts that account for the row's attempt count, spaced by the backoff, with the
      next attempt held back likewise. */
  predicate ChainOf(row: Row, tries: seq<int>, c: seq<int>) {
    && Within(c, tries) && |c| == row.attempts && Spaced(c)
    && (c != [] ==> row.nextAttemptAt >= c[|c| - 1] + BackoffMinutes(|c|) * MINUTE)
  }

  ghost predicate Chained(row: Row, tries: seq<int>) { exists c :: ChainOf(row, tries, c) }

  /** The worker's outcome on the row can no longer be an unsuccessful attempt. */
  predicate Closed(worker: Worker, id: Id) {
    && worker.seen.Some? && worker.seen.value.0 == id
    && (Accepted(worker.seen.value.1) || worker.seen.value.1.EndpointGone?)
  }

  ghost predicate CopyChained(worker: Worker, id: Id, tries: seq<int>)
    requires id in worker.held
  {
    worker.held[id].nextAttemptAt <= worker.clock && Chained(worker.held[id], tries)
  }

  ghost predicate AllChained(s: State) {
    && Kept(s)
    && (forall id | id in s.rows && Unsettled(s.rows[id]) :: Chained(s.rows[id], s.tries[id]))
    && (forall w, id | Holds(s, w, id) && !Closed(s.workers[w], id) :: CopyChained(s.workers[w], id, s.tries[id]))
  }

  lemma EmptyIsChained(s: State)
    requires Initial(s)
    ensures AllChained(s)
  {}

  lemma FreshIsChained(row: Row, tries: seq<int>)
    requires row.attempts == 0
    ensures Chained(row, tries)
  {
    assert ChainOf(row, tries, []);
  }

  lemma ClaimIsChained(row: Row, tries: seq<int>, now: int)
    requires Chained(row, tries)
    ensures Chained(Claim(row, now), tries)
  {
    var c :| ChainOf(row, tries, c);
    assert ChainOf(Claim(row, now), tries, c);
  }

  lemma MoreTries(row: Row, tries: seq<int>, x: int)
    requires Chained(row, tries)
    ensures Chained(row, tries + [x])
  {
    var c :| ChainOf(row, tries, c);
    WithinMore(c, tries, x);
    assert ChainOf(row, tries + [x], c);
  }

  lemma SpacedMore(c: seq<int>, x: int)
    requires Spaced(c) && (c != [] ==> x >= c[|c| - 1] + BackoffMinutes(|c|) * MINUTE)
    ensures Spaced(c + [x])
  {
    var more := c + [x];
    forall i | 0 < i < |more|
      ensures more[i] >= more[i - 1] + BackoffMinutes(i) * MINUTE
    {
      if i < |c| {
        assert c[i] >= c[i - 1] + BackoffMinutes(i) * MINUTE;
      }
    }
  }

  /** The row a worker writes after an unsuccessful attempt is chained if its copy was. */
  lemma FlushChained(stored: Row, copy: Row, outcome: Outcome, now: int, tries: seq<int>)
    requires Chained(copy, tries) && copy.nextAttemptAt <= now && Counted(outcome) && !Accepted(outcome)
    ensures Unsettled(Flush(stored, copy, outcome, now)) ==> Chained(Flush(stored, copy, outcome, now), tries + [now])
    ensures exists c :: Within(c, tries + [now]) && Spaced(c) && |c| == copy.attempts + 1 && c[|c| - 1] == now
  {
    var c :| ChainOf(copy, tries, c);
    WithinMore(c, tries, now);
    SpacedMore(c, now);
    var row := Flush(stored, copy, outcome, now);
    assert Unsettled(row) ==> ChainOf(row, tries + [now], c + [now]);
  }

  // --- runs ------------------------------------------------------------------------

  /** Every worker that holds the row is closed on it, or took it before any attempt was counted. */
  ghost predicate SafeRetry(s: State, id: Id) {
    forall w | Holds(s, w, id) :: Closed(s.workers[w], id) || s.workers[w].held[id].attempts == 0
  }

  /** The only working assumption left: redrives are safe. Workers may be as slow as they like. */
  ghost predicate Careful(s: State, run: seq<Event>): (careful: bool)
    ensures careful ==> Feasible(s, run)
    decreases |run|
  {
    run == []
    || (Enabled(s, run[0]) && (run[0].Retry? ==> SafeRetry(s, run[0].id)) && Careful(Next(s, run[0]), run[1..]))
  }

  lemma CommitChained(s: State, w: WorkerId)
    requires AllChained(s) && CanCommit(s, w)
    ensures AllChained(Committed(s, w))
  {
    hide Flush, Accepted, Counted, RowKept, Chained, Unsettled, Kept;
    KeptTries(s);
    CommitKeeps(s, w);
    KeptTries(Committed(s, w));
    var worker := s.workers[w];
    var (id, outcome) := worker.seen.value;
    var row := Flush(s.rows[id], worker.held[id], outcome, worker.clock);
    assert Holds(s, w, id);
    if !Closed(worker, id) {
      OpenIsCounted(outcome);
      FlushChained(s.rows[id], worker.held[id], outcome, worker.clock, s.tries[id]);
    } else {
      ClosedSettles(s.rows[id], worker.held[id], outcome, worker.clock);
    }
    forall v | Holds(Committed(s, w), v, id) && !Closed(Committed(s, w).workers[v], id)
      ensures CopyChained(Committed(s, w).workers[v], id, Committed(s, w).tries[id])
    {
      assert v != w && Holds(s, v, id);
      MoreTries(s.workers[v].held[id], s.tries[id], worker.clock);
    }
    forall v, other | Holds(Committed(s, w), v, other) && !Closed(Committed(s, w).workers[v], other) && other != id
      ensures CopyChained(Committed(s, w).workers[v], other, Committed(s, w).tries[other])
    {
      assert Holds(s, v, other) && !Closed(s.workers[v], other);
    }
  }

  lemma KeptTries(s: State)
    requires Kept(s)
    ensures s.tries.Keys == s.rows.Keys
    ensures forall w, id | Holds(s, w, id) :: id in s.rows
  {
    hide RowKept;
    forall w, id | Holds(s, w, id)
      ensures id in s.rows
    {
      assert WorkerKept(s.workers[w], s.rows, s.accepted);
    }
  }

  lemma OpenIsCounted(outcome: Outcome)
    ensures !(Accepted(outcome) || outcome.EndpointGone?) ==> Counted(outcome)
  {}

  lemma ClosedSettles(stored: Row, copy: Row, outcome: Outcome, now: int)
    requires Accepted(outcome) || outcome.EndpointGone?
    ensures !Unsettled(Flush(stored, copy, outcome, now))
  {}

  lemma ClaimChained(s: State, e: Event)
    requires AllChained(s) && Enabled(s, e) && e.ClaimBatch?
    ensures AllChained(Next(s, e))
  {
    hide Chained, Kept, Due;
    KeptTries(s);
    ClaimKeeps'(s, e);
    KeptTries(Next(s, e));
    forall id | id in e.ids
      ensures Chained(Claim(s.rows[id], e.passClock), s.tries[id]) && s.rows[id].nextAttemptAt <= e.passClock
    {
      DueIsWaiting(s.rows[id], e.passClock);
      ClaimIsChained(s.rows[id], s.tries[id], e.passClock);
    }
    forall w, id | Holds(Next(s, e), w, id) && !Closed(Next(s, e).workers[w], id)
      ensures CopyChained(Next(s, e).workers[w], id, Next(s, e).tries[id])
    {
      assert w != e.worker ==> Holds(s, w, id) && !Closed(s.workers[w], id);
    }
  }

  lemma DueIsWaiting(row: Row, now: int)
    requires Due(row, now)
    ensures Unsettled(row) && row.nextAttemptAt <= now
  {}

  /** A step keeps all chains; a redrive does if it is safe. */
  lemma StepChained(s: State, e: Event)
    requires AllChained(s) && Enabled(s, e) && (e.Retry? ==> SafeRetry(s, e.id))
    ensures AllChained(Next(s, e))
  {
    if e.Commit? {
      CommitNext(s, e);
      CommitChained(s, e.worker);
    } else if e.ClaimBatch? {
      ClaimChained(s, e);
    } else {
      QuietChained(s, e);
    }
  }

  lemma QuietChained(s: State, e: Event)
    requires AllChained(s) && Enabled(s, e) && (e.Retry? ==> SafeRetry(s, e.id)) && !e.Commit? && !e.ClaimBatch?
    ensures AllChained(Next(s, e))
  {
    hide Chained, Kept, Accepted;
    KeptTries(s);
    StepKeeps(s, e);
    KeptTries(Next(s, e));
    if e.Publish? || e.Retry? {
      FreshIsChained(Next(s, e).rows[e.id], []);
    }
    forall w, id | Holds(Next(s, e), w, id) && !Closed(Next(s, e).workers[w], id)
      ensures CopyChained(Next(s, e).workers[w], id, Next(s, e).tries[id])
    {
      assert Holds(s, w, id) && !Closed(s.workers[w], id);
      if e.Retry? && e.id == id {
        FreshIsChained(s.workers[w].held[id], []);
      }
    }
  }

  lemma {:induction false} RunChained(s: State, run: seq<Event>)
    requires AllChained(s) && Careful(s, run)
    ensures AllChained(After(s, run))
    decreases |run|
  {
    hide AllChained, Enabled, Next, SafeRetry;
    if run != [] {
      StepChained(s, run[0]);
      RunChained(Next(s, run[0]), run[1..]);
    }
  }

  // --- dying -----------------------------------------------------------------------

  /** At least eight of the counted attempts are spaced by the backoff, up to the one at this
      clock, the first and the last of them 182 minutes apart or more. */
  ghost predicate Earned(tries: seq<int>, clock: int) {
    exists c :: Within(c, tries) && EightSpaced(c) && c[|c| - 1] == clock
  }

  predicate EightSpaced(c: seq<int>) {
    |c| >= DEAD_AFTER_ATTEMPTS && Spaced(c) && c[|c| - 1] - c[0] >= 182 * MINUTE
  }

  /** The worker's next commit records an answer that turns its row dead. */
  predicate Kills(s: State, w: WorkerId) {
    && CanCommit(s, w) && s.workers[w].seen.value.1.Answered?
    && Committed(s, w).rows[s.workers[w].seen.value.0].status == Dead
  }

  ghost predicate EarnedDeath(s: State, w: WorkerId)
    requires Kills(s, w)
  {
    && s.workers[w].seen.value.0 in Committed(s, w).tries
    && Earned(Committed(s, w).tries[s.workers[w].seen.value.0], s.workers[w].clock)
  }

  lemma EnoughIsEarned(tries: seq<int>, c: seq<int>)
    requires Within(c, tries) && Spaced(c) && |c| >= DEAD_AFTER_ATTEMPTS
    ensures Earned(tries, c[|c| - 1]) && |tries| >= DEAD_AFTER_ATTEMPTS
  {
    BackoffSchedule();
    SpacedSpan(c, |c| - 1);
    TotalGrows(7, |c| - 1);
    WithinSize(c, tries);
    assert EightSpaced(c);
  }

  lemma KillIsUnsuccessful(stored: Row, copy: Row, outcome: Outcome, now: int)
    requires outcome.Answered? && Flush(stored, copy, outcome, now).status == Dead
    ensures !Accepted(outcome) && Counted(outcome) && copy.attempts + 1 >= DEAD_AFTER_ATTEMPTS
  {}

  lemma KillsAreEarned(s: State, w: WorkerId)
    requires AllChained(s) && Kills(s, w)
    ensures EarnedDeath(s, w) && |Committed(s, w).tries[s.workers[w].seen.value.0]| >= DEAD_AFTER_ATTEMPTS
  {
    hide Kept, Flush, Accepted, Counted, Chained, Earned, Within, Spaced;
    KeptTries(s);
    var worker := s.workers[w];
    var (id, outcome) := worker.seen.value;
    assert Holds(s, w, id);
    KillIsUnsuccessful(s.rows[id], worker.held[id], outcome, worker.clock);
    FlushChained(s.rows[id], worker.held[id], outcome, worker.clock, s.tries[id]);
    var c :| Within(c, s.tries[id] + [worker.clock]) && Spaced(c) && |c| == worker.held[id].attempts + 1
             && c[|c| - 1] == worker.clock;
    EnoughIsEarned(s.tries[id] + [worker.clock], c);
  }

  /** Whatever crashes, exceptions and slow workers intervene, a row that a delivery turns dead has
      at least eight counted attempts since it was published or redriven, and eight of them span
      182 minutes or more, as long as redrives are safe. */
  lemma DeadAfterEightSpacedAttempts(start: State, run: seq<Event>, w: WorkerId)
    requires Initial(start) && Careful(start, run) && Kills(After(start, run), w)
    ensures var s := After(start, run);
      EarnedDeath(s, w) && |Committed(s, w).tries[s.workers[w].seen.value.0]| >= DEAD_AFTER_ATTEMPTS
  {
    hide AllChained, Careful, Kills, EarnedDeath, Initial;
    EmptyIsChained(start);
    RunChained(start, run);
    KillsAreEarned(After(start, run), w);
  }

  // --- exactly which redrives are safe ----------------------------------------------

  /** A redrive is safe as long as no later run, however careful, lets a row die undeserved. */
  ghost predicate DeathsStayEarned(s: State) {
    forall run, w | Careful(s, run) && Kills(After(s, run), w) :: EarnedDeath(After(s, run), w)
  }

  /** The next commit of `w` kills the row after too few counted attempts. */
  ghost predicate DiesEarly(s: State, w: WorkerId, id: Id) {
    && Kills(s, w) && s.workers[w].seen.value.0 == id
    && id in Committed(s, w).tries && |Committed(s, w).tries[id]| < DEAD_AFTER_ATTEMPTS
  }

  lemma EarlyIsUnearned(s: State, w: WorkerId, id: Id)
    requires DiesEarly(s, w, id)
    ensures !EarnedDeath(s, w)
  {
    hide Flush;
    var tries := Committed(s, w).tries[id];
    forall c | Within(c, tries)
      ensures !EightSpaced(c)
    {
      WithinSize(c, tries);
    }
  }

  lemma CarefulStep(s: State, e: Event, t: State, rest: seq<Event>)
    requires Enabled(s, e) && !e.Retry? && Next(s, e) == t && Careful(t, rest)
    ensures Careful(s, [e] + rest) && After(s, [e] + rest) == After(t, rest)
  {
    assert ([e] + rest)[1..] == rest;
  }

  lemma NoSteps(s: State)
    ensures Careful(s, []) && After(s, []) == s
  {}

  lemma {:induction false} FreshWorker(taken: set<WorkerId>) returns (v: WorkerId)
    ensures forall w | w in taken :: w < v
  {
    if taken == {} {
      return 0;
    }
    var w :| w in taken;
    v := FreshWorker(taken - {w});
    assert forall u | u in taken :: u == w || u in taken - {w};
    if v <= w {
      v := w + 1;
    }
  }

  const REFUSED := Answered(Some(500))

  /** A live worker has seen an unsuccessful attempt on the row. */
  ghost predicate HasFailed(s: State, w: WorkerId, id: Id) {
    && Kept(s) && CanCommit(s, w) && s.workers[w].seen.value.0 == id
    && !Closed(s.workers[w], id)
  }

  /** From an unheld or a taken but unseen row to one on which an attempt failed. */
  lemma TryAgain(s: State, id: Id) returns (run: seq<Event>, v: WorkerId)
    requires Kept(s) && id in s.rows && s.rows[id].status == Failed
    ensures Careful(s, run)
    ensures var t := After(s, run);
      && HasFailed(t, v, id) && t.workers[v].seen.value.1 == REFUSED
      && t.workers[v].held[id].attempts == s.rows[id].attempts && t.tries == s.tries
  {
    hide Kept;
    v := FreshWorker(s.workers.Keys);
    var row := s.rows[id];
    var wait := Tick(Max(s.clock, row.nextAttemptAt));
    var due := Next(s, wait);
    var claim := ClaimAlone(due, v, id);
    assert v !in s.workers && Due(row, due.clock);
    AloneIsEnabled(due, v, id);
    var held := Next(due, claim);
    assert held.workers[v] == Worker(due.clock, map[id := Claim(row, due.clock)], None);
    StepKeeps(s, wait);
    StepKeeps(due, claim);
    run, v := FailUnseen(held, v, id);
    CarefulStep(due, claim, held, run);
    run := [claim] + run;
    CarefulStep(s, wait, due, run);
    run := [wait] + run;
  }

  lemma FailUnseen(s: State, w: WorkerId, id: Id) returns (run: seq<Event>, v: WorkerId)
    requires Kept(s) && Holds(s, w, id) && s.workers[w].seen.None?
    ensures v == w && Careful(s, run)
    ensures var t := After(s, run);
      && HasFailed(t, w, id) && t.workers[w].seen.value.1 == REFUSED
      && t.workers[w].held[id].attempts == s.workers[w].held[id].attempts && t.tries == s.tries
  {
    hide Kept;
    KeptTries(s);
    var send := Send(w, id, REFUSED);
    StepKeeps(s, send);
    NoSteps(Next(s, send));
    CarefulStep(s, send, Next(s, send), []);
    return [send] + [], w;
  }

  /** Any holder that is not closed on the row can come to have failed on it. */
  lemma FailHeld(s: State, w: WorkerId, id: Id) returns (run: seq<Event>)
    requires Kept(s) && Holds(s, w, id) && !Closed(s.workers[w], id)
    ensures Careful(s, run)
    ensures var t := After(s, run);
      && HasFailed(t, w, id) && t.workers[w].held[id].attempts == s.workers[w].held[id].attempts
      && id in s.tries && id in t.tries && t.tries[id] == s.tries[id]
  {
    hide Kept, Flush, Accepted;
    KeptTries(s);
    SeenIsHeld(s, w);
    var v;
    var seen := s.workers[w].seen;
    if seen.None? {
      run, v := FailUnseen(s, w, id);
    } else if seen.value.0 == id {
      NoSteps(s);
      run := [];
    } else {
      var commit := Commit(w);
      var next := Next(s, commit);
      CommitKeeps(s, w);
      KeptTries(next);
      assert id in s.workers[w].held - {seen.value.0};
      assert next.workers[w].seen.None? && next.workers[w].held[id] == s.workers[w].held[id] && Holds(next, w, id);
      assert next.tries[id] == s.tries[id];
      run, v := FailUnseen(next, w, id);
      CarefulStep(s, commit, next, run);
      run := [commit] + run;
    }
  }

  lemma SeenIsHeld(s: State, w: WorkerId)
    requires Kept(s) && w in s.workers
    ensures s.workers[w].seen.Some? ==> CanCommit(s, w)
  {
    hide RowKept;
    assert WorkerKept(s.workers[w], s.rows, s.accepted);
  }

  /** Committing an unsuccessful attempt kills the row or leaves it failed with one more counted. */
  lemma FailedCommit(s: State, w: WorkerId, id: Id)
    requires HasFailed(s, w, id)
    ensures CanCommit(s, w) && s.workers[w].seen.value.0 == id && id in s.workers[w].held
    ensures var t := Committed(s, w);
      && Enabled(s, Commit(w)) && Next(s, Commit(w)) == t && Kept(t) && id in s.tries
      && id in t.rows && t.rows[id].attempts == s.workers[w].held[id].attempts + 1
      && t.tries == s.tries[id := s.tries[id] + [s.workers[w].clock]]
      && (Kills(s, w) <==> t.rows[id].status == Dead && s.workers[w].seen.value.1.Answered?)
      && (t.rows[id].status == Failed || Kills(s, w))
      && (Kills(s, w) <==> s.workers[w].seen.value.1.Answered? && t.rows[id].attempts >= DEAD_AFTER_ATTEMPTS)
  {
    hide Kept, Accepted;
    CommitKeeps(s, w);
    KeptTries(s);
  }

  /** A failed row whose attempt count runs ahead of its counted attempts can die early. */
  lemma {:induction false} DieEarly(s: State, id: Id) returns (run: seq<Event>, v: WorkerId)
    requires Kept(s) && id in s.rows && id in s.tries && s.rows[id].status == Failed
    requires |s.tries[id]| + Max(1, DEAD_AFTER_ATTEMPTS - s.rows[id].attempts) < DEAD_AFTER_ATTEMPTS
    ensures Careful(s, run) && DiesEarly(After(s, run), v, id)
    decreases Max(0, DEAD_AFTER_ATTEMPTS - s.rows[id].attempts)
  {
    hide Kept, Enabled, Next, Careful, After, Kills, CanCommit, Committed, HasFailed;
    run, v := TryAgain(s, id);
    var t := After(s, run);
    FailedCommit(t, v, id);
    if !Kills(t, v) {
      var rest, u := DieEarly(Committed(t, v), id);
      CarefulStep(t, Commit(v), Committed(t, v), rest);
      CarefulJoin(s, run, [Commit(v)] + rest);
      run, v := run + ([Commit(v)] + rest), u;
    }
  }

  lemma {:induction false} CarefulJoin(s: State, run: seq<Event>, rest: seq<Event>)
    requires Careful(s, run) && Careful(After(s, run), rest)
    ensures Careful(s, run + rest) && After(s, run + rest) == After(After(s, run), rest)
    decreases |run|
  {
    hide Enabled, Next, SafeRetry;
    if run == [] {
      assert run + rest == rest;
    } else {
      CarefulJoin(Next(s, run[0]), run[1..], rest);
      assert (run + rest)[1..] == run[1..] + rest;
    }
  }

  /** After any careful run, a redrive keeps every later death earned exactly if it is safe. */
  lemma RetryKeepsDeathsEarnedIffSafe(start: State, run: seq<Event>, id: Id)
    requires Initial(start) && Careful(start, run) && Enabled(After(start, run), Retry(id))
    ensures DeathsStayEarned(Next(After(start, run), Retry(id))) <==> SafeRetry(After(start, run), id)
  {
    hide AllChained, Careful, Enabled, SafeRetry, DeathsStayEarned, Initial;
    EmptyIsChained(start);
    RunChained(start, run);
    EarnedIffSafe(After(start, run), id);
  }

  lemma EarnedIffSafe(s: State, id: Id)
    requires AllChained(s) && Enabled(s, Retry(id))
    ensures DeathsStayEarned(Next(s, Retry(id))) <==> SafeRetry(s, id)
  {
    hide Kept, Chained, Careful, After, Kills, EarnedDeath, Closed;
    var t := Next(s, Retry(id));
    if SafeRetry(s, id) {
      StepChained(s, Retry(id));
      forall run, w | Careful(t, run) && Kills(After(t, run), w)
        ensures EarnedDeath(After(t, run), w)
      {
        RunChained(t, run);
        KillsAreEarned(After(t, run), w);
      }
    } else {
      var w :| Holds(s, w, id) && !Closed(s.workers[w], id) && s.workers[w].held[id].attempts > 0;
      var run, v := RetriedDiesEarly(s, w, id);
      EarlyIsUnearned(After(t, run), v, id);
    }
  }

  /** An unsafe redrive lets the row die after fewer than eight counted attempts. */
  lemma RetriedDiesEarly(s: State, w: WorkerId, id: Id) returns (run: seq<Event>, v: WorkerId)
    requires Kept(s) && Enabled(s, Retry(id))
    requires Holds(s, w, id) && !Closed(s.workers[w], id) && s.workers[w].held[id].attempts > 0
    ensures Careful(Next(s, Retry(id)), run) && DiesEarly(After(Next(s, Retry(id)), run), v, id)
  {
    hide Kept, Careful, After, Kills, Closed, CanCommit, Committed, HasFailed;
    var t := Next(s, Retry(id));
    StepKeeps(s, Retry(id));
    assert t.tries[id] == [] && t.workers == s.workers && Holds(t, w, id);
    run := FailHeld(t, w, id);
    v := w;
    var u := After(t, run);
    FailedCommit(u, w, id);
    if !Kills(u, w) {
      var rest;
      rest, v := DieEarly(Committed(u, w), id);
      CarefulStep(u, Commit(w), Committed(u, w), rest);
      CarefulJoin(t, run, [Commit(w)] + rest);
      run := run + ([Commit(w)] + rest);
    }
  }

  /** For every n: from publishing on, a run that meets all working assumptions leads to a redrive of
      a row in flight with n attempts, after which the row dies early. */
  lemma RetryInFlightShortensLife(n: nat) returns (before: seq<Event>, after: seq<Event>, v: WorkerId)
    requires n > 0
    ensures DisciplinedRun(PUBLISHED, before) && Feasible(PUBLISHED, before)
    ensures var s := After(PUBLISHED, before);
      && "a" in s.rows && s.rows["a"].attempts == n && Enabled(s, Retry("a"))
      && Careful(Next(s, Retry("a")), after) && DiesEarly(After(Next(s, Retry("a")), after), v, "a")
  {
    hide Next, Careful, After, Kills, Closed, Feasible, DisciplinedRun, Leads;
    var run, last, end, tries := RaiseMore(FRESH, 0, {}, [], n);
    ClaimWaiting(last, end, {}, tries);
    var claim := ClaimBatch(1, end, {}, 1, {"a"});
    var held := OneRow(Claim(last, end), map[1 := Holder(Claim(last, end), end, None)], end, {}, tries);
    assert PUBLISHED == Waiting(FRESH, 0, {}, []);
    LeadsThen(PUBLISHED, run, Waiting(last, end, {}, tries), claim, held);
    before := run + [claim];
    LeadsTo(PUBLISHED, before, held);
    PublishedIsOwned();
    RunKeeps(PUBLISHED, before);
    Unclosed(held, 1, "a");
    after, v := RetriedDiesEarly(held, 1, "a");
  }

  lemma LeadsTo(s: State, run: seq<Event>, t: State)
    requires Leads(s, run, t)
    ensures DisciplinedRun(s, run) && Feasible(s, run) && After(s, run) == t
  {}

  lemma Unclosed(s: State, w: WorkerId, id: Id)
    requires w in s.workers && s.workers[w].seen.None?
    ensures !Closed(s.workers[w], id)
  {}
}
