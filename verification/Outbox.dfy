// One outbox row: when it is due, what claiming, recording and redriving do to
// it, and the backoff schedule. Instants are in microseconds.

module Outbox {
  import opened Prelude

  type Id = string

  const MINUTE := 60_000_000
  const MAX_BACKOFF_MINUTES := 60
  const DEAD_AFTER_ATTEMPTS := 8
  const CLAIM_TIMEOUT := 5 * MINUTE

  datatype Status = Pending | Delivering | Delivered | Failed | Dead

  datatype Row = Row(
    eventId: Id, status: Status, attempts: nat, nextAttemptAt: int, claimedAt: Option<int>,
    lastStatusCode: Option<int>, deliveredAt: Option<int>)

  function NewRow(eventId: Id, when: int): Row { Row(eventId, Pending, 0, when, None, None, None) }

  function Pow2(n: nat): (r: nat)
    ensures r >= 1
  {
    if n == 0 then 1 else 2 * Pow2(n - 1)
  }

  function BackoffMinutes(attempts: nat): (minutes: int)
    ensures 1 <= minutes <= MAX_BACKOFF_MINUTES
  {
    Min(Pow2(attempts), MAX_BACKOFF_MINUTES)
  }

  function NextAttemptAfter(attempts: nat, now: int): int { now + BackoffMinutes(attempts) * MINUTE }

  /** What came back from one pass over a claimed row. */
  datatype Outcome =
    | Answered(statusCode: Option<int>)    // a response, or a transport error (no code)
    | Raised                               // an unexpected exception around the delivery
    | EndpointGone                         // the endpoint row no longer exists

  predicate Accepted(outcome: Outcome) {
    outcome.Answered? && outcome.statusCode.Some? && 200 <= outcome.statusCode.value < 300
  }

  predicate Counted(outcome: Outcome) { !outcome.EndpointGone? }

  /** The row after the pass at clock `now` has recorded its outcome. */
  function Record(row: Row, outcome: Outcome, now: int): Row {
    match outcome
    case EndpointGone => row.(status := Dead, claimedAt := None)
    case Raised =>
      row.(status := Failed, attempts := row.attempts + 1, claimedAt := None,
           nextAttemptAt := NextAttemptAfter(row.attempts + 1, now))
    case Answered(code) =>
      var counted := row.(attempts := row.attempts + 1, lastStatusCode := code, claimedAt := None);
      if Accepted(outcome) then counted.(status := Delivered, deliveredAt := Some(now))
      else if counted.attempts >= DEAD_AFTER_ATTEMPTS then counted.(status := Dead)
      else counted.(status := Failed, nextAttemptAt := NextAttemptAfter(counted.attempts, now))
  }

  /** Minutes to wait after the n-th attempt, one by one. */
  function Delay(n: nat): int {
    if n == 0 then 1 else if n == 1 then 2 else if n == 2 then 4 else if n == 3 then 8
    else if n == 4 then 16 else if n == 5 then 32 else 60
  }

  /** What a pass leaves of a row, outcome by outcome: an answer from 200 to 299 delivers it, the
      eighth attempt refused kills it, any other is tried again after the delay. */
  predicate Recorded(before: Row, outcome: Outcome, now: int, after: Row) {
    var later := now + Delay(before.attempts + 1) * 60_000_000;
    match outcome
    case EndpointGone => after == before.(status := Dead, claimedAt := None)
    case Raised =>
      after == before.(status := Failed, attempts := before.attempts + 1, claimedAt := None, nextAttemptAt := later)
    case Answered(code) =>
      && after.eventId == before.eventId && after.attempts == before.attempts + 1
      && after.claimedAt == None && after.lastStatusCode == code
      && (code.Some? && 200 <= code.value <= 299 ==>
            after.status == Delivered && after.deliveredAt == Some(now) && after.nextAttemptAt == before.nextAttemptAt)
      && (!(code.Some? && 200 <= code.value <= 299) && before.attempts + 1 >= 8 ==>
            after.status == Dead && after.deliveredAt == before.deliveredAt
              && after.nextAttemptAt == before.nextAttemptAt)
      && (!(code.Some? && 200 <= code.value <= 299) && before.attempts + 1 < 8 ==>
            after.status == Failed && after.deliveredAt == before.deliveredAt && after.nextAttemptAt == later)
  }

  lemma RecordIsRecorded(row: Row, outcome: Outcome, now: int)
    ensures Recorded(row, outcome, now, Record(row, outcome, now))
    ensures BackoffMinutes(row.attempts + 1) == Delay(row.attempts + 1)
  {
    DelayIsBackoff(row.attempts + 1);
  }

  lemma DelayIsBackoff(n: nat)
    ensures BackoffMinutes(n) == Delay(n)
  {
    BackoffSchedule();
    assert Pow2(1) == 2 && Pow2(2) == 4 && Pow2(3) == 8;
    assert Pow2(4) == 16 && Pow2(5) == 32;
  }

  predicate Due(row: Row, now: int) {
    && (|| row.status == Pending || row.status == Failed
        || (row.status == Delivering && row.claimedAt.Some? && row.claimedAt.value < now - CLAIM_TIMEOUT))
    && row.nextAttemptAt <= now
  }

  function Claim(row: Row, now: int): Row { row.(status := Delivering, claimedAt := Some(now)) }

  /** An operator's retry; a delivered row is refused. */
  function Redrive(row: Row, now: int): Row
    requires row.status != Delivered
  {
    row.(status := Pending, attempts := 0, claimedAt := None, nextAttemptAt := now)
  }

  /** The claim query's answer: at most `limit` due rows, skipping locked ones, earliest first. */
  ghost predicate Selects(rows: map<Id, Row>, locked: set<Id>, now: int, limit: nat, ids: set<Id>) {
    && (forall id | id in ids :: id in rows && id !in locked && Due(rows[id], now))
    && |ids| <= limit
    && (forall id | id in rows && id !in ids && id !in locked && Due(rows[id], now) ::
          |ids| == limit && forall taken | taken in ids :: rows[taken].nextAttemptAt <= rows[id].nextAttemptAt)
  }

  /** Some claim at this clock can take the row exactly if its time has come and it is waiting, or
      was claimed more than five minutes ago and never recorded. */
  lemma ClaimableIff(rows: map<Id, Row>, id: Id, now: int)
    requires id in rows
    ensures (exists locked, limit, ids :: id in ids && Selects(rows, locked, now, limit, ids))
       <==> var row := rows[id];
            && row.nextAttemptAt <= now
            && (row.status == Pending || row.status == Failed
                || (row.status == Delivering && row.claimedAt.Some? && row.claimedAt.value + 300_000_000 < now))
  {
    if Due(rows[id], now) {
      assert Selects(rows, rows.Keys - {id}, now, 1, {id});
    }
  }

  /** A claim takes the batch size, or all there is to take. */
  lemma TakesAsManyAsItMay(rows: map<Id, Row>, locked: set<Id>, now: int, limit: nat, ids: set<Id>)
    requires Selects(rows, locked, now, limit, ids)
    ensures |ids| == Min(limit, |set id | id in rows && id !in locked && Due(rows[id], now)|)
  {
    var due := set id | id in rows && id !in locked && Due(rows[id], now);
    assert ids <= due;
    SubsetSize(ids, due);
    if ids != due {
      var left :| left in due && left !in ids;
    }
  }

  // --- backoff ---------------------------------------------------------------

  /** Minutes from the first of `n` failed attempts to the earliest clock of the next one. */
  function BackoffTotal(n: nat): int {
    if n == 0 then 0 else BackoffTotal(n - 1) + BackoffMinutes(n)
  }

  lemma BackoffSchedule()
    ensures BackoffTotal(7) == 182
    ensures forall n: nat | n >= 6 :: BackoffMinutes(n) == 60
  {
    assert Pow2(1) == 2 && Pow2(2) == 4 && Pow2(3) == 8;
    assert Pow2(4) == 16 && Pow2(5) == 32 && Pow2(6) == 64;
    forall n: nat | n >= 6 ensures Pow2(n) >= 64 { Pow2Grows(6, n); }
    assert BackoffTotal(3) == 14;
    assert BackoffTotal(5) == 62;
  }

  lemma {:induction false} Pow2Grows(m: nat, n: nat)
    requires m <= n
    ensures Pow2(m) <= Pow2(n)
  {
    if m < n { Pow2Grows(m, n - 1); }
  }

  /** Clocks at which a row was attempted, each late enough after the one before. */
  predicate Spaced(clocks: seq<int>) {
    forall i | 0 < i < |clocks| :: clocks[i] >= clocks[i - 1] + BackoffMinutes(i) * MINUTE
  }

  lemma {:induction false} SpacedSpan(clocks: seq<int>, n: nat)
    requires Spaced(clocks) && n < |clocks|
    ensures clocks[n] - clocks[0] >= BackoffTotal(n) * MINUTE
  {
    if n > 0 {
      SpacedSpan(clocks, n - 1);
      assert clocks[n] >= clocks[n - 1] + BackoffMinutes(n) * MINUTE;
    }
  }

  /** Rows that a claim at `now` could take no later than `id`. */
  ghost function Ahead(rows: map<Id, Row>, locked: set<Id>, now: int, id: Id): set<Id>
    requires id in rows
  {
    set other | other in rows && other != id && other !in locked && Due(rows[other], now)
             && rows[other].nextAttemptAt <= rows[id].nextAttemptAt
  }

  /** A due row with fewer than `limit` rows ahead of it is taken by the next pass. */
  lemma ClaimedInTurn(rows: map<Id, Row>, locked: set<Id>, now: int, limit: nat, ids: set<Id>, id: Id)
    requires Selects(rows, locked, now, limit, ids)
    requires id in rows && id !in locked && Due(rows[id], now) && |Ahead(rows, locked, now, id)| < limit
    ensures id in ids
  {
    if id !in ids {
      assert ids <= Ahead(rows, locked, now, id);
      SubsetSize(ids, Ahead(rows, locked, now, id));
    }
  }
}
