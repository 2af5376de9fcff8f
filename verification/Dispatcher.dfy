// The dispatcher's code over row objects: delivering one row, one whole pass,
// and the operator's retry.

module Dispatcher {
  import opened Prelude
  import opened Outbox

  class OutboxRow {
    const eventId: Id
    var status: Status
    var attempts: nat
    var nextAttemptAt: int
    var claimedAt: Option<int>
    var lastStatusCode: Option<int>
    var deliveredAt: Option<int>

    ghost function Value(): Row
      reads this
    {
      Row(eventId, status, attempts, nextAttemptAt, claimedAt, lastStatusCode, deliveredAt)
    }

    constructor (eventId: Id, when: int)
      ensures Value() == NewRow(eventId, when)
      ensures this.eventId == eventId && status == Pending && attempts == 0 && nextAttemptAt == when
      ensures claimedAt == None && lastStatusCode == None && deliveredAt == None
    {
      this.eventId := eventId;
      status, attempts, nextAttemptAt := Pending, 0, when;
      claimedAt, lastStatusCode, deliveredAt := None, None, None;
    }

    /** Records the answer to one delivery; returns whether it was a 2xx. */
    method DeliverOnce(statusCode: Option<int>, now: int) returns (ok: bool)
      modifies this
      ensures Value() == Record(old(Value()), Answered(statusCode), now)
      ensures Recorded(old(Value()), Answered(statusCode), now, Value())
      ensures ok == (status == Delivered) == (statusCode.Some? && 200 <= statusCode.value <= 299)
      ensures status == Dead <==> !ok && attempts >= 8
      ensures status == Failed <==> !ok && attempts < 8
    {
      RecordIsRecorded(Value(), Answered(statusCode), now);
      attempts := attempts + 1;
      lastStatusCode := statusCode;
      claimedAt := None;
      ok := statusCode.Some? && 200 <= statusCode.value < 300;
      if ok {
        status := Delivered;
        deliveredAt := Some(now);
        return;
      }
      if attempts >= DEAD_AFTER_ATTEMPTS {
        status := Dead;
      } else {
        status := Failed;
        nextAttemptAt := NextAttemptAfter(attempts, now);
      }
    }

    /** Puts the row back in the queue, unless it was delivered. */
    method Retry(now: int) returns (accepted: bool)
      modifies this
      ensures accepted <==> old(status) != Delivered
      ensures accepted ==> Value() == Redrive(old(Value()), now)
      ensures accepted ==> status == Pending && attempts == 0 && claimedAt == None && nextAttemptAt == now
      ensures lastStatusCode == old(lastStatusCode) && deliveredAt == old(deliveredAt)
      ensures !accepted ==> Value() == old(Value())
    {
      if status == Delivered {
        return false;
      }
      status := Pending;
      attempts := 0;
      claimedAt := None;
      nextAttemptAt := now;
      return true;
    }
  }

  datatype Totals = Totals(delivered: nat, failed: nat, dead: nat) {
    function Sum(): nat { delivered + failed + dead }
  }

  function CountStatus(rows: seq<Row>, status: Status): nat {
    if rows == [] then 0
    else CountStatus(rows[..|rows| - 1], status) + (if rows[|rows| - 1].status == status then 1 else 0)
  }

  ghost predicate Tallies(totals: Totals, rows: seq<Row>) {
    && totals.delivered == CountStatus(rows, Delivered)
    && totals.failed == CountStatus(rows, Failed)
    && totals.dead == CountStatus(rows, Dead)
    && totals.Sum() == |rows|
  }

  ghost function Values(rows: seq<OutboxRow>): seq<Row>
    reads rows
  {
    seq(|rows|, i requires 0 <= i < |rows| reads rows => rows[i].Value())
  }

  ghost predicate Distinct(rows: seq<OutboxRow>) {
    forall i, j | 0 <= i < j < |rows| :: rows[i] != rows[j]
  }

  /** Moves the picked rows to DELIVERING, before anything is sent. */
  method ClaimRows(picked: seq<OutboxRow>, now: int)
    requires Distinct(picked)
    modifies picked
    ensures forall i | 0 <= i < |picked| :: picked[i].Value() == Claim(old(picked[i].Value()), now)
    ensures forall i | 0 <= i < |picked| :: picked[i].status == Delivering && picked[i].claimedAt == Some(now)
    ensures forall i | 0 <= i < |picked| ::
      && picked[i].attempts == old(picked[i].attempts) && picked[i].nextAttemptAt == old(picked[i].nextAttemptAt)
      && picked[i].lastStatusCode == old(picked[i].lastStatusCode)
        && picked[i].deliveredAt == old(picked[i].deliveredAt)
  {
    for k := 0 to |picked|
      invariant forall i | 0 <= i < k :: picked[i].Value() == Claim(old(picked[i].Value()), now)
      invariant forall i | k <= i < |picked| :: picked[i].Value() == old(picked[i].Value())
    {
      picked[k].status := Delivering;
      picked[k].claimedAt := Some(now);
    }
  }

  /** One row of the pass: records its outcome and adds it to the totals. */
  method HandleRow(row: OutboxRow, outcome: Outcome, now: int, totals: Totals, ghost done: seq<Row>)
    returns (more: Totals)
    requires Tallies(totals, done)
    modifies row
    ensures row.Value() == Record(old(row.Value()), outcome, now)
    ensures Recorded(old(row.Value()), outcome, now, row.Value())
    ensures Tallies(more, done + [row.Value()])
  {
    RecordIsRecorded(row.Value(), outcome, now);
    match outcome {
      case EndpointGone =>
        row.status := Dead;
        row.claimedAt := None;
        more := totals.(dead := totals.dead + 1);
      case Raised =>
        row.status := Failed;
        row.attempts := row.attempts + 1;
        row.claimedAt := None;
        row.nextAttemptAt := NextAttemptAfter(row.attempts, now);
        more := totals.(failed := totals.failed + 1);
      case Answered(statusCode) =>
        var ok := row.DeliverOnce(statusCode, now);
        if ok {
          more := totals.(delivered := totals.delivered + 1);
        } else if row.status == Dead {
          more := totals.(dead := totals.dead + 1);
        } else {
          more := totals.(failed := totals.failed + 1);
        }
    }
    assert (done + [row.Value()])[..|done|] == done;
  }

  lemma NoneTallied()
    ensures Tallies(Totals(0, 0, 0), [])
  {}

  /** The loop over the claimed rows. */
  method HandleRows(picked: seq<OutboxRow>, outcomes: seq<Outcome>, now: int) returns (totals: Totals)
    requires Distinct(picked) && |outcomes| == |picked|
    modifies picked
    ensures forall i | 0 <= i < |picked| :: picked[i].Value() == Record(old(picked[i].Value()), outcomes[i], now)
    ensures Tallies(totals, Values(picked))
  {
    hide Record, Recorded, Tallies;
    NoneTallied();
    totals := Totals(0, 0, 0);
    ghost var done := [];
    for k := 0 to |picked|
      invariant forall i | 0 <= i < k :: picked[i].Value() == Record(old(picked[i].Value()), outcomes[i], now)
      invariant forall i | k <= i < |picked| :: picked[i].Value() == old(picked[i].Value())
      invariant |done| == k && forall i | 0 <= i < k :: done[i] == picked[i].Value()
      invariant Tallies(totals, done)
    {
      totals := HandleRow(picked[k], outcomes[k], now, totals, done);
      done := done + [picked[k].Value()];
    }
    assert done == Values(picked);
  }

  /** One pass over the rows the claim query picked, given what happened to each delivery: every
      row ends delivered, failed or dead, as its outcome says, and the totals count each. */
  method RunDispatch(picked: seq<OutboxRow>, outcomes: seq<Outcome>, now: int) returns (claimed: nat, totals: Totals)
    requires Distinct(picked) && |outcomes| == |picked|
    modifies picked
    ensures forall i | 0 <= i < |picked| ::
      picked[i].Value() == Record(Claim(old(picked[i].Value()), now), outcomes[i], now)
    ensures forall i | 0 <= i < |picked| ::
      Recorded(old(picked[i].Value()).(status := Delivering, claimedAt := Some(now)), outcomes[i], now,
               picked[i].Value())
    ensures Tallies(totals, Values(picked)) && claimed == totals.Sum() == |picked|
  {
    hide Record, Recorded, CountStatus;
    ClaimRows(picked, now);
    ghost var start := Values(picked);
    totals := HandleRows(picked, outcomes, now);
    forall i | 0 <= i < |picked| { RecordIsRecorded(start[i], outcomes[i], now); }
    return |picked|, totals;
  }
}
