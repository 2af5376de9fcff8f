// The weighted deal list and its cursor: what one pick does, every interleaving
// of transactions on the cursor row, and how fair the picks come out.

module RoundRobin {
  import opened Prelude

  type Id = string

  const MAX_WEIGHT := 100

  /** Position `i` of an endless walk round a list of `size`. */
  function Wrap(i: int, size: int): int
    requires size > 0
  {
    i % size
  }

  // --- the deal list ------------------------------------------------------------

  function Copies(weight: int): nat { Max(1, Min(weight, MAX_WEIGHT)) }

  function CountIn(deal: seq<Id>, m: Id): nat {
    if deal == [] then 0 else (if deal[0] == m then 1 else 0) + CountIn(deal[1..], m)
  }

  lemma {:induction false} CountConcat(a: seq<Id>, b: seq<Id>, m: Id)
    ensures CountIn(a + b, m) == CountIn(a, m) + CountIn(b, m)
  {
    if a == [] {
      assert a + b == b;
    } else {
      CountConcat(a[1..], b, m);
      assert (a + b)[1..] == a[1..] + b;
    }
  }

  lemma {:induction false} CountRepeat(n: nat, who: Id, m: Id)
    ensures CountIn(seq(n, _ => who), m) == if who == m then n else 0
  {
    if n > 0 {
      CountRepeat(n - 1, who, m);
      assert seq(n, _ => who)[1..] == seq(n - 1, _ => who);
    }
  }

  /** The turns a weight stands for: itself from 1 to 100, and the nearer end outside. */
  function Turns(weight: int): nat { if weight < 1 then 1 else if weight > 100 then 100 else weight }

  /** How often a member should be dealt: the turns of each listed pair, if eligible. */
  function Due(pairs: seq<(Id, int)>, eligible: set<Id>, m: Id): nat {
    if pairs == [] then 0
    else Due(pairs[..|pairs| - 1], eligible, m)
         + (if pairs[|pairs| - 1].0 == m && m in eligible then Turns(pairs[|pairs| - 1].1) else 0)
  }

  /** The deal list: one block for each listed pair that is eligible, in the order listed. */
  function DealList(pairs: seq<(Id, int)>, eligible: set<Id>): seq<Id> {
    if pairs == [] then []
    else
      var (member, weight) := pairs[|pairs| - 1];
      DealList(pairs[..|pairs| - 1], eligible) + (if member in eligible then seq(Copies(weight), _ => member) else [])
  }

  /** Everybody is dealt as often as due. */
  lemma {:induction false} DealtAsDue(pairs: seq<(Id, int)>, eligible: set<Id>, m: Id)
    ensures CountIn(DealList(pairs, eligible), m) == Due(pairs, eligible, m)
  {
    if pairs != [] {
      var (member, weight) := pairs[|pairs| - 1];
      var init := pairs[..|pairs| - 1];
      DealtAsDue(init, eligible, m);
      CountConcat(DealList(init, eligible), seq(Copies(weight), _ => member), m);
      CountRepeat(Copies(weight), member, m);
      assert DealList(init, eligible) + [] == DealList(init, eligible);
    }
  }

  /** One eligible listing is dealt its weight, at least once and at most 100 times; nobody else is. */
  lemma OneListing(m: Id, weight: int, eligible: set<Id>)
    ensures DealList([(m, weight)], eligible) ==
      if m !in eligible then []
      else if weight < 1 then [m]
      else if weight > 100 then seq(100, _ => m)
      else seq(weight, _ => m)
  {
    assert [(m, weight)][..0] == [];
    assert seq(1, _ => m) == [m];
  }

  function TotalWeight(pairs: seq<(Id, int)>): int {
    if pairs == [] then 0 else TotalWeight(pairs[..|pairs| - 1]) + pairs[|pairs| - 1].1
  }

  /** Different members, all eligible, with weights from 1 to 100. */
  ghost predicate ProperListing(pairs: seq<(Id, int)>, eligible: set<Id>) {
    && (forall i | 0 <= i < |pairs| :: pairs[i].0 in eligible && 1 <= pairs[i].1 <= 100)
    && (forall i, j | 0 <= i < j < |pairs| :: pairs[i].0 != pairs[j].0)
  }

  /** Then the list has as many turns as the weights add up to, each member's own weight of them. */
  lemma {:induction false} WeightsAreTurns(pairs: seq<(Id, int)>, eligible: set<Id>)
    requires ProperListing(pairs, eligible)
    ensures |DealList(pairs, eligible)| == TotalWeight(pairs)
    ensures forall i | 0 <= i < |pairs| :: CountIn(DealList(pairs, eligible), pairs[i].0) == pairs[i].1
    ensures forall m | forall i | 0 <= i < |pairs| :: pairs[i].0 != m :: CountIn(DealList(pairs, eligible), m) == 0
  {
    hide CountIn, DealList;
    DealListEnds(pairs, eligible);
    if pairs != [] {
      var init, last := pairs[..|pairs| - 1], pairs[|pairs| - 1];
      WeightsAreTurns(init, eligible);
      forall m
        ensures CountIn(DealList(pairs, eligible), m)
             == CountIn(DealList(init, eligible), m) + (if m == last.0 then last.1 else 0)
      {
        CountConcat(DealList(init, eligible), seq(last.1, _ => last.0), m);
        CountRepeat(last.1, last.0, m);
      }
    }
  }

  lemma DealListEnds(pairs: seq<(Id, int)>, eligible: set<Id>)
    requires ProperListing(pairs, eligible)
    ensures pairs == [] ==> DealList(pairs, eligible) == [] && forall m :: CountIn([], m) == 0
    ensures pairs != [] ==>
      var init, last := pairs[..|pairs| - 1], pairs[|pairs| - 1];
      last.1 >= 0 && DealList(pairs, eligible) == DealList(init, eligible) + seq(last.1, _ => last.0)
  {
    if pairs != [] {
      assert seq(Copies(pairs[|pairs| - 1].1), _ => pairs[|pairs| - 1].0)
          == seq(pairs[|pairs| - 1].1, _ => pairs[|pairs| - 1].0);
    }
  }

  /** Earlier pairs are dealt before later ones. */
  lemma {:induction false} DealsInOrder(first: seq<(Id, int)>, second: seq<(Id, int)>, eligible: set<Id>)
    ensures DealList(first + second, eligible) == DealList(first, eligible) + DealList(second, eligible)
  {
    if second == [] {
      assert first + second == first;
    } else {
      DealsInOrder(first, second[..|second| - 1], eligible);
      assert (first + second)[..|first + second| - 1] == first + second[..|second| - 1];
    }
  }

  method BuildDeal(pairs: seq<(Id, int)>, eligible: set<Id>) returns (deal: seq<Id>)
    ensures deal == DealList(pairs, eligible)
    ensures forall m :: CountIn(deal, m) == Due(pairs, eligible, m)
  {
    deal := [];
    for i := 0 to |pairs|
      invariant deal == DealList(pairs[..i], eligible)
    {
      var (member, weight) := pairs[i];
      assert pairs[..i + 1][..i] == pairs[..i];
      if member in eligible {
        deal := deal + seq(Copies(weight), _ => member);
      }
    }
    assert pairs[..|pairs|] == pairs;
    forall m { DealtAsDue(pairs, eligible, m); }
  }

  // --- one pick -------------------------------------------------------------------

  class Cursor {
    var position: int
    var lastMember: Option<Id>

    constructor ()
      ensures position == -1 && lastMember == None
    {
      position, lastMember := -1, None;
    }

    /** Advances the cursor one step round the deal list and returns the member it lands on. */
    method Next(deal: seq<Id>) returns (picked: Id)
      requires deal != [] && position >= -1
      modifies this
      ensures position == Wrap(old(position) + 1, |deal|)
      ensures 0 <= position < |deal| && picked == deal[position] && lastMember == Some(picked)
      ensures 0 <= old(position) < |deal| - 1 ==> position == old(position) + 1
      ensures old(position) == |deal| - 1 ==> position == 0
    {
      position := (position + 1) % |deal|;
      picked := deal[position];
      lastMember := Some(picked);
    }
  }

  // --- transactions on the cursor row ---------------------------------------------

  type Tx = nat

  /** The cursor row as committed, the transaction holding it (by row lock or by its own
      uncommitted insert) with that transaction's view, and the committed picks in commit order. */
  datatype State = State(committed: Option<int>, owner: Option<Tx>, working: int, pending: seq<int>, picks: seq<int>)

  datatype Event =
    | InsertIfAbsent(tx: Tx)
    | LockForUpdate(tx: Tx)
    | Pick(tx: Tx)
    | Commit(tx: Tx)
    | Rollback(tx: Tx)

  const START := State(None, None, -1, [], [])

  predicate Enabled(s: State, e: Event) {
    match e
    // An insert waits for an uncommitted insert of the same key.
    case InsertIfAbsent(tx) => s.committed.Some? || s.owner.None? || s.owner == Some(tx)
    case LockForUpdate(tx) => (s.owner.None? && s.committed.Some?) || s.owner == Some(tx)
    case Pick(tx) => s.owner == Some(tx)
    case Commit(tx) => s.owner == Some(tx)
    case Rollback(tx) => s.owner == Some(tx)
  }

  /** `size` is the length of the deal list. */
  function Next(s: State, e: Event, size: nat): State
    requires Enabled(s, e) && size > 0
  {
    match e
    case InsertIfAbsent(tx) =>
      if s.committed.None? && s.owner.None? then s.(owner := Some(tx), working := -1) else s
    case LockForUpdate(tx) =>
      if s.owner.None? then s.(owner := Some(tx), working := s.committed.value) else s
    case Pick(tx) =>
      var position := Wrap(s.working + 1, size);
      s.(working := position, pending := s.pending + [position])
    case Commit(tx) =>
      s.(committed := Some(s.working), owner := None, pending := [], picks := s.picks + s.pending)
    case Rollback(tx) => s.(owner := None, pending := [])
  }

  predicate Feasible(s: State, run: seq<Event>, size: nat)
    requires size > 0
    decreases |run|
  {
    run == [] || (Enabled(s, run[0]) && Feasible(Next(s, run[0], size), run[1..], size))
  }

  function After(s: State, run: seq<Event>, size: nat): State
    requires size > 0 && Feasible(s, run, size)
    decreases |run|
  {
    if run == [] then s else After(Next(s, run[0], size), run[1..], size)
  }

  /** A transaction that locks, picks and commits takes the position after the committed one; one that
      rolls back takes none. */
  lemma OneTurn(s: State, tx: Tx, size: nat)
    requires size > 0 && s.owner.None? && s.pending == []
    ensures s.committed.Some? ==>
      var turn := [LockForUpdate(tx), Pick(tx), Commit(tx)];
      && Feasible(s, turn, size)
      && After(s, turn, size).picks == s.picks + [Wrap(s.committed.value + 1, size)]
      && After(s, turn, size).committed == Some(Wrap(s.committed.value + 1, size)) && After(s, turn, size).owner == None
    ensures s.committed.None? ==>
      var turn := [InsertIfAbsent(tx), LockForUpdate(tx), Pick(tx), Commit(tx)];
      && Feasible(s, turn, size)
      && After(s, turn, size).picks == s.picks + [Wrap(0, size)]
        && After(s, turn, size).committed == Some(Wrap(0, size))
    ensures s.committed.Some? ==>
      var turn := [LockForUpdate(tx), Pick(tx), Rollback(tx)];
      Feasible(s, turn, size) && After(s, turn, size).picks == s.picks && After(s, turn, size).committed == s.committed
  {
    if s.committed.Some? {
      var locked := Next(s, LockForUpdate(tx), size);
      var picked := Next(locked, Pick(tx), size);
      FirstStep(picked, Commit(tx), [], size);
      FirstStep(picked, Rollback(tx), [], size);
      FirstStep(locked, Pick(tx), [Commit(tx)], size);
      FirstStep(locked, Pick(tx), [Rollback(tx)], size);
      FirstStep(s, LockForUpdate(tx), [Pick(tx), Commit(tx)], size);
      FirstStep(s, LockForUpdate(tx), [Pick(tx), Rollback(tx)], size);
    } else {
      var inserted := Next(s, InsertIfAbsent(tx), size);
      var locked := Next(inserted, LockForUpdate(tx), size);
      var picked := Next(locked, Pick(tx), size);
      FirstStep(picked, Commit(tx), [], size);
      FirstStep(locked, Pick(tx), [Commit(tx)], size);
      FirstStep(inserted, LockForUpdate(tx), [Pick(tx), Commit(tx)], size);
      FirstStep(s, InsertIfAbsent(tx), [LockForUpdate(tx), Pick(tx), Commit(tx)], size);
    }
  }

  lemma FirstStep(s: State, e: Event, rest: seq<Event>, size: nat)
    requires size > 0 && Enabled(s, e) && Feasible(Next(s, e, size), rest, size)
    ensures Feasible(s, [e] + rest, size) && After(s, [e] + rest, size) == After(Next(s, e, size), rest, size)
    ensures Feasible(s, [], size) && After(s, [], size) == s
  {
    assert ([e] + rest)[1..] == rest;
  }

  /** Positions step round the list from its head. */
  predicate Cyclic(positions: seq<int>, size: nat)
    requires size > 0
  {
    forall i | 0 <= i < |positions| :: positions[i] == Wrap(i, size)
  }

  function LastPosition(positions: seq<int>): int {
    if positions == [] then -1 else positions[|positions| - 1]
  }

  predicate Serial(s: State, size: nat)
    requires size > 0
  {
    && Cyclic(s.picks + s.pending, size)
    && (s.committed.Some? ==> s.committed.value == LastPosition(s.picks))
    && (s.committed.None? ==> s.picks == [])
    && (s.owner.Some? ==> s.working == LastPosition(s.picks + s.pending))
    && (s.owner.None? ==> s.pending == [])
  }

  lemma StepSerial(s: State, e: Event, size: nat)
    requires size > 0 && Serial(s, size) && Enabled(s, e)
    ensures Serial(Next(s, e, size), size)
  {
    hide Wrap;
    var all := s.picks + s.pending;
    match e
    case Pick(tx) =>
      var position := Wrap(s.working + 1, size);
      assert s.picks + (s.pending + [position]) == all + [position];
      NextPosition(|all|, size);
    case Rollback(tx) =>
      assert s.picks + [] == s.picks;
      forall i | 0 <= i < |s.picks| ensures s.picks[i] == Wrap(i, size) { assert all[i] == Wrap(i, size); }
    case Commit(tx) => assert all + [] == all;
    case _ => assert s.picks + [] == s.picks;
  }

  lemma NextPosition(n: nat, size: nat)
    requires size > 0
    ensures Wrap((if n == 0 then -1 else Wrap(n - 1, size)) + 1, size) == Wrap(n, size)
  {
    if n > 0 {
      var q, r := (n - 1) / size, (n - 1) % size;
      assert n - 1 == q * size + r;
      if r + 1 < size {
        QuotientUnique(n, size, q, r + 1);
        QuotientUnique(r + 1, size, 0, r + 1);
      } else {
        assert (q + 1) * size == q * size + size;
        QuotientUnique(n, size, q + 1, 0);
        QuotientUnique(size, size, 1, 0);
      }
    } else {
      QuotientUnique(0, size, 0, 0);
    }
  }

  /** Whatever transactions interleave, wait, commit or roll back, the committed picks walk the
      deal list at consecutive cyclic positions. */
  lemma {:induction false} RunSerial(s: State, run: seq<Event>, size: nat)
    requires size > 0 && Serial(s, size) && Feasible(s, run, size)
    ensures Serial(After(s, run, size), size)
    decreases |run|
  {
    if run != [] {
      StepSerial(s, run[0], size);
      RunSerial(Next(s, run[0], size), run[1..], size);
    }
  }

  lemma PicksAreCyclic(run: seq<Event>, size: nat)
    requires size > 0 && Feasible(START, run, size)
    ensures Cyclic(After(START, run, size).picks, size)
  {
    RunSerial(START, run, size);
    var s := After(START, run, size);
    forall i | 0 <= i < |s.picks| ensures s.picks[i] == Wrap(i, size) {
      assert (s.picks + s.pending)[i] == Wrap(i, size);
    }
  }

  // --- fairness ---------------------------------------------------------------------

  /** The member at position `i` of the walk. */
  function At(deal: seq<Id>, i: nat): Id
    requires deal != []
  {
    deal[Wrap(i, |deal|)]
  }

  lemma AtWraps(deal: seq<Id>, i: nat)
    requires deal != []
    ensures At(deal, i + |deal|) == At(deal, i)
    ensures i < |deal| ==> At(deal, i) == deal[i]
  {
    var size := |deal|;
    var q, r := i / size, i % size;
    assert i == q * size + r;
    assert (q + 1) * size == q * size + size;
    QuotientUnique(i + size, size, q + 1, r);
    if i < size { QuotientUnique(i, size, 0, i); }
  }

  /** How many of the `n` picks from number `start` on go to `m`. */
  function Dealt(deal: seq<Id>, start: nat, n: nat, m: Id): nat
    requires deal != []
    decreases n
  {
    if n == 0 then 0 else (if At(deal, start) == m then 1 else 0) + Dealt(deal, start + 1, n - 1, m)
  }

  lemma {:induction false} DealtSplit(deal: seq<Id>, start: nat, a: nat, b: nat, m: Id)
    requires deal != []
    ensures Dealt(deal, start, a + b, m) == Dealt(deal, start, a, m) + Dealt(deal, start + a, b, m)
    decreases a
  {
    hide At;
    if a > 0 { DealtSplit(deal, start + 1, a - 1, b, m); }
  }

  /** Dealing from position `k` of the first round to its end reads off the rest of the list. */
  lemma {:induction false} RestOfRound(deal: seq<Id>, k: nat, m: Id)
    requires deal != [] && k <= |deal|
    ensures Dealt(deal, k, |deal| - k, m) == CountIn(deal[k..], m)
    decreases |deal| - k
  {
    hide At;
    if k < |deal| {
      RestOfRound(deal, k + 1, m);
      AtWraps(deal, k);
      assert deal[k..][1..] == deal[k + 1..];
    }
  }

  lemma OneDealt(deal: seq<Id>, start: nat, m: Id)
    requires deal != []
    ensures Dealt(deal, start, 1, m) == if At(deal, start) == m then 1 else 0
  {
    hide At;
    assert Dealt(deal, start + 1, 0, m) == 0;
  }

  /** A round deals the whole list, wherever it starts. */
  lemma {:induction false} FullRound(deal: seq<Id>, start: nat, m: Id)
    requires deal != []
    ensures Dealt(deal, start, |deal|, m) == CountIn(deal, m)
    decreases start
  {
    hide At, Dealt;
    var size := |deal|;
    if start == 0 {
      RestOfRound(deal, 0, m);
      assert deal[0..] == deal;
    } else {
      FullRound(deal, start - 1, m);
      DealtSplit(deal, start - 1, 1, size - 1, m);
      DealtSplit(deal, start, size - 1, 1, m);
      OneDealt(deal, start - 1, m);
      OneDealt(deal, start + size - 1, m);
      AtWraps(deal, start - 1);
    }
  }

  lemma {:induction false} Rounds(deal: seq<Id>, start: nat, k: nat, m: Id)
    requires deal != []
    ensures Dealt(deal, start, k * |deal|, m) == k * CountIn(deal, m)
    decreases k
  {
    hide At, CountIn;
    if k == 0 {
      assert 0 * |deal| == 0;
    } else {
      Distribute(k, |deal|);
      Distribute(k, CountIn(deal, m));
      DealtSplit(deal, start, |deal|, (k - 1) * |deal|, m);
      FullRound(deal, start, m);
      Rounds(deal, start + |deal|, k - 1, m);
    }
  }

  lemma Distribute(k: int, n: int)
    ensures k * n == n + (k - 1) * n
  {}

  lemma FairRounds(deal: seq<Id>, start: nat, k: nat, r: nat, m: Id)
    requires deal != [] && r < |deal|
    ensures var dealt := Dealt(deal, start, k * |deal| + r, m);
      k * CountIn(deal, m) <= dealt <= (if r == 0 then k else k + 1) * CountIn(deal, m)
  {
    hide At, CountIn;
    var size, w, whole := |deal|, CountIn(deal, m), k * |deal|;
    Rounds(deal, start, k, m);
    DealtSplit(deal, start, whole, r, m);
    FullRound(deal, start + whole, m);
    DealtSplit(deal, start + whole, r, size - r, m);
    Distribute(k + 1, w);
    assert r == 0 ==> Dealt(deal, start + whole, r, m) == 0;
  }

  /** Any `n` consecutive picks give a member with `w` copies of the list between
      floor(n / L) * w and ceil(n / L) * w leads. */
  lemma FairShare(deal: seq<Id>, start: nat, n: nat, m: Id)
    requires deal != []
    ensures (n / |deal|) * CountIn(deal, m) <= Dealt(deal, start, n, m)
         <= (if n % |deal| == 0 then n / |deal| else n / |deal| + 1) * CountIn(deal, m)
  {
    hide Dealt, CountIn;
    assert n == (n / |deal|) * |deal| + n % |deal|;
    FairRounds(deal, start, n / |deal|, n % |deal|, m);
  }

  /** The same, said of what was committed: among any `n` consecutive committed picks. */
  function Received(deal: seq<Id>, positions: seq<int>, m: Id): nat
    requires forall i | 0 <= i < |positions| :: 0 <= positions[i] < |deal|
  {
    if positions == [] then 0
    else (if deal[positions[0]] == m then 1 else 0) + Received(deal, positions[1..], m)
  }

  lemma {:induction false} ReceivedIsDealt(deal: seq<Id>, positions: seq<int>, start: nat, m: Id)
    requires deal != []
    requires forall i | 0 <= i < |positions| :: positions[i] == Wrap(start + i, |deal|)
    ensures forall i | 0 <= i < |positions| :: 0 <= positions[i] < |deal|
    ensures Received(deal, positions, m) == Dealt(deal, start, |positions|, m)
  {
    if positions != [] {
      assert positions[0] == Wrap(start + 0, |deal|);
      forall i | 0 <= i < |positions[1..]| ensures positions[1..][i] == Wrap(start + 1 + i, |deal|) {
        assert positions[i + 1] == Wrap(start + (i + 1), |deal|);
      }
      ReceivedIsDealt(deal, positions[1..], start + 1, m);
    }
  }

  /** Fair dealing under concurrency, for every interleaving of transactions. */
  lemma ConcurrentFairness(deal: seq<Id>, run: seq<Event>, start: nat, n: nat, m: Id)
    requires deal != [] && Feasible(START, run, |deal|)
    requires start + n <= |After(START, run, |deal|).picks|
    ensures var batch := After(START, run, |deal|).picks[start..start + n];
      && (forall i | 0 <= i < n :: 0 <= batch[i] < |deal|)
      && (n / |deal|) * CountIn(deal, m) <= Received(deal, batch, m)
                                         <= (if n % |deal| == 0 then n / |deal| else n / |deal| + 1) * CountIn(deal, m)
  {
    hide Dealt, CountIn, Received, After, Feasible, Wrap;
    PicksAreCyclic(run, |deal|);
    var picks := After(START, run, |deal|).picks;
    var batch := picks[start..start + n];
    forall i | 0 <= i < |batch| ensures batch[i] == Wrap(start + i, |deal|) {
      assert picks[start + i] == Wrap(start + i, |deal|);
    }
    ReceivedIsDealt(deal, batch, start, m);
    FairShare(deal, start, n, m);
  }

  /** These committed picks give `m` between `low` and `high` leads. */
  predicate Shares(deal: seq<Id>, batch: seq<int>, m: Id, low: int, high: int) {
    && (forall j | 0 <= j < |batch| :: 0 <= batch[j] < |deal|)
    && low <= Received(deal, batch, m) <= high
  }

  /** Shares in proportion to weights: of any n consecutive committed picks, with n made of whole
      rounds and a rest, each member gets its weight once for each whole round, and for the rest
      between nothing and its weight. */
  lemma WeightedShares(pairs: seq<(Id, int)>, eligible: set<Id>, run: seq<Event>, start: nat, rounds: nat, rest: nat,
                       size: nat, n: nat, i: nat)
    requires ProperListing(pairs, eligible) && i < |pairs|
    requires size == TotalWeight(pairs) && rest < size && n == rounds * size + rest
    requires Feasible(START, run, size) && start + n <= |After(START, run, size).picks|
    ensures Shares(DealList(pairs, eligible), After(START, run, size).picks[start..start + n], pairs[i].0,
                   rounds * pairs[i].1, (if rest == 0 then rounds else rounds + 1) * pairs[i].1)
  {
    hide ProperListing, Feasible, After, DealList, Received, CountIn;
    WeightsAreTurns(pairs, eligible);
    QuotientUnique(n, size, rounds, rest);
    ConcurrentFairness(DealList(pairs, eligible), run, start, n, pairs[i].0);
  }
}
