// Fixed-window counters: the limiter's code over a key-value store with
// expiries, and the bound every interleaving of its commands keeps.
// Times are in milliseconds; windows are in seconds, as the store takes them.

module RateLimit {
  import opened Prelude

  type Key = string

  datatype Counter = Counter(count: nat, expiresAt: Option<int>)

  predicate Live(c: Option<Counter>, now: int) {
    c.Some? && (c.value.expiresAt.None? || now < c.value.expiresAt.value)
  }

  /** INCR: an expired or missing key starts again at one, with no expiry. */
  function Incr(c: Option<Counter>, now: int): (r: Counter)
    ensures r.count >= 1
  {
    if Live(c, now) then Counter(c.value.count + 1, c.value.expiresAt) else Counter(1, None)
  }

  /** EXPIRE: nothing happens to a key that is not there. */
  function Expire(c: Option<Counter>, now: int, window: nat): Option<Counter> {
    if Live(c, now) then Some(c.value.(expiresAt := Some(now + window * 1000))) else c
  }

  /** TTL in whole seconds, rounded; negative when the key has no expiry. */
  function Ttl(c: Counter, now: int): int {
    if c.expiresAt.None? then -1 else (c.expiresAt.value - now + 500) / 1000
  }

  function Lookup(store: map<Key, Counter>, key: Key): Option<Counter> {
    if key in store then Some(store[key]) else None
  }

  /** One uninterrupted hit: increment, and start the window if the key carries no expiry. */
  function Hit(c: Option<Counter>, now: int, window: nat): Counter {
    var counted := Incr(c, now);
    if Ttl(counted, now) < 0 then counted.(expiresAt := Some(now + window * 1000)) else counted
  }

  /** Seconds until the window of a key just hit ends, at least one. */
  function Wait(c: Option<Counter>, now: int, window: nat): int {
    var ttl := Ttl(Incr(c, now), now);
    Max(if ttl < 0 then window else ttl, 1)
  }

  predicate Exceeds(store: map<Key, Counter>, budget: (Key, nat), now: int, window: nat) {
    Hit(Lookup(store, budget.0), now, window).count > budget.1
  }

  class AuthRateLimiter {
    var store: map<Key, Counter>

    constructor ()
      ensures store == map[]
    {
      store := map[];
    }

    method IncrWithWindow(key: Key, window: nat, now: int) returns (count: nat, ttl: int)
      modifies this
      ensures store == old(store)[key := Hit(Lookup(old(store), key), now, window)]
      ensures count == Hit(Lookup(old(store), key), now, window).count
        && Max(ttl, 1) == Wait(Lookup(old(store), key), now, window)
      ensures forall other | other != key :: Lookup(store, other) == Lookup(old(store), other)
      ensures key in store && store[key].count == count && store[key].expiresAt.Some?
      ensures key in old(store) && old(store)[key].expiresAt.Some? && now < old(store)[key].expiresAt.value ==>
        count == old(store)[key].count + 1 && store[key].expiresAt == old(store)[key].expiresAt
      ensures key in old(store) && old(store)[key].expiresAt == None ==>
        count == old(store)[key].count + 1 && store[key].expiresAt == Some(now + window * 1000)
      ensures (key in old(store) ==> old(store)[key].expiresAt.Some? && old(store)[key].expiresAt.value <= now) ==>
        count == 1 && store[key].expiresAt == Some(now + window * 1000)
      ensures -500 <= ttl * 1000 - (store[key].expiresAt.value - now) <= 500
    {
      var counted := Incr(Lookup(store, key), now);
      store := store[key := counted];
      count, ttl := counted.count, Ttl(counted, now);
      if ttl < 0 {
        store := store[key := Counter(count, Some(now + window * 1000))];
        ttl := window;
      }
    }

    /** Increments every key, then refuses if any is over its own budget; the answer is the number
        of seconds to wait. */
    method Check(budgets: seq<(Key, nat)>, window: nat, now: int) returns (retryAfter: Option<int>)
      requires forall i, j | 0 <= i < j < |budgets| :: budgets[i].0 != budgets[j].0
      modifies this
      ensures forall i | 0 <= i < |budgets| ::
        budgets[i].0 in store && store[budgets[i].0] == Hit(Lookup(old(store), budgets[i].0), now, window)
      ensures forall key | forall i | 0 <= i < |budgets| :: budgets[i].0 != key ::
        Lookup(store, key) == Lookup(old(store), key)
      ensures retryAfter.None? <==> forall i | 0 <= i < |budgets| :: !Exceeds(old(store), budgets[i], now, window)
      ensures retryAfter.Some? ==>
        && (exists i | 0 <= i < |budgets| :: Exceeds(old(store), budgets[i], now, window)
                                             && retryAfter.value == Wait(Lookup(old(store), budgets[i].0), now, window))
        && (forall i | 0 <= i < |budgets| && Exceeds(old(store), budgets[i], now, window) ::
              Wait(Lookup(old(store), budgets[i].0), now, window) <= retryAfter.value)
    {
      hide Hit, Wait;
      retryAfter := None;
      for k := 0 to |budgets|
        invariant forall i | 0 <= i < k ::
          budgets[i].0 in store && store[budgets[i].0] == Hit(Lookup(old(store), budgets[i].0), now, window)
        invariant forall key | forall i | 0 <= i < k :: budgets[i].0 != key ::
          Lookup(store, key) == Lookup(old(store), key)
        invariant retryAfter.None? <==> forall i | 0 <= i < k :: !Exceeds(old(store), budgets[i], now, window)
        invariant retryAfter.Some? ==>
          && (exists i | 0 <= i < k :: Exceeds(old(store), budgets[i], now, window)
                                       && retryAfter.value == Wait(Lookup(old(store), budgets[i].0), now, window))
          && (forall i | 0 <= i < k && Exceeds(old(store), budgets[i], now, window) ::
                Wait(Lookup(old(store), budgets[i].0), now, window) <= retryAfter.value)
      {
        var (key, limit) := budgets[k];
        assert Lookup(store, key) == Lookup(old(store), key);
        var count, ttl := IncrWithWindow(key, window, now);
        assert count > limit <==> Exceeds(old(store), budgets[k], now, window);
        if count > limit {
          retryAfter := Some(if retryAfter.None? then Max(ttl, 1) else Max(retryAfter.value, Max(ttl, 1)));
        }
      }
    }

    method CheckRefresh(fingerprint: string, clientIp: string, tokenLimit: nat, ipLimit: nat, window: nat, now: int)
      returns (retryAfter: Option<int>)
      modifies this
      ensures retryAfter.None? <==>
        && Hit(Lookup(old(store), "refresh:token:" + fingerprint), now, window).count <= tokenLimit
        && Hit(Lookup(old(store), "refresh:ip:" + clientIp), now, window).count <= ipLimit
      ensures Lookup(store, "refresh:token:" + fingerprint)
           == Some(Hit(Lookup(old(store), "refresh:token:" + fingerprint), now, window))
      ensures Lookup(store, "refresh:ip:" + clientIp)
           == Some(Hit(Lookup(old(store), "refresh:ip:" + clientIp), now, window))
    {
      assert ("refresh:token:" + fingerprint)[8] == 't' && ("refresh:ip:" + clientIp)[8] == 'i';
      var budgets := [("refresh:token:" + fingerprint, tokenLimit), ("refresh:ip:" + clientIp, ipLimit)];
      retryAfter := Check(budgets, window, now);
      assert budgets[0].0 in store && budgets[1].0 in store;
      assert Exceeds(old(store), budgets[0], now, window)
        <==> Hit(Lookup(old(store), "refresh:token:" + fingerprint), now, window).count > tokenLimit;
      assert Exceeds(old(store), budgets[1], now, window)
        <==> Hit(Lookup(old(store), "refresh:ip:" + clientIp), now, window).count > ipLimit;
    }

    /** Clears both login counters. */
    method ResetLogin(emailKey: Key, ipKey: Key)
      modifies this
      ensures store == old(store) - {emailKey, ipKey}
    {
      store := store - {emailKey, ipKey};
    }
  }

  // --- one key, any interleaving of commands ---------------------------------------

  /** The commands clients send for one key. A client sends Expiry only after an Increment that
      found no expiry, but late, repeatedly, or never if it dies in between. */
  datatype Command = Increment(at: int) | Expiry(at: int)

  /** One attempt, as its INCR saw it: when, in which life of the counter, and the count. */
  datatype Attempt = Attempt(at: int, life: nat, count: nat)

  /** The counter, with a history: when its current life began, how many there have been, and all
      attempts so far. */
  datatype State = State(counter: Option<Counter>, clock: int, born: int, life: nat, log: seq<Attempt>)

  function Step(s: State, cmd: Command, window: nat): State {
    match cmd
    case Increment(at) =>
      var counted := Incr(s.counter, at);
      var reborn := !Live(s.counter, at);
      var life := if reborn then s.life + 1 else s.life;
      State(Some(counted), at, if reborn then at else s.born, life, s.log + [Attempt(at, life, counted.count)])
    case Expiry(at) => s.(counter := Expire(s.counter, at, window), clock := at)
  }

  predicate Timely(s: State, run: seq<Command>, window: nat)
    decreases |run|
  {
    run == [] || (s.clock <= run[0].at && Timely(Step(s, run[0], window), run[1..], window))
  }

  function After(s: State, run: seq<Command>, window: nat): State
    decreases |run|
  {
    if run == [] then s else After(Step(s, run[0], window), run[1..], window)
  }

  function Unused(clock: int): State { State(None, clock, clock, 0, []) }

  /** Lives are numbered in order, counts rise within a life, and a life in between takes a window. */
  predicate LogKept(log: seq<Attempt>, span: int) {
    forall i, j | 0 <= i < j < |log| ::
      && log[i].at <= log[j].at && log[i].life <= log[j].life
      && (log[i].life == log[j].life ==> log[i].count < log[j].count)
      && (log[i].life + 2 <= log[j].life ==> log[i].at + span <= log[j].at)
  }

  predicate Kept(s: State, window: nat) {
    && s.born <= s.clock
    && LogKept(s.log, window * 1000)
    && (s.counter.None? ==> s.log == [])
    && (s.counter.Some? && s.counter.value.expiresAt.Some? ==>
      s.counter.value.expiresAt.value >= s.born + window * 1000)
    && (forall i | 0 <= i < |s.log| ::
          && s.log[i].at <= s.clock && 1 <= s.log[i].count && s.log[i].life <= s.life
          && (s.log[i].life == s.life ==> s.born <= s.log[i].at && s.log[i].count <= s.counter.value.count)
          && (s.log[i].life + 1 <= s.life ==> s.log[i].at <= s.born)
          && (s.log[i].life + 2 <= s.life ==> s.log[i].at + window * 1000 <= s.born))
  }

  lemma UnusedKept(clock: int, window: nat)
    ensures Kept(Unused(clock), window)
  {}

  /** The limiter's uninterrupted hit is a run of these commands, and judges the same count. */
  lemma HitIsARun(s: State, now: int, window: nat) returns (run: seq<Command>)
    requires s.clock <= now
    ensures Timely(s, run, window)
    ensures After(s, run, window).counter == Some(Hit(s.counter, now, window))
    ensures After(s, run, window).log
         == s.log + [Attempt(now, After(s, run, window).life, Hit(s.counter, now, window).count)]
  {
    var one := Step(s, Increment(now), window);
    if Ttl(one.counter.value, now) < 0 {
      run := [Increment(now), Expiry(now)];
      assert run[1..] == [Expiry(now)] && run[1..][1..] == [];
      assert After(one, run[1..], window) == Step(one, Expiry(now), window);
    } else {
      run := [Increment(now)];
      assert run[1..] == [];
    }
  }

  lemma StepKept(s: State, cmd: Command, window: nat)
    requires Kept(s, window) && s.clock <= cmd.at
    ensures Kept(Step(s, cmd, window), window)
  {}

  lemma {:induction false} RunKept(s: State, run: seq<Command>, window: nat)
    requires Kept(s, window) && Timely(s, run, window)
    ensures Kept(After(s, run, window), window)
    decreases |run|
  {
    hide Kept, Step;
    if run != [] {
      StepKept(s, run[0], window);
      RunKept(Step(s, run[0], window), run[1..], window);
    }
  }

  /** Attempts within budget, of one life of the counter or of one stretch of time. */
  function AcceptedInLife(log: seq<Attempt>, limit: nat, life: nat): set<nat> {
    set i: nat | i < |log| && log[i].life == life && log[i].count <= limit
  }

  function AcceptedDuring(log: seq<Attempt>, limit: nat, from: int, span: int): set<nat> {
    set i: nat | i < |log| && from <= log[i].at < from + span && log[i].count <= limit
  }

  lemma {:induction false} DistinctCounts(log: seq<Attempt>, span: int, chosen: set<nat>, limit: nat)
    requires LogKept(log, span)
    requires forall i | i in chosen :: i < |log| && 1 <= log[i].count <= limit
    requires forall i, j | i in chosen && j in chosen :: log[i].life == log[j].life
    ensures |chosen| <= limit
    decreases limit
  {
    if limit == 0 {
      if i :| i in chosen { assert false; }
    } else if i :| i in chosen && log[i].count == limit {
      forall j | j in chosen - {i} ensures log[j].count <= limit - 1 {
        assert log[j].life == log[i].life;
      }
      DistinctCounts(log, span, chosen - {i}, limit - 1);
    } else {
      DistinctCounts(log, span, chosen, limit - 1);
    }
  }

  /** At most `limit` attempts are accepted in one window of the counter. */
  lemma WithinBudgetPerWindow(clock: int, run: seq<Command>, window: nat, limit: nat, life: nat)
    requires Timely(Unused(clock), run, window)
    ensures |AcceptedInLife(After(Unused(clock), run, window).log, limit, life)| <= limit
  {
    hide After, LogKept;
    UnusedKept(clock, window);
    RunKept(Unused(clock), run, window);
    var log := After(Unused(clock), run, window).log;
    DistinctCounts(log, window * 1000, AcceptedInLife(log, limit, life), limit);
  }

  lemma TwoLives(log: seq<Attempt>, limit: nat, from: int, span: int)
    requires LogKept(log, span) && forall i | 0 <= i < |log| :: 1 <= log[i].count
    ensures |AcceptedDuring(log, limit, from, span)| <= 2 * limit
  {
    var all := AcceptedDuring(log, limit, from, span);
    if first :| first in all && forall i | i in all :: first <= i {
      var life := log[first].life;
      var a := set i | i in all && log[i].life == life;
      var b := set i | i in all && log[i].life == life + 1;
      forall i | i in all ensures i in a + b {
        if first < i { assert log[first].life <= log[i].life && !(log[first].life + 2 <= log[i].life); }
      }
      assert all == a + b;
      DistinctCounts(log, span, a, limit);
      DistinctCounts(log, span, b, limit);
      UnionSize(a, b);
    } else {
      NoLeastMeansEmpty(all);
    }
  }

  /** However clients interleave, crash or lag, any stretch of time as long as the window holds at
      most twice `limit` accepted attempts for the key. */
  lemma WithinTwiceBudget(clock: int, run: seq<Command>, window: nat, limit: nat, from: int)
    requires Timely(Unused(clock), run, window)
    ensures |AcceptedDuring(After(Unused(clock), run, window).log, limit, from, window * 1000)| <= 2 * limit
  {
    hide After, AcceptedDuring, LogKept;
    UnusedKept(clock, window);
    RunKept(Unused(clock), run, window);
    TwoLives(After(Unused(clock), run, window).log, limit, from, window * 1000);
  }

  lemma UnionSize(a: set<nat>, b: set<nat>)
    ensures |a + b| <= |a| + |b|
  {
    assert a + b == a + (b - a);
    assert b == (b - a) + (b * a);
  }

  lemma NoLeastMeansEmpty(s: set<nat>)
    requires !exists x :: x in s && forall y | y in s :: x <= y
    ensures s == {}
  {
    if x :| x in s {
      Descend(s, x);
    }
  }

  lemma {:induction false} Descend(s: set<nat>, x: nat)
    requires x in s
    ensures exists y :: y in s && forall z | z in s :: y <= z
    decreases x
  {
    if y :| y in s && y < x { Descend(s, y); }
  }
}
