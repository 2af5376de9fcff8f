// The assignment engine: which rule a lead matches, asked of the database in one
// query, and whom that rule picks.

module Assignment {
  import opened Prelude
  import opened FilterDsl
  import opened FilterSql
  import opened FilterCompiler
  import opened FilterMeaning
  import opened FilterProofs
  import opened FilterLaws
  import RoundRobin

  datatype Strategy =
    | Rotating(pairs: seq<(Id, int)>)               // round robin, weighted, sales group
    | FieldValue(key: string, mapping: map<string, Id>, fallback: Option<Id>)
    | Fixed(member: Option<Id>)
    | Unassigned

  /** A rule's stored conditions, as parsing finds them. */
  datatype Conditions = CatchAll | Unparsable | Condition(filter: FilterNode)

  datatype Rule = Rule(
    id: Id, name: string, priority: int, active: bool, conditions: Conditions, strategy: Strategy,
    skipUnavailable: bool)

  datatype Member = Member(active: bool, licensed: bool, working: bool)

  datatype MatchError = InvalidConditions | CompileFailed(error: CompileError) | QueryFailed

  // --- the rule list ----------------------------------------------------------------

  predicate Earlier(less: (Id, Id) -> bool, a: Rule, b: Rule) {
    a.priority < b.priority || (a.priority == b.priority && less(a.id, b.id))
  }

  /** The answer to the rules query: the active rules, by priority and then id. */
  ghost predicate RulesQuery(less: (Id, Id) -> bool, table: set<Rule>, rules: seq<Rule>) {
    && (forall r :: r in rules <==> r in table && r.active)
    && (forall i, j | 0 <= i < j < |rules| :: rules[i].id != rules[j].id && Earlier(less, rules[i], rules[j]))
  }

  // --- matching ---------------------------------------------------------------------

  /** What a rule asks of a lead. */
  predicate Wants(c: Compiler, lead: Lead, log: seq<Action>, rule: Rule) {
    rule.conditions.CatchAll? || (rule.conditions.Condition? && Holds(c, lead, log, rule.conditions.filter))
  }

  /** Sequential matching, rule by rule. */
  function FirstMatch(c: Compiler, lead: Lead, log: seq<Action>, rules: seq<Rule>): Option<Rule> {
    if rules == [] then None
    else if Wants(c, lead, log, rules[0]) then Some(rules[0])
    else FirstMatch(c, lead, log, rules[1..])
  }

  /** A rule the engine can evaluate. */
  predicate Runnable(c: Compiler, rule: Rule) {
    rule.conditions.CatchAll? || (rule.conditions.Condition? && Compile(c, rule.conditions.filter).Ok?)
  }

  ghost predicate Readable(c: Compiler, lead: Lead, rule: Rule) {
    rule.conditions.Condition? ==> WellFormed(rule.conditions.filter) && WellStored(c, lead, rule.conditions.filter)
  }

  /** Asking for this rule makes the whole query raise on this lead. */
  predicate Trips(c: Compiler, lead: Lead, rule: Rule) {
    rule.conditions.Condition? && Raises(c, lead, rule.conditions.filter)
  }

  function HitOf(c: Compiler, lead: Lead, log: seq<Action>, rule: Rule): Truth
    requires Runnable(c, rule) && rule.conditions.Condition?
  {
    Eval(c.platform, lead, log, Compile(c, rule.conditions.filter).value)
  }

  lemma HitMeans(c: Compiler, lead: Lead, log: seq<Action>, rule: Rule)
    requires Lawful(c.platform) && Runnable(c, rule) && Readable(c, lead, rule) && rule.conditions.Condition?
    ensures HitOf(c, lead, log, rule) == Fault <==> Trips(c, lead, rule)
    ensures !Trips(c, lead, rule) ==> (HitOf(c, lead, log, rule) == Yes <==> Wants(c, lead, log, rule))
  {
    hide Eval, Holds, Raises, Compile, WellFormed, WellStored, Lawful;
    MeaningPreserved(c, lead, log, rule.conditions.filter);
  }

  lemma {:induction false} FirstMatchAt(c: Compiler, lead: Lead, log: seq<Action>, rules: seq<Rule>, k: nat)
    requires k <= |rules| && forall i | 0 <= i < k :: !Wants(c, lead, log, rules[i])
    ensures k == |rules| ==> FirstMatch(c, lead, log, rules) == None
    ensures k < |rules| && Wants(c, lead, log, rules[k]) ==> FirstMatch(c, lead, log, rules) == Some(rules[k])
    decreases k
  {
    hide Wants;
    if k > 0 { FirstMatchAt(c, lead, log, rules[1..], k - 1); }
  }

  ghost predicate UniqueIds(rules: seq<Rule>) {
    forall i, j | 0 <= i < j < |rules| :: rules[i].id != rules[j].id
  }

  /** One boolean column for each conditional rule, and the first catch-all. */
  method Collect(c: Compiler, rules: seq<Rule>)
    returns (error: Option<MatchError>, columns: seq<Sql>, conditional: seq<Rule>, catchAll: Option<Rule>)
    ensures error.None? <==> forall rule | rule in rules :: Runnable(c, rule)
    ensures error.Some? ==> !error.value.QueryFailed?
    ensures error.None? ==> Collected(c, rules, columns, conditional, catchAll)
  {
    hide Compile;
    error, columns, conditional, catchAll := None, [], [], None;
    for i := 0 to |rules|
      invariant error.None?
      invariant forall j | 0 <= j < i :: Runnable(c, rules[j])
      invariant Collected(c, rules[..i], columns, conditional, catchAll)
    {
      assert rules[..i + 1] == rules[..i] + [rules[i]];
      match rules[i].conditions {
        case Unparsable =>
          assert rules[i] in rules && !Runnable(c, rules[i]);
          error := Some(InvalidConditions);
          return;
        case CatchAll =>
          if catchAll.None? { catchAll := Some(rules[i]); }
        case Condition(filter) =>
          conditional := conditional + [rules[i]];
          match Compile(c, filter) {
            case Fail(e) =>
              assert rules[i] in rules && !Runnable(c, rules[i]);
              error := Some(CompileFailed(e));
              return;
            case Ok(sql) => columns := columns + [sql];
          }
      }
    }
    assert rules[..|rules|] == rules;
  }

  /** The one-query match. `lead` is None when the row is missing. */
  method Match(c: Compiler, lead: Option<Lead>, log: seq<Action>, rules: seq<Rule>)
    returns (result: Result<Option<Rule>, MatchError>)
    requires UniqueIds(rules)
    ensures result.Ok? || result.error.QueryFailed? <==> forall rule | rule in rules :: Runnable(c, rule)
    ensures Lawful(c.platform) && lead.Some?
            && (forall rule | rule in rules :: Runnable(c, rule) && Readable(c, lead.value, rule)) ==>
      result == if exists rule :: rule in rules && Trips(c, lead.value, rule) then Fail(QueryFailed)
                else Ok(FirstMatch(c, lead.value, log, rules))
    ensures result.Ok? && result.value.Some? ==> result.value.value in rules
    ensures lead.None? && result.Ok? && result.value.Some? ==> result.value.value.conditions.CatchAll?
  {
    hide Lawful, Readable, Compile, Eval, Wants, Runnable, Trips, Picked;
    if rules == [] {
      return Ok(None);
    }
    var error, columns, conditional, catchAll := Collect(c, rules);
    if error.Some? {
      return Fail(error.value);
    }
    if columns == [] {
      NoConditions(c, lead, log, rules, conditional, catchAll);
      return Ok(catchAll);
    }
    if lead.None? {
      return Ok(catchAll);
    }
    var matched: set<Id> := {};
    for i := 0 to |columns|
      invariant forall id :: id in matched <==>
        exists j | 0 <= j < i :: conditional[j].id == id && HitOf(c, lead.value, log, conditional[j]) == Yes
      invariant forall j | 0 <= j < i :: HitOf(c, lead.value, log, conditional[j]) != Fault
    {
      var hit := Eval(c.platform, lead.value, log, columns[i]);
      assert hit == HitOf(c, lead.value, log, conditional[i]);
      if hit == Fault {
        FaultTrips(c, lead.value, log, conditional[i]);
        return Fail(QueryFailed);
      }
      if hit == Yes {
        matched := matched + {conditional[i].id};
      }
    }
    NothingTrips(c, lead.value, log, rules, conditional, columns, catchAll);
    result := Ok(None);
    for i := 0 to |rules|
      invariant forall j | 0 <= j < i :: !Picked(rules[j], matched, catchAll)
    {
      PickedUnfolds(rules[i], matched, catchAll);
      if rules[i].id in matched || (catchAll.Some? && rules[i].id == catchAll.value.id) {
        PickedIsFirst(c, lead.value, log, rules, conditional, columns, catchAll, matched, i);
        return Ok(Some(rules[i]));
      }
    }
    PickedIsFirst(c, lead.value, log, rules, conditional, columns, catchAll, matched, |rules|);
  }

  predicate Picked(rule: Rule, matched: set<Id>, catchAll: Option<Rule>) {
    rule.id in matched || (catchAll.Some? && rule.id == catchAll.value.id)
  }

  /** What the collecting loop has gathered from a prefix of the rules. */
  ghost predicate Collected(c: Compiler, rules: seq<Rule>, columns: seq<Sql>, conditional: seq<Rule>,
                            catchAll: Option<Rule>) {
    && |columns| == |conditional|
    && (forall rule :: rule in conditional <==> rule in rules && rule.conditions.Condition?)
    && (forall i | 0 <= i < |columns| ::
      Runnable(c, conditional[i]) && Compile(c, conditional[i].conditions.filter) == Ok(columns[i]))
    && (catchAll.None? ==> forall rule | rule in rules :: !rule.conditions.CatchAll?)
    && (catchAll.Some? ==> FirstCatchAll(rules, catchAll.value))
  }

  /** `rule` is the first catch-all in the list. */
  ghost predicate FirstCatchAll(rules: seq<Rule>, rule: Rule) {
    exists k | 0 <= k < |rules| :: rules[k] == rule && rule.conditions.CatchAll?
                                   && forall j | 0 <= j < k :: !rules[j].conditions.CatchAll?
  }

  lemma PickedUnfolds(rule: Rule, matched: set<Id>, catchAll: Option<Rule>)
    ensures Picked(rule, matched, catchAll) <==> rule.id in matched || (catchAll.Some? && rule.id == catchAll.value.id)
  {}

  lemma FaultTrips(c: Compiler, lead: Lead, log: seq<Action>, rule: Rule)
    requires rule.conditions.Condition? && Runnable(c, rule) && HitOf(c, lead, log, rule) == Fault
    ensures Lawful(c.platform) && Readable(c, lead, rule) ==> Trips(c, lead, rule)
  {
    hide Lawful, Readable, Runnable, HitOf, Wants, Trips;
    if Lawful(c.platform) && Readable(c, lead, rule) { HitMeans(c, lead, log, rule); }
  }

  lemma NothingTrips(c: Compiler, lead: Lead, log: seq<Action>, rules: seq<Rule>, conditional: seq<Rule>,
                     columns: seq<Sql>, catchAll: Option<Rule>)
    requires Collected(c, rules, columns, conditional, catchAll)
    requires forall rule | rule in rules :: Runnable(c, rule)
    requires forall j | 0 <= j < |conditional| :: HitOf(c, lead, log, conditional[j]) != Fault
    ensures Lawful(c.platform) && (forall rule | rule in rules :: Readable(c, lead, rule)) ==>
      forall rule | rule in rules :: !Trips(c, lead, rule)
  {
    hide Lawful, Readable, Runnable, HitOf, Wants;
    if Lawful(c.platform) && forall rule | rule in rules :: Readable(c, lead, rule) {
      forall rule | rule in rules
        ensures !Trips(c, lead, rule)
      {
        if rule.conditions.Condition? {
          var j :| 0 <= j < |conditional| && conditional[j] == rule;
          HitMeans(c, lead, log, rule);
        }
      }
    }
  }

  lemma NoConditions(c: Compiler, lead: Option<Lead>, log: seq<Action>, rules: seq<Rule>, conditional: seq<Rule>,
                     catchAll: Option<Rule>)
    requires Collected(c, rules, [], conditional, catchAll) && forall rule | rule in rules :: Runnable(c, rule)
    ensures lead.Some? ==> FirstMatch(c, lead.value, log, rules) == catchAll
    ensures lead.Some? ==> forall rule | rule in rules :: !Trips(c, lead.value, rule)
    ensures catchAll.Some? ==> catchAll.value in rules && catchAll.value.conditions.CatchAll?
  {
    hide Holds, Compile;
    if lead.Some? {
      assert forall rule | rule in rules :: rule.conditions.CatchAll?;
      if rules != [] { FirstMatchAt(c, lead.value, log, rules, 0); }
    }
  }

  /** Picking by matched ids and the first catch-all is sequential first match. */
  lemma PickedIsFirst(c: Compiler, lead: Lead, log: seq<Action>, rules: seq<Rule>, conditional: seq<Rule>,
                      columns: seq<Sql>, catchAll: Option<Rule>, matched: set<Id>, k: nat)
    requires UniqueIds(rules) && k <= |rules|
    requires Collected(c, rules, columns, conditional, catchAll)
    requires forall rule | rule in rules :: Runnable(c, rule)
    requires forall id :: id in matched <==>
      exists j | 0 <= j < |conditional| :: conditional[j].id == id && HitOf(c, lead, log, conditional[j]) == Yes
    requires forall j | 0 <= j < k :: !Picked(rules[j], matched, catchAll)
    requires k < |rules| ==> Picked(rules[k], matched, catchAll)
    ensures Lawful(c.platform) && (forall rule | rule in rules :: Readable(c, lead, rule) && !Trips(c, lead, rule)) ==>
      FirstMatch(c, lead, log, rules) == if k < |rules| then Some(rules[k]) else None
  {
    hide Lawful, Readable, Compile, Eval, Wants, HitOf, FirstMatch, Trips;
    if Lawful(c.platform) && forall rule | rule in rules :: Readable(c, lead, rule) && !Trips(c, lead, rule) {
      forall i | 0 <= i < |rules| && i <= k
        ensures Wants(c, lead, log, rules[i]) <==> Picked(rules[i], matched, catchAll)
      {
        PickedMeansWanted(c, lead, log, rules, conditional, columns, catchAll, matched, k, i);
      }
      FirstMatchAt(c, lead, log, rules, k);
    }
  }

  lemma PickedMeansWanted(c: Compiler, lead: Lead, log: seq<Action>, rules: seq<Rule>, conditional: seq<Rule>,
                          columns: seq<Sql>, catchAll: Option<Rule>, matched: set<Id>, k: nat, i: nat)
    requires UniqueIds(rules) && k <= |rules| && i < |rules| && i <= k
    requires Collected(c, rules, columns, conditional, catchAll)
    requires forall rule | rule in rules :: Runnable(c, rule) && Readable(c, lead, rule) && !Trips(c, lead, rule)
    requires Lawful(c.platform)
    requires forall id :: id in matched <==>
      exists j | 0 <= j < |conditional| :: conditional[j].id == id && HitOf(c, lead, log, conditional[j]) == Yes
    requires forall j | 0 <= j < k :: !Picked(rules[j], matched, catchAll)
    ensures Wants(c, lead, log, rules[i]) <==> Picked(rules[i], matched, catchAll)
  {
    hide Lawful, Readable, Compile, Eval, HitOf, Holds, Trips;
    var rule := rules[i];
    if rule.conditions.Condition? {
      HitMeans(c, lead, log, rule);
      var j :| 0 <= j < |conditional| && conditional[j] == rule;
      if rule.id in matched {
        var n :| 0 <= n < |conditional| && conditional[n].id == rule.id && HitOf(c, lead, log, conditional[n]) == Yes;
        assert conditional[n] in rules && conditional[n] == rule;
      }
    } else {
      assert rule in rules && Runnable(c, rule);
      assert rule.conditions.CatchAll?;
      assert catchAll.Some?;
      var first :| 0 <= first < |rules| && rules[first] == catchAll.value && catchAll.value.conditions.CatchAll?
                   && forall j | 0 <= j < first :: !rules[j].conditions.CatchAll?;
      assert Picked(rules[first], matched, catchAll);
    }
  }

  /** Over the table: the result is the least active rule, by priority and id, that wants the lead. */
  lemma {:induction false} FirstMatchIsLeast(
    less: (Id, Id) -> bool, table: set<Rule>, c: Compiler, lead: Lead, log: seq<Action>, rules: seq<Rule>)
    requires RulesQuery(less, table, rules)
    ensures var first := FirstMatch(c, lead, log, rules);
      && (first.None? ==> forall r | r in table && r.active :: !Wants(c, lead, log, r))
      && (first.Some? ==>
            && first.value in table && first.value.active && Wants(c, lead, log, first.value)
            && forall r | r in table && r.active && Wants(c, lead, log, r) ::
              r == first.value || first.value.priority < r.priority
                   || (first.value.priority == r.priority && less(first.value.id, r.id)))
  {
    hide Wants;
    var k: nat := 0;
    while k < |rules| && !Wants(c, lead, log, rules[k])
      invariant k <= |rules| && forall i | 0 <= i < k :: !Wants(c, lead, log, rules[i])
    {
      k := k + 1;
    }
    FirstMatchAt(c, lead, log, rules, k);
    forall r | r in table && r.active && Wants(c, lead, log, r)
      ensures k < |rules| && (r == rules[k] || Earlier(less, rules[k], r))
    {
      var i :| 0 <= i < |rules| && rules[i] == r;
      assert i >= k;
    }
  }

  // --- whom a rule picks --------------------------------------------------------------

  /** Active, licensed, and working if the rule skips the unavailable. */
  predicate Eligible(roster: map<Id, Member>, m: Id, skipUnavailable: bool) {
    m in roster && roster[m].active && roster[m].licensed && (skipUnavailable ==> roster[m].working)
  }

  function EligibleSet(roster: map<Id, Member>, skipUnavailable: bool): set<Id> {
    set m | m in roster && Eligible(roster, m, skipUnavailable)
  }

  lemma {:induction false} InMeansCounted(deal: seq<Id>, m: Id)
    ensures m in deal <==> RoundRobin.CountIn(deal, m) > 0
  {
    if deal != [] { InMeansCounted(deal[1..], m); }
  }

  /** The value a field-value rule looks up. */
  function Mapped(p: Platform, lead: Lead, strategy: Strategy): Option<Id>
    requires strategy.FieldValue?
  {
    var raw := if strategy.key in lead.values then lead.values[strategy.key] else Null;
    if raw != Null && p.textOf(raw) in strategy.mapping then Some(strategy.mapping[p.textOf(raw)])
    else strategy.fallback
  }

  /** Members a rule may give this lead to: active, licensed, working unless the rule does not mind,
      and listed, mapped to by the lead's value (or the fallback for other values), or named. */
  predicate MayReceive(p: Platform, roster: map<Id, Member>, lead: Lead, rule: Rule, m: Id) {
    && m in roster && roster[m].active && roster[m].licensed && (roster[m].working || !rule.skipUnavailable)
    && match rule.strategy
       case Rotating(pairs) => exists i | 0 <= i < |pairs| :: pairs[i].0 == m
       case FieldValue(key, mapping, fallback) =>
         if key in lead.values && lead.values[key] != Null && p.textOf(lead.values[key]) in mapping
         then mapping[p.textOf(lead.values[key])] == m
         else fallback == Some(m)
       case Fixed(member) => member == Some(m)
       case Unassigned => false
  }

  /** A member is due turns exactly if eligible and listed. */
  lemma {:induction false} DueIffListed(pairs: seq<(Id, int)>, eligible: set<Id>, m: Id)
    ensures RoundRobin.Due(pairs, eligible, m) > 0 <==> m in eligible && exists i | 0 <= i < |pairs| :: pairs[i].0 == m
  {
    if pairs != [] {
      var init, last := pairs[..|pairs| - 1], pairs[|pairs| - 1];
      DueIffListed(init, eligible, m);
      assert forall i | 0 <= i < |init| :: pairs[i] == init[i];
      if last.0 != m {
        assert (exists i | 0 <= i < |pairs| :: pairs[i].0 == m) ==> exists i | 0 <= i < |init| :: init[i].0 == m;
      }
    }
  }

  /** A rotating rule's pick: the cursor's next position in the deal list of the eligible. */
  ghost predicate DealtNext(roster: map<Id, Member>, rule: Rule, position: int, newPosition: int, picked: Id) {
    rule.strategy.Rotating? ==>
      var deal := RoundRobin.DealList(rule.strategy.pairs, EligibleSet(roster, rule.skipUnavailable));
      && deal != []
      && newPosition == RoundRobin.Wrap(position + 1, |deal|)
      && picked == deal[newPosition]
  }

  /** Whom the rule picks: an allowed member whenever there is one, and nobody otherwise. */
  method Resolve(p: Platform, roster: map<Id, Member>, lead: Lead, rule: Rule, cursor: RoundRobin.Cursor)
    returns (picked: Option<Id>)
    requires cursor.position >= -1
    modifies cursor
    ensures picked.Some? ==> MayReceive(p, roster, lead, rule, picked.value)
    ensures picked.None? ==> forall m :: !MayReceive(p, roster, lead, rule, m)
    ensures cursor.position >= -1
    ensures picked.Some? ==> DealtNext(roster, rule, old(cursor.position), cursor.position, picked.value)
    ensures !(rule.strategy.Rotating? && picked.Some?) ==> cursor.position == old(cursor.position)
  {
    match rule.strategy {
      case Unassigned => return None;
      case Fixed(member) =>
        picked := if member.Some? && Eligible(roster, member.value, rule.skipUnavailable) then member else None;
      case FieldValue(_, _, _) =>
        var mapped := Mapped(p, lead, rule.strategy);
        picked := if mapped.Some? && Eligible(roster, mapped.value, rule.skipUnavailable) then mapped else None;
      case Rotating(pairs) =>
        var eligible := EligibleSet(roster, rule.skipUnavailable);
        var deal := RoundRobin.BuildDeal(pairs, eligible);
        forall m ensures m in deal <==> m in eligible && exists i | 0 <= i < |pairs| :: pairs[i].0 == m {
          InMeansCounted(deal, m);
          DueIffListed(pairs, eligible, m);
        }
        if deal == [] {
          forall m ensures !MayReceive(p, roster, lead, rule, m) { assert m !in deal; }
          return None;
        }
        var next := cursor.Next(deal);
        assert next in deal;
        picked := Some(next);
    }
  }

  datatype Reason = Matched | NoRuleMatched | NoCandidates | RuleAssignsNobody

  datatype Decision = Decision(rule: Option<Rule>, member: Option<Id>, reason: Reason)

  /** Who the lead should go to, and why. */
  method Decide(c: Compiler, roster: map<Id, Member>, lead: Lead, log: seq<Action>, rules: seq<Rule>,
                cursors: map<Id, RoundRobin.Cursor>)
    returns (result: Result<Decision, MatchError>)
    requires UniqueIds(rules) && forall rule | rule in rules :: rule.id in cursors
    requires forall id | id in cursors :: cursors[id].position >= -1
    requires forall a, b | a in cursors && b in cursors && a != b :: cursors[a] != cursors[b]
    modifies cursors.Values
    ensures result.Ok? && result.value.member.Some? ==>
      && result.value.reason == Matched && result.value.rule.Some? && result.value.rule.value in rules
      && MayReceive(c.platform, roster, lead, result.value.rule.value, result.value.member.value)
    ensures result.Ok? && result.value.member.Some? ==>
      var id := result.value.rule.value.id;
      DealtNext(roster, result.value.rule.value, old(cursors[id].position), cursors[id].position,
                result.value.member.value)
    ensures forall id | id in cursors && cursors[id].position != old(cursors[id].position) ::
      result.Ok? && result.value.member.Some? && result.value.rule.value.id == id
        && result.value.rule.value.strategy.Rotating?
    ensures result.Ok? && result.value.reason == NoCandidates ==>
      result.value.rule.Some? && forall m :: !MayReceive(c.platform, roster, lead, result.value.rule.value, m)
    ensures result.Ok? ==> (result.value.reason == RuleAssignsNobody
                            <==> result.value.rule.Some? && result.value.rule.value.strategy == Unassigned)
    ensures result.Ok? ==> (result.value.reason == NoRuleMatched <==> result.value.rule.None?)
    ensures result.Ok? ==> (result.value.reason == Matched <==> result.value.member.Some?)
    ensures Lawful(c.platform) && (forall rule | rule in rules :: Runnable(c, rule) && Readable(c, lead, rule)) ==>
      if exists rule :: rule in rules && Trips(c, lead, rule) then result == Fail(QueryFailed)
      else result.Ok? && result.value.rule == FirstMatch(c, lead, log, rules)
  {
    hide Lawful, Readable, Runnable, MayReceive, FirstMatch, DealtNext, Trips;
    var matched := Match(c, Some(lead), log, rules);
    match matched {
      case Fail(e) => return Fail(e);
      case Ok(None) => return Ok(Decision(None, None, NoRuleMatched));
      case Ok(Some(rule)) =>
        assert cursors[rule.id] in cursors.Values;
        var picked := Resolve(c.platform, roster, lead, rule, cursors[rule.id]);
        if picked.None? {
          var reason := if rule.strategy == Unassigned then RuleAssignsNobody else NoCandidates;
          return Ok(Decision(Some(rule), None, reason));
        }
        UnassignedPicksNobody(c.platform, roster, lead, rule, picked.value);
        return Ok(Decision(Some(rule), picked, Matched));
    }
  }

  lemma UnassignedPicksNobody(p: Platform, roster: map<Id, Member>, lead: Lead, rule: Rule, m: Id)
    requires MayReceive(p, roster, lead, rule, m)
    ensures rule.strategy != Unassigned
  {}
}
