// The compiler preserves meaning, accepts exactly the acceptable trees, and
// reads nothing but the fields a filter names.

module FilterProofs {
  import opened Prelude
  import opened FilterDsl
  import opened FilterSql
  import opened FilterCompiler
  import opened FilterMeaning
  import LikePatterns

  // --- columns read what is stored ----------------------------------------------

  lemma {:induction false} JoinedParts(p: Platform, j: Option<Json>, parts: seq<string>)
    requires forall part | part in parts :: Part(j, part).None? || Part(j, part).value.Str? || Part(j, part).value.Null?
    ensures JoinParts(p, j, parts) == JoinWithSpaces(AddressWords(j, parts))
  {
    if parts != [] {
      JoinedParts(p, j, parts[1..]);
      assert AddressWords(j, parts)[1..] == AddressWords(j, parts[1..]);
    }
  }

  function Reads(r: Reading): SqlValue {
    if r.Holding? then r.value else SqlNull
  }

  lemma AccessorReads(p: Platform, lead: Lead, key: string, t: FieldType)
    requires Lawful(p) && t != Tags && SafeKey(key)
    requires Read(p, t, Slot(lead, key)) != Malformed
    ensures ColumnValue(p, lead, Accessor(key, t).value) == Some(Reads(Read(p, t, Slot(lead, key))))
  {
    hide LawfulOperands, KeyShape, LikePatterns.FoldLaw, JoinWithSpaces, AddressWords;
    var j := Slot(lead, key);
    if t == Location {
      assert forall part | part in LOCATION_PARTS ::
        Part(j, part).None? || Part(j, part).value.Str? || Part(j, part).value.Null?;
      JoinedParts(p, j, LOCATION_PARTS);
    }
  }

  lemma BlankPath(p: Platform, lead: Lead, key: string, t: FieldType)
    requires Lawful(p) && t != Tags && Read(p, t, Slot(lead, key)) != Malformed
    ensures PathText(p, lead, key, SubKey(t)) in {SqlNull, SqlText("")} <==> IsBlank(p, t, Slot(lead, key))
  {
    hide LawfulOperands, LikePatterns.FoldLaw, JoinWithSpaces, AddressWords;
  }

  lemma BlankColumn(c: Compiler, lead: Lead, log: seq<Action>, key: string, t: FieldType)
    requires Lawful(c.platform) && SafeKey(key) && WellStoredField(c.platform, t, Slot(lead, key))
    ensures Eval(c.platform, lead, log, IsEmptySql(key, t).value)
         == if Unmeasurable(t, Slot(lead, key)) then Fault else Known(IsBlank(c.platform, t, Slot(lead, key)))
  {
    hide Lawful, Read, SafeKey, SubKey, PathText;
    var p, j := c.platform, Slot(lead, key);
    if t == Tags {
      assert ReadTags(j) == Some([]) <==> ReadTags(j).value == [];
    } else {
      var target := Path(key, SubKey(t), AsText);
      hide IsBlank;
      BlankPath(p, lead, key, t);
      EvalNullOr(p, lead, log, target, Compare(target, Eq, SqlText("")), PathText(p, lead, key, SubKey(t)));
      EvalCompare(p, lead, log, target, PathText(p, lead, key, SubKey(t)), Eq, SqlText(""));
    }
  }

  lemma EvalNullOr(p: Platform, lead: Lead, log: seq<Action>, target: Column, sql: Sql, v: SqlValue)
    requires ColumnValue(p, lead, target) == Some(v)
    ensures Eval(p, lead, log, AnyOf([IsNull(target), sql])) == TruthOr(Known(v == SqlNull), Eval(p, lead, log, sql))
  {
    hide ColumnValue;
    TwoAny(p, lead, log, [IsNull(target), sql]);
  }

  lemma EvalCompare(p: Platform, lead: Lead, log: seq<Action>, target: Column, v: SqlValue, cmp: Comparison,
                    value: SqlValue)
    requires ColumnValue(p, lead, target) == Some(v)
    ensures Eval(p, lead, log, Compare(target, cmp, value)) == CompareValues(v, cmp, value)
  {
    hide ColumnValue, CompareValues;
  }

  lemma EvalBetween(p: Platform, lead: Lead, log: seq<Action>, target: Column, v: SqlValue, low: SqlValue,
                    high: SqlValue)
    requires ColumnValue(p, lead, target) == Some(v)
    ensures Eval(p, lead, log, BetweenValues(target, low, high))
         == TruthAnd(CompareValues(v, Ge, low), CompareValues(v, Le, high))
  {
    hide ColumnValue, CompareValues;
  }

  lemma EvalILike(p: Platform, lead: Lead, log: seq<Action>, target: Column, v: SqlValue, pattern: string)
    requires ColumnValue(p, lead, target) == Some(v) && (v.SqlText? || v == SqlNull)
    ensures Eval(p, lead, log, ILike(target, pattern))
         == if v.SqlText? then Known(LikePatterns.ILike(p.fold, v.text, pattern)) else Unknown
    ensures Eval(p, lead, log, Not(ILike(target, pattern))) == TruthNot(Eval(p, lead, log, ILike(target, pattern)))
  {
    hide ColumnValue, LikePatterns.ILike;
  }

  lemma TwoAny(p: Platform, lead: Lead, log: seq<Action>, parts: seq<Sql>)
    requires |parts| == 2
    ensures Eval(p, lead, log, AnyOf(parts)) == TruthOr(Eval(p, lead, log, parts[0]), Eval(p, lead, log, parts[1]))
  {
    assert parts[1..][1..] == [];
    assert EvalAny(p, lead, log, parts[1..]) == TruthOr(Eval(p, lead, log, parts[1..][0]), EvalAny(p, lead, log, []));
  }

  // --- field rules ----------------------------------------------------------------

  predicate KindFits(t: FieldType, v: SqlValue) {
    match t
    case Number | Money => v.SqlNumber?
    case Date | RecurringDate => v.SqlDay?
    case Checkbox => v.SqlFlag?
    case _ => v.SqlText?
  }

  lemma ReadKind(p: Platform, t: FieldType, j: Option<Json>)
    ensures Read(p, t, j).Holding? ==> KindFits(t, Read(p, t, j).value)
  {}

  /** The compiler reads operands as the meaning does. */
  lemma AskedIsCoerced(p: Platform, t: FieldType)
    ensures forall raw :: Asked(p, t, raw) == Coerce(p, t, raw)
  {}

  lemma {:induction false} CoerceAllItems(p: Platform, t: FieldType, raws: seq<Json>)
    ensures CoerceAll(p, t, raws).Some? <==> forall raw | raw in raws :: Coerce(p, t, raw).Some?
    ensures CoerceAll(p, t, raws).Some? ==>
      && |CoerceAll(p, t, raws).value| == |raws| && SqlNull !in CoerceAll(p, t, raws).value
      && forall i | 0 <= i < |raws| :: Some(CoerceAll(p, t, raws).value[i]) == Coerce(p, t, raws[i])
  {
    if raws != [] {
      CoerceAllItems(p, t, raws[1..]);
      assert forall raw :: raw in raws <==> raw == raws[0] || raw in raws[1..];
    }
  }

  lemma {:induction false} InValuesTruth(v: SqlValue, values: seq<SqlValue>)
    requires SqlNull !in values
    ensures v != SqlNull ==> InValues(v, values) == Known(v in values)
    ensures v == SqlNull && values != [] ==> InValues(v, values) == Unknown
  {
    if values != [] {
      InValuesTruth(v, values[1..]);
      assert v in values <==> v == values[0] || v in values[1..];
    }
  }

  /** A compiled rule's outcome agrees with a two-valued answer: no fault, TRUE exactly when it holds. */
  predicate Agrees(truth: Truth, holds: bool) {
    truth != Fault && (truth == Yes <==> holds)
  }

  /** The same where a query may raise: it faults exactly if it should, and agrees otherwise. */
  predicate Tells(truth: Truth, raises: bool, holds: bool) {
    && (truth == Fault <==> raises)
    && (!raises ==> (truth == Yes <==> holds))
  }

  lemma EvalInList(p: Platform, lead: Lead, log: seq<Action>, target: Column, v: SqlValue, values: seq<SqlValue>)
    requires ColumnValue(p, lead, target) == Some(v)
    ensures Eval(p, lead, log, InList(target, values)) == InValues(v, values)
    ensures Eval(p, lead, log, Not(InList(target, values))) == TruthNot(InValues(v, values))
  {}

  lemma InAgrees(p: Platform, lead: Lead, log: seq<Action>, key: string, t: FieldType, target: Column, stored: Reading,
                 op: Operator, operand: Json)
    requires IsMembership(op) && Items(operand) != []
    requires ColumnValue(p, lead, target) == Some(Reads(stored))
    requires stored.Holding? ==> KindFits(t, stored.value)
    requires InSql(p, key, t, target, op, operand).Ok?
    ensures Agrees(Eval(p, lead, log, InSql(p, key, t, target, op, operand).value), InHolds(p, t, stored, op, operand))
  {
    hide Eval, ColumnValue, CoerceAll, Coerce, Asked, InValues, KindFits;
    AskedIsCoerced(p, t);
    CoerceAllItems(p, t, Items(operand));
    var values, v := CoerceAll(p, t, Items(operand)).value, Reads(stored);
    if stored.Holding? { OneKind(t, v, v); }
    InValuesTruth(v, values);
    EvalInList(p, lead, log, target, v, values);
    if v in values {
      var i :| 0 <= i < |values| && values[i] == v;
      assert Items(operand)[i] in Items(operand);
    }
    if IsOneOf(p, t, v, Items(operand)) {
      var raw :| raw in Items(operand) && Asked(p, t, raw) == Some(v);
      var i :| 0 <= i < |values| && Items(operand)[i] == raw;
      assert values[i] == v;
    }
  }

  lemma BetweenAgrees(p: Platform, lead: Lead, log: seq<Action>, target: Column, stored: Reading, low: SqlValue,
                      high: SqlValue)
    requires ColumnValue(p, lead, target) == Some(Reads(stored))
    requires (low.SqlNumber? && high.SqlNumber?) || (low.SqlDay? && high.SqlDay?)
    requires stored.Holding? ==> stored.value.SqlNumber? == low.SqlNumber? && stored.value.SqlDay? == low.SqlDay?
    ensures Agrees(Eval(p, lead, log, BetweenValues(target, low, high)), BetweenHolds(stored, Some(low), Some(high)))
  {
    hide Eval, ColumnValue;
    EvalBetween(p, lead, log, target, Reads(stored), low, high);
  }

  lemma PatternAgrees(p: Platform, lead: Lead, log: seq<Action>, target: Column, stored: Reading, op: Operator,
                      operand: Json)
    requires Lawful(p) && IsPattern(op) && stored != Malformed
    requires ColumnValue(p, lead, target) == Some(Reads(stored))
    requires stored.Holding? ==> stored.value.SqlText?
    ensures Agrees(Eval(p, lead, log, PatternSql(p, target, op, operand)),
                   PatternHolds(p, stored, op, p.textOf(operand)))
  {
    hide LawfulOperands, Eval, ColumnValue, LikePatterns.ILike, LikePatterns.EscapeLike, LikePatterns.Contains,
         LikePatterns.FoldLaw;
    var text := p.textOf(operand);
    if stored.Holding? {
      LikePatterns.ILikePatterns(p.fold, stored.value.text, text);
    }
    var escaped := LikePatterns.EscapeLike(text);
    EvalILike(p, lead, log, target, Reads(stored), escaped + "%");
    EvalILike(p, lead, log, target, Reads(stored), "%" + escaped);
    EvalILike(p, lead, log, target, Reads(stored), "%" + escaped + "%");
    EvalNullOr(p, lead, log, target, Not(ILike(target, "%" + escaped + "%")), Reads(stored));
  }

  lemma ComparisonAgrees(p: Platform, lead: Lead, log: seq<Action>, target: Column, stored: Reading, op: Operator,
                         value: SqlValue, sql: Sql)
    requires stored != Malformed && value != SqlNull
    requires ColumnValue(p, lead, target) == Some(Reads(stored))
    requires op !in {Equals, NotEquals} ==> value.SqlNumber? || value.SqlDay?
    requires op in {Equals, NotEquals, GreaterThan, GreaterOrEqual, LessThan, LessOrEqual}
    requires stored.Holding? ==> stored.value != SqlNull
    requires stored.Holding? ==> stored.value.SqlNumber? == value.SqlNumber? && stored.value.SqlDay? == value.SqlDay?
    requires sql
          == if op == NotEquals then AnyOf([IsNull(target), Compare(target, Ne, value)])
             else Compare(target, ComparisonOf(op), value)
    ensures Agrees(Eval(p, lead, log, sql), ComparisonHolds(stored, op, Some(value)))
  {
    hide Eval, ColumnValue;
    EvalCompare(p, lead, log, target, Reads(stored), ComparisonOf(op), value);
    EvalNullOr(p, lead, log, target, Compare(target, Ne, value), Reads(stored));
  }

  /** What the operator tables say about the values an operator meets. */
  lemma OperatorKinds(t: FieldType, op: Operator)
    requires op in Operators(t) && op !in PRESENCE && t != Tags
    ensures IsPattern(op) ==> KindFits(t, SqlText(""))
    ensures IsDayWindow(op) ==> KindFits(t, SqlDay(0))
    ensures !IsMembership(op) && !IsPattern(op) && op !in {Equals, NotEquals} ==>
      KindFits(t, SqlNumber(0.0)) || KindFits(t, SqlDay(0))
    ensures !IsMembership(op) && !IsPattern(op) && !IsDayWindow(op) && op != Between ==>
      op in {Equals, NotEquals, GreaterThan, GreaterOrEqual, LessThan, LessOrEqual}
  {}

  lemma CoerceKind(p: Platform, t: FieldType, raw: Json)
    requires Coerce(p, t, raw).Some?
    ensures KindFits(t, Coerce(p, t, raw).value)
  {}

  lemma OneKind(t: FieldType, v: SqlValue, w: SqlValue)
    requires KindFits(t, v) && KindFits(t, w)
    ensures v.SqlNumber? == w.SqlNumber? && v.SqlDay? == w.SqlDay? && v.SqlText? == w.SqlText? && v != SqlNull
  {}

  lemma ScalarAgrees(p: Platform, today: int, lead: Lead, log: seq<Action>, key: string, t: FieldType, op: Operator,
                     operand: Json)
    requires Lawful(p) && t != Tags && op in Operators(t) && op !in PRESENCE
    requires IsMembership(op) ==> Items(operand) != []
    requires Read(p, t, Slot(lead, key)) != Malformed
    requires ScalarSql(p, today, key, t, op, operand).Ok?
    ensures Agrees(Eval(p, lead, log, ScalarSql(p, today, key, t, op, operand).value),
                   ScalarHolds(p, today, t, Read(p, t, Slot(lead, key)), op, operand))
  {
    hide Eval, Read, ColumnValue, Accessor, Agrees, Operators, KindFits, Coerce, Asked, CoerceAll, Lawful, SafeKey;
    AskedIsCoerced(p, t);
    hide InSql, InHolds, PatternSql, PatternHolds, BetweenSql, BetweenHolds, DaysHolds;
    hide ComparisonSql, ComparisonHolds;
    var stored := Read(p, t, Slot(lead, key));
    AccessorSafe(key, t);
    AccessorReads(p, lead, key, t);
    ReadKind(p, t, Slot(lead, key));
    OperatorKinds(t, op);
    var target := Accessor(key, t).value;
    if IsMembership(op) {
      InAgrees(p, lead, log, key, t, target, stored, op, operand);
    } else if op == Between {
      BetweenRule(p, lead, log, key, t, target, stored, operand);
    } else if IsDayWindow(op) {
      DaysRule(p, today, lead, log, t, target, stored, op, operand);
    } else if IsPattern(op) {
      if stored.Holding? { OneKind(t, stored.value, SqlText("")); }
      PatternAgrees(p, lead, log, target, stored, op, operand);
    } else {
      ComparisonRule(p, lead, log, key, t, target, stored, op, operand);
    }
  }

  lemma AccessorSafe(key: string, t: FieldType)
    ensures Accessor(key, t).Ok? <==> SafeKey(key)
    ensures Accessor(key, t).Ok? ==> Accessor(key, t).value.key == key
  {}

  lemma DaysRule(p: Platform, today: int, lead: Lead, log: seq<Action>, t: FieldType, target: Column, stored: Reading,
                 op: Operator, operand: Json)
    requires ColumnValue(p, lead, target) == Some(Reads(stored))
    requires IsDayWindow(op) && KindFits(t, SqlDay(0))
    requires stored.Holding? ==> KindFits(t, stored.value)
    requires DaysSql(p, today, target, op, operand).Ok?
    ensures Agrees(Eval(p, lead, log, DaysSql(p, today, target, op, operand).value),
                   DaysHolds(today, stored, op, p.daysOf(operand)))
  {
    hide Eval, ColumnValue, KindFits, BetweenHolds, DaysHolds, Agrees;
    var days := p.daysOf(operand).value;
    if stored.Holding? { OneKind(t, stored.value, SqlDay(0)); }
    DaysAreBetween(today, stored, op, days);
    if op == InLastDays {
      BetweenAgrees(p, lead, log, target, stored, SqlDay(today - days), SqlDay(today));
    } else {
      BetweenAgrees(p, lead, log, target, stored, SqlDay(today), SqlDay(today + days));
    }
  }

  lemma ComparisonRule(p: Platform, lead: Lead, log: seq<Action>, key: string, t: FieldType, target: Column,
                       stored: Reading, op: Operator, operand: Json)
    requires ColumnValue(p, lead, target) == Some(Reads(stored)) && stored != Malformed
    requires op in {Equals, NotEquals, GreaterThan, GreaterOrEqual, LessThan, LessOrEqual}
    requires op !in {Equals, NotEquals} ==> KindFits(t, SqlNumber(0.0)) || KindFits(t, SqlDay(0))
    requires stored.Holding? ==> KindFits(t, stored.value)
    requires ComparisonSql(p, key, t, target, op, operand).Ok?
    ensures Agrees(Eval(p, lead, log, ComparisonSql(p, key, t, target, op, operand).value),
                   ComparisonHolds(stored, op, Coerce(p, t, operand)))
  {
    hide Eval, ColumnValue, KindFits, Coerce, ComparisonHolds, Agrees;
    CoerceKind(p, t, operand);
    var value := Coerce(p, t, operand).value;
    OneKind(t, value, value);
    if stored.Holding? { OneKind(t, stored.value, value); }
    if KindFits(t, SqlDay(0)) { OneKind(t, value, SqlDay(0)); }
    if KindFits(t, SqlNumber(0.0)) { OneKind(t, value, SqlNumber(0.0)); }
    ComparisonAgrees(p, lead, log, target, stored, op, value, ComparisonSql(p, key, t, target, op, operand).value);
  }

  lemma BetweenRule(p: Platform, lead: Lead, log: seq<Action>, key: string, t: FieldType, target: Column,
                    stored: Reading, operand: Json)
    requires ColumnValue(p, lead, target) == Some(Reads(stored))
    requires KindFits(t, SqlNumber(0.0)) || KindFits(t, SqlDay(0))
    requires stored.Holding? ==> KindFits(t, stored.value)
    requires BetweenSql(p, key, t, target, operand).Ok?
    ensures Agrees(Eval(p, lead, log, BetweenSql(p, key, t, target, operand).value),
                   |Items(operand)| == 2
                     && BetweenHolds(stored, Coerce(p, t, Items(operand)[0]), Coerce(p, t, Items(operand)[1])))
  {
    hide Eval, ColumnValue, CoerceAll, Coerce, Agrees, BetweenHolds, KindFits;
    CoerceAllItems(p, t, Items(operand));
    var low, high := CoerceAll(p, t, Items(operand)).value[0], CoerceAll(p, t, Items(operand)).value[1];
    CoerceKind(p, t, Items(operand)[0]);
    CoerceKind(p, t, Items(operand)[1]);
    if KindFits(t, SqlDay(0)) { OneKind(t, low, SqlDay(0)); OneKind(t, high, SqlDay(0)); }
    if KindFits(t, SqlNumber(0.0)) { OneKind(t, low, SqlNumber(0.0)); OneKind(t, high, SqlNumber(0.0)); }
    if stored.Holding? { OneKind(t, stored.value, low); }
    BetweenAgrees(p, lead, log, target, stored, low, high);
  }

  lemma DaysAreBetween(today: int, stored: Reading, op: Operator, days: int)
    requires IsDayWindow(op)
    ensures DaysHolds(today, stored, op, Some(days))
       <==> if op == InLastDays then BetweenHolds(stored, Some(SqlDay(today - days)), Some(SqlDay(today)))
            else BetweenHolds(stored, Some(SqlDay(today)), Some(SqlDay(today + days)))
  {}

  lemma TagMembers(lead: Lead, key: string)
    requires ReadTags(Slot(lead, key)).Some?
    ensures forall code :: JsonbExists(TagArray(lead, key), code) <==> code in ReadTags(Slot(lead, key)).value
  {}

  lemma PresenceSafe(key: string, t: FieldType)
    ensures IsEmptySql(key, t).Ok? <==> SafeKey(key)
  {}

  lemma EvalNot(p: Platform, lead: Lead, log: seq<Action>, sql: Sql)
    ensures Eval(p, lead, log, Not(sql)) == TruthNot(Eval(p, lead, log, sql))
  {}

  /** The three ways a field rule compiles once the field and operator are accepted. */
  lemma RuleCases(c: Compiler, key: string, op: Operator, operand: Json)
    requires FieldRuleSql(c, key, op, operand).Ok?
    ensures key in c.fields && key in c.viewable && op in Operators(c.fields[key])
    ensures op == IsEmpty ==> FieldRuleSql(c, key, op, operand) == IsEmptySql(key, c.fields[key])
    ensures op == IsNotEmpty ==>
      IsEmptySql(key, c.fields[key]).Ok?
        && FieldRuleSql(c, key, op, operand) == Ok(Not(IsEmptySql(key, c.fields[key]).value))
    ensures op !in PRESENCE && c.fields[key] == Tags ==>
      FieldRuleSql(c, key, op, operand) == TagsSql(c.platform, key, op, operand)
    ensures op !in PRESENCE && c.fields[key] != Tags ==>
      FieldRuleSql(c, key, op, operand) == ScalarSql(c.platform, c.Today(), key, c.fields[key], op, operand)
  {
    hide IsEmptySql, TagsSql, ScalarSql, Operators;
  }

  lemma TagsAgree(p: Platform, lead: Lead, log: seq<Action>, key: string, op: Operator, operand: Json)
    requires ReadTags(Slot(lead, key)).Some? && TagsSql(p, key, op, operand).Ok?
    ensures Agrees(Eval(p, lead, log, TagsSql(p, key, op, operand).value),
                   TagsHold(ReadTags(Slot(lead, key)).value, op, Texts(p, Items(operand))))
  {
    hide ReadTags, JsonbExists, TagArray, Texts, SafeKey;
    TagMembers(lead, key);
  }

  lemma FieldRuleAgrees(c: Compiler, lead: Lead, log: seq<Action>, key: string, op: Operator, operand: Json)
    requires Lawful(c.platform) && WellFormed(FieldRule(key, op, operand))
    requires FieldRuleSql(c, key, op, operand).Ok?
    requires WellStoredField(c.platform, c.fields[key], Slot(lead, key))
    ensures Tells(Eval(c.platform, lead, log, FieldRuleSql(c, key, op, operand).value),
                  RuleRaises(c, lead, key, op), RuleHolds(c, lead, key, c.fields[key], op, operand))
  {
    hide FieldRuleSql, IsEmptySql, TagsSql, ScalarSql, ScalarHolds, TagsHold, Read, ReadTags, IsBlank, Operators,
         SafeKey, Lawful, Eval;
    RuleCases(c, key, op, operand);
    var t := c.fields[key];
    if op in PRESENCE {
      PresenceSafe(key, t);
      BlankColumn(c, lead, log, key, t);
      EvalNot(c.platform, lead, log, IsEmptySql(key, t).value);
    } else if t == Tags {
      TagsAgree(c.platform, lead, log, key, op, operand);
    } else {
      ScalarAgrees(c.platform, c.Today(), lead, log, key, t, op, operand);
    }
  }

  // --- timeline predicates ----------------------------------------------------------

  lemma {:induction false} ConditionsConcat(p: Platform, lead: Lead, a: Action, cs: seq<Condition>, ds: seq<Condition>)
    ensures EvalConditions(p, lead, a, cs + ds) == Yes
       <==> EvalConditions(p, lead, a, cs) == Yes && EvalConditions(p, lead, a, ds) == Yes
  {
    if cs == [] {
      assert cs + ds == ds;
    } else {
      ConditionsConcat(p, lead, a, cs[1..], ds);
      assert (cs + ds)[1..] == cs[1..] + ds;
    }
  }

  lemma OneCondition(p: Platform, lead: Lead, a: Action, cond: Condition)
    ensures EvalConditions(p, lead, a, [cond]) == Yes <==> EvalCondition(p, lead, a, cond) == Yes
  {
    assert [cond][1..] == [];
  }

  lemma WindowMeans(c: Compiler, lead: Lead, a: Action, within: Option<Within>)
    requires Lawful(c.platform)
    ensures EvalConditions(c.platform, lead, a, WindowConditions(c, within)) == Yes
       <==> InWindow(c, within, a.performedAt)
  {
    hide LawfulOperands;
    var p := c.platform;
    if within.Some? {
      var w := within.value;
      if w.lastDays.Some? {
        OneCondition(p, lead, a, PerformedFrom(c.now - w.lastDays.value * DAY));
      } else {
        var low := if w.from.Some? then [PerformedFrom(p.midnight(w.from.value))] else [];
        var high := if w.until.Some? then [PerformedBefore(p.midnight(w.until.value + 1))] else [];
        ConditionsConcat(p, lead, a, low, high);
        if w.from.Some? { OneCondition(p, lead, a, low[0]); }
        if w.until.Some? { OneCondition(p, lead, a, high[0]); }
      }
    }
  }

  lemma {:induction false} PayloadMeans(p: Platform, lead: Lead, a: Action, pairs: seq<(string, Json)>)
    ensures EvalConditions(p, lead, a, PayloadConditions(p, pairs)) == Yes
       <==> forall pair | pair in pairs :: PayloadText(p, a, pair.0) == Some(p.textOf(pair.1))
  {
    if pairs != [] {
      PayloadMeans(p, lead, a, pairs[1..]);
      assert PayloadConditions(p, pairs)[1..] == PayloadConditions(p, pairs[1..]);
      assert forall pair :: pair in pairs <==> pair == pairs[0] || pair in pairs[1..];
    }
  }

  lemma OptionalCondition(p: Platform, lead: Lead, a: Action, cs: seq<Condition>)
    requires |cs| <= 1
    ensures EvalConditions(p, lead, a, cs) == Yes <==> cs == [] || EvalCondition(p, lead, a, cs[0]) == Yes
  {
    if cs != [] { assert cs == [cs[0]]; OneCondition(p, lead, a, cs[0]); }
  }

  lemma ScopeMeans(p: Platform, lead: Lead, a: Action)
    ensures EvalConditions(p, lead, a, [SameLead, SameWorkspace]) == Yes <==> OnLead(lead, a)
  {
    assert [SameLead, SameWorkspace] == [SameLead] + [SameWorkspace];
    ConditionsConcat(p, lead, a, [SameLead], [SameWorkspace]);
    OneCondition(p, lead, a, SameLead);
    OneCondition(p, lead, a, SameWorkspace);
  }

  lemma AnswersMeans(c: Compiler, lead: Lead, a: Action, q: ActionQuery)
    requires Lawful(c.platform)
    ensures EvalConditions(c.platform, lead, a, ActionConditions(c, q)) == Yes <==> Answers(c, lead, q, a)
  {
    hide LawfulOperands;
    var p := c.platform;
    var scope := [SameLead, SameWorkspace];
    var kind := if q.kind.Some? then [KindIs(q.kind.value)] else [];
    var actionType := if q.actionType.Some? then [TypeIs(q.actionType.value)] else [];
    var actor := if q.actor.Some? then [ActorIs(q.actor.value)] else [];
    var payload := PayloadConditions(p, q.payloadMatch);
    var window := WindowConditions(c, q.within);
    ScopeMeans(p, lead, a);
    OptionalCondition(p, lead, a, kind);
    OptionalCondition(p, lead, a, actionType);
    OptionalCondition(p, lead, a, actor);
    PayloadMeans(p, lead, a, q.payloadMatch);
    WindowMeans(c, lead, a, q.within);
    ConditionsConcat(p, lead, a, scope, kind);
    ConditionsConcat(p, lead, a, scope + kind, actionType);
    ConditionsConcat(p, lead, a, scope + kind + actionType, actor);
    ConditionsConcat(p, lead, a, scope + kind + actionType + actor, payload);
    ConditionsConcat(p, lead, a, scope + kind + actionType + actor + payload, window);
  }

  lemma PayloadIsMeans(p: Platform, lead: Lead, a: Action, key: string, text: string)
    ensures EvalCondition(p, lead, a, PayloadIs(key, text)) == Yes <==> PayloadText(p, a, key) == Some(text)
  {}

  lemma MovedMeans(
    c: Compiler, lead: Lead, kind: ActionKind, oldKey: string, oldId: Option<Id>, newKey: string, newId: Option<Id>,
    within: Option<Within>, a: Action)
    requires Lawful(c.platform)
    ensures EvalConditions(c.platform, lead, a, TransitionConditions(c, kind, oldKey, oldId, newKey, newId, within))
         == Yes
       <==> Moved(c, lead, kind, oldKey, oldId, newKey, newId, within, a)
  {
    hide LawfulOperands;
    var p := c.platform;
    var before := if oldId.Some? then [PayloadIs(oldKey, oldId.value)] else [];
    var after := if newId.Some? then [PayloadIs(newKey, newId.value)] else [];
    var scope := [SameLead, SameWorkspace, KindIs(kind)];
    assert scope == [SameLead, SameWorkspace] + [KindIs(kind)];
    ScopeMeans(p, lead, a);
    ConditionsConcat(p, lead, a, [SameLead, SameWorkspace], [KindIs(kind)]);
    OneCondition(p, lead, a, KindIs(kind));
    OptionalCondition(p, lead, a, before);
    OptionalCondition(p, lead, a, after);
    if oldId.Some? { PayloadIsMeans(p, lead, a, oldKey, oldId.value); }
    if newId.Some? { PayloadIsMeans(p, lead, a, newKey, newId.value); }
    WindowMeans(c, lead, a, within);
    assert EvalCondition(p, lead, a, KindIs(kind)) == Yes <==> a.kind == kind;
    hide InWindow, OnLead, WindowConditions, EvalConditions, EvalCondition, PayloadText, Lawful;
    ConditionsConcat(p, lead, a, scope, before);
    ConditionsConcat(p, lead, a, scope + before, after);
    ConditionsConcat(p, lead, a, scope + before + after, WindowConditions(c, within));
  }

  /** Counting rows, and EXISTS, both count the actions that answer the query. */
  lemma {:induction false} RowsMean(c: Compiler, lead: Lead, log: seq<Action>, q: ActionQuery)
    requires Lawful(c.platform)
    ensures CountRows(c.platform, lead, log, ActionConditions(c, q)) == TimesAnswered(c, lead, log, q)
    ensures (exists a | a in log :: EvalConditions(c.platform, lead, a, ActionConditions(c, q)) == Yes)
       <==> TimesAnswered(c, lead, log, q) >= 1
  {
    if log != [] {
      RowsMean(c, lead, log[1..], q);
      AnswersMeans(c, lead, log[0], q);
      assert forall a :: a in log <==> a == log[0] || a in log[1..];
    }
  }

  // --- the main theorem --------------------------------------------------------------

  /** The compiled SQL faults exactly when the tree asks after the emptiness of cleared tags;
      otherwise it is TRUE exactly when the tree holds of the lead. */
  lemma {:induction false} MeaningPreserved(c: Compiler, lead: Lead, log: seq<Action>, node: FilterNode)
    requires Lawful(c.platform) && WellFormed(node) && WellStored(c, lead, node)
    requires Compile(c, node).Ok?
    ensures Eval(c.platform, lead, log, Compile(c, node).value) == Fault <==> Raises(c, lead, node)
    ensures !Raises(c, lead, node) ==>
      (Eval(c.platform, lead, log, Compile(c, node).value) == Yes <==> Holds(c, lead, log, node))
    decreases node, 0
  {
    hide FieldRuleSql, RuleHolds, RuleRaises, ActionConditions, TransitionConditions, Moved, EvalConditions, CountRows,
         TimesAnswered;
    hide WellStoredField, Lawful, ColumnValue, InValues, CompareValues, LikePatterns.ILike, JsonbExists, TagArray,
         WindowOk, ArityMatches;
    match node
    case Group(combine, children) =>
      if children != [] {
        GroupPreserved(c, lead, log, children);
      }
    case FieldRule(key, op, operand) =>
      assert Mentions(node, key);
      RuleCases(c, key, op, operand);
      FieldRuleAgrees(c, lead, log, key, op, operand);
    case ActionPerformed(query, minCount) => RowsMean(c, lead, log, query);
    case ActionNotPerformed(query) => NotPerformedPreserved(c, lead, log, query);
    case StatusChanged(fromStage, toStage, within) =>
      TransitionPreserved(c, lead, log, StageChange, "old_stage_id", fromStage, "new_stage_id", toStage, within);
    case AssigneeChanged(fromMember, toMember, within) =>
      TransitionPreserved(c, lead, log, AssignmentChange, "old_assignee_id", fromMember, "new_assignee_id", toMember,
                          within);
  }

  lemma NotPerformedPreserved(c: Compiler, lead: Lead, log: seq<Action>, q: ActionQuery)
    requires Lawful(c.platform)
    ensures Eval(c.platform, lead, log, Not(Exists(ActionConditions(c, q))))
         == Known(TimesAnswered(c, lead, log, q) == 0)
  {
    hide ActionConditions, EvalConditions, TimesAnswered, Lawful;
    RowsMean(c, lead, log, q);
    EvalNot(c.platform, lead, log, Exists(ActionConditions(c, q)));
  }

  lemma TransitionPreserved(
    c: Compiler, lead: Lead, log: seq<Action>, kind: ActionKind, oldKey: string, oldId: Option<Id>, newKey: string,
    newId: Option<Id>, within: Option<Within>)
    requires Lawful(c.platform)
    ensures Eval(c.platform, lead, log, Exists(TransitionConditions(c, kind, oldKey, oldId, newKey, newId, within)))
         == Known(exists a | a in log :: Moved(c, lead, kind, oldKey, oldId, newKey, newId, within, a))
  {
    hide TransitionConditions, Moved, EvalConditions, Lawful;
    forall a { MovedMeans(c, lead, kind, oldKey, oldId, newKey, newId, within, a); }
  }

  lemma TellsJoin(a: Truth, b: Truth, r: bool, q: bool, x: bool, y: bool)
    requires Tells(a, r, x) && Tells(b, q, y)
    ensures Tells(TruthAnd(a, b), r || q, x && y) && Tells(TruthOr(a, b), r || q, x || y)
  {}

  lemma {:induction false} GroupPreserved(c: Compiler, lead: Lead, log: seq<Action>, nodes: seq<FilterNode>)
    requires Lawful(c.platform)
    requires forall node | node in nodes :: WellFormed(node) && WellStored(c, lead, node)
    requires CompileAll(c, nodes).Ok?
    ensures Tells(EvalAll(c.platform, lead, log, CompileAll(c, nodes).value),
                  exists node | node in nodes :: Raises(c, lead, node),
                  forall node | node in nodes :: Holds(c, lead, log, node))
    ensures Tells(EvalAny(c.platform, lead, log, CompileAll(c, nodes).value),
                  exists node | node in nodes :: Raises(c, lead, node),
                  exists node | node in nodes :: Holds(c, lead, log, node))
    decreases nodes
  {
    hide Eval, Compile, Holds, Raises, WellStored, WellFormed, Lawful, Mentions, TruthAnd, TruthOr;
    if nodes != [] {
      var p, first, rest := c.platform, Compile(c, nodes[0]).value, CompileAll(c, nodes[1..]).value;
      MeaningPreserved(c, lead, log, nodes[0]);
      GroupPreserved(c, lead, log, nodes[1..]);
      var raises, later := Raises(c, lead, nodes[0]), exists node | node in nodes[1..] :: Raises(c, lead, node);
      TellsJoin(Eval(p, lead, log, first), EvalAll(p, lead, log, rest), raises, later,
                Holds(c, lead, log, nodes[0]), forall node | node in nodes[1..] :: Holds(c, lead, log, node));
      TellsJoin(Eval(p, lead, log, first), EvalAny(p, lead, log, rest), raises, later,
                Holds(c, lead, log, nodes[0]), exists node | node in nodes[1..] :: Holds(c, lead, log, node));
      assert CompileAll(c, nodes).value[1..] == rest && CompileAll(c, nodes).value[0] == first;
      HeadAndTail(c, lead, log, nodes);
    }
  }

  lemma HeadAndTail(c: Compiler, lead: Lead, log: seq<Action>, nodes: seq<FilterNode>)
    requires nodes != []
    ensures (forall node | node in nodes :: Holds(c, lead, log, node))
       <==> Holds(c, lead, log, nodes[0]) && forall node | node in nodes[1..] :: Holds(c, lead, log, node)
    ensures (exists node | node in nodes :: Holds(c, lead, log, node))
       <==> Holds(c, lead, log, nodes[0]) || exists node | node in nodes[1..] :: Holds(c, lead, log, node)
    ensures (exists node | node in nodes :: Raises(c, lead, node))
       <==> Raises(c, lead, nodes[0]) || exists node | node in nodes[1..] :: Raises(c, lead, node)
  {
    assert forall node :: node in nodes <==> node == nodes[0] || node in nodes[1..];
  }

  // --- acceptance ----------------------------------------------------------------------

  lemma OperandDecides(p: Platform, today: int, key: string, t: FieldType, target: Column, op: Operator, operand: Json)
    ensures InSql(p, key, t, target, op, operand).Ok? <==> CoerceAll(p, t, Items(operand)).Some?
    ensures BetweenSql(p, key, t, target, operand).Ok?
       <==> CoerceAll(p, t, Items(operand)).Some? && |CoerceAll(p, t, Items(operand)).value| == 2
    ensures DaysSql(p, today, target, op, operand).Ok? <==> p.daysOf(operand).Some?
    ensures ComparisonSql(p, key, t, target, op, operand).Ok? <==> Coerce(p, t, operand).Some?
  {}

  lemma OneClass(op: Operator)
    ensures op in PRESENCE || IsPattern(op) ==> !IsMembership(op) && op != Between && !IsDayWindow(op)
    ensures op !in PRESENCE <==> !op.IsEmpty? && !op.IsNotEmpty?
  {}

  lemma ScalarAccepted(p: Platform, today: int, key: string, t: FieldType, op: Operator, operand: Json)
    requires op !in PRESENCE && (op == Between ==> |Items(operand)| == 2)
    ensures ScalarSql(p, today, key, t, op, operand).Ok? <==> SafeKey(key) && AcceptableOperand(p, t, op, operand)
  {
    hide SafeKey, Coerce, CoerceAll, Accessor, PatternSql, InSql, BetweenSql, DaysSql, ComparisonSql, Items,
         IsMembership, IsDayWindow, IsPattern, Asked;
    AskedIsCoerced(p, t);
    OneClass(op);
    AccessorSafe(key, t);
    CoerceAllItems(p, t, Items(operand));
    if SafeKey(key) {
      OperandDecides(p, today, key, t, Accessor(key, t).value, op, operand);
    }
  }

  lemma TagsAccepted(p: Platform, key: string, op: Operator, operand: Json)
    requires op in Operators(Tags) && op !in PRESENCE
    ensures TagsSql(p, key, op, operand).Ok? <==> SafeKey(key)
  {
    hide SafeKey, Texts;
  }

  lemma RuleAccepted(c: Compiler, key: string, op: Operator, operand: Json)
    requires WellFormed(FieldRule(key, op, operand))
    ensures FieldRuleSql(c, key, op, operand).Ok? <==> AcceptableRule(c, key, op, operand)
  {
    hide Operators, ScalarSql, SafeKey, IsEmptySql, TagsSql, Coerce, Asked;
    if key in c.fields && op in Operators(c.fields[key]) {
      PresenceSafe(key, c.fields[key]);
      if op !in PRESENCE {
        if c.fields[key] == Tags {
          TagsAccepted(c.platform, key, op, operand);
        } else {
          ScalarAccepted(c.platform, c.Today(), key, c.fields[key], op, operand);
        }
      }
    }
  }

  /** Accepted exactly when every field rule names a known, viewable, safe field, an operator of
      its type and operands that type can read. */
  lemma {:induction false} AcceptedIffAcceptable(c: Compiler, node: FilterNode)
    requires WellFormed(node)
    ensures Compile(c, node).Ok? <==> Acceptable(c, node)
    decreases node, 0
  {
    match node
    case Group(_, children) => AllAccepted(c, children);
    case FieldRule(key, op, operand) => RuleAccepted(c, key, op, operand);
    case _ =>
  }

  lemma {:induction false} AllAccepted(c: Compiler, nodes: seq<FilterNode>)
    requires forall node | node in nodes :: WellFormed(node)
    ensures CompileAll(c, nodes).Ok? <==> forall node | node in nodes :: Acceptable(c, node)
    decreases nodes
  {
    if nodes != [] {
      AcceptedIffAcceptable(c, nodes[0]);
      AllAccepted(c, nodes[1..]);
      assert forall node :: node in nodes <==> node == nodes[0] || node in nodes[1..];
    }
  }

  /** A field the caller may not view compiles exactly as if it did not exist, errors included. */
  lemma {:induction false} HiddenLooksAbsent(c: Compiler, node: FilterNode)
    ensures Compile(c, node)
         == Compile(c.(fields := map key | key in c.fields && key in c.viewable :: c.fields[key]), node)
    decreases node, 0
  {
    hide IsEmptySql, TagsSql, ScalarSql, Operators;
    match node
    case Group(_, children) => AllHidden(c, children);
    case _ =>
  }

  lemma {:induction false} AllHidden(c: Compiler, nodes: seq<FilterNode>)
    ensures CompileAll(c, nodes)
         == CompileAll(c.(fields := map key | key in c.fields && key in c.viewable :: c.fields[key]), nodes)
    decreases nodes
  {
    if nodes != [] {
      HiddenLooksAbsent(c, nodes[0]);
      AllHidden(c, nodes[1..]);
    }
  }

  // --- what the predicate depends on -----------------------------------------------------

  /** Every lead field the SQL reads is among `keys`. */
  ghost predicate ReadsOnly(sql: Sql, keys: iset<string>) {
    match sql
    case AllOf(parts) => forall part | part in parts :: ReadsOnly(part, keys)
    case AnyOf(parts) => forall part | part in parts :: ReadsOnly(part, keys)
    case Not(part) => ReadsOnly(part, keys)
    case IsNull(column) => column.key in keys
    case Compare(column, _, _) => column.key in keys
    case InList(column, _) => column.key in keys
    case BetweenValues(column, _, _) => column.key in keys
    case ILike(column, _) => column.key in keys
    case TagsLengthZero(key) => key in keys
    case TagsExistAny(key, _) => key in keys
    case TagsExistAll(key, _) => key in keys
    case _ => true
  }

  ghost predicate AgreeOn(lead: Lead, other: Lead, keys: iset<string>) {
    && lead.id == other.id && lead.workspace == other.workspace
    && forall key | key in keys :: Slot(lead, key) == Slot(other, key)
  }

  lemma SameColumn(p: Platform, lead: Lead, other: Lead, column: Column)
    requires Slot(lead, column.key) == Slot(other, column.key)
    ensures ColumnValue(p, lead, column) == ColumnValue(p, other, column)
  {
    assert ArrowText(p, Some(Obj(lead.values)), column.key) == ArrowText(p, Some(Obj(other.values)), column.key);
  }

  lemma {:induction false} SameConditions(p: Platform, lead: Lead, other: Lead, a: Action, cs: seq<Condition>)
    requires lead.id == other.id && lead.workspace == other.workspace
    ensures EvalConditions(p, lead, a, cs) == EvalConditions(p, other, a, cs)
  {
    if cs != [] { SameConditions(p, lead, other, a, cs[1..]); }
  }

  lemma {:induction false} SameCount(p: Platform, lead: Lead, other: Lead, log: seq<Action>, cs: seq<Condition>)
    requires lead.id == other.id && lead.workspace == other.workspace
    ensures CountRows(p, lead, log, cs) == CountRows(p, other, log, cs)
  {
    if log != [] {
      SameConditions(p, lead, other, log[0], cs);
      SameCount(p, lead, other, log[1..], cs);
    }
  }

  lemma {:induction false} SameEval(p: Platform, lead: Lead, other: Lead, log: seq<Action>, sql: Sql,
                                    keys: iset<string>)
    requires AgreeOn(lead, other, keys) && ReadsOnly(sql, keys)
    ensures Eval(p, lead, log, sql) == Eval(p, other, log, sql)
    decreases sql, 0
  {
    hide ColumnValue, EvalConditions, CountRows;
    match sql
    case AllOf(parts) => SameEvalAll(p, lead, other, log, parts, keys);
    case AnyOf(parts) => SameEvalAll(p, lead, other, log, parts, keys);
    case Not(part) => SameEval(p, lead, other, log, part, keys);
    case IsNull(column) => SameColumn(p, lead, other, column);
    case Compare(column, _, _) => SameColumn(p, lead, other, column);
    case InList(column, _) => SameColumn(p, lead, other, column);
    case BetweenValues(column, _, _) => SameColumn(p, lead, other, column);
    case ILike(column, _) => SameColumn(p, lead, other, column);
    case Exists(conditions) => forall a { SameConditions(p, lead, other, a, conditions); }
    case CountAtLeast(conditions, _) => SameCount(p, lead, other, log, conditions);
    case AlwaysTrue =>
    case TagsLengthZero(key) => assert Slot(lead, key) == Slot(other, key);
    case TagsExistAny(key, _) => assert Slot(lead, key) == Slot(other, key);
    case TagsExistAll(key, _) => assert Slot(lead, key) == Slot(other, key);
  }

  lemma {:induction false} SameEvalAll(p: Platform, lead: Lead, other: Lead, log: seq<Action>, parts: seq<Sql>,
                                       keys: iset<string>)
    requires AgreeOn(lead, other, keys) && forall part | part in parts :: ReadsOnly(part, keys)
    ensures EvalAll(p, lead, log, parts) == EvalAll(p, other, log, parts)
    ensures EvalAny(p, lead, log, parts) == EvalAny(p, other, log, parts)
    decreases parts
  {
    if parts != [] {
      SameEval(p, lead, other, log, parts[0], keys);
      SameEvalAll(p, lead, other, log, parts[1..], keys);
    }
  }

  lemma {:induction false} CompiledReadsOnly(c: Compiler, node: FilterNode, keys: iset<string>)
    requires Compile(c, node).Ok? && forall key | Mentions(node, key) :: key in keys
    ensures ReadsOnly(Compile(c, node).value, keys)
    decreases node, 0
  {
    match node
    case Group(_, children) => if children != [] { AllCompiledReadOnly(c, children, keys); }
    case FieldRule(key, op, operand) =>
      assert Mentions(node, key);
      RuleReadsOnly(c, key, op, operand, keys);
    case _ =>
  }

  lemma ScalarReadsOnly(p: Platform, today: int, key: string, t: FieldType, op: Operator, operand: Json,
                        keys: iset<string>)
    requires key in keys && ScalarSql(p, today, key, t, op, operand).Ok?
    ensures ReadsOnly(ScalarSql(p, today, key, t, op, operand).value, keys)
  {
    hide Coerce, CoerceAll, SafeKey, Accessor, LikePatterns.EscapeLike, ComparisonOf, PatternSql, ComparisonSql, InSql,
         DaysSql, BetweenSql, ReadsOnly;
    AccessorSafe(key, t);
    var target := Accessor(key, t).value;
    MembershipReadsOnly(p, today, key, t, target, op, operand, keys);
    PatternReadsOnly(p, target, op, operand, keys);
    if ComparisonSql(p, key, t, target, op, operand).Ok? {
      ComparisonReadsOnly(p, key, t, target, op, operand, keys);
    }
  }

  lemma MembershipReadsOnly(p: Platform, today: int, key: string, t: FieldType, target: Column, op: Operator,
                            operand: Json, keys: iset<string>)
    requires target.key in keys
    ensures InSql(p, key, t, target, op, operand).Ok? ==> ReadsOnly(InSql(p, key, t, target, op, operand).value, keys)
    ensures BetweenSql(p, key, t, target, operand).Ok? ==> ReadsOnly(BetweenSql(p, key, t, target, operand).value, keys)
    ensures DaysSql(p, today, target, op, operand).Ok? ==> ReadsOnly(DaysSql(p, today, target, op, operand).value, keys)
  {
    hide Coerce, CoerceAll, Items;
  }

  lemma EitherReadsOnly(a: Sql, b: Sql, keys: iset<string>)
    requires ReadsOnly(a, keys) && ReadsOnly(b, keys)
    ensures ReadsOnly(AnyOf([a, b]), keys)
  {}

  lemma PatternReadsOnly(p: Platform, target: Column, op: Operator, operand: Json, keys: iset<string>)
    requires target.key in keys
    ensures ReadsOnly(PatternSql(p, target, op, operand), keys)
  {
    var like := ILike(target, "%" + LikePatterns.EscapeLike(p.textOf(operand)) + "%");
    assert ReadsOnly(Not(like), keys);
    EitherReadsOnly(IsNull(target), Not(like), keys);
  }

  lemma ComparisonReadsOnly(p: Platform, key: string, t: FieldType, target: Column, op: Operator, operand: Json,
                            keys: iset<string>)
    requires target.key in keys && ComparisonSql(p, key, t, target, op, operand).Ok?
    ensures ReadsOnly(ComparisonSql(p, key, t, target, op, operand).value, keys)
  {
    hide Coerce, ComparisonOf;
    EitherReadsOnly(IsNull(target), Compare(target, ComparisonOf(op), Coerce(p, t, operand).value), keys);
  }

  lemma RuleReadsOnly(c: Compiler, key: string, op: Operator, operand: Json, keys: iset<string>)
    requires key in keys && FieldRuleSql(c, key, op, operand).Ok?
    ensures ReadsOnly(FieldRuleSql(c, key, op, operand).value, keys)
  {
    hide FieldRuleSql, ScalarSql, Operators, SafeKey, Texts, SubKey;
    RuleCases(c, key, op, operand);
    var target := Path(key, SubKey(c.fields[key]), AsText);
    EitherReadsOnly(IsNull(target), Compare(target, Eq, SqlText("")), keys);
    if op !in PRESENCE && c.fields[key] != Tags {
      ScalarReadsOnly(c.platform, c.Today(), key, c.fields[key], op, operand, keys);
    }
  }

  lemma {:induction false} AllCompiledReadOnly(c: Compiler, nodes: seq<FilterNode>, keys: iset<string>)
    requires CompileAll(c, nodes).Ok? && forall node, key | node in nodes && Mentions(node, key) :: key in keys
    ensures forall part | part in CompileAll(c, nodes).value :: ReadsOnly(part, keys)
    decreases nodes
  {
    if nodes != [] {
      CompiledReadsOnly(c, nodes[0], keys);
      AllCompiledReadOnly(c, nodes[1..], keys);
    }
  }

  /** The predicate answers the same for two leads with one timeline that agree on the mentioned
      fields, whatever else they hold and however malformed it is. */
  lemma DependsOnMentionedOnly(c: Compiler, lead: Lead, other: Lead, log: seq<Action>, node: FilterNode)
    requires Compile(c, node).Ok?
    requires lead.id == other.id && lead.workspace == other.workspace
    requires forall key | Mentions(node, key) :: Slot(lead, key) == Slot(other, key)
    ensures Eval(c.platform, lead, log, Compile(c, node).value) == Eval(c.platform, other, log, Compile(c, node).value)
  {
    var keys := iset key | Mentions(node, key);
    CompiledReadsOnly(c, node, keys);
    SameEval(c.platform, lead, other, log, Compile(c, node).value, keys);
  }
}
