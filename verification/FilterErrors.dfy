// Which rules are refused, and with which error.

module FilterErrors {
  import opened Prelude
  import opened FilterDsl
  import opened FilterSql
  import opened FilterCompiler
  import opened FilterMeaning
  import opened FilterProofs

  /** The operator lists read the other way: which field types take an operator. */
  lemma TypesTaking(t: FieldType, op: Operator)
    ensures op in Operators(t) <==>
      var texts := t in {Text, Email, Phone, Website, Location};
      var choices := t in {Dropdown, DependentDropdown};
      var numbers := t in {Number, Money};
      var days := t in {Date, RecurringDate};
      if op in {IsEmpty, IsNotEmpty} then true
      else if op == Equals then t != Tags
      else if op == NotEquals then t != Tags && t != Checkbox
      else if op in {Contains, NotContains, StartsWith, EndsWith} then texts
      else if op == In then texts || choices
      else if op == NotIn then texts || choices || t == Tags
      else if op in {HasAny, HasAll} then t == Tags
      else if op in {InLastDays, InNextDays} then days
      else numbers || days
  {}

  /** The first of its faults decides a rule's error: an unknown or hidden field, an operator the type
      does not take, a key of the wrong shape; anything else is about the operand. */
  lemma RuleErrors(c: Compiler, key: string, op: Operator, operand: Json)
    requires WellFormed(FieldRule(key, op, operand))
    ensures var r := Compile(c, FieldRule(key, op, operand));
      && (r == Fail(UnknownField(key)) <==> key !in c.fields || key !in c.viewable)
      && (r == Fail(UnsupportedOperator(key)) <==>
            key in c.fields && key in c.viewable && op !in Operators(c.fields[key]))
      && (r == Fail(InvalidFieldKey(key)) <==>
            key in c.fields && key in c.viewable && op in Operators(c.fields[key]) && !SafeKey(key))
      && (r.Fail? ==> r.error in {UnknownField(key), UnsupportedOperator(key), InvalidFieldKey(key),
                                  InvalidFilterValue(key), UncaughtValueError})
  {
    hide Operators, SafeKey, ScalarSql, TagsSql, IsEmptySql;
    if key in c.fields && op in Operators(c.fields[key]) {
      var t := c.fields[key];
      PresenceErrors(key, t);
      if op !in PRESENCE && t == Tags {
        TagErrors(c.platform, key, op, operand);
      } else if op !in PRESENCE {
        ScalarErrors(c.platform, c.Today(), key, t, op, operand);
      }
    }
  }

  lemma PresenceErrors(key: string, t: FieldType)
    ensures IsEmptySql(key, t) == Fail(InvalidFieldKey(key)) <==> !SafeKey(key)
    ensures IsEmptySql(key, t).Ok? <==> SafeKey(key)
  {}

  lemma TagErrors(p: Platform, key: string, op: Operator, operand: Json)
    requires op in Operators(Tags) && op !in PRESENCE
    ensures TagsSql(p, key, op, operand) == Fail(InvalidFieldKey(key)) <==> !SafeKey(key)
    ensures TagsSql(p, key, op, operand).Ok? <==> SafeKey(key)
  {
    hide SafeKey, Texts;
  }

  lemma ScalarErrors(p: Platform, today: int, key: string, t: FieldType, op: Operator, operand: Json)
    ensures var r := ScalarSql(p, today, key, t, op, operand);
      && (r == Fail(InvalidFieldKey(key)) <==> !SafeKey(key))
      && (r.Fail? ==> r.error in {InvalidFieldKey(key), InvalidFilterValue(key), UncaughtValueError})
  {
    hide SafeKey, IsMembership, IsDayWindow, IsPattern, PatternSql, InSql, BetweenSql, DaysSql, ComparisonSql, Accessor;
    AccessorErrors(key, t);
    if SafeKey(key) {
      OperandErrors(p, today, key, t, Accessor(key, t).value, op, operand);
    }
  }

  lemma OperandErrors(p: Platform, today: int, key: string, t: FieldType, target: Column, op: Operator, operand: Json)
    ensures InSql(p, key, t, target, op, operand).Fail? ==>
      InSql(p, key, t, target, op, operand).error == InvalidFilterValue(key)
    ensures BetweenSql(p, key, t, target, operand).Fail? ==>
      BetweenSql(p, key, t, target, operand).error in {InvalidFilterValue(key), UncaughtValueError}
    ensures DaysSql(p, today, target, op, operand).Fail? ==>
      DaysSql(p, today, target, op, operand).error == UncaughtValueError
    ensures ComparisonSql(p, key, t, target, op, operand).Fail? ==>
      ComparisonSql(p, key, t, target, op, operand).error == InvalidFilterValue(key)
  {
    hide Coerce, CoerceAll, Items;
  }

  lemma AccessorErrors(key: string, t: FieldType)
    ensures Accessor(key, t).Fail? ==> Accessor(key, t) == Fail(InvalidFieldKey(key)) && !SafeKey(key)
    ensures Accessor(key, t).Ok? <==> SafeKey(key)
  {}

  /** A key that reaches the SQL text has only small letters, digits and underscores, 64 at most, and
      perhaps one final line break. */
  lemma KeysInSql(key: string)
    ensures SafeKey(key) <==>
      var body := if key != "" && key[|key| - 1] == '\n' then key[..|key| - 1] else key;
      1 <= |body| <= 64 && forall c | c in body :: 'a' <= c <= 'z' || '0' <= c <= '9' || c == '_'
  {
    if key != "" && key[|key| - 1] == '\n' {
      assert key[|key| - 1] in key;
    }
  }
}
