// Pairs of filters that split the leads between them, the one pair that does
// not, and the one rule that can raise while the query runs.

module FilterLaws {
  import opened Prelude
  import opened FilterDsl
  import opened FilterSql
  import opened FilterCompiler
  import opened FilterMeaning
  import opened FilterProofs

  /** The lead is in the result of the filter. */
  predicate Selects(c: Compiler, lead: Lead, log: seq<Action>, node: FilterNode) {
    Compile(c, node).Ok? && Eval(c.platform, lead, log, Compile(c, node).value) == Yes
  }

  predicate Usable(c: Compiler, lead: Lead, node: FilterNode) {
    WellFormed(node) && Compile(c, node).Ok? && WellStored(c, lead, node)
  }

  lemma SelectsMeans(c: Compiler, lead: Lead, log: seq<Action>, node: FilterNode)
    requires Lawful(c.platform) && Usable(c, lead, node)
    ensures Selects(c, lead, log, node) <==> !Raises(c, lead, node) && Holds(c, lead, log, node)
  {
    hide WellFormed, Holds, Raises, Eval, Compile, Lawful, WellStored;
    MeaningPreserved(c, lead, log, node);
  }

  predicate Opposites(t: FieldType, op: Operator, other: Operator) {
    || (op == Equals && other == NotEquals)
    || (op == Contains && other == NotContains)
    || (op == IsEmpty && other == IsNotEmpty)
    || (t == Tags && op == HasAny && other == NotIn)
  }

  lemma OppositeScalars(p: Platform, today: int, t: FieldType, stored: Reading, op: Operator, other: Operator,
                        operand: Json)
    requires (op == Equals && other == NotEquals) || (op == Contains && other == NotContains)
    ensures ScalarHolds(p, today, t, stored, op, operand) <==> !ScalarHolds(p, today, t, stored, other, operand)
  {
    hide InHolds, BetweenHolds, DaysHolds, Asked;
  }

  lemma OppositeRules(c: Compiler, lead: Lead, key: string, op: Operator, other: Operator, operand: Json)
    requires key in c.fields && Opposites(c.fields[key], op, other) && op in Operators(c.fields[key])
    requires c.fields[key] == Tags ==> ReadTags(Slot(lead, key)).Some?
    ensures RuleHolds(c, lead, key, c.fields[key], op, operand)
       <==> !RuleHolds(c, lead, key, c.fields[key], other, operand)
  {
    hide Read, ReadTags, Texts, IsBlank, ScalarHolds;
    var t := c.fields[key];
    if t != Tags && op != IsEmpty {
      OppositeScalars(c.platform, c.Today(), t, Read(c.platform, t, Slot(lead, key)), op, other, operand);
    }
  }

  /** Each of these pairs splits the leads, every lead being selected by exactly one of the two,
      but for the emptiness of cleared tags, which neither query survives. */
  lemma OppositesPartition(c: Compiler, lead: Lead, log: seq<Action>, key: string, op: Operator, other: Operator,
                           operand: Json)
    requires Lawful(c.platform)
    requires Usable(c, lead, FieldRule(key, op, operand)) && Usable(c, lead, FieldRule(key, other, operand))
    requires Opposites(c.fields[key], op, other)
    ensures (Selects(c, lead, log, FieldRule(key, op, operand))
       <==> !Selects(c, lead, log, FieldRule(key, other, operand)))
       <==> !(op == IsEmpty && Unmeasurable(c.fields[key], Slot(lead, key)))
    ensures !(Selects(c, lead, log, FieldRule(key, op, operand))
      && Selects(c, lead, log, FieldRule(key, other, operand)))
  {
    hide Selects, FieldRuleSql, RuleHolds, Unmeasurable, ReadTags, Read, Lawful, Operators, ArityMatches;
    SelectsMeans(c, lead, log, FieldRule(key, op, operand));
    SelectsMeans(c, lead, log, FieldRule(key, other, operand));
    RuleCases(c, key, op, operand);
    assert Mentions(FieldRule(key, op, operand), key);
    OppositeRules(c, lead, key, op, other, operand);
  }

  /** "Happened" and "did not happen" split the leads too. */
  lemma HappenedPartition(c: Compiler, lead: Lead, log: seq<Action>, q: ActionQuery)
    requires Lawful(c.platform) && WindowOk(q.within)
    ensures Selects(c, lead, log, ActionPerformed(q, 1)) <==> !Selects(c, lead, log, ActionNotPerformed(q))
  {
    hide Selects, ActionConditions, TimesAnswered, Lawful, WindowOk;
    SelectsMeans(c, lead, log, ActionPerformed(q, 1));
    SelectsMeans(c, lead, log, ActionNotPerformed(q));
  }

  /** `in` and `not_in` on a scalar field split the leads exactly where the field has a value. */
  lemma MembershipPartition(c: Compiler, lead: Lead, log: seq<Action>, key: string, operand: Json)
    requires Lawful(c.platform)
    requires Usable(c, lead, FieldRule(key, In, operand)) && Usable(c, lead, FieldRule(key, NotIn, operand))
    ensures c.fields[key] != Tags
    ensures (Selects(c, lead, log, FieldRule(key, In, operand))
       <==> !Selects(c, lead, log, FieldRule(key, NotIn, operand)))
       <==> Read(c.platform, c.fields[key], Slot(lead, key)).Holding?
  {
    hide Selects, FieldRuleSql, IsOneOf, Unmeasurable, Read, Lawful, Items, ReadTags, IsBlank;
    SelectsMeans(c, lead, log, FieldRule(key, In, operand));
    SelectsMeans(c, lead, log, FieldRule(key, NotIn, operand));
    RuleCases(c, key, In, operand);
    RuleCases(c, key, NotIn, operand);
  }

  /** `is_empty` on a tag field raises exactly when the slot is present and not an array;
      a JSON null is enough. */
  lemma TagsEmptinessFault(c: Compiler, lead: Lead, log: seq<Action>, key: string)
    requires key in c.fields && key in c.viewable && SafeKey(key) && c.fields[key] == Tags
    ensures Compile(c, FieldRule(key, IsEmpty, Null)).Ok?
    ensures Eval(c.platform, lead, log, Compile(c, FieldRule(key, IsEmpty, Null)).value) == Fault
       <==> key in lead.values && !lead.values[key].Arr?
    ensures lead.values == map[key := Null] ==>
      Eval(c.platform, lead, log, Compile(c, FieldRule(key, IsEmpty, Null)).value) == Fault
  {
    hide ScalarSql, TagsSql, SafeKey;
    var rule := FieldRule(key, IsEmpty, Null);
    assert Compile(c, rule) == FieldRuleSql(c, key, IsEmpty, Null) == Ok(TagsLengthZero(key));
  }
}
