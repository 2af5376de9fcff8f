// What the operators select, field type by field type, said of the stored and the
// asked JSON values themselves.

module FilterSelections {
  import opened Prelude
  import opened FilterDsl
  import opened FilterSql
  import opened FilterCompiler
  import opened FilterMeaning
  import opened FilterProofs
  import opened FilterLaws
  import LikePatterns

  /** The rule is compiled for a field of this type. */
  predicate Compiles(c: Compiler, key: string, t: FieldType, op: Operator, operand: Json) {
    && WellFormed(FieldRule(key, op, operand))
    && Compile(c, FieldRule(key, op, operand)).Ok? && key in c.fields && c.fields[key] == t
  }

  lemma RuleSelects(c: Compiler, lead: Lead, log: seq<Action>, key: string, t: FieldType, op: Operator, operand: Json)
    requires Lawful(c.platform) && Compiles(c, key, t, op, operand) && op !in PRESENCE && t != Tags
    requires Read(c.platform, t, Slot(lead, key)) != Malformed
    ensures Selects(c, lead, log, FieldRule(key, op, operand))
       <==> ScalarHolds(c.platform, c.Today(), t, Read(c.platform, t, Slot(lead, key)), op, operand)
    ensures op in Operators(t)
  {
    hide Lawful, Read, ScalarHolds, Selects, FieldRuleSql, Operators, ArityMatches;
    RuleCases(c, key, op, operand);
    SelectsMeans(c, lead, log, FieldRule(key, op, operand));
  }

  // --- yes or no ---------------------------------------------------------------------

  /** A checkbox holding b is selected by "equals x" exactly if b is x; one holding nothing never. */
  lemma CheckboxSelects(c: Compiler, lead: Lead, log: seq<Action>, key: string, x: bool)
    requires Lawful(c.platform) && Compiles(c, key, Checkbox, Equals, Bool(x))
    ensures forall b | Slot(lead, key) == Some(Bool(b)) ::
      Selects(c, lead, log, FieldRule(key, Equals, Bool(x))) <==> b == x
    ensures Slot(lead, key) in {None, Some(Null)} ==> !Selects(c, lead, log, FieldRule(key, Equals, Bool(x)))
  {
    hide Lawful, Selects, Compiles;
    if Read(c.platform, Checkbox, Slot(lead, key)) != Malformed {
      RuleSelects(c, lead, log, key, Checkbox, Equals, Bool(x));
    }
  }

  /** The words for yes and no select like the flags. */
  lemma CheckboxWords(c: Compiler, lead: Lead, log: seq<Action>, key: string, word: string, b: bool)
    requires Lawful(c.platform) && Compiles(c, key, Checkbox, Equals, Str(word)) && Slot(lead, key) == Some(Bool(b))
    ensures word in {"true", "1", "yes"} ==> (Selects(c, lead, log, FieldRule(key, Equals, Str(word))) <==> b)
    ensures word in {"false", "0", "no"} ==> (Selects(c, lead, log, FieldRule(key, Equals, Str(word))) <==> !b)
  {
    hide Selects, Compiles;
    RuleSelects(c, lead, log, key, Checkbox, Equals, Str(word));
  }

  // --- numbers and days -----------------------------------------------------------------

  /** The slot of a number or money field holds the number x. */
  predicate HoldsNumber(p: Platform, t: FieldType, j: Option<Json>, x: real) {
    j.Some? &&
    (|| (t == Number && j.value.Num? && x == DecimalValue(j.value.mantissa, j.value.scale))
     || (t == Money && j.value.Obj? && "amount" in j.value.fields && j.value.fields["amount"].Str?
         && p.numeric(j.value.fields["amount"].text) == Some(x)))
  }

  /** The operand stands for the number y: as a JSON number, or as a text the database would read so. */
  predicate AsksNumber(p: Platform, raw: Json, y: real) {
    || (raw.Num? && y == DecimalValue(raw.mantissa, raw.scale))
    || (raw.Str? && p.decimalOf(raw).Some? && p.numeric(raw.text) == Some(y))
  }

  predicate Compares(op: Operator) { op in {Equals, NotEquals, GreaterThan, GreaterOrEqual, LessThan, LessOrEqual} }

  lemma NumberReads(p: Platform, t: FieldType, j: Option<Json>, x: real)
    requires HoldsNumber(p, t, j, x)
    ensures Read(p, t, j) == Holding(SqlNumber(x))
  {}

  lemma NumberAsked(p: Platform, t: FieldType, raw: Json, y: real)
    requires Lawful(p) && t in {Number, Money} && AsksNumber(p, raw, y)
    ensures Asked(p, t, raw) == Some(SqlNumber(y))
  {}

  /** A held number is selected by a comparison exactly if the numbers compare so. */
  lemma NumberSelects(c: Compiler, lead: Lead, log: seq<Action>, key: string, t: FieldType, op: Operator, operand: Json,
                      x: real, y: real)
    requires Lawful(c.platform) && Compiles(c, key, t, op, operand) && Compares(op)
    requires t in {Number, Money} && HoldsNumber(c.platform, t, Slot(lead, key), x)
      && AsksNumber(c.platform, operand, y)
    ensures Selects(c, lead, log, FieldRule(key, op, operand)) <==>
      match op
      case Equals => x == y
      case NotEquals => x != y
      case GreaterThan => x > y
      case GreaterOrEqual => x >= y
      case LessThan => x < y
      case _ => x <= y
  {
    hide Lawful, Selects, Compiles, HoldsNumber, AsksNumber, Read, Asked;
    NumberReads(c.platform, t, Slot(lead, key), x);
    NumberAsked(c.platform, t, operand, y);
    RuleSelects(c, lead, log, key, t, op, operand);
  }

  /** Between includes both ends. */
  lemma NumberBetween(c: Compiler, lead: Lead, log: seq<Action>, key: string, t: FieldType, low: Json, high: Json,
                      x: real, y: real, z: real)
    requires Lawful(c.platform) && Compiles(c, key, t, Between, Arr([low, high])) && t in {Number, Money}
    requires HoldsNumber(c.platform, t, Slot(lead, key), x)
    requires AsksNumber(c.platform, low, y) && AsksNumber(c.platform, high, z)
    ensures Selects(c, lead, log, FieldRule(key, Between, Arr([low, high]))) <==> y <= x <= z
  {
    hide Lawful, Selects, Compiles, HoldsNumber, AsksNumber, Read, Asked;
    NumberReads(c.platform, t, Slot(lead, key), x);
    NumberAsked(c.platform, t, low, y);
    NumberAsked(c.platform, t, high, z);
    RuleSelects(c, lead, log, key, t, Between, Arr([low, high]));
  }

  /** The slot of a date field, or the next occurrence of a recurring one, is the day d. */
  predicate HoldsDay(p: Platform, t: FieldType, j: Option<Json>, d: int) {
    j.Some? &&
    (|| (t == Date && j.value.Str? && p.date(j.value.text) == Some(d))
     || (t == RecurringDate && j.value.Obj? && "next" in j.value.fields && j.value.fields["next"].Str?
         && p.date(j.value.fields["next"].text) == Some(d)))
  }

  predicate AsksDay(p: Platform, raw: Json, e: int) {
    raw.Str? && p.dayOf(raw).Some? && p.date(raw.text) == Some(e)
  }

  lemma DayReads(p: Platform, t: FieldType, j: Option<Json>, d: int)
    requires HoldsDay(p, t, j, d)
    ensures Read(p, t, j) == Holding(SqlDay(d))
  {}

  lemma DayAsked(p: Platform, t: FieldType, raw: Json, e: int)
    requires Lawful(p) && t in {Date, RecurringDate} && AsksDay(p, raw, e)
    ensures Asked(p, t, raw) == Some(SqlDay(e))
  {}

  lemma DaySelects(c: Compiler, lead: Lead, log: seq<Action>, key: string, t: FieldType, op: Operator, operand: Json,
                   d: int, e: int)
    requires Lawful(c.platform) && Compiles(c, key, t, op, operand) && Compares(op)
    requires t in {Date, RecurringDate} && HoldsDay(c.platform, t, Slot(lead, key), d)
      && AsksDay(c.platform, operand, e)
    ensures Selects(c, lead, log, FieldRule(key, op, operand)) <==>
      match op
      case Equals => d == e
      case NotEquals => d != e
      case GreaterThan => d > e
      case GreaterOrEqual => d >= e
      case LessThan => d < e
      case _ => d <= e
  {
    hide Lawful, Selects, Compiles, HoldsDay, AsksDay, Read, Asked;
    DayReads(c.platform, t, Slot(lead, key), d);
    DayAsked(c.platform, t, operand, e);
    RuleSelects(c, lead, log, key, t, op, operand);
  }

  lemma DayBetween(c: Compiler, lead: Lead, log: seq<Action>, key: string, t: FieldType, low: Json, high: Json,
                   d: int, e: int, f: int)
    requires Lawful(c.platform) && Compiles(c, key, t, Between, Arr([low, high])) && t in {Date, RecurringDate}
    requires HoldsDay(c.platform, t, Slot(lead, key), d)
    requires AsksDay(c.platform, low, e) && AsksDay(c.platform, high, f)
    ensures Selects(c, lead, log, FieldRule(key, Between, Arr([low, high]))) <==> e <= d <= f
  {
    hide Lawful, Selects, Compiles, HoldsDay, AsksDay, Read, Asked;
    DayReads(c.platform, t, Slot(lead, key), d);
    DayAsked(c.platform, t, low, e);
    DayAsked(c.platform, t, high, f);
    RuleSelects(c, lead, log, key, t, Between, Arr([low, high]));
  }

  /** "In the last n days" and "in the next n days" count from the workspace's today, inclusively. */
  lemma DaysAroundToday(c: Compiler, lead: Lead, log: seq<Action>, key: string, t: FieldType, op: Operator, n: int,
                        d: int)
    requires Lawful(c.platform) && Compiles(c, key, t, op, Num(n, 0)) && op in {InLastDays, InNextDays}
    requires t in {Date, RecurringDate} && HoldsDay(c.platform, t, Slot(lead, key), d)
    ensures var today := c.platform.localDay(c.now);
      Selects(c, lead, log, FieldRule(key, op, Num(n, 0)))
      <==> if op == InLastDays then today - n <= d <= today else today <= d <= today + n
  {
    hide Selects, Compiles, HoldsDay, Read;
    DayReads(c.platform, t, Slot(lead, key), d);
    RuleSelects(c, lead, log, key, t, op, Num(n, 0));
  }

  // --- texts --------------------------------------------------------------------------

  /** One line of an address; empty if it has none. */
  function Line(address: map<string, Json>, part: string): string {
    if part in address && address[part].Str? then address[part].text else ""
  }

  /** An address of six lines, read as one text with spaces between. */
  predicate HoldsAddress(j: Json, s: string) {
    && j.Obj?
    && (forall part | part in {"line1", "line2", "city", "state", "postal_code", "country"} && part in j.fields ::
          j.fields[part].Str? || j.fields[part].Null?)
    && s == Line(j.fields, "line1") + " " + (Line(j.fields, "line2") + " " + (Line(j.fields, "city") + " "
            + (Line(j.fields, "state") + " " + (Line(j.fields, "postal_code") + " " + Line(j.fields, "country")))))
  }

  lemma AddressReads(p: Platform, j: Json, s: string)
    requires HoldsAddress(j, s)
    ensures Read(p, Location, Some(j)) == Holding(SqlText(s))
  {
    hide AddressWords, JoinWithSpaces, AddressShape;
    SixLines(j);
    JoinedSix(AddressWords(Some(j), LOCATION_PARTS));
  }

  lemma SixLines(j: Json)
    requires j.Obj?
    ensures AddressWords(Some(j), LOCATION_PARTS)
         == [Line(j.fields, "line1"), Line(j.fields, "line2"), Line(j.fields, "city"),
             Line(j.fields, "state"), Line(j.fields, "postal_code"), Line(j.fields, "country")]
    ensures AddressShape(j) <==>
      forall part | part in {"line1", "line2", "city", "state", "postal_code", "country"} && part in j.fields ::
        j.fields[part].Str? || j.fields[part].Null?
  {
    assert forall part ::
      part in LOCATION_PARTS <==> part in {"line1", "line2", "city", "state", "postal_code", "country"};
  }

  lemma JoinedSix(words: seq<string>)
    requires |words| == 6
    ensures JoinWithSpaces(words)
         == words[0] + " " + (words[1] + " " + (words[2] + " " + (words[3] + " " + (words[4] + " " + words[5]))))
  {
    assert JoinWithSpaces(words[4..]) == words[4] + " " + words[5];
    assert JoinWithSpaces(words[2..]) == words[2] + " " + (words[3] + " " + JoinWithSpaces(words[4..])) by {
      assert words[2..][1..] == words[3..] && words[3..][1..] == words[4..];
    }
    assert words[1..][1..] == words[2..];
  }

  /** The slot of a text-like field holds the text s. */
  predicate HoldsText(t: FieldType, j: Option<Json>, s: string) {
    j.Some? &&
    (|| (t == Location && HoldsAddress(j.value, s))
     || (t in {Text, Email, Phone, Website, Dropdown} && j.value == Str(s))
     || (t == DependentDropdown && j.value.Obj? && "value" in j.value.fields && j.value.fields["value"] == Str(s)))
  }

  lemma TextReads(p: Platform, t: FieldType, j: Option<Json>, s: string)
    requires HoldsText(t, j, s)
    ensures Read(p, t, j) == Holding(SqlText(s)) && t !in {Number, Money, Date, RecurringDate, Checkbox, Tags}
  {
    hide HoldsAddress, AddressShape, JoinWithSpaces, AddressWords;
    if t == Location {
      AddressReads(p, j.value, s);
    }
  }

  lemma TextEquals(c: Compiler, lead: Lead, log: seq<Action>, key: string, t: FieldType, op: Operator, u: string,
                   s: string)
    requires Lawful(c.platform) && Compiles(c, key, t, op, Str(u)) && HoldsText(t, Slot(lead, key), s)
    requires op in {Equals, NotEquals}
    ensures Selects(c, lead, log, FieldRule(key, op, Str(u))) <==> if op == Equals then s == u else s != u
  {
    hide Selects, Compiles, HoldsText, Read;
    TextReads(c.platform, t, Slot(lead, key), s);
    RuleSelects(c, lead, log, key, t, op, Str(u));
  }

  /** The text patterns, up to the case fold. */
  lemma TextMatching(c: Compiler, lead: Lead, log: seq<Action>, key: string, t: FieldType, op: Operator, u: string,
                     s: string)
    requires Lawful(c.platform) && Compiles(c, key, t, op, Str(u)) && HoldsText(t, Slot(lead, key), s)
    requires op in {Contains, NotContains, StartsWith, EndsWith}
    ensures var folded, part := LikePatterns.Fold(c.platform.fold, s), LikePatterns.Fold(c.platform.fold, u);
      var selected := Selects(c, lead, log, FieldRule(key, op, Str(u)));
      && (op == Contains ==> (selected <==> exists before, after :: folded == before + part + after))
      && (op == NotContains ==> (selected <==> !exists before, after :: folded == before + part + after))
      && (op == StartsWith ==> (selected <==> exists after :: folded == part + after))
      && (op == EndsWith ==> (selected <==> exists before :: folded == before + part))
  {
    hide Lawful, Selects, Compiles, HoldsText, Read, ScalarHolds, LikePatterns.Fold;
    TextReads(c.platform, t, Slot(lead, key), s);
    RuleSelects(c, lead, log, key, t, op, Str(u));
    TextOfText(c.platform, u);
    MatchingHolds(c.platform, c.Today(), t, s, op, u);
    SomewhereIn(LikePatterns.Fold(c.platform.fold, s), LikePatterns.Fold(c.platform.fold, u));
  }

  lemma MatchingHolds(p: Platform, today: int, t: FieldType, s: string, op: Operator, u: string)
    requires op in {Contains, NotContains, StartsWith, EndsWith} && p.textOf(Str(u)) == u
    ensures var folded, part := LikePatterns.Fold(p.fold, s), LikePatterns.Fold(p.fold, u);
      ScalarHolds(p, today, t, Holding(SqlText(s)), op, Str(u)) <==>
      if op == Contains then LikePatterns.Contains(folded, part)
      else if op == NotContains then !LikePatterns.Contains(folded, part)
      else if op == StartsWith then part <= folded
      else |part| <= |folded| && folded[|folded| - |part|..] == part
  {
    hide Asked, InHolds, DaysHolds, LikePatterns.Contains;
  }

  lemma TextOfText(p: Platform, u: string)
    requires Lawful(p)
    ensures p.textOf(Str(u)) == u
  {}

  lemma SomewhereIn(s: string, t: string)
    ensures LikePatterns.Contains(s, t) <==> exists before, after :: s == before + t + after
    ensures t <= s <==> exists after :: s == t + after
    ensures |t| <= |s| && s[|s| - |t|..] == t <==> exists before :: s == before + t
  {
    if LikePatterns.Contains(s, t) {
      var i :| 0 <= i <= |s| && LikePatterns.OccursAt(s, t, i);
      assert s == s[..i] + t + s[i + |t|..];
    }
    if before, after :| s == before + t + after {
      assert LikePatterns.OccursAt(s, t, |before|);
    }
    if t <= s {
      assert s == t + s[|t|..];
    }
    if |t| <= |s| && s[|s| - |t|..] == t {
      assert s == s[..|s| - |t|] + t;
    }
    if before :| s == before + t {
      assert s[|s| - |t|..] == t;
    }
  }

  lemma TextIn(c: Compiler, lead: Lead, log: seq<Action>, key: string, t: FieldType, op: Operator, asked: seq<string>,
               s: string)
    requires op in {In, NotIn} && Lawful(c.platform) && HoldsText(t, Slot(lead, key), s)
    requires Compiles(c, key, t, op, Arr(Strings(asked)))
    ensures Selects(c, lead, log, FieldRule(key, op, Arr(Strings(asked))))
       <==> if op == In then s in asked else s !in asked
  {
    hide Selects, Compiles, HoldsText, Read;
    TextReads(c.platform, t, Slot(lead, key), s);
    RuleSelects(c, lead, log, key, t, op, Arr(Strings(asked)));
    assert Items(Arr(Strings(asked))) == Strings(asked);
    StringsHold(asked, s);
    assert forall raw | raw in Strings(asked) :: raw.Str? && Asked(c.platform, t, raw) == Some(SqlText(raw.text));
  }

  function Strings(texts: seq<string>): seq<Json> { seq(|texts|, i requires 0 <= i < |texts| => Str(texts[i])) }

  lemma StringsHold(texts: seq<string>, s: string)
    ensures Str(s) in Strings(texts) <==> s in texts
  {
    if s in texts {
      var i :| 0 <= i < |texts| && texts[i] == s;
      assert Strings(texts)[i] == Str(s);
    }
  }

  /** A field with nothing in it is selected by the two negative comparisons only. */
  lemma NothingSelects(c: Compiler, lead: Lead, log: seq<Action>, key: string, t: FieldType, op: Operator,
                       operand: Json)
    requires Lawful(c.platform) && Compiles(c, key, t, op, operand) && op !in {IsEmpty, IsNotEmpty}
    requires t !in {Tags, Location} && Slot(lead, key) in {None, Some(Null)}
    ensures Selects(c, lead, log, FieldRule(key, op, operand)) <==> op in {NotEquals, NotContains}
  {
    hide Lawful, Selects, Compiles, ScalarHolds, Operators;
    CompiledOperator(c, key, t, op, operand);
    RuleSelects(c, lead, log, key, t, op, operand);
    NothingHolds(c.platform, c.Today(), t, op, operand);
  }

  lemma CompiledOperator(c: Compiler, key: string, t: FieldType, op: Operator, operand: Json)
    requires Compiles(c, key, t, op, operand)
    ensures op in Operators(t)
  {
    hide Operators, FieldRuleSql, ArityMatches;
    RuleCases(c, key, op, operand);
  }

  lemma NothingHolds(p: Platform, today: int, t: FieldType, op: Operator, operand: Json)
    requires op !in PRESENCE
    ensures ScalarHolds(p, today, t, Nothing, op, operand) <==> op in {NotEquals, NotContains}
  {
    hide Asked, Items;
  }

  // --- tags -----------------------------------------------------------------------------

  lemma TagsSelect(c: Compiler, lead: Lead, log: seq<Action>, key: string, op: Operator, asked: seq<string>,
                   tags: seq<string>)
    requires Lawful(c.platform) && Compiles(c, key, Tags, op, Arr(Strings(asked))) && op in {HasAny, HasAll, NotIn}
    requires Slot(lead, key) == Some(Arr(Strings(tags))) || (tags == [] && Slot(lead, key) in {None, Some(Null)})
    ensures Selects(c, lead, log, FieldRule(key, op, Arr(Strings(asked)))) <==>
      match op
      case HasAny => exists code | code in asked :: code in tags
      case HasAll => forall code | code in asked :: code in tags
      case _ => forall code | code in asked :: code !in tags
  {
    hide Lawful, Selects, FieldRuleSql, Operators, ArityMatches, ReadTags, Texts, Items;
    TagsRead(Slot(lead, key), tags);
    TextsOfStrings(c.platform, asked);
    SelectsMeans(c, lead, log, FieldRule(key, op, Arr(Strings(asked))));
  }

  lemma TagsRead(j: Option<Json>, tags: seq<string>)
    requires j == Some(Arr(Strings(tags))) || (tags == [] && j in {None, Some(Null)})
    ensures ReadTags(j).Some? && forall code :: code in ReadTags(j).value <==> code in tags
  {
    forall code { StringsHold(tags, code); }
  }

  lemma TextsOfStrings(p: Platform, texts: seq<string>)
    requires Lawful(p)
    ensures Texts(p, Items(Arr(Strings(texts)))) == texts
  {}
}
