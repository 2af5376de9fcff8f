// What a filter means, stated on the lead's JSON and its timeline in two-valued
// logic, without SQL: no nulls, no casts, no query.

module FilterMeaning {
  import opened Prelude
  import opened FilterDsl
  import opened FilterSql
  import opened FilterCompiler
  import LikePatterns

  /** How the library behaviour has to fit together. */
  ghost predicate Lawful(p: Platform) {
    && (forall m: int, scale: nat :: p.numeric(p.render(Num(m, scale))) == Some(DecimalValue(m, scale)))
    && (forall b :: p.boolean(p.render(Bool(b))) == Some(b))
    && (forall j :: p.render(j) != "")
    && p.numeric("") == None && p.date("") == None
    && LikePatterns.FoldLaw(p.fold)
    && (forall t, d :: t >= p.midnight(d) <==> p.localDay(t) >= d)
    && LawfulOperands(p)
  }

  /** How operands are read: texts as they stand, numbers and flags at their value, and where the
      operand's reader and the database can both read a text, they agree. */
  ghost predicate LawfulOperands(p: Platform) {
    && (forall s :: p.textOf(Str(s)) == s)
    && (forall m: int, scale: nat :: p.decimalOf(Num(m, scale)) == Some(DecimalValue(m, scale)))
    && (forall s :: p.decimalOf(Str(s)).Some? && p.numeric(s).Some? ==> p.decimalOf(Str(s)) == p.numeric(s))
    && (forall s :: p.dayOf(Str(s)).Some? && p.date(s).Some? ==> p.dayOf(Str(s)) == p.date(s))
    && (forall m: int :: p.daysOf(Num(m, 0)) == Some(m))
    && (forall s | s in {"true", "1", "yes", "false", "0", "no"} :: p.plain(s) == s)
  }

  // --- stored values -----------------------------------------------------------

  /** A field's slot as its type reads it. */
  datatype Reading = Nothing | Holding(value: SqlValue) | Malformed

  function Part(j: Option<Json>, part: string): Option<Json> {
    if j.Some? && j.value.Obj? && part in j.value.fields then Some(j.value.fields[part]) else None
  }

  predicate Vacant(j: Option<Json>) { j.None? || j.value.Null? }

  function ReadText(j: Option<Json>): Reading {
    if j.Some? && j.value.Str? then Holding(SqlText(j.value.text)) else Malformed
  }

  function ReadNumberText(p: Platform, j: Option<Json>): Reading {
    if j.Some? && j.value.Str? && p.numeric(j.value.text).Some?
    then Holding(SqlNumber(p.numeric(j.value.text).value)) else Malformed
  }

  function ReadDayText(p: Platform, j: Option<Json>): Reading {
    if j.Some? && j.value.Str? && p.date(j.value.text).Some?
    then Holding(SqlDay(p.date(j.value.text).value)) else Malformed
  }

  function JoinWithSpaces(words: seq<string>): string {
    if words == [] then "" else if |words| == 1 then words[0] else words[0] + " " + JoinWithSpaces(words[1..])
  }

  function AddressWords(j: Option<Json>, parts: seq<string>): seq<string> {
    seq(|parts|, i requires 0 <= i < |parts| =>
          match Part(j, parts[i]) case Some(Str(s)) => s case _ => "")
  }

  /** An address object carries only text in its address lines. */
  predicate AddressShape(j: Json) {
    j.Obj? && forall part | part in LOCATION_PARTS :: part in j.fields ==> j.fields[part].Str? || j.fields[part].Null?
  }

  function Read(p: Platform, t: FieldType, j: Option<Json>): Reading {
    if t == Location then
      if Vacant(j) || AddressShape(j.value)
      then Holding(SqlText(JoinWithSpaces(AddressWords(j, LOCATION_PARTS)))) else Malformed
    else if Vacant(j) then Nothing
    else ReadPresent(p, t, j.value)
  }

  function ReadPresent(p: Platform, t: FieldType, j: Json): Reading {
    match t
    case Number => if j.Num? then Holding(SqlNumber(DecimalValue(j.mantissa, j.scale))) else Malformed
    case Checkbox => if j.Bool? then Holding(SqlFlag(j.flag)) else Malformed
    case Date => ReadDayText(p, Some(j))
    case Money => ReadNumberText(p, Part(Some(j), "amount"))
    case RecurringDate => ReadDayText(p, Part(Some(j), "next"))
    case DependentDropdown => ReadText(Part(Some(j), "value"))
    case _ => ReadText(Some(j))
  }

  /** The tag codes in a slot. Cleared tags are stored as a JSON null, which reads as no tags. */
  function ReadTags(j: Option<Json>): Option<seq<string>> {
    if Vacant(j) then Some([])
    else if j.value.Arr? && forall item | item in j.value.items :: item.Str? then Some(TagTexts(j.value.items))
    else None
  }

  function TagTexts(items: seq<Json>): (codes: seq<string>)
    requires forall item | item in items :: item.Str?
    ensures forall code :: code in codes <==> Str(code) in items
  {
    if items == [] then [] else [items[0].text] + TagTexts(items[1..])
  }

  predicate WellStoredField(p: Platform, t: FieldType, j: Option<Json>) {
    if t == Tags then ReadTags(j).Some? else Read(p, t, j) != Malformed
  }

  // --- field rules -------------------------------------------------------------

  predicate IsBlank(p: Platform, t: FieldType, j: Option<Json>) {
    match t
    case Tags => ReadTags(j) == Some([])
    case Location => Vacant(j)
    case _ => Read(p, t, j) in {Nothing, Holding(SqlText(""))}
  }

  /** Numbers and days are ordered among themselves; nothing else is. */
  predicate Ordered(a: SqlValue, op: Operator, b: SqlValue) {
    match (a, b)
    case (SqlNumber(x), SqlNumber(y)) => OrderedBy(op, x < y, x == y)
    case (SqlDay(x), SqlDay(y)) => OrderedBy(op, x < y, x == y)
    case _ => false
  }

  predicate OrderedBy(op: Operator, below: bool, same: bool) {
    match op
    case GreaterThan => !below && !same
    case GreaterOrEqual => !below
    case LessThan => below
    case LessOrEqual => below || same
    case _ => false
  }

  /** What an operand asks for: a number, a day, a yes or no, or a text, as the field's type has it. */
  function Asked(p: Platform, t: FieldType, raw: Json): Option<SqlValue> {
    if t.Checkbox? then
      if raw.Bool? then Some(SqlFlag(raw.flag))
      else
        var word := p.plain(p.textOf(raw));
        Some(SqlFlag(word == "true" || word == "1" || word == "yes"))
    else if t.Number? || t.Money? then
      var number := p.decimalOf(raw);
      if number.Some? then Some(SqlNumber(number.value)) else None
    else if t.Date? || t.RecurringDate? then
      var day := p.dayOf(raw);
      if day.Some? then Some(SqlDay(day.value)) else None
    else Some(SqlText(p.textOf(raw)))
  }

  predicate IsOneOf(p: Platform, t: FieldType, v: SqlValue, raws: seq<Json>) {
    exists raw | raw in raws :: Asked(p, t, raw) == Some(v)
  }

  predicate InHolds(p: Platform, t: FieldType, stored: Reading, op: Operator, operand: Json) {
    stored.Holding? && (op == In <==> IsOneOf(p, t, stored.value, Items(operand)))
  }

  predicate BetweenHolds(stored: Reading, low: Option<SqlValue>, high: Option<SqlValue>) {
    && stored.Holding? && low.Some? && high.Some?
    && Ordered(stored.value, GreaterOrEqual, low.value) && Ordered(stored.value, LessOrEqual, high.value)
  }

  predicate DaysHolds(today: int, stored: Reading, op: Operator, days: Option<int>) {
    && stored.Holding? && stored.value.SqlDay? && days.Some?
    && if op == InLastDays then today - days.value <= stored.value.day <= today
       else today <= stored.value.day <= today + days.value
  }

  predicate PatternHolds(p: Platform, stored: Reading, op: Operator, text: string) {
    var matches := stored.Holding? && stored.value.SqlText? && TextMatches(p, stored.value.text, op, text);
    if op == NotContains then !matches else matches
  }

  predicate TextMatches(p: Platform, stored: string, op: Operator, text: string) {
    var s, u := LikePatterns.Fold(p.fold, stored), LikePatterns.Fold(p.fold, text);
    if op == StartsWith then u <= s
    else if op == EndsWith then |u| <= |s| && s[|s| - |u|..] == u
    else LikePatterns.Contains(s, u)
  }

  predicate ComparisonHolds(stored: Reading, op: Operator, value: Option<SqlValue>) {
    if op == NotEquals then !(stored.Holding? && Some(stored.value) == value)
    else if op == Equals then stored.Holding? && Some(stored.value) == value
    else stored.Holding? && value.Some? && Ordered(stored.value, op, value.value)
  }

  predicate ScalarHolds(p: Platform, today: int, t: FieldType, stored: Reading, op: Operator, operand: Json) {
    if IsMembership(op) then InHolds(p, t, stored, op, operand)
    else if op == Between then
      |Items(operand)| == 2 && BetweenHolds(stored, Asked(p, t, Items(operand)[0]), Asked(p, t, Items(operand)[1]))
    else if IsDayWindow(op) then DaysHolds(today, stored, op, p.daysOf(operand))
    else if IsPattern(op) then PatternHolds(p, stored, op, p.textOf(operand))
    else ComparisonHolds(stored, op, Asked(p, t, operand))
  }

  predicate TagsHold(tags: seq<string>, op: Operator, asked: seq<string>) {
    match op
    case HasAny => exists code | code in asked :: code in tags
    case HasAll => forall code | code in asked :: code in tags
    case _ => forall code | code in asked :: code !in tags
  }

  predicate RuleHolds(c: Compiler, lead: Lead, key: string, t: FieldType, op: Operator, operand: Json) {
    var p := c.platform;
    var j := Slot(lead, key);
    if op == IsEmpty then IsBlank(p, t, j)
    else if op == IsNotEmpty then !IsBlank(p, t, j)
    else if t == Tags then
      ReadTags(j).Some? && TagsHold(ReadTags(j).value, op, Texts(p, Items(operand)))
    else ScalarHolds(p, c.Today(), t, Read(p, t, j), op, operand)
  }

  /** A tag slot that is present and no array: among stored shapes, the null of cleared tags. */
  predicate Unmeasurable(t: FieldType, j: Option<Json>) { t == Tags && j.Some? && !j.value.Arr? }

  predicate RuleRaises(c: Compiler, lead: Lead, key: string, op: Operator) {
    op in PRESENCE && key in c.fields && Unmeasurable(c.fields[key], Slot(lead, key))
  }

  // --- the timeline ------------------------------------------------------------

  /** Absolute windows are whole local days, both ends included. */
  predicate InWindow(c: Compiler, within: Option<Within>, instant: int) {
    within.Some? ==>
      if within.value.lastDays.Some? then instant >= c.now - within.value.lastDays.value * DAY
      else
        && (within.value.from.Some? ==> within.value.from.value <= c.platform.localDay(instant))
        && (within.value.until.Some? ==> c.platform.localDay(instant) <= within.value.until.value)
  }

  function PayloadText(p: Platform, a: Action, key: string): Option<string> {
    if key !in a.payload || a.payload[key].Null? then None
    else Some(if a.payload[key].Str? then a.payload[key].text else p.render(a.payload[key]))
  }

  predicate OnLead(lead: Lead, a: Action) { a.lead == lead.id && a.workspace == lead.workspace }

  predicate Answers(c: Compiler, lead: Lead, q: ActionQuery, a: Action) {
    && OnLead(lead, a)
    && (q.kind.Some? ==> a.kind == q.kind.value)
    && (q.actionType.Some? ==> a.actionType == q.actionType)
    && (q.actor.Some? ==> a.actor == q.actor)
    && (forall pair | pair in q.payloadMatch :: PayloadText(c.platform, a, pair.0) == Some(c.platform.textOf(pair.1)))
    && InWindow(c, q.within, a.performedAt)
  }

  function TimesAnswered(c: Compiler, lead: Lead, log: seq<Action>, q: ActionQuery): nat {
    if log == [] then 0
    else (if Answers(c, lead, q, log[0]) then 1 else 0) + TimesAnswered(c, lead, log[1..], q)
  }

  predicate Moved(
    c: Compiler, lead: Lead, kind: ActionKind, oldKey: string, oldId: Option<Id>, newKey: string, newId: Option<Id>,
    within: Option<Within>, a: Action)
  {
    && OnLead(lead, a) && a.kind == kind
    && (oldId.Some? ==> PayloadText(c.platform, a, oldKey) == oldId)
    && (newId.Some? ==> PayloadText(c.platform, a, newKey) == newId)
    && InWindow(c, within, a.performedAt)
  }

  // --- trees -------------------------------------------------------------------

  predicate Holds(c: Compiler, lead: Lead, log: seq<Action>, node: FilterNode) {
    match node
    case Group(And, children) => forall child | child in children :: Holds(c, lead, log, child)
    case Group(Or, children) => children == [] || exists child | child in children :: Holds(c, lead, log, child)
    case FieldRule(key, op, operand) => key in c.fields && RuleHolds(c, lead, key, c.fields[key], op, operand)
    case ActionPerformed(query, minCount) => TimesAnswered(c, lead, log, query) >= minCount
    case ActionNotPerformed(query) => TimesAnswered(c, lead, log, query) == 0
    case StatusChanged(fromStage, toStage, within) =>
      exists a | a in log ::
        Moved(c, lead, StageChange, "old_stage_id", fromStage, "new_stage_id", toStage, within, a)
    case AssigneeChanged(fromMember, toMember, within) =>
      exists a | a in log ::
        Moved(c, lead, AssignmentChange, "old_assignee_id", fromMember, "new_assignee_id", toMember, within, a)
  }

  /** Some rule asks whether a tag field is empty while the lead's slot cannot be measured. */
  predicate Raises(c: Compiler, lead: Lead, node: FilterNode) {
    match node
    case Group(_, children) => exists child | child in children :: Raises(c, lead, child)
    case FieldRule(key, op, _) => RuleRaises(c, lead, key, op)
    case _ => false
  }

  /** Every slot the filter reads holds what its field's type stores. */
  predicate WellStored(c: Compiler, lead: Lead, node: FilterNode) {
    forall key | key in c.fields && Mentions(node, key) ::
      WellStoredField(c.platform, c.fields[key], Slot(lead, key))
  }

  /** A rule the compiler must accept. */
  predicate AcceptableRule(c: Compiler, key: string, op: Operator, operand: Json) {
    && key in c.fields && key in c.viewable && SafeKey(key)
    && op in Operators(c.fields[key])
    && (c.fields[key] == Tags || AcceptableOperand(c.platform, c.fields[key], op, operand))
  }

  predicate AcceptableOperand(p: Platform, t: FieldType, op: Operator, operand: Json) {
    if op.IsEmpty? || op.IsNotEmpty? || IsPattern(op) then true
    else if IsMembership(op) || op == Between then forall raw | raw in Items(operand) :: Asked(p, t, raw).Some?
    else if IsDayWindow(op) then p.daysOf(operand).Some?
    else Asked(p, t, operand).Some?
  }

  predicate Acceptable(c: Compiler, node: FilterNode) {
    match node
    case Group(_, children) => forall child | child in children :: Acceptable(c, child)
    case FieldRule(key, op, operand) => AcceptableRule(c, key, op, operand)
    case _ => true
  }
}
