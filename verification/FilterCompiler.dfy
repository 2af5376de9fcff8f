// From filter trees to SQL: the operator tables, the permission gate, operand
// coercion and one case per node.

module FilterCompiler {
  import opened Prelude
  import opened FilterDsl
  import opened FilterSql
  import LikePatterns

  datatype FieldType =
    | Text | Dropdown | Tags | Email | Phone | Checkbox | Date | Money | Number
    | Website | DependentDropdown | RecurringDate | Location

  const PRESENCE := {IsEmpty, IsNotEmpty}
  const TEXTUAL := {Equals, NotEquals, Contains, NotContains, StartsWith, EndsWith, In, NotIn, IsEmpty, IsNotEmpty}
  const NUMERIC := {Equals, NotEquals, GreaterThan, GreaterOrEqual, LessThan, LessOrEqual, Between, IsEmpty, IsNotEmpty}
  const TEMPORAL := {Equals, NotEquals, GreaterThan, GreaterOrEqual, LessThan, LessOrEqual, Between,
                     InLastDays, InNextDays, IsEmpty, IsNotEmpty}
  const CHOICE := {Equals, NotEquals, In, NotIn, IsEmpty, IsNotEmpty}
  const SET := {HasAny, HasAll, NotIn, IsEmpty, IsNotEmpty}
  const BOOLEAN := {Equals, IsEmpty, IsNotEmpty}

  /** The registry's operator list for a field type. */
  function Operators(t: FieldType): set<Operator> {
    match t
    case Text | Email | Phone | Website | Location => TEXTUAL
    case Dropdown | DependentDropdown => CHOICE
    case Tags => SET
    case Checkbox => BOOLEAN
    case Date | RecurringDate => TEMPORAL
    case Money | Number => NUMERIC
  }

  /** One request's compiler: the workspace's fields, the caller's View grants and the clock. */
  datatype Compiler = Compiler(
    fields: map<string, FieldType>, viewable: set<string>, now: int, platform: Platform)
  {
    function Today(): int { platform.localDay(now) }
  }

  datatype CompileError =
    | UnknownField(key: string)
    | UnsupportedOperator(key: string)
    | InvalidFieldKey(key: string)
    | InvalidFilterValue(key: string)
    | UncaughtValueError    // `int(node.value)` is not guarded

  // --- keys and paths ----------------------------------------------------------

  predicate KeyChar(c: char) { 'a' <= c <= 'z' || '0' <= c <= '9' || c == '_' }

  predicate KeyShape(key: string) { 1 <= |key| <= 64 && forall c | c in key :: KeyChar(c) }

  /** `^[a-z0-9_]{1,64}$` under `re.match`, where `$` also stops before a final newline. */
  predicate SafeKey(key: string) {
    KeyShape(key) || (|key| > 1 && key[|key| - 1] == '\n' && KeyShape(key[..|key| - 1]))
  }

  function SubKey(t: FieldType): Option<string> {
    match t
    case Money => Some("amount")
    case DependentDropdown => Some("value")
    case RecurringDate => Some("next")
    case _ => None
  }

  const LOCATION_PARTS := ["line1", "line2", "city", "state", "postal_code", "country"]

  function CastFor(t: FieldType): Cast {
    match t
    case Number | Money => AsNumeric
    case Date | RecurringDate => AsDate
    case Checkbox => AsBoolean
    case _ => AsText
  }

  function Accessor(key: string, t: FieldType): Result<Column, CompileError> {
    if !SafeKey(key) then Fail(InvalidFieldKey(key))
    else if t == Location then Ok(JoinedParts(key, LOCATION_PARTS))
    else Ok(Path(key, SubKey(t), CastFor(t)))
  }

  // --- operands ----------------------------------------------------------------

  const YES_WORDS := {"true", "1", "yes"}

  function Coerce(p: Platform, t: FieldType, raw: Json): Option<SqlValue> {
    match t
    case Number | Money =>
      (match p.decimalOf(raw) case Some(n) => Some(SqlNumber(n)) case None => None)
    case Date | RecurringDate =>
      (match p.dayOf(raw) case Some(d) => Some(SqlDay(d)) case None => None)
    case Checkbox => Some(SqlFlag(if raw.Bool? then raw.flag else p.plain(p.textOf(raw)) in YES_WORDS))
    case _ => Some(SqlText(p.textOf(raw)))
  }

  function CoerceAll(p: Platform, t: FieldType, raws: seq<Json>): Option<seq<SqlValue>> {
    if raws == [] then Some([])
    else match (Coerce(p, t, raws[0]), CoerceAll(p, t, raws[1..]))
      case (Some(v), Some(vs)) => Some([v] + vs)
      case _ => None
  }

  function Items(operand: Json): seq<Json> { if operand.Arr? then operand.items else [] }

  function Texts(p: Platform, raws: seq<Json>): seq<string> {
    seq(|raws|, i requires 0 <= i < |raws| => p.textOf(raws[i]))
  }

  // --- field rules -------------------------------------------------------------

  function IsEmptySql(key: string, t: FieldType): Result<Sql, CompileError> {
    if !SafeKey(key) then Fail(InvalidFieldKey(key))
    else if t == Tags then Ok(TagsLengthZero(key))
    else
      var target := Path(key, SubKey(t), AsText);
      Ok(AnyOf([IsNull(target), Compare(target, Eq, SqlText(""))]))
  }

  function TagsSql(p: Platform, key: string, op: Operator, operand: Json): Result<Sql, CompileError> {
    var codes := Texts(p, Items(operand));
    if !SafeKey(key) then Fail(InvalidFieldKey(key))
    else match op
      case HasAny => Ok(TagsExistAny(key, codes))
      case HasAll => Ok(TagsExistAll(key, codes))
      case NotIn => Ok(Not(TagsExistAny(key, codes)))
      case _ => Fail(UnsupportedOperator(key))
  }

  function InSql(p: Platform, key: string, t: FieldType, target: Column, op: Operator,
                 operand: Json): Result<Sql, CompileError> {
    match CoerceAll(p, t, Items(operand))
    case None => Fail(InvalidFilterValue(key))
    case Some(values) => Ok(if op == In then InList(target, values) else Not(InList(target, values)))
  }

  function BetweenSql(p: Platform, key: string, t: FieldType, target: Column,
                      operand: Json): Result<Sql, CompileError> {
    match CoerceAll(p, t, Items(operand))
    case None => Fail(InvalidFilterValue(key))
    case Some(values) =>
      if |values| == 2 then Ok(BetweenValues(target, values[0], values[1])) else Fail(UncaughtValueError)
  }

  function DaysSql(p: Platform, today: int, target: Column, op: Operator, operand: Json): Result<Sql, CompileError> {
    match p.daysOf(operand)
    case None => Fail(UncaughtValueError)
    case Some(days) =>
      if op == InLastDays
      then Ok(BetweenValues(target, SqlDay(today - days), SqlDay(today)))
      else Ok(BetweenValues(target, SqlDay(today), SqlDay(today + days)))
  }

  function PatternSql(p: Platform, target: Column, op: Operator, operand: Json): Sql {
    var text := LikePatterns.EscapeLike(p.textOf(operand));
    if op == StartsWith then ILike(target, text + "%")
    else if op == EndsWith then ILike(target, "%" + text)
    else if op == Contains then ILike(target, "%" + text + "%")
    else AnyOf([IsNull(target), Not(ILike(target, "%" + text + "%"))])
  }

  function ComparisonOf(op: Operator): Comparison {
    match op
    case GreaterThan => Gt
    case GreaterOrEqual => Ge
    case LessThan => Lt
    case LessOrEqual => Le
    case NotEquals => Ne
    case _ => Eq
  }

  function ComparisonSql(p: Platform, key: string, t: FieldType, target: Column, op: Operator,
                         operand: Json): Result<Sql, CompileError> {
    match Coerce(p, t, operand)
    case None => Fail(InvalidFilterValue(key))
    case Some(value) =>
      var compared := Compare(target, ComparisonOf(op), value);
      Ok(if op == NotEquals then AnyOf([IsNull(target), compared]) else compared)
  }

  predicate IsMembership(op: Operator) { op == In || op == NotIn }

  predicate IsDayWindow(op: Operator) { op == InLastDays || op == InNextDays }

  predicate IsPattern(op: Operator) { op == Contains || op == NotContains || op == StartsWith || op == EndsWith }

  function ScalarSql(p: Platform, today: int, key: string, t: FieldType, op: Operator,
                     operand: Json): Result<Sql, CompileError> {
    match Accessor(key, t)
    case Fail(e) => Fail(e)
    case Ok(target) =>
      if IsMembership(op) then InSql(p, key, t, target, op, operand)
      else if op == Between then BetweenSql(p, key, t, target, operand)
      else if IsDayWindow(op) then DaysSql(p, today, target, op, operand)
      else if IsPattern(op) then Ok(PatternSql(p, target, op, operand))
      else ComparisonSql(p, key, t, target, op, operand)
  }

  function FieldRuleSql(c: Compiler, key: string, op: Operator, operand: Json): Result<Sql, CompileError> {
    if key !in c.fields then Fail(UnknownField(key))
    else if key !in c.viewable then Fail(UnknownField(key))
    else
      var t := c.fields[key];
      if op !in Operators(t) then Fail(UnsupportedOperator(key))
      else if op == IsEmpty then IsEmptySql(key, t)
      else if op == IsNotEmpty then
        match IsEmptySql(key, t) case Fail(e) => Fail(e) case Ok(sql) => Ok(Not(sql))
      else if t == Tags then TagsSql(c.platform, key, op, operand)
      else ScalarSql(c.platform, c.Today(), key, t, op, operand)
  }

  // --- history predicates ------------------------------------------------------

  function WindowConditions(c: Compiler, within: Option<Within>): seq<Condition> {
    if within.None? then []
    else if within.value.lastDays.Some? then [PerformedFrom(c.now - within.value.lastDays.value * DAY)]
    else
      (if within.value.from.Some? then [PerformedFrom(c.platform.midnight(within.value.from.value))] else [])
      + (if within.value.until.Some? then [PerformedBefore(c.platform.midnight(within.value.until.value + 1))] else [])
  }

  function PayloadConditions(p: Platform, pairs: seq<(string, Json)>): seq<Condition> {
    seq(|pairs|, i requires 0 <= i < |pairs| => PayloadIs(pairs[i].0, p.textOf(pairs[i].1)))
  }

  function ActionConditions(c: Compiler, q: ActionQuery): seq<Condition> {
    [SameLead, SameWorkspace]
    + (if q.kind.Some? then [KindIs(q.kind.value)] else [])
    + (if q.actionType.Some? then [TypeIs(q.actionType.value)] else [])
    + (if q.actor.Some? then [ActorIs(q.actor.value)] else [])
    + PayloadConditions(c.platform, q.payloadMatch)
    + WindowConditions(c, q.within)
  }

  function TransitionConditions(
    c: Compiler, kind: ActionKind, oldKey: string, oldId: Option<Id>, newKey: string, newId: Option<Id>,
    within: Option<Within>): seq<Condition>
  {
    [SameLead, SameWorkspace, KindIs(kind)]
    + (if oldId.Some? then [PayloadIs(oldKey, oldId.value)] else [])
    + (if newId.Some? then [PayloadIs(newKey, newId.value)] else [])
    + WindowConditions(c, within)
  }

  // --- the whole tree ----------------------------------------------------------

  function Compile(c: Compiler, node: FilterNode): Result<Sql, CompileError>
    decreases node, 0
  {
    match node
    case Group(combine, children) =>
      if children == [] then Ok(AlwaysTrue)
      else (match CompileAll(c, children)
            case Fail(e) => Fail(e)
            case Ok(parts) => Ok(if combine == And then AllOf(parts) else AnyOf(parts)))
    case FieldRule(key, op, operand) => FieldRuleSql(c, key, op, operand)
    case ActionPerformed(query, minCount) =>
      if minCount == 1 then Ok(Exists(ActionConditions(c, query)))
      else Ok(CountAtLeast(ActionConditions(c, query), minCount))
    case ActionNotPerformed(query) => Ok(Not(Exists(ActionConditions(c, query))))
    case StatusChanged(fromStage, toStage, within) =>
      Ok(Exists(TransitionConditions(c, StageChange, "old_stage_id", fromStage, "new_stage_id", toStage, within)))
    case AssigneeChanged(fromMember, toMember, within) =>
      Ok(Exists(TransitionConditions(
                  c, AssignmentChange, "old_assignee_id", fromMember, "new_assignee_id", toMember, within)))
  }

  /** Children in order; the first error wins. */
  function CompileAll(c: Compiler, nodes: seq<FilterNode>): Result<seq<Sql>, CompileError>
    decreases nodes
  {
    if nodes == [] then Ok([])
    else match Compile(c, nodes[0])
      case Fail(e) => Fail(e)
      case Ok(sql) =>
        match CompileAll(c, nodes[1..])
        case Fail(e) => Fail(e)
        case Ok(rest) => Ok([sql] + rest)
  }
}
