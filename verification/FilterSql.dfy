// The fragment of SQL the compiler emits, and what it evaluates to: three-valued
// logic, plus a fourth outcome for a query that raises at run time.

module FilterSql {
  import opened Prelude
  import opened FilterDsl
  import LikePatterns

  /** Library behaviour the compiler relies on: PostgreSQL text rendering and casts,
      Python operand coercions, the ILIKE fold, and the workspace's timezone. */
  datatype Platform = Platform(
    render: Json -> string,             // `->>` of a value that is neither null nor a string
    numeric: string -> Option<real>,    // `::numeric`
    date: string -> Option<int>,        // `::date`, as a day count
    boolean: string -> Option<bool>,    // `::boolean`
    fold: char -> char,
    decimalOf: Json -> Option<real>,    // `Decimal(str(raw))`
    dayOf: Json -> Option<int>,         // `date.fromisoformat(str(raw))`
    plain: string -> string,            // `s.strip().lower()`
    textOf: Json -> string,             // `str(raw)`
    daysOf: Json -> Option<int>,        // `int(raw)`
    midnight: int -> int,               // instant at which a local day starts
    localDay: int -> int)               // local day an instant falls on

  datatype Lead = Lead(id: Id, workspace: Id, values: map<string, Json>)

  datatype Action = Action(
    lead: Id, workspace: Id, kind: ActionKind, actionType: Option<Id>, actor: Option<Id>,
    payload: map<string, Json>, performedAt: int)

  datatype SqlValue = SqlNull | SqlText(text: string) | SqlNumber(number: real) | SqlDay(day: int) | SqlFlag(flag: bool)

  datatype Cast = AsText | AsNumeric | AsDate | AsBoolean

  /** A comparable expression over `leads.values`. */
  datatype Column =
    | Path(key: string, sub: Option<string>, cast: Cast)
    | JoinedParts(key: string, parts: seq<string>)    // concat_ws(' ', coalesce(part, ''), ...)

  datatype Comparison = Eq | Ne | Gt | Ge | Lt | Le

  datatype Condition =
    | SameLead | SameWorkspace
    | KindIs(kind: ActionKind) | TypeIs(actionType: Id) | ActorIs(actor: Id)
    | PayloadIs(key: string, text: string)
    | PerformedFrom(instant: int) | PerformedBefore(instant: int)

  datatype Sql =
    | AlwaysTrue
    | AllOf(parts: seq<Sql>)
    | AnyOf(parts: seq<Sql>)
    | Not(part: Sql)
    | IsNull(column: Column)
    | Compare(column: Column, cmp: Comparison, value: SqlValue)
    | InList(column: Column, values: seq<SqlValue>)
    | BetweenValues(column: Column, low: SqlValue, high: SqlValue)
    | ILike(column: Column, pattern: string)
    | TagsLengthZero(key: string)
    | TagsExistAny(key: string, codes: seq<string>)
    | TagsExistAll(key: string, codes: seq<string>)
    | Exists(conditions: seq<Condition>)
    | CountAtLeast(conditions: seq<Condition>, threshold: int)

  // --- three-valued logic ------------------------------------------------------

  datatype Truth = Yes | No | Unknown | Fault

  function Known(b: bool): Truth { if b then Yes else No }

  function TruthNot(a: Truth): Truth {
    match a case Yes => No case No => Yes case Unknown => Unknown case Fault => Fault
  }

  function TruthAnd(a: Truth, b: Truth): Truth {
    if a == Fault || b == Fault then Fault
    else if a == No || b == No then No
    else if a == Unknown || b == Unknown then Unknown
    else Yes
  }

  function TruthOr(a: Truth, b: Truth): Truth { TruthNot(TruthAnd(TruthNot(a), TruthNot(b))) }

  // --- columns -----------------------------------------------------------------

  /** `j ->> k`: null for a missing key, a JSON null or a non-object. */
  function ArrowText(p: Platform, j: Option<Json>, k: string): SqlValue {
    if j.None? || !j.value.Obj? || k !in j.value.fields then SqlNull
    else match j.value.fields[k]
      case Null => SqlNull
      case Str(s) => SqlText(s)
      case other => SqlText(p.render(other))
  }

  function Slot(lead: Lead, key: string): Option<Json> {
    if key in lead.values then Some(lead.values[key]) else None
  }

  function PathText(p: Platform, lead: Lead, key: string, sub: Option<string>): SqlValue {
    match sub
    case None => ArrowText(p, Some(Obj(lead.values)), key)
    case Some(part) => ArrowText(p, Slot(lead, key), part)
  }

  /** A cast keeps null, and raises on text it cannot read. */
  function CastText(p: Platform, v: SqlValue, cast: Cast): Option<SqlValue> {
    match (cast, v)
    case (AsNumeric, SqlText(s)) =>
      (match p.numeric(s) case Some(n) => Some(SqlNumber(n)) case None => None)
    case (AsDate, SqlText(s)) =>
      (match p.date(s) case Some(d) => Some(SqlDay(d)) case None => None)
    case (AsBoolean, SqlText(s)) =>
      (match p.boolean(s) case Some(b) => Some(SqlFlag(b)) case None => None)
    case (_, other) => Some(other)
  }

  function JoinParts(p: Platform, j: Option<Json>, parts: seq<string>): string {
    if parts == [] then ""
    else
      var head := match ArrowText(p, j, parts[0]) case SqlText(s) => s case _ => "";
      if |parts| == 1 then head else head + " " + JoinParts(p, j, parts[1..])
  }

  /** The column's value, or None when evaluating it raises. */
  function ColumnValue(p: Platform, lead: Lead, column: Column): Option<SqlValue> {
    match column
    case Path(key, sub, cast) => CastText(p, PathText(p, lead, key, sub), cast)
    case JoinedParts(key, parts) => Some(SqlText(JoinParts(p, Slot(lead, key), parts)))
  }

  function CompareValues(a: SqlValue, cmp: Comparison, b: SqlValue): Truth {
    if a == SqlNull || b == SqlNull then Unknown
    else match (cmp, a, b)
      case (Eq, _, _) => Known(a == b)
      case (Ne, _, _) => Known(a != b)
      case (Gt, SqlNumber(x), SqlNumber(y)) => Known(x > y)
      case (Ge, SqlNumber(x), SqlNumber(y)) => Known(x >= y)
      case (Lt, SqlNumber(x), SqlNumber(y)) => Known(x < y)
      case (Le, SqlNumber(x), SqlNumber(y)) => Known(x <= y)
      case (Gt, SqlDay(x), SqlDay(y)) => Known(x > y)
      case (Ge, SqlDay(x), SqlDay(y)) => Known(x >= y)
      case (Lt, SqlDay(x), SqlDay(y)) => Known(x < y)
      case (Le, SqlDay(x), SqlDay(y)) => Known(x <= y)
      case _ => Fault  // an ordering the compiler never emits
  }

  function InValues(a: SqlValue, values: seq<SqlValue>): Truth {
    if values == [] then No else TruthOr(CompareValues(a, Eq, values[0]), InValues(a, values[1..]))
  }

  /** `coalesce(leads.values -> key, '[]'::jsonb)`: only an absent key coalesces. */
  function TagArray(lead: Lead, key: string): Json {
    if key in lead.values then lead.values[key] else Arr([])
  }

  /** `jsonb_exists(j, code)`. */
  predicate JsonbExists(j: Json, code: string) {
    match j
    case Arr(items) => Str(code) in items
    case Obj(fields) => code in fields
    case Str(s) => s == code
    case _ => false
  }

  // --- the timeline ------------------------------------------------------------

  function OptionEquals(a: Option<Id>, b: Id): Truth {
    match a case None => Unknown case Some(v) => Known(v == b)
  }

  function EvalCondition(p: Platform, lead: Lead, a: Action, c: Condition): Truth {
    match c
    case SameLead => Known(a.lead == lead.id)
    case SameWorkspace => Known(a.workspace == lead.workspace)
    case KindIs(kind) => Known(a.kind == kind)
    case TypeIs(t) => OptionEquals(a.actionType, t)
    case ActorIs(m) => OptionEquals(a.actor, m)
    case PayloadIs(key, text) => CompareValues(ArrowText(p, Some(Obj(a.payload)), key), Eq, SqlText(text))
    case PerformedFrom(t) => Known(a.performedAt >= t)
    case PerformedBefore(t) => Known(a.performedAt < t)
  }

  function EvalConditions(p: Platform, lead: Lead, a: Action, cs: seq<Condition>): Truth {
    if cs == [] then Yes
    else TruthAnd(EvalCondition(p, lead, a, cs[0]), EvalConditions(p, lead, a, cs[1..]))
  }

  /** Number of timeline rows the WHERE clause keeps: those where it is TRUE. */
  function CountRows(p: Platform, lead: Lead, log: seq<Action>, cs: seq<Condition>): nat {
    if log == [] then 0
    else (if EvalConditions(p, lead, log[0], cs) == Yes then 1 else 0) + CountRows(p, lead, log[1..], cs)
  }

  // --- evaluation --------------------------------------------------------------

  function Eval(p: Platform, lead: Lead, log: seq<Action>, sql: Sql): Truth
    decreases sql, 0
  {
    match sql
    case AlwaysTrue => Yes
    case AllOf(parts) => EvalAll(p, lead, log, parts)
    case AnyOf(parts) => EvalAny(p, lead, log, parts)
    case Not(part) => TruthNot(Eval(p, lead, log, part))
    case IsNull(column) =>
      (match ColumnValue(p, lead, column) case None => Fault case Some(v) => Known(v == SqlNull))
    case Compare(column, cmp, value) =>
      (match ColumnValue(p, lead, column) case None => Fault case Some(v) => CompareValues(v, cmp, value))
    case InList(column, values) =>
      (match ColumnValue(p, lead, column) case None => Fault case Some(v) => InValues(v, values))
    case BetweenValues(column, low, high) =>
      (match ColumnValue(p, lead, column)
       case None => Fault
       case Some(v) => TruthAnd(CompareValues(v, Ge, low), CompareValues(v, Le, high)))
    case ILike(column, pattern) =>
      (match ColumnValue(p, lead, column)
       case None => Fault
       case Some(SqlText(s)) => Known(LikePatterns.ILike(p.fold, s, pattern))
       case Some(SqlNull) => Unknown
       case Some(_) => Fault)
    case TagsLengthZero(key) =>
      var tags := TagArray(lead, key);
      if tags.Arr? then Known(tags.items == []) else Fault  // no array length of a scalar
    case TagsExistAny(key, codes) =>
      Known(exists code | code in codes :: JsonbExists(TagArray(lead, key), code))
    case TagsExistAll(key, codes) =>
      Known(forall code | code in codes :: JsonbExists(TagArray(lead, key), code))
    case Exists(conditions) =>
      Known(exists a | a in log :: EvalConditions(p, lead, a, conditions) == Yes)
    case CountAtLeast(conditions, threshold) => Known(CountRows(p, lead, log, conditions) >= threshold)
  }

  function EvalAll(p: Platform, lead: Lead, log: seq<Action>, parts: seq<Sql>): Truth
    decreases parts
  {
    if parts == [] then Yes
    else TruthAnd(Eval(p, lead, log, parts[0]), EvalAll(p, lead, log, parts[1..]))
  }

  function EvalAny(p: Platform, lead: Lead, log: seq<Action>, parts: seq<Sql>): Truth
    decreases parts
  {
    if parts == [] then No
    else TruthOr(Eval(p, lead, log, parts[0]), EvalAny(p, lead, log, parts[1..]))
  }
}
