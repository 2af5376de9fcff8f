// The assumed library behaviour is possible: one platform that has it.

module FilterLawful {
  import opened Prelude
  import opened FilterSql
  import opened FilterMeaning
  import LikePatterns

  function Ticks(n: nat): string { seq(n, _ => '1') }

  /** A text for each decimal: sign, mantissa, point, scale. */
  function Written(m: int, scale: nat): string {
    (if m < 0 then "-" + Ticks(-m) else "+" + Ticks(m)) + "." + Ticks(scale)
  }

  function Size(m: int): nat { if m < 0 then -m else m }

  lemma WrittenLooks(m: int, scale: nat)
    ensures var s := Written(m, scale);
      && |s| == Size(m) + 2 + scale
      && s[0] == (if m < 0 then '-' else '+')
      && s[1 + Size(m)] == '.'
      && forall k | 1 <= k <= Size(m) :: s[k] == '1'
  {}

  lemma WrittenInjective(m: int, scale: nat, n: int, other: nat)
    requires Written(m, scale) == Written(n, other)
    ensures m == n && scale == other
  {
    hide Written;
    WrittenLooks(m, scale);
    WrittenLooks(n, other);
  }

  function Rendered(j: Json): string {
    match j
    case Num(m, scale) => Written(m, scale)
    case Bool(b) => if b then "true" else "false"
    case _ => "other"
  }

  ghost function NumberIn(s: string): Option<real> {
    if w: (int, nat) :| s == Written(w.0, w.1) then Some(DecimalValue(w.0, w.1)) else None
  }

  function FlagIn(s: string): Option<bool> {
    if s == "true" then Some(true) else if s == "false" then Some(false) else None
  }

  /** A workspace on universal time. */
  ghost const SAMPLE := Platform(
    Rendered, NumberIn, _ => None, FlagIn,
    c => c, DecimalIn, _ => None, s => s, TextIn, DaysIn, d => d * DAY, t => t / DAY)

  ghost function DecimalIn(raw: Json): Option<real> {
    match raw
    case Num(m, scale) => Some(DecimalValue(m, scale))
    case Str(s) => NumberIn(s)
    case _ => None
  }

  function TextIn(raw: Json): string { if raw.Str? then raw.text else Rendered(raw) }

  function DaysIn(raw: Json): Option<int> { if raw.Num? && raw.scale == 0 then Some(raw.mantissa) else None }

  lemma NumberOfWritten(m: int, scale: nat)
    ensures NumberIn(Written(m, scale)) == Some(DecimalValue(m, scale))
  {
    hide Written;
    var w := (m, scale);
    assert Written(w.0, w.1) == Written(m, scale);
    forall n: int, other: nat | Written(n, other) == Written(m, scale)
      ensures n == m && other == scale
    {
      WrittenInjective(n, other, m, scale);
    }
  }

  lemma NoEmptyNumber()
    ensures NumberIn("") == None && forall j :: Rendered(j) != ""
  {}

  lemma LawfulIsPossible()
    ensures Lawful(SAMPLE)
  {
    hide Written, NumberIn;
    NoEmptyNumber();
    forall m: int, scale: nat
      ensures NumberIn(Written(m, scale)) == Some(DecimalValue(m, scale))
    {
      NumberOfWritten(m, scale);
    }
  }
}
