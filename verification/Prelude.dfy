// Shared value types: optional results, outcomes with an error, and the JSON
// documents that the JSONB columns hold.

module Prelude {
  datatype Option<+T> = None | Some(value: T)

  datatype Result<+T, +E> = Ok(value: T) | Fail(error: E)

  datatype Json =
    | Null
    | Bool(flag: bool)
    | Num(mantissa: int, scale: nat)    // the decimal mantissa / 10^scale
    | Str(text: string)
    | Arr(items: seq<Json>)
    | Obj(fields: map<string, Json>)

  function PowerOfTen(n: nat): (r: int)
    ensures r > 0
  {
    if n == 0 then 1 else 10 * PowerOfTen(n - 1)
  }

  function DecimalValue(mantissa: int, scale: nat): real { mantissa as real / PowerOfTen(scale) as real }

  function Max(a: int, b: int): int { if a >= b then a else b }

  function Min(a: int, b: int): int { if a <= b then a else b }

  const DAY := 86_400_000_000    // microseconds

  /** Division with remainder has one answer. */
  lemma QuotientUnique(x: int, n: int, q: int, r: int)
    requires n > 0 && x == q * n + r && 0 <= r < n
    ensures x / n == q && x % n == r
  {
    var d := x / n - q;
    assert x == (x / n) * n + x % n;
    assert d * n == r - x % n;
    assert d >= 1 ==> d * n >= n;
    assert d <= -1 ==> d * n <= -n;
  }

  /** A subset has no more elements, and as many only if it is the whole set. */
  lemma {:induction false} SubsetSize<T>(part: set<T>, whole: set<T>)
    requires part <= whole
    ensures |part| <= |whole|
    ensures |part| == |whole| <==> part == whole
  {
    if part != {} {
      var x :| x in part;
      SubsetSize(part - {x}, whole - {x});
      assert part == (part - {x}) + {x} && whole == (whole - {x}) + {x};
    }
  }
}
