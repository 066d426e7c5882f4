/** Values that may be missing, comparisons with pandas' NaN behaviour, sums and
    Python's two-decimal rounding, shared by every other module. */
module Numeric {

  datatype Option<+T> = None | Some(value: T)

  /** A Python call that either returns a value or raises; `error` names the
      exception. */
  datatype Result<+T> = Success(value: T) | Failure(error: string)

  /** An indicator reading: `None` stands for NaN, the value of a rolling
      indicator during its warm-up rows. */
  type Num = Option<real>

  /** `a > b` on possibly-missing values: false as soon as one side is NaN. */
  predicate Gt(a: Num, b: Num) { a.Some? && b.Some? && a.value > b.value }
  predicate Lt(a: Num, b: Num) { a.Some? && b.Some? && a.value < b.value }
  predicate Ge(a: Num, b: Num) { a.Some? && b.Some? && a.value >= b.value }
  predicate Le(a: Num, b: Num) { a.Some? && b.Some? && a.value <= b.value }

  /** Python truthiness of a value that has already been turned into
      `float | None` (None and 0.0 are falsy). */
  predicate Truthy(x: Num) { x.Some? && x.value != 0.0 }

  lemma GtLtExclusive(a: Num, b: Num)
    ensures !(Gt(a, b) && Lt(a, b))
    ensures Gt(a, b) || Lt(a, b) || a.None? || b.None? || a == b
  {
  }

  /** Arithmetic on possibly-missing values: a missing operand gives a
      missing result, as NaN does. */
  function Plus(a: Num, b: Num): (r: Num)
    ensures r.Some? <==> a.Some? && b.Some?
    ensures r.Some? ==> r.value == a.value + b.value
  {
    if a.Some? && b.Some? then Some(a.value + b.value) else None
  }

  function Minus(a: Num, b: Num): (r: Num)
    ensures r.Some? <==> a.Some? && b.Some?
    ensures r.Some? ==> r.value == a.value - b.value
  {
    if a.Some? && b.Some? then Some(a.value - b.value) else None
  }

  function Times(a: Num, k: real): (r: Num)
    ensures r.Some? <==> a.Some?
    ensures r.Some? ==> r.value == a.value * k
  {
    if a.Some? then Some(a.value * k) else None
  }

  function Abs(x: real): (r: real)
    ensures r >= 0.0 && (r == x || r == -x)
  {
    if x < 0.0 then -x else x
  }

  function Max(a: real, b: real): (r: real)
    ensures r >= a && r >= b && (r == a || r == b)
  {
    if a >= b then a else b
  }

  function Min(a: real, b: real): (r: real)
    ensures r <= a && r <= b && (r == a || r == b)
  {
    if a <= b then a else b
  }

  function MaxInt(a: int, b: int): (r: int)
    ensures r >= a && r >= b && (r == a || r == b)
  {
    if a >= b then a else b
  }

  function MinInt(a: int, b: int): (r: int)
    ensures r <= a && r <= b && (r == a || r == b)
  {
    if a <= b then a else b
  }

  /** Python's `int(x)` on a float: truncation toward zero. */
  function Trunc(x: real): (r: int)
    ensures x >= 0.0 ==> r as real <= x < r as real + 1.0
    ensures x < 0.0 ==> r as real - 1.0 < x <= r as real
  {
    if x >= 0.0 then x.Floor else -((-x).Floor)
  }

  function Sum(xs: seq<real>): real
  {
    if xs == [] then 0.0 else Sum(xs[..|xs| - 1]) + xs[|xs| - 1]
  }

  function SumInt(xs: seq<int>): int
  {
    if xs == [] then 0 else SumInt(xs[..|xs| - 1]) + xs[|xs| - 1]
  }

  lemma {:induction false} SumAppend(xs: seq<real>, x: real)
    ensures Sum(xs + [x]) == Sum(xs) + x
  {
    assert (xs + [x])[..|xs|] == xs;
  }

  lemma {:induction false} SumIntAppend(xs: seq<int>, x: int)
    ensures SumInt(xs + [x]) == SumInt(xs) + x
  {
    assert (xs + [x])[..|xs|] == xs;
  }

  lemma {:induction false} SumNonNegative(xs: seq<real>)
    requires forall i :: 0 <= i < |xs| ==> xs[i] >= 0.0
    ensures Sum(xs) >= 0.0
  {
    if xs != [] {
      SumNonNegative(xs[..|xs| - 1]);
    }
  }

  /** Python's `round(x, 2)`: the nearest multiple of 0.01, ties to the even
      hundredth. Applied to the exact real rather than to a binary float. */
  function Round2(x: real): (r: real)
  {
    var n := (x * 100.0).Floor;
    var frac := x * 100.0 - n as real;
    var k := if frac > 0.5 then n + 1
             else if frac < 0.5 then n
             else if n % 2 == 0 then n else n + 1;
    k as real / 100.0
  }

  lemma Round2Close(x: real)
    ensures Abs(Round2(x) - x) <= 0.005
  {
  }

  lemma Round2OfHundredths(k: int)
    ensures Round2(k as real / 100.0) == k as real / 100.0
  {
    assert (k as real / 100.0) * 100.0 == k as real;
  }

  lemma {:induction false} Round2Monotone(x: real, y: real)
    requires x <= y
    ensures Round2(x) <= Round2(y)
  {
    var nx := (x * 100.0).Floor;
    var ny := (y * 100.0).Floor;
    assert nx <= ny;
  }

  /** Rounding keeps a value that lies between two hundredths between them. */
  lemma Round2Between(x: real, lo: int, hi: int)
    requires lo as real / 100.0 <= x <= hi as real / 100.0
    ensures lo as real / 100.0 <= Round2(x) <= hi as real / 100.0
  {
    Round2Monotone(lo as real / 100.0, x);
    Round2Monotone(x, hi as real / 100.0);
    Round2OfHundredths(lo);
    Round2OfHundredths(hi);
  }

  /** A part of a positive whole is a fraction in [0, 1]. */
  lemma FractionBounds(a: real, b: real)
    requires 0.0 <= a <= b && b > 0.0
    ensures 0.0 <= a / b <= 1.0
  {
    var x := a / b;
    assert x * b == a;
  }

  /** `max(xs)` of a non-empty list. */
  function MaxOf(xs: seq<real>): (r: real)
    requires xs != []
    ensures forall k :: 0 <= k < |xs| ==> xs[k] <= r
    ensures r in xs
  {
    if |xs| == 1 then xs[0]
    else
      var m := MaxOf(xs[..|xs| - 1]);
      if xs[|xs| - 1] > m then xs[|xs| - 1] else m
  }

  /** `min(xs)` of a non-empty list. */
  function MinOf(xs: seq<real>): (r: real)
    requires xs != []
    ensures forall k :: 0 <= k < |xs| ==> r <= xs[k]
    ensures r in xs
  {
    if |xs| == 1 then xs[0]
    else
      var m := MinOf(xs[..|xs| - 1]);
      if xs[|xs| - 1] < m then xs[|xs| - 1] else m
  }
}
