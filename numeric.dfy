/** Number handling shared by both benchmark scripts, on exact reals:
    Python's int() truncation, round(x, 2), arithmetic means, numpy float64
    results that can be nan or inf, and the text f"{x:.2f}" produces. */
module Numeric {

  /** Python's int() applied to a float: truncation toward zero. */
  function Trunc(x: real): (r: int)
    ensures 0.0 <= x ==> 0 <= r && r as real <= x < r as real + 1.0
    ensures x < 0.0 ==> r <= 0 && r as real - 1.0 < x <= r as real
  {
    if x >= 0.0 then x.Floor else -((-x).Floor)
  }

  /** Round to the nearest integer, ties to the even neighbour (Python's rule). */
  function RoundHalfEven(y: real): (n: int)
    ensures -0.5 <= n as real - y <= 0.5
    ensures (n as real - y == 0.5 || y - n as real == 0.5) ==> n % 2 == 0
  {
    var f := y.Floor;
    var d := y - f as real;
    if d < 0.5 then f
    else if d > 0.5 then f + 1
    else if f % 2 == 0 then f else f + 1
  }

  /** A real that is an integral number of hundredths. */
  predicate IsHundredths(x: real) {
    (x * 100.0).Floor as real == x * 100.0
  }

  /** Dividing an integer by 100 gives a number of hundredths, as close to
      x as the integer is to 100 * x, over 100. */
  lemma Hundredths(n: int, x: real)
    requires -0.5 <= n as real - x * 100.0 <= 0.5
    ensures IsHundredths(n as real / 100.0)
    ensures -0.005 <= n as real / 100.0 - x <= 0.005
  {
    var r := n as real / 100.0;
    assert r * 100.0 == n as real;
    assert r - x == (n as real - x * 100.0) / 100.0;
  }

  /** round(x, 2): the nearest number of hundredths, ties to even. */
  function Round2(x: real): (r: real)
    ensures IsHundredths(r)
    ensures -0.005 <= r - x <= 0.005
  {
    var n := RoundHalfEven(x * 100.0);
    Hundredths(n, x);
    n as real / 100.0
  }

  /** Rounding a value that already has two decimals leaves it unchanged. */
  lemma Round2Fixes(x: real)
    requires IsHundredths(x)
    ensures Round2(x) == x
  {
    var y := x * 100.0;
    assert y.Floor as real == y;
    assert RoundHalfEven(y) == y.Floor;
  }

  /** Rounding twice is rounding once. */
  lemma Round2Idempotent(x: real)
    ensures Round2(Round2(x)) == Round2(x)
  {
    Round2Fixes(Round2(x));
  }

  /** sum(xs), accumulated left to right as Python's sum does. */
  function Sum(xs: seq<real>): real
  {
    if |xs| == 0 then 0.0 else Sum(xs[..|xs| - 1]) + xs[|xs| - 1]
  }

  /** sum(xs) / len(xs). */
  function Mean(xs: seq<real>): (m: real)
    requires |xs| > 0
    ensures m * |xs| as real == Sum(xs)
  {
    Sum(xs) / |xs| as real
  }

  /** The sum of n copies of v is n * v. */
  lemma {:induction false} SumConstant(xs: seq<real>, v: real)
    requires forall i :: 0 <= i < |xs| ==> xs[i] == v
    ensures Sum(xs) == |xs| as real * v
  {
    if |xs| > 0 {
      SumConstant(xs[..|xs| - 1], v);
    }
  }

  /** The mean of identical samples is that sample. */
  lemma MeanConstant(xs: seq<real>, v: real)
    requires |xs| > 0
    requires forall i :: 0 <= i < |xs| ==> xs[i] == v
    ensures Mean(xs) == v
  {
    SumConstant(xs, v);
  }

  /** A numpy float64: a finite value, nan, or an infinity (signed zeros are
      not distinguished). */
  datatype Float = Finite(x: real) | NaN | Inf(negative: bool)

  /** numpy.mean of a list of Python floats: nan for the empty list. */
  function NpMean(xs: seq<real>): (r: Float)
    ensures r.NaN? <==> |xs| == 0
    ensures r.Finite? ==> r.x * |xs| as real == Sum(xs)
  {
    if |xs| == 0 then NaN else Finite(Mean(xs))
  }

  /** float64 division as numpy performs it: no exception, nan or inf instead. */
  function Div(a: Float, b: Float): (r: Float)
    ensures a.Finite? && b.Finite? && b.x != 0.0 ==> r.Finite? && r.x * b.x == a.x
    ensures a.NaN? || b.NaN? ==> r.NaN?
    ensures a.Finite? && b.Finite? && b.x == 0.0 ==> (r.NaN? <==> a.x == 0.0)
  {
    match (a, b)
    case (NaN, _) => NaN
    case (_, NaN) => NaN
    case (Finite(p), Finite(q)) =>
      if q != 0.0 then Finite(p / q)
      else if p == 0.0 then NaN
      else Inf(p < 0.0)
    case (Finite(_), Inf(_)) => Finite(0.0)
    case (Inf(s), Finite(q)) => if q < 0.0 then Inf(!s) else Inf(s)
    case (Inf(_), Inf(_)) => NaN
  }

  /** float64 multiplication as numpy performs it. */
  function Mul(a: Float, b: Float): (r: Float)
    ensures a.Finite? && b.Finite? ==> r == Finite(a.x * b.x)
    ensures a.NaN? || b.NaN? ==> r.NaN?
  {
    if a.NaN? || b.NaN? then NaN
    else if a.Finite? && b.Finite? then Finite(a.x * b.x)
    else if a.Finite? then (if a.x == 0.0 then NaN else Inf(if a.x < 0.0 then !b.negative else b.negative))
    else if b.Finite? then (if b.x == 0.0 then NaN else Inf(if b.x < 0.0 then !a.negative else a.negative))
    else Inf(a.negative != b.negative)
  }

  function DigitChar(d: nat): (c: char)
    requires d < 10
    ensures '0' <= c <= '9'
  {
    "0123456789"[d]
  }

  predicate AllDigits(s: string) {
    forall i :: 0 <= i < |s| ==> '0' <= s[i] <= '9'
  }

  /** str(n) for a non-negative integer. */
  function Digits(n: nat): (s: string)
    ensures |s| >= 1 && AllDigits(s)
  {
    if n < 10 then [DigitChar(n)] else Digits(n / 10) + [DigitChar(n % 10)]
  }

  /** The text f"{x:.2f}" gives for a float64: "nan", "inf", "-inf", or a sign
      (kept for negative values that round to zero), the integer part, a point
      and exactly two decimals. */
  function Format2(f: Float): (s: string)
    ensures f.Finite? ==> |s| >= 4 && s[|s| - 3] == '.' && AllDigits(s[|s| - 2..])
    ensures f.Finite? ==> (s[0] == '-' <==> f.x < 0.0)
  {
    match f
    case NaN => "nan"
    case Inf(negative) => if negative then "-inf" else "inf"
    case Finite(x) =>
      var n := RoundHalfEven(x * 100.0);
      var a: nat := if n < 0 then -n else n;
      var sign := if x < 0.0 then "-" else "";
      var s := sign + Digits(a / 100) + "." + [DigitChar((a % 100) / 10), DigitChar(a % 10)];
      assert s[|s| - 2..] == [DigitChar((a % 100) / 10), DigitChar(a % 10)];
      s
  }
}
