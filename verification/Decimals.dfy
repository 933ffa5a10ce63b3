/** Rounding of exact decimal values, taken as reals. */
module Decimals {

  /** The nearest integer, ties to the even one. */
  function HalfEven(x: real): int {
    var f := x.Floor;
    var d := x - f as real;
    if d < 0.5 then f
    else if d > 0.5 then f + 1
    else if f % 2 == 0 then f else f + 1
  }

  /** n is what half-even rounding yields if and only if it is within half a unit of x, and
      even when it is exactly half a unit away. */
  lemma HalfEvenIff(x: real, n: int)
    ensures n == HalfEven(x) <==>
      -0.5 <= n as real - x <= 0.5 && ((n as real - x == 0.5 || n as real - x == -0.5) ==> n % 2 == 0)
  {
    var f := x.Floor;
    if -0.5 <= n as real - x <= 0.5 {
      assert n == f || n == f + 1;
    }
  }

  /** Quantizing to four decimals, half-even. */
  function Quantize4(x: real): real { HalfEven(x * 10000.0) as real / 10000.0 }

  lemma Quantize4Error(x: real)
    ensures -0.00005 <= Quantize4(x) - x <= 0.00005
  {
    HalfEvenIff(x * 10000.0, HalfEven(x * 10000.0));
  }

  /** Values that have four decimals are left alone. */
  lemma Quantize4Exact(x: real, n: int)
    requires x * 10000.0 == n as real
    ensures Quantize4(x) == x
  {
    HalfEvenIff(x * 10000.0, n);
  }

  /** Quantizing to eight decimals, toward zero. */
  function Truncate8(x: real): real {
    var y := x * 100000000.0;
    (if y >= 0.0 then y.Floor else -((-y).Floor)) as real / 100000000.0
  }

  lemma Truncate8Below(x: real)
    requires x >= 0.0
    ensures 0.0 <= Truncate8(x) <= x < Truncate8(x) + 0.00000001
  {
  }

  // ------------------------------------------------------------------ meaning

  ghost predicate TenThousandths(y: real, n: int) { y * 10000.0 == n as real }

  ghost predicate HundredMillionths(y: real, n: int) { y * 100000000.0 == n as real }

  /** n units of the fourth decimal are nearest to x, and even on a tie. */
  ghost predicate Nearest4(x: real, n: int) {
    var d := n as real - x * 10000.0;
    -0.5 <= d <= 0.5 && (d == 0.5 || d == -0.5 ==> n % 2 == 0)
  }

  /** y is x rounded to four decimals: the nearest such value, on a tie the even one. */
  ghost predicate Rounded4(x: real, y: real) {
    exists n: int :: TenThousandths(y, n) && Nearest4(x, n)
  }

  lemma Quantize4Iff(x: real, y: real)
    ensures y == Quantize4(x) <==> Rounded4(x, y)
  {
    var m := HalfEven(x * 10000.0);
    HalfEvenIff(x * 10000.0, m);
    assert TenThousandths(Quantize4(x), m) && Nearest4(x, m);
    if Rounded4(x, y) {
      var n: int :| TenThousandths(y, n) && Nearest4(x, n);
      HalfEvenIff(x * 10000.0, n);
      assert n == m;
    }
  }

  /** y is x cut to eight decimals: toward zero, by less than a unit. */
  ghost predicate Cut8(x: real, y: real) {
    && (exists n: int :: HundredMillionths(y, n))
    && (x >= 0.0 ==> 0.0 <= y <= x < y + 0.00000001)
    && (x <= 0.0 ==> y - 0.00000001 < x <= y <= 0.0)
  }

  lemma Truncate8Iff(x: real, y: real)
    ensures y == Truncate8(x) <==> Cut8(x, y)
  {
    var z := x * 100000000.0;
    var n := if z >= 0.0 then z.Floor else -((-z).Floor);
    assert HundredMillionths(Truncate8(x), n);
    if Cut8(x, y) {
      var m: int :| HundredMillionths(y, m);
      assert m == n;
    }
  }

  /** A cut value is positive exactly from one unit on. */
  lemma Truncate8Positive(x: real)
    ensures Truncate8(x) > 0.0 <==> x >= 0.00000001
  {
  }
}
