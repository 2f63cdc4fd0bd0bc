/** Integer arithmetic used by the gear layout: Java's `x >> 1` and the
    truncated division of an int by the square root of two. */
module Arith {

  function Abs(x: int): nat
  {
    if x < 0 then -x else x
  }

  /** Java's arithmetic shift `x >> 1` on an int: the floor of x / 2, for
      either sign of x (Dafny's `/` by a positive divisor is the floor). */
  function Half(x: int): (h: int)
    ensures 2 * h <= x < 2 * h + 2
  {
    x / 2
  }

  lemma SquareMonotone(a: nat, b: nat)
    requires a <= b
    ensures a * a <= b * b
  {
    assert a * a <= a * b;
  }

  /** Doubling a root of m / 4 gives a root of m up to its last bit. */
  lemma IsqrtStep(m: nat, t: nat)
    ensures t * t <= m / 4 < (t + 1) * (t + 1) ==>
              (2 * t) * (2 * t) <= m < (2 * t + 2) * (2 * t + 2)
  {
    var q := m / 4;
    assert m == 4 * q + m % 4;
    var a := t * t;
    var b := (t + 1) * (t + 1);
    assert (2 * t) * (2 * t) == 4 * a;
    assert (2 * t + 2) * (2 * t + 2) == 4 * b;
    if a <= q < b {
      assert 4 * a <= 4 * q;
      assert 4 * q + 4 <= 4 * b;
    }
  }

  /** The integer square root: the largest r whose square does not exceed m.
      Each step doubles the root of m / 4 and corrects the last bit. */
  function Isqrt(m: nat): (r: nat)
    ensures r * r <= m < (r + 1) * (r + 1)
    decreases m
  {
    if m == 0 then 0
    else
      var t := Isqrt(m / 4);
      IsqrtStep(m, t);
      var s := 2 * t;
      var u := s + 1;
      if u * u <= m then u else s
  }

  /** Two magnitudes that both satisfy 2 a^2 <= m < 2 (a + 1)^2 are equal. */
  lemma HalfRootUnique(m: int, a: nat, b: nat)
    requires 2 * (a * a) <= m < 2 * ((a + 1) * (a + 1))
    requires 2 * (b * b) <= m < 2 * ((b + 1) * (b + 1))
    ensures a == b
  {
    if a < b {
      SquareMonotone(a + 1, b);
    } else if b < a {
      SquareMonotone(b + 1, a);
    }
  }

  /** `(int) (n / Math.sqrt(2))` computed exactly: n / sqrt(2) truncated
      toward zero, i.e. the sign of n times the largest magnitude a with
      2 a^2 <= n^2. */
  function DiagonalOffset(n: int): (d: int)
    ensures 2 * (Abs(d) * Abs(d)) <= n * n < 2 * ((Abs(d) + 1) * (Abs(d) + 1))
    ensures n >= 0 ==> d >= 0
    ensures n <= 0 ==> d <= 0
  {
    var m := n * n;
    var k: int := Isqrt(m / 2);
    assert m == 2 * (m / 2) + m % 2;
    if n < 0 then -k else k
  }

  /** The offset is the only value with the sign of n and
      2 d^2 <= n^2 < 2 (|d| + 1)^2, so the bounds above pin it down. */
  lemma DiagonalOffsetUnique(n: int, d: int)
    requires 2 * (Abs(d) * Abs(d)) <= n * n < 2 * ((Abs(d) + 1) * (Abs(d) + 1))
    requires n >= 0 ==> d >= 0
    requires n <= 0 ==> d <= 0
    ensures d == DiagonalOffset(n)
  {
    HalfRootUnique(n * n, Abs(d), Abs(DiagonalOffset(n)));
  }

  /** Truncation toward zero makes the offset an odd function of n,
      and so zero at zero. */
  lemma DiagonalOffsetOdd(n: int)
    ensures DiagonalOffset(-n) == -DiagonalOffset(n)
    ensures DiagonalOffset(0) == 0
  {
    var d := DiagonalOffset(n);
    assert (-n) * (-n) == n * n;
    assert Abs(-d) == Abs(d);
    DiagonalOffsetUnique(-n, -d);
  }

  /** Squaring is strictly monotone on naturals, so it can be undone on bounds. */
  lemma RootMonotone(a: nat, b: nat)
    requires a * a <= b * b
    ensures a <= b
  {
    if b < a {
      SquareMonotone(b + 1, a);
    }
  }

  /** Half a square bounds the square of a magnitude no larger than the root. */
  lemma HalfSquareBelow(a: nat, m: int, b: nat)
    requires 2 * (a * a) <= m
    requires m == b * b
    ensures a <= b
  {
    assert a * a <= b * b;
    RootMonotone(a, b);
  }

  /** The offset is never larger in size than n itself. */
  lemma DiagonalOffsetBound(n: int)
    ensures Abs(DiagonalOffset(n)) <= Abs(n)
  {
    var b := Abs(n);
    if n < 0 {
      assert n * n == b * b by { assert b == -n; }
    }
    HalfSquareBelow(Abs(DiagonalOffset(n)), n * n, b);
  }

  /** Two or more pixels of overlap distance give a diagonal offset of at least one. */
  lemma DiagonalOffsetPositive(n: int)
    ensures n >= 2 ==> DiagonalOffset(n) >= 1
  {
    if n >= 2 {
      SquareMonotone(2, n);
    }
  }
}
