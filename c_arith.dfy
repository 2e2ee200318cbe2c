/**
  C integer semantics on the 32-bit controllers the planner runs on: `long` and
  `unsigned long` are 32 bits wide, `/` truncates toward zero, a signed value
  assigned to an unsigned one is reduced modulo 2^32, and unsigned products wrap.
  Dafny's integers are unbounded and its `/` is Euclidean, so each of these is
  written out here.
 */
module CArith {

  const LONG_MIN: int := -0x8000_0000
  const LONG_MAX: int := 0x7FFF_FFFF
  /** 2^32, the modulus of `unsigned long` arithmetic */
  const ULONG_MODULUS: int := 0x1_0000_0000

  predicate IsLong(x: int) { LONG_MIN <= x <= LONG_MAX }
  predicate IsULong(x: int) { 0 <= x < ULONG_MODULUS }

  /** A value of the C type `long` (32 bits, signed) */
  type Long = x: int | LONG_MIN <= x <= LONG_MAX
  /** A value of the C type `unsigned long` (32 bits) */
  type ULong = x: int | 0 <= x < ULONG_MODULUS

  function Abs(x: int): (r: nat)
    ensures r == x || r == -x
  {
    if x >= 0 then x else -x
  }

  /** C's `/` for a positive divisor: the quotient truncated toward zero.
      TruncDivBounds states how it brackets `a`. */
  function TruncDiv(a: int, b: int): (q: int)
    requires b > 0
    ensures a >= 0 ==> q >= 0
    ensures a <= 0 ==> q <= 0
    ensures Abs(q) <= Abs(a)
  {
    var n := Abs(a) / b;
    QuotientBounds(Abs(a), b);
    if a >= 0 then n else -n
  }

  /** `TruncDiv(a, b)` is the signed whole number of `b`s in `a`. */
  lemma TruncDivBounds(a: int, b: int)
    requires b > 0
    ensures Abs(TruncDiv(a, b)) * b <= Abs(a) < (Abs(TruncDiv(a, b)) + 1) * b
  {
    QuotientBounds(Abs(a), b);
    assert Abs(TruncDiv(a, b)) == Abs(a) / b;
  }

  /** Conversion of a signed value to `unsigned long`: reduction modulo 2^32. */
  function ToULong(x: int): (r: ULong)
    ensures (x - r) % ULONG_MODULUS == 0
    ensures IsULong(x) ==> r == x
  {
    x % ULONG_MODULUS
  }

  /** `a * b` on `unsigned long`: the product wraps modulo 2^32. */
  function MulULong(a: ULong, b: ULong): (r: ULong)
    ensures (a * b - r) % ULONG_MODULUS == 0
    ensures r <= a * b
    ensures a * b < ULONG_MODULUS ==> r == a * b
  {
    MulMonotone(0, a, b);
    (a * b) % ULONG_MODULUS
  }

  /**
    The integer part of the square root of `n`: what `(long) sqrt((double) n)`
    yields when the floating-point square root is exact. ISqrtBounds states
    that it is.
   */
  function ISqrt(n: nat): (r: nat) {
    RootAndSquare(n).0
  }

  /**
    The root of `n` digit by binary digit, from the root of `n / 4`, paired with
    its square so that each step only adds: `(2h + 1)^2 = 4h^2 + 4h + 1`.
   */
  function RootAndSquare(n: nat): (rs: (nat, nat)) {
    if n == 0 then (0, 0)
    else
      var (h, hh) := RootAndSquare(n / 4);
      var s, ss := 2 * h, 4 * hh;
      if ss + 2 * s + 1 <= n then (s + 1, ss + 2 * s + 1) else (s, ss)
  }

  /** `x^2` as the sum of the first `x` odd numbers, so that proofs about it stay linear */
  function Sq(x: nat): (s: nat) {
    if x == 0 then 0 else Sq(x - 1) + 2 * x - 1
  }

  lemma {:induction false} SqIsProduct(x: nat)
    ensures Sq(x) == x * x
  {
    if x > 0 {
      SqIsProduct(x - 1);
      assert (x - 1) * (x - 1) == x * x - 2 * x + 1;
    }
  }

  lemma {:induction false} SqDouble(h: nat)
    ensures Sq(2 * h) == 4 * Sq(h)
  {
    if h > 0 {
      SqDouble(h - 1);
      assert Sq(2 * h) == Sq(2 * (h - 1)) + 8 * h - 4;
    }
  }

  lemma ISqrtBounds(n: nat)
    ensures ISqrt(n) * ISqrt(n) <= n < (ISqrt(n) + 1) * (ISqrt(n) + 1)
  {
    var r := ISqrt(n);
    RootAndSquareBounds(n);
    RootAndSquareSquares(n);
    SqIsProduct(r);
    SqIsProduct(r + 1);
  }

  /** The square component brackets `n`, in the root component's terms. */
  lemma {:induction false} RootAndSquareBounds(n: nat)
    ensures RootAndSquare(n).1 <= n < RootAndSquare(n).1 + 2 * RootAndSquare(n).0 + 1
  {
    if n > 0 {
      RootAndSquareBounds(n / 4);
    }
  }

  /** The square component is the square of the root component. */
  lemma {:induction false} RootAndSquareSquares(n: nat)
    ensures RootAndSquare(n).1 == Sq(RootAndSquare(n).0)
  {
    if n > 0 {
      var h := RootAndSquare(n / 4).0;
      RootAndSquareSquares(n / 4);
      SqDouble(h);
      assert Sq(2 * h + 1) == Sq(2 * h) + 4 * h + 1;
    }
  }

  /** A root of `x^2 + y^2`, rounded down, is at least `|x|` and `|y|`. */
  lemma LegsBelowRoot(x: int, y: int, r: nat)
    requires r * r <= x * x + y * y < (r + 1) * (r + 1)
    ensures Abs(x) <= r && Abs(y) <= r
  {
    SquareOfAbs(x);
    SquareOfAbs(y);
    SquareBelow(Abs(x), r, x * x + y * y);
    SquareBelow(Abs(y), r, x * x + y * y);
  }

  /** Squares are never negative (and square `Abs(x)` alike). */
  lemma SquareOfAbs(x: int)
    ensures x * x == Abs(x) * Abs(x) >= 0
  {
    MulMonotone(0, Abs(x), Abs(x));
  }

  /** A natural number whose square is below `(r + 1)^2` is at most `r`. */
  lemma SquareBelow(a: nat, r: nat, n: int)
    requires a * a <= n < (r + 1) * (r + 1)
    ensures a <= r
  {
    if a > r {
      MulMonotone(r + 1, a, r + 1);
      MulMonotone(r + 1, a, a);
    }
  }

  /** The quotient of a natural number by a positive one, bracketed by products. */
  lemma QuotientBounds(a: nat, b: int)
    requires b > 0
    ensures (a / b) * b <= a < (a / b + 1) * b
    ensures 0 <= a / b <= a
  {
    var n := a / b;
    assert a == n * b + a % b;
    assert (n + 1) * b == n * b + b;
    MulMonotone(1, b, n);
  }

  lemma MulMonotone(a: int, b: int, p: int)
    requires a <= b && p >= 0
    ensures a * p <= b * p
  {
    assert b * p - a * p == (b - a) * p;
  }

  /** `x * p <= y` makes `x` at most the quotient `y / p`. */
  lemma LeDivOfMulLe(x: int, y: int, p: int)
    requires p > 0 && x * p <= y
    ensures x <= y / p
  {
    var q := y / p;
    assert y == q * p + y % p;
    if x > q {
      MulMonotone(q + 1, x, p);
    }
  }

  /** `y < x * p` makes the quotient `y / p` smaller than `x`. */
  lemma DivLtOfLtMul(y: int, x: int, p: int)
    requires p > 0 && y < x * p
    ensures y / p < x
  {
    var q := y / p;
    assert y == q * p + y % p;
    if q >= x {
      MulMonotone(x, q, p);
    }
  }

  /** Division by a positive divisor is monotone. */
  lemma DivMonotone(a: int, b: int, p: int)
    requires p > 0 && a <= b
    ensures a / p <= b / p
  {
    assert a == (a / p) * p + a % p;
    LeDivOfMulLe(a / p, b, p);
  }
}
