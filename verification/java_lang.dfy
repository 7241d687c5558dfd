/**
 * The parts of Java's `int` arithmetic and exceptions that the tab adapter relies on.
 * Java's `/` on `int` rounds toward zero (section 15.17.2 of the Java Language
 * Specification), unlike Dafny's Euclidean `/`, and `Integer.MIN_VALUE / -1` overflows
 * back to `Integer.MIN_VALUE`.
 */
module JavaLang {

  const MIN_INT: int := -0x8000_0000
  const MAX_INT: int := 0x7fff_ffff

  /** Java's 32-bit `int`. */
  type int32 = x: int | MIN_INT <= x <= MAX_INT

  /** The exceptions the modelled code can raise. */
  datatype Exception =
    | IllegalArgumentException(message: string)
    | ArithmeticException(message: string)

  function Abs(x: int): nat {
    if x < 0 then -x else x
  }

  /** Java's unary minus on `int`: `-Integer.MIN_VALUE` overflows back to `Integer.MIN_VALUE`. */
  function Negate(x: int32): int32 {
    if x == MIN_INT then MIN_INT else -x
  }

  /** Division rounded toward zero, on unbounded integers. */
  function TruncDiv(a: int, b: int): int
    requires b != 0
  {
    if (a < 0) == (b < 0) then Abs(a) / Abs(b) else -(Abs(a) / Abs(b))
  }

  /** `q * d` grows with `d` for a non-negative `q`. */
  lemma ScaleAtLeast(q: nat, d: nat, c: nat)
    requires c <= d
    ensures c * q <= q * d
  {
  }

  /** The quotient's magnitude never exceeds the dividend's, and is at most half of it when |b| >= 2. */
  lemma QuotientMagnitude(a: int, b: int)
    requires b != 0
    ensures Abs(TruncDiv(a, b)) <= Abs(a)
    ensures Abs(b) >= 2 ==> 2 * Abs(TruncDiv(a, b)) <= Abs(a)
  {
    var m, d := Abs(a), Abs(b);
    var q := m / d;
    assert Abs(TruncDiv(a, b)) == q;
    assert q * d <= m;
    ScaleAtLeast(q, d, 1);
    if d >= 2 {
      ScaleAtLeast(q, d, 2);
    }
  }

  /** Java's `a / b` on `int` (the caller has already excluded `b == 0`, which throws). */
  function Div(a: int32, b: int32): (q: int32)
    requires b != 0
    ensures a == MIN_INT && b == -1 ==> q == MIN_INT
    ensures !(a == MIN_INT && b == -1) ==> q == TruncDiv(a, b)
  {
    if a == MIN_INT && b == -1 then MIN_INT
    else
      QuotientMagnitude(a, b);
      TruncDiv(a, b)
  }

  /** Negation moves in and out of a product. */
  lemma NegatedProducts(k: int, d: int)
    ensures (-k) * (-d) == k * d
    ensures k * (-d) == -(k * d)
    ensures (-k) * d == -(k * d)
  {
  }

  /** `q * b` is `|q| * |b|` carrying the sign of `a`. */
  lemma TruncProduct(a: int, b: int)
    requires b != 0
    ensures TruncDiv(a, b) * b == (if a >= 0 then 1 else -1) * ((Abs(a) / Abs(b)) * Abs(b))
  {
    var k, d := Abs(a) / Abs(b), Abs(b);
    NegatedProducts(k, d);
    if a == 0 {
      assert k == 0;
    }
  }

  /**
   * Rounding toward zero: `q * b` lies between 0 and `a`, within `|b|` of `a`,
   * so the remainder `a - q * b` has the sign of `a` and is smaller than `|b|`.
   */
  lemma TruncDivRoundsTowardZero(a: int, b: int)
    requires b != 0
    ensures var q := TruncDiv(a, b);
      && Abs(q * b) <= Abs(a) < Abs(q * b) + Abs(b)
      && (a >= 0 ==> q * b >= 0)
      && (a <= 0 ==> q * b <= 0)
  {
    var m, d := Abs(a), Abs(b);
    var p: int := (m / d) * d;
    assert p <= m < p + d;
    TruncProduct(a, b);
    assert TruncDiv(a, b) * b == if a >= 0 then p else -p;
  }

  /** For a non-negative dividend and a positive divisor Java's `/` is Dafny's floor division. */
  lemma DivNonNegative(a: int32, b: int32)
    requires a >= 0 && b > 0
    ensures Div(a, b) == a / b
    ensures Div(a, b) >= 0
    ensures Div(a, b) * b <= a < (Div(a, b) + 1) * b
  {
    assert Abs(a) == a && Abs(b) == b;
    assert TruncDiv(a, b) == a / b;
    var q := a / b;
    assert Div(a, b) == q;
    assert a == q * b + a % b && 0 <= a % b < b;
    if q < 0 {
      ScaleAtLeast(b, -q, 1);
      NegatedProducts(q, b);
      assert false;
    }
    assert (q + 1) * b == q * b + b;
  }
}
