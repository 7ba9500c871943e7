/** Numeric conventions shared by the model.

    Probabilities, risks and costs are reals. The C# code computes with
    doubles; the only place where a double's special values change what the
    program does is the evidence score, which divides by a sum that can be
    zero, so a small `Double` type keeps the infinities and NaN that such a
    division yields. The two rounding conversions of the data handling
    (`Math.Ceiling` and `Convert.ToInt32`) are written out on reals. */
module Numerics {

  /** The mean of a Bernoulli distribution. */
  type Prob = p: real | 0.0 <= p <= 1.0

  function Abs(x: real): (r: real)
    ensures r >= 0.0 && (r == x || r == -x)
  {
    if x < 0.0 then -x else x
  }

  function Min(a: int, b: int): int { if a <= b then a else b }

  /** A C# double: a finite value, the negative zero, or one of the other
      values a division by zero gives. `Finite(0.0)` is the positive
      zero. */
  datatype Double = Finite(value: real) | NegativeZero | PositiveInfinity | NegativeInfinity | NaN

  /** `a / b` for finite operands, a zero operand being the positive zero:
      a zero over a negative number is the negative zero, and a division by
      zero gives an infinity of the numerator's sign, or NaN. */
  function Divide(a: real, b: real): (r: Double)
    ensures b != 0.0 <==> r.Finite? || r.NegativeZero?
    ensures r.Finite? ==> r.value * b == a
    ensures r.NegativeZero? <==> a == 0.0 && b < 0.0
    ensures r.NaN? <==> a == 0.0 && b == 0.0
  {
    if b != 0.0 then (if a == 0.0 && b < 0.0 then NegativeZero else Finite(a / b))
    else if a > 0.0 then PositiveInfinity
    else if a < 0.0 then NegativeInfinity
    else NaN
  }

  /** `1.0 / r`: the reciprocal of a zero is the infinity of its sign, and
      that of an infinity the zero of its sign. */
  function Reciprocal(r: Double): Double
  {
    match r
    case Finite(v) => Divide(1.0, v)
    case NegativeZero => NegativeInfinity
    case PositiveInfinity => Finite(0.0)
    case NegativeInfinity => NegativeZero
    case NaN => NaN
  }

  /** The real a finite double stands for; both zeros stand for 0. */
  function RealOf(a: Double): real
    requires a.Finite? || a.NegativeZero?
  {
    if a.NegativeZero? then 0.0 else a.value
  }

  /** IEEE `<` between two doubles: false whenever NaN takes part. */
  predicate Less(a: Double, b: Double)
  {
    !a.NaN? && !b.NaN? && Precedes(a, b)
  }

  /** `Math.Max(a, b)`: NaN if either operand is NaN, else the larger one. */
  function Max(a: Double, b: Double): Double
  {
    if a.NaN? || b.NaN? then NaN
    else if Less(a, b) then b
    else a
  }

  /** The rank of a double in the order `Comparer<double>.Default` uses for
      sorting: NaN first, then negative infinity, the finite values (both
      zeros among them) and positive infinity. */
  function Rank(a: Double): int
  {
    match a
    case NaN => 0
    case NegativeInfinity => 1
    case Finite(_) => 2
    case NegativeZero => 2
    case PositiveInfinity => 3
  }

  /** `Comparer<double>.Default.Compare(a, b) < 0`: `a` sorts strictly
      before `b` in the order `OrderBy` sorts doubles in. Unlike `<`, it
      orders NaN (before everything else). The two zeros compare equal. */
  predicate Precedes(a: Double, b: Double)
  {
    Rank(a) < Rank(b) ||
    ((a.Finite? || a.NegativeZero?) && (b.Finite? || b.NegativeZero?) && RealOf(a) < RealOf(b))
  }

  /** The evidence score `Math.Max(r, 1.0 / r)`. */
  function Score(r: Double): Double
  {
    Max(r, Reciprocal(r))
  }

  /** For a positive ratio the score is at least one. */
  lemma ScoreAtLeastOne(v: real)
    requires v > 0.0
    ensures Score(Finite(v)).Finite? && Score(Finite(v)).value >= 1.0
  {
    var inv := 1.0 / v;
    assert inv * v == 1.0;
    if v < 1.0 {
      assert inv > 1.0;
    }
  }

  /** Replacing the ratio by its reciprocal leaves the score unchanged. */
  lemma ScoreOfReciprocal(v: real)
    requires v != 0.0
    ensures Reciprocal(Finite(v)).Finite?
    ensures Score(Reciprocal(Finite(v))) == Score(Finite(v))
  {
    var inv := 1.0 / v;
    assert inv * v == 1.0;
    assert inv != 0.0;
    assert 1.0 / inv == v;
  }

  /** The reciprocal of a quotient is the quotient the other way round. */
  lemma DivFlip(a: real, b: real)
    requires a != 0.0 && b != 0.0
    ensures 1.0 / (a / b) == b / a
  {
    var q := a / b;
    var r := b / a;
    assert q * b == a;
    assert r * a == b;
    assert (q * r) * (a * b) == (q * b) * (r * a);
    assert a * b != 0.0;
    assert q * r == 1.0;
  }

  /** `(int)Math.Ceiling(x)`. */
  function Ceiling(x: real): (n: int)
    ensures x <= n as real < x + 1.0
  {
    if x.Floor as real == x then x.Floor else x.Floor + 1
  }

  /** `Convert.ToInt32(x)`: round to nearest, ties to the even integer. */
  function RoundHalfEven(x: real): (n: int)
    ensures x - 0.5 <= n as real <= x + 0.5
    ensures x - x.Floor as real != 0.5 ==> x - 0.5 < n as real < x + 0.5
    ensures x - x.Floor as real == 0.5 ==> n % 2 == 0
    ensures x.Floor as real == x ==> n == x.Floor
  {
    var f := x.Floor;
    var d := x - f as real;
    if d < 0.5 then f
    else if d > 0.5 then f + 1
    else if f % 2 == 0 then f
    else f + 1
  }

  /** Sign rules of real multiplication, stated once for the proofs. */
  lemma MulSigns(a: real, b: real)
    ensures a >= 0.0 && b >= 0.0 ==> a * b >= 0.0
    ensures a > 0.0 && b > 0.0 ==> a * b > 0.0
    ensures a != 0.0 && b != 0.0 ==> a * b != 0.0
  {
    if a > 0.0 && b > 0.0 {
      assert a * b > 0.0 * b;
    }
  }

  /** A square is non-negative. */
  lemma Square(a: real)
    ensures a * a >= 0.0
  {
    if a < 0.0 {
      assert a * a == (-a) * (-a);
      assert (-a) * (-a) > 0.0 * (-a);
    } else if a > 0.0 {
      assert a * a > 0.0 * a;
    }
  }
}
