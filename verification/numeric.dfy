/** Real-number helpers shared by the kinematics model, and the transcendental
    functions of the host platform's math library.

    The arm model works on exact reals. The math library functions the program
    calls (square root, two-argument arc tangent, arc cosine, cosine and sine)
    are not computed here: they are carried as a record of function values, and
    `Lawful` states the only facts about them that the proofs rely on — their
    standard ranges and the defining equation of the square root. */
module Numeric {

  /** A decimal stand-in for pi: the 16 digits the platform prints for it,
      slightly below both the platform constant and pi itself. */
  const Pi: real := 3.141592653589793

  function Abs(a: real): (r: real)
    ensures 0.0 <= r
    ensures r == a || r == -a
  {
    if a < 0.0 then -a else a
  }

  function Max(a: real, b: real): (r: real)
    ensures a <= r && b <= r
    ensures r == a || r == b
  {
    if a >= b then a else b
  }

  function Min(a: real, b: real): (r: real)
    ensures r <= a && r <= b
    ensures r == a || r == b
  {
    if a <= b then a else b
  }

  function Sq(a: real): real {
    a * a
  }

  /** The math library functions the arm code calls, as opaque function values. */
  datatype Transcendental = Transcendental(
    sqrt: real -> real,
    atan2: (real, real) -> real,
    acos: real -> real,
    cos: real -> real,
    sin: real -> real)

  /** The standard facts about the math library: the square root of a
      non-negative number is non-negative and squares back to it; atan2 lies in
      [-pi, pi]; acos maps [-1, 1] into [0, pi]; cos and sin lie in [-1, 1]. */
  ghost predicate Lawful(m: Transcendental) {
    && (forall a :: 0.0 <= a ==> 0.0 <= m.sqrt(a) && Sq(m.sqrt(a)) == a)
    && (forall y, x :: -Pi <= m.atan2(y, x) <= Pi)
    && (forall c :: -1.0 <= c <= 1.0 ==> 0.0 <= m.acos(c) <= Pi)
    && (forall a :: -1.0 <= m.cos(a) <= 1.0)
    && (forall a :: -1.0 <= m.sin(a) <= 1.0)
  }

  /** The square-root fact of `Lawful`, at one argument. */
  lemma SqrtLaw(m: Transcendental, a: real)
    requires Lawful(m) && 0.0 <= a
    ensures 0.0 <= m.sqrt(a) && Sq(m.sqrt(a)) == a
  {
  }

  /** The square root of 0 is 0. */
  lemma SqrtZero(m: Transcendental)
    requires Lawful(m)
    ensures m.sqrt(0.0) == 0.0
  {
    SqrtLaw(m, 0.0);
    SquareMonotone(m.sqrt(0.0), 0.0);
  }

  /** The square root of a positive number is positive. */
  lemma SqrtPositive(m: Transcendental, a: real)
    requires Lawful(m) && 0.0 < a
    ensures 0.0 < m.sqrt(a)
  {
    SqrtLaw(m, a);
    SquareMonotone(m.sqrt(a), 0.0);
  }

  lemma ProductPositive(a: real, b: real)
    requires 0.0 < a && 0.0 < b
    ensures 0.0 < a * b
  {
  }

  lemma ProductNonNegative(a: real, b: real)
    requires 0.0 <= a && 0.0 <= b
    ensures 0.0 <= a * b
  {
  }

  /** Squaring is monotone on the non-negative reals, in both directions. */
  lemma SquareMonotone(a: real, b: real)
    requires 0.0 <= a && 0.0 <= b
    ensures a <= b <==> Sq(a) <= Sq(b)
  {
    if a <= b {
      assert Sq(b) - Sq(a) == (b - a) * (a + b);
      ProductNonNegative(b - a, a + b);
    } else {
      assert Sq(a) - Sq(b) == (a - b) * (a + b);
      ProductPositive(a - b, a + b);
    }
  }

  /** The square of a real and the square of its absolute value agree. */
  lemma AbsSquare(a: real)
    ensures Sq(Abs(a)) == Sq(a)
  {
    if a < 0.0 {
      assert (-a) * (-a) == a * a;
    }
  }

  lemma SquareNonNegative(a: real)
    ensures 0.0 <= Sq(a)
  {
    AbsSquare(a);
    SquareMonotone(0.0, Abs(a));
  }

  lemma SquarePositive(a: real)
    requires a != 0.0
    ensures 0.0 < Sq(a)
  {
    AbsSquare(a);
    SquareMonotone(Abs(a), 0.0);
  }

  lemma SumOfSquaresPositive(x: real, y: real)
    requires x != 0.0 || y != 0.0
    ensures 0.0 < Sq(x) + Sq(y)
  {
    SquareNonNegative(x);
    SquareNonNegative(y);
    if x != 0.0 {
      SquarePositive(x);
    } else {
      SquarePositive(y);
    }
  }

  /** A ratio whose numerator is bounded in size by its positive denominator lies in [-1, 1]. */
  lemma RatioInUnit(num: real, den: real)
    requires 0.0 < den
    requires -den <= num <= den
    ensures -1.0 <= num / den <= 1.0
  {
    var q := num / den;
    assert q * den == num;
  }
}
