/** Numeric vocabulary shared by the controller and firmware models: plane
    vectors, the platform math library (kept uninterpreted), and the rounding
    and integer-division operators of Python and C written out explicitly,
    because Dafny's own `/` and `%` on `int` are Euclidean. */
module Numeric {

  /** Python's `math.pi`, a double literal, as an exact real. */
  const PY_PI: real := 3.141592653589793

  /** The Arduino core's `PI` macro, as an exact real. */
  const ARDUINO_PI: real := 3.1415926535897932384626433832795

  /** A numpy vector of two components. */
  datatype Vec2 = Vec2(x: real, y: real) {
    function Plus(o: Vec2): Vec2 { Vec2(x + o.x, y + o.y) }
    function Minus(o: Vec2): Vec2 { Vec2(x - o.x, y - o.y) }
    function Scale(k: real): Vec2 { Vec2(k * x, k * y) }
    function Div(k: real): Vec2 requires k != 0.0 { Vec2(x / k, y / k) }
    function SqNorm(): real { x * x + y * y }
  }

  const ORIGIN: Vec2 := Vec2(0.0, 0.0)

  /** The floating-point math library (`math`, `numpy`, `<math.h>`). Its
      functions are uninterpreted: a model only learns about them what a
      predicate such as SqrtSound states. */
  datatype MathLib = MathLib(
    sqrt: real -> real,
    cos: real -> real,
    sin: real -> real,
    acos: real -> real,
    atan2: (real, real) -> real,
    pow: (real, real) -> real)

  /** `sqrt` returns the non-negative square root of every non-negative input. */
  ghost predicate SqrtSound(m: MathLib) {
    forall v: real :: 0.0 <= v ==> 0.0 <= m.sqrt(v) && m.sqrt(v) * m.sqrt(v) == v
  }

  /** Squaring is strictly monotone on the non-negative reals. */
  lemma SquareMonotone(a: real, b: real)
    requires 0.0 <= a < b
    ensures a * a < b * b
  {
    assert b * b - a * a == (b - a) * (b + a);
    assert 0.0 < b - a && 0.0 < b + a;
  }

  /** The square root of a square is the non-negative base. */
  lemma SqrtOfSquare(m: MathLib, v: real)
    requires SqrtSound(m) && 0.0 <= v
    ensures m.sqrt(v * v) == v
  {
    var r := m.sqrt(v * v);
    assert 0.0 <= r && r * r == v * v;
    if r < v {
      SquareMonotone(r, v);
    } else if v < r {
      SquareMonotone(v, r);
    }
  }

  /** `sqrt` is monotone: comparing a root with a non-negative bound is the
      same as comparing the radicand with the bound's square. */
  lemma SqrtAtMost(m: MathLib, v: real, c: real)
    requires SqrtSound(m) && 0.0 <= v && 0.0 <= c
    ensures m.sqrt(v) <= c <==> v <= c * c
  {
    var r := m.sqrt(v);
    assert 0.0 <= r && r * r == v;
    if r < c {
      SquareMonotone(r, c);
    } else if c < r {
      SquareMonotone(c, r);
    }
  }

  /** The same monotonicity for a strict upper bound. */
  lemma SqrtBelow(m: MathLib, v: real, c: real)
    requires SqrtSound(m) && 0.0 <= v && 0.0 <= c
    ensures m.sqrt(v) < c <==> v < c * c
  {
    var r := m.sqrt(v);
    assert 0.0 <= r && r * r == v;
    if r < c {
      SquareMonotone(r, c);
    } else if c < r {
      SquareMonotone(c, r);
    }
  }

  function Abs(v: real): real { if v < 0.0 then -v else v }

  lemma SquareNonNegative(a: real)
    ensures 0.0 <= a * a
  {
    if a < 0.0 {
      assert a * a == (-a) * (-a);
    }
  }

  lemma SqNormNonNegative(v: Vec2)
    ensures 0.0 <= v.SqNorm()
  {
    SquareNonNegative(v.x);
    SquareNonNegative(v.y);
  }

  /** Scaling a vector by `k` scales its squared length by `k * k`. */
  lemma ScaleSqNorm(v: Vec2, k: real)
    ensures v.Scale(k).SqNorm() == k * k * v.SqNorm()
  {
    assert (k * v.x) * (k * v.x) == k * k * (v.x * v.x);
    assert (k * v.y) * (k * v.y) == k * k * (v.y * v.y);
  }

  /** Dividing by the root of `s` and squaring cancels `s`. */
  lemma UnitRescale(s: real, n: real, c: real)
    requires n != 0.0 && n * n == s
    ensures (c / n) * (c / n) * s == c * c
  {
    var q := c / n;
    assert q * n == c;
    assert q * q * s == (q * n) * (q * n);
  }

  /** A product of positive reals is positive. */
  lemma MulPositive(a: real, b: real)
    requires 0.0 < a && 0.0 < b
    ensures 0.0 < a * b
  {
  }

  /** A quotient by a positive real has the dividend's sign. */
  lemma DivSign(a: real, b: real)
    requires 0.0 < b
    ensures (0.0 < a ==> 0.0 < a / b) && (a < 0.0 ==> a / b < 0.0) && (a == 0.0 ==> a / b == 0.0)
  {
  }

  /** Dividing by a positive real keeps the absolute value's quotient. */
  lemma AbsDivPositive(a: real, b: real)
    requires 0.0 < b
    ensures Abs(a / b) == Abs(a) / b
  {
    if a < 0.0 {
      assert -(a / b) == (-a) / b;
    }
  }

  /** Quotients by the same divisor add up. */
  lemma DivAdd(a: real, b: real, n: real)
    requires n != 0.0
    ensures a / n + b / n == (a + b) / n
  {
    assert (a / n) * n == a && (b / n) * n == b;
    assert (a / n + b / n) * n == a + b;
  }

  lemma AbsMul(a: real, b: real)
    ensures Abs(a * b) == Abs(a) * Abs(b)
  {
    if a < 0.0 {
      if b < 0.0 {
        assert a * b == (-a) * (-b);
      } else {
        assert -(a * b) == (-a) * b;
      }
    } else if b < 0.0 {
      assert -(a * b) == a * (-b);
    }
  }

  /** Scaling an integer inequality by a non-negative factor keeps it. */
  lemma MulLeft(a: int, b: int, c: int)
    requires a <= b && 0 <= c
    ensures a * c <= b * c
  {
    assert b * c - a * c == (b - a) * c;
  }

  /** Division by a positive divisor brackets the dividend. */
  lemma DivBrackets(a: int, b: int)
    requires 0 < b
    ensures (a / b) * b <= a < (a / b + 1) * b
  {
    assert a == (a / b) * b + a % b;
  }

  /** The quotient is the only integer that brackets the dividend. */
  lemma DivUnique(a: int, b: int, q: int)
    requires 0 < b && q * b <= a < (q + 1) * b
    ensures q == a / b
  {
    DivBrackets(a, b);
    if q < a / b {
      MulLeft(q + 1, a / b, b);
    } else if a / b < q {
      MulLeft(a / b + 1, q, b);
    }
  }

  function Max(a: int, b: int): int { if a < b then b else a }

  function Min(a: int, b: int): int { if a < b then a else b }

  /** `b ** e` for a natural exponent. */
  function Pow(b: real, e: nat): (r: real)
    ensures 0.0 < b ==> 0.0 < r
  {
    if e == 0 then 1.0 else b * Pow(b, e - 1)
  }

  /** Python's built-in `round(v)`: nearest integer, ties to the even one. */
  function RoundHalfEven(v: real): (r: int)
    ensures Abs(r as real - v) <= 0.5
  {
    var f := v.Floor;
    var d := v - f as real;
    if d < 0.5 then f
    else if d > 0.5 then f + 1
    else if f % 2 == 0 then f
    else f + 1
  }

  /** An integer rounds to itself. */
  lemma RoundHalfEvenOfInt(k: int)
    ensures RoundHalfEven(k as real) == k
  {
    assert (k as real).Floor == k;
  }

  /** Rounding a value in [0, k] stays in [0, k]. */
  lemma RoundHalfEvenWithin(v: real, k: int)
    requires 0.0 <= v <= k as real
    ensures 0 <= RoundHalfEven(v) <= k
  {
    var f := v.Floor;
    assert 0 <= f <= k;
    if f == k {
      assert v == k as real;
    }
  }

  /** Python's `round(v, 1)` on exact reals: one decimal, ties to even. */
  function Round1(v: real): real {
    RoundHalfEven(v * 10.0) as real / 10.0
  }

  /** A C conversion from a floating value to an integral type: truncation
      toward zero. */
  function TruncReal(v: real): (r: int)
    ensures Abs(r as real) <= Abs(v) < Abs(r as real) + 1.0
    ensures (0.0 <= v ==> 0 <= r) && (v <= 0.0 ==> r <= 0)
  {
    if 0.0 <= v then v.Floor else -((-v).Floor)
  }

  /** Python's `a // b`: the quotient rounded toward minus infinity. */
  function FloorDiv(a: int, b: int): (q: int)
    requires b != 0
  {
    if 0 < b then a / b else (-a) / (-b)
  }

  /** C's `a / b` on integers: the quotient truncated toward zero. */
  function TruncDiv(a: int, b: int): (q: int)
    requires b != 0
  {
    var q := (if a < 0 then -a else a) / (if b < 0 then -b else b);
    if (a < 0) != (b < 0) then -q else q
  }

  /** Python's `//` agrees with the floor of the exact quotient. */
  lemma FloorDivIsFloor(a: int, b: int)
    requires b != 0
    ensures b > 0 ==> FloorDiv(a, b) * b <= a < (FloorDiv(a, b) + 1) * b
    ensures b < 0 ==> FloorDiv(a, b) * b >= a > (FloorDiv(a, b) + 1) * b
  {
    if b < 0 {
      var q := (-a) / (-b);
      assert q * (-b) <= -a < (q + 1) * (-b);
    }
  }

  /** C's `/` never moves away from zero by more than the exact quotient. */
  lemma TruncDivBounds(a: int, b: int)
    requires 0 < b
    ensures 0 <= a ==> TruncDiv(a, b) * b <= a < (TruncDiv(a, b) + 1) * b
    ensures a < 0 ==> (TruncDiv(a, b) - 1) * b < a <= TruncDiv(a, b) * b
  {
    if a < 0 {
      var q := (-a) / b;
      assert q * b <= -a < (q + 1) * b;
    }
  }
}
