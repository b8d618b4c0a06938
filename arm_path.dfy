/** The arm elevation path: a list of N points that rises along a vertical
    segment, continues along a slanted segment, and ends at a fixed point.
    Each segment gets a share of the points proportional to its length, and
    every coordinate is rounded to one decimal. */
module ArmPath {

  import opened Numeric

  const VERTICAL_START: Vec2 := Vec2(-10.0, -2.0)
  const VERTICAL_END: Vec2 := Vec2(-10.0, 20.0)
  const CURVE_START: Vec2 := Vec2(-10.0, 20.0)
  const CURVE_END: Vec2 := Vec2(-40.0, 69.0)
  const FINAL_POINT: Vec2 := Vec2(0.0, 80.0)

  /** `generate_path`'s failures: a zero total length, and `pop` on an empty
      list. */
  datatype PathError = ZeroDivisionError | IndexError

  datatype Result<T> = Ok(value: T) | Err(error: PathError)

  /** `calculate_distance(start, end)`. */
  function CalculateDistance(m: MathLib, s: Vec2, e: Vec2): real {
    m.sqrt(e.Minus(s).SqNorm())
  }

  /** With an exact square root the distance is the Euclidean one: not
      negative, its square is the sum of the squared coordinate differences,
      and it does not depend on the direction. */
  lemma DistanceIsEuclidean(m: MathLib, s: Vec2, e: Vec2)
    requires SqrtSound(m)
    ensures var d := CalculateDistance(m, s, e);
      0.0 <= d && d * d == (e.x - s.x) * (e.x - s.x) + (e.y - s.y) * (e.y - s.y)
    ensures CalculateDistance(m, s, e) == CalculateDistance(m, e, s)
  {
    SqNormNonNegative(e.Minus(s));
    assert e.Minus(s).SqNorm() == s.Minus(e).SqNorm();
  }

  /** Point `i` of `n` on the segment from `s` to `e`: `s + (i / n)(e - s)`,
      each coordinate rounded to one decimal. */
  function LinePoint(n: int, i: int, s: Vec2, e: Vec2): Vec2
    requires n != 0
  {
    var t := Fraction(i, n);
    Vec2(Round1(Lerp(s.x, e.x, t)), Round1(Lerp(s.y, e.y, t)))
  }

  /** `i / n`, Python's true division. */
  function Fraction(i: int, n: int): real
    requires n != 0
  {
    i as real / n as real
  }

  /** `a + t * (b - a)`. */
  function Lerp(a: real, b: real, t: real): real {
    a + t * (b - a)
  }

  /** The points `generate_line_points(n, s, e)` returns: `range(n)` is empty
      for `n <= 0`. */
  function LinePoints(n: int, s: Vec2, e: Vec2): seq<Vec2> {
    if n <= 0 then [] else seq(n, i requires 0 <= i < n => LinePoint(n, i, s, e))
  }

  /** `generate_line_points(n, s, e)`: one point per `i` in `range(n)`. */
  method GenerateLinePoints(n: int, s: Vec2, e: Vec2) returns (points: seq<Vec2>)
    ensures points == LinePoints(n, s, e)
  {
    points := [];
    if n <= 0 {
      return;
    }
    for i := 0 to n
      invariant |points| == i
      invariant forall k :: 0 <= k < i ==> points[k] == LinePoint(n, k, s, e)
    {
      var t := Fraction(i, n);
      var x := Round1(Lerp(s.x, e.x, t));
      var y := Round1(Lerp(s.y, e.y, t));
      points := points + [Vec2(x, y)];
    }
  }

  /** Rounding to one decimal moves a value by at most 0.05. */
  lemma Round1Within(v: real)
    ensures Abs(Round1(v) - v) <= 0.05
  {
    var r := RoundHalfEven(v * 10.0);
    assert Abs(r as real - v * 10.0) <= 0.5;
    assert Round1(v) - v == (r as real - v * 10.0) / 10.0;
  }

  /** A whole number is its own one-decimal rounding. */
  lemma Round1OfInt(k: int)
    ensures Round1(k as real) == k as real
  {
    RoundHalfEvenOfInt(k * 10);
    assert (k as real) * 10.0 == (k * 10) as real;
  }

  /** Point `i` lies within 0.05 per coordinate of the exact point
      `s + (i / n)(e - s)`, and `0 <= i / n < 1`. */
  lemma LinePointNear(n: int, i: int, s: Vec2, e: Vec2)
    requires 0 <= i < n
    ensures var t := Fraction(i, n);
      0.0 <= t < 1.0 &&
      Abs(LinePoint(n, i, s, e).x - Lerp(s.x, e.x, t)) <= 0.05 &&
      Abs(LinePoint(n, i, s, e).y - Lerp(s.y, e.y, t)) <= 0.05
  {
    var t := Fraction(i, n);
    assert t * n as real == i as real;
    Round1Within(Lerp(s.x, e.x, t));
    Round1Within(Lerp(s.y, e.y, t));
  }

  /** `generate_line_points` yields `n` points for a positive `n` and none
      otherwise; point `i` lies within 0.05 per coordinate of the exact point
      at fraction `i / n` of the segment, a fraction in [0, 1). */
  lemma LinePointsShape(n: int, s: Vec2, e: Vec2)
    ensures |LinePoints(n, s, e)| == if n <= 0 then 0 else n
    ensures forall i :: 0 <= i < |LinePoints(n, s, e)| ==>
      var t := Fraction(i, n);
      0.0 <= t < 1.0 &&
      Abs(LinePoints(n, s, e)[i].x - Lerp(s.x, e.x, t)) <= 0.05 &&
      Abs(LinePoints(n, s, e)[i].y - Lerp(s.y, e.y, t)) <= 0.05
  {
    forall i | 0 <= i < |LinePoints(n, s, e)|
      ensures var t := Fraction(i, n);
        0.0 <= t < 1.0 &&
        Abs(LinePoints(n, s, e)[i].x - Lerp(s.x, e.x, t)) <= 0.05 &&
        Abs(LinePoints(n, s, e)[i].y - Lerp(s.y, e.y, t)) <= 0.05
    {
      LinePointNear(n, i, s, e);
    }
  }

  /** The first point is the start when its coordinates are whole numbers,
      and on a segment of constant whole `x` every point keeps that `x`. */
  lemma LinePointsFromStart(n: int, s: Vec2, e: Vec2, sx: int, sy: int)
    requires s == Vec2(sx as real, sy as real)
    ensures n > 0 ==> LinePoints(n, s, e)[0] == s
    ensures e.x == s.x ==> forall i :: 0 <= i < |LinePoints(n, s, e)| ==> LinePoints(n, s, e)[i].x == s.x
  {
    Round1OfInt(sx);
    Round1OfInt(sy);
    if n > 0 {
      assert Lerp(s.x, e.x, Fraction(0, n)) == s.x && Lerp(s.y, e.y, Fraction(0, n)) == s.y;
      assert LinePoints(n, s, e)[0] == LinePoint(n, 0, s, e);
    }
    if e.x == s.x {
      forall i | 0 <= i < |LinePoints(n, s, e)|
        ensures LinePoints(n, s, e)[i].x == s.x
      {
        assert Lerp(s.x, e.x, Fraction(i, n)) == s.x;
      }
    }
  }

  /** `vertical_points`: the vertical segment's share of the `N - 1` gaps,
      rounded half to even, plus one. */
  function VerticalCount(verticalLength: real, totalLength: real, n: int): int
    requires totalLength != 0.0
  {
    RoundHalfEven(Share(verticalLength, totalLength, n)) + 1
  }

  /** `(vertical_length / total_length) * (N - 1)`. */
  function Share(verticalLength: real, totalLength: real, n: int): real
    requires totalLength != 0.0
  {
    verticalLength / totalLength * (n - 1) as real
  }

  /** The path `generate_path(N)` returns: the vertical points less the last
      one generated, the curve points, and the final point; or the error
      it raises. */
  function PathOf(m: MathLib, n: int): Result<seq<Vec2>> {
    var verticalLength := CalculateDistance(m, VERTICAL_START, VERTICAL_END);
    var curveLength := CalculateDistance(m, CURVE_START, CURVE_END);
    var totalLength := verticalLength + curveLength;
    if totalLength == 0.0 then Err(ZeroDivisionError)
    else
      var verticalPoints := VerticalCount(verticalLength, totalLength, n);
      var curvePoints := (n - 1) - (verticalPoints - 1);
      var vertical := LinePoints(verticalPoints, VERTICAL_START, VERTICAL_END);
      if vertical == [] then Err(IndexError)
      else Ok(vertical[..|vertical| - 1] + LinePoints(curvePoints, CURVE_START, CURVE_END) + [FINAL_POINT])
  }

  /** `generate_path(N)`: extend with the vertical points, pop the last one,
      extend with the curve points, append the final point. */
  method GeneratePath(m: MathLib, n: int) returns (r: Result<seq<Vec2>>)
    ensures r == PathOf(m, n)
  {
    var verticalLength := CalculateDistance(m, VERTICAL_START, VERTICAL_END);
    var curveLength := CalculateDistance(m, CURVE_START, CURVE_END);
    var totalLength := verticalLength + curveLength;
    if totalLength == 0.0 {
      return Err(ZeroDivisionError);
    }
    var verticalPoints := RoundHalfEven(Share(verticalLength, totalLength, n)) + 1;
    var curvePoints := (n - 1) - (verticalPoints - 1);
    var allPoints: seq<Vec2> := [];
    var vertical := GenerateLinePoints(verticalPoints, VERTICAL_START, VERTICAL_END);
    allPoints := allPoints + vertical;
    assert allPoints == vertical;
    if allPoints == [] {
      return Err(IndexError);
    }
    allPoints := allPoints[..|allPoints| - 1];
    var curve := GenerateLinePoints(curvePoints, CURVE_START, CURVE_END);
    allPoints := allPoints + curve;
    allPoints := allPoints + [FINAL_POINT];
    return Ok(allPoints);
  }

  /** A share of a positive total is a fraction in [0, 1]. */
  lemma ShareIsFraction(a: real, b: real)
    requires 0.0 <= a && 0.0 <= b && 0.0 < a + b
    ensures 0.0 <= a / (a + b) <= 1.0
  {
    var s := a + b;
    DivAdd(a, b, s);
    assert s / s == 1.0;
    DivSign(a, s);
    DivSign(b, s);
  }

  /** A fraction of a non-negative amount lies between 0 and the amount. */
  lemma FractionOf(q: real, k: real)
    requires 0.0 <= q <= 1.0 && 0.0 <= k
    ensures 0.0 <= q * k <= k
  {
    assert k - q * k == (1.0 - q) * k;
  }

  /** The vertical segment is 22 long. */
  lemma VerticalLength(m: MathLib)
    requires SqrtSound(m)
    ensures CalculateDistance(m, VERTICAL_START, VERTICAL_END) == 22.0
  {
    assert VERTICAL_END.Minus(VERTICAL_START).SqNorm() == 22.0 * 22.0;
    SqrtOfSquare(m, 22.0);
  }

  /** With an exact square root and `N >= 1`, the vertical segment gets
      between 1 and N points. */
  lemma VerticalCountInRange(m: MathLib, n: int)
    requires SqrtSound(m) && 1 <= n
    ensures var vl := CalculateDistance(m, VERTICAL_START, VERTICAL_END);
      var tl := vl + CalculateDistance(m, CURVE_START, CURVE_END);
      tl != 0.0 && 1 <= VerticalCount(vl, tl, n) <= n
  {
    var vl := CalculateDistance(m, VERTICAL_START, VERTICAL_END);
    var cl := CalculateDistance(m, CURVE_START, CURVE_END);
    VerticalLength(m);
    DistanceIsEuclidean(m, CURVE_START, CURVE_END);
    var tl := vl + cl;
    assert 0.0 < tl;
    ShareIsFraction(vl, cl);
    FractionOf(vl / tl, (n - 1) as real);
    assert 0.0 <= Share(vl, tl, n) <= (n - 1) as real;
    RoundHalfEvenWithin(Share(vl, tl, n), n - 1);
  }

  /** The assembled path for `vp` vertical points out of `n`. */
  function Assembled(vp: int, n: int): seq<Vec2>
    requires 1 <= vp
  {
    LinePoints(vp, VERTICAL_START, VERTICAL_END)[..vp - 1] +
    LinePoints(n - vp, CURVE_START, CURVE_END) + [FINAL_POINT]
  }

  /** Keeping `vp - 1` of `vp` vertical points, then `n - vp` curve points and
      the final point, gives `n` points: the vertical ones at x = -10, then
      the curve, then (0, 80). */
  lemma AssembledShape(vp: int, n: int)
    requires 1 <= vp <= n
    ensures var p := Assembled(vp, n);
      |p| == n && p[n - 1] == FINAL_POINT &&
      (forall k :: 0 <= k < vp - 1 ==> p[k].x == -10.0) &&
      p[vp - 1..n - 1] == LinePoints(n - vp, CURVE_START, CURVE_END)
  {
    LinePointsShape(vp, VERTICAL_START, VERTICAL_END);
    LinePointsShape(n - vp, CURVE_START, CURVE_END);
    LinePointsFromStart(vp, VERTICAL_START, VERTICAL_END, -10, -2);
    var vertical := LinePoints(vp, VERTICAL_START, VERTICAL_END)[..vp - 1];
    var curve := LinePoints(n - vp, CURVE_START, CURVE_END);
    var p := vertical + curve + [FINAL_POINT];
    assert p[vp - 1..n - 1] == curve;
    forall k | 0 <= k < vp - 1
      ensures p[k].x == -10.0
    {
      assert p[k] == LinePoints(vp, VERTICAL_START, VERTICAL_END)[k];
    }
  }

  /** With an exact square root and `N >= 1`, `generate_path(N)` returns
      exactly N points: `vertical_points - 1` points at x = -10, then
      `N - vertical_points` curve points, then the final point (0, 80). */
  lemma PathHasNPoints(m: MathLib, n: int)
    requires SqrtSound(m) && 1 <= n
    ensures var vl := CalculateDistance(m, VERTICAL_START, VERTICAL_END);
      var tl := vl + CalculateDistance(m, CURVE_START, CURVE_END);
      tl != 0.0 && 1 <= VerticalCount(vl, tl, n) <= n &&
      PathOf(m, n) == Ok(Assembled(VerticalCount(vl, tl, n), n))
  {
    VerticalCountInRange(m, n);
    var vl := CalculateDistance(m, VERTICAL_START, VERTICAL_END);
    var tl := vl + CalculateDistance(m, CURVE_START, CURVE_END);
    LinePointsShape(VerticalCount(vl, tl, n), VERTICAL_START, VERTICAL_END);
  }

  /** The vertical point `pop()` removes is the last one generated, at
      fraction `(vp - 1) / vp` of the segment: its height is within 0.05 of
      `20 - 22 / vp`, so for fewer than 440 vertical points it is not the
      segment's end (-10, 20), which `generate_line_points` never reaches. */
  lemma PoppedVerticalPoint(vp: int)
    requires 1 <= vp
    ensures var popped := LinePoints(vp, VERTICAL_START, VERTICAL_END)[vp - 1];
      popped.x == -10.0 && Abs(popped.y - (20.0 - 22.0 / vp as real)) <= 0.05 &&
      (vp < 440 ==> popped != VERTICAL_END)
  {
    LinePointsShape(vp, VERTICAL_START, VERTICAL_END);
    LinePointsFromStart(vp, VERTICAL_START, VERTICAL_END, -10, -2);
    var t := Fraction(vp - 1, vp);
    assert t == 1.0 - 1.0 / vp as real;
    assert Lerp(-2.0, 20.0, t) == 20.0 - 22.0 / vp as real;
    if vp < 440 {
      assert 0.05 < 22.0 / vp as real;
    }
  }
}
