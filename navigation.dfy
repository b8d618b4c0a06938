/** The potential-field navigator of the controller: a circle of waypoints
    around the scanned object, force points that push or pull the robot, and
    the step (turn, then 5 cm forward) computed from their summed forces. */
module Navigation {

  import opened Wrappers
  import opened Numeric

  /** `STEP_DISTANCE`: every step moves 5 cm. */
  const STEP_DISTANCE: real := 5.0

  /** Below this distance a force point contributes nothing. */
  const NEAR: real := 0.1

  /** `ForcePoint`'s defaults: force norm 1, distance order 1. */
  const DEFAULT_FORCE_NORM: real := 1.0
  const DEFAULT_DIST_ORDER: nat := 1

  /** `add_obstacle` passes force 1, which repels only under the code's own
      sign; with the documented sign an obstacle has the opposite force. */
  const OBSTACLE_FORCE_AS_WRITTEN: real := 1.0
  const OBSTACLE_FORCE: real := -1.0
  const OBSTACLE_ORDER: nat := 4

  /** The exceptions the navigator's code paths raise, and the NaN that a
      zero total force turns into. */
  datatype Failure = AttributeError | IndexError | ValueError | ZeroDivisionError | NotANumber

  /** A point exerting a force `force / d^order` along the line from it. */
  datatype ForcePoint = ForcePoint(pos: Vec2, force: real, order: nat)

  /** A trajectory entry: the point to reach and its angle on the circle. */
  datatype Waypoint = Waypoint(point: ForcePoint, angle: real)

  /** A step: the turn relative to the current heading, then the distance. */
  datatype Step = Step(angle: real, distance: real)

  /** `math.radians(a)` for a whole number of degrees. */
  function Radians(deg: int): real {
    deg as real * PY_PI / 180.0
  }

  /** A whole degree in 0..359 is an angle in [0, 2 pi). */
  lemma RadiansWithinTurn(deg: int)
    requires 0 <= deg <= 359
    ensures 0.0 <= Radians(deg) < 2.0 * PY_PI
  {
    assert deg as real * PY_PI <= 359.0 * PY_PI;
  }

  /** Conversion to radians is strictly increasing. */
  lemma RadiansIncrease(a: int, b: int)
    requires a < b
    ensures Radians(a) < Radians(b)
  {
    assert b as real * PY_PI - a as real * PY_PI == (b - a) as real * PY_PI;
  }

  /** `np.linalg.norm(v, ord)` of a plane vector: the count of non-zero
      components for order 0, and `(|x|^ord + |y|^ord)^(1/ord)` otherwise. */
  function Norm(m: MathLib, v: Vec2, ord: nat): real {
    if ord == 0 then (if v.x != 0.0 then 1.0 else 0.0) + (if v.y != 0.0 then 1.0 else 0.0)
    else if ord == 1 then Norm1(v)
    else if ord == 2 then m.sqrt(v.SqNorm())
    else m.pow(Pow(Abs(v.x), ord) + Pow(Abs(v.y), ord), 1.0 / ord as real)
  }

  /** The order-1 (taxicab) norm. */
  function Norm1(v: Vec2): real {
    Abs(v.x) + Abs(v.y)
  }

  /** The field of a force point along `d`, the vector between the robot
      and the point: nothing when `d` is shorter than `NEAR`; otherwise the
      unit vector `d / |d|` scaled by `force / |d|^order`. */
  function Field(m: MathLib, d: Vec2, force: real, order: nat): Vec2 {
    var n := Norm(m, d, order);
    if n < NEAR then ORIGIN
    else d.Div(n).Scale(force / Pow(n, order))
  }

  /** `get_contribution(at)` as written: `dist = at - pos`, so a positive
      force points from the force point to the robot. */
  function ContributionAsWritten(m: MathLib, p: ForcePoint, at: Vec2): Vec2 {
    Field(m, at.Minus(p.pos), p.force, p.order)
  }

  /** `get_contribution(at)` with the sign the class documents: a positive
      force (an object to reach) pulls the robot toward the point, a negative
      one (an obstacle) pushes it away. */
  function Contribution(m: MathLib, p: ForcePoint, at: Vec2): Vec2 {
    Field(m, p.pos.Minus(at), p.force, p.order)
  }

  /** Scaling `v / n` by `a` is scaling `v` by `a / n`. */
  lemma ScaleOfDiv(v: Vec2, n: real, a: real)
    requires n != 0.0
    ensures v.Div(n).Scale(a) == v.Scale(a / n)
  {
    assert a * (v.x / n) == (a / n) * v.x;
    assert a * (v.y / n) == (a / n) * v.y;
  }

  /** A force point acts along the line between it and the robot: a positive
      force pulls the robot toward the point, a negative one pushes it away,
      and within `NEAR` of the point there is no force at all. */
  lemma ContributionAlongLine(m: MathLib, p: ForcePoint, at: Vec2)
    ensures var c := Contribution(m, p, at);
      var d := p.pos.Minus(at);
      (Norm(m, d, p.order) < NEAR ==> c == ORIGIN) &&
      (Norm(m, d, p.order) >= NEAR ==> exists k: real :: (c == d.Scale(k) &&
        (0.0 < p.force ==> 0.0 < k) && (p.force < 0.0 ==> k < 0.0) && (p.force == 0.0 ==> k == 0.0)))
  {
    var d := p.pos.Minus(at);
    var n := Norm(m, d, p.order);
    if n >= NEAR {
      var w := Pow(n, p.order);
      var a := p.force / w;
      DivSign(p.force, w);
      DivSign(a, n);
      ScaleOfDiv(d, n, a);
      assert Contribution(m, p, at) == d.Scale(a / n);
    }
  }

  /** Every norm is blind to the sign of the vector. */
  lemma NormOfNegation(m: MathLib, d: Vec2, ord: nat)
    ensures Norm(m, d.Scale(-1.0), ord) == Norm(m, d, ord)
  {
    assert Abs(-1.0 * d.x) == Abs(d.x) && Abs(-1.0 * d.y) == Abs(d.y);
    assert d.Scale(-1.0).SqNorm() == d.SqNorm();
  }

  /** As written every force point acts with its sign flipped: the code's
      contribution of a point is the documented contribution of the same
      point with the opposite force. */
  lemma AsWrittenFlipsEverySign(m: MathLib, p: ForcePoint, at: Vec2)
    ensures ContributionAsWritten(m, p, at) == Contribution(m, p.(force := -p.force), at)
  {
    var d := at.Minus(p.pos);
    var e := p.pos.Minus(at);
    assert e == d.Scale(-1.0);
    NormOfNegation(m, d, p.order);
    var n := Norm(m, d, p.order);
    if n >= NEAR {
      var a := p.force / Pow(n, p.order);
      var b := -p.force / Pow(n, p.order);
      assert b == -a;
      ScaleOfDiv(d, n, a);
      ScaleOfDiv(e, n, b);
      assert e.Scale(b / n) == Vec2(b / n * -d.x, b / n * -d.y);
      assert b / n * -d.x == a / n * d.x && b / n * -d.y == a / n * d.y;
    }
  }

  /** The input that shows it: a waypoint of force 1 at (10, 0) pushes a
      robot at the origin toward negative x as written, and pulls it toward
      the waypoint with the documented sign. */
  lemma AsWrittenWaypointPushesAway(m: MathLib, q: ForcePoint)
    requires q == ForcePoint(Vec2(10.0, 0.0), 1.0, 1)
    ensures ContributionAsWritten(m, q, ORIGIN) == Vec2(-0.1, 0.0)
    ensures Contribution(m, q, ORIGIN) == Vec2(0.1, 0.0)
  {
    var d := ORIGIN.Minus(q.pos);
    var e := q.pos.Minus(ORIGIN);
    assert Norm(m, d, 1) == 10.0;
    assert Norm(m, e, 1) == 10.0;
    assert Pow(10.0, q.order) == 10.0;
  }

  /** The corrected obstacle pushes exactly as the code's obstacle does:
      flipping both the sign of the field and the obstacle's force leaves
      every obstacle's contribution unchanged. */
  lemma ObstaclePushUnchanged(m: MathLib, pos: Vec2, at: Vec2)
    ensures Contribution(m, ForcePoint(pos, OBSTACLE_FORCE, OBSTACLE_ORDER), at) ==
      ContributionAsWritten(m, ForcePoint(pos, OBSTACLE_FORCE_AS_WRITTEN, OBSTACLE_ORDER), at)
  {
    AsWrittenFlipsEverySign(m, ForcePoint(pos, OBSTACLE_FORCE_AS_WRITTEN, OBSTACLE_ORDER), at);
  }

  /** With the default order 1 the contribution's order-1 norm is the force
      norm divided by the distance: an inverse-distance field. */
  lemma OrderOneInverseDistance(m: MathLib, p: ForcePoint, at: Vec2)
    requires p.order == 1
    requires Norm1(p.pos.Minus(at)) >= NEAR
    ensures Norm1(Contribution(m, p, at)) == Abs(p.force) / Norm1(p.pos.Minus(at))
  {
    var d := p.pos.Minus(at);
    var n := Norm1(d);
    assert Pow(n, 1) == n;
    var c := d.Div(n).Scale(p.force / n);
    assert Contribution(m, p, at) == c;
    UnitOrderOne(d);
    OrderOneNormScale(d.Div(n), p.force / n);
    AbsDivPositive(p.force, n);
  }

  /** The order-1 norm is absolutely homogeneous. */
  lemma OrderOneNormScale(v: Vec2, k: real)
    ensures Norm1(v.Scale(k)) == Abs(k) * Norm1(v)
  {
    AbsMul(k, v.x);
    AbsMul(k, v.y);
  }

  /** Dividing a vector by its order-1 norm gives a vector of order-1 norm 1. */
  lemma UnitOrderOne(v: Vec2)
    requires Norm1(v) != 0.0
    ensures Norm1(v.Div(Norm1(v))) == 1.0
  {
    var n := Norm1(v);
    assert 0.0 < n;
    AbsDivPositive(v.x, n);
    AbsDivPositive(v.y, n);
    var a, b := Abs(v.x), Abs(v.y);
    DivAdd(a, b, n);
    assert a + b == n;
    assert Norm1(v.Div(n)) == a / n + b / n;
    assert n / n == 1.0;
  }

  /** The points of the circle: one every `360 // step_nbr` degrees from 0
      up to 359. */
  function CircleCount(step: int): nat {
    if step <= 0 then 0 else 359 / step + 1
  }

  function CirclePoint(m: MathLib, radius: real, deg: int): Waypoint {
    var a := Radians(deg);
    Waypoint(ForcePoint(Vec2(radius * m.cos(a), radius * m.sin(a)), DEFAULT_FORCE_NORM, DEFAULT_DIST_ORDER), a)
  }

  /** The waypoints `set_circle_trajectory(radius, step_nbr)` lays out, or the
      exception it raises: `360 // 0` divides by zero and a step of 0 (more
      than 360 points asked) is refused by `range`; a negative count gives an
      empty range. */
  function CircleTrajectory(m: MathLib, radius: real, stepNbr: int): Result<seq<Waypoint>, Failure> {
    if stepNbr == 0 then Err(ZeroDivisionError)
    else
      var step := FloorDiv(360, stepNbr);
      if step == 0 then Err(ValueError)
      else Ok(seq(CircleCount(step), i => CirclePoint(m, radius, i * step)))
  }

  /** For a count in 1..360 the step is at least 1 and the circle holds at
      least that many points, exactly that many when the count divides 360. */
  lemma CountCoversSteps(stepNbr: int)
    requires 0 < stepNbr <= 360
    ensures 1 <= 360 / stepNbr && CircleCount(360 / stepNbr) >= stepNbr
    ensures 360 % stepNbr == 0 ==> CircleCount(360 / stepNbr) == stepNbr
  {
    var step := 360 / stepNbr;
    DivBrackets(360, stepNbr);
    assert (stepNbr - 1) * step == step * stepNbr - step <= 359;
    DivBrackets(359, step);
    if 359 / step < stepNbr - 1 {
      MulLeft(359 / step + 1, stepNbr - 1, step);
    }
    if 360 % stepNbr == 0 {
      assert step * stepNbr == 360;
      DivUnique(359, step, stepNbr - 1);
    }
  }

  /** Every point of the circle lies at a whole degree in 0..359. */
  lemma CircleDegrees(step: int, i: int)
    requires 0 < step && 0 <= i < CircleCount(step)
    ensures 0 <= i * step <= 359
  {
    DivBrackets(359, step);
    MulLeft(i, 359 / step, step);
    MulLeft(0, i, step);
  }

  /** A list holding the circle point `i * step` at every index, as long as
      the first multiple of the step at or past 360, is the circle. */
  lemma CircleLaidOut(m: MathLib, radius: real, stepNbr: int, t: seq<Waypoint>)
    requires stepNbr != 0 && 0 < FloorDiv(360, stepNbr)
    requires var step := FloorDiv(360, stepNbr);
      360 <= |t| * step <= 359 + step &&
      forall i :: 0 <= i < |t| ==> t[i] == CirclePoint(m, radius, i * step)
    ensures CircleTrajectory(m, radius, stepNbr) == Ok(t)
  {
    var step := FloorDiv(360, stepNbr);
    var k := |t|;
    assert (k - 1) * step == k * step - step;
    DivUnique(359, step, k - 1);
    assert |t| == CircleCount(step);
    assert t == seq(CircleCount(step), i => CirclePoint(m, radius, i * step));
  }

  /** The number of points: exactly `step_nbr` when it divides 360, never
      fewer for a count in 1..360, none for a negative count, and an error
      otherwise. */
  lemma CircleTrajectoryCount(m: MathLib, radius: real, stepNbr: int)
    ensures CircleTrajectory(m, radius, stepNbr).Err? <==> stepNbr == 0 || stepNbr > 360
    ensures stepNbr < 0 ==> CircleTrajectory(m, radius, stepNbr) == Ok([])
    ensures 0 < stepNbr <= 360 ==> |CircleTrajectory(m, radius, stepNbr).value| >= stepNbr
    ensures 0 < stepNbr <= 360 && 360 % stepNbr == 0 ==> |CircleTrajectory(m, radius, stepNbr).value| == stepNbr
  {
    if stepNbr < 0 {
      FloorDivIsFloor(360, stepNbr);
      assert FloorDiv(360, stepNbr) < 0;
    } else if 360 < stepNbr {
      DivUnique(360, stepNbr, 0);
    } else if 0 < stepNbr {
      CountCoversSteps(stepNbr);
    }
  }

  /** The waypoint angles start at 0, strictly increase and stay below one
      full turn. */
  lemma CircleAnglesIncrease(m: MathLib, radius: real, stepNbr: int)
    requires CircleTrajectory(m, radius, stepNbr).Ok?
    ensures var t := CircleTrajectory(m, radius, stepNbr).value;
      (forall i :: 0 <= i < |t| ==> 0.0 <= t[i].angle < 2.0 * PY_PI) &&
      (forall i, j :: 0 <= i < j < |t| ==> t[i].angle < t[j].angle) &&
      (|t| > 0 ==> t[0].angle == 0.0)
  {
    var t := CircleTrajectory(m, radius, stepNbr).value;
    var step := FloorDiv(360, stepNbr);
    if 0 < step {
      forall i | 0 <= i < |t|
        ensures 0.0 <= t[i].angle < 2.0 * PY_PI
      {
        CircleDegrees(step, i);
        RadiansWithinTurn(i * step);
      }
      forall i, j | 0 <= i < j < |t|
        ensures t[i].angle < t[j].angle
      {
        MulLeft(i + 1, j, step);
        RadiansIncrease(i * step, j * step);
      }
    }
  }

  /** The trajectory once `pop(0)` has run while the last popped angle is
      below the bearing: popping goes through the first waypoint at or above
      it, and it empties the list when there is none. */
  function PopThrough(t: seq<Waypoint>, bearing: real): seq<Waypoint> {
    if t == [] then []
    else if t[0].angle >= bearing then t[1..]
    else PopThrough(t[1..], bearing)
  }

  /** The trajectory after the search: kept whole when its head is already at
      or above the bearing. */
  function Remaining(t: seq<Waypoint>, bearing: real): seq<Waypoint> {
    if t == [] || t[0].angle >= bearing then t else PopThrough(t, bearing)
  }

  /** The search keeps a suffix of the trajectory, and the waypoint it then
      aims at is the head when that is at or above the bearing, and otherwise
      the one right after the first waypoint at or above the bearing. */
  lemma {:induction false} RemainingAimsPastFirstAbove(t: seq<Waypoint>, bearing: real, k: nat)
    requires k < |t| && t[k].angle >= bearing
    requires forall j :: 0 <= j < k ==> t[j].angle < bearing
    ensures Remaining(t, bearing) == if k == 0 then t else t[k + 1..]
  {
    if k > 0 {
      PopThroughFirstAbove(t, bearing, k);
    }
  }

  lemma {:induction false} PopThroughFirstAbove(t: seq<Waypoint>, bearing: real, k: nat)
    requires k < |t| && t[k].angle >= bearing
    requires forall j :: 0 <= j < k ==> t[j].angle < bearing
    ensures PopThrough(t, bearing) == t[k + 1..]
    decreases k
  {
    if k > 0 {
      PopThroughFirstAbove(t[1..], bearing, k - 1);
      assert t[1..][k..] == t[k + 1..];
    }
  }

  /** When no waypoint reaches the bearing the search empties the trajectory. */
  lemma {:induction false} PopThroughAllBelow(t: seq<Waypoint>, bearing: real)
    requires forall j :: 0 <= j < |t| ==> t[j].angle < bearing
    ensures Remaining(t, bearing) == []
    decreases |t|
  {
    if t != [] {
      PopThroughAllBelow(t[1..], bearing);
    }
  }

  /** Strictly increasing waypoint angles, as a laid circle has them. */
  predicate AnglesIncrease(t: seq<Waypoint>) {
    forall i, j :: 0 <= i < j < |t| ==> t[i].angle < t[j].angle
  }

  /** The search as the comment above it intends: pop the waypoints whose
      angle is below the bearing, and no more. */
  function SkipBelow(t: seq<Waypoint>, bearing: real): seq<Waypoint> {
    if t == [] || t[0].angle >= bearing then t else SkipBelow(t[1..], bearing)
  }

  /** The corrected search keeps a suffix, drops exactly the waypoints before
      it, all below the bearing, and aims at a waypoint at or above the
      bearing; on increasing angles that is the one with the least angle at
      or above the bearing, and nothing is left when none reaches it. */
  lemma {:induction false} SkipBelowAimsAtClosestAbove(t: seq<Waypoint>, bearing: real)
    ensures var r := SkipBelow(t, bearing);
      |r| <= |t| && r == t[|t| - |r|..] &&
      (forall j :: 0 <= j < |t| - |r| ==> t[j].angle < bearing) &&
      (r != [] ==> bearing <= r[0].angle) &&
      (AnglesIncrease(t) && r != [] ==>
        forall j :: 0 <= j < |t| && bearing <= t[j].angle ==> r[0].angle <= t[j].angle)
    decreases |t|
  {
    if t != [] && t[0].angle < bearing {
      SkipBelowAimsAtClosestAbove(t[1..], bearing);
      var r := SkipBelow(t, bearing);
      assert t[1..][|t| - 1 - |r|..] == t[|t| - |r|..];
      forall j | 0 <= j < |t| - |r|
        ensures t[j].angle < bearing
      {
        if j > 0 {
          assert t[j] == t[1..][j - 1];
        }
      }
      if AnglesIncrease(t) && r != [] {
        assert r[0] == t[|t| - |r|];
      }
    }
  }

  /** The corrected search stops exactly at the first waypoint at or above
      the bearing. */
  lemma {:induction false} SkipBelowStopsAtFirstAbove(t: seq<Waypoint>, bearing: real, k: nat)
    requires k < |t| && t[k].angle >= bearing
    requires forall j :: 0 <= j < k ==> t[j].angle < bearing
    ensures SkipBelow(t, bearing) == t[k..]
    decreases k
  {
    if k > 0 {
      SkipBelowStopsAtFirstAbove(t[1..], bearing, k - 1);
      assert t[1..][k - 1..] == t[k..];
    }
  }

  /** Whenever the loop as written pops at all and a waypoint follows the
      first one at or above the bearing, it aims at that follower, whose
      angle is larger, instead of the closest waypoint above the bearing. */
  lemma AsWrittenAimsPastClosest(t: seq<Waypoint>, bearing: real, k: nat)
    requires AnglesIncrease(t)
    requires 0 < k && k + 1 < |t| && t[k].angle >= bearing
    requires forall j :: 0 <= j < k ==> t[j].angle < bearing
    ensures SkipBelow(t, bearing) != [] && SkipBelow(t, bearing)[0] == t[k]
    ensures Remaining(t, bearing) != [] && Remaining(t, bearing)[0] == t[k + 1]
    ensures t[k].angle < Remaining(t, bearing)[0].angle
  {
    SkipBelowStopsAtFirstAbove(t, bearing, k);
    RemainingAimsPastFirstAbove(t, bearing, k);
  }

  /** The force at `pos`: the aimed waypoint's contribution, then each
      obstacle's in list order. */
  function TotalForce(m: MathLib, target: ForcePoint, obstacles: seq<ForcePoint>, pos: Vec2): Vec2
    decreases |obstacles|
  {
    if obstacles == [] then Contribution(m, target, pos)
    else TotalForce(m, target, obstacles[..|obstacles| - 1], pos).Plus(Contribution(m, obstacles[|obstacles| - 1], pos))
  }

  /** The displacement a non-zero force asks for: the force rescaled to
      `STEP_DISTANCE`. The robot turns to face it and drives that far. */
  function Displacement(m: MathLib, force: Vec2): Vec2
    requires m.sqrt(force.SqNorm()) != 0.0
  {
    force.Scale(STEP_DISTANCE / m.sqrt(force.SqNorm()))
  }

  /** The step along a total force: the displacement, as a turn from the
      current heading. A zero force divides 0 by 0. */
  function StepAlong(m: MathLib, force: Vec2, heading: real): Result<Step, Failure> {
    if m.sqrt(force.SqNorm()) == 0.0 then Err(NotANumber)
    else
      var dep := Displacement(m, force);
      Ok(Step(m.atan2(dep.y, dep.x) - heading, STEP_DISTANCE))
  }

  /** A zero total force yields NaN; with an exact square root any other
      force is rescaled to a displacement exactly 5 cm long. */
  lemma StepAlongHasStepLength(m: MathLib, force: Vec2, heading: real)
    requires SqrtSound(m)
    ensures force == ORIGIN ==> StepAlong(m, force, heading) == Err(NotANumber)
    ensures StepAlong(m, force, heading).Ok? ==>
      StepAlong(m, force, heading).value.distance == STEP_DISTANCE &&
      Displacement(m, force).SqNorm() == STEP_DISTANCE * STEP_DISTANCE
  {
    var s := force.SqNorm();
    SqNormNonNegative(force);
    var n := m.sqrt(s);
    assert n * n == s;
    if force == ORIGIN {
      SqrtOfSquare(m, 0.0);
    } else if n != 0.0 {
      ScaleSqNorm(force, STEP_DISTANCE / n);
      UnitRescale(s, n, STEP_DISTANCE);
    }
  }

  /** A displacement along a non-zero multiple `k` of a non-zero `u` is
      `u` scaled by some `s` of `k`'s sign, and it is 5 cm long. */
  lemma DisplacementAlong(m: MathLib, u: Vec2, k: real) returns (s: real)
    requires SqrtSound(m) && k != 0.0 && 0.0 < u.SqNorm()
    ensures m.sqrt(u.Scale(k).SqNorm()) != 0.0
    ensures Displacement(m, u.Scale(k)) == u.Scale(s)
    ensures (0.0 < k ==> 0.0 < s) && (k < 0.0 ==> s < 0.0)
    ensures u.Scale(s).SqNorm() == STEP_DISTANCE * STEP_DISTANCE
  {
    var f := u.Scale(k);
    ScaledSqNormPositive(u, k);
    var n := m.sqrt(f.SqNorm());
    assert 0.0 <= n && n * n == f.SqNorm();
    RootNonZero(n, f.SqNorm());
    s := STEP_DISTANCE / n * k;
    assert f.Scale(STEP_DISTANCE / n) == u.Scale(s);
    DivSign(STEP_DISTANCE, n);
    StepAlongHasStepLength(m, f, 0.0);
  }

  /** A non-zero vector scaled by a non-zero factor is non-zero. */
  lemma ScaledSqNormPositive(u: Vec2, k: real)
    requires k != 0.0 && 0.0 < u.SqNorm()
    ensures 0.0 < u.Scale(k).SqNorm()
  {
    var a := if k < 0.0 then -k else k;
    var d := u.SqNorm();
    MulPositive(a, d);
    MulPositive(a, a * d);
    assert u.Scale(k).SqNorm() == a * (a * d);
  }

  /** Moving from `at` by `s` times the vector to `pos` leaves `1 - s` of it. */
  lemma MoveToward(at: Vec2, pos: Vec2, s: real)
    ensures at.Plus(pos.Minus(at).Scale(s)).Minus(pos) == pos.Minus(at).Scale(s - 1.0)
  {
  }

  /** A product with a positive factor is positive only if the other is. */
  lemma PositiveFactor(a: real, b: real)
    requires 0.0 < b && 0.0 < a * b
    ensures 0.0 < a
  {
  }

  /** A real whose square is positive is not zero. */
  lemma RootNonZero(n: real, v: real)
    requires n * n == v && 0.0 < v
    ensures n != 0.0
  {
  }

  /** A product equal to 25 with one factor above 25/4 has the other below 4. */
  lemma CofactorBelowFour(q: real, d: real)
    requires STEP_DISTANCE * STEP_DISTANCE / 4.0 < d && q * d == STEP_DISTANCE * STEP_DISTANCE
    ensures q < 4.0
  {
    assert (4.0 - q) * d == 4.0 * d - 25.0;
    PositiveFactor(4.0 - q, d);
  }

  /** A positive real whose square is below 4 is below 2. */
  lemma RootBelowTwo(s: real)
    requires 0.0 < s && s * s < 4.0
    ensures s < 2.0
  {
    assert (2.0 - s) * (2.0 + s) == 4.0 - s * s;
    PositiveFactor(2.0 - s, 2.0 + s);
  }

  /** A positive multiple of `u` that is 5 cm long, from farther than half
      a step, leaves less than `u` to go: `s - 1` has magnitude below 1. */
  lemma StepShrinks(u: Vec2, s: real)
    requires 0.0 < s && STEP_DISTANCE * STEP_DISTANCE / 4.0 < u.SqNorm()
    requires u.Scale(s).SqNorm() == STEP_DISTANCE * STEP_DISTANCE
    ensures u.Scale(s - 1.0).SqNorm() < u.SqNorm()
  {
    var d := u.SqNorm();
    var q := s * s;
    ScaleSqNorm(u, s);
    assert q * d == STEP_DISTANCE * STEP_DISTANCE;
    CofactorBelowFour(q, d);
    RootBelowTwo(s);
    MulPositive(s, d);
    MulPositive(2.0 - s, s * d);
    ScaleSqNorm(u, s - 1.0);
    assert (s - 1.0) * (s - 1.0) * d == d - (2.0 - s) * (s * d);
  }

  /** A negative multiple of `u` leaves more than `u` to go. */
  lemma StepGrows(u: Vec2, s: real)
    requires s < 0.0 && 0.0 < u.SqNorm()
    ensures u.SqNorm() < u.Scale(s - 1.0).SqNorm()
  {
    var d := u.SqNorm();
    MulPositive(-s, d);
    MulPositive(2.0 - s, -s * d);
    ScaleSqNorm(u, s - 1.0);
    assert (s - 1.0) * (s - 1.0) * d == d + (2.0 - s) * (-s * d);
  }

  /** With the documented sign and no obstacle, the step approaches the
      aimed waypoint whenever the robot is more than half a step from it. */
  lemma CorrectedStepApproachesWaypoint(m: MathLib, p: ForcePoint, at: Vec2)
    requires SqrtSound(m) && 0.0 < p.force
    requires Norm(m, p.pos.Minus(at), p.order) >= NEAR
    requires STEP_DISTANCE * STEP_DISTANCE / 4.0 < p.pos.Minus(at).SqNorm()
    ensures var f := TotalForce(m, p, [], at);
      m.sqrt(f.SqNorm()) != 0.0 &&
      at.Plus(Displacement(m, f)).Minus(p.pos).SqNorm() < at.Minus(p.pos).SqNorm()
  {
    var u := p.pos.Minus(at);
    var d := u.SqNorm();
    ContributionAlongLine(m, p, at);
    var k :| Contribution(m, p, at) == u.Scale(k) && 0.0 < k;
    var s := DisplacementAlong(m, u, k);
    MoveToward(at, p.pos, s);
    StepShrinks(u, s);
    assert TotalForce(m, p, [], at) == u.Scale(k);
    assert at.Minus(p.pos).SqNorm() == d;
  }

  /** A point of negative force alone (an obstacle) makes the robot step
      away from it, from any distance. */
  lemma RepellerStepRecedes(m: MathLib, p: ForcePoint, at: Vec2)
    requires SqrtSound(m) && p.force < 0.0
    requires Norm(m, p.pos.Minus(at), p.order) >= NEAR
    requires 0.0 < p.pos.Minus(at).SqNorm()
    ensures var f := Contribution(m, p, at);
      m.sqrt(f.SqNorm()) != 0.0 &&
      at.Minus(p.pos).SqNorm() < at.Plus(Displacement(m, f)).Minus(p.pos).SqNorm()
  {
    var u := p.pos.Minus(at);
    ContributionAlongLine(m, p, at);
    var k :| Contribution(m, p, at) == u.Scale(k) && k < 0.0;
    var s := DisplacementAlong(m, u, k);
    MoveToward(at, p.pos, s);
    StepGrows(u, s);
    assert at.Minus(p.pos).SqNorm() == u.SqNorm();
  }

  /** As written, the step along a waypoint of positive force moves the
      robot away from the waypoint it aims at, from any distance. */
  lemma AsWrittenStepRecedes(m: MathLib, p: ForcePoint, at: Vec2)
    requires SqrtSound(m) && 0.0 < p.force
    requires Norm(m, p.pos.Minus(at), p.order) >= NEAR
    requires 0.0 < p.pos.Minus(at).SqNorm()
    ensures var f := ContributionAsWritten(m, p, at);
      m.sqrt(f.SqNorm()) != 0.0 &&
      at.Minus(p.pos).SqNorm() < at.Plus(Displacement(m, f)).Minus(p.pos).SqNorm()
  {
    AsWrittenFlipsEverySign(m, p, at);
    RepellerStepRecedes(m, p.(force := -p.force), at);
  }

  /** What `_get_next_deplacement` yields, as intended: the trajectory after
      the corrected search and the step toward the aimed waypoint, or the
      IndexError of reading an empty trajectory. */
  function NextStep(m: MathLib, t: seq<Waypoint>, bearing: real, obstacles: seq<ForcePoint>, pos: Vec2, heading: real): Result<Step, Failure> {
    var rest := SkipBelow(t, bearing);
    if rest == [] then Err(IndexError)
    else StepAlong(m, TotalForce(m, rest[0].point, obstacles, pos), heading)
  }

  /** The commands `_mov_of` issues: rotate left by `angle` when it is below
      pi, else rotate right by its complement to a full turn; then go forward. */
  datatype Move = RotateLeft(rad: real) | RotateRight(rad: real) | Forward(cm: real)

  function MovOf(angle: real, distance: real): (plan: seq<Move>)
    ensures |plan| == 2 && plan[1] == Forward(distance)
  {
    if angle < PY_PI then [RotateLeft(angle), Forward(distance)]
    else [RotateRight(2.0 * PY_PI - angle), Forward(distance)]
  }

  /** The counter-clockwise turn a rotation command makes. */
  function Turn(mv: Move): real {
    match mv
    case RotateLeft(r) => r
    case RotateRight(r) => -r
    case Forward(_) => 0.0
  }

  /** For every requested turn: below pi the robot rotates left by the turn
      itself, otherwise right by its complement to a full turn, so the
      rotation made is the turn or the turn less a full turn. The command
      carries a negative angle exactly for a turn below 0 or above a full
      turn; for a turn in [0, 2 pi) it never rotates more than half a turn. */
  lemma MovOfTurn(angle: real, distance: real)
    ensures var r := MovOf(angle, distance)[0];
      (r.RotateLeft? <==> angle < PY_PI) && (r.RotateRight? <==> PY_PI <= angle) &&
      Turn(r) == (if angle < PY_PI then angle else angle - 2.0 * PY_PI) &&
      (r.rad < 0.0 <==> angle < 0.0 || 2.0 * PY_PI < angle) &&
      (0.0 <= angle < 2.0 * PY_PI ==> 0.0 <= r.rad <= PY_PI)
  {
  }

  /** The turns the navigator asks for are a bearing in (-pi, pi] less the
      heading pi/2: every one of them is a left rotation by the turn itself,
      a negative angle for every bearing below pi/2. */
  lemma NavigatorTurnsRotateLeft(bearing: real, distance: real)
    requires -PY_PI < bearing <= PY_PI
    ensures var angle := bearing - PY_PI / 2.0;
      MovOf(angle, distance)[0] == RotateLeft(angle) &&
      (bearing < PY_PI / 2.0 ==> MovOf(angle, distance)[0].rad < 0.0)
  {
  }

  /** The navigator object. */
  class Navigator {
    var obstacles: seq<ForcePoint>
    var ss8Pos: Vec2
    var ss8Angle: real
    var trajectory: seq<Waypoint>
    var objPos: Vec2

    /** No obstacle and no trajectory; the robot at the origin facing pi/2. */
    constructor ()
      ensures obstacles == [] && trajectory == []
      ensures ss8Pos == ORIGIN && objPos == ORIGIN && ss8Angle == PY_PI / 2.0
    {
      obstacles := [];
      ss8Pos := ORIGIN;
      ss8Angle := PY_PI / 2.0;
      trajectory := [];
      objPos := ORIGIN;
    }

    /** `set_circle_trajectory(radius, step_nbr)`, reading the robot position
        for the undefined `self.pos`: the object lies `radius` to the left of
        the robot, and the trajectory is cleared before the range is built. */
    method SetCircleTrajectory(m: MathLib, radius: real, stepNbr: int) returns (r: Result<(), Failure>)
      modifies this`objPos, this`trajectory
      ensures objPos == ss8Pos.Minus(Vec2(radius, 0.0))
      ensures CircleTrajectory(m, radius, stepNbr).Ok? ==> r.Ok? && trajectory == CircleTrajectory(m, radius, stepNbr).value
      ensures CircleTrajectory(m, radius, stepNbr).Err? ==> r == Err(CircleTrajectory(m, radius, stepNbr).error) && trajectory == []
    {
      objPos := ss8Pos.Minus(Vec2(radius, 0.0));
      trajectory := [];
      if stepNbr == 0 {
        return Err(ZeroDivisionError);
      }
      var step := FloorDiv(360, stepNbr);
      if step == 0 {
        return Err(ValueError);
      }
      if step < 0 {
        // `range(0, 360, step)` is empty for a negative step
        return Ok(());
      }
      var a := 0;
      ghost var k := 0;
      while a < 360
        invariant objPos == ss8Pos.Minus(Vec2(radius, 0.0))
        invariant k == |trajectory| && a == k * step && a <= 359 + step
        invariant forall i :: 0 <= i < k ==> trajectory[i] == CirclePoint(m, radius, i * step)
        decreases 360 - a
      {
        trajectory := trajectory + [CirclePoint(m, radius, a)];
        assert (k + 1) * step == k * step + step;
        a := a + step;
        k := k + 1;
      }
      CircleLaidOut(m, radius, stepNbr, trajectory);
      return Ok(());
    }

    /** `_get_next_deplacement`, with the bearing to the object an input (the
        code's `np.tan` of a vector is not a bearing) and the obstacle list
        read for the undefined `self.obstacle`. The search pops the waypoints
        below the bearing, as its comment intends (the loop as written pops
        one more, see `AsWrittenAimsPastClosest`); the forces are summed in a
        loop. */
    method NextDeplacement(m: MathLib, bearing: real) returns (r: Result<Step, Failure>)
      modifies this`trajectory
      ensures trajectory == SkipBelow(old(trajectory), bearing)
      ensures r == NextStep(m, old(trajectory), bearing, obstacles, ss8Pos, ss8Angle)
    {
      if trajectory == [] {
        return Err(IndexError);
      }
      ghost var t0 := trajectory;
      while trajectory != [] && trajectory[0].angle < bearing
        invariant SkipBelow(trajectory, bearing) == SkipBelow(t0, bearing)
        decreases |trajectory|
      {
        trajectory := trajectory[1..];
      }
      if trajectory == [] {
        return Err(IndexError);
      }
      var dep := Contribution(m, trajectory[0].point, ss8Pos);
      for i := 0 to |obstacles|
        invariant dep == TotalForce(m, trajectory[0].point, obstacles[..i], ss8Pos)
      {
        assert obstacles[..i + 1][..i] == obstacles[..i];
        dep := dep.Plus(Contribution(m, obstacles[i], ss8Pos));
      }
      assert obstacles[..|obstacles|] == obstacles;
      r := StepAlong(m, dep, ss8Angle);
    }

    /** `add_obstacle(pos)`: a repelling point of order 4 at the end of the
        list. With the documented sign its force is `OBSTACLE_FORCE`. */
    method AddObstacle(pos: Vec2)
      modifies this`obstacles
      ensures obstacles == old(obstacles) + [ForcePoint(pos, OBSTACLE_FORCE, OBSTACLE_ORDER)]
    {
      obstacles := obstacles + [ForcePoint(pos, OBSTACLE_FORCE, OBSTACLE_ORDER)];
    }
  }

  /** A freshly laid circle is never popped by a bearing at or below 0: the
      robot aims at the first waypoint, angle 0. */
  lemma FreshCircleAimsAtStart(m: MathLib, radius: real, stepNbr: int, bearing: real)
    requires 0 < stepNbr <= 360 && bearing <= 0.0
    ensures var t := CircleTrajectory(m, radius, stepNbr).value;
      Remaining(t, bearing) == t && SkipBelow(t, bearing) == t && t != [] && t[0].angle == 0.0
  {
    CircleTrajectoryCount(m, radius, stepNbr);
    CircleAnglesIncrease(m, radius, stepNbr);
  }

  /** `set_circle_trajectory` as written: `self.pos` is not an attribute of
      the navigator, so every call raises before anything is assigned. */
  function SetCircleTrajectoryAsWritten(radius: real, stepNbr: int): (r: Result<(), Failure>)
    ensures r.Err?
  {
    Err(AttributeError)
  }

  /** `_get_next_deplacement` as written: reading the head of an empty list
      raises IndexError; otherwise comparing a float with the two-element
      array `np.tan(...)` has no truth value and `while` raises ValueError. */
  function NextDeplacementAsWritten(t: seq<Waypoint>): (r: Result<Step, Failure>)
    ensures r.Err?
  {
    if t == [] then Err(IndexError) else Err(ValueError)
  }

  /** `_mov_of` as written: `np.PI` is not a numpy attribute. */
  function MovOfAsWritten(angle: real, distance: real): (r: Result<seq<Move>, Failure>)
    ensures r.Err?
  {
    Err(AttributeError)
  }

  /** The concrete case that shows each defect: a four-point circle from a
      robot at the origin, aiming with bearing 0. As written no call produces
      anything; as intended, the circle has four points and the step aims at
      the first. */
  lemma AsWrittenNavigatorNeverSteps(m: MathLib)
    ensures SetCircleTrajectoryAsWritten(10.0, 4) == Err(AttributeError)
    ensures CircleTrajectory(m, 10.0, 4).Ok? && |CircleTrajectory(m, 10.0, 4).value| == 4
    ensures NextDeplacementAsWritten(CircleTrajectory(m, 10.0, 4).value) == Err(ValueError)
    ensures MovOfAsWritten(0.5, STEP_DISTANCE) == Err(AttributeError)
    ensures MovOf(0.5, STEP_DISTANCE) == [RotateLeft(0.5), Forward(STEP_DISTANCE)]
  {
    CircleTrajectoryCount(m, 10.0, 4);
  }
}
