/** The two-link arm of the ESP32-S2 firmware: a shoulder driven through a
    gear and an elbow driven through a pulley, each by a stepper motor. A
    target is given either as two joint angles in degrees or as a point in
    millimetres, converted to angles by inverse kinematics. */
module ArmControl {

  import opened Numeric
  import opened Arduino

  /** Link lengths. */
  const A1: int := 40
  const A2: int := 40
  /** Shoulder gear ratio, elbow pulley ratio (200 / 20), steps per motor turn. */
  const GEAR_FACTOR: int := 30
  const PULLEY_FACTOR: real := 10.0
  const FULL_REVOLUTION: int := 200
  /** The largest joint angle accepted, in degrees. */
  const MAX_JOINT_DEGREES: int := 190

  /** `INIT_ANGLE` as the preprocessor pastes it into `q2 - INIT_ANGLE`:
      `5 / 180` is an integer division. */
  function InitAngleAsWritten(): real {
    TruncDiv(5, 180) as real * ARDUINO_PI
  }

  /** `INIT_ANGLE` as intended: the elbow's rest angle, 5 degrees. */
  const INIT_ANGLE: real := 5.0 / 180.0 * ARDUINO_PI

  /** The shoulder stepper's target for a shoulder angle in radians. */
  function ShoulderSteps(q1: real): int {
    TruncReal((GEAR_FACTOR * FULL_REVOLUTION) as real * q1 / (2.0 * ARDUINO_PI))
  }

  /** The elbow stepper's target for an elbow angle in radians, counted from
      the rest angle `offset`. */
  function ElbowSteps(q2: real, offset: real): int {
    TruncReal(PULLEY_FACTOR * FULL_REVOLUTION as real * (q2 - offset) / (2.0 * ARDUINO_PI))
  }

  /** The shoulder angle `stop` reads back from a step count. */
  function ShoulderAngle(position: int): real {
    position as real * 2.0 * ARDUINO_PI / (GEAR_FACTOR * FULL_REVOLUTION) as real
  }

  /** The elbow angle `stop` reads back from a step count, plus the rest
      angle `offset` the steps are counted from. */
  function ElbowAngle(position: int, offset: real): real {
    position as real * 2.0 * ARDUINO_PI / (PULLEY_FACTOR * FULL_REVOLUTION as real) + offset
  }

  /** Reading back the step target of an angle gives the angle within one
      motor step: 2 pi / 6000 radians at the shoulder, 2 pi / 2000 at the
      elbow. */
  lemma StepsRoundTrip(q1: real, q2: real, offset: real)
    ensures Abs(ShoulderAngle(ShoulderSteps(q1)) - q1) < 2.0 * ARDUINO_PI / 6000.0
    ensures Abs(ElbowAngle(ElbowSteps(q2, offset), offset) - q2) < 2.0 * ARDUINO_PI / 2000.0
  {
    var e1 := 6000.0 * q1 / (2.0 * ARDUINO_PI);
    var s1 := ShoulderSteps(q1);
    assert Abs(s1 as real - e1) < 1.0;
    assert ShoulderAngle(s1) - q1 == (s1 as real - e1) * (2.0 * ARDUINO_PI / 6000.0);
    AbsMul(s1 as real - e1, 2.0 * ARDUINO_PI / 6000.0);
    var e2 := 2000.0 * (q2 - offset) / (2.0 * ARDUINO_PI);
    var s2 := ElbowSteps(q2, offset);
    assert Abs(s2 as real - e2) < 1.0;
    assert ElbowAngle(s2, offset) - q2 == (s2 as real - e2) * (2.0 * ARDUINO_PI / 2000.0);
    AbsMul(s2 as real - e2, 2.0 * ARDUINO_PI / 2000.0);
  }

  /** As written the elbow offset vanishes, so the elbow's home position
      stands for 0 radians and the 5-degree rest angle is 27 steps away
      from it. */
  lemma InitAngleAsWrittenVanishes()
    ensures InitAngleAsWritten() == 0.0
    ensures ElbowSteps(INIT_ANGLE, InitAngleAsWritten()) == 27
    ensures ElbowAngle(0, InitAngleAsWritten()) == 0.0
  {
    assert TruncDiv(5, 180) == 0;
    assert PULLEY_FACTOR * FULL_REVOLUTION as real * (INIT_ANGLE - 0.0) / (2.0 * ARDUINO_PI) == 2000.0 * 5.0 / 360.0;
  }

  /** With the intended offset, the elbow's home position (0 steps) is the
      rest angle in both directions of the conversion. */
  lemma InitAngleIsElbowHome()
    ensures 0.0 < INIT_ANGLE
    ensures ElbowSteps(INIT_ANGLE, INIT_ANGLE) == 0
    ensures ElbowAngle(0, INIT_ANGLE) == INIT_ANGLE
  {
  }

  /** The radicand of the reach check: `pow(x, 2) + pow(y, 2)`. */
  function SquaredReach(x: int, y: int): real {
    (x * x + y * y) as real
  }

  /** The reach check: the distance from the shoulder is more than
      `a1 + a2` or less than `abs(a1 - a2)`. */
  predicate OutOfReach(m: MathLib, x: int, y: int) {
    var r := m.sqrt(SquaredReach(x, y));
    r > (A1 + A2) as real || r < Abs((A1 - A2) as real)
  }

  /** The cosine of the elbow's interior angle for a target point, by the
      law of cosines. */
  function ElbowCosine(x: int, y: int): real {
    (SquaredReach(x, y) - (A1 * A1 + A2 * A2) as real) / (2 * A1 * A2) as real
  }

  /** The reach check admits exactly the points whose elbow cosine is in
      the domain of `acos`. */
  lemma InReachIffCosineValid(m: MathLib, x: int, y: int)
    requires SqrtSound(m)
    ensures !OutOfReach(m, x, y) <==> SquaredReach(x, y) <= 6400.0
    ensures !OutOfReach(m, x, y) <==> -1.0 <= ElbowCosine(x, y) <= 1.0
  {
    SqrtDecidesReach(m, x, y);
  }

  /** Folding the angle `acos` returned into [0, pi]. */
  function FoldElbow(v: real): real {
    if v < 0.0 then -v else if v > ARDUINO_PI then 2.0 * ARDUINO_PI - v else v
  }

  /** The fold leaves an angle in [0, pi] alone and brings any angle of
      [-pi, 2 pi] into [0, pi]. */
  lemma FoldElbowRange(v: real)
    ensures 0.0 <= v <= ARDUINO_PI ==> FoldElbow(v) == v
    ensures -ARDUINO_PI <= v <= 2.0 * ARDUINO_PI ==> 0.0 <= FoldElbow(v) <= ARDUINO_PI
  {
  }

  /** `posToAngles`: the shoulder and elbow angles for a target point. */
  function AnglesFor(m: MathLib, x: int, y: int): (q: (real, real))
  {
    var q2 := FoldElbow(m.acos(ElbowCosine(x, y)));
    var q1 := m.atan2(y as real, x as real) - m.atan2(A2 as real * m.sin(q2), A1 as real + A2 as real * m.cos(q2));
    (q1, ARDUINO_PI - q2)
  }

  /** The elbow angle of `posToAngles` is in [0, pi] whenever `acos`
      answers within [-pi, 2 pi]. */
  lemma ElbowAngleInRange(m: MathLib, x: int, y: int)
    requires -ARDUINO_PI <= m.acos(ElbowCosine(x, y)) <= 2.0 * ARDUINO_PI
    ensures 0.0 <= AnglesFor(m, x, y).1 <= ARDUINO_PI
  {
    FoldElbowRange(m.acos(ElbowCosine(x, y)));
  }

  /** `angleToPos`: the point reached by the angles, each coordinate
      truncated toward zero into a `long`. */
  function PointFor(m: MathLib, q1: real, q2: real): (int, int) {
    (TruncReal(A1 as real * m.cos(q1) + A2 as real * m.cos(q1 + q2)),
     TruncReal(A1 as real * m.sin(q1) + A2 as real * m.sin(q1 + q2)))
  }

  /** What the arm holds. */
  datatype ArmState = ArmState(stepper1: Stepper, stepper2: Stepper, q1: real, q2: real, x: int, y: int) {
    /** `getMoving`. */
    predicate Moving() {
      stepper1.DistanceToGo() != 0 || stepper2.DistanceToGo() != 0
    }
  }

  const ARM_AT_HOME: ArmState := ArmState(STEPPER_AT_HOME, STEPPER_AT_HOME, 0.0, 0.0, 0, 0)

  /** The state after `setPos` and the code it returns. */
  datatype Placed = Placed(state: ArmState, status: int)

  /** Both steppers aimed at the angles, the elbow counted from `offset`. */
  function Aim(s: ArmState, q1: real, q2: real, offset: real): ArmState {
    s.(q1 := q1, q2 := q2,
       stepper1 := s.stepper1.MoveTo(ShoulderSteps(q1)),
       stepper2 := s.stepper2.MoveTo(ElbowSteps(q2, offset)))
  }

  predicate JointsInRange(ax: int, ay: int) {
    0 <= ax <= MAX_JOINT_DEGREES && 0 <= ay <= MAX_JOINT_DEGREES
  }

  /** `setPos` as written: the reach check looks at the point stored by the
      previous call, and the elbow offset vanishes. */
  function PlaceAsWritten(m: MathLib, s: ArmState, tx: int, ty: int, angles: bool): Placed {
    if angles then
      if !JointsInRange(tx, ty) then Placed(s, -1)
      else Placed(Aim(s, tx as real * ARDUINO_PI / 180.0, ty as real * ARDUINO_PI / 180.0, InitAngleAsWritten()), 0)
    else if OutOfReach(m, s.x, s.y) then Placed(s, -1)
    else
      var q := AnglesFor(m, tx, ty);
      Placed(Aim(s.(x := tx, y := ty), q.0, q.1, InitAngleAsWritten()), 0)
  }

  /** As written, from the home position an unreachable point is accepted
      and stored, and once it is stored a reachable point is refused. */
  lemma ReachCheckAsWrittenLooksBack(m: MathLib, stored: ArmState)
    requires SqrtSound(m)
    requires stored.x == 500 && stored.y == 500
    ensures SquaredReach(500, 500) > 6400.0 && SquaredReach(10, 40) <= 6400.0
    ensures var first := PlaceAsWritten(m, ARM_AT_HOME, 500, 500, false);
      first.status == 0 && first.state.x == 500 && first.state.y == 500
    ensures PlaceAsWritten(m, stored, 10, 40, false) == Placed(stored, -1)
  {
    SoundSqrtJudgesBothPoints(m);
    HomeAcceptsAnyPoint(m, 500, 500);
    StoredPointDecides(m, stored, 10, 40);
  }

  /** With a sound `sqrt`, the home point is in reach and (500, 500) is not. */
  lemma SoundSqrtJudgesBothPoints(m: MathLib)
    requires SqrtSound(m)
    ensures !OutOfReach(m, 0, 0) && OutOfReach(m, 500, 500)
  {
    SqrtAtMost(m, SquaredReach(0, 0), 0.0);
    SqrtAtMost(m, SquaredReach(500, 500), 80.0);
  }

  /** With a sound `sqrt`, the reach check refuses exactly the points
      farther than `a1 + a2` from the shoulder. */
  lemma SqrtDecidesReach(m: MathLib, x: int, y: int)
    requires SqrtSound(m)
    ensures OutOfReach(m, x, y) <==> SquaredReach(x, y) > 6400.0
  {
    assert 0 <= x * x && 0 <= y * y;
    SqrtAtMost(m, SquaredReach(x, y), 80.0);
  }

  /** As written, the home position lets any point through. */
  lemma HomeAcceptsAnyPoint(m: MathLib, tx: int, ty: int)
    requires !OutOfReach(m, 0, 0)
    ensures var p := PlaceAsWritten(m, ARM_AT_HOME, tx, ty, false);
      p.status == 0 && p.state.x == tx && p.state.y == ty
  {
  }

  /** As written, once a point out of reach is stored every point is
      refused. */
  lemma StoredPointDecides(m: MathLib, s: ArmState, tx: int, ty: int)
    requires OutOfReach(m, s.x, s.y)
    ensures PlaceAsWritten(m, s, tx, ty, false) == Placed(s, -1)
  {
  }

  /** `setPos`, corrected: the reach check looks at the requested point and
      the elbow is counted from its 5-degree rest angle. */
  function Place(m: MathLib, s: ArmState, tx: int, ty: int, angles: bool): Placed {
    if angles then
      if !JointsInRange(tx, ty) then Placed(s, -1)
      else Placed(Aim(s, tx as real * ARDUINO_PI / 180.0, ty as real * ARDUINO_PI / 180.0, INIT_ANGLE), 0)
    else if OutOfReach(m, tx, ty) then Placed(s, -1)
    else
      var q := AnglesFor(m, tx, ty);
      Placed(Aim(s.(x := tx, y := ty), q.0, q.1, INIT_ANGLE), 0)
  }

  /** Angle mode accepts exactly the joint angles in [0, 190] degrees, then
      aims the shoulder at the first angle and the elbow at the second (in
      radians) without moving either motor yet; a refused target changes
      nothing. */
  lemma AngleModeAcceptsJointRange(m: MathLib, s: ArmState, ax: int, ay: int)
    ensures var p := Place(m, s, ax, ay, true);
      (p.status == 0 <==> 0 <= ax <= 190 && 0 <= ay <= 190) &&
      (p.status != 0 ==> p.status == -1 && p.state == s) &&
      (p.status == 0 ==>
        p.state.q1 == ax as real * ARDUINO_PI / 180.0 && p.state.q2 == ay as real * ARDUINO_PI / 180.0 &&
        0.0 <= p.state.q1 <= 190.0 * ARDUINO_PI / 180.0 && 0.0 <= p.state.q2 <= 190.0 * ARDUINO_PI / 180.0 &&
        p.state.stepper1 == Stepper(s.stepper1.position, ShoulderSteps(p.state.q1)) &&
        p.state.stepper2 == Stepper(s.stepper2.position, ElbowSteps(p.state.q2, INIT_ANGLE)))
  {
  }

  /** Coordinate mode accepts exactly the points within `a1 + a2` of the
      shoulder, stores the point and aims the steppers at its angles; a
      refused point changes nothing. */
  lemma CoordinateModeAcceptsReach(m: MathLib, s: ArmState, tx: int, ty: int)
    requires SqrtSound(m)
    ensures var p := Place(m, s, tx, ty, false);
      (p.status == 0 <==> tx * tx + ty * ty <= 6400) &&
      (p.status != 0 ==> p.status == -1 && p.state == s) &&
      (p.status == 0 ==> p.state.x == tx && p.state.y == ty && (p.state.q1, p.state.q2) == AnglesFor(m, tx, ty))
  {
    InReachIffCosineValid(m, tx, ty);
  }

  /** `stop`, with the elbow counted from `offset`: both steppers are
      retargeted to where they are, the angles are read back from the
      positions and the point from the angles. */
  function Halt(m: MathLib, s: ArmState, offset: real): ArmState {
    var q1 := ShoulderAngle(s.stepper1.position);
    var q2 := ElbowAngle(s.stepper2.position, offset);
    var p := PointFor(m, q1, q2);
    ArmState(s.stepper1.MoveTo(s.stepper1.position), s.stepper2.MoveTo(s.stepper2.position), q1, q2, p.0, p.1)
  }

  /** After `stop` the arm stands still where it is, and once the steppers
      have reached the targets aimed at for its angles, the angles read
      back are those angles within one motor step. */
  lemma StopRecoversAngles(m: MathLib, p: ArmState)
    requires p.stepper1 == Stepper(ShoulderSteps(p.q1), ShoulderSteps(p.q1))
    requires p.stepper2 == Stepper(ElbowSteps(p.q2, INIT_ANGLE), ElbowSteps(p.q2, INIT_ANGLE))
    ensures var h := Halt(m, p, INIT_ANGLE);
      !h.Moving() && h.stepper1 == p.stepper1 && h.stepper2 == p.stepper2 &&
      Abs(h.q1 - p.q1) < 2.0 * ARDUINO_PI / 6000.0 && Abs(h.q2 - p.q2) < 2.0 * ARDUINO_PI / 2000.0
  {
    StepsRoundTrip(p.q1, p.q2, INIT_ANGLE);
  }

  /** `stop` as written reads the elbow from 0 radians at step 0: once
      `setPos` counts the elbow's steps from its rest angle, the angle read
      back is the rest angle low, by more than a motor step. */
  lemma StopAsWrittenReadsElbowLow(m: MathLib, p: ArmState)
    requires p.stepper2 == Stepper(ElbowSteps(p.q2, INIT_ANGLE), ElbowSteps(p.q2, INIT_ANGLE))
    ensures var h := Halt(m, p, 0.0);
      h.q2 == Halt(m, p, INIT_ANGLE).q2 - INIT_ANGLE &&
      Abs(h.q2 - (p.q2 - INIT_ANGLE)) < 2.0 * ARDUINO_PI / 2000.0 &&
      INIT_ANGLE - 2.0 * ARDUINO_PI / 2000.0 < Abs(h.q2 - p.q2)
  {
    ElbowReadbackLow(p.q2);
  }

  /** The elbow angle read back without the rest angle, from the steps
      aimed at with it. */
  lemma ElbowReadbackLow(q2: real)
    ensures var read := ElbowAngle(ElbowSteps(q2, INIT_ANGLE), 0.0);
      read == ElbowAngle(ElbowSteps(q2, INIT_ANGLE), INIT_ANGLE) - INIT_ANGLE &&
      Abs(read - (q2 - INIT_ANGLE)) < 2.0 * ARDUINO_PI / 2000.0 &&
      INIT_ANGLE - 2.0 * ARDUINO_PI / 2000.0 < Abs(read - q2)
  {
    StepsRoundTrip(0.0, q2, INIT_ANGLE);
  }

  /** `update`: each stepper with distance to go is run. */
  function Advance(s: ArmState, due1: bool, due2: bool): ArmState {
    s.(stepper1 := if s.stepper1.DistanceToGo() != 0 then s.stepper1.Run(due1) else s.stepper1,
       stepper2 := if s.stepper2.DistanceToGo() != 0 then s.stepper2.Run(due2) else s.stepper2)
  }

  /** `update` called `k` times with both steppers' steps due. */
  function AdvanceSteps(s: ArmState, k: nat): ArmState
    decreases k
  {
    if k == 0 then s else AdvanceSteps(Advance(s, true, true), k - 1)
  }

  /** Updates never change the angles or the point, and after as many
      updates as the longer way to go the arm has stopped on its targets. */
  lemma {:induction false} ArmSettles(s: ArmState, k: nat)
    requires k >= Max(Max(s.stepper1.DistanceToGo(), -s.stepper1.DistanceToGo()),
                      Max(s.stepper2.DistanceToGo(), -s.stepper2.DistanceToGo()))
    ensures var r := AdvanceSteps(s, k);
      !r.Moving() && r.stepper1 == RunSteps(s.stepper1, k) && r.stepper2 == RunSteps(s.stepper2, k) &&
      (r.q1, r.q2, r.x, r.y) == (s.q1, s.q2, s.x, s.y)
    decreases k
  {
    if k == 0 {
    } else {
      var a := Advance(s, true, true);
      assert a.stepper1 == s.stepper1.Run(true) && a.stepper2 == s.stepper2.Run(true);
      ArmSettles(a, k - 1);
    }
    RunStepsReachTarget(s.stepper1, k);
    RunStepsReachTarget(s.stepper2, k);
  }

  /** The arm object. */
  class Arm {
    var stepper1: Stepper
    var stepper2: Stepper
    var q1: real
    var q2: real
    var x: int
    var y: int

    function State(): ArmState
      reads this
    {
      ArmState(stepper1, stepper2, q1, q2, x, y)
    }

    constructor ()
      ensures State() == ARM_AT_HOME
    {
      stepper1 := STEPPER_AT_HOME;
      stepper2 := STEPPER_AT_HOME;
      q1, q2 := 0.0, 0.0;
      x, y := 0, 0;
    }

    /** `setPos(x, y)`: coordinate mode. */
    method SetPosXY(m: MathLib, tx: I32, ty: I32) returns (status: int)
      modifies this
      ensures Placed(State(), status) == Place(m, old(State()), tx, ty, false)
    {
      status := SetPos(m, tx, ty, false);
    }

    /** `setPos(x, y, angles)`, corrected. */
    method SetPos(m: MathLib, tx: I32, ty: I32, angles: bool) returns (status: int)
      modifies this
      ensures Placed(State(), status) == Place(m, old(State()), tx, ty, angles)
    {
      if angles {
        if tx < 0 || tx > MAX_JOINT_DEGREES || ty < 0 || ty > MAX_JOINT_DEGREES {
          return -1;
        }
        q1 := tx as real * ARDUINO_PI / 180.0;
        q2 := ty as real * ARDUINO_PI / 180.0;
      } else {
        if OutOfReach(m, tx, ty) {
          return -1;
        }
        x := tx;
        y := ty;
        PosToAngles(m);
      }
      stepper1 := stepper1.MoveTo(ShoulderSteps(q1));
      stepper2 := stepper2.MoveTo(ElbowSteps(q2, INIT_ANGLE));
      return 0;
    }

    /** `stop`, corrected to count the elbow from its rest angle, as `setPos`
        does; as written it reads the elbow from 0 (`StopAsWrittenReadsElbowLow`). */
    method Stop(m: MathLib)
      modifies this
      ensures State() == Halt(m, old(State()), INIT_ANGLE)
    {
      stepper1 := stepper1.MoveTo(stepper1.position);
      stepper2 := stepper2.MoveTo(stepper2.position);
      q1 := ShoulderAngle(stepper1.position);
      q2 := ElbowAngle(stepper2.position, INIT_ANGLE);
      AngleToPos(m);
    }

    /** `getMoving`. */
    method GetMoving() returns (moving: bool)
      ensures moving <==> stepper1.position != stepper1.target || stepper2.position != stepper2.target
    {
      moving := stepper1.DistanceToGo() != 0 || stepper2.DistanceToGo() != 0;
    }

    /** `update`; `due1` and `due2` say whether each speed profile has a
        step due now. */
    method Update(due1: bool, due2: bool)
      modifies this
      ensures State() == Advance(old(State()), due1, due2)
    {
      if stepper1.DistanceToGo() != 0 {
        stepper1 := stepper1.Run(due1);
      }
      if stepper2.DistanceToGo() != 0 {
        stepper2 := stepper2.Run(due2);
      }
    }

    /** `posToAngles`. */
    method PosToAngles(m: MathLib)
      modifies this`q1, this`q2
      ensures (q1, q2) == AnglesFor(m, x, y)
    {
      q2 := m.acos(ElbowCosine(x, y));
      if q2 < 0.0 {
        q2 := -q2;
      } else if q2 > ARDUINO_PI {
        q2 := 2.0 * ARDUINO_PI - q2;
      }
      q1 := m.atan2(y as real, x as real) - m.atan2(A2 as real * m.sin(q2), A1 as real + A2 as real * m.cos(q2));
      q2 := ARDUINO_PI - q2;
    }

    /** `angleToPos`. */
    method AngleToPos(m: MathLib)
      modifies this`x, this`y
      ensures (x, y) == PointFor(m, q1, q2)
    {
      x := TruncReal(A1 as real * m.cos(q1) + A2 as real * m.cos(q1 + q2));
      y := TruncReal(A1 as real * m.sin(q1) + A2 as real * m.sin(q1 + q2));
    }
  }
}
