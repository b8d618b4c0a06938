/** The camera gimbal of the ESP32-S2 firmware: two four-wire stepper motors
    moved together to a pair of angles, with the conversions between angles
    in degrees and motor steps. */
module CameraGimbal {

  import opened Numeric
  import opened Arduino

  /** `angleToSteps`: the angle's share of a full turn, in steps, truncated
      toward zero by the cast to `long`. */
  function AngleToSteps(angle: real, stepsPerRevolution: int): int {
    TruncReal(angle / 360.0 * stepsPerRevolution as real)
  }

  /** The step count is the exact share of a turn, less than one step off,
      and never on the other side of zero. */
  lemma AngleToStepsWithinOneStep(angle: real, stepsPerRevolution: int)
    ensures var exact := angle / 360.0 * stepsPerRevolution as real;
      Abs(AngleToSteps(angle, stepsPerRevolution) as real - exact) < 1.0 &&
      (0.0 <= exact ==> 0 <= AngleToSteps(angle, stepsPerRevolution)) &&
      (exact <= 0.0 ==> AngleToSteps(angle, stepsPerRevolution) <= 0)
  {
  }

  /** `stepsToAngle` as written: the step count is divided by the steps per
      revolution in integer arithmetic before the conversion to degrees. */
  function DegreesAsWritten(steps: int, stepsPerRevolution: int): real
    requires stepsPerRevolution != 0
  {
    TruncDiv(steps, stepsPerRevolution) as real * 360.0
  }

  /** As written, every position short of a full turn reads as 0 degrees. */
  lemma StepsToAngleAsWrittenDropsPartialTurns(steps: int, stepsPerRevolution: int)
    requires 0 <= steps < stepsPerRevolution
    ensures DegreesAsWritten(steps, stepsPerRevolution) == 0.0
  {
    DivUnique(steps, stepsPerRevolution, 0);
  }

  /** Half a turn on a 2048-step motor is 1024 steps, and as written those
      1024 steps read back as 0 degrees instead of 180. */
  lemma HalfTurnReadsAsZero()
    ensures AngleToSteps(180.0, 2048) == 1024
    ensures DegreesAsWritten(1024, 2048) == 0.0 && Degrees(1024, 2048) == 180.0
  {
    assert 180.0 / 360.0 * 2048 as real == 1024.0;
    StepsToAngleAsWrittenDropsPartialTurns(1024, 2048);
  }

  /** `stepsToAngle`, corrected: the fraction of a turn is taken in floating
      point, as the `float` result type intends. */
  function Degrees(steps: int, stepsPerRevolution: int): real
    requires stepsPerRevolution != 0
  {
    steps as real * 360.0 / stepsPerRevolution as real
  }

  /** The corrected conversion inverts `angleToSteps` up to one step: the
      angle read back from the steps for an angle is within 360 /
      stepsPerRevolution degrees of it. */
  lemma StepsToAngleInvertsAngleToSteps(angle: real, stepsPerRevolution: int)
    requires 0 < stepsPerRevolution
    ensures Abs(Degrees(AngleToSteps(angle, stepsPerRevolution), stepsPerRevolution) - angle)
      < 360.0 / stepsPerRevolution as real
  {
    var n := stepsPerRevolution as real;
    var exact := angle / 360.0 * n;
    var s := AngleToSteps(angle, stepsPerRevolution);
    AngleToStepsWithinOneStep(angle, stepsPerRevolution);
    assert exact * 360.0 / n == angle;
    assert Degrees(s, stepsPerRevolution) - angle == (s as real - exact) * 360.0 / n;
    AbsDivPositive((s as real - exact) * 360.0, n);
    AbsMul(s as real - exact, 360.0);
    assert Abs((s as real - exact) * 360.0) < 360.0;
  }

  /** The gimbal object: two AccelStepper drivers synchronised by a
      MultiStepper. */
  class CamAngles {
    var stepper1: Stepper
    var stepper2: Stepper
    const stepsPerRevolution: I32

    constructor (stepsPerRev: I32)
      ensures stepsPerRevolution == stepsPerRev
      ensures stepper1 == STEPPER_AT_HOME && stepper2 == STEPPER_AT_HOME
    {
      stepsPerRevolution := stepsPerRev;
      stepper1 := STEPPER_AT_HOME;
      stepper2 := STEPPER_AT_HOME;
    }

    /** `moveToAngles`: both drivers get the step targets of their angles at
        once; their positions do not change until `update`. */
    method MoveToAngles(angle1: real, angle2: real)
      modifies this
      ensures stepper1 == old(stepper1).MoveTo(AngleToSteps(angle1, stepsPerRevolution))
      ensures stepper2 == old(stepper2).MoveTo(AngleToSteps(angle2, stepsPerRevolution))
    {
      var positions := [AngleToSteps(angle1, stepsPerRevolution), AngleToSteps(angle2, stepsPerRevolution)];
      stepper1 := stepper1.MoveTo(positions[0]);
      stepper2 := stepper2.MoveTo(positions[1]);
    }

    /** `isMoving`. */
    method IsMoving() returns (moving: bool)
      ensures moving <==> stepper1.position != stepper1.target || stepper2.position != stepper2.target
    {
      moving := stepper1.DistanceToGo() != 0 || stepper2.DistanceToGo() != 0;
    }

    /** `update`: `run()` on both drivers; `due1` and `due2` say whether
        each one's speed profile has a step due now. */
    method Update(due1: bool, due2: bool)
      modifies this
      ensures stepper1 == old(stepper1).Run(due1) && stepper2 == old(stepper2).Run(due2)
    {
      stepper1 := stepper1.Run(due1);
      stepper2 := stepper2.Run(due2);
    }

    /** `stop`: both drivers brake; `brake1` and `brake2` are their signed
        stopping distances. */
    method Stop(brake1: int, brake2: int)
      modifies this
      ensures stepper1 == old(stepper1).Stop(brake1) && stepper2 == old(stepper2).Stop(brake2)
    {
      stepper1 := stepper1.Stop(brake1);
      stepper2 := stepper2.Stop(brake2);
    }

    /** `stepsToAngle`, corrected. */
    method StepsToAngle(steps: I32) returns (angle: real)
      requires stepsPerRevolution != 0
      ensures angle * stepsPerRevolution as real == steps as real * 360.0
    {
      angle := Degrees(steps, stepsPerRevolution);
    }
  }

  /** Once both drivers have had as many due steps as they have to go after
      `moveToAngles`, the gimbal stands still on the step targets, and each
      motor's position reads back within one step of its commanded angle. */
  lemma GimbalSettlesAtAngles(s1: Stepper, s2: Stepper, angle1: real, angle2: real, stepsPerRevolution: int, k: nat)
    requires 0 < stepsPerRevolution
    requires var m1 := s1.MoveTo(AngleToSteps(angle1, stepsPerRevolution));
      var m2 := s2.MoveTo(AngleToSteps(angle2, stepsPerRevolution));
      k >= Max(Max(m1.DistanceToGo(), -m1.DistanceToGo()), Max(m2.DistanceToGo(), -m2.DistanceToGo()))
    ensures var r1 := RunSteps(s1.MoveTo(AngleToSteps(angle1, stepsPerRevolution)), k);
      var r2 := RunSteps(s2.MoveTo(AngleToSteps(angle2, stepsPerRevolution)), k);
      r1.DistanceToGo() == 0 && r2.DistanceToGo() == 0 &&
      Abs(Degrees(r1.position, stepsPerRevolution) - angle1) < 360.0 / stepsPerRevolution as real &&
      Abs(Degrees(r2.position, stepsPerRevolution) - angle2) < 360.0 / stepsPerRevolution as real
  {
    RunStepsReachTarget(s1.MoveTo(AngleToSteps(angle1, stepsPerRevolution)), k);
    RunStepsReachTarget(s2.MoveTo(AngleToSteps(angle2, stepsPerRevolution)), k);
    StepsToAngleInvertsAngleToSteps(angle1, stepsPerRevolution);
    StepsToAngleInvertsAngleToSteps(angle2, stepsPerRevolution);
  }
}
