/** What the ESP32-S2 firmware classes share: the 32-bit integer widths of the
    platform, the unsigned arithmetic of `millis() - since`, and the part of
    an AccelStepper driver that the classes observe (current position and
    target position). */
module Arduino {

  const TWO_32: int := 0x1_0000_0000

  /** `unsigned long`, the type of `millis()`. */
  type U32 = x: int | 0 <= x < 0x1_0000_0000

  /** `int` and `long` on the ESP32. */
  type I32 = x: int | -0x8000_0000 <= x < 0x8000_0000

  /** Storing an `unsigned long` into a signed 32-bit field: modular. */
  function ToI32(v: int): (r: I32)
    ensures (r - v) % TWO_32 == 0
  {
    var w := v % TWO_32;
    if w < 0x8000_0000 then w else w - TWO_32
  }

  /** `millis() - since` where `since` is a signed field converted back to
      `unsigned long`: the difference modulo 2^32. */
  function Elapsed(now: U32, since: int): U32 {
    (now - since) % TWO_32
  }

  /** A stamp taken with `since = millis()` measures the true elapsed time
      even when the millisecond counter wraps around in between. */
  lemma {:induction false} ElapsedAcrossWrap(start: U32, d: U32)
    ensures Elapsed((start + d) % TWO_32, ToI32(start)) == d
  {
    var now := (start + d) % TWO_32;
    var s := ToI32(start);
    assert s == start || s == start - TWO_32;
    assert now == start + d || now == start + d - TWO_32;
    var diff := now - s;
    assert diff == d || diff == d - TWO_32 || diff == d + TWO_32;
    if diff == d - TWO_32 {
      assert diff % TWO_32 == (diff + TWO_32) % TWO_32;
    } else if diff == d + TWO_32 {
      assert diff % TWO_32 == (diff - TWO_32) % TWO_32;
    }
  }

  /** An AccelStepper driver, seen through `currentPosition()` and the target
      set by `moveTo()`. The speed and acceleration profile is not modelled. */
  datatype Stepper = Stepper(position: int, target: int) {

    function DistanceToGo(): int { target - position }

    /** `moveTo(t)`: a new absolute target; the position is untouched. */
    function MoveTo(t: int): (s: Stepper)
      ensures s.position == position && s.DistanceToGo() == t - position
    {
      Stepper(position, t)
    }

    /** `run()`: when the profile says a step is due, one step toward the
        target; never past it. */
    function Run(stepDue: bool): (s: Stepper)
      ensures s.target == target
      ensures -1 <= s.position - position <= 1
      ensures 0 <= DistanceToGo() ==> 0 <= s.DistanceToGo() <= DistanceToGo()
      ensures DistanceToGo() <= 0 ==> DistanceToGo() <= s.DistanceToGo() <= 0
    {
      if !stepDue || position == target then this
      else if position < target then Stepper(position + 1, target)
      else Stepper(position - 1, target)
    }

    /** `stop()`: retarget to the position reached after braking; `brake` is
        the signed stopping distance the speed profile yields (0 at rest). */
    function Stop(brake: int): (s: Stepper)
      ensures s.position == position && s.DistanceToGo() == brake
    {
      Stepper(position, position + brake)
    }
  }

  /** `run()` called `k` times, a step being due at every call. */
  function RunSteps(s: Stepper, k: nat): Stepper
    decreases k
  {
    if k == 0 then s else RunSteps(s.Run(true), k - 1)
  }

  /** A driver whose steps keep coming reaches its target after as many
      calls as it has steps to go, keeps the target, and stays there. */
  lemma {:induction false} RunStepsReachTarget(s: Stepper, k: nat)
    requires k >= if s.DistanceToGo() < 0 then -s.DistanceToGo() else s.DistanceToGo()
    ensures RunSteps(s, k) == Stepper(s.target, s.target)
    decreases k
  {
    if k > 0 {
      RunStepsReachTarget(s.Run(true), k - 1);
    }
  }

  /** A driver at rest at step 0, as constructed. */
  const STEPPER_AT_HOME: Stepper := Stepper(0, 0)
}
