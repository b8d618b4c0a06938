/** The wheel controller of the ESP32-S2 firmware: two DC motors, each driven
    by a pair of direction pins, a current direction, and a timed motion that
    stops by itself once its duration has passed. `millis()` is an input. */
module WheelControl {

  import opened Arduino

  /** The direction pins: motor 1 on pins 2 and 3, motor 2 on pins 5 and 4. */
  const MOTOR1_PIN1: int := 2
  const MOTOR1_PIN2: int := 3
  const MOTOR2_PIN1: int := 5
  const MOTOR2_PIN2: int := 4

  datatype Level = LOW | HIGH

  /** The `Direction` enumeration, in declaration order. */
  datatype Direction = FORWARD | BACKWARD | LEFT | RIGHT | HARD_LEFT | HARD_RIGHT | STOP {
    /** The enumerator's value. */
    function Code(): int {
      match this
      case FORWARD => 0
      case BACKWARD => 1
      case LEFT => 2
      case RIGHT => 3
      case HARD_LEFT => 4
      case HARD_RIGHT => 5
      case STOP => 6
    }
  }

  /** `directionMap` on the value held by a `Direction`, which C lets be any
      integer: a name per enumerator, "unknown" otherwise. */
  function DirectionName(code: int): string {
    if code == 0 then "forward"
    else if code == 1 then "backward"
    else if code == 2 then "left"
    else if code == 3 then "right"
    else if code == 4 then "hard left"
    else if code == 5 then "hard right"
    else if code == 6 then "stop"
    else "unknown"
  }

  /** `directionMap` is total and tells the directions apart: each
      enumerator has its own name, and only other values are "unknown". */
  lemma DirectionNamesDistinct(d: Direction, e: Direction, other: int)
    requires other < 0 || 6 < other
    ensures DirectionName(d.Code()) != "unknown"
    ensures d != e ==> DirectionName(d.Code()) != DirectionName(e.Code())
    ensures DirectionName(other) == "unknown"
  {
    var names := ["forward", "backward", "left", "right", "hard left", "hard right", "stop"];
    assert forall c :: 0 <= c < 7 ==> DirectionName(c) == names[c];
    assert "forward"[0] != "backward"[0] && "left"[0] != "right"[0];
    assert "hard left"[5] != "hard right"[5];
    assert |"forward"| != |"left"| && |"backward"| != |"right"| && |"stop"| != |"right"|;
    assert "left"[0] != "stop"[0] && "forward"[0] != "hard left"[0];
  }

  /** What the wheels hold: the start of the timed motion (`t`, a `long`
      that stored `millis()`), its duration, the direction, and the level
      last written to each direction pin. */
  datatype WheelsState = WheelsState(t: I32, targetTime: I32, direction: Direction, pins: map<int, Level>)

  const ALL_LOW: map<int, Level> :=
    map[MOTOR1_PIN1 := LOW, MOTOR1_PIN2 := LOW, MOTOR2_PIN1 := LOW, MOTOR2_PIN2 := LOW]

  /** `stop`. */
  function Stopped(s: WheelsState): WheelsState {
    s.(targetTime := 0, direction := STOP, pins := s.pins + ALL_LOW)
  }

  /** The pins each motion command writes after its `stop`. */
  function Writes(d: Direction): map<int, Level> {
    match d
    case FORWARD => map[MOTOR1_PIN1 := HIGH, MOTOR1_PIN2 := LOW, MOTOR2_PIN1 := HIGH, MOTOR2_PIN2 := LOW]
    case BACKWARD => map[MOTOR1_PIN1 := LOW, MOTOR1_PIN2 := HIGH, MOTOR2_PIN1 := LOW, MOTOR2_PIN2 := HIGH]
    case LEFT => map[MOTOR1_PIN1 := HIGH, MOTOR1_PIN2 := LOW]
    case RIGHT => map[MOTOR2_PIN1 := HIGH, MOTOR2_PIN2 := LOW]
    case HARD_LEFT => map[MOTOR1_PIN1 := HIGH, MOTOR1_PIN2 := LOW, MOTOR2_PIN1 := LOW, MOTOR2_PIN2 := HIGH]
    case HARD_RIGHT => map[MOTOR1_PIN1 := LOW, MOTOR1_PIN2 := HIGH, MOTOR2_PIN1 := HIGH, MOTOR2_PIN2 := LOW]
    case STOP => map[]
  }

  /** A motion command: `stop`, then `t = millis()`, `targetTime = ms`, the
      direction, and the pin writes. */
  function Drive(s: WheelsState, d: Direction, ms: I32, now: U32): WheelsState {
    var s1 := Stopped(s);
    s1.(t := ToI32(now), targetTime := ms, direction := d, pins := s1.pins + Writes(d))
  }

  /** `update`: stop once more than `targetTime` milliseconds have passed
      since `t`, for a positive `targetTime`. */
  function Tick(s: WheelsState, now: U32): WheelsState {
    if s.targetTime > 0 && Elapsed(now, s.t) > s.targetTime then Stopped(s) else s
  }

  /** How a motor turns for the levels of its two pins. */
  datatype Sense = Ahead | Reverse | Idle | Shorted

  function SenseOf(p1: Level, p2: Level): Sense {
    match (p1, p2)
    case (HIGH, LOW) => Ahead
    case (LOW, HIGH) => Reverse
    case (LOW, LOW) => Idle
    case (HIGH, HIGH) => Shorted
  }

  /** The senses of motor 1 and motor 2 for the pin levels. */
  function Motors(pins: map<int, Level>): (Sense, Sense)
    requires MOTOR1_PIN1 in pins && MOTOR1_PIN2 in pins && MOTOR2_PIN1 in pins && MOTOR2_PIN2 in pins
  {
    (SenseOf(pins[MOTOR1_PIN1], pins[MOTOR1_PIN2]), SenseOf(pins[MOTOR2_PIN1], pins[MOTOR2_PIN2]))
  }

  /** What each direction means for the two motors. */
  function Intended(d: Direction): (Sense, Sense) {
    match d
    case FORWARD => (Ahead, Ahead)
    case BACKWARD => (Reverse, Reverse)
    case LEFT => (Ahead, Idle)
    case RIGHT => (Idle, Ahead)
    case HARD_LEFT => (Ahead, Reverse)
    case HARD_RIGHT => (Reverse, Ahead)
    case STOP => (Idle, Idle)
  }

  /** Whatever the pins were, after a command the motors turn as its
      direction says: both ahead or both in reverse for straight motion, one
      motor only for a gentle turn (the other left idle by the preceding
      stop), opposite senses for a hard turn; and `stop` idles both. */
  lemma CommandsDriveMotorsAsNamed(s: WheelsState, d: Direction, ms: I32, now: U32)
    ensures d != STOP ==> Motors(Drive(s, d, ms, now).pins) == Intended(d)
    ensures Motors(Stopped(s).pins) == Intended(STOP)
  {
  }

  /** A timed motion started at `start` with a positive duration is stopped
      by the first update more than `ms` milliseconds later, and by no
      update before, even across a wrap-around of `millis()`. */
  lemma TimedMotionStopsAfterDuration(s: WheelsState, d: Direction, ms: I32, start: U32, dt: U32)
    requires 0 < ms
    ensures var r := Drive(s, d, ms, start);
      Tick(r, (start + dt) % TWO_32) == if dt > ms then Stopped(r) else r
  {
    ElapsedAcrossWrap(start, dt);
  }

  /** A motion with a duration of zero or less never stops by itself. */
  lemma UntimedMotionRunsOn(s: WheelsState, d: Direction, ms: I32, start: U32, now: U32)
    requires ms <= 0
    ensures Tick(Drive(s, d, ms, start), now) == Drive(s, d, ms, start)
  {
  }

  /** The wheels object. */
  class Wheels {
    var t: I32
    var targetTime: I32
    var direction: Direction
    /** The levels written to the direction pins with `digitalWrite`. */
    var pins: map<int, Level>

    function State(): WheelsState
      reads this
    {
      WheelsState(t, targetTime, direction, pins)
    }

    /** Stopped, no timed motion, no pin written yet. */
    constructor ()
      ensures State() == WheelsState(0, 0, STOP, map[])
    {
      t := 0;
      targetTime := 0;
      direction := STOP;
      pins := map[];
    }

    /** `update`. */
    method Update(now: U32)
      modifies this
      ensures State() == Tick(old(State()), now)
    {
      if targetTime > 0 && Elapsed(now, t) > targetTime {
        Stop();
        direction := STOP;
      }
    }

    /** `stop`. */
    method Stop()
      modifies this
      ensures State() == Stopped(old(State()))
    {
      targetTime := 0;
      direction := STOP;
      pins := pins[MOTOR1_PIN1 := LOW];
      pins := pins[MOTOR1_PIN2 := LOW];
      pins := pins[MOTOR2_PIN1 := LOW];
      pins := pins[MOTOR2_PIN2 := LOW];
    }

    /** The part every motion command shares after its `stop`. */
    method Start(d: Direction, ms: I32, now: U32)
      modifies this
      ensures State() == old(State()).(t := ToI32(now), targetTime := ms, direction := d)
    {
      t := ToI32(now);
      targetTime := ms;
      direction := d;
    }

    /** `forward(ms)`. */
    method Forward(ms: I32, now: U32)
      modifies this
      ensures State() == Drive(old(State()), FORWARD, ms, now)
    {
      Stop();
      Start(FORWARD, ms, now);
      pins := pins[MOTOR1_PIN1 := HIGH][MOTOR1_PIN2 := LOW][MOTOR2_PIN1 := HIGH][MOTOR2_PIN2 := LOW];
    }

    /** `backward(ms)`. */
    method Backward(ms: I32, now: U32)
      modifies this
      ensures State() == Drive(old(State()), BACKWARD, ms, now)
    {
      Stop();
      Start(BACKWARD, ms, now);
      pins := pins[MOTOR1_PIN1 := LOW][MOTOR1_PIN2 := HIGH][MOTOR2_PIN1 := LOW][MOTOR2_PIN2 := HIGH];
    }

    /** `left(ms)`: motor 1 only. */
    method Left(ms: I32, now: U32)
      modifies this
      ensures State() == Drive(old(State()), LEFT, ms, now)
    {
      Stop();
      Start(LEFT, ms, now);
      pins := pins[MOTOR1_PIN1 := HIGH][MOTOR1_PIN2 := LOW];
    }

    /** `right(ms)`: motor 2 only. */
    method Right(ms: I32, now: U32)
      modifies this
      ensures State() == Drive(old(State()), RIGHT, ms, now)
    {
      Stop();
      Start(RIGHT, ms, now);
      pins := pins[MOTOR2_PIN1 := HIGH][MOTOR2_PIN2 := LOW];
    }

    /** `hard_left(ms)`. */
    method HardLeft(ms: I32, now: U32)
      modifies this
      ensures State() == Drive(old(State()), HARD_LEFT, ms, now)
    {
      Stop();
      Start(HARD_LEFT, ms, now);
      pins := pins[MOTOR1_PIN1 := HIGH][MOTOR1_PIN2 := LOW][MOTOR2_PIN1 := LOW][MOTOR2_PIN2 := HIGH];
    }

    /** `hard_right(ms)`. */
    method HardRight(ms: I32, now: U32)
      modifies this
      ensures State() == Drive(old(State()), HARD_RIGHT, ms, now)
    {
      Stop();
      Start(HARD_RIGHT, ms, now);
      pins := pins[MOTOR1_PIN1 := LOW][MOTOR1_PIN2 := HIGH][MOTOR2_PIN1 := HIGH][MOTOR2_PIN2 := LOW];
    }
  }
}
