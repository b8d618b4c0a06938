/** The addressable LED strip of the ESP32-S2 firmware: a steady colour, a
    timed flash that then restores what was there before, and a rainbow
    animation that advances on every update. `millis()` is an input, and
    FastLED's conversion of a fully saturated, full-value hue to RGB is a
    parameter. */
module LedStrip {

  import opened Numeric
  import opened Arduino

  type Byte = b: int | 0 <= b < 256

  /** Narrowing an `int` to `uint8_t`. */
  function ToByte(v: int): Byte {
    v % 256
  }

  /** Narrowing ignores whole multiples of 256. */
  lemma ToByteShift(v: int, q: int)
    ensures ToByte(v + q * 256) == ToByte(v)
  {
    var r, p := v % 256, v / 256;
    assert v + q * 256 == (p + q) * 256 + r;
  }

  /** Narrowing an intermediate sum changes nothing. */
  lemma ToByteOfSum(a: int, b: int)
    ensures ToByte(ToByte(a) + b) == ToByte(a + b)
  {
    ToByteShift(ToByte(a) + b, a / 256);
    assert ToByte(a) + b + (a / 256) * 256 == a + b;
  }

  datatype Rgb = Rgb(r: Byte, g: Byte, b: Byte)

  const BLACK: Rgb := Rgb(0, 0, 0)

  /** `CRGB(r, g, b)`. */
  function Crgb(r: int, g: int, b: int): Rgb {
    Rgb(ToByte(r), ToByte(g), ToByte(b))
  }

  /** The same colour on `n` LEDs. */
  function Fill(n: nat, c: Rgb): seq<Rgb> {
    seq(n, _ => c)
  }

  /** A rainbow frame on `n` LEDs: LED `i` has the hue `hue + i * 10`,
      narrowed to a byte by `CHSV`. */
  function Rainbow(rainbow: Byte -> Rgb, hue: Byte, n: nat): (frame: seq<Rgb>)
    ensures |frame| == n
    ensures 0 < n ==> frame[0] == rainbow(hue)
  {
    seq(n, i => rainbow(ToByte(hue + i * 10)))
  }

  /** Along the strip the hue moves on by 10 per LED: the frame for `hue`
      from its second LED on is the frame for `hue + 10`. */
  lemma RainbowShiftsByTen(rainbow: Byte -> Rgb, hue: Byte, n: nat, i: nat)
    requires i + 1 < n
    ensures Rainbow(rainbow, hue, n)[i + 1] == Rainbow(rainbow, ToByte(hue + 10), n)[i]
  {
    ToByteOfSum(hue + 10, i * 10);
    assert hue + 10 + i * 10 == hue + (i + 1) * 10;
  }

  /** The hue wraps after 128 LEDs (1280 is five times 256), so a strip
      longer than that repeats its colours. */
  lemma RainbowRepeatsAfter128(rainbow: Byte -> Rgb, hue: Byte, n: nat, i: nat)
    requires i + 128 < n
    ensures Rainbow(rainbow, hue, n)[i + 128] == Rainbow(rainbow, hue, n)[i]
  {
    ToByteShift(hue + i * 10, 5);
    assert hue + (i + 128) * 10 == hue + i * 10 + 5 * 256;
  }

  /** The two hue counters after one rainbow update: `hue1` counts updates
      modulo 256 and `hue` moves on whenever the new count is a multiple of
      10. */
  function HueStep(hue: Byte, hue1: Byte): (Byte, Byte) {
    var h1 := ToByte(hue1 + 1);
    (if h1 % 10 == 0 then ToByte(hue + 1) else hue, h1)
  }

  /** The counters after `k` rainbow updates. */
  function HueAfter(hue: Byte, hue1: Byte, k: nat): (Byte, Byte)
    decreases k
  {
    if k == 0 then (hue, hue1)
    else var p := HueAfter(hue, hue1, k - 1); HueStep(p.0, p.1)
  }

  /** A count reaches a new multiple of 10 exactly when it is one. */
  lemma TensStep(v: int)
    requires 1 <= v
    ensures v / 10 == (v - 1) / 10 + (if v % 10 == 0 then 1 else 0)
  {
    var q, r := (v - 1) / 10, (v - 1) % 10;
    assert v == q * 10 + r + 1;
    if r == 9 {
      DivUnique(v, 10, q + 1);
    } else {
      DivUnique(v, 10, q);
    }
  }

  /** While the 8-bit count does not wrap, the hue has moved on by the
      number of multiples of 10 the count passed. */
  lemma {:induction false} HueCountsTens(hue: Byte, hue1: Byte, k: nat)
    requires hue1 + k < 256
    ensures HueAfter(hue, hue1, k) == (ToByte(hue + (hue1 + k) / 10 - hue1 / 10), hue1 + k)
    decreases k
  {
    if k == 0 {
      assert ToByte(hue) == hue;
    } else {
      HueCountsTens(hue, hue1, k - 1);
      var p := HueAfter(hue, hue1, k - 1);
      assert HueAfter(hue, hue1, k) == HueStep(p.0, p.1);
      CountOneMore(hue, hue1, hue1 + k);
    }
  }

  /** The induction step of `HueCountsTens`: one update from the closed
      form for `v - 1` gives the closed form for `v`. */
  lemma CountOneMore(hue: Byte, hue1: Byte, v: int)
    requires hue1 < v < 256
    ensures HueStep(ToByte(hue + (v - 1) / 10 - hue1 / 10), v - 1) == (ToByte(hue + v / 10 - hue1 / 10), v)
  {
    TensStep(v);
    var prev := hue + (v - 1) / 10 - hue1 / 10;
    assert ToByte(v) == v;
    if v % 10 == 0 {
      ToByteOfSum(prev, 1);
    }
  }

  /** In particular, from a count that is a multiple of 10, ten updates
      later the hue has moved on by exactly one... */
  lemma TenUpdatesOneHue(hue: Byte, hue1: Byte, k: nat)
    requires hue1 % 10 == 0 && hue1 <= 240 && k == 10
    ensures HueAfter(hue, hue1, k) == (ToByte(hue + 1), hue1 + 10)
  {
    HueCountsTens(hue, hue1, k);
    assert hue1 == (hue1 / 10) * 10;
    DivUnique(hue1 + 10, 10, hue1 / 10 + 1);
    assert hue + (hue1 + 10) / 10 - hue1 / 10 == hue + 1;
  }

  /** ...except across the wrap of the 8-bit count, where 256 is not a
      multiple of 10: from 250 the hue moves on after only 6 updates. */
  lemma CountWrapShortensHueStep(hue: Byte, k: nat)
    requires k == 5
    ensures HueAfter(hue, 250, k) == (hue, 255)
    ensures HueAfter(hue, 250, k + 1) == (ToByte(hue + 1), 0)
  {
    HueCountsTens(hue, 250, k);
    assert (250 + k) / 10 - 250 / 10 == 0;
    assert ToByte(hue) == hue;
    var p := HueAfter(hue, 250, k);
    assert HueAfter(hue, 250, k + 1) == HueStep(p.0, p.1);
  }

  /** What the strip object holds: the colours in the buffer, the colours
      last pushed to the strip by `show`, the two hue counters, the steady
      colour, whether a flash interrupted the rainbow, the flash's duration
      (-1: no flash) and start, and whether the rainbow runs. */
  datatype LedState = LedState(leds: seq<Rgb>, shown: seq<Rgb>, hue: Byte, hue1: Byte,
                               r: I32, g: I32, b: I32, savedRainbow: bool,
                               duration: I32, start: I32, rainbowMode: bool)

  /** `setAll`. */
  function WithColour(s: LedState, r: I32, g: I32, b: I32): LedState {
    s.(rainbowMode := false, r := r, g := g, b := b, leds := Fill(|s.leds|, Crgb(r, g, b)))
  }

  /** `flash`: the flash colour is shown at once; the steady colour is
      kept for afterwards. */
  function Flashed(s: LedState, r: I32, g: I32, b: I32, duration: I32, now: U32): LedState {
    var leds := Fill(|s.leds|, Crgb(r, g, b));
    s.(leds := leds, duration := duration, start := ToI32(now), savedRainbow := s.rainbowMode,
       rainbowMode := false, shown := leds)
  }

  /** The first half of `update`: a flash whose duration has passed ends,
      and either the rainbow resumes or the steady colour is shown again. */
  function Expire(s: LedState, now: U32): LedState {
    if s.duration != -1 && Elapsed(now, s.start) > s.duration % TWO_32 then
      var s1 := s.(duration := -1);
      if s.savedRainbow then s1.(rainbowMode := true)
      else var s2 := WithColour(s1, s.r, s.g, s.b); s2.(shown := s2.leds)
    else s
  }

  /** The second half of `update`: in rainbow mode, paint and show a frame
      and advance the counters. */
  function Animate(s: LedState, rainbow: Byte -> Rgb): LedState {
    if s.rainbowMode then
      var leds := Rainbow(rainbow, s.hue, |s.leds|);
      var h := HueStep(s.hue, s.hue1);
      s.(leds := leds, hue := h.0, hue1 := h.1, shown := leds)
    else s
  }

  /** `update`. */
  function Updated(s: LedState, now: U32, rainbow: Byte -> Rgb): LedState {
    Animate(Expire(s, now), rainbow)
  }

  /** A flash over a steady colour shows the flash colour until more than
      `duration` milliseconds have passed, then the steady colour again,
      even across a wrap-around of `millis()`. */
  lemma FlashRestoresSteadyColour(s: LedState, r: I32, g: I32, b: I32, duration: I32, start: U32, dt: U32,
                                  rainbow: Byte -> Rgb)
    requires !s.rainbowMode && 0 <= duration
    ensures var f := Flashed(s, r, g, b, duration, start);
      var u := Updated(f, (start + dt) % TWO_32, rainbow);
      f.shown == Fill(|s.leds|, Crgb(r, g, b)) &&
      (dt <= duration ==> u == f) &&
      (dt > duration ==> u.shown == Fill(|s.leds|, Crgb(s.r, s.g, s.b)) && !u.rainbowMode && u.duration == -1)
  {
    ElapsedAcrossWrap(start, dt);
  }

  /** A flash over the rainbow freezes it until the flash ends, and the
      update that ends the flash resumes the rainbow from the same hue. */
  lemma FlashResumesRainbow(s: LedState, r: I32, g: I32, b: I32, duration: I32, start: U32, dt: U32,
                            rainbow: Byte -> Rgb)
    requires s.rainbowMode && 0 <= duration
    ensures var f := Flashed(s, r, g, b, duration, start);
      var u := Updated(f, (start + dt) % TWO_32, rainbow);
      (dt <= duration ==> u == f && u.hue == s.hue && u.hue1 == s.hue1) &&
      (dt > duration ==> u.rainbowMode && u.shown == Rainbow(rainbow, s.hue, |s.leds|) &&
                         (u.hue, u.hue1) == HueStep(s.hue, s.hue1))
  {
    ElapsedAcrossWrap(start, dt);
  }

  /** A second flash started while a first one still runs over the
      rainbow records that the rainbow was off: the update that ends it
      shows the steady colour and does not resume the rainbow. */
  lemma SecondFlashForgetsRainbow(s: LedState, c1: Rgb, c2: Rgb, d1: I32, d2: I32, t1: U32, t2: U32, now: U32,
                                  rainbow: Byte -> Rgb)
    requires s.rainbowMode
    ensures var f := Flashed(Flashed(s, c1.r, c1.g, c1.b, d1, t1), c2.r, c2.g, c2.b, d2, t2);
      var u := Updated(f, now, rainbow);
      !f.savedRainbow && !u.rainbowMode &&
      (d2 != -1 && u.duration == -1 ==> u.shown == Fill(|s.leds|, Crgb(s.r, s.g, s.b)))
  {
  }

  /** The strip object. */
  class Led {
    const numLeds: nat
    /** The colour buffer, `new CRGB[numLeds]`. */
    const leds: array<Rgb>
    /** FastLED's hue-to-RGB conversion at full saturation and value. */
    const rainbow: Byte -> Rgb
    /** What the strip displays: the buffer as of the last `show`. */
    var shown: seq<Rgb>
    var hue: Byte
    var hue1: Byte
    var r: I32
    var g: I32
    var b: I32
    /** `_rainbowMode`. */
    var savedRainbow: bool
    var duration: I32
    var start: I32
    var rainbowMode: bool

    ghost predicate Valid()
      reads this
    {
      leds.Length == numLeds
    }

    function State(): LedState
      reads this, leds
    {
      LedState(leds[..], shown, hue, hue1, r, g, b, savedRainbow, duration, start, rainbowMode)
    }

    /** The members keep their initialisers: no flash, no rainbow, both hue
        counters at 0, `b` at 0 and `start` at the construction time.
        `r` and `g` have no initialiser and are taken as given. */
    constructor (n: nat, r0: I32, g0: I32, now: U32, rainbow: Byte -> Rgb)
      ensures Valid() && fresh(leds)
      ensures State() == LedState(Fill(n, BLACK), [], 0, 0, r0, g0, 0, false, -1, ToI32(now), false)
      ensures this.rainbow == rainbow
    {
      numLeds := n;
      leds := new Rgb[n](_ => BLACK);
      this.rainbow := rainbow;
      shown := [];
      hue, hue1 := 0, 0;
      r, g, b := r0, g0, 0;
      savedRainbow := false;
      duration := -1;
      start := ToI32(now);
      rainbowMode := false;
      new;
      assert leds[..] == Fill(n, BLACK);
    }

    /** The loop of `setAll` and `flash`: every LED gets the colour. */
    method Paint(c: Rgb)
      requires Valid()
      modifies leds
      ensures leds[..] == Fill(numLeds, c)
    {
      var i := 0;
      while i < numLeds
        invariant 0 <= i <= numLeds
        invariant forall j :: 0 <= j < i ==> leds[j] == c
      {
        leds[i] := c;
        i := i + 1;
      }
      assert leds[..] == Fill(numLeds, c);
    }

    /** The loop of `update` in rainbow mode. */
    method PaintRainbow()
      requires Valid()
      modifies leds
      ensures leds[..] == Rainbow(rainbow, hue, numLeds)
    {
      var i := 0;
      while i < numLeds
        invariant 0 <= i <= numLeds
        invariant forall j :: 0 <= j < i ==> leds[j] == rainbow(ToByte(hue + j * 10))
      {
        leds[i] := rainbow(ToByte(hue + i * 10));
        i := i + 1;
      }
      assert leds[..] == Rainbow(rainbow, hue, numLeds);
    }

    /** `show`. */
    method Show()
      modifies this`shown
      ensures shown == leds[..]
    {
      shown := leds[..];
    }

    /** `setAll`. */
    method SetAll(r: I32, g: I32, b: I32)
      requires Valid()
      modifies this, leds
      ensures State() == WithColour(old(State()), r, g, b)
    {
      rainbowMode := false;
      this.r, this.g, this.b := r, g, b;
      Paint(Crgb(r, g, b));
    }

    /** `flash`. */
    method Flash(r: I32, g: I32, b: I32, duration: I32, now: U32)
      requires Valid()
      modifies this, leds
      ensures State() == Flashed(old(State()), r, g, b, duration, now)
    {
      Paint(Crgb(r, g, b));
      this.duration := duration;
      start := ToI32(now);
      savedRainbow := rainbowMode;
      rainbowMode := false;
      Show();
    }

    /** `update`. */
    method Update(now: U32)
      requires Valid()
      modifies this, leds
      ensures State() == Updated(old(State()), now, rainbow)
    {
      if duration != -1 {
        if Elapsed(now, start) > duration % TWO_32 {
          duration := -1;
          if savedRainbow {
            rainbowMode := true;
          } else {
            SetAll(r, g, b);
            Show();
          }
        }
      }
      if rainbowMode {
        PaintRainbow();
        hue1 := ToByte(hue1 + 1);
        if hue1 % 10 == 0 {
          hue := ToByte(hue + 1);
        }
        Show();
      }
    }
  }
}
