/** The UDP video receiver of the controller: a background loop that appends
    every datagram to a byte buffer, cuts at most one JPEG frame per datagram
    and publishes the last frame that decoded. */
module UdpStream {

  import opened Wrappers
  import opened JpegFraming

  /** What the receive loop observes in one pass of `while self.running`. */
  datatype Event =
    | Datagram(data: Bytes)  // `recvfrom` returned a datagram
    | RecvFailed             // `recvfrom` raised; the loop prints and goes on
    | StopRequested          // another thread called `stop()` during the pass

  /** The receiver's fields: `bytes_buffer`, `current_frame`, `running`. */
  datatype RxState = RxState(buffer: Bytes, current: Option<Image>, running: bool)

  /** One pass for a received datagram: append, search both markers from
      offset 0, and when both occur cut the frame, keep what follows the end
      marker and publish the frame only if it decodes. */
  function Receive(s: RxState, data: Bytes, decode: Bytes -> Option<Image>): RxState {
    var c := CutFrame(s.buffer + data);
    if c.frame.Some? && decode(c.frame.value).Some? then
      s.(buffer := c.rest, current := decode(c.frame.value))
    else
      s.(buffer := c.rest)
  }

  function Apply(s: RxState, e: Event, decode: Bytes -> Option<Image>): RxState {
    match e
    case Datagram(data) => Receive(s, data, decode)
    case RecvFailed => s
    case StopRequested => s.(running := false)
  }

  /** The loop over a finite run of events: it checks `running` before every
      pass. */
  function Fetch(s: RxState, events: seq<Event>, decode: Bytes -> Option<Image>): RxState
    decreases |events|
  {
    if !s.running || events == [] then s
    else Fetch(Apply(s, events[0], decode), events[1..], decode)
  }

  /** The concatenation of every datagram among the events. */
  function Payload(events: seq<Event>): Bytes {
    if events == [] then []
    else (if events[0].Datagram? then events[0].data else []) + Payload(events[1..])
  }

  /** A datagram that completes no frame is kept whole, behind the bytes
      already buffered. */
  lemma ReceiveWithoutFrameKeepsAll(s: RxState, data: Bytes, decode: Bytes -> Option<Image>)
    requires CutFrame(s.buffer + data).frame.None?
    ensures Receive(s, data, decode) == s.(buffer := s.buffer + data)
  {
  }

  /** The published frame changes only to an image that decoding returned. */
  lemma {:induction false} FrameOnlyFromDecoder(s: RxState, events: seq<Event>, decode: Bytes -> Option<Image>)
    ensures var r := Fetch(s, events, decode).current;
      r == s.current || exists f: Bytes :: decode(f) == r && r.Some?
    decreases |events|
  {
    if s.running && events != [] {
      var s' := Apply(s, events[0], decode);
      FrameOnlyFromDecoder(s', events[1..], decode);
      if s'.current != s.current {
        var c := CutFrame(s.buffer + events[0].data);
        assert decode(c.frame.value) == s'.current;
      }
    }
  }

  /** The loop ends at the first condition check after a stop: no event after
      it has any effect, and the receiver is left not running. */
  lemma {:induction false} StopEndsLoop(s: RxState, before: seq<Event>, after: seq<Event>, decode: Bytes -> Option<Image>)
    ensures Fetch(s, before + [StopRequested] + after, decode) == Fetch(s, before + [StopRequested], decode)
    ensures !Fetch(s, before + [StopRequested], decode).running
    decreases |before|
  {
    if !s.running {
    } else if before == [] {
      assert (before + [StopRequested] + after)[1..] == after;
      assert (before + [StopRequested])[1..] == [];
    } else {
      assert (before + [StopRequested] + after)[1..] == before[1..] + [StopRequested] + after;
      assert (before + [StopRequested])[1..] == before[1..] + [StopRequested];
      StopEndsLoop(Apply(s, before[0], decode), before[1..], after, decode);
    }
  }

  /** `b` ends `w`. */
  predicate IsSuffix(b: Bytes, w: Bytes) {
    |b| <= |w| && b == w[|w| - |b|..]
  }

  lemma SuffixTransitive(a: Bytes, b: Bytes, c: Bytes)
    requires IsSuffix(a, b) && IsSuffix(b, c)
    ensures IsSuffix(a, c)
  {
    assert c[|c| - |a|..] == c[|c| - |b|..][|b| - |a|..];
  }

  /** If `b` ends `x + p`, then `b + q` ends `x + (p + q)`. */
  lemma SuffixThenAppend(x: Bytes, p: Bytes, b: Bytes, q: Bytes)
    requires IsSuffix(b, x + p)
    ensures IsSuffix(b + q, x + (p + q))
  {
    assert x + (p + q) == (x + p) + q;
  }

  /** While the loop runs, the buffer only ever drops bytes from its front:
      after a run of events without a stop it ends the old buffer followed by
      every datagram received, in arrival order. */
  lemma {:induction false} BufferIsSuffixOfReceived(s: RxState, events: seq<Event>, decode: Bytes -> Option<Image>)
    requires s.running
    requires forall k :: 0 <= k < |events| ==> !events[k].StopRequested?
    ensures IsSuffix(Fetch(s, events, decode).buffer, s.buffer + Payload(events))
    decreases |events|
  {
    if events == [] {
      assert s.buffer + Payload(events) == s.buffer;
    } else {
      var e := events[0];
      var s' := Apply(s, e, decode);
      BufferIsSuffixOfReceived(s', events[1..], decode);
      var piece := if e.Datagram? then e.data else [];
      assert Payload(events) == piece + Payload(events[1..]);
      var mid := s.buffer + piece;
      if e.Datagram? {
        CutRestIsSuffix(mid);
      } else {
        assert mid == s.buffer;
      }
      assert IsSuffix(s'.buffer, mid);
      SuffixThenAppend(s.buffer, piece, s'.buffer, Payload(events[1..]));
      SuffixTransitive(Fetch(s', events[1..], decode).buffer, s'.buffer + Payload(events[1..]), s.buffer + Payload(events));
    }
  }

  /** The receiver object. The lock around `current_frame` is not modelled:
      the loop is a method run to completion over the events it observes. */
  class UdpReceiver {
    var buffer: Bytes
    var currentFrame: Option<Image>
    var running: bool

    function State(): RxState
      reads this
    {
      RxState(buffer, currentFrame, running)
    }

    /** No frame, an empty buffer, not running. */
    constructor ()
      ensures State() == RxState([], None, false)
    {
      buffer := [];
      currentFrame := None;
      running := false;
    }

    /** `start_listening`: the socket bind either succeeds, and the receiver
        runs, or raises to the caller with nothing changed. */
    method StartListening(bindOk: bool) returns (ok: bool)
      modifies this`running
      ensures ok == bindOk
      ensures running == (bindOk || old(running))
    {
      ok := bindOk;
      if bindOk {
        running := true;
      }
    }

    /** One pass of the loop body for a received datagram. */
    method ReceiveDatagram(data: Bytes, decode: Bytes -> Option<Image>)
      modifies this`buffer, this`currentFrame
      ensures State() == Receive(old(State()), data, decode)
    {
      buffer := buffer + data;
      var start := Find(buffer, MARKER, SOI);
      var end := Find(buffer, MARKER, EOI);
      if start != -1 && end != -1 {
        var jpg := Slice(buffer, start, end + 2);
        buffer := buffer[end + 2..];
        var frame := decode(jpg);
        if frame.Some? {
          currentFrame := frame;
        }
      }
    }

    /** `_fetch_frames`: the loop over the events it observes. */
    method FetchFrames(events: seq<Event>, decode: Bytes -> Option<Image>)
      modifies this
      ensures State() == Fetch(old(State()), events, decode)
    {
      var i := 0;
      while running && i < |events|
        invariant 0 <= i <= |events|
        invariant Fetch(old(State()), events, decode) == Fetch(State(), events[i..], decode)
      {
        assert events[i..][1..] == events[i + 1..];
        match events[i] {
          case Datagram(data) => ReceiveDatagram(data, decode);
          case RecvFailed =>
          case StopRequested => Stop();
        }
        i := i + 1;
      }
    }

    /** `get_current_frame`: the last frame that decoded, if any. */
    method GetCurrentFrame() returns (f: Option<Image>)
      ensures f == currentFrame
    {
      f := currentFrame;
    }

    /** `stop`: the loop ends at its next condition check. */
    method Stop()
      modifies this`running
      ensures !running
    {
      running := false;
    }
  }
}
