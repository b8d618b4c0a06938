/** The ESP32-CAM HTTP stream reader: a streamed GET response read in chunks
    of 1024 bytes, each appended to a byte buffer that is searched for one
    JPEG frame. */
module HttpStream {

  import opened Wrappers
  import opened Numeric
  import opened JpegFraming

  /** `iter_content(chunk_size=1024)`. */
  const CHUNK: nat := 1024

  /** One answer to the streamed GET: its status and the body the server
      will send. */
  datatype Response = Response(status: int, body: Bytes)

  /** What one `get_frame()` call ends with. */
  datatype Outcome =
    | Frame(image: Image)  // a frame was cut and decoded
    | NoFrame              // the stream ended without a complete frame: `None`
    | Exited               // the status was not 200: `exit()`
    | Raised               // the handler itself failed (see `Pull`)

  /** The result of reading the stream: the outcome, the buffer and the part
      of the body not yet read. */
  datatype Pulled = Pulled(outcome: Outcome, buffer: Bytes, unread: Bytes, exhausted: bool)

  /** The `for chunk` loop from a given buffer and unread body. A frame that
      does not decode makes the colour conversion raise; so do a connection
      error and a second iteration over a fully consumed body, and the
      handler for all three calls `time.sleep` on a module that was never
      imported, so each ends in `Raised`. */
  function Pull(buffer: Bytes, unread: Bytes, failsAtEnd: bool, decode: Bytes -> Option<Image>): Pulled
    decreases |unread|
  {
    if unread == [] then
      (if failsAtEnd then Pulled(Raised, buffer, [], false) else Pulled(NoFrame, buffer, [], true))
    else
      var n := Min(CHUNK, |unread|);
      var c := CutFrame(buffer + unread[..n]);
      if c.frame.None? then Pull(c.rest, unread[n..], failsAtEnd, decode)
      else if decode(c.frame.value).Some? then Pulled(Frame(decode(c.frame.value).value), c.rest, unread[n..], false)
      else Pulled(Raised, c.rest, unread[n..], false)
  }

  /** `b` ends `w`. */
  predicate EndsWith(w: Bytes, b: Bytes) {
    |b| <= |w| && b == w[|w| - |b|..]
  }

  lemma EndsWithAppend(w: Bytes, r: Bytes, u: Bytes)
    requires EndsWith(w, r)
    ensures EndsWith(w + u, r + u)
  {
    var all := w + u;
    assert all[|all| - |r + u|..] == w[|w| - |r|..] + u;
  }

  lemma EndsWithTrans(a: Bytes, b: Bytes, c: Bytes)
    requires EndsWith(a, b) && EndsWith(b, c)
    ensures EndsWith(a, c)
  {
    assert a[|a| - |c|..] == a[|a| - |b|..][|b| - |c|..];
  }

  /** When the stream ends without a frame, every byte read stays buffered. */
  lemma {:induction false} NoFrameKeepsEverything(buffer: Bytes, unread: Bytes, failsAtEnd: bool, decode: Bytes -> Option<Image>)
    ensures var p := Pull(buffer, unread, failsAtEnd, decode);
      p.outcome.NoFrame? ==> p.buffer == buffer + unread && p.unread == [] && p.exhausted
    decreases |unread|
  {
    if unread != [] {
      var n := Min(CHUNK, |unread|);
      var c := CutFrame(buffer + unread[..n]);
      NoFrameKeepsEverything(c.rest, unread[n..], failsAtEnd, decode);
      if c.frame.None? {
        CutIffBothMarkers(buffer + unread[..n]);
        assert buffer + unread[..n] + unread[n..] == buffer + unread;
      }
    }
  }

  /** Reading never reorders or invents bytes: the buffer followed by the
      unread body afterwards ends the buffer followed by the body before. */
  lemma {:induction false} PullKeepsOrder(buffer: Bytes, unread: Bytes, failsAtEnd: bool, decode: Bytes -> Option<Image>)
    ensures var p := Pull(buffer, unread, failsAtEnd, decode);
      EndsWith(buffer + unread, p.buffer + p.unread)
    decreases |unread|
  {
    if unread == [] {
      assert buffer + unread == buffer;
    } else {
      var n := Min(CHUNK, |unread|);
      var w := buffer + unread[..n];
      var c := CutFrame(w);
      CutRestIsSuffix(w);
      assert buffer + unread == w + unread[n..];
      var t := c.rest + unread[n..];
      EndsWithAppend(w, c.rest, unread[n..]);
      if c.frame.None? {
        PullKeepsOrder(c.rest, unread[n..], failsAtEnd, decode);
        var p := Pull(c.rest, unread[n..], failsAtEnd, decode);
        EndsWithTrans(buffer + unread, t, p.buffer + p.unread);
      }
    }
  }

  /** A returned frame is the decoding of some cut byte string. */
  lemma {:induction false} FrameOnlyFromDecoder(buffer: Bytes, unread: Bytes, failsAtEnd: bool, decode: Bytes -> Option<Image>)
    ensures var p := Pull(buffer, unread, failsAtEnd, decode);
      p.outcome.Frame? ==> exists f: Bytes :: decode(f) == Some(p.outcome.image)
    decreases |unread|
  {
    if unread != [] {
      var n := Min(CHUNK, |unread|);
      var c := CutFrame(buffer + unread[..n]);
      if c.frame.None? {
        FrameOnlyFromDecoder(c.rest, unread[n..], failsAtEnd, decode);
      } else {
        assert decode(c.frame.value).Some? ==> decode(c.frame.value) == Some(decode(c.frame.value).value);
      }
    }
  }

  /** One chunk of the loop, unfolded for the proof of `ReadStream`. */
  lemma PullStep(buffer: Bytes, unread: Bytes, failsAtEnd: bool, decode: Bytes -> Option<Image>)
    requires unread != []
    ensures var n := Min(CHUNK, |unread|);
      var c := CutFrame(buffer + unread[..n]);
      var p := Pull(buffer, unread, failsAtEnd, decode);
      (c.frame.None? ==> p == Pull(c.rest, unread[n..], failsAtEnd, decode)) &&
      (c.frame.Some? ==>
         p.buffer == c.rest && p.unread == unread[n..] && !p.exhausted &&
         p.outcome == if decode(c.frame.value).Some? then Frame(decode(c.frame.value).value) else Raised)
  {
  }

  /** The `for chunk` loop of `get_frame()`: each chunk is appended to the
      buffer, which is then searched for one frame. */
  method ReadStream(buffer: Bytes, unread: Bytes, failsAtEnd: bool, decode: Bytes -> Option<Image>) returns (p: Pulled)
    ensures p == Pull(buffer, unread, failsAtEnd, decode)
  {
    var buf, rest := buffer, unread;
    while rest != []
      invariant Pull(buffer, unread, failsAtEnd, decode) == Pull(buf, rest, failsAtEnd, decode)
      decreases |rest|
    {
      var n := Min(CHUNK, |rest|);
      var chunk := rest[..n];
      PullStep(buf, rest, failsAtEnd, decode);
      rest := rest[n..];
      buf := buf + chunk;
      var start := Find(buf, MARKER, SOI);
      var end := Find(buf, MARKER, EOI);
      if start != -1 && end != -1 {
        var jpg := Slice(buf, start, end + 2);
        assert CutFrame(buf).frame == Some(jpg);
        var frame := decode(jpg);
        if frame.None? {
          return Pulled(Raised, buf[end + 2..], rest, false);
        }
        return Pulled(Frame(frame.value), buf[end + 2..], rest, false);
      }
    }
    if failsAtEnd {
      return Pulled(Raised, buf, [], false);
    }
    return Pulled(NoFrame, buf, [], true);
  }

  /** The stream reader object. */
  class Esp32Cam {
    /** The status of the response the constructor settled on. */
    var status: int
    /** The part of the body `iter_content` has not handed out yet. */
    var unread: Bytes
    /** Whether a connection error ends the body instead of a clean end. */
    var failsAtEnd: bool
    /** Whether the body was iterated to its end: iterating it again raises. */
    var exhausted: bool
    var buffer: Bytes

    /** The constructor repeats the GET until one answers 200: it settles on
        the first such answer among `attempts`. */
    constructor (attempts: seq<Response>, failsAtEnd: bool)
      requires exists k :: 0 <= k < |attempts| && attempts[k].status == 200
      ensures status == 200 && buffer == [] && !exhausted && this.failsAtEnd == failsAtEnd
      ensures exists k :: (0 <= k < |attempts| && unread == attempts[k].body &&
        attempts[k].status == 200 && forall j :: 0 <= j < k ==> attempts[j].status != 200)
    {
      var i := 0;
      while attempts[i].status != 200
        invariant 0 <= i < |attempts|
        invariant forall j :: 0 <= j < i ==> attempts[j].status != 200
        invariant exists k :: i <= k < |attempts| && attempts[k].status == 200
        decreases |attempts| - i
      {
        i := i + 1;
      }
      status := 200;
      unread := attempts[i].body;
      this.failsAtEnd := failsAtEnd;
      exhausted := false;
      buffer := [];
    }

    /** `get_frame()`. */
    method GetFrame(decode: Bytes -> Option<Image>) returns (o: Outcome)
      modifies this`buffer, this`unread, this`exhausted
      ensures old(status) != 200 ==> o == Exited && unchanged(this)
      ensures old(status) == 200 && old(exhausted) ==> o == Raised && unchanged(this)
      ensures old(status) == 200 && !old(exhausted) ==>
        Pulled(o, buffer, unread, exhausted) == Pull(old(buffer), old(unread), failsAtEnd, decode)
    {
      if status != 200 {
        return Exited;
      }
      if exhausted {
        return Raised;
      }
      var p := ReadStream(buffer, unread, failsAtEnd, decode);
      o, buffer, unread, exhausted := p.outcome, p.buffer, p.unread, p.exhausted;
    }
  }

  /** The buffer is searched only after a new chunk arrives: when the last
      chunk of the body completes two frames, the call returns the first, and
      the second stays buffered, whole, where no later call returns it. */
  lemma LastChunkSecondFrameStaysBuffered(buffer: Bytes, unread: Bytes, decode: Bytes -> Option<Image>,
                                          i: int, j: int, i2: int, j2: int)
    requires 0 < |unread| <= CHUNK
    requires TwoFrames(buffer + unread, i, j, i2, j2)
    requires decode((buffer + unread)[i..j + 2]).Some?
    ensures var w := buffer + unread;
      var p := Pull(buffer, unread, false, decode);
      p == Pulled(Frame(decode(w[i..j + 2]).value), w[j + 2..], [], false) &&
      CutFrame(p.buffer).frame == Some(w[i2..j2 + 2]) &&
      Pull(p.buffer, p.unread, false, decode) == Pulled(NoFrame, p.buffer, [], true)
  {
    var w := buffer + unread;
    assert unread[..|unread|] == unread;
    assert unread[|unread|..] == [];
    OneFramePerCut(w, i, j, i2, j2);
  }
}
