/** Cutting JPEG frames out of a byte stream, the step shared by the UDP
    receiver and the HTTP stream reader: find the first start-of-image marker
    (0xFF 0xD8) and the first end-of-image marker (0xFF 0xD9) of the buffer,
    both searched from offset 0 (ITU-T T.81, Annex B, Table B.1), and when
    both are present cut `buffer[start:end+2]` and keep `buffer[end+2:]`. */
module JpegFraming {

  import opened Wrappers

  type Byte = x: int | 0 <= x < 256

  type Bytes = seq<Byte>

  const MARKER: Byte := 0xFF
  const SOI: Byte := 0xD8
  const EOI: Byte := 0xD9

  /** A decoded image, as handed back by the JPEG decoder. */
  datatype Image = Image(pixels: seq<int>)

  /** The two-byte marker `a b` occurs at offset `i`. */
  predicate MarkerAt(s: Bytes, i: int, a: Byte, b: Byte) {
    0 <= i && i + 1 < |s| && s[i] == a && s[i + 1] == b
  }

  /** `bytes.find(bytes([a, b]), from)`: the lowest offset at or after `from`
      where the marker occurs, or -1. */
  function FindFrom(s: Bytes, a: Byte, b: Byte, from: nat): (r: int)
    requires from <= |s|
    ensures r == -1 || (from <= r && MarkerAt(s, r, a, b))
    ensures r == -1 ==> forall i :: from <= i < |s| ==> !MarkerAt(s, i, a, b)
    ensures r != -1 ==> forall i :: from <= i < r ==> !MarkerAt(s, i, a, b)
    decreases |s| - from
  {
    if from + 1 >= |s| then -1
    else if s[from] == a && s[from + 1] == b then from
    else FindFrom(s, a, b, from + 1)
  }

  /** `bytes.find(bytes([a, b]))`. */
  function Find(s: Bytes, a: Byte, b: Byte): (r: int)
    ensures r == -1 <==> forall i :: 0 <= i < |s| ==> !MarkerAt(s, i, a, b)
    ensures r != -1 ==> MarkerAt(s, r, a, b) && forall i :: 0 <= i < r ==> !MarkerAt(s, i, a, b)
  {
    FindFrom(s, a, b, 0)
  }

  /** Python's `s[lo:hi]` for in-range bounds: empty when `lo > hi`. */
  function Slice(s: Bytes, lo: nat, hi: nat): Bytes
    requires lo <= |s| && hi <= |s|
  {
    if lo <= hi then s[lo..hi] else []
  }

  /** The outcome of one marker search: the cut frame, if any, and the bytes
      that stay buffered. */
  datatype Cut = Cut(frame: Option<Bytes>, rest: Bytes)

  function CutFrame(buffer: Bytes): Cut {
    var start := Find(buffer, MARKER, SOI);
    var end := Find(buffer, MARKER, EOI);
    if start != -1 && end != -1 then
      Cut(Some(Slice(buffer, start, end + 2)), buffer[end + 2..])
    else
      Cut(None, buffer)
  }

  /** A frame is cut exactly when both markers occur somewhere in the buffer;
      otherwise every byte stays buffered. */
  lemma CutIffBothMarkers(buffer: Bytes)
    ensures CutFrame(buffer).frame.Some? <==>
      (exists i :: MarkerAt(buffer, i, MARKER, SOI)) && (exists j :: MarkerAt(buffer, j, MARKER, EOI))
    ensures CutFrame(buffer).frame.None? ==> CutFrame(buffer).rest == buffer
  {
    var start := Find(buffer, MARKER, SOI);
    var end := Find(buffer, MARKER, EOI);
    if start != -1 {
      assert MarkerAt(buffer, start, MARKER, SOI);
    }
    if end != -1 {
      assert MarkerAt(buffer, end, MARKER, EOI);
    }
  }

  /** When both markers occur, the buffer afterwards is exactly what follows
      the first end marker. */
  lemma CutKeepsAfterFirstEnd(buffer: Bytes)
    requires CutFrame(buffer).frame.Some?
    ensures var end := Find(buffer, MARKER, EOI);
      0 <= end && CutFrame(buffer).rest == buffer[end + 2..] &&
      MarkerAt(buffer, end, MARKER, EOI) &&
      forall i :: 0 <= i < end ==> !MarkerAt(buffer, i, MARKER, EOI)
  {
  }

  /** When the start marker comes first, the frame runs from it through the
      first end marker: it opens with SOI, closes with EOI, holds no earlier
      EOI, and the buffer is exactly the discarded prefix, the frame and the
      kept rest. */
  lemma {:induction false} CutFrameDelimited(buffer: Bytes)
    requires var start := Find(buffer, MARKER, SOI);
      var end := Find(buffer, MARKER, EOI);
      start != -1 && end != -1 && start < end
    ensures var start := Find(buffer, MARKER, SOI);
      var c := CutFrame(buffer);
      c.frame.Some? &&
      buffer == buffer[..start] + c.frame.value + c.rest &&
      MarkerAt(c.frame.value, 0, MARKER, SOI) &&
      MarkerAt(c.frame.value, |c.frame.value| - 2, MARKER, EOI) &&
      Find(c.frame.value, MARKER, EOI) == |c.frame.value| - 2
  {
    var start := Find(buffer, MARKER, SOI);
    var end := Find(buffer, MARKER, EOI);
    var f := buffer[start..end + 2];
    assert CutFrame(buffer).frame.value == f;
    assert buffer == buffer[..start] + f + buffer[end + 2..];
    assert MarkerAt(f, |f| - 2, MARKER, EOI);
    forall i | 0 <= i < |f| - 2
      ensures !MarkerAt(f, i, MARKER, EOI)
    {
      assert !MarkerAt(buffer, start + i, MARKER, EOI);
    }
  }

  /** Both searches start at offset 0: an end marker before the start marker
      yields an empty frame and still discards everything through it. */
  lemma EndBeforeStartYieldsEmptyFrame(buffer: Bytes)
    requires var start := Find(buffer, MARKER, SOI);
      var end := Find(buffer, MARKER, EOI);
      start != -1 && end != -1 && end < start
    ensures var end := Find(buffer, MARKER, EOI);
      CutFrame(buffer) == Cut(Some([]), buffer[end + 2..])
  {
    var start := Find(buffer, MARKER, SOI);
    var end := Find(buffer, MARKER, EOI);
    assert MarkerAt(buffer, start, MARKER, SOI) && MarkerAt(buffer, end, MARKER, EOI);
    // the end marker's second byte is not 0xFF, so the start marker cannot begin there
    assert start != end + 1;
    assert Slice(buffer, start, end + 2) == [];
  }

  /** The bytes kept after a cut are a suffix of the buffer. */
  lemma CutRestIsSuffix(buffer: Bytes)
    ensures var r := CutFrame(buffer).rest;
      |r| <= |buffer| && r == buffer[|buffer| - |r|..]
  {
  }

  /** The first `0xFF b` marker at or after `from` is at `i`. */
  predicate FirstMarkerFrom(s: Bytes, from: nat, i: int, b: Byte) {
    from <= i && MarkerAt(s, i, MARKER, b) &&
    forall k :: from <= k < i ==> !MarkerAt(s, k, MARKER, b)
  }

  /** A buffer holding two complete frames: the first start and end markers
      at `i < j`, and after them the next start and end markers at
      `i2 < j2`. */
  predicate TwoFrames(s: Bytes, i: int, j: int, i2: int, j2: int) {
    FirstMarkerFrom(s, 0, i, SOI) && FirstMarkerFrom(s, 0, j, EOI) && i < j &&
    FirstMarkerFrom(s, j + 2, i2, SOI) && FirstMarkerFrom(s, j + 2, j2, EOI) && i2 < j2
  }

  /** The search finds the first marker. */
  lemma FindFirst(s: Bytes, i: int, b: Byte)
    requires FirstMarkerFrom(s, 0, i, b)
    ensures Find(s, MARKER, b) == i
  {
  }

  /** Markers in a suffix are markers of the buffer, shifted. */
  lemma MarkerInSuffix(s: Bytes, o: nat, k: int, b: Byte)
    requires o <= |s|
    ensures MarkerAt(s[o..], k, MARKER, b) <==> 0 <= k && MarkerAt(s, k + o, MARKER, b)
  {
  }

  /** One search cuts one frame: of a buffer holding two complete frames the
      first cut returns exactly the first frame and keeps everything after
      its end marker, and a second cut of what is kept returns exactly the
      second frame. */
  lemma OneFramePerCut(s: Bytes, i: int, j: int, i2: int, j2: int)
    requires TwoFrames(s, i, j, i2, j2)
    ensures CutFrame(s) == Cut(Some(s[i..j + 2]), s[j + 2..])
    ensures CutFrame(s[j + 2..]) == Cut(Some(s[i2..j2 + 2]), s[j2 + 2..])
  {
    FindFirst(s, i, SOI);
    FindFirst(s, j, EOI);
    var r := s[j + 2..];
    var o := j + 2;
    forall k ensures MarkerAt(r, k, MARKER, SOI) <==> 0 <= k && MarkerAt(s, k + o, MARKER, SOI) {
      MarkerInSuffix(s, o, k, SOI);
    }
    forall k ensures MarkerAt(r, k, MARKER, EOI) <==> 0 <= k && MarkerAt(s, k + o, MARKER, EOI) {
      MarkerInSuffix(s, o, k, EOI);
    }
    assert FirstMarkerFrom(r, 0, i2 - o, SOI) by {
      forall k | 0 <= k < i2 - o ensures !MarkerAt(r, k, MARKER, SOI) {
        assert !MarkerAt(s, k + o, MARKER, SOI);
      }
    }
    assert FirstMarkerFrom(r, 0, j2 - o, EOI) by {
      forall k | 0 <= k < j2 - o ensures !MarkerAt(r, k, MARKER, EOI) {
        assert !MarkerAt(s, k + o, MARKER, EOI);
      }
    }
    FindFirst(r, i2 - o, SOI);
    FindFirst(r, j2 - o, EOI);
    assert r[i2 - o..j2 - o + 2] == s[i2..j2 + 2];
    assert r[j2 - o + 2..] == s[j2 + 2..];
  }
}
