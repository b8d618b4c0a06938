/** The 16x2 character LCD of the ESP32-S2 firmware: printing a text over one
    or two rows, a marquee that scrolls two texts by one character every
    half second, and a progress bar on the bottom row. The LiquidCrystal
    driver is modelled by what it leaves on the glass: two rows of 16
    visible cells and a cursor. `millis()` is an input. */
module LcdDisplay {

  import opened Numeric
  import opened Arduino

  /** Visible cells per row. */
  const WIDTH: nat := 16

  /** The character the firmware loads into CGRAM slot 0: a full block. */
  const FULL_BLOCK: char := '\0'

  /** A row of 16 blanks. */
  const BLANK_LINE: seq<char> := "                "

  /** The glass and the cursor. The HD44780 keeps 40 columns of memory per
      row, of which the first 16 are visible; a write past column 15 lands
      in the hidden part, so only the cursor remembers it. */
  datatype Lcd = Lcd(lines: seq<seq<char>>, row: nat, col: nat) {
    ghost predicate Valid() {
      |lines| == 2 && |lines[0]| == WIDTH && |lines[1]| == WIDTH && row <= 1
    }
  }

  /** `lcd.clear()`: blank rows, cursor home. */
  const CLEARED: Lcd := Lcd([BLANK_LINE, BLANK_LINE], 0, 0)

  /** `lcd.setCursor(col, row)`, the row clamped to the last one. */
  function SetCursor(l: Lcd, col: nat, row: nat): Lcd {
    Lcd(l.lines, if row >= 2 then 1 else row, col)
  }

  /** `lcd.write(c)`: the cell under the cursor takes `c` when visible; the
      cursor moves one column right. */
  function Write(l: Lcd, c: char): (r: Lcd)
    requires l.Valid()
    ensures r.Valid()
  {
    if l.col < WIDTH then
      l.(lines := l.lines[l.row := l.lines[l.row][l.col := c]], col := l.col + 1)
    else l.(col := l.col + 1)
  }

  /** `lcd.print(s)`: one write per character. */
  function PrintStr(l: Lcd, s: seq<char>): (r: Lcd)
    requires l.Valid()
    ensures r.Valid()
    decreases |s|
  {
    if s == [] then l else PrintStr(Write(l, s[0]), s[1..])
  }

  /** `s` laid over `line` from column `at`, clipped to the visible cells. */
  function Overlay(line: seq<char>, at: nat, s: seq<char>): (r: seq<char>)
    ensures |r| == |line|
  {
    seq(|line|, j requires 0 <= j < |line| => if at <= j < at + |s| then s[j - at] else line[j])
  }

  /** A string shorter than a row, followed by blanks to the end of it. */
  function Padded(s: seq<char>): (r: seq<char>)
    requires |s| <= WIDTH
    ensures |r| == WIDTH && r[..|s|] == s
    ensures forall j :: |s| <= j < WIDTH ==> r[j] == ' '
  {
    s + seq(WIDTH - |s|, _ => ' ')
  }

  lemma OverlayBlank(s: seq<char>)
    requires |s| <= WIDTH
    ensures Overlay(BLANK_LINE, 0, s) == Padded(s)
  {
    assert forall j :: 0 <= j < WIDTH ==> Overlay(BLANK_LINE, 0, s)[j] == Padded(s)[j];
  }

  /** Printing lays the string over the cursor's row from the cursor's
      column and moves the cursor past it; the other row is untouched. */
  lemma {:induction false} PrintOverlays(l: Lcd, s: seq<char>)
    requires l.Valid()
    ensures PrintStr(l, s) ==
      l.(lines := l.lines[l.row := Overlay(l.lines[l.row], l.col, s)], col := l.col + |s|)
    decreases |s|
  {
    var line := l.lines[l.row];
    if s == [] {
      assert Overlay(line, l.col, s) == line;
      assert l.lines[l.row := line] == l.lines;
    } else {
      var w := Write(l, s[0]);
      PrintOverlays(w, s[1..]);
      var once := Overlay(line, l.col, [s[0]]);
      assert w.lines[w.row] == once;
      assert w == l.(lines := l.lines[l.row := once], col := l.col + 1);
      assert Overlay(once, l.col + 1, s[1..]) == Overlay(line, l.col, s);
    }
  }

  /** Printing one more character is one more write. */
  lemma {:induction false} PrintAppend(l: Lcd, s: seq<char>, c: char)
    requires l.Valid()
    ensures PrintStr(l, s + [c]) == Write(PrintStr(l, s), c)
    decreases |s|
  {
    if s == [] {
      assert [c][1..] == [];
    } else {
      assert (s + [c])[1..] == s[1..] + [c];
      PrintAppend(Write(l, s[0]), s[1..], c);
    }
  }

  /** Arduino's `String::substring(left, right)`: the bounds are swapped
      when reversed, a start at or past the end gives "", and the end is
      clamped to the length. */
  function Substring(s: seq<char>, left: nat, right: nat): (r: seq<char>)
    ensures |r| <= |s|
  {
    if left > right then Substring(s, right, left)
    else if left >= |s| then []
    else s[left..Min(right, |s|)]
  }

  /** A window of at most 16 characters, the slice of the text that starts
      at the given index. */
  lemma WindowIsSlice(t: seq<char>, i: nat)
    ensures |Substring(t, i, i + WIDTH)| <= WIDTH
    ensures i < |t| ==> Substring(t, i, i + WIDTH) == t[i..Min(i + WIDTH, |t|)]
    ensures |t| <= i ==> Substring(t, i, i + WIDTH) == []
  {
  }

  /** What the display object holds: the LCD, the time of the last scroll
      step (the corrected `unsigned long`), the scroll index and the two
      scrolling texts. */
  datatype DisplayState = DisplayState(lcd: Lcd, ms: U32, scrollIndex: nat, text1: seq<char>, text2: seq<char>)

  /** The cleared glass with the windows of both texts from index `i`, the
      cursor left after the bottom one. */
  function Windowed(t1: seq<char>, t2: seq<char>, i: nat): (l: Lcd)
    ensures l.Valid()
  {
    PrintStr(SetCursor(PrintStr(CLEARED, Substring(t1, i, i + WIDTH)), 0, 1), Substring(t2, i, i + WIDTH))
  }

  /** The index after a scroll step: one further, back to 0 once it is past
      the ends of both texts. */
  function NextIndex(i: nat, t1: seq<char>, t2: seq<char>): nat {
    if i + 1 >= |t1| && i + 1 >= |t2| then 0 else i + 1
  }

  /** `scroll(txt1, txt2)`. */
  function Scrolled(d: DisplayState, t1: seq<char>, t2: seq<char>, now: U32): DisplayState {
    DisplayState(Windowed(t1, t2, 0), now, 1, t1, t2)
  }

  /** `print(text)`. */
  function Printed(d: DisplayState, text: seq<char>, now: U32): DisplayState {
    if |text| < 16 then d.(text1 := [], text2 := [], lcd := PrintStr(CLEARED, Substring(text, 0, 16)))
    else if |text| < 32 then
      d.(text1 := [], text2 := [],
         lcd := PrintStr(SetCursor(PrintStr(CLEARED, Substring(text, 0, 16)), 0, 1), Substring(text, 16, 32)))
    else Scrolled(Cleared(d), text, [], now)
  }

  /** `clear`. */
  function Cleared(d: DisplayState): DisplayState {
    d.(text1 := [], text2 := [], lcd := CLEARED)
  }

  /** The ESP32 core's `map(percentage, 0, 100, 0, 16)`: `long` arithmetic
      with C's truncating division. */
  function Blocks(percentage: I32): int {
    TruncDiv(ToI32(percentage * 16), 100)
  }

  /** The 16 cells of the bar: full blocks before `blocks`, blanks after. */
  function BarCells(blocks: int): seq<char> {
    seq(WIDTH, i => if i < blocks then FULL_BLOCK else ' ')
  }

  /** The loop of `printProgressBar`: 16 writes from the cursor, a full
      block for each cell before `blocks`, a blank for the others. */
  method DrawBar(l: Lcd, blocks: int) returns (r: Lcd)
    requires l.Valid()
    ensures r == PrintStr(l, BarCells(blocks))
  {
    r := l;
    for i := 0 to WIDTH
      invariant r.Valid()
      invariant r == PrintStr(l, BarCells(blocks)[..i])
    {
      var cell := if i < blocks then FULL_BLOCK else ' ';
      assert BarCells(blocks)[..i + 1] == BarCells(blocks)[..i] + [cell];
      PrintAppend(l, BarCells(blocks)[..i], cell);
      r := Write(r, cell);
    }
    assert BarCells(blocks)[..WIDTH] == BarCells(blocks);
  }

  /** `printProgressBar(text, percentage)`: the caption at the cursor, wherever
      it is, then the bar over the whole bottom row. */
  function WithProgressBar(d: DisplayState, text: seq<char>, percentage: I32): DisplayState
    requires d.lcd.Valid()
  {
    d.(lcd := PrintStr(SetCursor(PrintStr(d.lcd, Substring(text, 0, 16)), 0, 1), BarCells(Blocks(percentage))))
  }

  /** `millis() - ms > 500` as written: `ms` is a `float`, so the unsigned
      subtraction becomes a floating one. */
  predicate DueAsWritten(now: U32, ms: real) {
    now as real - ms > 500.0
  }

  /** The same test with `ms` an `unsigned long`, as `millis()` returns. */
  predicate Due(now: U32, ms: U32) {
    Elapsed(now, ms) > 500
  }

  /** `update`: one scroll step when it is due and there is text. */
  function Refreshed(d: DisplayState, now: U32): DisplayState {
    if Due(now, d.ms) && (d.text1 != [] || d.text2 != []) then
      d.(lcd := Windowed(d.text1, d.text2, d.scrollIndex),
         scrollIndex := NextIndex(d.scrollIndex, d.text1, d.text2), ms := now)
    else d
  }

  /** As written, a scroll step stamped within the last 500 ms before
      `millis()` wraps is never followed by another: no later reading of
      the counter is more than 500 above the stamp. The corrected timer
      steps 501 ms later, past the wrap. */
  lemma FloatTimerStallsAfterWrap(now: U32)
    ensures !DueAsWritten(now, (TWO_32 - 400) as real)
    ensures Due(101, TWO_32 - 400)
  {
  }

  /** The corrected timer steps exactly when more than 500 ms have passed,
      across a wrap of `millis()` too. */
  lemma ScrollDueAcrossWrap(start: U32, dt: U32)
    ensures Due((start + dt) % TWO_32, start) <==> dt > 500
  {
    ElapsedAcrossWrap(start, dt);
    assert ToI32(start) == start || ToI32(start) == start - TWO_32;
    assert Elapsed((start + dt) % TWO_32, ToI32(start)) == Elapsed((start + dt) % TWO_32, start) by {
      var now := (start + dt) % TWO_32;
      if ToI32(start) != start {
        assert now - ToI32(start) == now - start + TWO_32;
      }
    }
  }

  /** A string of at most 16 characters printed on the cleared glass. */
  lemma PrintOnCleared(s: seq<char>)
    requires |s| <= WIDTH
    ensures PrintStr(CLEARED, s) == Lcd([Padded(s), BLANK_LINE], 0, |s|)
  {
    PrintOnClearedTop(s);
    OverlayBlank(s);
  }

  lemma PrintOnClearedTop(s: seq<char>)
    ensures PrintStr(CLEARED, s) == Lcd([Overlay(BLANK_LINE, 0, s), BLANK_LINE], 0, |s|)
  {
    PrintFromHome(CLEARED, s);
  }

  /** Printing from the home position covers the top row from the left. */
  lemma PrintFromHome(l: Lcd, s: seq<char>)
    requires l.Valid() && l.row == 0 && l.col == 0
    ensures PrintStr(l, s) == Lcd([Overlay(l.lines[0], 0, s), l.lines[1]], 0, |s|)
  {
    PrintOverlays(l, s);
    var top := Overlay(l.lines[0], 0, s);
    assert l.lines[0 := top] == [top, l.lines[1]];
  }

  /** A string of at most 16 characters printed from the start of the
      bottom row covers it from the left; the top row is untouched. */
  lemma PrintOnBottomRow(l: Lcd, s: seq<char>)
    requires l.Valid() && |s| <= WIDTH
    ensures PrintStr(SetCursor(l, 0, 1), s) == Lcd([l.lines[0], Overlay(l.lines[1], 0, s)], 1, |s|)
  {
    PrintOverlays(SetCursor(l, 0, 1), s);
  }

  /** The windows of a scroll step: each row shows its text's 16-character
      window from the index, padded with blanks, and the cursor rests after
      the bottom window. */
  lemma WindowedShows(t1: seq<char>, t2: seq<char>, i: nat)
    ensures var l := Windowed(t1, t2, i);
      l.lines == [Padded(Substring(t1, i, i + WIDTH)), Padded(Substring(t2, i, i + WIDTH))] &&
      l.row == 1 && l.col == |Substring(t2, i, i + WIDTH)| <= WIDTH
  {
    var w1, w2 := Substring(t1, i, i + WIDTH), Substring(t2, i, i + WIDTH);
    WindowIsSlice(t1, i);
    WindowIsSlice(t2, i);
    PrintOnCleared(w1);
    PrintOnBottomRow(PrintStr(CLEARED, w1), w2);
    OverlayBlank(w2);
  }

  /** `print` of a text shorter than a row: the text on the top row, the
      bottom row blank, any marquee texts dropped. */
  lemma PrintShortText(d: DisplayState, text: seq<char>, now: U32)
    requires |text| < 16
    ensures var p := Printed(d, text, now);
      p.lcd == Lcd([Padded(text), BLANK_LINE], 0, |text|) && p.text1 == [] && p.text2 == []
  {
    assert Substring(text, 0, 16) == text;
    PrintOnCleared(text);
  }

  /** `print` of a text of 16 to 31 characters: its first 16 characters on
      the top row, the rest on the bottom row, marquee texts dropped. */
  lemma PrintTwoRows(d: DisplayState, text: seq<char>, now: U32)
    requires 16 <= |text| < 32
    ensures var p := Printed(d, text, now);
      p.lcd == Lcd([text[..16], Padded(text[16..])], 1, |text| - 16) && p.text1 == [] && p.text2 == []
  {
    assert Substring(text, 0, 16) == text[..16];
    assert Substring(text, 16, 32) == text[16..];
    PrintOnCleared(text[..16]);
    assert Padded(text[..16]) == text[..16];
    PrintOnBottomRow(PrintStr(CLEARED, text[..16]), text[16..]);
    OverlayBlank(text[16..]);
  }

  /** `print` of a text of 32 characters or more: the marquee starts on
      it, from its first 16 characters, with the bottom row blank. */
  lemma PrintLongText(d: DisplayState, text: seq<char>, now: U32)
    requires 32 <= |text|
    ensures var p := Printed(d, text, now);
      p.lcd.lines == [text[..16], BLANK_LINE] && p.lcd.col == 0 &&
      p.text1 == text && p.text2 == [] && p.scrollIndex == 1 && p.ms == now
  {
    WindowedShows(text, [], 0);
    assert Substring(text, 0, WIDTH) == text[..16];
    assert Padded(text[..16]) == text[..16];
    assert Substring([], 0, WIDTH) == [];
    assert Padded([]) == BLANK_LINE;
  }

  /** A scroll step shows the windows at the stored index and moves it on;
      nothing happens before 500 ms have passed or without text. */
  lemma RefreshShowsWindow(d: DisplayState, now: U32)
    ensures var u := Refreshed(d, now);
      if Due(now, d.ms) && (d.text1 != [] || d.text2 != []) then
        u.lcd.lines == [Padded(Substring(d.text1, d.scrollIndex, d.scrollIndex + WIDTH)),
                        Padded(Substring(d.text2, d.scrollIndex, d.scrollIndex + WIDTH))] &&
        u.scrollIndex == NextIndex(d.scrollIndex, d.text1, d.text2) && u.ms == now &&
        u.text1 == d.text1 && u.text2 == d.text2
      else u == d
  {
    WindowedShows(d.text1, d.text2, d.scrollIndex);
  }

  /** Within the longer text, a scroll step moves the index on by one modulo
      its length. */
  lemma NextIndexCycles(i: nat, t1: seq<char>, t2: seq<char>)
    requires i < Max(|t1|, |t2|)
    ensures NextIndex(i, t1, t2) == (i + 1) % Max(|t1|, |t2|)
  {
    var n := Max(|t1|, |t2|);
    if i + 1 < n {
      DivUnique(i + 1, n, 0);
    } else {
      DivUnique(i + 1, n, 1);
    }
  }

  /** The index after `k` scroll steps. */
  function IndexAfter(i: nat, t1: seq<char>, t2: seq<char>, k: nat): nat
    decreases k
  {
    if k == 0 then i else NextIndex(IndexAfter(i, t1, t2, k - 1), t1, t2)
  }

  /** The marquee walks the longer text once per cycle: `k` steps from an
      index inside it land `k` places further modulo its length, so it
      returns to the same window every `Max(|t1|, |t2|)` steps. */
  lemma {:induction false} MarqueeCycles(i: nat, t1: seq<char>, t2: seq<char>, k: nat)
    requires i < Max(|t1|, |t2|)
    ensures IndexAfter(i, t1, t2, k) == (i + k) % Max(|t1|, |t2|)
    decreases k
  {
    var n := Max(|t1|, |t2|);
    if k == 0 {
      DivUnique(i, n, 0);
    } else {
      MarqueeCycles(i, t1, t2, k - 1);
      var j := IndexAfter(i, t1, t2, k - 1);
      NextIndexCycles(j, t1, t2);
      ModSucc(i + k - 1, n);
    }
  }

  /** Stepping a remainder on by one is the remainder of the next number. */
  lemma ModSucc(v: nat, n: nat)
    requires 0 < n
    ensures ((v % n) + 1) % n == (v + 1) % n
  {
    var q, r := v / n, v % n;
    if r + 1 < n {
      DivUnique(v + 1, n, q);
      DivUnique(r + 1, n, 0);
    } else {
      DivUnique(v + 1, n, q + 1);
      DivUnique(r + 1, n, 1);
    }
  }

  /** For a percentage from 0 to 100 the bar has the proportional number of
      full blocks, rounded down, from 0 to 16; more blocks for a larger
      percentage. */
  lemma BlocksProportional(p: I32, q: I32)
    requires 0 <= p <= q <= 100
    ensures Blocks(p) * 100 <= p * 16 < (Blocks(p) + 1) * 100
    ensures 0 <= Blocks(p) <= Blocks(q) <= 16
  {
    assert ToI32(p * 16) == p * 16 && ToI32(q * 16) == q * 16;
    TruncDivBounds(p * 16, 100);
    TruncDivBounds(q * 16, 100);
    DivUnique(q * 16, 100, Blocks(q));
    DivUnique(p * 16, 100, Blocks(p));
    if Blocks(q) < Blocks(p) {
      MulLeft(Blocks(q) + 1, Blocks(p), 100);
    }
    if 16 < Blocks(q) {
      MulLeft(17, Blocks(q), 100);
    }
  }

  /** The bar fills exactly the whole bottom row, the top row keeps
      whatever the caption left there, and the cursor ends after the bar.
      The caption, printed at the cursor
      without moving it first, never reaches the 40th column of the LCD's
      memory when the cursor started within the visible columns. */
  lemma ProgressBarRow(d: DisplayState, text: seq<char>, percentage: I32)
    requires d.lcd.Valid() && d.lcd.col <= WIDTH
    ensures var l := WithProgressBar(d, text, percentage).lcd;
      var labelled := PrintStr(d.lcd, Substring(text, 0, 16));
      labelled.col <= 2 * WIDTH < 40 &&
      l.lines == [labelled.lines[0], BarCells(Blocks(percentage))] &&
      l.row == 1 && l.col == WIDTH
  {
    var caption := Substring(text, 0, 16);
    var labelled := PrintStr(d.lcd, caption);
    PrintOverlays(d.lcd, caption);
    var bar := BarCells(Blocks(percentage));
    PrintOnBottomRow(labelled, bar);
    assert Overlay(labelled.lines[1], 0, bar) == bar;
  }

  /** The cells of the bar: a full block exactly before `Blocks`; all full
      from 100% on, all blank at 0% and below (as long as `percentage * 16`
      does not overflow). */
  lemma BarCellsFill(percentage: I32)
    ensures var bar := BarCells(Blocks(percentage));
      (forall i :: 0 <= i < WIDTH ==> (bar[i] == FULL_BLOCK <==> i < Blocks(percentage))) &&
      (100 <= percentage < 0x800_0000 ==> bar == seq(WIDTH, _ => FULL_BLOCK)) &&
      (-0x800_0000 <= percentage <= 0 ==> bar == BLANK_LINE)
  {
    var bar := BarCells(Blocks(percentage));
    if 100 <= percentage < 0x800_0000 {
      assert ToI32(percentage * 16) == percentage * 16;
      TruncDivBounds(percentage * 16, 100);
      if Blocks(percentage) < 16 {
        MulLeft(Blocks(percentage) + 1, 16, 100);
      }
      assert bar == seq(WIDTH, _ => FULL_BLOCK);
    }
    if -0x800_0000 <= percentage <= 0 {
      assert ToI32(percentage * 16) == percentage * 16;
      TruncDivBounds(percentage * 16, 100);
      assert bar == BLANK_LINE;
    }
  }

  /** The caption goes wherever the cursor is: after another progress bar the
      cursor sits past the bar on the bottom row, so a second call's caption
      lands in the hidden columns and the top row keeps the first caption. */
  lemma SecondLabelIsHidden(d: DisplayState, text1: seq<char>, text2: seq<char>, p1: I32, p2: I32)
    requires d.lcd.Valid() && d.lcd.col <= WIDTH
    ensures var first := WithProgressBar(d, text1, p1);
      WithProgressBar(first, text2, p2).lcd.lines == first.lcd.lines[1 := BarCells(Blocks(p2))]
  {
    var first := WithProgressBar(d, text1, p1);
    ProgressBarRow(d, text1, p1);
    ProgressBarRow(first, text2, p2);
    var caption := Substring(text2, 0, 16);
    PrintOverlays(first.lcd, caption);
    assert Overlay(first.lcd.lines[1], WIDTH, caption) == first.lcd.lines[1];
  }

  /** What every operation keeps: a well-formed LCD, the cursor within the
      visible columns, and a scroll index within the longer text unless
      both texts are empty. */
  ghost predicate Invariant(d: DisplayState) {
    d.lcd.Valid() && d.lcd.col <= WIDTH &&
    ((d.text1 == [] && d.text2 == []) || d.scrollIndex <= Max(|d.text1|, |d.text2|))
  }

  lemma PrintKeepsInvariant(d: DisplayState, text: seq<char>, now: U32)
    ensures Invariant(Printed(d, text, now)) && Invariant(Cleared(d))
  {
    if |text| < 16 {
      PrintShortText(d, text, now);
    } else if |text| < 32 {
      PrintTwoRows(d, text, now);
    } else {
      PrintLongText(d, text, now);
    }
  }

  lemma ScrollKeepsInvariant(d: DisplayState, t1: seq<char>, t2: seq<char>, now: U32)
    ensures Invariant(Scrolled(d, t1, t2, now))
  {
    WindowedShows(t1, t2, 0);
  }

  lemma ProgressBarKeepsInvariant(d: DisplayState, text: seq<char>, p: I32)
    requires Invariant(d)
    ensures Invariant(WithProgressBar(d, text, p))
  {
    ProgressBarRow(d, text, p);
  }

  /** A scroll step keeps the invariant, and a moved index is 0 or inside
      the longer text. */
  lemma RefreshKeepsInvariant(d: DisplayState, now: U32)
    requires Invariant(d)
    ensures Invariant(Refreshed(d, now))
    ensures var u := Refreshed(d, now);
      u.scrollIndex != d.scrollIndex ==> u.scrollIndex == 0 || u.scrollIndex < Max(|d.text1|, |d.text2|)
  {
    WindowedShows(d.text1, d.text2, d.scrollIndex);
  }

  /** The display object. */
  class Display {
    var lcd: Lcd
    var ms: U32
    var scrollIndex: nat
    var text1: seq<char>
    var text2: seq<char>

    function State(): DisplayState
      reads this
    {
      DisplayState(lcd, ms, scrollIndex, text1, text2)
    }

    /** `ms`, `scrollIndex` and both texts at their initialisers, the LCD as
        `setup` leaves it: cleared. */
    constructor ()
      ensures State() == DisplayState(CLEARED, 0, 0, [], []) && Invariant(State())
    {
      lcd := CLEARED;
      ms := 0;
      scrollIndex := 0;
      text1, text2 := [], [];
    }

    /** `print`. */
    method Print(text: seq<char>, now: U32)
      modifies this
      ensures State() == Printed(old(State()), text, now)
    {
      text1, text2 := [], [];
      lcd := CLEARED;
      if |text| < 16 {
        lcd := PrintStr(lcd, Substring(text, 0, 16));
      } else if |text| < 32 {
        lcd := PrintStr(lcd, Substring(text, 0, 16));
        lcd := SetCursor(lcd, 0, 1);
        lcd := PrintStr(lcd, Substring(text, 16, 32));
      } else {
        Scroll(text, [], now);
      }
    }

    /** `printProgressBar`: the caption, then the bar cell by cell. */
    method PrintProgressBar(text: seq<char>, percentage: I32)
      requires lcd.Valid()
      modifies this
      ensures State() == WithProgressBar(old(State()), text, percentage)
    {
      lcd := PrintStr(lcd, Substring(text, 0, 16));
      var blocks := Blocks(percentage);
      lcd := SetCursor(lcd, 0, 1);
      lcd := DrawBar(lcd, blocks);
    }

    /** `scroll`. */
    method Scroll(txt1: seq<char>, txt2: seq<char>, now: U32)
      modifies this
      ensures State() == Scrolled(old(State()), txt1, txt2, now)
    {
      lcd := CLEARED;
      text1, text2 := txt1, txt2;
      scrollIndex := 0;
      lcd := PrintStr(lcd, Substring(text1, scrollIndex, scrollIndex + 16));
      lcd := SetCursor(lcd, 0, 1);
      lcd := PrintStr(lcd, Substring(text2, scrollIndex, scrollIndex + 16));
      scrollIndex := scrollIndex + 1;
      ms := now;
    }

    /** `clear`. */
    method Clear()
      modifies this
      ensures State() == Cleared(old(State()))
    {
      text1, text2 := [], [];
      lcd := CLEARED;
    }

    /** `update`, with the corrected timer. */
    method Update(now: U32)
      modifies this
      ensures State() == Refreshed(old(State()), now)
    {
      if Elapsed(now, ms) > 500 && (text1 != [] || text2 != []) {
        lcd := CLEARED;
        lcd := SetCursor(lcd, 0, 0);
        lcd := PrintStr(lcd, Substring(text1, scrollIndex, scrollIndex + 16));
        lcd := SetCursor(lcd, 0, 1);
        lcd := PrintStr(lcd, Substring(text2, scrollIndex, scrollIndex + 16));
        scrollIndex := scrollIndex + 1;
        if scrollIndex >= |text1| && scrollIndex >= |text2| {
          scrollIndex := 0;
        }
        ms := now;
      }
    }
  }
}
