/**
 * The on-screen keyboard of the VR client: its constant four-row layout in
 * the 640x480 virtual screen, hit-testing of the menu cursor against the
 * keys, and the mode / caps-lock state machine driven by clicks.
 *
 * Key widths are kept in tenths of a key (the layout's 1.0, 1.3, 1.5 and
 * 4.5); the pixel width of a key is the C truncation of width x 36.
 * Characters and key presses that the keyboard feeds into the client's input
 * path are returned as a sequence of events.
 */
module VirtualKeyboard {
  import opened VrTypes

  const Rows := 4
  const KeyWidth := 36
  const KeyHeight := 32
  const KeySpacing := 4
  const RowSpacing := 4
  const Padding := 12
  const StartY := 308
  const ScreenWidth := 640
  const ScreenHeight := 480
  /** Two Shift clicks closer than this (ms) turn caps lock on. */
  const CapsLockDoubleTapTime := 400

  /** The `VKEY_*` codes; `NoSpecial` marks a character key. */
  datatype Special = NoSpecial | Shift | Backspace | Symbols | Space | Enter | Left | Right | Up | Down | Tab

  /** `vKeyDef_t` without the drawing labels; `width10` is the width in tenths of a key. */
  datatype KeyDef = KeyDef(lower: char, upper: char, symbol1: char, symbol2: char, special: Special, width10: nat)

  datatype Mode = Lowercase | Uppercase | Symbols1 | Symbols2

  function Letter(lower: char, upper: char, symbol1: char, symbol2: char): KeyDef
  {
    KeyDef(lower, upper, symbol1, symbol2, NoSpecial, 10)
  }

  function Control(special: Special, width10: nat): KeyDef
  {
    KeyDef('\0', '\0', '\0', '\0', special, width10)
  }

  const Row0: seq<KeyDef> := [
    Letter('q', 'Q', '1', '['), Letter('w', 'W', '2', ']'), Letter('e', 'E', '3', '{'),
    Letter('r', 'R', '4', '}'), Letter('t', 'T', '5', '#'), Letter('y', 'Y', '6', '%'),
    Letter('u', 'U', '7', '^'), Letter('i', 'I', '8', '*'), Letter('o', 'O', '9', '+'),
    Letter('p', 'P', '0', '=')]

  const Row1: seq<KeyDef> := [
    Control(Tab, 15),
    Letter('a', 'A', '-', '_'), Letter('s', 'S', '/', '\\'), Letter('d', 'D', ':', '|'),
    Letter('f', 'F', ';', ';'), Letter('g', 'G', '(', '<'), Letter('h', 'H', ')', '>'),
    Letter('j', 'J', '$', '`'), Letter('k', 'K', '&', '/'), Letter('l', 'L', '@', '-')]

  const Row2: seq<KeyDef> := [
    Control(Shift, 15),
    Letter('z', 'Z', '.', '.'), Letter('x', 'X', ',', ','), Letter('c', 'C', '?', '?'),
    Letter('v', 'V', '!', '!'), Letter('b', 'B', '\'', '\''), Letter('n', 'N', '"', '"'),
    Letter('m', 'M', '=', ':'),
    Control(Backspace, 15)]

  const Row3: seq<KeyDef> := [
    Control(Symbols, 13), Control(Space, 45),
    Control(Left, 10), Control(Up, 10), Control(Down, 10), Control(Right, 10),
    Control(Enter, 13)]

  const Layout: seq<seq<KeyDef>> := [Row0, Row1, Row2, Row3]

  /** `(int)(width * KEYBOARD_KEY_WIDTH)`. */
  function KeyPixels(k: KeyDef): nat
  {
    k.width10 * KeyWidth / 10
  }

  /** The summed pixel widths of the keys of `row`. */
  function KeysWidth(row: seq<KeyDef>): nat
  {
    if row == [] then 0 else KeysWidth(row[..|row| - 1]) + KeyPixels(row[|row| - 1])
  }

  /** `VKeyboard_GetRowWidth`: the keys and the gaps between them. */
  function RowWidth(row: seq<KeyDef>): (w: nat)
    ensures |row| <= 1 ==> w == KeysWidth(row)
    ensures |row| > 1 ==> w == KeysWidth(row) + (|row| - 1) * KeySpacing
  {
    KeysWidth(row) + if |row| > 1 then (|row| - 1) * KeySpacing else 0
  }

  /** `VKeyboard_GetMaxRowWidth`. */
  function MaxRowWidth(): (w: nat)
    ensures forall r :: 0 <= r < Rows ==> RowWidth(Layout[r]) <= w
    ensures exists r :: 0 <= r < Rows && RowWidth(Layout[r]) == w
  {
    var w0, w1, w2, w3 := RowWidth(Row0), RowWidth(Row1), RowWidth(Row2), RowWidth(Row3);
    var m01 := if w1 > w0 then w1 else w0;
    var m012 := if w2 > m01 then w2 else m01;
    assert RowWidth(Layout[0]) == w0 && RowWidth(Layout[1]) == w1;
    assert RowWidth(Layout[2]) == w2 && RowWidth(Layout[3]) == w3;
    if w3 > m012 then w3 else m012
  }

  /** The row widths of the layout in pixels; the widest row (the bottom one) sets the background. */
  lemma LayoutWidths()
    ensures RowWidth(Row0) == 396 && RowWidth(Row1) == 414 && RowWidth(Row2) == 392 && RowWidth(Row3) == 422
    ensures MaxRowWidth() == 422
  {
    UniformWidth(Row0);
    Row1Width();
    Row2Width();
    Row3Width();
  }

  /** The home row: a wider first key, then one-key-wide keys. */
  lemma Row1Width()
    ensures RowWidth(Row1) == 414
  {
    assert Row1 == [Row1[0]] + Row1[1..];
    UniformWidth(Row1[1..]);
    KeysWidthAppend([Row1[0]], Row1[1..]);
  }

  /** The third row: wide keys at both ends around one-key-wide keys. */
  lemma Row2Width()
    ensures RowWidth(Row2) == 392
  {
    assert Row2 == [Row2[0]] + Row2[1..8] + [Row2[8]];
    UniformWidth(Row2[1..8]);
    KeysWidthAppend([Row2[0]], Row2[1..8]);
    KeysWidthAppend([Row2[0]] + Row2[1..8], [Row2[8]]);
  }

  /** The bottom row, with the space bar. */
  lemma Row3Width()
    ensures RowWidth(Row3) == 422
  {
    assert Row3 == [Row3[0]] + [Row3[1]] + Row3[2..6] + [Row3[6]];
    UniformWidth(Row3[2..6]);
    KeysWidthAppend([Row3[0]], [Row3[1]]);
    KeysWidthAppend([Row3[0]] + [Row3[1]], Row3[2..6]);
    KeysWidthAppend([Row3[0]] + [Row3[1]] + Row3[2..6], [Row3[6]]);
  }

  /** The width of two runs of keys laid end to end. */
  lemma {:induction false} KeysWidthAppend(a: seq<KeyDef>, b: seq<KeyDef>)
    ensures KeysWidth(a + b) == KeysWidth(a) + KeysWidth(b)
    decreases |b|
  {
    if b == [] {
      assert a + b == a;
    } else {
      assert (a + b)[..|a + b| - 1] == a + b[..|b| - 1];
      KeysWidthAppend(a, b[..|b| - 1]);
    }
  }

  /** A run of one-key-wide keys is 36 pixels per key. */
  lemma {:induction false} UniformWidth(row: seq<KeyDef>)
    requires forall k :: k in row ==> k.width10 == 10
    ensures KeysWidth(row) == KeyWidth * |row|
  {
    if row != [] {
      UniformWidth(row[..|row| - 1]);
    }
  }

  /** `VKeyboard_GetStartX`: the left edge that centres a row; C division, here of a positive number. */
  function StartX(rowWidth: int): int
  {
    (ScreenWidth - rowWidth) / 2
  }

  /** The top edge of row `r`. */
  function RowY(r: nat): int
  {
    StartY + r * (KeyHeight + RowSpacing)
  }

  /** The distance from the start of a row to the left edge of its key `i`. */
  function Offset(row: seq<KeyDef>, i: nat): nat
    requires i <= |row|
  {
    if i == 0 then 0 else Offset(row, i - 1) + KeyPixels(row[i - 1]) + KeySpacing
  }

  /** The point lies in the closed box of key `i` of `row` when the row starts at `left`. */
  predicate InKey(row: seq<KeyDef>, left: int, i: nat, x: int)
    requires i < |row|
  {
    left + Offset(row, i) <= x <= left + Offset(row, i) + KeyPixels(row[i])
  }

  /** The point lies on key `i` of row `r` of the layout. */
  predicate Hits(r: nat, i: nat, x: int, y: int)
  {
    r < Rows && i < |Layout[r]|
    && RowY(r) <= y <= RowY(r) + KeyHeight
    && InKey(Layout[r], StartX(RowWidth(Layout[r])), i, x)
  }

  /** The inner loop of `VKeyboard_GetKeyAt`: the first key from `i` on whose box holds `x`. */
  function KeyInRow(row: seq<KeyDef>, left: int, i: nat, keyX: int, x: int): (k: Option<nat>)
    requires i <= |row| && keyX == left + Offset(row, i)
    ensures k.Some? ==> (i <= k.value < |row| && InKey(row, left, k.value, x)
                         && forall j :: i <= j < k.value ==> !InKey(row, left, j, x))
    ensures k.None? ==> forall j :: i <= j < |row| ==> !InKey(row, left, j, x)
    decreases |row| - i
  {
    if i == |row| then None
    else if keyX <= x <= keyX + KeyPixels(row[i]) then Some(i)
    else KeyInRow(row, left, i + 1, keyX + KeyPixels(row[i]) + KeySpacing, x)
  }

  /** The outer loop of `VKeyboard_GetKeyAt` from row `r` on. */
  function KeyAtFrom(r: nat, x: int, y: int): (k: Option<(nat, nat)>)
    requires r <= Rows
    ensures k.Some? ==> (r <= k.value.0 && Hits(k.value.0, k.value.1, x, y)
                         && (forall j :: 0 <= j < k.value.1 ==> !Hits(k.value.0, j, x, y))
                         && (forall q, j :: r <= q < k.value.0 ==> !Hits(q, j, x, y)))
    ensures k.None? ==> forall q, j :: r <= q < Rows ==> !Hits(q, j, x, y)
    decreases Rows - r
  {
    if r == Rows then None
    else if y < RowY(r) || y > RowY(r) + KeyHeight then KeyAtFrom(r + 1, x, y)
    else
      var left := StartX(RowWidth(Layout[r]));
      match KeyInRow(Layout[r], left, 0, left, x)
        case Some(i) => Some((r, i))
        case None => KeyAtFrom(r + 1, x, y)
  }

  /**
   * `VKeyboard_GetKeyAt`: the first key, row by row and left to right,
   * whose closed box holds the point; `None` when the point is on no key.
   */
  function KeyAt(x: int, y: int): (k: Option<(nat, nat)>)
    ensures k.Some? ==> (Hits(k.value.0, k.value.1, x, y)
                         && (forall j :: 0 <= j < k.value.1 ==> !Hits(k.value.0, j, x, y))
                         && (forall q, j :: 0 <= q < k.value.0 ==> !Hits(q, j, x, y)))
    ensures k.None? <==> forall q, j :: 0 <= q < Rows ==> !Hits(q, j, x, y)
  {
    KeyAtFrom(0, x, y)
  }

  /** `VKeyboard_IsInKeyboardArea`: the closed, padded background behind the widest row. */
  predicate InKeyboardArea(x: int, y: int)
  {
    var maxWidth := MaxRowWidth();
    var totalHeight := Rows * KeyHeight + (Rows - 1) * RowSpacing;
    var bgX := StartX(maxWidth) - Padding;
    var bgY := StartY - Padding;
    x >= bgX && x <= bgX + maxWidth + Padding * 2 && y >= bgY && y <= bgY + totalHeight + Padding * 2
  }

  /** Every key's right edge lies within its row. */
  lemma {:induction false} KeyWithinRow(row: seq<KeyDef>, i: nat)
    requires i < |row|
    ensures Offset(row, i) + KeyPixels(row[i]) <= RowWidth(row)
  {
    OffsetIsPrefixWidth(row, i + 1);
    PrefixWidthBound(row, i + 1);
  }

  /** The offset after `i` keys is their width plus one gap per key. */
  lemma {:induction false} OffsetIsPrefixWidth(row: seq<KeyDef>, i: nat)
    requires 0 < i <= |row|
    ensures Offset(row, i - 1) + KeyPixels(row[i - 1]) == KeysWidth(row[..i]) + (i - 1) * KeySpacing
  {
    assert row[..i][..i - 1] == row[..i - 1];
    if i > 1 {
      OffsetIsPrefixWidth(row, i - 1);
    }
  }

  /** A prefix of a row is no wider than the row. */
  lemma {:induction false} PrefixWidthBound(row: seq<KeyDef>, i: nat)
    requires 0 < i <= |row|
    ensures KeysWidth(row[..i]) + (i - 1) * KeySpacing <= RowWidth(row)
    decreases |row| - i
  {
    if i < |row| {
      assert row[..i + 1][..i] == row[..i];
      PrefixWidthBound(row, i + 1);
    } else {
      assert row[..i] == row;
    }
  }

  /** Every key lies on the keyboard background, so a click on a key is never a click outside. */
  lemma KeysInsideArea(r: nat, i: nat, x: int, y: int)
    requires Hits(r, i, x, y)
    ensures InKeyboardArea(x, y)
  {
    LayoutWidths();
    KeyWithinRow(Layout[r], i);
  }

  /** Icons drawn on control keys. */
  datatype Icon = NoIcon | BackspaceIcon | LeftIcon | RightIcon | UpIcon | DownIcon | ShiftIcon | CapsLockIcon | EnterIcon

  /** `VKeyboard_GetKeyIcon` for the current mode and caps-lock state. */
  function KeyIcon(special: Special, mode: Mode, capsLock: bool): (icon: Icon)
    ensures icon == CapsLockIcon <==> special == Shift && capsLock && mode in {Lowercase, Uppercase}
    ensures icon == ShiftIcon <==> special == Shift && !capsLock && mode in {Lowercase, Uppercase}
    ensures special == NoSpecial ==> icon == NoIcon
  {
    match special
      case NoSpecial => NoIcon
      case Backspace => BackspaceIcon
      case Left => LeftIcon
      case Right => RightIcon
      case Up => UpIcon
      case Down => DownIcon
      case Shift => if mode == Lowercase || mode == Uppercase then (if capsLock then CapsLockIcon else ShiftIcon) else NoIcon
      case Enter => EnterIcon
      case _ => NoIcon
  }

  /** The character a key types in a mode: second symbols, first symbols, capitals (also under caps lock), small letters. */
  function TypedChar(k: KeyDef, mode: Mode, capsLock: bool): (c: char)
    ensures mode == Symbols2 ==> c == k.symbol2
    ensures mode == Symbols1 ==> c == k.symbol1
    ensures mode in {Lowercase, Uppercase} ==> (c == k.upper <==> mode == Uppercase || capsLock) || k.upper == k.lower
    ensures mode in {Lowercase, Uppercase} ==> c == k.upper || c == k.lower
  {
    if mode == Symbols2 then k.symbol2
    else if mode == Symbols1 then k.symbol1
    else if mode == Uppercase || capsLock then k.upper
    else k.lower
  }

  /** The mode part of the keyboard state. */
  datatype ModeState = ModeState(mode: Mode, capsLock: bool, lastShiftTime: int)

  /** Caps lock never coexists with the small-letter mode. */
  predicate ValidMode(s: ModeState)
  {
    s.capsLock ==> s.mode != Lowercase
  }

  /**
   * A click on Shift at time `now`: it flips between the two symbol pages;
   * on letters it releases caps lock, turns a one-shot capital into caps lock
   * when clicked again within the double-tap window, or else drops back to
   * small letters, and from small letters arms a one-shot capital.
   */
  function AfterShift(s: ModeState, now: int): (t: ModeState)
    ensures ValidMode(s) ==> ValidMode(t)
    ensures s.mode == Symbols1 <==> t.mode == Symbols2
    ensures s.mode in {Symbols1, Symbols2} ==> t.capsLock == s.capsLock
    ensures s.mode in {Lowercase, Uppercase} ==> t.mode in {Lowercase, Uppercase}
    ensures t.capsLock && !s.capsLock ==>
      s.mode == Uppercase && now - s.lastShiftTime < CapsLockDoubleTapTime
  {
    if s.mode == Symbols1 then s.(mode := Symbols2)
    else if s.mode == Symbols2 then s.(mode := Symbols1)
    else if s.capsLock then ModeState(Lowercase, false, 0)
    else if s.mode == Uppercase then
      if now - s.lastShiftTime < CapsLockDoubleTapTime then s.(capsLock := true, lastShiftTime := 0)
      else s.(mode := Lowercase, lastShiftTime := 0)
    else s.(mode := Uppercase, lastShiftTime := now)
  }

  /** A click on the symbols key: into the first symbol page, or back to the letters caps lock selects. */
  function AfterSymbols(s: ModeState): (t: ModeState)
    ensures ValidMode(s) ==> ValidMode(t)
    ensures t.capsLock == s.capsLock && t.lastShiftTime == s.lastShiftTime
    ensures s.mode in {Symbols1, Symbols2} <==> t.mode in {Lowercase, Uppercase}
  {
    if s.mode == Symbols1 || s.mode == Symbols2 then s.(mode := if s.capsLock then Uppercase else Lowercase)
    else s.(mode := Symbols1)
  }

  /** After typing a character: a one-shot capital falls back to small letters. */
  function AfterChar(s: ModeState): (t: ModeState)
    ensures ValidMode(s) ==> ValidMode(t)
    ensures t.capsLock == s.capsLock && t.lastShiftTime == s.lastShiftTime
    ensures t.mode != s.mode <==> s.mode == Uppercase && !s.capsLock
  {
    if s.mode == Uppercase && !s.capsLock then s.(mode := Lowercase) else s
  }

  /** Two Shift clicks within the double-tap window from small letters engage caps lock, and a third releases it. */
  lemma DoubleTapCapsLock(s: ModeState, t1: int, t2: int, t3: int)
    requires s.mode == Lowercase && !s.capsLock
    requires t2 - t1 < CapsLockDoubleTapTime
    ensures AfterShift(s, t1).mode == Uppercase && !AfterShift(s, t1).capsLock
    ensures AfterShift(AfterShift(s, t1), t2) == ModeState(Uppercase, true, 0)
    ensures AfterShift(AfterShift(AfterShift(s, t1), t2), t3) == ModeState(Lowercase, false, 0)
  {
  }

  /** A single Shift is used up by the next character typed. */
  lemma OneShotCapital(s: ModeState, now: int)
    requires s.mode == Lowercase && !s.capsLock
    ensures AfterChar(AfterShift(s, now)).mode == Lowercase
  {
  }

  /** Leaving the symbol pages and coming back lands on the first page; leaving letters and coming back keeps caps lock's letters. */
  lemma SymbolsTwice(s: ModeState)
    requires ValidMode(s)
    ensures s.mode in {Lowercase, Uppercase} ==>
      AfterSymbols(AfterSymbols(s)).mode == (if s.capsLock then Uppercase else Lowercase)
    ensures s.mode in {Symbols1, Symbols2} ==> AfterSymbols(AfterSymbols(s)).mode == Symbols1
  {
  }

  /** Keys the client's input handler sees; the keyboard reacts to three of them. */
  datatype InputKey = Escape | Menu | Mouse1 | OtherKey(code: int)

  /** Named keys the keyboard presses. */
  datatype NamedKey = LeftArrow | RightArrow | UpArrow | DownArrow | TabKey | EnterKey

  /** What the keyboard feeds into the client: a typed character, a key press or release, or the console toggle. */
  datatype Output = CharEvent(c: char) | KeyEvent(key: NamedKey, down: bool) | ToggleConsole

  /** A press followed by a release of `k`. */
  function Press(k: NamedKey): seq<Output>
  {
    [KeyEvent(k, true), KeyEvent(k, false)]
  }

  /** Where a click lands: the menu cursor, or the centre of the virtual screen without one. */
  function ClickPoint(cursor: Option<(int, int)>): (int, int)
  {
    if cursor.Some? then cursor.value else (ScreenWidth / 2, ScreenHeight / 2)
  }

  /** The key under a click, if any. */
  function ClickedKey(cursor: Option<(int, int)>): Option<KeyDef>
  {
    var (x, y) := ClickPoint(cursor);
    match KeyAt(x, y)
      case None => None
      case Some((r, i)) => Some(Layout[r][i])
  }

  /** A click lands on a key whose special code is `s`. */
  predicate Clicked(cursor: Option<(int, int)>, s: Special)
  {
    ClickedKey(cursor).Some? && ClickedKey(cursor).value.special == s
  }

  /** The one-key output of a control key that only sends something. */
  function ControlOutput(s: Special): seq<Output>
  {
    match s
      case Backspace => [CharEvent(8 as char)]
      case Space => [CharEvent(' ')]
      case Left => Press(LeftArrow)
      case Right => Press(RightArrow)
      case Up => Press(UpArrow)
      case Down => Press(DownArrow)
      case Tab => Press(TabKey)
      case Enter => Press(EnterKey)
      case _ => []
  }

  /** The static `vkb` state of `cl_keyboard.c`. */
  class Keyboard {
    var active: bool
    var mode: Mode
    var capsLock: bool
    var lastShiftTime: int

    ghost function State(): ModeState
      reads this
    {
      ModeState(mode, capsLock, lastShiftTime)
    }

    ghost predicate Valid()
      reads this
    {
      ValidMode(State())
    }

    /** The zero-initialised static. */
    constructor ()
      ensures Valid() && !active && State() == ModeState(Lowercase, false, 0)
    {
      active, mode, capsLock, lastShiftTime := false, Lowercase, false, 0;
    }

    /** `VKeyboard_Show`: visible, small letters, caps lock off. */
    method Show()
      modifies this
      ensures Valid()
      ensures active && State() == ModeState(Lowercase, false, 0)
    {
      active := true;
      mode := Lowercase;
      capsLock := false;
      lastShiftTime := 0;
    }

    /** `VKeyboard_Hide`: hidden, the mode kept for nothing but the next `Show` to reset. */
    method Hide()
      modifies this
      ensures !active && State() == old(State())
    {
      active := false;
    }

    /**
     * `VKeyboard_HandleKey`: `cursor` is the menu cursor when the client
     * exposes one, `console` whether the console catches keys and `realtime`
     * the client clock in ms. Returns whether the key was consumed and what
     * was fed into the input path.
     */
    method HandleKey(key: InputKey, cursor: Option<(int, int)>, console: bool, realtime: int)
      returns (handled: bool, out: seq<Output>)
      requires Valid()
      modifies this
      ensures Valid()
      // an inactive keyboard, or a key other than Escape, Menu and the first mouse button, passes through
      ensures !old(active) || key.OtherKey? ==> !handled && out == [] && unchanged(this)
      ensures old(active) && !key.OtherKey? ==> handled
      ensures old(active) && (key == Escape || key == Menu) ==>
        !active && State() == old(State()) && out == (if console then [ToggleConsole] else [])
      // a click beside every key is swallowed; outside the background it also dismisses the keyboard
      ensures old(active) && key == Mouse1 && ClickedKey(cursor).None? ==>
        out == [] && State() == old(State()) && (active <==> InKeyboardArea(ClickPoint(cursor).0, ClickPoint(cursor).1))
      ensures old(active) && key == Mouse1 && Clicked(cursor, Shift) ==>
        active && out == [] && State() == AfterShift(old(State()), realtime)
      ensures old(active) && key == Mouse1 && Clicked(cursor, Symbols) ==>
        active && out == [] && State() == AfterSymbols(old(State()))
      ensures old(active) && key == Mouse1 && ClickedKey(cursor).Some? &&
              ClickedKey(cursor).value.special !in {NoSpecial, Shift, Symbols} ==>
        out == ControlOutput(ClickedKey(cursor).value.special) && State() == old(State())
        && (active <==> !Clicked(cursor, Enter) || console)
      ensures old(active) && key == Mouse1 && Clicked(cursor, NoSpecial) ==>
        active
        && var c := TypedChar(ClickedKey(cursor).value, old(mode), old(capsLock));
        && out == (if c != '\0' then [CharEvent(c)] else [])
        && State() == (if c != '\0' then AfterChar(old(State())) else old(State()))
    {
      if !active {
        return false, [];
      }
      if key == Escape || key == Menu {
        Hide();
        out := if console then [ToggleConsole] else [];
        return true, out;
      }
      if key != Mouse1 {
        return false, [];
      }
      var x, y;
      if cursor.Some? {
        x, y := cursor.value.0, cursor.value.1;
      } else {
        x, y := ScreenWidth / 2, ScreenHeight / 2;
      }
      var hit := KeyAt(x, y);
      if hit.None? {
        if InKeyboardArea(x, y) {
          return true, [];
        }
        Hide();
        return true, [];
      }
      var k := Layout[hit.value.0][hit.value.1];
      out := PressKey(k, console, realtime);
      return true, out;
    }

    /**
     * The click on key `k` of `VKeyboard_HandleKey`: Shift and the symbols
     * key change the mode, the control keys send their key or character
     * (Enter also dismisses the keyboard outside the console), and a
     * character key types the character of the current mode.
     */
    method PressKey(k: KeyDef, console: bool, realtime: int) returns (out: seq<Output>)
      requires Valid() && active
      modifies this
      ensures Valid()
      ensures k.special == Shift ==> active && out == [] && State() == AfterShift(old(State()), realtime)
      ensures k.special == Symbols ==> active && out == [] && State() == AfterSymbols(old(State()))
      ensures k.special !in {NoSpecial, Shift, Symbols} ==>
        out == ControlOutput(k.special) && State() == old(State()) && (active <==> k.special != Enter || console)
      ensures k.special == NoSpecial ==>
        active
        && var c := TypedChar(k, old(mode), old(capsLock));
        && out == (if c != '\0' then [CharEvent(c)] else [])
        && State() == (if c != '\0' then AfterChar(old(State())) else old(State()))
    {
      out := [];
      if k.special != NoSpecial {
        match k.special {
          case Shift =>
            if mode == Symbols1 {
              mode := Symbols2;
            } else if mode == Symbols2 {
              mode := Symbols1;
            } else if capsLock {
              capsLock := false;
              mode := Lowercase;
              lastShiftTime := 0;
            } else if mode == Uppercase {
              if realtime - lastShiftTime < CapsLockDoubleTapTime {
                capsLock := true;
                lastShiftTime := 0;
              } else {
                mode := Lowercase;
                lastShiftTime := 0;
              }
            } else {
              mode := Uppercase;
              lastShiftTime := realtime;
            }
          case Backspace =>
            out := [CharEvent(('h' as int - 'a' as int + 1) as char)];
          case Symbols =>
            if mode == Symbols1 || mode == Symbols2 {
              mode := if capsLock then Uppercase else Lowercase;
            } else {
              mode := Symbols1;
            }
          case Space =>
            out := [CharEvent(' ')];
          case Left =>
            out := Press(LeftArrow);
          case Right =>
            out := Press(RightArrow);
          case Up =>
            out := Press(UpArrow);
          case Down =>
            out := Press(DownArrow);
          case Tab =>
            out := Press(TabKey);
          case Enter =>
            out := Press(EnterKey);
            if !console {
              Hide();
            }
        }
        return;
      }
      var c := TypedChar(k, mode, capsLock);
      if c != '\0' {
        out := [CharEvent(c)];
        if mode == Uppercase && !capsLock {
          mode := Lowercase;
        }
      }
    }
  }

  /** Every character key of the layout types something in every mode, so a click on one always types. */
  lemma CharacterKeysType(r: nat, i: nat, mode: Mode, capsLock: bool)
    requires r < Rows && i < |Layout[r]| && Layout[r][i].special == NoSpecial
    ensures TypedChar(Layout[r][i], mode, capsLock) != '\0'
  {
  }
}
