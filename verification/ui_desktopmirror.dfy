/**
 * The desktop-mirror options menu: the list of desktop resolutions built
 * from the `r_availableModes` cvar, the recognition of the current custom
 * desktop size in that list, the (mirror, fullscreen) <-> menu-index
 * encoding, the Apply button's dirty check and the cvar writes of Apply.
 *
 * Cvars are read as parameters; writes and console commands are returned.
 * A pointer slot of the resolution table is a `Slot`: the shared
 * `currentResolution` buffer, a text, or the NULL terminator.
 */
module DesktopMirror {
  import opened VrTypes
  import opened Updates

  /** `MAX_RESOLUTIONS`: pointer slots of the detected table, terminator included. */
  const MaxResolutions := 33
  /** `MAX_STRING_CHARS`: `resbuf` keeps at most this many characters less one. */
  const MaxStringChars := 1024
  /** The `char[20]` buffers filled by `Com_sprintf` keep at most 19 characters. */
  const ResolutionBuffer := 20
  /** The `char w[16], h[16]` copies keep at most 15 characters. */
  const PartBuffer := 16

  datatype Slot = Terminator | Custom | Entry(text: string)

  /** Which table `resolutions` points at: none yet, all entries, or all but "custom". */
  datatype Choice = NoList | All | Listed

  datatype Notification = Activated | OtherNotification(code: int)

  datatype CvarWrite = SetValue(name: string, value: int) | SetString(name: string, text: string)

  /** `Q_strncpyz` / `Com_sprintf` into a buffer of `size` bytes. */
  function Truncated(s: string, size: nat): (r: string)
    requires size > 0
    ensures |r| < size && StartsWith(s, r)
    ensures |s| < size ==> r == s
  {
    if |s| < size then s else s[..size - 1]
  }

  /** The text a slot shows; `Custom` aliases the `currentResolution` buffer. */
  function SlotText(s: Slot, current: string): string
  {
    match s
      case Terminator => ""
      case Custom => current
      case Entry(t) => t
  }

  /** The space-separated fields of `s`, empty ones included, as `strchr(s, ' ')` finds them. */
  function Fields(s: string): (r: seq<string>)
    ensures |r| >= 1
    decreases |s|
  {
    match FirstIndexOf(s, ' ')
      case None => [s]
      case Some(k) => [s[..k]] + Fields(s[k + 1..])
  }

  /** One step of the tokeniser: the field up to the first space, then the fields after it. */
  lemma FieldsStep(buf: string, p: nat, k: nat, fields: seq<string>, n: nat)
    requires p <= |buf| && FirstIndexOf(buf[p..], ' ') == Some(k)
    requires n <= |fields| && Fields(buf[p..]) == fields[n..]
    ensures p + k < |buf| && n + 1 < |fields| + 1
    ensures n < |fields| && fields[n] == buf[p..p + k]
    ensures Fields(buf[p + k + 1..]) == fields[n + 1..]
  {
    assert buf[p..][k + 1..] == buf[p + k + 1..];
    assert buf[p..][..k] == buf[p..p + k];
    var after := Fields(buf[p + k + 1..]);
    assert fields[n..] == [buf[p..p + k]] + after;
    assert fields[n + 1..] == fields[n..][1..];
  }

  /** A table that starts with "custom" and then lists the first fields, as many as `Tokens` keeps, is `Tokens`. */
  lemma TokensOfFields(buf: string, t: seq<Slot>)
    requires 1 <= |t| && t[0] == Custom
    requires |t| - 1 == |Fields(buf)| <= 31 || |t| - 1 == 31 <= |Fields(buf)|
    requires forall k :: 1 <= k < |t| ==> t[k] == Entry(Fields(buf)[k - 1])
    ensures t == Tokens(buf)
  {
    var r := Tokens(buf);
    assert |t| == |r|;
    assert forall k :: 0 <= k < |t| ==> t[k] == r[k];
  }

  /** Fields joined back with single spaces. */
  function JoinFields(fs: seq<string>): string
    requires |fs| >= 1
  {
    if |fs| == 1 then fs[0] else fs[0] + " " + JoinFields(fs[1..])
  }

  /** Splitting at spaces loses nothing: the fields and the spaces give back the text. */
  lemma {:induction false} FieldsJoin(s: string)
    ensures JoinFields(Fields(s)) == s
    decreases |s|
  {
    match FirstIndexOf(s, ' ')
      case None =>
      case Some(k) =>
        var rest := Fields(s[k + 1..]);
        assert Fields(s) == [s[..k]] + rest;
        assert ([s[..k]] + rest)[1..] == rest;
        FieldsJoin(s[k + 1..]);
        assert s == s[..k] + [' '] + s[k + 1..];
  }

  /** `"%dx%d"` into a 20-byte buffer. */
  function Format(width: nat, height: nat): string
  {
    Truncated(Decimal(width) + "x" + Decimal(height), ResolutionBuffer)
  }

  /** The texts of the slots before the first terminator. */
  function TextsUntilNull(slots: seq<Slot>, current: string): seq<string>
  {
    if slots == [] || slots[0] == Terminator then [] else [SlotText(slots[0], current)] + TextsUntilNull(slots[1..], current)
  }

  /**
   * The table `GraphicsOptions_GetResolutions` builds from a non-empty mode
   * string (already cut to the cvar buffer): "custom", at most 31 fields of
   * the string, then the VR resolution unless some entry already reads the
   * same, and its half only when two slots still remain after it.
   */
  function DetectedTable(modes: string, vidWidth: nat, vidHeight: nat): (r: seq<Slot>)
    ensures 2 <= |r| <= MaxResolutions - 1
    ensures r[0] == Custom && Terminator !in r
    ensures forall k :: 1 <= k < |r| ==> r[k].Entry?
  {
    WithVr(Tokens(modes), Format(vidWidth, vidHeight), Format(vidWidth / 2, vidHeight / 2))
  }

  /** "custom" followed by the first 31 fields of the mode string. */
  function Tokens(modes: string): (r: seq<Slot>)
    ensures 2 <= |r| <= MaxResolutions - 1 && r[0] == Custom
    ensures |r| == 1 + (if |Fields(modes)| <= 31 then |Fields(modes)| else 31)
    ensures forall k :: 1 <= k < |r| ==> r[k] == Entry(Fields(modes)[k - 1])
  {
    var fields := Fields(modes);
    var taken := if |fields| <= 31 then fields else fields[..31];
    [Custom] + seq(|taken|, k requires 0 <= k < |taken| => Entry(taken[k]))
  }

  /**
   * The VR resolution `vr` appended to `base` when a slot pair is left and no
   * entry reads the same, and `half` after it when two slots still remain.
   */
  function WithVr(base: seq<Slot>, vr: string, half: string): (r: seq<Slot>)
    requires 1 <= |base| <= MaxResolutions - 1 && base[0] == Custom
    requires forall k :: 1 <= k < |base| ==> base[k].Entry?
    ensures |base| <= |r| <= MaxResolutions - 1 && r[..|base|] == base
    ensures r[0] == Custom && Terminator !in r
    ensures forall k :: 1 <= k < |r| ==> r[k].Entry?
    ensures |r| > |base| <==> |base| < MaxResolutions - 2 && vr !in TextsUntilNull(base, "custom")
    ensures |r| > |base| ==> r[|base|] == Entry(vr)
    ensures |r| == |base| + 2 <==> |r| > |base| && |base| + 1 < MaxResolutions - 2
    ensures |r| == |base| + 2 ==> r[|base| + 1] == Entry(half)
  {
    if |base| < MaxResolutions - 2 && vr !in TextsUntilNull(base, "custom") then
      if |base| + 1 < MaxResolutions - 2 then base + [Entry(vr), Entry(half)]
      else base + [Entry(vr)]
    else base
  }

  /** `atoi`: optional white space, an optional sign and the decimal digits that follow. */
  function Atoi(s: string): int
  {
    if s != [] && s[0] in {' ', '\t', '\n', '\U{000B}', '\U{000C}', '\r'} then Atoi(s[1..])
    else if s != [] && s[0] == '-' then -(ReadDigits(s[1..], 0).0 as int)
    else if s != [] && s[0] == '+' then ReadDigits(s[1..], 0).0
    else ReadDigits(s, 0).0
  }

  /** `atoi` reads back the `%d` rendering of a non-negative number. */
  lemma AtoiDecimal(n: nat)
    ensures Atoi(Decimal(n)) == n
  {
    ReadDigitsRun(Decimal(n), [], 0);
    assert Decimal(n) + [] == Decimal(n);
    DecimalValue(n);
  }

  /**
   * The width and height texts of a "WxH" entry, each copied into 16 bytes:
   * the width is the copy cut at its first 'x', the height what follows the
   * entry's first 'x'. `None` when the copy holds no 'x', where the C code
   * writes through a null pointer.
   */
  function SplitResolution(s: string): (r: Option<(string, string)>)
    ensures r.None? <==> 'x' !in Truncated(s, PartBuffer)
    ensures r.Some? ==> 'x' !in r.value.0 && |r.value.0| < PartBuffer && |r.value.1| < PartBuffer
    ensures r.Some? ==> StartsWith(s, r.value.0 + "x")
  {
    var w := Truncated(s, PartBuffer);
    match FirstIndexOf(w, 'x')
      case None => None
      case Some(i) =>
        assert s[..i + 1] == w[..i] + "x";
        Some((w[..i], Truncated(s[i + 1..], PartBuffer)))
  }

  /** `n` has at most `k` decimal digits when it is below `10^k`; here for the six digits a screen size needs. */
  lemma {:induction false} DecimalLength(n: nat)
    requires n < 1000000
    ensures |Decimal(n)| <= 6
  {
    if n >= 10 {
      DecimalLengthBelow(n / 10, 5);
    }
  }

  lemma {:induction false} DecimalLengthBelow(n: nat, k: nat)
    requires n < Power10(k)
    ensures |Decimal(n)| <= if k == 0 then 1 else k
    decreases k
  {
    if n >= 10 {
      DecimalLengthBelow(n / 10, k - 1);
    }
  }

  function Power10(k: nat): nat
  {
    if k == 0 then 1 else 10 * Power10(k - 1)
  }

  /**
   * A "WxH" entry the table builds for a screen below a million pixels each
   * way splits into the two numbers, and `atoi` reads them back.
   */
  lemma FormatSplitsBack(width: nat, height: nat)
    requires width < 1000000 && height < 1000000
    ensures SplitResolution(Format(width, height)) == Some((Decimal(width), Decimal(height)))
    ensures Atoi(Decimal(width)) == width && Atoi(Decimal(height)) == height
  {
    DecimalLength(width);
    DecimalLength(height);
    var dw, dh := Decimal(width), Decimal(height);
    var s := dw + "x" + dh;
    assert Format(width, height) == s;
    assert Truncated(s, PartBuffer) == s[..if |s| < PartBuffer then |s| else PartBuffer - 1];
    var w := Truncated(s, PartBuffer);
    assert w[..|dw|] == dw && w[|dw|] == 'x';
    assert 'x' !in dw by {
      forall k | 0 <= k < |dw| ensures dw[k] != 'x' { assert IsDigit(dw[k]); }
    }
    assert FirstIndexOf(w, 'x') == Some(|dw|);
    assert s[|dw| + 1..] == dh;
    AtoiDecimal(width);
    AtoiDecimal(height);
  }

  /** How the search for the custom size in the list without "custom" ends. */
  datatype Lookup = Fault | NoMatch | Match(index: nat)

  /** The matching index moved `offset` entries further on. */
  function Shifted(l: Lookup, offset: nat): Lookup
  {
    if l.Match? then Match(l.index + offset) else l
  }

  /** The entry splits and both parts read as the given size. */
  predicate Reads(entry: string, width: int, height: int)
  {
    var parts := SplitResolution(entry);
    parts.Some? && Atoi(parts.value.0) == width && Atoi(parts.value.1) == height
  }

  /** The search of `GraphicsOptions_SetPreviousResolutionOption`: the first entry that reads as the size. */
  function FindSize(listed: seq<string>, width: int, height: int): (r: Lookup)
    ensures r.Match? ==> r.index < |listed|
  {
    if listed == [] then NoMatch
    else if SplitResolution(listed[0]).None? then Fault
    else if Reads(listed[0], width, height) then Match(0)
    else Shifted(FindSize(listed[1..], width, height), 1)
  }

  /** One step of the search over the texts of a table. */
  lemma FindSizeStep(slots: seq<Slot>, current: string, width: int, height: int)
    requires slots != [] && slots[0] != Terminator
    ensures var entry := SlotText(slots[0], current);
      FindSize(TextsUntilNull(slots, current), width, height)
      == if SplitResolution(entry).None? then Fault
         else if Reads(entry, width, height) then Match(0)
         else Shifted(FindSize(TextsUntilNull(slots[1..], current), width, height), 1)
  {
    var t := TextsUntilNull(slots, current);
    assert t[0] == SlotText(slots[0], current) && t[1..] == TextsUntilNull(slots[1..], current);
  }

  /** Entry `j` has no 'x' and no entry before it reads as the size. */
  predicate FaultAt(listed: seq<string>, j: int, width: int, height: int)
  {
    0 <= j < |listed| && SplitResolution(listed[j]).None?
    && forall i :: 0 <= i < j ==> !Reads(listed[i], width, height)
  }

  /** A match is the first entry that reads as the size, and every entry before it splits. */
  lemma {:induction false} FindSizeMatch(listed: seq<string>, width: int, height: int)
    ensures var r := FindSize(listed, width, height);
      r.Match? ==> Reads(listed[r.index], width, height)
                   && forall j :: 0 <= j < r.index ==> SplitResolution(listed[j]).Some? && !Reads(listed[j], width, height)
  {
    if listed != [] && SplitResolution(listed[0]).Some? && !Reads(listed[0], width, height) {
      FindSizeMatch(listed[1..], width, height);
      assert forall j :: 1 <= j < |listed| ==> listed[1..][j - 1] == listed[j];
    }
  }

  /** No match is reported only when no entry reads as the size. */
  lemma {:induction false} FindSizeNoMatch(listed: seq<string>, width: int, height: int)
    ensures FindSize(listed, width, height).NoMatch? ==> forall j :: 0 <= j < |listed| ==> !Reads(listed[j], width, height)
  {
    if listed != [] && SplitResolution(listed[0]).Some? && !Reads(listed[0], width, height) {
      FindSizeNoMatch(listed[1..], width, height);
      assert forall j :: 1 <= j < |listed| ==> listed[1..][j - 1] == listed[j];
    }
  }

  /** The search faults exactly when an entry without an 'x' comes before any entry of the size. */
  lemma {:induction false} FindSizeFault(listed: seq<string>, width: int, height: int)
    ensures FindSize(listed, width, height).Fault? <==> exists j :: FaultAt(listed, j, width, height)
  {
    if listed == [] {
    } else if SplitResolution(listed[0]).None? {
      assert FaultAt(listed, 0, width, height);
    } else if Reads(listed[0], width, height) {
      assert forall j :: !FaultAt(listed, j, width, height);
    } else {
      FindSizeFault(listed[1..], width, height);
      forall j | FaultAt(listed[1..], j, width, height)
        ensures FaultAt(listed, j + 1, width, height)
      {
        assert forall i :: 1 <= i < j + 1 ==> listed[i] == listed[1..][i - 1];
      }
      forall j | FaultAt(listed, j, width, height)
        ensures FaultAt(listed[1..], j - 1, width, height)
      {
        assert forall i :: 0 <= i < j - 1 ==> listed[1..][i] == listed[i + 1];
      }
    }
  }

  /** `DesktopMirror_SetMenuItems`: 0 = off, 1 = windowed mirror, 2 = fullscreen mirror. */
  function MirrorIndex(mirror: int, fullscreen: int): (r: int)
    ensures r == 0 <==> mirror == 0
    ensures r == 1 <==> mirror != 0 && fullscreen == 0
    ensures r == 2 <==> mirror != 0 && fullscreen != 0
  {
    if mirror == 0 then 0 else if fullscreen == 0 then 1 else 2
  }

  /** The cvar writes Apply makes for mirror choice `c`. */
  function MirrorWrites(c: int): seq<CvarWrite>
  {
    if c == 0 then [SetValue("vr_desktopMirror", 0)]
    else if c == 1 then [SetValue("vr_desktopMirror", 1), SetValue("r_fullscreen", 0)]
    else [SetValue("vr_desktopMirror", 1), SetValue("r_fullscreen", 1)]
  }

  /** The numeric value of cvar `name` after the writes, `before` if none of them sets it. */
  function ValueAfter(writes: seq<CvarWrite>, name: string, before: int): int
  {
    if writes == [] then before
    else
      var last := writes[|writes| - 1];
      if last.SetValue? && last.name == name then last.value
      else ValueAfter(writes[..|writes| - 1], name, before)
  }

  /** Applying a mirror choice and reading the menu back gives the same choice; "off" keeps r_fullscreen. */
  lemma MirrorRoundTrip(c: int, mirror: int, fullscreen: int)
    requires 0 <= c <= 2
    ensures MirrorIndex(ValueAfter(MirrorWrites(c), "vr_desktopMirror", mirror),
                        ValueAfter(MirrorWrites(c), "r_fullscreen", fullscreen)) == c
    ensures c == 0 ==> ValueAfter(MirrorWrites(c), "r_fullscreen", fullscreen) == fullscreen
  {
    var w := MirrorWrites(c);
    if c == 0 {
      assert w[..0] == [];
    } else {
      assert w[..1] == [w[0]] && w[..1][..0] == [];
    }
  }

  /** The state of `ui_desktopmirror.c`: the menu values and the resolution tables. */
  class Menu {
    var mirrorValue: int            // desktopmirror.curvalue
    var resolutionValue: int        // desktopresolution.curvalue
    var contentValue: int
    var modeValue: int
    var menuModeValue: int
    var initialMirror: int          // s_ivo_desktopmirror
    var initialResolution: int      // s_ivo_desktopresolution
    var applyHidden: bool           // QMF_HIDDEN on the Apply button
    var applyInactive: bool         // QMF_INACTIVE on the Apply button
    const detected: array<Slot>     // detectedResolutions
    var tablesSet: bool             // allResolutions != NULL
    var resolutions: Choice
    var currentResolution: string
    var resolutionsDetected: bool

    ghost predicate Valid()
      reads this, detected
    {
      && detected.Length == MaxResolutions
      && (tablesSet ==> detected[0] == Custom && exists k | 1 <= k < MaxResolutions :: detected[k] == Terminator)
      && (resolutions != NoList ==> tablesSet)
      && (forall k :: 1 <= k < MaxResolutions ==> detected[k] != Custom)
    }

    /** The entries of the table `resolutions` points at. */
    ghost function Shown(): seq<string>
      reads this, detected
      requires Valid()
    {
      match resolutions
        case NoList => []
        case All => TextsUntilNull(detected[..], currentResolution)
        case Listed => TextsUntilNull(detected[1..], currentResolution)
    }

    constructor ()
      ensures Valid() && fresh(detected) && !tablesSet && resolutions == NoList && !resolutionsDetected
    {
      mirrorValue, resolutionValue, contentValue, modeValue, menuModeValue := 0, 0, 0, 0, 0;
      initialMirror, initialResolution := 0, 0;
      applyHidden, applyInactive := false, false;
      detected := new Slot[MaxResolutions](_ => Terminator);
      tablesSet, resolutions, currentResolution, resolutionsDetected := false, NoList, "", false;
    }

    /**
     * `GraphicsOptions_SetPreviousResolutionOption`: with the custom desktop
     * size cvars `customWidth` x `customHeight`, selects the first listed
     * entry of that size and switches to the list without "custom";
     * otherwise selects "custom", relabelled with the size when it is
     * positive. `faulted` is the null write on an entry without an 'x'.
     */
    method SetPreviousResolutionOption(customWidth: real, customHeight: real) returns (faulted: bool)
      requires Valid()
      modifies this
      ensures Valid() && tablesSet == old(tablesSet) && resolutionsDetected == old(resolutionsDetected)
      ensures mirrorValue == old(mirrorValue) && initialMirror == old(initialMirror)
      ensures contentValue == old(contentValue) && modeValue == old(modeValue) && menuModeValue == old(menuModeValue)
      ensures applyHidden == old(applyHidden) && applyInactive == old(applyInactive)
      ensures resolutionValue == initialResolution
      ensures var w, h := TruncateToInt(customWidth), TruncateToInt(customHeight);
        if !tablesSet || w <= 0 || h <= 0 then
          !faulted && resolutionValue == 0 && resolutions == (if tablesSet then All else NoList)
          && currentResolution == old(currentResolution)
        else
          var found := FindSize(TextsUntilNull(old(detected[1..]), old(currentResolution)), w, h);
          && currentResolution == Truncated("custom (" + IntText(w) + "x" + IntText(h) + ")", ResolutionBuffer)
          && (faulted <==> found.Fault?)
          && (found.Match? ==> resolutions == Listed && resolutionValue == found.index)
          && (found.NoMatch? ==> resolutions == All && resolutionValue == 0)
    {
      resolutionValue, initialResolution := 0, 0;
      resolutions := if tablesSet then All else NoList;
      if !tablesSet {
        return false;
      }
      var w, h := TruncateToInt(customWidth), TruncateToInt(customHeight);
      if w <= 0 || h <= 0 {
        return false;
      }
      ghost var before := currentResolution;
      currentResolution := Truncated("custom (" + IntText(w) + "x" + IntText(h) + ")", ResolutionBuffer);
      assert Custom !in detected[1..] by {
        assert forall k :: 0 <= k < |detected[1..]| ==> detected[1..][k] == detected[k + 1];
      }
      CustomOnlyFirst(detected[1..], before, currentResolution);
      var found := FindCustomSize(w, h);
      match found {
        case Fault =>
          return true;
        case Match(idx) =>
          resolutionValue, initialResolution := idx, idx;
          resolutions := Listed;
          return false;
        case NoMatch =>
          return false;
      }
    }

    /** The search loop of `GraphicsOptions_SetPreviousResolutionOption` over the list without "custom". */
    method FindCustomSize(w: int, h: int) returns (r: Lookup)
      requires Valid() && tablesSet
      ensures r == FindSize(TextsUntilNull(detected[1..], currentResolution), w, h)
    {
      ghost var listed := TextsUntilNull(detected[1..], currentResolution);
      var idx := 0;
      while detected[1 + idx] != Terminator
        invariant 0 <= idx && 1 + idx < MaxResolutions
        invariant exists k | 1 + idx <= k < MaxResolutions :: detected[k] == Terminator
        invariant FindSize(listed, w, h) == Shifted(FindSize(TextsUntilNull(detected[1 + idx..], currentResolution), w, h), idx)
        decreases MaxResolutions - idx
      {
        var entry := SlotText(detected[1 + idx], currentResolution);
        assert detected[1 + idx..][1..] == detected[2 + idx..];
        FindSizeStep(detected[1 + idx..], currentResolution, w, h);
        var parts := SplitResolution(entry);
        if parts.None? {
          return Fault;
        }
        if Atoi(parts.value.0) == w && Atoi(parts.value.1) == h {
          return Match(idx);
        }
        idx := idx + 1;
      }
      assert TextsUntilNull(detected[1 + idx..], currentResolution) == [];
      return NoMatch;
    }

    /**
     * The tokenising loop of `GraphicsOptions_GetResolutions`: "custom" in
     * slot 0, then each space-separated field of `buf` while a slot for the
     * terminator remains. Returns the index of the terminator.
     */
    method Tokenise(buf: string) returns (i: nat)
      requires detected.Length == MaxResolutions
      requires forall k :: 1 <= k < MaxResolutions ==> detected[k] != Custom
      modifies detected
      ensures i < MaxResolutions && detected[..i] == Tokens(buf) && detected[i] == Terminator
      ensures forall k :: 1 <= k < MaxResolutions ==> detected[k] != Custom
    {
      detected[0] := Custom;
      detected[1] := Terminator;
      i := 1;
      var more: bool, p: nat := true, 0;   // `s != NULL` and its offset in the buffer
      ghost var fields := Fields(buf);
      assert buf[0..] == buf && fields[0..] == fields;
      assert Fields(buf[0..]) == fields[0..];
      while more && i < MaxResolutions - 1
        invariant 1 <= i <= MaxResolutions - 1 && i - 1 <= |fields|
        invariant more ==> p <= |buf| && Fields(buf[p..]) == fields[i - 1..]
        invariant !more ==> |fields| == i - 1
        invariant detected[0] == Custom
        invariant forall k :: 1 <= k < i ==> detected[k] == Entry(fields[k - 1])
        invariant forall k :: 1 <= k < MaxResolutions ==> detected[k] != Custom
        decreases MaxResolutions - i
      {
        more, p := TakeField(buf, p, i, fields);
        i := i + 1;
      }
      detected[i] := Terminator;
      TokensOfFields(buf, detected[..i]);
    }

    /**
     * One turn of the tokenising loop: slot `i` takes the field starting at
     * offset `p`; the space after it, if any, ends the field and the next
     * one starts behind it.
     */
    method TakeField(buf: string, p: nat, i: nat, ghost fields: seq<string>) returns (more: bool, next: nat)
      requires detected.Length == MaxResolutions && 1 <= i < MaxResolutions - 1
      requires p <= |buf| && i - 1 <= |fields| && Fields(buf[p..]) == fields[i - 1..]
      modifies detected
      ensures i <= |fields| && detected[i] == Entry(fields[i - 1])
      ensures forall k :: 0 <= k < MaxResolutions && k != i ==> detected[k] == old(detected[k])
      ensures more ==> next <= |buf| && Fields(buf[next..]) == fields[i..]
      ensures !more ==> |fields| == i
    {
      var space := FirstIndexOf(buf[p..], ' ');
      if space.None? {
        assert Fields(buf[p..]) == [buf[p..]];
        detected[i] := Entry(buf[p..]);
        more, next := false, p;
      } else {
        var k := space.value;
        FieldsStep(buf, p, k, fields, i - 1);
        detected[i] := Entry(buf[p..p + k]);
        more, next := true, p + k + 1;
      }
    }

    /**
     * The second half of `GraphicsOptions_GetResolutions`: with slots
     * `0 .. i-1` filled and a terminator at `i`, adds the VR resolution and
     * its half as `WithVr` says, keeping a terminator after the last entry.
     */
    method AppendVrResolution(i: nat, vr: string, half: string) returns (n: nat)
      requires detected.Length == MaxResolutions && 1 <= i < MaxResolutions && detected[0] == Custom
      requires forall k :: 1 <= k < i ==> detected[k].Entry?
      requires detected[i] == Terminator
      modifies detected
      ensures n == |WithVr(old(detected[..i]), vr, half)| && n < MaxResolutions
      ensures detected[..n] == WithVr(old(detected[..i]), vr, half) && detected[n] == Terminator
      ensures forall k :: n < k < MaxResolutions ==> detected[k] == old(detected[k])
    {
      ghost var base := detected[..i];
      n := i;
      if i < MaxResolutions - 2 {
        var listed := FindListed(i, vr);
        if !listed {
          detected[n] := Entry(vr);
          n := n + 1;
          detected[n] := Terminator;
          if n < MaxResolutions - 2 {
            detected[n] := Entry(half);
            n := n + 1;
            detected[n] := Terminator;
            assert detected[..n] == base + [Entry(vr), Entry(half)];
          } else {
            assert detected[..n] == base + [Entry(vr)];
          }
        }
      }
    }

    /**
     * The search loop of `GraphicsOptions_GetResolutions`: whether an entry
     * before the terminator at `i` already reads `vr` (slot 0 reading
     * "custom").
     */
    method FindListed(i: nat, vr: string) returns (listed: bool)
      requires detected.Length == MaxResolutions && i < MaxResolutions && detected[i] == Terminator
      requires forall k :: 0 <= k < i ==> detected[k] != Terminator
      ensures listed <==> vr in TextsUntilNull(detected[..i], "custom")
    {
      var j := 0;
      while detected[j] != Terminator && SlotText(detected[j], "custom") != vr
        invariant 0 <= j <= i
        invariant vr !in TextsUntilNull(detected[..j], "custom")
        decreases i - j
      {
        assert Terminator !in detected[..j] by {
          assert forall k :: 0 <= k < j ==> detected[..j][k] == detected[k];
        }
        TextsSnoc(detected[..j], detected[j], "custom");
        assert detected[..j + 1] == detected[..j] + [detected[j]];
        j := j + 1;
      }
      listed := detected[j] != Terminator;
      if listed {
        assert Terminator !in detected[..i] by {
          assert forall k :: 0 <= k < i ==> detected[..i][k] == detected[k];
        }
        assert j < i && detected[..i][j] == detected[j];
        TextAtIndex(detected[..i], j, "custom");
      } else {
        assert j == i;
      }
    }

    /**
     * `GraphicsOptions_GetResolutions` on the mode string `modes`, the VR
     * render size `vidWidth` x `vidHeight` and the custom desktop size cvars,
     * followed by `GraphicsOptions_SetPreviousResolutionOption`. An empty
     * mode string leaves the tables as they were.
     */
    method GetResolutions(modes: string, vidWidth: nat, vidHeight: nat, customWidth: real, customHeight: real)
      returns (faulted: bool)
      requires Valid()
      modifies this, detected
      ensures Valid()
      ensures var buf := Truncated(modes, MaxStringChars);
        buf != [] ==>
          var table := DetectedTable(buf, vidWidth, vidHeight);
          && detected[..|table|] == table && detected[|table|] == Terminator
          && tablesSet && resolutionsDetected
      ensures modes == [] ==> detected[..] == old(detected[..]) && tablesSet == old(tablesSet)
    {
      var buf := Truncated(modes, MaxStringChars);
      if buf != [] {
        DetectResolutions(buf, vidWidth, vidHeight);
      }
      faulted := SetPreviousResolutionOption(customWidth, customHeight);
    }

    /** The part of `GraphicsOptions_GetResolutions` that fills the tables from a non-empty mode buffer. */
    method DetectResolutions(buf: string, vidWidth: nat, vidHeight: nat)
      requires Valid()
      modifies this, detected
      ensures Valid() && tablesSet && resolutionsDetected
      ensures resolutions == All && currentResolution == "custom"
      ensures var table := DetectedTable(buf, vidWidth, vidHeight);
        detected[..|table|] == table && detected[|table|] == Terminator
    {
      currentResolution := "custom";
      var i := Tokenise(buf);
      ghost var tokens := detected[..];
      var n := AppendVrResolution(i, Format(vidWidth, vidHeight), Format(vidWidth / 2, vidHeight / 2));
      ghost var table := DetectedTable(buf, vidWidth, vidHeight);
      assert detected[..n] == table;
      assert 1 <= n < MaxResolutions && detected[n] == Terminator;
      forall k | 1 <= k < MaxResolutions
        ensures detected[k] != Custom
      {
        if k < n {
          assert detected[k] == table[k];
        } else if k > n {
          assert detected[k] == tokens[k];
        }
      }
      tablesSet := true;
      resolutions := All;
      resolutionsDetected := true;
    }

    /** `DesktopMirror_SetMenuItems` from the four display cvars (read as floats and cut to `int`). */
    method SetMenuItems(mirror: real, fullscreen: real, content: real, mode: real, menuMode: real)
      requires Valid()
      modifies this
      ensures Valid()
      ensures tablesSet == old(tablesSet) && resolutions == old(resolutions)
      ensures currentResolution == old(currentResolution) && resolutionsDetected == old(resolutionsDetected)
      ensures mirrorValue == initialMirror == MirrorIndex(TruncateToInt(mirror), TruncateToInt(fullscreen))
      ensures contentValue == TruncateToInt(content) && modeValue == TruncateToInt(mode)
      ensures menuModeValue == TruncateToInt(menuMode)
      ensures resolutionValue == old(resolutionValue) && initialResolution == old(initialResolution)
      ensures applyHidden == old(applyHidden) && applyInactive == old(applyInactive)
    {
      var m, f := TruncateToInt(mirror), TruncateToInt(fullscreen);
      if m == 0 {
        mirrorValue := 0;
      } else if f == 0 {
        mirrorValue := 1;
      } else {
        mirrorValue := 2;
      }
      initialMirror := mirrorValue;
      contentValue := TruncateToInt(content);
      modeValue := TruncateToInt(mode);
      menuModeValue := TruncateToInt(menuMode);
    }

    /** `DesktopMirror_UpdateMenuItems`: Apply shows exactly when a choice differs from its initial value. */
    method UpdateMenuItems()
      requires Valid()
      modifies this
      ensures Valid()
      ensures tablesSet == old(tablesSet) && resolutions == old(resolutions)
      ensures currentResolution == old(currentResolution) && resolutionsDetected == old(resolutionsDetected)
      ensures contentValue == old(contentValue) && modeValue == old(modeValue) && menuModeValue == old(menuModeValue)
      ensures var dirty := initialMirror != mirrorValue || initialResolution != resolutionValue;
              applyHidden == !dirty && applyInactive == !dirty
      ensures mirrorValue == old(mirrorValue) && resolutionValue == old(resolutionValue)
      ensures initialMirror == old(initialMirror) && initialResolution == old(initialResolution)
    {
      applyHidden, applyInactive := true, true;
      if initialMirror != mirrorValue {
        applyHidden, applyInactive := false, false;
      }
      if initialResolution != resolutionValue {
        applyHidden, applyInactive := false, false;
      }
    }

    /**
     * `DesktopMirror_ApplyChanges`: the cvar writes and console commands of
     * an activation. The chosen entry must be one of the table's (the menu
     * list is built from it). `faulted` is the null write on an entry
     * without an 'x', after which nothing more happens.
     */
    method ApplyChanges(notification: Notification) returns (writes: seq<CvarWrite>, commands: seq<string>, faulted: bool)
      requires Valid()
      requires initialResolution != resolutionValue && resolutions != NoList ==> 0 <= resolutionValue < |Shown()|
      ensures notification != Activated ==> writes == [] && commands == [] && !faulted
      ensures notification == Activated ==>
        var mirrorPart := if initialMirror != mirrorValue then MirrorWrites(mirrorValue) else [];
        var resolutionChanged := initialResolution != resolutionValue && resolutions != NoList;
        var parts := if resolutionChanged then SplitResolution(Shown()[resolutionValue]) else None;
        && (faulted <==> resolutionChanged && parts.None?)
        && (faulted ==> writes == mirrorPart && commands == [])
        && (!faulted ==>
              && commands == ["vid_restart\n"]
              && writes == mirrorPart + (if resolutionChanged
                                         then [SetString("r_customdesktopwidth", parts.value.0),
                                               SetString("r_customdesktopheight", parts.value.1)]
                                         else []))
    {
      writes, commands, faulted := [], [], false;
      if notification != Activated {
        return;
      }
      if initialMirror != mirrorValue {
        if mirrorValue == 0 {
          writes := writes + [SetValue("vr_desktopMirror", 0)];
        } else if mirrorValue == 1 {
          writes := writes + [SetValue("vr_desktopMirror", 1), SetValue("r_fullscreen", 0)];
        } else {
          writes := writes + [SetValue("vr_desktopMirror", 1), SetValue("r_fullscreen", 1)];
        }
      }
      if initialResolution != resolutionValue && resolutions != NoList {
        var entry := ChosenEntry();
        var parts := SplitResolution(entry);
        if parts.None? {
          faulted := true;
          return;
        }
        writes := writes + [SetString("r_customdesktopwidth", parts.value.0),
                            SetString("r_customdesktopheight", parts.value.1)];
      }
      commands := ["vid_restart\n"];
    }

    /** The text of the entry the resolution list has selected. */
    method ChosenEntry() returns (entry: string)
      requires Valid() && resolutions != NoList && 0 <= resolutionValue < |Shown()|
      ensures entry == Shown()[resolutionValue]
    {
      if resolutions == All {
        TextsAt(detected[..], resolutionValue, currentResolution);
        entry := SlotText(detected[resolutionValue], currentResolution);
      } else {
        TextsAt(detected[1..], resolutionValue, currentResolution);
        entry := SlotText(detected[1 + resolutionValue], currentResolution);
      }
    }
  }

  /** `%d` of any `int`. */
  function IntText(n: int): string
  {
    if n < 0 then "-" + Decimal(-n) else Decimal(n)
  }

  /** Relabelling "custom" does not change the texts of a table without a `Custom` slot. */
  lemma {:induction false} CustomOnlyFirst(slots: seq<Slot>, c1: string, c2: string)
    requires Custom !in slots
    ensures TextsUntilNull(slots, c1) == TextsUntilNull(slots, c2)
  {
    if slots != [] && slots[0] != Terminator {
      CustomOnlyFirst(slots[1..], c1, c2);
    }
  }

  /** Extending a terminator-free prefix by one slot adds that slot's text. */
  lemma {:induction false} TextsSnoc(slots: seq<Slot>, s: Slot, current: string)
    requires Terminator !in slots && s != Terminator
    ensures TextsUntilNull(slots + [s], current) == TextsUntilNull(slots, current) + [SlotText(s, current)]
  {
    if slots != [] {
      assert (slots + [s])[1..] == slots[1..] + [s];
      TextsSnoc(slots[1..], s, current);
    } else {
      assert TextsUntilNull([s][1..], current) == [];
    }
  }

  /** The texts of a prefix are a prefix of the texts, while no terminator intervenes. */
  lemma {:induction false} PrefixTexts(slots: seq<Slot>, j: nat, current: string)
    requires j <= |slots| && Terminator !in slots
    ensures |TextsUntilNull(slots, current)| == |slots|
    ensures TextsUntilNull(slots[..j], current) == TextsUntilNull(slots, current)[..j]
  {
    if slots != [] {
      PrefixTexts(slots[1..], if j == 0 then 0 else j - 1, current);
      if j > 0 {
        assert slots[..j][1..] == slots[1..][..j - 1];
      }
    }
  }

  /** In a table without a terminator, slot `k` gives entry `k` of the texts. */
  lemma {:induction false} TextAtIndex(slots: seq<Slot>, k: nat, current: string)
    requires k < |slots| && Terminator !in slots
    ensures k < |TextsUntilNull(slots, current)| && TextsUntilNull(slots, current)[k] == SlotText(slots[k], current)
  {
    if k > 0 {
      TextAtIndex(slots[1..], k - 1, current);
    }
  }

  /** Entry `k` of the texts is the text of slot `k`. */
  lemma {:induction false} TextsAt(slots: seq<Slot>, k: nat, current: string)
    requires k < |TextsUntilNull(slots, current)|
    ensures k < |slots| && slots[k] != Terminator
    ensures TextsUntilNull(slots, current)[k] == SlotText(slots[k], current)
  {
    if k > 0 {
      TextsAt(slots[1..], k - 1, current);
    }
  }
}
