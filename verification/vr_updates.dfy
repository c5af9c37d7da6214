/**
 * The update check: parsing the release tag ("v1.2.3") of the latest
 * release, deciding whether it is newer than the running build, and the
 * flags that make the check happen at most once.
 *
 * The HTTP download and the JSON extraction of the tag are not modelled:
 * the response callback receives the byte count and the extracted tag.
 * The running build's version is a parameter.
 */
module Updates {
  import opened VrTypes

  datatype Version = Version(major: int, minor: int, patch: int)

  predicate IsDigit(c: char)
  {
    '0' <= c <= '9'
  }

  function DigitValue(c: char): nat
    requires IsDigit(c)
  {
    (c - '0') as nat
  }

  /**
   * The digits at the front of `s` read into `acc` as the parser's inner
   * loops do (`acc = acc * 10 + digit`), and the text after them.
   */
  function ReadDigits(s: string, acc: nat): (r: (nat, string))
    ensures r.1 == [] || !IsDigit(r.1[0])
  {
    if s != [] && IsDigit(s[0]) then ReadDigits(s[1..], acc * 10 + DigitValue(s[0])) else (acc, s)
  }

  /** The value `acc` grows to when the digit string `d` is read into it. */
  function Accumulate(acc: nat, d: string): nat
    requires forall k :: 0 <= k < |d| ==> IsDigit(d[k])
    decreases d
  {
    if d == [] then acc else Accumulate(acc * 10 + DigitValue(d[0]), d[1..])
  }

  /**
   * The result of `ParseTagVersion` on a tag: the return code and the three
   * numbers. After an optional 'v' or 'V' a digit must follow; each further
   * part is read only after a '.', missing parts are 0, the rest is ignored.
   */
  function TagVersion(s: string): (r: (int, Version))
  {
    var t := if s != [] && (s[0] == 'v' || s[0] == 'V') then s[1..] else s;
    if t == [] || !IsDigit(t[0]) then (-1, Version(0, 0, 0))
    else
      var (major, t1) := ReadDigits(t, 0);
      if t1 != [] && t1[0] == '.' then
        var (minor, t2) := ReadDigits(t1[1..], 0);
        if t2 != [] && t2[0] == '.' then
          (0, Version(major, minor, ReadDigits(t2[1..], 0).0))
        else (0, Version(major, minor, 0))
      else (0, Version(major, 0, 0))
  }

  /**
   * Reads the digits starting at `i`, as the parser's inner loops do, and
   * returns the position after them and their value.
   */
  method ReadNumber(s: string, i: nat) returns (j: nat, value: nat)
    requires i <= |s|
    ensures j <= |s| && (value, s[j..]) == ReadDigits(s[i..], 0)
  {
    j, value := i, 0;
    while j < |s| && IsDigit(s[j])
      invariant i <= j <= |s|
      invariant ReadDigits(s[j..], value) == ReadDigits(s[i..], 0)
      decreases |s| - j
    {
      assert s[j..][1..] == s[j + 1..];
      value := value * 10 + DigitValue(s[j]);
      j := j + 1;
    }
  }

  /**
   * `ParseTagVersion`; `str` is `None` for a null pointer. Returns the code
   * (0 or -1) and the three numbers written through the out-pointers.
   */
  method ParseTagVersion(str: Option<string>) returns (r: int, major: int, minor: int, patch: int)
    ensures str.None? ==> r == -1
    ensures str.Some? ==> (r, Version(major, minor, patch)) == TagVersion(str.value)
  {
    if str.None? {
      return -1, 0, 0, 0;
    }
    var s := str.value;
    major, minor, patch := 0, 0, 0;
    var i := 0;
    if i < |s| && (s[i] == 'v' || s[i] == 'V') {
      i := i + 1;
    }
    if !(i < |s| && IsDigit(s[i])) {
      return -1, major, minor, patch;
    }
    i, major := ReadNumber(s, i);
    if i < |s| && s[i] == '.' {
      assert s[i..][1..] == s[i + 1..];
      i := i + 1;
      i, minor := ReadNumber(s, i);
      if i < |s| && s[i] == '.' {
        assert s[i..][1..] == s[i + 1..];
        i := i + 1;
        i, patch := ReadNumber(s, i);
      }
    }
    r := 0;
  }

  /** `%d` of a non-negative number. */
  function Decimal(n: nat): (d: string)
    ensures |d| > 0 && forall k :: 0 <= k < |d| ==> IsDigit(d[k])
  {
    if n < 10 then [('0' as int + n) as char]
    else Decimal(n / 10) + [('0' as int + n % 10) as char]
  }

  /** Reading a digit string stops exactly where the digits stop. */
  lemma {:induction false} ReadDigitsRun(d: string, t: string, acc: nat)
    requires forall k :: 0 <= k < |d| ==> IsDigit(d[k])
    requires t == [] || !IsDigit(t[0])
    ensures ReadDigits(d + t, acc) == (Accumulate(acc, d), t)
  {
    if d != [] {
      assert (d + t)[1..] == d[1..] + t;
      ReadDigitsRun(d[1..], t, acc * 10 + DigitValue(d[0]));
    } else {
      assert d + t == t;
    }
  }

  /** Reading one more digit multiplies by ten and adds it. */
  lemma {:induction false} AccumulateSnoc(acc: nat, d: string, c: char)
    requires forall k :: 0 <= k < |d| ==> IsDigit(d[k])
    requires IsDigit(c)
    ensures Accumulate(acc, d + [c]) == Accumulate(acc, d) * 10 + DigitValue(c)
    decreases d
  {
    if d != [] {
      assert (d + [c])[1..] == d[1..] + [c];
      AccumulateSnoc(acc * 10 + DigitValue(d[0]), d[1..], c);
    }
  }

  /** Reading the `%d` rendering of `n` gives back `n`. */
  lemma {:induction false} DecimalValue(n: nat)
    ensures Accumulate(0, Decimal(n)) == n
  {
    if n >= 10 {
      DecimalValue(n / 10);
      AccumulateSnoc(0, Decimal(n / 10), ('0' as int + n % 10) as char);
    }
  }

  /** The version text "major.minor.patch" as the update menu renders it. */
  function Render(v: Version): string
    requires v.major >= 0 && v.minor >= 0 && v.patch >= 0
  {
    Decimal(v.major) + "." + Decimal(v.minor) + "." + Decimal(v.patch)
  }

  /** An optional 'v', three digit runs separated by dots, then text that starts with no digit. */
  lemma TagVersionOfText(prefix: string, a: string, b: string, c: string, suffix: string)
    requires prefix == "" || prefix == "v" || prefix == "V"
    requires |a| > 0
    requires forall k :: 0 <= k < |a| ==> IsDigit(a[k])
    requires forall k :: 0 <= k < |b| ==> IsDigit(b[k])
    requires forall k :: 0 <= k < |c| ==> IsDigit(c[k])
    requires suffix == [] || !IsDigit(suffix[0])
    ensures TagVersion(prefix + (a + ("." + (b + ("." + (c + suffix))))))
         == (0, Version(Accumulate(0, a), Accumulate(0, b), Accumulate(0, c)))
  {
    var t2 := "." + (c + suffix);
    var t1 := "." + (b + t2);
    var t := a + t1;
    var s := prefix + t;
    if prefix == "" {
      assert s == t;
    } else {
      assert s[1..] == t;
    }
    assert t[0] == a[0];
    ReadDigitsRun(a, t1, 0);
    assert t1[1..] == b + t2;
    ReadDigitsRun(b, t2, 0);
    assert t2[1..] == c + suffix;
    ReadDigitsRun(c, suffix, 0);
  }

  /** Parsing a rendered version, with or without a 'v', gives it back; trailing non-digit text is ignored. */
  lemma {:induction false} TagVersionRoundTrip(v: Version, prefix: string, suffix: string)
    requires v.major >= 0 && v.minor >= 0 && v.patch >= 0
    requires prefix == "" || prefix == "v" || prefix == "V"
    requires suffix == [] || !IsDigit(suffix[0])
    ensures TagVersion(prefix + Render(v) + suffix) == (0, v)
  {
    var a, b, c := Decimal(v.major), Decimal(v.minor), Decimal(v.patch);
    assert prefix + Render(v) + suffix == prefix + (a + ("." + (b + ("." + (c + suffix)))));
    TagVersionOfText(prefix, a, b, c, suffix);
    DecimalValue(v.major);
    DecimalValue(v.minor);
    DecimalValue(v.patch);
  }

  /** A tag that does not start with a digit after the optional 'v' is refused with all numbers 0. */
  lemma RefusedTag(s: string)
    requires var start := if |s| > 0 && (s[0] == 'v' || s[0] == 'V') then 1 else 0;
      start == |s| || !IsDigit(s[start])
    ensures TagVersion(s) == (-1, Version(0, 0, 0))
  {
  }

  /** The update test of `VR_OnCheckUpdatesResponse`. */
  predicate NeedsUpdate(latest: Version, current: Version)
  {
    latest.major > current.major
    || (latest.major == current.major
        && (latest.minor > current.minor || (latest.minor == current.minor && latest.patch > current.patch)))
  }

  /** Lexicographic order on sequences of numbers, as an independent reading of "newer". */
  predicate LexLess(a: seq<int>, b: seq<int>)
    requires |a| == |b|
  {
    |a| > 0 && (a[0] < b[0] || (a[0] == b[0] && LexLess(a[1..], b[1..])))
  }

  function Parts(v: Version): seq<int>
  {
    [v.major, v.minor, v.patch]
  }

  /** An update is needed exactly when the running version is lexicographically below the released one. */
  lemma NeedsUpdateIsLexGreater(latest: Version, current: Version)
    ensures NeedsUpdate(latest, current) <==> LexLess(Parts(current), Parts(latest))
  {
    var c, l := Parts(current), Parts(latest);
    var c1, l1 := [current.minor, current.patch], [latest.minor, latest.patch];
    var c2, l2 := [current.patch], [latest.patch];
    assert c[1..] == c1 && l[1..] == l1;
    assert c1[1..] == c2 && l1[1..] == l2;
    assert c2[1..] == [] && l2[1..] == [];
    assert LexLess(c2, l2) <==> current.patch < latest.patch;
    assert LexLess(c1, l1) <==> current.minor < latest.minor || (current.minor == latest.minor && LexLess(c2, l2));
  }

  /** The same version never asks for an update, and of two distinct versions exactly one is newer. */
  lemma NeedsUpdateStrictTotal(a: Version, b: Version)
    ensures !NeedsUpdate(a, a)
    ensures a != b ==> (NeedsUpdate(a, b) != NeedsUpdate(b, a))
  {
  }

  /** The state of the update check in `vr_updates.c` and the cvars it writes. */
  class UpdateCheck {
    var checkedAlready: bool
    var checkInProgress: bool
    var downloadsStarted: nat
    var versionCvars: Option<Version>
    var updateCvar: Option<bool>

    constructor ()
      ensures !checkedAlready && !checkInProgress && downloadsStarted == 0
      ensures versionCvars == None && updateCvar == None
    {
      checkedAlready, checkInProgress, downloadsStarted := false, false, 0;
      versionCvars, updateCvar := None, None;
    }

    /** `VR_CheckUpdates`: starts the download unless one is running or has finished. */
    method CheckUpdates()
      modifies this
      ensures old(checkInProgress) || old(checkedAlready) ==> unchanged(this)
      ensures !old(checkInProgress) && !old(checkedAlready) ==>
        checkInProgress && downloadsStarted == old(downloadsStarted) + 1
        && checkedAlready == old(checkedAlready)
        && versionCvars == old(versionCvars) && updateCvar == old(updateCvar)
    {
      if checkInProgress || checkedAlready {
        return;
      }
      downloadsStarted := downloadsStarted + 1;
      checkInProgress := true;
    }

    /**
     * `VR_OnCheckUpdatesResponse`: `tag` is the `tag_name` string of the
     * response (`None` when it has none) and `current` the running version.
     */
    method OnCheckUpdatesResponse(bytesRead: int, tag: Option<string>, current: Version)
      modifies this
      ensures !checkInProgress && checkedAlready && downloadsStarted == old(downloadsStarted)
      ensures bytesRead < 0 || tag.None? || tag == Some("") ==>
        versionCvars == old(versionCvars) && updateCvar == old(updateCvar)
      ensures bytesRead >= 0 && tag.Some? && tag.value != "" ==>
        versionCvars == Some(TagVersion(tag.value).1)
        && updateCvar == Some(NeedsUpdate(TagVersion(tag.value).1, current))
    {
      if bytesRead < 0 {
        checkInProgress := false;
        checkedAlready := true;
        return;
      }
      if tag.None? {
        checkInProgress := false;
        checkedAlready := true;
        return;
      }
      if |tag.value| > 0 {
        var _, major, minor, patch := ParseTagVersion(Some(tag.value));
        versionCvars := Some(Version(major, minor, patch));
        updateCvar := Some(NeedsUpdate(Version(major, minor, patch), current));
      }
      checkInProgress := false;
      checkedAlready := true;
    }
  }
}
