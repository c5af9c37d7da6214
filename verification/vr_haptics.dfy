/**
 * Controller haptics scheduler: a two-channel table of remaining vibration
 * time (milliseconds, -1 meaning "until replaced") and amplitude.
 * Channel 0 is the left controller, channel 1 the right one; the channel
 * selector of `VR_Vibrate` is a bit mask (bit 0 left, bit 1 right).
 */
module Haptics {

  /** `VR_AreHapticsEnabled`: haptics are on when the global intensity exceeds 0.1. */
  predicate AreHapticsEnabled(globalIntensity: real)
  {
    globalIntensity > 0.1
  }

  /**
   * Bit `i` of the channel mask, for any C `int` in two's complement: bit 0 is
   * the parity and bit 1 the parity of the floored half (Dafny's `/` with a
   * positive divisor floors).
   */
  predicate Selected(chan: int, i: nat)
    requires i < 2
  {
    (if i == 0 then chan else chan / 2) % 2 == 1
  }

  /** A channel whose stored duration is `current` accepts a request of `duration` ms. */
  predicate Admits(current: real, duration: int)
  {
    !(current > 0.0) && !(current == -1.0 && duration != 0)
  }

  /**
   * Channel `i` is written by a request: it is addressed, and no addressed
   * channel up to and including it refuses (the loop returns at the first refusal).
   */
  predicate Applies(d: seq<real>, duration: int, chan: int, i: nat)
    requires |d| == 2 && i < 2
  {
    Selected(chan, i) && forall j :: 0 <= j <= i && Selected(chan, j) ==> Admits(d[j], duration)
  }

  /** The table after a request: applied channels take the duration and the scaled amplitude. */
  function Vibrated(d: seq<real>, n: seq<real>, duration: int, chan: int, level: real): (r: (seq<real>, seq<real>))
    requires |d| == 2 && |n| == 2
    ensures |r.0| == 2 && |r.1| == 2
  {
    (seq(2, i requires 0 <= i < 2 => if Applies(d, duration, chan, i) then duration as real else d[i]),
     seq(2, i requires 0 <= i < 2 => if Applies(d, duration, chan, i) then level else n[i]))
  }

  /** Characterises `Vibrated` channel by channel. */
  lemma VibratedIs(d: seq<real>, n: seq<real>, duration: int, chan: int, level: real,
                   d': seq<real>, n': seq<real>)
    requires |d| == 2 && |n| == 2 && |d'| == 2 && |n'| == 2
    requires forall j :: 0 <= j < 2 ==>
      d'[j] == (if Applies(d, duration, chan, j) then duration as real else d[j])
    requires forall j :: 0 <= j < 2 ==>
      n'[j] == (if Applies(d, duration, chan, j) then level else n[j])
    ensures Vibrated(d, n, duration, chan, level) == (d', n')
  {
    var r := Vibrated(d, n, duration, chan, level);
    assert r.0 == d';
    assert r.1 == n';
  }

  /** A stored duration is a non-negative time or the "infinite" sentinel -1. */
  predicate WellFormed(d: real)
  {
    d >= 0.0 || d == -1.0
  }

  /** One channel after a frame of `elapsed` ms. */
  function Tick(d: real, n: real, elapsed: real): (r: (real, real))
    ensures d == -1.0 ==> r == (d, n)
    ensures WellFormed(d) ==> WellFormed(r.0)
    ensures elapsed >= 0.0 ==> r.0 <= d || d == -1.0 || !(d > 0.0)
    ensures r.0 == 0.0 && r.1 != n ==> d > 0.0 && d - elapsed < 0.0
  {
    if d > 0.0 || d == -1.0 then
      if d != -1.0 then
        if d - elapsed < 0.0 then (0.0, 0.0) else (d - elapsed, n)
      else (d, n)
    else (d, n)
  }

  /** What the runtime is asked to do for one controller in `VR_ProcessHaptics`. */
  datatype HapticSend =
    | Apply(channel: nat, amplitude: real, durationMs: real)
    | Stop(channel: nat)

  /** The request issued for channel `i` with the table as it stood before the frame. */
  function SendFor(i: nat, d: real, n: real): HapticSend
  {
    if d > 0.0 || d == -1.0 then Apply(i, n, d) else Stop(i)
  }

  class Haptics {
    const durations: array<real>
    const intensities: array<real>

    ghost predicate Valid()
      reads this
    {
      durations.Length == 2 && intensities.Length == 2 && durations != intensities
    }

    /** Both channels idle, as the zero-initialised C globals. */
    constructor ()
      ensures Valid() && fresh(durations) && fresh(intensities)
      ensures durations[..] == [0.0, 0.0] && intensities[..] == [0.0, 0.0]
    {
      durations := new real[2](_ => 0.0);
      intensities := new real[2](_ => 0.0);
    }

    /** `VR_Vibrate(duration, chan, intensity)` with the global intensity as `global`. */
    method Vibrate(duration: int, chan: int, intensity: real, global: real)
      requires Valid()
      modifies durations, intensities
      ensures (durations[..], intensities[..])
           == Vibrated(old(durations[..]), old(intensities[..]), duration, chan, intensity * global)
    {
      ghost var d0, n0 := durations[..], intensities[..];
      for i := 0 to 2
        invariant forall j :: 0 <= j < i ==> Selected(chan, j) ==> Admits(d0[j], duration)
        invariant forall j :: 0 <= j < 2 ==>
          durations[j] == (if j < i && Selected(chan, j) then duration as real else d0[j])
        invariant forall j :: 0 <= j < 2 ==>
          intensities[j] == (if j < i && Selected(chan, j) then intensity * global else n0[j])
      {
        if Selected(chan, i) {
          if !Admits(durations[i], duration) {
            assert forall j :: i <= j < 2 ==> !Applies(d0, duration, chan, j);
            VibratedIs(d0, n0, duration, chan, intensity * global, durations[..], intensities[..]);
            return;
          }
          durations[i] := duration as real;
          intensities[i] := intensity * global;
        }
      }
      VibratedIs(d0, n0, duration, chan, intensity * global, durations[..], intensities[..]);
    }

    /**
     * The duration bookkeeping of `VR_ProcessHaptics`: `elapsed` is the time
     * since the previous call; the requests sent to the runtime are returned.
     */
    method Process(elapsed: real) returns (sends: seq<HapticSend>)
      requires Valid()
      modifies durations, intensities
      ensures forall i :: 0 <= i < 2 ==>
        (durations[i], intensities[i]) == Tick(old(durations[i]), old(intensities[i]), elapsed)
      ensures sends == [SendFor(0, old(durations[0]), old(intensities[0])),
                        SendFor(1, old(durations[1]), old(intensities[1]))]
    {
      ghost var d0, n0 := durations[..], intensities[..];
      sends := [];
      for i := 0 to 2
        invariant |sends| == i
        invariant forall j :: 0 <= j < i ==> sends[j] == SendFor(j, d0[j], n0[j])
        invariant forall j :: 0 <= j < 2 ==>
          (durations[j], intensities[j]) == (if j < i then Tick(d0[j], n0[j], elapsed) else (d0[j], n0[j]))
      {
        if durations[i] > 0.0 || durations[i] == -1.0 {
          sends := sends + [Apply(i, intensities[i], durations[i])];
          if durations[i] != -1.0 {
            durations[i] := durations[i] - elapsed;
            if durations[i] < 0.0 {
              durations[i] := 0.0;
              intensities[i] := 0.0;
            }
          }
        } else {
          sends := sends + [Stop(i)];
        }
      }
    }
  }

  /** A mask with neither bit set (chan 0, for instance) changes nothing. */
  lemma NoChannelNoChange(d: seq<real>, n: seq<real>, duration: int, chan: int, level: real)
    requires |d| == 2 && |n| == 2
    requires !Selected(chan, 0) && !Selected(chan, 1)
    ensures Vibrated(d, n, duration, chan, level) == (d, n)
  {
    VibratedIs(d, n, duration, chan, level, d, n);
  }

  /** Chan 1 addresses only the left channel, chan 2 only the right one. */
  lemma ChannelMasks()
    ensures Selected(1, 0) && !Selected(1, 1)
    ensures !Selected(2, 0) && Selected(2, 1)
    ensures Selected(3, 0) && Selected(3, 1)
    ensures !Selected(0, 0) && !Selected(0, 1)
  {
  }

  /** A busy left channel makes a request for both channels change nothing at all. */
  lemma BusyLeftBlocksBoth(d: seq<real>, n: seq<real>, duration: int, chan: int, level: real)
    requires |d| == 2 && |n| == 2
    requires Selected(chan, 0) && !Admits(d[0], duration)
    ensures Vibrated(d, n, duration, chan, level) == (d, n)
  {
    VibratedIs(d, n, duration, chan, level, d, n);
  }

  /** An infinite vibration survives every request but a zero-duration one. */
  lemma InfiniteKeptUnlessZero(d: seq<real>, n: seq<real>, duration: int, chan: int, level: real, i: nat)
    requires |d| == 2 && |n| == 2 && i < 2
    requires d[i] == -1.0 && duration != 0
    ensures Vibrated(d, n, duration, chan, level).0[i] == -1.0
    ensures Vibrated(d, n, duration, chan, level).1[i] == n[i]
  {
  }

  /** An addressed idle channel, with every earlier addressed channel idle, takes the request. */
  lemma IdleChannelAccepts(d: seq<real>, n: seq<real>, duration: int, chan: int, level: real, i: nat)
    requires |d| == 2 && |n| == 2 && i < 2
    requires Selected(chan, i)
    requires forall j :: 0 <= j <= i ==> d[j] == 0.0
    ensures Vibrated(d, n, duration, chan, level).0[i] == duration as real
    ensures Vibrated(d, n, duration, chan, level).1[i] == level
  {
  }

  /** Requests of at least -1 ms keep every stored duration well formed. */
  lemma VibratePreservesWellFormed(d: seq<real>, n: seq<real>, duration: int, chan: int, level: real)
    requires |d| == 2 && |n| == 2 && duration >= -1
    requires WellFormed(d[0]) && WellFormed(d[1])
    ensures WellFormed(Vibrated(d, n, duration, chan, level).0[0])
    ensures WellFormed(Vibrated(d, n, duration, chan, level).0[1])
  {
  }
}
