/**
 * bHaptics suit support: the numeric helpers that place an impact on the
 * vest or the visor, the router from game event names to suit patterns, and
 * the connection lifetime of the suit library.
 *
 * The suit library is not modelled: whether it loads and which of its four
 * exports resolve are inputs, and every call into it is recorded in
 * `Suit.calls`. The sine of the event yaw, needed for the horizontal impact
 * position, is an input as well.
 */
module Bhaptics {
  import opened VrTypes

  /** Suit positions of the bHaptics player API. */
  const HandL := 6
  const HandR := 7
  const Head := 4
  const VestFront := 201
  const VestBack := 202
  const ArmL := 10
  const ArmR := 11

  /** One motor activation: where on the device, how strong (0..100), how many motors. */
  datatype Point = Point(x: real, y: real, intensity: int, motorCount: int)

  /** `Clamp01`. */
  function Clamp01(value: real): (r: real)
    ensures 0.0 <= r <= 1.0
    ensures 0.0 <= value <= 1.0 ==> r == value
    ensures value < 0.0 ==> r == 0.0
    ensures value > 1.0 ==> r == 1.0
  {
    if value < 0.0 then 0.0 else if value > 1.0 then 1.0 else value
  }

  /** The yaw brought into [0, 360) by whole turns. */
  function NormalizedYaw(yaw: real): (r: real)
    ensures 0.0 <= r < 360.0
  {
    yaw - 360.0 * (yaw / 360.0).Floor as real
  }

  /** A yaw already in [0, 360) is its own normal form. */
  lemma NormalizedYawIdentity(yaw: real)
    requires 0.0 <= yaw < 360.0
    ensures NormalizedYaw(yaw) == yaw
  {
    assert (yaw / 360.0).Floor == 0;
  }

  /** Whole turns do not change the normal form. */
  lemma NormalizedYawPeriodic(yaw: real, k: int)
    ensures NormalizedYaw(yaw + 360.0 * k as real) == NormalizedYaw(yaw)
  {
    var f := (yaw / 360.0).Floor;
    assert (yaw + 360.0 * k as real) / 360.0 == yaw / 360.0 + k as real;
    assert ((yaw + 360.0 * k as real) / 360.0).Floor == f + k;
  }

  /** The normal form differs from the input by whole turns and lies in [0, 360). */
  lemma NormalizedYawUnique(yaw: real, k: int)
    requires 0.0 <= yaw + 360.0 * k as real < 360.0
    ensures NormalizedYaw(yaw) == yaw + 360.0 * k as real
  {
    NormalizedYawPeriodic(yaw, k);
    NormalizedYawIdentity(yaw + 360.0 * k as real);
  }

  /** `NormalizeYaw`: adds and then subtracts whole turns until the yaw lies in [0, 360). */
  method NormalizeYaw(yaw: real) returns (normalized: real)
    ensures normalized == NormalizedYaw(yaw)
  {
    normalized := yaw;
    ghost var k: int := 0;
    while normalized < 0.0
      invariant normalized == yaw + 360.0 * k as real
      invariant normalized < 0.0 ==> k >= 0
      decreases if normalized < 0.0 then (-normalized).Floor + 1 else 0
    {
      normalized := normalized + 360.0;
      k := k + 1;
    }
    while normalized >= 360.0
      invariant normalized == yaw + 360.0 * k as real
      invariant normalized >= 0.0
      decreases normalized.Floor
    {
      normalized := normalized - 360.0;
      k := k - 1;
    }
    NormalizedYawUnique(yaw, k);
  }

  /** `ScaleSuitIntensity`: the event intensity times the global intensity, clamped to [0, 100] and truncated. */
  function ScaleSuitIntensity(base: int, global: real): (r: int)
    ensures 0 <= r <= 100
    ensures 0.0 <= base as real * global <= 100.0 ==>
      r as real <= base as real * global < r as real + 1.0
    ensures base as real * global < 1.0 ==> r == 0
    ensures base as real * global >= 100.0 ==> r == 100
  {
    var scaled := base as real * global;
    var clamped := if scaled < 0.0 then 0.0 else if scaled > 100.0 then 100.0 else scaled;
    TruncateToInt(clamped)
  }

  /** `ScaledEdgeIntensity`: 60% of the intensity, but never below 1 for a positive one. */
  function ScaledEdgeIntensity(intensity: int): (r: int)
    ensures intensity > 0 ==> 1 <= r <= intensity
    ensures intensity >= 2 ==> r as real <= intensity as real * 0.6 < r as real + 1.0
    ensures intensity <= 0 ==> intensity < r + 1 && r <= 0
  {
    var scaled := TruncateToInt(intensity as real * 0.6);
    if scaled < 1 && intensity > 0 then 1 else scaled
  }

  /** `HeightAs01`: a height in [-1, 1] mapped linearly onto [0, 1], clamped outside. */
  function HeightAs01(height: real): (r: real)
    ensures 0.0 <= r <= 1.0
    ensures -1.0 <= height <= 1.0 ==> r == 0.5 + height * 0.5
  {
    Clamp01(0.5 + height * 0.5)
  }

  /** `VestSideForYaw`: hits from behind (normalised yaw strictly between 90 and 270) go to the back. */
  function VestSideForYaw(yaw: real): (side: int)
    ensures side == VestFront || side == VestBack
  {
    var n := NormalizedYaw(yaw);
    if n > 90.0 && n < 270.0 then VestBack else VestFront
  }

  /** The vest side is chosen by the direction of the hit only, not by whole turns. */
  lemma VestSideBehind(yaw: real, k: int)
    ensures VestSideForYaw(yaw + 360.0 * k as real) == VestSideForYaw(yaw)
    ensures 90.0 < yaw < 270.0 ==> VestSideForYaw(yaw) == VestBack
    ensures (0.0 <= yaw <= 90.0 || 270.0 <= yaw < 360.0) ==> VestSideForYaw(yaw) == VestFront
  {
    NormalizedYawPeriodic(yaw, k);
    if 0.0 <= yaw < 360.0 {
      NormalizedYawIdentity(yaw);
    }
  }

  /** The five points `BuildImpactCluster` writes: centre, left, right, up, down. */
  function ImpactCluster(x: real, y: real, intensity: int, motorCount: int, spread: real): (pts: seq<Point>)
    ensures |pts| == 5
    ensures pts[0] == Point(x, y, intensity, motorCount)
    ensures forall i :: 0 <= i < 5 ==> pts[i].motorCount == motorCount
    ensures forall i :: 1 <= i < 5 ==> pts[i].intensity == ScaledEdgeIntensity(intensity)
    ensures pts[1].y == y && pts[2].y == y && pts[3].x == x && pts[4].x == x
    ensures pts[1].x == Clamp01(x - spread) && pts[2].x == Clamp01(x + spread)
    ensures pts[3].y == Clamp01(y + spread) && pts[4].y == Clamp01(y - spread)
  {
    var edge := ScaledEdgeIntensity(intensity);
    [Point(x, y, intensity, motorCount),
     Point(Clamp01(x - spread), y, edge, motorCount),
     Point(Clamp01(x + spread), y, edge, motorCount),
     Point(x, Clamp01(y + spread), edge, motorCount),
     Point(x, Clamp01(y - spread), edge, motorCount)]
  }

  /** A cluster around a point of the unit square stays in the unit square. */
  lemma ImpactClusterInUnitSquare(x: real, y: real, intensity: int, motorCount: int, spread: real)
    requires 0.0 <= x <= 1.0 && 0.0 <= y <= 1.0
    ensures forall p :: p in ImpactCluster(x, y, intensity, motorCount, spread) ==>
      0.0 <= p.x <= 1.0 && 0.0 <= p.y <= 1.0
  {
    var pts := ImpactCluster(x, y, intensity, motorCount, spread);
    forall p | p in pts ensures 0.0 <= p.x <= 1.0 && 0.0 <= p.y <= 1.0 {
      var i :| 0 <= i < 5 && pts[i] == p;
    }
  }

  /** `BuildImpactCluster`: fills the first five slots of `points` and returns their number. */
  method BuildImpactCluster(points: array<Point>, x: real, y: real, intensity: int, motorCount: int, spread: real)
    returns (count: nat)
    requires points.Length >= 5
    modifies points
    ensures count == 5
    ensures points[..5] == ImpactCluster(x, y, intensity, motorCount, spread)
    ensures points[5..] == old(points[5..])
  {
    var edge := ScaledEdgeIntensity(intensity);
    points[0] := Point(x, y, intensity, motorCount);
    points[1] := Point(Clamp01(x - spread), y, edge, motorCount);
    points[2] := Point(Clamp01(x + spread), y, edge, motorCount);
    points[3] := Point(x, Clamp01(y + spread), edge, motorCount);
    points[4] := Point(x, Clamp01(y - spread), edge, motorCount);
    count := 5;
  }

  /** One `bhSubmitPathArray` call. */
  datatype Submission = Submission(key: string, position: int, points: seq<Point>, durationMs: int)

  /** `SubmitVestImpact`; `sinYaw` is the sine of `yaw`. */
  function VestImpact(key: string, yaw: real, sinYaw: real, height: real, intensity: int, durationMs: int): Submission
  {
    Submission(key, VestSideForYaw(yaw),
               ImpactCluster(Clamp01(0.5 + sinYaw * 0.5), HeightAs01(height), intensity, 6, 0.12), durationMs)
  }

  /** `SubmitVisorImpact`; `sinYaw` is the sine of `yaw`. */
  function VisorImpact(key: string, sinYaw: real, height: real, intensity: int, durationMs: int): Submission
  {
    Submission(key, Head,
               ImpactCluster(Clamp01(0.5 + sinYaw * 0.5), HeightAs01(height), intensity, 4, 0.08), durationMs)
  }

  /** `SubmitHandPulse`: one three-motor point in the middle of the hand. */
  function HandPulse(key: string, rightHand: bool, intensity: int, durationMs: int): Submission
  {
    Submission(key, if rightHand then HandR else HandL, [Point(0.5, 0.5, intensity, 3)], durationMs)
  }

  /** `SubmitSleevePulse`: one three-motor point in the middle of the sleeve. */
  function SleevePulse(key: string, rightHand: bool, intensity: int, durationMs: int): Submission
  {
    Submission(key, if rightHand then ArmR else ArmL, [Point(0.5, 0.5, intensity, 3)], durationMs)
  }

  /** The event name without any header: what follows the first ':' if there is one. */
  function EventName(event: string): (name: string)
    ensures ':' !in event ==> name == event
    ensures ':' in event ==> exists i :: 0 <= i < |event| && event[i] == ':' && ':' !in event[..i]
                                          && name == event[i + 1..]
  {
    match FirstIndexOf(event, ':')
      case None => event
      case Some(i) => event[i + 1..]
  }

  /** The hand that fires: position 1 is the right hand, 2 the left one, anything else the handedness setting. */
  function FiringHandIsRight(position: int, rightHanded: bool): bool
  {
    if position == 1 then true else if position == 2 then false else rightHanded
  }

  /** The patterns for one event name, first matching rule first. */
  function Route(name: string, position: int, scaled: int, rightHanded: bool, menuLeftHanded: bool,
                 yaw: real, sinYaw: real, height: real): (subs: seq<Submission>)
    ensures 1 <= |subs| <= 2
  {
    if StartsWith(name, "pickup_") then [VestImpact("bhaptics_pickup", 0.0, 0.0, 0.3, scaled, 130)]
    else if name == "weapon_switch" then [HandPulse("bhaptics_weapon_switch", rightHanded, scaled, 110)]
    else if name == "menu_move" then [HandPulse("bhaptics_menu_move", !menuLeftHanded, scaled / 2, 60)]
    else if name == "jump_start" then [VestImpact("bhaptics_jump_start", yaw, sinYaw, height, scaled, 140)]
    else if name == "jump_landing" then [VestImpact("bhaptics_jump_land", yaw, sinYaw, height, scaled, 200)]
    else if name == "spark" || name == "shield_break" then
      [VestImpact("bhaptics_shield", yaw, sinYaw, height, scaled, 220),
       VisorImpact("bhaptics_visor_impact", sinYaw, height, scaled, 160)]
    else if name == "bullet" || name == "shotgun" || name == "fireball" then
      [VestImpact("bhaptics_impact", yaw, sinYaw, height, scaled, 210),
       VisorImpact("bhaptics_visor_impact", sinYaw, height, scaled, 170)]
    else if Contains(name, "_fire") then
      if FiringHandIsRight(position, rightHanded) then
        [HandPulse("bhaptics_fire_right", true, scaled, 140),
         SleevePulse("bhaptics_sleeve_fire_right", true, scaled, 140)]
      else
        [HandPulse("bhaptics_fire_left", false, scaled, 140),
         SleevePulse("bhaptics_sleeve_fire_left", false, scaled, 140)]
    else [VestImpact("bhaptics_generic", yaw, sinYaw, height, scaled, 120)]
  }

  /** Every point the router submits is at most the suit maximum of 100 and not negative. */
  lemma RouteIntensitiesBounded(name: string, position: int, scaled: int, rightHanded: bool,
                                menuLeftHanded: bool, yaw: real, sinYaw: real, height: real)
    requires 0 < scaled <= 100
    ensures forall s :: s in Route(name, position, scaled, rightHanded, menuLeftHanded, yaw, sinYaw, height) ==> Bounded(s)
  {
    var subs := Route(name, position, scaled, rightHanded, menuLeftHanded, yaw, sinYaw, height);
    if StartsWith(name, "pickup_") {
      ImpactBounded("bhaptics_pickup", 0.0, 0.0, 0.3, scaled, 130);
    } else if name == "weapon_switch" || name == "menu_move" {
      assert |subs| == 1 && Bounded(subs[0]);
    } else if name == "jump_start" {
      ImpactBounded("bhaptics_jump_start", yaw, sinYaw, height, scaled, 140);
    } else if name == "jump_landing" {
      ImpactBounded("bhaptics_jump_land", yaw, sinYaw, height, scaled, 200);
    } else if name == "spark" || name == "shield_break" {
      ImpactBounded("bhaptics_shield", yaw, sinYaw, height, scaled, 220);
      ImpactBounded("bhaptics_visor_impact", yaw, sinYaw, height, scaled, 160);
    } else if name == "bullet" || name == "shotgun" || name == "fireball" {
      ImpactBounded("bhaptics_impact", yaw, sinYaw, height, scaled, 210);
      ImpactBounded("bhaptics_visor_impact", yaw, sinYaw, height, scaled, 170);
    } else if Contains(name, "_fire") {
      assert |subs| == 2 && Bounded(subs[0]) && Bounded(subs[1]);
    } else {
      ImpactBounded("bhaptics_generic", yaw, sinYaw, height, scaled, 120);
    }
  }

  /** The vest and visor patterns of an intensity between 0 and 100 are accepted by the suit. */
  lemma ImpactBounded(key: string, yaw: real, sinYaw: real, height: real, intensity: int, durationMs: int)
    requires 0 <= intensity <= 100 && durationMs > 0
    ensures Bounded(VestImpact(key, yaw, sinYaw, height, intensity, durationMs))
    ensures Bounded(VisorImpact(key, sinYaw, height, intensity, durationMs))
  {
    ClusterBounded(Clamp01(0.5 + sinYaw * 0.5), HeightAs01(height), intensity, 6, 0.12);
    ClusterBounded(Clamp01(0.5 + sinYaw * 0.5), HeightAs01(height), intensity, 4, 0.08);
  }

  /** A submission the suit accepts: a positive duration and every intensity between 0 and 100. */
  predicate Bounded(s: Submission)
  {
    s.durationMs > 0 && forall p :: p in s.points ==> 0 <= p.intensity <= 100
  }

  /** A cluster around an intensity between 0 and 100 has all its intensities there too. */
  lemma ClusterBounded(x: real, y: real, intensity: int, motorCount: int, spread: real)
    requires 0 <= intensity <= 100
    ensures forall p :: p in ImpactCluster(x, y, intensity, motorCount, spread) ==> 0 <= p.intensity <= 100
  {
    var pts := ImpactCluster(x, y, intensity, motorCount, spread);
    forall p | p in pts ensures 0 <= p.intensity <= 100 {
      var i :| 0 <= i < 5 && pts[i] == p;
    }
  }

  /** A pickup is recognised by its prefix before any other rule, even if the name also mentions firing. */
  lemma PickupWins(name: string, position: int, scaled: int, rightHanded: bool, menuLeftHanded: bool,
                   yaw: real, sinYaw: real, height: real)
    requires StartsWith(name, "pickup_")
    ensures Route(name, position, scaled, rightHanded, menuLeftHanded, yaw, sinYaw, height)
         == [Submission("bhaptics_pickup", VestFront, ImpactCluster(0.5, 0.65, scaled, 6, 0.12), 130)]
  {
    NormalizedYawIdentity(0.0);
  }

  /** None of the names matched exactly before the firing rule contains "_fire". */
  lemma LiteralLacksFire(s: string)
    requires s in ["weapon_switch", "menu_move", "jump_start", "jump_landing", "spark",
                   "shield_break", "bullet", "shotgun", "fireball"]
    ensures !Contains(s, "_fire")
  {
    var fire := "_fire";
    assert fire[0] == '_' && fire[1] == 'f';
    forall i ensures !OccursAt(s, fire, i) {
      if 0 <= i <= |s| - 5 {
        assert s[i..i + 5][0] == s[i] && s[i..i + 5][1] == s[i + 1];
        assert s[i] != '_' || s[i + 1] != 'f';
      }
    }
  }

  /** Firing events go to the hand and sleeve the position names, whatever the handedness setting. */
  lemma FireFollowsPosition(name: string, position: int, scaled: int, rightHanded: bool, menuLeftHanded: bool,
                            yaw: real, sinYaw: real, height: real)
    requires Contains(name, "_fire") && !StartsWith(name, "pickup_")
    requires position == 1 || position == 2
    ensures var subs := Route(name, position, scaled, rightHanded, menuLeftHanded, yaw, sinYaw, height);
      |subs| == 2
      && subs[0].position == (if position == 1 then HandR else HandL)
      && subs[1].position == (if position == 1 then ArmR else ArmL)
  {
    var literals := ["weapon_switch", "menu_move", "jump_start", "jump_landing", "spark",
                     "shield_break", "bullet", "shotgun", "fireball"];
    forall s | s in literals ensures !Contains(s, "_fire") {
      LiteralLacksFire(s);
    }
  }

  /** A call into the suit library. */
  datatype SuitCall = OpenLibrary | CloseLibrary | Initialise(appId: string, appName: string) | TurnOff | Destroy

  /** Which of the four required exports the library provides when it is opened. */
  datatype Exports = Exports(initialise: bool, destroy: bool, turnOff: bool, submitPathArray: bool)

  /** The connection state of `vr_bhaptics.c`: the library handle, the four entry points and the flag. */
  class Suit {
    var initialized: bool
    var libraryLoaded: bool
    var initialiseFn: bool
    var destroyFn: bool
    var turnOffFn: bool
    var submitFn: bool
    var calls: seq<SuitCall>

    /** A library stays loaded exactly while the suit is initialised, and then all entry points are known. */
    ghost predicate Valid()
      reads this
    {
      libraryLoaded == initialized
      && (initialized ==> initialiseFn && destroyFn && turnOffFn && submitFn)
    }

    constructor ()
      ensures Valid() && !initialized && calls == []
      ensures !initialiseFn && !destroyFn && !turnOffFn && !submitFn
    {
      initialized, libraryLoaded := false, false;
      initialiseFn, destroyFn, turnOffFn, submitFn := false, false, false, false;
      calls := [];
    }

    /**
     * `LoadBhapticsLibrary`: `opens` says whether the library file could be
     * opened and `exports` which entry points it has.
     */
    method Load(opens: bool, exports: Exports) returns (ok: bool)
      modifies this
      ensures old(libraryLoaded) ==> ok && unchanged(this)
      ensures !old(libraryLoaded) ==> ok == (opens && exports == Exports(true, true, true, true))
      ensures !old(libraryLoaded) ==> libraryLoaded == ok
      ensures !old(libraryLoaded) && opens ==>
        initialiseFn == exports.initialise && destroyFn == exports.destroy
        && turnOffFn == exports.turnOff && submitFn == exports.submitPathArray
      ensures !old(libraryLoaded) && !opens ==> unchanged(this)
      ensures !old(libraryLoaded) && opens ==>
        calls == old(calls) + [OpenLibrary] + (if ok then [] else [CloseLibrary])
      ensures initialized == old(initialized)
    {
      if libraryLoaded {
        return true;
      }
      if !opens {
        return false;
      }
      calls := calls + [OpenLibrary];
      libraryLoaded := true;
      initialiseFn, destroyFn, turnOffFn, submitFn :=
        exports.initialise, exports.destroy, exports.turnOff, exports.submitPathArray;
      if !initialiseFn || !destroyFn || !turnOffFn || !submitFn {
        calls := calls + [CloseLibrary];
        libraryLoaded := false;
        return false;
      }
      return true;
    }

    /** `VR_Bhaptics_Init` with the `vr_bhaptics` cvar (`None` when it is not registered). */
    method Init(cvar: Option<int>, opens: bool, exports: Exports)
      requires Valid()
      modifies this
      ensures Valid()
      ensures old(initialized) ==> unchanged(this)
      ensures cvar.None? || cvar == Some(0) ==> unchanged(this)
      ensures initialized <==>
        (old(initialized) || (cvar.Some? && cvar.value != 0 && opens && exports == Exports(true, true, true, true)))
      ensures !old(initialized) && initialized ==>
        calls == old(calls) + [OpenLibrary, Initialise("q3vr", "Quake 3 VR")]
    {
      if initialized {
        return;
      }
      if cvar.None? || cvar.value == 0 {
        return;
      }
      var ok := Load(opens, exports);
      if !ok {
        return;
      }
      calls := calls + [Initialise("q3vr", "Quake 3 VR")];
      initialized := true;
    }

    /** `VR_Bhaptics_Shutdown`: turns the suit off, closes the library and forgets every entry point. */
    method Shutdown()
      requires Valid()
      modifies this
      ensures Valid()
      ensures !old(initialized) ==> unchanged(this)
      ensures old(initialized) ==>
        && !initialized && !libraryLoaded
        && !initialiseFn && !destroyFn && !turnOffFn && !submitFn
        && calls == old(calls) + [TurnOff, Destroy, CloseLibrary]
    {
      if !initialized {
        return;
      }
      if turnOffFn {
        calls := calls + [TurnOff];
      }
      if destroyFn {
        calls := calls + [Destroy];
      }
      if libraryLoaded {
        calls := calls + [CloseLibrary];
        libraryLoaded := false;
      }
      initialiseFn, destroyFn, turnOffFn, submitFn := false, false, false, false;
      initialized := false;
    }

    /** `VR_Bhaptics_UpdateEnabled`: follows the cvar, connecting when it is nonzero and disconnecting when it is zero. */
    method UpdateEnabled(cvar: Option<int>, opens: bool, exports: Exports)
      requires Valid()
      modifies this
      ensures Valid()
      ensures cvar.None? ==> unchanged(this)
      ensures cvar == Some(0) ==> !initialized
      ensures cvar.Some? && cvar.value != 0 ==>
        (initialized <==> old(initialized) || (opens && exports == Exports(true, true, true, true)))
    {
      if cvar.None? {
        return;
      }
      if cvar.value != 0 {
        Init(cvar, opens, exports);
      } else if initialized {
        Shutdown();
      }
    }

    /**
     * `VR_Bhaptics_HandleEvent`: `event` is `None` for a null pointer,
     * `cvar` the `vr_bhaptics` cvar, `global` the haptics intensity and
     * `rightHanded` the `vr_righthanded` setting.
     */
    function HandleEvent(event: Option<string>, position: int, intensity: int, yaw: real, sinYaw: real,
                         height: real, cvar: Option<int>, global: real, rightHanded: bool,
                         menuLeftHanded: bool): (subs: seq<Submission>)
      reads this
      ensures event.None? || cvar.None? || cvar == Some(0) || global <= 0.0 || !initialized ==> subs == []
      ensures ScaleSuitIntensity(intensity, global) <= 0 ==> subs == []
      ensures subs != [] ==> 1 <= |subs| <= 2
      ensures forall s :: s in subs ==> forall p :: p in s.points ==> 0 <= p.intensity <= 100
      ensures event.Some? && cvar.Some? && cvar.value != 0 && global > 0.0 && initialized
              && ScaleSuitIntensity(intensity, global) > 0 ==>
        && subs == Route(EventName(event.value), position, ScaleSuitIntensity(intensity, global),
                         rightHanded, menuLeftHanded, yaw, sinYaw, height)
        && 1 <= |subs| <= 2
    {
      if event.None? || cvar.None? || cvar.value == 0 then []
      else if global <= 0.0 then []
      else if !initialized then []
      else
        var scaled := ScaleSuitIntensity(intensity, global);
        if scaled <= 0 then []
        else
          RouteIntensitiesBounded(EventName(event.value), position, scaled, rightHanded, menuLeftHanded,
                                  yaw, sinYaw, height);
          Route(EventName(event.value), position, scaled, rightHanded, menuLeftHanded, yaw, sinYaw, height)
    }
  }
}
