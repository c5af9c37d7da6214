/**
 * Shared data model of the VR layer: runtime handles, poses, the per-frame
 * end-of-frame descriptor, the trace of calls made into the XR runtime and
 * the engine, and the state records that the C code keeps in `VR_App`,
 * `VR_Engine` and `vr_clientinfo_t`.
 *
 * The XR runtime, OpenGL and the game engine are not modelled: every call
 * into them is appended to `Runtime.calls`, and every value they return is a
 * parameter of the method that receives it.
 */
module VrTypes {

  datatype Option<T> = None | Some(value: T)

  /**
   * A C conversion of a float to `int`, which truncates toward zero: the
   * result has the sign of `x` and the largest magnitude not above `|x|`.
   */
  function TruncateToInt(x: real): (r: int)
    ensures x >= 0.0 ==> 0 <= r && r as real <= x < r as real + 1.0
    ensures x < 0.0 ==> r <= 0 && r as real - 1.0 < x <= r as real
  {
    if x >= 0.0 then x.Floor else -((-x).Floor)
  }

  /** `strchr`: the position of the first `c` in `s`, if any. */
  function FirstIndexOf(s: string, c: char): (r: Option<nat>)
    ensures r.None? <==> c !in s
    ensures r.Some? ==> r.value < |s| && s[r.value] == c && c !in s[..r.value]
  {
    if s == [] then None
    else if s[0] == c then Some(0)
    else match FirstIndexOf(s[1..], c)
      case None => None
      case Some(i) =>
        assert s[..i + 1] == [s[0]] + s[1..][..i];
        Some(i + 1)
  }

  /** `strncmp(s, p, |p|) == 0` on NUL-free strings. */
  predicate StartsWith(s: string, p: string)
  {
    |p| <= |s| && s[..|p|] == p
  }

  /** `sub` occurs in `s` starting at position `i`. */
  predicate OccursAt(s: string, sub: string, i: int)
  {
    0 <= i <= |s| - |sub| && s[i..i + |sub|] == sub
  }

  /** `strstr(s, sub) != NULL` on NUL-free strings. */
  predicate Contains(s: string, sub: string)
  {
    exists i | 0 <= i <= |s| :: OccursAt(s, sub, i)
  }

  /** An opaque runtime handle (XrSession, XrSpace, ...); `Null` is XR_NULL_HANDLE. */
  datatype Handle = Null | Live(id: nat)

  datatype Vec3 = Vec3(x: real, y: real, z: real)
  datatype Quat = Quat(x: real, y: real, z: real, w: real)
  datatype Pose = Pose(orientation: Quat, position: Vec3)

  /** XrFovf: the four half-angles of a view, in radians. */
  datatype Fov = Fov(angleLeft: real, angleRight: real, angleUp: real, angleDown: real)

  /** XrReferenceSpaceType values used by the layer. */
  datatype SpaceKind = ViewSpace | LocalSpace | StageSpace

  /** XrSwapchainSubImage: which swapchain, which rectangle, which array layer. */
  datatype SubImage = SubImage(swapchain: Handle, offsetX: int, offsetY: int,
                               width: int, height: int, imageArrayIndex: nat)

  /** XrCompositionLayerProjectionView. */
  datatype ProjectionView = ProjectionView(pose: Pose, fov: Fov, subImage: SubImage)

  /** XrCompositionLayerProjection, with its two layer flags spelled out. */
  datatype ProjectionLayer = ProjectionLayer(
    blendTextureSourceAlpha: bool,
    correctChromaticAberration: bool,
    space: Handle,
    viewCount: nat,
    views: seq<ProjectionView>)

  datatype BlendMode = Opaque | Additive | AlphaBlend

  /** XrFrameEndInfo: `layers` is empty exactly when the C code passes a null list. */
  datatype FrameEndInfo = FrameEndInfo(displayTime: int, blendMode: BlendMode,
                                       layers: seq<ProjectionLayer>)

  /** One call made into the XR runtime or into the engine, in program order. */
  datatype XrCall =
    | CreateInstance(instance: Handle)
    | DestroyInstance(instance: Handle)
    | GetInstanceProperties(instance: Handle)
    | CreateDebugMessenger(instance: Handle, messenger: Handle)
    | DestroyDebugMessenger(messenger: Handle)
    | GetHmdSystem(instance: Handle)           // VR_GetHMDSystem
    | GetSystemProperties(instance: Handle)    // VR_GetSystemProperties
    | InitInstanceInput(instance: Handle)      // VR_InitInstanceInput
    | CreateSession(session: Handle)
    | DestroySession(session: Handle)
    | BeginSession(session: Handle)
    | EndSession(session: Handle)
    | CreateReferenceSpace(kind: SpaceKind, offsetY: real, yaw: Option<real>, space: Handle)
    | DestroySpace(space: Handle)
    | LocateSpace(time: int)
    | WaitFrame(predictedTime: int)
    | BeginFrame
    | LocateViews(time: int, space: Handle)
    | UpdateControllers(time: int)
    | CreateSwapchain(format: int, arraySize: nat, width: int, height: int, swapchain: Handle)
    | DestroySwapchain(swapchain: Handle)
    | AcquireImages(colorIndex: nat, depthIndex: nat)
    | ReleaseImages
    | EndFrame(info: FrameEndInfo)
    | PollDesktopInput        // IN_Frame
    | GameFrame               // Com_Frame
    | PauseHook               // VR_Gameplay_OpenMenuAndPauseIfPossible
    | RefreshRateSetting(rate: real)

  /**
   * The external world: the calls made so far and the next handle value the
   * runtime will hand out.
   */
  class Runtime {
    var calls: seq<XrCall>
    var nextId: nat

    constructor ()
      ensures calls == [] && nextId == 1
    {
      calls := [];
      nextId := 1;
    }

    /** Records one call. */
    method Call(c: XrCall)
      modifies this
      ensures calls == old(calls) + [c] && nextId == old(nextId)
    {
      calls := calls + [c];
    }

    /** A handle the runtime has not handed out before. */
    method NewHandle() returns (h: Handle)
      modifies this
      ensures h == Live(old(nextId)) && nextId == old(nextId) + 1
      ensures calls == old(calls)
    {
      h := Live(nextId);
      nextId := nextId + 1;
    }
  }

  /** VR_App: the session handle, its liveness flags and the reference spaces. */
  class App {
    var instance: Handle
    var debugMessenger: Handle
    var session: Handle
    var sessionActive: bool
    var focused: bool
    var visible: bool
    var headSpace: Handle
    var stageSpace: Handle
    var fakeStageSpace: Handle
    var currentSpace: Handle
    var refreshRate: real

    constructor ()
      ensures IsZero()
    {
      instance, debugMessenger, session := Null, Null, Null;
      sessionActive, focused, visible := false, false, false;
      headSpace, stageSpace, fakeStageSpace, currentSpace := Null, Null, Null, Null;
      refreshRate := 0.0;
    }

    /** The state `memset(&vr_engine, 0, ...)` leaves behind. */
    ghost predicate IsZero()
      reads this
    {
      && instance == Null && debugMessenger == Null && session == Null
      && !sessionActive && !focused && !visible
      && headSpace == Null && stageSpace == Null && fakeStageSpace == Null && currentSpace == Null
      && refreshRate == 0.0
    }

    /** Zeroes every field, as `memset` does. */
    method Zero()
      modifies this
      ensures IsZero()
    {
      instance, debugMessenger, session := Null, Null, Null;
      sessionActive, focused, visible := false, false, false;
      headSpace, stageSpace, fakeStageSpace, currentSpace := Null, Null, Null, Null;
      refreshRate := 0.0;
    }
  }

  /** VR_Engine: the desktop window size and the application state. */
  class Engine {
    var windowWidth: int
    var windowHeight: int
    const app: App

    constructor ()
      ensures windowWidth == 0 && windowHeight == 0 && fresh(app) && app.IsZero()
    {
      windowWidth, windowHeight := 0, 0;
      app := new App();
    }
  }

  /** connstate_t of the client, in its declaration order. */
  datatype ConnState =
    | Uninitialized | Disconnected | Authorizing | Connecting | Challenging
    | Connected | Loading | Primed | Active | Cinematic

  /** VR_FollowMode values that the layer sets. */
  datatype FollowMode = FirstPerson | ThirdPerson1 | ThirdPerson2

  /** The fields of `vr_clientinfo_t` that the modelled core reads or writes. */
  class ClientInfo {
    var followMode: FollowMode
    var weaponZoomed: bool
    var weaponZoomLevel: real
    var menuYaw: real
    var recenterYaw: real
    var menuLeftHanded: bool

    constructor ()
      ensures IsZero(this)
    {
      followMode := FirstPerson;
      weaponZoomed := false;
      weaponZoomLevel, menuYaw, recenterYaw := 0.0, 0.0, 0.0;
      menuLeftHanded := false;
    }
  }

  /** The zero state of the client info apart from the follow mode. */
  ghost predicate IsZero(vr: ClientInfo)
    reads vr
  {
    !vr.weaponZoomed && vr.weaponZoomLevel == 0.0 && vr.menuYaw == 0.0
    && vr.recenterYaw == 0.0 && !vr.menuLeftHanded
  }
}
