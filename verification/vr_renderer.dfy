/**
 * The frame orchestrator of the VR layer: `VR_ProcessFrame` and the frame
 * begin and end it brackets the game frame with, the restore and loading
 * paths that reopen a frame, recentering of the reference spaces, the
 * weapon-zoom update and the desktop-view setting.
 *
 * Every runtime answer a tick consumes (the predicted display time, the
 * located views, the acquired image indices, the head yaw, the events) is
 * a parameter; the game frame itself is the single `GameFrame` call.
 */
module Renderer {
  import opened VrTypes
  import Events
  import Swapchains
  import RenderLoop
  import VirtualScreen
  import Gameplay
  import Base

  const ZoomInStep: real := 0.05
  const ZoomOutStep: real := 0.25
  const MaxZoom: real := 2.5
  const MinZoom: real := 1.0

  /** The weapon zoom level after one `VR_UpdatePerFrameState`. */
  function ZoomStep(zoomed: bool, level: real): real
  {
    if zoomed then (if level + ZoomInStep > MaxZoom then MaxZoom else level + ZoomInStep)
    else (if level - ZoomOutStep < MinZoom then MinZoom else level - ZoomOutStep)
  }

  /**
   * Once the zoom level is in [1.0, 2.5] it stays there; zooming never
   * lowers it and zooming out never raises it.
   */
  lemma ZoomStaysInRange(zoomed: bool, level: real)
    requires MinZoom <= level <= MaxZoom
    ensures MinZoom <= ZoomStep(zoomed, level) <= MaxZoom
    ensures zoomed ==> ZoomStep(zoomed, level) >= level
    ensures !zoomed ==> ZoomStep(zoomed, level) <= level
  {
  }

  /** The zoom level after `n` frames with the same zoom button state. */
  function ZoomAfter(zoomed: bool, level: real, n: nat): real
    decreases n
  {
    if n == 0 then level else ZoomAfter(zoomed, ZoomStep(zoomed, level), n - 1)
  }

  /** The bounds are fixed points. */
  lemma {:induction false} ZoomBoundsStay(n: nat)
    ensures ZoomAfter(true, MaxZoom, n) == MaxZoom && ZoomAfter(false, MinZoom, n) == MinZoom
  {
    if n > 0 {
      ZoomBoundsStay(n - 1);
    }
  }

  /**
   * Holding zoom reaches the 2.5 cap once 0.05 per frame would pass it, and
   * releasing it reaches the 1.0 floor once 0.25 per frame would pass it.
   */
  lemma {:induction false} ZoomSettles(zoomed: bool, level: real, n: nat)
    requires n >= 1
    requires zoomed ==> level + ZoomInStep * n as real >= MaxZoom
    requires !zoomed ==> level - ZoomOutStep * n as real <= MinZoom
    ensures ZoomAfter(zoomed, level, n) == if zoomed then MaxZoom else MinZoom
    decreases n
  {
    var next := ZoomStep(zoomed, level);
    if zoomed && (level + ZoomInStep >= MaxZoom || n == 1) {
      assert next == MaxZoom;
      ZoomBoundsStay(n - 1);
    } else if !zoomed && (level - ZoomOutStep <= MinZoom || n == 1) {
      assert next == MinZoom;
      ZoomBoundsStay(n - 1);
    } else {
      if zoomed {
        assert next + ZoomInStep * (n - 1) as real == level + ZoomInStep * n as real;
      } else {
        assert next - ZoomOutStep * (n - 1) as real == level - ZoomOutStep * n as real;
      }
      ZoomSettles(zoomed, next, n - 1);
    }
  }

  /**
   * `VR_GetDesktopViewConfiguration`: `vr_desktopMode` 1 shows the right
   * eye, 2 both eyes and every other value the left eye.
   */
  function DesktopViewOf(mode: int): (r: Swapchains.DesktopView)
    ensures r == Swapchains.RightEye <==> mode == 1
    ensures r == Swapchains.BothEyes <==> mode == 2
    ensures r == Swapchains.LeftEye <==> mode != 1 && mode != 2
  {
    if mode == 0 then Swapchains.LeftEye
    else if mode == 1 then Swapchains.RightEye
    else if mode == 2 then Swapchains.BothEyes
    else Swapchains.LeftEye
  }

  /** Height of the fake stage below the local space's origin, in metres. */
  const FakeStageOffset: real := -1.675

  /** Locating the head against the current space, which `VR_Recenter` does only when there is one. */
  function LocateCalls(time: int, yaw: Option<real>): seq<XrCall>
  {
    if yaw.Some? then [LocateSpace(time)] else []
  }

  /** The calls that release the existing stage and fake stage, each only when it exists. */
  function DropCalls(stage: Handle, fakeStage: Handle): seq<XrCall>
  {
    (if stage != Null then [DestroySpace(stage)] else []) + (if fakeStage != Null then [DestroySpace(fakeStage)] else [])
  }

  /** The calls creating the fake stage as `first` and, when supported, the stage as `first + 1`. */
  function CreateCalls(yaw: Option<real>, stageSupported: bool, first: nat): seq<XrCall>
  {
    [CreateReferenceSpace(LocalSpace, FakeStageOffset, yaw, Live(first))]
    + (if stageSupported then [CreateReferenceSpace(StageSpace, 0.0, yaw, Live(first + 1))] else [])
  }

  /** The yaw `VR_Recenter` turns the new spaces by: the accumulated one, when there is a current space to locate the head in. */
  function NewYaw(currentSpace: Handle, recenterYaw: real, headYaw: real): Option<real>
  {
    if currentSpace != Null then Some(recenterYaw + headYaw) else None
  }

  /**
   * The calls `VR_Recenter` makes: locating the head when there is a
   * current space (`yaw` then holds the accumulated recenter yaw), the
   * destruction of the existing stage and fake stage, then the fake stage
   * and, when the runtime supports it, the stage, as the handles `first`
   * and `first + 1`.
   */
  function RecenterCalls(time: int, yaw: Option<real>, stage: Handle, fakeStage: Handle, stageSupported: bool,
                         first: nat): seq<XrCall>
  {
    LocateCalls(time, yaw) + DropCalls(stage, fakeStage) + CreateCalls(yaw, stageSupported, first)
  }

  /**
   * What recentering asks of the runtime: the head is located exactly when
   * there is a yaw to accumulate, the fake stage is always created and the
   * stage exactly when the runtime supports it.
   */
  lemma RecenterCallsShape(time: int, yaw: Option<real>, stage: Handle, fakeStage: Handle, stageSupported: bool,
                           first: nat)
    ensures var r := RecenterCalls(time, yaw, stage, fakeStage, stageSupported, first);
      && (LocateSpace(time) in r <==> yaw.Some?)
      && CreateReferenceSpace(LocalSpace, FakeStageOffset, yaw, Live(first)) in r
      && (CreateReferenceSpace(StageSpace, 0.0, yaw, Live(first + 1)) in r <==> stageSupported)
  {
    var r := RecenterCalls(time, yaw, stage, fakeStage, stageSupported, first);
    var create := CreateCalls(yaw, stageSupported, first);
    assert r == LocateCalls(time, yaw) + DropCalls(stage, fakeStage) + create;
    assert r[|r| - |create|] == CreateReferenceSpace(LocalSpace, FakeStageOffset, yaw, Live(first));
    if stageSupported {
      assert r[|r| - 1] == CreateReferenceSpace(StageSpace, 0.0, yaw, Live(first + 1));
    }
    if yaw.Some? {
      assert r[0] == LocateSpace(time);
    }
  }

  /** Recentering neither waits for, begins nor ends a frame. */
  lemma RecenterKeepsPhase(calls: seq<XrCall>, time: int, yaw: Option<real>, stage: Handle, fakeStage: Handle,
                           stageSupported: bool, first: nat)
    ensures RenderLoop.Phase(calls + RecenterCalls(time, yaw, stage, fakeStage, stageSupported, first))
         == RenderLoop.Phase(calls)
  {
    RecenterCallsKeepPhase(time, yaw, stage, fakeStage, stageSupported, first);
    RenderLoop.PhaseAppendKeeps(calls, RecenterCalls(time, yaw, stage, fakeStage, stageSupported, first));
  }

  /** Every call recentering makes leaves the frame loop where it was. */
  lemma RecenterCallsKeepPhase(time: int, yaw: Option<real>, stage: Handle, fakeStage: Handle,
                               stageSupported: bool, first: nat)
    ensures forall c :: c in RecenterCalls(time, yaw, stage, fakeStage, stageSupported, first) ==> RenderLoop.KeepsPhase(c)
  {
    var r := RecenterCalls(time, yaw, stage, fakeStage, stageSupported, first);
    assert r == LocateCalls(time, yaw) + DropCalls(stage, fakeStage) + CreateCalls(yaw, stageSupported, first);
  }

  /**
   * Waiting for a frame from an idle loop, then recentering or not, leaves
   * the frame waited for.
   */
  lemma WaitThenRecenter(calls: seq<XrCall>, t: int, extra: seq<XrCall>, time: int, yaw: Option<real>, stage: Handle,
                         fakeStage: Handle, stageSupported: bool, first: nat)
    requires RenderLoop.Phase(calls) == Some(RenderLoop.Idle)
    requires extra == [] || extra == RecenterCalls(time, yaw, stage, fakeStage, stageSupported, first)
    ensures RenderLoop.Phase(calls + [XrCall.WaitFrame(t)] + extra) == Some(RenderLoop.Waited(t))
  {
    RenderLoop.PhaseSnoc(calls, XrCall.WaitFrame(t));
    if extra == [] {
      assert calls + [XrCall.WaitFrame(t)] + extra == calls + [XrCall.WaitFrame(t)];
    } else {
      RecenterKeepsPhase(calls + [XrCall.WaitFrame(t)], time, yaw, stage, fakeStage, stageSupported, first);
    }
  }

  /**
   * Beginning a waited-for frame, then locating the views, updating the
   * controllers and acquiring the images, leaves the frame begun.
   */
  lemma BeginThenAcquire(calls: seq<XrCall>, after: seq<XrCall>, t: int, space: Handle, colorIndex: nat, depthIndex: nat)
    requires RenderLoop.Phase(calls) == Some(RenderLoop.Waited(t))
    requires after == calls + [XrCall.BeginFrame, XrCall.LocateViews(t, space), UpdateControllers(t),
                               AcquireImages(colorIndex, depthIndex)]
    ensures RenderLoop.Phase(after) == Some(RenderLoop.Begun(t))
  {
    RenderLoop.PhaseSnoc(calls, XrCall.BeginFrame);
    var tail := [XrCall.LocateViews(t, space), UpdateControllers(t), AcquireImages(colorIndex, depthIndex)];
    RenderLoop.PhaseAppendKeeps(calls + [XrCall.BeginFrame], tail);
    assert calls + [XrCall.BeginFrame] + tail
        == calls + [XrCall.BeginFrame, XrCall.LocateViews(t, space), UpdateControllers(t), AcquireImages(colorIndex, depthIndex)];
  }

  /**
   * The calls `VR_Renderer_BeginFrame` makes: the wait, the calls of a
   * recenter if it does one, the begin, the view location in `space`, the
   * controller update and the acquisition of the images.
   */
  function BeginCalls(time: int, recentering: seq<XrCall>, space: Handle, colorIndex: nat, depthIndex: nat): seq<XrCall>
  {
    [XrCall.WaitFrame(time)] + recentering
    + [XrCall.BeginFrame, XrCall.LocateViews(time, space), UpdateControllers(time), AcquireImages(colorIndex, depthIndex)]
  }

  /**
   * The runtime calls of `VR_Renderer_BeginFrame` after the wait and the
   * recenter: begin the frame at `time`, locate the views in `space`, update
   * the controllers and acquire the images.
   */
  method BeginAcquireCalls(rt: Runtime, s: Swapchains.SwapchainInfos, session: Handle, time: int, space: Handle,
                           located: seq<Pose>, colorIndex: nat, depthIndex: nat)
    returns (views: seq<Pose>, viewCount: nat, c: nat, d: nat)
    requires |located| <= 2 && RenderLoop.Phase(rt.calls) == Some(RenderLoop.Waited(time))
    modifies rt
    ensures rt.calls == old(rt.calls) + [XrCall.BeginFrame, XrCall.LocateViews(time, space), UpdateControllers(time),
                                         AcquireImages(colorIndex, depthIndex)]
    ensures RenderLoop.Phase(rt.calls) == Some(RenderLoop.Begun(time))
    ensures rt.nextId == old(rt.nextId)
    ensures views == located && viewCount == |located| && c == colorIndex && d == depthIndex
  {
    ghost var waited := rt.calls;
    RenderLoop.BeginFrame(rt, session);
    views, viewCount := RenderLoop.LocateViews(rt, session, time, space, located);
    rt.Call(UpdateControllers(time));
    c, d := Swapchains.Acquire(s, rt, colorIndex, depthIndex);
    assert rt.calls == waited + [XrCall.BeginFrame, XrCall.LocateViews(time, space), UpdateControllers(time), AcquireImages(c, d)];
    BeginThenAcquire(waited, rt.calls, time, space, c, d);
  }

  /** Appending three pieces one after the other appends their concatenation. */
  lemma AppendThree(calls: seq<XrCall>, a: seq<XrCall>, b: seq<XrCall>, c: seq<XrCall>)
    ensures calls + (a + b + c) == calls + a + b + c
  {
  }

  /** Locating the head creates and releases nothing. */
  lemma LocateKeepsLive(calls: seq<XrCall>, time: int, yaw: Option<real>)
    ensures Base.LiveHandles(calls + LocateCalls(time, yaw)) == Base.LiveHandles(calls)
  {
    if yaw.Some? {
      Base.LiveHandlesSnoc(calls, LocateSpace(time));
    } else {
      assert calls + LocateCalls(time, yaw) == calls;
    }
  }

  /** Dropping the spaces takes the existing ones out of the live set. */
  lemma DropReleases(calls: seq<XrCall>, stage: Handle, fakeStage: Handle)
    ensures Base.LiveHandles(calls + DropCalls(stage, fakeStage))
         == Base.LiveHandles(calls) - (if stage != Null then {stage} else {}) - (if fakeStage != Null then {fakeStage} else {})
  {
    var c1 := if stage != Null then calls + [DestroySpace(stage)] else calls;
    if stage != Null {
      Base.LiveAfterDestroy(calls, DestroySpace(stage));
    }
    if fakeStage != Null {
      Base.LiveAfterDestroy(c1, DestroySpace(fakeStage));
      assert calls + DropCalls(stage, fakeStage) == c1 + [DestroySpace(fakeStage)];
    } else {
      assert calls + DropCalls(stage, fakeStage) == c1;
    }
  }

  /** Creating the spaces adds the new handles to the live set. */
  lemma CreateAdds(calls: seq<XrCall>, yaw: Option<real>, stageSupported: bool, first: nat)
    ensures Base.LiveHandles(calls + CreateCalls(yaw, stageSupported, first))
         == Base.LiveHandles(calls) + {Live(first)} + (if stageSupported then {Live(first + 1)} else {})
  {
    var fake := CreateReferenceSpace(LocalSpace, FakeStageOffset, yaw, Live(first));
    assert Base.Created(fake) == Some(Live(first));
    Base.LiveAfterCreate(calls, fake);
    if stageSupported {
      var stage := CreateReferenceSpace(StageSpace, 0.0, yaw, Live(first + 1));
      assert Base.Created(stage) == Some(Live(first + 1));
      Base.LiveAfterCreate(calls + [fake], stage);
      assert calls + CreateCalls(yaw, stageSupported, first) == calls + [fake] + [stage];
    } else {
      assert calls + CreateCalls(yaw, stageSupported, first) == calls + [fake];
    }
  }

  /**
   * Recentering rebuilds the spaces: afterwards the old stage and fake stage
   * are released and the new ones are live, whatever the trace before.
   */
  lemma RecenterRebuildsSpaces(calls: seq<XrCall>, time: int, yaw: Option<real>, stage: Handle, fakeStage: Handle,
                               stageSupported: bool, first: nat)
    ensures Base.LiveHandles(calls + RecenterCalls(time, yaw, stage, fakeStage, stageSupported, first))
         == (Base.LiveHandles(calls) - (if stage != Null then {stage} else {}) - (if fakeStage != Null then {fakeStage} else {}))
            + {Live(first)} + (if stageSupported then {Live(first + 1)} else {})
  {
    var located := calls + LocateCalls(time, yaw);
    var dropped := located + DropCalls(stage, fakeStage);
    LocateKeepsLive(calls, time, yaw);
    DropReleases(located, stage, fakeStage);
    CreateAdds(dropped, yaw, stageSupported, first);
    assert calls + RecenterCalls(time, yaw, stage, fakeStage, stageSupported, first)
        == dropped + CreateCalls(yaw, stageSupported, first);
  }

  /** The outcome of an entry point: it returned, a check ended the process, or it is still polling. */
  datatype Outcome = Done | Fatal | Stalled

  /** What the runtime and the input layer hand a frame: the predicted time, the views, the image indices. */
  datatype FrameInput = FrameInput(predictedTime: int, headYaw: real, located: seq<Pose>, fov: Fov,
                                   colorIndex: nat, depthIndex: nat)

  /** What ending a frame reads: the client state, the screen placement inputs and the yaws. */
  datatype EndInput = EndInput(intermission: bool, state: ConnState, catcher: Gameplay.KeyCatcher,
                               screenMode: int, inFront: Vec3, head: Vec3, drift: real, distance: real,
                               screenYaw: real, hmdYaw: real, desktopMode: int)

  /** The polling that `VR_Renderer_RestoreState` does until the session is active. */
  function Poll(d: Events.Drained, batches: seq<seq<Events.Event>>, session: Handle): Events.Drained
    requires d.ok
    decreases |batches|
  {
    if d.flags.active || batches == [] then d
    else
      var next := Events.Drain(d, batches[0], session);
      if !next.ok then next else Poll(next, batches[1..], session)
  }

  /** The number of batches that polling takes from the runtime. */
  function Polled(d: Events.Drained, batches: seq<seq<Events.Event>>, session: Handle): (n: nat)
    requires d.ok
    ensures n <= |batches|
    decreases |batches|
  {
    if d.flags.active || batches == [] then 0
    else
      var next := Events.Drain(d, batches[0], session);
      if !next.ok then 1 else 1 + Polled(next, batches[1..], session)
  }

  /** The events of several batches, in order. */
  function Concat(batches: seq<seq<Events.Event>>): seq<Events.Event>
  {
    if batches == [] then [] else batches[0] + Concat(batches[1..])
  }

  /** Draining two queues one after the other is draining their concatenation. */
  lemma {:induction false} DrainAppend(d: Events.Drained, a: seq<Events.Event>, b: seq<Events.Event>, session: Handle)
    requires d.ok
    ensures var mid := Events.Drain(d, a, session);
      Events.Drain(d, a + b, session) == if mid.ok then Events.Drain(mid, b, session) else mid
    decreases |a|
  {
    if a == [] {
      assert a + b == b;
    } else {
      assert (a + b)[0] == a[0] && (a + b)[1..] == a[1..] + b;
      var next := Events.EventStep(d, a[0], session);
      if next.ok {
        DrainAppend(next, a[1..], b, session);
      }
    }
  }

  /** Polling is draining every event of the batches it takes, as one queue. */
  lemma {:induction false} PollIsDrain(d: Events.Drained, batches: seq<seq<Events.Event>>, session: Handle)
    requires d.ok
    ensures Poll(d, batches, session) == Events.Drain(d, Concat(batches[..Polled(d, batches, session)]), session)
    decreases |batches|
  {
    if d.flags.active || batches == [] {
      assert batches[..0] == [];
    } else {
      var n := Polled(d, batches, session);
      var next := Events.Drain(d, batches[0], session);
      assert batches[..n][0] == batches[0];
      if !next.ok {
        assert batches[..n] == [batches[0]];
        assert Concat(batches[..n]) == batches[0] + [];
        assert batches[0] + [] == batches[0];
      } else {
        PollIsDrain(next, batches[1..], session);
        assert batches[..n][1..] == batches[1..][..n - 1];
        assert Concat(batches[..n]) == batches[0] + Concat(batches[1..][..n - 1]);
        DrainAppend(d, batches[0], Concat(batches[1..][..n - 1]), session);
      }
    }
  }

  /**
   * The recenter bit `VR_Renderer_RestoreState` collects is the OR over
   * every event it polled: set exactly when one of them was a reference-space
   * change for the app's session.
   */
  lemma PollRecenter(d: Events.Drained, batches: seq<seq<Events.Event>>, session: Handle)
    requires d.ok && !d.recenter
    ensures var events := Concat(batches[..Polled(d, batches, session)]);
      Poll(d, batches, session).ok ==>
        (Poll(d, batches, session).recenter <==> Events.RecenterRequested(events, |events|, session))
  {
    PollIsDrain(d, batches, session);
    Events.DrainRecenter(d, Concat(batches[..Polled(d, batches, session)]), session);
  }

  /** Polling events neither waits for, begins nor ends a frame. */
  lemma DrainKeepsPhase(d: Events.Drained, events: seq<Events.Event>, session: Handle)
    requires d.ok
    ensures RenderLoop.Phase(Events.Drain(d, events, session).calls) == RenderLoop.Phase(d.calls)
  {
    var r := Events.Drain(d, events, session);
    Events.DrainAppendsPumpCalls(d, events, session);
    var added := r.calls[|d.calls|..];
    assert r.calls == d.calls + added;
    RenderLoop.PhaseAppendKeeps(d.calls, added);
  }

  /**
   * One round of the polling loop of `VR_Renderer_RestoreState`: draining
   * the next batch from where the app now stands, with the requests seen so
   * far still pending, continues the polling of the whole sequence.
   */
  lemma PollStep(d: Events.Drained, pending: bool, batches: seq<seq<Events.Event>>, session: Handle)
    requires d.ok && !d.recenter && !d.flags.active && batches != []
    ensures var next := Events.Drain(d, batches[0], session);
      Poll(d.(recenter := pending), batches, session)
        == if next.ok then Poll(next.(recenter := pending || next.recenter), batches[1..], session)
           else next.(recenter := pending || next.recenter)
  {
    Events.DrainKeepsPendingRecenter(d, batches[0], session, pending);
    assert d.(recenter := d.recenter || pending) == d.(recenter := pending);
  }

  /** The globals of `vr_renderer.c` together with the objects they act on. */
  class Renderer {
    const engine: Engine
    const vr: ClientInfo
    const rt: Runtime
    const gl: Swapchains.Gl
    const swapchains: Swapchains.SwapchainInfos
    const screen: VirtualScreen.Screen
    var stageSupported: bool
    var lastPredictedDisplayTime: int
    var frameStarted: bool
    var needRecenter: bool
    var fov: Fov
    var views: seq<Pose>
    var viewCount: nat
    var colorIndex: nat
    var depthIndex: nat

    /** The swapchains and the window have the shape the frame loop draws into. */
    ghost predicate Ready()
      reads engine, swapchains, swapchains.color, swapchains.depth
    {
      && swapchains.Shaped() && swapchains.viewCount >= 1
      && swapchains.color.width > 0 && swapchains.color.height > 0
      && engine.windowWidth >= 0 && engine.windowHeight > 0
    }

    /** The invariants that hold whether or not a frame is open. */
    ghost predicate Stable()
      reads this, engine, swapchains, swapchains.color, swapchains.depth
    {
      Ready() && |views| == viewCount <= 2
    }

    /**
     * `frameStarted` says whether the runtime has a frame of ours open: if so
     * it was begun at `lastPredictedDisplayTime` and its images are in range.
     */
    ghost predicate Valid()
      reads this, engine, rt, swapchains, swapchains.color, swapchains.depth
    {
      && Stable()
      && (frameStarted ==>
            && colorIndex < swapchains.color.imageCount && depthIndex < swapchains.depth.imageCount
            && RenderLoop.Phase(rt.calls) == Some(RenderLoop.Begun(lastPredictedDisplayTime)))
      && (!frameStarted ==> RenderLoop.Phase(rt.calls) == Some(RenderLoop.Idle))
    }

    constructor (engine: Engine, vr: ClientInfo, rt: Runtime, gl: Swapchains.Gl,
                 swapchains: Swapchains.SwapchainInfos, screen: VirtualScreen.Screen, stageSupported: bool)
      requires swapchains.Shaped() && swapchains.viewCount >= 1
      requires swapchains.color.width > 0 && swapchains.color.height > 0
      requires engine.windowWidth >= 0 && engine.windowHeight > 0
      requires RenderLoop.Phase(rt.calls) == Some(RenderLoop.Idle)
      ensures Valid() && !frameStarted && needRecenter && viewCount == 2
      ensures this.engine == engine && this.vr == vr && this.rt == rt && this.gl == gl
      ensures this.swapchains == swapchains && this.screen == screen && this.stageSupported == stageSupported
    {
      this.engine, this.vr, this.rt, this.gl := engine, vr, rt, gl;
      this.swapchains, this.screen, this.stageSupported := swapchains, screen, stageSupported;
      lastPredictedDisplayTime, frameStarted, needRecenter := 0, false, true;
      fov := Fov(0.0, 0.0, 0.0, 0.0);
      var zero := Pose(Quat(0.0, 0.0, 0.0, 0.0), Vec3(0.0, 0.0, 0.0));
      views, viewCount := [zero, zero], 2;
      colorIndex, depthIndex := 0, 0;
    }

    /**
     * The first part of `VR_Recenter`: with a current space, locates the head
     * and adds its yaw to the recenter yaw, which the new spaces are then
     * turned by.
     */
    method LocateHead(time: int, headYaw: real) returns (yaw: Option<real>)
      modifies rt, vr
      ensures yaw == NewYaw(engine.app.currentSpace, old(vr.recenterYaw), headYaw)
      ensures rt.calls == old(rt.calls) + LocateCalls(time, yaw) && rt.nextId == old(rt.nextId)
      ensures vr.recenterYaw == old(vr.recenterYaw) + (if engine.app.currentSpace != Null then headYaw else 0.0)
      ensures vr.menuYaw == old(vr.menuYaw)
      ensures vr.weaponZoomed == old(vr.weaponZoomed) && vr.weaponZoomLevel == old(vr.weaponZoomLevel)
    {
      yaw := None;
      if engine.app.currentSpace != Null {
        rt.Call(LocateSpace(time));
        vr.recenterYaw := vr.recenterYaw + headYaw;
        yaw := Some(vr.recenterYaw);
      }
    }

    /** `VR_Recenter` releasing the existing stage and fake stage. */
    method DropSpaces()
      modifies rt
      ensures rt.calls == old(rt.calls) + DropCalls(engine.app.stageSpace, engine.app.fakeStageSpace)
      ensures rt.nextId == old(rt.nextId)
    {
      var app := engine.app;
      if app.stageSpace != Null {
        rt.Call(DestroySpace(app.stageSpace));
      }
      if app.fakeStageSpace != Null {
        rt.Call(DestroySpace(app.fakeStageSpace));
      }
    }

    /**
     * `VR_Recenter` creating the fake stage, then the stage when supported;
     * the last one created becomes the current space.
     */
    method CreateSpaces(yaw: Option<real>)
      modifies rt, engine.app
      ensures rt.calls == old(rt.calls) + CreateCalls(yaw, stageSupported, old(rt.nextId))
      ensures rt.nextId == old(rt.nextId) + (if stageSupported then 2 else 1)
      ensures engine.app.fakeStageSpace == Live(old(rt.nextId))
      ensures engine.app.stageSpace == if stageSupported then Live(old(rt.nextId) + 1) else old(engine.app.stageSpace)
      ensures engine.app.currentSpace == (if stageSupported then engine.app.stageSpace else engine.app.fakeStageSpace)
      ensures engine.app.session == old(engine.app.session) && engine.app.headSpace == old(engine.app.headSpace)
      ensures Events.FlagsOf(engine.app) == old(Events.FlagsOf(engine.app))
    {
      var app := engine.app;
      var fake := rt.NewHandle();
      rt.Call(CreateReferenceSpace(LocalSpace, FakeStageOffset, yaw, fake));
      app.fakeStageSpace := fake;
      app.currentSpace := fake;
      if stageSupported {
        var stage := rt.NewHandle();
        rt.Call(CreateReferenceSpace(StageSpace, 0.0, yaw, stage));
        app.stageSpace := stage;
        app.currentSpace := stage;
      }
    }

    /**
     * `VR_Recenter`: with a current space, adds the head's yaw to the
     * recenter yaw; replaces the stage and fake stage by new spaces turned by
     * that yaw, the fake stage 1.675 m below the local origin; makes the stage
     * current when the runtime supports it and the fake stage otherwise;
     * faces the menu forward and resets the virtual screen.
     */
    method Recenter(time: int, headYaw: real)
      modifies rt, engine.app, vr, screen
      ensures rt.calls == old(rt.calls) + RecenterCalls(time, old(NewYaw(engine.app.currentSpace, vr.recenterYaw, headYaw)),
                                                        old(engine.app.stageSpace), old(engine.app.fakeStageSpace),
                                                        stageSupported, old(rt.nextId))
      ensures rt.nextId == old(rt.nextId) + (if stageSupported then 2 else 1)
      ensures engine.app.fakeStageSpace == Live(old(rt.nextId))
      ensures engine.app.stageSpace == if stageSupported then Live(old(rt.nextId) + 1) else old(engine.app.stageSpace)
      ensures engine.app.currentSpace == (if stageSupported then engine.app.stageSpace else engine.app.fakeStageSpace)
      ensures vr.recenterYaw == old(vr.recenterYaw) + (if old(engine.app.currentSpace) != Null then headYaw else 0.0)
      ensures vr.menuYaw == 0.0
      ensures vr.weaponZoomed == old(vr.weaponZoomed) && vr.weaponZoomLevel == old(vr.weaponZoomLevel)
      ensures !screen.positionsInitialized && screen.updateTarget
      ensures engine.app.session == old(engine.app.session) && engine.app.headSpace == old(engine.app.headSpace)
      ensures Events.FlagsOf(engine.app) == old(Events.FlagsOf(engine.app))
    {
      ghost var before := rt.calls;
      ghost var stage, fakeStage, first := engine.app.stageSpace, engine.app.fakeStageSpace, rt.nextId;
      var yaw := LocateHead(time, headYaw);
      ghost var located := rt.calls;
      DropSpaces();
      ghost var dropped := rt.calls;
      CreateSpaces(yaw);
      vr.menuYaw := 0.0;
      screen.ResetPosition();
      AppendThree(before, LocateCalls(time, yaw), DropCalls(stage, fakeStage), CreateCalls(yaw, stageSupported, first));
    }

    /** `VR_UpdatePerFrameState`. */
    method UpdatePerFrameState()
      modifies vr
      ensures vr.weaponZoomLevel == ZoomStep(old(vr.weaponZoomed), old(vr.weaponZoomLevel))
      ensures vr.weaponZoomed == old(vr.weaponZoomed) && vr.menuYaw == old(vr.menuYaw)
      ensures vr.recenterYaw == old(vr.recenterYaw) && vr.followMode == old(vr.followMode)
      ensures vr.menuLeftHanded == old(vr.menuLeftHanded)
    {
      if vr.weaponZoomed {
        vr.weaponZoomLevel := vr.weaponZoomLevel + ZoomInStep;
        if vr.weaponZoomLevel > MaxZoom {
          vr.weaponZoomLevel := MaxZoom;
        }
      } else {
        vr.weaponZoomLevel := vr.weaponZoomLevel - ZoomOutStep;
        if vr.weaponZoomLevel < MinZoom {
          vr.weaponZoomLevel := MinZoom;
        }
      }
    }

    /**
     * The start of `VR_Renderer_BeginFrame`: marks the frame started, waits
     * for it and recenters at its predicted time when asked.
     */
    method WaitAndRecenter(needsRecenter: bool, frame: FrameInput) returns (ghost recentering: seq<XrCall>)
      requires RenderLoop.Phase(rt.calls) == Some(RenderLoop.Idle)
      modifies this, rt, engine.app, vr, screen
      ensures frameStarted && lastPredictedDisplayTime == frame.predictedTime
      ensures recentering == if needsRecenter
        then RecenterCalls(frame.predictedTime, old(NewYaw(engine.app.currentSpace, vr.recenterYaw, frame.headYaw)),
                           old(engine.app.stageSpace), old(engine.app.fakeStageSpace), stageSupported, old(rt.nextId))
        else []
      ensures rt.calls == old(rt.calls) + [XrCall.WaitFrame(frame.predictedTime)] + recentering
      ensures RenderLoop.Phase(rt.calls) == Some(RenderLoop.Waited(frame.predictedTime))
      ensures !needsRecenter ==> unchanged(engine.app, vr, screen)
      ensures needsRecenter ==> !screen.positionsInitialized
      ensures stageSupported == old(stageSupported) && needRecenter == old(needRecenter)
      ensures views == old(views) && viewCount == old(viewCount) && fov == old(fov)
      ensures colorIndex == old(colorIndex) && depthIndex == old(depthIndex)
      ensures vr.weaponZoomed == old(vr.weaponZoomed) && vr.weaponZoomLevel == old(vr.weaponZoomLevel)
      ensures engine.app.session == old(engine.app.session)
      ensures Events.FlagsOf(engine.app) == old(Events.FlagsOf(engine.app))
    {
      ghost var start := rt.calls;
      ghost var yaw := NewYaw(engine.app.currentSpace, vr.recenterYaw, frame.headYaw);
      recentering := if needsRecenter
        then RecenterCalls(frame.predictedTime, yaw, engine.app.stageSpace, engine.app.fakeStageSpace, stageSupported, rt.nextId)
        else [];
      WaitThenRecenter(start, frame.predictedTime, recentering, frame.predictedTime, yaw, engine.app.stageSpace,
                       engine.app.fakeStageSpace, stageSupported, rt.nextId);
      var time := RenderLoop.WaitFrame(rt, engine.app.session, frame.predictedTime);
      if needsRecenter {
        Recenter(time, frame.headYaw);
      } else {
        assert rt.calls + [] == rt.calls;
      }
      frameStarted, lastPredictedDisplayTime := true, time;
    }

    /**
     * The rest of `VR_Renderer_BeginFrame` up to the bind: begins the frame,
     * locates the views in the current space, updates the controllers and
     * acquires the images.
     */
    method BeginAndAcquire(frame: FrameInput)
      requires |frame.located| <= 2
      requires RenderLoop.Phase(rt.calls) == Some(RenderLoop.Waited(lastPredictedDisplayTime))
      modifies this, rt
      ensures rt.calls == old(rt.calls) + [XrCall.BeginFrame, XrCall.LocateViews(lastPredictedDisplayTime, engine.app.currentSpace),
                                           UpdateControllers(lastPredictedDisplayTime), AcquireImages(frame.colorIndex, frame.depthIndex)]
      ensures RenderLoop.Phase(rt.calls) == Some(RenderLoop.Begun(lastPredictedDisplayTime))
      ensures rt.nextId == old(rt.nextId)
      ensures views == frame.located && viewCount == |frame.located| && fov == frame.fov
      ensures colorIndex == frame.colorIndex && depthIndex == frame.depthIndex
      ensures lastPredictedDisplayTime == old(lastPredictedDisplayTime) && frameStarted == old(frameStarted)
      ensures stageSupported == old(stageSupported) && needRecenter == old(needRecenter)
    {
      var located, count, c, d := BeginAcquireCalls(rt, swapchains, engine.app.session, lastPredictedDisplayTime,
                                                    engine.app.currentSpace, frame.located, frame.colorIndex, frame.depthIndex);
      views, viewCount, fov, colorIndex, depthIndex := located, count, frame.fov, c, d;
    }

    /**
     * `VR_Renderer_BeginFrame`: waits for the frame, recenters with its
     * predicted time when asked, begins it, locates the views in the current
     * space, updates the controllers, acquires the images and binds their
     * framebuffer. `ok` is false where the bind's range check ends the
     * process.
     */
    method BeginFrame(needsRecenter: bool, frame: FrameInput) returns (ok: bool, ghost recentering: seq<XrCall>)
      requires Stable() && RenderLoop.Phase(rt.calls) == Some(RenderLoop.Idle) && |frame.located| <= 2
      modifies this, rt, gl, engine.app, vr, screen
      ensures Stable() && frameStarted && lastPredictedDisplayTime == frame.predictedTime
      ensures views == frame.located && viewCount == |frame.located| && fov == frame.fov
      ensures colorIndex == frame.colorIndex && depthIndex == frame.depthIndex
      ensures ok <==> frame.colorIndex < swapchains.color.imageCount && frame.depthIndex < swapchains.depth.imageCount
      ensures ok ==> Valid()
      ensures RenderLoop.Phase(rt.calls) == Some(RenderLoop.Begun(frame.predictedTime))
      ensures recentering == if needsRecenter
        then RecenterCalls(frame.predictedTime, old(NewYaw(engine.app.currentSpace, vr.recenterYaw, frame.headYaw)),
                           old(engine.app.stageSpace), old(engine.app.fakeStageSpace), stageSupported, old(rt.nextId))
        else []
      ensures rt.calls == old(rt.calls) + BeginCalls(frame.predictedTime, recentering, engine.app.currentSpace,
                                                     frame.colorIndex, frame.depthIndex)
      ensures ok ==> gl.calls == old(gl.calls) + [Swapchains.BindDrawFramebuffer(swapchains.framebuffers[frame.colorIndex])]
      ensures !needsRecenter ==> unchanged(engine.app, vr, screen)
      ensures needsRecenter ==> !screen.positionsInitialized
      ensures stageSupported == old(stageSupported) && needRecenter == old(needRecenter)
      ensures vr.weaponZoomed == old(vr.weaponZoomed) && vr.weaponZoomLevel == old(vr.weaponZoomLevel)
      ensures engine.app.session == old(engine.app.session)
      ensures Events.FlagsOf(engine.app) == old(Events.FlagsOf(engine.app))
    {
      ghost var start := rt.calls;
      recentering := WaitAndRecenter(needsRecenter, frame);
      BeginAndAcquire(frame);
      var t, space := frame.predictedTime, engine.app.currentSpace;
      AppendThree(start, [XrCall.WaitFrame(t)], recentering,
                  [XrCall.BeginFrame, XrCall.LocateViews(t, space), UpdateControllers(t), AcquireImages(frame.colorIndex, frame.depthIndex)]);
      ok := Swapchains.BindFramebuffers(swapchains, colorIndex, depthIndex, gl);
    }

    /**
     * The first part of `VR_Renderer_EndFrame`: on the virtual screen, moves
     * its placement one step and faces the menu along it; otherwise resets
     * the placement and faces the menu along the head.
     */
    method PlaceMenu(ending: EndInput)
      requires VirtualScreen.Measured(screen.State(), ending.screenMode, ending.inFront, ending.head, ending.drift, ending.distance)
      modifies vr, screen
      ensures Gameplay.ShouldRenderInVirtualScreen(ending.intermission, ending.state, ending.catcher) ==>
        && screen.State() == VirtualScreen.Step(old(screen.State()), ending.screenMode, ending.inFront, ending.head, ending.drift, ending.distance)
        && vr.menuYaw == ending.screenYaw
      ensures !Gameplay.ShouldRenderInVirtualScreen(ending.intermission, ending.state, ending.catcher) ==>
        && !screen.positionsInitialized && screen.updateTarget && vr.menuYaw == ending.hmdYaw
      ensures vr.weaponZoomed == old(vr.weaponZoomed) && vr.weaponZoomLevel == old(vr.weaponZoomLevel)
      ensures vr.recenterYaw == old(vr.recenterYaw)
    {
      if Gameplay.ShouldRenderInVirtualScreen(ending.intermission, ending.state, ending.catcher) {
        var _ := screen.GetCurrentVirtualScreenPosition(ending.screenMode, ending.inFront, ending.head, ending.drift, ending.distance);
        vr.menuYaw := ending.screenYaw;
      } else {
        screen.ResetPosition();
        vr.menuYaw := ending.hmdYaw;
      }
    }

    /** Unbinds the eye framebuffer and mirrors the eyes `desktopMode` names from image `colorIndex` to the window. */
    method Mirror(desktopMode: int)
      requires Ready() && colorIndex < swapchains.color.imageCount
      modifies gl
      ensures gl.calls == old(gl.calls) + [Swapchains.BindDrawFramebuffer(0)]
        + Swapchains.MainBlits(swapchains.eyeFramebuffers[0][colorIndex], swapchains.color.width,
                               swapchains.color.height, engine.windowWidth, engine.windowHeight,
                               Swapchains.Parts(swapchains.viewCount, DesktopViewOf(desktopMode)),
                               DesktopViewOf(desktopMode))
    {
      var _ := Swapchains.BindFramebuffers(null, 0, 0, gl);
      Swapchains.BlitXRToMainFbo(swapchains, colorIndex, DesktopViewOf(desktopMode),
                                 engine.windowWidth, engine.windowHeight, gl);
    }

    /**
     * The rest of `VR_Renderer_EndFrame`: releases the images, unbinds,
     * mirrors eye 0 to the window and ends the frame at the time it was
     * begun with.
     */
    method Submit(desktopMode: int)
      requires Valid() && frameStarted
      modifies this, rt, gl
      ensures Valid() && !frameStarted
      ensures rt.calls == old(rt.calls) + [ReleaseImages, XrCall.EndFrame(RenderLoop.EndFrameInfo(
                views, viewCount, fov, swapchains.color.swapchain, swapchains.color.width, swapchains.color.height,
                engine.app.currentSpace, lastPredictedDisplayTime))]
      ensures rt.nextId == old(rt.nextId)
      ensures gl.calls == old(gl.calls) + [Swapchains.BindDrawFramebuffer(0)]
        + Swapchains.MainBlits(old(swapchains.eyeFramebuffers[0][colorIndex]), swapchains.color.width,
                               swapchains.color.height, engine.windowWidth, engine.windowHeight,
                               Swapchains.Parts(swapchains.viewCount, DesktopViewOf(desktopMode)),
                               DesktopViewOf(desktopMode))
      ensures lastPredictedDisplayTime == old(lastPredictedDisplayTime) && views == old(views) && fov == old(fov)
      ensures colorIndex == old(colorIndex) && depthIndex == old(depthIndex)
      ensures stageSupported == old(stageSupported) && needRecenter == old(needRecenter)
    {
      ghost var start := rt.calls;
      var info := RenderLoop.EndFrameInfo(views, viewCount, fov, swapchains.color.swapchain, swapchains.color.width,
                                          swapchains.color.height, engine.app.currentSpace, lastPredictedDisplayTime);
      RenderLoop.ReleaseAndEnd(start, info);
      Swapchains.Release(swapchains, rt);
      Mirror(desktopMode);
      RenderLoop.EndFrame(rt, engine.app.session, swapchains, views, viewCount, fov, engine.app.currentSpace,
                          lastPredictedDisplayTime);
      assert rt.calls == start + [ReleaseImages, XrCall.EndFrame(info)];
      frameStarted := false;
    }

    /**
     * `VR_Renderer_EndFrame`: places the menu (on the virtual screen or along
     * the head), then submits the frame and mirrors it to the window.
     */
    method EndFrame(ending: EndInput)
      requires Valid() && frameStarted
      requires VirtualScreen.Measured(screen.State(), ending.screenMode, ending.inFront, ending.head, ending.drift, ending.distance)
      modifies this, rt, gl, vr, screen
      ensures Valid() && !frameStarted
      ensures rt.calls == old(rt.calls) + [ReleaseImages, XrCall.EndFrame(RenderLoop.EndFrameInfo(
                views, viewCount, fov, swapchains.color.swapchain, swapchains.color.width, swapchains.color.height,
                engine.app.currentSpace, lastPredictedDisplayTime))]
      ensures rt.nextId == old(rt.nextId)
      ensures gl.calls == old(gl.calls) + [Swapchains.BindDrawFramebuffer(0)]
        + Swapchains.MainBlits(old(swapchains.eyeFramebuffers[0][colorIndex]), swapchains.color.width,
                               swapchains.color.height, engine.windowWidth, engine.windowHeight,
                               Swapchains.Parts(swapchains.viewCount, DesktopViewOf(ending.desktopMode)),
                               DesktopViewOf(ending.desktopMode))
      ensures Gameplay.ShouldRenderInVirtualScreen(ending.intermission, ending.state, ending.catcher) ==>
        && screen.State() == VirtualScreen.Step(old(screen.State()), ending.screenMode, ending.inFront, ending.head, ending.drift, ending.distance)
        && vr.menuYaw == ending.screenYaw
      ensures !Gameplay.ShouldRenderInVirtualScreen(ending.intermission, ending.state, ending.catcher) ==>
        && !screen.positionsInitialized && screen.updateTarget && vr.menuYaw == ending.hmdYaw
      ensures lastPredictedDisplayTime == old(lastPredictedDisplayTime) && views == old(views) && fov == old(fov)
      ensures colorIndex == old(colorIndex) && depthIndex == old(depthIndex)
      ensures stageSupported == old(stageSupported) && needRecenter == old(needRecenter)
      ensures vr.weaponZoomed == old(vr.weaponZoomed) && vr.weaponZoomLevel == old(vr.weaponZoomLevel)
      ensures vr.recenterYaw == old(vr.recenterYaw)
    {
      PlaceMenu(ending);
      Submit(ending.desktopMode);
    }

    /**
     * The game frame of `VR_ProcessFrame` followed by the end of the frame,
     * whose descriptor is `info`.
     */
    method GameAndEnd(ending: EndInput) returns (ghost info: FrameEndInfo)
      requires Valid() && frameStarted
      requires VirtualScreen.Measured(screen.State(), ending.screenMode, ending.inFront, ending.head, ending.drift, ending.distance)
      modifies this, rt, gl, vr, screen
      ensures Valid() && !frameStarted && needRecenter == old(needRecenter)
      ensures info == RenderLoop.EndFrameInfo(old(views), old(viewCount), old(fov), swapchains.color.swapchain,
                                              swapchains.color.width, swapchains.color.height,
                                              engine.app.currentSpace, old(lastPredictedDisplayTime))
      ensures rt.calls == old(rt.calls) + [GameFrame, ReleaseImages, XrCall.EndFrame(info)]
      ensures lastPredictedDisplayTime == old(lastPredictedDisplayTime) && stageSupported == old(stageSupported)
      ensures vr.weaponZoomLevel == old(vr.weaponZoomLevel)
    {
      ghost var begun := rt.calls;
      rt.Call(GameFrame);
      RenderLoop.PhaseStep(begun, rt.calls, GameFrame);
      info := RenderLoop.EndFrameInfo(views, viewCount, fov, swapchains.color.swapchain, swapchains.color.width,
                                      swapchains.color.height, engine.app.currentSpace, lastPredictedDisplayTime);
      EndFrame(ending);
    }

    /**
     * The recenter `VR_ProcessFrame` performs after the frame when one is
     * pending, at the time of the frame just ended; `late` are its calls.
     */
    method LateRecenter(lateYaw: real) returns (ghost late: seq<XrCall>)
      requires Valid() && !frameStarted
      modifies this, rt, engine.app, vr, screen
      ensures Valid() && !frameStarted && !needRecenter
      ensures rt.calls == old(rt.calls) + late
      ensures !old(needRecenter) ==> late == []
      ensures forall c :: c in late ==> RenderLoop.KeepsPhase(c)
      ensures engine.app.session == old(engine.app.session) && stageSupported == old(stageSupported)
      ensures vr.weaponZoomLevel == old(vr.weaponZoomLevel)
    {
      late := [];
      if needRecenter {
        ghost var ended := rt.calls;
        ghost var yaw := NewYaw(engine.app.currentSpace, vr.recenterYaw, lateYaw);
        late := RecenterCalls(lastPredictedDisplayTime, yaw, engine.app.stageSpace, engine.app.fakeStageSpace,
                              stageSupported, rt.nextId);
        RecenterKeepsPhase(ended, lastPredictedDisplayTime, yaw, engine.app.stageSpace, engine.app.fakeStageSpace,
                           stageSupported, rt.nextId);
        RecenterCallsKeepPhase(lastPredictedDisplayTime, yaw, engine.app.stageSpace, engine.app.fakeStageSpace,
                               stageSupported, rt.nextId);
        Recenter(lastPredictedDisplayTime, lateYaw);
        needRecenter := false;
      } else {
        assert rt.calls + late == rt.calls;
      }
    }

    /**
     * The frame `VR_ProcessFrame` runs once the session is active: begins it
     * (recentering when the events asked), runs the game frame, ends it, and
     * then performs a recenter that was pending. `mid` are the calls of the
     * begin, `recentering` those of its recenter, `space` the space the views
     * were located in, `info` the end-frame descriptor and `late` the calls
     * of the deferred recenter.
     */
    method RunFrame(needsRecenter: bool, frame: FrameInput, ending: EndInput, lateYaw: real)
      returns (ok: bool, ghost mid: seq<XrCall>, ghost recentering: seq<XrCall>, ghost space: Handle,
               ghost info: FrameEndInfo, ghost late: seq<XrCall>)
      requires Stable() && RenderLoop.Phase(rt.calls) == Some(RenderLoop.Idle) && |frame.located| <= 2
      requires VirtualScreen.Measured(screen.State(), ending.screenMode, ending.inFront, ending.head, ending.drift, ending.distance)
      modifies this, rt, gl, engine.app, vr, screen
      ensures ok <==> frame.colorIndex < swapchains.color.imageCount && frame.depthIndex < swapchains.depth.imageCount
      ensures recentering == if needsRecenter
        then RecenterCalls(frame.predictedTime, old(NewYaw(engine.app.currentSpace, vr.recenterYaw, frame.headYaw)),
                           old(engine.app.stageSpace), old(engine.app.fakeStageSpace), stageSupported, old(rt.nextId))
        else []
      ensures mid == BeginCalls(frame.predictedTime, recentering, space, frame.colorIndex, frame.depthIndex)
      ensures RenderLoop.Phase(old(rt.calls) + mid) == Some(RenderLoop.Begun(frame.predictedTime))
      ensures info == RenderLoop.EndFrameInfo(frame.located, |frame.located|, frame.fov, swapchains.color.swapchain,
                                              swapchains.color.width, swapchains.color.height, space, frame.predictedTime)
      ensures !ok ==> rt.calls == old(rt.calls) + mid && frameStarted
      ensures ok ==> Valid() && !frameStarted && !needRecenter
      ensures ok ==> rt.calls == old(rt.calls) + mid + [GameFrame, ReleaseImages, XrCall.EndFrame(info)] + late
      ensures !(ok && old(needRecenter)) ==> late == []
      ensures forall c :: c in late ==> RenderLoop.KeepsPhase(c)
      ensures engine.app.session == old(engine.app.session) && stageSupported == old(stageSupported)
      ensures vr.weaponZoomLevel == old(vr.weaponZoomLevel)
    {
      ok, recentering := BeginFrame(needsRecenter, frame);
      space := engine.app.currentSpace;
      mid := BeginCalls(frame.predictedTime, recentering, space, frame.colorIndex, frame.depthIndex);
      if !ok {
        info := RenderLoop.EndFrameInfo(frame.located, |frame.located|, frame.fov, swapchains.color.swapchain,
                                        swapchains.color.width, swapchains.color.height, space, frame.predictedTime);
        late := [];
        return;
      }
      info := GameAndEnd(ending);
      ghost var ended := rt.calls;
      late := LateRecenter(lateYaw);
    }

    /**
     * `VR_ProcessFrame`: updates the zoom and drains the runtime's events
     * `queue`; while the session is inactive it only polls the desktop
     * input; otherwise it runs a whole frame, the game frame between the
     * begin and the end. `Fatal` where a check ends the process.
     */
    method ProcessFrame(queue: seq<Events.Event>, frame: FrameInput, ending: EndInput, lateYaw: real)
      returns (outcome: Outcome, ghost mid: seq<XrCall>, ghost recentering: seq<XrCall>, ghost space: Handle,
               ghost info: FrameEndInfo, ghost late: seq<XrCall>)
      requires Valid() && !frameStarted && |frame.located| <= 2
      requires VirtualScreen.Measured(screen.State(), ending.screenMode, ending.inFront, ending.head, ending.drift, ending.distance)
      modifies this, rt, gl, engine.app, vr, screen
      ensures outcome != Stalled
      ensures var d := Events.Drain(old(Events.Start(engine.app, rt)), queue, engine.app.session);
        && (outcome == Fatal <==> !d.ok || (d.flags.active && !(frame.colorIndex < swapchains.color.imageCount
                                                                  && frame.depthIndex < swapchains.depth.imageCount)))
        && (d.ok && !d.flags.active ==>
              && rt.calls == d.calls + [PollDesktopInput] && Valid() && !frameStarted && needRecenter == old(needRecenter))
        && (outcome == Done && d.flags.active ==>
              && Valid() && !frameStarted && !needRecenter
              && rt.calls == d.calls + mid + [GameFrame, ReleaseImages, XrCall.EndFrame(info)] + late
              && RenderLoop.Phase(d.calls + mid) == Some(RenderLoop.Begun(frame.predictedTime))
              && mid == BeginCalls(frame.predictedTime, recentering, space, frame.colorIndex, frame.depthIndex)
              && recentering == (if d.recenter
                 then RecenterCalls(frame.predictedTime, old(NewYaw(engine.app.currentSpace, vr.recenterYaw, frame.headYaw)),
                                    old(engine.app.stageSpace), old(engine.app.fakeStageSpace), stageSupported, old(rt.nextId))
                 else [])
              && info.displayTime == frame.predictedTime
              && (forall c :: c in late ==> RenderLoop.KeepsPhase(c))
              && (!old(needRecenter) ==> late == []))
      ensures vr.weaponZoomLevel == ZoomStep(old(vr.weaponZoomed), old(vr.weaponZoomLevel)) || outcome == Fatal
    {
      UpdatePerFrameState();
      ghost var d0 := Events.Start(engine.app, rt);
      DrainKeepsPhase(d0, queue, engine.app.session);
      var recenter, ok := Events.ProcessXrEvents(engine.app, rt, queue);
      mid, recentering, space, info, late := [], [], Null, FrameEndInfo(0, Opaque, []), [];
      if !ok {
        return Fatal, mid, recentering, space, info, late;
      }
      if !engine.app.sessionActive {
        ghost var polled := rt.calls;
        rt.Call(PollDesktopInput);
        RenderLoop.PhaseStep(polled, rt.calls, PollDesktopInput);
        return Done, mid, recentering, space, info, late;
      }
      var began: bool;
      began, mid, recentering, space, info, late := RunFrame(recenter, frame, ending, lateYaw);
      outcome := if began then Done else Fatal;
    }

    /**
     * `VR_Renderer_RestoreState`, for a runtime whose session was re-created
     * while a frame was open: does nothing when no frame was open; otherwise
     * updates the zoom, polls the event batches `batches` until the session
     * is active, collecting every recenter request, and begins the frame
     * again. `Stalled` where the batches run out with the session still
     * inactive (the source keeps polling); `Fatal` where a check ends the
     * process.
     */
    method RestoreState(batches: seq<seq<Events.Event>>, frame: FrameInput) returns (outcome: Outcome)
      requires Stable() && RenderLoop.Phase(rt.calls) == Some(RenderLoop.Idle) && |frame.located| <= 2
      modifies this, rt, gl, engine.app, vr, screen
      ensures !old(frameStarted) ==> outcome == Done && unchanged(this, rt, gl, engine.app, vr, screen)
      ensures old(frameStarted) ==>
        var p := Poll(old(Events.Start(engine.app, rt)), batches, engine.app.session);
        && vr.weaponZoomLevel == ZoomStep(old(vr.weaponZoomed), old(vr.weaponZoomLevel))
        && (outcome == Stalled <==> p.ok && !p.flags.active)
        && (outcome == Fatal <==> !p.ok || (p.flags.active && !(frame.colorIndex < swapchains.color.imageCount
                                                               && frame.depthIndex < swapchains.depth.imageCount)))
        && (outcome == Stalled ==> rt.calls == p.calls && RenderLoop.Phase(rt.calls) == Some(RenderLoop.Idle))
        && (p.ok && p.flags.active ==>
              rt.calls == p.calls + BeginCalls(
                frame.predictedTime,
                if p.recenter
                then RecenterCalls(frame.predictedTime, old(NewYaw(engine.app.currentSpace, vr.recenterYaw, frame.headYaw)),
                                   old(engine.app.stageSpace), old(engine.app.fakeStageSpace), stageSupported, old(rt.nextId))
                else [],
                engine.app.currentSpace, frame.colorIndex, frame.depthIndex))
        && (outcome == Done ==> Valid() && frameStarted && lastPredictedDisplayTime == frame.predictedTime)
    {
      if !frameStarted {
        return Done;
      }
      UpdatePerFrameState();
      var app := engine.app;
      ghost var goal := Poll(Events.Start(app, rt), batches, app.session);
      var needs := false;
      var i := 0;
      while !app.sessionActive && i < |batches|
        invariant 0 <= i <= |batches|
        invariant app.session == old(app.session) && rt.nextId == old(rt.nextId)
        invariant Events.HandlesOf(app) == old(Events.HandlesOf(app))
        invariant RenderLoop.Phase(rt.calls) == Some(RenderLoop.Idle)
        invariant Poll(Events.Start(app, rt).(recenter := needs), batches[i..], app.session) == goal
        modifies app, rt
        decreases |batches| - i
      {
        ghost var d := Events.Start(app, rt);
        PollStep(d, needs, batches[i..], app.session);
        DrainKeepsPhase(d, batches[i], app.session);
        assert batches[i..][0] == batches[i] && batches[i..][1..] == batches[i + 1..];
        var recenter, ok := Events.ProcessXrEvents(app, rt, batches[i]);
        if !ok {
          return Fatal;
        }
        needs := needs || recenter;
        i := i + 1;
      }
      if !app.sessionActive {
        return Stalled;
      }
      var began;
      ghost var recentering;
      began, recentering := BeginFrame(needs, frame);
      outcome := if began then Done else Fatal;
    }

    /**
     * `VR_Renderer_SubmitLoadingFrame`: while the client is loading (state
     * `Loading` or `Primed`) and a frame is open, ends that frame and begins
     * the next one without recentering, so the headset keeps receiving
     * frames; otherwise does nothing. `ok` is false where the bind's range
     * check ends the process.
     */
    method SubmitLoadingFrame(state: ConnState, ending: EndInput, frame: FrameInput) returns (submitted: bool, ok: bool)
      requires Valid() && |frame.located| <= 2
      requires VirtualScreen.Measured(screen.State(), ending.screenMode, ending.inFront, ending.head, ending.drift, ending.distance)
      modifies this, rt, gl, engine.app, vr, screen
      ensures submitted <==> (state == Loading || state == Primed) && old(frameStarted)
      ensures !submitted ==> ok && unchanged(this, rt, gl, engine.app, vr, screen)
      ensures submitted ==> frameStarted && lastPredictedDisplayTime == frame.predictedTime && (ok ==> Valid())
      ensures submitted ==> (ok <==> frame.colorIndex < swapchains.color.imageCount && frame.depthIndex < swapchains.depth.imageCount)
      ensures submitted ==>
        rt.calls == old(rt.calls)
          + [ReleaseImages, XrCall.EndFrame(RenderLoop.EndFrameInfo(
               old(views), old(viewCount), old(fov), swapchains.color.swapchain, swapchains.color.width,
               swapchains.color.height, engine.app.currentSpace, old(lastPredictedDisplayTime)))]
          + BeginCalls(frame.predictedTime, [], engine.app.currentSpace, frame.colorIndex, frame.depthIndex)
      ensures engine.app.currentSpace == old(engine.app.currentSpace)
    {
      if (state != Loading && state != Primed) || !frameStarted {
        return false, true;
      }
      EndFrame(ending);
      ghost var recentering;
      ok, recentering := BeginFrame(false, frame);
      submitted := true;
    }
  }
}
