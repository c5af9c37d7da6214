/**
 * The frame loop of the runtime: `VR_WaitFrame`, `VR_BeginFrame`,
 * `VR_LocateViews` and `VR_EndFrame`, and the frame protocol of chapter 10
 * ("Rendering") of the OpenXR 1.0 specification that they follow: a frame
 * is waited for, then begun, then ended with the display time the wait
 * predicted, and only then is the next one waited for.
 */
module RenderLoop {
  import opened VrTypes
  import opened Swapchains

  /** Where the frame loop of the session stands. */
  datatype FramePhase = Idle | Waited(time: int) | Begun(time: int)

  /**
   * The phase after call `c`, or `None` where `c` breaks the protocol.
   * Destroying the session abandons any frame it had open.
   */
  function NextPhase(p: FramePhase, c: XrCall): Option<FramePhase>
  {
    match c
      case WaitFrame(t) => if p == Idle then Some(Waited(t)) else None
      case BeginFrame => if p.Waited? then Some(Begun(p.time)) else None
      case EndFrame(info) => if p.Begun? && info.displayTime == p.time then Some(Idle) else None
      case DestroySession(_) => Some(Idle)
      case _ => Some(p)
  }

  /** The phase a whole trace leaves the frame loop in, or `None` if the trace breaks the protocol. */
  function Phase(calls: seq<XrCall>): Option<FramePhase>
    decreases |calls|
  {
    if calls == [] then Some(Idle)
    else match Phase(calls[..|calls| - 1])
      case None => None
      case Some(p) => NextPhase(p, calls[|calls| - 1])
  }

  /** One more call moves the phase as `NextPhase` says. */
  lemma PhaseSnoc(calls: seq<XrCall>, c: XrCall)
    ensures Phase(calls + [c]) == if Phase(calls).Some? then NextPhase(Phase(calls).value, c) else None
  {
    assert (calls + [c])[..|calls|] == calls;
  }

  /** `PhaseSnoc` for a trace already known to extend `before` by `c`. */
  lemma PhaseStep(before: seq<XrCall>, after: seq<XrCall>, c: XrCall)
    requires after == before + [c]
    ensures Phase(after) == if Phase(before).Some? then NextPhase(Phase(before).value, c) else None
  {
    PhaseSnoc(before, c);
  }

  /** Releasing the images and ending the frame at its time closes an open frame. */
  lemma ReleaseAndEnd(calls: seq<XrCall>, info: FrameEndInfo)
    requires Phase(calls) == Some(Begun(info.displayTime))
    ensures Phase(calls + [ReleaseImages, XrCall.EndFrame(info)]) == Some(Idle)
  {
    PhaseSnoc(calls, ReleaseImages);
    PhaseSnoc(calls + [ReleaseImages], XrCall.EndFrame(info));
    assert calls + [ReleaseImages] + [XrCall.EndFrame(info)] == calls + [ReleaseImages, XrCall.EndFrame(info)];
  }

  /** Calls that neither wait for, begin nor end a frame, nor drop the session. */
  predicate KeepsPhase(c: XrCall)
  {
    !(c.WaitFrame? || c.BeginFrame? || c.EndFrame? || c.DestroySession?)
  }

  /** Such calls leave the phase where it was. */
  lemma {:induction false} PhaseAppendKeeps(calls: seq<XrCall>, extra: seq<XrCall>)
    requires forall c :: c in extra ==> KeepsPhase(c)
    ensures Phase(calls + extra) == Phase(calls)
    decreases |extra|
  {
    if extra != [] {
      var init, last := extra[..|extra| - 1], extra[|extra| - 1];
      assert forall c :: c in init ==> c in extra;
      assert last in extra;
      PhaseAppendKeeps(calls, init);
      assert calls + extra == (calls + init) + [last];
      PhaseSnoc(calls + init, last);
      if Phase(calls).Some? {
        assert NextPhase(Phase(calls).value, last) == Phase(calls);
      }
    } else {
      assert calls + extra == calls;
    }
  }

  /**
   * One frame from an idle loop: wait, calls that keep the phase, begin,
   * more such calls, then end. The loop is idle again exactly when the end
   * carries the display time the wait predicted; any other time breaks the
   * protocol.
   */
  lemma FrameCycle(calls: seq<XrCall>, t: int, before: seq<XrCall>, during: seq<XrCall>, info: FrameEndInfo)
    requires Phase(calls) == Some(Idle)
    requires forall c :: c in before ==> KeepsPhase(c)
    requires forall c :: c in during ==> KeepsPhase(c)
    ensures var frame := calls + [XrCall.WaitFrame(t)] + before + [XrCall.BeginFrame] + during + [XrCall.EndFrame(info)];
      Phase(frame) == if info.displayTime == t then Some(Idle) else None
  {
    var c1 := calls + [XrCall.WaitFrame(t)];
    PhaseSnoc(calls, XrCall.WaitFrame(t));
    PhaseAppendKeeps(c1, before);
    PhaseSnoc(c1 + before, XrCall.BeginFrame);
    var c2 := c1 + before + [XrCall.BeginFrame];
    PhaseAppendKeeps(c2, during);
    PhaseSnoc(c2 + during, XrCall.EndFrame(info));
  }

  /** `VR_WaitFrame`: blocks until the runtime hands out the next frame's predicted display time. */
  method WaitFrame(rt: Runtime, session: Handle, predicted: int) returns (time: int)
    modifies rt
    ensures time == predicted
    ensures rt.calls == old(rt.calls) + [XrCall.WaitFrame(predicted)] && rt.nextId == old(rt.nextId)
  {
    rt.Call(XrCall.WaitFrame(predicted));
    time := predicted;
  }

  /** `VR_BeginFrame`. */
  method BeginFrame(rt: Runtime, session: Handle)
    modifies rt
    ensures rt.calls == old(rt.calls) + [XrCall.BeginFrame] && rt.nextId == old(rt.nextId)
  {
    rt.Call(XrCall.BeginFrame);
  }

  /**
   * `VR_LocateViews` into the two-slot view array: the runtime writes the
   * poses of at most two views, `located`, and their number.
   */
  method LocateViews(rt: Runtime, session: Handle, time: int, space: Handle, located: seq<Pose>)
    returns (views: seq<Pose>, viewCount: nat)
    requires |located| <= 2
    modifies rt
    ensures views == located && viewCount == |located| <= 2
    ensures rt.calls == old(rt.calls) + [XrCall.LocateViews(time, space)] && rt.nextId == old(rt.nextId)
  {
    rt.Call(XrCall.LocateViews(time, space));
    views, viewCount := located, |located|;
  }

  /** The projection view of eye `i`: its pose, the shared field of view and layer `i` of the whole colour image. */
  function ViewOf(views: seq<Pose>, i: nat, fov: Fov, swapchain: Handle, width: int, height: int): ProjectionView
    requires i < |views|
  {
    ProjectionView(views[i], fov, SubImage(swapchain, 0, 0, width, height, i))
  }

  /**
   * The descriptor `VR_EndFrame` submits: one projection layer over the
   * `viewCount` views when there is a view, no layer otherwise, shown at
   * the predicted time and blended opaquely.
   */
  function EndFrameInfo(views: seq<Pose>, viewCount: nat, fov: Fov, swapchain: Handle, width: int, height: int,
                        space: Handle, predicted: int): (r: FrameEndInfo)
    requires viewCount <= |views|
    ensures r.displayTime == predicted && r.blendMode == Opaque
    ensures |r.layers| == (if viewCount > 0 then 1 else 0)
    ensures forall l :: l in r.layers ==>
      && l.blendTextureSourceAlpha && l.correctChromaticAberration
      && l.space == space && l.viewCount == viewCount == |l.views|
    ensures forall l, i :: l in r.layers && 0 <= i < |l.views| ==>
      && l.views[i].pose == views[i] && l.views[i].fov == fov
      && l.views[i].subImage == SubImage(swapchain, 0, 0, width, height, i)
  {
    var elements := seq(viewCount, i requires 0 <= i < viewCount && viewCount <= |views| =>
                          ViewOf(views, i, fov, swapchain, width, height));
    var layer := ProjectionLayer(true, true, space, viewCount, elements);
    FrameEndInfo(predicted, Opaque, if viewCount > 0 then [layer] else [])
  }

  /** An element of the view array before it is filled. */
  const BlankView := ProjectionView(Pose(Quat(0.0, 0.0, 0.0, 0.0), Vec3(0.0, 0.0, 0.0)),
                                    Fov(0.0, 0.0, 0.0, 0.0), SubImage(Null, 0, 0, 0, 0, 0))

  /**
   * `VR_EndFrame`: fills the two-slot projection-view array for the
   * located views and ends the frame with the descriptor built from it.
   */
  method EndFrame(rt: Runtime, session: Handle, s: SwapchainInfos, views: seq<Pose>, viewCount: nat, fov: Fov,
                  space: Handle, predicted: int)
    requires viewCount <= 2 && viewCount <= |views|
    modifies rt
    ensures rt.calls == old(rt.calls) + [XrCall.EndFrame(EndFrameInfo(views, viewCount, fov, s.color.swapchain,
                                                                      s.color.width, s.color.height, space, predicted))]
    ensures rt.nextId == old(rt.nextId)
  {
    var swapchain, width, height := s.color.swapchain, s.color.width, s.color.height;
    var elements := new ProjectionView[2](_ => BlankView);
    for view := 0 to viewCount
      modifies elements
      invariant forall i :: 0 <= i < view ==> elements[i] == ViewOf(views, i, fov, swapchain, width, height)
    {
      elements[view] := ProjectionView(views[view], fov, SubImage(swapchain, 0, 0, width, height, view));
    }
    assert elements[..viewCount] == seq(viewCount, i requires 0 <= i < viewCount && viewCount <= |views| =>
                                        ViewOf(views, i, fov, swapchain, width, height));
    var layer := ProjectionLayer(true, true, space, viewCount, elements[..viewCount]);
    var info := FrameEndInfo(predicted, Opaque, if viewCount > 0 then [layer] else []);
    assert info == EndFrameInfo(views, viewCount, fov, swapchain, width, height, space, predicted);
    rt.Call(XrCall.EndFrame(info));
  }
}
