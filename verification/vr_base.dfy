/**
 * Lifetime of the VR engine singleton and of the session handles:
 * `VR_Init`, `VR_Destroy`, `VR_PrepareForShutdown`, `VR_EnterVR` and
 * `VR_LeaveVR`. Every call into the runtime is recorded on the trace; the
 * handles the runtime hands out come from `Runtime.NewHandle`. Runtime
 * calls are taken to succeed.
 */
module Base {
  import opened VrTypes

  /** The handle each recorded call brings to life, if any. */
  function Created(c: XrCall): Option<Handle>
  {
    match c
      case CreateInstance(h) => Some(h)
      case CreateDebugMessenger(_, h) => Some(h)
      case CreateSession(h) => Some(h)
      case CreateReferenceSpace(_, _, _, h) => Some(h)
      case CreateSwapchain(_, _, _, _, h) => Some(h)
      case _ => None
  }

  /** The handle each recorded call disposes of, if any. */
  function Destroyed(c: XrCall): Option<Handle>
  {
    match c
      case DestroyInstance(h) => Some(h)
      case DestroyDebugMessenger(h) => Some(h)
      case DestroySession(h) => Some(h)
      case DestroySpace(h) => Some(h)
      case DestroySwapchain(h) => Some(h)
      case _ => None
  }

  /** The handles a trace has created and not destroyed since. */
  function LiveHandles(calls: seq<XrCall>): set<Handle>
    decreases |calls|
  {
    if calls == [] then {}
    else
      var before := LiveHandles(calls[..|calls| - 1]);
      var last := calls[|calls| - 1];
      if Created(last).Some? then before + {Created(last).value}
      else if Destroyed(last).Some? then before - {Destroyed(last).value}
      else before
  }

  /** One more call changes the live set by what that call creates or destroys. */
  lemma LiveHandlesSnoc(calls: seq<XrCall>, c: XrCall)
    ensures LiveHandles(calls + [c])
      == if Created(c).Some? then LiveHandles(calls) + {Created(c).value}
         else if Destroyed(c).Some? then LiveHandles(calls) - {Destroyed(c).value}
         else LiveHandles(calls)
  {
    assert (calls + [c])[..|calls|] == calls;
  }

  /** A destroying call takes its handle out of the live set. */
  lemma LiveAfterDestroy(calls: seq<XrCall>, c: XrCall)
    requires Destroyed(c).Some?
    ensures LiveHandles(calls + [c]) == LiveHandles(calls) - {Destroyed(c).value}
  {
    LiveHandlesSnoc(calls, c);
  }

  /** A creating call adds its handle to the live set. */
  lemma LiveAfterCreate(calls: seq<XrCall>, c: XrCall)
    requires Created(c).Some?
    ensures LiveHandles(calls + [c]) == LiveHandles(calls) + {Created(c).value}
  {
    LiveHandlesSnoc(calls, c);
  }

  /**
   * The calls `VR_Init` makes once it proceeds: creating the instance,
   * querying its properties, creating its debug messenger, querying the HMD
   * system and its properties, and setting up the instance's input.
   */
  function InitCalls(instance: Handle, messenger: Handle): (r: seq<XrCall>)
    ensures |r| == 6 && r[0] == CreateInstance(instance) && r[5] == InitInstanceInput(instance)
    ensures forall c :: c in r ==> Destroyed(c).None?
  {
    [CreateInstance(instance), GetInstanceProperties(instance), CreateDebugMessenger(instance, messenger),
     GetHmdSystem(instance), GetSystemProperties(instance), InitInstanceInput(instance)]
  }

  /** The calls `VR_Destroy` makes for the singleton: the messenger first, then the instance. */
  function DestroyCalls(instance: Handle, messenger: Handle): (r: seq<XrCall>)
    ensures |r| == 2 && r[1] == DestroyInstance(instance)
    ensures forall c :: c in r ==> Created(c).None?
  {
    [DestroyDebugMessenger(messenger), DestroyInstance(instance)]
  }

  /** `VR_Init` brings exactly the instance and its messenger to life. */
  lemma InitCreates(calls: seq<XrCall>, instance: Handle, messenger: Handle)
    ensures LiveHandles(calls + InitCalls(instance, messenger)) == LiveHandles(calls) + {instance, messenger}
  {
    var r := InitCalls(instance, messenger);
    LiveAfterCreate(calls, r[0]);
    LiveHandlesSnoc(calls + r[..1], r[1]);
    assert calls + r[..1] + [r[1]] == calls + r[..2];
    LiveAfterCreate(calls + r[..2], r[2]);
    assert calls + r[..2] + [r[2]] == calls + r[..3];
    LiveHandlesSnoc(calls + r[..3], r[3]);
    assert calls + r[..3] + [r[3]] == calls + r[..4];
    LiveHandlesSnoc(calls + r[..4], r[4]);
    assert calls + r[..4] + [r[4]] == calls + r[..5];
    LiveHandlesSnoc(calls + r[..5], r[5]);
    assert calls + r[..5] + [r[5]] == calls + r;
  }

  /** `VR_Destroy` takes the instance and its messenger out of the live set. */
  lemma DestroyReleases(calls: seq<XrCall>, instance: Handle, messenger: Handle)
    ensures LiveHandles(calls + DestroyCalls(instance, messenger)) == LiveHandles(calls) - {messenger, instance}
  {
    LiveAfterDestroy(calls, DestroyDebugMessenger(messenger));
    LiveAfterDestroy(calls + [DestroyDebugMessenger(messenger)], DestroyInstance(instance));
    assert calls + [DestroyDebugMessenger(messenger)] + [DestroyInstance(instance)] == calls + DestroyCalls(instance, messenger);
  }

  /** The calls `VR_LeaveVR` makes for the head, stage and fake-stage spaces. */
  function SpaceCalls(head: Handle, stage: Handle, fakeStage: Handle): seq<XrCall>
  {
    [DestroySpace(head)] + (if stage != Null then [DestroySpace(stage)] else []) + [DestroySpace(fakeStage)]
  }

  /** The calls `VR_LeaveVR` makes for the head, stage, fake-stage and session handles. */
  function LeaveCalls(head: Handle, stage: Handle, fakeStage: Handle, session: Handle): (r: seq<XrCall>)
    ensures DestroySpace(head) in r && DestroySpace(fakeStage) in r && DestroySession(session) in r
    ensures |r| == (if stage != Null then 4 else 3) && (stage != Null ==> DestroySpace(stage) in r)
    ensures r[|r| - 1] == DestroySession(session)
    ensures forall c :: c in r ==> Created(c).None?
  {
    SpaceCalls(head, stage, fakeStage) + [DestroySession(session)]
  }

  /** The handles `VR_LeaveVR` releases. */
  function Handles(session: Handle, head: Handle, stage: Handle, fakeStage: Handle): set<Handle>
  {
    {session, head, fakeStage} + (if stage != Null then {stage} else {})
  }

  /**
   * After `VR_LeaveVR` none of the app's handles is live any more, whatever
   * the trace before it.
   */
  lemma LeaveReleasesAll(calls: seq<XrCall>, head: Handle, stage: Handle, fakeStage: Handle, session: Handle)
    ensures LiveHandles(calls + LeaveCalls(head, stage, fakeStage, session))
      == LiveHandles(calls) - Handles(session, head, stage, fakeStage)
  {
    var leave := LeaveCalls(head, stage, fakeStage, session);
    if stage != Null {
      assert leave == [DestroySpace(head), DestroySpace(stage), DestroySpace(fakeStage), DestroySession(session)];
      DestroyFour(calls, DestroySpace(head), DestroySpace(stage), DestroySpace(fakeStage), DestroySession(session));
    } else {
      assert leave == [DestroySpace(head), DestroySpace(fakeStage), DestroySession(session)];
      DestroyThree(calls, DestroySpace(head), DestroySpace(fakeStage), DestroySession(session));
    }
  }

  /** Three destroying calls in a row take their three handles out of the live set. */
  lemma DestroyThree(calls: seq<XrCall>, a: XrCall, b: XrCall, c: XrCall)
    requires Destroyed(a).Some? && Destroyed(b).Some? && Destroyed(c).Some?
    ensures LiveHandles(calls + [a, b, c])
         == LiveHandles(calls) - {Destroyed(a).value, Destroyed(b).value, Destroyed(c).value}
  {
    LiveAfterDestroy(calls, a);
    LiveAfterDestroy(calls + [a], b);
    LiveAfterDestroy(calls + [a] + [b], c);
    assert calls + [a] + [b] + [c] == calls + [a, b, c];
  }

  /** Four destroying calls in a row take their four handles out of the live set. */
  lemma DestroyFour(calls: seq<XrCall>, a: XrCall, b: XrCall, c: XrCall, d: XrCall)
    requires Destroyed(a).Some? && Destroyed(b).Some? && Destroyed(c).Some? && Destroyed(d).Some?
    ensures LiveHandles(calls + [a, b, c, d])
         == LiveHandles(calls) - {Destroyed(a).value, Destroyed(b).value, Destroyed(c).value, Destroyed(d).value}
  {
    DestroyThree(calls, a, b, c);
    LiveAfterDestroy(calls + [a, b, c], d);
    assert calls + [a, b, c] + [d] == calls + [a, b, c, d];
  }

  /**
   * The runtime side of `VR_Init`: creates the instance, queries its
   * properties, creates its debug messenger, queries the HMD system and its
   * properties and sets up the instance's input.
   */
  method InitInstance(rt: Runtime) returns (instance: Handle, messenger: Handle)
    modifies rt
    ensures instance == Live(old(rt.nextId)) && messenger == Live(old(rt.nextId) + 1)
    ensures rt.nextId == old(rt.nextId) + 2
    ensures rt.calls == old(rt.calls) + InitCalls(instance, messenger)
  {
    instance := rt.NewHandle();
    rt.Call(CreateInstance(instance));
    rt.Call(GetInstanceProperties(instance));
    messenger := rt.NewHandle();
    rt.Call(CreateDebugMessenger(instance, messenger));
    rt.Call(GetHmdSystem(instance));
    rt.Call(GetSystemProperties(instance));
    rt.Call(InitInstanceInput(instance));
  }

  /** The statics of the engine module: the singleton, the client info and the two flags. */
  class VrBase {
    const engine: Engine        // vr_engine
    const vr: ClientInfo        // vr
    var initialized: bool       // vr_initialized
    var shutdown: bool          // vr_shutdown

    constructor ()
      ensures !initialized && !shutdown && fresh(engine) && fresh(engine.app) && fresh(vr)
      ensures engine.app.IsZero()
    {
      engine := new Engine();
      vr := new ClientInfo();
      initialized, shutdown := false, false;
    }

    /**
     * `VR_Init`: unless already initialized or shutting down, zeroes the
     * engine and the client info, selects third-person follow mode, creates
     * the instance and marks the layer initialized. Returns the singleton.
     */
    method Init(rt: Runtime) returns (e: Engine)
      requires engine.app != vr as object
      modifies this, engine, engine.app, vr, rt
      ensures e == engine
      ensures old(initialized || shutdown) ==>
        && initialized == old(initialized) && shutdown == old(shutdown)
        && rt.calls == old(rt.calls) && rt.nextId == old(rt.nextId)
        && unchanged(engine, engine.app, vr)
      ensures !old(initialized || shutdown) ==>
        && initialized && !shutdown
        && engine.windowWidth == 0 && engine.windowHeight == 0
        && IsZero(vr) && vr.followMode == ThirdPerson1
        && engine.app.instance == Live(old(rt.nextId))
        && engine.app.debugMessenger == Live(old(rt.nextId) + 1)
        && engine.app.session == Null && !engine.app.sessionActive && !engine.app.focused && !engine.app.visible
        && engine.app.headSpace == Null && engine.app.stageSpace == Null
        && engine.app.fakeStageSpace == Null && engine.app.currentSpace == Null
        && rt.calls == old(rt.calls) + InitCalls(engine.app.instance, engine.app.debugMessenger)
        && rt.nextId == old(rt.nextId) + 2
    {
      e := engine;
      if initialized || shutdown {
        return;
      }
      engine.windowWidth, engine.windowHeight := 0, 0;
      engine.app.Zero();
      vr.weaponZoomed, vr.weaponZoomLevel := false, 0.0;
      vr.menuYaw, vr.recenterYaw, vr.menuLeftHanded := 0.0, 0.0, false;
      vr.followMode := ThirdPerson1;
      var instance, messenger := InitInstance(rt);
      engine.app.instance, engine.app.debugMessenger := instance, messenger;
      initialized := true;
    }

    /**
     * `VR_Destroy`: given the singleton, destroys its instance and zeroes
     * it; in every case the layer is no longer initialized.
     */
    method Destroy(given: Engine, rt: Runtime)
      modifies this, engine, engine.app, rt
      ensures !initialized && shutdown == old(shutdown)
      ensures given == engine ==>
        && rt.calls == old(rt.calls) + DestroyCalls(old(engine.app.instance), old(engine.app.debugMessenger))
        && engine.app.IsZero() && engine.windowWidth == 0 && engine.windowHeight == 0
      ensures given != engine ==> rt.calls == old(rt.calls) && unchanged(engine, engine.app)
      ensures rt.nextId == old(rt.nextId)
    {
      if given == engine {
        rt.Call(DestroyDebugMessenger(engine.app.debugMessenger));
        rt.Call(DestroyInstance(engine.app.instance));
        engine.windowWidth, engine.windowHeight := 0, 0;
        engine.app.Zero();
      }
      initialized := false;
    }

    /** `VR_PrepareForShutdown`: from now on `Init` does nothing. */
    method PrepareForShutdown()
      modifies this
      ensures shutdown && initialized == old(initialized)
    {
      shutdown := true;
    }
  }

  /** The handles of `app` that `VR_LeaveVR` releases. */
  function Owned(app: App): set<Handle>
    reads app
  {
    Handles(app.session, app.headSpace, app.stageSpace, app.fakeStageSpace)
  }

  /**
   * `VR_EnterVR`: with no session yet, creates the session and then the
   * head (VIEW) reference space at the identity pose; with a session, does
   * nothing.
   */
  method EnterVR(engine: Engine, rt: Runtime)
    modifies engine.app, rt
    ensures old(engine.app.session) != Null ==> unchanged(engine.app, rt)
    ensures old(engine.app.session) == Null ==>
      && engine.app.session == Live(old(rt.nextId)) && engine.app.headSpace == Live(old(rt.nextId) + 1)
      && rt.calls == old(rt.calls) + [CreateSession(engine.app.session),
                                      CreateReferenceSpace(ViewSpace, 0.0, None, engine.app.headSpace)]
      && LiveHandles(rt.calls) == LiveHandles(old(rt.calls)) + {engine.app.session, engine.app.headSpace}
      && engine.app.stageSpace == old(engine.app.stageSpace)
      && engine.app.fakeStageSpace == old(engine.app.fakeStageSpace)
      && engine.app.currentSpace == old(engine.app.currentSpace)
      && engine.app.sessionActive == old(engine.app.sessionActive)
  {
    var app := engine.app;
    if app.session != Null {
      return;
    }
    ghost var before := rt.calls;
    var session := rt.NewHandle();
    rt.Call(CreateSession(session));
    app.session := session;
    LiveAfterCreate(before, CreateSession(session));
    var head := rt.NewHandle();
    rt.Call(CreateReferenceSpace(ViewSpace, 0.0, None, head));
    LiveAfterCreate(before + [CreateSession(session)], CreateReferenceSpace(ViewSpace, 0.0, None, head));
    app.headSpace := head;
  }

  /**
   * `VR_LeaveVR`: with a session, destroys the head space, the stage space
   * when there is one, the fake stage and the session, nulls every handle
   * and clears the three liveness flags; with no session, does nothing.
   */
  method LeaveVR(engine: Engine, rt: Runtime)
    modifies engine.app, rt
    ensures old(engine.app.session) == Null ==> unchanged(engine.app, rt)
    ensures old(engine.app.session) != Null ==>
      && rt.calls == old(rt.calls) + LeaveCalls(old(engine.app.headSpace), old(engine.app.stageSpace),
                                                old(engine.app.fakeStageSpace), old(engine.app.session))
      && LiveHandles(rt.calls) == LiveHandles(old(rt.calls)) - old(Owned(engine.app))
      && engine.app.session == Null && engine.app.headSpace == Null && engine.app.stageSpace == Null
      && engine.app.fakeStageSpace == Null && engine.app.currentSpace == Null
      && !engine.app.sessionActive && !engine.app.visible && !engine.app.focused
      && engine.app.instance == old(engine.app.instance) && rt.nextId == old(rt.nextId)
  {
    var app := engine.app;
    if app.session == Null {
      return;
    }
    ghost var before, head, stage, fake, session := rt.calls, app.headSpace, app.stageSpace, app.fakeStageSpace, app.session;
    ReleaseSpaces(app, rt);
    rt.Call(DestroySession(app.session));
    app.session := Null;
    app.sessionActive, app.visible, app.focused := false, false, false;
    assert rt.calls == before + LeaveCalls(head, stage, fake, session);
    LeaveReleasesAll(before, head, stage, fake, session);
  }

  /** The space half of `VR_LeaveVR`: destroys and nulls the spaces, and forgets the current one. */
  method ReleaseSpaces(app: App, rt: Runtime)
    modifies app, rt
    ensures rt.calls == old(rt.calls) + SpaceCalls(old(app.headSpace), old(app.stageSpace), old(app.fakeStageSpace))
    ensures app.headSpace == Null && app.stageSpace == Null && app.fakeStageSpace == Null && app.currentSpace == Null
    ensures app.session == old(app.session) && app.instance == old(app.instance) && rt.nextId == old(rt.nextId)
  {
    rt.Call(DestroySpace(app.headSpace));
    app.headSpace := Null;
    if app.stageSpace != Null {
      rt.Call(DestroySpace(app.stageSpace));
      app.stageSpace := Null;
    }
    rt.Call(DestroySpace(app.fakeStageSpace));
    app.fakeStageSpace := Null;
    app.currentSpace := Null;
  }
}
