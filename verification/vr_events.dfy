/**
 * The event pump of the VR layer: `VR_ProcessXrEvents` drains the runtime's
 * event queue and `_VR_HandleSessionStateChange` follows the session
 * lifecycle of chapter 9 ("Session") of the OpenXR 1.0 specification by
 * toggling the `SessionActive`, `Visible` and `Focused` flags of the app.
 *
 * The queue is the sequence of events `xrPollEvent` would hand out; the
 * poll stops succeeding once it is empty. A failed `CHECK` ends the process,
 * which the model reports as `ok == false` with no further step taken.
 */
module Events {
  import opened VrTypes

  /** XrSessionState. */
  datatype SessionState =
    | UnknownState | Idle | Ready | Synchronized | Visible | Focused | Stopping | LossPending | Exiting

  /** The events `VR_ProcessXrEvents` tells apart; anything else is `UnknownEvent`. */
  datatype Event =
    | EventsLost(lostCount: nat)
    | InstanceLossPending(lossTime: int)
    | InteractionProfileChanged
    | RefreshRateChanged(fromRate: real, toRate: real)
    | ReferenceSpaceChangePending(session: Handle, spaceKind: SpaceKind)
    | SessionStateChanged(state: SessionState)
    | UnknownEvent

  /** The three liveness flags of `VR_App`. */
  datatype Flags = Flags(active: bool, focused: bool, visible: bool)

  /** The flags after a state change, the calls it made, and whether its checks passed. */
  datatype StateStep = StateStep(flags: Flags, calls: seq<XrCall>, ok: bool)

  /**
   * `_VR_HandleSessionStateChange` on the flags `f` of the app whose session
   * is `session`.
   */
  function SessionStateStep(f: Flags, s: SessionState, session: Handle): (r: StateStep)
    ensures !r.ok <==> (s == Ready && f.active) || (s == Stopping && !f.active)
    ensures s == Focused ==> r.flags.focused && r.flags.visible
    ensures s == Visible ==> !r.flags.focused && r.flags.visible
    ensures s in {Synchronized, Ready, Stopping} ==> !r.flags.visible
    ensures (PauseHook in r.calls) <==> s == Synchronized && f.visible
    ensures r.ok && s == Ready ==> r.flags.active && BeginSession(session) in r.calls
    ensures r.ok && s == Stopping ==> !r.flags.active && EndSession(session) in r.calls
    ensures s !in {Ready, Stopping} ==> r.flags.active == f.active
    ensures s !in {Focused, Visible} ==> r.flags.focused == f.focused
    ensures s !in {Focused, Visible, Synchronized, Ready, Stopping} ==> r == StateStep(f, [], true)
  {
    match s
      case Focused => StateStep(f.(focused := true, visible := true), [], true)
      case Visible => StateStep(f.(focused := false, visible := true), [], true)
      case Synchronized => StateStep(f.(visible := false), if f.visible then [PauseHook] else [], true)
      case Ready =>
        if f.active then StateStep(f.(visible := false), [], false)
        else StateStep(f.(visible := false, active := true), [BeginSession(session)], true)
      case Stopping =>
        if !f.active then StateStep(f.(visible := false), [], false)
        else StateStep(f.(visible := false, active := false), [EndSession(session)], true)
      case _ => StateStep(f, [], true)
  }

  /**
   * The lifecycle of section 9.3 of the OpenXR 1.0 specification: the
   * transitions a runtime may report after state `from`.
   */
  predicate LegalTransition(from: SessionState, to: SessionState)
  {
    match from
      case UnknownState => to == Idle
      case Idle => to in {Ready, Exiting, LossPending}
      case Ready => to in {Synchronized, LossPending}
      case Synchronized => to in {Visible, Stopping, LossPending}
      case Visible => to in {Synchronized, Focused, LossPending}
      case Focused => to in {Visible, LossPending}
      case Stopping => to in {Idle, LossPending}
      case LossPending => false
      case Exiting => false
  }

  /**
   * The flags the app should hold in each lifecycle state: active from
   * READY until STOPPING, visible in VISIBLE and FOCUSED, focused only in
   * FOCUSED. After LOSS_PENDING or EXITING nothing is promised.
   */
  predicate Agrees(s: SessionState, f: Flags)
  {
    match s
      case UnknownState => f == Flags(false, false, false)
      case Idle => f == Flags(false, false, false)
      case Ready => f == Flags(true, false, false)
      case Synchronized => f == Flags(true, false, false)
      case Visible => f == Flags(true, false, true)
      case Focused => f == Flags(true, true, true)
      case Stopping => f == Flags(false, false, false)
      case LossPending => true
      case Exiting => true
  }

  /**
   * A runtime that reports only legal transitions never trips a check, and
   * the flags keep agreeing with the state it last reported.
   */
  lemma LegalTransitionKeepsFlags(from: SessionState, to: SessionState, f: Flags, session: Handle)
    requires Agrees(from, f) && LegalTransition(from, to)
    ensures SessionStateStep(f, to, session).ok
    ensures to !in {LossPending, Exiting} ==> Agrees(to, SessionStateStep(f, to, session).flags)
  {
  }

  /** What draining the queue has produced so far. */
  datatype Drained = Drained(flags: Flags, refreshRate: real, calls: seq<XrCall>, recenter: bool, ok: bool)

  /** The effect of one polled event on the app whose session is `session`. */
  function EventStep(d: Drained, e: Event, session: Handle): (r: Drained)
    ensures (e.EventsLost? || e.InstanceLossPending? || e.InteractionProfileChanged? || e.UnknownEvent?) ==> r == d
    ensures e.RefreshRateChanged? ==> r == d.(refreshRate := e.toRate, calls := d.calls + [RefreshRateSetting(e.toRate)])
    ensures r.recenter <==> d.recenter || (e.ReferenceSpaceChangePending? && e.session == session)
    ensures !e.SessionStateChanged? ==> r.ok == d.ok && r.flags == d.flags
  {
    match e
      case RefreshRateChanged(_, to) => d.(refreshRate := to, calls := d.calls + [RefreshRateSetting(to)])
      case ReferenceSpaceChangePending(s, _) => if s == session then d.(recenter := true) else d
      case SessionStateChanged(state) =>
        var step := SessionStateStep(d.flags, state, session);
        d.(flags := step.flags, calls := d.calls + step.calls, ok := step.ok)
      case _ => d
  }

  /** Polls every queued event in order, stopping at the first failed check. */
  function Drain(d: Drained, events: seq<Event>, session: Handle): (r: Drained)
    requires d.ok
    decreases |events|
  {
    if events == [] then d
    else
      var next := EventStep(d, events[0], session);
      if !next.ok then next else Drain(next, events[1..], session)
  }

  /** Some queued event before position `n` is a reference-space change for `session`. */
  predicate RecenterRequested(events: seq<Event>, n: int, session: Handle)
  {
    exists i :: 0 <= i < n && i < |events| && events[i].ReferenceSpaceChangePending? && events[i].session == session
  }

  /**
   * A drain whose checks all pass reports a recenter exactly when a
   * reference-space change for the app's own session was queued.
   */
  lemma {:induction false} DrainRecenter(d: Drained, events: seq<Event>, session: Handle)
    requires d.ok
    ensures Drain(d, events, session).ok ==>
      (Drain(d, events, session).recenter <==> d.recenter || RecenterRequested(events, |events|, session))
    decreases |events|
  {
    if events != [] {
      var next := EventStep(d, events[0], session);
      if next.ok {
        DrainRecenter(next, events[1..], session);
        if RecenterRequested(events[1..], |events| - 1, session) {
          var i :| 0 <= i < |events| - 1 && events[1..][i].ReferenceSpaceChangePending? && events[1..][i].session == session;
          assert events[i + 1] == events[1..][i];
        }
        if RecenterRequested(events, |events|, session) {
          var i :| 0 <= i < |events| && events[i].ReferenceSpaceChangePending? && events[i].session == session;
          if i > 0 {
            assert events[1..][i - 1] == events[i];
          }
        }
      }
    }
  }

  /** The calls the event pump makes: session begin and end, the pause hook and the refresh-rate setting. */
  predicate PumpCall(c: XrCall)
  {
    c.BeginSession? || c.EndSession? || c.PauseHook? || c.RefreshRateSetting?
  }

  /** One event only appends pump calls to the trace. */
  lemma EventStepAppendsPumpCalls(d: Drained, e: Event, session: Handle)
    ensures var r := EventStep(d, e, session);
      && |d.calls| <= |r.calls| && r.calls[..|d.calls|] == d.calls
      && forall c :: c in r.calls[|d.calls|..] ==> PumpCall(c)
  {
    var r := EventStep(d, e, session);
    match e {
      case RefreshRateChanged(_, to) =>
        assert r.calls[|d.calls|..] == [RefreshRateSetting(to)];
      case SessionStateChanged(state) =>
        var step := SessionStateStep(d.flags, state, session);
        assert r.calls == d.calls + step.calls;
        assert r.calls[|d.calls|..] == step.calls;
      case _ =>
        assert r.calls[|d.calls|..] == [];
    }
  }

  /** Draining only appends pump calls to the trace. */
  lemma {:induction false} DrainAppendsPumpCalls(d: Drained, events: seq<Event>, session: Handle)
    requires d.ok
    ensures var r := Drain(d, events, session);
      && |d.calls| <= |r.calls| && r.calls[..|d.calls|] == d.calls
      && forall c :: c in r.calls[|d.calls|..] ==> PumpCall(c)
    decreases |events|
  {
    var r := Drain(d, events, session);
    if events == [] {
      assert r.calls[|d.calls|..] == [];
    } else {
      var next := EventStep(d, events[0], session);
      var added := next.calls[|d.calls|..];
      EventStepAppendsPumpCalls(d, events[0], session);
      assert next.calls == d.calls + added;
      if next.ok {
        DrainAppendsPumpCalls(next, events[1..], session);
        var rest := r.calls[|next.calls|..];
        assert r.calls == next.calls + rest;
        assert r.calls[|d.calls|..] == added + rest;
        PumpCallsConcat(added, rest);
      }
    }
  }

  /** Two runs of pump calls make one. */
  lemma PumpCallsConcat(a: seq<XrCall>, b: seq<XrCall>)
    requires forall c :: c in a ==> PumpCall(c)
    requires forall c :: c in b ==> PumpCall(c)
    ensures forall c :: c in a + b ==> PumpCall(c)
  {
  }

  /**
   * A recenter request already pending when the drain starts stays pending,
   * and the drain itself does not depend on it.
   */
  lemma {:induction false} DrainKeepsPendingRecenter(d: Drained, events: seq<Event>, session: Handle, pending: bool)
    requires d.ok
    ensures Drain(d.(recenter := d.recenter || pending), events, session)
         == Drain(d, events, session).(recenter := pending || Drain(d, events, session).recenter)
    decreases |events|
  {
    if events != [] {
      var next := EventStep(d, events[0], session);
      assert EventStep(d.(recenter := d.recenter || pending), events[0], session) == next.(recenter := next.recenter || pending);
      if next.ok {
        DrainKeepsPendingRecenter(next, events[1..], session, pending);
      }
    }
  }

  /** The session state reported by each state-change event of the queue, in order. */
  function ReportedStates(events: seq<Event>): (r: seq<SessionState>)
    ensures |r| <= |events|
  {
    if events == [] then []
    else if events[0].SessionStateChanged? then [events[0].state] + ReportedStates(events[1..])
    else ReportedStates(events[1..])
  }

  /** `states` is a legal walk through the lifecycle starting after `from`. */
  predicate LegalWalk(from: SessionState, states: seq<SessionState>)
    decreases |states|
  {
    states == [] || (LegalTransition(from, states[0]) && LegalWalk(states[0], states[1..]))
  }

  /** The state the lifecycle is in after a walk. */
  function LastState(from: SessionState, states: seq<SessionState>): SessionState
  {
    if states == [] then from else states[|states| - 1]
  }

  /**
   * Draining a queue whose state changes follow the lifecycle from a state
   * the flags agree with passes every check and leaves flags that agree with
   * the last reported state.
   */
  lemma {:induction false} LegalDrainNeverFails(from: SessionState, d: Drained, events: seq<Event>, session: Handle)
    requires d.ok && Agrees(from, d.flags) && from !in {LossPending, Exiting}
    requires LegalWalk(from, ReportedStates(events))
    ensures Drain(d, events, session).ok
    ensures LastState(from, ReportedStates(events)) !in {LossPending, Exiting} ==>
      Agrees(LastState(from, ReportedStates(events)), Drain(d, events, session).flags)
    decreases |events|
  {
    if events != [] {
      var e := events[0];
      var next := EventStep(d, e, session);
      if e.SessionStateChanged? {
        LegalTransitionKeepsFlags(from, e.state, d.flags, session);
        assert ReportedStates(events) == [e.state] + ReportedStates(events[1..]);
        if e.state in {LossPending, Exiting} {
          LegalWalkStops(e.state, ReportedStates(events[1..]));
          NoStatesKeepsOk(next, events[1..], session);
        } else {
          LegalDrainNeverFails(e.state, next, events[1..], session);
          LastStateCons(from, e.state, ReportedStates(events[1..]));
        }
      } else {
        assert ReportedStates(events) == ReportedStates(events[1..]);
        LegalDrainNeverFails(from, next, events[1..], session);
      }
    }
  }

  /** Nothing legally follows LOSS_PENDING or EXITING. */
  lemma LegalWalkStops(s: SessionState, states: seq<SessionState>)
    requires s in {LossPending, Exiting} && LegalWalk(s, states)
    ensures states == []
  {
  }

  /** The last state of a walk that starts with `s` is the last state of its rest after `s`. */
  lemma LastStateCons(from: SessionState, s: SessionState, states: seq<SessionState>)
    ensures LastState(from, [s] + states) == LastState(s, states)
  {
  }

  /** A queue without state changes cannot fail a check. */
  lemma {:induction false} NoStatesKeepsOk(d: Drained, events: seq<Event>, session: Handle)
    requires d.ok && ReportedStates(events) == []
    ensures Drain(d, events, session).ok
    decreases |events|
  {
    if events != [] {
      assert !events[0].SessionStateChanged?;
      NoStatesKeepsOk(EventStep(d, events[0], session), events[1..], session);
    }
  }

  /** The flags of `app`. */
  function FlagsOf(app: App): Flags
    reads app
  {
    Flags(app.sessionActive, app.focused, app.visible)
  }

  /** The handles of `app` that session-state changes leave alone: instance, head, stage, fake stage and current space. */
  function HandlesOf(app: App): (Handle, Handle, Handle, Handle, Handle)
    reads app
  {
    (app.instance, app.headSpace, app.stageSpace, app.fakeStageSpace, app.currentSpace)
  }

  /**
   * `_VR_HandleSessionStateChange` on the app itself; the pause hook and the
   * begin/end-session calls go to the runtime trace. Returns false where a
   * `CHECK` ends the process.
   */
  method HandleSessionStateChange(app: App, rt: Runtime, s: SessionState) returns (ok: bool)
    modifies app, rt
    ensures var step := SessionStateStep(old(FlagsOf(app)), s, app.session);
      FlagsOf(app) == step.flags && rt.calls == old(rt.calls) + step.calls && ok == step.ok
    ensures app.session == old(app.session) && app.refreshRate == old(app.refreshRate)
    ensures HandlesOf(app) == old(HandlesOf(app)) && rt.nextId == old(rt.nextId)
  {
    ok := true;
    match s {
      case Focused =>
        app.focused, app.visible := true, true;
      case Visible =>
        app.focused, app.visible := false, true;
      case Synchronized =>
        if app.visible {
          rt.Call(PauseHook);
        }
        app.visible := false;
      case Ready =>
        app.visible := false;
        if app.sessionActive {
          return false;
        }
        rt.Call(BeginSession(app.session));
        app.sessionActive := true;
      case Stopping =>
        app.visible := false;
        if !app.sessionActive {
          return false;
        }
        rt.Call(EndSession(app.session));
        app.sessionActive := false;
      case _ =>
    }
  }

  /** The drain state of `app` and `rt` with nothing polled yet. */
  function Start(app: App, rt: Runtime): Drained
    reads app, rt
  {
    Drained(FlagsOf(app), app.refreshRate, rt.calls, false, true)
  }

  /**
   * `VR_ProcessXrEvents` with `queue` the events the runtime holds: returns
   * the recenter request and leaves the app and the trace as `Drain` says.
   */
  method ProcessXrEvents(app: App, rt: Runtime, queue: seq<Event>) returns (recenter: bool, ok: bool)
    modifies app, rt
    ensures var d := Drain(old(Start(app, rt)), queue, app.session);
      recenter == d.recenter && ok == d.ok && Start(app, rt) == d.(recenter := false, ok := true)
    ensures app.session == old(app.session)
    ensures HandlesOf(app) == old(HandlesOf(app)) && rt.nextId == old(rt.nextId)
  {
    ghost var goal := Drain(Start(app, rt), queue, app.session);
    recenter, ok := false, true;
    var i := 0;
    while i < |queue|
      invariant 0 <= i <= |queue| && app.session == old(app.session)
      invariant HandlesOf(app) == old(HandlesOf(app)) && rt.nextId == old(rt.nextId)
      invariant Drain(Start(app, rt).(recenter := recenter), queue[i..], app.session) == goal
      decreases |queue| - i
    {
      var e := queue[i];
      assert queue[i..][1..] == queue[i + 1..];
      match e {
        case RefreshRateChanged(_, to) =>
          app.refreshRate := to;
          rt.Call(RefreshRateSetting(to));
        case ReferenceSpaceChangePending(session, _) =>
          if session == app.session {
            recenter := true;
          }
        case SessionStateChanged(state) =>
          ok := HandleSessionStateChange(app, rt, state);
          if !ok {
            return;
          }
        case _ =>
      }
      i := i + 1;
    }
  }
}
