# q3vr VR layer — a Dafny model

This project models the VR layer of q3vr, a Quake III Arena port for
OpenXR headsets, and proves properties of that model.

**The frame loop.** The layer talks to the OpenXR runtime once per frame:
- wait for a frame;
- recenter when the runtime asked for it;
- begin the frame, locate the views, update the controllers, acquire and bind the swapchain images;
- run the game frame;
- release the images, mirror the picture to the desktop window and end the frame.

**Traces instead of the runtime.** The runtime itself is not modelled.
- Every runtime call is recorded on a trace (`VrTypes.Runtime.calls`).
- What the runtime hands back (predicted display times, image indices, located views, polled events, new handles) is an input.
- `RenderLoop.Phase` folds a trace into the frame phase: idle, waited or begun. It rejects any trace that breaks the frame protocol of chapter 10 of the OpenXR 1.0 specification. There every wait is followed by one begin and one end, and the end carries the display time the wait predicted.
- `Base.LiveHandles` folds a trace into the set of handles that are created and not yet destroyed.
- OpenGL calls go on a second trace (`Swapchains.Gl.calls`).

**The session lifecycle** of chapter 9 of the OpenXR 1.0 specification is written out as a transition relation (`Events.LegalTransition`). The model proves that a runtime keeping to it never trips the fatal checks of the event handler.

**Form of the model.** Each core C file becomes one Dafny module in a file of the same name.
- Globals and structs that the C code updates in place become classes with `modifies` clauses: the renderer state, the haptics table, the bHaptics library state, the virtual keyboard, the update check and the desktop-mirror menu.
- Searches, predicates and pure arithmetic become functions.
- Loops become methods with loop invariants:
  - the event drain and the polling of `VR_Renderer_RestoreState`;
  - the framebuffer loops;
  - the cylinder mesh generation;
  - the yaw normalisation;
  - the version parser;
  - the resolution tokeniser.
- A fatal `CHECK`/`XR_CHECK` becomes an `ok` result or an `Outcome` of `Fatal`.
- C floats are `real`; casts to `int` truncate toward zero explicitly (`VrTypes.TruncateToInt`).

The modules are:
- `VrTypes`: shared values, the runtime trace, the engine and client info.
- `RenderLoop`: `vr_render_loop.c`.
- `Renderer`: `vr_renderer.c`.
- `Events`: `vr_events.c`.
- `Base`: `vr_base.c`.
- `Swapchains`: `vr_swapchains.c`.
- `VirtualScreen`: `vr_virtual_screen.c`.
- `Gameplay`: `vr_gameplay.c`.
- `Haptics`: `vr_haptics.c`.
- `Bhaptics`: `vr_bhaptics.c`.
- `VirtualKeyboard`: `cl_keyboard.c`.
- `Updates`: `vr_updates.c`.
- `DesktopMirror`: `ui_desktopmirror.c`.

## Model

| member | source | states |
|---|---|---|
| Renderer.ZoomStaysInRange | code/vr/vr_renderer.c:339-354 | a zoom level in [1.0, 2.5] stays in that range after a frame; holding zoom never lowers it and releasing zoom never raises it |
| Renderer.ZoomBoundsStay | code/vr/vr_renderer.c:339-354 | 2.5 while zoomed and 1.0 while not zoomed are fixed points for any number of frames |
| Renderer.ZoomSettles | code/vr/vr_renderer.c:339-354 | zooming reaches the 2.5 cap exactly once n steps of 0.05 would pass it, and unzooming reaches the 1.0 floor once n steps of 0.25 would pass it |
| Renderer.DesktopViewOf | code/vr/vr_renderer.c:369-381 | desktop mode 1 is the right eye, 2 both eyes, and every other value (0 included) the left eye, each as an if-and-only-if |
| Renderer.RecenterCallsShape | code/vr/vr_renderer.c:257-307 | recentering locates the head iff there is a yaw to accumulate (a current space), always creates the fake stage 1.675 m below the local origin, and creates the stage iff the runtime supports it |
| Renderer.RecenterKeepsPhase | code/vr/vr_renderer.c:251-314 | the calls of a recenter leave the frame phase of any trace unchanged |
| Renderer.RecenterCallsKeepPhase | code/vr/vr_renderer.c:251-314 | every call a recenter makes neither waits for, begins nor ends a frame, nor drops the session |
| Renderer.WaitThenRecenter | code/vr/vr_renderer.c:169-174 | from an idle loop, the wait at time t, followed by a recenter or not, leaves the frame waited at t |
| Renderer.BeginThenAcquire | code/vr/vr_renderer.c:176-194 | after a wait at t, the begin, the view location, the controller update and the image acquisition leave the frame begun at t |
| Renderer.BeginAcquireCalls | code/vr/vr_renderer.c:176-194 | records begin, locate views at the predicted time in the given space, update controllers and acquire; the phase goes from waited to begun at the same time, and the views and image indices are the runtime's |
| Renderer.LocateKeepsLive | code/vr/vr_renderer.c:257-272 | locating the head creates and destroys no handle |
| Renderer.DropReleases | code/vr/vr_renderer.c:274-286 | dropping the spaces removes exactly the non-null stage and fake stage from the live handles |
| Renderer.CreateAdds | code/vr/vr_renderer.c:288-307 | creating the spaces adds the fake stage and, iff the stage is supported, the stage to the live handles |
| Renderer.RecenterRebuildsSpaces | code/vr/vr_renderer.c:274-307 | after a recenter the old stage and fake stage are no longer live and the new ones are, whatever the earlier trace |
| Renderer.Polled | code/vr/vr_renderer.c:158-161 | the polling loop consumes at most the batches the runtime has |
| Renderer.DrainAppend | code/vr/vr_renderer.c:158-161 | draining two queues one after the other equals draining their concatenation, stopping at a failed check |
| Renderer.PollIsDrain | code/vr/vr_renderer.c:158-161 | polling batch after batch until the session is active is one drain of all the events it consumed |
| Renderer.PollRecenter | code/vr/vr_renderer.c:157-161 | the OR-ed recenter bit is set iff one of the polled events was a reference-space change for the app's session |
| Renderer.DrainKeepsPhase | code/vr/vr_renderer.c:158-161 | polling events never changes the frame phase |
| Renderer.PollStep | code/vr/vr_renderer.c:158-161 | one loop round, draining the next batch with the requests seen so far still pending, continues the polling of the remaining batches |
| Renderer.Renderer.constructor | code/vr/vr_renderer.c:31-41 | the globals start with no frame open, a recenter pending and two views |
| Renderer.Renderer.LocateHead | code/vr/vr_renderer.c:257-272 | with a current space, locates the head and adds its yaw to the recenter yaw; without one, makes no call and keeps the yaw |
| Renderer.Renderer.DropSpaces | code/vr/vr_renderer.c:274-286 | destroys the stage and then the fake stage, each only when it is not null |
| Renderer.Renderer.CreateSpaces | code/vr/vr_renderer.c:288-307 | the fake stage is a fresh handle; the stage is the next fresh one iff supported; the current space is the stage when supported, else the fake stage; session, head space and flags are kept |
| Renderer.Renderer.Recenter | code/vr/vr_renderer.c:251-314 | the whole recenter: trace, new handles, current-space choice, yaw accumulated only with a current space, menu yaw 0, virtual-screen placement reset, zoom and session flags untouched |
| Renderer.Renderer.UpdatePerFrameState | code/vr/vr_renderer.c:339-354 | the zoom level takes one zoom step and nothing else in the client info changes |
| Renderer.Renderer.WaitAndRecenter | code/vr/vr_renderer.c:166-174 | marks the frame started at the predicted time, records the wait and a recenter iff asked, and leaves the frame waited at that time; without a recenter the app, client info and screen are untouched |
| Renderer.Renderer.BeginAndAcquire | code/vr/vr_renderer.c:176-194 | begins the frame, locates the views in the current space, updates the controllers and acquires; the frame is then begun at the stored time, and the views, fov and image indices are the runtime's |
| Renderer.Renderer.BeginFrame | code/vr/vr_renderer.c:166-211 | the whole begin: trace is wait, recenter iff asked, begin, locate, controllers, acquire; frame begun at the predicted time; fatal iff an image index is out of range; otherwise the colour image's framebuffer is bound and the state is valid |
| Renderer.Renderer.PlaceMenu | code/vr/vr_renderer.c:217-228 | on the virtual screen the placement takes one step and the menu faces the screen; otherwise the placement is reset and the menu faces the head |
| Renderer.Renderer.Mirror | code/vr/vr_renderer.c:230-234 | unbinds to framebuffer 0 and issues exactly the desktop blits that the desktop mode's eye choice calls for |
| Renderer.Renderer.Submit | code/vr/vr_renderer.c:230-248 | releases the images, ends the frame with the descriptor of the stored views at the stored predicted time, mirrors to the window and clears `frameStarted` |
| Renderer.Renderer.EndFrame | code/vr/vr_renderer.c:213-249 | the whole end: menu placement, release, mirror and an end-frame call at the time the frame was begun with; afterwards no frame is open |
| Renderer.Renderer.GameAndEnd | code/vr/vr_renderer.c:135-136 | the game frame runs strictly between the begin and the end, and the end carries the begin's predicted time |
| Renderer.Renderer.LateRecenter | code/vr/vr_renderer.c:138-142 | a pending recenter is done after the frame and cleared; no calls are made when none was pending, and its calls never touch the frame phase |
| Renderer.Renderer.RunFrame | code/vr/vr_renderer.c:134-142 | an active frame: begin calls (begun at the predicted time), then game, release and end at that time, then the late recenter; fatal iff an image index is out of range, leaving the frame open |
| Renderer.Renderer.ProcessFrame | code/vr/vr_renderer.c:121-143 | never stalls; fatal iff the event drain fails or the session is active with an image index out of range; an inactive session only polls desktop input and opens no frame; an active run makes begin, game frame and end in that order at one predicted time, recentering iff the events asked |
| Renderer.Renderer.RestoreState | code/vr/vr_renderer.c:145-164 | a no-op when no frame is open; otherwise it updates the zoom, polls until the session is active while OR-ing every recenter request, and begins a frame again with that request; a queue that runs out first is `Stalled` with the frame phase idle |
| Renderer.Renderer.SubmitLoadingFrame | code/vr/vr_renderer.c:383-398 | submits iff the client is loading or primed and a frame is open, and otherwise changes nothing; a submission ends the open frame, begins a new one without recentering and leaves a frame open |
| RenderLoop.ReleaseAndEnd | code/vr/vr_renderer.c:230-243 | releasing the images and ending a begun frame at its own time makes the loop idle again |
| RenderLoop.PhaseAppendKeeps | code/vr/vr_renderer.c:134-136 | calls that neither wait, begin, end nor drop the session leave the frame phase where it was |
| RenderLoop.FrameCycle | code/vr/vr_renderer.c:166-249 | a wait, other calls, a begin, other calls and an end bring an idle loop back to idle iff the end carries the waited display time; any other time breaks the protocol |
| RenderLoop.WaitFrame | code/vr/vr_render_loop.c:7-22 | returns the runtime's predicted display time and records the wait |
| RenderLoop.BeginFrame | code/vr/vr_render_loop.c:24-32 | records the begin and nothing else |
| RenderLoop.LocateViews | code/vr/vr_render_loop.c:34-61 | returns the at most two located poses and their count, and records the location at the given time and space |
| RenderLoop.EndFrameInfo | code/vr/vr_render_loop.c:67-108 | display time is the predicted one and blending is opaque; one projection layer iff there is a view, none otherwise; the layer has the source-alpha and chromatic-aberration flags, the given space and view count; view i has its own pose, the shared fov and image-array layer i of the whole colour image |
| RenderLoop.EndFrame | code/vr/vr_render_loop.c:63-113 | records exactly one end-frame call carrying that descriptor |
| Events.SessionStateStep | code/vr/vr_events.c:79-119 | READY is fatal iff active and STOPPING iff inactive; FOCUSED sets focused and visible; VISIBLE clears focused and sets visible; SYNCHRONIZED, READY and STOPPING clear visible; the pause hook runs iff SYNCHRONIZED while visible; READY begins and STOPPING ends the session; any other state changes nothing |
| Events.LegalTransitionKeepsFlags | code/vr/vr_events.c:79-119 | a transition the lifecycle allows, from flags that agree with the state, never trips a check and leaves flags that agree with the new state |
| Events.EventStep | code/vr/vr_events.c:30-74 | lost, instance-loss, profile-change and unknown events change nothing; a refresh-rate change stores the new rate; the recenter bit is set iff already set or a reference-space change names the app's own session; only state changes touch the flags |
| Events.DrainRecenter | code/vr/vr_events.c:55-76 | a drain that passes every check reports a recenter iff the queue held a reference-space change for the app's own session |
| Events.EventStepAppendsPumpCalls | code/vr/vr_events.c:30-74 | one event only appends session begin/end, pause-hook or refresh-rate calls to the trace |
| Events.DrainAppendsPumpCalls | code/vr/vr_events.c:18-29 | the whole drain only appends such calls |
| Events.DrainKeepsPendingRecenter | code/vr/vr_events.c:18-29 | a recenter request already pending stays pending, and it does not change what the drain does |
| Events.ReportedStates | code/vr/vr_events.c:64-69 | the session states the queue reports are no more than its events |
| Events.LegalDrainNeverFails | code/vr/vr_events.c:12-119 | a queue whose state changes follow the lifecycle passes every check and leaves flags that agree with the last reported state |
| Events.LegalWalkStops | code/vr/vr_events.c:79-119 | nothing legally follows LOSS_PENDING or EXITING |
| Events.NoStatesKeepsOk | code/vr/vr_events.c:30-74 | a queue without session-state changes never trips a check |
| Events.HandleSessionStateChange | code/vr/vr_events.c:79-119 | the app's flags, the trace and the check result are those of the state step; session, refresh rate and every handle are kept |
| Events.ProcessXrEvents | code/vr/vr_events.c:12-77 | polls the whole queue until it is empty: the returned recenter bit, the check result, the flags, the refresh rate and the trace are those of the drain, and no handle changes |
| Base.LeaveCalls | code/vr/vr_base.c:167-189 | destroys the head space, the stage only when it is not null, the fake stage, and the session last; creates nothing |
| Base.LeaveReleasesAll | code/vr/vr_base.c:161-197 | after leaving, none of the session, head, stage and fake-stage handles is live, whatever the earlier trace |
| Base.VrBase.constructor | code/vr/vr_base.c:18-22 | not initialized, not shutting down, a zeroed engine |
| Base.InitCalls | code/vr/vr_base.c:57-108 | `VR_Init` starts with the instance's creation and ends with the input setup, and destroys nothing |
| Base.DestroyCalls | code/vr/vr_base.c:120-124 | `VR_Destroy` ends with the instance's destruction and creates nothing |
| Base.InitCreates | code/vr/vr_base.c:57-108 | `VR_Init` adds exactly the instance and its debug messenger to the live handles, whatever the trace before |
| Base.DestroyReleases | code/vr/vr_base.c:118-127 | `VR_Destroy` removes exactly the messenger and the instance from the live handles |
| Base.InitInstance | code/vr/vr_base.c:57-108 | the instance and the messenger are the next two fresh handles, and the calls are create instance, instance properties, create messenger, HMD system, system properties, input setup |
| Base.VrBase.Init | code/vr/vr_base.c:34-111 | when already initialized or shutting down, returns the singleton and changes nothing; otherwise zeroes engine and client info, selects third-person follow mode, creates the instance and its debug messenger as fresh handles with the calls of `InitCalls`, and marks the layer initialized |
| Base.VrBase.Destroy | code/vr/vr_base.c:118-127 | always clears the initialized flag; only when given the singleton, destroys the debug messenger and then the instance and zeroes the engine |
| Base.VrBase.PrepareForShutdown | code/vr/vr_base.c:129-132 | sets the flag that makes every later `Init` a no-op |
| Base.EnterVR | code/vr/vr_base.c:134-159 | with a session, does nothing; otherwise creates the session and then the head (VIEW) space, both fresh and live, and keeps the other spaces |
| Base.LeaveVR | code/vr/vr_base.c:161-197 | with no session, does nothing; otherwise releases every owned handle, nulls all five handles and clears active, visible and focused, keeping the instance |
| Base.ReleaseSpaces | code/vr/vr_base.c:167-184 | destroys the spaces and nulls the head, stage, fake-stage and current spaces |
| Swapchains.HasFormatInList | code/vr/vr_swapchains.c:71-81 | true iff the format occurs among the first `count` entries |
| Swapchains.FirstOffered | code/vr/vr_swapchains.c:83-116 | the earliest preference the list offers, with no earlier preference offered; `None` iff none is offered |
| Swapchains.BestColorFormat | code/vr/vr_swapchains.c:83-116 | the first offered colour preference; warns iff it is not SRGB8_ALPHA8; fatal iff no preference is offered |
| Swapchains.BestDepthFormat | code/vr/vr_swapchains.c:118-139 | the first offered depth preference; fatal iff none is offered |
| Swapchains.BestViewConfiguration | code/vr/vr_swapchains.c:12-35 | primary stereo iff offered, else the MAX_ENUM sentinel |
| Swapchains.RecommendedResolution | code/vr/vr_swapchains.c:292-306 | view 0's size iff primary stereo is offered, fatal otherwise |
| Swapchains.CreateSwapchains | code/vr/vr_swapchains.c:308-366 | succeeds iff every check passes (stereo offered, all views the same size, colour and depth formats found, equal image counts); then both swapchains have the chosen formats and view 0's size, one multiview framebuffer per image, a view × image table of fresh eye framebuffers and a fresh virtual-screen framebuffer |
| Swapchains.NewSwapchain | code/vr/vr_swapchains.c:222-285 | one fresh swapchain handle with the requested format, layer count and size, the runtime's images, and a virtual-screen texture only for colour |
| Swapchains.CheckSameSizes | code/vr/vr_swapchains.c:328-336 | true iff every view recommends view 0's width and height |
| Swapchains.FillFramebuffers | code/vr/vr_swapchains.c:349-364 | gives the tables their shape, one multiview framebuffer per colour image and one per view and image, each a fresh name |
| Swapchains.DestroySwapchain | code/vr/vr_swapchains.c:368-381 | deletes the screen texture and destroys the swapchain; image count 0, images empty, handle and texture null |
| Swapchains.DestroySwapchains | code/vr/vr_swapchains.c:383-404 | the GL calls are exactly the deletes of each multiview framebuffer followed by its eye framebuffers, row by row, then the colour and depth screen textures; every table framebuffer is deleted and no other; both tables are emptied, both screen textures zeroed, the virtual-screen framebuffer kept, and the colour and then the depth swapchain destroyed |
| Swapchains.DeleteFramebuffers | code/vr/vr_swapchains.c:385-392 | appends exactly the row-by-row framebuffer deletes, which cover every multiview and eye framebuffer and name no other |
| Swapchains.FramebufferDeletesCover | code/vr/vr_swapchains.c:385-392 | the delete sequence of the first n rows contains the delete of every multiview and eye framebuffer of those rows |
| Swapchains.FramebufferDeletesOnly | code/vr/vr_swapchains.c:385-392 | every call in the delete sequence deletes a framebuffer of one of the two tables |
| Swapchains.AfterDeletes | code/vr/vr_swapchains.c:385-392 | after the row-by-row deletes, every multiview and eye framebuffer has been deleted and the deletes name no framebuffer outside the tables |
| Swapchains.DeletesOnlyExtend | code/vr/vr_swapchains.c:402-403 | appending calls that delete no framebuffer (the swapchain teardown) keeps the deletes confined to the tables |
| Swapchains.BindFramebuffers | code/vr/vr_swapchains.c:406-424 | no swapchains binds the window framebuffer 0; otherwise fatal iff an index is out of range, else the colour image's multiview framebuffer is bound |
| Swapchains.Acquire | code/vr/vr_swapchains.c:490-510 | returns the colour and depth indices the runtime hands out and records the acquisition |
| Swapchains.Release | code/vr/vr_swapchains.c:512-523 | records the release of both images |
| Swapchains.Bits | code/vr/vr_swapchains.c:436-440 | every desktop view sets one or both of the two part bits |
| Swapchains.Parts | code/vr/vr_swapchains.c:433-434 | two parts iff more than one view and both eyes shown; otherwise one |
| Swapchains.PartsOfView | code/vr/vr_swapchains.c:436-440 | part 0 is drawn iff the view is not the right eye, part 1 iff it is not the left eye |
| Swapchains.WiderCrop | code/vr/vr_swapchains.c:452-458 | a texture wider than the window part keeps its height and loses a strip at the sides, centred to within a pixel |
| Swapchains.TallerCrop | code/vr/vr_swapchains.c:459-465 | a taller texture keeps its width and loses a strip at top and bottom, centred to within a pixel |
| Swapchains.CropInsideTexture | code/vr/vr_swapchains.c:442-466 | for a part of any width, 0 included, the crop lies inside the texture, is centred to within one pixel, and keeps the full extent along one axis |
| Swapchains.PartBlit | code/vr/vr_swapchains.c:442-475 | the source rectangle is inside the texture and centred; the destination is the part's column, `window width / parts` wide and full height |
| Swapchains.NarrowWindowBlit | code/vr/vr_swapchains.c:443-474 | a window narrower than its parts (width 0, or 1 with both eyes) still gets a blit: an empty strip at the texture's middle, full texture height, onto a column of width 0 |
| Swapchains.BlitXRToMainFbo | code/vr/vr_swapchains.c:426-477 | issues exactly the desktop blits from eye 0's framebuffer of the image |
| Swapchains.MainBlits | code/vr/vr_swapchains.c:426-477 | one blit per eye shown (two for both eyes), all from the given framebuffer; side by side in halves when split, full width when not, always full height |
| VirtualScreen.IndicesInRange | code/vr/vr_virtual_screen.c:210-219 | every index names one of the 2·(segments+1) vertices |
| VirtualScreen.SegmentTriangles | code/vr/vr_virtual_screen.c:210-219 | segment i emits the triangles (2i, 2i+2, 2i+1) and (2i+1, 2i+2, 2i+3) |
| VirtualScreen.TextureCoordinates | code/vr/vr_virtual_screen.c:195-208 | column i has u = i/segments, from 0 to 1, the same on its two vertices; top vertices have v = 1 at height h/2 and bottom ones v = 0 at -h/2 |
| VirtualScreen.GenerateCylinderSectionSimple | code/vr/vr_virtual_screen.c:173-220 | 2·(segments+1) vertices of five floats and 6·segments indices; every float and index is as the mesh layout says and every index is in range |
| VirtualScreen.WriteColumn | code/vr/vr_virtual_screen.c:195-207 | one loop turn writes the ten floats of column i and nothing else |
| VirtualScreen.WriteSegment | code/vr/vr_virtual_screen.c:212-218 | one loop turn writes the six indices of segment i, all in range, and nothing else |
| VirtualScreen.Lerp | code/vr/vr_virtual_screen.c:451-452 | fraction 0 gives the start and 1 the end; on each axis the point has moved the fraction f of the way from the start to the end; a point interpolated with itself stays |
| VirtualScreen.EnsureDistanceOnSphere | code/vr/vr_virtual_screen.c:403-417 | a position within 0.001 of 2.5 m from the head stays put; any other lands exactly on the 2.5 m sphere |
| VirtualScreen.Follow | code/vr/vr_virtual_screen.c:428-447 | drift below 0.1 keeps the target and stops updating; drift above 1.5, or an update still pending, retargets to the point in front and keeps updating, snapping the screen there above 3.0; otherwise nothing changes |
| VirtualScreen.Step | code/vr/vr_virtual_screen.c:419-458 | every call leaves the placement initialized; the first call after a reset puts current and target at the point in front; outside follow mode an initialized placement never changes |
| VirtualScreen.FollowKeepsDistance | code/vr/vr_virtual_screen.c:428-454 | in follow mode every step leaves the screen within 0.001 of 2.5 m from the head, and a snap to a point already at that distance lands exactly there |
| VirtualScreen.Screen.constructor | code/vr/vr_virtual_screen.c:397-400 | uninitialized, with a target update pending |
| VirtualScreen.Screen.GetCurrentVirtualScreenPosition | code/vr/vr_virtual_screen.c:419-458 | moves the placement by one step and returns the new current position |
| VirtualScreen.Screen.ResetPosition | code/vr/vr_virtual_screen.c:510-514 | clears the initialized flag and sets a target update pending, keeping both positions |
| VirtualScreen.ResetThenPlace | code/vr/vr_virtual_screen.c:423-427 | after a reset the next call, in any mode, puts both positions at the point in front |
| Gameplay.ShouldRenderInVirtualScreen | code/vr/vr_gameplay.c:13-25 | never during intermission; never in a live game with neither the menu nor the console catching keys |
| Gameplay.VirtualScreenIffNotPlaying | code/vr/vr_gameplay.c:13-25 | the virtual screen is used iff it is neither intermission nor a live game without menu or console |
| Gameplay.OpenMenuAndPauseIfPossible | code/vr/vr_gameplay.c:5-11 | queues one "togglemenu" iff the game is active, no demo plays and it is not paused; nothing otherwise |
| Haptics.Vibrated | code/vr/vr_haptics.c:26-43 | the two-channel table keeps its two entries after a request |
| Haptics.VibratedIs | code/vr/vr_haptics.c:26-43 | channel by channel, a request writes the duration and the scaled intensity into exactly the channels it applies to |
| Haptics.Tick | code/vr/vr_haptics.c:73-82 | an infinite (-1) vibration is kept as it is; a finite duration only decreases and stays well formed; it and the intensity drop to 0 only when the elapsed time overshoots a positive duration |
| Haptics.Haptics.constructor | code/vr/vr_haptics.c:23-24 | both channels idle |
| Haptics.Haptics.Vibrate | code/vr/vr_haptics.c:26-43 | the table afterwards is the request applied with intensity times global intensity |
| Haptics.Haptics.Process | code/vr/vr_haptics.c:45-94 | each channel takes one tick of the elapsed time, and the sends are computed from the table as it stood before the frame |
| Haptics.NoChannelNoChange | code/vr/vr_haptics.c:28-31 | a mask with neither bit set (chan 0, for instance) changes nothing |
| Haptics.ChannelMasks | code/vr/vr_haptics.c:28-31 | chan 1 addresses the left channel only, 2 the right only, 3 both and 0 neither |
| Haptics.BusyLeftBlocksBoth | code/vr/vr_haptics.c:33-37 | a refusing left channel makes the request return before the right channel, so nothing changes |
| Haptics.InfiniteKeptUnlessZero | code/vr/vr_haptics.c:36-37 | an infinite vibration survives every request except one of zero duration |
| Haptics.IdleChannelAccepts | code/vr/vr_haptics.c:39-40 | an addressed idle channel, with every earlier addressed channel idle, takes the duration and the scaled intensity |
| Haptics.VibratePreservesWellFormed | code/vr/vr_haptics.c:26-43 | requests of at least -1 ms keep every duration a non-negative time or the infinite sentinel |
| Bhaptics.Clamp01 | code/vr/vr_bhaptics.c:69-80 | the result is in [0, 1], equals the value inside it, and is 0 below and 1 above |
| Bhaptics.NormalizedYaw | code/vr/vr_bhaptics.c:82-94 | the normal form lies in [0, 360) |
| Bhaptics.NormalizedYawIdentity | code/vr/vr_bhaptics.c:82-94 | a yaw already in [0, 360) is its own normal form |
| Bhaptics.NormalizedYawPeriodic | code/vr/vr_bhaptics.c:82-94 | whole turns do not change the normal form |
| Bhaptics.NormalizedYawUnique | code/vr/vr_bhaptics.c:82-94 | the normal form is the one value in [0, 360) that differs from the yaw by whole turns |
| Bhaptics.NormalizeYaw | code/vr/vr_bhaptics.c:82-94 | the add and subtract loops compute exactly the normal form |
| Bhaptics.ScaleSuitIntensity | code/vr/vr_bhaptics.c:96-108 | the result is in [0, 100]; it is the truncated product inside that range, 0 below 1 and 100 at or above 100 |
| Bhaptics.ScaledEdgeIntensity | code/vr/vr_bhaptics.c:110-114 | a positive intensity gives between 1 and itself; from 2 up it is 60% truncated |
| Bhaptics.HeightAs01 | code/vr/vr_bhaptics.c:116-119 | the result is in [0, 1] and is the linear map 0.5 + h/2 on [-1, 1] |
| Bhaptics.VestSideForYaw | code/vr/vr_bhaptics.c:121-125 | the side is the front or the back of the vest |
| Bhaptics.VestSideBehind | code/vr/vr_bhaptics.c:121-125 | the side ignores whole turns; a yaw strictly between 90 and 270 picks the back, the rest of [0, 360) the front |
| Bhaptics.ImpactCluster | code/vr/vr_bhaptics.c:127-157 | five points: the centre at full intensity, then left, right, up and down by the spread, clamped to [0, 1], at edge intensity, all with the same motor count |
| Bhaptics.ImpactClusterInUnitSquare | code/vr/vr_bhaptics.c:127-157 | a cluster around a point of the unit square stays in it |
| Bhaptics.BuildImpactCluster | code/vr/vr_bhaptics.c:127-157 | fills the first five slots with the cluster, returns 5 and leaves the other slots alone |
| Bhaptics.EventName | code/vr/vr_bhaptics.c:330-335 | a name without ':' is kept; otherwise it is what follows the first ':' |
| Bhaptics.Route | code/vr/vr_bhaptics.c:337-406 | every event name yields one or two patterns |
| Bhaptics.RouteIntensitiesBounded | code/vr/vr_bhaptics.c:337-406 | for a scaled intensity in (0, 100], every submitted pattern has a positive duration and intensities in [0, 100] |
| Bhaptics.ImpactBounded | code/vr/vr_bhaptics.c:192-234 | vest and visor impacts of an intensity in [0, 100] satisfy the suit's bounds |
| Bhaptics.ClusterBounded | code/vr/vr_bhaptics.c:127-157 | a cluster around an intensity in [0, 100] keeps all its intensities there |
| Bhaptics.PickupWins | code/vr/vr_bhaptics.c:337-342 | a `pickup_` name is routed to the front vest pickup cluster before any other rule |
| Bhaptics.LiteralLacksFire | code/vr/vr_bhaptics.c:343-385 | none of the names matched exactly before the firing rule contains "_fire", so rule order does not hide them |
| Bhaptics.FireFollowsPosition | code/vr/vr_bhaptics.c:386-398 | a firing event with position 1 or 2 goes to that hand and sleeve, whatever the handedness setting |
| Bhaptics.Suit.constructor | code/vr/vr_bhaptics.c:62-67 | not initialized, no library, no entry points |
| Bhaptics.Suit.Load | code/vr/vr_bhaptics.c:159-190 | an already loaded library succeeds at once; otherwise success iff the file opens and all four entry points exist, and a library lacking one is closed again |
| Bhaptics.Suit.Init | code/vr/vr_bhaptics.c:236-258 | idempotent; does nothing when the cvar is missing or 0; initialized iff already so or the library loads; the first success opens and initialises the library |
| Bhaptics.Suit.Shutdown | code/vr/vr_bhaptics.c:260-288 | acts only when initialized: turns the suit off, destroys and closes, and leaves the flag false and all four entry points null |
| Bhaptics.Suit.UpdateEnabled | code/vr/vr_bhaptics.c:290-305 | follows the cvar: 0 leaves the suit shut down, nonzero initializes it when the library loads, a missing cvar changes nothing |
| Bhaptics.Suit.HandleEvent | code/vr/vr_bhaptics.c:307-407 | nothing is submitted for a null event, a missing or zero cvar, a global intensity ≤ 0, an uninitialized suit or a scaled intensity ≤ 0; an event that passes every gate is routed by `Route` on its name after the first ':' at the scaled intensity, giving one or two patterns with every intensity in [0, 100] |
| VirtualKeyboard.RowWidth | code/client/cl_keyboard.c:275-287 | the summed key widths plus one 4-pixel gap between each two keys |
| VirtualKeyboard.MaxRowWidth | code/client/cl_keyboard.c:289-297 | no row is wider, and some row is exactly this wide |
| VirtualKeyboard.LayoutWidths | code/client/cl_keyboard.c:67-123 | the four rows are 396, 414, 392 and 422 pixels wide, so the background is 422 wide |
| VirtualKeyboard.Row1Width | code/client/cl_keyboard.c:83-96 | the home row is 414 pixels wide |
| VirtualKeyboard.Row2Width | code/client/cl_keyboard.c:98-110 | the third row is 392 pixels wide |
| VirtualKeyboard.Row3Width | code/client/cl_keyboard.c:112-121 | the bottom row is 422 pixels wide |
| VirtualKeyboard.UniformWidth | code/client/cl_keyboard.c:275-287 | a run of one-key-wide keys is 36 pixels per key |
| VirtualKeyboard.KeyInRow | code/client/cl_keyboard.c:351-364 | the first key from i on whose closed box holds x, and `None` iff no such key |
| VirtualKeyboard.KeyAtFrom | code/client/cl_keyboard.c:345-366 | the first hit key from row r on, row by row and left to right; `None` iff no key of those rows is hit |
| VirtualKeyboard.KeyAt | code/client/cl_keyboard.c:338-367 | the first key, row by row and left to right, whose box holds the point; `None` iff the point is on no key |
| VirtualKeyboard.KeyWithinRow | code/client/cl_keyboard.c:351-364 | every key's right edge lies within its row's width |
| VirtualKeyboard.OffsetIsPrefixWidth | code/client/cl_keyboard.c:351-364 | the right edge of key i-1 is the width of the first i keys plus their gaps |
| VirtualKeyboard.PrefixWidthBound | code/client/cl_keyboard.c:275-287 | a prefix of a row is no wider than the row |
| VirtualKeyboard.KeysInsideArea | code/client/cl_keyboard.c:377-386 | every point on a key lies on the keyboard background |
| VirtualKeyboard.KeyIcon | code/client/cl_keyboard.c:244-273 | Shift shows the caps-lock icon iff caps lock is on and the shift icon iff it is off, both only on the letter pages; a key without a special code has no icon |
| VirtualKeyboard.TypedChar | code/client/cl_keyboard.c:689-703 | the second symbol on the second symbol page, the first symbol on the first; on the letter pages the capital iff upper case or caps lock (or both letters equal), else the small letter |
| VirtualKeyboard.AfterShift | code/client/cl_keyboard.c:609-630 | Shift swaps the two symbol pages and stays on the letter pages among letters; it keeps caps lock and small letters apart; caps lock is switched on only by a second Shift within 400 ms of the first |
| VirtualKeyboard.AfterSymbols | code/client/cl_keyboard.c:637-643 | the symbols key goes from letters to symbols and back, keeping caps lock and the shift time and keeping caps lock and small letters apart |
| VirtualKeyboard.AfterChar | code/client/cl_keyboard.c:700-703 | typing changes the mode iff it was a one-shot capital, and keeps caps lock apart from small letters |
| VirtualKeyboard.DoubleTapCapsLock | code/client/cl_keyboard.c:609-630 | from small letters, a Shift arms a capital, a second within 400 ms engages caps lock, and a third releases it to small letters |
| VirtualKeyboard.OneShotCapital | code/client/cl_keyboard.c:609-703 | one Shift is used up by the next character typed |
| VirtualKeyboard.SymbolsTwice | code/client/cl_keyboard.c:637-643 | the symbols key pressed twice from letters comes back to the letters caps lock selects, and from symbols comes back to the first symbol page |
| VirtualKeyboard.Keyboard.constructor | code/client/cl_keyboard.c:53 | the zeroed static: hidden, small letters, caps lock off |
| VirtualKeyboard.Keyboard.Show | code/client/cl_keyboard.c:308-313 | visible, small letters, caps lock off, shift time 0 |
| VirtualKeyboard.Keyboard.Hide | code/client/cl_keyboard.c:320-322 | hidden, the mode kept |
| VirtualKeyboard.Keyboard.HandleKey | code/client/cl_keyboard.c:563-707 | an inactive keyboard or another key passes through unhandled and unchanged; Escape and Menu hide it (toggling the console when it catches keys); a click beside every key is swallowed and hides the keyboard iff it is outside the background; Shift, Symbols, control keys and character keys act as `PressKey` says |
| VirtualKeyboard.Keyboard.PressKey | code/client/cl_keyboard.c:609-706 | Shift and Symbols change the mode as their transitions say; control keys send their output and Enter also hides the keyboard unless the console catches keys; a character key types the mode's character and uses up a one-shot capital |
| VirtualKeyboard.CharacterKeysType | code/client/cl_keyboard.c:67-123 | every character key of the layout types a character in every mode |
| Updates.ReadDigits | code/vr/vr_updates.c:95-119 | reading stops at the first character that is not a digit |
| Updates.ReadNumber | code/vr/vr_updates.c:95-119 | the digit loop returns the position after the digits and their value, as `ReadDigits` says |
| Updates.ParseTagVersion | code/vr/vr_updates.c:76-122 | -1 for a null tag; otherwise the code and the three numbers of the tag's version reading |
| Updates.Decimal | code/vr/vr_updates.c:95-119 | the `%d` rendering of a non-negative number is a non-empty digit string |
| Updates.ReadDigitsRun | code/vr/vr_updates.c:95-119 | reading a digit run stops exactly where the digits stop |
| Updates.DecimalValue | code/vr/vr_updates.c:95-119 | reading the `%d` rendering of n gives back n |
| Updates.TagVersionOfText | code/vr/vr_updates.c:85-121 | an optional 'v', three digit runs separated by dots and text not starting with a digit parse to the three values with code 0 |
| Updates.TagVersionRoundTrip | code/vr/vr_updates.c:85-121 | parsing a rendered "major.minor.patch", with or without a leading 'v', gives the version back, ignoring trailing non-digit text |
| Updates.RefusedTag | code/vr/vr_updates.c:85-93 | a tag that does not start with a digit after the optional 'v' gives -1 with all numbers 0 |
| Updates.NeedsUpdateIsLexGreater | code/vr/vr_updates.c:68-69 | an update is needed iff the running version is lexicographically below the released one |
| Updates.NeedsUpdateStrictTotal | code/vr/vr_updates.c:68-69 | the same version never asks for an update, and of two distinct versions exactly one is newer |
| Updates.UpdateCheck.constructor | code/vr/vr_updates.c:13-14 | no check done, none in progress |
| Updates.UpdateCheck.CheckUpdates | code/vr/vr_updates.c:20-35 | a no-op while a check is running or after one finished; otherwise starts exactly one download and marks it in progress |
| Updates.UpdateCheck.OnCheckUpdatesResponse | code/vr/vr_updates.c:37-74 | every exit leaves the check finished and none in progress; a failed read or a missing or empty tag sets no cvar; otherwise the version cvars are the parsed tag and the update flag says whether it is newer |
| DesktopMirror.Truncated | code/q3_ui/ui_desktopmirror.c:81-88 | a copy into a buffer is a prefix that fits, and the whole text when it fits |
| DesktopMirror.Fields | code/q3_ui/ui_desktopmirror.c:141-152 | a text always has at least one space-separated field |
| DesktopMirror.TokensOfFields | code/q3_ui/ui_desktopmirror.c:141-152 | a table of "custom" and then the first fields of the text, as many as fit, is the tokenised table |
| DesktopMirror.FieldsJoin | code/q3_ui/ui_desktopmirror.c:141-152 | the fields joined with single spaces give back the text |
| DesktopMirror.DetectedTable | code/q3_ui/ui_desktopmirror.c:130-187 | "custom" first, then entries only and no terminator, at least two and at most 32 slots, so a terminator always fits |
| DesktopMirror.Tokens | code/q3_ui/ui_desktopmirror.c:141-152 | "custom" followed by the first fields of the mode text, at most 31 of them |
| DesktopMirror.WithVr | code/q3_ui/ui_desktopmirror.c:155-177 | the VR resolution is appended iff a slot pair is free and no entry already reads the same; its half follows iff two slots still remain; what was there is kept |
| DesktopMirror.AtoiDecimal | code/q3_ui/ui_desktopmirror.c:246-256 | `atoi` reads back the `%d` rendering of a non-negative number |
| DesktopMirror.SplitResolution | code/q3_ui/ui_desktopmirror.c:246-256 | an entry splits iff its 16-byte copy holds an 'x'; the width is the copy up to the first 'x', which the entry starts with |
| DesktopMirror.DecimalLength | code/q3_ui/ui_desktopmirror.c:155-177 | a size below a million has at most six digits |
| DesktopMirror.FormatSplitsBack | code/q3_ui/ui_desktopmirror.c:155-256 | a "WxH" entry built for a screen below a million pixels each way splits back into its two numbers, and `atoi` reads them |
| DesktopMirror.FindSize | code/q3_ui/ui_desktopmirror.c:110-122 | a match is an index of the list |
| DesktopMirror.FindSizeStep | code/q3_ui/ui_desktopmirror.c:110-122 | one search step: an entry without 'x' faults, a matching one is found, otherwise the search goes on one entry later |
| DesktopMirror.FindSizeMatch | code/q3_ui/ui_desktopmirror.c:110-122 | a match reads as the size and is the first entry that does, every earlier entry splitting |
| DesktopMirror.FindSizeNoMatch | code/q3_ui/ui_desktopmirror.c:110-122 | no match is reported only when no entry reads as the size |
| DesktopMirror.FindSizeFault | code/q3_ui/ui_desktopmirror.c:110-122 | the search faults iff an entry without 'x' comes before any entry of the size |
| DesktopMirror.MirrorIndex | code/q3_ui/ui_desktopmirror.c:192-201 | 0 iff the mirror is off, 1 iff it is on and windowed, 2 iff it is on and fullscreen |
| DesktopMirror.MirrorRoundTrip | code/q3_ui/ui_desktopmirror.c:228-244 | applying choice c and reading the menu back gives c; choice 0 keeps r_fullscreen |
| DesktopMirror.Menu.constructor | code/q3_ui/ui_desktopmirror.c:81-89 | no tables, no list selected, nothing detected |
| DesktopMirror.Menu.SetPreviousResolutionOption | code/q3_ui/ui_desktopmirror.c:91-123 | without tables or a positive custom size, selects entry 0 of the full list (if any); otherwise relabels "custom" with the size and selects the first listed entry of that size in the list without "custom", or entry 0 of the full list when none matches; faults iff an entry without 'x' comes first; the initial resolution follows the selection, and the mirror, content, mode and menu-mode choices and the Apply flags are unchanged |
| DesktopMirror.Menu.FindCustomSize | code/q3_ui/ui_desktopmirror.c:110-122 | the search loop finds what `FindSize` says over the list without "custom" |
| DesktopMirror.Menu.Tokenise | code/q3_ui/ui_desktopmirror.c:141-152 | slot 0 is "custom", the next slots hold the text's fields, and a terminator follows them |
| DesktopMirror.Menu.TakeField | code/q3_ui/ui_desktopmirror.c:144-151 | one loop turn stores the next field in slot i and changes no other slot |
| DesktopMirror.Menu.AppendVrResolution | code/q3_ui/ui_desktopmirror.c:155-177 | the slots become what `WithVr` says, with a terminator after them |
| DesktopMirror.Menu.FindListed | code/q3_ui/ui_desktopmirror.c:157-164 | true iff an entry before the terminator already reads as the VR resolution |
| DesktopMirror.Menu.GetResolutions | code/q3_ui/ui_desktopmirror.c:130-187 | a non-empty mode text fills the table as `DetectedTable` says, with a terminator, and marks the tables set; an empty one leaves the table alone |
| DesktopMirror.Menu.DetectResolutions | code/q3_ui/ui_desktopmirror.c:139-185 | the table becomes the detected table followed by a terminator, the current entry text is "custom", the full list is shown and the tables are marked set and detected |
| DesktopMirror.Menu.SetMenuItems | code/q3_ui/ui_desktopmirror.c:189-206 | the mirror choice and its initial value are the mirror index of the truncated cvars, and the other choices are the truncated cvars; the resolution choice, the Apply flags and the resolution tables are unchanged and stay well formed |
| DesktopMirror.Menu.UpdateMenuItems | code/q3_ui/ui_desktopmirror.c:208-221 | Apply is hidden and inactive iff neither choice differs from its initial value; every choice, initial value and the resolution tables are unchanged and stay well formed |
| DesktopMirror.Menu.ApplyChanges | code/q3_ui/ui_desktopmirror.c:223-260 | nothing unless activated; then the mirror writes iff the mirror changed, the width and height of the chosen entry iff the resolution changed, and "vid_restart"; faults, with nothing after the mirror writes, iff the chosen entry has no 'x' |
| DesktopMirror.Menu.ChosenEntry | code/q3_ui/ui_desktopmirror.c:250-253 | the text of the entry the resolution list has selected |
| DesktopMirror.CustomOnlyFirst | code/q3_ui/ui_desktopmirror.c:110-122 | relabelling "custom" does not change the list without "custom" |
| VrTypes.TruncateToInt | code/vr/vr_bhaptics.c:96-108 | a C float-to-int cast: the sign of x and the largest magnitude not above `abs(x)` |
| VrTypes.FirstIndexOf | code/q3_ui/ui_desktopmirror.c:141-152 | `strchr`: `None` iff the character is absent, else the position of its first occurrence |

## Left out

- Haptics.AreHapticsEnabled: the threshold (global intensity above 0.1) is the predicate itself, so it carries no contract of its own.
- Floating point: C floats are modelled as exact reals, so rounding is not modelled. `sinf`, `cosf`, vector lengths and the quaternion-to-yaw conversion are inputs. Lengths come with a requirement that their square is the squared distance.
- Swapchains.BlitXRToMainFbo: a window height of 0 is excluded, and so are `Swapchains.MainBlits`, `Swapchains.PartBlit` and the renderer's `Ready`. At height 0 the C float division `wX / wY` gives an infinity or NaN, which exact reals cannot represent. Every window width from 0 up is modelled.
- Updates.UpdateCheck.CheckUpdates: the model assumes a build with `USE_HTTP`. Without it the C function body is empty and no check ever starts.
- Base.VrBase.Destroy: the C destroys the debug messenger only when the runtime exports the destroy function. The model always records the destruction, in line with runtime calls being taken to succeed.
- Runtime failures: every OpenXR call is assumed to succeed. The `XR_CHECK`s on call results are not modelled. The `CHECK`s on the layer's own state are modelled.
- The thin wrappers in `vr_instance.c`, `vr_session.c` and `vr_spaces.c` are recorded as single calls on the trace. The OpenXR loader, JSON and HTTP code are not part of this model.
- Updates.ParseTagVersion: only a null tag is modelled, not null out-pointers. The digit accumulation is unbounded, so 32-bit overflow of long digit runs is not modelled. The same holds for `atoi` in `DesktopMirror.AtoiDecimal`.
- The update download, its JSON parsing and the running build's version are inputs. The tag text, the byte count and the built-in version are parameters.
- bHaptics library loading: `dlopen`/`LoadLibrary` and the symbol lookups are inputs (whether the file opens, which entry points it exports). The suit's own behaviour is not modelled. The sine of the yaw is an input.
- Haptic timing: `Sys_Milliseconds` is replaced by the elapsed time as a parameter. The haptic feedback calls are returned as a list of sends, not applied.
- OpenGL work is not modelled:
  - clears and scissors;
  - shader, VAO and VBO creation;
  - drawing the virtual screen;
  - `VR_Swapchains_BlitXRToVirtualScreen`;
  - `GLimp_EndFrame`;
  - the projection matrices;
  - `re.SetVRHeadsetParms`.
- The desktop blit always reads eye 0's framebuffer. The fourth argument that `vr_renderer.c:234` passes is not modelled, because the blit as defined takes three.
- `DestroySwapchains` never deletes the virtual-screen framebuffer. The model reproduces that leak rather than fixing it.
- `VR_InitRenderer`, `VR_DestroyRenderer` and `VR_GetResolution` are not modelled. They are setup that sits outside the frame loop.
- VirtualScreen.EnsureDistanceOnSphere requires a distance greater than 0. At distance 0 the C normalisation divides by zero.
- Renderer.Renderer.RestoreState: the C code polls forever until the session is active. The model polls a finite sequence of event batches. Running out of batches is reported as `Stalled` instead of looping.
- `Com_Frame` is one `GameFrame` call on the trace. `IN_VRUpdateHMD` and `IN_VRSyncActions` are folded into the controller-update call. The head yaw, screen yaw, field of view and the yaw of a late recenter are inputs.
- Overlay layers and supersampling are not modelled: they are declared in headers but have no implementation.
- DesktopMirror.Menu.GetResolutions: its ensures state only the detected table. The effect of the `SetPreviousResolutionOption` call at its end is stated by that method's own contract and is not repeated here, and neither is its `faulted` result.
- The pointers into `resbuf` are modelled as slot values. Aliasing between slots and the buffer is left out, except that "custom" shows `currentResolution`. A write through the null `strchr` result is reported as `faulted`.
- The menu is assumed to be 640×480 virtual pixels. The keyboard's drawing and icons are not modelled.
- printf and debug logging are not modelled.
