# OpenXR and WebXR drivers, modelled in Dafny

This project models the two XR drivers of a small viewer.

**The OpenXR driver** (`openxr-opengl`) has two parts:
- A session state machine. It drains the runtime's event queue, begins the session on READY, ends it on STOPPING, and asks the window's event loop to exit when the session or the instance is being lost.
- A frame compositor. It runs one frame of the wait, begin, render and end protocol. It creates the per-eye swapchain set on the first rendered frame and keeps it from then on. It submits a two-view projection layer that shows view *i* through swapchain *i*.

**The desktop viewer** (`main.rs`) hands the compositor a callback. The callback updates the scene, then for every swapchain in order it:
- acquires an image and waits for it;
- points the viewport at the swapchain's rectangle;
- draws the scene with the camera of the matching view;
- releases the image.

The window's event loop dispatches each tick to the driver.

**The browser driver** (`webxr-webgl`) guards `start` and `stop` with a running flag. `start` spawns one task on a local executor. That task stores the granted session and reference space in cells it shares with the driver. `stop` ends the stored session.

## How it is modelled

- Nothing outside the drivers is executed. Every call a driver makes on the runtime, the GL context or the window is an `Action` value, and the OpenXR driver appends its calls to a ghost `trace`. What the outside world replies is a parameter of the operation that receives it: the queued events, the frame state, the located views, the swapchain handles the runtime creates, the images and the acquired index.
- The ordering the OpenXR runtime demands is the automaton `Protocol.Replay` (`protocol.dfy`). A trace is legal when replaying it from `Protocol.Initial` does not get stuck.
  - Frames run wait, then begin, then end.
  - Frames happen only while the session is open, and never overlap.
  - The session is begun or ended only between frames.
- `OpenXrDriver.OpenXR` (`openxr.dfy`) is a class with the source's mutable fields: `sessionRunning`, `swapchains`, and the fixed setup. It also has the ghost `trace`.
  - `ProcessEvents` is a loop that is proved to compute the left fold `Drain` of the per-event `Step`.
  - `WaitFrame` is proved to append exactly the calls of the specification function `Frame` and to leave the swapchain set `Frame` gives.
  - `Valid` keeps `Invariant`:
    - the trace obeys the protocol and stands between frames;
    - the session is open exactly when `sessionRunning` is set;
    - the swapchains were created exactly once if the set exists, and never otherwise.
- The frame callback is a partial function from the located views, the frame state and the swapchain set to its calls (`OpenXrDriver.FrameFn`). It returns only its draw calls: it has no access to the frame stream, and none to the session or to the swapchain set beyond reading it. `Viewer.Callback` is the viewer's callback and `Viewer.DrawViews` its loop. A second automaton, `Viewer.ImageReplay`, states the per-swapchain image protocol: acquire, then wait, then draw, then release.
- `Viewer.App.HandleEvent` is one tick of the window's event loop.
- `Protocol.Next` does not pair session begins with ends: a begin while open, or an end while closed, is accepted. The driver issues them as the runtime's READY and STOPPING changes arrive, and keeping those in order is the runtime's part.
- The browser driver (`webxr.dfy`) is a value `WebState`, plus a class `WebXrDriver.WebXR` whose methods are proved against the functions `AfterStart`, `AfterStop` and `RunOne`.
  - Each pending start task is a `Task` with its stage: spawned, or awaiting the support check, the session or the reference space.
  - Each promise's outcome at a poll is a `Resolution`.
  - The `RefCell` borrows are modelled. A task awaiting its session holds the session cell mutably: its `borrow_mut` at webxr.rs:57 is taken before the await. A task awaiting its reference space holds the session cell shared (line 64) and the reference-space cell mutably (line 75). A conflicting borrow panics (`None`).
  - Sessions are numbered in the order the browser grants them.
  - The browser-side record of ended and granted sessions is kept, so that "every session ended once" can be stated.
- Integers of the C interfaces are `u32` and `i32` newtypes. Two `as _` casts are `Xr.AsI32`, which wraps:
  - the runtime's unsigned recommended sizes cast to the signed extent of OpenXR's `Rect2Di` (openxr.rs:230-231);
  - the window's unsigned size cast to GL's signed viewport (main.rs:133).

## Model

| member | source | states |
|---|---|---|
| OpenXrDriver.OpenXR.constructor | openxr-opengl/src/openxr.rs:134-152 | a new driver is not running, has no swapchain set and has made no call |
| OpenXrDriver.OpenXR.ProcessEvents | openxr-opengl/src/openxr.rs:155-185 | running flag, exit request and calls after the loop are the left fold of the per-event transition over the queue in arrival order; the swapchain set is untouched; the invariant is kept |
| OpenXrDriver.Step | openxr-opengl/src/openxr.rs:158-183 | one event appends a session begin for READY, a session end for STOPPING and nothing otherwise; the running flag is the one the reference `LastRunning` gives for that event; exit is requested exactly for EXITING, LOSS_PENDING and instance loss, and the request is otherwise kept |
| OpenXrDriver.Drain | openxr-opengl/src/openxr.rs:156-184 | draining only appends calls, at most one per event, and never withdraws an exit request |
| OpenXrDriver.DrainConcat | openxr-opengl/src/openxr.rs:156-184 | draining a queue in two polls is draining it in one |
| OpenXrDriver.DrainRunning | openxr-opengl/src/openxr.rs:161-169 | after draining, the running flag is the one the last READY (true) or STOPPING (false) event set, whatever it was before; without such an event it is unchanged |
| OpenXrDriver.DrainExit | openxr-opengl/src/openxr.rs:170-178 | exit is requested after draining if and only if it was requested before or some EXITING, LOSS_PENDING or instance-loss event was queued |
| OpenXrDriver.StepCounts | openxr-opengl/src/openxr.rs:162-182 | one event appends a session begin if it is READY, a session end if it is STOPPING, and no call otherwise |
| OpenXrDriver.DrainCalls | openxr-opengl/src/openxr.rs:156-184 | draining only appends: one session begin per READY event, one session end per STOPPING event, nothing else |
| OpenXrDriver.StepKeeps | openxr-opengl/src/openxr.rs:162-169 | one event keeps the protocol invariant: begin and end happen between frames and the flag follows the session |
| OpenXrDriver.DrainKeeps | openxr-opengl/src/openxr.rs:155-185 | draining any queue keeps the invariant |
| OpenXrDriver.OpenXR.WaitFrame | openxr-opengl/src/openxr.rs:187-310 | appends exactly the calls of one frame, leaves the swapchain set the frame gives, never changes the running flag, and keeps the invariant unless it panics on a missing format |
| OpenXrDriver.OpenXR.ObtainSwapchains | openxr-opengl/src/openxr.rs:217-261 | returns the cached set with no call, or creates one swapchain per view and stores the set; on a missing format the set stays absent |
| OpenXrDriver.FrameIdle | openxr-opengl/src/openxr.rs:197-200 | outside a running session a frame makes no call and leaves the swapchain set as it was |
| OpenXrDriver.FrameShape | openxr-opengl/src/openxr.rs:202-215 | while running, a frame makes one wait, then one begin, then calls outside the frame protocol, then one end with the predicted display time and blend mode; the end carries the layer if and only if the frame should render, and the callback runs only then |
| OpenXrDriver.FramePanics | openxr-opengl/src/openxr.rs:237-240 | a frame panics if and only if it is running, should render, has no swapchain set yet and SRGB8_ALPHA8 is not offered; the calls are then wait, begin and the two enumerations |
| OpenXrDriver.InfoFor | openxr-opengl/src/openxr.rs:244-255 | each creation request asks for an SRGB8_ALPHA8 colour-attachment and sampled image at the view's recommended width, height and sample count, with one face, one layer and one mip level |
| OpenXrDriver.Obtain | openxr-opengl/src/openxr.rs:217-261 | a cached set is reused with no call; otherwise the view configuration is enumerated first, and a set, one swapchain per view with one creation each, is made exactly when SRGB8_ALPHA8 is offered or there is no view |
| OpenXrDriver.Frame | openxr-opengl/src/openxr.rs:187-310 | a frame sleeps exactly when not running, skips exactly when running and not asked to render, and panics exactly when it must create the set and SRGB8_ALPHA8 is missing; sleeping and skipping keep the set, a panic leaves none, and rendering leaves one swapchain per view, the cached one if there was one |
| OpenXrDriver.Drawing | openxr-opengl/src/openxr.rs:217-282 | the drawing part is the obtaining calls, then the action sync, then the view location at the predicted display time in the stage space, then exactly the callback's calls |
| OpenXrDriver.CreateSwapchains | openxr-opengl/src/openxr.rs:222-260 | the set is made if and only if SRGB8_ALPHA8 is offered (or there is no view); then one swapchain and two calls per view, exactly one creation per view; a panic leaves a single format query; no protocol call |
| OpenXrDriver.CreationLayout | openxr-opengl/src/openxr.rs:222-258 | swapchain i has the runtime's i-th handle and the rectangle of view i, and is created from view i's recommendation right after the i-th format query |
| OpenXrDriver.RectFor | openxr-opengl/src/openxr.rs:227-233 | offset (0,0); extent the recommended width and height of the view, each cast to signed 32 bits with wrap-around, so equal to the recommendation below 2^31 |
| OpenXrDriver.FrameSwapchains | openxr-opengl/src/openxr.rs:217-261 | a frame that sleeps or skips keeps the set and creates nothing; a rendered frame with a set reuses it unchanged; a rendered frame without one creates exactly one swapchain per view, swapchain i built from view i's recommendation |
| OpenXrDriver.RenderedCreations | openxr-opengl/src/openxr.rs:217-261 | a rendered frame creates no swapchain if the set existed and one per view otherwise |
| OpenXrDriver.FrameCallback | openxr-opengl/src/openxr.rs:263-283 | on a rendered frame the callback's calls appear exactly once, directly after the action sync and the view location at the predicted display time in the stage space, and directly before the frame end |
| OpenXrDriver.LayerFor | openxr-opengl/src/openxr.rs:288-307 | the layer is in the stage space and lists two views in order, view i with its own pose and fov and swapchain i's handle and rectangle |
| OpenXrDriver.FrameKeeps | openxr-opengl/src/openxr.rs:187-310 | every frame that does not panic keeps the invariant: the trace still obeys the protocol, and swapchains are created exactly once over the driver's life |
| OpenXrDriver.FrameBracket | openxr-opengl/src/openxr.rs:202-204 | a wait, a begin, calls outside the frame protocol and an end, after a legal trace between frames, leave a legal trace between frames |
| OpenXrDriver.ObtainCalls | openxr-opengl/src/openxr.rs:217-261 | obtaining the set makes no protocol call; it creates nothing if cached and one swapchain per view otherwise |
| OpenXrDriver.DrawingCalls | openxr-opengl/src/openxr.rs:263-282 | the action sync, the view location and the callback make no protocol call and no swapchain |
| OpenXrDriver.DrawingNeutral | openxr-opengl/src/openxr.rs:217-282 | every call between begin and end of a rendered frame is outside the frame protocol |
| OpenXrDriver.RenderedCalls | openxr-opengl/src/openxr.rs:202-309 | a rendered frame is wait, begin, the drawing part, end, and keeps the set it obtained |
| OpenXrDriver.NoCreations | openxr-opengl/src/openxr.rs:206-215 | calls without a creation create nothing |
| OpenXrDriver.TraceBalanced | openxr-opengl/src/openxr.rs:202-215 | a valid driver has waited for, begun and ended the same number of frames over its life |
| Protocol.ReplayBalanced | openxr-opengl/src/openxr.rs:202-215 | in any legal trace, waits, begins and ends of frames are equal in number, counting the frame under way at either end |
| Protocol.ReplayEmbed | openxr-opengl/src/openxr.rs:276-282 | the callback's calls cannot advance or break the frame protocol |
| Protocol.ReplayConcat | openxr-opengl/src/openxr.rs:187-310 | replaying two traces in turn is replaying their concatenation |
| Protocol.ReplayNeutral | openxr-opengl/src/openxr.rs:263-274 | calls outside the protocol leave it where it was |
| Xr.AsI32 | openxr-opengl/src/openxr.rs:230-231 | a cast from unsigned to signed 32 bits keeps the bits: equal modulo 2^32, non-negative exactly below 2^31, and then equal |
| Viewer.DrawFrame | openxr-opengl/src/main.rs:90-128 | the callback makes one scene update at the predicted display time, first, and nine calls per swapchain |
| Viewer.Callback | openxr-opengl/src/main.rs:90-128 | the viewer's callback accepts every frame where each swapchain has a view and an acquired index within its images, and then makes one call plus nine per swapchain |
| Viewer.MirrorCalls | openxr-opengl/src/main.rs:130-138 | the mirror binds the window's framebuffer, sets a viewport at the origin with the window's width and height (as signed values), renders the scene and swaps the buffers, in that order |
| Viewer.DrawViews | openxr-opengl/src/main.rs:90-128 | the callback's loop makes exactly the calls of the scene update followed by every eye in swapchain order |
| Viewer.EyeCalls | openxr-opengl/src/main.rs:95-126 | each eye makes nine calls |
| Viewer.EyesUpTo | openxr-opengl/src/main.rs:93-127 | the first k eyes make nine calls each |
| Viewer.EyesPrefix | openxr-opengl/src/main.rs:93-127 | the first j eyes' calls are a prefix of the first k eyes' calls |
| Viewer.EyeBlocks | openxr-opengl/src/main.rs:91-127 | the first call updates the scene for the predicted display time; block i draws view i into swapchain i |
| Viewer.EyeImages | openxr-opengl/src/main.rs:96-125 | per eye: its image is acquired and waited for before it is attached, is still held through the render, and is released only at the end; other swapchains' images are untouched |
| Viewer.ImageReplayConcat | openxr-opengl/src/main.rs:99-125 | the image protocol over two call sequences is the protocol over their concatenation |
| Viewer.ImageReplayIdle | openxr-opengl/src/main.rs:96-125 | calls that do not touch a swapchain's image leave it as it was |
| Viewer.EyesImages | openxr-opengl/src/main.rs:93-127 | after any number of eyes, every swapchain's image is free again: none leaked, none released twice |
| Viewer.DrawFrameProtocol | openxr-opengl/src/main.rs:91-127 | the callback follows the image protocol for every swapchain, renders exactly once per swapchain and updates the scene exactly once |
| Viewer.EyesRenders | openxr-opengl/src/main.rs:93-127 | k eyes render k times and never update the scene |
| Viewer.EyeRenders | openxr-opengl/src/main.rs:123 | one eye renders once |
| Viewer.CallbackAccepted | openxr-opengl/src/main.rs:93-101 | the callback accepts any stereo frame when every acquired index lies within its images |
| Viewer.App.constructor | openxr-opengl/src/main.rs:61-65 | the application holds the driver and the offscreen framebuffer and has made no window call |
| Viewer.App.HandleEvent | openxr-opengl/src/main.rs:67-142 | the exit request starts as polling; close or Escape requests exit; a resize resizes the context; clearing the main events drains the runtime's events and requests a redraw; a redraw runs one frame with the viewer's callback, then mirrors the scene into the window; it panics if and only if the frame does |
| Viewer.ClearedTickExit | openxr-opengl/src/main.rs:85-88 | a tick that drains events requests exit if and only if one of the queued events asks for it |
| Viewer.RedrawDraws | openxr-opengl/src/main.rs:89-128 | on a rendered redraw the driver's calls contain the viewer's per-eye drawing, for the views just located and the swapchain set the frame used, just before the frame end |
| WebXrDriver.WebXR.constructor | webxr-webgl/src/webxr.rs:18-25 | a new driver is not running, stores no session or reference space, and has no task |
| WebXrDriver.WebXR.Start | webxr-webgl/src/webxr.rs:27-110 | start acts as its specification function: no-op while running; otherwise running with one new task sharing the cells |
| WebXrDriver.AfterStart | webxr-webgl/src/webxr.rs:33-43 | start leaves the driver running; while running it changes nothing; otherwise it adds one new task bound to the same cells, whose stored session and space it keeps |
| WebXrDriver.AfterStop | webxr-webgl/src/webxr.rs:112-120 | a stop that does not panic leaves the driver stopped or unchanged |
| WebXrDriver.StartIdempotent | webxr-webgl/src/webxr.rs:33-36 | a second start changes nothing, and the driver is running after start |
| WebXrDriver.StartSpawns | webxr-webgl/src/webxr.rs:33-43 | start spawns exactly one task, and only when not running; it keeps the pending tasks and the cells |
| WebXrDriver.WebXR.Stop | webxr-webgl/src/webxr.rs:112-120 | stop panics exactly when its specification function does, and otherwise acts as it |
| WebXrDriver.StopGuard | webxr-webgl/src/webxr.rs:112-120 | stop panics if and only if it is running while a task awaits its session, holding the session cell mutably; otherwise it changes the driver if and only if it is running with a session stored, and then ends that session and stops running, the cell keeping the session; a stop that does not panic keeps the tasks and the cell, and a second stop changes nothing |
| WebXrDriver.WebXR.ProcessEvents | webxr-webgl/src/webxr.rs:122-124 | one run of the executor; it panics exactly when a polled task panics |
| WebXrDriver.Advance | webxr-webgl/src/webxr.rs:43-80 | a poll that does not panic keeps the running flag, the ended sessions and the cells; a task that stays pending changes no other task; a completed task is removed from the pool, the others kept in order; at most one session is granted, numbered next |
| WebXrDriver.PollFrom | webxr-webgl/src/webxr.rs:122-124 | polling on from task i keeps the running flag, the ended sessions and the cells, and grants at most one new session per task polled, numbered in order |
| WebXrDriver.RunOne | webxr-webgl/src/webxr.rs:122-124 | a run of the executor keeps the running flag, the ended sessions and the cells, and grants sessions only with the next numbers |
| WebXrDriver.PollFromBounds | webxr-webgl/src/webxr.rs:122-124 | a run of the executor completes at most one task, spawns none, and leaves the running flag and the ended sessions alone |
| WebXrDriver.RunOneBounds | webxr-webgl/src/webxr.rs:122-124 | the same, from the first task |
| WebXrDriver.RunOneIdle | webxr-webgl/src/webxr.rs:122-124 | with no pending task, pumping changes nothing |
| WebXrDriver.PollSpawned | webxr-webgl/src/webxr.rs:44-50 | a new task runs to the support check on its first poll |
| WebXrDriver.PollSupported | webxr-webgl/src/webxr.rs:48-58 | a task told immersive VR is supported goes on to request a session |
| WebXrDriver.PollGranted | webxr-webgl/src/webxr.rs:57-76 | a granted session is stored in the start task's cell and the reference space requested |
| WebXrDriver.PollSpace | webxr-webgl/src/webxr.rs:75-108 | a granted reference space is stored and the start task completes |
| WebXrDriver.RunSingle | webxr-webgl/src/webxr.rs:122-124 | with one pending task, a run of the executor is one poll of it |
| WebXrDriver.ExecThrough | webxr-webgl/src/webxr.rs:27-124 | a sequence of calls that steps through given states ends in the last one |
| WebXrDriver.ExecConcat | webxr-webgl/src/webxr.rs:27-124 | running two call sequences in turn is running their concatenation |
| WebXrDriver.FirstRunStores | webxr-webgl/src/webxr.rs:27-110 | start, then grants of support, session and space, leave session 0 and its space stored and no task pending |
| WebXrDriver.SecondGrantStores | webxr-webgl/src/webxr.rs:44-62 | a freshly spawned task granted support and a session stores the next session in the shared cell |
| WebXrDriver.StaleSessionStop | webxr-webgl/src/webxr.rs:112-120 | as written, a restart that stops before the new task is first polled ends session 0 twice and leaves session 1 live while not running, so later stops do nothing |
| WebXrDriver.MiddleEndsTwice | webxr-webgl/src/webxr.rs:112-120 | after a first run, stop, start and stop end session 0 twice and leave the new task spawned |
| WebXrDriver.StopWhileRequesting | webxr-webgl/src/webxr.rs:57-62 | a stop while the only task awaits its session panics, the task holding the session cell mutably |
| WebXrDriver.SupportWhileBorrowed | webxr-webgl/src/webxr.rs:57-80 | a task told VR is supported panics while another task of the same cells awaits its reference space |
| WebXrDriver.AfterStartFresh | webxr-webgl/src/webxr.rs:33-43 | the corrected start leaves the driver running; while running it changes nothing; otherwise it gives the new task fresh, empty cells of a newer generation |
| WebXrDriver.GoodInitial | webxr-webgl/src/webxr.rs:18-25 | a new driver satisfies the corrected driver's invariant |
| WebXrDriver.GoodIntended | webxr-webgl/src/webxr.rs:112-120 | the invariant gives the guard: no session ended twice, and none left live once stopped |
| WebXrDriver.StartFreshKeeps | webxr-webgl/src/webxr.rs:27-43 | the corrected start keeps the invariant |
| WebXrDriver.StopKeeps | webxr-webgl/src/webxr.rs:112-120 | stop keeps the invariant |
| WebXrDriver.AdvanceKeeps | webxr-webgl/src/webxr.rs:43-80 | every poll that does not panic keeps the invariant |
| WebXrDriver.GrantKeeps | webxr-webgl/src/webxr.rs:57-62 | a session grant while running, with no other task waiting, stores a fresh session and keeps the invariant |
| WebXrDriver.PollFromKeeps | webxr-webgl/src/webxr.rs:122-124 | a run of the executor keeps the invariant |
| WebXrDriver.CorrectedRuns | webxr-webgl/src/webxr.rs:27-124 | with the corrected start, every sequence of starts, stops and pumps, with any browser replies, keeps the invariant and the guard |
| WebXrDriver.CorrectedFromInitial | webxr-webgl/src/webxr.rs:18-124 | from a new driver with the corrected start, every run keeps the guard |
| WebXrDriver.WaitingConcat | webxr-webgl/src/webxr.rs:41-43 | the start tasks before their grant in two lists add up |
| WebXrDriver.WaitingSplit | webxr-webgl/src/webxr.rs:41-43 | the start tasks before their grant are those before, at and after any index |
| WebXrDriver.WaitingUpdate | webxr-webgl/src/webxr.rs:41-43 | replacing one task changes the count of tasks before their grant by that task alone |

## Left out

- `OpenXR::new` (openxr.rs:32-153) is a chain of foreign runtime calls. Only the state it leaves is modelled. The runtime's view recommendations, swapchain formats, stage space and blend mode are fixed parameters (`Setup`).
- Polling the runtime's event queue is not a call in the model. The queue's contents are a parameter of `ProcessEvents`, and log output is dropped.
- The 1/60 s sleep outside a running session is timing. The model returns with no call.
- The matrix functions `pose_transform_matrix` and `fov_perspective_projection_matrix` are floating-point math. Poses, fields of view and the camera set from them are opaque tokens (`SetCamera(view)`).
- The scene (shaders, buffers, uniforms), the window backend and `webxr-webgl/src/lib.rs` are not part of this model. Their calls appear only as `UpdateScene`, `RenderScene` and `WindowCall` actions.
- The `unwrap` of every runtime and GL reply: each is taken to succeed. The only panic modelled in the OpenXR driver is the missing SRGB8_ALPHA8 format.
- The projection layer indexes views and swapchains 0 and 1. The model requires the runtime to describe the stereo configuration with two views and to locate two views (`Stereo`, `RepliesFit`). It does not model the index panic a misbehaving runtime would cause.
- `OpenXrDriver.FrameFn`: the source's callback receives the session, the interaction state and the swapchain set mutably (openxr.rs:189-195, 276-282), so it could begin or end the session, request exit, or resize or replace the set. The model's callback only returns draw calls. `Protocol.ReplayEmbed`, `OpenXrDriver.FrameKeeps` and the reuse clause of `OpenXrDriver.FrameSwapchains` therefore hold for callbacks that do neither. The viewer's callback is one: its scene update only reads action state through the session, and its loop only reads the set (main.rs:90-128).
- The callback is a ghost function of the views, frame state and swapchain set. The model does not capture its mutation of the scene's matrices, or a release skipped by a panic inside it.
- The viewer does not model glutin's own handling of `ControlFlow::Exit` after this tick. `HandleEvent` reports the request; the event loop that honours it is outside the model.
- The `as _` casts to `i32` wrap (`AsI32`). The width and height the runtime recommends are taken as they come.
- `WebXrDriver.WebXR.ProcessEvents`: `try_run_one` is modelled as polling each pending task once, in spawn order, and stopping after the first one completes. A panic in a task ends the run (`None`). Waking and re-polling a task inside one run is not modelled.
- The async body of `start`:
  - A rejected support check is not modelled; only a resolved `false`, which panics, is.
  - A rejected session or reference-space request is not modelled either, so the `unwrap` panics are not captured.
  - The WebGL layer set-up and the animation-frame loop installed at the end are not modelled. Only the session and reference space it stores are.
- Borrow panics are modelled at the support-true poll (webxr.rs:57), at the session grant (lines 64 and 75) and at `stop` (line 116). Borrows of the closure cell at lines 82-107 and in the animation-frame callback are not modelled, since the callback is left out.
- `WebXrDriver.WebXR.Start`, `WebXrDriver.WebXR.Stop` and `WebXrDriver.WebXR.ProcessEvents` are proved against the specification functions `AfterStart`, `AfterStop` and `RunOne`. The properties are proved about those functions.
- The WebGL context and frame callback passed to `start` are not modelled. `session.end()`'s promise is dropped in the source, and the model records the end call.

## Findings

| source | as written | input that shows it | evidently intended | confidence | as-written member | corrected member |
|---|---|---|---|---|---|---|
| webxr-webgl/src/webxr.rs:112-120 | `stop` ends the session in the shared cell but never clears it, and `start` hands each new task the same cells (lines 38-39), so a stop after a restart finds the previous, already ended session | start; support, session 0 and its space granted; stop; start; stop before the new task is first polled; the new task's support and session 1 granted | a stop ends only the session of the latest start, each session is ended at most once, and no granted session is left live once the driver is stopped | not executed | WebXrDriver.StaleSessionStop | WebXrDriver.CorrectedFromInitial |

The corrected start (`WebXrDriver.AfterStartFresh`) gives each started task fresh, empty session and reference-space cells. `WebXrDriver.CorrectedRuns` proves the invariant `Good` for every sequence of starts, stops and pumps, whatever the browser replies. `Good` implies the guard `Intended`.
