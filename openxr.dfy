/**
 * The OpenXR driver of the desktop viewer: the session state machine that
 * drains the runtime's event queue, and the frame compositor that runs one
 * frame of the wait / begin / render / end protocol, creating the per-eye
 * swapchains on the first rendered frame.
 *
 * The runtime is not modelled beyond its replies: the events it queues, the
 * frame state, the located views and the swapchain handles it hands out are
 * parameters, and every call the driver makes is appended to the ghost
 * `trace` of the `OpenXR` object.
 */
module OpenXrDriver {
  import opened Xr
  import opened Protocol

  /** One swapchain of the set: the runtime's handle and the rectangle drawn into. */
  datatype Swapchain = Swapchain(handle: SwapchainHandle, rect: Rect)

  // ===========================================================================
  // Session state machine

  /** What draining events can change: the running flag, the exit request, the calls made. */
  datatype Lifecycle = Lifecycle(running: bool, flow: ControlFlow, calls: seq<Action>)

  /** Events after which the window's event loop is told to exit. */
  predicate RequestsExit(e: Event) {
    match e
    case SessionStateChanged(s) => s == Exiting || s == LossPending
    case InstanceLossPending => true
    case _ => false
  }

  /**
   * The effect of one polled event: READY begins the session and STOPPING
   * ends it, each with one call; the exit-requesting events set the exit
   * request; nothing else changes anything.
   */
  function Step(l: Lifecycle, e: Event): (r: Lifecycle)
    ensures r.calls == l.calls + SessionCallsOf(e)
    ensures r.running == LastRunning([e], l.running)
    ensures r.flow == if RequestsExit(e) then Exit else l.flow
  {
    match e
    case SessionStateChanged(Ready) => Lifecycle(true, l.flow, l.calls + [SessionBegin(VIEW_TYPE)])
    case SessionStateChanged(Stopping) => Lifecycle(false, l.flow, l.calls + [SessionEnd])
    case SessionStateChanged(Exiting) => l.(flow := Exit)
    case SessionStateChanged(LossPending) => l.(flow := Exit)
    case SessionStateChanged(_) => l
    case InstanceLossPending => l.(flow := Exit)
    case EventsLost(_) => l   // only the number of lost events is logged
    case _ => l
  }

  /** The effect of draining `events`, applied in arrival order. */
  function Drain(l: Lifecycle, events: seq<Event>): (r: Lifecycle)
    ensures l.calls <= r.calls && |r.calls| <= |l.calls| + |events|
    ensures l.flow == Exit ==> r.flow == Exit
    decreases |events|
  {
    if events == [] then l else Drain(Step(l, events[0]), events[1..])
  }

  /** Batch-size independence: draining a queue in two polls is draining it in one. */
  lemma {:induction false} DrainConcat(l: Lifecycle, a: seq<Event>, b: seq<Event>)
    ensures Drain(l, a + b) == Drain(Drain(l, a), b)
    decreases |a|
  {
    if a == [] {
      assert a + b == b;
    } else {
      assert (a + b)[0] == a[0];
      assert (a + b)[1..] == a[1..] + b;
      DrainConcat(Step(l, a[0]), a[1..], b);
    }
  }

  /**
   * Reference definition of the running flag after a queue: the last READY or
   * STOPPING state change decides it, and without one it is what it was.
   */
  function LastRunning(events: seq<Event>, initially: bool): bool
    decreases |events|
  {
    if events == [] then initially
    else match events[|events| - 1]
      case SessionStateChanged(Ready) => true
      case SessionStateChanged(Stopping) => false
      case _ => LastRunning(events[..|events| - 1], initially)
  }

  /** The running flag after draining is the one the last READY or STOPPING event set. */
  lemma {:induction false} DrainRunning(l: Lifecycle, events: seq<Event>)
    ensures Drain(l, events).running == LastRunning(events, l.running)
    decreases |events|
  {
    if events != [] {
      var init, last := events[..|events| - 1], events[|events| - 1];
      assert events == init + [last];
      DrainConcat(l, init, [last]);
      DrainRunning(l, init);
    }
  }

  /**
   * Exit is requested after draining exactly when it was requested before or
   * some event in the queue asks for it; otherwise the request is untouched.
   */
  lemma {:induction false} DrainExit(l: Lifecycle, events: seq<Event>)
    ensures Drain(l, events).flow ==
      if l.flow == Exit || exists i :: 0 <= i < |events| && RequestsExit(events[i]) then Exit else l.flow
    decreases |events|
  {
    if events != [] {
      DrainExit(Step(l, events[0]), events[1..]);
      forall i | 0 < i < |events|
        ensures RequestsExit(events[i]) == RequestsExit(events[1..][i - 1])
      {
      }
      if RequestsExit(events[0]) {
        assert Step(l, events[0]).flow == Exit;
      }
    }
  }

  /** The calls one event makes. */
  function SessionCallsOf(e: Event): seq<Action> {
    if e == SessionStateChanged(Ready) then [SessionBegin(VIEW_TYPE)]
    else if e == SessionStateChanged(Stopping) then [SessionEnd]
    else []
  }

  /** One event appends at most one call: a session begin for READY, a session end for STOPPING. */
  lemma StepCounts(l: Lifecycle, e: Event)
    ensures var n := Step(l, e);
      && l.calls <= n.calls
      && Count(n.calls, SessionBegin(VIEW_TYPE)) == Count(l.calls, SessionBegin(VIEW_TYPE)) + Count([e], SessionStateChanged(Ready))
      && Count(n.calls, SessionEnd) == Count(l.calls, SessionEnd) + Count([e], SessionStateChanged(Stopping))
      && |n.calls| == |l.calls| + Count([e], SessionStateChanged(Ready)) + Count([e], SessionStateChanged(Stopping))
  {
    var n := Step(l, e);
    CountSingle(e, SessionStateChanged(Ready));
    CountSingle(e, SessionStateChanged(Stopping));
    var added := SessionCallsOf(e);
    assert n.calls == l.calls + added;
    CountConcat(l.calls, added, SessionBegin(VIEW_TYPE));
    CountConcat(l.calls, added, SessionEnd);
    if added != [] {
      CountSingle(added[0], SessionBegin(VIEW_TYPE));
      CountSingle(added[0], SessionEnd);
    }
  }

  /**
   * Draining only appends to the calls: one session begin per READY event and
   * one session end per STOPPING event, and nothing else.
   */
  lemma {:induction false} DrainCalls(l: Lifecycle, events: seq<Event>)
    ensures var d := Drain(l, events);
      && l.calls <= d.calls
      && Count(d.calls, SessionBegin(VIEW_TYPE)) ==
           Count(l.calls, SessionBegin(VIEW_TYPE)) + Count(events, SessionStateChanged(Ready))
      && Count(d.calls, SessionEnd) == Count(l.calls, SessionEnd) + Count(events, SessionStateChanged(Stopping))
      && |d.calls| == |l.calls| + Count(events, SessionStateChanged(Ready)) + Count(events, SessionStateChanged(Stopping))
    decreases |events|
  {
    if events != [] {
      var e := events[0];
      StepCounts(l, e);
      DrainCalls(Step(l, e), events[1..]);
      assert events == [e] + events[1..];
      CountConcat([e], events[1..], SessionStateChanged(Ready));
      CountConcat([e], events[1..], SessionStateChanged(Stopping));
    }
  }

  // ===========================================================================
  // Swapchain set

  /** The number of swapchain creations in a trace. */
  function Creations(calls: seq<Action>): nat {
    if calls == [] then 0 else (if calls[0].CreateSwapchain? then 1 else 0) + Creations(calls[1..])
  }

  lemma {:induction false} CreationsConcat(a: seq<Action>, b: seq<Action>)
    ensures Creations(a + b) == Creations(a) + Creations(b)
    decreases |a|
  {
    if a == [] {
      assert a + b == b;
    } else {
      assert (a + b)[1..] == a[1..] + b;
      CreationsConcat(a[1..], b);
    }
  }

  /** The creation request for one view: SRGB8_ALPHA8 colour target at the recommended size. */
  function InfoFor(v: ViewConfigView): (r: SwapchainCreateInfo)
    ensures r.format == SRGB8_ALPHA8 && r.usage == {ColorAttachment, Sampled}
    ensures r.width == v.recommendedImageRectWidth && r.height == v.recommendedImageRectHeight
    ensures r.sampleCount == v.recommendedSwapchainSampleCount
    ensures r.faceCount == 1 && r.arraySize == 1 && r.mipCount == 1
  {
    SwapchainCreateInfo(
      usage := {ColorAttachment, Sampled},
      format := SRGB8_ALPHA8,
      sampleCount := v.recommendedSwapchainSampleCount,
      width := v.recommendedImageRectWidth,
      height := v.recommendedImageRectHeight,
      faceCount := 1,
      arraySize := 1,
      mipCount := 1)
  }

  /**
   * The rectangle for one view: at the origin, as wide and as high as the
   * runtime recommends (the unsigned sizes are cast to signed).
   */
  function RectFor(v: ViewConfigView): (r: Rect)
    ensures r.x == 0 && r.y == 0
    ensures r.width == AsI32(v.recommendedImageRectWidth) && r.height == AsI32(v.recommendedImageRectHeight)
    ensures v.recommendedImageRectWidth < 0x8000_0000 ==> r.width as int == v.recommendedImageRectWidth as int
    ensures v.recommendedImageRectHeight < 0x8000_0000 ==> r.height as int == v.recommendedImageRectHeight as int
  {
    Rect(0, 0, AsI32(v.recommendedImageRectWidth), AsI32(v.recommendedImageRectHeight))
  }

  /** Calls made and swapchains made while creating the set; `None` when creation panicked. */
  datatype Creation = Creation(calls: seq<Action>, made: Option<seq<Swapchain>>)

  /**
   * One swapchain per view, in view order, each after a query of the
   * supported formats; `handles` are the runtime's replies to the creations.
   * The first view already panics when SRGB8_ALPHA8 is not offered.
   */
  function CreateSwapchains(configs: seq<ViewConfigView>, formats: seq<int>, handles: seq<SwapchainHandle>): (r: Creation)
    requires |handles| == |configs|
    ensures r.made.Some? <==> configs == [] || SRGB8_ALPHA8 in formats
    ensures r.made.None? ==> r.calls == [EnumerateSwapchainFormats]
    ensures r.made.Some? ==> |r.made.value| == |configs| && |r.calls| == 2 * |configs| && Creations(r.calls) == |configs|
    ensures forall a :: a in r.calls ==> Neutral(a)
    decreases |configs|
  {
    if configs == [] then Creation([], Some([]))
    else if SRGB8_ALPHA8 !in formats then Creation([EnumerateSwapchainFormats], None)
    else
      var rest := CreateSwapchains(configs[1..], formats, handles[1..]);
      var first := [EnumerateSwapchainFormats, CreateSwapchain(InfoFor(configs[0]))];
      CreationsConcat(first, rest.calls);
      assert Creations(first) == 1;
      Creation(first + rest.calls, Some([Swapchain(handles[0], RectFor(configs[0]))] + rest.made.value))
  }

  /**
   * Swapchain i is made from view i's recommendation and the runtime's i-th
   * handle, after the i-th query of the formats.
   */
  lemma {:induction false} CreationLayout(configs: seq<ViewConfigView>, formats: seq<int>, handles: seq<SwapchainHandle>)
    requires |handles| == |configs|
    ensures var r := CreateSwapchains(configs, formats, handles);
      r.made.Some? ==> forall i :: 0 <= i < |configs| ==>
        && r.made.value[i] == Swapchain(handles[i], RectFor(configs[i]))
        && r.calls[2 * i] == EnumerateSwapchainFormats
        && r.calls[2 * i + 1] == CreateSwapchain(InfoFor(configs[i]))
    decreases |configs|
  {
    if configs != [] && SRGB8_ALPHA8 in formats {
      var r := CreateSwapchains(configs, formats, handles);
      var rest := CreateSwapchains(configs[1..], formats, handles[1..]);
      var first := [EnumerateSwapchainFormats, CreateSwapchain(InfoFor(configs[0]))];
      var calls, made := first + rest.calls, [Swapchain(handles[0], RectFor(configs[0]))] + rest.made.value;
      assert r == Creation(calls, Some(made));
      CreationLayout(configs[1..], formats, handles[1..]);
      forall i | 0 <= i < |configs|
        ensures made[i] == Swapchain(handles[i], RectFor(configs[i]))
        ensures calls[2 * i] == EnumerateSwapchainFormats
        ensures calls[2 * i + 1] == CreateSwapchain(InfoFor(configs[i]))
      {
        if i > 0 {
          assert made[i] == rest.made.value[i - 1];
          assert calls[2 * i] == rest.calls[2 * (i - 1)];
          assert calls[2 * i + 1] == rest.calls[2 * (i - 1) + 1];
        }
      }
    }
  }

  // ===========================================================================
  // Frame compositor

  /** Fixed when the driver is built: the runtime's view recommendations and formats, the stage space, the blend mode. */
  datatype Setup = Setup(
    viewConfigViews: seq<ViewConfigView>,
    swapchainFormats: seq<int>,
    stage: Space,
    blendMode: BlendMode)

  /** The runtime describes the stereo view configuration with two views. */
  predicate Stereo(s: Setup) {
    |s.viewConfigViews| == ViewCount(VIEW_TYPE)
  }

  /** What the runtime replies during one frame: the frame state, the located views, the handles of swapchains it creates. */
  datatype FrameReplies = FrameReplies(frameState: FrameState, views: seq<View>, created: seq<SwapchainHandle>)

  /** The runtime locates one view per view of the configuration, and creates a swapchain per view. */
  predicate RepliesFit(s: Setup, rep: FrameReplies) {
    |rep.views| == |s.viewConfigViews| && |rep.created| == |s.viewConfigViews|
  }

  /** The frame callback: given the located views, the frame state and the swapchains, the calls it makes. */
  type FrameFn = (seq<View>, FrameState, seq<Swapchain>) --> seq<DrawCall>

  /** The callback accepts this frame's views and state with any full swapchain set. */
  ghost predicate CallbackAccepts(s: Setup, rep: FrameReplies, frameFn: FrameFn) {
    forall sc: seq<Swapchain> :: |sc| == |s.viewConfigViews| ==> frameFn.requires(rep.views, rep.frameState, sc)
  }

  /** How one call of the compositor ended. */
  datatype FrameOutcome = Slept | Skipped | Rendered | FormatUnsupported

  datatype FrameResult = FrameResult(outcome: FrameOutcome, calls: seq<Action>, swapchains: Option<seq<Swapchain>>)

  /** The projection layer submitted for a rendered frame: view i shown through swapchain i. */
  function LayerFor(stage: Space, views: seq<View>, sc: seq<Swapchain>): (r: CompositionLayer)
    requires |views| >= 2 && |sc| >= 2
    ensures r.space == stage && |r.views| == ViewCount(VIEW_TYPE)
    ensures forall i :: 0 <= i < |r.views| ==>
      r.views[i] == ProjectionView(views[i].pose, views[i].fov, SubImage(sc[i].handle, sc[i].rect))
  {
    Projection(stage, [
      ProjectionView(views[0].pose, views[0].fov, SubImage(sc[0].handle, sc[0].rect)),
      ProjectionView(views[1].pose, views[1].fov, SubImage(sc[1].handle, sc[1].rect))])
  }

  /** The opening of every frame while running: one wait, then one begin. */
  const Opening: seq<Action> := [FrameWait, FrameBegin]

  /** Calls and result of `get_or_insert_with`: the cached set, or a new one created once. */
  function Obtain(s: Setup, cached: Option<seq<Swapchain>>, rep: FrameReplies): (r: Creation)
    requires RepliesFit(s, rep)
    ensures cached.Some? ==> r.calls == [] && r.made == cached
    ensures cached.None? ==>
      && |r.calls| >= 1 && r.calls[0] == EnumerateViewConfigurationViews(VIEW_TYPE)
      && (r.made.Some? <==> s.viewConfigViews == [] || SRGB8_ALPHA8 in s.swapchainFormats)
      && (r.made.Some? ==> |r.made.value| == |s.viewConfigViews| && Creations(r.calls) == |s.viewConfigViews|)
  {
    if cached.Some? then Creation([], cached)
    else
      var c := CreateSwapchains(s.viewConfigViews, s.swapchainFormats, rep.created);
      Creation([EnumerateViewConfigurationViews(VIEW_TYPE)] + c.calls, c.made)
  }

  /** The calls of one compositor call, its outcome and the swapchain set afterwards. */
  function Frame(s: Setup, running: bool, cached: Option<seq<Swapchain>>, rep: FrameReplies, frameFn: FrameFn): (r: FrameResult)
    requires Stereo(s) && RepliesFit(s, rep) && CallbackAccepts(s, rep, frameFn)
    requires cached.Some? ==> |cached.value| == |s.viewConfigViews|
    ensures r.outcome == Slept <==> !running
    ensures r.outcome == Skipped <==> running && !rep.frameState.shouldRender
    ensures r.outcome == FormatUnsupported <==>
      running && rep.frameState.shouldRender && cached.None? && SRGB8_ALPHA8 !in s.swapchainFormats
    ensures r.outcome != Rendered ==> r.swapchains == (if r.outcome == FormatUnsupported then None else cached)
    ensures r.outcome == Rendered ==>
      && r.swapchains.Some? && |r.swapchains.value| == |s.viewConfigViews|
      && (cached.Some? ==> r.swapchains == cached)
  {
    if !running then FrameResult(Slept, [], cached)
    else
      var t := rep.frameState.predictedDisplayTime;
      if !rep.frameState.shouldRender then
        FrameResult(Skipped, Opening + [FrameEnd(t, s.blendMode, [])], cached)
      else
        var obtained := Obtain(s, cached, rep);
        if obtained.made.None? then FrameResult(FormatUnsupported, Opening + obtained.calls, None)
        else
          var sc := obtained.made.value;
          FrameResult(Rendered,
            Opening + Drawing(s, obtained, rep, frameFn) + [FrameEnd(t, s.blendMode, [LayerFor(s.stage, rep.views, sc)])],
            obtained.made)
  }

  /**
   * The calls between a rendered frame's begin and end: obtaining the set,
   * syncing the actions, locating the views, then the callback's calls.
   */
  function Drawing(s: Setup, obtained: Creation, rep: FrameReplies, frameFn: FrameFn): (r: seq<Action>)
    requires CallbackAccepts(s, rep, frameFn)
    requires obtained.made.Some? && |obtained.made.value| == |s.viewConfigViews|
    ensures obtained.calls <= r
    ensures |r| == |obtained.calls| + 2 + |frameFn(rep.views, rep.frameState, obtained.made.value)|
    ensures r[|obtained.calls|] == SyncActions
    ensures r[|obtained.calls| + 1] == LocateViews(VIEW_TYPE, rep.frameState.predictedDisplayTime, s.stage)
    ensures r[|obtained.calls| + 2..] == Embed(frameFn(rep.views, rep.frameState, obtained.made.value))
  {
    obtained.calls
      + [SyncActions]
      + [LocateViews(VIEW_TYPE, rep.frameState.predictedDisplayTime, s.stage)]
      + Embed(frameFn(rep.views, rep.frameState, obtained.made.value))
  }

  /** Obtaining the set creates it exactly when it was missing, and issues no protocol call. */
  lemma ObtainCalls(s: Setup, cached: Option<seq<Swapchain>>, rep: FrameReplies)
    requires RepliesFit(s, rep)
    ensures var o := Obtain(s, cached, rep);
      && Replay(Progress(true, Begun), o.calls) == Some(Progress(true, Begun))
      && (o.made.Some? ==> Creations(o.calls) == if cached.Some? then 0 else |s.viewConfigViews|)
  {
    var o := Obtain(s, cached, rep);
    if cached.None? {
      var c := CreateSwapchains(s.viewConfigViews, s.swapchainFormats, rep.created);
      var head := [EnumerateViewConfigurationViews(VIEW_TYPE)];
      assert o.calls == head + c.calls;
      assert forall i :: 0 <= i < |c.calls| ==> Neutral(c.calls[i]) by {
        forall i | 0 <= i < |c.calls| ensures Neutral(c.calls[i]) { assert c.calls[i] in c.calls; }
      }
      ReplayNeutral(Progress(true, Begun), head);
      ReplayNeutral(Progress(true, Begun), c.calls);
      ReplayConcat(Progress(true, Begun), head, c.calls);
      CreationsConcat(head, c.calls);
    }
  }

  /** The drawing part of a frame issues no protocol call and creates what obtaining created. */
  lemma DrawingCalls(s: Setup, obtained: Creation, rep: FrameReplies, frameFn: FrameFn)
    requires CallbackAccepts(s, rep, frameFn)
    requires obtained.made.Some? && |obtained.made.value| == |s.viewConfigViews|
    requires Replay(Progress(true, Begun), obtained.calls) == Some(Progress(true, Begun))
    ensures Replay(Progress(true, Begun), Drawing(s, obtained, rep, frameFn)) == Some(Progress(true, Begun))
    ensures Creations(Drawing(s, obtained, rep, frameFn)) == Creations(obtained.calls)
  {
    var p := Progress(true, Begun);
    var sync := [SyncActions, LocateViews(VIEW_TYPE, rep.frameState.predictedDisplayTime, s.stage)];
    var drawn := Embed(frameFn(rep.views, rep.frameState, obtained.made.value));
    assert Drawing(s, obtained, rep, frameFn) == obtained.calls + sync + drawn;
    ReplayNeutral(p, sync);
    ReplayEmbed(p, frameFn(rep.views, rep.frameState, obtained.made.value));
    ReplayConcat(p, obtained.calls, sync);
    ReplayConcat(p, obtained.calls + sync, drawn);
    CreationsConcat(obtained.calls, sync);
    CreationsConcat(obtained.calls + sync, drawn);
    NoCreations(sync);
    NoCreations(drawn);
  }

  /** Outside a running session the compositor only sleeps: no call, nothing changes. */
  lemma FrameIdle(s: Setup, cached: Option<seq<Swapchain>>, rep: FrameReplies, frameFn: FrameFn)
    requires Stereo(s) && RepliesFit(s, rep) && CallbackAccepts(s, rep, frameFn)
    requires cached.Some? ==> |cached.value| == |s.viewConfigViews|
    ensures var f := Frame(s, false, cached, rep, frameFn);
      f.outcome == Slept && f.calls == [] && f.swapchains == cached
  {
  }

  /**
   * While running, a frame that does not panic opens with one wait and one
   * begin and closes with one end at the predicted display time, carrying the
   * projection layer exactly when the runtime asked for rendering; every call
   * in between is outside the frame protocol.
   */
  lemma FrameShape(s: Setup, cached: Option<seq<Swapchain>>, rep: FrameReplies, frameFn: FrameFn)
    requires Stereo(s) && RepliesFit(s, rep) && CallbackAccepts(s, rep, frameFn)
    requires cached.Some? ==> |cached.value| == |s.viewConfigViews|
    ensures var f := Frame(s, true, cached, rep, frameFn);
      f.outcome != FormatUnsupported ==>
        && f.outcome == (if rep.frameState.shouldRender then Rendered else Skipped)
        && |f.calls| >= 3 && f.calls[0] == FrameWait && f.calls[1] == FrameBegin
        && f.calls[|f.calls| - 1] == FrameEnd(rep.frameState.predictedDisplayTime, s.blendMode,
             if rep.frameState.shouldRender then [LayerFor(s.stage, rep.views, f.swapchains.value)] else [])
        && (forall i :: 2 <= i < |f.calls| - 1 ==> Neutral(f.calls[i]))
        && (!rep.frameState.shouldRender ==> f.calls == Opening + [FrameEnd(rep.frameState.predictedDisplayTime, s.blendMode, [])])
  {
    var f := Frame(s, true, cached, rep, frameFn);
    if f.outcome == Rendered {
      RenderedCalls(s, cached, rep, frameFn);
      DrawingNeutral(s, cached, rep, frameFn);
      Bracketed(f.calls, Drawing(s, Obtain(s, cached, rep), rep, frameFn), f.calls[|f.calls| - 1]);
    } else if f.outcome == Skipped {
      assert f.calls == Opening + [] + [f.calls[2]];
      Bracketed(f.calls, [], f.calls[2]);
    }
  }

  /** A wait, a begin, calls outside the frame protocol and a last call. */
  lemma Bracketed(calls: seq<Action>, middle: seq<Action>, e: Action)
    requires calls == Opening + middle + [e]
    requires forall x :: x in middle ==> Neutral(x)
    ensures |calls| >= 3 && calls[0] == FrameWait && calls[1] == FrameBegin
    ensures forall i :: 2 <= i < |calls| - 1 ==> Neutral(calls[i])
  {
    forall i | 2 <= i < |calls| - 1 ensures Neutral(calls[i]) {
      assert calls[i] == middle[i - 2];
    }
  }

  /** Every call of the drawing part is outside the frame protocol. */
  lemma DrawingNeutral(s: Setup, cached: Option<seq<Swapchain>>, rep: FrameReplies, frameFn: FrameFn)
    requires Stereo(s) && RepliesFit(s, rep) && CallbackAccepts(s, rep, frameFn)
    requires Obtain(s, cached, rep).made.Some?
    requires |Obtain(s, cached, rep).made.value| == |s.viewConfigViews|
    ensures forall a :: a in Drawing(s, Obtain(s, cached, rep), rep, frameFn) ==> Neutral(a)
  {
    var o := Obtain(s, cached, rep);
    var drawn := Embed(frameFn(rep.views, rep.frameState, o.made.value));
    var located := LocateViews(VIEW_TYPE, rep.frameState.predictedDisplayTime, s.stage);
    if cached.None? {
      var c := CreateSwapchains(s.viewConfigViews, s.swapchainFormats, rep.created);
      NeutralConcat([EnumerateViewConfigurationViews(VIEW_TYPE)], c.calls);
    }
    NeutralConcat(o.calls, [SyncActions]);
    NeutralConcat(o.calls + [SyncActions], [located]);
    assert forall a :: a in drawn ==> a.Draw?;
    NeutralConcat(o.calls + [SyncActions] + [located], drawn);
  }

  /** Calls outside the frame protocol stay so when concatenated. */
  lemma NeutralConcat(a: seq<Action>, b: seq<Action>)
    requires forall x :: x in a ==> Neutral(x)
    requires forall x :: x in b ==> Neutral(x)
    ensures forall x :: x in a + b ==> Neutral(x)
  {
  }

  /**
   * The compositor panics exactly when it must render, holds no swapchain set
   * and the runtime does not offer SRGB8_ALPHA8; the frame is then left begun.
   */
  lemma FramePanics(s: Setup, running: bool, cached: Option<seq<Swapchain>>, rep: FrameReplies, frameFn: FrameFn)
    requires Stereo(s) && RepliesFit(s, rep) && CallbackAccepts(s, rep, frameFn)
    requires cached.Some? ==> |cached.value| == |s.viewConfigViews|
    ensures var f := Frame(s, running, cached, rep, frameFn);
      && (f.outcome == FormatUnsupported <==>
            running && rep.frameState.shouldRender && cached.None? && SRGB8_ALPHA8 !in s.swapchainFormats)
      && (f.outcome == FormatUnsupported ==>
            f.calls == Opening + [EnumerateViewConfigurationViews(VIEW_TYPE), EnumerateSwapchainFormats])
  {
  }

  /** The calls of a rendered frame: wait, begin, the drawing part, end. */
  lemma RenderedCalls(s: Setup, cached: Option<seq<Swapchain>>, rep: FrameReplies, frameFn: FrameFn)
    requires Stereo(s) && RepliesFit(s, rep) && CallbackAccepts(s, rep, frameFn)
    requires cached.Some? ==> |cached.value| == |s.viewConfigViews|
    requires rep.frameState.shouldRender && Obtain(s, cached, rep).made.Some?
    ensures var f := Frame(s, true, cached, rep, frameFn);
      && f.outcome == Rendered && f.swapchains == Obtain(s, cached, rep).made
      && f.calls == Opening + Drawing(s, Obtain(s, cached, rep), rep, frameFn) + [f.calls[|f.calls| - 1]]
  {
  }

  /**
   * The swapchain set is created once, on the first frame that renders, with
   * one swapchain per view at the recommended size; later frames reuse it and
   * create nothing.  Frames that do not render leave it as it was.
   */
  lemma FrameSwapchains(s: Setup, running: bool, cached: Option<seq<Swapchain>>, rep: FrameReplies, frameFn: FrameFn)
    requires Stereo(s) && RepliesFit(s, rep) && CallbackAccepts(s, rep, frameFn)
    requires cached.Some? ==> |cached.value| == |s.viewConfigViews|
    ensures var f := Frame(s, running, cached, rep, frameFn);
      && (f.outcome == Slept || f.outcome == Skipped ==> f.swapchains == cached && Creations(f.calls) == 0)
      && (f.outcome == Rendered && cached.Some? ==> f.swapchains == cached && Creations(f.calls) == 0)
      && (f.outcome == Rendered && cached.None? ==>
            && f.swapchains.Some? && |f.swapchains.value| == |s.viewConfigViews|
            && Creations(f.calls) == |s.viewConfigViews|
            && forall i :: 0 <= i < |s.viewConfigViews| ==>
                 f.swapchains.value[i] == Swapchain(rep.created[i], RectFor(s.viewConfigViews[i])))
  {
    var f := Frame(s, running, cached, rep, frameFn);
    if f.outcome == Skipped {
      NoCreations(f.calls);
    } else if f.outcome == Rendered {
      RenderedCreations(s, cached, rep, frameFn);
      CreationLayout(s.viewConfigViews, s.swapchainFormats, rep.created);
    }
  }

  lemma RenderedCreations(s: Setup, cached: Option<seq<Swapchain>>, rep: FrameReplies, frameFn: FrameFn)
    requires Stereo(s) && RepliesFit(s, rep) && CallbackAccepts(s, rep, frameFn)
    requires cached.Some? ==> |cached.value| == |s.viewConfigViews|
    requires rep.frameState.shouldRender && Obtain(s, cached, rep).made.Some?
    ensures Creations(Frame(s, true, cached, rep, frameFn).calls) == if cached.Some? then 0 else |s.viewConfigViews|
  {
    var f := Frame(s, true, cached, rep, frameFn);
    var o := Obtain(s, cached, rep);
    var dr := Drawing(s, o, rep, frameFn);
    RenderedCalls(s, cached, rep, frameFn);
    ObtainCalls(s, cached, rep);
    DrawingCalls(s, o, rep, frameFn);
    var closing := f.calls[|f.calls| - 1];
    CreationsConcat(Opening, dr);
    CreationsConcat(Opening + dr, [closing]);
  }

  /**
   * A rendered frame hands the callback the located views, the frame state
   * and the swapchain set, right after syncing the actions and locating the
   * views, and ends the frame right after the callback returns.
   */
  lemma FrameCallback(s: Setup, cached: Option<seq<Swapchain>>, rep: FrameReplies, frameFn: FrameFn)
    requires Stereo(s) && RepliesFit(s, rep) && CallbackAccepts(s, rep, frameFn)
    requires cached.Some? ==> |cached.value| == |s.viewConfigViews|
    ensures var f := Frame(s, true, cached, rep, frameFn);
      f.outcome == Rendered ==>
        var d := Embed(frameFn(rep.views, rep.frameState, f.swapchains.value));
        var n := |f.calls|;
        && n >= |d| + 5
        && f.calls[n - 1 - |d| .. n - 1] == d
        && f.calls[n - 2 - |d|] == LocateViews(VIEW_TYPE, rep.frameState.predictedDisplayTime, s.stage)
        && f.calls[n - 3 - |d|] == SyncActions
  {
    var f := Frame(s, true, cached, rep, frameFn);
    if f.outcome == Rendered {
      var o := Obtain(s, cached, rep);
      RenderedCalls(s, cached, rep, frameFn);
      var d := Embed(frameFn(rep.views, rep.frameState, f.swapchains.value));
      var located := LocateViews(VIEW_TYPE, rep.frameState.predictedDisplayTime, s.stage);
      var pre := Opening + o.calls + [SyncActions];
      AppendAssoc(Opening, o.calls + [SyncActions] + [located], d);
      AppendAssoc(Opening, o.calls + [SyncActions], [located]);
      AppendAssoc(Opening, o.calls, [SyncActions]);
      Surround(f.calls, pre, located, d, f.calls[|f.calls| - 1]);
    }
  }

  /** Where the middle part of `pre + [a] + d + [e]` and the two calls before it sit. */
  lemma Surround(calls: seq<Action>, pre: seq<Action>, a: Action, d: seq<Action>, e: Action)
    requires calls == pre + [a] + d + [e] && |pre| >= 3
    ensures var n := |calls|;
      && n >= |d| + 5
      && calls[n - 1 - |d| .. n - 1] == d
      && calls[n - 2 - |d|] == a
      && calls[n - 3 - |d|] == pre[|pre| - 1]
  {
    MiddleSlice(pre + [a], d, e);
  }

  // ===========================================================================
  // The driver's invariant over everything it has issued

  /**
   * The trace obeys the session and frame protocol and stands between frames,
   * with the session open exactly when the driver believes it running; the
   * swapchains were created exactly once if the set exists and never otherwise.
   */
  ghost predicate Invariant(s: Setup, trace: seq<Action>, running: bool, swapchains: Option<seq<Swapchain>>) {
    && Replay(Initial, trace) == Some(Progress(running, BetweenFrames))
    && Creations(trace) == (if swapchains.Some? then |s.viewConfigViews| else 0)
    && (swapchains.Some? ==> |swapchains.value| == |s.viewConfigViews|)
  }

  /**
   * A driver between frames has waited for, begun and ended the same number
   * of frames over its life.
   */
  lemma TraceBalanced(x: OpenXR)
    requires x.Valid()
    ensures Count(x.trace, FrameWait) == Ends(x.trace) && Count(x.trace, FrameBegin) == Ends(x.trace)
  {
    ReplayBalanced(Initial, x.trace);
  }

  lemma StepKeeps(s: Setup, l: Lifecycle, e: Event, swapchains: Option<seq<Swapchain>>)
    requires Invariant(s, l.calls, l.running, swapchains)
    ensures var n := Step(l, e); Invariant(s, n.calls, n.running, swapchains)
  {
    var n := Step(l, e);
    if n.calls != l.calls {
      var a := if e == SessionStateChanged(Ready) then SessionBegin(VIEW_TYPE) else SessionEnd;
      assert n.calls == l.calls + [a];
      ReplayConcat(Initial, l.calls, [a]);
      CreationsConcat(l.calls, [a]);
    }
  }

  /** Draining events keeps the driver's invariant. */
  lemma {:induction false} DrainKeeps(s: Setup, l: Lifecycle, events: seq<Event>, swapchains: Option<seq<Swapchain>>)
    requires Invariant(s, l.calls, l.running, swapchains)
    ensures var d := Drain(l, events); Invariant(s, d.calls, d.running, swapchains)
    decreases |events|
  {
    if events != [] {
      StepKeeps(s, l, events[0], swapchains);
      DrainKeeps(s, Step(l, events[0]), events[1..], swapchains);
    }
  }

  /** A frame that does not panic keeps the driver's invariant. */
  lemma FrameKeeps(s: Setup, trace: seq<Action>, running: bool, cached: Option<seq<Swapchain>>,
                   rep: FrameReplies, frameFn: FrameFn)
    requires Stereo(s) && RepliesFit(s, rep) && CallbackAccepts(s, rep, frameFn)
    requires Invariant(s, trace, running, cached)
    ensures var f := Frame(s, running, cached, rep, frameFn);
      f.outcome != FormatUnsupported ==> Invariant(s, trace + f.calls, running, f.swapchains)
  {
    var f := Frame(s, running, cached, rep, frameFn);
    if f.outcome == Slept {
      assert trace + f.calls == trace;
    } else if f.outcome == Skipped {
      assert f.calls == Opening + [] + [f.calls[2]];
      FrameBracket(trace, [], f.calls[2]);
    } else if f.outcome == Rendered {
      var o := Obtain(s, cached, rep);
      ObtainCalls(s, cached, rep);
      DrawingCalls(s, o, rep, frameFn);
      var closing := f.calls[|f.calls| - 1];
      assert f.calls == Opening + Drawing(s, o, rep, frameFn) + [closing];
      FrameBracket(trace, Drawing(s, o, rep, frameFn), closing);
    }
  }

  /**
   * A frame issued between frames with the session open: wait, begin, calls
   * the protocol leaves in the begun phase, end.  Afterwards the trace is
   * again between frames, and only the middle part can have created swapchains.
   */
  lemma FrameBracket(trace: seq<Action>, middle: seq<Action>, closing: Action)
    requires Replay(Initial, trace) == Some(Progress(true, BetweenFrames))
    requires Replay(Progress(true, Begun), middle) == Some(Progress(true, Begun))
    requires closing.FrameEnd?
    ensures Replay(Initial, trace + (Opening + middle + [closing])) == Some(Progress(true, BetweenFrames))
    ensures Creations(trace + (Opening + middle + [closing])) == Creations(trace) + Creations(middle)
  {
    var frame := Opening + middle + [closing];
    assert Replay(Progress(true, BetweenFrames), Opening) == Some(Progress(true, Begun));
    ReplayConcat(Progress(true, BetweenFrames), Opening, middle);
    ReplayConcat(Progress(true, BetweenFrames), Opening + middle, [closing]);
    ReplayConcat(Initial, trace, frame);
    CreationsConcat(Opening, middle);
    CreationsConcat(Opening + middle, [closing]);
    CreationsConcat(trace, frame);
  }

  lemma {:induction false} NoCreations(calls: seq<Action>)
    requires forall a :: a in calls ==> !a.CreateSwapchain?
    ensures Creations(calls) == 0
    decreases |calls|
  {
    if calls != [] {
      assert forall a :: a in calls[1..] ==> a in calls;
      NoCreations(calls[1..]);
    }
  }

  // ===========================================================================
  // The driver object

  class OpenXR {
    const setup: Setup
    var sessionRunning: bool
    var swapchains: Option<seq<Swapchain>>
    /** Every call issued to the runtime, and the frame callback's calls, in order. */
    ghost var trace: seq<Action>

    ghost predicate Valid()
      reads this
    {
      Stereo(setup) && Invariant(setup, trace, sessionRunning, swapchains)
    }

    /** The state the constructor leaves after setting up instance, session, actions and spaces. */
    constructor (setup: Setup)
      requires Stereo(setup)
      ensures Valid() && this.setup == setup
      ensures !sessionRunning && swapchains == None && trace == []
    {
      this.setup := setup;
      sessionRunning := false;
      swapchains := None;
      trace := [];
    }

    /** Polls the runtime's events until none is left, handling each in arrival order. */
    method ProcessEvents(events: seq<Event>, flowIn: ControlFlow) returns (flow: ControlFlow)
      requires Valid()
      modifies this
      ensures Valid() && swapchains == old(swapchains)
      ensures Lifecycle(sessionRunning, flow, trace) == Drain(Lifecycle(old(sessionRunning), flowIn, old(trace)), events)
    {
      flow := flowIn;
      var queue := events;
      while queue != []
        invariant Drain(Lifecycle(sessionRunning, flow, trace), queue)
               == Drain(Lifecycle(old(sessionRunning), flowIn, old(trace)), events)
        invariant swapchains == old(swapchains)
        decreases |queue|
      {
        var event := queue[0];
        ghost var before := Lifecycle(sessionRunning, flow, trace);
        assert Drain(before, queue) == Drain(Step(before, event), queue[1..]);
        queue := queue[1..];
        match event {
          case SessionStateChanged(state) =>
            match state {
              case Ready =>
                trace := trace + [SessionBegin(VIEW_TYPE)];
                sessionRunning := true;
              case Stopping =>
                trace := trace + [SessionEnd];
                sessionRunning := false;
              case Exiting =>
                flow := Exit;
              case LossPending =>
                flow := Exit;
              case _ =>
            }
          case InstanceLossPending =>
            flow := Exit;
          case EventsLost(_) =>
          case _ =>
        }
        assert Lifecycle(sessionRunning, flow, trace) == Step(before, event);
      }
      DrainKeeps(setup, Lifecycle(old(sessionRunning), flowIn, old(trace)), events, swapchains);
    }

    /**
     * Runs one frame: sleeps when the session is not running; otherwise waits,
     * begins, and either ends with no layers or creates the swapchain set if
     * needed, syncs actions, locates the views, runs the callback and ends with
     * the stereo projection layer.
     */
    method WaitFrame(rep: FrameReplies, frameFn: FrameFn) returns (outcome: FrameOutcome)
      requires Valid() && RepliesFit(setup, rep) && CallbackAccepts(setup, rep, frameFn)
      modifies this
      ensures var f := Frame(setup, old(sessionRunning), old(swapchains), rep, frameFn);
        outcome == f.outcome && trace == old(trace) + f.calls && swapchains == f.swapchains
      ensures sessionRunning == old(sessionRunning)
      ensures outcome != FormatUnsupported ==> Valid()
    {
      FrameKeeps(setup, trace, sessionRunning, swapchains, rep, frameFn);
      ghost var t0 := trace;
      ghost var o := Obtain(setup, swapchains, rep);
      ghost var f := Frame(setup, sessionRunning, swapchains, rep, frameFn);
      if !sessionRunning {
        // the source sleeps 1000 / 60 ms here
        assert f.calls == [] && trace == t0 + f.calls;
        return Slept;
      }
      var frameState := rep.frameState;
      trace := trace + [FrameWait];
      trace := trace + [FrameBegin];
      assert trace == t0 + Opening;
      var t := frameState.predictedDisplayTime;
      if !frameState.shouldRender {
        trace := trace + [FrameEnd(t, setup.blendMode, [])];
        assert trace == t0 + f.calls;
        return Skipped;
      }
      var ok := ObtainSwapchains(rep);
      assert trace == t0 + Opening + o.calls;
      if !ok {
        assert f.calls == Opening + o.calls;
        return FormatUnsupported;
      }
      var sc := swapchains.value;
      trace := trace + [SyncActions];
      AppendAssoc(t0 + Opening, o.calls, [SyncActions]);
      var views := rep.views;
      var located := LocateViews(VIEW_TYPE, t, setup.stage);
      trace := trace + [located];
      AppendAssoc(t0 + Opening, o.calls + [SyncActions], [located]);
      ghost var drawn := Embed(frameFn(views, frameState, sc));
      trace := trace + drawn;
      AppendAssoc(t0 + Opening, o.calls + [SyncActions] + [located], drawn);
      assert trace == t0 + Opening + Drawing(setup, o, rep, frameFn);
      var end := FrameEnd(t, setup.blendMode, [LayerFor(setup.stage, views, sc)]);
      trace := trace + [end];
      AppendAssoc(t0, Opening, Drawing(setup, o, rep, frameFn));
      AppendAssoc(t0, Opening + Drawing(setup, o, rep, frameFn), [end]);
      assert trace == t0 + f.calls;
      outcome := Rendered;
    }

    /**
     * The swapchain set, created on first use: the view recommendations are
     * queried and one swapchain made per view; `false` where creation panics.
     */
    method ObtainSwapchains(rep: FrameReplies) returns (ok: bool)
      requires Stereo(setup) && RepliesFit(setup, rep)
      requires swapchains.Some? ==> |swapchains.value| == |setup.viewConfigViews|
      modifies this
      ensures var o := Obtain(setup, old(swapchains), rep);
        && ok == o.made.Some? && trace == old(trace) + o.calls
        && (ok ==> swapchains == o.made && |swapchains.value| == |setup.viewConfigViews|)
        && (!ok ==> swapchains == old(swapchains) == None)
      ensures sessionRunning == old(sessionRunning)
    {
      if swapchains.None? {
        trace := trace + [EnumerateViewConfigurationViews(VIEW_TYPE)];
        var creation := CreateSwapchains(setup.viewConfigViews, setup.swapchainFormats, rep.created);
        trace := trace + creation.calls;
        if creation.made.None? {
          return false;
        }
        swapchains := creation.made;
      } else {
        assert trace == old(trace) + [];
      }
      ok := true;
    }
  }
}
