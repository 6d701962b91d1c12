/**
 * The desktop viewer's use of the OpenXR driver: the frame callback that
 * renders the scene once into each eye's swapchain image, and the window
 * event loop that drains the runtime's events, runs frames and mirrors the
 * scene into the window.
 *
 * The GL context, the window and the scene are not modelled beyond the calls
 * made on them (`DrawCall` and `WindowCall`); what the runtime replies inside
 * the callback (the swapchain images and the index of the acquired one) is a
 * parameter.
 */
module Viewer {
  import opened Xr
  import opened Protocol
  import opened OpenXrDriver

  // ===========================================================================
  // The frame callback

  /** The runtime's replies for one eye: the swapchain's images and the index acquire returned. */
  datatype EyeReply = EyeReply(images: seq<Image>, acquiredIndex: u32)

  /** Acquire returns an index into the images enumerated for the swapchain. */
  predicate EyeFits(r: EyeReply) {
    r.acquiredIndex as int < |r.images|
  }

  /**
   * What the callback needs: a view for every swapchain (view i is drawn into
   * swapchain i) and a well-formed reply for every swapchain.
   */
  predicate Fits(views: seq<View>, sc: seq<Swapchain>, eyes: seq<EyeReply>) {
    |sc| <= |views| && |sc| <= |eyes| && forall i :: 0 <= i < |sc| ==> EyeFits(eyes[i])
  }

  /** Number of calls the callback makes per eye. */
  const EYE_CALLS: nat := 9

  /**
   * One eye: bind the offscreen framebuffer, take the next swapchain image,
   * wait for it, point the viewport at the swapchain's rectangle, attach the
   * image, set the camera from the view, render, hand the image back.
   */
  function EyeCalls(fb: Framebuffer, view: View, sc: Swapchain, r: EyeReply): (d: seq<DrawCall>)
    requires EyeFits(r)
    ensures |d| == EYE_CALLS
  {
    var h := sc.handle;
    [ BindFramebuffer(Some(fb)),
      EnumerateImages(h),
      AcquireImage(h),
      WaitImage(h),
      Viewport(sc.rect.x, sc.rect.y, sc.rect.width, sc.rect.height),
      AttachColorTexture(r.images[r.acquiredIndex]),
      SetCamera(view),
      RenderScene,
      ReleaseImage(h) ]
  }

  /** The calls for the first `k` eyes, in swapchain order. */
  function EyesUpTo(fb: Framebuffer, views: seq<View>, sc: seq<Swapchain>, eyes: seq<EyeReply>, k: nat): (d: seq<DrawCall>)
    requires Fits(views, sc, eyes) && k <= |sc|
    ensures |d| == EYE_CALLS * k
  {
    if k == 0 then []
    else EyesUpTo(fb, views, sc, eyes, k - 1) + EyeCalls(fb, views[k - 1], sc[k - 1], eyes[k - 1])
  }

  /** The callback's calls: update the scene for the display time, then every eye in turn. */
  function DrawFrame(fb: Framebuffer, views: seq<View>, fs: FrameState, sc: seq<Swapchain>, eyes: seq<EyeReply>): (d: seq<DrawCall>)
    requires Fits(views, sc, eyes)
    ensures |d| == 1 + EYE_CALLS * |sc| && d[0] == UpdateScene(fs.predictedDisplayTime)
  {
    [UpdateScene(fs.predictedDisplayTime)] + EyesUpTo(fb, views, sc, eyes, |sc|)
  }

  /** The callback's loop over the swapchains, issuing each eye's calls in turn. */
  method DrawViews(fb: Framebuffer, views: seq<View>, fs: FrameState, sc: seq<Swapchain>, eyes: seq<EyeReply>)
    returns (calls: seq<DrawCall>)
    requires Fits(views, sc, eyes)
    ensures calls == DrawFrame(fb, views, fs, sc, eyes)
    ensures |calls| == 1 + EYE_CALLS * |sc|
  {
    calls := [UpdateScene(fs.predictedDisplayTime)];
    for i := 0 to |sc|
      invariant calls == [UpdateScene(fs.predictedDisplayTime)] + EyesUpTo(fb, views, sc, eyes, i)
    {
      var swapchain := sc[i];
      var view := views[i];
      var h := swapchain.handle;
      calls := calls + [BindFramebuffer(Some(fb))];
      var images := eyes[i].images;
      calls := calls + [EnumerateImages(h)];
      var imageId := eyes[i].acquiredIndex;
      calls := calls + [AcquireImage(h)];
      calls := calls + [WaitImage(h)];
      var image := images[imageId];
      var rect := swapchain.rect;
      calls := calls + [Viewport(rect.x, rect.y, rect.width, rect.height)];
      calls := calls + [AttachColorTexture(image)];
      calls := calls + [SetCamera(view)];
      calls := calls + [RenderScene];
      calls := calls + [ReleaseImage(h)];
      assert calls == [UpdateScene(fs.predictedDisplayTime)] + EyesUpTo(fb, views, sc, eyes, i)
        + EyeCalls(fb, view, swapchain, eyes[i]);
    }
  }

  /** The first `j` eyes' calls are a prefix of the first `k` eyes' calls. */
  lemma {:induction false} EyesPrefix(fb: Framebuffer, views: seq<View>, sc: seq<Swapchain>, eyes: seq<EyeReply>, j: nat, k: nat)
    requires Fits(views, sc, eyes) && j <= k <= |sc|
    ensures EyesUpTo(fb, views, sc, eyes, k)[..EYE_CALLS * j] == EyesUpTo(fb, views, sc, eyes, j)
    decreases k
  {
    if j < k {
      EyesPrefix(fb, views, sc, eyes, j, k - 1);
      var prev := EyesUpTo(fb, views, sc, eyes, k - 1);
      assert EyesUpTo(fb, views, sc, eyes, k)[..EYE_CALLS * j] == prev[..EYE_CALLS * j];
    } else {
      assert EyesUpTo(fb, views, sc, eyes, k)[..EYE_CALLS * j] == EyesUpTo(fb, views, sc, eyes, k);
    }
  }

  /**
   * The callback's calls are the scene update followed by one block per
   * swapchain, in index order: block i draws view i into swapchain i.
   */
  lemma EyeBlocks(fb: Framebuffer, views: seq<View>, fs: FrameState, sc: seq<Swapchain>, eyes: seq<EyeReply>)
    requires Fits(views, sc, eyes)
    ensures var d := DrawFrame(fb, views, fs, sc, eyes);
      && |d| == 1 + EYE_CALLS * |sc|
      && d[0] == UpdateScene(fs.predictedDisplayTime)
      && forall i :: 0 <= i < |sc| ==>
           d[1 + EYE_CALLS * i .. 1 + EYE_CALLS * (i + 1)] == EyeCalls(fb, views[i], sc[i], eyes[i])
  {
    var d := DrawFrame(fb, views, fs, sc, eyes);
    var all := EyesUpTo(fb, views, sc, eyes, |sc|);
    forall i | 0 <= i < |sc|
      ensures d[1 + EYE_CALLS * i .. 1 + EYE_CALLS * (i + 1)] == EyeCalls(fb, views[i], sc[i], eyes[i])
    {
      EyesPrefix(fb, views, sc, eyes, i + 1, |sc|);
      var upTo := EyesUpTo(fb, views, sc, eyes, i + 1);
      assert upTo[EYE_CALLS * i ..] == EyeCalls(fb, views[i], sc[i], eyes[i]);
      assert d[1 + EYE_CALLS * i .. 1 + EYE_CALLS * (i + 1)] == all[EYE_CALLS * i .. EYE_CALLS * (i + 1)];
      assert all[EYE_CALLS * i .. EYE_CALLS * (i + 1)] == all[..EYE_CALLS * (i + 1)][EYE_CALLS * i ..];
    }
  }

  // ---------------------------------------------------------------------------
  // Swapchain images: acquire, wait, release

  /** Where one swapchain's image stands: free, acquired, or acquired and waited for. */
  datatype ImageState = Free | Acquired | Usable

  /** One call as seen by swapchain `h`; `None` where the runtime forbids it. */
  function ImageNext(st: ImageState, c: DrawCall, h: SwapchainHandle): Option<ImageState> {
    match c
    case AcquireImage(x) => if x != h then Some(st) else if st == Free then Some(Acquired) else None
    case WaitImage(x) => if x != h then Some(st) else if st == Acquired then Some(Usable) else None
    case ReleaseImage(x) => if x != h then Some(st) else if st == Usable then Some(Free) else None
    case _ => Some(st)
  }

  function ImageReplay(st: ImageState, calls: seq<DrawCall>, h: SwapchainHandle): Option<ImageState>
    decreases |calls|
  {
    if calls == [] then Some(st)
    else match ImageNext(st, calls[0], h)
      case None => None
      case Some(next) => ImageReplay(next, calls[1..], h)
  }

  lemma {:induction false} ImageReplayConcat(st: ImageState, a: seq<DrawCall>, b: seq<DrawCall>, h: SwapchainHandle)
    ensures ImageReplay(st, a + b, h) == match ImageReplay(st, a, h) case None => None case Some(m) => ImageReplay(m, b, h)
    decreases |a|
  {
    if a == [] {
      assert a + b == b;
    } else {
      assert (a + b)[0] == a[0];
      assert (a + b)[1..] == a[1..] + b;
      match ImageNext(st, a[0], h)
      case None =>
      case Some(next) => ImageReplayConcat(next, a[1..], b, h);
    }
  }

  /**
   * One eye holds its swapchain's image exactly from the acquire to the
   * release: the image is waited for before it is attached and drawn into,
   * and every swapchain's image is free again afterwards.
   */
  lemma EyeImages(fb: Framebuffer, view: View, sc: Swapchain, r: EyeReply, h: SwapchainHandle)
    requires EyeFits(r)
    ensures var d := EyeCalls(fb, view, sc, r);
      && ImageReplay(Free, d, h) == Some(Free)
      && ImageReplay(Free, d[..5], h) == Some(if h == sc.handle then Usable else Free)
      && ImageReplay(Free, d[..8], h) == Some(if h == sc.handle then Usable else Free)
      && d[5].AttachColorTexture? && d[7] == RenderScene
  {
    var d := EyeCalls(fb, view, sc, r);
    var setup, prepare, done := d[..2], d[4..8], [d[8]];
    assert d[..5] == setup + [d[2]] + [d[3]] + [d[4]];
    assert d == setup + [d[2]] + [d[3]] + prepare + done;
    assert d[..8] == setup + [d[2]] + [d[3]] + prepare;
    ImageReplayIdle(Free, setup, h);
    ImageReplayConcat(Free, setup, [d[2]], h);
    var acquired := ImageReplay(Free, setup + [d[2]], h).value;
    ImageReplayConcat(Free, setup + [d[2]], [d[3]], h);
    var waited := ImageReplay(Free, setup + [d[2]] + [d[3]], h).value;
    ImageReplayIdle(waited, prepare, h);
    ImageReplayIdle(waited, [d[4]], h);
    ImageReplayConcat(Free, setup + [d[2]] + [d[3]], prepare, h);
    ImageReplayConcat(Free, setup + [d[2]] + [d[3]], [d[4]], h);
    ImageReplayConcat(Free, setup + [d[2]] + [d[3]] + prepare, done, h);
    if sc.handle == h {
      assert acquired == Acquired && waited == Usable;
    } else {
      assert acquired == Free && waited == Free;
    }
  }

  /** Calls that do not touch swapchain `h`'s image leave it where it was. */
  lemma {:induction false} ImageReplayIdle(st: ImageState, calls: seq<DrawCall>, h: SwapchainHandle)
    requires forall i :: 0 <= i < |calls| ==> ImageNext(st, calls[i], h) == Some(st)
    ensures ImageReplay(st, calls, h) == Some(st)
  {
    if calls != [] {
      assert ImageNext(st, calls[0], h) == Some(st);
      ImageReplayIdle(st, calls[1..], h);
    }
  }

  /** After any number of eyes, every swapchain's image is free: none is leaked or released twice. */
  lemma {:induction false} EyesImages(fb: Framebuffer, views: seq<View>, sc: seq<Swapchain>, eyes: seq<EyeReply>, k: nat, h: SwapchainHandle)
    requires Fits(views, sc, eyes) && k <= |sc|
    ensures ImageReplay(Free, EyesUpTo(fb, views, sc, eyes, k), h) == Some(Free)
  {
    if k > 0 {
      EyesImages(fb, views, sc, eyes, k - 1, h);
      EyeImages(fb, views[k - 1], sc[k - 1], eyes[k - 1], h);
      ImageReplayConcat(Free, EyesUpTo(fb, views, sc, eyes, k - 1), EyeCalls(fb, views[k - 1], sc[k - 1], eyes[k - 1]), h);
    }
  }

  /**
   * The callback follows the image protocol for every swapchain and returns
   * them all, renders the scene exactly once per swapchain, and updates the
   * scene exactly once.
   */
  lemma DrawFrameProtocol(fb: Framebuffer, views: seq<View>, fs: FrameState, sc: seq<Swapchain>, eyes: seq<EyeReply>, h: SwapchainHandle)
    requires Fits(views, sc, eyes)
    ensures var d := DrawFrame(fb, views, fs, sc, eyes);
      && ImageReplay(Free, d, h) == Some(Free)
      && Count(d, RenderScene) == |sc|
      && Count(d, UpdateScene(fs.predictedDisplayTime)) == 1
  {
    var head := [UpdateScene(fs.predictedDisplayTime)];
    EyesImages(fb, views, sc, eyes, |sc|, h);
    ImageReplayConcat(Free, head, EyesUpTo(fb, views, sc, eyes, |sc|), h);
    EyesRenders(fb, views, sc, eyes, |sc|, fs.predictedDisplayTime);
    CountConcat(head, EyesUpTo(fb, views, sc, eyes, |sc|), RenderScene);
    CountConcat(head, EyesUpTo(fb, views, sc, eyes, |sc|), UpdateScene(fs.predictedDisplayTime));
    CountSingle(UpdateScene(fs.predictedDisplayTime), RenderScene);
    CountSingle(UpdateScene(fs.predictedDisplayTime), UpdateScene(fs.predictedDisplayTime));
  }

  /** Each eye renders once and updates nothing. */
  lemma {:induction false} EyesRenders(fb: Framebuffer, views: seq<View>, sc: seq<Swapchain>, eyes: seq<EyeReply>, k: nat, t: int)
    requires Fits(views, sc, eyes) && k <= |sc|
    ensures Count(EyesUpTo(fb, views, sc, eyes, k), RenderScene) == k
    ensures Count(EyesUpTo(fb, views, sc, eyes, k), UpdateScene(t)) == 0
  {
    if k > 0 {
      EyesRenders(fb, views, sc, eyes, k - 1, t);
      var d := EyeCalls(fb, views[k - 1], sc[k - 1], eyes[k - 1]);
      EyeRenders(fb, views[k - 1], sc[k - 1], eyes[k - 1], t);
      CountConcat(EyesUpTo(fb, views, sc, eyes, k - 1), d, RenderScene);
      CountConcat(EyesUpTo(fb, views, sc, eyes, k - 1), d, UpdateScene(t));
    }
  }

  lemma EyeRenders(fb: Framebuffer, view: View, sc: Swapchain, r: EyeReply, t: int)
    requires EyeFits(r)
    ensures Count(EyeCalls(fb, view, sc, r), RenderScene) == 1
    ensures Count(EyeCalls(fb, view, sc, r), UpdateScene(t)) == 0
  {
    var d := EyeCalls(fb, view, sc, r);
    var before, after := d[..7], d[8..];
    assert d == before + [RenderScene] + after;
    assert RenderScene !in before && RenderScene !in after;
    CountConcat(before, [RenderScene], RenderScene);
    CountConcat(before + [RenderScene], after, RenderScene);
    CountSingle(RenderScene, RenderScene);
    assert UpdateScene(t) !in d;
  }

  // ===========================================================================
  // The window's event loop

  datatype Key = Escape | OtherKey

  /** Window events as far as the viewer looks at them. */
  datatype WindowEvent =
    | Resized(width: u32, height: u32)
    | CloseRequested
    | KeyboardInput(key: Option<Key>)
    | OtherWindowEvent

  /**
   * One tick of the event loop, with what the outside world replies during it:
   * the runtime's queued events when the main events are cleared; the frame
   * replies, the eyes' image replies and the window size on a redraw.
   */
  datatype LoopEvent =
    | WindowEvt(event: WindowEvent)
    | LoopDestroyed
    | MainEventsCleared(queued: seq<Event>)
    | RedrawRequested(rep: FrameReplies, eyes: seq<EyeReply>, windowWidth: u32, windowHeight: u32)
    | OtherLoopEvent

  /** The window events after which the loop is told to exit. */
  predicate ClosesWindow(e: WindowEvent) {
    e == CloseRequested || e == KeyboardInput(Some(Escape))
  }

  /** The frame callback the viewer hands the driver for one redraw. */
  function Callback(fb: Framebuffer, eyes: seq<EyeReply>): (f: FrameFn)
    ensures forall views, fs, sc :: Fits(views, sc, eyes) ==> f.requires(views, fs, sc)
    ensures forall views, fs, sc :: Fits(views, sc, eyes) ==> |f(views, fs, sc)| == 1 + EYE_CALLS * |sc|
  {
    (views: seq<View>, fs: FrameState, sc: seq<Swapchain>) requires Fits(views, sc, eyes) =>
      DrawFrame(fb, views, fs, sc, eyes)
  }

  /** The callback accepts every stereo frame the driver can hand it. */
  predicate EyesFit(setup: Setup, eyes: seq<EyeReply>) {
    |eyes| >= |setup.viewConfigViews| && forall i :: 0 <= i < |eyes| ==> EyeFits(eyes[i])
  }

  lemma CallbackAccepted(setup: Setup, rep: FrameReplies, fb: Framebuffer, eyes: seq<EyeReply>)
    requires RepliesFit(setup, rep) && EyesFit(setup, eyes)
    ensures CallbackAccepts(setup, rep, Callback(fb, eyes))
  {
    forall sc: seq<Swapchain> | |sc| == |setup.viewConfigViews|
      ensures Callback(fb, eyes).requires(rep.views, rep.frameState, sc)
    {
      assert Fits(rep.views, sc, eyes);
    }
  }

  /** The mirror into the window after each frame: the window's own framebuffer, the whole window, the scene. */
  function MirrorCalls(width: u32, height: u32): (r: seq<Action>)
    ensures |r| == 4 && r[0] == Draw(BindFramebuffer(None)) && r[2] == Draw(RenderScene) && r[3] == Window(SwapBuffers)
    ensures r[1].Draw? && r[1].call.Viewport? && r[1].call.x == 0 && r[1].call.y == 0
    ensures width < 0x8000_0000 ==> r[1].call.width as int == width as int
    ensures height < 0x8000_0000 ==> r[1].call.height as int == height as int
  {
    [ Draw(BindFramebuffer(None)),
      Draw(Viewport(0, 0, AsI32(width), AsI32(height))),
      Draw(RenderScene),
      Window(SwapBuffers) ]
  }

  /** The application: the driver, the offscreen framebuffer, and the calls made on the window. */
  class App {
    const xr: OpenXR
    const swapchainFramebuffer: Framebuffer
    /** Calls made on the window and on its own framebuffer, in order. */
    ghost var windowLog: seq<Action>

    ghost predicate Valid()
      reads this, xr
    {
      xr.Valid()
    }

    constructor (xr: OpenXR, fb: Framebuffer)
      requires xr.Valid()
      ensures Valid() && this.xr == xr && swapchainFramebuffer == fb && windowLog == []
    {
      this.xr := xr;
      swapchainFramebuffer := fb;
      windowLog := [];
    }

    /**
     * One tick of the event loop.  The exit request is reset to polling,
     * then: close or Escape request exit; a resize resizes the context; when
     * the main events are cleared the runtime's events are drained and a
     * redraw requested; a redraw runs one frame through the driver and
     * mirrors the scene into the window.  `panicked` is the driver's panic
     * when SRGB8_ALPHA8 is missing; the program ends there.
     */
    method HandleEvent(event: LoopEvent) returns (flow: ControlFlow, panicked: bool)
      requires Valid()
      requires event.RedrawRequested? ==> RepliesFit(xr.setup, event.rep) && EyesFit(xr.setup, event.eyes)
      modifies this, xr
      ensures !panicked ==> Valid()
      ensures panicked <==> (event.RedrawRequested? && old(xr.swapchains).None?
        && old(xr.sessionRunning) && event.rep.frameState.shouldRender
        && SRGB8_ALPHA8 !in xr.setup.swapchainFormats)
      ensures match event
        case WindowEvt(e) =>
          && flow == (if ClosesWindow(e) then Exit else Poll)
          && unchanged(xr)
          && windowLog == old(windowLog) + (if e.Resized? then [Window(ResizeContext(e.width, e.height))] else [])
        case MainEventsCleared(queued) =>
          && Lifecycle(xr.sessionRunning, flow, xr.trace) == Drain(Lifecycle(old(xr.sessionRunning), Poll, old(xr.trace)), queued)
          && xr.swapchains == old(xr.swapchains)
          && windowLog == old(windowLog) + [Window(RequestRedraw)]
        case RedrawRequested(rep, eyes, w, h) =>
          var f := Frame(xr.setup, old(xr.sessionRunning), old(xr.swapchains), rep, Callback(swapchainFramebuffer, eyes));
          && flow == Poll
          && xr.trace == old(xr.trace) + f.calls && xr.swapchains == f.swapchains
          && xr.sessionRunning == old(xr.sessionRunning)
          && windowLog == old(windowLog) + (if panicked then [] else MirrorCalls(w, h))
        case _ => flow == Poll && unchanged(xr) && windowLog == old(windowLog)
    {
      flow := Poll;
      panicked := false;
      match event {
        case WindowEvt(e) =>
          match e {
            case Resized(width, height) =>
              windowLog := windowLog + [Window(ResizeContext(width, height))];
            case CloseRequested =>
              flow := Exit;
            case KeyboardInput(key) =>
              if key == Some(Escape) {
                flow := Exit;
              }
            case OtherWindowEvent =>
          }
        case LoopDestroyed =>
          return;
        case MainEventsCleared(queued) =>
          flow := xr.ProcessEvents(queued, flow);
          windowLog := windowLog + [Window(RequestRedraw)];
        case RedrawRequested(rep, eyes, width, height) =>
          CallbackAccepted(xr.setup, rep, swapchainFramebuffer, eyes);
          FramePanics(xr.setup, xr.sessionRunning, xr.swapchains, rep, Callback(swapchainFramebuffer, eyes));
          var outcome := xr.WaitFrame(rep, Callback(swapchainFramebuffer, eyes));
          if outcome == FormatUnsupported {
            panicked := true;
            return;
          }
          windowLog := windowLog + [Draw(BindFramebuffer(None))];
          windowLog := windowLog + [Draw(Viewport(0, 0, AsI32(width), AsI32(height)))];
          windowLog := windowLog + [Draw(RenderScene)];
          windowLog := windowLog + [Window(SwapBuffers)];
        case OtherLoopEvent =>
      }
    }
  }

  /**
   * A tick that drains the runtime's events requests exit exactly when one
   * of them asks for it; the request starts from polling on every tick.
   */
  lemma ClearedTickExit(setup: Setup, running: bool, trace: seq<Action>, queued: seq<Event>)
    ensures Drain(Lifecycle(running, Poll, trace), queued).flow ==
      if exists i :: 0 <= i < |queued| && RequestsExit(queued[i]) then Exit else Poll
  {
    DrainExit(Lifecycle(running, Poll, trace), queued);
  }

  /**
   * On a rendered redraw the driver's calls contain, between locating the
   * views and ending the frame, exactly the viewer's per-eye drawing for
   * the views just located and the swapchain set the frame used.
   */
  lemma RedrawDraws(setup: Setup, cached: Option<seq<Swapchain>>, rep: FrameReplies, fb: Framebuffer, eyes: seq<EyeReply>)
    requires Stereo(setup) && RepliesFit(setup, rep) && EyesFit(setup, eyes)
    requires cached.Some? ==> |cached.value| == |setup.viewConfigViews|
    ensures CallbackAccepts(setup, rep, Callback(fb, eyes))
    ensures var f := Frame(setup, true, cached, rep, Callback(fb, eyes));
      f.outcome == Rendered ==>
        var d := Embed(DrawFrame(fb, rep.views, rep.frameState, f.swapchains.value, eyes));
        var n := |f.calls|;
        && |d| == 1 + EYE_CALLS * ViewCount(VIEW_TYPE)
        && n >= |d| + 5
        && f.calls[n - 1 - |d| .. n - 1] == d
  {
    CallbackAccepted(setup, rep, fb, eyes);
    FrameCallback(setup, cached, rep, Callback(fb, eyes));
    var f := Frame(setup, true, cached, rep, Callback(fb, eyes));
    if f.outcome == Rendered {
      FrameSwapchains(setup, true, cached, rep, Callback(fb, eyes));
      EyeBlocks(fb, rep.views, rep.frameState, f.swapchains.value, eyes);
    }
  }
}
