/**
 * The vocabulary the drivers share with the OpenXR runtime, the GL context and
 * the window: opaque handles, the replies the runtime gives, and the calls the
 * drivers issue.  Every call a driver makes is recorded as an `Action` value, so
 * the drivers' promises become statements about the sequence of actions.
 */
module Xr {

  datatype Option<T> = None | Some(value: T)

  /** 32-bit integers of the runtime's and GL's C interfaces. */
  newtype u32 = x: int | 0 <= x < 0x1_0000_0000
  newtype i32 = x: int | -0x8000_0000 <= x < 0x8000_0000

  /**
   * Rust's `x as i32` for an unsigned 32-bit `x`: the bits are kept, so values
   * of 2^31 and above come out negative.  The first two ensures determine the
   * result uniquely.
   */
  function AsI32(x: u32): (r: i32)
    ensures (x as int - r as int) % 0x1_0000_0000 == 0
    ensures x < 0x8000_0000 <==> r >= 0
    ensures x < 0x8000_0000 ==> r as int == x as int
  {
    if x < 0x8000_0000 then x as int as i32 else (x as int - 0x1_0000_0000) as i32
  }

  // ---------------------------------------------------------------------------
  // Runtime events and the event loop's exit request

  /** The session states of the OpenXR runtime. */
  datatype SessionState =
    | Unknown | Idle | Ready | Synchronized | Visible | Focused | Stopping | LossPending | Exiting

  /** The runtime events a driver can poll. */
  datatype Event =
    | EventsLost(lostEventCount: u32)
    | InstanceLossPending
    | SessionStateChanged(state: SessionState)
    | ReferenceSpaceChangePending
    | InteractionProfileChanged

  /** What the window's event loop is told to do after the current event. */
  datatype ControlFlow = Poll | Wait | Exit

  // ---------------------------------------------------------------------------
  // View configuration, handles and per-frame replies

  datatype ViewConfigurationType = PrimaryMono | PrimaryStereo

  /** The view configuration the OpenXR driver uses throughout. */
  const VIEW_TYPE: ViewConfigurationType := PrimaryStereo

  /** Number of views the OpenXR standard gives each view configuration type. */
  function ViewCount(t: ViewConfigurationType): nat {
    match t
    case PrimaryMono => 1
    case PrimaryStereo => 2
  }

  /** GL_SRGB8_ALPHA8, the only swapchain format the driver accepts. */
  const SRGB8_ALPHA8: int := 0x8C43

  datatype SwapchainHandle = SwapchainHandle(id: nat)
  datatype Space = Space(id: nat)
  datatype Image = Image(texture: u32)
  datatype Framebuffer = Framebuffer(name: u32)
  datatype BlendMode = Opaque | Additive | AlphaBlend

  /** Poses and fields of view are floating point; the model keeps them as opaque tokens. */
  datatype Pose = Pose(token: nat)
  datatype Fov = Fov(token: nat)
  datatype View = View(pose: Pose, fov: Fov)

  /** A pixel rectangle: offset and extent, as the runtime's Rect2Di. */
  datatype Rect = Rect(x: i32, y: i32, width: i32, height: i32)

  /** What the frame waiter reports for one frame. */
  datatype FrameState = FrameState(predictedDisplayTime: int, shouldRender: bool)

  /** The runtime's recommendation for one view of a view configuration. */
  datatype ViewConfigView = ViewConfigView(
    recommendedImageRectWidth: u32,
    recommendedImageRectHeight: u32,
    recommendedSwapchainSampleCount: u32)

  datatype SwapchainUsage = ColorAttachment | Sampled

  datatype SwapchainCreateInfo = SwapchainCreateInfo(
    usage: set<SwapchainUsage>,
    format: int,
    sampleCount: u32,
    width: u32,
    height: u32,
    faceCount: u32,
    arraySize: u32,
    mipCount: u32)

  datatype SubImage = SubImage(swapchain: SwapchainHandle, imageRect: Rect)
  datatype ProjectionView = ProjectionView(pose: Pose, fov: Fov, subImage: SubImage)
  datatype CompositionLayer = Projection(space: Space, views: seq<ProjectionView>)

  // ---------------------------------------------------------------------------
  // Calls

  /** Calls made by the application's frame callback and its window redraw. */
  datatype DrawCall =
    | UpdateScene(displayTime: int)            // locate both controller spaces and query their actions
    | BindFramebuffer(target: Option<Framebuffer>)  // None binds the window's own framebuffer
    | EnumerateImages(swapchain: SwapchainHandle)
    | AcquireImage(swapchain: SwapchainHandle)
    | WaitImage(swapchain: SwapchainHandle)      // with an infinite timeout
    | Viewport(x: i32, y: i32, width: i32, height: i32)
    | AttachColorTexture(image: Image)
    | SetCamera(view: View)                      // view and projection matrices from the view's pose and fov
    | RenderScene
    | ReleaseImage(swapchain: SwapchainHandle)

  /** Calls on the desktop window. */
  datatype WindowCall = RequestRedraw | SwapBuffers | ResizeContext(width: u32, height: u32)

  /** Every call a driver issues, in the order issued. */
  datatype Action =
    | SessionBegin(viewType: ViewConfigurationType)
    | SessionEnd
    | FrameWait
    | FrameBegin
    | FrameEnd(displayTime: int, blendMode: BlendMode, layers: seq<CompositionLayer>)
    | EnumerateViewConfigurationViews(viewType: ViewConfigurationType)
    | EnumerateSwapchainFormats
    | CreateSwapchain(info: SwapchainCreateInfo)
    | SyncActions
    | LocateViews(viewType: ViewConfigurationType, displayTime: int, space: Space)
    | Draw(call: DrawCall)
    | Window(wcall: WindowCall)

  /** The callback's calls as they appear among the driver's. */
  function Embed(d: seq<DrawCall>): (r: seq<Action>)
    ensures |r| == |d|
    ensures forall i :: 0 <= i < |d| ==> r[i] == Draw(d[i])
  {
    seq(|d|, i requires 0 <= i < |d| => Draw(d[i]))
  }

  lemma AppendAssoc<T>(a: seq<T>, b: seq<T>, c: seq<T>)
    ensures a + (b + c) == a + b + c
  {
  }

  lemma MiddleSlice<T>(p: seq<T>, d: seq<T>, e: T)
    ensures (p + d + [e])[|p| .. |p| + |d|] == d
  {
    var x := p + d + [e];
    assert forall i :: 0 <= i < |d| ==> x[|p| + i] == d[i];
  }

  /** Number of occurrences of `x` in `s`. */
  function Count<T(==)>(s: seq<T>, x: T): (n: nat)
    ensures n <= |s|
    ensures n == 0 <==> x !in s
  {
    if s == [] then 0 else (if s[0] == x then 1 else 0) + Count(s[1..], x)
  }

  lemma CountSingle<T>(a: T, x: T)
    ensures Count([a], x) == if a == x then 1 else 0
  {
    assert [a][1..] == [];
  }

  lemma {:induction false} CountConcat<T>(a: seq<T>, b: seq<T>, x: T)
    ensures Count(a + b, x) == Count(a, x) + Count(b, x)
  {
    if a == [] {
      assert a + b == b;
    } else {
      assert (a + b)[1..] == a[1..] + b;
      CountConcat(a[1..], b, x);
    }
  }
}
