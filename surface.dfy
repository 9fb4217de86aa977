/**
 * Swapchain parameter selection and the swapchain itself: surface format
 * and present mode picks, extent clamping, pre-transform and composite
 * alpha, the create info the library fills in, rebuilding on resize, and
 * the window-level resize of the Skeleton.
 */
module Surface {
  import opened Vk

  datatype ColorSpace = SrgbNonlinear | OtherColorSpace(code: nat)

  datatype SurfaceFormat = SurfaceFormat(format: Format, colorSpace: ColorSpace)

  datatype PresentMode =
    | Immediate
    | Mailbox
    | Fifo
    | FifoRelaxed
    | SharedDemandRefresh
    | SharedContinuousRefresh

  datatype Extent2D = Extent2D(width: nat, height: nat)

  /** VkSurfaceTransformFlagBitsKHR::eIdentity. */
  const IdentityTransform: bv32 := 0x1

  /** VkCompositeAlphaFlagBitsKHR. */
  const OpaqueAlpha: bv32 := 0x1
  const PreMultipliedAlpha: bv32 := 0x2
  const PostMultipliedAlpha: bv32 := 0x4
  const InheritAlpha: bv32 := 0x8

  /** The parts of VkSurfaceCapabilitiesKHR the library reads. */
  datatype SurfaceCapabilities = SurfaceCapabilities(
    minImageCount: nat,
    currentExtent: Extent2D,
    minImageExtent: Extent2D,
    maxImageExtent: Extent2D,
    supportedTransforms: bv32,
    currentTransform: bv32,
    supportedCompositeAlpha: bv32)

  /** The one target surface format. */
  const PreferredFormat := SurfaceFormat(B8G8R8A8Unorm, SrgbNonlinear)
  const TargetFormats: seq<SurfaceFormat> := [PreferredFormat]

  /** The target present modes, in priority order. */
  const TargetModes: seq<PresentMode> := [Mailbox, Immediate, Fifo]

  /** The first element of `xs` that occurs in `targets` (a loop over `xs` with a find in `targets`). */
  function FirstIn<T(==)>(xs: seq<T>, targets: seq<T>): (r: Option<T>)
    ensures r.None? <==> forall i :: 0 <= i < |xs| ==> xs[i] !in targets
    ensures r.Some? ==> r.value in targets
    ensures r.Some? ==> exists i :: 0 <= i < |xs| && xs[i] == r.value && (forall j :: 0 <= j < i ==> xs[j] !in targets)
  {
    if xs == [] then None
    else if xs[0] in targets then Some(xs[0])
    else
      var r := FirstIn(xs[1..], targets);
      assert forall j :: 1 <= j < |xs| ==> xs[j] == xs[1..][j - 1];
      assert r.Some? ==> exists i :: 0 <= i < |xs| && xs[i] == r.value && (forall j :: 0 <= j < i ==> xs[j] !in targets) by {
        if r.Some? {
          var i :| 0 <= i < |xs[1..]| && xs[1..][i] == r.value && (forall j :: 0 <= j < i ==> xs[1..][j] !in targets);
          assert xs[i + 1] == r.value;
        }
      }
      r
  }

  /**
   * pick_surface_format: a lone Undefined format means "anything goes" and
   * yields the preferred format; otherwise the first reported format equal
   * (format and colour space) to a target; None stands for the
   * runtime_error thrown when there is none.
   */
  function PickSurfaceFormat(formats: seq<SurfaceFormat>): (r: Option<SurfaceFormat>)
    ensures r.Some? ==> r.value == PreferredFormat
    ensures r.Some? <==> (|formats| == 1 && formats[0].format == Undefined) || PreferredFormat in formats
  {
    if |formats| == 1 && formats[0].format == Undefined then Some(PreferredFormat)
    else FirstIn(formats, TargetFormats)
  }

  /**
   * pick_present_mode: Mailbox whenever the surface offers it, otherwise the
   * first offered mode that is a target, otherwise (after an assertion
   * message that does not stop the program) FIFO.
   */
  function PickPresentMode(modes: seq<PresentMode>): (r: PresentMode)
    ensures r in TargetModes
    ensures Mailbox in modes <==> r == Mailbox
    ensures r in modes || (r == Fifo && forall i :: 0 <= i < |modes| ==> modes[i] !in TargetModes)
    ensures forall i :: 0 <= i < |modes| && modes[i] in TargetModes ==> r in modes[..i + 1] || r == Mailbox
  {
    if Mailbox in modes then Mailbox
    else match FirstIn(modes, TargetModes)
      case Some(m) => m
      case None => Fifo
  }

  /** Every Vulkan surface supports FIFO, and then the picked mode is one the surface supports. */
  lemma PresentModeSupported(modes: seq<PresentMode>)
    requires Fifo in modes
    ensures PickPresentMode(modes) in modes
  {
  }

  /** std::clamp(v, lo, hi) as libstdc++ evaluates it: `v < lo ? lo : hi < v ? hi : v`. */
  function Clamp(v: int, lo: int, hi: int): (r: int)
    ensures lo <= hi ==> lo <= r <= hi
    ensures lo <= v <= hi ==> r == v
    ensures r == v || r == lo || r == hi
  {
    if v < lo then lo else if hi < v then hi else v
  }

  /**
   * The swapchain extent: the surface's current extent, unless its width is
   * the uint32_t sentinel, in which case the requested extent is clamped
   * into the surface's limits dimension by dimension.
   */
  function ChooseExtent(requested: Extent2D, caps: SurfaceCapabilities): (r: Extent2D)
    ensures caps.currentExtent.width != Uint32Max ==> r == caps.currentExtent
    ensures caps.currentExtent.width == Uint32Max && caps.minImageExtent.width <= caps.maxImageExtent.width ==>
      caps.minImageExtent.width <= r.width <= caps.maxImageExtent.width
    ensures caps.currentExtent.width == Uint32Max && caps.minImageExtent.height <= caps.maxImageExtent.height ==>
      caps.minImageExtent.height <= r.height <= caps.maxImageExtent.height
    ensures caps.currentExtent.width == Uint32Max && ExtentWithin(requested, caps) ==> r == requested
  {
    if caps.currentExtent.width == Uint32Max then
      Extent2D(
        Clamp(requested.width, caps.minImageExtent.width, caps.maxImageExtent.width),
        Clamp(requested.height, caps.minImageExtent.height, caps.maxImageExtent.height))
    else
      caps.currentExtent
  }

  predicate ExtentWithin(e: Extent2D, caps: SurfaceCapabilities)
  {
    caps.minImageExtent.width <= e.width <= caps.maxImageExtent.width &&
    caps.minImageExtent.height <= e.height <= caps.maxImageExtent.height
  }

  /** The pre-transform: identity when the surface supports it, else the surface's current transform. */
  function PreTransform(caps: SurfaceCapabilities): (t: bv32)
    ensures t == IdentityTransform || t == caps.currentTransform
    ensures caps.supportedTransforms & IdentityTransform != 0 ==> t == IdentityTransform
  {
    if caps.supportedTransforms & IdentityTransform != 0 then IdentityTransform else caps.currentTransform
  }

  /** The chosen pre-transform is a supported one whenever the current transform is. */
  lemma PreTransformSupported(caps: SurfaceCapabilities)
    requires caps.currentTransform & caps.supportedTransforms != 0
    ensures PreTransform(caps) & caps.supportedTransforms != 0
  {
  }

  /** Composite alpha as the library writes it: opaque if supported, else pre-multiplied, supported or not. */
  function CompositeAlphaAsWritten(caps: SurfaceCapabilities): (a: bv32)
    ensures a == OpaqueAlpha || a == PreMultipliedAlpha
    ensures a == OpaqueAlpha <==> caps.supportedCompositeAlpha & OpaqueAlpha != 0
  {
    if caps.supportedCompositeAlpha & OpaqueAlpha != 0 then OpaqueAlpha else PreMultipliedAlpha
  }

  /** A surface that offers only inherited alpha gets a composite alpha it does not support. */
  lemma CompositeAlphaAsWrittenUnsupported()
    ensures CompositeAlphaAsWritten(InheritOnly) & InheritOnly.supportedCompositeAlpha == 0
  {
  }

  const InheritOnly := SurfaceCapabilities(2, Extent2D(800, 600), Extent2D(1, 1), Extent2D(4096, 4096), IdentityTransform, IdentityTransform, InheritAlpha)

  /** The alpha modes in the library's order of preference, followed by the remaining ones. */
  const AlphaPreference: seq<bv32> := [OpaqueAlpha, PreMultipliedAlpha, PostMultipliedAlpha, InheritAlpha]

  /**
   * Composite alpha chosen among the supported modes only: opaque first,
   * then pre-multiplied, post-multiplied, inherit.
   */
  function PickCompositeAlpha(caps: SurfaceCapabilities): (a: bv32)
    ensures a in AlphaPreference
  {
    var s := caps.supportedCompositeAlpha;
    if s & OpaqueAlpha != 0 then OpaqueAlpha
    else if s & PreMultipliedAlpha != 0 then PreMultipliedAlpha
    else if s & PostMultipliedAlpha != 0 then PostMultipliedAlpha
    else if s & InheritAlpha != 0 then InheritAlpha
    else OpaqueAlpha
  }

  /**
   * The corrected pick is supported whenever the surface reports any of the
   * four modes (which the Vulkan specification guarantees), and agrees with
   * the written one wherever that one was supported.
   */
  lemma PickCompositeAlphaSupported(caps: SurfaceCapabilities)
    ensures caps.supportedCompositeAlpha & 0xF != 0 ==> PickCompositeAlpha(caps) & caps.supportedCompositeAlpha != 0
    ensures CompositeAlphaAsWritten(caps) & caps.supportedCompositeAlpha != 0 ==>
      PickCompositeAlpha(caps) == CompositeAlphaAsWritten(caps)
  {
  }

  datatype SharingMode = Exclusive | Concurrent

  datatype QueueFamilyIndices = QueueFamilyIndices(graphics: nat, present: nat)

  /** ColorAttachment | TransferSrc | TransferDst image usage. */
  const SwapchainUsage: bv32 := 0x10 | 0x1 | 0x2

  /** The fields of VkSwapchainCreateInfoKHR the library sets. */
  datatype SwapchainCreateInfo = SwapchainCreateInfo(
    surface: Handle,
    minImageCount: nat,
    imageFormat: Format,
    imageColorSpace: ColorSpace,
    imageExtent: Extent2D,
    imageArrayLayers: nat,
    imageUsage: bv32,
    imageSharingMode: SharingMode,
    queueFamilyIndices: seq<nat>,
    preTransform: bv32,
    compositeAlpha: bv32,
    presentMode: PresentMode,
    clipped: bool,
    oldSwapchain: Handle)

  /**
   * The create info `swapchain()` fills in, or None when no surface format
   * is acceptable (the thrown runtime_error).
   */
  function SwapchainInfo(surface: Handle, caps: SurfaceCapabilities, formats: seq<SurfaceFormat>, modes: seq<PresentMode>,
                         extent: Extent2D, indices: QueueFamilyIndices, priorityMode: Option<PresentMode>, oldSwapchain: Handle)
    : (r: Option<SwapchainCreateInfo>)
    ensures r.None? <==> PickSurfaceFormat(formats).None?
    ensures r.Some? ==> r.value.imageFormat == B8G8R8A8Unorm && r.value.imageColorSpace == SrgbNonlinear
    ensures r.Some? ==> r.value.imageExtent == ChooseExtent(extent, caps) && r.value.minImageCount == caps.minImageCount
    ensures r.Some? ==> (r.value.imageSharingMode == Concurrent <==> indices.graphics != indices.present)
    ensures r.Some? ==> |r.value.queueFamilyIndices| == (if indices.graphics != indices.present then 2 else 0)
    ensures r.Some? ==> r.value.presentMode == (if priorityMode.Some? then priorityMode.value else PickPresentMode(modes))
    ensures r.Some? ==> r.value.preTransform == PreTransform(caps) && r.value.compositeAlpha == CompositeAlphaAsWritten(caps)
  {
    match PickSurfaceFormat(formats)
    case None => None
    case Some(sf) =>
      var concurrent := indices.graphics != indices.present;
      Some(SwapchainCreateInfo(
        surface, caps.minImageCount, sf.format, sf.colorSpace, ChooseExtent(extent, caps), 1, SwapchainUsage,
        if concurrent then Concurrent else Exclusive,
        if concurrent then [indices.graphics, indices.present] else [],
        PreTransform(caps), CompositeAlphaAsWritten(caps),
        if priorityMode.Some? then priorityMode.value else PickPresentMode(modes),
        true, oldSwapchain))
  }

  /**
   * The create info with the corrected composite alpha: the same choices in
   * every other field, and a composite alpha the surface supports whenever
   * it supports any.
   */
  function CorrectedSwapchainInfo(surface: Handle, caps: SurfaceCapabilities, formats: seq<SurfaceFormat>, modes: seq<PresentMode>,
                                  extent: Extent2D, indices: QueueFamilyIndices, priorityMode: Option<PresentMode>, oldSwapchain: Handle)
    : (r: Option<SwapchainCreateInfo>)
    ensures var w := SwapchainInfo(surface, caps, formats, modes, extent, indices, priorityMode, oldSwapchain);
      (r.None? <==> w.None?) && (r.Some? ==> r.value.(compositeAlpha := w.value.compositeAlpha) == w.value)
    ensures r.Some? ==> r.value.compositeAlpha & caps.supportedCompositeAlpha != 0 || caps.supportedCompositeAlpha & 0xF == 0
  {
    match SwapchainInfo(surface, caps, formats, modes, extent, indices, priorityMode, oldSwapchain)
    case None => None
    case Some(info) =>
      PickCompositeAlphaSupported(caps);
      Some(info.(compositeAlpha := PickCompositeAlpha(caps)))
  }

  /** The natives a list of handles of one kind stands for. */
  function Natives(kind: Kind, hs: seq<Handle>): (ns: seq<Native>)
    ensures |ns| == |hs| && forall i :: 0 <= i < |hs| ==> ns[i] == Native(kind, hs[i])
  {
    if hs == [] then [] else [Native(kind, hs[0])] + Natives(kind, hs[1..])
  }

  lemma {:induction false} NativesAppend(kind: Kind, a: seq<Handle>, b: seq<Handle>)
    ensures Natives(kind, a + b) == Natives(kind, a) + Natives(kind, b)
  {
    if a != [] {
      assert (a + b)[1..] == a[1..] + b;
      NativesAppend(kind, a[1..], b);
    } else {
      assert a + b == b;
    }
  }

  /** The image views a list of handles stands for, as destroyed resources. */
  function Views(hs: seq<Handle>): (rs: seq<Resource>)
    ensures |rs| == |hs| && forall i :: 0 <= i < |hs| ==> rs[i] == Object(ImageViewObject, hs[i])
  {
    if hs == [] then [] else [Object(ImageViewObject, hs[0])] + Views(hs[1..])
  }

  lemma {:induction false} ViewsAppend(a: seq<Handle>, b: seq<Handle>)
    ensures Views(a + b) == Views(a) + Views(b)
  {
    if a != [] {
      assert (a + b)[1..] == a[1..] + b;
      ViewsAppend(a[1..], b);
    } else {
      assert a + b == b;
    }
  }

  /** Creates `count` objects of one kind, in order (getSwapchainImagesKHR, or one createImageView per image). */
  method CreateEach(device: Device, kind: Kind, count: nat) returns (hs: seq<Handle>)
    requires device.Valid()
    modifies device
    ensures device.Valid() && device.destroyed == old(device.destroyed)
    ensures |hs| == count && device.created == old(device.created) + Natives(kind, hs)
  {
    hs := [];
    while |hs| < count
      invariant |hs| <= count
      invariant device.Valid() && device.destroyed == old(device.destroyed)
      invariant device.created == old(device.created) + Natives(kind, hs)
    {
      var h := device.Create(kind);
      NativesAppend(kind, hs, [h]);
      hs := hs + [h];
    }
  }

  /** Destroys every view of a list, in order. */
  method DestroyViews(device: Device, views: seq<Handle>)
    modifies device
    ensures device.destroyed == old(device.destroyed) + Views(views) && device.created == old(device.created)
  {
    var i := 0;
    while i < |views|
      invariant 0 <= i <= |views|
      invariant device.destroyed == old(device.destroyed) + Views(views[..i]) && device.created == old(device.created)
    {
      device.Destroy(Object(ImageViewObject, views[i]));
      assert views[..i + 1] == views[..i] + [views[i]];
      ViewsAppend(views[..i], [views[i]]);
      i := i + 1;
    }
    assert views[..i] == views;
  }

  /**
   * The objects behind a swapchain, in creation order: the swapchain, the
   * `imageCount` images the driver reports, then one view per image.
   */
  method CreateSwapchainObjects(device: Device, imageCount: nat) returns (h: Handle, images: seq<Handle>, views: seq<Handle>)
    requires device.Valid()
    modifies device
    ensures device.Valid() && device.destroyed == old(device.destroyed)
    ensures |images| == imageCount && |views| == imageCount
    ensures device.created == old(device.created) + [Native(SwapchainObject, h)] +
      Natives(ImageObject, images) + Natives(ImageViewObject, views)
  {
    h := device.Create(SwapchainObject);
    images := CreateEach(device, ImageObject, imageCount);
    views := CreateEach(device, ImageViewObject, |images|);
  }

  /** The swapchain with its images, one view per image, and the create info it was built from. */
  class Swapchain {
    var format: Format
    var handle: Handle
    var images: seq<Handle>
    var imageViews: seq<Handle>
    var info: SwapchainCreateInfo

    ghost predicate Valid()
      reads this
    {
      |imageViews| == |images|
    }

    /**
     * `swapchain()` after the format was picked: creates the swapchain from
     * `info`, takes the `imageCount` images the driver reports and creates
     * one view per image, in image order.
     */
    constructor (device: Device, info: SwapchainCreateInfo, imageCount: nat)
      requires device.Valid()
      modifies device
      ensures Valid() && device.Valid()
      ensures this.info == info && format == info.imageFormat && |images| == imageCount
      ensures device.created == old(device.created) + [Native(SwapchainObject, handle)] +
        Natives(ImageObject, images) + Natives(ImageViewObject, imageViews)
      ensures device.destroyed == old(device.destroyed)
    {
      format := info.imageFormat;
      this.info := info;
      var h, imgs, views := CreateSwapchainObjects(device, imageCount);
      handle := h;
      images := imgs;
      imageViews := views;
    }

    /**
     * `resize()`: destroys the views (in order) and the swapchain, records
     * the new extent in the kept create info, recreates the swapchain from
     * it, takes the new images and rebuilds the view list from scratch, one
     * view per new image.
     */
    method Resize(device: Device, extent: Extent2D, imageCount: nat)
      requires device.Valid()
      modifies this, device
      ensures Valid() && device.Valid()
      ensures device.destroyed == old(device.destroyed) + Views(old(imageViews)) + [Object(SwapchainObject, old(handle))]
      ensures info == old(info).(imageExtent := extent) && format == old(format)
      ensures |images| == imageCount
      ensures device.created == old(device.created) + [Native(SwapchainObject, handle)] +
        Natives(ImageObject, images) + Natives(ImageViewObject, imageViews)
    {
      DestroySwapchain(device, this);
      info := info.(imageExtent := extent);
      var h, imgs, views := CreateSwapchainObjects(device, imageCount);
      handle := h;
      images := imgs;
      imageViews := [];
      imageViews := views;
    }
  }

  /**
   * destroy_swapchain: destroys the views, in order, then the swapchain,
   * and creates nothing. The swapchain's images belong to it and are not
   * destroyed one by one.
   */
  method DestroySwapchain(device: Device, swapchain: Swapchain)
    modifies device
    ensures device.destroyed == old(device.destroyed) + Views(swapchain.imageViews) + [Object(SwapchainObject, swapchain.handle)]
    ensures device.created == old(device.created)
  {
    DestroyViews(device, swapchain.imageViews);
    device.Destroy(Object(SwapchainObject, swapchain.handle));
  }

  /** The int(uint32_t) conversion: values above INT32_MAX wrap to negatives. */
  function ToInt32(u: nat): int
    requires u <= Uint32Max
  {
    if u < 0x8000_0000 then u else u - 0x1_0000_0000
  }

  /** The uint32_t(int) conversion: reduction modulo 2^32. */
  function ToUint32(i: int): nat
  {
    i % 0x1_0000_0000
  }

  /**
   * Skeleton::resize's new extent: the stable framebuffer size, clamped as
   * an int into the surface limits (themselves converted to int), then
   * converted back to uint32_t.
   */
  function ResizeExtent(framebufferWidth: int, framebufferHeight: int, caps: SurfaceCapabilities): (e: Extent2D)
    requires caps.minImageExtent.width <= Uint32Max && caps.maxImageExtent.width <= Uint32Max
    requires caps.minImageExtent.height <= Uint32Max && caps.maxImageExtent.height <= Uint32Max
    ensures caps.minImageExtent.width <= caps.maxImageExtent.width < 0x8000_0000 ==>
      caps.minImageExtent.width <= e.width <= caps.maxImageExtent.width
    ensures caps.minImageExtent.height <= caps.maxImageExtent.height < 0x8000_0000 ==>
      caps.minImageExtent.height <= e.height <= caps.maxImageExtent.height
    ensures caps.maxImageExtent.width < 0x8000_0000 && caps.maxImageExtent.height < 0x8000_0000 &&
      caps.minImageExtent.width <= framebufferWidth <= caps.maxImageExtent.width &&
      caps.minImageExtent.height <= framebufferHeight <= caps.maxImageExtent.height
      ==> e == Extent2D(framebufferWidth, framebufferHeight)
  {
    Extent2D(
      ToUint32(Clamp(framebufferWidth, ToInt32(caps.minImageExtent.width), ToInt32(caps.maxImageExtent.width))),
      ToUint32(Clamp(framebufferHeight, ToInt32(caps.minImageExtent.height), ToInt32(caps.maxImageExtent.height))))
  }

  /** The application skeleton's window extent and swapchain. */
  class Skeleton {
    var windowExtent: Extent2D
    const swapchain: Swapchain

    constructor (windowExtent: Extent2D, swapchain: Swapchain)
      ensures this.windowExtent == windowExtent && this.swapchain == swapchain
    {
      this.windowExtent := windowExtent;
      this.swapchain := swapchain;
    }

    /**
     * Skeleton::resize after the framebuffer size is stable: clamps it into
     * the surface limits, resizes the swapchain to that extent (the old views
     * and swapchain destroyed, a new swapchain, its images and one view each
     * created), and makes it the window's extent.
     */
    method Resize(device: Device, framebufferWidth: int, framebufferHeight: int, caps: SurfaceCapabilities, imageCount: nat)
      requires device.Valid()
      requires caps.minImageExtent.width <= Uint32Max && caps.maxImageExtent.width <= Uint32Max
      requires caps.minImageExtent.height <= Uint32Max && caps.maxImageExtent.height <= Uint32Max
      modifies this, swapchain, device
      ensures device.Valid() && swapchain.Valid()
      ensures windowExtent == ResizeExtent(framebufferWidth, framebufferHeight, caps)
      ensures swapchain.info == old(swapchain.info).(imageExtent := windowExtent)
      ensures swapchain.format == old(swapchain.format) && |swapchain.images| == imageCount
      ensures device.destroyed == old(device.destroyed) + Views(old(swapchain.imageViews)) + [Object(SwapchainObject, old(swapchain.handle))]
      ensures device.created == old(device.created) + [Native(SwapchainObject, swapchain.handle)] +
        Natives(ImageObject, swapchain.images) + Natives(ImageViewObject, swapchain.imageViews)
    {
      var e := ResizeExtent(framebufferWidth, framebufferHeight, caps);
      swapchain.Resize(device, e, imageCount);
      windowExtent := e;
    }
  }
}
