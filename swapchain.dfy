/**
 * Swapchain creation, destruction, recreation and the handling of the
 * results of image acquisition and presentation
 * (renderer/vulkan/vulkan_swapchain.c).
 *
 * Every Vulkan call is outside the model: what the driver answers during a
 * create (the re-queried surface capabilities, the new swapchain handle, the
 * swapchain's images and the detected depth format) is the input
 * `CreateReply`, and the VkResult of an acquire or present is an input too.
 */
module Swapchain {
  import opened Common
  import opened VulkanTypes

  datatype SurfaceFormat = SurfaceFormat(format: nat, colorSpace: nat)
  datatype Extent = Extent(width: nat, height: nat)

  /** The fields of VkSurfaceCapabilitiesKHR the swapchain uses. */
  datatype Capabilities = Capabilities(
    currentExtent: Extent,
    minImageExtent: Extent,
    maxImageExtent: Extent,
    minImageCount: nat,
    maxImageCount: nat,
    currentTransform: nat)

  /** One snapshot of what the surface supports. */
  datatype SwapchainSupport = SwapchainSupport(
    capabilities: Capabilities,
    formats: seq<SurfaceFormat>,
    presentModes: seq<nat>)

  datatype SharingMode = Exclusive | Concurrent

  /** The parameters passed to vkCreateSwapchainKHR. */
  datatype SwapchainCreateInfo = SwapchainCreateInfo(
    minImageCount: nat,
    imageFormat: SurfaceFormat,
    imageExtent: Extent,
    imageArrayLayers: nat,
    imageSharingMode: SharingMode,
    queueFamilyIndices: seq<nat>,
    preTransform: nat,
    presentMode: nat,
    clipped: bool)

  /** A 2D colour view of one swapchain image. */
  datatype ImageView = ImageView(image: Handle, format: nat)

  /** The depth image created for the swapchain. */
  datatype DepthAttachment = DepthAttachment(width: nat, height: nat, format: nat)

  /** An object handed back to the driver by a destroy. */
  datatype Released =
    | ReleasedDepth(depth: DepthAttachment)
    | ReleasedView(view: ImageView)
    | ReleasedSwapchain(handle: Handle)

  /** What the driver answers during one create. */
  datatype CreateReply = CreateReply(
    requeried: SwapchainSupport,
    handle: Handle,
    images: seq<Handle>,
    depthFormat: Option<nat>)

  /** The parameters passed to vkQueuePresentKHR. */
  datatype PresentInfo = PresentInfo(waitSemaphores: seq<Handle>, swapchains: seq<Handle>, imageIndices: seq<nat>)

  /** What the caller does after an acquire or present result. */
  datatype Outcome = Proceed | Rebuild | Fail

  const PREFERRED_FORMAT: SurfaceFormat := SurfaceFormat(VK_FORMAT_B8G8R8A8_UNORM, VK_COLOR_SPACE_SRGB_NONLINEAR_KHR)
  const MAX_FRAMES_IN_FLIGHT: nat := 2

  /** The surface format create settles on. */
  function SelectedFormat(formats: seq<SurfaceFormat>): (r: SurfaceFormat)
    requires |formats| > 0
    ensures r in formats
    ensures r == PREFERRED_FORMAT <==> PREFERRED_FORMAT in formats
    ensures PREFERRED_FORMAT !in formats ==> r == formats[0]
  {
    if PREFERRED_FORMAT in formats then PREFERRED_FORMAT else formats[0]
  }

  /** The present mode create settles on: mailbox when offered, else FIFO, which every surface supports. */
  function SelectedPresentMode(modes: seq<nat>): (r: nat)
    ensures r == VK_PRESENT_MODE_MAILBOX_KHR || r == VK_PRESENT_MODE_FIFO_KHR
    ensures r == VK_PRESENT_MODE_MAILBOX_KHR <==> VK_PRESENT_MODE_MAILBOX_KHR in modes
  {
    if VK_PRESENT_MODE_MAILBOX_KHR in modes then VK_PRESENT_MODE_MAILBOX_KHR else VK_PRESENT_MODE_FIFO_KHR
  }

  /** PCLAMP: `value` brought into [lo, hi]. */
  function Clamp(value: nat, lo: nat, hi: nat): (r: nat)
    ensures lo <= hi ==> lo <= r <= hi
    ensures lo <= value <= hi ==> r == value
    ensures value < lo ==> r == lo
    ensures lo <= hi < value ==> r == hi
  {
    if value <= lo then lo else if value >= hi then hi else value
  }

  predicate WithinBounds(e: Extent, caps: Capabilities)
  {
    && caps.minImageExtent.width <= e.width <= caps.maxImageExtent.width
    && caps.minImageExtent.height <= e.height <= caps.maxImageExtent.height
  }

  predicate BoundsOrdered(caps: Capabilities)
  {
    caps.minImageExtent.width <= caps.maxImageExtent.width && caps.minImageExtent.height <= caps.maxImageExtent.height
  }

  /**
   * The swapchain extent: the surface's current extent when it has one
   * (width other than UINT32_MAX), else the requested size; each dimension
   * then clamped into the surface's bounds.
   */
  function SelectedExtent(requested: Extent, caps: Capabilities): (e: Extent)
    ensures BoundsOrdered(caps) ==> WithinBounds(e, caps)
    // The base is the current extent when the surface has one, else the requested size.
    ensures var base := if caps.currentExtent.width != UINT32_MAX then caps.currentExtent else requested;
      && (base.width < caps.minImageExtent.width ==> e.width == caps.minImageExtent.width)
      && (caps.minImageExtent.width <= caps.maxImageExtent.width < base.width ==> e.width == caps.maxImageExtent.width)
      && (caps.minImageExtent.width <= base.width <= caps.maxImageExtent.width ==> e.width == base.width)
      && (base.height < caps.minImageExtent.height ==> e.height == caps.minImageExtent.height)
      && (caps.minImageExtent.height <= caps.maxImageExtent.height < base.height ==> e.height == caps.maxImageExtent.height)
      && (caps.minImageExtent.height <= base.height <= caps.maxImageExtent.height ==> e.height == base.height)
    ensures caps.currentExtent.width != UINT32_MAX && WithinBounds(caps.currentExtent, caps) ==> e == caps.currentExtent
    ensures caps.currentExtent.width == UINT32_MAX && WithinBounds(requested, caps) ==> e == requested
  {
    var base := if caps.currentExtent.width != UINT32_MAX then caps.currentExtent else requested;
    Extent(
      Clamp(base.width, caps.minImageExtent.width, caps.maxImageExtent.width),
      Clamp(base.height, caps.minImageExtent.height, caps.maxImageExtent.height))
  }

  /**
   * Each dimension is clamped on its own: when the surface lets the size be
   * chosen, the chosen width depends only on the requested width and the
   * chosen height only on the requested height.
   */
  lemma ExtentDimensionsIndependent(r1: Extent, r2: Extent, caps: Capabilities)
    requires caps.currentExtent.width == UINT32_MAX
    ensures r1.width == r2.width ==> SelectedExtent(r1, caps).width == SelectedExtent(r2, caps).width
    ensures r1.height == r2.height ==> SelectedExtent(r1, caps).height == SelectedExtent(r2, caps).height
  {
  }

  /**
   * The clamp of create on a surface without a current extent, bounds
   * (1, 1)..(4096, 4096): a request of 10000 x 100 gives 4096 x 100.
   */
  lemma ExtentClampExample()
    ensures var caps := Capabilities(Extent(UINT32_MAX, UINT32_MAX), Extent(1, 1), Extent(4096, 4096), 2, 0, 0);
      SelectedExtent(Extent(10000, 100), caps) == Extent(4096, 100)
  {
  }

  /**
   * Asking again for the extent a create chose gives the same extent, so a
   * recreate at the size the swapchain already has keeps that size.
   */
  lemma SelectedExtentIdempotent(requested: Extent, caps: Capabilities)
    requires BoundsOrdered(caps)
    ensures SelectedExtent(SelectedExtent(requested, caps), caps) == SelectedExtent(requested, caps)
  {
    var e := SelectedExtent(requested, caps);
    assert WithinBounds(e, caps);
  }

  /**
   * The image count asked for: one more than the surface's minimum, lowered
   * to its maximum when the surface has one (0 means no maximum).
   */
  function SelectedImageCount(caps: Capabilities): (n: nat)
    ensures n >= 1
    ensures n <= caps.minImageCount + 1
    ensures caps.maxImageCount > 0 ==> n <= caps.maxImageCount
    ensures caps.maxImageCount == 0 || caps.minImageCount + 1 <= caps.maxImageCount ==> n == caps.minImageCount + 1
    ensures 0 < caps.maxImageCount < caps.minImageCount + 1 ==> n == caps.maxImageCount
  {
    var count := caps.minImageCount + 1;
    if caps.maxImageCount > 0 && count > caps.maxImageCount then caps.maxImageCount else count
  }

  /**
   * Image sharing: concurrent between the two queue families exactly when
   * graphics and presentation use different families, else exclusive with no
   * family list.
   */
  function SelectedSharing(graphics: nat, present: nat): (r: (SharingMode, seq<nat>))
    ensures r.0 == Concurrent <==> graphics != present
    ensures r.0 == Concurrent ==> r.1 == [graphics, present]
    ensures r.0 == Exclusive ==> r.1 == []
  {
    if graphics != present then (Concurrent, [graphics, present]) else (Exclusive, [])
  }

  /**
   * The create info of one create: format and present mode from the snapshot
   * held before the re-query, extent, count and transform from the re-queried
   * capabilities.
   */
  function CreateInfoFor(before: SwapchainSupport, caps: Capabilities, width: nat, height: nat, graphics: nat, present: nat): (r: SwapchainCreateInfo)
    requires |before.formats| > 0
    ensures r.imageFormat == SelectedFormat(before.formats) && r.presentMode == SelectedPresentMode(before.presentModes)
    ensures r.imageExtent == SelectedExtent(Extent(width, height), caps) && r.minImageCount == SelectedImageCount(caps)
    ensures r.imageFormat in before.formats && r.presentMode in {VK_PRESENT_MODE_MAILBOX_KHR, VK_PRESENT_MODE_FIFO_KHR}
    ensures r.presentMode in before.presentModes || r.presentMode == VK_PRESENT_MODE_FIFO_KHR
    ensures BoundsOrdered(caps) ==> WithinBounds(r.imageExtent, caps)
    ensures r.minImageCount >= 1 && (caps.maxImageCount > 0 ==> r.minImageCount <= caps.maxImageCount)
    ensures r.imageArrayLayers == 1 && r.clipped && r.preTransform == caps.currentTransform
    ensures r.imageSharingMode == Concurrent <==> graphics != present
    ensures r.imageSharingMode == Concurrent ==> r.queueFamilyIndices == [graphics, present]
    ensures r.imageSharingMode == Exclusive ==> r.queueFamilyIndices == []
  {
    var sharing := SelectedSharing(graphics, present);
    SwapchainCreateInfo(
      SelectedImageCount(caps),
      SelectedFormat(before.formats),
      SelectedExtent(Extent(width, height), caps),
      1,
      sharing.0,
      sharing.1,
      caps.currentTransform,
      SelectedPresentMode(before.presentModes),
      true)
  }

  /**
   * Creating twice from an unchanged surface snapshot, the second time at the
   * extent the first chose, gives the same create info.
   */
  lemma RecreateAtSameSizeIsStable(s: SwapchainSupport, width: nat, height: nat, graphics: nat, present: nat)
    requires |s.formats| > 0 && BoundsOrdered(s.capabilities)
    ensures var first := CreateInfoFor(s, s.capabilities, width, height, graphics, present);
      CreateInfoFor(s, s.capabilities, first.imageExtent.width, first.imageExtent.height, graphics, present) == first
  {
    SelectedExtentIdempotent(Extent(width, height), s.capabilities);
  }

  /** The depth format a create records: the detected one, or VK_FORMAT_UNDEFINED. */
  function DepthFormatOf(reply: CreateReply): (f: nat)
    ensures reply.depthFormat.None? ==> f == VK_FORMAT_UNDEFINED
    ensures reply.depthFormat.Some? ==> f == reply.depthFormat.value
  {
    if reply.depthFormat.Some? then reply.depthFormat.value else VK_FORMAT_UNDEFINED
  }

  /** What a destroy releases, in order: the depth image, every view, the swapchain. */
  function ReleaseOrder(depth: DepthAttachment, views: seq<ImageView>, handle: Handle): (r: seq<Released>)
    ensures |r| == |views| + 2
    ensures r[0] == ReleasedDepth(depth) && r[|views| + 1] == ReleasedSwapchain(handle)
    ensures forall i :: 0 <= i < |views| ==> r[i + 1] == ReleasedView(views[i])
  {
    [ReleasedDepth(depth)] + seq(|views|, i requires 0 <= i < |views| => ReleasedView(views[i])) + [ReleasedSwapchain(handle)]
  }

  /** Handling of a vkAcquireNextImageKHR result. */
  function AcquireOutcome(result: int): (o: Outcome)
    ensures o == Rebuild <==> result == VK_ERROR_OUT_OF_DATE_KHR
    ensures o == Proceed <==> result == VK_SUCCESS || result == VK_SUBOPTIMAL_KHR
  {
    if result == VK_ERROR_OUT_OF_DATE_KHR then Rebuild
    else if result != VK_SUCCESS && result != VK_SUBOPTIMAL_KHR then Fail
    else Proceed
  }

  /** Handling of a vkQueuePresentKHR result; Fail only logs a fatal message. */
  function PresentOutcome(result: int): (o: Outcome)
    ensures o == Rebuild <==> result == VK_ERROR_OUT_OF_DATE_KHR || result == VK_SUBOPTIMAL_KHR
    ensures o == Proceed <==> result == VK_SUCCESS
  {
    if result == VK_ERROR_OUT_OF_DATE_KHR || result == VK_SUBOPTIMAL_KHR then Rebuild
    else if result != VK_SUCCESS then Fail
    else Proceed
  }

  /**
   * Present recreates on every result acquire recreates on, and also on
   * VK_SUBOPTIMAL_KHR, which acquire accepts.
   */
  lemma PresentRecreatesMoreOften(result: int)
    ensures AcquireOutcome(result) == Rebuild ==> PresentOutcome(result) == Rebuild
    ensures AcquireOutcome(VK_SUBOPTIMAL_KHR) == Proceed && PresentOutcome(VK_SUBOPTIMAL_KHR) == Rebuild
    ensures PresentOutcome(result) == Proceed ==> AcquireOutcome(result) == Proceed
  {
  }

  /**
   * A timeout, a not-ready image, a lost device or a lost surface refuses the
   * frame on acquire and present alike, without recreating the swapchain.
   */
  lemma OtherResultsFailWithoutRebuild()
    ensures AcquireOutcome(VK_NOT_READY) == Fail && PresentOutcome(VK_NOT_READY) == Fail
    ensures AcquireOutcome(VK_TIMEOUT) == Fail && PresentOutcome(VK_TIMEOUT) == Fail
    ensures AcquireOutcome(VK_ERROR_DEVICE_LOST) == Fail && PresentOutcome(VK_ERROR_DEVICE_LOST) == Fail
    ensures AcquireOutcome(VK_ERROR_SURFACE_LOST_KHR) == Fail && PresentOutcome(VK_ERROR_SURFACE_LOST_KHR) == Fail
  {
  }

  /**
   * A surface offering only R8G8B8A8_UNORM gets that format, the preferred
   * pair wins wherever it stands in the list, and a surface offering only
   * IMMEDIATE and FIFO_RELAXED gets FIFO, which every surface supports.
   */
  lemma FallbackChoices()
    ensures SelectedFormat([SurfaceFormat(VK_FORMAT_R8G8B8A8_UNORM, VK_COLOR_SPACE_SRGB_NONLINEAR_KHR)])
      == SurfaceFormat(VK_FORMAT_R8G8B8A8_UNORM, VK_COLOR_SPACE_SRGB_NONLINEAR_KHR)
    ensures SelectedFormat([SurfaceFormat(VK_FORMAT_R8G8B8A8_UNORM, VK_COLOR_SPACE_SRGB_NONLINEAR_KHR), PREFERRED_FORMAT])
      == PREFERRED_FORMAT
    ensures SelectedPresentMode([VK_PRESENT_MODE_IMMEDIATE_KHR, VK_PRESENT_MODE_FIFO_RELAXED_KHR]) == VK_PRESENT_MODE_FIFO_KHR
  {
  }

  /**
   * The number of image (or view) slots a create leaves, as the C text
   * decides it: storage the swapchain already holds is kept whatever its
   * length (`existing`), and new storage is sized for `count` images.
   */
  function ImageSlotsAsWritten(existing: Option<nat>, count: nat): (slots: nat)
    ensures existing.None? ==> slots == count
    ensures existing.Some? ==> slots == existing.value
  {
    if existing.Some? then existing.value else count
  }

  /**
   * Under the literal rule the slots suffice for the new image count exactly
   * when there was no storage yet or the old storage was already large
   * enough. StoreImages needs at least one slot per image, so a recreate
   * after which the driver reports more images than before writes past the
   * kept storage: with 2 images at first and 3 after the recreate, 3 images
   * and 3 views go into 2 slots.
   */
  lemma RecreateWithMoreImagesOverruns(existing: Option<nat>, count: nat)
    ensures count <= ImageSlotsAsWritten(existing, count) <==> existing.None? || count <= existing.value
    ensures ImageSlotsAsWritten(Some(2), 3) < 3
  {
  }

  /** The loop of create that looks for the preferred surface format. */
  method ChooseSurfaceFormat(formats: seq<SurfaceFormat>) returns (r: SurfaceFormat)
    requires |formats| > 0
    ensures r == SelectedFormat(formats)
  {
    var found := false;
    var i := 0;
    while i < |formats|
      invariant 0 <= i <= |formats|
      invariant forall k :: 0 <= k < i ==> formats[k] != PREFERRED_FORMAT
    {
      var format := formats[i];
      if format.format == VK_FORMAT_B8G8R8A8_UNORM && format.colorSpace == VK_COLOR_SPACE_SRGB_NONLINEAR_KHR {
        r := format;
        found := true;
        break;
      }
      i := i + 1;
    }
    if !found {
      r := formats[0];
    }
  }

  /** The loop of create that looks for the mailbox present mode. */
  method ChoosePresentMode(modes: seq<nat>) returns (r: nat)
    ensures r == SelectedPresentMode(modes)
  {
    r := VK_PRESENT_MODE_FIFO_KHR;
    var i := 0;
    while i < |modes|
      invariant 0 <= i <= |modes|
      invariant forall k :: 0 <= k < i ==> modes[k] != VK_PRESENT_MODE_MAILBOX_KHR
      invariant r == VK_PRESENT_MODE_FIFO_KHR
    {
      var mode := modes[i];
      if mode == VK_PRESENT_MODE_MAILBOX_KHR {
        r := mode;
        break;
      }
      i := i + 1;
    }
  }

  /**
   * The computation of the create info inside create: format and present
   * mode chosen from `before`, the extent, image count and transform from the
   * re-queried capabilities `caps`.
   */
  method ComputeCreateInfo(before: SwapchainSupport, caps: Capabilities, width: nat, height: nat, graphics: nat, present: nat)
    returns (info: SwapchainCreateInfo)
    requires |before.formats| > 0
    ensures info == CreateInfoFor(before, caps, width, height, graphics, present)
  {
    var format := ChooseSurfaceFormat(before.formats);
    var presentMode := ChoosePresentMode(before.presentModes);

    var extent := Extent(width, height);
    if caps.currentExtent.width != UINT32_MAX {
      extent := caps.currentExtent;
    }
    extent := Extent(
      Clamp(extent.width, caps.minImageExtent.width, caps.maxImageExtent.width),
      Clamp(extent.height, caps.minImageExtent.height, caps.maxImageExtent.height));

    var count := caps.minImageCount + 1;
    if caps.maxImageCount > 0 && count > caps.maxImageCount {
      count := caps.maxImageCount;
    }

    var sharingMode: SharingMode;
    var familyIndices: seq<nat>;
    if graphics != present {
      sharingMode, familyIndices := Concurrent, [graphics, present];
    } else {
      sharingMode, familyIndices := Exclusive, [];
    }

    info := SwapchainCreateInfo(count, format, extent, 1, sharingMode, familyIndices,
                                caps.currentTransform, presentMode, true);
  }

  /** The part of the renderer context the swapchain reads and writes. */
  class Context {
    var support: SwapchainSupport
    var graphicsQueueIndex: nat
    var presentQueueIndex: nat
    var framebufferWidth: nat
    var framebufferHeight: nat
    var currentFrame: nat
    var depthFormat: nat

    constructor (support: SwapchainSupport, graphics: nat, present: nat, width: nat, height: nat)
      ensures this.support == support && graphicsQueueIndex == graphics && presentQueueIndex == present
      ensures framebufferWidth == width && framebufferHeight == height
      ensures currentFrame == 0 && depthFormat == VK_FORMAT_UNDEFINED
    {
      this.support := support;
      graphicsQueueIndex, presentQueueIndex := graphics, present;
      framebufferWidth, framebufferHeight := width, height;
      currentFrame, depthFormat := 0, VK_FORMAT_UNDEFINED;
    }
  }

  class Swapchain {
    var handle: Handle
    var imageFormat: SurfaceFormat
    var maxFramesInFlight: nat
    var imageCount: nat
    var images: array?<Handle>
    var views: array?<ImageView>
    var depthAttachment: DepthAttachment
    // The parameters the current handle was created with.
    ghost var createdWith: SwapchainCreateInfo

    /** One view per image, each a view of that image in the swapchain's format. */
    ghost predicate Valid()
      reads this, images, views
    {
      && images != null && views != null
      && imageCount <= images.Length && imageCount <= views.Length
      && forall i :: 0 <= i < imageCount ==> views[i] == ImageView(images[i], imageFormat.format)
    }

    /**
     * The state after a create on `ctx` at `width` x `height`, when the
     * context's snapshot before the re-query was `before` and the driver
     * answered `reply`.
     */
    ghost predicate Created(ctx: Context, before: SwapchainSupport, width: nat, height: nat, reply: CreateReply)
      reads this, images, views, ctx
      requires |before.formats| > 0
    {
      && Configured(ctx, before, width, height, reply)
      && Valid()
      && images[..imageCount] == reply.images
    }

    /** Everything a create settles apart from the contents of the image and view storage. */
    ghost predicate Configured(ctx: Context, before: SwapchainSupport, width: nat, height: nat, reply: CreateReply)
      reads this`createdWith, this`imageFormat, this`maxFramesInFlight, this`handle, this`imageCount,
            this`depthAttachment, ctx
      requires |before.formats| > 0
    {
      && createdWith == CreateInfoFor(before, reply.requeried.capabilities, width, height,
                                      ctx.graphicsQueueIndex, ctx.presentQueueIndex)
      && imageFormat == SelectedFormat(before.formats)
      && maxFramesInFlight == MAX_FRAMES_IN_FLIGHT
      && handle == reply.handle
      && imageCount == |reply.images|
      && ctx.depthFormat == DepthFormatOf(reply)
      && depthAttachment == DepthAttachment(createdWith.imageExtent.width, createdWith.imageExtent.height, ctx.depthFormat)
      && ctx.support == reply.requeried
      && ctx.currentFrame == 0
    }

    /** A zeroed swapchain struct: no image or view storage yet. */
    constructor ()
      ensures images == null && views == null && imageCount == 0 && handle == NULL_HANDLE
    {
      images, views, imageCount, handle := null, null, 0, NULL_HANDLE;
    }

    /**
     * `create` / `vulkan_swapchain_create`. Image and view storage is
     * allocated when absent (or too small for the new image count) and
     * reused otherwise.
     */
    method Create(ctx: Context, width: nat, height: nat, reply: CreateReply)
      requires |ctx.support.formats| > 0
      modifies this, ctx, images, views
      ensures Created(ctx, old(ctx.support), width, height, reply)
      ensures ctx.graphicsQueueIndex == old(ctx.graphicsQueueIndex) && ctx.presentQueueIndex == old(ctx.presentQueueIndex)
      ensures ctx.framebufferWidth == old(ctx.framebufferWidth) && ctx.framebufferHeight == old(ctx.framebufferHeight)
      ensures old(images) != null && imageCount <= old(images).Length ==> images == old(images)
      ensures old(views) != null && imageCount <= old(views).Length ==> views == old(views)
      ensures images != old(images) ==> fresh(images)
      ensures views != old(views) ==> fresh(views)
    {
      Configure(ctx, width, height, reply);
      AllocateStorage(imageCount);
      StoreImages(reply.images);
    }

    /** The part of create that fills in the swapchain's and the context's fields. */
    method Configure(ctx: Context, width: nat, height: nat, reply: CreateReply)
      requires |ctx.support.formats| > 0
      modifies this`createdWith, this`imageFormat, this`maxFramesInFlight, this`handle, this`imageCount,
               this`depthAttachment, ctx
      ensures Configured(ctx, old(ctx.support), width, height, reply)
      ensures ctx.graphicsQueueIndex == old(ctx.graphicsQueueIndex) && ctx.presentQueueIndex == old(ctx.presentQueueIndex)
      ensures ctx.framebufferWidth == old(ctx.framebufferWidth) && ctx.framebufferHeight == old(ctx.framebufferHeight)
    {
      maxFramesInFlight := MAX_FRAMES_IN_FLIGHT;
      // Format and present mode come from the snapshot held before the re-query.
      var info := ComputeCreateInfo(ctx.support, reply.requeried.capabilities, width, height,
                                    ctx.graphicsQueueIndex, ctx.presentQueueIndex);
      imageFormat := info.imageFormat;
      ctx.support := reply.requeried;
      createdWith := info;
      handle := reply.handle;
      ctx.currentFrame := 0;
      imageCount := |reply.images|;

      // Depth attachment, in the detected depth format.
      if reply.depthFormat.None? {
        ctx.depthFormat := VK_FORMAT_UNDEFINED;
      } else {
        ctx.depthFormat := reply.depthFormat.value;
      }
      depthAttachment := DepthAttachment(info.imageExtent.width, info.imageExtent.height, ctx.depthFormat);
    }

    /**
     * Image and view storage for `count` images: allocated when absent or too
     * small, reused otherwise.
     */
    method AllocateStorage(count: nat)
      modifies this`images, this`views
      ensures images != null && views != null && count <= images.Length && count <= views.Length
      ensures old(images) != null && count <= old(images).Length ==> images == old(images)
      ensures old(views) != null && count <= old(views).Length ==> views == old(views)
      ensures images != old(images) ==> fresh(images)
      ensures views != old(views) ==> fresh(views)
    {
      if images == null || images.Length < count {
        images := new Handle[count];
      }
      if views == null || views.Length < count {
        views := new ImageView[count];
      }
    }

    /** Stores the driver's images and creates one colour view per image. */
    method StoreImages(driverImages: seq<Handle>)
      requires images != null && views != null
      requires imageCount == |driverImages| && imageCount <= images.Length && imageCount <= views.Length
      modifies images, views
      ensures Valid() && images[..imageCount] == driverImages
    {
      var i := 0;
      while i < imageCount
        invariant 0 <= i <= imageCount
        invariant forall k :: 0 <= k < i ==> images[k] == driverImages[k]
        modifies images
      {
        images[i] := driverImages[i];
        i := i + 1;
      }
      assert images[..imageCount] == driverImages;

      i := 0;
      while i < imageCount
        invariant 0 <= i <= imageCount
        invariant forall k :: 0 <= k < i ==> views[k] == ImageView(images[k], imageFormat.format)
        modifies views
      {
        views[i] := ImageView(images[i], imageFormat.format);
        i := i + 1;
      }
    }

    /**
     * `destroy` / `vulkan_swapchain_destroy`: releases the depth image, every
     * view and then the swapchain; the images belong to the swapchain and are
     * never released on their own. No field is reset.
     */
    method Destroy() returns (released: seq<Released>)
      requires Valid()
      ensures released == ReleaseOrder(depthAttachment, views[..imageCount], handle)
    {
      released := [ReleasedDepth(depthAttachment)];
      var i := 0;
      while i < imageCount
        invariant 0 <= i <= imageCount
        invariant |released| == i + 1 && released[0] == ReleasedDepth(depthAttachment)
        invariant forall k :: 0 <= k < i ==> released[k + 1] == ReleasedView(views[k])
      {
        released := released + [ReleasedView(views[i])];
        i := i + 1;
      }
      released := released + [ReleasedSwapchain(handle)];
    }

    /** `vulkan_swapchain_recreate`: destroy, then create at the given size. */
    method Recreate(ctx: Context, width: nat, height: nat, reply: CreateReply) returns (released: seq<Released>)
      requires Valid() && |ctx.support.formats| > 0
      modifies this, ctx, images, views
      ensures released == old(ReleaseOrder(depthAttachment, views[..imageCount], handle))
      ensures Created(ctx, old(ctx.support), width, height, reply)
      ensures ctx.graphicsQueueIndex == old(ctx.graphicsQueueIndex) && ctx.presentQueueIndex == old(ctx.presentQueueIndex)
      ensures ctx.framebufferWidth == old(ctx.framebufferWidth) && ctx.framebufferHeight == old(ctx.framebufferHeight)
    {
      released := Destroy();
      Create(ctx, width, height, reply);
    }

    /**
     * `vulkan_swapchain_acquire_next_image_index`: an out-of-date swapchain
     * is recreated at the context's framebuffer size and the frame refused;
     * any other result but success or suboptimal refuses the frame; the
     * image index is the one the driver wrote. `released` lists what the
     * recreate released, and is empty when there is none.
     */
    method AcquireNextImageIndex(ctx: Context, result: int, acquired: nat, reply: CreateReply)
      returns (ok: bool, imageIndex: nat, released: seq<Released>)
      requires Valid() && |ctx.support.formats| > 0
      modifies this, ctx, images, views
      ensures ok == (AcquireOutcome(result) == Proceed)
      ensures imageIndex == acquired
      ensures AcquireOutcome(result) == Rebuild ==>
        && released == old(ReleaseOrder(depthAttachment, views[..imageCount], handle))
        && Created(ctx, old(ctx.support), old(ctx.framebufferWidth), old(ctx.framebufferHeight), reply)
        && ctx.graphicsQueueIndex == old(ctx.graphicsQueueIndex) && ctx.presentQueueIndex == old(ctx.presentQueueIndex)
        && ctx.framebufferWidth == old(ctx.framebufferWidth) && ctx.framebufferHeight == old(ctx.framebufferHeight)
      ensures AcquireOutcome(result) != Rebuild ==>
        released == [] && unchanged(this, ctx) && unchanged(images, views) && Valid()
    {
      imageIndex := acquired;
      released := [];
      if result == VK_ERROR_OUT_OF_DATE_KHR {
        released := Recreate(ctx, ctx.framebufferWidth, ctx.framebufferHeight, reply);
        return false, imageIndex, released;
      } else if result != VK_SUCCESS && result != VK_SUBOPTIMAL_KHR {
        return false, imageIndex, released;
      }
      ok := true;
    }

    /**
     * `vulkan_swapchain_present`: presents image `imageIndex` after
     * `renderComplete`; an out-of-date or suboptimal result recreates the
     * swapchain at the context's framebuffer size, any other failure is only
     * logged. `released` lists what the recreate released, and is empty
     * when there is none.
     */
    method Present(ctx: Context, renderComplete: Handle, imageIndex: nat, result: int, reply: CreateReply)
      returns (info: PresentInfo, released: seq<Released>)
      requires Valid() && |ctx.support.formats| > 0
      modifies this, ctx, images, views
      ensures info == PresentInfo([renderComplete], [old(handle)], [imageIndex])
      ensures PresentOutcome(result) == Rebuild ==>
        && released == old(ReleaseOrder(depthAttachment, views[..imageCount], handle))
        && Created(ctx, old(ctx.support), old(ctx.framebufferWidth), old(ctx.framebufferHeight), reply)
        && ctx.graphicsQueueIndex == old(ctx.graphicsQueueIndex) && ctx.presentQueueIndex == old(ctx.presentQueueIndex)
        && ctx.framebufferWidth == old(ctx.framebufferWidth) && ctx.framebufferHeight == old(ctx.framebufferHeight)
      ensures PresentOutcome(result) != Rebuild ==>
        released == [] && unchanged(this, ctx) && unchanged(images, views) && Valid()
    {
      info := PresentInfo([renderComplete], [handle], [imageIndex]);
      released := [];
      if result == VK_ERROR_OUT_OF_DATE_KHR || result == VK_SUBOPTIMAL_KHR {
        released := Recreate(ctx, ctx.framebufferWidth, ctx.framebufferHeight, reply);
      }
    }
  }
}
