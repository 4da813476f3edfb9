/** Swapchain parameter negotiation: the surface format, the present mode, the
    extent and the image count, and the creation call that records them in the
    caller's `SwapChain`. The driver's answers (surface capabilities, the
    supported formats and present modes, the result of creating the swapchain
    and the images it hands back) are inputs. */
module SwapChainSetup {
  import opened Vulkan

  // ---------------------------------------------------------------- extent

  /** One axis of the extent when the surface lets the application choose:
      `MAX(lo, MIN(hi, v))`. */
  function ClampAxis(lo: uint32, hi: uint32, v: uint32): (r: uint32)
    ensures lo <= hi ==> lo <= r <= hi
    ensures lo <= v <= hi ==> r == v
    ensures v < lo ==> r == lo
    ensures lo <= hi < v ==> r == hi
    ensures hi < lo ==> r == lo
  {
    Max(lo, Min(hi, v))
  }

  /** Whether the surface dictates its size: the current width is not the
      `UINT32_MAX` sentinel. */
  predicate HasFixedExtent(capabilities: SurfaceCapabilities) {
    capabilities.currentExtent.width != UINT32_MAX
  }

  /** `chooseExtent`: the surface's own extent when it is fixed, whatever was
      requested; otherwise the requested width and height, each clamped into its
      own axis's [min, max] range independently of the other axis. */
  function ChooseExtent(capabilities: SurfaceCapabilities, width: uint32, height: uint32): (e: Extent2D)
    ensures HasFixedExtent(capabilities) ==> e == capabilities.currentExtent
    ensures !HasFixedExtent(capabilities) ==>
      var lo, hi := capabilities.minImageExtent, capabilities.maxImageExtent;
      && (lo.width <= hi.width ==> lo.width <= e.width <= hi.width)
      && (lo.height <= hi.height ==> lo.height <= e.height <= hi.height)
      && (lo.width <= width <= hi.width ==> e.width == width)
      && (lo.height <= height <= hi.height ==> e.height == height)
      && (width < lo.width || hi.width < lo.width ==> e.width == lo.width)
      && (height < lo.height || hi.height < lo.height ==> e.height == lo.height)
      && (lo.width <= hi.width < width ==> e.width == hi.width)
      && (lo.height <= hi.height < height ==> e.height == hi.height)
  {
    if HasFixedExtent(capabilities) then
      capabilities.currentExtent
    else
      Extent2D(
        ClampAxis(capabilities.minImageExtent.width, capabilities.maxImageExtent.width, width),
        ClampAxis(capabilities.minImageExtent.height, capabilities.maxImageExtent.height, height))
  }

  // ----------------------------------------------------------- image count

  /** The number of images requested: one more than the surface's minimum (in
      `uint32_t`, so a minimum of `UINT32_MAX` wraps to 0), lowered to the
      maximum only when the maximum is nonzero and smaller. */
  function ImageCount(capabilities: SurfaceCapabilities): (n: uint32)
    ensures capabilities.maxImageCount > 0 ==> n <= capabilities.maxImageCount
    ensures capabilities.minImageCount < UINT32_MAX
            && (capabilities.maxImageCount == 0 || capabilities.minImageCount < capabilities.maxImageCount)
            ==> n == capabilities.minImageCount + 1
    ensures capabilities.minImageCount < UINT32_MAX
            && 0 < capabilities.maxImageCount <= capabilities.minImageCount
            ==> n == capabilities.maxImageCount
    ensures capabilities.minImageCount == UINT32_MAX ==> n == 0
    ensures capabilities.minImageCount < UINT32_MAX
            && (capabilities.maxImageCount == 0 || capabilities.minImageCount <= capabilities.maxImageCount)
            ==> capabilities.minImageCount <= n
  {
    var count := AddU32(capabilities.minImageCount, 1);
    if capabilities.maxImageCount > 0 && count > capabilities.maxImageCount then
      capabilities.maxImageCount
    else
      count
  }

  // -------------------------------------------------------- surface format

  /** The surface format the swapchain looks for: 8-bit BGRA, sRGB non-linear. */
  predicate IsPreferredFormat(f: SurfaceFormat) {
    f.format == VK_FORMAT_B8G8R8A8_UNORM && f.colorSpace == VK_COLOR_SPACE_SRGB_NONLINEAR_KHR
  }

  /** The index of the last preferred entry, if there is one. */
  function LastPreferredIndex(formats: seq<SurfaceFormat>): (r: Option<nat>)
    ensures r.Some? ==> r.value < |formats| && IsPreferredFormat(formats[r.value])
    ensures r.Some? ==> forall j :: r.value < j < |formats| ==> !IsPreferredFormat(formats[j])
    ensures r.None? ==> forall j :: 0 <= j < |formats| ==> !IsPreferredFormat(formats[j])
  {
    if |formats| == 0 then None
    else if IsPreferredFormat(formats[|formats| - 1]) then Some(|formats| - 1)
    else LastPreferredIndex(formats[..|formats| - 1])
  }

  /** The index of the first preferred entry, if there is one. */
  function FirstPreferredIndex(formats: seq<SurfaceFormat>): (r: Option<nat>)
    ensures r.Some? ==> r.value < |formats| && IsPreferredFormat(formats[r.value])
    ensures r.Some? ==> forall j :: 0 <= j < r.value ==> !IsPreferredFormat(formats[j])
    ensures r.None? ==> forall j :: 0 <= j < |formats| ==> !IsPreferredFormat(formats[j])
  {
    if |formats| == 0 then None
    else if IsPreferredFormat(formats[0]) then Some(0)
    else match FirstPreferredIndex(formats[1..])
      case Some(k) => Some(k + 1)
      case None => None
  }

  /** The last preferred entry of `formats`, or `fallback` when none is preferred. */
  function LastPreferredOr(formats: seq<SurfaceFormat>, fallback: SurfaceFormat): (f: SurfaceFormat) {
    match LastPreferredIndex(formats)
    case Some(k) => formats[k]
    case None => fallback
  }

  /** What `getSurfaceFormat` settles on: the last preferred entry, else entry 0. */
  function SurfaceFormatChoice(formats: seq<SurfaceFormat>): (f: SurfaceFormat)
    requires |formats| > 0
  {
    LastPreferredOr(formats, formats[0])
  }

  /** The format scan has no `break`, so the last preferred entry wins; but a
      surface format is exactly its two fields, so every preferred entry is the
      same value and stopping at the first one would choose the same format. */
  lemma LastPreferredEqualsFirstPreferred(formats: seq<SurfaceFormat>)
    ensures LastPreferredIndex(formats).Some? <==> FirstPreferredIndex(formats).Some?
    ensures LastPreferredIndex(formats).Some? ==>
      formats[LastPreferredIndex(formats).value] == formats[FirstPreferredIndex(formats).value]
  {
  }

  /** `getSurfaceFormat`: scans the supported formats (the driver guarantees at
      least one), overwriting the running choice with every preferred entry. */
  method GetSurfaceFormat(formats: seq<SurfaceFormat>) returns (format: SurfaceFormat)
    requires |formats| > 0
    ensures format == SurfaceFormatChoice(formats)
    ensures format in formats
    ensures IsPreferredFormat(format) <==> exists i :: 0 <= i < |formats| && IsPreferredFormat(formats[i])
    ensures !IsPreferredFormat(format) ==> format == formats[0]
  {
    format := formats[0];
    for i := 0 to |formats|
      invariant format == LastPreferredOr(formats[..i], formats[0])
    {
      assert formats[..i + 1][..i] == formats[..i];
      if formats[i].format != VK_FORMAT_B8G8R8A8_UNORM { continue; }
      if formats[i].colorSpace != VK_COLOR_SPACE_SRGB_NONLINEAR_KHR { continue; }
      format := formats[i];
    }
    assert formats[..|formats|] == formats;
  }

  // ---------------------------------------------------------- present mode

  /** What `getPresentMode` settles on. */
  function PresentModeChoice(modes: seq<VkPresentMode>): (m: VkPresentMode) {
    if VK_PRESENT_MODE_MAILBOX_KHR in modes then VK_PRESENT_MODE_MAILBOX_KHR else VK_PRESENT_MODE_FIFO_KHR
  }

  /** `getPresentMode`: MAILBOX when the surface lists it, otherwise FIFO, which
      is returned even when the list does not contain FIFO either. An empty list
      fails the C `assert` in debug builds and yields FIFO when asserts are off,
      as here. */
  method GetPresentMode(modes: seq<VkPresentMode>) returns (mode: VkPresentMode)
    ensures mode == PresentModeChoice(modes)
    ensures mode == VK_PRESENT_MODE_MAILBOX_KHR <==> VK_PRESENT_MODE_MAILBOX_KHR in modes
    ensures VK_PRESENT_MODE_MAILBOX_KHR !in modes ==> mode == VK_PRESENT_MODE_FIFO_KHR
  {
    mode := VK_PRESENT_MODE_FIFO_KHR;
    for i := 0 to |modes|
      invariant mode == PresentModeChoice(modes[..i])
    {
      assert modes[..i + 1] == modes[..i] + [modes[i]];
      if modes[i] != VK_PRESENT_MODE_MAILBOX_KHR { continue; }
      mode := modes[i];
    }
    assert modes[..|modes|] == modes;
  }

  // ------------------------------------------------------------- creation

  /** The fields of `VkSwapchainCreateInfoKHR` that `createSwapChain` sets; the
      queue-family index list holds `queueFamilyIndexCount` entries. */
  datatype SwapchainCreateInfo = SwapchainCreateInfo(
    surface: Handle,
    minImageCount: uint32,
    imageFormat: VkFormat,
    imageColorSpace: VkColorSpace,
    imageExtent: Extent2D,
    imageArrayLayers: uint32,
    imageUsage: bv32,
    imageSharingMode: VkSharingMode,
    queueFamilyIndices: seq<uint32>,
    preTransform: bv32,
    compositeAlpha: bv32,
    presentMode: VkPresentMode,
    clipped: uint32,
    oldSwapchain: Handle)

  /** The `struct SwapChain` record: images, views and framebuffers are each
      meant to hold `imageCount` elements. */
  class SwapChain {
    var swapChain: Handle
    var imageCount: uint32
    var images: seq<Handle>
    var imageViews: seq<Handle>
    var framebuffers: seq<Handle>
    var imageFormat: VkFormat
    var extent: Extent2D

    /** The image array holds exactly `imageCount` images. */
    predicate ImagesMatchCount()
      reads this
    {
      |images| == imageCount
    }
  }

  /** `createSwapChain`. A failing capabilities query returns its code before
      anything is created or written; a failing swapchain creation returns its
      code with the record's fields left as they were; on success the record
      receives the swapchain, the images the driver returned and their count,
      the chosen format and the chosen extent. Views and framebuffers are not
      touched. */
  method CreateSwapChain(
    surface: Handle,
    capabilitiesQuery: VkOutcome<SurfaceCapabilities>,
    formats: seq<SurfaceFormat>,
    presentModes: seq<VkPresentMode>,
    graphicsFamily: uint32,
    presentFamily: uint32,
    windowWidth: uint32,
    windowHeight: uint32,
    createResult: VkResult,
    createdSwapchain: Handle,
    driverImages: seq<Handle>,
    sc: SwapChain)
    returns (result: VkResult, submitted: Option<SwapchainCreateInfo>)
    requires capabilitiesQuery.Success? ==> |formats| > 0
    requires |driverImages| <= UINT32_MAX
    modifies sc
    ensures capabilitiesQuery.Failure? ==>
      result == capabilitiesQuery.code && submitted == None && unchanged(sc)
    ensures capabilitiesQuery.Success? ==>
      var capabilities := capabilitiesQuery.value;
      var format := SurfaceFormatChoice(formats);
      submitted == Some(SwapchainCreateInfo(
        surface,
        ImageCount(capabilities),
        format.format,
        format.colorSpace,
        ChooseExtent(capabilities, windowWidth, windowHeight),
        1,
        VK_IMAGE_USAGE_COLOR_ATTACHMENT_BIT,
        if graphicsFamily != presentFamily then VK_SHARING_MODE_CONCURRENT else VK_SHARING_MODE_EXCLUSIVE,
        if graphicsFamily != presentFamily then [graphicsFamily, presentFamily] else [],
        capabilities.currentTransform,
        VK_COMPOSITE_ALPHA_OPAQUE_BIT_KHR,
        PresentModeChoice(presentModes),
        VK_TRUE,
        VK_NULL_HANDLE))
    ensures capabilitiesQuery.Success? && createResult != VK_SUCCESS ==>
      result == createResult && unchanged(sc)
    ensures capabilitiesQuery.Success? && createResult == VK_SUCCESS ==>
      && result == VK_SUCCESS
      && sc.swapChain == createdSwapchain
      && sc.images == driverImages
      && sc.imageCount == |driverImages|
      && sc.ImagesMatchCount()
      && sc.imageFormat == SurfaceFormatChoice(formats).format
      && sc.extent == ChooseExtent(capabilitiesQuery.value, windowWidth, windowHeight)
      && sc.imageViews == old(sc.imageViews)
      && sc.framebuffers == old(sc.framebuffers)
  {
    // RETURN_IF_NOT_VK_SUCCESS on the capabilities query
    if capabilitiesQuery.Failure? {
      return capabilitiesQuery.code, None;
    }
    var capabilities := capabilitiesQuery.value;

    var surfaceFormat := GetSurfaceFormat(formats);
    var presentMode := GetPresentMode(presentModes);
    var extent := ChooseExtent(capabilities, windowWidth, windowHeight);

    var imageCount := AddU32(capabilities.minImageCount, 1);
    if capabilities.maxImageCount > 0 && imageCount > capabilities.maxImageCount {
      imageCount := capabilities.maxImageCount;
    }
    assert imageCount == ImageCount(capabilities);

    var createInfo := SwapchainCreateInfo(
      surface, imageCount, surfaceFormat.format, surfaceFormat.colorSpace, extent,
      1, VK_IMAGE_USAGE_COLOR_ATTACHMENT_BIT,
      VK_SHARING_MODE_EXCLUSIVE, [], 0, 0, 0, 0, VK_NULL_HANDLE);

    var queueFamilyIndices := [graphicsFamily, presentFamily];
    if graphicsFamily != presentFamily {
      createInfo := createInfo.(imageSharingMode := VK_SHARING_MODE_CONCURRENT,
                                queueFamilyIndices := queueFamilyIndices);
    } else {
      createInfo := createInfo.(imageSharingMode := VK_SHARING_MODE_EXCLUSIVE);
    }

    createInfo := createInfo.(preTransform := capabilities.currentTransform);
    createInfo := createInfo.(compositeAlpha := VK_COMPOSITE_ALPHA_OPAQUE_BIT_KHR);
    createInfo := createInfo.(presentMode := presentMode);
    createInfo := createInfo.(clipped := VK_TRUE);
    createInfo := createInfo.(oldSwapchain := VK_NULL_HANDLE);
    submitted := Some(createInfo);

    // vkCreateSwapchainKHR, then RETURN_IF_NOT_VK_SUCCESS
    if createResult != VK_SUCCESS {
      return createResult, submitted;
    }

    // vkGetSwapchainImagesKHR overwrites the count with the number of images it returns
    sc.swapChain := createdSwapchain;
    sc.images := driverImages;
    sc.imageCount := |driverImages|;
    sc.imageFormat := surfaceFormat.format;
    sc.extent := extent;
    result := VK_SUCCESS;
  }
}
