/** The swapchain settings `VulkanRenderer` negotiates with the surface: format,
    present mode, extent and image count. */
module SwapchainSettings {
  import opened Common
  import opened Vk

  /** The formats the renderer prefers: 8-bit RGBA or BGRA, sRGB non-linear. */
  predicate Preferred(f: SurfaceFormat) {
    (f.format == VK_FORMAT_R8G8B8A8_UNORM || f.format == VK_FORMAT_B8G8R8A8_UNORM) &&
    f.colorSpace == VK_COLOR_SPACE_SRGB_NONLINEAR_KHR
  }

  /** The surface reports a single undefined format: every format is available. */
  predicate AllFormatsAvailable(formats: seq<SurfaceFormat>) {
    |formats| == 1 && formats[0].format == VK_FORMAT_UNDEFINED
  }

  /** `r` is the format `chooseBestSurfaceFormat` picks from `formats`. */
  ghost predicate IsBestSurfaceFormat(formats: seq<SurfaceFormat>, r: SurfaceFormat)
    requires |formats| > 0
  {
    if AllFormatsAvailable(formats) then
      r == SurfaceFormat(VK_FORMAT_R8G8B8A8_UNORM, VK_COLOR_SPACE_SRGB_NONLINEAR_KHR)
    else if exists k :: 0 <= k < |formats| && Preferred(formats[k]) then
      exists k :: 0 <= k < |formats| && formats[k] == r && Preferred(r) &&
                  forall j :: 0 <= j < k ==> !Preferred(formats[j])
    else
      r == formats[0]
  }

  /** The choice is determined: at most one format satisfies the description. */
  lemma BestSurfaceFormatUnique(formats: seq<SurfaceFormat>, r1: SurfaceFormat, r2: SurfaceFormat)
    requires |formats| > 0
    requires IsBestSurfaceFormat(formats, r1) && IsBestSurfaceFormat(formats, r2)
    ensures r1 == r2
  {
    if !AllFormatsAvailable(formats) && exists k :: 0 <= k < |formats| && Preferred(formats[k]) {
      var k1 :| 0 <= k1 < |formats| && formats[k1] == r1 && Preferred(r1) &&
                forall j :: 0 <= j < k1 ==> !Preferred(formats[j]);
      var k2 :| 0 <= k2 < |formats| && formats[k2] == r2 && Preferred(r2) &&
                forall j :: 0 <= j < k2 ==> !Preferred(formats[j]);
      assert !(k1 < k2) && !(k2 < k1);
    }
  }

  /** `chooseBestSurfaceFormat`.  Indexing `formats[0]` needs a non-empty list,
      which device suitability guarantees. */
  method ChooseBestSurfaceFormat(formats: seq<SurfaceFormat>) returns (r: SurfaceFormat)
    requires |formats| > 0
    ensures IsBestSurfaceFormat(formats, r)
    ensures AllFormatsAvailable(formats) || r in formats
  {
    if |formats| == 1 && formats[0].format == VK_FORMAT_UNDEFINED {
      return SurfaceFormat(VK_FORMAT_R8G8B8A8_UNORM, VK_COLOR_SPACE_SRGB_NONLINEAR_KHR);
    }
    var i := 0;
    while i < |formats|
      invariant 0 <= i <= |formats|
      invariant forall j :: 0 <= j < i ==> !Preferred(formats[j])
    {
      if (formats[i].format == VK_FORMAT_R8G8B8A8_UNORM || formats[i].format == VK_FORMAT_B8G8R8A8_UNORM)
         && formats[i].colorSpace == VK_COLOR_SPACE_SRGB_NONLINEAR_KHR {
        return formats[i];
      }
      i := i + 1;
    }
    return formats[0];
  }

  /** `chooseBestPresMode`: mailbox when the surface offers it, otherwise FIFO,
      which every surface supports. */
  method ChooseBestPresMode(presModes: seq<int>) returns (r: int)
    ensures r == VK_PRESENT_MODE_MAILBOX_KHR <==> VK_PRESENT_MODE_MAILBOX_KHR in presModes
    ensures r != VK_PRESENT_MODE_MAILBOX_KHR ==> r == VK_PRESENT_MODE_FIFO_KHR
  {
    var i := 0;
    while i < |presModes|
      invariant 0 <= i <= |presModes|
      invariant VK_PRESENT_MODE_MAILBOX_KHR !in presModes[..i]
    {
      if presModes[i] == VK_PRESENT_MODE_MAILBOX_KHR {
        return presModes[i];
      }
      assert presModes[..i + 1] == presModes[..i] + [presModes[i]];
      i := i + 1;
    }
    assert presModes[..i] == presModes;
    return VK_PRESENT_MODE_FIFO_KHR;
  }

  /** `max(lo, min(hi, v))` as written in `chooseSwapExtent`. */
  function Clamp(lo: uint32, hi: uint32, v: uint32): (r: uint32)
    ensures lo <= hi ==> lo <= r <= hi
    ensures lo <= v <= hi ==> r == v
    ensures v < lo ==> r == lo
    ensures hi < v ==> r == Max(lo, hi)
  {
    Max(lo, Min(hi, v))
  }

  /** `chooseSwapExtent`.  `framebufferWidth`/`framebufferHeight` are what
      `glfwGetFramebufferSize` reports for the window. */
  function ChooseSwapExtent(caps: SurfaceCapabilities, framebufferWidth: int, framebufferHeight: int): (r: Extent2D)
    ensures caps.currentExtent.width as int != UINT32_MAX ==> r == caps.currentExtent
    ensures caps.currentExtent.width as int == UINT32_MAX ==>
              && r.width == Clamp(caps.minImageExtent.width, caps.maxImageExtent.width, ToU32(framebufferWidth))
              && r.height == Clamp(caps.minImageExtent.height, caps.maxImageExtent.height, ToU32(framebufferHeight))
    ensures caps.currentExtent.width as int == UINT32_MAX && caps.minImageExtent.width <= caps.maxImageExtent.width ==>
              caps.minImageExtent.width <= r.width <= caps.maxImageExtent.width
    ensures caps.currentExtent.width as int == UINT32_MAX && caps.minImageExtent.height <= caps.maxImageExtent.height ==>
              caps.minImageExtent.height <= r.height <= caps.maxImageExtent.height
  {
    if caps.currentExtent.width as int != UINT32_MAX then caps.currentExtent
    else
      var width := ToU32(framebufferWidth);
      var height := ToU32(framebufferHeight);
      Extent2D(Max(caps.minImageExtent.width, Min(caps.maxImageExtent.width, width)),
               Max(caps.minImageExtent.height, Min(caps.maxImageExtent.height, height)))
  }

  /** The image count of `createSwapChain`: one more than the minimum, in
      32-bit unsigned arithmetic, lowered to the maximum when that is non-zero and
      smaller. */
  function ImageCount(caps: SurfaceCapabilities): (r: uint32)
    ensures caps.minImageCount as int < UINT32_MAX &&
            (caps.maxImageCount == 0 || caps.minImageCount < caps.maxImageCount) ==>
              r as int == caps.minImageCount as int + 1
    ensures caps.minImageCount as int < UINT32_MAX && 0 < caps.maxImageCount <= caps.minImageCount ==>
              r == caps.maxImageCount
    ensures caps.maxImageCount > 0 ==> r <= caps.maxImageCount
    ensures caps.minImageCount as int < UINT32_MAX &&
            (caps.maxImageCount == 0 || caps.minImageCount <= caps.maxImageCount) ==>
              caps.minImageCount <= r
    ensures caps.minImageCount as int == UINT32_MAX ==> r == 0
  {
    var imageCount := ToU32(caps.minImageCount as int + 1);
    if caps.maxImageCount > 0 && caps.maxImageCount < imageCount then caps.maxImageCount else imageCount
  }

  lemma ImageCountExamples(extent: Extent2D)
    ensures ImageCount(SurfaceCapabilities(2, 3, extent, extent, extent)) == 3
    ensures ImageCount(SurfaceCapabilities(2, 0, extent, extent, extent)) == 3
    ensures ImageCount(SurfaceCapabilities(2, 2, extent, extent, extent)) == 2
  {
  }
}
