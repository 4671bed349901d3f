/** The state `VulkanRenderer` builds while it picks a device, creates the
    logical device and creates the swapchain. */
module Renderer {
  import opened Common
  import opened Vk
  import opened Utilities
  import opened QueueFamilies
  import opened DeviceSelection
  import opened SwapchainSettings

  /** Handle of a swapchain image, as returned by `vkGetSwapchainImagesKHR`. */
  type ImageHandle = nat

  /** The view `createImageView` makes for an image, described by what it was made from. */
  datatype ImageView = ImageView(image: ImageHandle, format: int, aspectFlags: bv32)

  datatype SwapchainImage = SwapchainImage(image: ImageHandle, imageView: ImageView)

  /** A queue obtained with `vkGetDeviceQueue(device, family, index)`. */
  datatype Queue = Queue(family: uint32, index: nat)

  /** What the logical device was created with. */
  datatype LogicalDevice = LogicalDevice(
    queueCreateInfos: seq<DeviceQueueCreateInfo>,
    enabledExtensions: seq<string>)

  /** The settings the swapchain was created with. */
  datatype SwapchainCreateInfo = SwapchainCreateInfo(
    imageFormat: int,
    imageColorSpace: int,
    presentMode: int,
    imageExtent: Extent2D,
    minImageCount: uint32,
    sharing: SharingInfo)

  class VulkanRenderer {
    var physicalDevice: Option<PhysicalDevice>   // _mainDevice.physicalDevice
    var logicalDevice: Option<LogicalDevice>     // _mainDevice.logicalDevice
    var graphicsQueue: Option<Queue>
    var presentationQueue: Option<Queue>
    var swapchain: Option<SwapchainCreateInfo>
    var swapchainImageFormat: int
    var swapchainExtent: Extent2D
    var swapchainImages: seq<SwapchainImage>

    constructor ()
      ensures physicalDevice == None && logicalDevice == None
      ensures graphicsQueue == None && presentationQueue == None
      ensures swapchain == None && swapchainImages == []
    {
      physicalDevice, logicalDevice := None, None;
      graphicsQueue, presentationQueue := None, None;
      swapchain := None;
      swapchainImageFormat := VK_FORMAT_UNDEFINED;
      swapchainExtent := Extent2D(0, 0);
      swapchainImages := [];
    }

    /** `getPhysicalDevice`: throws when no device is enumerated; otherwise stores
        every suitable device in turn, so the last suitable one stays selected and
        the previous selection survives when none is suitable. */
    method GetPhysicalDevice(devices: seq<PhysicalDevice>) returns (outcome: Outcome<Error>)
      modifies this`physicalDevice
      ensures outcome == (if |devices| == 0 then Fail(NoPhysicalDevices) else Pass)
      ensures physicalDevice == SelectDevice(devices, old(physicalDevice))
    {
      if |devices| == 0 {
        return Fail(NoPhysicalDevices);
      }
      var i := 0;
      while i < |devices|
        invariant 0 <= i <= |devices|
        invariant physicalDevice == SelectDevice(devices[..i], old(physicalDevice))
      {
        var suitable := CheckDeviceSuitable(devices[i]);
        if suitable {
          physicalDevice := Some(devices[i]);
        }
        assert devices[..i + 1][..i] == devices[..i];
        i := i + 1;
      }
      assert devices[..i] == devices;
      return Pass;
    }

    /** `createLogicalDevice`.  `deviceCreated` is the success of `vkCreateDevice`. */
    method CreateLogicalDevice(deviceCreated: bool) returns (outcome: Outcome<Error>)
      requires physicalDevice.Some?
      modifies this`logicalDevice, this`graphicsQueue, this`presentationQueue
      ensures outcome == (if deviceCreated then Pass else Fail(LogicalDeviceCreationFailed))
      ensures !deviceCreated ==> unchanged(this)
      ensures deviceCreated ==>
                var indices := FindQueueFamilies(physicalDevice.value.queueFamilies);
                && logicalDevice.Some?
                && |logicalDevice.value.queueCreateInfos| == |FamilySetOrder(indices)|
                && (forall k :: 0 <= k < |logicalDevice.value.queueCreateInfos| ==>
                      logicalDevice.value.queueCreateInfos[k] == DeviceQueueCreateInfo(ToU32(FamilySetOrder(indices)[k]), 1))
                && logicalDevice.value.enabledExtensions == DEVICE_EXTENSIONS
                && graphicsQueue == Some(Queue(ToU32(indices.graphicsFamily), 0))
                && presentationQueue == Some(Queue(ToU32(indices.presentationFamily), 0))
    {
      var indices := GetQueueFamilies(physicalDevice.value.queueFamilies);
      var queueCreateInfos := BuildQueueCreateInfos(indices);
      if !deviceCreated {
        return Fail(LogicalDeviceCreationFailed);
      }
      logicalDevice := Some(LogicalDevice(queueCreateInfos, DEVICE_EXTENSIONS));
      graphicsQueue := Some(Queue(ToU32(indices.graphicsFamily), 0));
      presentationQueue := Some(Queue(ToU32(indices.presentationFamily), 0));
      return Pass;
    }

    /** `createSwapChain`.  `framebufferWidth`/`framebufferHeight` come from
        `glfwGetFramebufferSize`, `swapchainCreated` is the success of
        `vkCreateSwapchainKHR` and `images` what `vkGetSwapchainImagesKHR` returns. */
    method CreateSwapChain(framebufferWidth: int, framebufferHeight: int, swapchainCreated: bool,
                           images: seq<ImageHandle>) returns (outcome: Outcome<Error>)
      requires physicalDevice.Some? && |physicalDevice.value.formats| > 0
      modifies this`swapchain, this`swapchainImageFormat, this`swapchainExtent, this`swapchainImages
      ensures outcome == (if swapchainCreated then Pass else Fail(SwapchainCreationFailed))
      ensures !swapchainCreated ==> unchanged(this)
      ensures swapchainCreated ==>
                var d := physicalDevice.value;
                && swapchain.Some?
                && IsBestSurfaceFormat(d.formats, SurfaceFormat(swapchain.value.imageFormat, swapchain.value.imageColorSpace))
                && (swapchain.value.presentMode == VK_PRESENT_MODE_MAILBOX_KHR <==> VK_PRESENT_MODE_MAILBOX_KHR in d.presentModes)
                && (swapchain.value.presentMode != VK_PRESENT_MODE_MAILBOX_KHR ==> swapchain.value.presentMode == VK_PRESENT_MODE_FIFO_KHR)
                && swapchain.value.imageExtent == ChooseSwapExtent(d.capabilities, framebufferWidth, framebufferHeight)
                && swapchain.value.minImageCount == ImageCount(d.capabilities)
                && swapchain.value.sharing == ChooseSharing(FindQueueFamilies(d.queueFamilies))
                && swapchainImageFormat == swapchain.value.imageFormat
                && swapchainExtent == swapchain.value.imageExtent
                && |swapchainImages| == |old(swapchainImages)| + |images|
                && swapchainImages[..|old(swapchainImages)|] == old(swapchainImages)
                && (forall k :: 0 <= k < |images| ==>
                      swapchainImages[|old(swapchainImages)| + k] ==
                      SwapchainImage(images[k], ImageView(images[k], swapchainImageFormat, VK_IMAGE_ASPECT_COLOR_BIT)))
    {
      var d := physicalDevice.value;
      var surfaceFormat := ChooseBestSurfaceFormat(d.formats);
      var presentMode := ChooseBestPresMode(d.presentModes);
      var extent := ChooseSwapExtent(d.capabilities, framebufferWidth, framebufferHeight);
      var imageCount := ImageCount(d.capabilities);
      var indices := GetQueueFamilies(d.queueFamilies);
      var sharing := ChooseSharing(indices);
      var createInfo := SwapchainCreateInfo(surfaceFormat.format, surfaceFormat.colorSpace, presentMode,
                                            extent, imageCount, sharing);
      if !swapchainCreated {
        return Fail(SwapchainCreationFailed);
      }
      swapchain := Some(createInfo);
      swapchainImageFormat := surfaceFormat.format;
      swapchainExtent := extent;
      ghost var before := swapchainImages;
      var i := 0;
      while i < |images|
        invariant 0 <= i <= |images|
        invariant swapchain == Some(createInfo)
        invariant swapchainImageFormat == surfaceFormat.format && swapchainExtent == extent
        invariant |swapchainImages| == |before| + i
        invariant swapchainImages[..|before|] == before
        invariant forall k :: 0 <= k < i ==>
                    swapchainImages[|before| + k] ==
                    SwapchainImage(images[k], ImageView(images[k], swapchainImageFormat, VK_IMAGE_ASPECT_COLOR_BIT))
      {
        var swapchainImage := SwapchainImage(images[i], ImageView(images[i], swapchainImageFormat, VK_IMAGE_ASPECT_COLOR_BIT));
        swapchainImages := swapchainImages + [swapchainImage];
        i := i + 1;
      }
      return Pass;
    }
  }
}
