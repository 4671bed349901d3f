/** The Vulkan records the negotiation code reads, as plain values.  Enum values
    are the integer codes of the Vulkan headers. */
module Vk {
  import opened Common

  const VK_FORMAT_UNDEFINED: int := 0
  const VK_FORMAT_R8G8B8A8_UNORM: int := 37
  const VK_FORMAT_B8G8R8A8_UNORM: int := 44

  const VK_COLOR_SPACE_SRGB_NONLINEAR_KHR: int := 0

  const VK_PRESENT_MODE_IMMEDIATE_KHR: int := 0
  const VK_PRESENT_MODE_MAILBOX_KHR: int := 1
  const VK_PRESENT_MODE_FIFO_KHR: int := 2
  const VK_PRESENT_MODE_FIFO_RELAXED_KHR: int := 3

  const VK_QUEUE_GRAPHICS_BIT: bv32 := 0x1

  const VK_IMAGE_ASPECT_COLOR_BIT: bv32 := 0x1

  /** `VkQueueFamilyProperties`, together with the answer of
      `vkGetPhysicalDeviceSurfaceSupportKHR` for this family and the window surface. */
  datatype QueueFamilyProperties = QueueFamilyProperties(
    queueFlags: bv32,
    queueCount: uint32,
    presentationSupport: bool)

  datatype Extent2D = Extent2D(width: uint32, height: uint32)

  /** The fields of `VkSurfaceCapabilitiesKHR` the renderer reads. */
  datatype SurfaceCapabilities = SurfaceCapabilities(
    minImageCount: uint32,
    maxImageCount: uint32,
    currentExtent: Extent2D,
    minImageExtent: Extent2D,
    maxImageExtent: Extent2D)

  datatype SurfaceFormat = SurfaceFormat(format: int, colorSpace: int)

  /** What the renderer learns about one physical device by querying it:
      queue families, device extension names and the surface's swapchain details. */
  datatype PhysicalDevice = PhysicalDevice(
    queueFamilies: seq<QueueFamilyProperties>,
    extensions: seq<string>,
    capabilities: SurfaceCapabilities,
    formats: seq<SurfaceFormat>,
    presentModes: seq<int>)

  datatype SharingMode = Exclusive | Concurrent
}
