/** The slice of the Vulkan API that the swapchain and device-selection code
    works with: fixed-width integers, result codes, the enumerant values the
    code compares against, and the plain records the driver queries return.
    Enumerant values are those of the Vulkan headers. */
module Vulkan {

  /** C `uint32_t`. */
  type uint32 = x: int | 0 <= x < 0x1_0000_0000

  const UINT32_MAX: uint32 := 0xFFFF_FFFF

  /** `a + b` on `uint32_t`: the sum wraps modulo 2^32. */
  function AddU32(a: uint32, b: uint32): (r: uint32)
    ensures a + b <= UINT32_MAX ==> r == a + b
    ensures a + b > UINT32_MAX ==> r == a + b - 0x1_0000_0000
  {
    (a + b) % 0x1_0000_0000
  }

  /** The C macros `MAX(a, b)` and `MIN(a, b)`: `a` wins only when strictly greater (smaller). */
  function Max(a: int, b: int): (r: int) { if a > b then a else b }
  function Min(a: int, b: int): (r: int) { if a < b then a else b }

  /** An opaque Vulkan handle (`VkSwapchainKHR`, `VkImage`, `VkSurfaceKHR`, ...). */
  type Handle = nat

  const VK_NULL_HANDLE: Handle := 0

  /** `VkResult`: zero is success; every other value is a status the code treats as failure. */
  type VkResult = int

  const VK_SUCCESS: VkResult := 0
  const VK_ERROR_INITIALIZATION_FAILED: VkResult := -3
  const VK_ERROR_LAYER_NOT_PRESENT: VkResult := -6

  /** A `VkResult` that `RETURN_IF_NOT_VK_SUCCESS` would return early with. */
  type VkError = r: VkResult | r != 0 witness -3

  /** The outcome of a driver query or of a lookup that writes an out-parameter only on
      success: `Success` carries what was written, `Failure` the non-success code that
      `RETURN_IF_NOT_VK_SUCCESS` hands back unchanged. */
  datatype VkOutcome<T> = Success(value: T) | Failure(code: VkError)

  datatype Option<T> = None | Some(value: T)

  /** `VkFormat`, `VkColorSpaceKHR`, `VkPresentModeKHR`, `VkPhysicalDeviceType`, `VkSharingMode`. */
  type VkFormat = int
  type VkColorSpace = int
  type VkPresentMode = int
  type VkPhysicalDeviceType = int
  type VkSharingMode = int

  const VK_FORMAT_B8G8R8A8_UNORM: VkFormat := 44
  const VK_COLOR_SPACE_SRGB_NONLINEAR_KHR: VkColorSpace := 0

  const VK_PRESENT_MODE_MAILBOX_KHR: VkPresentMode := 1
  const VK_PRESENT_MODE_FIFO_KHR: VkPresentMode := 2

  const VK_PHYSICAL_DEVICE_TYPE_DISCRETE_GPU: VkPhysicalDeviceType := 2

  const VK_SHARING_MODE_EXCLUSIVE: VkSharingMode := 0
  const VK_SHARING_MODE_CONCURRENT: VkSharingMode := 1

  const VK_QUEUE_GRAPHICS_BIT: bv32 := 0x1
  const VK_IMAGE_USAGE_COLOR_ATTACHMENT_BIT: bv32 := 0x10
  const VK_COMPOSITE_ALPHA_OPAQUE_BIT_KHR: bv32 := 0x1
  const VK_TRUE: uint32 := 1

  /** `VkExtent2D`. */
  datatype Extent2D = Extent2D(width: uint32, height: uint32)

  /** `VkSurfaceFormatKHR`: the whole record is these two fields. */
  datatype SurfaceFormat = SurfaceFormat(format: VkFormat, colorSpace: VkColorSpace)

  /** The fields of `VkSurfaceCapabilitiesKHR` that swapchain creation reads. */
  datatype SurfaceCapabilities = SurfaceCapabilities(
    minImageCount: uint32,
    maxImageCount: uint32,
    currentExtent: Extent2D,
    minImageExtent: Extent2D,
    maxImageExtent: Extent2D,
    currentTransform: bv32)

  /** The fields of `VkQueueFamilyProperties` that device selection could read. */
  datatype QueueFamilyProperties = QueueFamilyProperties(queueFlags: bv32, queueCount: uint32)

  /** A physical device as its property, feature and queue-family queries describe it. */
  datatype PhysicalDevice = PhysicalDevice(
    deviceType: VkPhysicalDeviceType,
    maxImageDimension2D: uint32,
    geometryShader: bool,
    queueFamilies: seq<QueueFamilyProperties>)
}
