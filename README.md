# Vulkan swapchain negotiation and device selection, in Dafny

A model of the decision logic of a small C Vulkan renderer:

- **Swapchain negotiation** (`swap_chain.c`, module `SwapChainSetup` in
  `swap_chain.dfy`): choosing the surface format (`getSurfaceFormat`), the
  present mode (`getPresentMode`), the extent (`chooseExtent`) and the image
  count, building the `VkSwapchainCreateInfoKHR` (including the
  CONCURRENT/EXCLUSIVE sharing decision) and filling the caller's
  `struct SwapChain` record (`createSwapChain`).
- **Instance creation and device selection** (`vulkan_tutorial.c`, module
  `VulkanTutorial` in `vulkan_tutorial.dfy`): the validation-layer check,
  assembly of the instance's extension list, the queue-family lookup, device
  scoring and best-device selection.
- **Shared vocabulary** (`vulkan.dfy`, module `Vulkan`): `uint32_t`,
  `VkResult` codes, the `RETURN_IF_NOT_VK_SUCCESS` early return as the
  `VkOutcome` datatype, enumerant values as in the Vulkan headers, and the
  records the driver queries return.

Every driver query is an input: the surface capabilities query is a
`VkOutcome<SurfaceCapabilities>`, the supported formats and present modes are
sequences, `vkCreateSwapchainKHR`'s result, the handle it creates and the
images `vkGetSwapchainImagesKHR` returns are parameters, and so are the
available layers, the platform's required instance extensions, the physical
devices (type, largest 2D image dimension, geometry-shader feature, queue
families) and `vkCreateInstance`'s result. Operations that loop in C are
methods with loops proved against specification functions; `chooseExtent` and
the image count are functions; `createSwapChain` writes a `SwapChain` object.
The create-info structures handed to the driver are returned as
`submitted`, so their contents can be stated; `None` means the driver was
never asked.

The model follows the C code as written, including these behaviours:

- The queue-family lookup accepts any family whose flags *share a bit* with
  the requested flags; it does not require all of them, and it does not skip
  families with zero queues.
- Device scoring checks only the geometry-shader feature and a graphics queue
  family; it does not look at device extensions or surface support.
- An empty format list fails the C `assert` in debug builds; with `NDEBUG`
  `getSurfaceFormat` reads `formats[0]` out of bounds. So `GetSurfaceFormat`
  requires a non-empty list. An empty present-mode list also fails the
  `assert` in debug builds, but with `NDEBUG` `getPresentMode` returns FIFO
  without reading the list. `GetPresentMode` models that and accepts any list.
- The format scan has no `break`, so the *last* preferred entry wins, and FIFO
  is returned when MAILBOX is absent even if FIFO is not listed.
  `LastPreferredEqualsFirstPreferred` shows the first quirk changes nothing
  observable: a surface format is exactly its two fields, so all preferred
  entries are equal.
- `getPhysicalDevice` never hands the chosen device back to its caller, because
  it reassigns its pointer parameter. The model returns the chosen index.

## Model

| member | source | states |
|---|---|---|
| `Vulkan.AddU32` | swap_chain.c:37 | `uint32_t` addition: the exact sum when it fits, otherwise the sum minus 2^32 |
| `SwapChainSetup.ClampAxis` | swap_chain.c:131-140 | `MAX(lo, MIN(hi, v))` lies in [lo, hi] when lo ≤ hi, returns v unchanged when v is in range, lo when v is below or when lo > hi, hi when v is above a proper range |
| `SwapChainSetup.ChooseExtent` | swap_chain.c:126-141 | a fixed surface extent (width ≠ `UINT32_MAX`) is returned exactly, whatever size is requested; otherwise each axis independently lies in its [min, max] range, keeps an in-range request, and gives min when the request is below or the range is inverted, max when it is above |
| `SwapChainSetup.ImageCount` | swap_chain.c:37-40 | minImageCount + 1 when there is no cap (max 0) or the cap is larger; the cap when it is nonzero and ≤ min; never above a nonzero cap; at least min for consistent capabilities; 0 when min is `UINT32_MAX` (the `uint32_t` wrap) |
| `SwapChainSetup.LastPreferredIndex` | swap_chain.c:92-97 | the index of the B8G8R8A8_UNORM / SRGB_NONLINEAR entry after which no entry is preferred; none exactly when no entry is preferred |
| `SwapChainSetup.LastPreferredEqualsFirstPreferred` | swap_chain.c:93-97 | the last preferred entry exists iff the first one does, and the two are the same format value |
| `SwapChainSetup.GetSurfaceFormat` | swap_chain.c:84-100 | the result is an element of the list, is the last preferred entry, is preferred iff some entry is, and is entry 0 otherwise |
| `SwapChainSetup.GetPresentMode` | swap_chain.c:102-117 | for any list, the empty one included: MAILBOX iff MAILBOX is listed; FIFO otherwise, even when FIFO is not listed |
| `SwapChainSetup.CreateSwapChain` | swap_chain.c:14-82 | a failed capabilities query returns its code with nothing created or written; otherwise the create info holds the image count, chosen format and colour space, chosen extent and present mode, and CONCURRENT with indices [graphics, present] when the families differ, EXCLUSIVE with none when they are equal; a failed creation returns its code and leaves the record alone; success writes the swapchain, the returned images with their count, the format and the extent, and leaves views and framebuffers alone |
| `VulkanTutorial.CheckValidationLayers` | vulkan_tutorial.c:61-90 | true iff at least one layer is available and every requested name equals an available layer name; false whenever no layer is available |
| `VulkanTutorial.CreateInstance` | vulkan_tutorial.c:98-157 | with validation on and the layer check failing, `VK_ERROR_LAYER_NOT_PRESENT` and no creation attempt; otherwise the creation result, the validation layer enabled and the messenger chained iff validation is on, and extensions that are the platform's in order plus the debug-utils name last when validation is on |
| `VulkanTutorial.GetQueueFamilyWithFlags` | vulkan_tutorial.c:287-308 | success with the smallest index whose flags share a bit with the requested flags, ignoring queue counts; `VK_ERROR_INITIALIZATION_FAILED` with no index iff no family qualifies |
| `VulkanTutorial.DeviceScore` | vulkan_tutorial.c:216-247 | a score is never negative, and a positive score implies the geometry-shader feature and a graphics queue family |
| `VulkanTutorial.ScoreDeviceCapabilities` | vulkan_tutorial.c:216-247 | 0 without the geometry-shader feature or without a graphics queue family, whatever the type and image dimension; otherwise 1000 for a discrete GPU plus `maxImageDimension2D` |
| `VulkanTutorial.BestDeviceIsUnique` | vulkan_tutorial.c:266-274 | at most one index has a positive score that none beats with no earlier equal score, so selection depends only on the devices and their order |
| `VulkanTutorial.GetPhysicalDevice` | vulkan_tutorial.c:249-285 | `VK_ERROR_INITIALIZATION_FAILED` iff there are no devices or every score is ≤ 0; otherwise an index with a positive score, at least every other score, and strictly above every earlier score (first seen wins ties) |

## Left out

- The frame loop is not modelled: fences, semaphores, image acquisition, presentation and recreation on resize. No modelled code implements them, and they involve concurrency with the GPU.
- `cleanupSwapChain` is declared in `swap_chain.h` but has no definition. Image views and framebuffers are never created by the modelled code. So `CreateSwapChain` leaves those fields untouched and the full three-array invariant of `struct SwapChain` is never established.
- Debug messenger plumbing (`debugCallback`, `fillDebugMessengerCreateInfo`, `getExtensionFunction`, `initDebugMessenger`, `cleanupDebugMessenger`, `debug_messenger.c`, `vulkan_extensions.c`) is left out. It is function-pointer lookup, driver calls and logging. `CreateInstance` only records whether a messenger create info is chained.
- Shader modules (`shader_modules.c`, `shader_modules.h`), file I/O (`file_io.h`), GLFW windowing, `main`, `vulkanInit` and `vulkanCleanup` are left out. They are I/O and process control.
- The two-call count-then-fill enumeration, `malloc`/`alloca`/`free` and the leaks on early returns are memory management. They are replaced by input sequences.
- `getRequiredExtensions` passes the address of its pointer parameter to GLFW. The platform extension list is taken as an input instead.
- CreateInstance: because of that `getRequiredExtensions` bug, GLFW writes the count into the callee's local pointer and the caller's `glfwExtensionCount` stays 0. The program as written is therefore the model's `platformExtensions == []` case: only `VK_EXT_debug_utils` is requested with validation on, and no extension at all with it off.
- Diagnostic output to stderr is not modelled: the message printed by `RETURN_IF_NOT_VK_SUCCESS`, the messages of `checkValidationLayers`, `createInstance` and `getPhysicalDevice`, and the `UNUSED(queueFamilyIndex)` print that fires for every suitable device in `scoreDeviceCapabilities`.
- The application info handed to `vkCreateInstance` (names, versions, API version) and the `sType` fields are constant and not modelled.
- `CreateSwapChain` ignores the result of `vkGetSwapchainImagesKHR`, as the C code does.
- CreateSwapChain: on a failed `vkCreateSwapchainKHR` the model leaves `swapChain` unchanged. Vulkan leaves that output undefined.
- ScoreDeviceCapabilities: the score uses mathematical integers. In C, a 32-bit `int` plus a `uint32_t` image dimension can wrap for dimensions near 2^31.
- DeviceScore: same as `ScoreDeviceCapabilities`, no wrap-around of the C `int` score.
- GetPhysicalDevice: the model returns the chosen index. In C the chosen device never reaches the caller because the pointer parameter is reassigned.
- CreateInstance: requires fewer than `UINT32_MAX` platform extensions, so the `uint32_t` increment of the extension count cannot wrap.
- CheckValidationLayers: the requested names are a parameter; `CreateInstance` passes the one-entry `VALIDATION_LAYERS`. Layer names are compared as whole strings. The fixed 256-byte `layerName` buffer is not modelled.
