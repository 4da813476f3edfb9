/** Instance creation and physical-device selection. Every Vulkan query the C
    code makes (available layers, the platform's required extensions, the
    devices with their properties, features and queue families, the result of
    `vkCreateInstance`) is an input. */
module VulkanTutorial {
  import opened Vulkan

  // ------------------------------------------------------ validation layers

  /** The layers requested when validation is enabled. */
  const VALIDATION_LAYERS: seq<string> := ["VK_LAYER_KHRONOS_validation"]

  /** `VK_EXT_DEBUG_UTILS_EXTENSION_NAME`. */
  const DEBUG_UTILS_EXTENSION_NAME: string := "VK_EXT_debug_utils"

  /** The layer check passes: at least one layer is available and every
      requested name is the name of an available layer. */
  predicate LayersAvailable(requested: seq<string>, available: seq<string>) {
    |available| > 0 && forall i :: 0 <= i < |requested| ==> requested[i] in available
  }

  /** `checkValidationLayers`: an empty layer list fails at once; otherwise each
      requested name is searched for among the available names, and the first
      one missing fails the check. */
  method CheckValidationLayers(requested: seq<string>, available: seq<string>) returns (found: bool)
    ensures found <==> LayersAvailable(requested, available)
    ensures |available| == 0 ==> !found
    ensures found ==> forall name :: name in requested ==> name in available
  {
    if |available| == 0 {
      return false;
    }

    for i := 0 to |requested|
      invariant forall k :: 0 <= k < i ==> requested[k] in available
    {
      var layerFound := false;
      for j := 0 to |available|
        invariant !layerFound
        invariant forall k :: 0 <= k < j ==> available[k] != requested[i]
      {
        if requested[i] == available[j] {
          layerFound := true;
          break;
        }
      }
      if !layerFound {
        assert requested[i] !in available;
        return false;
      }
    }
    return true;
  }

  // --------------------------------------------------------------- instance

  /** The fields of `VkInstanceCreateInfo` that `createInstance` chooses:
      the enabled layers, whether a debug-messenger create info is chained
      through `pNext`, and the enabled extensions. */
  datatype InstanceCreateInfo = InstanceCreateInfo(
    enabledLayerNames: seq<string>,
    debugMessengerChained: bool,
    enabledExtensionNames: seq<string>)

  /** `createInstance`. With validation enabled and a requested layer missing it
      returns `VK_ERROR_LAYER_NOT_PRESENT` without attempting creation.
      Otherwise it asks for the platform's extensions, in order, followed by
      the debug-utils extension when validation is enabled, and returns what
      `vkCreateInstance` returns. */
  method CreateInstance(
    enableValidation: bool,
    availableLayers: seq<string>,
    platformExtensions: seq<string>,
    createResult: VkResult)
    returns (result: VkResult, submitted: Option<InstanceCreateInfo>)
    requires |platformExtensions| < UINT32_MAX
    ensures enableValidation && !LayersAvailable(VALIDATION_LAYERS, availableLayers) ==>
      result == VK_ERROR_LAYER_NOT_PRESENT && submitted == None
    ensures !enableValidation || LayersAvailable(VALIDATION_LAYERS, availableLayers) ==>
      && result == createResult
      && submitted.Some?
      && submitted.value.enabledLayerNames == (if enableValidation then VALIDATION_LAYERS else [])
      && submitted.value.debugMessengerChained == enableValidation
      && var extensions := submitted.value.enabledExtensionNames;
         && |extensions| == |platformExtensions| + (if enableValidation then 1 else 0)
         && extensions[..|platformExtensions|] == platformExtensions
         && (enableValidation ==> extensions[|extensions| - 1] == DEBUG_UTILS_EXTENSION_NAME)
  {
    if enableValidation {
      var layersOk := CheckValidationLayers(VALIDATION_LAYERS, availableLayers);
      if !layersOk {
        return VK_ERROR_LAYER_NOT_PRESENT, None;
      }
    }

    var enabledLayerNames: seq<string> := if enableValidation then VALIDATION_LAYERS else [];

    var glfwExtensionCount := |platformExtensions|;
    var extensionCount := glfwExtensionCount;
    if enableValidation {
      extensionCount := extensionCount + 1;
    }

    var extensions := new string[extensionCount];
    for i := 0 to glfwExtensionCount
      invariant forall k :: 0 <= k < i ==> extensions[k] == platformExtensions[k]
    {
      extensions[i] := platformExtensions[i];
    }

    if enableValidation {
      extensions[glfwExtensionCount] := DEBUG_UTILS_EXTENSION_NAME;
    }

    assert extensions[..][..glfwExtensionCount] == platformExtensions;
    submitted := Some(InstanceCreateInfo(enabledLayerNames, enableValidation, extensions[..]));
    result := createResult;
  }

  // ---------------------------------------------------------- queue families

  /** A family's flags share at least one bit with the requested flags. */
  predicate Overlaps(queueFlags: bv32, flags: bv32) {
    queueFlags & flags != 0
  }

  /** Some family's flags overlap the requested flags. */
  predicate HasQueueFamilyWithFlags(queueFamilies: seq<QueueFamilyProperties>, flags: bv32) {
    exists i :: 0 <= i < |queueFamilies| && Overlaps(queueFamilies[i].queueFlags, flags)
  }

  /** `getQueueFamilyWithFlags`: the index of the first family whose flags
      overlap the requested ones (any shared bit, not all of them; the number
      of queues in the family is not looked at), or
      `VK_ERROR_INITIALIZATION_FAILED` with no index when there is none. */
  method GetQueueFamilyWithFlags(queueFamilies: seq<QueueFamilyProperties>, flags: bv32)
    returns (r: VkOutcome<nat>)
    ensures r.Success? ==>
      && r.value < |queueFamilies|
      && Overlaps(queueFamilies[r.value].queueFlags, flags)
      && forall j :: 0 <= j < r.value ==> !Overlaps(queueFamilies[j].queueFlags, flags)
    ensures r.Failure? ==>
      && r.code == VK_ERROR_INITIALIZATION_FAILED
      && forall j :: 0 <= j < |queueFamilies| ==> !Overlaps(queueFamilies[j].queueFlags, flags)
    ensures r.Success? <==> HasQueueFamilyWithFlags(queueFamilies, flags)
  {
    for i := 0 to |queueFamilies|
      invariant forall j :: 0 <= j < i ==> !Overlaps(queueFamilies[j].queueFlags, flags)
    {
      if queueFamilies[i].queueFlags & flags != 0 {
        assert Overlaps(queueFamilies[i].queueFlags, flags);
        return Success(i);
      }
    }
    return Failure(VK_ERROR_INITIALIZATION_FAILED);
  }

  // ---------------------------------------------------------------- scoring

  /** The score of a device: 0 without the geometry-shader feature or without
      a graphics-capable queue family; otherwise 1000 for a discrete GPU plus
      the largest 2D image dimension. */
  function DeviceScore(device: PhysicalDevice): (s: int)
    ensures s >= 0
    ensures s > 0 ==> device.geometryShader && HasQueueFamilyWithFlags(device.queueFamilies, VK_QUEUE_GRAPHICS_BIT)
  {
    if !device.geometryShader then 0
    else if !HasQueueFamilyWithFlags(device.queueFamilies, VK_QUEUE_GRAPHICS_BIT) then 0
    else (if device.deviceType == VK_PHYSICAL_DEVICE_TYPE_DISCRETE_GPU then 1000 else 0)
         + device.maxImageDimension2D
  }

  /** `scoreDeviceCapabilities`. */
  method ScoreDeviceCapabilities(device: PhysicalDevice) returns (score: int)
    ensures score == DeviceScore(device)
    ensures !device.geometryShader ==> score == 0
    ensures !HasQueueFamilyWithFlags(device.queueFamilies, VK_QUEUE_GRAPHICS_BIT) ==> score == 0
    ensures device.geometryShader && HasQueueFamilyWithFlags(device.queueFamilies, VK_QUEUE_GRAPHICS_BIT) ==>
      score == (if device.deviceType == VK_PHYSICAL_DEVICE_TYPE_DISCRETE_GPU then 1000 else 0)
               + device.maxImageDimension2D
  {
    score := 0;
    if device.deviceType == VK_PHYSICAL_DEVICE_TYPE_DISCRETE_GPU {
      score := score + 1000;
    }
    score := score + device.maxImageDimension2D;

    if !device.geometryShader {
      return 0;
    }

    var queueFamily := GetQueueFamilyWithFlags(device.queueFamilies, VK_QUEUE_GRAPHICS_BIT);
    if queueFamily.Failure? {
      return 0;
    }
  }

  // -------------------------------------------------------------- selection

  /** Index `i` is the device selection must pick: a positive score that no
      device beats, and no earlier device with the same score. */
  predicate IsBestDevice(devices: seq<PhysicalDevice>, i: nat) {
    && i < |devices|
    && DeviceScore(devices[i]) > 0
    && (forall j :: 0 <= j < |devices| ==> DeviceScore(devices[j]) <= DeviceScore(devices[i]))
    && (forall j :: 0 <= j < i ==> DeviceScore(devices[j]) < DeviceScore(devices[i]))
  }

  /** At most one index is the best device, so selection is determined by the
      devices and their order. */
  lemma BestDeviceIsUnique(devices: seq<PhysicalDevice>, i: nat, k: nat)
    requires IsBestDevice(devices, i) && IsBestDevice(devices, k)
    ensures i == k
  {
  }

  /** `getPhysicalDevice`: scores every device and keeps the first one whose
      score is strictly greater than the best so far, starting from 0, so a
      device scoring 0 is never chosen. It yields the chosen index;
      `VK_ERROR_INITIALIZATION_FAILED` when there are no devices or none scores
      above 0. */
  method GetPhysicalDevice(devices: seq<PhysicalDevice>) returns (r: VkOutcome<nat>)
    ensures r.Success? ==> IsBestDevice(devices, r.value)
    ensures r.Failure? ==> r.code == VK_ERROR_INITIALIZATION_FAILED
    ensures r.Failure? <==> forall j :: 0 <= j < |devices| ==> DeviceScore(devices[j]) <= 0
    ensures |devices| == 0 ==> r == Failure(VK_ERROR_INITIALIZATION_FAILED)
  {
    if |devices| == 0 {
      return Failure(VK_ERROR_INITIALIZATION_FAILED);
    }

    var bestScore := 0;
    var bestIndex := -1;
    for i := 0 to |devices|
      invariant -1 <= bestIndex < i
      invariant bestIndex == -1 ==> bestScore == 0
      invariant bestIndex != -1 ==> bestScore == DeviceScore(devices[bestIndex]) > 0
      invariant forall j :: 0 <= j < i ==> DeviceScore(devices[j]) <= bestScore
      invariant forall j :: 0 <= j < bestIndex ==> DeviceScore(devices[j]) < bestScore
    {
      var score := ScoreDeviceCapabilities(devices[i]);
      if score > bestScore {
        bestScore := score;
        bestIndex := i;
      }
    }

    if bestIndex == -1 {
      return Failure(VK_ERROR_INITIALIZATION_FAILED);
    }
    return Success(bestIndex);
  }
}
