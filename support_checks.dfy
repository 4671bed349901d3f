/** The name-list checks of `VulkanRenderer`: instance extensions, device
    extensions and validation layers. */
module SupportChecks {
  import opened Utilities

  /** The nested search the three checks share: for each required name, look
      through the available names until it is found; give up at the first name
      that is missing. */
  method ContainsAll(required: seq<string>, available: seq<string>) returns (ok: bool)
    ensures ok <==> forall name :: name in required ==> name in available
  {
    var i := 0;
    while i < |required|
      invariant 0 <= i <= |required|
      invariant forall k :: 0 <= k < i ==> required[k] in available
    {
      var hasName := false;
      var j := 0;
      while j < |available|
        invariant 0 <= j <= |available|
        invariant !hasName
        invariant forall k :: 0 <= k < j ==> available[k] != required[i]
      {
        if required[i] == available[j] {
          hasName := true;
          break;
        }
        j := j + 1;
      }
      if !hasName {
        assert required[i] in required && required[i] !in available;
        return false;
      }
      i := i + 1;
    }
    return true;
  }

  /** `checkInstanceExtensionSupport`: every extension asked for is offered by the instance. */
  method CheckInstanceExtensionSupport(checkExtensions: seq<string>, extensions: seq<string>) returns (ok: bool)
    ensures ok <==> forall e :: e in checkExtensions ==> e in extensions
  {
    ok := ContainsAll(checkExtensions, extensions);
  }

  /** `checkValidationLayerSupport`: every requested layer is among the instance's layers. */
  method CheckValidationLayerSupport(validationLayers: seq<string>, availableLayers: seq<string>) returns (ok: bool)
    ensures ok <==> forall layer :: layer in validationLayers ==> layer in availableLayers
  {
    ok := ContainsAll(validationLayers, availableLayers);
  }

  /** What `checkDeviceExtensionSupport` answers for a device offering `extensions`. */
  predicate DeviceExtensionsSupported(extensions: seq<string>) {
    |extensions| > 0 && forall e :: e in DEVICE_EXTENSIONS ==> e in extensions
  }

  /** With a single required name the device check is one membership test; the
      separate empty-list test never changes the answer. */
  lemma DeviceExtensionsSupportedIff(extensions: seq<string>)
    ensures DeviceExtensionsSupported(extensions) <==> VK_KHR_SWAPCHAIN_EXTENSION_NAME in extensions
  {
    assert DEVICE_EXTENSIONS[0] == VK_KHR_SWAPCHAIN_EXTENSION_NAME;
  }

  /** `checkDeviceExtensionSupport`: false for a device with no extensions, otherwise
      whether every name of `DEVICE_EXTENSIONS` is offered. */
  method CheckDeviceExtensionSupport(extensions: seq<string>) returns (ok: bool)
    ensures ok == DeviceExtensionsSupported(extensions)
    ensures ok <==> VK_KHR_SWAPCHAIN_EXTENSION_NAME in extensions
  {
    DeviceExtensionsSupportedIff(extensions);
    if |extensions| == 0 {
      return false;
    }
    ok := ContainsAll(DEVICE_EXTENSIONS, extensions);
  }
}
