/** Declarations shared by the renderer: the required device extensions and the
    queue-family index pair. */
module Utilities {

  const VK_KHR_SWAPCHAIN_EXTENSION_NAME: string := "VK_KHR_swapchain"

  /** The device extensions every chosen device must offer. */
  const DEVICE_EXTENSIONS: seq<string> := [VK_KHR_SWAPCHAIN_EXTENSION_NAME]

  /** Locations of the graphics and presentation queue families; -1 means "not found". */
  datatype QueueFamilyIndices = QueueFamilyIndices(graphicsFamily: int, presentationFamily: int) {
    /** Both families have been found.  Reads the two fields only. */
    predicate IsValid() {
      graphicsFamily >= 0 && presentationFamily >= 0
    }
  }

  /** A default-constructed `QueueFamilyIndices`. */
  const DefaultIndices: QueueFamilyIndices := QueueFamilyIndices(-1, -1)

  lemma DefaultIndicesNotValid()
    ensures DefaultIndices.graphicsFamily == -1 && DefaultIndices.presentationFamily == -1
    ensures !DefaultIndices.IsValid()
  {
  }

  lemma DeviceExtensionsSingleName()
    ensures |DEVICE_EXTENSIONS| == 1 && DEVICE_EXTENSIONS[0] == VK_KHR_SWAPCHAIN_EXTENSION_NAME
    ensures forall e :: e in DEVICE_EXTENSIONS <==> e == VK_KHR_SWAPCHAIN_EXTENSION_NAME
  {
  }
}
