/** Device suitability, the device-selection loop, and the queue-family
    bookkeeping of `createLogicalDevice` and `createSwapChain`. */
module DeviceSelection {
  import opened Common
  import opened Vk
  import opened Utilities
  import opened QueueFamilies
  import opened SupportChecks

  /** What `checkDeviceSuitable` answers for a device. */
  predicate IsSuitable(d: PhysicalDevice) {
    && FindQueueFamilies(d.queueFamilies).IsValid()
    && DeviceExtensionsSupported(d.extensions)
    && |d.presentModes| > 0
    && |d.formats| > 0
  }

  /** A device is suitable exactly when it has a graphics-capable family, a
      presentation-capable family, the swapchain extension, and at least one
      surface format and one present mode. */
  lemma SuitableIff(d: PhysicalDevice)
    ensures IsSuitable(d) <==>
            && (exists a :: 0 <= a < |d.queueFamilies| && GraphicsCapable(d.queueFamilies[a]))
            && (exists b :: 0 <= b < |d.queueFamilies| && PresentationCapable(d.queueFamilies[b]))
            && VK_KHR_SWAPCHAIN_EXTENSION_NAME in d.extensions
            && |d.formats| > 0
            && |d.presentModes| > 0
  {
    ValidIffCapableFamiliesExist(d.queueFamilies);
    DeviceExtensionsSupportedIff(d.extensions);
  }

  /** `checkDeviceSuitable`: the queue-family scan, the extension check and the
      non-emptiness of the swapchain details, all required. */
  method CheckDeviceSuitable(d: PhysicalDevice) returns (ok: bool)
    ensures ok == IsSuitable(d)
  {
    var indices := GetQueueFamilies(d.queueFamilies);
    var extensionsSupported := CheckDeviceExtensionSupport(d.extensions);
    var swapChainValid := |d.presentModes| != 0 && |d.formats| != 0;
    ok := indices.IsValid() && extensionsSupported && swapChainValid;
  }

  /** The value held after a loop that looks at `items` in order, starting from
      `current`, and stores every item that passes `suitable`.  The loop has no
      `break`, so each passing item overwrites the previous choice. */
  function SelectLast<T>(items: seq<T>, current: Option<T>, suitable: T -> bool): Option<T>
    decreases |items|
  {
    if items == [] then current
    else if suitable(items[|items| - 1]) then Some(items[|items| - 1])
    else SelectLast(items[..|items| - 1], current, suitable)
  }

  /** The position of the last item that passes `suitable`, or -1 if none does. */
  function LastPassing<T>(items: seq<T>, suitable: T -> bool): (k: int)
    ensures -1 <= k < |items|
    ensures k >= 0 ==> suitable(items[k])
    ensures forall j :: k < j < |items| ==> !suitable(items[j])
    decreases |items|
  {
    if items == [] then -1
    else if suitable(items[|items| - 1]) then |items| - 1
    else LastPassing(items[..|items| - 1], suitable)
  }

  /** The loop keeps `current` when no item passes, and otherwise ends on the
      last passing item. */
  lemma {:induction false} SelectLastIsLastPassing<T>(items: seq<T>, current: Option<T>, suitable: T -> bool)
    ensures SelectLast(items, current, suitable) ==
            if LastPassing(items, suitable) < 0 then current else Some(items[LastPassing(items, suitable)])
    decreases |items|
  {
    if items != [] && !suitable(items[|items| - 1]) {
      var rest := items[..|items| - 1];
      SelectLastIsLastPassing(rest, current, suitable);
      var k := LastPassing(rest, suitable);
      assert k >= 0 ==> rest[k] == items[k];
    }
  }

  /** The device `getPhysicalDevice` leaves selected. */
  function SelectDevice(devices: seq<PhysicalDevice>, current: Option<PhysicalDevice>): Option<PhysicalDevice> {
    SelectLast(devices, current, IsSuitable)
  }

  /** `getPhysicalDevice` keeps its previous device when none is suitable, and
      otherwise selects the last suitable device in enumeration order. */
  lemma SelectDeviceIsLastSuitable(devices: seq<PhysicalDevice>, current: Option<PhysicalDevice>)
    ensures (forall k :: 0 <= k < |devices| ==> !IsSuitable(devices[k])) ==> SelectDevice(devices, current) == current
    ensures forall k :: 0 <= k < |devices| && IsSuitable(devices[k]) ==>
              exists m :: k <= m < |devices| && SelectDevice(devices, current) == Some(devices[m]) &&
                          IsSuitable(devices[m]) && forall j :: m < j < |devices| ==> !IsSuitable(devices[j])
  {
    SelectLastIsLastPassing(devices, current, IsSuitable);
  }

  /** With two suitable devices the second one is kept, not the first. */
  lemma LaterSuitableDeviceWins(first: PhysicalDevice, second: PhysicalDevice, current: Option<PhysicalDevice>)
    requires IsSuitable(first) && IsSuitable(second) && first != second
    ensures SelectDevice([first, second], current) == Some(second)
    ensures SelectDevice([first, second], current) != Some(first)
  {
  }

  /** One queue-creation request of `createLogicalDevice`. */
  datatype DeviceQueueCreateInfo = DeviceQueueCreateInfo(queueFamilyIndex: uint32, queueCount: nat)

  /** The elements of `set<int>{graphicsFamily, presentationFamily}` in the
      ascending order in which a `std::set` is iterated. */
  function FamilySetOrder(indices: QueueFamilyIndices): (r: seq<int>)
    ensures forall k :: 0 <= k < |r| ==> r[k] in {indices.graphicsFamily, indices.presentationFamily}
    ensures indices.graphicsFamily in r && indices.presentationFamily in r
    ensures forall k, l :: 0 <= k < l < |r| ==> r[k] < r[l]
    ensures |r| == if indices.graphicsFamily == indices.presentationFamily then 1 else 2
  {
    var g, p := indices.graphicsFamily, indices.presentationFamily;
    if g == p then [g] else if g < p then [g, p] else [p, g]
  }

  /** The loop of `createLogicalDevice` that pushes one request, for one queue,
      per distinct family index. */
  method BuildQueueCreateInfos(indices: QueueFamilyIndices) returns (queueCreateInfos: seq<DeviceQueueCreateInfo>)
    ensures |queueCreateInfos| == if indices.graphicsFamily == indices.presentationFamily then 1 else 2
    ensures |queueCreateInfos| == |FamilySetOrder(indices)|
    ensures forall k :: 0 <= k < |queueCreateInfos| ==>
              queueCreateInfos[k] == DeviceQueueCreateInfo(ToU32(FamilySetOrder(indices)[k]), 1)
  {
    var queueFamilyIndices := FamilySetOrder(indices);
    queueCreateInfos := [];
    var i := 0;
    while i < |queueFamilyIndices|
      invariant 0 <= i <= |queueFamilyIndices|
      invariant |queueCreateInfos| == i
      invariant forall k :: 0 <= k < i ==>
                  queueCreateInfos[k] == DeviceQueueCreateInfo(ToU32(queueFamilyIndices[k]), 1)
    {
      queueCreateInfos := queueCreateInfos + [DeviceQueueCreateInfo(ToU32(queueFamilyIndices[i]), 1)];
      i := i + 1;
    }
  }

  /** How the swapchain images are shared between queue families. */
  datatype SharingInfo = SharingInfo(
    imageSharingMode: SharingMode,
    queueFamilyIndexCount: nat,
    queueFamilyIndices: seq<uint32>)

  /** The sharing branch of `createSwapChain`. */
  function ChooseSharing(indices: QueueFamilyIndices): (r: SharingInfo)
    ensures r.imageSharingMode == Concurrent <==> indices.graphicsFamily != indices.presentationFamily
    ensures r.queueFamilyIndexCount == |r.queueFamilyIndices|
    ensures r.imageSharingMode == Concurrent ==>
              r.queueFamilyIndices == [ToU32(indices.graphicsFamily), ToU32(indices.presentationFamily)]
    ensures r.imageSharingMode == Exclusive ==> r.queueFamilyIndexCount == 0
  {
    if indices.graphicsFamily != indices.presentationFamily then
      SharingInfo(Concurrent, 2, [ToU32(indices.graphicsFamily), ToU32(indices.presentationFamily)])
    else
      SharingInfo(Exclusive, 0, [])
  }

  /** The swapchain shares its images exactly when the logical device was created
      with two queue families, and then across exactly those families. */
  lemma SharingMatchesQueueCreation(indices: QueueFamilyIndices)
    ensures ChooseSharing(indices).imageSharingMode == Concurrent <==> |FamilySetOrder(indices)| == 2
    ensures ChooseSharing(indices).imageSharingMode == Concurrent ==>
              multiset(ChooseSharing(indices).queueFamilyIndices) ==
              multiset{ToU32(FamilySetOrder(indices)[0]), ToU32(FamilySetOrder(indices)[1])}
  {
  }
}
