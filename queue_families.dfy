/** The queue-family scan of `VulkanRenderer::getQueueFamilies`. */
module QueueFamilies {
  import opened Common
  import opened Vk
  import opened Utilities

  /** A family that has at least one queue and the graphics bit. */
  predicate GraphicsCapable(f: QueueFamilyProperties) {
    f.queueCount > 0 && f.queueFlags & VK_QUEUE_GRAPHICS_BIT != 0
  }

  /** A family that has at least one queue and can present to the surface. */
  predicate PresentationCapable(f: QueueFamilyProperties) {
    f.queueCount > 0 && f.presentationSupport
  }

  /** The larger of two family indices.  Unlike `Common.Max`, which works on
      `uint32`, it takes the signed `int` fields of `QueueFamilyIndices`. */
  function MaxInt(a: int, b: int): int { if a <= b then b else a }

  /** Number of families the scan looked at before it returned `r`:
      up to and including the stopping index, or all of them. */
  function ScannedCount(fams: seq<QueueFamilyProperties>, r: QueueFamilyIndices): int {
    if r.IsValid() then MaxInt(r.graphicsFamily, r.presentationFamily) + 1 else |fams|
  }

  /** The state of the scan after looking at the first `i` families: each field is
      the last capable index seen so far (or -1), and the pair is not yet valid. */
  ghost predicate ScannedUpTo(fams: seq<QueueFamilyProperties>, i: nat, acc: QueueFamilyIndices) {
    && i <= |fams|
    && -1 <= acc.graphicsFamily < i
    && -1 <= acc.presentationFamily < i
    && (acc.graphicsFamily >= 0 ==> GraphicsCapable(fams[acc.graphicsFamily]))
    && (acc.presentationFamily >= 0 ==> PresentationCapable(fams[acc.presentationFamily]))
    && (forall j :: acc.graphicsFamily < j < i ==> !GraphicsCapable(fams[j]))
    && (forall j :: acc.presentationFamily < j < i ==> !PresentationCapable(fams[j]))
    && !acc.IsValid()
  }

  /** What the finished scan promises about its result `r`. */
  ghost predicate IsScanResult(fams: seq<QueueFamilyProperties>, r: QueueFamilyIndices) {
    && -1 <= r.graphicsFamily < |fams|
    && -1 <= r.presentationFamily < |fams|
    && (r.graphicsFamily >= 0 ==> GraphicsCapable(fams[r.graphicsFamily]))
    && (r.presentationFamily >= 0 ==> PresentationCapable(fams[r.presentationFamily]))
    // each field is the LAST capable family among those scanned
    && (forall j :: r.graphicsFamily < j < ScannedCount(fams, r) ==> !GraphicsCapable(fams[j]))
    && (forall j :: r.presentationFamily < j < ScannedCount(fams, r) ==> !PresentationCapable(fams[j]))
    // the scan stops at the first index by which both kinds have been seen
    && (r.IsValid() ==>
          forall a, b :: 0 <= a < |fams| && 0 <= b < |fams| &&
                         GraphicsCapable(fams[a]) && PresentationCapable(fams[b]) ==>
                         MaxInt(r.graphicsFamily, r.presentationFamily) <= MaxInt(a, b))
  }

  /** The loop of `getQueueFamilies` from index `i` on, with `acc` the indices so far. */
  function ScanFamilies(fams: seq<QueueFamilyProperties>, i: nat, acc: QueueFamilyIndices): QueueFamilyIndices
    requires ScannedUpTo(fams, i, acc)
    decreases |fams| - i
  {
    if i == |fams| then acc
    else
      var next := ScanStep(fams, i, acc);
      if next.IsValid() then next else ScanFamilies(fams, i + 1, next)
  }

  /** One iteration of the loop body: overwrite each field whose test family `i` passes. */
  function ScanStep(fams: seq<QueueFamilyProperties>, i: nat, acc: QueueFamilyIndices): QueueFamilyIndices
    requires i < |fams|
  {
    QueueFamilyIndices(
      if GraphicsCapable(fams[i]) then i else acc.graphicsFamily,
      if PresentationCapable(fams[i]) then i else acc.presentationFamily)
  }

  /** From any intermediate state of the loop, the scan ends with a result that
      has all the promised properties. */
  lemma {:induction false} ScanFamiliesIsScanResult(fams: seq<QueueFamilyProperties>, i: nat, acc: QueueFamilyIndices)
    requires ScannedUpTo(fams, i, acc)
    ensures IsScanResult(fams, ScanFamilies(fams, i, acc))
    decreases |fams| - i
  {
    if i < |fams| {
      var next := ScanStep(fams, i, acc);
      if next.IsValid() {
        assert MaxInt(next.graphicsFamily, next.presentationFamily) == i;
      } else {
        ScanFamiliesIsScanResult(fams, i + 1, next);
      }
    }
  }

  /** The indices `getQueueFamilies` returns for a device with these families. */
  function FindQueueFamilies(fams: seq<QueueFamilyProperties>): (r: QueueFamilyIndices)
    ensures IsScanResult(fams, r)
    ensures r.graphicsFamily == -1 ==> forall j :: 0 <= j < |fams| ==> !GraphicsCapable(fams[j])
    ensures r.presentationFamily == -1 ==> forall j :: 0 <= j < |fams| ==> !PresentationCapable(fams[j])
  {
    ScanFamiliesIsScanResult(fams, 0, DefaultIndices);
    ScanFamilies(fams, 0, DefaultIndices)
  }

  /** The scan finds a valid pair exactly when some family can do graphics and
      some (possibly other) family can present. */
  lemma ValidIffCapableFamiliesExist(fams: seq<QueueFamilyProperties>)
    ensures FindQueueFamilies(fams).IsValid() <==>
            (exists a :: 0 <= a < |fams| && GraphicsCapable(fams[a])) &&
            (exists b :: 0 <= b < |fams| && PresentationCapable(fams[b]))
  {
    var r := FindQueueFamilies(fams);
    if r.IsValid() {
      assert GraphicsCapable(fams[r.graphicsFamily]);
      assert PresentationCapable(fams[r.presentationFamily]);
    }
  }

  /** `getQueueFamilies`: scan the families in order, overwrite a field whenever the
      family qualifies, and stop as soon as both fields are set. */
  method GetQueueFamilies(fams: seq<QueueFamilyProperties>) returns (indices: QueueFamilyIndices)
    ensures indices == FindQueueFamilies(fams)
  {
    indices := DefaultIndices;
    var i := 0;
    while i < |fams|
      invariant ScannedUpTo(fams, i, indices)
      invariant ScanFamilies(fams, i, indices) == FindQueueFamilies(fams)
    {
      ghost var before := indices;
      var queueFamily := fams[i];
      if GraphicsCapable(queueFamily) {
        indices := indices.(graphicsFamily := i);
      }
      if PresentationCapable(queueFamily) {
        indices := indices.(presentationFamily := i);
      }
      assert indices == ScanStep(fams, i, before);
      if indices.IsValid() {
        break;
      }
      i := i + 1;
    }
  }
}
