# Vulkan course renderer: device negotiation and mesh loading

A Dafny model of the decision logic in the course renderer `VulkanCourseApp`:

- **Device and swapchain negotiation** (`VulkanRenderer.cpp`):
  - the queue-family scan;
  - the extension and validation-layer name checks;
  - device suitability and the device-selection loop;
  - one queue-creation request per distinct queue family;
  - the choice of surface format, present mode, swap extent and image count;
  - the image sharing mode;
  - the list of swapchain images with their views.
- **Mesh model bookkeeping** (`MeshModel.cpp`):
  - the `MeshModel` class with its accessors and teardown;
  - texture file names taken from material paths;
  - vertex and index assembly for one assimp mesh;
  - the pre-order walk over the assimp node tree.
- **`QueueFamilyIndices` and `DEVICE_EXTENSIONS`** (`Utilities.h`).

The Vulkan, GLFW and assimp libraries are outside the model. What their queries return becomes plain data:

- A physical device is a record. It holds:
  - its queue families, each with a flag saying whether it can present to the window surface;
  - its extension names;
  - its surface capabilities;
  - its surface formats and present modes.
- An assimp scene is a tree of datatypes: meshes, faces, materials and nodes.
- The success of `vkCreateDevice` and `vkCreateSwapchainKHR` is a boolean parameter.
- `glfwGetFramebufferSize` and `vkGetSwapchainImagesKHR` become parameters.
- Each exception becomes a `Failure`/`Fail` value that names the error.

Integer widths follow the code:

- `static_cast<uint32_t>` is taken modulo 2^32.
- The image count `minImageCount + 1` wraps to 0 at `UINT32_MAX`.
- `rfind` converted to `int` yields -1 when the character is absent.

Behaviour the model keeps as the code has it:

- **Last suitable device.** `getPhysicalDevice` has no `break`, although its comment says it picks the first suitable device. The model therefore keeps the *last* suitable device. When no device is suitable, nothing is thrown and the previous selection stays. Device suitability never checks anisotropic sampling or any other device feature: the commented-out block in `checkDeviceSuitable` only queries properties and features, and `createLogicalDevice` enables no features.
- **Queue-family scan.** `getQueueFamilies` overwrites a field every time a family qualifies, until both fields are set. Each field therefore names the *last* qualifying family seen before the scan stops, not necessarily the first one.
- **Texture file names.** The backslash-stripped name in `LoadMaterials` is overwritten by a name recomputed from the full path. Only `/` separates directories, so `textures\brick.png` stays as it is.
- **Vertex positions.** `LoadMesh` reads each position through `mesh->mVertices` without an offset. Every vertex therefore gets the mesh's first position.
- **`LoadMesh` passes a texture id.** `LoadMesh` passes `matToTex[mesh->mMaterialIndex]` to the `Mesh` constructor, but that constructor does not declare the parameter. The model keeps the texture id as a field of `Mesh`.

## Model

| member | source | states |
|---|---|---|
| `Utilities.QueueFamilyIndices.IsValid` | VulkanCourseApp/Utilities.h:16-18 | True exactly when both family fields are ≥ 0 |
| `Utilities.DefaultIndicesNotValid` | VulkanCourseApp/Utilities.h:12-18 | A default `QueueFamilyIndices` has both fields at -1 and is not valid |
| `Utilities.DeviceExtensionsSingleName` | VulkanCourseApp/Utilities.h:7-9 | `DEVICE_EXTENSIONS` holds exactly one name, the swapchain extension |
| `QueueFamilies.ScanFamiliesIsScanResult` | VulkanCourseApp/VulkanRenderer.cpp:804-826 | From any loop state where no valid pair has been reached, the scan ends with a result that has every property of `IsScanResult` |
| `QueueFamilies.FindQueueFamilies` | VulkanCourseApp/VulkanRenderer.cpp:792-829 | Each non-negative field names a family below the family count with at least one queue and the needed capability (graphics bit / presentation support). Each field is the last such family among those scanned. The scan stops at the first index by which both kinds have been seen. A field is -1 only if no family qualifies for it |
| `QueueFamilies.ValidIffCapableFamiliesExist` | VulkanCourseApp/VulkanRenderer.cpp:808-823 | The scan's result is valid exactly when some family can do graphics and some family can present |
| `QueueFamilies.GetQueueFamilies` | VulkanCourseApp/VulkanRenderer.cpp:792-829 | The loop with its early `break` returns exactly the scan's result |
| `SupportChecks.ContainsAll` | VulkanCourseApp/VulkanRenderer.cpp:705-718 | The nested search returns true exactly when every required name occurs among the available names |
| `SupportChecks.CheckInstanceExtensionSupport` | VulkanCourseApp/VulkanRenderer.cpp:695-719 | True exactly when the requested instance extensions are a subset of the available ones |
| `SupportChecks.CheckValidationLayerSupport` | VulkanCourseApp/VulkanRenderer.cpp:770-790 | True exactly when the requested validation layers are a subset of the available layers |
| `SupportChecks.DeviceExtensionsSupportedIff` | VulkanCourseApp/VulkanRenderer.cpp:721-747 | The device check is a single membership test of the swapchain extension; the empty-list test never changes the answer |
| `SupportChecks.CheckDeviceExtensionSupport` | VulkanCourseApp/VulkanRenderer.cpp:721-747 | False for an empty extension list, otherwise true exactly when every `DEVICE_EXTENSIONS` name is offered. Equivalently, true exactly when the swapchain extension is offered |
| `DeviceSelection.SuitableIff` | VulkanCourseApp/VulkanRenderer.cpp:749-768 | Suitable exactly when a graphics-capable and a presentation-capable family exist, the swapchain extension is offered, and the format and present-mode lists are both non-empty |
| `DeviceSelection.CheckDeviceSuitable` | VulkanCourseApp/VulkanRenderer.cpp:749-768 | Answers the suitability predicate: valid indices, supported extensions, and non-empty format and mode lists |
| `DeviceSelection.LastPassing` | VulkanCourseApp/VulkanRenderer.cpp:669-674 | The returned position passes the test and no later item does, or it is -1 and no item passes |
| `DeviceSelection.SelectLastIsLastPassing` | VulkanCourseApp/VulkanRenderer.cpp:669-674 | A loop that overwrites its choice with every passing item, with no `break`, ends on the last passing item, or keeps its starting value if none passes |
| `DeviceSelection.SelectDeviceIsLastSuitable` | VulkanCourseApp/VulkanRenderer.cpp:655-675 | The selected device is the last suitable one in enumeration order; with no suitable device the field keeps its old value |
| `DeviceSelection.LaterSuitableDeviceWins` | VulkanCourseApp/VulkanRenderer.cpp:669-674 | Of two distinct suitable devices, the second is selected and the first is not |
| `DeviceSelection.FamilySetOrder` | VulkanCourseApp/VulkanRenderer.cpp:123-126 | Iterating `set<int>{graphics, presentation}` visits each distinct family once, in ascending order: one element if the two are equal, two otherwise |
| `DeviceSelection.BuildQueueCreateInfos` | VulkanCourseApp/VulkanRenderer.cpp:122-135 | One request for one queue per distinct family index, in set order: one request if graphics equals presentation, two otherwise |
| `DeviceSelection.ChooseSharing` | VulkanCourseApp/VulkanRenderer.cpp:204-216 | Concurrent sharing with the two family indices exactly when the families differ; otherwise exclusive with a count of 0 |
| `DeviceSelection.SharingMatchesQueueCreation` | VulkanCourseApp/VulkanRenderer.cpp:204-216 | Images are shared concurrently exactly when the logical device was created with two queue families, and then across those same two families |
| `SwapchainSettings.BestSurfaceFormatUnique` | VulkanCourseApp/VulkanRenderer.cpp:857-873 | The format-choice rule picks a single format: two results that both satisfy it are equal |
| `SwapchainSettings.ChooseBestSurfaceFormat` | VulkanCourseApp/VulkanRenderer.cpp:857-873 | A lone `VK_FORMAT_UNDEFINED` yields `R8G8B8A8_UNORM`/`SRGB_NONLINEAR`. Otherwise the result is the first entry that is RGBA8 or BGRA8 with sRGB non-linear colour space. If there is none, the result is `formats[0]` |
| `SwapchainSettings.ChooseBestPresMode` | VulkanCourseApp/VulkanRenderer.cpp:876-884 | The result is mailbox exactly when mailbox is offered, and FIFO otherwise |
| `SwapchainSettings.Clamp` | VulkanCourseApp/VulkanRenderer.cpp:902-903 | With min ≤ max the result lies in [min, max]. A value already in range is kept. A value below min gives min. A value above max gives max(min, max) |
| `SwapchainSettings.ChooseSwapExtent` | VulkanCourseApp/VulkanRenderer.cpp:886-907 | A current width other than `UINT32_MAX` returns the current extent unchanged. Otherwise each framebuffer dimension, cast to `uint32_t`, is clamped to the surface's [min, max] |
| `SwapchainSettings.ImageCount` | VulkanCourseApp/VulkanRenderer.cpp:182-186 | The count is `minImageCount + 1`. It is lowered to `maxImageCount` only when `0 < maxImageCount < minImageCount + 1`. It never exceeds a non-zero maximum and is at least the minimum when min ≤ max. It wraps to 0 at `UINT32_MAX` |
| `SwapchainSettings.ImageCountExamples` | VulkanCourseApp/VulkanRenderer.cpp:182-186 | min/max 2/3 gives 3, 2/0 gives 3, 2/2 gives 2 |
| `Renderer.VulkanRenderer.constructor` | VulkanCourseApp/VulkanRenderer.cpp:12-13 | A new renderer has no device, no queues, no swapchain and no swapchain images |
| `Renderer.VulkanRenderer.GetPhysicalDevice` | VulkanCourseApp/VulkanRenderer.cpp:655-675 | Throws exactly when no device is enumerated; otherwise the stored device is the selection loop's result starting from the old value |
| `Renderer.VulkanRenderer.CreateLogicalDevice` | VulkanCourseApp/VulkanRenderer.cpp:117-159 | If creation fails, it throws and nothing changes. Otherwise the device gets one queue request per distinct family and the `DEVICE_EXTENSIONS` list. The graphics and presentation queues are queue 0 of the scanned families |
| `Renderer.VulkanRenderer.CreateSwapChain` | VulkanCourseApp/VulkanRenderer.cpp:169-244 | If creation fails, it throws and nothing changes. Otherwise the swapchain gets the chosen format, present mode, extent, image count and sharing. The image format and extent are stored. Every returned image is appended, in order, with a colour view in that format |
| `MeshModels.MeshModel.Empty` | VulkanCourseApp/MeshModel.cpp:4-5 | The default model has no meshes |
| `MeshModels.MeshModel.constructor` | VulkanCourseApp/MeshModel.cpp:7-10 | The model holds the given meshes, its mesh count is their number, and its transform is the identity |
| `MeshModels.MeshModel.GetMeshCount` | VulkanCourseApp/MeshModel.cpp:15-17 | `getMesh` accepts exactly the indices below the count |
| `MeshModels.MeshModel.GetMesh` | VulkanCourseApp/MeshModel.cpp:19-24 | Throws for an index at or past the mesh count, otherwise yields the mesh at that index |
| `MeshModels.MeshModel.GetModel` | VulkanCourseApp/MeshModel.cpp:26-28 | Returns the stored transform, which `setModel` sets |
| `MeshModels.MeshModel.SetModel` | VulkanCourseApp/MeshModel.cpp:26-32 | After `setModel(m)`, `getModel()` returns `m`; the mesh list is unchanged |
| `MeshModels.MeshModel.DestroyMeshModel` | VulkanCourseApp/MeshModel.cpp:34-38 | `destroyBuffers` is called exactly once on every mesh, in list order |
| `MeshModels.LastIndexOf` | VulkanCourseApp/MeshModel.cpp:63 | `rfind` as an `int`: the position holds the character and no later position does, or -1 |
| `MeshModels.FileName` | VulkanCourseApp/MeshModel.cpp:58-66 | The name is the suffix of the path after its last `/`, or the whole path when there is no `/`; it contains no `/` |
| `MeshModels.FileNameExamples` | VulkanCourseApp/MeshModel.cpp:58-66 | A backslash path is kept whole; `models/textures/brick.png` gives `brick.png` |
| `MeshModels.LoadMaterials` | VulkanCourseApp/MeshModel.cpp:40-72 | Exactly one entry per material. An entry is `""` unless a diffuse texture path was obtained, and then it is that path's file name |
| `MeshModels.FlattenFacesAppend` | VulkanCourseApp/MeshModel.cpp:125-133 | Flattening the faces of two lists in sequence gives the concatenation of the two flattenings |
| `MeshModels.FlattenFacesLength` | VulkanCourseApp/MeshModel.cpp:125-133 | The index list has as many entries as the faces' `mNumIndices` add up to |
| `MeshModels.FlattenFacesAt` | VulkanCourseApp/MeshModel.cpp:125-133 | Index `j` of face `k` sits at the sum of the index counts of faces `0..k-1`, plus `j` |
| `MeshModels.MeshOf` | VulkanCourseApp/MeshModel.cpp:97-142 | One vertex per source vertex, each with the mesh's first position, white colour, and UVs from channel 0 or (0,0) without one. The indices are the faces' indices in face order. The texture id is `matToTex[mMaterialIndex]` |
| `MeshModels.LoadMesh` | VulkanCourseApp/MeshModel.cpp:97-142 | The vertex loop and the nested face loop build exactly that mesh |
| `MeshModels.LoadedMeshesLength` | VulkanCourseApp/MeshModel.cpp:74-95 | The result has as many meshes as `mNumMeshes` adds up to over the node's subtree |
| `MeshModels.LoadedMeshesStartWithOwn` | VulkanCourseApp/MeshModel.cpp:77-83 | The result begins with the node's own meshes, in `mMeshes` order |
| `MeshModels.LoadNode` | VulkanCourseApp/MeshModel.cpp:74-95 | The recursive loader returns the node's own meshes followed by each child's result in child order (pre-order) |

## Left out

- Vulkan object creation and destruction is not modelled, because these are calls on opaque handles. This covers:
  - the instance and debug messenger;
  - the surface, render pass and graphics pipeline;
  - shader modules, framebuffers, and command pools and buffers;
  - `destroy`.
- `createImageView` is modelled only as a record of the image, format and aspect it was made from. The exception it can throw in the middle of the image loop is not modelled.
- `getSwapChainDetails` and the queue-family and extension queries are represented by the fields of the physical-device record.
- `getRequiredExtensions` is a renderer method. It takes the instance extensions GLFW asks for and appends `VK_EXT_DEBUG_UTILS_EXTENSION_NAME` when validation layers are enabled. It is not modelled; its result is the list handed to `CheckInstanceExtensionSupport`.
- The buffer uploads of `Mesh.cpp` are not modelled. Neither are the GPU buffers inside a `Mesh`. `destroyBuffers` appears only as the log of meshes it was called on.
- `main.cpp`, the window and the event loop are not part of this model.
- The Vulkan handles that `LoadNode` and `LoadMesh` only pass through are dropped: the physical device, device, transfer queue and command pool.
- Float and matrix contents are carried as values. No arithmetic is done on them.
- `MeshModels.MeshModel.GetMesh`: the source returns a pointer into the vector, so callers can alias the stored mesh; the model returns the mesh value. The source builds the error message with `"..." + index`, which is pointer arithmetic on a string literal; the model carries the index in the error instead.
- `MeshModels.MeshModel.Empty`: `glm::mat4`'s default constructor leaves the transform unspecified, so the contract promises nothing about it.
- `SwapchainSettings.ChooseBestSurfaceFormat` requires a non-empty format list. The source indexes `formats[0]` without a check, and device suitability guarantees the list is non-empty.
- `Renderer.VulkanRenderer.CreateLogicalDevice` and `Renderer.VulkanRenderer.CreateSwapChain` require a selected device. The source would query a null handle otherwise.
- `QueueFamilies.GetQueueFamilies`: its `int` counter would overflow past 2^31 queue families; this overflow is not modelled.
- The 32-bit range of the `int` fields of `QueueFamilyIndices` is not modelled either.
- `MeshModels.LoadMesh` and `MeshModels.LoadNode` require `MeshWellFormed` and `NodeWellFormed`. The source indexes three things without a check, and these predicates exclude them being out of range. The three are `matToTex[mesh->mMaterialIndex]` (the material index comes from the same scene's materials), `scene->mMeshes[meshId]` (assimp keeps node mesh ids below `mNumMeshes`) and texture channel 0 (assimp gives it one entry per vertex). The model does not describe what an out-of-range read would do.
- Queue priorities are not modelled. `createLogicalDevice` sets `pQueuePriorities` to the address of a `float` that is local to the loop body. That local's lifetime has ended by the time `vkCreateDevice` reads the pointer. This is a dangling pointer, found by reading the source; the model's `DeviceQueueCreateInfo` carries no priority, so it does not represent it.
