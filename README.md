# Pegasus engine core, modelled in Dafny

This project models the core of the Pegasus engine, a C game engine with a
Vulkan renderer, and proves properties of that model. It covers these parts:

- **Dynamic array** (`containers/darray.c`, `darray.h`), module `Containers`.
  - A class with a three-word header (capacity, length, stride) and an element array.
  - Operations: create, destroy, field get/set, resize, push, pop, pop_at, insert_at, and the clear, length_set, create and reserve macros.
  - The literal C behaviour, where it differs, is in module `DArrayAsWritten`.
- **Event registry** (`core/event.c`), module `Event`.
  - A map from event code to a list of (listener, callback) registrations.
  - Operations: initialize, shutdown, register, unregister and fire.
- **Tagged memory statistics** (`core/pmemory.c`), module `Memory`.
  - A u64 total and one u64 counter per tag, with wrap-around modulo 2^64.
  - Operations: initialize, pallocate, pfree, and the unit choice of the usage report.
- **Swapchain decisions** (`renderer/vulkan/vulkan_swapchain.c`), module `Swapchain`.
  - Selection of format, present mode, extent, image count and sharing mode.
  - Create, destroy and recreate.
  - Handling of the acquire and present results.
- **Command buffer lifecycle** (`renderer/vulkan/vulkan_command_buffer.c`), module `CommandBuffers`.
  - The state writes, the begin-flag composition and the single-use helpers.
- **Framebuffer** (`renderer/vulkan/vulkan_framebuffer.c`), module `Framebuffers`.
  - The attachment copy on create and the field reset on destroy.
- **Renderer frontend** (`renderer/renderer_frontend.c`), module `Renderer`.
  - The begin/end/draw protocol and the frame counter.
- **Vulkan backend initialization** (`renderer/vulkan/vulkan_backend.c`), module `VulkanBackend`.
  - The required-extension list, the validation-layer check and the stub frame functions.

`VulkanTypes` holds the few Vulkan constants the decisions use. `Common` holds `Option`.

Every Vulkan call is outside the model. What the driver returns (handles, image lists,
re-queried surface capabilities, VkResult codes) is an input. The parameter structures the
engine builds (create infos, present info, begin flags) are outputs.

Some behaviours of the code that the model follows as they are:

- After allocate, a command buffer stays in NOT_ALLOCATED. It does not move to READY.
- A fatal log (`P_FATAL`) does not stop anything. After a failed present, or when no depth
  format is found, execution continues.
- The backend's frame functions are stubs that return true. There are no fences, no
  images-in-flight table and no resize generation counter.
- `event_shutdown` leaves `is_initialized` set.

## Model

| member | source | states |
|---|---|---|
| Containers.GrownCapacity | engine/src/containers/darray.c:55-58 | the capacity after a resize is strictly larger than before: twice a nonzero capacity, DEFAULT_CAPACITY for 0 |
| Containers.RemovedAt | engine/src/containers/darray.c:105-114 | removing element i keeps the elements before i, moves the later ones one place down, and shortens the sequence by one |
| Containers.InsertedAt | engine/src/containers/darray.c:131-143 | inserting v at i puts v at i, keeps the elements before i, moves the rest one place up, and lengthens the sequence by one |
| Containers.InsertThenRemove | engine/src/containers/darray.c:93-145 | pop_at at the index just used by insert_at gives back the original sequence |
| Containers.RemoveThenInsert | engine/src/containers/darray.c:93-145 | insert_at of the element just popped, at its old index, gives back the original sequence |
| Containers.AllocationSize | engine/src/containers/darray.c:13-15 | the bytes of one array are at least the three header words, and exactly those iff it has no slots or a zero stride |
| Containers.DArray.Field | engine/src/containers/darray.c:37-41 | `_darray_field_get` of a valid array: the capacity word is the number of slots and the length word never exceeds it |
| Containers.DArray.Capacity | engine/src/containers/darray.h:75-76 | `darray_capacity` is the number of element slots |
| Containers.DArray.Length | engine/src/containers/darray.h:77-78 | `darray_length` never exceeds the capacity |
| Containers.DArray.Stride | engine/src/containers/darray.h:79-80 | `darray_stride` together with the capacity gives the bytes allocated for the array |
| Containers.DArray.Create | engine/src/containers/darray.c:11-22 | a new array has capacity equal to the requested length, length 0, the given stride, and every slot zero; it records the header-plus-length-times-stride bytes allocated |
| Containers.DArray.Destroy | engine/src/containers/darray.c:28-34 | the bytes freed are exactly the bytes recorded by the last create or resize, never less than the header; push, pop, pop_at, insert_at without growth, clear and length_set leave that record alone |
| Containers.DArray.FieldSet | engine/src/containers/darray.c:44-48 | exactly one header word changes |
| Containers.DArray.Clear | engine/src/containers/darray.h:70-72 | the contents become empty; capacity and stride stay |
| Containers.DArray.LengthSet | engine/src/containers/darray.h:82-83 | only the length word changes; the contents become the first `value` slots |
| Containers.DArray.Resize | engine/src/containers/darray.c:51-63 | a fresh array of grown capacity with the same length, stride and contents; the spare slots are zero; the bytes recorded are those of the grown array |
| Containers.CopyPrefix | engine/src/containers/darray.c:59 | the copy puts the first n source slots into the destination and leaves its other slots alone |
| Containers.DArray.Push | engine/src/containers/darray.c:66-79 | the contents become old contents + [value]; the array grows only when it was full; the length never exceeds the capacity |
| Containers.DArray.Pop | engine/src/containers/darray.c:82-90 | the last element is returned and removed; the rest is unchanged |
| Containers.DArray.PopAt | engine/src/containers/darray.c:93-116 | an index at or past the length changes nothing; otherwise element `index` is returned and the contents become RemovedAt(old, index) |
| Containers.DArray.InsertAt | engine/src/containers/darray.c:118-145 | an index at or past the length is refused with nothing changed; otherwise the contents become InsertedAt(old, index, value), growing first if full |
| Containers.DArray.MakeRoom | engine/src/containers/darray.c:131-141 | the shift plus the store leave the first length+1 slots equal to InsertedAt of the old elements |
| Containers.NewDefault | engine/src/containers/darray.h:45-46 | darray_create gives an empty array of capacity DEFAULT_CAPACITY with the element size as stride |
| Containers.Reserve | engine/src/containers/darray.h:48-49 | darray_reserve gives an empty array with the caller's capacity |
| DArrayAsWritten.CreateHeaderAsWritten | engine/src/containers/darray.c:17-20 | the literal header: capacity = length, length 0, stride 0 |
| DArrayAsWritten.CreateLosesStride | engine/src/containers/darray.c:20 | for a nonzero element size the recorded stride differs from it, and destroy then frees fewer bytes than were allocated |
| DArrayAsWritten.GrownCapacityAsWritten | engine/src/containers/darray.c:56 | the literal doubling is 0 exactly for capacity 0 and agrees with the corrected growth otherwise |
| DArrayAsWritten.PushHeaderAsWritten | engine/src/containers/darray.c:66-79 | the literal push: the length word grows by one; the capacity grows iff the array was full with a nonzero capacity; the bytes copied are the stride word read before any resize |
| DArrayAsWritten.ReserveZeroNeverGrows | engine/src/containers/darray.c:55-79 | as written, pushing onto a capacity-0 array copies nothing and leaves length 1 over capacity 0, and a second push length 2 over capacity 0; once the stride is recorded, the push copies `stride` bytes into a slot-less array; the corrected growth gives DEFAULT_CAPACITY |
| DArrayAsWritten.Move | engine/src/core/pmemory.c:76-79 | a copy of n slots changes exactly the destination slots, each to its matching source slot |
| DArrayAsWritten.PopAtAsWritten | engine/src/containers/darray.c:93-116 | the literal pop_at: the popped value comes from absolute slot `index`; the length drops by one |
| DArrayAsWritten.PopAtReadsAbsoluteSlot | engine/src/containers/darray.c:102-103 | latent behind darray.c:20; once the stride is recorded, on [10, 20] stored at slot 4, popping index 0 returns 0 and leaves [10], not 10 and [20] |
| DArrayAsWritten.PopAtCopiedAsWritten | engine/src/containers/darray.c:110 | the literal copy length is one more than the number of elements after `index` |
| DArrayAsWritten.PopAtCopyReadsPastEnd | engine/src/containers/darray.c:107-111 | latent behind darray.c:20 and :103; once both are repaired, the shift reads up to slot `length`, which is past the allocation when the array is full; the intended copy stays inside |
| DArrayAsWritten.PopAtCopyPullsInSlotPastEnd | engine/src/containers/darray.c:102-114 | latent behind darray.c:20; with the stride recorded and [10, 20] at slot 0 in a full array, popping index 0 returns 10 but the shift reads slot 2, past the allocation, and leaves its contents in slot 1 |
| DArrayAsWritten.InsertAtAsWritten | engine/src/containers/darray.c:118-145 | the literal insert_at: accepted iff index < length; the value lands at absolute slot `index` |
| DArrayAsWritten.InsertAtWritesAbsoluteSlot | engine/src/containers/darray.c:141 | latent behind darray.c:20; once the stride is recorded, inserting 30 at index 0 of [10, 20] gives [10, 10, 20] instead of [30, 10, 20] |
| DArrayAsWritten.InsertAtLastIndexSkipsShift | engine/src/containers/darray.c:131-138 | latent behind darray.c:20; once the stride is recorded, inserting 30 at index 1 of [10, 20] stored at slot 0 (where the absolute write of darray.c:141 lands correctly) gives [10, 30, 0] instead of [10, 30, 20] |
| DArrayAsWritten.ForwardCopy | engine/src/platform/platform_linux.c:289-291 | a front-to-back `memcpy` keeps the memory size |
| DArrayAsWritten.ForwardCopyFrame | engine/src/platform/platform_linux.c:289-291 | whatever the overlap, a front-to-back `memcpy` leaves every slot outside the destination alone |
| DArrayAsWritten.ForwardCopyDownIsMove | engine/src/containers/darray.c:107-111 | for a downward shift, as in pop_at, a front-to-back memcpy gives the same result as memmove |
| DArrayAsWritten.ForwardShiftUpDuplicates | engine/src/containers/darray.c:133-137 | the upward shift of insert_at passes overlapping regions, and a front-to-back memcpy turns [10, 20, 0] into [10, 10, 10] where memmove gives [10, 10, 20] |
| Memory.Charge | engine/src/core/pmemory.c:49-50 | adding to a u64 counter stays below 2^64 and is plain addition when there is no overflow |
| Memory.Release | engine/src/core/pmemory.c:64-65 | subtracting from a u64 counter stays below 2^64 and is plain subtraction when the counter holds at least `size` |
| Memory.ReleaseUndoesCharge | engine/src/core/pmemory.c:43-69 | pfree after pallocate of the same size restores the counter exactly, even across wrap-around |
| Memory.ChargeUndoesRelease | engine/src/core/pmemory.c:43-69 | pallocate after pfree of the same size restores the counter exactly |
| Memory.ChargeKeepsConservation | engine/src/core/pmemory.c:49-50 | charging a tag and the total keeps total = sum of tags (mod 2^64) |
| Memory.ReleaseKeepsConservation | engine/src/core/pmemory.c:64-65 | releasing from a tag and the total keeps total = sum of tags (mod 2^64) |
| Memory.UnitFor | engine/src/core/pmemory.c:100-114 | the unit is GiB iff the count reaches 2^30, MiB iff it is in [2^20, 2^30), KiB iff it is in [2^10, 2^20), B iff it is below 2^10 |
| Memory.UnitKeepsAmountInRange | engine/src/core/pmemory.c:100-114 | in the chosen unit a nonzero count is at least 1, and below GiB it is less than 1024 |
| Memory.MemoryStats.Initialize | engine/src/core/pmemory.c:35-38 | the total and every tag counter start at zero, and the conservation invariant holds |
| Memory.MemoryStats.Allocate | engine/src/core/pmemory.c:43-56 | only the total and the given tag's counter are charged, UNKNOWN included; the block is fresh, of the requested size, and all zero; the invariant is kept |
| Memory.MemoryStats.Free | engine/src/core/pmemory.c:58-69 | only the total and the given tag's counter are released; the invariant is kept |
| Memory.MemoryStats.UsageUnits | engine/src/core/pmemory.c:96-119 | the report's loop picks UnitFor of each tag's counter, in tag order |
| Event.IndexOf | engine/src/core/event.c:94-101 | the first position holding both the listener and the callback, or None iff there is no such entry |
| Event.AppendKeepsDistinct | engine/src/core/event.c:66-78 | appending a registration whose listener is new keeps a code's listeners pairwise distinct |
| Event.RemoveKeepsDistinct | engine/src/core/event.c:94-101 | removing an entry keeps a code's listeners pairwise distinct |
| Event.RegisterThenUnregister | engine/src/core/event.c:55-106 | unregistering the pair just registered finds it last and restores the previous list |
| Event.UnregisterTargetUnique | engine/src/core/event.c:94-101 | with distinct listeners, unregister matches the listener's entry iff its callback is the given one too |
| Event.EventSystem.Initialize | engine/src/core/event.c:31-42 | fails iff already initialised; on success every code's list is absent and the system is initialised |
| Event.EventSystem.Shutdown | engine/src/core/event.c:44-53 | every code's list becomes absent; the initialised flag is not reset |
| Event.EventSystem.Register | engine/src/core/event.c:55-81 | succeeds iff initialised and the listener is not yet registered for the code; then only that code's list changes, by one appended pair; otherwise nothing changes |
| Event.EventSystem.Unregister | engine/src/core/event.c:83-106 | succeeds iff initialised, the code has a list, and some entry matches both fields; then only the first match is removed; otherwise nothing changes |
| Event.EventSystem.Fire | engine/src/core/event.c:108-129 | callbacks are offered in registration order; the call stops at the first that answers true; handled iff some registration answers true; an unhandled event reaches every registration |
| Swapchain.SelectedFormat | engine/src/renderer/vulkan/vulkan_swapchain.c:88-102 | the chosen format is one of the offered ones; it is B8G8R8A8_UNORM/SRGB_NONLINEAR iff that is offered; otherwise it is the first offered |
| Swapchain.ChooseSurfaceFormat | engine/src/renderer/vulkan/vulkan_swapchain.c:88-102 | the search loop with its found flag yields SelectedFormat |
| Swapchain.SelectedPresentMode | engine/src/renderer/vulkan/vulkan_swapchain.c:104-115 | the mode is MAILBOX iff it is offered, otherwise FIFO |
| Swapchain.ChoosePresentMode | engine/src/renderer/vulkan/vulkan_swapchain.c:104-115 | the search loop yields SelectedPresentMode |
| Swapchain.Clamp | engine/src/renderer/vulkan/vulkan_swapchain.c:131-132 | for ordered bounds the result lies in them; a value already inside is kept; values outside go to the nearer bound |
| Swapchain.SelectedExtent | engine/src/renderer/vulkan/vulkan_swapchain.c:124-132 | the base is the current extent when its width is not UINT32_MAX, else the requested size; per dimension, a value below the minimum becomes the minimum, one above an ordered maximum becomes the maximum, one in bounds is kept; the result lies within ordered bounds |
| Swapchain.ExtentDimensionsIndependent | engine/src/renderer/vulkan/vulkan_swapchain.c:131-132 | when the size comes from the request, the chosen width depends only on the requested width and the chosen height only on the requested height |
| Swapchain.ExtentClampExample | engine/src/renderer/vulkan/vulkan_swapchain.c:124-132 | with no current extent and bounds (1, 1)..(4096, 4096), a request of 10000 x 100 gives 4096 x 100 |
| Swapchain.SelectedExtentIdempotent | engine/src/renderer/vulkan/vulkan_swapchain.c:124-132 | choosing again from the chosen extent gives the same extent |
| Swapchain.SelectedImageCount | engine/src/renderer/vulkan/vulkan_swapchain.c:134-137 | the count is minImageCount + 1, lowered to maxImageCount exactly when a nonzero maximum is smaller |
| Swapchain.SelectedSharing | engine/src/renderer/vulkan/vulkan_swapchain.c:150-162 | CONCURRENT with [graphics, present] iff the two queue families differ, else EXCLUSIVE with no indices |
| Swapchain.CreateInfoFor | engine/src/renderer/vulkan/vulkan_swapchain.c:139-169 | the format, present mode, extent and image count are the ones SelectedFormat, SelectedPresentMode, SelectedExtent and SelectedImageCount choose; hence the create info uses an offered format, MAILBOX or FIFO (MAILBOX only when offered), an extent within ordered bounds, at least one image and no more than a nonzero maximum, one layer, clipped, the current transform, and concurrent sharing with both families iff they differ |
| Swapchain.DepthFormatOf | engine/src/renderer/vulkan/vulkan_swapchain.c:223-226 | the detected depth format, or VK_FORMAT_UNDEFINED when detection fails |
| Swapchain.RecreateAtSameSizeIsStable | engine/src/renderer/vulkan/vulkan_swapchain.c:124-169 | for an unchanged surface, creating again at the extent a create chose gives the same create info |
| Swapchain.ComputeCreateInfo | engine/src/renderer/vulkan/vulkan_swapchain.c:83-169 | the create info combines the format and mode chosen from the pre-requery snapshot with the extent, count and transform of the re-queried capabilities, one layer, clipped |
| Swapchain.ReleaseOrder | engine/src/renderer/vulkan/vulkan_swapchain.c:246-257 | a destroy releases the depth image first, then each view in order, then the swapchain, and nothing else |
| Swapchain.AcquireOutcome | engine/src/renderer/vulkan/vulkan_swapchain.c:45-53 | recreate iff OUT_OF_DATE; proceed iff SUCCESS or SUBOPTIMAL |
| Swapchain.PresentOutcome | engine/src/renderer/vulkan/vulkan_swapchain.c:75-80 | recreate iff OUT_OF_DATE or SUBOPTIMAL; proceed iff SUCCESS |
| Swapchain.PresentRecreatesMoreOften | engine/src/renderer/vulkan/vulkan_swapchain.c:45-80 | present recreates whenever acquire would, and also on SUBOPTIMAL, which acquire accepts |
| Swapchain.OtherResultsFailWithoutRebuild | engine/src/renderer/vulkan/vulkan_swapchain.c:45-80 | NOT_READY, TIMEOUT, DEVICE_LOST and SURFACE_LOST refuse the frame on acquire and present without a recreate |
| Swapchain.FallbackChoices | engine/src/renderer/vulkan/vulkan_swapchain.c:88-115 | a lone R8G8B8A8_UNORM format is taken, the preferred pair wins wherever it is listed, and IMMEDIATE with FIFO_RELAXED gives FIFO |
| Swapchain.ImageSlotsAsWritten | engine/src/renderer/vulkan/vulkan_swapchain.c:187-192 | the literal storage rule: an existing buffer is kept whatever its length |
| Swapchain.RecreateWithMoreImagesOverruns | engine/src/renderer/vulkan/vulkan_swapchain.c:187-192 | under the literal rule the slots hold the new images iff there was no storage or it was already large enough; going from 2 to 3 images keeps 2 slots for 3 images, short of what StoreImages requires |
| Swapchain.Swapchain.Create | engine/src/renderer/vulkan/vulkan_swapchain.c:83-244 | every field and the context end as Created describes; the image and view storage is reused only when it is large enough |
| Swapchain.Swapchain.Configure | engine/src/renderer/vulkan/vulkan_swapchain.c:84-178 | max_frames_in_flight is 2; current_frame is 0; the support snapshot is the re-queried one; the depth format is the detected one or UNDEFINED; queue indices and framebuffer size are kept |
| Swapchain.Swapchain.AllocateStorage | engine/src/renderer/vulkan/vulkan_swapchain.c:187-192 | both buffers hold at least the image count; existing large-enough buffers are kept |
| Swapchain.Swapchain.StoreImages | engine/src/renderer/vulkan/vulkan_swapchain.c:194-220 | the images are the driver's, in order, and view i views image i in the swapchain's format |
| Swapchain.Swapchain.Destroy | engine/src/renderer/vulkan/vulkan_swapchain.c:246-257 | returns ReleaseOrder of the current depth image, views and handle |
| Swapchain.Swapchain.Recreate | engine/src/renderer/vulkan/vulkan_swapchain.c:15-20 | releases what destroy releases, then ends in the state create produces |
| Swapchain.Swapchain.AcquireNextImageIndex | engine/src/renderer/vulkan/vulkan_swapchain.c:27-54 | returns true iff AcquireOutcome is proceed; iff out of date, releases the old depth image, views and swapchain in ReleaseOrder and recreates at the framebuffer size, keeping the queue indices and framebuffer size; otherwise nothing is released and nothing changes |
| Swapchain.Swapchain.Present | engine/src/renderer/vulkan/vulkan_swapchain.c:56-81 | presents the given image after the given semaphore on the current swapchain; iff PresentOutcome says rebuild, releases the old depth image, views and swapchain in ReleaseOrder and recreates at the framebuffer size, keeping the queue indices and framebuffer size; otherwise nothing is released and nothing changes |
| CommandBuffers.FlagsFor | engine/src/renderer/vulkan/vulkan_command_buffer.c:48-62 | ONE_TIME_SUBMIT is set iff single use, RENDER_PASS_CONTINUE iff render-pass continue, SIMULTANEOUS_USE iff simultaneous use; no other bit is set |
| CommandBuffers.FlagsDetermineRequests | engine/src/renderer/vulkan/vulkan_command_buffer.c:48-62 | two sets of requests give the same flags iff they are the same requests |
| CommandBuffers.Target | engine/src/renderer/vulkan/vulkan_command_buffer.c:18-87 | the state each operation records is NOT_ALLOCATED iff it is allocate or free; apart from allocate it is a state the Vulkan lifecycle reaches by that operation |
| CommandBuffers.Run | engine/src/renderer/vulkan/vulkan_command_buffer.c:72-89 | no operations leave the state unchanged; after a non-empty sequence the state is one that some operation in it records |
| CommandBuffers.RunEndsAtLastTarget | engine/src/renderer/vulkan/vulkan_command_buffer.c:6-89 | after any non-empty sequence of operations, the state is the one the last operation writes |
| CommandBuffers.RunForgetsStart | engine/src/renderer/vulkan/vulkan_command_buffer.c:72-89 | no operation checks the prior state, so the starting state never matters |
| CommandBuffers.AgreesWithVulkanLifecycle | engine/src/renderer/vulkan/vulkan_command_buffer.c:6-89 | every transition the Vulkan lifecycle allows ends where the engine records it, except allocation; end is recorded even from states Vulkan forbids, and reset even from the pending (submitted) state |
| CommandBuffers.CommandBuffer.Allocate | engine/src/renderer/vulkan/vulkan_command_buffer.c:6-24 | one buffer at PRIMARY level iff is_primary; the state is NOT_ALLOCATED; the handle is the driver's |
| CommandBuffers.CommandBuffer.Free | engine/src/renderer/vulkan/vulkan_command_buffer.c:26-40 | the old handle is freed; the handle becomes NULL and the state NOT_ALLOCATED |
| CommandBuffers.CommandBuffer.Begin | engine/src/renderer/vulkan/vulkan_command_buffer.c:42-70 | the flags are FlagsFor of the three requests; the state becomes RECORDING; the handle is kept |
| CommandBuffers.CommandBuffer.End | engine/src/renderer/vulkan/vulkan_command_buffer.c:72-79 | the state becomes RECORDING_ENDED whatever it was; the handle is kept |
| CommandBuffers.CommandBuffer.UpdateSubmitted | engine/src/renderer/vulkan/vulkan_command_buffer.c:81-84 | the state becomes SUBMITTED; the handle is kept |
| CommandBuffers.CommandBuffer.Reset | engine/src/renderer/vulkan/vulkan_command_buffer.c:86-89 | the state becomes READY from any state; the handle is kept |
| CommandBuffers.CommandBuffer.AllocateAndBeginSingleUse | engine/src/renderer/vulkan/vulkan_command_buffer.c:91-98 | a primary buffer, begun with only ONE_TIME_SUBMIT, ends RECORDING |
| CommandBuffers.CommandBuffer.EndSingleUse | engine/src/renderer/vulkan/vulkan_command_buffer.c:100-125 | the calls are end, submit, wait-idle and free, in that order, all on the same buffer; the buffer ends NOT_ALLOCATED with a NULL handle |
| Framebuffers.Framebuffer.Create | engine/src/renderer/vulkan/vulkan_framebuffer.c:5-37 | the attachments are a fresh copy equal to the caller's first `count` views; count and render pass are recorded; the create info has the given size and one layer; the bytes allocated are what the framebuffer then holds |
| Framebuffers.Framebuffer.Destroy | engine/src/renderer/vulkan/vulkan_framebuffer.c:39-52 | frees exactly the bytes held, none when there is no copy; handle, attachments, count and render pass are all reset |
| Renderer.DrawResult | engine/src/renderer/renderer_frontend.c:47-61 | a draw fails iff the frame began and its end failed; a frame that did not begin reports success |
| Renderer.AfterDraw | engine/src/renderer/renderer_frontend.c:40-58 | one draw raises the frame number by one iff the frame began, and by nothing otherwise |
| Renderer.FrameNumberCountsBegins | engine/src/renderer/renderer_frontend.c:40-61 | over any sequence of draws the frame number grows by exactly the number of successful begins |
| Renderer.StubBackendCountsEveryDraw | engine/src/renderer/vulkan/vulkan_backend.c:106-114 | with the stub backend every draw succeeds and counts one frame |
| Renderer.Frontend.Initialize | engine/src/renderer/renderer_frontend.c:10-27 | a fresh backend with frame number 0; succeeds iff the backend's initialize does |
| Renderer.Frontend.BeginFrame | engine/src/renderer/renderer_frontend.c:35-38 | returns the backend's answer and changes nothing |
| Renderer.Frontend.EndFrame | engine/src/renderer/renderer_frontend.c:40-45 | returns the backend's answer; the frame number goes up by exactly one either way |
| Renderer.Frontend.DrawFrame | engine/src/renderer/renderer_frontend.c:47-61 | the result is DrawResult and the frame number is AfterDraw of the old one |
| VulkanBackend.PlatformExtensions | engine/src/platform/platform_linux.c:355-357 | one surface extension per platform, distinct from the generic surface and debug-utils ones; the xcb one exactly on Linux (the win32 one at platform_win32.c:221-223) |
| VulkanBackend.RequiredExtensions | engine/src/renderer/vulkan/vulkan_backend.c:30-37 | the surface extension first, then the platform's, then debug utils last exactly in debug builds |
| VulkanBackend.RequiredLayers | engine/src/renderer/vulkan/vulkan_backend.c:50-59 | the Khronos validation layer in debug builds, none otherwise |
| VulkanBackend.PushPlatformExtensions | engine/src/platform/platform_linux.c:355-357 | the platform's surface extension is appended to the list |
| VulkanBackend.BuildRequiredExtensions | engine/src/renderer/vulkan/vulkan_backend.c:30-37 | the pushes onto the darray leave exactly RequiredExtensions in it |
| VulkanBackend.BuildRequiredLayers | engine/src/renderer/vulkan/vulkan_backend.c:56-59 | the debug build's layer darray holds exactly the validation layer |
| VulkanBackend.FindMissingLayer | engine/src/renderer/vulkan/vulkan_backend.c:67-83 | None iff every required layer equals some available name; otherwise the first required layer with no match |
| VulkanBackend.BackendContext.Initialize | engine/src/renderer/vulkan/vulkan_backend.c:14-94 | succeeds iff every required layer is available, always outside debug builds; on success the instance info lists RequiredExtensions with a count equal to its length and RequiredLayers with its length |
| VulkanBackend.BackendContext.Shutdown | engine/src/renderer/vulkan/vulkan_backend.c:96-99 | changes nothing |
| VulkanBackend.BackendContext.OnResized | engine/src/renderer/vulkan/vulkan_backend.c:101-104 | changes nothing |
| VulkanBackend.BeginFrame | engine/src/renderer/vulkan/vulkan_backend.c:106-109 | always succeeds |
| VulkanBackend.EndFrame | engine/src/renderer/vulkan/vulkan_backend.c:111-114 | always succeeds |

## Left out

- Vulkan driver calls, window-system calls and the `VK_CHECK` abort are not modelled. Driver
  results are inputs, and every `VK_CHECK`ed call is taken to succeed.
- Logging (`P_INFO`, `P_WARN`, `P_ERROR`, `P_FATAL`) is left out. None of these calls changes
  the state.
- The float `amount` and the `snprintf` text of `get_memory_usage_str` are left out. Only the
  unit chosen for each tag is modelled. The tag name strings are also left out.
- `pzero_memory`, `pset_memory` and the `platform_*` memory routines are left out. Their effect
  appears as zeroed or copied contents.
- `pcopy_memory` is `memcpy`. The model copies slot by slot, in the direction that is correct
  for overlapping regions, as `memmove` would. The overlap in the C code is a finding below.
- Allocation bookkeeping across modules is not modelled. The darray, framebuffer and swapchain
  allocations report their byte counts, but they are not charged to a `MemoryStats` object.
- The darray header words are unbounded naturals here. The u64 overflow of
  `capacity * stride` and of the doubling is not modelled.
- Containers.DArray.LengthSet: requires the new length to be at most the capacity. The C macro
  writes any value.
- Containers.DArray.Pop: requires a non-empty array. The C code reads before the array and
  writes length -1 (u64 wrap) when it is empty.
- Event.EventSystem.Register: requires a code below MAX_MESSAGE_CODES (16384). C takes a u16
  and would index past the 16384-entry table for larger codes. The same holds for Unregister
  and Fire.
- The event model uses the intended darray behaviour for each code's list. The C lists live in
  darrays whose stride is recorded as 0 (see Findings).
- VulkanBackend.BuildRequiredExtensions, VulkanBackend.BuildRequiredLayers and
  VulkanBackend.BackendContext.Initialize use the intended darray behaviour too. As written, the
  stride is recorded as 0, so no push stores its name: the layer name read back for the search
  (vulkan_backend.c:69-72) is the zeroed slot, and the extension array handed to the instance
  (vulkan_backend.c:47) holds none of the names listed here.
- The callbacks' sender and context arguments are not modelled. Fire receives what each
  callback answers as the function `respond`.
- `event_shutdown` iterates with a u16 counter. It stops at 16384, so that counter cannot wrap.
- Swapchain.SelectedFormat: requires at least one offered format. The C code reads
  `formats[0]` even when the list is empty.
- `PCLAMP` is defined in a header that is not part of this model. Swapchain.Clamp takes it to
  be the usual clamp: `lo` at or below `lo`, `hi` at or above `hi`, the value otherwise.
- DArrayAsWritten.PopAtAsWritten: requires every absolute slot it touches to lie inside the
  modelled memory. Outside it, the C code touches memory it does not own, which is not modelled.
- DArrayAsWritten.InsertAtAsWritten: requires an array with a free slot. A full array is first
  resized (darray.c:126-128), which changes its address; that path is modelled, with the intended
  shift and store, in Containers.DArray.InsertAt. It also requires every absolute slot it touches
  to lie inside the modelled memory.
- Swapchain.SelectedImageCount: minImageCount + 1 is not wrapped at 2^32. A driver reporting
  minImageCount = UINT32_MAX is not considered.
- The depth image is recorded by its size and format only. `vulkan_image_create` is not part
  of this model.
- The acquire timeout, semaphore and fence, and the present queue, are passed to the driver
  unchanged and are not modelled.
- `vulkan_device_detect_depth_format` is not part of this model. Its answer is an input.
- `renderer_shutdown` is left out. It only calls the backend's shutdown (a no-op) and frees
  the backend block.
- The delta time passed to begin_frame and end_frame is left out.
- The frame number is an unbounded natural. Its u64 wrap is not modelled.
- The validation-layer and extension names are compared as whole strings. `strings_equal` is
  only declared in the source and is taken to be string equality.
- Platforms are limited to Linux (xcb) and Windows (win32), the two platform layers of the
  source.

## Findings

| source | as written | input that shows it | evidently intended | confidence | as-written member | corrected member |
|---|---|---|---|---|---|---|
| engine/src/containers/darray.c:20 | `_darray_create` stores 0 in the stride word | any create with a nonzero element size, e.g. length 1, stride 8 | store `stride`, as the header layout comment in darray.h says | high, not executed | DArrayAsWritten.CreateLosesStride | Containers.DArray.Create |
| engine/src/containers/darray.c:103 | pop_at reads the popped element from absolute address `index * stride` | latent behind darray.c:20 (with stride 0 every copy moves 0 bytes); once the stride is recorded, [10, 20] at slot 4, pop index 0: returns 0 and leaves [10] | read from the array, `addr + index * stride` | high, not executed | DArrayAsWritten.PopAtReadsAbsoluteSlot | Containers.DArray.PopAt |
| engine/src/containers/darray.c:110 | pop_at moves `length - index` elements starting after `index` | latent behind darray.c:20; once the stride is recorded, [10, 20] at slot 0 with capacity 2, pop index 0: the copy reads slot 2, past the allocation, into slot 1 | move `length - index - 1` elements | high, not executed | DArrayAsWritten.PopAtCopyPullsInSlotPastEnd | Containers.DArray.PopAt |
| engine/src/containers/darray.c:141 | insert_at writes the value to absolute address `index * stride` | latent behind darray.c:20; once the stride is recorded, [10, 20] at slot 4, insert 30 at index 0: [10, 10, 20] | write into the array, `addr + index * stride` | high, not executed | DArrayAsWritten.InsertAtWritesAbsoluteSlot | Containers.DArray.InsertAt |
| engine/src/containers/darray.c:132 | insert_at skips the shift when `index == length - 1` | latent behind darray.c:20; once the stride is recorded, [10, 20] at slot 0, insert 30 at index 1: [10, 30, 0] | always shift the elements from `index` up (the skip belongs to pop_at) | high, not executed | DArrayAsWritten.InsertAtLastIndexSkipsShift | Containers.DArray.InsertAt |
| engine/src/containers/darray.c:56 | resize multiplies the capacity by 2, so capacity 0 stays 0 | as written, darray_reserve(T, 0) then push: the capacity stays 0 while the length word becomes 1, and every later push resizes again; the write into a 0-slot array is latent behind darray.c:20 and happens once the stride is recorded | grow a 0 capacity to DARRAY_DEFAULT_CAPACITY | medium, not executed | DArrayAsWritten.ReserveZeroNeverGrows | Containers.GrownCapacity |
| engine/src/renderer/vulkan/vulkan_swapchain.c:187-192 | image and view storage is allocated only when absent, whatever the new image count | create with 2 images, then a recreate after which the driver reports 3: 3 images and views are written into 2 slots | reallocate when the stored buffers are smaller than the new image count | medium, not executed | Swapchain.RecreateWithMoreImagesOverruns | Swapchain.Swapchain.AllocateStorage |
| engine/src/containers/darray.c:133-137 | insert_at shifts overlapping regions with `pcopy_memory`, which is `memcpy` (platform_linux.c:290), undefined for overlap | latent behind darray.c:20; once the stride is recorded, [10, 20] with one spare slot, insert at index 0: a front-to-back copy leaves [10, 10, 10] | shift with `memmove` | medium, not executed | DArrayAsWritten.ForwardShiftUpDuplicates | Containers.DArray.MakeRoom |
