# v-upscale: a Dafny model of the GPU upscaling core

v-upscale is a desktop application. It enlarges a raster image by an integer
factor from 1 to 8, using a Vulkan compute kernel. This project models its core
in Dafny and proves properties of the model. The core is the Rust files
`src-tauri/src/vulkan.rs` and `src-tauri/src/lib.rs`.

The model covers these parts:

- **Device context** (`VulkanContext::new`, `Drop`, modules `Selection` and
  `Context`).
  - `new` loads the driver, creates the instance, picks the first physical
    device with a compute-capable queue family, opens the logical device, then
    builds the shader module, the descriptor-set layout, the pipeline layout and
    the compute pipeline.
  - `Drop` destroys those six objects in reverse order.
- **One upscale** (`process_image` and `create_buffer`, modules `Process` and
  `Upscale`).
  - It creates two buffers, each with its device memory: memory-type search,
    allocation, bind, upload.
  - It creates a descriptor pool and set, and a command pool and buffer, then
    records the dispatch, submits it and waits.
  - It reads the output back, saves it, and destroys what it created.
- **The commands** that the desktop shell invokes (`upscale_image`,
  `upscale_image_enhanced`, `upscale_image_nearest_neighbor`, modules
  `Commands` and `Naming`). They cover request checks, option defaults, error
  wrapping and output-file naming.

**The handle ledger.** Every driver object lives in *the ledger*, module
`Handles`.

- The ledger records which objects are live, what kind each is, and which
  objects each refers to. It also logs every creation and destruction.
- A driver call is one step: `Make`, `Link` or `Free`.
- A destruction is *enabled* only while no live object refers to its target.
  An object refers to the objects that the calls creating or filling it take
  as parameters. That rule is stricter than Vulkan's. Vulkan lets a shader module
  or a set layout go once the call that consumed it has returned. It also lets a
  buffer be destroyed while a descriptor set names it, as long as no pending
  command uses it. Only some references are Vulkan's rule that a parent outlives
  its children: the device on the instance, and every other object on the
  device. So every proof that one of the source's orders is
  enabled holds under Vulkan as well. `Process.EarlyReturnBlocksDrop` rests on
  the buffer referring to the device, which is one of the parent links.
- Each imperative operation changes a `Ledger` object step by step. It is
  proved to perform exactly a fixed script of steps: the first `n` steps when a
  `?` returns early, all of them on success.
- Lemmas about the scripts then prove three things: each step is enabled, the
  successful path leaves exactly the context's objects live, and an early return
  leaves objects behind.

**Oracles.** Calls into code that is not modelled become oracle values the
methods take as parameters:

- `Driver`: which driver calls fail and with what text, the enumerated
  devices, memory requirements and the kernel's output bytes;
- `Files`: whether the input exists, the decoded image, save errors, whether
  the output exists;
- `Host`: the macOS shim's outcome, the temporary directory and the clock.

**Failure paths, as the source has them.**

- **Teardown.** `Drop` (vulkan.rs:555-568) destroys the context's six objects
  in the reverse of the order `new` creates them (vulkan.rs:20-27), so every
  object goes after the objects that refer to it. The cleanup block of
  `process_image` (vulkan.rs:476-486) comes after its last `?`, so it runs only
  on the success path. Every `?` before it returns with the objects created so
  far still live. The same holds for `VulkanContext::new`.
  `Process.EarlyReturnKeepsCreated` states exactly which objects each early
  return leaves, and `Process.EarlyReturnBlocksDrop` proves the effect: after
  such a return, the later `Drop` of the context cannot destroy the device,
  because the leaked buffer still refers to it.
- **Order of the checks.** The commands check the path first and then the
  factor (lib.rs:160-173), both before any GPU work.
- **Error text.** `process_image` has its own input check, reporting "Input
  image file does not exist: …" (vulkan.rs:251-253). The commands report
  "❌ Input file does not exist: …".
- **Decoded images.** `to_rgba8` yields four bytes per pixel. The model's
  `DecodedImage` carries this as an invariant: `width * height * 4` bytes.

## Model

| member | source | states |
|---|---|---|
| Selection.ComputeFamilyPosition | src-tauri/src/vulkan.rs:86-89 | the index of the first queue family with COMPUTE and a nonzero queue count; none exactly when no family qualifies |
| Selection.PickPhysicalDevice | src-tauri/src/vulkan.rs:77-96 | an enumeration error comes back with its prefix; otherwise the result is the first device, in enumeration order, that has a compute family, with the first such family; "No suitable physical device found" exactly when no device has one |
| Selection.FindMemoryTypeIndex | src-tauri/src/vulkan.rs:517-528 | the lowest of the 32 slots whose bit is set in `memory_type_bits` and whose flags hold HOST_VISIBLE and HOST_COHERENT; "Failed to find suitable memory type" exactly when no slot qualifies |
| Selection.FoundSlotIsCounted | src-tauri/src/vulkan.rs:517-528 | when the uncounted slots carry no flags, the chosen slot is below `memory_type_count`, even though the search ignores the count |
| Selection.ChosenSlotIsUnique | src-tauri/src/vulkan.rs:517-528 | any suitable slot with no suitable slot below it is what the search returns |
| Sizing.OutputIsFactorSquaredLarger | src-tauri/src/vulkan.rs:260-262 | the output's byte length is `factor^2` times the input's and stays below 2^32; its extent is `width*factor` by `height*factor` |
| Sizing.GroupCount | src-tauri/src/vulkan.rs:402-403 | `(extent+15)/16` groups of 16 cover the extent (`g*16 >= extent`) with no whole group beyond it (`(g-1)*16 < extent`) |
| Sizing.DispatchGrid | src-tauri/src/vulkan.rs:402-410 | the dispatch is `group_x` by `group_y` by 1 |
| Sizing.GridCoversEveryPixel | src-tauri/src/vulkan.rs:402-410 | every output pixel falls in a dispatched workgroup |
| Sizing.GridHasNoIdleGroup | src-tauri/src/vulkan.rs:402-410 | every dispatched workgroup starts inside the output image |
| Sizing.Grid257By16 | src-tauri/src/vulkan.rs:402-403 | a 257 by 16 output is dispatched as 17 by 1 by 1 |
| Sizing.OutputGridFits | src-tauri/src/vulkan.rs:260-262 | when the sizes fit a `u32`, the `+ 15` of the grid computation does not wrap |
| Bindings.DescriptorWritesAgreeWithLayout | src-tauri/src/vulkan.rs:150-169 | the layout is bindings 0 and 1, each one compute-stage storage buffer; there are exactly two writes, to different bindings, which fill each binding, 0 with the whole input buffer and 1 with the whole output buffer |
| Bindings.PoolMatchesLayout | src-tauri/src/vulkan.rs:276-291 | the pool allows one set with exactly the two storage-buffer descriptors the layout asks for |
| Bindings.PushBlockMatchesRange | src-tauri/src/vulkan.rs:393-400 | the pushed block is 12 bytes inside the compute range at offset 0, size 12, and decodes back to `(width, height, factor)` |
| Bindings.LittleEndian32RoundTrip | src-tauri/src/vulkan.rs:393-399 | each `u32` of the push block reads back as the value written |
| Handles.StepKeepsValid | src-tauri/src/vulkan.rs:476-486 | an allowed creation, binding or destruction keeps the ledger well formed: no live object refers to a destroyed one |
| Handles.RunKeepsValid | src-tauri/src/vulkan.rs:476-486 | a script whose every step is allowed keeps the ledger well formed |
| Handles.TeardownRuns | src-tauri/src/vulkan.rs:555-568 | a sequence of distinct destructions in which every live object referring to a target is destroyed earlier is allowed throughout |
| Handles.FreeBlocked | src-tauri/src/vulkan.rs:555-568 | a destruction is refused while an object referring to it is live and not yet destroyed |
| Handles.Ledger.Create | src-tauri/src/vulkan.rs:508-538 | a creation issues the next handle, live, of the given kind, referring to the given objects, and is logged |
| Handles.Ledger.Depend | src-tauri/src/vulkan.rs:539 | binding adds references to a live object and changes nothing else |
| Handles.Ledger.Destroy | src-tauri/src/vulkan.rs:477-486 | a destruction retires the handle, keeps what it was, and is logged |
| Context.DeviceFailure | src-tauri/src/vulkan.rs:18-22 | a failure while loading the entry, creating the instance, picking the device or creating the device leaves at most the instance created |
| Context.PipelineFailure | src-tauri/src/vulkan.rs:24-27 | a failure among the four pipeline creations leaves instance and device created plus the pipeline objects made before it: 2 to 5 objects |
| Context.InitFailure | src-tauri/src/vulkan.rs:18-27 | a failing `?` of `new` always comes before the last of the six creations |
| Context.OpenDevice | src-tauri/src/vulkan.rs:18-22 | fails exactly as `DeviceFailure` says; on success the instance and device are handles 1 and 2 on a fresh ledger, and the device is the first compute-capable one |
| Context.BuildPipeline | src-tauri/src/vulkan.rs:24-27 | creates the shader module, the set layout, the pipeline layout and the pipeline in order, stopping at the first failing call with the objects created so far left live |
| Context.New | src-tauri/src/vulkan.rs:18-41 | on success the six context objects are exactly what is live, with the references their creation calls give them, the first compute-capable device and family, and their creations logged; on failure the objects created so far stay live |
| Context.NewLeavesPrefix | src-tauri/src/vulkan.rs:20-27 | a `new` stopped after `n` steps leaves a valid ledger with exactly the first `n` objects live |
| Context.ContextScriptRuns | src-tauri/src/vulkan.rs:20-27 | every creation of `new` is enabled where it happens |
| Context.ContextScriptBuilds | src-tauri/src/vulkan.rs:20-27 | a complete `new` leaves the six objects live and referring to each other as their creation calls make them, with nothing else referring to them |
| Context.DropIsTeardownOrder | src-tauri/src/vulkan.rs:555-568 | `Drop` destroys six distinct context objects, each after every live object that refers to it |
| Context.DropRuns | src-tauri/src/vulkan.rs:555-568 | every destruction of `Drop` is enabled; afterwards the context's objects are gone, nothing else changed, and the log ends with the six destructions |
| Context.Drop | src-tauri/src/vulkan.rs:555-568 | destroys pipeline, pipeline layout, set layout, shader module, device (when not null) and instance, leaving the rest of the ledger as it was |
| Context.TeardownReversesCreation | src-tauri/src/vulkan.rs:18-27 | `Drop`'s destruction order is exactly the reverse of `new`'s creation order |
| Process.ProcessScriptRuns | src-tauri/src/vulkan.rs:265-486 | on a droppable context every driver call of a whole `process_image` is enabled, its cleanup included |
| Process.ProcessScriptResult | src-tauri/src/vulkan.rs:265-486 | a successful `process_image` leaves the live set as it found it, logs its six creations and then the six destructions in cleanup order, and the context can still be dropped |
| Process.SetupLive | src-tauri/src/vulkan.rs:265-363 | before the cleanup, the two buffers, their memories, the descriptor pool and the command pool are live beside what was there |
| Process.CleanupRuns | src-tauri/src/vulkan.rs:476-486 | the cleanup order (command pool, descriptor pool, input buffer, input memory, output buffer, output memory) destroys each object after everything that refers to it |
| Process.CleanupFreed | src-tauri/src/vulkan.rs:476-486 | the cleanup destroys exactly the six objects the upscale created |
| Process.ProcessKeepsDroppable | src-tauri/src/vulkan.rs:242-489 | after a successful `process_image` the context can still be dropped |
| Process.InputBufferHeld | src-tauri/src/vulkan.rs:264-475 | after any early return that follows the first creation, the input buffer is still live and refers to the device |
| Process.DropBlockedBy | src-tauri/src/vulkan.rs:555-566 | `Drop` cannot complete while a live object outside the context refers to the device |
| Process.SetupPrefixKinds | src-tauri/src/vulkan.rs:264-363 | the first `n` calls, up to the cleanup, create the first `CREATED_AFTER[n]` of input buffer, input memory, output buffer, output memory, descriptor pool and command pool |
| Process.SetupPrefixAdds | src-tauri/src/vulkan.rs:264-475 | the calls before the cleanup destroy nothing: they issue consecutive handles, which join the live objects, and log their creations |
| Process.EarlyReturnKeepsCreated | src-tauri/src/vulkan.rs:264-475 | an early return after `n` calls leaves exactly the old live objects plus the first `CREATED_AFTER[n]` objects the upscale created, with their creations logged; so a missing memory type for the output leaves the input buffer, its memory and the output buffer, and a failure once the descriptor pool exists leaves that pool too |
| Process.EarlyReturnBlocksDrop | src-tauri/src/vulkan.rs:264-475 | after an early return of `process_image` that follows the first creation, the context can no longer be dropped: the leak is permanent |
| Upscale.BufferStop | src-tauri/src/vulkan.rs:491-552 | `create_buffer` makes at most three ledger calls; it runs through exactly when none of its calls fails and a memory type is found |
| Upscale.CommandStop | src-tauri/src/vulkan.rs:346-434 | the command stage stops after at most two ledger calls; it runs through exactly when recording succeeds, the submit succeeds and the wait for idle succeeds |
| Upscale.ProcessStop | src-tauri/src/vulkan.rs:251-475 | an early return of `process_image` happens before the cleanup; a failure up to the read-back is that stop; there is no stop exactly when everything up to the read-back succeeds, the save succeeds and the output file exists |
| Upscale.Upload | src-tauri/src/vulkan.rs:541-549 | the first `len` bytes of the mapped memory become `data` and the bytes beyond stay untouched |
| Upscale.ReadBack | src-tauri/src/vulkan.rs:436-453 | the result is a fresh vector of exactly the first `len` bytes of the output memory |
| Upscale.ReadBackIsKernelImage | src-tauri/src/vulkan.rs:436-453 | reading back a zero-initialised output after the kernel ran yields the kernel's bytes, zero-padded to the image length |
| Upscale.BackBuffer | src-tauri/src/vulkan.rs:530-549 | allocates `mem_requirements.size` bytes, binds them to the buffer and uploads `data` at offset 0, each failing call stopping there |
| Upscale.CreateBuffer | src-tauri/src/vulkan.rs:491-552 | stops where `BufferStop` says with the calls so far replayed; on success buffer and memory are the next two handles, the memory is the reported size and starts with `data`, and the memory type is the search's answer |
| Upscale.BindDescriptors | src-tauri/src/vulkan.rs:276-343 | creates the pool and the set and writes binding 0 to the input and binding 1 to the output, stopping at the first failing call |
| Upscale.Record | src-tauri/src/vulkan.rs:346-413 | creates the command pool and buffer; when recording succeeds it pushes `(width, height, factor)` and dispatches the output's grid |
| Upscale.Submit | src-tauri/src/vulkan.rs:415-434 | a failed submit leaves the output memory as it was, and a successful one leaves the kernel's output in it |
| Upscale.RecordAndSubmit | src-tauri/src/vulkan.rs:346-434 | stops where `CommandStop` says; the output memory holds the kernel's bytes exactly when the kernel was submitted |
| Upscale.Cleanup | src-tauri/src/vulkan.rs:476-486 | performs the six destructions of the success path, in source order, on the ledger |
| Upscale.MakeBuffers | src-tauri/src/vulkan.rs:256-275 | the input buffer's memory starts with the decoded pixels and the output buffer's with `out_w*out_h*4` zero bytes, in two distinct fresh arrays; each failure stops with the calls so far replayed |
| Upscale.Dispatch | src-tauri/src/vulkan.rs:276-434 | binds, records and submits in order, stopping at the first failure, and the output memory then holds the kernel's bytes |
| Upscale.Render | src-tauri/src/vulkan.rs:256-453 | on success returns exactly the `out_w*out_h*4` bytes of the kernel's image, with every ledger call before the cleanup replayed |
| Upscale.ProcessOn | src-tauri/src/vulkan.rs:242-489 | the whole `process_image` against its script: error and ledger state at each early return, the saved image, and the cleanup on success |
| Upscale.ProcessImage | src-tauri/src/vulkan.rs:242-489 | fails exactly when `ProcessStop` names a stop, returning its error with exactly the script's first `calls` steps run, which leaves the old live objects plus the first `CREATED_AFTER[calls]` objects it created live and their creations logged; an early return after a creation leaves the context undroppable; success runs the whole script, leaves the live set unchanged and keeps the context droppable; whenever the setup ran through, the image handed to the save is `w*f` by `h*f` with the kernel's bytes |
| Naming.Decimal | src-tauri/src/lib.rs:199-205 | `{}` of an unsigned integer: at least one digit, all digits, no leading zero |
| Naming.DecimalRoundTrip | src-tauri/src/lib.rs:199-205 | reading back a rendered number gives the number |
| Naming.DecimalInjective | src-tauri/src/lib.rs:199-205 | distinct numbers render differently |
| Naming.FileNameRoundTrip | src-tauri/src/lib.rs:196-207 | `upscaled_{f}x_{secs}.png`, `upscaled_enhanced_…` and `upscaled_nearest_…` parse back to the command, the factor and the second |
| Naming.FileNamesDiffer | src-tauri/src/lib.rs:271-282 | two requests that differ in command, factor or second get different file names |
| Naming.Join | src-tauri/src/lib.rs:206 | the path is the directory, then one separator, then the file name; the separator is left out exactly when the directory is empty or already ends in one |
| Naming.OutputPathEndsWithName | src-tauri/src/lib.rs:338-349 | the output path is in the temporary directory and ends with the generated file name, which parses back |
| Commands.ValidationError | src-tauri/src/lib.rs:160-173 | a request passes exactly when the path exists and `1 <= factor <= 8`; a missing path is reported whatever the factor, since that check comes first |
| Commands.InvalidFactorNamesFactor | src-tauri/src/lib.rs:166-173 | the factor message names the rejected factor, followed by ". Must be between 1 and 8." |
| Commands.ResolveOptions | src-tauri/src/lib.rs:150-152 | sharpening and contrast are on unless switched off; noise reduction is off unless switched on |
| Commands.OptionsGivenOrDefault | src-tauri/src/lib.rs:150-152 | explicit flags win; with none the flags are (true, true, false) |
| Commands.UpscaleCallsRun | src-tauri/src/lib.rs:328-360 | a successful `upscale_image` runs `new`, `process_image` and `Drop` with every step enabled and leaves no object live |
| Commands.UpscaleImage | src-tauri/src/lib.rs:295-361 | a refused request or a failed shim builds no context and touches no driver object; a failed `new` reports its message and leaves its partial context; a processing failure reports its message and, after a creation, leaves objects that block `Drop`; an image is handed to the save exactly when every step up to the read-back succeeded, so always on success; success returns `upscaled_{f}x_{secs}.png` in the temporary directory, with the `w*f` by `h*f` kernel image saved there and no object left |
| Commands.UpscaleImageEnhanced | src-tauri/src/lib.rs:137-228 | same checks, shim and `new` as `upscale_image`; the enhanced pass is asked for the resolved flags exactly when it is reached, and the context is dropped afterwards |
| Commands.NearestSucceeds | src-tauri/src/lib.rs:231-292 | the nearest-neighbour command succeeds exactly when the path exists, `1 <= factor <= 8`, the image opens and the save succeeds |
| Commands.NearestErrors | src-tauri/src/lib.rs:237-288 | a missing path, an open failure and a save failure each come back with their own prefix and cause |
| Commands.NearestResult | src-tauri/src/lib.rs:260-291 | on success the result is `w*f` by `h*f`, in the temporary directory, under a name that parses back to the nearest-neighbour command, the factor and the second |

## Left out

- The Vulkan driver, the SPIR-V kernel and the image codecs are oracles. What
  the kernel computes is an arbitrary byte sequence. Decoding, encoding and
  `resize_exact`'s pixels are not modelled.
- `setup_moltenvk_for_command` (lib.rs:14-134) is reduced to its outcome. The
  ICD search, the JSON it writes and the environment variables it sets are
  filesystem and process-global state.
- `vulkan::process_image_enhanced`, called at lib.rs:211, is not defined in
  the `vulkan.rs` this model follows, whose functions begin at lines 18, 43,
  77, 98, 130, 147, 182, 205, 242, 491 and 555. The model has only its result,
  an oracle standing for code that is not in the source.
- Commands.UpscaleImageEnhanced: the model takes it to leave the ledger as it found
  it, so the `Drop` after it always runs.
- Context.Drop, Commands.UpscaleImage: in Rust the context is dropped on every return after `new`.
  After a `process_image` failure that left objects behind, that `Drop` destroys
  the device while buffers still refer to it, which Vulkan forbids. The ledger
  refuses such a destruction, so on that path the model stops before `Drop` and
  reports (`EarlyReturnBlocksDrop`) that it could not run. `Context.Drop` requires
  `CanDrop`, which excludes that leaked state.
- Upscale.ProcessImage, Commands.UpscaleImage: they require that
  `width*factor`, `height*factor`, `out_w*out_h*4` and `out + 15` fit a `u32`.
  The source computes them in `u32` and would panic or wrap beyond that.
- Commands.NearestSucceeds, Commands.NearestErrors, Commands.NearestResult:
  they require the same of `width*factor` and `height*factor`. The resized
  pixels are not modelled, only the image's size and where it is saved.
- Upscale.CreateBuffer: device memory is taken to start as zeros. The output
  buffer is uploaded as zeros in any case, so the image read back does not
  depend on this.
- Upscale.CreateBuffer: the buffer's declared size (`data.len()`), its usage
  flags and the bind offset 0 are not recorded. The memory's size is the
  driver's reported requirement, modelled as `data.len()` plus a non-negative
  slack, so a report smaller than `data` is not modelled. Mapping only
  `data.len()` bytes is modelled as copying `data` to the start of the whole
  allocation.
- Upscale.Upload, Upscale.ReadBack: the byte copies are element-wise copies
  between `seq`s and arrays. Aliasing of raw memory and the `unsafe` copy are not
  modelled.
- The push block is written little-endian. `from_raw_parts` over `[u32; 3]`
  uses the host's byte order, which is little-endian on every platform the
  application ships for.
- Physical devices, queues, descriptor sets and command buffers are not ledger
  objects. The driver frees them with their pool or instance, and the source
  never destroys them.
- The queue priority (a float), all `println!` output, the Tauri builder,
  `build.rs`, and the UI in `src/App.tsx` and `docs/script.js`.
- Concurrency: there is none. One synchronous submission is followed by
  `queue_wait_idle`.
- The path separator is `/`. `to_str().unwrap()` on a non-UTF-8 path and a
  clock before 1970 (`duration_since(UNIX_EPOCH).unwrap()`) would panic; they
  are not modelled.
