# VulkanExperiment core, modelled in Dafny

This project models the CPU-side core of a small Vulkan engine.

- **Renderer** (`Frames`): the frame-transaction state machine.
  - `BeginFrame` acquires a swap-chain image and begins that image's command buffer.
  - `EndFrame` ends and submits the buffer.
  - A stale or suboptimal swap chain, or a window resize, triggers `ReCreateSwapChain`. It waits for a usable window extent, waits for the device, rejects a replacement chain with other formats, and reallocates the command buffers only when the image count changed.
- **EngineMain** (`EngineLoop`): the earlier, self-contained frame loop.
  - It accepts a replacement chain of any format.
  - It rebuilds the graphics pipeline after every completed swap-chain rebuild.
  - It records and submits a whole frame in `DrawFrame`.
  - `Run` draws frames until the window asks to close.
- **MyWindow** (`Windowing`): the GLFW wrapper.
  - It guards initialisation and window creation so each happens once.
  - It stores the framebuffer size and the "resized" flag that the frame loops poll and clear.
  - It holds the extent wait loop both rebuilds share.
- **Buffer** (`Buffers`): the aligned host-visible buffer.
  - Instance-size rounding with the power-of-two mask trick, and the buffer's size.
  - Map, unmap and the memcpy into the mapping.
  - Per-index offsets, flush, invalidate and descriptor info, and destruction.
- **Mesh** and **Mesh::Builder** (`Meshes`):
  - Vertex layout and its input descriptions.
  - Staged upload into device-local vertex and index buffers.
  - Bind and draw commands.
  - Flattening of a parsed OBJ file into one vertex per index entry.
- **GameObject** (`GameObjects`): the function-local static id counter of `CreateGameObject`.
- **Vulkan** (`Vulkan`): shared vocabulary.
  - Results, handles and the abstract swap chain.
  - The command pool.
  - The trace of device calls through which the core's effects become visible.

## How the model is stated

Each class keeps the source's fields. How a method states its new state depends on the class:

- **Renderer, EngineMain, MyWindow and CommandPool** expose a `State()` snapshot of their fields. Each method's `ensures` ties the new snapshot to a pure function of the old one (`AfterBeginFrame`, `AfterEndFrame`, `AfterReCreateSwapChain`, …). The protocol properties are lemmas about those functions.
- **Buffer** has a partial `State()`: the mapping and the trace of its calls. Each method's `ensures` ties that snapshot to a pure function of the old one and states separately whether the buffer stays alive. The memory bytes are an `array`, changed only by the writes, whose `ensures` give the new contents as `Written` of the old ones.
- **IdCounter, EngineDevice, Mesh and Builder** have no snapshot. Their methods state each new field value directly.
- **Mesh** keeps the handles of its vertex and index buffers. Their memory (`m_VertexBufferMemory`, `m_IndexBufferMemory`) is part of the device buffer each handle names.

- **Thrown exceptions.** A `std::runtime_error` becomes `Outcome.Threw` with the exact message.
- **C++ `assert`s.** They become `requires` clauses.
- **Blocking.** A `glfwWaitEvents` that would block forever once the scripted events run out ends as `Outcome.Pending`.
- **Driver and GLFW decisions become inputs.** These are:
  - the acquired image and result
  - the submission result
  - whether command-buffer allocation, begin or end succeeds
  - the events of each poll or wait
  - what a new swap chain negotiates with the surface

The three integer types are modelled as follows:

- `uint32_t` and `int` are `u32` and `i32`.
- `VkDeviceSize` is `u64`.
- Wrap-around is written out wherever the source can overflow: the id counter, `GetAlignment`, the buffer size, `index * m_AlignmentSize` and the `(uint32_t)` casts.

## Model

| member | source | states |
|---|---|---|
| Vulkan.ToU32 | VulkanTutorial/MyWindow.h:22 | the `(uint32_t)` cast keeps every non-negative 32-bit value, never grows a non-negative value, and maps a negative value v to 2^32 + v |
| Vulkan.NewSwapChain | VulkanTutorial/Renderer.cpp:31-38 | a new chain is built for the window extent it was given and has the negotiated image count |
| Vulkan.NullBuffers | VulkanTutorial/Renderer.cpp:55-65 | after a failed allocation, the resized list holds one VK_NULL_HANDLE per image |
| Vulkan.AllocationIsFresh | VulkanTutorial/Renderer.cpp:53-66 | allocating n command buffers yields n distinct, non-null handles that were not live before, are live afterwards, and leave the pool valid |
| Vulkan.FreeReleases | VulkanTutorial/Renderer.cpp:68-72 | freeing releases exactly the given handles, keeps every other live handle, and leaves the pool valid |
| Vulkan.CommandPool.Allocate | VulkanTutorial/Renderer.cpp:63-65 | a successful allocation returns the pool's next fresh handles and records them live; a failed one returns null handles and changes nothing |
| Vulkan.CommandPool.Free | VulkanTutorial/Renderer.cpp:70 | the pool afterwards is `AfterFree` of the pool before |
| Windowing.ConstructorCreatesOneWindow | VulkanTutorial/MyWindow.cpp:7-42 | construction leaves exactly one window of the requested size, GLFW initialised, no resize pending, and makes each GLFW set-up call exactly once, in order |
| Windowing.InitWindowIdempotent | VulkanTutorial/MyWindow.cpp:24-42 | a second InitWindow changes nothing and calls nothing; after InitWindow there is a window and GLFW is initialised |
| Windowing.DestroyWindowIdempotent | VulkanTutorial/MyWindow.cpp:44-51 | DestroyWindow leaves no window, a second call changes nothing, and without a window it does nothing |
| Windowing.ResizeThenReset | VulkanTutorial/MyWindow.cpp:64-70 | the callback stores the new size and raises the flag; the extent is the size cast to unsigned, and equals it for non-negative sizes; resetting the flag restores everything else |
| Windowing.NegativeSizeIsNotDegenerate | VulkanTutorial/MyWindow.h:22 | a size of -1 × -1 casts to 4294967295 × 4294967295, which the wait loop would take as usable |
| Windowing.EventsKeepHandle | VulkanTutorial/MyWindow.cpp:64-70 | event processing never creates or destroys a window, never re-initialises GLFW, and never calls into GLFW |
| Windowing.ClosingIsPermanent | VulkanTutorial/MyWindow.cpp:59-62 | once a close was requested, or a batch contains a close request, IsOpen stays false after the batch |
| Windowing.AwaitFrom | VulkanTutorial/Renderer.cpp:22-27 | the wait loop returns only with a non-degenerate extent; it returns at once if the extent is already usable; it blocks only if the extent is degenerate |
| Windowing.AwaitKeepsHandle | VulkanTutorial/Renderer.cpp:22-27 | waiting never loses the window, the GLFW state or the GLFW call log |
| Windowing.ResizeNoticedOneWakeLate | VulkanTutorial/Renderer.cpp:22-27 | the loop reads the extent before it sleeps: a resize ending a minimisation leaves it blocked after one wake-up and lets it leave with the new size after a second |
| Windowing.MyWindow.constructor | VulkanTutorial/MyWindow.cpp:7-16 | the state is the member initialisers followed by InitWindow |
| Windowing.MyWindow.InitWindow | VulkanTutorial/MyWindow.cpp:24-42 | the new state is `AfterInitWindow` of the old one |
| Windowing.MyWindow.DestroyWindow | VulkanTutorial/MyWindow.cpp:44-51 | the new state is `AfterDestroyWindow` of the old one |
| Windowing.MyWindow.IsOpen | VulkanTutorial/MyWindow.cpp:59-62 | true exactly when the window has not been asked to close |
| Windowing.MyWindow.GetExtent | VulkanTutorial/MyWindow.h:22 | the extent of the current state |
| Windowing.MyWindow.WasWindowResized | VulkanTutorial/MyWindow.h:23 | the current resize flag |
| Windowing.MyWindow.ResetWindowResizedFlag | VulkanTutorial/MyWindow.h:24 | only the flag changes, to false |
| Windowing.MyWindow.FrameBufferResizeCallback | VulkanTutorial/MyWindow.cpp:64-70 | the new state is `AfterResize` of the old one |
| Windowing.MyWindow.ProcessEvents | VulkanTutorial/MyWindow.cpp:64-70 | the events of a batch reach the window in order |
| Windowing.WaitForExtent | VulkanTutorial/Renderer.cpp:22-27 | the loop ends as `AwaitExtent` says, and leaves the window in that result's state |
| Frames.CreateGivesFreshBuffers | VulkanTutorial/Renderer.cpp:53-66 | a successful CreateCommandBuffers gives one fresh, live, distinct buffer per image; a failed one throws "Failed to allocate command buffers" with null handles and the pool unchanged |
| Frames.ConstructEstablishesValid | VulkanTutorial/Renderer.cpp:7-13 | the constructor blocks only while the extent is unusable, cannot fail the format check, throws only on allocation failure, and otherwise leaves an idle, valid Renderer with one buffer per image |
| Frames.RebuildWaitsForExtent | VulkanTutorial/Renderer.cpp:20-38 | a rebuild blocks, changing only the window, exactly when the wait loop does; otherwise it waits for the device and builds the new chain for the usable extent |
| Frames.RebuildRejectsOtherFormats | VulkanTutorial/Renderer.cpp:40-43 | a replacement chain with other formats throws "Swap chains are not compatible" before any buffer is touched |
| Frames.RebuildReallocatesOnlyOnCountChange | VulkanTutorial/Renderer.cpp:45-49 | a completed rebuild keeps the buffers when the image count is unchanged, and otherwise frees all of them and allocates fresh ones; it keeps the chain valid; it throws only for incompatible formats or a failed allocation |
| Frames.BeginFrameOutOfDate | VulkanTutorial/Renderer.cpp:78-84 | an out-of-date acquisition rebuilds, returns VK_NULL_HANDLE and starts no frame |
| Frames.BeginFrameAcquires | VulkanTutorial/Renderer.cpp:86-100 | Success and Suboptimal are treated alike: the frame starts on the acquired image and its buffer is begun and returned; a failed begin throws; any other failure throws "Failed to acquire swap chain image!" with no frame started |
| Frames.EndFrameCases | VulkanTutorial/Renderer.cpp:103-125 | EndFrame ends and submits exactly the current image's buffer. It clears the resize flag and rebuilds exactly on OutOfDate, Suboptimal or a resize. Any other failed submission throws. A normal return ends the frame |
| Frames.BeginFrameKeepsValid | VulkanTutorial/Renderer.cpp:74-101 | a normal BeginFrame keeps the Renderer valid, and a frame is in progress exactly when the chain was not out of date |
| Frames.EndFrameKeepsValid | VulkanTutorial/Renderer.cpp:103-125 | a normal EndFrame keeps the Renderer valid and idle |
| Frames.RenderPassCoversExtent | VulkanTutorial/Renderer.cpp:127-170 | the render pass opens on the current image's framebuffer; render area, viewport and scissor all cover the swap-chain extent; nothing but the trace changes |
| Frames.OneFrame | VulkanTutorial/Renderer.cpp:74-170 | one undisturbed frame acquires image i, records a render pass into buffer i, submits buffer i for image i, and ends idle and valid with only the trace and the image index changed |
| Frames.Renderer.constructor | VulkanTutorial/Renderer.cpp:7-9 | the Renderer holds the given window and pool and starts with no chain, no buffers and no frame |
| Frames.Renderer.Create | VulkanTutorial/Renderer.cpp:7-13 | construction is `Construct`: ReCreateSwapChain, then CreateCommandBuffers |
| Frames.Renderer.ReCreateSwapChain | VulkanTutorial/Renderer.cpp:20-51 | the new state and outcome are `AfterReCreateSwapChain` of the old state |
| Frames.Renderer.CreateCommandBuffers | VulkanTutorial/Renderer.cpp:53-66 | the new state and outcome are `AfterCreateCommandBuffers` of the old state |
| Frames.Renderer.FreeCommandBuffers | VulkanTutorial/Renderer.cpp:68-72 | every buffer goes back to the pool and the list is emptied |
| Frames.Renderer.BeginFrame | VulkanTutorial/Renderer.cpp:74-101 | the returned buffer, state and outcome are `AfterBeginFrame`; the C++ assert that no frame is in progress is a precondition |
| Frames.Renderer.EndFrame | VulkanTutorial/Renderer.cpp:103-125 | the new state and outcome are `AfterEndFrame`; a frame in progress is a precondition |
| Frames.Renderer.BeginSwapChainRenderPass | VulkanTutorial/Renderer.cpp:127-162 | requires a frame in progress on that buffer and appends the render-pass opening for the current image |
| Frames.Renderer.EndSwapChainRenderPass | VulkanTutorial/Renderer.cpp:164-170 | requires a frame in progress on that buffer and appends the end of the pass |
| Frames.Renderer.GetCommandBuffer | VulkanTutorial/Renderer.h:30-34 | requires a frame in progress; in a valid Renderer it returns a live, non-null buffer of the current frame |
| Buffers.GetAlignmentWithoutAlignment | VulkanTutorial/Buffer.cpp:8-15 | with no alignment requirement the instance size is kept |
| Buffers.GetAlignmentRoundsUp | VulkanTutorial/Buffer.cpp:8-15 | for a power-of-two alignment and no overflow, the result is the least multiple of the alignment that is at least the instance size |
| Buffers.GetAlignmentNeedsPowerOfTwo | VulkanTutorial/Buffer.cpp:12 | the mask trick needs a power of two: with alignment 3 a one-byte instance stays one byte, which is not a multiple of 3 |
| Buffers.GetAlignmentOverflows | VulkanTutorial/Buffer.cpp:12 | the 64-bit sum wraps: VK_WHOLE_SIZE with alignment 2 rounds to 0 |
| Buffers.IndexOffset | VulkanTutorial/Buffer.cpp:163 | `index * m_AlignmentSize` is the exact product whenever the index is non-negative and the product fits in 64 bits |
| Buffers.InstanceSlotsDisjoint | VulkanTutorial/Buffer.cpp:17-27 | with a power-of-two alignment and no overflow, the slots of two different instances never overlap, and every slot lies inside the buffer |
| Buffers.OverwritePlacesData | VulkanTutorial/Buffer.cpp:74-88 | a memcpy puts exactly the data at its start and leaves every other byte as it was |
| Buffers.OverwritesCommute | VulkanTutorial/Buffer.cpp:152-155 | writes to disjoint ranges commute and do not disturb each other |
| Buffers.WriteToBufferPlaces | VulkanTutorial/Buffer.cpp:74-88 | with VK_WHOLE_SIZE the first bufferSize bytes of the data land at the start of the mapping; otherwise size bytes land at offset within it; nothing else changes |
| Buffers.UnmapIdempotent | VulkanTutorial/Buffer.cpp:56-63 | Unmap is idempotent, always leaves the buffer unmapped, and calls vkUnmapMemory exactly when mapped |
| Buffers.DestroyUnmapsFirst | VulkanTutorial/Buffer.cpp:29-34 | the destructor unmaps a live mapping before it destroys the buffer and frees its memory |
| Buffers.MapThenUnmap | VulkanTutorial/Buffer.cpp:45-63 | a successful Map followed by Unmap leaves the buffer unmapped with exactly one map and one unmap call |
| Buffers.Buffer.constructor | VulkanTutorial/Buffer.cpp:17-27 | the alignment size is `GetAlignment` of the arguments, the buffer size is its 64-bit product with the instance count, and the buffer starts unmapped |
| Buffers.Buffer.Map | VulkanTutorial/Buffer.cpp:45-49 | requires created, unmapped memory and a range inside it; the new state is `AfterMap` with the driver's result |
| Buffers.Buffer.Unmap | VulkanTutorial/Buffer.cpp:56-63 | the new state is `AfterUnmap` of the old one |
| Buffers.Buffer.WriteToBuffer | VulkanTutorial/Buffer.cpp:74-88 | requires a mapping; memory afterwards is `Written`: the data copied into the mapped range |
| Buffers.Buffer.WriteToIndex | VulkanTutorial/Buffer.cpp:152-155 | instanceSize bytes are written at `index * alignmentSize` |
| Buffers.Buffer.Flush | VulkanTutorial/Buffer.cpp:101-109 | one flush call for the given range, returning the driver's result; the mapping, the memory and the buffer's liveness are unchanged |
| Buffers.Buffer.Invalidate | VulkanTutorial/Buffer.cpp:122-130 | one invalidate call for the given range, returning the driver's result; the mapping, the memory and the buffer's liveness are unchanged |
| Buffers.Buffer.FlushIndex | VulkanTutorial/Buffer.cpp:163 | flushes alignmentSize bytes at the slot of the index; the mapping, the memory and the buffer's liveness are unchanged |
| Buffers.Buffer.InvalidateIndex | VulkanTutorial/Buffer.cpp:186-189 | invalidates alignmentSize bytes at the slot of the index; the mapping, the memory and the buffer's liveness are unchanged |
| Buffers.Buffer.DescriptorInfo | VulkanTutorial/Buffer.cpp:140-143 | this buffer, with the given offset and range |
| Buffers.Buffer.DescriptorInfoForIndex | VulkanTutorial/Buffer.cpp:172-175 | this buffer, range alignmentSize, offset index × alignmentSize when that does not overflow |
| Buffers.Buffer.Destroy | VulkanTutorial/Buffer.cpp:29-34 | the new state is `AfterDestroy`, and the buffer is no longer alive |
| Meshes.VertexData | VulkanTutorial/Mesh.h:17-26 | one vertex occupies sizeof(Vertex) = 44 bytes |
| Meshes.VerticesData | VulkanTutorial/Mesh.cpp:105-107 | the memcpy source of n vertices is 11·n words |
| Meshes.VerticesRoundTrip | VulkanTutorial/Mesh.cpp:105-107 | uploaded vertex memory reads back as exactly the vertices |
| Meshes.DescriptionsMatchLayout | VulkanTutorial/Mesh.cpp:164-188 | one binding with stride sizeof(Vertex); each attribute uses that binding, has its own location, fits the stride, and reads exactly position or colour from an uploaded vertex |
| Meshes.EngineDevice.CreateBuffer | VulkanTutorial/EngineDevice.h:56 | a fresh, non-null handle for a new buffer of the requested size, usage and properties; other buffers unchanged |
| Meshes.EngineDevice.Upload | VulkanTutorial/Mesh.cpp:104-107 | map, memcpy and unmap: the buffer's contents become the data |
| Meshes.EngineDevice.CopyBuffer | VulkanTutorial/EngineDevice.h:58 | the first size bytes of the destination become those of the source |
| Meshes.EngineDevice.Release | VulkanTutorial/Mesh.cpp:116-117 | the buffer and its memory are gone; nothing else changes |
| Meshes.StagedUpload | VulkanTutorial/Mesh.cpp:97-117 | the result is a fresh device-local buffer of exactly the data's size, with the given usage plus transfer-destination, holding the data; the staging buffer does not survive |
| Meshes.Mesh.constructor | VulkanTutorial/Mesh.cpp:12-18 | the counts are the `(uint32_t)` sizes; there is an index buffer exactly when there are indices; both buffers are fresh and hold the counted vertices and indices; other buffers are unchanged |
| Meshes.Mesh.CreateVertexBuffer | VulkanTutorial/Mesh.cpp:90-118 | asserts at least three vertices; stages the counted vertices into a fresh buffer that reads back as them |
| Meshes.Mesh.CreateIndexBuffer | VulkanTutorial/Mesh.cpp:120-152 | records whether there are indices, and only then stages the counted indices into a fresh buffer |
| Meshes.Mesh.Bind | VulkanTutorial/Mesh.cpp:32-40 | on the given command buffer, binds this mesh's vertex buffer at binding 0, offset 0, and, exactly when there is an index buffer, also binds that index buffer (distinct from the vertex buffer) at offset 0 as uint32 |
| Meshes.Mesh.Draw | VulkanTutorial/Mesh.cpp:42-48 | records one draw on the given command buffer: indexed exactly when there is an index buffer, over all its indices or all vertices, with one instance |
| Meshes.Mesh.Destroy | VulkanTutorial/Mesh.cpp:20-30 | releases the vertex buffer, and the index buffer only if there is one |
| Meshes.FlattenShapeAt | VulkanTutorial/Mesh.cpp:208-240 | the vertices of one shape are one per index entry, in order |
| Meshes.FlattenOnePerIndex | VulkanTutorial/Mesh.cpp:206-241 | LoadModel emits exactly one vertex per index entry across all shapes, in shape-then-index order, and the vertex at each position is the one built from that entry |
| Meshes.FlattenLength | VulkanTutorial/Mesh.cpp:206-241 | the number of vertices is the total number of index entries |
| Meshes.LoadedVertexComponents | VulkanTutorial/Mesh.cpp:210-239 | each vertex is white; it takes its position, normal and uv from the attribute arrays (strides 3, 3 and 2) exactly when that index is not negative, and otherwise keeps the zero default |
| Meshes.Builder.constructor | VulkanTutorial/Mesh.h:28-34 | a builder starts with no vertices and no indices |
| Meshes.Builder.LoadModel | VulkanTutorial/Mesh.cpp:190-242 | a failed parse throws warn + err and changes nothing; otherwise the vertices are the flattened shapes and the indices are empty |
| Meshes.Builder.AppendShape | VulkanTutorial/Mesh.cpp:208-240 | appends the flattened vertices of one shape |
| Meshes.CreateModelFromFile | VulkanTutorial/Mesh.cpp:154-162 | a failed parse throws warn + err with the device untouched; a successful one returns normally with a non-indexed mesh whose fresh vertex buffer holds the flattened vertices, every earlier device buffer unchanged |
| GameObjects.IssuedId | VulkanTutorial/GameObject.cpp:11-15 | the n-th id is n while n fits in 32 bits |
| GameObjects.IdsDistinctBeforeWrap | VulkanTutorial/GameObject.cpp:11-15 | up to 2^32 objects get pairwise different ids 0, 1, 2, … in creation order |
| GameObjects.IdsRepeatAfterWrap | VulkanTutorial/GameObject.cpp:11-15 | the unsigned counter wraps: object 2^32 + i gets the id of object i, so ids stop being unique |
| GameObjects.IdCounter.constructor | VulkanTutorial/GameObject.cpp:13 | the static counter starts at 0 |
| GameObjects.IdCounter.CreateGameObject | VulkanTutorial/GameObject.cpp:5-15 | the new object carries the counter's old value, which is the id of its creation number; the counter increments modulo 2^32 |
| EngineLoop.CreateGivesFreshBuffers | VulkanTutorial/EngineMain.cpp:98-111 | a successful allocation gives one fresh, live, distinct buffer per image; a failed one throws with the pool unchanged |
| EngineLoop.ConstructEstablishesValid | VulkanTutorial/EngineMain.cpp:17-23 | the constructor loads one game object with the counter's id; it throws "Failed to create pipeline layout!" when the layout fails; it blocks while the extent is unusable; otherwise it leaves a valid engine with the pipeline built once, for the first chain |
| EngineLoop.RebuildKeepsValid | VulkanTutorial/EngineMain.cpp:71-96 | a rebuild never rejects a format; a completed rebuild keeps the engine valid, with the pipeline rebuilt last for the new chain; buffers are kept on an unchanged count and replaced by fresh ones otherwise; it throws only on failed allocation |
| EngineLoop.DrawFrameCases | VulkanTutorial/EngineMain.cpp:188-214 | out-of-date acquisition rebuilds and another failed one throws; a failed begin or end of buffer i throws with the trace so far; after submitting buffer i for image i, a stale or suboptimal result or a resize clears the flag and rebuilds, another failure throws, and an undisturbed frame changes only the trace; every normal return keeps the engine valid |
| EngineLoop.AwaitKeepsClosed | VulkanTutorial/EngineMain.cpp:73-78 | waiting for a usable extent never reopens a window that was asked to close |
| EngineLoop.DrawFrameKeepsWindow | VulkanTutorial/EngineMain.cpp:188-214 | a frame never loses the window and never reopens a closed one |
| EngineLoop.RunKeepsValid | VulkanTutorial/EngineMain.cpp:30-39 | when Run returns, the window was asked to close, the engine is still valid, and the last call waited for the device |
| EngineLoop.CloseEndsRun | VulkanTutorial/EngineMain.cpp:30-39 | the frame of the iteration that asks to close is still drawn; then Run waits for the device and returns, ignoring later frames |
| EngineLoop.EngineMain.constructor | VulkanTutorial/EngineMain.cpp:17 | the engine holds its window, pool and id counter and starts empty |
| EngineLoop.EngineMain.Create | VulkanTutorial/EngineMain.cpp:17-23 | construction is `Construct` |
| EngineLoop.EngineMain.LoadGameObjects | VulkanTutorial/EngineMain.cpp:216-238 | one game object with the next id is appended |
| EngineLoop.EngineMain.CreatePipelineLayout | VulkanTutorial/EngineMain.cpp:41-58 | the new state and outcome are `AfterCreatePipelineLayout` |
| EngineLoop.EngineMain.CreatePipeline | VulkanTutorial/EngineMain.cpp:60-69 | the pipeline is rebuilt for the current chain |
| EngineLoop.EngineMain.ReCreateSwapChain | VulkanTutorial/EngineMain.cpp:71-96 | the new state and outcome are `AfterReCreateSwapChain` |
| EngineLoop.EngineMain.CreateCommandBuffers | VulkanTutorial/EngineMain.cpp:98-111 | the new state and outcome are `AfterCreateCommandBuffers` |
| EngineLoop.EngineMain.FreeCommandBuffers | VulkanTutorial/EngineMain.cpp:161-165 | every buffer goes back to the pool and the list is emptied |
| EngineLoop.EngineMain.RecordCommandBuffer | VulkanTutorial/EngineMain.cpp:113-159 | the new state and outcome are `AfterRecord` |
| EngineLoop.EngineMain.DrawFrame | VulkanTutorial/EngineMain.cpp:188-214 | the new state and outcome are `AfterDrawFrame` |
| EngineLoop.EngineMain.Run | VulkanTutorial/EngineMain.cpp:30-39 | the loop's final state and outcome are `AfterRun` of the initial state |

## Left out

- Swap-chain internals are inputs (a `Negotiated` value): surface format, present mode, extent clamping, image count, render pass and framebuffers. EngineSwapChain.cpp is not part of this model.
- `CompareSwapFormats` is assumed to be equality of the colour and depth formats: EngineSwapChain.h does not declare it and its body is not part of this model.
- Fences, semaphores and frame-in-flight synchronisation inside `AcquireNextImage` and `SubmitCommandBuffers` are left out: they live in the swap chain.
- Clear colours, depth-clear values, viewport depth range and other floating-point values are left out. Mesh data floats are kept as opaque 32-bit patterns, because the code only copies them.
- RenderPipeline is reduced to one `CreateGraphicsPipeline` call in the trace; its creation cannot fail in the model. Shader loading and pipeline configuration are not part of this model.
- `EngineMain::RenderGameObject` and BasicRenderSystem, the push constants and draw calls inside a recorded pass, are left out.
- The destructors of Renderer, MyWindow and EngineMain are left out: they only call FreeCommandBuffers, DestroyWindow or vkDestroyPipelineLayout, which are modelled as operations.
- `glfwCreateWindow` returning NULL, `glfwTerminate` and `MyWindow::CreateWindowSurface` are left out: they are foreign calls with no logic of the core.
- `Renderer::GetSwapChainRenderPass` is left out: it forwards to the swap chain, which is not part of this model.
- Frames.Renderer.IsFrameInProgress: returns the frame flag and states nothing beyond it.
- Frames.Renderer.constructor: starts idle at image index 0, though the C++ leaves `m_IsFrameStarted` and `m_CurrentImageIndex` uninitialised.
- Frames.Renderer.BeginFrame: an acquired image index inside the command-buffer list is a precondition, the presentation layer's guarantee; the C++ indexes without a check.
- Buffer.h is not part of this model: the default arguments of Map, Flush and the other calls are unknown, so every argument is explicit.
- Buffers.Buffer.Map: requires an unmapped buffer, because mapping twice is invalid Vulkan usage; the C++ only asserts that the memory exists.
- Buffers.Buffer.Map: also requires `offset <= memory.Length` and, unless the size is VK_WHOLE_SIZE, `offset + size <= memory.Length`, with `memory` the buffer's `bufferSize` bytes. The C++ checks neither; Vulkan's valid-usage rules measure the range against the allocation, which may be larger than `bufferSize`, so the model does not cover mapping past `bufferSize`.
- Buffers.Buffer.WriteToBuffer: requires the write to fit the mapping and the data, because the C++ copies without a check (undefined behaviour otherwise).
- Meshes.EngineDevice.CreateBuffer: requires a size that is a multiple of 4, because device memory is modelled in 32-bit words; every size a mesh asks for qualifies. New memory is zero-filled in the model; Vulkan leaves it undefined, and a mesh overwrites all of it.
- Meshes.Mesh.constructor: takes the builder's vertex and index lists rather than a `Builder` object.
- Meshes.StagedUpload: the result of `vkMapMemory` is not checked by the C++, and the model assumes mapping succeeds.
- Meshes.CreateModelFromFile: the `std::cout` of the vertex count is left out, and the file read and OBJ parse by tinyobj are an input (`ObjLoad`).
- Meshes.Builder.LoadModel: requires in-range OBJ indices (`WellIndexed`), because out-of-range indices are undefined behaviour in the C++; the `Materials` output of tinyobj is unused and left out.
- Keyboard controller, camera, descriptors and `main.cpp` are outside the modelled core.
- EngineLoop.EngineMain.LoadGameObjects: only the id of the game object is modelled. Its mesh, colour and 2D transform are left out, because EngineMain.cpp uses a `Mesh(device, Vertices)` constructor and `Transform2dComponent` members that Mesh.h and GameObject.h in this source do not declare.
- EngineLoop.EngineMain.DrawFrame: requires `DrawReady`, i.e. an acquired image index inside the command-buffer list. This is the presentation layer's guarantee; the C++ indexes `m_CommandBuffers` without a check.
- EngineLoop.EngineMain.Run: requires `Conforms`, the same index guarantee for every frame of the script that is reached.
- EngineLoop.EngineMain.Run: the model runs for a finite script of frames and ends Pending when the script runs out while the window is still open.
