# FR-Rendering-101 in Dafny: the CPU side of a Direct3D 12 tutorial renderer

FR-Rendering-101 is a small Windows renderer. It opens a window, creates a Direct3D 12
device and a two-buffer swap chain, and draws a coloured triangle every frame. This
project models the code that decides *what* the CPU asks of Direct3D and in which order:

- the two renderer snapshots (`RendererDirectX12`, the older one that draws the triangle
  inline, and `Graphics::DirectX12::Renderer`, the newer one that delegates to an entity);
- their fence and frame-index bookkeeping;
- the render-target views and the adapter search;
- both triangle entities;
- the scene tree and its pre-order walks;
- the window glue;
- the allocator's counters and its pointer-to-size tracker.

Direct3D, DXGI and Win32 objects are opaque handles (`Calls.Ptr`). The GPU, the swap chain
and every creating call are the environment: their answers are parameters (a completed
fence value, a back-buffer index, whether a creation succeeded and what it returned).

The program's effects are recorded in one shared `Calls.CallLog`. It holds the ordered
list of calls issued to Direct3D, the logger and the process, and whether the process has
exited. Every method is proved against a specification function that gives its exact call
sequence, and its contract states the new value of every field it may change, up to the
point where the process exits. The properties the code promises are then proved as
lemmas about those functions. Among them:

- a wait only blocks on a fence value no larger than the one it has just signalled;
- a frame has exactly one barrier pair on one buffer;
- each buffer's view sits at the descriptor the frame later binds, and after Initialize or a Resize whose views are complete, render target i, the heap start and the increment the frame reads are those the views were created with;
- the adapter search never probes a software adapter and stops at the first suitable one;
- the scene walks reach every entity in pre-order;
- the tracker's total is the sum of its map modulo 2^64.

Modules follow the source tree:

| module | file | source |
|---|---|---|
| `Calls` | calls.dfy | the call vocabulary, `Platform::CheckHandle`, `Platform::Halt` |
| `FrameSync` | frame_sync.dfy | fence, frame, view and cleanup logic common to both renderers |
| `VertexLayout` | vertex_layout.dfy | `Vertex`, the input layout, the vertex-buffer view |
| `Metadata` | metadata.dfy | `FrameMetadata`, `ResourcesInitializationMetadata` |
| `Entities` | legacy_triangle_entity.dfy | src/Entities/TriangleEntity.cpp |
| `SceneEntities` | scene_triangle_entity.dfy | src/Scene/Entities/TriangleEntity.cpp |
| `Graphics` | renderer.dfy | src/Graphics/DirectX12/Renderer.cpp, Renderer.h |
| `Adapters` | adapters.dfy | adapter search and performance class of the older renderer |
| `LegacyRenderer` | renderer_dx12.dfy | src/Renderer/DirectX12/RendererDirectX12.cpp |
| `Scene` | scene.dfy | SceneNode.h, SceneGraph.h, DefaultSceneGraphFactory.h |
| `Core` | window.dfy | src/Core/Window.cpp |
| `Memory` | memory.dfy | MemoryStatistics.cpp, Memory.h and Memory.cpp |

**Calls that always crash.** `CheckHandle(result, message, shouldCrash)` with
`shouldCrash` on logs a fatal line, breaks and exits the process. Every call site in the
core uses the default, taken to be `true`. So a failed check means the process ends: the
log gets its `Exit` and nothing after it runs.

**Logging without halting.** `Logger::Fatal` only logs, so a null-queue `WaitForGPU` or a
null-swap-chain `Resize` carries on after its `Fatal` entry.

**Null dereferences.** Where the code dereferences a handle without checking it, the
handle being non-null is a precondition. Examples are the queue in `Render` and the
device in the entities.

**Two copies of the allocator.** The inline `MemoryTracker` and `WindowsAllocator` in
src/Platform/Windows/Memory.h and the out-of-line copy in src/Platform/Windows/Memory.cpp
agree on everything modelled. The table cites the header; the corresponding .cpp lines
are named in the "states" cell.

## Model

| member | source | states |
|---|---|---|
| Calls.PlatformCheckFailure | src/Platform/Platform.h:62-73 | a failed check logs a fatal line and ends the process exactly when asked to crash |
| Calls.MemberCheckFailure | src/Renderer/DirectX12/RendererDirectX12.cpp:644-657 | the members' own CheckHandle logs and breaks, and exits exactly when asked to crash |
| Calls.FatalCrash | src/Platform/Platform.h:49-54 | a fatal line, then Platform::TriggerCrash's breakpoint and exit; the process has ended |
| Calls.CallLog.Halt | src/Platform/Platform.h:31-34 | Halt records a process exit and the process stays ended |
| Calls.PlatformCheckHandle | src/Platform/Platform.h:62-73 | nothing happens on success; on failure the fatal line, then breakpoint and exit when shouldCrash; the process has ended iff the result failed and shouldCrash |
| FrameSync.Signalled | src/Graphics/DirectX12/Renderer.cpp:56-57 | the value WaitForGPU signals is the fence value of the current slot |
| FrameSync.Proceeds | src/Graphics/DirectX12/Renderer.cpp:50-69 | WaitForGPU passes its early returns iff queue and fence exist, Signal succeeds and the swap chain is viewed as IDXGISwapChain3 |
| FrameSync.WaitCalls | src/Graphics/DirectX12/Renderer.cpp:48-82 | a missing queue or fence gives one fatal line; otherwise the Signal of the current value, then a fatal line when Signal or the cast fails, else a wait on the adopted slot's value iff the completed value is below it |
| FrameSync.Advance | src/Graphics/DirectX12/Renderer.cpp:71-81 | a completed wait adopts the new index, stores the signalled value plus one in that slot and leaves the other slot alone |
| FrameSync.Wait | src/Graphics/DirectX12/Renderer.cpp:48-82 | the fence state after WaitForGPU is again a valid two-slot state |
| FrameSync.WaitEarlyReturn | src/Graphics/DirectX12/Renderer.cpp:50-54 | with a missing queue or fence, or a failed Signal, WaitForGPU changes no fence value and no index, logs a fatal line and does not exit |
| FrameSync.WaitCompleted | src/Graphics/DirectX12/Renderer.cpp:56-81 | a completed wait signals the old slot's value first, blocks iff the completed value is below the new slot's value, adopts the swap chain's index and sets that slot to signalled + 1, other slot unchanged |
| FrameSync.Replay | src/Graphics/DirectX12/Renderer.h:67-72 | the state after a run of completed waits from index 0 and values {1, 1} names the last adopted index |
| FrameSync.ReplayCounts | src/Graphics/DirectX12/Renderer.cpp:56-81 | after k completed waits the current slot holds k + 1 and every slot holds a value between 1 and k + 1 |
| FrameSync.ReplayWaitIsBounded | src/Graphics/DirectX12/Renderer.cpp:56-81 | in a reachable state the (k+1)-th wait signals exactly k + 1, only ever blocks on a value at most k + 1, strictly raises the slot it adopts, and leads to the next reachable state |
| FrameSync.WaitCallsBounded | src/Graphics/DirectX12/Renderer.cpp:56-81 | when every slot's value is at most the last value signalled, the wait first signals the next value and only ever blocks on a value at most that one |
| FrameSync.ReplayStep | src/Graphics/DirectX12/Renderer.cpp:56-81 | replaying one more wait on a valid back-buffer index is the previous replay advanced by that wait |
| FrameSync.FramePrologue | src/Graphics/DirectX12/Renderer.cpp:94-112 | allocator and list reset with the initial pipeline, the PRESENT to RENDER_TARGET barrier on the target, the render-target bind |
| FrameSync.FrameClear | src/Graphics/DirectX12/Renderer.cpp:114-118 | one clear of the bound descriptor iff ShouldClear |
| FrameSync.FrameViewport | src/Graphics/DirectX12/Renderer.cpp:120-138 | the viewport, then the scissor rectangle from (0, 0) to the frame-buffer size |
| FrameSync.FrameEpilogue | src/Graphics/DirectX12/Renderer.cpp:143-160 | the RENDER_TARGET to PRESENT barrier, close, execute, Present(1, 0) |
| FrameSync.FrameCommands | src/Graphics/DirectX12/Renderer.cpp:94-160 | prologue, clear, viewport, the entity's draw and epilogue, in that order |
| FrameSync.Select | src/Graphics/DirectX12/Renderer.cpp:84-167 | the filter used to single out barriers, clears and entity calls keeps only calls the predicate accepts |
| FrameSync.SelectFrame | src/Graphics/DirectX12/Renderer.cpp:94-160 | filtering a frame's commands is filtering its five parts in order |
| FrameSync.FrameBarrierPair | src/Graphics/DirectX12/Renderer.cpp:98-147 | a frame holds exactly two barriers, both on the current render target: PRESENT to RENDER_TARGET first, then back |
| FrameSync.PrologueBarrier | src/Graphics/DirectX12/Renderer.cpp:94-107 | the commands before the draw hold a single barrier, PRESENT to RENDER_TARGET on the current target |
| FrameSync.EpilogueBarrier | src/Graphics/DirectX12/Renderer.cpp:144-147 | the commands after the draw hold a single barrier, RENDER_TARGET to PRESENT on the same target |
| FrameSync.FrameClearsIffAsked | src/Graphics/DirectX12/Renderer.cpp:110-118 | a frame clears once, on the descriptor it binds, exactly when ShouldClear is set, and never otherwise |
| FrameSync.RtvDescriptor | src/Graphics/DirectX12/Renderer.cpp:110-111 | the handle of buffer i is the heap start plus i descriptor increments, as the view loop advances it (lines 383-392) |
| FrameSync.RtvDescriptorsIncrease | src/Graphics/DirectX12/Renderer.cpp:382-393 | with a positive increment, buffers get distinct, increasing descriptors exactly (j - i) increments apart |
| FrameSync.BufferViewCalls | src/Graphics/DirectX12/Renderer.cpp:385-393 | for each remaining buffer, GetBuffer, then the crash on failure or the view at its descriptor |
| FrameSync.ViewCalls | src/Graphics/DirectX12/Renderer.cpp:365-394 | a null device or swap chain gives one fatal line; otherwise the two-descriptor heap, the crash if it fails, else the buffer loop |
| FrameSync.BufferViewsExit | src/Graphics/DirectX12/Renderer.cpp:382-393 | the view loop ends the process iff some remaining GetBuffer fails |
| FrameSync.ViewCallsExit | src/Graphics/DirectX12/Renderer.cpp:365-394 | CreateRenderTargetViews ends the process iff it passes the null check and then a heap creation or a GetBuffer fails |
| FrameSync.BufferViewsAt | src/Graphics/DirectX12/Renderer.cpp:382-393 | when every buffer is obtained, the loop issues two calls per buffer: GetBuffer(i), then the view of buffer i at heap start + i increments |
| FrameSync.ViewsAtRtvDescriptor | src/Graphics/DirectX12/Renderer.cpp:382-393 | every view the loop creates is of some buffer k at the descriptor of slot k |
| FrameSync.FenceCalls | src/Graphics/DirectX12/Renderer.cpp:36-46 | the fence creation, then a fatal line without exit when it fails |
| FrameSync.CleanupCalls | src/Graphics/DirectX12/Renderer.cpp:358-362 | a release iff there is a heap |
| FrameSync.ReleasedTargets | src/Renderer/DirectX12/RendererDirectX12.cpp:581-596 | dropping the render targets keeps the array length and nulls every slot |
| FrameSync.CleanupIdempotent | src/Renderer/DirectX12/RendererDirectX12.cpp:581-596 | cleanup twice is cleanup once: the second run releases nothing and changes nothing; cleanup issues a release iff the heap is present |
| VertexLayout.InputLayoutMatchesVertex | src/Scene/Entities/TriangleEntity.cpp:116-119 | the input layout is packed: POSITION at 0 and COLOR at 12, the size of the three-float position, so one element covers sizeof(Vertex) (src/Graphics/DirectX12/Vertex.h:13-17) |
| VertexLayout.VertexBufferView | src/Entities/TriangleEntity.cpp:40-45 | the bound view covers the three-vertex array with a stride of sizeof(Vertex) |
| Entities.RootSignatureCalls | src/Entities/TriangleEntity.cpp:54-75 | serialization, then, when it passed its check, the creation of the root signature, each followed by the crash on failure |
| Entities.ShaderCalls | src/Entities/TriangleEntity.cpp:153-175 | the vertex shader's compilation, then the crash on failure or the pixel shader's compilation, itself followed by the crash on failure |
| Entities.PipelineCalls | src/Entities/TriangleEntity.cpp:77-151 | one pipeline creation from the signature, both compiled shaders and the two-element layout, followed by the crash on failure |
| Entities.VertexBufferCalls | src/Entities/TriangleEntity.cpp:177-213 | the buffer's creation, then the crash on failure or the map, then the crash on failure or the unmap |
| Entities.ResourceCreateCalls | src/Entities/TriangleEntity.cpp:23-29 | root signature, shaders, pipeline and vertex buffer, each part only when every earlier part passed |
| Entities.DrawCalls | src/Entities/TriangleEntity.cpp:31-52 | pipeline, root signature, vertex view, TRIANGLELIST, DrawInstanced(3, 1, 0, 0) |
| Entities.ResourceCreateOrder | src/Entities/TriangleEntity.cpp:23-29 | a successful OnResourceCreate issues root signature serialization and creation, both shader compilations, the pipeline from that signature and those shaders with the two-element layout, then the vertex buffer's creation, map and unmap; it ends the process iff some check fails, and then as its last call |
| Entities.DrawContract | src/Entities/TriangleEntity.cpp:31-52 | the draw sets pipeline, root signature, the whole-array vertex view, TRIANGLELIST, then DrawInstanced(3, 1, 0, 0); it binds no constant buffer, issues no barrier or clear, and reads only vertices inside the bound buffer |
| Entities.TriangleEntity.constructor | src/Entities/TriangleEntity.h:34-38 | all entity handles start null |
| Entities.TriangleEntity.CheckHandle | src/Entities/TriangleEntity.cpp:8-21 | nothing on success; a fatal line and a breakpoint on failure, and an exit iff shouldCrash |
| Entities.TriangleEntity.CreateRootSignature | src/Entities/TriangleEntity.cpp:54-75 | serializes a root signature with no parameters and no static samplers and creates it, each checked; stores the signature when both pass |
| Entities.TriangleEntity.CreateShaders | src/Entities/TriangleEntity.cpp:153-175 | compiles the vertex then the pixel shader, each checked, and stores both blobs when both pass |
| Entities.TriangleEntity.CreatePipelineState | src/Entities/TriangleEntity.cpp:77-151 | creates the pipeline from the stored signature, both shaders and the input layout, checked, and stores it |
| Entities.TriangleEntity.CreateVertexBuffer | src/Entities/TriangleEntity.cpp:177-213 | creates the vertex buffer, maps and unmaps it; the creation and the map are checked, and the entity keeps the created buffer |
| Entities.TriangleEntity.OnResourceCreate | src/Entities/TriangleEntity.cpp:23-29 | the four creation steps in order; the process ends iff a check fails; on success every handle holds what Direct3D returned |
| Entities.TriangleEntity.CreatePipelineAndBuffer | src/Entities/TriangleEntity.cpp:27-28 | the pipeline, then, only when it passed, the vertex buffer |
| Entities.TriangleEntity.OnRender | src/Entities/TriangleEntity.cpp:31-52 | records exactly the draw calls over the entity's own pipeline, signature and vertex buffer, and does not end the process |
| SceneEntities.FileExist | src/Platform/Platform.h:81-86 | FileExist answers true exactly when the file's attributes cannot be read, that is when it is missing |
| SceneEntities.LoadShaderCalls | src/Graphics/DirectX12/Tools.h:24-53 | one load: the load call, then a fatal line, breakpoint and exit on the first of a missing file, a failed open, a short read (src/Platform/Platform.h:95-126) or a failed D3DCreateBlob |
| SceneEntities.LoadShaderOutcome | src/Graphics/DirectX12/Tools.h:24-53 | a load issues only its own call when the file is present, opened, fully read and a blob is created; otherwise it ends with the crash; it exits iff one of those fails, so a missing file always ends the process |
| SceneEntities.LoadShaderByteCode | src/Graphics/DirectX12/Tools.h:24-53 | issues exactly LoadShaderCalls; the process has ended iff the load failed; on success the out-pointer holds the created blob |
| SceneEntities.ShaderCalls | src/Scene/Entities/TriangleEntity.cpp:189-205 | the vertex shader's load, then the pixel shader's only when the vertex load did not end the process |
| SceneEntities.RootSignatureCalls | src/Scene/Entities/TriangleEntity.cpp:85-112 | serialization, then, when it passed its check, the creation of the root signature, each followed by the crash on failure |
| SceneEntities.PipelineCalls | src/Scene/Entities/TriangleEntity.cpp:114-187 | one pipeline creation from the signature, both loaded blobs and the input layout, followed by the crash on failure |
| SceneEntities.VertexBufferCalls | src/Scene/Entities/TriangleEntity.cpp:207-247 | the buffer's creation, then the crash on failure or the map, then the crash on failure or the unmap |
| SceneEntities.ResourceCreateCalls | src/Scene/Entities/TriangleEntity.cpp:33-40 | root signature, shaders, pipeline, vertex buffer and constant buffers, each part only when every earlier part passed |
| SceneEntities.DrawCalls | src/Scene/Entities/TriangleEntity.cpp:61-82 | pipeline, root signature, vertex view, constant buffer at root parameter 0, TRIANGLELIST, DrawInstanced(3, 1, 0, 0) |
| SceneEntities.RenderCalls | src/Scene/Entities/TriangleEntity.cpp:47-83 | the constant buffer's map and unmap, then the draw calls over that buffer |
| SceneEntities.ConstantBufferCalls | src/Scene/Entities/TriangleEntity.cpp:270-279 | one constant-buffer creation per back buffer, each of the payload's size |
| SceneEntities.ResourceCreateOrder | src/Scene/Entities/TriangleEntity.cpp:33-40 | a successful OnResourceCreate issues root signature, both shader loads, the pipeline from that signature and the loaded blobs, the vertex buffer and one constant buffer per back buffer, in that order; it ends the process iff some check fails or a shader load fails (src/Graphics/DirectX12/Tools.h:27-46), and then as its last call |
| SceneEntities.RenderContract | src/Scene/Entities/TriangleEntity.cpp:47-83 | OnRender maps, unmaps and binds only the given constant buffer, at root parameter 0, between the vertex view and the topology, then DrawInstanced(3, 1, 0, 0) within the bound buffer; no barrier and no clear |
| SceneEntities.TriangleEntity.constructor | src/Scene/Entities/TriangleEntity.h:22-40 | frame 0, both constant-buffer slots and every handle null |
| SceneEntities.TriangleEntity.OnUpdate | src/Scene/Entities/TriangleEntity.cpp:42-45 | stores the frame number and changes nothing else |
| SceneEntities.TriangleEntity.CreateRootSignature | src/Scene/Entities/TriangleEntity.cpp:85-112 | serializes a root signature with the single constant-buffer view b0 and no static samplers and creates it, each checked; stores the signature when both pass |
| SceneEntities.TriangleEntity.CreateShaders | src/Scene/Entities/TriangleEntity.cpp:189-205 | loads the vertex, then the pixel shader blob through LoadShaderByteCode; the process ends iff one of the two loads fails, and the pixel shader is not attempted after a failed vertex load; on success both blobs are stored |
| SceneEntities.TriangleEntity.CreatePipelineState | src/Scene/Entities/TriangleEntity.cpp:114-187 | creates the pipeline from the stored signature and both blobs with the input layout, checked, and stores it |
| SceneEntities.TriangleEntity.CreateVertexBuffer | src/Scene/Entities/TriangleEntity.cpp:207-247 | creates, maps and unmaps the vertex buffer; the creation and the map are checked |
| SceneEntities.TriangleEntity.CreateConstantBuffers | src/Scene/Entities/TriangleEntity.cpp:249-280 | slot i receives the i-th created buffer for each i below the back-buffer count (at most the two slots); the other slots keep their value |
| SceneEntities.TriangleEntity.OnResourceCreate | src/Scene/Entities/TriangleEntity.cpp:33-40 | the five creation steps in order; the process ends iff a check or a shader load fails; on success every handle and both blobs hold what Direct3D and the loads returned |
| SceneEntities.TriangleEntity.OnRender | src/Scene/Entities/TriangleEntity.cpp:47-83 | records exactly the render calls over the constant buffer of the current back buffer |
| SceneEntities.TriangleEntity.OnShutdown | src/Scene/Entities/TriangleEntity.cpp:15-31 | deletes both shader blobs, and nulls root signature, pipeline, vertex buffer and both constant-buffer slots |
| Graphics.CreationSteps | src/Graphics/DirectX12/Renderer.cpp:24-26 | device, command interfaces and swap chain, in that order |
| Graphics.InitializeCalls | src/Graphics/DirectX12/Renderer.cpp:17-34 | the creation steps, the view calls, then, unless the views ended the process, the fence and the triangle's resource creation |
| Graphics.RenderedFrame | src/Graphics/DirectX12/Renderer.cpp:94-160 | a frame of the newer renderer starts its list with no pipeline, holds the barrier pair on its target, clears iff asked, and draws within the bound buffer |
| Graphics.RenderBindsCreatedView | src/Graphics/DirectX12/Renderer.cpp:110-111 | the target and descriptor Render binds for slot i are those CreateRenderTargetViews gave buffer i (lines 382-393) |
| Graphics.Renderer.Fence | src/Graphics/DirectX12/Renderer.h:67-72 | the index and the two fence values form a valid fence state |
| Graphics.Renderer.HoldsViews | src/Graphics/DirectX12/Renderer.cpp:378-393 | the heap, its first handle and target i are what a complete view creation stored: the created heap and swap-chain buffer i |
| Graphics.Renderer.constructor | src/Graphics/DirectX12/Renderer.h:65-92 | index 0, fence values {1, 1}, frame counter 0, ShouldRender and ShouldClear true, no frame in flight, size 0, two null allocators and targets, every handle null |
| Graphics.Renderer.WaitForGPU | src/Graphics/DirectX12/Renderer.cpp:48-82 | the fence state becomes Wait of the old one and the log gets exactly WaitCalls; never exits |
| Graphics.Renderer.CleanupRenderTargetViews | src/Graphics/DirectX12/Renderer.cpp:348-363 | every render target null and the heap released and null |
| Graphics.Renderer.CreateRenderTargetViews | src/Graphics/DirectX12/Renderer.cpp:365-394 | exactly ViewCalls: a null device or swap chain is logged and changes nothing; otherwise a two-descriptor heap, and each target i is swap-chain buffer i with its view at heap start + i increments; exits iff a check fails |
| Graphics.Renderer.CreateBufferViews | src/Graphics/DirectX12/Renderer.cpp:382-393 | the loop issues exactly BufferViewCalls, exits iff some GetBuffer fails, and otherwise stores every buffer |
| Graphics.Renderer.Initialize | src/Graphics/DirectX12/Renderer.cpp:17-34 | stores window and size, then device, interfaces, swap chain, views, fence, triangle, in that order; with the creation steps taken to succeed, exits iff the views or the triangle fail a check; otherwise every handle holds its creation's result; when the views succeed, the heap, its start and every render target i (swap-chain buffer i) are those of the views, and the RTV increment is the device's; a missing swap chain leaves the views as they were |
| Graphics.Renderer.SetUp | src/Graphics/DirectX12/Renderer.cpp:24-33 | the steps of Initialize after the window and size are stored: device, interfaces, swap chain and views, then the fence and the triangle unless the views exited; the same exit condition, handles, RTV increment and view state as Initialize |
| Graphics.Renderer.FinishInitialize | src/Graphics/DirectX12/Renderer.cpp:29-33 | the fence, then a new triangle creating its resources |
| Graphics.Renderer.RunCreationSteps | src/Graphics/DirectX12/Renderer.cpp:24-26 | device, command interfaces and swap chain in order, and the handles they produce |
| Graphics.Renderer.CreateDeviceAndViews | src/Graphics/DirectX12/Renderer.cpp:24-27 | the creation steps, then exactly the view calls on the swap chain they produced; with the creation steps taken to succeed, the process exits iff creating the views fails; when the views succeed, the heap, its start and every render target i (swap-chain buffer i) are those of the views, and the RTV increment is the device's; a missing swap chain leaves the views as they were |
| Graphics.Renderer.CreateFrameFence | src/Graphics/DirectX12/Renderer.cpp:36-46 | a failed fence creation is logged without exiting; the fence is stored |
| Graphics.Renderer.CreateTriangle | src/Graphics/DirectX12/Renderer.cpp:32-33 | a fresh legacy triangle entity runs OnResourceCreate on the device |
| Graphics.Renderer.Render | src/Graphics/DirectX12/Renderer.cpp:84-167 | with ShouldRender off, nothing is issued and nothing changes; otherwise wait, the frame commands for the adopted slot with the entity's draw, execute, present(1, 0), wait, and the frame counter + 1 modulo 2^32 |
| Graphics.Renderer.RecordFrame | src/Graphics/DirectX12/Renderer.cpp:94-160 | the commands between the two waits, on the target and descriptor of the current slot |
| Graphics.Renderer.Resize | src/Graphics/DirectX12/Renderer.cpp:169-200 | a null swap chain is logged and changes nothing, heap, heap start and targets included; an unchanged size is a no-op on the same fields; otherwise stores the size, then wait, cleanup, ResizeBuffers(2, w, h), views, wait, ending with ShouldRender true; the heap, its start and every target are then those of the new views when they are complete, and null targets and heap when the device is missing |
| Graphics.Renderer.Reconfigure | src/Graphics/DirectX12/Renderer.cpp:187-199 | the wait, rebuild, wait sequence with the fence state threaded through both waits; afterwards the heap, its start and every target are those of the new views when they are complete, and the targets and heap are null when the device is missing |
| Graphics.Renderer.RebuildViews | src/Graphics/DirectX12/Renderer.cpp:190-195 | cleanup, ResizeBuffers(2, w, h), then the views for the new size; the renderer then holds those views when they are complete, and only the released targets and a null heap when the device or swap chain is missing |
| Adapters.IsSoftware | src/Renderer/DirectX12/RendererDirectX12.cpp:485-488 | an adapter is skipped iff its flags carry DXGI_ADAPTER_FLAG_SOFTWARE |
| Adapters.Suitable | src/Renderer/DirectX12/RendererDirectX12.cpp:485-491 | the search accepts a hardware adapter that passes the 12_0 probe |
| Adapters.EnumerationCalls | src/Renderer/DirectX12/RendererDirectX12.cpp:480-514 | each step enumerates one index; past the last adapter the loop ends; a software adapter is skipped; a hardware adapter is probed and, when it passes, reported with its class, ending the loop |
| Adapters.SelectedAdapter | src/Renderer/DirectX12/RendererDirectX12.cpp:480-516 | the handle of the first suitable adapter, or null when the enumeration runs out |
| Adapters.SearchCalls | src/Renderer/DirectX12/RendererDirectX12.cpp:469-517 | a failed factory cast gives one fatal line; otherwise the enumeration from index 0 |
| Adapters.AdapterAfterSearch | src/Renderer/DirectX12/RendererDirectX12.cpp:469-517 | the stored adapter is untouched after a failed cast and is the selection otherwise |
| Adapters.TryToDeterminePerformanceClass | src/Renderer/DirectX12/RendererDirectX12.cpp:629-642 | NVIDIA and AMD iff Dedicated, Intel iff Integrated, every other vendor iff Unknown |
| Adapters.FirstSuitableFrom | src/Renderer/DirectX12/RendererDirectX12.cpp:480-514 | the index found is the first one at or after i that is hardware and passes the 12_0 probe, or the end when there is none |
| Adapters.EnumeratesUpToSelection | src/Renderer/DirectX12/RendererDirectX12.cpp:480-514 | the loop enumerates exactly the indices up to the selected adapter, or one past the last adapter when none is suitable, so it stops at the selection |
| Adapters.ProbesHardwareOnly | src/Renderer/DirectX12/RendererDirectX12.cpp:485-491 | the feature-level probe runs exactly on the hardware adapters up to the selection, never on a software adapter |
| Adapters.ReportsSelectionOnly | src/Renderer/DirectX12/RendererDirectX12.cpp:491-512 | exactly one adapter is reported, the selected one, and only when there is one |
| Adapters.EnumerationEndsWithClass | src/Renderer/DirectX12/RendererDirectX12.cpp:497-512 | a successful search ends by reporting the selected adapter's performance class; a failed one ends on the "not found" enumeration |
| Adapters.FirstSuitableIs | src/Renderer/DirectX12/RendererDirectX12.cpp:480-514 | any index that every earlier adapter fails and that itself passes is the first suitable one |
| Adapters.SelectedIsFirstSuitable | src/Renderer/DirectX12/RendererDirectX12.cpp:469-517 | with no suitable adapter nothing is stored; otherwise the stored adapter is the first suitable one, which is not a software adapter |
| LegacyRenderer.DeviceCalls | src/Renderer/DirectX12/RendererDirectX12.cpp:435-467 | factory creation, a fatal line and the end of the step when it fails; otherwise the search and the device creation on the adapter the search left, with a fatal line when that fails |
| LegacyRenderer.TriangleSteps | src/Renderer/DirectX12/RendererDirectX12.cpp:68-71 | root signature, shaders, pipeline state and vertex buffer setup, in that order |
| LegacyRenderer.InitializeCalls | src/Renderer/DirectX12/RendererDirectX12.cpp:54-72 | the device calls, interfaces and swap chain, the view calls, then, unless the views ended the process, the fence and the triangle steps |
| LegacyRenderer.DrawCalls | src/Renderer/DirectX12/RendererDirectX12.cpp:173-187 | root signature, vertex view, TRIANGLELIST, DrawInstanced(3, 1, 0, 0) |
| LegacyRenderer.RenderedFrame | src/Renderer/DirectX12/RendererDirectX12.cpp:137-193 | this renderer's frame starts with the triangle's pipeline, never clears, holds the barrier pair, and draws TRIANGLELIST with DrawInstanced(3, 1, 0, 0) inside the bound buffer |
| LegacyRenderer.DrawContract | src/Renderer/DirectX12/RendererDirectX12.cpp:173-187 | the triangle draw issues no barrier and no clear, and DrawInstanced(3, 1, 0, 0) reads only vertices inside the buffer bound just before it |
| LegacyRenderer.RendererDirectX12.Fence | src/Renderer/DirectX12/RendererDirectX12.cpp:86-120 | the index and the two fence values form a valid fence state |
| LegacyRenderer.RendererDirectX12.HoldsViews | src/Renderer/DirectX12/RendererDirectX12.cpp:598-627 | the heap, its first handle and target i are what a complete view creation stored: the created heap and swap-chain buffer i |
| LegacyRenderer.RendererDirectX12.constructor | src/Renderer/DirectX12/RendererDirectX12.h:23-27 | factory, device and adapter null (the constructor at src/Renderer/DirectX12/RendererDirectX12.cpp:5-8 sets only the logger); index 0, fence values {1, 1}, frame counter 0, ShouldRender on and the other handles null are assumed initial values, see Left out |
| LegacyRenderer.RendererDirectX12.CheckHandle | src/Renderer/DirectX12/RendererDirectX12.cpp:644-657 | nothing on success; a fatal line and a breakpoint on failure, and an exit iff shouldCrash |
| LegacyRenderer.RendererDirectX12.FindSuitableHardwareAdapter | src/Renderer/DirectX12/RendererDirectX12.cpp:469-517 | a failed factory cast is logged and leaves the adapter as it was; otherwise exactly the enumeration calls, and the adapter becomes the first suitable one or null |
| LegacyRenderer.RendererDirectX12.CreateDevice | src/Renderer/DirectX12/RendererDirectX12.cpp:435-467 | creates the factory (a failure is logged and ends the step), searches for the adapter and creates the device on it |
| LegacyRenderer.RendererDirectX12.CreateDeviceAndInterfaces | src/Renderer/DirectX12/RendererDirectX12.cpp:61-63 | the device steps of Init, then the command-interface and swap-chain steps, leaving the device and adapter those steps chose |
| LegacyRenderer.RendererDirectX12.CreateDeviceAndViews | src/Renderer/DirectX12/RendererDirectX12.cpp:61-64 | the device, interface and swap-chain steps, then exactly the view calls on that swap chain; with the interface and swap-chain steps taken to succeed, the process exits iff creating the views fails, and the adapter is the one the search chose; when the views succeed, the heap, its start and every render target i (swap-chain buffer i) are those of the views, and the RTV increment is the device's; a missing swap chain leaves the views as they were |
| LegacyRenderer.RendererDirectX12.WaitForGPU | src/Renderer/DirectX12/RendererDirectX12.cpp:86-120 | the fence state becomes Wait of the old one and the log gets exactly WaitCalls; never exits |
| LegacyRenderer.RendererDirectX12.CleanupRenderTargetViews | src/Renderer/DirectX12/RendererDirectX12.cpp:581-596 | every render target null, the heap released and null, fence values untouched |
| LegacyRenderer.RendererDirectX12.CreateRenderTargetViews | src/Renderer/DirectX12/RendererDirectX12.cpp:598-627 | exactly ViewCalls: a null device or swap chain is logged and changes nothing; otherwise a two-descriptor heap, and each target i is swap-chain buffer i with its view at heap start + i increments |
| LegacyRenderer.RendererDirectX12.CreateBufferViews | src/Renderer/DirectX12/RendererDirectX12.cpp:615-626 | the loop issues exactly BufferViewCalls, exits iff some GetBuffer fails, and otherwise stores every buffer |
| LegacyRenderer.RendererDirectX12.Initialize | src/Renderer/DirectX12/RendererDirectX12.cpp:54-72 | stores window and size, then device, command interfaces, swap chain, views, fence and the four triangle steps, in that order; with the interface and swap-chain steps taken to succeed, exits iff the views fail a check; otherwise the queue, allocator, list, swap chain, fence and triangle objects hold their steps' results; when the views succeed, the heap, its start and every render target i (swap-chain buffer i) are those of the views, and the RTV increment is the device's; a missing swap chain leaves the views as they were |
| LegacyRenderer.RendererDirectX12.SetUp | src/Renderer/DirectX12/RendererDirectX12.cpp:61-71 | the steps of Initialize after the window and size are stored: device, command interfaces, swap chain and views, then the fence and the four triangle steps unless the views exited; the same exit condition, handles, RTV increment and view state as Initialize |
| LegacyRenderer.RendererDirectX12.CreateInterfaces | src/Renderer/DirectX12/RendererDirectX12.cpp:62-63 | command interfaces then swap chain, and the handles they produce |
| LegacyRenderer.RendererDirectX12.FinishInitialize | src/Renderer/DirectX12/RendererDirectX12.cpp:66-71 | the fence, then the triangle's root signature, shaders, pipeline and vertex buffer |
| LegacyRenderer.RendererDirectX12.Render | src/Renderer/DirectX12/RendererDirectX12.cpp:122-213 | with ShouldRender off, nothing is issued and nothing changes; otherwise wait, the frame with the inline draw and no clear, execute, present(1, 0), wait, and the frame counter + 1 modulo 2^32 |
| LegacyRenderer.RendererDirectX12.RecordFrame | src/Renderer/DirectX12/RendererDirectX12.cpp:132-206 | the commands between the two waits, on the target and descriptor of the current slot |
| LegacyRenderer.RendererDirectX12.Resize | src/Renderer/DirectX12/RendererDirectX12.cpp:402-433 | a null swap chain is logged and changes nothing, heap, heap start and targets included; an unchanged size is a no-op on the same fields; otherwise stores the size, then wait, cleanup, ResizeBuffers(2, w, h), views, wait, ending with ShouldRender true; the heap, its start and every target are then those of the new views when they are complete, and null targets and heap when the device is missing |
| LegacyRenderer.RendererDirectX12.Reconfigure | src/Renderer/DirectX12/RendererDirectX12.cpp:420-432 | the wait, rebuild, wait sequence with the fence state threaded through both waits; afterwards the heap, its start and every target are those of the new views when they are complete, and the targets and heap are null when the device is missing |
| LegacyRenderer.RendererDirectX12.RebuildViews | src/Renderer/DirectX12/RendererDirectX12.cpp:422-428 | cleanup, ResizeBuffers(2, w, h), then the views for the new size; the renderer then holds those views when they are complete, and only the released targets and a null heap when the device or swap chain is missing |
| Scene.Without | src/Scene/SceneNode.h:139-142 | erase-remove leaves no occurrence of the element, and changes nothing when it is absent |
| Scene.WithoutKeepsOthers | src/Scene/SceneGraph.h:43-49 | erase-remove keeps every other element with its multiplicity and drops exactly the occurrences of the removed one |
| Scene.WithoutConcat | src/Scene/SceneNode.h:139-142 | erase-remove keeps the relative order: removing from a concatenation removes from each part |
| Scene.Visits | src/Scene/SceneNode.h:36-47 | the entities a walk reaches: the node's own entity when it is non-null, then each child's walk in vector order |
| Scene.ChildVisits | src/Scene/SceneNode.h:43-46 | the walks of the first n children, one after the other |
| Scene.RootVisits | src/Core/Window.cpp:45-52 | the walks of the roots, in order |
| Scene.Notifications | src/Scene/SceneNode.h:36-81 | one callback call per reached entity, in order, all with the same argument |
| Scene.VisitsHaveEntities | src/Scene/SceneNode.h:36-47 | a walk never calls a null entity |
| Scene.VisitsReachEveryEntity | src/Scene/SceneNode.h:36-81 | every node of the subtree that holds an entity has that entity called in the walk, including nodes under entity-less nodes |
| Scene.NotificationsAt | src/Scene/SceneNode.h:36-81 | a walk makes one call per visited entity, and the k-th call passes the same argument to the k-th visited entity |
| Scene.NotificationsConcat | src/Scene/SceneNode.h:36-81 | the calls of a walk over two concatenated sequences are the calls of each, in order |
| Scene.NotificationsAppend | src/Scene/SceneNode.h:36-81 | a log holding the walk over one sequence followed by the walk over the next holds the walk over their concatenation |
| Scene.SceneNode.constructor | src/Scene/SceneNode.h:20 | a new node holds the given entity, a null parent and no children |
| Scene.SceneNode.AddChild | src/Scene/SceneNode.h:130-133 | appends the child at the end, without deduplicating and without touching the child's parent |
| Scene.SceneNode.RemoveChild | src/Scene/SceneNode.h:139-142 | removes every occurrence of the child and keeps the rest in order |
| Scene.SceneNode.GetParent | src/Scene/SceneNode.h:121-124 | returns the node's parent link, null for a root; SetParent and AddNode state their effects through it |
| Scene.SceneNode.SetParent | src/Scene/SceneNode.h:87-115 | a null argument, the current parent, or the node itself changes nothing; otherwise the node leaves the old parent's children, takes the new parent and is appended to its children; only the node and the two parents' children vectors change, so every other parent link, the new parent's own included, is untouched |
| Scene.SceneNode.Walk | src/Scene/SceneNode.h:36-81 | the pre-order walk: own entity if any, then each child's walk in vector order |
| Scene.SceneNode.WalkChild | src/Scene/SceneNode.h:45 | one child's turn of the loop: exactly the walk of that child |
| Scene.SceneNode.WalkChildren | src/Scene/SceneNode.h:43-46 | the children's walks, one after the other in vector order |
| Scene.SceneNode.OnUpdate | src/Scene/SceneNode.h:36-47 | every visited entity gets OnUpdate with the same frame, in pre-order |
| Scene.SceneNode.OnRender | src/Scene/SceneNode.h:53-64 | every visited entity gets OnRender with the same command list, in pre-order |
| Scene.SceneNode.OnResourceCreate | src/Scene/SceneNode.h:70-81 | every visited entity gets OnResourceCreate with the same device, in pre-order |
| Scene.SceneGraph.constructor | src/Scene/SceneGraph.h:15 | a new graph has no roots |
| Scene.SceneGraph.AddNode | src/Scene/SceneGraph.h:31-37 | appends iff the node is non-null and has no parent, without deduplicating |
| Scene.SceneGraph.RemoveNode | src/Scene/SceneGraph.h:43-49 | removes every occurrence and keeps the order of the remaining roots; the node itself is untouched |
| Scene.DefaultSceneGraphFactory.Make | src/Scene/DefaultSceneGraphFactory.h:22-38 | a fresh graph with exactly two fresh, distinct roots: the first without an entity, the second holding the triangle; both parentless and childless |
| Scene.DefaultSceneVisits | src/Scene/DefaultSceneGraphFactory.h:22-38 | in the default scene the first root's walk reaches nothing and the second's reaches the triangle alone |
| Core.AsUInt | src/Core/Window.cpp:24 | an int passed as UINT is reduced modulo 2^32 |
| Core.AsInt | src/Core/Window.cpp:64-65 | a UINT stored in an int lands in the int range, congruent modulo 2^32 |
| Core.SizeConversionsRoundTrip | src/Core/Window.cpp:24-65 | a size that went from UINT to int and back, or from int to UINT and back, is unchanged |
| Core.PaintCalls | src/Core/Window.cpp:45-52 | for each root in order, the update walk with the frame number, then the render walk with the command list |
| Core.PaintUpdatesEveryEntity | src/Core/Window.cpp:41-55 | the updates of a paint are exactly the update walks of the roots in order, all with the paint's frame number |
| Core.PaintRendersEveryEntity | src/Core/Window.cpp:41-55 | the renders of a paint are exactly the render walks of the roots in order, all with the paint's command list |
| Core.PaintInterleavesRoots | src/Core/Window.cpp:47-51 | updates and renders alternate root by root: root one's update and render walks come before root two's update walk |
| Core.WindowProperties.constructor | src/Core/WindowProperties.h:10-26 | properties hold the given size and no window handle |
| Core.Window.constructor | src/Core/Window.cpp:5-8 | the window keeps the properties and the scene graph and has no renderer yet |
| Core.Window.OnCreate | src/Core/Window.cpp:18-34 | stores the handle, creates a renderer and initializes it with the window size as UINT before any resource creation; then, unless it exited or there is no graph, each root's resource-creation walk in order with the renderer's device |
| Core.Window.CreateRenderer | src/Core/Window.cpp:22-24 | a fresh renderer initialized with the given handle and size: its size is stored, the log gets exactly the Initialize calls, it exits iff Initialize does, and otherwise its device is the one created |
| Core.Window.CreateSceneResources | src/Core/Window.cpp:27-33 | the resource-creation walks of the roots, in order |
| Core.Window.OnPaint | src/Core/Window.cpp:41-55 | BeginFrame once, each root's update then render walk, EndFrame once with the same metadata, also without a scene graph |
| Core.Window.PaintRoots | src/Core/Window.cpp:45-52 | each root in order gets its update walk, then its render walk |
| Core.Window.PaintRoot | src/Core/Window.cpp:48-49 | one root of OnPaint gets its update walk, then its render walk, and nothing else is logged |
| Core.PaintStep | src/Core/Window.cpp:46-50 | the calls of the first i roots followed by the update and render walks of root i are the calls of the first i + 1 roots |
| Core.Window.OnSizeChange | src/Core/Window.cpp:62-71 | always stores the new size in the properties; without a renderer nothing else happens, with one its Resize runs |
| Core.Window.Destroy | src/Core/Window.cpp:10-16 | deletes the renderer iff there is one |
| Memory.AddSize | src/Platform/MemoryStatistics.cpp:11-12 | size_t addition: the exact sum while it fits, less 2^64 once it does not, always below 2^64 |
| Memory.MemoryStatistics.constructor | src/Platform/MemoryStatistics.h:15-18 | all four counters start at 0, so the pairs agree |
| Memory.MemoryStatistics.Allocation | src/Platform/MemoryStatistics.cpp:7-13 | adds the size to both allocation counters and leaves the deallocation counters; the pairs stay equal |
| Memory.MemoryStatistics.Deallocation | src/Platform/MemoryStatistics.cpp:15-21 | adds the size to both deallocation counters and leaves the allocation counters; the pairs stay equal |
| Memory.MemoryStatistics.PrintStats | src/Platform/MemoryStatistics.cpp:23-33 | logs the four counters in order, each current value equal to its total, and changes nothing |
| Memory.SumOver | src/Platform/Windows/Memory.h:34-45 | the sum of the sizes stored under a set of keys, independent of the order the map is walked in |
| Memory.SizeSum | src/Platform/Windows/Memory.h:34-45 | the total PrintStats reports, before its reduction to a size_t |
| Memory.SumAfterAdd | src/Platform/Windows/Memory.h:22-26 | recording a size under a pointer replaces that pointer's earlier size in the total and adds it once for a new pointer |
| Memory.SumAfterRemove | src/Platform/Windows/Memory.h:28-32 | forgetting a pointer takes exactly its size out of the total |
| Memory.AddThenRemoveRestores | src/Platform/Windows/Memory.h:74-94 | recording a new pointer and forgetting it again restores the map |
| Memory.MemoryTracker.constructor | src/Platform/Windows/Memory.cpp:3-6 | a new tracker holds no allocation |
| Memory.MemoryTracker.Add | src/Platform/Windows/Memory.h:22-26 | the map gets the size under the pointer, overwriting an earlier entry, other keys unchanged (also src/Platform/Windows/Memory.cpp:8-12) |
| Memory.MemoryTracker.Remove | src/Platform/Windows/Memory.h:28-32 | the pointer is erased, other keys unchanged, and an absent pointer is a no-op (also src/Platform/Windows/Memory.cpp:14-18) |
| Memory.MemoryTracker.PrintStats | src/Platform/Windows/Memory.h:34-45 | the total logged is the sum of all recorded sizes modulo 2^64, and the map is unchanged (also src/Platform/Windows/Memory.cpp:20-31) |
| Memory.WindowsAllocator.constructor | src/Platform/Windows/Memory.h:60-63 | the allocator owns a new, empty tracker |
| Memory.WindowsAllocator.Allocate | src/Platform/Windows/Memory.h:74-86 | returns VirtualAlloc's pointer and records it with the size, even a null one (also src/Platform/Windows/Memory.cpp:51-62) |
| Memory.WindowsAllocator.Deallocate | src/Platform/Windows/Memory.h:88-94 | forgets the pointer before it is freed (also src/Platform/Windows/Memory.cpp:64-70) |
| Memory.WindowsAllocator.GetTracker | src/Platform/Windows/Memory.h:96-102 | returns the allocator's own tracker (also src/Platform/Windows/Memory.cpp:72-78) |

## Left out

- Direct3D, DXGI and Win32 themselves. Every answer they give is a parameter, so the model shows what the CPU asks for and never what the GPU does.
- Pointer and COM reference semantics. Handles are values, and `Release`/`Reset` becomes a null handle plus a `Release` call.
- The internals of CreateDevice, CreateCommandInterfaces, CreateSwapChain and CreateFrameFence in the newer renderer (src/Graphics/DirectX12/Renderer.cpp:202-346). They are represented only by the order of their `Step` calls and the handles they produce; that renderer's own adapter search is not modelled.
- The internals of the older renderer's four `Triangle*` setup steps (src/Renderer/DirectX12/RendererDirectX12.cpp:215-400). They are represented only by step order and resulting handles, like the creation steps above.
- The older renderer's CreateCommandInterfaces and CreateSwapChain. They are represented only by step order and resulting handles.
- Graphics.Renderer.Initialize: the CheckHandle exits in CreateCommandInterfaces and CreateSwapChain (src/Graphics/DirectX12/Renderer.cpp:302, 306, 310, 340, 343) and the Fatal-and-return paths of CreateDevice, the adapter search, CreateCommandInterfaces and CreateSwapChain (lines 216, 229, 243, 290, 320) are not modelled; those steps always succeed with the handles passed in, so "exits iff" is relative to them. The device being non-null is a precondition, because CreateFrameFence and the triangle dereference it.
- Graphics.Renderer.CreateDeviceAndViews: the same creation-step exits and Fatal returns are not modelled, so its "exits iff the views fail" assumes device, command interfaces and swap chain were created.
- LegacyRenderer.RendererDirectX12.Initialize: the CheckHandle exits in CreateCommandInterfaces and CreateSwapChain (src/Renderer/DirectX12/RendererDirectX12.cpp:535, 539, 543, 573, 576) and their Fatal-and-return paths (lines 523, 553) are not modelled, so "exits iff" is relative to those steps succeeding. CreateDevice's own Fatal returns (lines 449, 462, 476) are modelled, but a created factory and a non-null device are preconditions, because CreateFrameFence dereferences the device.
- LegacyRenderer.RendererDirectX12.CreateDeviceAndViews: the same interface and swap-chain exits are not modelled, so its "exits iff the views fail" assumes those steps succeeded.
- LegacyRenderer.RendererDirectX12.constructor: src/Renderer/DirectX12/RendererDirectX12.h:23-27 declares only the logger, factory, device and adapter (and an `Initialize` without the size), so the members the .cpp uses have no declared initial value anywhere in the repository. The fence values {1, 1}, index 0, frame counter 0 and ShouldRender true are taken from the newer renderer's initializers (src/Graphics/DirectX12/Renderer.h:65-92); ReplayCounts and ReplayWaitIsBounded hold for this renderer under that assumption.
- SceneEntities.TriangleEntity.OnRender: the source does not check the result of Map and writes through the mapped pointer (src/Scene/Entities/TriangleEntity.cpp:53-57). The model records Map as a call that always succeeds.
- Adapter descriptions. `GetDesc1`, adapter names and logged descriptions are folded into one `AdapterDesc` per index.
- Floating point: clear colours, viewport floats, vertex positions and colours, and the constant buffer's `Time` value. Only sizes and counts of float data are modelled.
- Copying vertex bytes into mapped memory. Only the map and unmap calls and the buffer sizes are modelled.
- Shaders. HLSL compilation in the older entity is a result passed in. For the scene entity, each shader file's outcome (present, opened, fully read, blob created) is a parameter; the bytes read, their copy into the blob and the buffer's release are not modelled.
- Logger output text, most `Logger::Message` calls and debug-only names (`SetName`). Only fatal lines (`Fatal`), the adapter search's two report lines (`ReportAdapter`, `ReportPerformanceClass`) and the values the two PrintStats methods log are recorded; every other message is dropped.
- The PIX diagnostics modules and the D3D12 debug layer (`BUILD_TYPE_DEBUG`).
- The `std::mutex` guards in MemoryTracker and MemoryStatistics. The model is sequential.
- Iteration order of `std::map`. The tracker's sum is taken over the key set and proved order-independent.
- Builds without `WINDOWS_ALLOCATOR_DEBUG_STATS`: there the allocator keeps no tracker and GetTracker returns null. The model is the stats-enabled build.
- `WINDOWS_ALLOCATOR_DEBUG_VERBOSE` logging.
- The global `operator new`/`operator delete` overrides and the allocator singleton.
- The allocator's destructor, which logs and frees its tracker.
- `VirtualAlloc` and `VirtualFree`. VirtualAlloc's result is a parameter.
- Destructors and their release order, other than the window's renderer deletion.
- Window.OnQuit and Window.OnSetCursor (Win32 messages only), the message loop and the application classes.
- `FrameMetadata` snapshots. Renderer.h declares `FrameMetadata { Frame, CommandList }` while Window.cpp reads `FrameCounter`, and FrameMetadata.h adds a back-buffer index. The model keeps both records (`Metadata.RendererFrameMetadata`, `Metadata.FrameMetadata`) and reads the frame number from the first.
- `Core.Window` takes its scene graph as a constructor argument because src/Core/Window.h declares no scene-graph member. The application sets it through `SetSceneGraph` (src/Core/Application.cpp:113-115).
- `Core.Window.constructor`: the source leaves the renderer pointer uninitialized, while the model starts it null. The destructor's null check only makes sense that way.
- `Core.Window.OnSizeChange`: its contract states the forwarding only partially, namely the stored sizes, the no-renderer case and the null-swap-chain case. The full call sequence is the renderer's own `Resize` contract.
- `Core.Window.OnPaint`: BeginFrame and EndFrame have no body in the source, so they are recorded as calls and the metadata is a parameter. That the metadata comes from BeginFrame is not modelled.
- Renderer.h and Renderer.cpp disagree on the command allocators. The header declares one allocator per buffer (src/Graphics/DirectX12/Renderer.h:86), but the method bodies use a single `CommandAllocator`. The model follows the bodies and keeps the two-slot array only as initial state.
- `Graphics.Renderer`'s triangle is the older `Entities::TriangleEntity`, as the calls in Renderer.cpp use its signatures. The newer scene entity is driven only through the scene walks.
- `Scene.SceneNode.AddChild` takes a non-null child. A null child pointer would be appended in the source and later dereferenced by the walks.
- `Scene.SceneNode.Walk`: the walk is stated against a ghost `Tree` that describes the heap nodes, so cyclic parent links, which SetParent does not rule out for descendants, are outside the walk's precondition.
- `Scene.DefaultSceneGraphFactory.Make` takes the triangle entity as an existing non-null handle instead of constructing it.
- Fence values are unbounded naturals, so the wrap-around of the 64-bit fence counter, which cannot be reached within any realistic run, is not modelled.
- The frame counter is modelled as a UINT and wraps modulo 2^32.
- `Memory.MemoryTracker.PrintStats` requires every recorded size to fit in a size_t, which holds for every size passed through `Allocate`.
