# D3D12 render-to-texture sample: a verified model of its frame loop

The sample draws a triangle into an offscreen texture and then samples that
texture onto a full-screen quad in the swap chain's back buffer. Two pieces of
logic sit under its Direct3D 12 calls, and this project models and verifies both:

- **`RenderTexture`** (`render_texture.dfy`). This is the offscreen surface. It
  is bound to a device and two CPU descriptor slots, sized to the window, and it
  tracks the resource state left by its last barrier. `SetDevice` validates, then
  binds. `SizeResources` and `SetWindow` create the texture and its two views.
  `ReleaseDevice` returns the surface to its constructed state. `TransitionTo`,
  `BeginScene` and `EndScene` record barriers whose before-state is always the
  tracked state.
- **`D3D12HelloTriangle`** (`hello_triangle.dfy`, `frame_recording.dfy`,
  `frame_layout.dfy`). This is the frame loop. It sets up two per-frame slots.
  Each slot has a shader-visible heap holding a CBV and an SRV, an upload buffer
  with a 256-byte constant-buffer view, an offscreen surface, and RTVs in a
  shared RTV heap. Each frame records one command list, executes it, presents,
  and waits on a fence. `OnDestroy` waits, then releases every slot.

The Direct3D objects are modelled in `gpu.dfy` as the renderer observes them:
- The command list is an append-only log of recorded commands.
- The device owns descriptor memory (a map from CPU handle to view) and hands out
  heap and resource identities.
- The fence is a counter: `completed` never passes the largest value signalled,
  and signalled values strictly increase.

`ApplyBarriers(log, r, s)` runs a log's barriers on resource `r` from state `s`.
It yields `None` as soon as a barrier's before-state differs from the state `r`
is in. The statements about resource states are made through it. `BarrierCount`
and the command-log lengths count barriers and commands directly.

The external answers are inputs of the operations that need them:
- the driver's format-support table, held by the device;
- whether an allocation succeeds;
- the value `GetCompletedValue` reports;
- the swap chain's current back-buffer index.

The main results:
- After init and after every frame, `HelloTriangle.Valid()` holds. In
  particular:
  - running everything executed so far leaves each swap-chain buffer in Present;
  - each surface ends in the state its `RenderTexture` tracks;
  - the GPU has reached every value signalled;
  - every slot's descriptors hold the views the frame loop relies on.
- Each frame records exactly `FrameCommands` for its slot:
  - the triangle draw targets the offscreen RTV while the surface is a render
    target;
  - the quad draw targets the swap-chain RTV while that buffer is a render
    target and the surface is shader-readable;
  - the back buffer's barriers are balanced Present → RenderTarget → Present.
- Every `ResetAllocator` in the trace comes after the GPU has completed the last submission.
- The RTV layout with the fixed offset 2 is sound exactly when there are two
  frames.

## Model

| member | source | states |
|---|---|---|
| Gpu.Fence.Signal | D3D12HelloTriangle.cpp:578-580 | a value is signalled only above every earlier one, so signalled values strictly increase and are never reused |
| Gpu.Fence.WaitFor | D3D12HelloTriangle.cpp:583-587 | returns once the GPU has reached the value; completed becomes the larger of its old value and the value |
| Gpu.Device.CheckFormatSupport | RenderTexture.cpp:37-41 | a stand-in for the driver's answer to the `CheckFeatureSupport` query that `SetDevice` makes here: the driver's format table is an input, and the query fails exactly for a format without an entry |
| Gpu.Fence.GetCompletedValue | D3D12HelloTriangle.cpp:583 | the reported value is where the GPU has got to: never below what was already completed and never past the last signal; it becomes the completed value |
| Gpu.CommandList.Reset | D3D12HelloTriangle.cpp:524 | only a closed list can be reset, and the reset starts an empty recording |
| FrameLayout.AlignedCbSize | D3D12HelloTriangle.cpp:231 | `(n + 255) & ~255` is computed in 64-bit `size_t` and stored in the UINT `SizeInBytes`; for a 32-bit n the result is a multiple of 256, at least n and less than n + 256 when n ≤ 0xFFFFFF00, and above that the truncation to 32 bits leaves 0 |
| FrameLayout.ShaderDataCbSize | D3D12HelloTriangle.cpp:231 | the CBV of the 16-byte ShaderData record is 256 bytes |
| FrameLayout.LayoutSound | D3D12HelloTriangle.cpp:249-261 | with two frames, the four RTV indices (swap-chain i, offscreen 2 + i) are distinct and inside the FrameCount * 2 heap; CBV 0 and SRV 1 are distinct and inside each 2-descriptor heap |
| FrameLayout.FixedBaseFitsOnlyTwoFrames | D3D12HelloTriangle.cpp:249-251 | the hard-coded offset 2 gives a sound RTV layout if and only if FrameCount is 2 (one frame: out of the heap; three or more: a swap-chain RTV overwrites an offscreen RTV) |
| FrameLayout.FrameCountBaseAlwaysSound | D3D12HelloTriangle.cpp:249-251 | an offset of FrameCount would be sound for every frame count |
| RenderTextures.BindCheck | RenderTexture.cpp:36-58 | SetDevice's validation passes iff the query succeeds, both the TEXTURE2D and RENDER_TARGET bits are set and both descriptors are non-null; each failure is reported exactly in its case, in the source's order |
| RenderTextures.Extent | RenderTexture.cpp:134-135 | `max(hi - lo, 1)`: the requested side is at least 1, and is the difference whenever that is at least 1 |
| RenderTextures.ResizeDecisionAsWritten | RenderTexture.cpp:68-74 | the decision as written: nothing to do iff the size is unchanged; out of range iff it changed and a stored side exceeds UINT32_MAX, whatever the requested size |
| RenderTextures.ResizeDecisionFor | RenderTexture.cpp:68-74 | nothing to do iff the size is unchanged; out of range iff it changed and a requested side exceeds UINT32_MAX; a resize implies both sides survive the UINT cast |
| RenderTextures.AsWrittenGuardAdmitsTruncatedHeight | RenderTexture.cpp:71-74 | the test as written (stored sizes) lets a 1 x (2^32 + 600) request through, whose height casts to 600, and afterwards refuses 800 x 600 |
| RenderTextures.GuardsAgreeOnRepresentableSizes | RenderTexture.cpp:68-74 | for stored sizes that fit a UINT, the written and the corrected tests agree iff the request is unchanged or fits a UINT |
| RenderTextures.RenderTexture.constructor | RenderTexture.cpp:13-22 | a new surface has no device, texture or descriptors, state Common, size 0 x 0, the given format and a zero clear colour |
| RenderTextures.RenderTexture.GetResource | RenderTexture.cpp:157-160 | the texture as a reference: null exactly when there is no texture, else that texture |
| RenderTextures.RenderTexture.GetCurrentState | RenderTexture.cpp:162-165 | the state the surface's last barrier (or its creation) left it in |
| RenderTextures.RenderTexture.GetFormat | RenderTexture.cpp:167-170 | the format given at construction |
| RenderTextures.RenderTexture.SetDevice | RenderTexture.cpp:24-64 | rebinding the same device and descriptors changes nothing (a fresh surface with a null device included); otherwise a bound device is released first, the result is BindCheck's, success stores exactly the device and the two handles, and failure assigns nothing |
| RenderTextures.RenderTexture.SizeResources | RenderTexture.cpp:66-112 | an unchanged size or an unbound surface changes nothing; a requested side above UINT32_MAX throws and changes nothing (the corrected test of the Findings row); otherwise the state is RenderTarget and, on success, a new texture of exactly w x h with the clear colour is created, its RTV and SRV are written into the two bound slots and the size is stored; on failure there is no texture and the size is 0 x 0 |
| RenderTextures.RenderTexture.ReleaseDevice | RenderTexture.cpp:114-123 | the surface is back in its constructed state with only the clear colour kept, so a second call changes nothing |
| RenderTextures.RenderTexture.TransitionTo | RenderTexture.cpp:125-129 | exactly one barrier from the tracked state to the new state is appended and the new state is tracked; a log that left the texture in the tracked state leaves it in the new one |
| RenderTextures.RenderTexture.SetWindow | RenderTexture.cpp:131-138 | sizes the surface to `max(right - left, 1)` x `max(bottom - top, 1)`, with SizeResources' contract |
| RenderTextures.RenderTexture.BeginScene | RenderTexture.cpp:140-145 | the surface ends a render target; one barrier is appended unless it already was one |
| RenderTextures.RenderTexture.EndScene | RenderTexture.cpp:147-150 | always exactly one barrier, to PixelShaderResource |
| RenderTextures.RenderTexture.SetClearColor | RenderTexture.cpp:152-155 | stores the clear colour and nothing else |
| RenderTextures.BeginSceneBarriers | RenderTexture.cpp:140-145 | at most one barrier, none iff the surface is already a render target, and running them leaves it a render target |
| RenderTextures.BeginSceneTwice | RenderTexture.cpp:140-145 | two BeginScene calls in a row record at most one barrier |
| RenderTextures.ResizeTwice | RenderTexture.cpp:66-69 | sizing a bound surface twice to the same size leaves one texture of that size; the second call passes and keeps it |
| FrameRecording.FrameTouchesOnlyItsResources | D3D12HelloTriangle.cpp:526-565 | a frame records no barrier on any resource other than its own surface and its own back buffer |
| FrameRecording.FrameBackBufferBalanced | D3D12HelloTriangle.cpp:550-565 | the frame's back buffer gets exactly two barriers and goes from Present back to Present |
| FrameRecording.FrameSurfaceEndsReadable | D3D12HelloTriangle.cpp:536-546 | whatever state the surface starts in, the frame leaves it PixelShaderResource |
| FrameRecording.FrameTriangleDraw | D3D12HelloTriangle.cpp:536-544 | the 3-vertex draw comes after the offscreen RTV (index 2 + slot) is set, with the surface a render target |
| FrameRecording.FrameQuadDraw | D3D12HelloTriangle.cpp:546-561 | the 6-vertex draw comes after the triangle draw and after the swap-chain RTV (index slot) is set, with the back buffer a render target and the surface shader-readable |
| FrameRecording.BackBuffersPresentAfterFrames | D3D12HelloTriangle.cpp:550-565 | after any sequence of frames, in any slots, every swap-chain buffer is in Present |
| HelloTriangleSample.RecordSetup | D3D12HelloTriangle.cpp:527-534 | appends the root signature, viewport, scissor and the slot's heap and table |
| HelloTriangleSample.RecordTrianglePass | D3D12HelloTriangle.cpp:537-546 | appends the triangle pass with the RTV 2 + slot descriptors into the RTV heap, and leaves the surface shader-readable |
| HelloTriangleSample.RecordQuadPass | D3D12HelloTriangle.cpp:550-565 | appends the quad pass with the RTV slot descriptors into the RTV heap, between the back buffer's two barriers |
| HelloTriangleSample.HelloTriangle.constructor | D3D12HelloTriangle.cpp:15-22 | frame index 0, no RTV heap, command list or fence yet; FrameCount slots, each with no heap, no buffer, no mapped record and no surface |
| HelloTriangleSample.HelloTriangle.LoadPipeline | D3D12HelloTriangle.cpp:109-144 | FrameCount two-descriptor shader-visible heaps and a FrameCount * 2 RTV heap, all distinct; swap-chain buffer i's RTV at index i; the frame index taken from the swap chain |
| HelloTriangleSample.HelloTriangle.CreateConstantBuffers | D3D12HelloTriangle.cpp:214-239 | every slot has an upload buffer, its 256-byte CBV at index 0 of the slot's heap, and the current record copied in |
| HelloTriangleSample.HelloTriangle.AddConstantBuffer | D3D12HelloTriangle.cpp:219-237 | one round of that loop: a new upload buffer for slot i, its CBV written into slot i's heap and no other descriptor changed, slot i's record copied in, and the other slots' buffers and records as they were |
| HelloTriangleSample.HelloTriangle.CreateSurface | D3D12HelloTriangle.cpp:257-260 | a new surface with the offscreen clear colour, bound to the two handles, sized to the viewport, a render target, with its RTV and SRV written and nothing else in descriptor memory changed |
| HelloTriangleSample.HelloTriangle.AddSurface | D3D12HelloTriangle.cpp:253-262 | one round of the surface loop; a new surface in slot i with its SRV 1 descriptor into slot i's heap; the other slots' surfaces are the same objects, and earlier slots and all CBVs stay ready |
| HelloTriangleSample.HelloTriangle.InstallSurface | D3D12HelloTriangle.cpp:257 | storing the new surface makes slot i ready on a texture distinct from the earlier slots', and changes no other slot |
| HelloTriangleSample.HelloTriangle.CreateRenderTextures | D3D12HelloTriangle.cpp:241-263 | every slot's surface is ready: SRV at index 1 of its heap, RTV at 2 + slot, sized to the window, a render target, on distinct textures, every surface a new object |
| HelloTriangleSample.HelloTriangle.CreateSyncObjects | D3D12HelloTriangle.cpp:350-445 | the list is created and closed (350-354); the vertex-buffer uploads in between are not modelled; the fence starts at 0 with 1 as the next value; the first wait signals 1 and leaves the GPU idle with next value 2 |
| HelloTriangleSample.HelloTriangle.LoadAssets | D3D12HelloTriangle.cpp:212-445 | after the assets: Valid, every slot's buffer holds the initial record (opaque red), every surface is a render target, nothing executed yet |
| HelloTriangleSample.HelloTriangle.OnInit | D3D12HelloTriangle.cpp:24-28 | init establishes Valid with every slot holding the initial record and the fence's next value 2; the command list, the fence and the surfaces are new objects, so a caller can go on to update, render and destroy |
| HelloTriangleSample.HelloTriangle.WaitForPreviousFrame | D3D12HelloTriangle.cpp:570-590 | signals the current value, which exceeds every earlier signal, and increments it; waits iff the reported value is below it; on return the GPU has reached it; the frame index is the swap chain's |
| HelloTriangleSample.HelloTriangle.ResetCommandAllocator | D3D12HelloTriangle.cpp:519 | may be called only once the GPU has passed the last submission |
| HelloTriangleSample.HelloTriangle.ExecuteCommandList | D3D12HelloTriangle.cpp:488-489 | the closed list joins what the queue has executed |
| HelloTriangleSample.HelloTriangle.PresentFrame | D3D12HelloTriangle.cpp:492 | presents the current back buffer |
| HelloTriangleSample.HelloTriangle.PopulateCommandList | D3D12HelloTriangle.cpp:514-568 | the closed list holds exactly FrameCommands for the slot; after running it every back buffer is in Present and every surface in its tracked state |
| HelloTriangleSample.HelloTriangle.SubmitFrame | D3D12HelloTriangle.cpp:487-494 | execute, present, then the fence protocol, leaving the GPU idle |
| HelloTriangleSample.HelloTriangle.OnRender | D3D12HelloTriangle.cpp:482-495 | keeps Valid; record → reset-after-wait → execute → present → signal → wait, in that order, executing exactly the frame's commands |
| HelloTriangleSample.HelloTriangle.OnUpdate | D3D12HelloTriangle.cpp:476-477 | the new record goes into the current slot's buffer only; the other slots are unchanged |
| HelloTriangleSample.HelloTriangle.ReleaseSlotObjects | D3D12HelloTriangle.cpp:505-507 | slot i's heap and buffer are released and its surface is released, with its clear colour kept |
| HelloTriangleSample.HelloTriangle.ReleaseSlots | D3D12HelloTriangle.cpp:503-509 | every slot is released, in slot order |
| HelloTriangleSample.HelloTriangle.OnDestroy | D3D12HelloTriangle.cpp:497-512 | waits for the GPU first, then releases every slot's heap, buffer and surface |

## Left out

- Device, factory, adapter, command-queue and swap-chain creation are not modelled. The device is a constructor argument.
- The swap chain's `GetCurrentBackBufferIndex` is an input of the operations that call it.
- The command allocator is not a separate object. Its reset is the `ResetAllocator` event, guarded by the fence.
- Root signature, static sampler, shader compilation and pipeline-state creation are not modelled. The commands refer to them as constants.
- Vertex-buffer creation and upload are not modelled, for the same reason.
- The viewport, scissor and clear-colour arguments of the recorded commands are not modelled. Their commands carry no arguments.
- Descriptor increment sizes are abstracted. A CPU handle is a (heap, index) pair, and `Offset` moves it by whole descriptors.
- `GetGPUDescriptorHandleForHeapStart` is not modelled; the root descriptor table names the heap.
- The OS event, `SetEventOnCompletion` and `WaitForSingleObject` become `Fence.WaitFor`: on return, the GPU has reached the value.
- GPU execution is not modelled as concurrent. The queue's work counts as done once the fence wait returns.
- The fence value is unbounded. UINT64 wrap-around is not modelled; it would need 2^64 frames.
- `OnUpdate`'s floating-point colour animation and its static increments are not modelled. The new record is a parameter.
- `OnUpdate` requires `Valid()`, because the frame loop calls it only between frames.
- `ThrowIfFailed` failures during initialisation are not modelled: the constant buffers and the surfaces are allocated successfully. `RenderTexture` models its own allocation failure as an outcome.
- `ThrowIfFailed` failures are not modelled in the frame loop either. `Present`, `Signal` and `SetEventOnCompletion` always succeed. The allocator and list resets and `Close` are shown legal by their preconditions. Driver-side failures beyond that, such as a removed device or running out of memory, are not modelled.
- `LoadAssets` requires the device to support R8G8B8A8_UNORM as a 2D texture and a render target. On other devices the source throws from `SetDevice`.
- HelloTriangleSample.HelloTriangle.constructor: requires width and height ≤ 2^24. The surface size is read back from the float viewport, and only up to 2^24 is every integer an exact float.
- RenderTextures.RenderTexture.SetDevice: requires a non-null device unless the call is the no-op rebinding, because the source dereferences the device.
- `delete m_renderTexture[i]` is not modelled. The released surfaces stay allocated in the model.
- `CloseHandle` of the fence event is not modelled.
- HelloTriangleSample.HelloTriangle.OnDestroy: requires the running state, so it is not idempotent. In the source a second call's `Signal` is still valid, since the queue and the fence are not released. But it calls `ReleaseDevice` on the surfaces already deleted at lines 507-508, and, if it has to wait, `SetEventOnCompletion` on the event closed at line 511; the model follows the code rather than a safe-to-call-twice shutdown. A single call straight after init, with no frame rendered, is covered.
- RenderTextures.Extent and RenderTextures.RenderTexture.SetWindow: require `right - left` and `bottom - top` to fit a LONG. In the source that subtraction is done in LONG, and its overflow is undefined behaviour.
- RenderTextures.RenderTexture.SizeResources: uses the corrected range test of the Findings row, which checks the requested size. On a bound surface, `SizeResources(1, 2^32 + 600)` throws in the model. In the source it creates a 1 x 600 texture and stores the height 2^32 + 600. On an unbound surface the same call also throws in the model. In the source it returns silently: the test reads the stored 0 x 0, and then the missing device makes it return.
- Resource names (`SetName`) and the debug message of an unsupported format are not modelled.
- GPU-side effects of draws and clears are not modelled. Only their order in the command log is.

## Findings

| source | as written | input that shows it | evidently intended | confidence | as-written member | corrected member |
|---|---|---|---|---|---|---|
| RenderTexture.cpp:71 | the out-of-range test reads the stored `m_width`/`m_height` instead of the requested `width`/`height` | on a bound 0 x 0 surface, `SizeResources(1, 2^32 + 600)` passes the test. The texture is created with the UINT height 600 and 2^32 + 600 is stored, so every later resize, even to 800 x 600, throws | test the requested size before creating anything | not executed | RenderTextures.AsWrittenGuardAdmitsTruncatedHeight | RenderTextures.ResizeDecisionFor, RenderTextures.RenderTexture.SizeResources |
