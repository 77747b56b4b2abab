/** D3D12HelloTriangle's frame loop: per-frame slots of descriptors, constant
    buffers and offscreen surfaces, one command list re-recorded every frame, and a
    fence that makes every frame wait for the GPU before the next one starts. */
module HelloTriangleSample {
  import opened Wrappers
  import opened Gpu
  import opened FrameLayout
  import opened RenderTextures
  import opened FrameRecording

  /** ShaderData, the record the pixel shader reads from the constant buffer. */
  datatype ShaderData = ShaderData(solidColor: Rgba)

  /** Opaque red, the colour before the first update. */
  const InitialShaderData: ShaderData := ShaderData(Rgba(1.0, 0.0, 0.0, 1.0))

  const OffscreenClearColor: Rgba := Rgba(0.1, 0.1, 1.0, 1.0)

  /** Largest integer a float holds exactly: the viewport is built from the window
      size as floats and the offscreen surface's size is read back from it. */
  const FloatExactMax: nat := 0x100_0000

  /** What the renderer asks of the GPU and the swap chain, in order. */
  datatype Event =
    | SignalFence(value: nat)
    | WaitForFence(value: nat)
    | ResetAllocator
    | Execute(commands: seq<Command>)
    | PresentBuffer(backBuffer: nat)
    | ReleaseSlot(slot: nat)

  datatype Phase = Constructed | PipelineLoaded | Running | Destroyed

  /** ReleaseSlot(0), ..., ReleaseSlot(n - 1). */
  function Releases(n: nat): seq<Event> {
    if n == 0 then [] else Releases(n - 1) + [ReleaseSlot(n - 1)]
  }

  ghost predicate MapsTo(views: map<CpuHandle, View>, h: CpuHandle, v: View) {
    h in views && views[h] == v
  }

  /** Root signature, viewport, scissor and the slot's descriptor heap. */
  method RecordSetup(cl: CommandList, heap: nat)
    requires cl.isOpen
    modifies cl
    ensures cl.isOpen && cl.log == old(cl.log) + SetupCommands(heap)
  {
    cl.Record(SetRootSignature);
    cl.Record(SetViewport);
    cl.Record(SetScissorRect);
    cl.Record(SetDescriptorHeap(heap));
    cl.Record(SetRootDescriptorTable(heap));
  }

  /** The triangle drawn into the offscreen surface of `slot`, bracketed by
      BeginScene and EndScene; its RTV is found 2 + slot descriptors into `rtvs`. */
  method RecordTrianglePass(cl: CommandList, rt: RenderTexture, slot: nat, rtvs: DescriptorHeap)
    requires cl.isOpen
    modifies cl, rt`state
    ensures cl.isOpen && rt.state == PixelShaderResource
    ensures cl.log == old(cl.log) + TrianglePass(slot, rtvs.id, rt.GetResource(), old(rt.state))
  {
    rt.BeginScene(cl);
    var offscreenHandle := Offset(rtvs.At(0), slot + 2);
    cl.Record(SetRenderTarget(offscreenHandle));
    cl.Record(SetTriangleListTopology);
    cl.Record(SetPipelineState(TrianglePipeline));
    cl.Record(SetVertexBuffer(TriangleVertices));
    cl.Record(DrawInstanced(3, 1));
    rt.EndScene(cl);
  }

  /** The quad drawn into the swap-chain buffer of `slot`, whose RTV is `slot`
      descriptors into `rtvs`, between its Present -> RenderTarget and
      RenderTarget -> Present barriers. */
  method RecordQuadPass(cl: CommandList, slot: nat, rtvs: DescriptorHeap)
    requires cl.isOpen
    modifies cl
    ensures cl.isOpen && cl.log == old(cl.log) + QuadPass(slot, rtvs.id)
  {
    cl.Record(ResourceBarrier(BackBuffer(slot), Present, RenderTarget));
    var rtvHandle := Offset(rtvs.At(0), slot);
    cl.Record(SetRenderTarget(rtvHandle));
    cl.Record(ClearRenderTarget(rtvHandle));
    cl.Record(SetTriangleListTopology);
    cl.Record(SetPipelineState(QuadPipeline));
    cl.Record(SetVertexBuffer(QuadVertices));
    cl.Record(DrawInstanced(6, 1));
    cl.Record(ResourceBarrier(BackBuffer(slot), RenderTarget, Present));
  }

  class HelloTriangle {
    /** The device (its creation, with the factory, queue and swap chain, is outside
        the model). */
    const device: Device
    const width: nat
    const height: nat
    var frameIndex: nat
    var rtvHeap: Option<DescriptorHeap>
    const descriptorHeaps: array<Option<DescriptorHeap>>
    /** Each slot's upload buffer, by resource identity. */
    const resourcesMemory: array<Option<nat>>
    /** What each slot's mapped upload buffer holds. */
    const mappedData: array<Option<ShaderData>>
    const renderTextures: array<RenderTexture?>
    var shaderData: ShaderData
    var commandList: CommandList?
    var fence: Fence?
    var fenceValue: nat
    ghost var phase: Phase
    /** The fence value signalled right after the last executed command list. */
    ghost var lastSubmission: nat
    /** Every command the queue has been given, in order. */
    ghost var executed: seq<Command>
    ghost var trace: seq<Event>

    ghost function Surfaces(): set<object?>
      reads renderTextures
    {
      set i | 0 <= i < renderTextures.Length :: renderTextures[i]
    }

    ghost predicate Shape()
    {
      && descriptorHeaps.Length == FrameCount && resourcesMemory.Length == FrameCount
      && mappedData.Length == FrameCount && renderTextures.Length == FrameCount
      && width <= FloatExactMax && height <= FloatExactMax
    }

    /** After LoadPipeline: a two-descriptor shader-visible heap per slot, the RTV
        heap, all with distinct identities, and each swap-chain buffer's RTV at its
        slot's index. */
    ghost predicate HeapsReady()
      reads this`rtvHeap, descriptorHeaps, device
    {
      && Shape()
      && rtvHeap.Some? && rtvHeap.value.numDescriptors == RtvHeapSize && !rtvHeap.value.shaderVisible
      && (forall i :: 0 <= i < FrameCount ==>
            && descriptorHeaps[i].Some?
            && descriptorHeaps[i].value.numDescriptors == CbvSrvHeapSize
            && descriptorHeaps[i].value.shaderVisible
            && descriptorHeaps[i].value.id != rtvHeap.value.id
            && MapsTo(device.views, rtvHeap.value.At(SwapChainRtvIndex(i)), RenderTargetView(BackBuffer(i))))
      && (forall i, j :: 0 <= i < j < FrameCount ==>
            descriptorHeaps[i].Some? && descriptorHeaps[j].Some? ==>
            descriptorHeaps[i].value.id != descriptorHeaps[j].value.id)
    }

    /** Slot `i`'s upload buffer is mapped and its 256-byte CBV is the first
        descriptor of the slot's heap. */
    ghost predicate BufferReady(i: nat)
      requires HeapsReady() && i < FrameCount
      reads this`rtvHeap, descriptorHeaps, resourcesMemory, mappedData, device
    {
      && resourcesMemory[i].Some?
      && mappedData[i].Some?
      && MapsTo(device.views, descriptorHeaps[i].value.At(CbvIndex),
                ConstantBufferView(Committed(resourcesMemory[i].value), AlignedCbSize(ShaderDataSize)))
    }

    /** Slot `i`'s offscreen surface is bound to the device, its SRV is the second
        descriptor of the slot's heap, its RTV is at index 2 + i of the RTV heap,
        it is sized to the window and it is a render target or shader-readable. */
    ghost predicate SurfaceReady(i: nat)
      requires HeapsReady() && i < FrameCount
      reads this`rtvHeap, descriptorHeaps, renderTextures, renderTextures[i], device
    {
      var rt := renderTextures[i];
      && rt != null && rt.Valid()
      && rt.format == R8G8B8A8_UNORM
      && rt.device == device
      && rt.clearColor == OffscreenClearColor
      && rt.srvDescriptor == descriptorHeaps[i].value.At(SrvIndex)
      && rt.rtvDescriptor == rtvHeap.value.At(OffscreenRtvIndex(i))
      && rt.resource.Some?
      && rt.width == Extent(0, width as int) && rt.height == Extent(0, height as int)
      && (rt.state == RenderTarget || rt.state == PixelShaderResource)
      && MapsTo(device.views, rt.srvDescriptor, ShaderResourceView(rt.GetResource()))
      && MapsTo(device.views, rt.rtvDescriptor, RenderTargetView(rt.GetResource()))
    }

    /** The GPU has reached every value signalled so far, and with it the end of
        every command list executed so far. */
    ghost predicate GpuIdle()
      reads this`fence, this`fenceValue, this`lastSubmission, fence
    {
      && fence != null && fence.Valid()
      && 1 <= fenceValue && fence.lastSignalled == fenceValue - 1
      && fence.completed == fence.lastSignalled
      && lastSubmission <= fence.completed
    }

    /** The slots' surfaces are distinct objects with distinct textures. */
    ghost predicate SurfacesDistinct()
      reads renderTextures, Surfaces()
    {
      forall i, j :: 0 <= i < j < renderTextures.Length && renderTextures[i] != null && renderTextures[j] != null ==>
        renderTextures[i] != renderTextures[j] && renderTextures[i].GetResource() != renderTextures[j].GetResource()
    }

    /** Every slot's heap, buffer and surface ready, on distinct surfaces. */
    ghost predicate SlotsReady()
      reads this`rtvHeap, descriptorHeaps, resourcesMemory, mappedData, renderTextures, Surfaces(), device
    {
      && HeapsReady()
      && (forall i :: 0 <= i < FrameCount ==> renderTextures[i] != null)
      && (forall i :: 0 <= i < FrameCount ==> BufferReady(i) && SurfaceReady(i))
      && SurfacesDistinct()
    }

    /** After the queue has run `log`, every swap-chain buffer is in Present and each
        surface is in its tracked state (surfaces are created in RenderTarget). */
    ghost predicate BarriersTracked(log: seq<Command>)
      reads renderTextures, Surfaces()
    {
      && (forall b :: 0 <= b < FrameCount ==> ApplyBarriers(log, BackBuffer(b), Present) == Some(Present))
      && (forall i :: 0 <= i < renderTextures.Length && renderTextures[i] != null ==>
            ApplyBarriers(log, renderTextures[i].GetResource(), RenderTarget) == Some(renderTextures[i].state))
    }

    /** The frame loop's own state between frames: a valid slot index, the command
        list closed, the GPU idle. */
    ghost predicate LoopReady()
      reads this`frameIndex, this`commandList, this`fence, this`fenceValue, this`lastSubmission, commandList, fence
    {
      && frameIndex < FrameCount
      && commandList != null && !commandList.isOpen
      && GpuIdle()
    }

    /** Between frames: every slot ready, the loop ready, and the barriers the queue
        has executed leave each resource in the state the renderer tracks. */
    ghost predicate Valid()
      reads this, descriptorHeaps, resourcesMemory, mappedData, renderTextures, Surfaces(), device
      reads commandList, fence
    {
      && phase == Running
      && SlotsReady()
      && LoopReady()
      && BarriersTracked(executed)
    }

    /** The slots and the barrier bookkeeping do not depend on the frame loop's own
        fields: a step that leaves the slots alone keeps them. */
    twostate lemma SlotsKept(log: seq<Command>)
      requires old(SlotsReady()) && old(BarriersTracked(log))
      requires unchanged(this`rtvHeap, descriptorHeaps, resourcesMemory, mappedData, renderTextures, device)
      requires forall i :: 0 <= i < renderTextures.Length ==> unchanged(renderTextures[i])
      ensures SlotsReady() && BarriersTracked(log)
    {
      forall i | 0 <= i < FrameCount
        ensures renderTextures[i] != null && BufferReady(i) && SurfaceReady(i)
      {
        assert old(renderTextures[i] != null && BufferReady(i) && SurfaceReady(i));
      }
    }

    /** Moving one surface between render target and shader resource keeps the
        slots ready; the barrier bookkeeping is kept by whoever records the
        barriers. */
    twostate lemma SurfaceStateKept(slot: nat)
      requires old(SlotsReady()) && slot < FrameCount
      requires unchanged(this`rtvHeap, descriptorHeaps, resourcesMemory, mappedData, renderTextures, device)
      requires forall i :: 0 <= i < renderTextures.Length && i != slot ==> unchanged(renderTextures[i])
      requires var rt := renderTextures[slot] as RenderTexture;
        && unchanged(rt`device, rt`resource, rt`srvDescriptor, rt`rtvDescriptor, rt`clearColor, rt`width, rt`height)
        && (rt.state == RenderTarget || rt.state == PixelShaderResource)
      ensures SlotsReady()
    {
      forall i | 0 <= i < FrameCount
        ensures renderTextures[i] != null && BufferReady(i) && SurfaceReady(i)
      {
        assert old(renderTextures[i] != null && BufferReady(i) && SurfaceReady(i));
      }
    }

    /** The commands the frame in slot `slot` records, given the state its surface
        starts in. */
    ghost function CommandsFor(slot: nat, from: ResourceState): seq<Command>
      requires Shape() && slot < FrameCount
      requires rtvHeap.Some? && descriptorHeaps[slot].Some? && renderTextures[slot] != null
      reads this, descriptorHeaps, renderTextures, renderTextures[slot]
    {
      FrameCommands(slot, descriptorHeaps[slot].value.id, rtvHeap.value.id, renderTextures[slot].GetResource(), from)
    }

    constructor (device: Device, width: nat, height: nat)
      requires width <= FloatExactMax && height <= FloatExactMax
      ensures Shape() && phase == Constructed
      ensures this.device == device && this.width == width && this.height == height
      ensures frameIndex == 0 && rtvHeap == None && commandList == null && fence == null
      ensures executed == [] && trace == [] && lastSubmission == 0
      ensures fresh(descriptorHeaps) && fresh(resourcesMemory) && fresh(mappedData) && fresh(renderTextures)
      ensures forall i :: 0 <= i < FrameCount ==>
                && descriptorHeaps[i] == None && resourcesMemory[i] == None
                && mappedData[i] == None && renderTextures[i] == null
    {
      this.device := device;
      this.width := width;
      this.height := height;
      frameIndex := 0;
      rtvHeap := None;
      descriptorHeaps := new Option<DescriptorHeap>[FrameCount](_ => None);
      resourcesMemory := new Option<nat>[FrameCount](_ => None);
      mappedData := new Option<ShaderData>[FrameCount](_ => None);
      renderTextures := new RenderTexture?[FrameCount](_ => null);
      shaderData := InitialShaderData;
      commandList := null;
      fence := null;
      fenceValue := 0;
      phase := Constructed;
      lastSubmission := 0;
      executed := [];
      trace := [];
    }

    /** The descriptor heaps and the swap-chain RTVs; `initialBackBuffer` is the swap
        chain's current buffer index. */
    method LoadPipeline(initialBackBuffer: nat)
      requires phase == Constructed && Shape()
      requires initialBackBuffer < FrameCount
      modifies this`frameIndex, this`rtvHeap, this`phase, descriptorHeaps, device
      ensures phase == PipelineLoaded && HeapsReady()
      ensures frameIndex == initialBackBuffer
      ensures device.resourceCount == old(device.resourceCount)
    {
      frameIndex := initialBackBuffer;
      ghost var firstHeap := device.heapCount;
      for i := 0 to FrameCount
        modifies device, descriptorHeaps
        invariant device.heapCount == firstHeap + i
        invariant device.views == old(device.views)
        invariant device.resourceCount == old(device.resourceCount)
        invariant forall j :: 0 <= j < i ==> descriptorHeaps[j] == Some(DescriptorHeap(firstHeap + j, CbvSrvHeapSize, true))
      {
        var heap := device.CreateDescriptorHeap(CbvSrvHeapSize, true);
        descriptorHeaps[i] := Some(heap);
      }
      var heap := device.CreateDescriptorHeap(RtvHeapSize, false);
      rtvHeap := Some(heap);
      var rtvHandle := heap.At(0);
      for n := 0 to FrameCount
        modifies device
        invariant rtvHandle == heap.At(n)
        invariant device.resourceCount == old(device.resourceCount)
        invariant forall j :: 0 <= j < n ==> MapsTo(device.views, heap.At(SwapChainRtvIndex(j)), RenderTargetView(BackBuffer(j)))
      {
        device.CreateView(rtvHandle, RenderTargetView(BackBuffer(n)));
        rtvHandle := Offset(rtvHandle, 1);
      }
      phase := PipelineLoaded;
    }

    /** Each slot's upload buffer, its CBV as the first descriptor of the slot's
        heap, and the initial record copied into it. */
    method CreateConstantBuffers()
      requires HeapsReady()
      modifies resourcesMemory, mappedData, device
      ensures HeapsReady()
      ensures forall i :: 0 <= i < FrameCount ==> BufferReady(i) && mappedData[i] == Some(shaderData)
    {
      for i := 0 to FrameCount
        invariant HeapsReady()
        invariant forall j :: 0 <= j < i ==> BufferReady(j) && mappedData[j] == Some(shaderData)
      {
        AddConstantBuffer(i);
      }
    }

    /** Slot `i`'s round of the constant-buffer loop. Its CBV goes into the slot's own
        heap, so the views of other slots and of the RTV heap stay as they were. */
    method AddConstantBuffer(i: nat)
      requires HeapsReady() && i < FrameCount
      requires forall j :: 0 <= j < i ==> BufferReady(j) && mappedData[j] == Some(shaderData)
      modifies resourcesMemory, mappedData, device
      ensures HeapsReady()
      ensures forall j :: 0 <= j <= i ==> BufferReady(j) && mappedData[j] == Some(shaderData)
      ensures resourcesMemory[i] == Some(old(device.resourceCount))
      ensures device.resourceCount == old(device.resourceCount) + 1
      ensures device.views == old(device.views)[descriptorHeaps[i].value.At(CbvIndex) :=
                ConstantBufferView(Committed(old(device.resourceCount)), AlignedCbSize(ShaderDataSize))]
      ensures forall j :: 0 <= j < FrameCount && j != i ==>
                resourcesMemory[j] == old(resourcesMemory[j]) && mappedData[j] == old(mappedData[j])
    {
      var buffer := device.CreateCommittedResource(true);
      resourcesMemory[i] := buffer;
      device.CreateView(descriptorHeaps[i].value.At(CbvIndex),
                        ConstantBufferView(Committed(buffer.value), AlignedCbSize(ShaderDataSize)));
      mappedData[i] := Some(shaderData);
      forall j | 0 <= j < FrameCount
        ensures MapsTo(device.views, rtvHeap.value.At(SwapChainRtvIndex(j)), RenderTargetView(BackBuffer(j)))
      {
        assert old(MapsTo(device.views, rtvHeap.value.At(SwapChainRtvIndex(j)), RenderTargetView(BackBuffer(j))));
      }
      forall j | 0 <= j < i
        ensures BufferReady(j)
      {
        assert old(BufferReady(j));
      }
    }

    /** One round of the surface loop: a new surface with the offscreen clear colour,
        bound to the device and the two handles, sized to `dimension`. */
    method CreateSurface(dimension: Rect, srv: CpuHandle, rtv: CpuHandle) returns (rt: RenderTexture)
      requires srv.Handle? && rtv.Handle?
      requires R8G8B8A8_UNORM in device.formatSupport && SupportsRenderTexture(device.formatSupport[R8G8B8A8_UNORM])
      requires dimension.left == 0 && dimension.top == 0
      requires 0 <= dimension.right <= Uint32Max && 0 <= dimension.bottom <= Uint32Max
      modifies device
      ensures fresh(rt) && rt.Valid() && rt.format == R8G8B8A8_UNORM && rt.device == device
      ensures rt.clearColor == OffscreenClearColor && rt.srvDescriptor == srv && rt.rtvDescriptor == rtv
      ensures rt.width == Extent(0, dimension.right) && rt.height == Extent(0, dimension.bottom)
      ensures rt.state == RenderTarget
      ensures rt.resource == Some(Texture2D(old(device.resourceCount), rt.width, rt.height, R8G8B8A8_UNORM, OffscreenClearColor))
      ensures device.resourceCount == old(device.resourceCount) + 1
      ensures device.views == old(device.views)[rtv := RenderTargetView(rt.GetResource())]
                                               [srv := ShaderResourceView(rt.GetResource())]
    {
      rt := new RenderTexture(R8G8B8A8_UNORM);
      rt.SetClearColor(OffscreenClearColor);
      var bound := rt.SetDevice(device, srv, rtv);
      var sized := rt.SetWindow(dimension, true);
    }

    /** The surfaces of slots 0 .. n - 1 are ready, still render targets, on
        distinct textures the device has created. */
    ghost predicate SurfacesBuilt(n: nat)
      requires HeapsReady() && n <= FrameCount
      reads this`rtvHeap, descriptorHeaps, renderTextures, Surfaces(), device
    {
      && (forall j :: 0 <= j < n ==>
            && SurfaceReady(j) && renderTextures[j].state == RenderTarget
            && renderTextures[j].resource.value.id < device.resourceCount)
      && (forall j, k :: 0 <= j < k < n ==> renderTextures[j].GetResource() != renderTextures[k].GetResource())
    }

    /** Slot `i`'s round of the surface loop. */
    method AddSurface(i: nat, dimension: Rect, rtvHandle: CpuHandle)
      requires HeapsReady() && (forall j :: 0 <= j < FrameCount ==> BufferReady(j))
      requires i < FrameCount && SurfacesBuilt(i)
      requires dimension == Rect(0, 0, width as int, height as int)
      requires rtvHandle == rtvHeap.value.At(OffscreenRtvIndex(i))
      requires R8G8B8A8_UNORM in device.formatSupport && SupportsRenderTexture(device.formatSupport[R8G8B8A8_UNORM])
      modifies renderTextures, device
      ensures HeapsReady() && (forall j :: 0 <= j < FrameCount ==> BufferReady(j))
      ensures SurfacesBuilt(i + 1)
      ensures fresh(renderTextures[i])
      ensures forall j :: 0 <= j < FrameCount && j != i ==> renderTextures[j] == old(renderTextures[j])
    {
      var srvHandle := Offset(descriptorHeaps[i].value.At(0), 1);
      var rt := CreateSurface(dimension, srvHandle, rtvHandle);
      forall j | 0 <= j < FrameCount
        ensures MapsTo(device.views, rtvHeap.value.At(SwapChainRtvIndex(j)), RenderTargetView(BackBuffer(j)))
        ensures BufferReady(j)
      {
        assert old(BufferReady(j));
      }
      forall j | 0 <= j < i
        ensures SurfaceReady(j)
      {
        assert old(SurfaceReady(j));
      }
      InstallSurface(i, rt);
    }

    /** Stores a surface made for slot `i` into its place in the array. */
    method InstallSurface(i: nat, rt: RenderTexture)
      requires HeapsReady() && i < FrameCount && SurfacesBuilt(i)
      requires rt.Valid() && rt.format == R8G8B8A8_UNORM && rt.device == device
      requires rt.clearColor == OffscreenClearColor && rt.state == RenderTarget
      requires rt.srvDescriptor == descriptorHeaps[i].value.At(SrvIndex)
      requires rt.rtvDescriptor == rtvHeap.value.At(OffscreenRtvIndex(i))
      requires rt.resource.Some? && rt.resource.value.id == device.resourceCount - 1
      requires rt.width == Extent(0, width as int) && rt.height == Extent(0, height as int)
      requires MapsTo(device.views, rt.srvDescriptor, ShaderResourceView(rt.GetResource()))
      requires MapsTo(device.views, rt.rtvDescriptor, RenderTargetView(rt.GetResource()))
      requires forall j :: 0 <= j < i ==> renderTextures[j].resource.value.id < device.resourceCount - 1
      modifies renderTextures
      ensures SurfacesBuilt(i + 1)
      ensures renderTextures[i] == rt
      ensures forall j :: 0 <= j < FrameCount && j != i ==> renderTextures[j] == old(renderTextures[j])
    {
      renderTextures[i] := rt;
      assert SurfaceReady(i);
      forall j | 0 <= j < i
        ensures SurfaceReady(j) && renderTextures[j].state == RenderTarget
      {
        assert old(SurfaceReady(j) && renderTextures[j].state == RenderTarget);
      }
    }

    /** One offscreen surface per slot: SRV in the slot's heap after the CBV, RTV at
        2 + slot in the RTV heap, sized to the window. */
    method CreateRenderTextures()
      requires HeapsReady() && (forall i :: 0 <= i < FrameCount ==> BufferReady(i))
      requires R8G8B8A8_UNORM in device.formatSupport && SupportsRenderTexture(device.formatSupport[R8G8B8A8_UNORM])
      modifies renderTextures, device
      ensures SlotsReady()
      ensures forall i :: 0 <= i < FrameCount ==> renderTextures[i] != null && renderTextures[i].state == RenderTarget
      ensures forall i :: 0 <= i < FrameCount ==> fresh(renderTextures[i])
      ensures BarriersTracked([])
    {
      var dimension := Rect(0, 0, width as int, height as int);
      var rtvHandle := Offset(rtvHeap.value.At(0), OffscreenRtvBase);
      for i := 0 to FrameCount
        invariant HeapsReady() && (forall j :: 0 <= j < FrameCount ==> BufferReady(j))
        invariant rtvHandle == rtvHeap.value.At(OffscreenRtvIndex(i))
        invariant SurfacesBuilt(i)
        invariant forall j :: 0 <= j < i ==> fresh(renderTextures[j])
      {
        AddSurface(i, dimension, rtvHandle);
        rtvHandle := Offset(rtvHandle, 1);
      }
    }

    /** The constant buffers, the offscreen surfaces, the command list (created
        recording, then closed) and the fence at 0 with 1 as the next value, then a
        first wait. `reached` is what the fence reports and `nextBackBuffer` the swap
        chain's index at the end of it. */
    method LoadAssets(reached: nat, nextBackBuffer: nat)
      requires phase == PipelineLoaded && HeapsReady()
      requires executed == [] && lastSubmission == 0
      requires R8G8B8A8_UNORM in device.formatSupport && SupportsRenderTexture(device.formatSupport[R8G8B8A8_UNORM])
      requires reached <= 1 && nextBackBuffer < FrameCount
      modifies this, resourcesMemory, mappedData, renderTextures, device
      ensures Valid()
      ensures forall i :: 0 <= i < FrameCount ==> mappedData[i] == Some(InitialShaderData)
      ensures forall i :: 0 <= i < FrameCount ==> renderTextures[i] != null && renderTextures[i].state == RenderTarget
      ensures fresh(commandList) && fresh(fence)
      ensures forall i :: 0 <= i < FrameCount ==> fresh(renderTextures[i])
      ensures fenceValue == 2 && fence.signals == [1] && frameIndex == nextBackBuffer
      ensures executed == []
      ensures trace == old(trace) + [SignalFence(1)] + (if reached < 1 then [WaitForFence(1)] else [])
    {
      shaderData := InitialShaderData;
      CreateConstantBuffers();
      CreateRenderTextures();
      label Built:
      CreateSyncObjects(reached, nextBackBuffer);
      SlotsKept@Built([]);
    }

    /** The command list, created recording and closed at once, and the fence at 0
        with 1 as the next value; then the first wait. */
    method CreateSyncObjects(reached: nat, nextBackBuffer: nat)
      requires executed == [] && lastSubmission == 0
      requires reached <= 1 && nextBackBuffer < FrameCount
      modifies this`commandList, this`fence, this`fenceValue, this`phase, this`frameIndex, this`trace
      ensures phase == Running && LoopReady()
      ensures fresh(commandList) && fresh(fence)
      ensures fenceValue == 2 && fence.signals == [1] && frameIndex == nextBackBuffer
      ensures trace == old(trace) + [SignalFence(1)] + (if reached < 1 then [WaitForFence(1)] else [])
    {
      commandList := new CommandList();
      commandList.Close();
      fence := new Fence(0);
      fenceValue := 1;
      phase := Running;
      var _ := WaitForPreviousFrame(reached, nextBackBuffer);
    }

    method OnInit(initialBackBuffer: nat, reached: nat, nextBackBuffer: nat)
      requires phase == Constructed && Shape()
      requires executed == [] && lastSubmission == 0
      requires R8G8B8A8_UNORM in device.formatSupport && SupportsRenderTexture(device.formatSupport[R8G8B8A8_UNORM])
      requires initialBackBuffer < FrameCount && reached <= 1 && nextBackBuffer < FrameCount
      modifies this, descriptorHeaps, resourcesMemory, mappedData, renderTextures, device
      ensures Valid()
      ensures forall i :: 0 <= i < FrameCount ==> mappedData[i] == Some(InitialShaderData)
      ensures fenceValue == 2 && frameIndex == nextBackBuffer && executed == []
      ensures fresh(commandList) && fresh(fence)
      ensures forall i :: 0 <= i < FrameCount ==> fresh(renderTextures[i])
    {
      LoadPipeline(initialBackBuffer);
      LoadAssets(reached, nextBackBuffer);
    }

    ghost predicate FenceReady()
      reads this`fence, this`fenceValue, fence
    {
      fence != null && fence.Valid() && 1 <= fenceValue && fence.lastSignalled == fenceValue - 1
    }

    /** Signals the current fence value and moves to the next one, waits when the
        GPU has not reached the signalled value, then takes the swap chain's current
        buffer index `nextBackBuffer`. `reached` is the completed value the fence
        reports. */
    method WaitForPreviousFrame(reached: nat, nextBackBuffer: nat) returns (waited: bool)
      requires FenceReady()
      requires fence.completed <= reached <= fenceValue
      requires nextBackBuffer < FrameCount
      modifies this`frameIndex, this`fenceValue, this`trace, fence
      ensures FenceReady()
      ensures fenceValue == old(fenceValue) + 1
      ensures fence.signals == old(fence.signals) + [old(fenceValue)]
      ensures forall i :: 0 <= i < |old(fence.signals)| ==> fence.signals[i] < old(fenceValue)
      ensures waited <==> reached < old(fenceValue)
      ensures fence.completed == fence.lastSignalled == old(fenceValue)
      ensures frameIndex == nextBackBuffer
      ensures trace == old(trace) + [SignalFence(old(fenceValue))] + (if waited then [WaitForFence(old(fenceValue))] else [])
    {
      var value := fenceValue;
      fence.Signal(value);
      trace := trace + [SignalFence(value)];
      fenceValue := fenceValue + 1;
      var completed := fence.GetCompletedValue(reached);
      waited := completed < value;
      if waited {
        fence.WaitFor(value);
        trace := trace + [WaitForFence(value)];
      }
      frameIndex := nextBackBuffer;
    }

    /** ID3D12CommandAllocator::Reset, legal only once the GPU has finished every
        command list recorded from the allocator. */
    method ResetCommandAllocator()
      requires fence != null && lastSubmission <= fence.completed
      modifies this`trace
      ensures trace == old(trace) + [ResetAllocator]
    {
      trace := trace + [ResetAllocator];
    }

    /** ExecuteCommandLists with the (closed) command list; the next signal marks its
        end. */
    method ExecuteCommandList()
      requires commandList != null && !commandList.isOpen
      modifies this`executed, this`trace, this`lastSubmission
      ensures executed == old(executed) + commandList.log
      ensures trace == old(trace) + [Execute(commandList.log)]
      ensures lastSubmission == fenceValue
    {
      executed := executed + commandList.log;
      trace := trace + [Execute(commandList.log)];
      lastSubmission := fenceValue;
    }

    /** IDXGISwapChain::Present of the current buffer. */
    method PresentFrame()
      modifies this`trace
      ensures trace == old(trace) + [PresentBuffer(frameIndex)]
    {
      trace := trace + [PresentBuffer(frameIndex)];
    }

    /** What recording a frame needs: the slot's heap, the RTV heap and the slot's
        surface exist, the list is closed, and the GPU is done with the allocator. */
    ghost predicate CanRecord()
      reads this, descriptorHeaps, renderTextures, fence, commandList
    {
      && Shape() && frameIndex < FrameCount
      && rtvHeap.Some? && descriptorHeaps[frameIndex].Some? && renderTextures[frameIndex] != null
      && commandList != null && !commandList.isOpen
      && fence != null && lastSubmission <= fence.completed
    }

    /** Records the frame of slot frameIndex, FrameCommands from the state its
        surface was in, and closes the list. Once the queue runs the list, the
        swap-chain buffers are in Present again and every surface is in its tracked
        state. */
    method PopulateCommandList()
      requires CanRecord() && SurfacesDistinct() && BarriersTracked(executed)
      modifies this`trace, commandList, (renderTextures[frameIndex] as RenderTexture)`state
      ensures !commandList.isOpen
      ensures commandList.log == CommandsFor(frameIndex, old(renderTextures[frameIndex].state))
      ensures renderTextures[frameIndex].state == PixelShaderResource
      ensures trace == old(trace) + [ResetAllocator]
      ensures BarriersTracked(executed + commandList.log)
    {
      ResetCommandAllocator();
      var slot := frameIndex;
      var heap := descriptorHeaps[slot].value.id;
      var rt := renderTextures[slot];
      ghost var from, target := rt.state, rt.GetResource();
      commandList.Reset();
      RecordSetup(commandList, heap);
      RecordTrianglePass(commandList, rt, slot, rtvHeap.value);
      RecordQuadPass(commandList, slot, rtvHeap.value);
      commandList.Close();

      ghost var log := commandList.log;
      assert log == FrameCommands(slot, heap, rtvHeap.value.id, target, from);
      assert target != BackBuffer(slot);
      forall b | 0 <= b < FrameCount
        ensures ApplyBarriers(executed + log, BackBuffer(b), Present) == Some(Present)
      {
        ApplyBarriersConcat(executed, log, BackBuffer(b), Present);
        assert old(ApplyBarriers(executed, BackBuffer(b), Present)) == Some(Present);
        if b == slot {
          FrameBackBufferBalanced(slot, heap, rtvHeap.value.id, target, from);
        } else {
          FrameTouchesOnlyItsResources(slot, heap, rtvHeap.value.id, target, from, BackBuffer(b), Present);
        }
      }
      forall i | 0 <= i < renderTextures.Length && renderTextures[i] != null
        ensures ApplyBarriers(executed + log, renderTextures[i].GetResource(), RenderTarget) == Some(renderTextures[i].state)
      {
        var r := renderTextures[i].GetResource();
        ApplyBarriersConcat(executed, log, r, RenderTarget);
        assert old(ApplyBarriers(executed, r, RenderTarget)) == Some(old(renderTextures[i].state));
        if i == slot {
          FrameSurfaceEndsReadable(slot, heap, rtvHeap.value.id, target, from);
        } else {
          assert old(renderTextures[i].state) == renderTextures[i].state;
          FrameTouchesOnlyItsResources(slot, heap, rtvHeap.value.id, target, from, r, renderTextures[i].state);
        }
      }
    }

    /** The second half of a frame: execute the recorded list, present, and wait
        for the GPU to reach the value signalled after the list. */
    method SubmitFrame(reached: nat, nextBackBuffer: nat)
      requires commandList != null && !commandList.isOpen && FenceReady()
      requires fence.completed <= reached <= fenceValue && nextBackBuffer < FrameCount
      modifies this`executed, this`trace, this`lastSubmission, this`frameIndex, this`fenceValue, fence
      ensures LoopReady()
      ensures executed == old(executed) + commandList.log
      ensures trace == old(trace) + [Execute(commandList.log), PresentBuffer(old(frameIndex)), SignalFence(old(fenceValue))]
                       + (if reached < old(fenceValue) then [WaitForFence(old(fenceValue))] else [])
      ensures fenceValue == old(fenceValue) + 1 && frameIndex == nextBackBuffer
    {
      ExecuteCommandList();
      PresentFrame();
      var _ := WaitForPreviousFrame(reached, nextBackBuffer);
    }

    /** Record, execute, present, wait: the frame's commands join what the queue has
        executed, and every invariant between frames holds again. */
    method OnRender(reached: nat, nextBackBuffer: nat)
      requires Valid()
      requires fence.completed <= reached <= fenceValue && nextBackBuffer < FrameCount
      modifies this`trace, this`executed, this`lastSubmission, this`frameIndex, this`fenceValue
      modifies commandList, (renderTextures[frameIndex] as RenderTexture)`state, fence
      ensures Valid()
      ensures var cmds := old(CommandsFor(frameIndex, renderTextures[frameIndex].state));
        && executed == old(executed) + cmds
        && trace == old(trace) + [ResetAllocator, Execute(cmds), PresentBuffer(old(frameIndex)), SignalFence(old(fenceValue))]
                    + (if reached < old(fenceValue) then [WaitForFence(old(fenceValue))] else [])
      ensures renderTextures[old(frameIndex)].state == PixelShaderResource
      ensures fenceValue == old(fenceValue) + 1 && frameIndex == nextBackBuffer
    {
      PopulateCommandList();
      SurfaceStateKept(frameIndex);
      label Recorded:
      SubmitFrame(reached, nextBackBuffer);
      SlotsKept@Recorded(executed);
    }

    /** The per-slot copy: the new record goes into the current slot's mapped buffer
        only, which the idle GPU is not reading. */
    method OnUpdate(data: ShaderData)
      requires Valid()
      modifies this`shaderData, mappedData
      ensures Valid()
      ensures shaderData == data && mappedData[frameIndex] == Some(data)
      ensures forall i :: 0 <= i < FrameCount && i != frameIndex ==> mappedData[i] == old(mappedData[i])
    {
      shaderData := data;
      mappedData[frameIndex] := Some(shaderData);
      forall i | 0 <= i < FrameCount
        ensures BufferReady(i) && SurfaceReady(i)
      {
        assert old(BufferReady(i) && SurfaceReady(i));
      }
    }

    /** Releases slot `i`: its heap, its upload buffer and its surface's device
        objects. */
    method ReleaseSlotObjects(i: nat)
      requires i < descriptorHeaps.Length && i < resourcesMemory.Length
      requires i < renderTextures.Length && renderTextures[i] != null
      modifies descriptorHeaps, resourcesMemory, renderTextures[i], this`trace
      ensures descriptorHeaps[..] == old(descriptorHeaps[..])[i := None]
      ensures resourcesMemory[..] == old(resourcesMemory[..])[i := None]
      ensures renderTextures[i].Snapshot() == Released(old(renderTextures[i].clearColor))
      ensures trace == old(trace) + [ReleaseSlot(i)]
    {
      descriptorHeaps[i] := None;
      resourcesMemory[i] := None;
      renderTextures[i].ReleaseDevice();
      trace := trace + [ReleaseSlot(i)];
    }

    /** Releases every slot, in slot order. */
    method ReleaseSlots()
      requires Shape()
      requires forall j :: 0 <= j < FrameCount ==>
                 renderTextures[j] != null && renderTextures[j].clearColor == OffscreenClearColor
      requires forall j, k :: 0 <= j < k < FrameCount ==> renderTextures[j] != renderTextures[k]
      modifies descriptorHeaps, resourcesMemory, Surfaces(), this`trace
      ensures forall i :: 0 <= i < FrameCount ==> descriptorHeaps[i] == None && resourcesMemory[i] == None
      ensures forall i :: 0 <= i < FrameCount ==> renderTextures[i].Snapshot() == Released(OffscreenClearColor)
      ensures trace == old(trace) + Releases(FrameCount)
    {
      for i := 0 to FrameCount
        modifies descriptorHeaps, resourcesMemory, Surfaces(), this`trace
        invariant forall j :: 0 <= j < i ==> descriptorHeaps[j] == None && resourcesMemory[j] == None
        invariant forall j :: 0 <= j < FrameCount ==> renderTextures[j] != null
        invariant forall j, k :: 0 <= j < k < FrameCount ==> renderTextures[j] != renderTextures[k]
        invariant forall j :: 0 <= j < i ==> renderTextures[j].Snapshot() == Released(OffscreenClearColor)
        invariant forall j :: i <= j < FrameCount ==> renderTextures[j].clearColor == OffscreenClearColor
        invariant trace == old(trace) + Releases(i)
      {
        ReleaseSlotObjects(i);
      }
    }

    /** Waits for the GPU, then releases every slot's heap, upload buffer and
        surface. */
    method OnDestroy(reached: nat, nextBackBuffer: nat)
      requires Valid()
      requires fence.completed <= reached <= fenceValue && nextBackBuffer < FrameCount
      modifies this`phase, this`frameIndex, this`fenceValue, this`trace, fence
      modifies descriptorHeaps, resourcesMemory, Surfaces()
      ensures phase == Destroyed
      ensures GpuIdle()
      ensures forall i :: 0 <= i < FrameCount ==> descriptorHeaps[i] == None && resourcesMemory[i] == None
      ensures forall i :: 0 <= i < FrameCount ==>
                renderTextures[i] != null && renderTextures[i].Snapshot() == Released(OffscreenClearColor)
      ensures trace == old(trace) + [SignalFence(old(fenceValue))]
                       + (if reached < old(fenceValue) then [WaitForFence(old(fenceValue))] else [])
                       + Releases(FrameCount)
    {
      forall j | 0 <= j < FrameCount
        ensures renderTextures[j] != null && renderTextures[j].clearColor == OffscreenClearColor
      {
        assert SurfaceReady(j);
      }
      assert forall j, k :: 0 <= j < k < FrameCount ==> renderTextures[j] != renderTextures[k];
      var _ := WaitForPreviousFrame(reached, nextBackBuffer);
      ReleaseSlots();
      phase := Destroyed;
    }
  }
}
