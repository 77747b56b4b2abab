/** The slice of the Direct3D 12 object model that the renderer relies on: resource
    states and barriers, CPU descriptor handles, the command list as an append-only
    log of recorded commands, the device as the owner of descriptor memory and of
    resource creation, and the fence as a monotone counter. */
module Gpu {
  import opened Wrappers

  /** D3D12_RESOURCE_STATES values the renderer uses. */
  datatype ResourceState = Common | RenderTarget | PixelShaderResource | GenericRead

  /** D3D12_RESOURCE_STATE_PRESENT has the same value (0) as D3D12_RESOURCE_STATE_COMMON. */
  const Present: ResourceState := Common

  /** What a barrier or a view refers to: nothing (a null resource pointer), a
      committed resource created by the device, or one of the swap chain's buffers. */
  datatype ResourceRef = NoResource | Committed(id: nat) | BackBuffer(index: nat)

  /** A CPU descriptor handle: `NullHandle` is `ptr == 0`; otherwise slot `index` of
      descriptor heap `heap` (the heap start offset by `index` increments). */
  datatype CpuHandle = NullHandle | Handle(heap: nat, index: nat)

  /** DXGI_FORMAT, by value. */
  type Format = nat
  const R8G8B8A8_UNORM: Format := 28

  /** A clear colour; stored and copied, never computed on. */
  datatype Rgba = Rgba(r: real, g: real, b: real, a: real)

  /** A 2D texture created by CreateCommittedResource, with the description it was
      created from. */
  datatype Texture2D = Texture2D(id: nat, width: nat, height: nat, format: Format, clearValue: Rgba)

  /** What a descriptor slot holds once a view has been created into it. */
  datatype View =
    | RenderTargetView(target: ResourceRef)
    | ShaderResourceView(target: ResourceRef)
    | ConstantBufferView(target: ResourceRef, sizeInBytes: bv32)

  datatype DescriptorHeap = DescriptorHeap(id: nat, numDescriptors: nat, shaderVisible: bool)
  {
    /** The heap's CPU start handle offset by `index` descriptors. */
    function At(index: nat): (h: CpuHandle)
      ensures h != NullHandle
    {
      Handle(id, index)
    }
  }

  /** CD3DX12_CPU_DESCRIPTOR_HANDLE::Offset(n, increment): `n` descriptors further
      into the same heap. */
  function Offset(h: CpuHandle, n: nat): CpuHandle
    requires h.Handle?
  {
    Handle(h.heap, h.index + n)
  }

  datatype Pipeline = TrianglePipeline | QuadPipeline
  datatype VertexBuffer = TriangleVertices | QuadVertices

  /** The commands the renderer records into a graphics command list. */
  datatype Command =
    | ResourceBarrier(resource: ResourceRef, before: ResourceState, after: ResourceState)
    | SetRootSignature
    | SetViewport
    | SetScissorRect
    | SetDescriptorHeap(heap: nat)
    | SetRootDescriptorTable(heap: nat)
    | SetRenderTarget(rtv: CpuHandle)
    | ClearRenderTarget(rtv: CpuHandle)
    | SetTriangleListTopology
    | SetPipelineState(pipeline: Pipeline)
    | SetVertexBuffer(buffer: VertexBuffer)
    | DrawInstanced(vertexCount: nat, instanceCount: nat)

  predicate IsBarrierOn(c: Command, r: ResourceRef) {
    c.ResourceBarrier? && c.resource == r
  }

  /** The state of `r` after the GPU runs `log` with `r` starting in `s`, or None
      when some barrier on `r` names a before-state other than the current one. */
  function ApplyBarriers(log: seq<Command>, r: ResourceRef, s: ResourceState): Option<ResourceState>
    decreases |log|
  {
    if log == [] then Some(s)
    else if IsBarrierOn(log[0], r) then
      if log[0].before == s then ApplyBarriers(log[1..], r, log[0].after) else None
    else ApplyBarriers(log[1..], r, s)
  }

  /** Runs `log` from an optional state (None stays None). */
  function ApplyAfter(o: Option<ResourceState>, log: seq<Command>, r: ResourceRef): Option<ResourceState> {
    match o
    case None => None
    case Some(t) => ApplyBarriers(log, r, t)
  }

  /** The number of barriers on `r` in `log`. */
  function BarrierCount(log: seq<Command>, r: ResourceRef): nat
    decreases |log|
  {
    if log == [] then 0
    else (if IsBarrierOn(log[0], r) then 1 else 0) + BarrierCount(log[1..], r)
  }

  /** Running two logs one after the other is running the first, then the second. */
  lemma {:induction false} ApplyBarriersConcat(a: seq<Command>, b: seq<Command>, r: ResourceRef, s: ResourceState)
    ensures ApplyBarriers(a + b, r, s) == ApplyAfter(ApplyBarriers(a, r, s), b, r)
    decreases |a|
  {
    if a == [] {
      assert a + b == b;
    } else {
      assert (a + b)[0] == a[0];
      assert (a + b)[1..] == a[1..] + b;
      if IsBarrierOn(a[0], r) {
        if a[0].before == s {
          ApplyBarriersConcat(a[1..], b, r, a[0].after);
        }
      } else {
        ApplyBarriersConcat(a[1..], b, r, s);
      }
    }
  }

  lemma {:induction false} BarrierCountConcat(a: seq<Command>, b: seq<Command>, r: ResourceRef)
    ensures BarrierCount(a + b, r) == BarrierCount(a, r) + BarrierCount(b, r)
    decreases |a|
  {
    if a == [] {
      assert a + b == b;
    } else {
      assert (a + b)[0] == a[0];
      assert (a + b)[1..] == a[1..] + b;
      BarrierCountConcat(a[1..], b, r);
    }
  }

  /** A log with no barrier on `r` leaves `r` where it was. */
  lemma {:induction false} NoBarrierKeepsState(log: seq<Command>, r: ResourceRef, s: ResourceState)
    requires BarrierCount(log, r) == 0
    ensures ApplyBarriers(log, r, s) == Some(s)
    decreases |log|
  {
    if log != [] {
      NoBarrierKeepsState(log[1..], r, s);
    }
  }

  /** Appending a barrier on `r` whose before-state is the state `r` has reached
      moves `r` to the barrier's after-state. */
  lemma AppendMatchingBarrier(log: seq<Command>, r: ResourceRef, s0: ResourceState, s: ResourceState, t: ResourceState)
    requires ApplyBarriers(log, r, s0) == Some(s)
    ensures ApplyBarriers(log + [ResourceBarrier(r, s, t)], r, s0) == Some(t)
  {
    var b := [ResourceBarrier(r, s, t)];
    ApplyBarriersConcat(log, b, r, s0);
    assert b[1..] == [];
    assert ApplyBarriers(b, r, s) == ApplyBarriers([], r, t);
  }

  /** ID3D12GraphicsCommandList: the commands recorded since the last Reset, and
      whether the list is recording (open) or closed. */
  class CommandList {
    var log: seq<Command>
    var isOpen: bool

    /** CreateCommandList returns a list that is already recording. */
    constructor ()
      ensures log == [] && isOpen
    {
      log := [];
      isOpen := true;
    }

    /** Records one command; only a recording list accepts commands. */
    method Record(c: Command)
      requires isOpen
      modifies this
      ensures isOpen && log == old(log) + [c]
    {
      log := log + [c];
    }

    method Close()
      requires isOpen
      modifies this
      ensures !isOpen && log == old(log)
    {
      isOpen := false;
    }

    /** Reset succeeds only on a closed list and starts an empty recording. */
    method Reset()
      requires !isOpen
      modifies this
      ensures isOpen && log == []
    {
      log := [];
      isOpen := true;
    }
  }

  /** ID3D12Device, reduced to what the renderer observes: its answer to the format
      support query, the contents of descriptor memory, and the identities of the
      descriptor heaps and resources it has created. */
  class Device {
    /** Support1 bits CheckFeatureSupport reports per format; the query fails for a
        format with no entry. */
    const formatSupport: map<Format, bv32>
    var views: map<CpuHandle, View>
    var heapCount: nat
    var resourceCount: nat

    constructor (formatSupport: map<Format, bv32>)
      ensures this.formatSupport == formatSupport
      ensures views == map[] && heapCount == 0 && resourceCount == 0
    {
      this.formatSupport := formatSupport;
      views := map[];
      heapCount := 0;
      resourceCount := 0;
    }

    /** CheckFeatureSupport(D3D12_FEATURE_FORMAT_SUPPORT): None when the call fails. */
    function CheckFormatSupport(f: Format): (r: Option<bv32>)
      ensures r.Some? <==> f in formatSupport
      ensures r.Some? ==> r.value == formatSupport[f]
    {
      if f in formatSupport then Some(formatSupport[f]) else None
    }

    /** CreateDescriptorHeap: every heap gets a new identity. */
    method CreateDescriptorHeap(numDescriptors: nat, shaderVisible: bool) returns (h: DescriptorHeap)
      modifies this`heapCount
      ensures h == DescriptorHeap(old(heapCount), numDescriptors, shaderVisible)
      ensures heapCount == old(heapCount) + 1
    {
      h := DescriptorHeap(heapCount, numDescriptors, shaderVisible);
      heapCount := heapCount + 1;
    }

    /** CreateCommittedResource: a new identity on success, nothing on failure
        (whether it succeeds is decided by the driver, outside the model). */
    method CreateCommittedResource(succeeds: bool) returns (id: Option<nat>)
      modifies this`resourceCount
      ensures succeeds ==> id == Some(old(resourceCount)) && resourceCount == old(resourceCount) + 1
      ensures !succeeds ==> id == None && resourceCount == old(resourceCount)
    {
      if succeeds {
        id := Some(resourceCount);
        resourceCount := resourceCount + 1;
      } else {
        id := None;
      }
    }

    /** CreateRenderTargetView, CreateShaderResourceView and CreateConstantBufferView
        all write one view into the descriptor at `at`. */
    method CreateView(at: CpuHandle, v: View)
      modifies this`views
      ensures views == old(views)[at := v]
    {
      views := views[at := v];
    }
  }

  /** ID3D12Fence: `completed` is the value the GPU has reached, `lastSignalled` the
      largest value a queue has been asked to signal; `signals` lists every value
      signalled since creation. */
  class Fence {
    var completed: nat
    var lastSignalled: nat
    ghost var signals: seq<nat>

    ghost predicate Valid()
      reads this
    {
      && completed <= lastSignalled
      && (forall i, j :: 0 <= i < j < |signals| ==> signals[i] < signals[j])
      && (forall i :: 0 <= i < |signals| ==> signals[i] <= lastSignalled)
    }

    /** CreateFence(initial): the initial value counts as reached. */
    constructor (initial: nat)
      ensures Valid() && completed == initial && lastSignalled == initial && signals == []
    {
      completed := initial;
      lastSignalled := initial;
      signals := [];
    }

    /** ID3D12CommandQueue::Signal. A value may be signalled only once and only
        above every earlier one, so signalled values are strictly increasing. */
    method Signal(v: nat)
      requires Valid() && lastSignalled < v
      modifies this
      ensures Valid()
      ensures lastSignalled == v && signals == old(signals) + [v] && completed == old(completed)
      ensures forall i :: 0 <= i < |old(signals)| ==> signals[i] < v
    {
      lastSignalled := v;
      signals := signals + [v];
    }

    /** GetCompletedValue: the GPU has progressed to `reached` (never backwards and
        never past what was signalled) by the time it is asked. */
    method GetCompletedValue(reached: nat) returns (c: nat)
      requires Valid() && completed <= reached <= lastSignalled
      modifies this`completed
      ensures Valid() && completed == reached && c == reached
    {
      completed := reached;
      c := completed;
    }

    /** SetEventOnCompletion(v) followed by an unbounded wait on the event: returns
        once the GPU has reached `v`. */
    method WaitFor(v: nat)
      requires Valid() && v <= lastSignalled
      modifies this`completed
      ensures Valid() && v <= completed
      ensures completed == if old(completed) < v then v else old(completed)
    {
      if completed < v {
        completed := v;
      }
    }
  }
}
