/** The commands PopulateCommandList records for one frame, and what they do to the
    states of the offscreen surface and the swap-chain buffer. */
module FrameRecording {
  import opened Wrappers
  import opened Gpu
  import opened FrameLayout
  import RenderTextures

  /** Root signature, viewport, scissor, and the frame's shader-visible heap as the
      heap and the root descriptor table. */
  function SetupCommands(heap: nat): seq<Command> {
    [SetRootSignature, SetViewport, SetScissorRect, SetDescriptorHeap(heap), SetRootDescriptorTable(heap)]
  }

  /** The triangle pass into the offscreen surface `target` of `slot`, which starts
      in state `from`: BeginScene, the offscreen RTV, the 3-vertex draw, EndScene. */
  function TrianglePass(slot: nat, rtvHeap: nat, target: ResourceRef, from: ResourceState): seq<Command> {
    RenderTextures.BeginSceneBarriers(target, from)
    + [ SetRenderTarget(Handle(rtvHeap, OffscreenRtvIndex(slot))), SetTriangleListTopology,
        SetPipelineState(TrianglePipeline), SetVertexBuffer(TriangleVertices), DrawInstanced(3, 1) ]
    + [ResourceBarrier(target, RenderTarget, PixelShaderResource)]
  }

  /** The quad pass into the swap-chain buffer of `slot`, bracketed by its
      Present -> RenderTarget and RenderTarget -> Present barriers. */
  function QuadPass(slot: nat, rtvHeap: nat): seq<Command> {
    var rtv := Handle(rtvHeap, SwapChainRtvIndex(slot));
    [ResourceBarrier(BackBuffer(slot), Present, RenderTarget)]
    + [ SetRenderTarget(rtv), ClearRenderTarget(rtv), SetTriangleListTopology,
        SetPipelineState(QuadPipeline), SetVertexBuffer(QuadVertices), DrawInstanced(6, 1) ]
    + [ResourceBarrier(BackBuffer(slot), RenderTarget, Present)]
  }

  /** Everything recorded for one frame, between the Reset and the Close. */
  function FrameCommands(slot: nat, heap: nat, rtvHeap: nat, target: ResourceRef, from: ResourceState): seq<Command> {
    SetupCommands(heap) + TrianglePass(slot, rtvHeap, target, from) + QuadPass(slot, rtvHeap)
  }

  /** Where the triangle draw and the quad draw sit in FrameCommands: after the five
      setup commands, the BeginScene barrier (if any) and four state commands; and
      eight commands later, past the EndScene barrier and the quad pass's first six. */
  function TriangleDrawIndex(from: ResourceState): nat {
    if from == RenderTarget then 9 else 10
  }

  function QuadDrawIndex(from: ResourceState): nat {
    TriangleDrawIndex(from) + 8
  }

  ghost predicate NoBarrierOn(log: seq<Command>, r: ResourceRef) {
    forall i :: 0 <= i < |log| ==> !IsBarrierOn(log[i], r)
  }

  lemma {:induction false} NoBarrierOnCountsZero(log: seq<Command>, r: ResourceRef)
    requires NoBarrierOn(log, r)
    ensures BarrierCount(log, r) == 0
    decreases |log|
  {
    if log != [] {
      assert !IsBarrierOn(log[0], r);
      assert NoBarrierOn(log[1..], r) by {
        forall i | 0 <= i < |log[1..]| ensures !IsBarrierOn(log[1..][i], r) {
          assert log[1..][i] == log[i + 1];
        }
      }
      NoBarrierOnCountsZero(log[1..], r);
    }
  }

  /** A log without barriers on `r` leaves `r` in any state it starts in. */
  lemma NoBarrierOnKeepsState(log: seq<Command>, r: ResourceRef, s: ResourceState)
    requires NoBarrierOn(log, r)
    ensures ApplyBarriers(log, r, s) == Some(s) && BarrierCount(log, r) == 0
  {
    NoBarrierOnCountsZero(log, r);
    NoBarrierKeepsState(log, r, s);
  }

  lemma SingleBarrier(r: ResourceRef, s: ResourceState, t: ResourceState)
    ensures ApplyBarriers([ResourceBarrier(r, s, t)], r, s) == Some(t)
    ensures BarrierCount([ResourceBarrier(r, s, t)], r) == 1
  {
    var b := [ResourceBarrier(r, s, t)];
    assert b[1..] == [];
  }

  /** A frame places barriers on its own surface and its own swap-chain buffer only:
      every other resource keeps its state. */
  lemma FrameTouchesOnlyItsResources(slot: nat, heap: nat, rtvHeap: nat, target: ResourceRef, from: ResourceState,
                                     r: ResourceRef, s: ResourceState)
    requires r != target && r != BackBuffer(slot)
    ensures ApplyBarriers(FrameCommands(slot, heap, rtvHeap, target, from), r, s) == Some(s)
    ensures BarrierCount(FrameCommands(slot, heap, rtvHeap, target, from), r) == 0
  {
    var a, b, c := SetupCommands(heap), TrianglePass(slot, rtvHeap, target, from), QuadPass(slot, rtvHeap);
    assert NoBarrierOn(a + b + c, r) by {
      assert NoBarrierOn(RenderTextures.BeginSceneBarriers(target, from), r);
    }
    NoBarrierOnKeepsState(a + b + c, r, s);
  }

  /** The swap-chain buffer gets exactly two barriers per frame,
      Present -> RenderTarget and back, so it ends the frame in Present. */
  lemma FrameBackBufferBalanced(slot: nat, heap: nat, rtvHeap: nat, target: ResourceRef, from: ResourceState)
    requires target != BackBuffer(slot)
    ensures ApplyBarriers(FrameCommands(slot, heap, rtvHeap, target, from), BackBuffer(slot), Present) == Some(Present)
    ensures BarrierCount(FrameCommands(slot, heap, rtvHeap, target, from), BackBuffer(slot)) == 2
  {
    var bb := BackBuffer(slot);
    var a, b := SetupCommands(heap), TrianglePass(slot, rtvHeap, target, from);
    var rtv := Handle(rtvHeap, SwapChainRtvIndex(slot));
    var b1, b2 := [ResourceBarrier(bb, Present, RenderTarget)], [ResourceBarrier(bb, RenderTarget, Present)];
    var mid := [ SetRenderTarget(rtv), ClearRenderTarget(rtv), SetTriangleListTopology,
                 SetPipelineState(QuadPipeline), SetVertexBuffer(QuadVertices), DrawInstanced(6, 1) ];
    assert QuadPass(slot, rtvHeap) == b1 + mid + b2;
    assert NoBarrierOn(a + b, bb) by {
      assert NoBarrierOn(RenderTextures.BeginSceneBarriers(target, from), bb);
    }
    NoBarrierOnKeepsState(a + b, bb, Present);
    NoBarrierOnKeepsState(mid, bb, RenderTarget);
    SingleBarrier(bb, Present, RenderTarget);
    SingleBarrier(bb, RenderTarget, Present);
    ApplyBarriersConcat(b1, mid, bb, Present);
    ApplyBarriersConcat(b1 + mid, b2, bb, Present);
    ApplyBarriersConcat(a + b, b1 + mid + b2, bb, Present);
    BarrierCountConcat(b1, mid, bb);
    BarrierCountConcat(b1 + mid, b2, bb);
    BarrierCountConcat(a + b, b1 + mid + b2, bb);
    assert FrameCommands(slot, heap, rtvHeap, target, from) == (a + b) + (b1 + mid + b2);
  }

  /** The offscreen surface ends every frame shader-readable, whatever state it
      started in. */
  lemma FrameSurfaceEndsReadable(slot: nat, heap: nat, rtvHeap: nat, target: ResourceRef, from: ResourceState)
    requires target != BackBuffer(slot)
    ensures ApplyBarriers(FrameCommands(slot, heap, rtvHeap, target, from), target, from) == Some(PixelShaderResource)
  {
    var a, c := SetupCommands(heap), QuadPass(slot, rtvHeap);
    var begin := RenderTextures.BeginSceneBarriers(target, from);
    var mid := [ SetRenderTarget(Handle(rtvHeap, OffscreenRtvIndex(slot))), SetTriangleListTopology,
                 SetPipelineState(TrianglePipeline), SetVertexBuffer(TriangleVertices), DrawInstanced(3, 1) ];
    var end := [ResourceBarrier(target, RenderTarget, PixelShaderResource)];
    assert TrianglePass(slot, rtvHeap, target, from) == begin + mid + end;
    NoBarrierOnKeepsState(a, target, from);
    NoBarrierOnKeepsState(mid, target, RenderTarget);
    NoBarrierOnKeepsState(c, target, PixelShaderResource);
    SingleBarrier(target, RenderTarget, PixelShaderResource);
    ApplyBarriersConcat(a, begin, target, from);
    ApplyBarriersConcat(a + begin, mid, target, from);
    ApplyBarriersConcat(a + begin + mid, end, target, from);
    ApplyBarriersConcat(a + begin + mid + end, c, target, from);
    assert FrameCommands(slot, heap, rtvHeap, target, from) == a + begin + mid + end + c;
  }

  /** The triangle is drawn into the offscreen RTV of the slot, right after the
      surface has been made a render target. */
  lemma FrameTriangleDraw(slot: nat, heap: nat, rtvHeap: nat, target: ResourceRef, from: ResourceState)
    requires target != BackBuffer(slot)
    ensures var log, t := FrameCommands(slot, heap, rtvHeap, target, from), TriangleDrawIndex(from);
      && 4 <= t < |log|
      && log[t] == DrawInstanced(3, 1)
      && log[t - 4] == SetRenderTarget(Handle(rtvHeap, OffscreenRtvIndex(slot)))
      && ApplyBarriers(log[..t], target, from) == Some(RenderTarget)
  {
    var log, t := FrameCommands(slot, heap, rtvHeap, target, from), TriangleDrawIndex(from);
    var a := SetupCommands(heap);
    var begin := RenderTextures.BeginSceneBarriers(target, from);
    var mid := [ SetRenderTarget(Handle(rtvHeap, OffscreenRtvIndex(slot))), SetTriangleListTopology,
                 SetPipelineState(TrianglePipeline), SetVertexBuffer(TriangleVertices), DrawInstanced(3, 1) ];
    var rest := [ResourceBarrier(target, RenderTarget, PixelShaderResource)] + QuadPass(slot, rtvHeap);
    assert |begin| == t - 9;
    assert log == a + begin + mid + rest;
    assert log[..t] == a + begin + mid[..4];
    NoBarrierOnKeepsState(a, target, from);
    NoBarrierOnKeepsState(mid[..4], target, RenderTarget);
    ApplyBarriersConcat(a, begin, target, from);
    ApplyBarriersConcat(a + begin, mid[..4], target, from);
  }

  /** The quad is drawn later than the triangle, into the swap-chain RTV of the slot
      while that buffer is a render target, and the surface it samples is
      shader-readable by then. */
  lemma FrameQuadDraw(slot: nat, heap: nat, rtvHeap: nat, target: ResourceRef, from: ResourceState)
    requires target != BackBuffer(slot)
    ensures var log, t, q := FrameCommands(slot, heap, rtvHeap, target, from), TriangleDrawIndex(from), QuadDrawIndex(from);
      && t < q < |log|
      && log[q] == DrawInstanced(6, 1)
      && log[q - 5] == SetRenderTarget(Handle(rtvHeap, SwapChainRtvIndex(slot)))
      && ApplyBarriers(log[..q], target, from) == Some(PixelShaderResource)
      && ApplyBarriers(log[..q], BackBuffer(slot), Present) == Some(RenderTarget)
  {
    var log, q := FrameCommands(slot, heap, rtvHeap, target, from), QuadDrawIndex(from);
    var bb := BackBuffer(slot);
    var front := SetupCommands(heap) + TrianglePass(slot, rtvHeap, target, from);
    var rtv := Handle(rtvHeap, SwapChainRtvIndex(slot));
    var b1 := [ResourceBarrier(bb, Present, RenderTarget)];
    var qmid := [ SetRenderTarget(rtv), ClearRenderTarget(rtv), SetTriangleListTopology,
                  SetPipelineState(QuadPipeline), SetVertexBuffer(QuadVertices) ];
    var rest := [DrawInstanced(6, 1), ResourceBarrier(bb, RenderTarget, Present)];
    assert |front| == q - 6;
    assert log == front + (b1 + qmid) + rest;
    assert log[..q] == front + (b1 + qmid);
    // the surface: readable once the triangle pass is over
    FrameSurfaceEndsReadable(slot, heap, rtvHeap, target, from);
    ApplyBarriersConcat(front, QuadPass(slot, rtvHeap), target, from);
    var afterFront := ApplyBarriers(front, target, from);
    if afterFront.Some? {
      assert NoBarrierOn(QuadPass(slot, rtvHeap), target);
      NoBarrierOnKeepsState(QuadPass(slot, rtvHeap), target, afterFront.value);
    }
    NoBarrierOnKeepsState(b1 + qmid, target, PixelShaderResource);
    ApplyBarriersConcat(front, b1 + qmid, target, from);
    // the swap-chain buffer: untouched by the front, then one barrier
    assert NoBarrierOn(front, bb) by {
      assert NoBarrierOn(RenderTextures.BeginSceneBarriers(target, from), bb);
    }
    NoBarrierOnKeepsState(front, bb, Present);
    SingleBarrier(bb, Present, RenderTarget);
    NoBarrierOnKeepsState(qmid, bb, RenderTarget);
    ApplyBarriersConcat(b1, qmid, bb, Present);
    ApplyBarriersConcat(front, b1 + qmid, bb, Present);
  }

  /** The inputs of one recorded frame. */
  datatype FrameParams = FrameParams(slot: nat, heap: nat, rtvHeap: nat, target: ResourceRef, from: ResourceState)

  /** What the queue has executed after the frames `frames`, in order. */
  function Executed(frames: seq<FrameParams>): seq<Command>
    decreases |frames|
  {
    if frames == [] then []
    else
      var f := frames[|frames| - 1];
      Executed(frames[..|frames| - 1]) + FrameCommands(f.slot, f.heap, f.rtvHeap, f.target, f.from)
  }

  /** However many frames run, and whichever slots they use, every swap-chain
      buffer is back in Present after each of them. */
  lemma {:induction false} BackBuffersPresentAfterFrames(frames: seq<FrameParams>, b: nat)
    requires forall k :: 0 <= k < |frames| ==> !frames[k].target.BackBuffer?
    ensures ApplyBarriers(Executed(frames), BackBuffer(b), Present) == Some(Present)
    decreases |frames|
  {
    if frames != [] {
      var init := frames[..|frames| - 1];
      var f := frames[|frames| - 1];
      BackBuffersPresentAfterFrames(init, b);
      ApplyBarriersConcat(Executed(init), FrameCommands(f.slot, f.heap, f.rtvHeap, f.target, f.from), BackBuffer(b), Present);
      if f.slot == b {
        FrameBackBufferBalanced(f.slot, f.heap, f.rtvHeap, f.target, f.from);
      } else {
        FrameTouchesOnlyItsResources(f.slot, f.heap, f.rtvHeap, f.target, f.from, BackBuffer(b), Present);
      }
    }
  }
}
