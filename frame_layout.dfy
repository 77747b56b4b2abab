/** The per-frame slot layout of D3D12HelloTriangle: which descriptor index holds
    which view, and the constant-buffer view size. */
module FrameLayout {

  /** Frames in flight (FrameCount): one swap-chain buffer and one slot of
      per-frame resources each. */
  const FrameCount: nat := 2

  /** The RTV heap holds a swap-chain RTV and an offscreen RTV per frame. */
  const RtvHeapSize: nat := FrameCount * 2

  /** The fixed offset at which the offscreen RTVs start in the RTV heap. */
  const OffscreenRtvBase: nat := 2

  /** Each frame's shader-visible heap: the constant-buffer view, then the
      offscreen surface's shader-resource view. */
  const CbvSrvHeapSize: nat := 2
  const CbvIndex: nat := 0
  const SrvIndex: nat := 1

  /** sizeof(ShaderData): one XMFLOAT4. */
  const ShaderDataSize: bv32 := 16

  /** RTV heap index of the swap-chain buffer of `slot`. */
  function SwapChainRtvIndex(slot: nat): nat {
    slot
  }

  /** RTV heap index of the offscreen surface of `slot` when the offscreen RTVs
      start at `base`. */
  function RtvIndexFrom(base: nat, slot: nat): nat {
    base + slot
  }

  /** RTV heap index of the offscreen surface of `slot`. */
  function OffscreenRtvIndex(slot: nat): nat {
    RtvIndexFrom(OffscreenRtvBase, slot)
  }

  /** With `frames` slots and offscreen RTVs starting at `base`, every RTV index lies
      inside a heap of 2 * frames descriptors and no swap-chain RTV shares its index
      with an offscreen RTV. */
  ghost predicate RtvLayoutSound(frames: nat, base: nat) {
    && (forall i :: 0 <= i < frames ==>
          SwapChainRtvIndex(i) < 2 * frames && RtvIndexFrom(base, i) < 2 * frames)
    && (forall i, j :: 0 <= i < frames && 0 <= j < frames ==>
          SwapChainRtvIndex(i) != RtvIndexFrom(base, j))
  }

  /** The layout used with FrameCount == 2: the four RTV indices 0, 1, 2, 3 are
      distinct and inside the heap, and the two views of each shader-visible heap
      are distinct and inside it. */
  lemma LayoutSound()
    ensures RtvLayoutSound(FrameCount, OffscreenRtvBase)
    ensures RtvHeapSize == 4
    ensures forall i, j :: 0 <= i < j < FrameCount ==>
              OffscreenRtvIndex(i) != OffscreenRtvIndex(j) && SwapChainRtvIndex(i) != SwapChainRtvIndex(j)
    ensures CbvIndex < CbvSrvHeapSize && SrvIndex < CbvSrvHeapSize && CbvIndex != SrvIndex
  {
  }

  /** The fixed offset 2 is right for exactly one frame count: with one frame the
      offscreen RTV falls outside the heap, with three or more the third swap-chain
      RTV lands on the first offscreen RTV. */
  lemma FixedBaseFitsOnlyTwoFrames(frames: nat)
    requires 1 <= frames
    ensures RtvLayoutSound(frames, 2) <==> frames == 2
  {
    if frames == 1 {
      assert !(RtvIndexFrom(2, 0) < 2 * frames);
    } else if frames > 2 {
      assert SwapChainRtvIndex(2) == RtvIndexFrom(2, 0);
    }
  }

  /** Offsetting the offscreen RTVs by the frame count instead keeps the layout
      sound for every frame count. */
  lemma FrameCountBaseAlwaysSound(frames: nat)
    ensures RtvLayoutSound(frames, frames)
  {
  }

  /** `(n + 255) & ~255`: the constant-buffer view size, rounded up to the 256-byte
      alignment a CBV requires. The sum is taken in 64-bit size_t and stored in the
      32-bit UINT SizeInBytes; for a 32-bit n, keeping the low 32 bits of the sum
      gives the same value, so near the top of the range the stored size is 0. */
  function AlignedCbSize(n: bv32): (r: bv32)
    ensures n <= 0xFFFF_FF00 ==> r % 256 == 0 && n <= r && r - n < 256
    ensures n > 0xFFFF_FF00 ==> r == 0
  {
    (n + 255) & !255
  }

  /** The constant-buffer view of ShaderData is 256 bytes. */
  lemma ShaderDataCbSize()
    ensures AlignedCbSize(ShaderDataSize) == 256
  {
  }
}
