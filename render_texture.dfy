/** RenderTexture: an offscreen 2D texture that is drawn into as a render target and
    then sampled as a pixel-shader resource. It is bound to a device and two CPU
    descriptor slots, sized to a window, and tracks the state of its last barrier. */
module RenderTextures {
  import opened Wrappers
  import opened Gpu

  /** size_t on a 64-bit target. */
  const SizeMax: int := 0xFFFF_FFFF_FFFF_FFFF
  type SizeT = x: int | 0 <= x <= SizeMax

  const Uint32Max: int := 0xFFFF_FFFF

  /** LONG, the coordinate type of a RECT. */
  const LongMin: int := -0x8000_0000
  const LongMax: int := 0x7FFF_FFFF
  type Long = x: int | LongMin <= x <= LongMax

  datatype Rect = Rect(left: Long, top: Long, right: Long, bottom: Long)

  /** The exceptions RenderTexture throws. */
  datatype Error =
    | FormatQueryFailed      // CheckFeatureSupport failed
    | UnsupportedFormat      // the format cannot be both a 2D texture and a render target
    | InvalidDescriptors     // a null descriptor handle
    | DimensionOutOfRange    // a dimension does not fit a 32-bit UINT
    | ResourceCreationFailed // CreateCommittedResource failed

  /** D3D12_FORMAT_SUPPORT1_TEXTURE2D and D3D12_FORMAT_SUPPORT1_RENDER_TARGET. */
  const Texture2DSupport: bv32 := 0x20
  const RenderTargetSupport: bv32 := 0x4000

  predicate SupportsRenderTexture(support1: bv32) {
    support1 & (Texture2DSupport | RenderTargetSupport) == Texture2DSupport | RenderTargetSupport
  }

  /** The validation SetDevice performs, in its order: the format query, then the
      two support bits, then the two descriptors. */
  function BindCheck(query: Option<bv32>, srv: CpuHandle, rtv: CpuHandle): (r: Outcome<Error>)
    ensures r.Pass? <==>
              && query.Some?
              && query.value & Texture2DSupport != 0 && query.value & RenderTargetSupport != 0
              && srv != NullHandle && rtv != NullHandle
    ensures r == Fail(FormatQueryFailed) <==> query.None?
    ensures r == Fail(UnsupportedFormat) <==>
              query.Some? && (query.value & Texture2DSupport == 0 || query.value & RenderTargetSupport == 0)
    ensures r == Fail(InvalidDescriptors) <==>
              query.Some? && SupportsRenderTexture(query.value) && (srv == NullHandle || rtv == NullHandle)
  {
    if query.None? then Fail(FormatQueryFailed)
    else if !SupportsRenderTexture(query.value) then Fail(UnsupportedFormat)
    else if srv == NullHandle || rtv == NullHandle then Fail(InvalidDescriptors)
    else Pass
  }

  /** `size_t(std::max<LONG>(hi - lo, 1))`: one side of the window, at least 1. */
  function Extent(lo: Long, hi: Long): (r: SizeT)
    requires LongMin <= hi - lo <= LongMax
    ensures 1 <= r <= LongMax
    ensures hi - lo >= 1 ==> r == hi - lo
    ensures hi - lo < 1 ==> r == 1
  {
    if hi - lo < 1 then 1 else hi - lo
  }

  /** `static_cast<UINT>(x)`: keeps the low 32 bits. */
  function ToUint(x: SizeT): nat {
    x % 0x1_0000_0000
  }

  /** What SizeResources does before it looks at the device: nothing when the size
      is unchanged, throw when out of range, otherwise go on to resize. */
  datatype ResizeDecision = Unchanged | OutOfRange | Resize

  /** The range test as written: it looks at the stored width and height, not at the
      requested ones. */
  function ResizeDecisionAsWritten(storedWidth: nat, storedHeight: nat, width: SizeT, height: SizeT): (d: ResizeDecision)
    ensures d == Unchanged <==> width == storedWidth && height == storedHeight
    ensures d == OutOfRange <==>
              !(width == storedWidth && height == storedHeight) && (storedWidth > Uint32Max || storedHeight > Uint32Max)
  {
    if width == storedWidth && height == storedHeight then Unchanged
    else if storedWidth > Uint32Max || storedHeight > Uint32Max then OutOfRange
    else Resize
  }

  /** The test as written admits a request whose height does not fit a UINT: a
      1 x (2^32 + 600) request is let through, the texture is created with the
      truncated height 600 while 2^32 + 600 is stored, and from then on every new
      size, even 800 x 600, is refused. */
  lemma AsWrittenGuardAdmitsTruncatedHeight()
    ensures ResizeDecisionAsWritten(0, 0, 1, 0x1_0000_0258) == Resize
    ensures ToUint(0x1_0000_0258) == 600
    ensures ResizeDecisionAsWritten(1, 0x1_0000_0258, 800, 600) == OutOfRange
  {
  }

  /** The range test on the requested size. */
  function ResizeDecisionFor(storedWidth: nat, storedHeight: nat, width: SizeT, height: SizeT): (d: ResizeDecision)
    ensures d == Unchanged <==> width == storedWidth && height == storedHeight
    ensures d == OutOfRange <==>
              !(width == storedWidth && height == storedHeight) && (width > Uint32Max || height > Uint32Max)
    ensures d == Resize ==> ToUint(width) == width && ToUint(height) == height
  {
    if width == storedWidth && height == storedHeight then Unchanged
    else if width > Uint32Max || height > Uint32Max then OutOfRange
    else Resize
  }

  /** On the stored sizes the corrected test lets through (every stored size fits a
      UINT) the two tests differ only on requests that do not fit a UINT; the
      window sizes SetWindow passes always fit. */
  lemma GuardsAgreeOnRepresentableSizes(storedWidth: nat, storedHeight: nat, width: SizeT, height: SizeT)
    requires storedWidth <= Uint32Max && storedHeight <= Uint32Max
    ensures ResizeDecisionAsWritten(storedWidth, storedHeight, width, height)
              == ResizeDecisionFor(storedWidth, storedHeight, width, height)
         <==> (width == storedWidth && height == storedHeight) || (width <= Uint32Max && height <= Uint32Max)
  {
  }

  /** The fields of a RenderTexture other than its format, as one value. */
  datatype Surface = Surface(
    device: Device?,
    resource: Option<Texture2D>,
    state: ResourceState,
    srv: CpuHandle,
    rtv: CpuHandle,
    clearColor: Rgba,
    width: nat,
    height: nat)

  /** `m_clearColor{}`. */
  const NoColor: Rgba := Rgba(0.0, 0.0, 0.0, 0.0)

  /** The state the constructor sets up and ReleaseDevice returns to; only the
      clear colour (and the format) survive. */
  function Released(clearColor: Rgba): Surface {
    Surface(null, None, Common, NullHandle, NullHandle, clearColor, 0, 0)
  }

  class RenderTexture {
    var device: Device?
    var resource: Option<Texture2D>
    var state: ResourceState
    var srvDescriptor: CpuHandle
    var rtvDescriptor: CpuHandle
    var clearColor: Rgba
    const format: Format
    var width: nat
    var height: nat

    /** Only a bound surface has descriptors or a texture; the stored size is the
        texture's size (0 x 0 without one) and fits a UINT. */
    ghost predicate Valid()
      reads this
    {
      && width <= Uint32Max && height <= Uint32Max
      && (device == null ==> resource == None && srvDescriptor == NullHandle && rtvDescriptor == NullHandle)
      && (resource == None ==> width == 0 && height == 0)
      && (resource.Some? ==>
            resource.value.width == width && resource.value.height == height && resource.value.format == format)
    }

    ghost function Snapshot(): Surface
      reads this
    {
      Surface(device, resource, state, srvDescriptor, rtvDescriptor, clearColor, width, height)
    }

    constructor (format: Format)
      ensures Valid() && this.format == format
      ensures Snapshot() == Released(NoColor)
    {
      this.format := format;
      device := null;
      resource := None;
      state := Common;
      srvDescriptor := NullHandle;
      rtvDescriptor := NullHandle;
      clearColor := NoColor;
      width := 0;
      height := 0;
    }

    /** GetResource: the texture as a barrier or view target (NoResource when null). */
    function GetResource(): (r: ResourceRef)
      reads this`resource
      ensures r == NoResource <==> resource.None?
      ensures resource.Some? ==> r == Committed(resource.value.id)
    {
      if resource.Some? then Committed(resource.value.id) else NoResource
    }

    /** GetCurrentState: the state the last barrier left the texture in. */
    function GetCurrentState(): (s: ResourceState)
      reads this
      ensures s == Snapshot().state
    {
      state
    }

    /** GetFormat: the format fixed at construction. */
    function GetFormat(): (f: Format)
      ensures f == format
    {
      format
    }

    /** Binds the surface to `dev` and two descriptor slots. Rebinding to what is
        already bound does nothing; otherwise a bound device is released first and
        the new binding is validated before anything is assigned. */
    method SetDevice(dev: Device?, srv: CpuHandle, rtv: CpuHandle) returns (r: Outcome<Error>)
      requires Valid()
      requires dev != null || (dev == device && srv == srvDescriptor && rtv == rtvDescriptor)
      modifies this
      ensures Valid()
      ensures old(dev == device && srv == srvDescriptor && rtv == rtvDescriptor) ==>
                r == Pass && Snapshot() == old(Snapshot())
      ensures !old(dev == device && srv == srvDescriptor && rtv == rtvDescriptor) ==>
                var base := if old(device) != null then Released(old(clearColor)) else old(Snapshot());
                && dev != null
                && r == BindCheck(dev.CheckFormatSupport(format), srv, rtv)
                && (r.Pass? ==> Snapshot() == base.(device := dev, srv := srv, rtv := rtv))
                && (r.Fail? ==> Snapshot() == base)
    {
      if dev == device && srvDescriptor == srv && rtvDescriptor == rtv {
        return Pass;
      }
      if device != null {
        ReleaseDevice();
      }
      var support := dev.CheckFormatSupport(format);
      if support.None? {
        return Fail(FormatQueryFailed);
      }
      if !SupportsRenderTexture(support.value) {
        return Fail(UnsupportedFormat);
      }
      if srv == NullHandle || rtv == NullHandle {
        return Fail(InvalidDescriptors);
      }
      device := dev;
      srvDescriptor := srv;
      rtvDescriptor := rtv;
      r := Pass;
    }

    /** What SizeResources(w, h) leaves behind, given whether the device could
        allocate the texture. */
    twostate predicate SizedTo(w: SizeT, h: SizeT, allocationSucceeds: bool, new r: Outcome<Error>)
      reads this, device
    {
      && device == old(device) && srvDescriptor == old(srvDescriptor) && rtvDescriptor == old(rtvDescriptor)
      && clearColor == old(clearColor)
      && var d := ResizeDecisionFor(old(width), old(height), w, h);
      && (d == Unchanged ==> r == Pass && Snapshot() == old(Snapshot()))
      && (d == OutOfRange ==> r == Fail(DimensionOutOfRange) && Snapshot() == old(Snapshot()))
      && (d == Resize && device == null ==> r == Pass && Snapshot() == old(Snapshot()))
      && (d != Resize || device == null ==> device != null ==> unchanged(device))
      && (d == Resize && device != null ==>
            && state == RenderTarget
            && device.heapCount == old(device.heapCount)
            && (allocationSucceeds ==>
                  var id := old(device.resourceCount);
                  && r == Pass
                  && resource == Some(Texture2D(id, w, h, format, clearColor))
                  && width == w && height == h
                  && device.resourceCount == id + 1
                  && device.views ==
                       old(device.views)[rtvDescriptor := RenderTargetView(Committed(id))]
                                        [srvDescriptor := ShaderResourceView(Committed(id))])
            && (!allocationSucceeds ==>
                  && r == Fail(ResourceCreationFailed)
                  && resource == None && width == 0 && height == 0
                  && device.resourceCount == old(device.resourceCount)
                  && device.views == old(device.views)))
    }

    /** (Re)creates the texture at `w` x `h` in the RenderTarget state with the
        clear colour as its clear value, and writes its RTV and SRV into the bound
        descriptor slots. The range test is on the requested size (see
        ResizeDecisionAsWritten for the test as written). */
    method SizeResources(w: SizeT, h: SizeT, allocationSucceeds: bool) returns (r: Outcome<Error>)
      requires Valid()
      modifies this, device
      ensures Valid()
      ensures SizedTo(w, h, allocationSucceeds, r)
    {
      var d := ResizeDecisionFor(width, height, w, h);
      if d == Unchanged {
        return Pass;
      }
      if d == OutOfRange {
        return Fail(DimensionOutOfRange);
      }
      if device == null {
        return Pass;
      }
      width, height := 0, 0;
      state := RenderTarget;
      resource := None;
      var id := device.CreateCommittedResource(allocationSucceeds);
      if id.None? {
        return Fail(ResourceCreationFailed);
      }
      resource := Some(Texture2D(id.value, w, ToUint(h), format, clearColor));
      device.CreateView(rtvDescriptor, RenderTargetView(Committed(id.value)));
      device.CreateView(srvDescriptor, ShaderResourceView(Committed(id.value)));
      width, height := w, h;
      r := Pass;
    }

    /** Drops the texture and the device and forgets the descriptors; safe to call
        on a released surface. */
    method ReleaseDevice()
      modifies this
      ensures Valid()
      ensures Snapshot() == Released(old(clearColor))
    {
      resource := None;
      device := null;
      state := Common;
      width, height := 0, 0;
      srvDescriptor, rtvDescriptor := NullHandle, NullHandle;
    }

    /** Records one barrier from the tracked state to `after` and tracks `after`. */
    method TransitionTo(cl: CommandList, after: ResourceState)
      requires cl.isOpen
      modifies this`state, cl
      ensures cl.isOpen && state == after
      ensures cl.log == old(cl.log) + [ResourceBarrier(GetResource(), old(state), after)]
      ensures forall s0 :: ApplyBarriers(old(cl.log), GetResource(), s0) == Some(old(state)) ==>
                ApplyBarriers(cl.log, GetResource(), s0) == Some(after)
    {
      ghost var before := cl.log;
      cl.Record(ResourceBarrier(GetResource(), state, after));
      state := after;
      forall s0 | ApplyBarriers(before, GetResource(), s0) == Some(old(state))
        ensures ApplyBarriers(cl.log, GetResource(), s0) == Some(after)
      {
        AppendMatchingBarrier(before, GetResource(), s0, old(state), after);
      }
    }

    /** Sizes the surface to the client area `output`, at least 1 x 1. */
    method SetWindow(output: Rect, allocationSucceeds: bool) returns (r: Outcome<Error>)
      requires Valid()
      requires LongMin <= output.right - output.left <= LongMax
      requires LongMin <= output.bottom - output.top <= LongMax
      modifies this, device
      ensures Valid()
      ensures SizedTo(Extent(output.left, output.right), Extent(output.top, output.bottom), allocationSucceeds, r)
    {
      var w := Extent(output.left, output.right);
      var h := Extent(output.top, output.bottom);
      r := SizeResources(w, h, allocationSucceeds);
    }

    /** Makes the surface a render target, with a barrier only when it is not one. */
    method BeginScene(cl: CommandList)
      requires cl.isOpen
      modifies this`state, cl
      ensures cl.isOpen && state == RenderTarget
      ensures cl.log == old(cl.log) + BeginSceneBarriers(GetResource(), old(state))
    {
      if state != RenderTarget {
        TransitionTo(cl, RenderTarget);
      }
    }

    /** Makes the surface shader-readable, always with one barrier. */
    method EndScene(cl: CommandList)
      requires cl.isOpen
      modifies this`state, cl
      ensures cl.isOpen && state == PixelShaderResource
      ensures cl.log == old(cl.log) + [ResourceBarrier(GetResource(), old(state), PixelShaderResource)]
    {
      TransitionTo(cl, PixelShaderResource);
    }

    method SetClearColor(color: Rgba)
      modifies this`clearColor
      ensures clearColor == color
    {
      clearColor := color;
    }
  }

  /** The barriers BeginScene records for a surface in state `from`. */
  function BeginSceneBarriers(target: ResourceRef, from: ResourceState): (r: seq<Command>)
    ensures |r| <= 1
    ensures r == [] <==> from == RenderTarget
    ensures ApplyBarriers(r, target, from) == Some(RenderTarget)
  {
    if from == RenderTarget then [] else [ResourceBarrier(target, from, RenderTarget)]
  }

  /** Two BeginScene calls in a row record at most one barrier. */
  method BeginSceneTwice(rt: RenderTexture, cl: CommandList)
    requires cl.isOpen
    modifies rt, cl
    ensures |cl.log| <= |old(cl.log)| + 1 && rt.state == RenderTarget
  {
    rt.BeginScene(cl);
    rt.BeginScene(cl);
  }

  /** Sizing a bound surface twice to the same (non-empty) size allocates at most
      once: after the first call the surface has a texture of that size, and the
      second call passes and keeps it. */
  method ResizeTwice(rt: RenderTexture, w: SizeT, h: SizeT) returns (first: Option<Texture2D>, second: Outcome<Error>)
    requires rt.Valid() && rt.device != null
    requires 1 <= w <= Uint32Max && 1 <= h <= Uint32Max
    modifies rt, rt.device
    ensures rt.Valid() && rt.width == w && rt.height == h
    ensures first.Some? && first.value.width == w && first.value.height == h
    ensures second == Pass && rt.resource == first
  {
    var r1 := rt.SizeResources(w, h, true);
    first := rt.resource;
    second := rt.SizeResources(w, h, true);
  }
}
