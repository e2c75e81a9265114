/** The Direct3D 11 backend: device creation, swap-chain description, shader
    compilation, vertex-buffer layout and draw submission.

    Every native call (D3D11, DXGI, the shader compiler, `MessageBoxA`) is an
    opaque step that appends one `GpuEvent` to the device's ghost `trace`;
    what such a call returns (success or failure, and the handles it
    creates) is an oracle value passed in as a parameter. */
module AlienDx11 {
  import opened AlienBase

  // ---------------------------------------------------------------------
  // Descriptors
  // ---------------------------------------------------------------------

  const DefaultWidth: u32 := 800
  const DefaultHeight: u32 := 600

  datatype Format = R8G8B8A8Unorm | R32G32Float | R32G32B32A32Float
  datatype ScanlineOrder = ScanlineUnspecified
  datatype Scaling = ScalingUnspecified
  datatype BufferUsage = RenderTargetOutput
  datatype SwapEffect = Discard

  /** `DXGI_MODE_DESC`: the back buffer's display mode. */
  datatype ModeDesc = ModeDesc(
    width: u32, height: u32,
    refreshNumerator: nat, refreshDenominator: nat,
    format: Format, scanline: ScanlineOrder, scaling: Scaling)

  /** `DXGI_SWAP_CHAIN_DESC`. */
  datatype SwapChainDesc = SwapChainDesc(
    bufferDesc: ModeDesc,
    sampleCount: nat, sampleQuality: nat,
    usage: BufferUsage, bufferCount: nat,
    outputWindow: Option<Handle>, windowed: bool, swapEffect: SwapEffect)

  /** The swap-chain description `init_context_dx11` hands to the device
      factory for a device of the given size and window. */
  function SwapChainDescFor(width: u32, height: u32, window: Option<Handle>): SwapChainDesc
  {
    SwapChainDesc(
      ModeDesc(width, height, 60, 1, R8G8B8A8Unorm, ScanlineUnspecified, ScalingUnspecified),
      1, 0, RenderTargetOutput, 1, window, true, Discard)
  }

  /** One element of an input layout (`D3D11_INPUT_ELEMENT_DESC`), with its
      aligned byte offset resolved. */
  datatype InputElement = InputElement(semantic: string, format: Format, offset: nat)

  /** Size in bytes of one attribute of the given format. */
  function FormatSize(f: Format): nat
  {
    match f
    case R8G8B8A8Unorm => 4
    case R32G32Float => 8
    case R32G32B32A32Float => 16
  }

  /** Where an element of an input layout starts: at a byte offset
      written out, or `D3D11_APPEND_ALIGNED_ELEMENT`, right after the
      previous element. */
  datatype AlignedOffset = At(offset: nat) | AppendAligned

  /** One element as the layout declares it, offset not yet resolved. */
  datatype ElementDesc = ElementDesc(semantic: string, format: Format, alignedOffset: AlignedOffset)

  /** The position/colour layout as declared: a two-float position at
      offset 0, then a four-float colour appended after it. */
  const PositionColorDesc: seq<ElementDesc> :=
    [ElementDesc("POS", R32G32Float, At(0)),
     ElementDesc("COL", R32G32B32A32Float, AppendAligned)]

  /** Resolves the offsets of a declared layout whose next appended
      element would start at byte `next`. Every format here is a whole
      number of 32-bit words, so appending inserts no padding. */
  function ResolveOffsets(descs: seq<ElementDesc>, next: nat): (r: seq<InputElement>)
    ensures |r| == |descs|
    ensures forall i :: 0 <= i < |descs| ==>
      r[i].semantic == descs[i].semantic && r[i].format == descs[i].format
    ensures forall i :: 0 <= i < |descs| && descs[i].alignedOffset.At? ==>
      r[i].offset == descs[i].alignedOffset.offset
    ensures |descs| > 0 && descs[0].alignedOffset.AppendAligned? ==> r[0].offset == next
    ensures forall i :: 0 < i < |descs| && descs[i].alignedOffset.AppendAligned? ==>
      r[i].offset == r[i - 1].offset + FormatSize(r[i - 1].format)
  {
    if descs == [] then []
    else
      var d := descs[0];
      var start := if d.alignedOffset.At? then d.alignedOffset.offset else next;
      [InputElement(d.semantic, d.format, start)] + ResolveOffsets(descs[1..], start + FormatSize(d.format))
  }

  /** The layout `create_buffer` binds, offsets resolved. */
  const PositionColorLayout: seq<InputElement> := ResolveOffsets(PositionColorDesc, 0)

  /** Bytes one vertex occupies under a layout whose elements are packed in
      order without padding. */
  function LayoutSize(layout: seq<InputElement>): nat
  {
    if layout == [] then 0 else FormatSize(layout[0].format) + LayoutSize(layout[1..])
  }

  /** `sizeof(f32)`. */
  const F32Size: nat := 4
  /** x, y, r, g, b, a. */
  const FloatsPerVertex: nat := 6
  /** The triangle `create_buffer` uploads: three vertices of six floats. */
  const TriangleFloats: nat := 18

  /** `stride = 6 * sizeof(f32)`. */
  const VertexStride: u32 := FloatsPerVertex * F32Size

  /** The hand-written stride agrees with the input layout the shader is
      bound to, so consecutive vertices line up with the declared
      attributes. */
  lemma StrideMatchesLayout()
    ensures LayoutSize(PositionColorLayout) == VertexStride
    ensures PositionColorLayout[1].offset == FormatSize(PositionColorLayout[0].format)
  {
    var layout := PositionColorLayout;
    assert layout[0].format == R32G32Float && layout[1].format == R32G32B32A32Float;
    assert layout[1..] == [layout[1]];
    assert layout[1..][1..] == [];
    assert LayoutSize(layout[1..]) == FormatSize(R32G32B32A32Float) + LayoutSize([]);
  }

  /** `numVers = sizeof(vertexData) / stride`: the number of whole vertices
      in a vertex array of `byteWidth` bytes. */
  function VertexCount(byteWidth: nat, stride: nat): (n: nat)
    requires stride > 0
    ensures n * stride <= byteWidth < (n + 1) * stride
  {
    byteWidth / stride
  }

  /** `Extra::BufferDescriptor`: a vertex buffer with its input layout and
      the numbers `draw_command` needs to bind and draw it. */
  datatype BufferDescriptor = BufferDescriptor(
    buffer: Handle, inputLayout: Handle, stride: u32, offset: u32, vertexCount: u32)

  datatype BufferUsageKind = Immutable
  datatype Topology = TriangleList

  // ---------------------------------------------------------------------
  // Native calls, as trace events
  // ---------------------------------------------------------------------

  datatype Stage = VertexStage | PixelStage

  datatype GpuEvent =
    | CreateDeviceAndSwapChain(desc: SwapChainDesc)
    | GetBuffer(index: nat)
    | CreateRenderTargetView(backBuffer: Handle)
    | Release(object: Handle)
    | SetRenderTargets(view: Option<Handle>)
    | CompileFromFile(file: string, entryPoint: string, target: string)
    | CreateShader(stage: Stage, blob: Handle)
    | MessageBox(text: Option<string>, caption: string)
    | CreateInputLayout(layout: seq<InputElement>, vertexShaderBlob: Handle)
    | CreateVertexBuffer(byteWidth: nat, usage: BufferUsageKind)
    | CreateQuadBuffer(shaderBlob: Option<Handle>)
    | ClearRenderTargetView(view: Option<Handle>)
    | SetViewport
    | SetTopology(topology: Topology)
    | SetInputLayout(boundLayout: Handle)
    | SetShader(shaderStage: Stage, shader: Option<Handle>)
    | SetVertexBuffer(vertexBuffer: Handle, stride: u32, offset: u32)
    | Draw(vertexCount: nat, startVertex: nat)
    | Present(syncInterval: nat, flags: nat)

  predicate IsDraw(e: GpuEvent) { e.Draw? }
  predicate IsPresent(e: GpuEvent) { e.Present? }
  predicate IsClear(e: GpuEvent) { e.ClearRenderTargetView? }
  predicate IsMessageBox(e: GpuEvent) { e.MessageBox? }

  // ---------------------------------------------------------------------
  // Oracle results of native calls
  // ---------------------------------------------------------------------

  /** What `D3D11CreateDeviceAndSwapChain` produced, and on success the
      objects obtained right after it: the back buffer (buffer 0) and the
      render-target view created on it. */
  datatype DeviceOutcome =
    | DeviceFailed
    | DeviceCreated(device: Handle, swapChain: Handle, context: Handle,
                    backBuffer: Handle, view: Handle)

  /** The compiler's error blob: its handle and the log text it holds. */
  datatype ErrorBlob = ErrorBlob(blob: Handle, log: string)

  /** What `D3DCompileFromFile` (and, on success, the shader-object
      creation after it) produced. */
  datatype CompileOutcome =
    | Compiled(blob: Handle, shader: Handle)
    | FileNotFound
    | CompileFailed(errors: Option<ErrorBlob>)

  const ShaderFile := "shaders.hlsl"
  const FileNotFoundText := "Could not compile shader; file not found"
  const CompileErrorCaption := "Shader Compiler Error"

  function EntryPoint(stage: Stage): string
  {
    match stage
    case VertexStage => "vs_main"
    case PixelStage => "ps_main"
  }

  function Target(stage: Stage): string
  {
    match stage
    case VertexStage => "vs_5_0"
    case PixelStage => "ps_5_0"
  }

  /** The text a failed compilation shows: the fixed file-not-found text,
      else the compiler's log when it produced one, else nothing (NULL). */
  function FailureText(o: CompileOutcome): Option<string>
  {
    if o.FileNotFound? then Some(FileNotFoundText)
    else if o.CompileFailed? && o.errors.Some? then Some(o.errors.value.log)
    else None
  }

  /** The native calls one `compile_*_shader` call makes. */
  function CompileEvents(stage: Stage, o: CompileOutcome): seq<GpuEvent>
  {
    CompilePrefix(stage, o) +
    if o.Compiled? then [] else [MessageBox(FailureText(o), CompileErrorCaption)]
  }

  /** The calls before the failure message, if any: the compilation, then
      on success the shader object's creation (and for the pixel stage the
      release of the blob), on a failure with a log the log's release. */
  function CompilePrefix(stage: Stage, o: CompileOutcome): seq<GpuEvent>
  {
    [CompileFromFile(ShaderFile, EntryPoint(stage), Target(stage))] +
    match o
    case Compiled(blob, _) =>
      [CreateShader(stage, blob)] + (if stage == PixelStage then [Release(blob)] else [])
    case CompileFailed(Some(e)) => [Release(e.blob)]
    case _ => []
  }

  /** Whatever path the caller names, the one shader file is compiled; a
      failure is shown to the user exactly once, with the fixed
      file-not-found text when the file is missing and the compiler's log
      otherwise, and a success is never shown; on success the shader
      object is built from the compiled blob. */
  lemma CompileFailureShown(stage: Stage, o: CompileOutcome)
    ensures var t := CompileEvents(stage, o);
      && t[0] == CompileFromFile(ShaderFile, EntryPoint(stage), Target(stage))
      && (o.Compiled? ==> Filter(t, IsMessageBox) == [] && CreateShader(stage, o.blob) in t)
      && (o.FileNotFound? ==> Filter(t, IsMessageBox) == [MessageBox(Some(FileNotFoundText), CompileErrorCaption)])
      && (o.CompileFailed? && o.errors.Some? ==>
            Filter(t, IsMessageBox) == [MessageBox(Some(o.errors.value.log), CompileErrorCaption)])
      && (o.CompileFailed? && o.errors.None? ==> Filter(t, IsMessageBox) == [MessageBox(None, CompileErrorCaption)])
  {
    var prefix := CompilePrefix(stage, o);
    if o.Compiled? {
      assert CompileEvents(stage, o) == prefix;
      FilterNone(prefix, IsMessageBox);
    } else {
      FilterLast(prefix, MessageBox(FailureText(o), CompileErrorCaption), IsMessageBox);
    }
  }

  /** The native calls `init_context_dx11` makes. */
  function DeviceSetupEvents(desc: SwapChainDesc, o: DeviceOutcome): seq<GpuEvent>
  {
    [CreateDeviceAndSwapChain(desc)] +
    match o
    case DeviceFailed => []
    case DeviceCreated(_, _, _, backBuffer, view) =>
      [GetBuffer(0), CreateRenderTargetView(backBuffer), Release(backBuffer),
       SetRenderTargets(Some(view))]
  }

  /** The native calls `next_frame` makes: clear, viewport, bind. */
  function NextFrameEvents(view: Option<Handle>): seq<GpuEvent>
  {
    [ClearRenderTargetView(view), SetViewport, SetRenderTargets(view)]
  }

  /** The binding calls `draw_command` makes before it draws. */
  function BindEvents(desc: BufferDescriptor, vs: Option<Handle>, ps: Option<Handle>): seq<GpuEvent>
  {
    [SetTopology(TriangleList), SetInputLayout(desc.inputLayout),
     SetShader(VertexStage, vs), SetShader(PixelStage, ps),
     SetVertexBuffer(desc.buffer, desc.stride, desc.offset)]
  }

  /** The native calls `draw_command` makes. */
  function DrawCommandEvents(desc: BufferDescriptor, vs: Option<Handle>, ps: Option<Handle>): seq<GpuEvent>
  {
    BindEvents(desc, vs, ps) + [Draw(desc.vertexCount, 0)] + [Present(1, 0)]
  }

  /** One `draw_command` issues exactly one draw of `vertexCount` vertices,
      then exactly one present with sync interval 1, and clears nothing. */
  lemma DrawCommandDrawsOnce(desc: BufferDescriptor, vs: Option<Handle>, ps: Option<Handle>)
    ensures var t := DrawCommandEvents(desc, vs, ps);
      && Filter(t, IsDraw) == [Draw(desc.vertexCount, 0)]
      && Filter(t, IsPresent) == [Present(1, 0)]
      && Filter(t, IsClear) == []
      && t[|t| - 2] == Draw(desc.vertexCount, 0) && t[|t| - 1] == Present(1, 0)
  {
    var bind := BindEvents(desc, vs, ps);
    var d, p := Draw(desc.vertexCount, 0), Present(1, 0);
    FilterNone(bind, IsDraw);
    FilterNone(bind, IsPresent);
    FilterNone(bind, IsClear);
    FilterTwo(bind, d, p, IsDraw);
    FilterTwo(bind, d, p, IsPresent);
    FilterTwo(bind, d, p, IsClear);
  }

  // ---------------------------------------------------------------------
  // The physical device
  // ---------------------------------------------------------------------

  /** `Extension::DX11::DX11PhysicalDevice`. */
  class PhysicalDevice {
    var device: Option<Handle>
    var deviceContext: Option<Handle>
    var renderTargetView: Option<Handle>
    var swapChain: Option<Handle>
    var width: u32
    var height: u32
    var windowHandle: Option<Handle>
    var instance: Option<Handle>
    var isInitialized: bool
    /** Every native call made through this device, oldest first. */
    ghost var trace: seq<GpuEvent>

    constructor(w: u32, h: u32)
      ensures width == w && height == h && !isInitialized
      ensures device == None && deviceContext == None
      ensures renderTargetView == None && swapChain == None
      ensures windowHandle == None && instance == None
      ensures trace == []
    {
      width, height := w, h;
      device, deviceContext, renderTargetView, swapChain := None, None, None, None;
      windowHandle, instance := None, None;
      isInitialized := false;
      trace := [];
    }

    /** Records the window and instance handles and marks the device
        initialised; nothing else changes. */
    method InitDevice(handle: Option<Handle>, inst: Option<Handle>)
      modifies this`windowHandle, this`instance, this`isInitialized
      ensures windowHandle == handle && instance == inst && isInitialized
    {
      instance := inst;
      windowHandle := handle;
      isInitialized := true;
    }

    /** Creates the device and the swap chain from the stored size and
        window; on success creates a render-target view on back buffer 0
        and binds it. */
    method InitContext(o: DeviceOutcome) returns (ok: bool)
      requires isInitialized
      modifies this`device, this`swapChain, this`deviceContext, this`renderTargetView, this`trace
      ensures ok <==> o.DeviceCreated?
      ensures trace == old(trace) + DeviceSetupEvents(SwapChainDescFor(width, height, windowHandle), o)
      ensures !ok ==> (device == old(device) && swapChain == old(swapChain) &&
                       deviceContext == old(deviceContext) && renderTargetView == old(renderTargetView))
      ensures ok ==> (device == Some(o.device) && swapChain == Some(o.swapChain) &&
                      deviceContext == Some(o.context) && renderTargetView == Some(o.view))
    {
      var desc := SwapChainDescFor(width, height, windowHandle);
      trace := trace + [CreateDeviceAndSwapChain(desc)];
      if o.DeviceFailed? {
        return false;
      }
      swapChain, device, deviceContext := Some(o.swapChain), Some(o.device), Some(o.context);
      trace := trace + [GetBuffer(0)];
      trace := trace + [CreateRenderTargetView(o.backBuffer)];
      renderTargetView := Some(o.view);
      trace := trace + [Release(o.backBuffer)];
      trace := trace + [SetRenderTargets(renderTargetView)];
      ok := true;
    }

    /** Compiles the vertex shader of the shader file (the `path` argument
        is not used). The out-parameters are written only on success; on
        failure they keep the values the caller passed in. */
    method CompileVertexShader(path: string, o: CompileOutcome, blobSlot: Option<Handle>, shaderSlot: Option<Handle>)
      returns (ok: bool, blobOut: Option<Handle>, shaderOut: Option<Handle>)
      requires o.Compiled? ==> device.Some?
      modifies this`trace
      ensures ok <==> o.Compiled?
      ensures ok ==> blobOut == Some(o.blob) && shaderOut == Some(o.shader)
      ensures !ok ==> blobOut == blobSlot && shaderOut == shaderSlot
      ensures trace == old(trace) + CompileEvents(VertexStage, o)
    {
      trace := trace + [CompileFromFile(ShaderFile, "vs_main", "vs_5_0")];
      if !o.Compiled? {
        if o.CompileFailed? && o.errors.Some? {
          trace := trace + [Release(o.errors.value.blob)];
        }
        var text := if o.FileNotFound? then Some(FileNotFoundText)
                    else if o.errors.Some? then Some(o.errors.value.log) else None;
        trace := trace + [MessageBox(text, CompileErrorCaption)];
        return false, blobSlot, shaderSlot;
      }
      trace := trace + [CreateShader(VertexStage, o.blob)];
      ok, blobOut, shaderOut := true, Some(o.blob), Some(o.shader);
    }

    /** Compiles the pixel shader of the shader file (the `path` argument is
        not used). As written, the compiled blob is released before it is
        stored into the caller's out-parameter. */
    method CompilePixelShader(path: string, o: CompileOutcome, blobSlot: Option<Handle>, shaderSlot: Option<Handle>)
      returns (ok: bool, blobOut: Option<Handle>, shaderOut: Option<Handle>)
      requires o.Compiled? ==> device.Some?
      modifies this`trace
      ensures ok <==> o.Compiled?
      ensures ok ==> blobOut == Some(o.blob) && shaderOut == Some(o.shader)
      ensures !ok ==> blobOut == blobSlot && shaderOut == shaderSlot
      ensures trace == old(trace) + CompileEvents(PixelStage, o)
      ensures ok ==> trace[|trace| - 1] == Release(o.blob)
    {
      trace := trace + [CompileFromFile(ShaderFile, "ps_main", "ps_5_0")];
      if !o.Compiled? {
        if o.CompileFailed? && o.errors.Some? {
          trace := trace + [Release(o.errors.value.blob)];
        }
        var text := if o.FileNotFound? then Some(FileNotFoundText)
                    else if o.errors.Some? then Some(o.errors.value.log) else None;
        trace := trace + [MessageBox(text, CompileErrorCaption)];
        return false, blobSlot, shaderSlot;
      }
      trace := trace + [CreateShader(PixelStage, o.blob)];
      trace := trace + [Release(o.blob)];
      ok, blobOut, shaderOut := true, Some(o.blob), Some(o.shader);
    }

    /** Builds the position/colour input layout against the vertex shader
        blob (then releases the blob) and uploads the immutable triangle.
        `layout` and `buffer` are the handles the device returns. */
    method CreateBuffer(vs: Handle, layout: Handle, buffer: Handle) returns (desc: BufferDescriptor)
      requires device.Some?
      modifies this`trace
      ensures desc.buffer == buffer && desc.inputLayout == layout
      ensures desc.stride == FloatsPerVertex * F32Size && desc.offset == 0
      // the whole vertex array, and nothing past it, is drawn
      ensures desc.vertexCount * desc.stride == TriangleFloats * F32Size
      ensures trace == old(trace) + [CreateInputLayout(PositionColorLayout, vs), Release(vs),
                                     CreateVertexBuffer(TriangleFloats * F32Size, Immutable)]
    {
      trace := trace + [CreateInputLayout(PositionColorLayout, vs)];
      trace := trace + [Release(vs)];
      var stride := VertexStride;
      var numVers := VertexCount(TriangleFloats * F32Size, stride);
      var offset := 0;
      trace := trace + [CreateVertexBuffer(TriangleFloats * F32Size, Immutable)];
      desc := BufferDescriptor(buffer, layout, stride, offset, numVers);
    }

    /** Clears the render target, sets the viewport and binds the target. */
    method NextFrame()
      requires deviceContext.Some?
      modifies this`trace
      ensures trace == old(trace) + NextFrameEvents(renderTargetView)
    {
      trace := trace + [ClearRenderTargetView(renderTargetView)];
      trace := trace + [SetViewport];
      trace := trace + [SetRenderTargets(renderTargetView)];
    }

    /** Binds the buffer and shaders, draws `vertexCount` vertices once and
        presents once with sync interval 1. */
    method DrawCommand(desc: BufferDescriptor, vs: Option<Handle>, ps: Option<Handle>)
      requires deviceContext.Some? && swapChain.Some?
      modifies this`trace
      ensures trace == old(trace) + DrawCommandEvents(desc, vs, ps)
    {
      trace := trace + [SetTopology(TriangleList)];
      trace := trace + [SetInputLayout(desc.inputLayout)];
      trace := trace + [SetShader(VertexStage, vs)];
      trace := trace + [SetShader(PixelStage, ps)];
      trace := trace + [SetVertexBuffer(desc.buffer, desc.stride, desc.offset)];
      trace := trace + [Draw(desc.vertexCount, 0)];
      trace := trace + [Present(1, 0)];
    }
  }

  // ---------------------------------------------------------------------
  // The context wrapper
  // ---------------------------------------------------------------------

  /** `Alien::DX11Context`: the window handles plus the physical device. */
  class DX11Context {
    const physicalDevice: PhysicalDevice
    var windowHandle: Option<Handle>
    var instance: Option<Handle>
    var deviceContext: Option<Handle>
    var initialized: bool

    /** The default constructor: a fresh 800x600 device, nothing set. */
    constructor()
      ensures fresh(physicalDevice) && !initialized
      ensures windowHandle == None
      ensures physicalDevice.width == DefaultWidth && physicalDevice.height == DefaultHeight
      ensures !physicalDevice.isInitialized && physicalDevice.trace == []
      ensures physicalDevice.device == None && physicalDevice.deviceContext == None
      ensures physicalDevice.swapChain == None
      ensures physicalDevice.renderTargetView == None
    {
      physicalDevice := new PhysicalDevice(DefaultWidth, DefaultHeight);
      windowHandle, instance, deviceContext := None, None, None;
      initialized := false;
    }

    /** The constructor taking the handles stores them but does not mark
        the context as set, so `CreateContext` cannot follow it directly. */
    constructor WithHandles(handle: Option<Handle>, inst: Option<Handle>, dc: Option<Handle>)
      ensures fresh(physicalDevice) && !initialized
      ensures windowHandle == handle && instance == inst && deviceContext == dc
      ensures physicalDevice.width == DefaultWidth && physicalDevice.height == DefaultHeight
      ensures !physicalDevice.isInitialized && physicalDevice.trace == []
      ensures physicalDevice.device == None && physicalDevice.deviceContext == None
      ensures physicalDevice.swapChain == None
    {
      physicalDevice := new PhysicalDevice(DefaultWidth, DefaultHeight);
      windowHandle, instance, deviceContext := handle, inst, dc;
      initialized := false;
    }

    method SetContext(handle: Option<Handle>, inst: Option<Handle>, dc: Option<Handle>)
      modifies this
      ensures windowHandle == handle && instance == inst && deviceContext == dc && initialized
    {
      windowHandle := handle;
      instance := inst;
      deviceContext := dc;
      initialized := true;
    }

    /** `init_device` with the stored handles, then `init_context_dx11`,
        whose result is discarded. */
    method CreateContext(o: DeviceOutcome)
      requires initialized
      modifies physicalDevice
      ensures physicalDevice.isInitialized
      ensures physicalDevice.windowHandle == windowHandle && physicalDevice.instance == instance
      ensures physicalDevice.width == old(physicalDevice.width)
      ensures physicalDevice.height == old(physicalDevice.height)
      ensures physicalDevice.trace == old(physicalDevice.trace) +
        DeviceSetupEvents(SwapChainDescFor(physicalDevice.width, physicalDevice.height, windowHandle), o)
      ensures physicalDevice.renderTargetView ==
        if o.DeviceCreated? then Some(o.view) else old(physicalDevice.renderTargetView)
      ensures o.DeviceCreated? ==>
        (physicalDevice.device == Some(o.device) && physicalDevice.deviceContext == Some(o.context) &&
         physicalDevice.swapChain == Some(o.swapChain))
      ensures o.DeviceFailed? ==>
        (physicalDevice.device == old(physicalDevice.device) &&
         physicalDevice.deviceContext == old(physicalDevice.deviceContext) &&
         physicalDevice.swapChain == old(physicalDevice.swapChain))
    {
      physicalDevice.InitDevice(windowHandle, instance);
      var _ := physicalDevice.InitContext(o);
    }
  }
}
