/** `Alien::Sprite`, the one concrete renderable: a triangle drawn with the
    shaders of the shader file through the context every sprite shares. */
module AlienSprite {
  import opened AlienBase
  import opened AlienDx11

  /** Holder of the static `Sprite::Context` pointer: one object shared by
      every sprite of the process. */
  class SpriteStatics {
    var context: DX11Context?
    /** Every lifecycle hook invoked on a sprite of the process, oldest
        first. */
    ghost var hooks: seq<Hook>

    constructor()
      ensures context == null && hooks == []
    {
      context := null;
      hooks := [];
    }
  }

  datatype HookKind = InitHook | DrawHook | ReleaseHook

  /** One invocation of a lifecycle hook on a renderable. */
  datatype Hook = Hook(kind: HookKind, target: Sprite)

  /** What the native calls made by one `on_init` return: the outcome of
      compiling each stage, and the descriptor `create_quad_buffer` hands
      back. */
  datatype InitOracle = InitOracle(vertex: CompileOutcome, pixel: CompileOutcome, quad: BufferDescriptor)

  /** What one sprite submits when it is drawn. */
  datatype DrawCall = DrawCall(desc: BufferDescriptor, vertexShader: Option<Handle>, pixelShader: Option<Handle>)

  /** The native calls one `on_draw` makes: `next_frame`, then
      `draw_command`. */
  function FrameEvents(view: Option<Handle>, c: DrawCall): seq<GpuEvent>
  {
    NextFrameEvents(view) + DrawCommandEvents(c.desc, c.vertexShader, c.pixelShader)
  }

  /** One frame clears exactly once, first, then draws the sprite's vertex
      count exactly once and presents exactly once, last. */
  lemma FrameClearsDrawsPresents(view: Option<Handle>, c: DrawCall)
    ensures var t := FrameEvents(view, c);
      && Filter(t, IsClear) == [ClearRenderTargetView(view)]
      && Filter(t, IsDraw) == [Draw(c.desc.vertexCount, 0)]
      && Filter(t, IsPresent) == [Present(1, 0)]
      && t[0] == ClearRenderTargetView(view)
      && t[|t| - 2] == Draw(c.desc.vertexCount, 0) && t[|t| - 1] == Present(1, 0)
  {
    var frame := NextFrameEvents(view);
    var draw := DrawCommandEvents(c.desc, c.vertexShader, c.pixelShader);
    DrawCommandDrawsOnce(c.desc, c.vertexShader, c.pixelShader);
    NextFrameFilters(view);
    FilterAppend(frame, draw, IsClear);
    FilterAppend(frame, draw, IsDraw);
    FilterAppend(frame, draw, IsPresent);
  }

  lemma NextFrameFilters(view: Option<Handle>)
    ensures Filter(NextFrameEvents(view), IsClear) == [ClearRenderTargetView(view)]
    ensures Filter(NextFrameEvents(view), IsDraw) == []
    ensures Filter(NextFrameEvents(view), IsPresent) == []
  {
    var t := NextFrameEvents(view);
    assert t == [ClearRenderTargetView(view)] + [SetViewport, SetRenderTargets(view)];
    FilterAppend([ClearRenderTargetView(view)], [SetViewport, SetRenderTargets(view)], IsClear);
    FilterUnit(ClearRenderTargetView(view), IsClear);
    FilterNone([SetViewport, SetRenderTargets(view)], IsClear);
    FilterNone(t, IsDraw);
    FilterNone(t, IsPresent);
  }

  class Sprite {
    const shared: SpriteStatics
    var vertShaderBlob: Option<Handle>
    var fragShaderBlob: Option<Handle>
    var vertShader: Option<Handle>
    var fragShader: Option<Handle>
    var bufferDesc: Option<BufferDescriptor>

    /** Adopts the renderer's context as the shared one only while no
        context is shared yet; a shared context is never replaced. The
        caller passes `rendererContext` as the renderer's `GetContext()`:
        the renderer's module builds on this one, so the sprite cannot ask
        the renderer itself. */
    constructor(statics: SpriteStatics, rendererContext: DX11Context?)
      modifies statics`context
      ensures statics.hooks == old(statics.hooks)
      ensures shared == statics
      ensures statics.context == if old(statics.context) == null then rendererContext else old(statics.context)
      ensures vertShaderBlob == None && fragShaderBlob == None
      ensures vertShader == None && fragShader == None && bufferDesc == None
    {
      shared := statics;
      vertShaderBlob, fragShaderBlob, vertShader, fragShader := None, None, None, None;
      bufferDesc := None;
      new;
      if statics.context == null {
        statics.context := rendererContext;
      }
    }

    /** The draw this sprite submits; `on_draw` needs a buffer. */
    ghost function Call(): DrawCall
      reads this
      requires bufferDesc.Some?
    {
      DrawCall(bufferDesc.value, vertShader, fragShader)
    }

    /** Compiles the vertex shader, then the pixel shader, then builds the
        quad buffer from the vertex blob, ignoring whether either
        compilation succeeded. */
    method OnInit(o: InitOracle)
      requires shared.context != null
      // a shader that compiles is created on the device
      requires o.vertex.Compiled? || o.pixel.Compiled? ==> shared.context.physicalDevice.device.Some?
      modifies this, shared`hooks, shared.context.physicalDevice`trace
      ensures shared.hooks == old(shared.hooks) + [Hook(InitHook, this)]
      ensures vertShaderBlob == (if o.vertex.Compiled? then Some(o.vertex.blob) else old(vertShaderBlob))
      ensures vertShader == (if o.vertex.Compiled? then Some(o.vertex.shader) else old(vertShader))
      ensures fragShaderBlob == (if o.pixel.Compiled? then Some(o.pixel.blob) else old(fragShaderBlob))
      ensures fragShader == (if o.pixel.Compiled? then Some(o.pixel.shader) else old(fragShader))
      ensures bufferDesc == Some(o.quad)
      ensures shared.context.physicalDevice.trace ==
        old(shared.context.physicalDevice.trace) +
        CompileEvents(VertexStage, o.vertex) + CompileEvents(PixelStage, o.pixel) +
        [CreateQuadBuffer(vertShaderBlob)]
    {
      var device := shared.context.physicalDevice;
      var _, vb, vs := device.CompileVertexShader("shaders.hlsl", o.vertex, vertShaderBlob, vertShader);
      vertShaderBlob, vertShader := vb, vs;
      var _, pb, ps := device.CompilePixelShader("shaders.hlsl", o.pixel, fragShaderBlob, fragShader);
      fragShaderBlob, fragShader := pb, ps;
      // `create_quad_buffer` is not defined by the device: an opaque call
      device.trace := device.trace + [CreateQuadBuffer(vertShaderBlob)];
      bufferDesc := Some(o.quad);
      shared.hooks := shared.hooks + [Hook(InitHook, this)];
    }

    /** Clears and prepares the frame, then draws the sprite and presents. */
    method OnDraw()
      requires shared.context != null && bufferDesc.Some?
      requires shared.context.physicalDevice.deviceContext.Some?
      requires shared.context.physicalDevice.swapChain.Some?
      modifies shared`hooks, shared.context.physicalDevice`trace
      ensures shared.hooks == old(shared.hooks) + [Hook(DrawHook, this)]
      ensures shared.context.physicalDevice.trace ==
        old(shared.context.physicalDevice.trace) +
        FrameEvents(shared.context.physicalDevice.renderTargetView, Call())
    {
      var device := shared.context.physicalDevice;
      device.NextFrame();
      device.DrawCommand(bufferDesc.value, vertShader, fragShader);
      shared.hooks := shared.hooks + [Hook(DrawHook, this)];
    }

    /** Does nothing, whatever state the sprite is in; only the call itself
        is recorded. */
    method OnRelease()
      modifies shared`hooks
      ensures shared.hooks == old(shared.hooks) + [Hook(ReleaseHook, this)]
      ensures unchanged(this) && shared.context == old(shared.context)
      ensures shared.context != null ==> unchanged(shared.context.physicalDevice)
    {
      shared.hooks := shared.hooks + [Hook(ReleaseHook, this)];
    }
  }
}
