/** `Alien::Renderer`: the process-wide render queue that drives the
    `on_init`, `on_draw` and `on_release` hooks of the queued renderables in
    insertion order. */
module AlienGfx {
  import opened AlienBase
  import opened AlienDx11
  import opened AlienSprite

  /** One queued renderable. `priority` and `zOrder` are stored but never
      consulted. */
  datatype RenderQueueInfo = RenderQueueInfo(sprite: Sprite, priority: u32, zOrder: u32)

  /** The hook invocations of one traversal of the queue: one per entry, in
      queue order. */
  function Traverse(kind: HookKind, q: seq<RenderQueueInfo>): (r: seq<Hook>)
    ensures |r| == |q|
    ensures forall i :: 0 <= i < |q| ==> r[i] == Hook(kind, q[i].sprite)
  {
    if q == [] then [] else [Hook(kind, q[0].sprite)] + Traverse(kind, q[1..])
  }

  /** After an entry is pushed, a traversal visits the earlier entries
      exactly as before and then the new one, last. */
  lemma PushThenTraverse(kind: HookKind, q: seq<RenderQueueInfo>, e: RenderQueueInfo)
    ensures Traverse(kind, q + [e]) == Traverse(kind, q) + [Hook(kind, e.sprite)]
  {
  }

  /** Traversal depends on the sprites and their insertion order alone:
      queues that differ only in priorities and z-orders are traversed
      identically. */
  lemma TraversalIgnoresPriority(kind: HookKind, q1: seq<RenderQueueInfo>, q2: seq<RenderQueueInfo>)
    requires |q1| == |q2|
    requires forall i :: 0 <= i < |q1| ==> q1[i].sprite == q2[i].sprite
    ensures Traverse(kind, q1) == Traverse(kind, q2)
  {
  }

  /** The buffer `on_init` leaves a sprite with after the first `n`
      entries were initialised: the quad of the last of those entries that
      holds `s`, or `None` when none does. */
  function LastQuad(q: seq<RenderQueueInfo>, oracles: seq<InitOracle>, s: Sprite, n: nat): Option<BufferDescriptor>
    requires n <= |q| == |oracles|
  {
    if n == 0 then None
    else if q[n - 1].sprite == s then Some(oracles[n - 1].quad)
    else LastQuad(q, oracles, s, n - 1)
  }

  /** The entry at position `k` decides the buffer when no later entry of
      the first `n` holds the same sprite. */
  lemma {:induction false} LastQuadIsLast(q: seq<RenderQueueInfo>, oracles: seq<InitOracle>, n: nat, k: nat)
    requires k < n <= |q| == |oracles|
    requires forall m :: k < m < n ==> q[m].sprite != q[k].sprite
    ensures LastQuad(q, oracles, q[k].sprite, n) == Some(oracles[k].quad)
  {
    if k < n - 1 {
      LastQuadIsLast(q, oracles, n - 1, k);
    }
  }

  /** Every sprite held by one of the first `n` entries has a buffer. */
  lemma {:induction false} LastQuadFound(q: seq<RenderQueueInfo>, oracles: seq<InitOracle>, n: nat, j: nat)
    requires j < n <= |q| == |oracles|
    ensures LastQuad(q, oracles, q[j].sprite, n).Some?
  {
    if q[n - 1].sprite != q[j].sprite {
      LastQuadFound(q, oracles, n - 1, j);
    }
  }

  /** The sprites of the queue. */
  function Sprites(q: seq<RenderQueueInfo>): (r: set<Sprite>)
    ensures forall i :: 0 <= i < |q| ==> q[i].sprite in r
  {
    set i | 0 <= i < |q| :: q[i].sprite
  }

  /** What each entry submits when drawn, in queue order. */
  ghost function DrawCalls(q: seq<RenderQueueInfo>): (r: seq<DrawCall>)
    reads set i | 0 <= i < |q| :: q[i].sprite
    requires forall i :: 0 <= i < |q| ==> q[i].sprite.bufferDesc.Some?
    ensures |r| == |q|
    ensures forall i :: 0 <= i < |q| ==> r[i] == q[i].sprite.Call()
  {
    seq(|q|, i reads set i | 0 <= i < |q| :: q[i].sprite requires 0 <= i < |q| && q[i].sprite.bufferDesc.Some? => q[i].sprite.Call())
  }

  /** The native calls of one render pass: each call's frame in turn. */
  function DrawPass(view: Option<Handle>, calls: seq<DrawCall>): seq<GpuEvent>
  {
    if calls == [] then [] else FrameEvents(view, calls[0]) + DrawPass(view, calls[1..])
  }

  /** One render pass draws every call exactly once, in order, each with
      its own vertex count. */
  lemma {:induction false} DrawPassDrawsEachOnce(view: Option<Handle>, calls: seq<DrawCall>)
    ensures var d := Filter(DrawPass(view, calls), IsDraw);
      |d| == |calls| && forall i :: 0 <= i < |calls| ==> d[i] == Draw(calls[i].desc.vertexCount, 0)
  {
    if calls != [] {
      var head, rest := FrameEvents(view, calls[0]), DrawPass(view, calls[1..]);
      DrawPassDrawsEachOnce(view, calls[1..]);
      FilterAppend(head, rest, IsDraw);
      FrameClearsDrawsPresents(view, calls[0]);
      assert Filter(head, IsDraw) == [Draw(calls[0].desc.vertexCount, 0)];
    }
  }

  /** One render pass presents exactly once per call, always with sync
      interval 1. */
  lemma {:induction false} DrawPassPresentsEachOnce(view: Option<Handle>, calls: seq<DrawCall>)
    ensures var p := Filter(DrawPass(view, calls), IsPresent);
      |p| == |calls| && forall i :: 0 <= i < |calls| ==> p[i] == Present(1, 0)
  {
    if calls != [] {
      var head, rest := FrameEvents(view, calls[0]), DrawPass(view, calls[1..]);
      DrawPassPresentsEachOnce(view, calls[1..]);
      FilterAppend(head, rest, IsPresent);
      FrameClearsDrawsPresents(view, calls[0]);
      assert Filter(head, IsPresent) == [Present(1, 0)];
    }
  }

  /** One render pass clears the render target exactly once per call. */
  lemma {:induction false} DrawPassClearsEachOnce(view: Option<Handle>, calls: seq<DrawCall>)
    ensures var c := Filter(DrawPass(view, calls), IsClear);
      |c| == |calls| && forall i :: 0 <= i < |calls| ==> c[i] == ClearRenderTargetView(view)
  {
    if calls != [] {
      var head, rest := FrameEvents(view, calls[0]), DrawPass(view, calls[1..]);
      DrawPassClearsEachOnce(view, calls[1..]);
      FilterAppend(head, rest, IsClear);
      FrameClearsDrawsPresents(view, calls[0]);
      assert Filter(head, IsClear) == [ClearRenderTargetView(view)];
    }
  }

  /** `Renderer`. Its static `Context` pointer is a field of the single
      instance. */
  class Renderer {
    var queue: seq<RenderQueueInfo>
    var context: DX11Context?

    constructor()
      ensures queue == [] && context == null
    {
      queue, context := [], null;
    }

    /** Appends exactly one entry at the end of the queue. */
    method PushQueue(info: RenderQueueInfo)
      modifies this`queue
      ensures queue == old(queue) + [info]
    {
      queue := queue + [info];
    }

    method SetContext(ctx: DX11Context?)
      modifies this`context
      ensures GetContext() == ctx
    {
      context := ctx;
    }

    function GetContext(): DX11Context?
      reads this
    {
      context
    }

    /** Invokes `on_init` once per entry, in queue order; afterwards every
        queued sprite holds the buffer of the last entry that queues it. */
    method Init(statics: SpriteStatics, oracles: seq<InitOracle>)
      requires |oracles| == |queue|
      requires statics.context != null
      requires forall i :: 0 <= i < |queue| ==> queue[i].sprite.shared == statics
      requires forall i :: 0 <= i < |oracles| && (oracles[i].vertex.Compiled? || oracles[i].pixel.Compiled?) ==>
        statics.context.physicalDevice.device.Some?
      modifies Sprites(queue), statics`hooks, statics.context.physicalDevice`trace
      ensures statics.hooks == old(statics.hooks) + Traverse(InitHook, queue)
      ensures forall j :: 0 <= j < |queue| ==>
        queue[j].sprite.bufferDesc == LastQuad(queue, oracles, queue[j].sprite, |queue|)
    {
      var i := 0;
      while i < |queue|
        invariant 0 <= i <= |queue|
        invariant statics.hooks == old(statics.hooks) + Traverse(InitHook, queue[..i])
        invariant forall j :: 0 <= j < |queue| && LastQuad(queue, oracles, queue[j].sprite, i).Some? ==>
          queue[j].sprite.bufferDesc == LastQuad(queue, oracles, queue[j].sprite, i)
      {
        queue[i].sprite.OnInit(oracles[i]);
        assert queue[..i + 1] == queue[..i] + [queue[i]];
        i := i + 1;
      }
      assert queue[..i] == queue;
      forall j | 0 <= j < |queue|
        ensures LastQuad(queue, oracles, queue[j].sprite, |queue|).Some?
      {
        LastQuadFound(queue, oracles, |queue|, j);
      }
    }

    /** Invokes `on_draw` once per entry, in queue order: one render pass.
        The queue and the sprites are left unchanged. */
    method Draw(statics: SpriteStatics)
      requires statics.context != null
      requires forall i :: 0 <= i < |queue| ==> queue[i].sprite.shared == statics
      requires forall i :: 0 <= i < |queue| ==> queue[i].sprite.bufferDesc.Some?
      requires statics.context.physicalDevice.deviceContext.Some?
      requires statics.context.physicalDevice.swapChain.Some?
      modifies statics`hooks, statics.context.physicalDevice`trace
      ensures statics.hooks == old(statics.hooks) + Traverse(DrawHook, queue)
      ensures statics.context.physicalDevice.trace ==
        old(statics.context.physicalDevice.trace) +
        DrawPass(statics.context.physicalDevice.renderTargetView, DrawCalls(queue))
    {
      var device := statics.context.physicalDevice;
      ghost var view := device.renderTargetView;
      ghost var calls := DrawCalls(queue);
      var i := 0;
      while i < |queue|
        invariant 0 <= i <= |queue|
        invariant statics.hooks == old(statics.hooks) + Traverse(DrawHook, queue[..i])
        invariant device.trace == old(device.trace) + DrawPass(view, calls[..i])
      {
        assert calls[i] == queue[i].sprite.Call();
        queue[i].sprite.OnDraw();
        DrawPassSnoc(view, calls[..i], calls[i]);
        assert queue[..i + 1] == queue[..i] + [queue[i]];
        assert calls[..i + 1] == calls[..i] + [calls[i]];
        i := i + 1;
      }
      assert queue[..i] == queue;
      assert calls[..i] == calls;
    }

    /** The destructor: invokes `on_release` once per entry, in forward
        (insertion) order. */
    method Release(statics: SpriteStatics)
      requires forall i :: 0 <= i < |queue| ==> queue[i].sprite.shared == statics
      modifies statics`hooks
      ensures statics.hooks == old(statics.hooks) + Traverse(ReleaseHook, queue)
      ensures statics.context == old(statics.context)
    {
      var i := 0;
      while i < |queue|
        invariant 0 <= i <= |queue|
        invariant statics.hooks == old(statics.hooks) + Traverse(ReleaseHook, queue[..i])
      {
        queue[i].sprite.OnRelease();
        assert queue[..i + 1] == queue[..i] + [queue[i]];
        i := i + 1;
      }
      assert queue[..i] == queue;
    }
  }

  /** One more call extends the pass by that call's frame. */
  lemma {:induction false} DrawPassSnoc(view: Option<Handle>, calls: seq<DrawCall>, c: DrawCall)
    ensures DrawPass(view, calls + [c]) == DrawPass(view, calls) + FrameEvents(view, c)
  {
    if calls == [] {
      assert calls + [c] == [c];
      assert [c][1..] == [];
    } else {
      assert (calls + [c])[1..] == calls[1..] + [c];
      DrawPassSnoc(view, calls[1..], c);
    }
  }

  /** `instance()`: the function-local static that holds the one renderer. */
  class RendererInstance {
    var instance: Renderer?

    constructor()
      ensures instance == null
    {
      instance := null;
    }

    /** Creates the renderer on the first call and returns that same object
        on every call. */
    method Instance() returns (r: Renderer)
      modifies this
      ensures old(instance) != null ==> r == old(instance)
      ensures old(instance) == null ==> fresh(r) && r.queue == [] && r.context == null
      ensures instance == r
    {
      if instance == null {
        instance := new Renderer();
      }
      r := instance;
    }
  }
}
