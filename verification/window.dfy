/** `Alien::App`: the three callback queues, the input callback map, the
    window procedure and the frame loop of `update_window`. Messages the
    loop peeks are an input sequence; callbacks are opaque and only their
    invocations are recorded. */
module AlienWindow {
  import opened AlienBase
  import opened AlienDx11

  /** `Queue`: which callback queue `add_event_queue` appends to. */
  datatype QueueKind = InitQueue | UpdateQueue | KillQueue

  /** `Event`: the keys of the input callback map. */
  datatype InputEvent = Resize

  /** A registered callback, known by identity only. */
  type Callback = nat

  /** `LPARAM`, a signed 64-bit integer on 64-bit Windows. */
  type i64 = x: int | -0x8000_0000_0000_0000 <= x < 0x8000_0000_0000_0000

  /** The messages the loop and the window procedure tell apart. */
  datatype Msg = Destroy | Size(lParam: i64) | Quit | Other(code: u32)

  /** What the window procedure returns: a value of its own, or whatever
      `DefWindowProc` answers. */
  datatype LResult = Returned(value: int) | DefWindowProc

  /** Window-system calls and callback invocations, in the order made. */
  datatype AppEvent =
    | CreateWindow(width: u32, height: u32)
    | ShowWindow
    | RunCallback(queue: QueueKind, f: Callback)
    | ResizeCallback(callback: Callback, newWidth: u32, newHeight: u32)
    | PostQuit
    | ResizeFramebuffer(fbWidth: u32, fbHeight: u32)
    | SwapBuffers
    | ReleaseDeviceContext
    | DestroyWindow

  predicate IsRunCallback(e: AppEvent) { e.RunCallback? }
  predicate IsKillCallback(e: AppEvent) { e.RunCallback? && e.queue == KillQueue }
  predicate IsPostQuit(e: AppEvent) { e.PostQuit? }
  predicate IsResizeFramebuffer(e: AppEvent) { e.ResizeFramebuffer? }
  predicate IsSwapBuffers(e: AppEvent) { e.SwapBuffers? }

  /** `LOWORD`: bits 0 to 15 of the two's-complement value (Dafny's `%` is
      Euclidean, so this is right for negative values too). */
  function LoWord(l: i64): (w: u32)
    ensures w < 0x1_0000
  {
    l % 0x1_0000
  }

  /** `HIWORD`: bits 16 to 31 of the two's-complement value. */
  function HiWord(l: i64): (w: u32)
    ensures w < 0x1_0000
  {
    (l / 0x1_0000) % 0x1_0000
  }

  /** The two words together are the low 32 bits of `l`. */
  lemma WordsAreLow32(l: i64)
    ensures HiWord(l) * 0x1_0000 + LoWord(l) == l % 0x1_0000_0000
  {
    var q := l / 0x1_0000;
    var q2 := q / 0x1_0000;
    assert l == 0x1_0000 * q + LoWord(l);
    assert q == 0x1_0000 * q2 + HiWord(l);
    assert l == 0x1_0000_0000 * q2 + (HiWord(l) * 0x1_0000 + LoWord(l));
  }

  /** The `lParam` of a `WM_SIZE` for a client area of `w` by `h`. */
  function MakeSizeParam(w: u32, h: u32): i64
    requires w < 0x1_0000 && h < 0x1_0000
  {
    h * 0x1_0000 + w
  }

  /** Decoding a `WM_SIZE` parameter gives back the width and the height. */
  lemma SizeParamRoundTrip(w: u32, h: u32)
    requires w < 0x1_0000 && h < 0x1_0000
    ensures LoWord(MakeSizeParam(w, h)) == w && HiWord(MakeSizeParam(w, h)) == h
  {
    var l := MakeSizeParam(w, h);
    assert l / 0x1_0000 == h;
  }

  /** The static members of `App` as one value, together with whether the
      window still exists (the system's state, not a member of `App`: the
      window receives `WM_DESTROY` exactly when it is being destroyed). */
  datatype WindowStatics = WindowStatics(
    width: u32, height: u32, callbacks: map<InputEvent, Callback>,
    shouldQuit: bool, didResize: bool, windowAlive: bool)

  /** What one call of the window procedure does. */
  datatype Dispatched = Dispatched(after: WindowStatics, events: seq<AppEvent>, result: LResult)

  /** `WinProc` on the statics `s`. The first `WM_DESTROY` only sets
      `ShouldQuit` and returns 0; a later one posts the quit message.
      `WM_SIZE` always sets `WindowDidResize`; only while a resize callback
      is registered does it take the new size from the low and high words
      of `lParam` and hand it to that callback. A window that receives
      `WM_DESTROY` is gone afterwards. */
  function WinProcStep(s: WindowStatics, msg: Msg): (d: Dispatched)
    ensures d.after.shouldQuit == (s.shouldQuit || msg == Destroy)
    ensures d.after.windowAlive == (s.windowAlive && msg != Destroy)
    ensures d.result == Returned(0) <==> msg == Destroy && !s.shouldQuit
    ensures d.result != Returned(0) ==> d.result == DefWindowProc
    ensures (PostQuit in d.events) <==> msg == Destroy && s.shouldQuit
    ensures d.after.didResize == (s.didResize || msg.Size?)
    ensures d.after.callbacks == s.callbacks
    ensures msg.Size? && Resize in s.callbacks ==>
      && d.after.width == LoWord(msg.lParam) && d.after.height == HiWord(msg.lParam)
      && d.events == [ResizeCallback(s.callbacks[Resize], d.after.width, d.after.height)]
    ensures !(msg.Size? && Resize in s.callbacks) ==>
      d.after.width == s.width && d.after.height == s.height
    ensures !(msg.Size? && Resize in s.callbacks) ==>
      d.events == if msg == Destroy && s.shouldQuit then [PostQuit] else []
    ensures forall i :: 0 <= i < |d.events| ==> d.events[i].PostQuit? || d.events[i].ResizeCallback?
  {
    match msg
    case Destroy =>
      if !s.shouldQuit then Dispatched(s.(shouldQuit := true, windowAlive := false), [], Returned(0))
      else Dispatched(s.(windowAlive := false), [PostQuit], DefWindowProc)
    case Size(l) =>
      var flagged := s.(didResize := true);
      if Resize in s.callbacks then
        var w, h := LoWord(l), HiWord(l);
        Dispatched(flagged.(width := w, height := h), [ResizeCallback(s.callbacks[Resize], w, h)], DefWindowProc)
      else
        Dispatched(flagged, [], DefWindowProc)
    case _ => Dispatched(s, [], DefWindowProc)
  }

  /** The invocations of the callbacks `fs` of queue `kind`: each once, in
      registration order. */
  function CallbackEvents(kind: QueueKind, fs: seq<Callback>): (r: seq<AppEvent>)
    ensures |r| == |fs|
    ensures forall i :: 0 <= i < |fs| ==> r[i] == RunCallback(kind, fs[i])
  {
    if fs == [] then [] else [RunCallback(kind, fs[0])] + CallbackEvents(kind, fs[1..])
  }

  /** One more callback adds its invocation at the end. */
  lemma CallbackEventsSnoc(kind: QueueKind, fs: seq<Callback>, f: Callback)
    ensures CallbackEvents(kind, fs + [f]) == CallbackEvents(kind, fs) + [RunCallback(kind, f)]
  {
    var l, r := CallbackEvents(kind, fs + [f]), CallbackEvents(kind, fs) + [RunCallback(kind, f)];
    assert |l| == |r|;
    assert forall i :: 0 <= i < |l| ==> l[i] == r[i];
  }

  /** Why the frame loop stopped. `InputExhausted` means the model ran out
      of peeked messages while the loop would have gone on. */
  datatype Exit = QuitMessage | ShouldQuitSet | InputExhausted

  /** One pass of the loop body: the state after it, the events it made,
      whether it got as far as a frame, and whether the loop stops. */
  datatype Step = Step(after: WindowStatics, events: seq<AppEvent>, framed: bool, stop: Option<Exit>)

  /** The frame part of a pass: every update callback, the framebuffer
      resize if the flag is set, then the buffer swap. */
  function PassFrameEvents(s: WindowStatics, updates: seq<Callback>): seq<AppEvent>
  {
    CallbackEvents(UpdateQueue, updates) + ResizeEvents(s) + [SwapBuffers]
  }

  /** The framebuffer resize a set `WindowDidResize` asks for. */
  function ResizeEvents(s: WindowStatics): seq<AppEvent>
  {
    if s.didResize then [ResizeFramebuffer(s.width, s.height)] else []
  }

  /** The dispatch of the peeked message, if there was one. */
  function Dispatch(s: WindowStatics, peek: Option<Msg>): (d: Dispatched)
    ensures forall i :: 0 <= i < |d.events| ==> d.events[i].PostQuit? || d.events[i].ResizeCallback?
  {
    if peek.Some? then WinProcStep(s, peek.value) else Dispatched(s, [], DefWindowProc)
  }

  /** The messages `ms`, sent one after the other to the window procedure:
      the state after the last, every event in order, the last result. */
  function DispatchAll(s: WindowStatics, ms: seq<Msg>): Dispatched
    decreases |ms|
  {
    if ms == [] then Dispatched(s, [], DefWindowProc)
    else
      var p := DispatchAll(s, ms[..|ms| - 1]);
      var d := WinProcStep(p.after, ms[|ms| - 1]);
      Dispatched(d.after, p.events + d.events, d.result)
  }

  /** After a series of messages the resize flag is set exactly when it was
      set before or one of them was a `WM_SIZE`; the callbacks never change,
      and without a resize callback neither does the size. */
  lemma {:induction false} DispatchAllFlags(s: WindowStatics, ms: seq<Msg>)
    ensures var d := DispatchAll(s, ms);
      && d.after.didResize == (s.didResize || exists i :: 0 <= i < |ms| && ms[i].Size?)
      && d.after.callbacks == s.callbacks
      && (Resize !in s.callbacks ==> d.after.width == s.width && d.after.height == s.height)
    decreases |ms|
  {
    if ms != [] {
      var init := ms[..|ms| - 1];
      DispatchAllFlags(s, init);
      if exists i :: 0 <= i < |init| && init[i].Size? {
        var i :| 0 <= i < |init| && init[i].Size?;
        assert ms[i].Size?;
      }
      if exists i :: 0 <= i < |ms| && ms[i].Size? {
        var i :| 0 <= i < |ms| && ms[i].Size?;
        if i < |ms| - 1 {
          assert init[i].Size?;
        }
      }
    }
  }

  /** One pass of the `while (true)` body with peeked message `peek`
      (`None`: the queue was empty). `WM_QUIT` leaves before anything
      else; any other message is dispatched first. */
  function Iteration(s: WindowStatics, peek: Option<Msg>, updates: seq<Callback>): Step
  {
    if peek == Some(Quit) then Step(s, [], false, Some(QuitMessage))
    else
      var d := Dispatch(s, peek);
      var after := d.after.(didResize := false);
      Step(after, d.events + PassFrameEvents(d.after, updates), true,
           if after.shouldQuit then Some(ShouldQuitSet) else None)
  }

  /** The result of running the loop over the peeked messages `input`. */
  datatype RunResult = RunResult(after: WindowStatics, events: seq<AppEvent>, frames: nat, exit: Exit)

  /** The loop from statics `s`, one pass per element of `input`. */
  function Run(s: WindowStatics, input: seq<Option<Msg>>, updates: seq<Callback>): RunResult
    decreases |input|
  {
    if input == [] then RunResult(s, [], 0, InputExhausted)
    else
      var st := Iteration(s, input[0], updates);
      if st.stop.Some? then RunResult(st.after, st.events, if st.framed then 1 else 0, st.stop.value)
      else
        var rest := Run(st.after, input[1..], updates);
        RunResult(rest.after, st.events + rest.events, 1 + rest.frames, rest.exit)
  }

  /** `events`, `frames` more passes, then the run `r`. */
  function Then(events: seq<AppEvent>, frames: nat, r: RunResult): RunResult
  {
    RunResult(r.after, events + r.events, frames + r.frames, r.exit)
  }

  /** The events of one pass, filtered, split into its parts. */
  lemma IterationFilter(s: WindowStatics, peek: Option<Msg>, updates: seq<Callback>, p: AppEvent -> bool)
    requires peek != Some(Quit)
    ensures Filter(Iteration(s, peek, updates).events, p) ==
      Filter(Dispatch(s, peek).events, p) + (Filter(CallbackEvents(UpdateQueue, updates), p) +
      Filter(ResizeEvents(Dispatch(s, peek).after), p) + Filter([SwapBuffers], p))
  {
    var d := Dispatch(s, peek);
    var u := CallbackEvents(UpdateQueue, updates);
    var r := ResizeEvents(d.after);
    assert Iteration(s, peek, updates).events == d.events + (u + r + [SwapBuffers]);
    FilterAppend(d.events, u + r + [SwapBuffers], p);
    FilterAppend(u + r, [SwapBuffers], p);
    FilterAppend(u, r, p);
  }

  /** A pass that frames runs every update callback once, in order. */
  lemma IterationUpdates(s: WindowStatics, peek: Option<Msg>, updates: seq<Callback>)
    requires peek != Some(Quit)
    ensures Filter(Iteration(s, peek, updates).events, IsRunCallback) == CallbackEvents(UpdateQueue, updates)
  {
    var d := Dispatch(s, peek);
    var u := CallbackEvents(UpdateQueue, updates);
    IterationFilter(s, peek, updates, IsRunCallback);
    FilterNone(d.events, IsRunCallback);
    FilterAll(u, IsRunCallback);
    FilterNone(ResizeEvents(d.after), IsRunCallback);
    FilterNone([SwapBuffers], IsRunCallback);
    assert [] + (u + [] + []) == u;
  }

  /** The loop runs every update callback once per frame, in registration
      order, and nothing else. */
  lemma {:induction false} RunUpdatesEveryFrame(s: WindowStatics, input: seq<Option<Msg>>, updates: seq<Callback>)
    ensures var run := Run(s, input, updates);
      Filter(run.events, IsRunCallback) == Repeat(CallbackEvents(UpdateQueue, updates), run.frames)
    decreases |input|
  {
    var u := CallbackEvents(UpdateQueue, updates);
    if input != [] && input[0] != Some(Quit) {
      var st := Iteration(s, input[0], updates);
      IterationUpdates(s, input[0], updates);
      if st.stop.Some? {
        assert Repeat(u, 1) == u + [];
      } else {
        var rest := Run(st.after, input[1..], updates);
        RunUpdatesEveryFrame(st.after, input[1..], updates);
        FilterAppend(st.events, rest.events, IsRunCallback);
      }
    }
  }

  /** A pass never runs a kill callback. */
  lemma IterationNoKill(s: WindowStatics, peek: Option<Msg>, updates: seq<Callback>)
    ensures Filter(Iteration(s, peek, updates).events, IsKillCallback) == []
  {
    if peek != Some(Quit) {
      var d := Dispatch(s, peek);
      IterationFilter(s, peek, updates, IsKillCallback);
      FilterNone(d.events, IsKillCallback);
      FilterNone(CallbackEvents(UpdateQueue, updates), IsKillCallback);
      FilterUnit(SwapBuffers, IsKillCallback);
      FilterNone(ResizeEvents(d.after), IsKillCallback);
    }
  }

  /** Kill callbacks are stored but the loop never runs one. */
  lemma {:induction false} RunNeverKills(s: WindowStatics, input: seq<Option<Msg>>, updates: seq<Callback>)
    ensures Filter(Run(s, input, updates).events, IsKillCallback) == []
    decreases |input|
  {
    if input != [] {
      var st := Iteration(s, input[0], updates);
      IterationNoKill(s, input[0], updates);
      if st.stop.None? {
        RunNeverKills(st.after, input[1..], updates);
        FilterAppend(st.events, Run(st.after, input[1..], updates).events, IsKillCallback);
      }
    }
  }

  /** A pass that frames swaps buffers exactly once and resizes the
      framebuffer at most once, and clears the resize flag. */
  lemma IterationFrame(s: WindowStatics, peek: Option<Msg>, updates: seq<Callback>)
    requires peek != Some(Quit)
    ensures var st := Iteration(s, peek, updates);
      && |Filter(st.events, IsSwapBuffers)| == 1
      && Filter(st.events, IsResizeFramebuffer) == ResizeEvents(Dispatch(s, peek).after)
      && |Filter(st.events, IsResizeFramebuffer)| <= 1
      && !st.after.didResize
  {
    var d := Dispatch(s, peek);
    var frame := PassFrameEvents(d.after, updates);
    PassFrameFilters(d.after, updates);
    FilterAppend(d.events, frame, IsSwapBuffers);
    FilterAppend(d.events, frame, IsResizeFramebuffer);
    FilterNone(d.events, IsSwapBuffers);
    FilterNone(d.events, IsResizeFramebuffer);
  }

  /** Creating and showing a window with no resize callback registered:
      when a `WM_SIZE` arrived meanwhile, the first pass of the loop
      resizes the framebuffer once, to the size `App` was given. */
  lemma CreationResizesFirstFrame(s: WindowStatics, created: seq<Msg>, shown: seq<Msg>,
                                  w: u32, h: u32, peek: Option<Msg>, updates: seq<Callback>)
    requires Resize !in s.callbacks
    requires (exists i :: 0 <= i < |created| && created[i].Size?) ||
             (exists i :: 0 <= i < |shown| && shown[i].Size?)
    requires peek != Some(Quit)
    ensures var c := DispatchAll(s.(windowAlive := true), created);
      var start := DispatchAll(c.after, shown).after.(width := w, height := h);
      Filter(Iteration(start, peek, updates).events, IsResizeFramebuffer) == [ResizeFramebuffer(w, h)]
  {
    var c := DispatchAll(s.(windowAlive := true), created);
    var start := DispatchAll(c.after, shown).after.(width := w, height := h);
    DispatchAllFlags(s.(windowAlive := true), created);
    DispatchAllFlags(c.after, shown);
    assert start.didResize && Resize !in start.callbacks;
    IterationFrame(start, peek, updates);
    var d := Dispatch(start, peek);
    assert d.after.didResize && d.after.width == w && d.after.height == h;
  }

  /** The frame part of a pass swaps buffers once and resizes the
      framebuffer exactly as the flag asks. */
  lemma PassFrameFilters(s: WindowStatics, updates: seq<Callback>)
    ensures Filter(PassFrameEvents(s, updates), IsSwapBuffers) == [SwapBuffers]
    ensures Filter(PassFrameEvents(s, updates), IsResizeFramebuffer) == ResizeEvents(s)
  {
    var u, r := CallbackEvents(UpdateQueue, updates), ResizeEvents(s);
    FilterAppend(u + r, [SwapBuffers], IsSwapBuffers);
    FilterAppend(u + r, [SwapBuffers], IsResizeFramebuffer);
    FilterAppend(u, r, IsSwapBuffers);
    FilterAppend(u, r, IsResizeFramebuffer);
    FilterNone(u, IsSwapBuffers);
    FilterNone(u, IsResizeFramebuffer);
    FilterNone(r, IsSwapBuffers);
    FilterAll(r, IsResizeFramebuffer);
    FilterUnit(SwapBuffers, IsSwapBuffers);
    FilterUnit(SwapBuffers, IsResizeFramebuffer);
    assert [] + [] + [SwapBuffers] == [SwapBuffers];
    assert [] + r + [] == r;
  }

  /** Every frame ends with exactly one buffer swap, the framebuffer is
      resized at most once per frame, and once a frame has run the resize
      flag is clear. */
  lemma {:induction false} RunFrames(s: WindowStatics, input: seq<Option<Msg>>, updates: seq<Callback>)
    ensures var run := Run(s, input, updates);
      && |Filter(run.events, IsSwapBuffers)| == run.frames
      && |Filter(run.events, IsResizeFramebuffer)| <= run.frames
      && (run.frames > 0 ==> !run.after.didResize)
    decreases |input|
  {
    if input != [] && input[0] != Some(Quit) {
      var st := Iteration(s, input[0], updates);
      assert |Filter(st.events, IsSwapBuffers)| == 1 && |Filter(st.events, IsResizeFramebuffer)| <= 1
        && !st.after.didResize by {
        IterationFrame(s, input[0], updates);
      }
      if st.stop.None? {
        var rest := Run(st.after, input[1..], updates);
        assert Run(s, input, updates) == RunResult(rest.after, st.events + rest.events, 1 + rest.frames, rest.exit);
        RunFrames(st.after, input[1..], updates);
        FilterAppend(st.events, rest.events, IsSwapBuffers);
        FilterAppend(st.events, rest.events, IsResizeFramebuffer);
      }
    } else if input != [] {
      FilterNone([], IsSwapBuffers);
      FilterNone([], IsResizeFramebuffer);
    }
  }

  /** From statics where `ShouldQuit` is clear, the `WM_DESTROY` that the
      final `DestroyWindow` may send posts no quit message and calls no
      callback: either the loop's own `WM_DESTROY` already ended the window,
      or this one is the first and only sets the flag. */
  lemma TeardownPostsNothing(s: WindowStatics, input: seq<Option<Msg>>, updates: seq<Callback>)
    requires !s.shouldQuit
    ensures var run := Run(s, input, updates);
      Dispatch(run.after, if run.after.windowAlive then Some(Destroy) else None).events == []
  {
    RunStops(s, input, updates);
  }

  /** The loop runs a frame for every peeked message up to the first
      `WM_QUIT` and none past it: every message before the frames ran is
      something else, and a `QuitMessage` exit is exactly the first
      `WM_QUIT`. */
  lemma {:induction false} RunStopsAtQuit(s: WindowStatics, input: seq<Option<Msg>>, updates: seq<Callback>)
    ensures var run := Run(s, input, updates);
      && run.frames <= |input|
      && (forall k :: 0 <= k < run.frames ==> input[k] != Some(Quit))
      && (run.exit == QuitMessage ==> run.frames < |input| && input[run.frames] == Some(Quit))
    decreases |input|
  {
    if input != [] && input[0] != Some(Quit) {
      var st := Iteration(s, input[0], updates);
      if st.stop.None? {
        var rest := Run(st.after, input[1..], updates);
        assert Run(s, input, updates) == RunResult(rest.after, st.events + rest.events, 1 + rest.frames, rest.exit);
        RunStopsAtQuit(st.after, input[1..], updates);
        forall k | 0 <= k < 1 + rest.frames
          ensures input[k] != Some(Quit)
        {
          if k > 0 {
            assert input[k] == input[1..][k - 1];
          }
        }
        if rest.exit == QuitMessage {
          assert input[1 + rest.frames] == input[1..][rest.frames];
        }
      }
    }
  }

  /** Why the loop stops: `WM_QUIT` before a frame, or `ShouldQuit` at the
      end of one. Starting with `ShouldQuit` set, at most one frame runs;
      without it, the loop never posts the quit message itself, and the
      size stays put unless a resize callback is registered. When the loop
      itself saw `ShouldQuit` become set, the window is already gone. */
  lemma {:induction false} RunStops(s: WindowStatics, input: seq<Option<Msg>>, updates: seq<Callback>)
    ensures var run := Run(s, input, updates);
      && run.frames <= |input|
      && (run.exit == InputExhausted ==> run.frames == |input| && run.after.shouldQuit == s.shouldQuit)
      && (run.exit == QuitMessage ==> run.frames < |input|)
      && (run.exit == ShouldQuitSet ==> run.after.shouldQuit)
      && (!s.shouldQuit && run.after.shouldQuit ==> !run.after.windowAlive)
      && (s.shouldQuit ==> run.frames <= 1)
      && (!s.shouldQuit ==> Filter(run.events, IsPostQuit) == [])
      && run.after.callbacks == s.callbacks
      && (Resize !in s.callbacks ==> run.after.width == s.width && run.after.height == s.height)
    decreases |input|
  {
    RunExits(s, input, updates);
    RunKeepsCallbacks(s, input, updates);
    if !s.shouldQuit {
      RunPostsNoQuit(s, input, updates);
    }
  }

  /** How many frames run before each kind of exit, and what `ShouldQuit`
      and the window are then. */
  lemma {:induction false} RunExits(s: WindowStatics, input: seq<Option<Msg>>, updates: seq<Callback>)
    ensures var run := Run(s, input, updates);
      && run.frames <= |input|
      && (run.exit == InputExhausted ==> run.frames == |input| && run.after.shouldQuit == s.shouldQuit)
      && (run.exit == QuitMessage ==> run.frames < |input|)
      && (run.exit == ShouldQuitSet ==> run.after.shouldQuit)
      && (!s.shouldQuit && run.after.shouldQuit ==> !run.after.windowAlive)
      && (s.shouldQuit ==> run.frames <= 1)
    decreases |input|
  {
    if input != [] && input[0] != Some(Quit) {
      var st := Iteration(s, input[0], updates);
      if st.stop.None? {
        var rest := Run(st.after, input[1..], updates);
        assert Run(s, input, updates) == RunResult(rest.after, st.events + rest.events, 1 + rest.frames, rest.exit);
        RunExits(st.after, input[1..], updates);
      }
    }
  }

  /** The loop never changes the callbacks, nor the size while no resize
      callback is registered. */
  lemma {:induction false} RunKeepsCallbacks(s: WindowStatics, input: seq<Option<Msg>>, updates: seq<Callback>)
    ensures var run := Run(s, input, updates);
      && run.after.callbacks == s.callbacks
      && (Resize !in s.callbacks ==> run.after.width == s.width && run.after.height == s.height)
    decreases |input|
  {
    if input != [] && input[0] != Some(Quit) {
      var st := Iteration(s, input[0], updates);
      if st.stop.None? {
        RunKeepsCallbacks(st.after, input[1..], updates);
      }
    }
  }

  /** From a clear `ShouldQuit` the loop never posts the quit message. */
  lemma {:induction false} RunPostsNoQuit(s: WindowStatics, input: seq<Option<Msg>>, updates: seq<Callback>)
    requires !s.shouldQuit
    ensures Filter(Run(s, input, updates).events, IsPostQuit) == []
    decreases |input|
  {
    if input != [] && input[0] != Some(Quit) {
      var st := Iteration(s, input[0], updates);
      assert Filter(st.events, IsPostQuit) == [] by {
        var d := Dispatch(s, input[0]);
        IterationFilter(s, input[0], updates, IsPostQuit);
        FilterNone(CallbackEvents(UpdateQueue, updates), IsPostQuit);
        FilterUnit(SwapBuffers, IsPostQuit);
        FilterNone(ResizeEvents(d.after), IsPostQuit);
        FilterNone(d.events, IsPostQuit);
      }
      if st.stop.None? {
        var rest := Run(st.after, input[1..], updates);
        RunPostsNoQuit(st.after, input[1..], updates);
        FilterAppend(st.events, rest.events, IsPostQuit);
      }
    } else if input != [] {
      FilterNone([], IsPostQuit);
    }
  }

  /** The static members of `App` (`Width`, `Height`, `InputCallbacks`,
      `ShouldQuit`, `WindowDidResize`), shared by the whole process, and
      the record of window-system calls and callbacks made so far. */
  class AppStatics {
    var width: u32
    var height: u32
    var callbacks: map<InputEvent, Callback>
    var shouldQuit: bool
    var didResize: bool
    /** Whether the window exists: the system's state, kept here because
        the window procedure, which sees only the statics, ends it. */
    var windowAlive: bool
    ghost var log: seq<AppEvent>

    /** The statics' initial values: 800 by 600, no callback, both flags
        clear. */
    constructor()
      ensures width == 800 && height == 600 && callbacks == map[]
      ensures !shouldQuit && !didResize && !windowAlive && log == []
    {
      width, height, callbacks := 800, 600, map[];
      shouldQuit, didResize, windowAlive := false, false, false;
      log := [];
    }

    function State(): WindowStatics
      reads this
    {
      WindowStatics(width, height, callbacks, shouldQuit, didResize, windowAlive)
    }
  }

  /** `WinProc`, the static window procedure. */
  method WinProc(statics: AppStatics, msg: Msg) returns (r: LResult)
    modifies statics
    ensures var d := WinProcStep(old(statics.State()), msg);
      statics.State() == d.after && statics.log == old(statics.log) + d.events && r == d.result
  {
    r := DefWindowProc;
    match msg
    case Destroy =>
      statics.windowAlive := false;
      if !statics.shouldQuit {
        statics.shouldQuit := true;
        r := Returned(0);
      } else {
        statics.log := statics.log + [PostQuit];
      }
    case Size(l) =>
      statics.didResize := true;
      if Resize in statics.callbacks {
        var w, h := LoWord(l), HiWord(l);
        statics.width, statics.height := w, h;
        statics.log := statics.log + [ResizeCallback(statics.callbacks[Resize], w, h)];
      }
    case _ =>
  }

  /** A range-for over a callback queue: each callback once, in order.
      Callbacks are opaque: only their invocations are recorded. */
  method RunCallbacks(statics: AppStatics, kind: QueueKind, fs: seq<Callback>)
    modifies statics`log
    ensures statics.log == old(statics.log) + CallbackEvents(kind, fs)
  {
    var i := 0;
    while i < |fs|
      invariant 0 <= i <= |fs|
      invariant statics.log == old(statics.log) + CallbackEvents(kind, fs[..i])
    {
      statics.log := statics.log + [RunCallback(kind, fs[i])];
      assert fs[..i + 1] == fs[..i] + [fs[i]];
      CallbackEventsSnoc(kind, fs[..i], fs[i]);
      i := i + 1;
    }
    assert fs[..i] == fs;
  }

  /** The loop body once `WM_QUIT` is ruled out: dispatch the peeked
      message if any, run the update callbacks, resize the framebuffer if
      the flag is set and clear the flag, swap the buffers. */
  method Pass(statics: AppStatics, peek: Option<Msg>, updates: seq<Callback>)
    requires peek != Some(Quit)
    modifies statics
    ensures var step := Iteration(old(statics.State()), peek, updates);
      statics.State() == step.after && statics.log == old(statics.log) + step.events
  {
    ghost var before := statics.log;
    ghost var d := Dispatch(old(statics.State()), peek);
    if peek.Some? {
      var _ := WinProc(statics, peek.value);
    }
    assert statics.State() == d.after && statics.log == before + d.events;
    RunCallbacks(statics, UpdateQueue, updates);
    ghost var u := CallbackEvents(UpdateQueue, updates);
    AppendAssoc(before, d.events, u);
    ghost var called := statics.log;
    if statics.didResize {
      statics.log := statics.log + [ResizeFramebuffer(statics.width, statics.height)];
      statics.didResize := false;
    }
    ghost var r := ResizeEvents(d.after);
    assert statics.log == called + r;
    AppendAssoc(before, d.events + u, r);
    statics.log := statics.log + [SwapBuffers];
    AppendAssoc(before, d.events + u + r, [SwapBuffers]);
    AppendAssoc(d.events, u, r);
    AppendAssoc(d.events, u + r, [SwapBuffers]);
    assert statics.log == before + (d.events + PassFrameEvents(d.after, updates));
  }

  /** Messages the system sends the window procedure synchronously, one
      after the other, while a window call is in progress. */
  method DispatchMessages(statics: AppStatics, ms: seq<Msg>)
    modifies statics
    ensures var d := DispatchAll(old(statics.State()), ms);
      statics.State() == d.after && statics.log == old(statics.log) + d.events
  {
    var k := 0;
    while k < |ms|
      invariant 0 <= k <= |ms|
      invariant statics.State() == DispatchAll(old(statics.State()), ms[..k]).after
      invariant statics.log == old(statics.log) + DispatchAll(old(statics.State()), ms[..k]).events
    {
      ghost var p := DispatchAll(old(statics.State()), ms[..k]);
      var _ := WinProc(statics, ms[k]);
      assert ms[..k + 1][..k] == ms[..k];
      AppendAssoc(old(statics.log), p.events, WinProcStep(p.after, ms[k]).events);
      k := k + 1;
    }
    assert ms[..k] == ms;
  }

  class App {
    const statics: AppStatics
    const windowName: string
    /** `m_Context`, built by its default constructor before `init` runs. */
    const context: DX11Context
    var windowHandle: Option<Handle>
    var instance: Option<Handle>
    var deviceContext: Option<Handle>
    var initQueue: seq<Callback>
    var updateQueue: seq<Callback>
    var killQueue: seq<Callback>

    /** `App(wn, w, h)` with its `init`: the window is created with the
        static size as it stands, and creating and showing it sends the
        window procedure the messages `created` and `shown` (a `WM_SIZE`
        among them sets `WindowDidResize`); the context gets the window's
        handles and creates its device, and only then do `Width` and
        `Height` become `w` and `h`. The window handle, instance and device
        context the system hands back are parameters. */
    constructor(shared: AppStatics, wn: string, w: u32, h: u32,
                window: Handle, inst: Handle, dc: Handle,
                created: seq<Msg>, shown: seq<Msg>, o: DeviceOutcome)
      modifies shared
      ensures statics == shared && windowName == wn && fresh(context)
      ensures var c := DispatchAll(old(shared.State()).(windowAlive := true), created);
        var sh := DispatchAll(c.after, shown);
        && shared.State() == sh.after.(width := w, height := h)
        && shared.log == old(shared.log) + [CreateWindow(old(shared.width), old(shared.height))] +
           c.events + [ShowWindow] + sh.events
      ensures windowHandle == Some(window) && instance == Some(inst) && deviceContext == Some(dc)
      ensures initQueue == [] && updateQueue == [] && killQueue == []
      ensures context.initialized && context.windowHandle == Some(window)
      ensures context.instance == Some(inst) && context.deviceContext == Some(dc)
      ensures context.physicalDevice.isInitialized
      ensures context.physicalDevice.trace ==
        DeviceSetupEvents(SwapChainDescFor(DefaultWidth, DefaultHeight, Some(window)), o)
      // with no device, no swap chain or device context for drawing either
      ensures o.DeviceCreated? <==> context.physicalDevice.device.Some?
      ensures o.DeviceCreated? <==> context.physicalDevice.deviceContext.Some?
      ensures o.DeviceCreated? <==> context.physicalDevice.swapChain.Some?
    {
      statics := shared;
      windowName := wn;
      context := new DX11Context();
      windowHandle, instance, deviceContext := Some(window), Some(inst), Some(dc);
      initQueue, updateQueue, killQueue := [], [], [];
      new;
      shared.log := shared.log + [CreateWindow(shared.width, shared.height)];
      shared.windowAlive := true;
      DispatchMessages(shared, created);
      shared.log := shared.log + [ShowWindow];
      DispatchMessages(shared, shown);
      context.SetContext(windowHandle, instance, deviceContext);
      context.CreateContext(o);
      shared.width, shared.height := w, h;
    }

    /** Appends `f` to exactly the queue `t` names. */
    method AddEventQueue(f: Callback, t: QueueKind)
      modifies this`initQueue, this`updateQueue, this`killQueue
      ensures initQueue == old(initQueue) + (if t == InitQueue then [f] else [])
      ensures updateQueue == old(updateQueue) + (if t == UpdateQueue then [f] else [])
      ensures killQueue == old(killQueue) + (if t == KillQueue then [f] else [])
    {
      match t
      case InitQueue => initQueue := initQueue + [f];
      case UpdateQueue => updateQueue := updateQueue + [f];
      case KillQueue => killQueue := killQueue + [f];
    }

    /** Registers `f` for resizes, replacing any earlier resize callback. */
    method AddResizeEvent(f: Callback)
      modifies statics`callbacks
      ensures statics.callbacks == old(statics.callbacks)[Resize := f]
    {
      statics.callbacks := statics.callbacks[Resize := f];
    }

    /** Registers `f` for event `e`, replacing any earlier callback for it. */
    method AddKeyboardEvent(f: Callback, e: InputEvent)
      modifies statics`callbacks
      ensures statics.callbacks == old(statics.callbacks)[e := f]
    {
      statics.callbacks := statics.callbacks[e := f];
    }

    /** `update_window` (and `update`, which only calls it): every init
        callback once, in order; then the loop over the peeked messages
        `input`; once the loop has left, the device context is released
        and the window destroyed, which sends one more `WM_DESTROY` only
        if the window still exists. */
    method UpdateWindow(input: seq<Option<Msg>>) returns (exit: Exit, frames: nat)
      modifies statics
      ensures var run := Run(old(statics.State()), input, updateQueue);
        && exit == run.exit && frames == run.frames
        && (exit == InputExhausted ==>
              && statics.State() == run.after
              && statics.log == old(statics.log) + CallbackEvents(InitQueue, initQueue) + run.events)
        && (exit != InputExhausted ==>
              var d := Dispatch(run.after, if run.after.windowAlive then Some(Destroy) else None);
              && statics.State() == d.after
              && statics.log == old(statics.log) + CallbackEvents(InitQueue, initQueue) + run.events +
                 [ReleaseDeviceContext, DestroyWindow] + d.events)
    {
      RunCallbacks(statics, InitQueue, initQueue);
      ghost var start := statics.State();
      ghost var base := statics.log;
      ghost var done: seq<AppEvent> := [];
      var k := 0;
      frames, exit := 0, InputExhausted;
      while k < |input| && exit == InputExhausted
        invariant 0 <= k <= |input|
        invariant statics.log == base + done
        invariant exit == InputExhausted ==>
          Run(start, input, updateQueue) == Then(done, frames, Run(statics.State(), input[k..], updateQueue))
        invariant exit != InputExhausted ==>
          Run(start, input, updateQueue) == RunResult(statics.State(), done, frames, exit)
        decreases |input| - k, exit == InputExhausted
      {
        ghost var s := statics.State();
        ghost var step := Iteration(s, input[k], updateQueue);
        assert input[k..][0] == input[k] && input[k..][1..] == input[k + 1..];
        if input[k] == Some(Quit) {
          exit := QuitMessage;
        } else {
          Pass(statics, input[k], updateQueue);
          AppendAssoc(base, done, step.events);
          ghost var previous := done;
          done := done + step.events;
          frames := frames + 1;
          k := k + 1;
          if statics.shouldQuit {
            exit := ShouldQuitSet;
            assert Run(s, input[k - 1..], updateQueue) == RunResult(statics.State(), step.events, 1, ShouldQuitSet);
          } else {
            ghost var rest := Run(statics.State(), input[k..], updateQueue);
            assert Run(s, input[k - 1..], updateQueue) ==
              RunResult(rest.after, step.events + rest.events, 1 + rest.frames, rest.exit);
            AppendAssoc(previous, step.events, rest.events);
          }
        }
      }
      if exit == InputExhausted {
        assert input[k..] == [];
        assert done + [] == done;
      } else {
        statics.log := statics.log + [ReleaseDeviceContext, DestroyWindow];
        if statics.windowAlive {
          var _ := WinProc(statics, Destroy);
        }
      }
    }
  }
}
