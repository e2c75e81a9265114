# alien2d core, modelled in Dafny

alien2d is a header-only C++ framework for 2D games on Windows. This project
models its Direct3D 11 path:

- **Window (`AlienWindow`).** The `App` class holds:
  - three callback queues (init, update, kill);
  - a map of input callbacks;
  - the static window procedure `WinProc`, which handles `WM_DESTROY` and `WM_SIZE`;
  - the `update_window` frame loop.
- **Device (`AlienDx11`).**
  - `DX11PhysicalDevice` creates the device and swap chain, compiles the two shaders, builds the triangle's vertex buffer and issues the per-frame clear/draw/present calls.
  - `DX11Context` wraps the device with the window handles.
- **Sprite (`AlienSprite`).** `Sprite` is the one renderable. It shares one static device context among all sprites.
- **Renderer (`AlienGfx`).** `Renderer` is the singleton render queue. It calls `on_init`, `on_draw` and `on_release` on every queued renderable, in insertion order.

How the model works:

- **Native calls are events.** Every native call appends one event to a ghost log:
  - Direct3D, DXGI, the shader compiler and `MessageBoxA` log to `PhysicalDevice.trace`;
  - window-system calls and callback invocations log to `AppStatics.log`.
- **Oracles.** What a native call returns is an oracle parameter. This covers success or failure, the handles it creates, the compiler's error log and the window handles.
- **The frame loop.**
  - `Run` is a recursive specification of the loop over a sequence of peeked messages. `App.UpdateWindow` is proved against it.
  - Lemmas about `Run` state the loop's promises: each update callback runs once per frame in order; kill callbacks never run; one buffer swap per frame; at most one framebuffer resize per frame; when and why the loop stops.
- **The render queue.**
  - `Traverse` is the hook sequence "once per entry, in queue order".
  - Each sprite hook records its own invocation in a ghost log shared by all sprites. `Renderer.Init`, `Renderer.Draw` and `Renderer.Release` are proved to leave exactly that sequence there.
  - `Renderer.Draw` is also proved to issue, on the device, the concatenation of one frame per entry. Lemmas about that draw pass show it clears, draws and presents exactly once per entry.

Facts about the source that the contracts make visible:

- **Device size.** The device inside `DX11Context` is default-constructed at 800×600 (alien2d/alien_dx11.hpp:86-87, 348). The `w` and `h` given to `App` never reach the swap chain.
- **Window size.** `App`'s constructor creates the window with the static `Width`/`Height` as they stand. It assigns `w` and `h` to them only afterwards (alien2d/alien_window.hpp:115-116, 175-178).
- **Context flag.** The `DX11Context(handle, instance, dc)` constructor stores the handles but does not set `m_Initialized`. So `create_context_dx11` cannot directly follow it.
- **Compile errors.** When compilation fails with a log, the error blob is released before `MessageBoxA` reads its text. The pixel shader's blob is released before it is handed back through the out-parameter. Both orders are kept in the traces (`CompileEvents`).
- **Creation messages.** `CreateWindowEx` and `ShowWindow` send the window procedure messages before `init` returns (the model takes them as input). A `WM_SIZE` among them sets `WindowDidResize` while no resize callback exists yet, so the first frame resizes the framebuffer to the size given to `App` (`CreationResizesFirstFrame`).
- **Loop exit.** After the loop exits, `DestroyWindow` sends `WM_DESTROY` only if the window still exists. When the loop left because a `WM_DESTROY` set `ShouldQuit`, that window is already gone, so nothing more is dispatched. Starting from a clear `ShouldQuit`, the teardown never posts the quit message (`TeardownPostsNothing`).
- **Failed device creation.** `create_context_dx11` discards the result of `init_context_dx11` (alien2d/alien_dx11.hpp:361-365), and `init` goes on regardless. The shader, buffer and frame calls then dereference a device or device context that was never created. The model makes those calls require the device objects they use, and `App`'s constructor states that they exist exactly when device creation succeeded.

## Model

| member | source | states |
|---|---|---|
| AlienDx11.ResolveOffsets | alien2d/alien_dx11.hpp:241-245 | resolving a declared layout keeps each element's semantic and format, keeps an explicit offset, and places a `D3D11_APPEND_ALIGNED_ELEMENT` element right after the previous one |
| AlienDx11.StrideMatchesLayout | alien2d/alien_dx11.hpp:241-264 | the stride of 6 floats (24 bytes) is exactly the packed size of the POS (2 floats) + COL (4 floats) layout, and the appended COL resolves to the offset right after POS |
| AlienDx11.VertexCount | alien2d/alien_dx11.hpp:265 | `sizeof(vertexData) / stride` counts whole vertices: `n * stride <= bytes < (n + 1) * stride` |
| AlienDx11.CompileFailureShown | alien2d/alien_dx11.hpp:164-185 | the one file "shaders.hlsl" is compiled whatever path is given; a failure shows exactly one message box, with the fixed file-not-found text, the compiler's log, or no text; a success shows none and creates the shader from the blob |
| AlienDx11.DrawCommandDrawsOnce | alien2d/alien_dx11.hpp:304-328 | `draw_command` issues exactly one `Draw(vertexCount, 0)` followed by exactly one `Present(1, 0)`, as its last two calls, and clears nothing |
| AlienDx11.PhysicalDevice.constructor | alien2d/alien_dx11.hpp:86-87 | a new device has the given size, is not initialised and holds no native objects |
| AlienDx11.PhysicalDevice.InitDevice | alien2d/alien_dx11.hpp:97-101 | records the window and instance handles and sets the initialised flag, changing nothing else |
| AlienDx11.PhysicalDevice.InitContext | alien2d/alien_dx11.hpp:105-161 | needs the initialised flag; describes the swap chain from the stored size and window (60/1 Hz, RGBA8, one sample, one buffer, windowed, discard); returns true iff device creation succeeds; on failure no object is stored and no view is created or bound; on success the view on back buffer 0 is created, the back buffer released and the view bound |
| AlienDx11.PhysicalDevice.CompileVertexShader | alien2d/alien_dx11.hpp:164-197 | needs a device when compilation succeeds; returns true iff compilation succeeds; the out-parameters are written only on success, with the blob and the new shader; the calls made are those of `CompileEvents` |
| AlienDx11.PhysicalDevice.CompilePixelShader | alien2d/alien_dx11.hpp:200-234 | as for the vertex stage, and on success the last call releases the very blob that is handed back |
| AlienDx11.PhysicalDevice.CreateBuffer | alien2d/alien_dx11.hpp:237-282 | needs a device; the descriptor has stride 24, offset 0 and a vertex count that covers the 72-byte triangle exactly (3 vertices); the layout is built against the vertex blob, which is then released, and the buffer is immutable |
| AlienDx11.PhysicalDevice.NextFrame | alien2d/alien_dx11.hpp:284-302 | needs a device context; clears the current render target, sets the viewport and binds the target, in that order |
| AlienDx11.PhysicalDevice.DrawCommand | alien2d/alien_dx11.hpp:304-328 | needs a device context and a swap chain; binds topology, layout, both shaders and the vertex buffer with its stride and offset, then draws and presents (see `DrawCommandDrawsOnce`) |
| AlienDx11.DX11Context.constructor | alien2d/alien_dx11.hpp:348 | the default context holds a fresh 800×600 uninitialised device with no native objects and is not set |
| AlienDx11.DX11Context.WithHandles | alien2d/alien_dx11.hpp:349-352 | stores the three handles but leaves the context not set |
| AlienDx11.DX11Context.SetContext | alien2d/alien_dx11.hpp:354-359 | stores the three handles and sets the flag |
| AlienDx11.DX11Context.CreateContext | alien2d/alien_dx11.hpp:361-365 | needs the flag; initialises the device with the stored window and instance, then runs the device setup whose result is discarded; the device keeps its size; device, device context and swap chain are those created on success and unchanged on failure |
| AlienSprite.SpriteStatics.constructor | alien2d/alien_sprite.hpp:80 | the shared sprite context starts out null and no hook has run |
| AlienSprite.Sprite.constructor | alien2d/alien_sprite.hpp:39-43 | the context passed (the renderer's `GetContext()`) is adopted as the shared one only while none is shared; a shared context is never replaced; all shader slots and the buffer start empty |
| AlienSprite.Sprite.OnInit | alien2d/alien_sprite.hpp:46-56 | records one `on_init`; needs a device if a stage compiles; compiles the vertex then the pixel shader into the sprite's slots (a failed stage keeps its slot), then takes the buffer built from the vertex blob, whatever the compilations did |
| AlienSprite.Sprite.OnDraw | alien2d/alien_sprite.hpp:58-65 | records one `on_draw`; needs a device context and swap chain; one frame: `next_frame`, then `draw_command` with the sprite's buffer and shaders |
| AlienSprite.FrameClearsDrawsPresents | alien2d/alien_sprite.hpp:58-65 | one sprite frame clears exactly once, first, draws exactly once with the sprite's vertex count and presents exactly once, last |
| AlienSprite.NextFrameFilters | alien2d/alien_dx11.hpp:284-302 | `next_frame` clears exactly once and neither draws nor presents |
| AlienSprite.Sprite.OnRelease | alien2d/alien_sprite.hpp:67-72 | records one `on_release` and changes nothing else: not the sprite, not the shared context, not the device |
| AlienGfx.Traverse | alien2d/alien_gfx.hpp:61-77 | a traversal invokes the hook once per queue entry, on that entry's renderable, in queue order |
| AlienGfx.PushThenTraverse | alien2d/alien_gfx.hpp:89-91 | after a push the traversal visits the earlier entries as before and the new entry last |
| AlienGfx.TraversalIgnoresPriority | alien2d/alien_gfx.hpp:49-53 | priority and z-order never influence the order in which renderables are visited |
| AlienGfx.LastQuadIsLast | alien2d/alien_gfx.hpp:67-71 | a renderable queued several times ends up with the buffer of its last entry's `on_init` |
| AlienGfx.LastQuadFound | alien2d/alien_gfx.hpp:67-71 | every queued renderable has a buffer after `init` |
| AlienGfx.DrawPassDrawsEachOnce | alien2d/alien_gfx.hpp:73-77 | one `draw()` issues exactly one draw per entry, in queue order, each with that entry's vertex count |
| AlienGfx.DrawPassPresentsEachOnce | alien2d/alien_gfx.hpp:73-77 | one `draw()` presents exactly once per entry, always with sync interval 1 |
| AlienGfx.DrawPassClearsEachOnce | alien2d/alien_gfx.hpp:73-77 | one `draw()` clears the render target exactly once per entry |
| AlienGfx.Renderer.constructor | alien2d/alien_gfx.hpp:99-107 | the renderer starts with an empty queue and no context |
| AlienGfx.Renderer.PushQueue | alien2d/alien_gfx.hpp:89-91 | appends exactly the given entry at the end of the queue |
| AlienGfx.Renderer.SetContext | alien2d/alien_gfx.hpp:80-82 | `GetContext` afterwards returns the context set |
| AlienGfx.Renderer.Init | alien2d/alien_gfx.hpp:67-71 | the sprites record exactly one `on_init` per entry, in queue order; afterwards each queued renderable holds the buffer of its last entry |
| AlienGfx.Renderer.Draw | alien2d/alien_gfx.hpp:73-77 | the sprites record exactly one `on_draw` per entry, in queue order, and the device receives exactly one frame per entry in that order (`DrawPass`) |
| AlienGfx.Renderer.Release | alien2d/alien_gfx.hpp:61-65 | in the destructor the sprites record exactly one `on_release` per entry, in forward order |
| AlienGfx.RendererInstance.Instance | alien2d/alien_gfx.hpp:56-59 | the first call creates the renderer; every later call returns that same object |
| AlienWindow.LoWord | alien2d/alien_window.hpp:259 | the low word of `lParam` is below 65536 |
| AlienWindow.HiWord | alien2d/alien_window.hpp:260 | the high word of `lParam` is below 65536 |
| AlienWindow.WordsAreLow32 | alien2d/alien_window.hpp:259-260 | the high and low words together are the low 32 bits of `lParam`, negative values included |
| AlienWindow.SizeParamRoundTrip | alien2d/alien_window.hpp:259-260 | decoding the `WM_SIZE` parameter of a w×h client area gives back w and h |
| AlienWindow.WinProcStep | alien2d/alien_window.hpp:246-271 | the first `WM_DESTROY` sets `ShouldQuit` and returns 0, and only then is 0 returned; a later one posts the quit message; after `WM_DESTROY` the window no longer exists; `WM_SIZE` always sets `WindowDidResize`, and takes the size from the low/high words and calls the resize callback exactly when one is registered, otherwise the size is kept; no other message and no unregistered `WM_SIZE` logs anything but that quit message; callbacks never change |
| AlienWindow.CallbackEvents | alien2d/alien_window.hpp:207-209 | running a queue invokes each callback exactly once, in registration order |
| AlienWindow.Dispatch | alien2d/alien_window.hpp:214-219 | dispatching a peeked message only posts the quit message or calls the resize callback |
| AlienWindow.IterationUpdates | alien2d/alien_window.hpp:221-223 | a pass that gets past the quit check runs exactly the update queue, in order |
| AlienWindow.IterationNoKill | alien2d/alien_window.hpp:213-238 | a pass never runs a kill callback |
| AlienWindow.IterationFrame | alien2d/alien_window.hpp:226-235 | a pass swaps buffers exactly once, resizes the framebuffer to the current size exactly when `WindowDidResize` is set after the dispatch, and leaves the flag clear |
| AlienWindow.PassFrameFilters | alien2d/alien_window.hpp:221-235 | the frame part of a pass swaps buffers once and resizes the framebuffer exactly as the flag asks |
| AlienWindow.DispatchAllFlags | alien2d/alien_window.hpp:246-271 | after a series of messages `WindowDidResize` is set iff it was or one of them was `WM_SIZE`; callbacks never change; without a resize callback the size is kept |
| AlienWindow.CreationResizesFirstFrame | alien2d/alien_window.hpp:173-188 | with no resize callback, a `WM_SIZE` sent while creating or showing the window makes the first pass resize the framebuffer once, to the size given to `App` |
| AlienWindow.TeardownPostsNothing | alien2d/alien_window.hpp:240-241 | from a clear `ShouldQuit`, the `WM_DESTROY` that the final `DestroyWindow` may send posts nothing and calls no callback |
| AlienWindow.RunUpdatesEveryFrame | alien2d/alien_window.hpp:221-223 | over the whole loop the callbacks run are exactly the update queue repeated once per frame |
| AlienWindow.RunNeverKills | alien2d/alien_window.hpp:129-131 | kill callbacks are stored but the loop never runs one |
| AlienWindow.RunFrames | alien2d/alien_window.hpp:226-235 | one buffer swap per frame; at most one framebuffer resize per frame; once a frame has run the resize flag is clear |
| AlienWindow.RunStopsAtQuit | alien2d/alien_window.hpp:213-215 | a frame runs for every peeked message before the first `WM_QUIT` and for none from it on; a `QuitMessage` exit happens exactly at the first `WM_QUIT` |
| AlienWindow.RunExits | alien2d/alien_window.hpp:213-238 | the frames run before each kind of exit; with `ShouldQuit` already set at most one frame runs; once the loop has set `ShouldQuit` the window is gone |
| AlienWindow.RunKeepsCallbacks | alien2d/alien_window.hpp:246-271 | the loop never changes the callbacks, nor the size while no resize callback is registered |
| AlienWindow.RunPostsNoQuit | alien2d/alien_window.hpp:249-255 | from a clear `ShouldQuit` the loop never posts the quit message |
| AlienWindow.RunStops | alien2d/alien_window.hpp:213-238 | the loop leaves on `WM_QUIT` before a frame (where, `RunStopsAtQuit`) or on `ShouldQuit` after one; with `ShouldQuit` already set at most one frame runs; without it the loop itself never posts the quit message, and once the loop has set `ShouldQuit` the window is gone; the size only changes while a resize callback is registered |
| AlienWindow.AppStatics.constructor | alien2d/alien_window.hpp:286-300 | the statics start at 800×600 with no input callback, both flags clear and no window |
| AlienWindow.DispatchMessages | alien2d/alien_window.hpp:173-188 | messages sent synchronously to the window procedure change the statics and log exactly as `DispatchAll` describes |
| AlienWindow.WinProc | alien2d/alien_window.hpp:246-271 | the window procedure's new statics, calls and return value are those of `WinProcStep` |
| AlienWindow.RunCallbacks | alien2d/alien_window.hpp:207-209 | a range-for over a queue invokes each callback once, in order |
| AlienWindow.Pass | alien2d/alien_window.hpp:214-235 | one loop body: dispatch, update callbacks, resize if flagged (clearing the flag), swap, as `Iteration` describes |
| AlienWindow.App.constructor | alien2d/alien_window.hpp:108-203 | the window is created with the static size as it was and exists until a `WM_DESTROY` among the messages below ends it; the messages sent while creating and then while showing it are dispatched through the window procedure; the context gets the window's handles and creates its device at 800×600; only then do `Width`/`Height` become `w`/`h`; device, device context and swap chain exist iff device creation succeeded; all queues start empty |
| AlienWindow.App.AddEventQueue | alien2d/alien_window.hpp:119-134 | appends the callback to exactly the queue selected, the other two are unchanged |
| AlienWindow.App.AddResizeEvent | alien2d/alien_window.hpp:136-138 | registers the resize callback, overwriting any earlier one |
| AlienWindow.App.AddKeyboardEvent | alien2d/alien_window.hpp:140-143 | registers the callback for the given event, overwriting any earlier one |
| AlienWindow.App.UpdateWindow | alien2d/alien_window.hpp:205-243 | every init callback once, in order, before the loop; then exactly the loop `Run` describes; after the loop leaves, the device context is released and the window destroyed, which dispatches one more `WM_DESTROY` only while the window still exists |

## Left out

- alien2d/alien_gl.hpp: the OpenGL backend is not part of this model. Function loading, pixel formats and GL shader calls are decided by the driver.
- Win32 I/O:
  - Not modelled: `RegisterClass`, `GetModuleHandle`, `GetDC`, `TranslateMessage`, `GetClientRect` and the value `DefWindowProc` returns.
  - Messages the loop peeks are an input sequence.
  - `CreateWindowEx`, `ShowWindow`, `SwapBuffers`, `ReleaseDC` and `DestroyWindow` are events in the log.
  - `DestroyWindow` is modelled as sending only `WM_DESTROY`, and only to a window that still exists. Other messages it sends, such as `WM_NCDESTROY`, are not modelled.
  - The messages `CreateWindowEx` and `ShowWindow` send are input sequences. Only `WM_DESTROY`, `WM_SIZE` and `WM_QUIT` are told apart; every other message falls through to `DefWindowProc`.
- AlienWindow.App.constructor: the window handles are parameters of a successful `CreateWindowEx`. The `exit(GetLastError())` taken when creation fails ends the process and is not modelled. The `std::cerr` message is not modelled either; `init` always returns true, so it is never printed.
- AlienWindow.App.UpdateWindow: the loop runs over a finite sequence of peeked messages. When the sequence runs out while the loop would go on, the model stops there (`InputExhausted`). It then neither releases the device context nor destroys the window.
- Callbacks are opaque identities. What a callback does when invoked is not modelled: touching `AppState`, registering more callbacks, changing the statics.
- `update()` only calls `update_window()`, so `App.UpdateWindow` models both. `get_context()` and the empty `~App()` are not modelled.
- Direct3D, DXGI and the shader compiler are oracle results plus trace events.
  - COM reference counting is not modelled.
  - Neither are the `DX11PhysicalDevice` destructor's `Release` calls.
  - The `assert(SUCCEEDED(hr))` checks that follow a successful device creation or compilation are modelled as those calls succeeding. In a release build a failure there would go on with undefined values.
- The `f32` contents are not modelled: the vertex data, the clear colour and the viewport rectangle. Only counts, strides, offsets and order are.
- `physicalDevice.resize_and_set_framebuffer` and `create_quad_buffer` are called but never defined. Both are opaque events (`ResizeFramebuffer`, `CreateQuadBuffer`). The descriptor `create_quad_buffer` returns is an oracle value.
- `IRenderable` is a pure interface. `Sprite` is its only implementation, so queue entries hold sprites.
- AlienGfx.Renderer.Init: states the recorded hooks and every sprite's resulting buffer. It does not state the device trace of the whole pass. Each sprite's own `OnInit` states its part.
- A device that was never created: the source crashes on a null device or device context after a failed device creation. The model does not model that crash. `CompileVertexShader`, `CompilePixelShader`, `CreateBuffer`, `NextFrame`, `DrawCommand`, `Sprite.OnInit`, `Sprite.OnDraw`, `Renderer.Init` and `Renderer.Draw` require the device objects they use instead.
- A sprite drawn before it was initialised: `draw_command` then reads through a null `m_BufferDesc` (alien2d/alien_dx11.hpp:312), so `on_init` must come first. The model does not model that crash either: `Sprite.OnDraw`, and through it `Renderer.Draw`, require every drawn sprite to hold a buffer.
- `Renderer::GetContext` and `Renderer`'s static `Context` are modelled as a function and a field of the single renderer.
