# MyGameLib core, modelled in Dafny

MyGameLib is a small DirectX 12 game framework for Windows. A `Window`
owns a `Renderer` and runs a main loop. Each pass of that loop peeks one
window message, stops on `WM_QUIT`, and otherwise lets the `FPS` frame
gate decide whether to draw a frame. Games draw `Shape`s (`Circle`, `Box`,
`Triangle`) and `Line`s, and play sounds registered by tag in `Sound`.

This project models the framework's own logic, with the GPU, the OS and
the audio engine abstracted away:

- **Shapes** (`shape.dfy`, `circle.dfy`, `box.dfy`, `triangle.dfy`,
  `line.dfy`). The vertex and index tables each constructor builds are
  modelled as loops over arrays. The uploads into mapped buffers are copy
  loops into fresh arrays. `SetUV` rewrites the mapped vertex buffer in
  place. The buffer-view sizes, the world transform and the draw call
  recorded are modelled too. Matrices are symbolic (identity, translation,
  product).
- **Constant-buffer alignment** (`alignment.dfy`). The C++ expression
  `(size + 0xff) & ~0xff` on a 64-bit `size_t` is modelled with a bitwise
  AND on naturals. The lemmas prove it rounds up to the next multiple of 256.
- **Renderer bookkeeping** (`renderer.dfy`). This covers the NVIDIA
  adapter preference and the feature-level fallback of device creation.
  It also covers the render-target descriptor handles written for the two
  back buffers and recomputed by `BeginDraw`, with `SIZE_T`/`UINT`
  wrap-around. Finally it covers the 64-bit fence counter and the
  viewport/scissor set-up.
- **Frame gate** (`fps.dfy`). `FPS`'s static fields become one object.
  Counter readings are integer ticks, and durations are exact reals.
- **Sound registry** (`sound.dfy`). It holds two tag-keyed maps of opaque
  effect and instance objects.
- **Window** (`window.dfy`). `WindowProc` is modelled as a routing table.
  `Run` is one loop iteration with its show-once flag.

Results of OS and device calls are parameters. These are the message
`PeekMessage` found, performance-counter readings and the frequency, the
descriptor heap start and handle increment, the `HRESULT` of
`D3D12CreateDevice` per adapter and level, adapter descriptions, and the
value of `sqrtf(3)` and of sine/cosine per degree.

## Model

| member | source | states |
|---|---|---|
| Alignment.ClearLowByte | Shape.cpp:66 | `v & ~0xff` on a 64-bit value is `v` rounded down to a multiple of 256 |
| Alignment.AlignUp256NoWrap | Shape.cpp:66 | without wrap-around, `(size + 0xff) & ~0xff` is `size + 0xff` rounded down to a multiple of 256 |
| Alignment.AlignUp256Bounds | Shape.cpp:66 | without wrap-around, `(size + 0xff) & ~0xff` is a multiple of 256, at least `size` and below `size + 256` |
| Alignment.MatrixConstantBufferSize | Renderer.cpp:60 | a 64-byte matrix gets a 256-byte constant buffer |
| Geometry.Uint32 | Shape.cpp:42 | storing a size in a `UINT` field keeps it below 2^32 and unchanged when it fits |
| Geometry.Upload | Shape.cpp:39 | `std::copy` into fresh mapped memory leaves exactly the source elements there |
| ShapeBuffers.Shape.constructor | Shape.cpp:7-9 | a new shape holds no vertices or indices |
| ShapeBuffers.Shape.CreateShape | Shape.cpp:21-28 | the lists are stored verbatim, both are uploaded, both views are sized from them, and the world buffer is 256 bytes holding the identity; the transform parts are untouched |
| ShapeBuffers.Shape.CreateVertexBufferView | Shape.cpp:30-44 | the mapped vertex buffer equals `vertices`; size is 32 bytes per vertex narrowed to `UINT`, stride 32 |
| ShapeBuffers.Shape.CreateIndexBufferView | Shape.cpp:46-62 | the index buffer equals `indices`; format R16_UINT, size 2 bytes per index narrowed to `UINT` |
| ShapeBuffers.Shape.CreateTransform | Shape.cpp:64-86 | the constant buffer is 256 bytes (a multiple of 256 that holds a matrix) and holds the identity |
| ShapeBuffers.Shape.Draw | Shape.cpp:88-98 | world becomes scale·rotate·position; one instance of an indexed triangle-list draw over all stored indices |
| ShapeBuffers.Shape.SetTransform | Shape.cpp:100-104 | stores the three transform parts |
| ShapeBuffers.Shape.SetUV | Shape.cpp:106-111 | given at least one uv per vertex, every mapped vertex gets its uv; positions and colors are unchanged |
| ShapeBuffers.Shape.GetUV | Shape.cpp:113-121 | one uv per stored vertex, the i-th vertex's uv at i |
| ShapeBuffers.SetThenGetUV | Shape.cpp:106-121 | `GetUV` returns the same list before and after `SetUV`: one entry per stored vertex, the i-th vertex's creation-time uv at i |
| CircleShape.CircleVertices | Circle.cpp:4-22 | 362 vertices: center at the origin with uv (0.5, 0.5), rim vertex k at (cos k·r, sin k·r) with uv ((cos k+1)/2, (sin k+1)/2), all in the given color, vertex 361 a copy of vertex 1 |
| CircleShape.CircleIndices | Circle.cpp:24-33 | all 1080 slots written: slice t < 359 is (0, t+1, t+2) and the last slice is (0, 360, 1) |
| CircleShape.NewCircle | Circle.cpp:3-38 | the fan is stored and uploaded, translated to (x, y, 0) with identity rotation and scale |
| CircleShape.FanIndicesInBounds | Circle.cpp:24-33 | every index is at most 360, inside the 362-vertex buffer |
| CircleShape.FanSlicesAroundCenter | Circle.cpp:25-33 | every slice starts at the center and spans two distinct rim vertices |
| CircleShape.FanCloses | Circle.cpp:25-33 | each slice ends where the next begins, and the last ends on vertex 1 where the first begins |
| CircleShape.FanVertexUse | Circle.cpp:22-33 | vertices 0..360 are each referenced; vertex 361 never is |
| CircleShape.RimOnCircle | Circle.cpp:12-20 | with proper sine and cosine, rim vertices lie on the circle of radius r and their uvs lie in the unit square |
| BoxShape.BoxVertices | Box.cpp:4-20 | corners (∓halfX, ±halfY) with uvs (0,1), (1,1), (0,0), (1,0), all in the given color; halfX, halfY are half the extents |
| BoxShape.BoxIndices | Box.cpp:22-28 | the indices are (0, 1, 2, 1, 3, 2) |
| BoxShape.NewBox | Box.cpp:3-33 | the quad is stored and uploaded, translated to (sx, sy, 0) with identity rotation and scale |
| BoxShape.QuadTopology | Box.cpp:22-28 | every index is below 4, every vertex is used, and the triangles are {0,1,2} and {1,2,3} |
| BoxShape.BoxSymmetricAndTextured | Box.cpp:5-20 | opposite corners are negations of each other, the texture spans the rectangle corner to corner, every vertex has the color |
| TriangleShape.TriangleVertices | Triangle.cpp:5-18 | apex (0, -h/2) with uv (0.5, 0), base (±length/2, h/2) with uvs (1,1), (0,1), all in the given color |
| TriangleShape.NewTriangle | Triangle.cpp:4-28 | vertices as above, indices (0, 1, 2), stored and uploaded, translated to (x, y, 0) with identity rotation and scale |
| TriangleShape.TriangleMirroredAndTextured | Triangle.cpp:8-18 | base vertices mirror in x and share y = -apex y; apex on the axis; texture spans the bounding box; every vertex has the color |
| TriangleShape.TriangleEquilateral | Triangle.cpp:5-10 | when sqrt3² = 3, all three sides have length `length` |
| LineShape.Line.constructor | Line.cpp:5-20 | two red vertices, origin with uv (0,0) and (x2-x1, y2-y1, 0) with uv (1,0), both uploaded; vertex buffer 64 bytes with stride 32; world ends as translation (x1, y1, 0) |
| LineShape.Line.CreateVertexBufferView | Line.cpp:26-40 | the mapped buffer equals `vertices`; size 32 bytes per vertex narrowed to `UINT`, stride 32 |
| LineShape.Line.CreateTransform | Line.cpp:42-64 | 256-byte constant buffer holding the identity |
| LineShape.Line.Draw | Line.cpp:66-73 | one instance of a line-list draw over the line's two vertices |
| RendererCore.Find | Renderer.cpp:107 | the first occurrence of the pattern at or after `from`, or none if it does not occur there |
| RendererCore.SelectAdapter | Renderer.cpp:94-112 | the first adapter whose description contains "NVIDIA"; the default adapter when there is none or no factory |
| RendererCore.CreateDeviceOn | Renderer.cpp:114-122 | levels are tried in order 12_2 … 11_0 and the loop stops at the first success; every earlier level failed; without success all five were tried and the last result is reported |
| RendererCore.CreateDevice | Renderer.cpp:85-123 | the adapter is the first whose description contains "NVIDIA", the default only without a factory or without such an adapter; levels are tried in order, every level before the reported one failed, the reported result is that of the last level tried; success iff some level succeeds on the chosen adapter, and on failure the 11_0 result is reported |
| RendererCore.RtvHandleStep | Renderer.cpp:804-808 | advancing a `SIZE_T` handle by the increment moves from descriptor i to descriptor i+1 |
| RendererCore.BeginDrawHandleMatches | Renderer.cpp:818-819 | `start + index * inc` with a `UINT` product lands on descriptor `index` for both back buffers |
| RendererCore.Renderer.constructor | Renderer.cpp:10-77 | render targets created, fence at 0, viewport (0, 0, width, height, depth 0..1), scissor [0, width)×[0, height), 256-byte projection buffer |
| RendererCore.Renderer.CreateRenderTarget | Renderer.cpp:787-810 | two back buffers, buffer i from `GetBuffer(i)` with its view at descriptor i; no more views than the heap's two descriptors |
| RendererCore.Renderer.BeginDraw | Renderer.cpp:812-837 | the render target bound is the one created for the current back buffer |
| RendererCore.Renderer.RunCommand | Renderer.cpp:853-867 | the fence counter goes up by one (mod 2^64) before it is signalled; the k-th signal is k |
| RendererCore.Renderer.EndDraw | Renderer.cpp:839-851 | submits once through `RunCommand` |
| RendererCore.SubmitTwice | Renderer.cpp:853-858 | two `RunCommand`s in a row on a renderer signal `fenceVal + 1` and then `fenceVal + 2`, the second larger, while the 64-bit counter does not wrap |
| FrameRate.IntervalInTicks | FPS.cpp:72 | the test `elapsed / freq >= 1 / frameRate` is `elapsed * frameRate >= freq` |
| FrameRate.RateBelowTarget | FPS.cpp:77-80 | an interval of at least one frame period gives a measured rate of at most the target |
| FrameRate.FPS.constructor | FPS.cpp:7-32 | the static fields start at zero and false |
| FrameRate.FPS.Initialize | FPS.cpp:34-46 | frequency, start counter and rate recorded; a frame is requested, so the next `Run` calls the callback |
| FrameRate.FPS.Run | FPS.cpp:48-84 | the callback runs iff a frame was requested, and only then is the start time refreshed; false iff it ran and returned false, with the request kept and the measurements unchanged; otherwise the next frame is requested iff a frame interval has passed, and only then is the interval measured, at least 1/frameRate with a rate of at most frameRate |
| FrameRate.FPS.GetFPS | FPS.cpp:86-88 | readable in any consistent state, initialised or not: zero before any measurement, else the inverse of the measured interval |
| FrameRate.FPS.GetDeltaTime | FPS.cpp:90-92 | readable in any consistent state, initialised or not: zero before any measurement, else positive |
| FrameRate.ReadBeforeInitialize | FPS.cpp:86-92 | on a gate that was never initialised both getters return 0 |
| SoundRegistry.SoundEffect.constructor | Sound.cpp:24 | the effect remembers its file |
| SoundRegistry.SoundEffectInstance.constructor | Sound.cpp:25 | the instance remembers its effect |
| SoundRegistry.Sound.constructor | Sound.cpp:3-9 | both registries start empty |
| SoundRegistry.Sound.LoadWave | Sound.cpp:20-28 | true iff the tag was new; a taken tag changes nothing; a new tag gets a fresh effect of the file and a fresh instance of it in both maps; other entries are kept and the key sets stay equal |
| SoundRegistry.Sound.GetAudio | Sound.cpp:30-36 | null iff the tag is absent, else the instance registered under the tag, made from that tag's effect; nothing is inserted |
| SoundRegistry.LoadThenGet | Sound.cpp:20-36 | after `LoadWave` the tag always resolves: to the new file if accepted, else to the earlier instance |
| WindowLoop.MakeLResult | Window.cpp:109 | the low and high 16-bit halves are recovered from the packed value |
| WindowLoop.WindowProc | Window.cpp:79-136 | `WM_DESTROY` posts quit and returns 0; activation goes to keyboard and mouse, then `DefWindowProc`; key messages go to the keyboard only; `WM_MENUCHAR` returns 0x10000; pointer messages go to the mouse only; `WM_MOUSEACTIVATE` returns `MA_ACTIVATEANDEAT`; anything else goes to `DefWindowProc` only |
| WindowLoop.OnlyDestroyQuits | Window.cpp:80-83 | only `WM_DESTROY` posts the quit message |
| WindowLoop.Window.constructor | Window.cpp:9-20 | renderer created, frame gate initialised with a frame requested, window hidden, no message yet |
| WindowLoop.Window.Frame | Window.cpp:35-49 | one submission through the renderer; the window is shown, and `ShowWindow` has been called exactly once |
| WindowLoop.Window.Run | Window.cpp:26-52 | a peeked message replaces `msg`; false iff `msg` is `WM_QUIT`, with no frame and the gate untouched (request, start time and both measurements kept); otherwise a frame runs iff the gate requested one, the start time is refreshed iff it ran, the next frame is requested iff a frame interval has passed since the start time, the interval is measured only then, and the window is shown from the first frame on |

## Left out

- GPU object creation and submission are not modelled. This covers the device, factory, swap chain, queues, allocators, root signature, pipeline states, descriptor views, Map/Unmap, Present and the graphics-memory commit. They are DirectX calls; the model keeps only the integers and copies they produce.
- The compiled shader byte arrays (Renderer.cpp:219-733) are opaque data.
- The fence wait loop with OS events (Renderer.cpp:859-864) is CPU/GPU synchronisation; only the counter is modelled. The same goes for the extra `RunCommand` in the renderer's destructor.
- The orthographic projection matrix (Renderer.cpp:53-57) and all matrix arithmetic are out. Matrices are symbolic, so `Draw`'s product is recorded, not computed.
- `Shape`'s `SetPosition`, `SetRotation`, `SetScale`, `GetPosition`, `GetRotation` and `GetScale` (Shape.cpp:123-164) are out. They are float matrix and quaternion arithmetic. `SetRotation` keeps only the Z rotation.
- Sine, cosine and `sqrtf(3)` are parameters. The circle and triangle lemmas assume only the algebraic facts they need.
- Coordinates and times are exact reals. Float and double rounding is not modelled, nor is `int` overflow in `ex - sx`, `ey - sy` or `-length`.
- `Shape()` leaves the transform matrices, the buffer views and the mapped pointers uninitialised in C++; the model starts them as the identity, zero-size views and empty arrays. The vertex and index vectors are empty in both.
- RendererCore.SelectAdapter: when no description contains "NVIDIA", the adapter used is the one the last `EnumAdapters` call left, taken here to be null, i.e. the default adapter.
- RendererCore.Renderer.BeginDraw: the back-buffer index is a parameter below the buffer count, standing in for `GetCurrentBackBufferIndex`. The barriers, clear, viewport and pipeline bindings are not modelled. Neither is `SetNormalPipeline`/`SetTexturePipeline`.
- FrameRate.FPS.Initialize: requires a positive frame rate and a positive counter frequency. In C++ a zero or negative rate turns `1.0 / frameRate` into an infinity or a negative value.
- FrameRate.FPS.Run: the callback is represented by its boolean result. `Window.Run` runs the frame before calling the gate, which is equivalent because the two touch disjoint state.
- Default arguments are not modelled: every caller passes the value. These are `Box`'s white `color` (Box.h:7), `FPS::Initialize`'s 60.0 frame rate (FPS.h:31) and `Window`'s 60.0 frame rate (Window.h:19).
- `FPS` is a set of static fields shared process-wide; the model gives each window its own gate object.
- `Texture.cpp`, `Input.cpp` and `Text.cpp` are not part of this model. They wrap DirectXTex and DirectXTK.
- `Sound::Update`, the audio engine and wave decoding are library calls. Effects and instances are opaque objects.
- Window creation, the message pump (`TranslateMessage`, `DispatchMessage`), the keyboard and mouse trackers and `DefWindowProc` itself are OS calls. `WindowProc` reports only where a message goes. The empty ALT+ENTER branch (Window.cpp:93-97) changes nothing and is not modelled.
- WindowLoop.Window.Frame: the game's `process` callback is not modelled; nothing in the model depends on it.
