# Canvas association for web windows (winit, web backend)

This project models `WindowBuilderExtWebSys::with_canvas`, the builder step in
winit's web backend that lets an application hand over a canvas element from its
own page. A window created from the builder then draws into that canvas instead
of a new one. The step follows two rules:

- **Size default.** When a canvas is supplied and the builder has no `inner_size`
  yet, the inner size becomes `Size::Logical(canvas.width, canvas.height)`. The
  dimensions are read at the moment of the call. A size that is already configured
  is kept.
- **Canvas storage.** The argument, `Some(canvas)` or `None`, is always written to
  `platform_specific.canvas`, and it replaces any earlier value. No other field
  changes.

Layout:

- `wrappers.dfy` (`Wrappers`): `Option`, with `Or` (Rust's `Option::or`).
- `dpi.dfy` (`Dpi`): `u32`, `LogicalSize`, `PhysicalSize`, `Size`, and the
  `u32 as f64` conversion. Every `u32` fits exactly in an `f64`, so the conversion
  is modelled as the exact value in `real`.
- `web.dfy` (`WebPlatform`):
  - `Canvas` is a class. An `HtmlCanvasElement` is a handle to a DOM node, with
    identity and `width`/`height` that can change.
  - `WindowBuilder` is a class holding the two attribute records. Its method
    `WithCanvas` follows the source's statements.
  - `AfterWithCanvas` is an independent, value-level definition of the same step,
    written as a precedence rule: the configured size, or else the size the canvas
    offers. The method is proved against it.
  - The lemmas state the properties of one call, of a chain of calls, and of the
    snapshot read of the canvas's dimensions.

## Model

| member | source | states |
|---|---|---|
| `Dpi.U32AsF64` | src/platform/web.rs:34-35 | The result of `canvas.width() as f64` is a whole number in `[0, 2^32)` and equals the `u32` it came from. |
| `Dpi.U32AsF64Injective` | src/platform/web.rs:34-35 | The cast loses nothing: two dimensions convert to the same `f64` exactly when they are equal. |
| `WebPlatform.CanvasLogicalSize` | src/platform/web.rs:33-36 | A canvas-derived size is `Logical`, and each component is an exact whole-number copy of the canvas's `u32` dimension, so it lies below 2^32. |
| `WebPlatform.AfterWithCanvas` | src/platform/web.rs:30-42 | The argument is recorded as the canvas. All other fields are unchanged. A configured size is kept. With no canvas the size is unchanged. Afterwards a size is set exactly when one was set before or a canvas was supplied. |
| `WebPlatform.WindowBuilder.WithCanvas` | src/platform/web.rs:30-42 | The method updates the builder in place, and its new state is `AfterWithCanvas` of the old state and the argument. It returns the same builder, for chaining. |
| `WebPlatform.SizeDerivedFromCanvas` | src/platform/web.rs:31-36 | `Some(c)` on an unsized builder sets the inner size to `Logical(c.width, c.height)`. |
| `WebPlatform.ExplicitSizeWins` | src/platform/web.rs:32 | `Some(c)` leaves an already-set inner size unchanged, whatever `c`'s dimensions are. |
| `WebPlatform.AbsentCanvasClears` | src/platform/web.rs:31-39 | `None` leaves the inner size as it was, set or unset, and clears any recorded canvas. |
| `WebPlatform.WithCanvasIdempotent` | src/platform/web.rs:30-42 | Calling twice with the same argument gives the same builder as calling once. |
| `WebPlatform.TwoCanvasesFirstSizes` | src/platform/web.rs:31-39 | On an unsized builder, `Some(c1)` then `Some(c2)` records `c2` while the inner size stays at `c1`'s dimensions. |
| `WebPlatform.AfterWithCanvasChain` | src/platform/web.rs:30-42 | Any chain of calls changes no field other than the inner size and the canvas, and it keeps a size that was configured before the chain. |
| `WebPlatform.ChainLastCanvasWins` | src/platform/web.rs:39 | After a non-empty chain of calls, the recorded canvas is the last argument. |
| `WebPlatform.ChainSizedByFirstCanvas` | src/platform/web.rs:31-37 | After a chain, the inner size is the one configured before the chain. If there was none, it comes from the first canvas supplied. If no canvas was supplied, it stays unset. |
| `WebPlatform.ResizeAfterWithCanvas` | src/platform/web.rs:33-36 | The dimensions are read once, at the call. If the page resizes the canvas afterwards, the inner size keeps the old dimensions, and the recorded handle is the same, resized node. |

## Left out

- `WindowExtWebSys::canvas` and `WindowExtWebSys::is_dark_mode` (src/platform/web.rs:18-23): these are trait declarations only. Their implementations are in the web backend, which is not part of this model. `is_dark_mode` is a live query of the browser's color-scheme preference.
- What the backend does when it builds the window (module documentation, src/platform/web.rs:6-9): adopting the canvas, converting the logical size to physical pixels with the device pixel ratio, and keeping a `width` or `height` the canvas's style already sets. This is DOM and DPI behaviour outside this file, and it involves floating-point scaling.
- `HtmlCanvasElement` is reduced to its `width` and `height`. Reading them is assumed to succeed, as the web-sys getters do.
- The `wasm32` build gate (src/platform/web.rs:1) is build configuration, not behaviour.
- The other fields of `WindowAttributes` and of the web `PlatformSpecificWindowBuilderAttributes` are opaque types (`OtherWindowAttributes`, `OtherPlatformAttributes`). `with_canvas` does not read them, and the model proves it does not change them. How a builder is created (`WindowBuilder::new`) is not part of this model: the model's constructor takes any builder state.
- src/dpi.rs is not part of this model. `LogicalSize<f64>` and `PhysicalSize<u32>` are modelled from winit's definitions of those types. `f64` is modelled as `real`, which is exact for the only values written here, `u32` dimensions.
- `AfterWithCanvasChain` and the chain lemmas assume the canvases' dimensions do not change between the calls of one chain. `ResizeAfterWithCanvas` covers a resize that happens after a call.
