# Mandelbrot explorer view controller, in Dafny

This project models the view controller of a GPU Mandelbrot explorer (`State` in `src/lib.rs`).
The controller keeps the viewport: the bottom-left corner `(minX, minY)` of the visible region of the
complex plane, its `height`, its width/height `aspectRatio` and the iteration budget
`maxIterations`. It turns window events into pan, zoom-to-cursor and iteration-depth changes, and
pushes the viewport to a GPU uniform buffer after every change. It recomputes the aspect ratio on
resize and ignores zero-sized resizes. On each redraw it recovers from a lost surface,
exits on out-of-memory and logs any other frame error.

- `view.dfy`, module `ViewMath`: the uniform block as a datatype and the pure transforms on it.
  It holds the plane point under a pixel, drag-pan, zoom-to-cursor and the ArrowUp and
  ArrowDown budget steps, with the lemmas about them.
- `state.dfy`, module `Explorer`: the window events, the surface errors, and the class `State`.
  Its methods `Input`, `Resize`, `UpdateUniform` and `Render` update the fields in place, as the
  program does. `HandleWindowEvent` is one turn of the event loop in `run`. Some functions have no
  contract of their own: `ViewAfterInput`, `DraggingAfterInput` and `CursorAfterInput` give the
  post-state of `input`, and `FrameActionFor` is the frame-error dispatch. The contracts of
  `Input` and `HandleWindowEvent` use them.

The GPU is observed through ghost fields of `State`:
- `bufferWrites`: every content the uniform buffer has held, the first being its contents at creation.
- `redrawRequests`: how many redraws have been requested.
- `surfaceConfigurations`: every size the surface was configured with.
- `presentedFrames`: the viewport each presented frame was drawn from.
- `errorLog`: the logged frame errors.

The class invariant `Valid()` holds before and after `Input`, `Resize`, `Render` and
`HandleWindowEvent`, and the constructor establishes it. `UpdateUniform` needs only
`Consistent()`, which is `Valid()` without the buffer mirror. It is called right after a
mutation, when the buffer is stale, and it restores `Valid()`. `Valid()` says:
- the window size is positive and the surface is configured with it;
- no surface configuration ever had a zero dimension;
- `aspectRatio` is `width / height` of the current size;
- the budget is at least 128 and a multiple of 128;
- the buffer holds the current viewport;
- there is exactly one redraw request per buffer write after creation.

Because the buffer always holds the current viewport, every presented frame shows it.

Every `f64` is an exact `real`. All arithmetic is exact, so these identities hold exactly:
- the cursor point is fixed under zoom;
- the grabbed point follows the cursor under drag;
- drag there and back is the identity.

`scale = 1 - delta / 10`, so a wheel amount of 10 or more makes the height zero or negative.
`ZoomKeepsHeightPositive` states the exact condition. Pixel deltas are not scaled before this
division, so one trackpad gesture can reach this case.

`CursorMoved` returns `false` even when it pans (src/lib.rs:244). Only wheel events and pressed
arrow keys return `true`.

## Model

| member | source | states |
|---|---|---|
| `ViewMath.AspectRatio` | src/lib.rs:209 | the aspect ratio of a non-empty window is positive and times the height gives the width |
| `ViewMath.InitialUniform` | src/lib.rs:98-105 | the start viewport is origin (-2, -1), height 2, the window's aspect ratio, budget 128 (a valid budget) |
| `ViewMath.Drag` | src/lib.rs:229-240 | panning by the cursor delta keeps the grabbed plane point under the cursor, and leaves height, aspect ratio and budget unchanged |
| `ViewMath.Zoom` | src/lib.rs:251-265 | height is multiplied by `1 - delta/10`, the plane point under the stored cursor is the same before and after, and aspect ratio and budget are unchanged |
| `ViewMath.LowerIterations` | src/lib.rs:281-285 | ArrowDown (`saturating_sub(128).max(128)`) gives `m - 128` from 256 up and 128 below that, never below 128 |
| `ViewMath.AfterPress` | src/lib.rs:278-286 | Up adds exactly 128, Down is `LowerIterations`, and each press maps a valid budget (at least 128, multiple of 128) to a valid budget |
| `ViewMath.PressesKeepBudget` | src/lib.rs:278-285 | any sequence of Up/Down presses keeps a valid budget valid |
| `ViewMath.PressesFromInitialBudget` | src/lib.rs:103 | from the initial 128, any sequence of presses leaves a budget of at least 128 that is a multiple of 128 |
| `ViewMath.PressesBounded` | src/lib.rs:278-285 | the budget grows by at most 128 per press |
| `ViewMath.ArrowsUndoEachOther` | src/lib.rs:278-285 | Down undoes Up, Up undoes Down above the floor, and Down at 128 stays at 128 |
| `ViewMath.DragRoundTrip` | src/lib.rs:239-240 | dragging from p to q and back from q to p restores the viewport exactly |
| `ViewMath.DragsCompose` | src/lib.rs:228-243 | two successive drags equal one drag from the first position to the last |
| `ViewMath.ZoomKeepsHeightPositive` | src/lib.rs:251-265 | a positive height stays positive after a zoom if and only if the wheel amount is below 10 |
| `ViewMath.ZoomsCompose` | src/lib.rs:251-265 | two zooms at one cursor scale the height by the product of the scales and keep the cursor point fixed |
| `ViewMath.DragFromDefaultView` | src/lib.rs:239-240 | in an 800x600 window the aspect ratio is 4/3, and a 10-pixel drag to the right moves the origin from -2 to -61/30 |
| `ViewMath.ZoomAtCentreOfDefaultView` | src/lib.rs:251-265 | one notch at the window centre gives height 1.8 and origin (-28/15, -0.9) about the fixed centre point (-2/3, 0) |
| `Explorer.State.constructor` | src/lib.rs:178-191 | the start state: default viewport, cursor at (0, 0), not dragging, surface configured once, buffer holding the initial uniform, invariant established |
| `Explorer.State.UpdateUniform` | src/lib.rs:194-201 | one buffer write of the current viewport and one redraw request, after which the buffer mirrors the viewport |
| `Explorer.State.Resize` | src/lib.rs:203-212 | a zero dimension changes nothing at all; otherwise size and configuration become the new size, only the aspect ratio changes (to w/h), and one push follows; a resize to the current size leaves the viewport unchanged |
| `Explorer.State.Input` | src/lib.rs:214-293 | the drag flag follows left press/release and cursor-leave; CursorMoved always stores the position and pans only while dragging; wheel zooms about the stored cursor; pressed arrows step the budget; the result is true exactly for wheel events and pressed ArrowUp/ArrowDown; exactly one push follows each viewport change and none otherwise; size and surface are untouched |
| `Explorer.State.Render` | src/lib.rs:297-336 | an acquired frame is drawn from the buffer and so presents the current viewport; an acquisition error is returned unchanged and nothing is drawn |
| `Explorer.State.HandleWindowEvent` | src/lib.rs:352-383 | the whole post-state of one loop turn: the cursor, drag flag and viewport are what `input` gives, except that a positive resize recomputes only the aspect ratio; the loop exits exactly on a close request, Escape, or an out-of-memory frame; a lost surface is reconfigured at the current size with the viewport unchanged and one push; other frame errors are logged; an acquired frame presents the current viewport; every configuration, buffer write, frame and log entry is accounted for |

## Left out

- GPU set-up in `State::new` (src/lib.rs:39-97, 107-176) is left out: the instance, adapter, device, shader, bind groups and pipeline. These are foreign API calls. Their only model is the first entry of `bufferWrites` and of `surfaceConfigurations`.
- Explorer.State.constructor: requires a positive initial window size. The program divides by the initial height, and wgpu refuses to configure a zero-sized surface, so a zero initial size is not modelled.
- The content of the command buffer and render pass (src/lib.rs:299-333) is left out. `Render` only records which viewport the presented frame was drawn from.
- The byte layout of the uniform (`repr(C)`, the padding word, `bytemuck::cast_slice`) is left out. A buffer write is an abstract entry of `bufferWrites`, and `request_redraw` is a counter.
- Explorer.State.Input: `max_iterations` is a `nat`. The `u32` overflow of `+= 128` at src/lib.rs:279 is not modelled; Rust panics there in debug builds and wraps in release builds.
- `f64` rounding and the `u32`/`f32` to `f64` conversions are left out. All arithmetic is exact over `real`, so the fixed-point and round-trip identities hold exactly rather than to within rounding.
- `dbg!` and `eprintln!` output are left out. A logged frame error is an entry of `errorLog`.
- `env_logger`, window creation (800x600, title), the winit event loop and the window-id check are left out. `HandleWindowEvent` models one loop turn for the single window.
- `update` (src/lib.rs:295) has an empty body and is not modelled.
- Frame acquisition is I/O, so its outcome is a parameter of `Render` and `HandleWindowEvent`.
