/** The viewport of the Mandelbrot explorer: the uniform block mirrored to the GPU and the
    pure pan, zoom and iteration-budget transforms applied to it. Every `f64` of the program
    is an exact `real` here. */
module ViewMath {

  /** A window size in physical pixels (`PhysicalSize<u32>`). */
  datatype Size = Size(width: nat, height: nat)

  /** A cursor position in physical pixels (`PhysicalPosition<f64>`); y grows downwards. */
  datatype Position = Position(x: real, y: real)

  /** A point of the complex plane; the imaginary axis grows upwards. */
  datatype Complex = Complex(re: real, im: real)

  /** The uniform block: the bottom-left corner of the viewport, its height in plane units,
      its width/height ratio (so the width is `height * aspectRatio`) and the iteration
      budget. The padding word carries no information and is not modelled. */
  datatype MandelbrotUniform = MandelbrotUniform(
    minX: real,
    minY: real,
    height: real,
    aspectRatio: real,
    maxIterations: nat)

  /** The step by which the arrow keys change the iteration budget, and its floor. */
  const IterationStep: nat := 128

  predicate IsPositive(size: Size) {
    size.width > 0 && size.height > 0
  }

  /** The width/height ratio of a window: `width as f64 / height as f64`. */
  function AspectRatio(size: Size): (r: real)
    requires IsPositive(size)
    ensures r > 0.0
    ensures r * size.height as real == size.width as real
  {
    size.width as real / size.height as real
  }

  /** The viewport the explorer starts with, for a window of the given size. */
  function InitialUniform(size: Size): (u: MandelbrotUniform)
    requires IsPositive(size)
    ensures u.minX == -2.0 && u.minY == -1.0 && u.height == 2.0
    ensures u.aspectRatio * size.height as real == size.width as real
    ensures IsIterationBudget(u.maxIterations) && u.maxIterations == IterationStep
  {
    MandelbrotUniform(-2.0, -1.0, 2.0, AspectRatio(size), 128)
  }

  /** The plane point shown at pixel `p`: with `u = p.x / W` the fraction from the left and
      `v = 1 - p.y / H` the fraction from the bottom, it is
      `(minX + u * height * aspectRatio, minY + v * height)`. */
  function PointAt(view: MandelbrotUniform, p: Position, size: Size): Complex
    requires IsPositive(size)
  {
    var u := p.x / size.width as real;
    var v := 1.0 - p.y / size.height as real;
    Complex(view.minX + u * view.height * view.aspectRatio, view.minY + v * view.height)
  }

  /** Dragging the cursor from `from` to `to` pans the viewport by the pixel delta: x
      against the motion, y with it because pixel y grows downwards. The plane point that
      was under the cursor is under it again afterwards; nothing but the origin moves. */
  function Drag(view: MandelbrotUniform, from: Position, to: Position, size: Size): (r: MandelbrotUniform)
    requires IsPositive(size)
    ensures PointAt(r, to, size) == PointAt(view, from, size)
    ensures r.height == view.height && r.aspectRatio == view.aspectRatio
    ensures r.maxIterations == view.maxIterations
  {
    var w := size.width as real;
    var h := size.height as real;
    var dx := to.x - from.x;
    var dy := to.y - from.y;
    PanFollowsCursor(view.minX, view.height * view.aspectRatio, from.x, to.x, w);
    PanFollowsCursor(view.minY, view.height, -from.y, -to.y, h);
    view.(minX := view.minX - dx / w * view.height * view.aspectRatio,
          minY := view.minY + dy / h * view.height)
  }

  /** One axis of a drag: shifting `origin` by `-(to - from) / d * k` moves the point at
      fraction `from / d` to fraction `to / d`. */
  lemma PanFollowsCursor(origin: real, k: real, from: real, to: real, d: real)
    requires d != 0.0
    ensures (origin - (to - from) / d * k) + to / d * k == origin + from / d * k
  {
  }

  /** The zoom factor of one wheel event: `1 - delta / 10`. */
  function ZoomScale(delta: real): real {
    1.0 - delta / 10.0
  }

  /** Zooming by a wheel amount `delta` about the cursor: the height is multiplied by
      `1 - delta / 10`, and the origin is moved so that the plane point under the cursor
      stays where it is. The aspect ratio and the budget are not touched. */
  function Zoom(view: MandelbrotUniform, delta: real, cursor: Position, size: Size): (r: MandelbrotUniform)
    requires IsPositive(size)
    ensures r.height == view.height * ZoomScale(delta)
    ensures PointAt(r, cursor, size) == PointAt(view, cursor, size)
    ensures r.aspectRatio == view.aspectRatio && r.maxIterations == view.maxIterations
  {
    var scale := ZoomScale(delta);
    var u := cursor.x / size.width as real;
    var v := 1.0 - cursor.y / size.height as real;
    var newHeight := view.height * scale;
    var heightDiff := newHeight - view.height;
    view.(minX := view.minX - u * heightDiff * view.aspectRatio,
          minY := view.minY - v * heightDiff,
          height := view.height * scale)
  }

  /** The budget invariant: at least 128 and a multiple of 128. */
  predicate IsIterationBudget(m: nat) {
    m >= IterationStep && m % IterationStep == 0
  }

  function Max(a: nat, b: nat): nat {
    if a >= b then a else b
  }

  /** ArrowDown: `max_iterations.saturating_sub(128).max(128)`, the subtraction stopping at
      0 as `u32::saturating_sub` does. */
  function LowerIterations(m: nat): (r: nat)
    ensures r >= IterationStep
    ensures m >= 2 * IterationStep ==> r == m - IterationStep
    ensures m < 2 * IterationStep ==> r == IterationStep
  {
    Max(if m >= IterationStep then m - IterationStep else 0, IterationStep)
  }

  /** The arrow keys that change the iteration budget. */
  datatype Arrow = Up | Down

  /** The budget after one press of `arrow` (ArrowUp: `max_iterations += 128`); every press
      keeps the budget invariant. */
  function AfterPress(m: nat, arrow: Arrow): (r: nat)
    ensures IsIterationBudget(m) ==> IsIterationBudget(r)
    ensures arrow == Up ==> r == m + IterationStep
    ensures arrow == Down ==> r == LowerIterations(m)
  {
    match arrow
    case Up => m + IterationStep
    case Down => LowerIterations(m)
  }

  /** The budget after pressing the arrows in order. */
  function AfterPresses(m: nat, arrows: seq<Arrow>): nat
    decreases |arrows|
  {
    if arrows == [] then m else AfterPresses(AfterPress(m, arrows[0]), arrows[1..])
  }

  /** Any sequence of presses keeps the budget a multiple of 128 and at least 128. */
  lemma {:induction false} PressesKeepBudget(m: nat, arrows: seq<Arrow>)
    requires IsIterationBudget(m)
    ensures IsIterationBudget(AfterPresses(m, arrows))
    decreases |arrows|
  {
    if arrows != [] {
      PressesKeepBudget(AfterPress(m, arrows[0]), arrows[1..]);
    }
  }

  /** From the initial budget of 128 no sequence of presses leaves the invariant. */
  lemma PressesFromInitialBudget(arrows: seq<Arrow>)
    ensures IsIterationBudget(AfterPresses(IterationStep, arrows))
  {
    PressesKeepBudget(IterationStep, arrows);
  }

  /** The budget never exceeds 128 per Up press above where it started. */
  lemma {:induction false} PressesBounded(m: nat, arrows: seq<Arrow>)
    ensures AfterPresses(m, arrows) <= Max(m, IterationStep) + IterationStep * |arrows|
    decreases |arrows|
  {
    if arrows != [] {
      var next := AfterPress(m, arrows[0]);
      PressesBounded(next, arrows[1..]);
      assert Max(next, IterationStep) <= Max(m, IterationStep) + IterationStep;
    }
  }

  /** ArrowDown undoes ArrowUp on every valid budget, and ArrowUp undoes ArrowDown above the
      floor; at the floor ArrowDown changes nothing. */
  lemma ArrowsUndoEachOther(m: nat)
    requires IsIterationBudget(m)
    ensures AfterPress(AfterPress(m, Up), Down) == m
    ensures m > IterationStep ==> AfterPress(AfterPress(m, Down), Up) == m
    ensures m == IterationStep ==> AfterPress(m, Down) == m
  {
  }

  /** Dragging from one position to another and back restores the origin exactly. */
  lemma DragRoundTrip(view: MandelbrotUniform, p: Position, q: Position, size: Size)
    requires IsPositive(size)
    ensures Drag(Drag(view, p, q, size), q, p, size) == view
  {
  }

  /** Two drags in a row are one drag from the first position to the last. */
  lemma DragsCompose(view: MandelbrotUniform, p: Position, q: Position, s: Position, size: Size)
    requires IsPositive(size)
    ensures Drag(Drag(view, p, q, size), q, s, size) == Drag(view, p, s, size)
  {
  }

  /** The zoomed viewport keeps a positive height exactly when the wheel amount is below 10;
      an amount of 10 or more collapses or flips the view. */
  lemma ZoomKeepsHeightPositive(view: MandelbrotUniform, delta: real, cursor: Position, size: Size)
    requires IsPositive(size) && view.height > 0.0
    ensures Zoom(view, delta, cursor, size).height > 0.0 <==> delta < 10.0
  {
  }

  /** A zoom followed by a zoom about the same cursor is one zoom by the product of the two
      scales: the cursor point stays fixed throughout. */
  lemma ZoomsCompose(view: MandelbrotUniform, d1: real, d2: real, cursor: Position, size: Size)
    requires IsPositive(size)
    ensures Zoom(Zoom(view, d1, cursor, size), d2, cursor, size).height
         == view.height * ZoomScale(d1) * ZoomScale(d2)
    ensures PointAt(Zoom(Zoom(view, d1, cursor, size), d2, cursor, size), cursor, size)
         == PointAt(view, cursor, size)
  {
  }

  /** The default viewport in an 800x600 window has aspect ratio 4/3; dragging 10 pixels to
      the right from there moves the left edge to -2 - 1/30. */
  lemma DragFromDefaultView()
    ensures InitialUniform(Size(800, 600)).aspectRatio == 4.0 / 3.0
    ensures Drag(InitialUniform(Size(800, 600)), Position(0.0, 0.0), Position(10.0, 0.0), Size(800, 600))
         == MandelbrotUniform(-61.0 / 30.0, -1.0, 2.0, 4.0 / 3.0, 128)
  {
  }

  /** One wheel notch at the centre of an 800x600 window zooms the default viewport to height
      1.8 about its centre point (-2 + 4/3, 0). */
  lemma ZoomAtCentreOfDefaultView()
    ensures Zoom(InitialUniform(Size(800, 600)), 1.0, Position(400.0, 300.0), Size(800, 600))
         == MandelbrotUniform(-28.0 / 15.0, -0.9, 1.8, 4.0 / 3.0, 128)
    ensures PointAt(InitialUniform(Size(800, 600)), Position(400.0, 300.0), Size(800, 600))
         == Complex(-2.0 / 3.0, 0.0)
  {
  }
}
