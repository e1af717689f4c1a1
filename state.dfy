/** The explorer's controller: the window events it reacts to, the surface errors a frame can
    end with, and the `State` object whose methods update the viewport, keep the GPU uniform
    buffer in step with it and drive the per-frame recovery. */
module Explorer {
  import opened ViewMath

  datatype ElementState = Pressed | Released

  datatype MouseButton = Left | OtherButton

  datatype Key = ArrowUp | ArrowDown | Escape | OtherKey

  /** A wheel movement: in lines (`LineDelta(x, y)`) or in pixels (`PixelDelta(position)`). */
  datatype ScrollDelta = LineDelta(columns: real, lines: real) | PixelDelta(position: Position)

  /** The window events the controller distinguishes; everything else is `OtherEvent`. */
  datatype WindowEvent =
    | CursorLeft
    | MouseInput(state: ElementState, button: MouseButton)
    | CursorMoved(position: Position)
    | MouseWheel(delta: ScrollDelta)
    | KeyboardInput(keyState: ElementState, key: Key)
    | Resized(newSize: Size)
    | CloseRequested
    | RedrawRequested
    | OtherEvent

  datatype SurfaceError = Lost | OutOfMemory | OtherFailure

  /** The outcome of acquiring the next surface texture. */
  datatype RenderResult = Ok | Err(error: SurfaceError)

  /** What the event loop does after a frame. */
  datatype FrameAction = Continue | Reconfigure | Exit | LogAndContinue

  /** The vertical wheel amount: the line count for line deltas, the pixel count for pixel
      deltas, with no conversion between the two. */
  function ScrollAmount(delta: ScrollDelta): real {
    match delta
    case LineDelta(_, y) => y
    case PixelDelta(pos) => pos.y
  }

  predicate IsArrow(key: Key) {
    key == ArrowUp || key == ArrowDown
  }

  function ToArrow(key: Key): Arrow
    requires IsArrow(key)
  {
    if key == ArrowUp then Up else Down
  }

  /** Whether `input` changes the viewport (and so pushes the uniform) for an event, given
      whether a drag was in progress: a wheel event, a pressed arrow key, or a cursor move
      during a drag. */
  predicate ChangesView(event: WindowEvent, dragging: bool) {
    event.MouseWheel? || (event.KeyboardInput? && event.keyState == Pressed && IsArrow(event.key))
    || (event.CursorMoved? && dragging)
  }

  /** The viewport after `input` handles an event, from the viewport, drag flag, stored cursor
      and window size before it. */
  function ViewAfterInput(view: MandelbrotUniform, dragging: bool, cursor: Position, size: Size,
                          event: WindowEvent): MandelbrotUniform
    requires IsPositive(size)
  {
    match event
    case CursorMoved(p) => if dragging then Drag(view, cursor, p, size) else view
    case MouseWheel(delta) => Zoom(view, ScrollAmount(delta), cursor, size)
    case KeyboardInput(Pressed, key) =>
      if IsArrow(key) then view.(maxIterations := AfterPress(view.maxIterations, ToArrow(key))) else view
    case _ => view
  }

  /** The drag flag after `input`: a left press starts a drag, a left release or the cursor
      leaving the window ends it. */
  function DraggingAfterInput(dragging: bool, event: WindowEvent): bool {
    match event
    case CursorLeft => false
    case MouseInput(state, Left) => state == Pressed
    case _ => dragging
  }

  /** The stored cursor after `input`: every move is recorded. */
  function CursorAfterInput(cursor: Position, event: WindowEvent): Position {
    if event.CursorMoved? then event.position else cursor
  }

  /** The loop's action after a frame, from the outcome of `render`. */
  function FrameActionFor(result: RenderResult): FrameAction {
    match result
    case Ok => Continue
    case Err(Lost) => Reconfigure
    case Err(OutOfMemory) => Exit
    case Err(OtherFailure) => LogAndContinue
  }

  /** The application state: the window size and surface configuration, the viewport and the
      cursor. The GPU side is observed through ghost logs: every content the uniform buffer
      has held (the first is the one it was created with), the number of redraw requests, every
      surface configuration, the viewport shown by every presented frame, and every error
      logged. */
  class State {
    var size: Size
    var config: Size
    var mandelbrotUniform: MandelbrotUniform
    var cursorPos: Position
    var dragging: bool

    ghost var bufferWrites: seq<MandelbrotUniform>
    ghost var redrawRequests: nat
    ghost var surfaceConfigurations: seq<Size>
    ghost var presentedFrames: seq<MandelbrotUniform>
    ghost var errorLog: seq<SurfaceError>

    /** Everything but the buffer mirror: a non-empty window whose size the surface is
        configured with, an aspect ratio derived from that size, a valid iteration budget,
        and a surface that has never been configured with a zero dimension. */
    ghost predicate Consistent()
      reads this
    {
      IsPositive(size) && config == size
      && mandelbrotUniform.aspectRatio == AspectRatio(size)
      && IsIterationBudget(mandelbrotUniform.maxIterations)
      && |bufferWrites| > 0 && redrawRequests == |bufferWrites| - 1
      && |surfaceConfigurations| > 0 && surfaceConfigurations[|surfaceConfigurations| - 1] == config
      && (forall i :: 0 <= i < |surfaceConfigurations| ==> IsPositive(surfaceConfigurations[i]))
    }

    /** The uniform buffer holds the current viewport. */
    ghost predicate Valid()
      reads this
    {
      Consistent() && bufferWrites[|bufferWrites| - 1] == mandelbrotUniform
    }

    /** `State::new`, without the GPU objects: the default viewport, the cursor at the
        origin, no drag, the surface configured once and the buffer created with the
        initial uniform. */
    constructor (initialSize: Size)
      requires IsPositive(initialSize)
      ensures Valid()
      ensures size == initialSize && config == initialSize
      ensures mandelbrotUniform == InitialUniform(initialSize)
      ensures cursorPos == Position(0.0, 0.0) && !dragging
      ensures bufferWrites == [mandelbrotUniform] && redrawRequests == 0
      ensures surfaceConfigurations == [initialSize]
      ensures presentedFrames == [] && errorLog == []
    {
      size := initialSize;
      config := initialSize;
      surfaceConfigurations := [initialSize];
      mandelbrotUniform := InitialUniform(initialSize);
      bufferWrites := [mandelbrotUniform];
      redrawRequests := 0;
      cursorPos := Position(0.0, 0.0);
      presentedFrames := [];
      errorLog := [];
      dragging := false;
    }

    /** `update_uniform`: one buffer write of the current viewport and one redraw request. */
    method UpdateUniform()
      requires Consistent()
      modifies this`bufferWrites, this`redrawRequests
      ensures Valid()
      ensures bufferWrites == old(bufferWrites) + [mandelbrotUniform]
      ensures redrawRequests == old(redrawRequests) + 1
    {
      bufferWrites := bufferWrites + [mandelbrotUniform];
      redrawRequests := redrawRequests + 1;
    }

    /** `resize`: a size with a zero dimension is ignored; any other becomes the window
        size and the surface configuration, and the aspect ratio is recomputed from it and
        pushed. Resizing to the current size leaves the viewport as it is. */
    method Resize(newSize: Size)
      requires Valid()
      modifies this
      ensures Valid()
      ensures !IsPositive(newSize) ==> unchanged(this)
      ensures IsPositive(newSize) ==>
        && size == newSize && config == newSize
        && surfaceConfigurations == old(surfaceConfigurations) + [newSize]
        && mandelbrotUniform == old(mandelbrotUniform).(aspectRatio := AspectRatio(newSize))
        && bufferWrites == old(bufferWrites) + [mandelbrotUniform]
        && redrawRequests == old(redrawRequests) + 1
      ensures newSize == old(size) ==> mandelbrotUniform == old(mandelbrotUniform)
      ensures cursorPos == old(cursorPos) && dragging == old(dragging)
      ensures presentedFrames == old(presentedFrames) && errorLog == old(errorLog)
    {
      if newSize.width > 0 && newSize.height > 0 {
        size := newSize;
        config := config.(width := newSize.width, height := newSize.height);
        surfaceConfigurations := surfaceConfigurations + [config];
        mandelbrotUniform := mandelbrotUniform.(aspectRatio := AspectRatio(newSize));
        UpdateUniform();
      }
    }

    /** `input`: updates the drag flag, the cursor and the viewport for one event, pushes the
        uniform exactly once after every change of the viewport, and reports whether the
        event was consumed. The window size and the surface are never touched. */
    method Input(event: WindowEvent) returns (consumed: bool)
      requires Valid()
      modifies this
      ensures Valid()
      ensures consumed <==> (event.MouseWheel?
        || (event.KeyboardInput? && event.keyState == Pressed && IsArrow(event.key)))
      ensures size == old(size) && config == old(config)
      ensures surfaceConfigurations == old(surfaceConfigurations)
      ensures presentedFrames == old(presentedFrames) && errorLog == old(errorLog)
      ensures dragging == DraggingAfterInput(old(dragging), event)
      ensures cursorPos == CursorAfterInput(old(cursorPos), event)
      ensures mandelbrotUniform == ViewAfterInput(old(mandelbrotUniform), old(dragging), old(cursorPos), size, event)
      ensures event.CursorMoved? && old(dragging) ==>
        mandelbrotUniform == Drag(old(mandelbrotUniform), old(cursorPos), event.position, size)
      ensures event.MouseWheel? ==>
        mandelbrotUniform == Zoom(old(mandelbrotUniform), ScrollAmount(event.delta), cursorPos, size)
      ensures event.KeyboardInput? && event.keyState == Pressed && IsArrow(event.key) ==>
        mandelbrotUniform == old(mandelbrotUniform).(maxIterations :=
          AfterPress(old(mandelbrotUniform.maxIterations), ToArrow(event.key)))
      ensures !ChangesView(event, old(dragging)) ==> mandelbrotUniform == old(mandelbrotUniform)
      ensures bufferWrites == old(bufferWrites)
        + (if ChangesView(event, old(dragging)) then [mandelbrotUniform] else [])
      ensures redrawRequests == old(redrawRequests) + (if ChangesView(event, old(dragging)) then 1 else 0)
    {
      match event
      case CursorLeft =>
        dragging := false;
        consumed := false;
      case MouseInput(state, Left) =>
        dragging := state == Pressed;
        consumed := false;
      case CursorMoved(position) =>
        if dragging {
          mandelbrotUniform := Drag(mandelbrotUniform, cursorPos, position, size);
          UpdateUniform();
        }
        cursorPos := position;
        consumed := false;
      case MouseWheel(delta) =>
        mandelbrotUniform := Zoom(mandelbrotUniform, ScrollAmount(delta), cursorPos, size);
        UpdateUniform();
        consumed := true;
      case KeyboardInput(Pressed, ArrowUp) | KeyboardInput(Pressed, ArrowDown) =>
        mandelbrotUniform := mandelbrotUniform.(maxIterations :=
          AfterPress(mandelbrotUniform.maxIterations, ToArrow(event.key)));
        UpdateUniform();
        consumed := true;
      case _ =>
        consumed := false;
    }

    /** `render`: when a surface texture is acquired, one frame is drawn from the uniform
        buffer and presented, and so shows the current viewport; an acquisition error is
        returned as it is and nothing is drawn. */
    method Render(acquired: RenderResult) returns (result: RenderResult)
      requires Valid()
      modifies this`presentedFrames
      ensures Valid()
      ensures result == acquired
      ensures presentedFrames == old(presentedFrames) + (if acquired.Ok? then [mandelbrotUniform] else [])
    {
      if acquired.Err? {
        return acquired;
      }
      presentedFrames := presentedFrames + [bufferWrites[|bufferWrites| - 1]];
      result := Ok;
    }

    /** One window event of the event loop in `run`: `input` sees it first; an event it does
        not consume may close the program, resize it, or redraw it, where `acquired` is the
        outcome of acquiring the frame. A lost surface is reconfigured at the current size
        without leaving the loop; only a close request, Escape and running out of memory
        leave it. */
    method HandleWindowEvent(event: WindowEvent, acquired: RenderResult) returns (exit: bool)
      requires Valid()
      modifies this
      ensures Valid()
      ensures exit <==> (event == CloseRequested || event == KeyboardInput(Pressed, Escape)
        || (event == RedrawRequested && acquired == Err(OutOfMemory)))
      ensures size == if event.Resized? && IsPositive(event.newSize) then event.newSize else old(size)
      ensures dragging == DraggingAfterInput(old(dragging), event)
      ensures cursorPos == CursorAfterInput(old(cursorPos), event)
      ensures mandelbrotUniform ==
        if event.Resized? && IsPositive(event.newSize)
        then old(mandelbrotUniform).(aspectRatio := AspectRatio(event.newSize))
        else ViewAfterInput(old(mandelbrotUniform), old(dragging), old(cursorPos), old(size), event)
      ensures surfaceConfigurations == old(surfaceConfigurations)
        + (if event.Resized? && IsPositive(event.newSize) then [event.newSize]
           else if event == RedrawRequested && acquired == Err(Lost) then [size]
           else [])
      ensures bufferWrites == old(bufferWrites)
        + (if ChangesView(event, old(dragging))
              || (event.Resized? && IsPositive(event.newSize))
              || (event == RedrawRequested && acquired == Err(Lost))
           then [mandelbrotUniform] else [])
      ensures presentedFrames == old(presentedFrames)
        + (if event == RedrawRequested && acquired.Ok? then [mandelbrotUniform] else [])
      ensures errorLog == old(errorLog)
        + (if event == RedrawRequested && acquired == Err(OtherFailure) then [OtherFailure] else [])
    {
      var consumed := Input(event);
      exit := false;
      if !consumed {
        match event
        case CloseRequested =>
          exit := true;
        case KeyboardInput(Pressed, Escape) =>
          exit := true;
        case Resized(newSize) =>
          Resize(newSize);
        case RedrawRequested =>
          var result := Render(acquired);
          match FrameActionFor(result) {
            case Continue =>
            case Reconfigure =>
              Resize(size);
            case Exit =>
              exit := true;
            case LogAndContinue =>
              errorLog := errorLog + [result.error];
          }
        case _ =>
      }
    }
  }

  /** A session in an 800x600 window, written against the contracts above: a drag of 10
      pixels, a wheel notch, ArrowDown at the floor and a lost surface. */
  method ExploreDefaultWindow()
  {
    var state := new State(Size(800, 600));
    var consumed := state.Input(MouseInput(Pressed, Left));
    assert !consumed && state.dragging;
    consumed := state.Input(CursorMoved(Position(10.0, 0.0)));
    DragFromDefaultView();
    assert !consumed && state.mandelbrotUniform.minX == -61.0 / 30.0;
    consumed := state.Input(MouseInput(Released, Left));
    assert !state.dragging;
    consumed := state.Input(KeyboardInput(Pressed, ArrowDown));
    assert consumed && state.mandelbrotUniform.maxIterations == 128;
    var exit := state.HandleWindowEvent(RedrawRequested, Err(Lost));
    assert !exit && state.size == Size(800, 600);
    exit := state.HandleWindowEvent(RedrawRequested, Err(OutOfMemory));
    assert exit;
  }
}

