/** The frame loop's input handling as it runs: the six locals of the loop
    are the fields of one Simulation object, each kind of event is a method
    that updates them in place, and the loops that drain a frame's events
    and run successive frames are proved against the functions of module
    ViewModel. The pointer position the windowing library would report is a
    parameter. */
module MoonSimulation {
  import opened ViewModel

  class Simulation {
    var zoom: real
    var angleX: real
    var angleY: real
    var dragging: bool
    var lastMousePos: Pos
    var phaseControl: real

    /** The current state as a value. */
    function State(): View
      reads this
    {
      View(zoom, angleX, angleY, dragging, lastMousePos, phaseControl)
    }

    /** The state the loop starts from. */
    constructor ()
      ensures zoom == -8.0 && angleX == 0.0 && angleY == 0.0
      ensures !dragging && lastMousePos == Pos(0, 0) && phaseControl == 0.5
      ensures State() == Initial
    {
      zoom := -8.0;
      angleX, angleY := 0.0, 0.0;
      lastMousePos := Pos(0, 0);
      dragging := false;
      phaseControl := 0.5;
    }

    /** A mouse button press: the wheel moves the zoom one step either way,
        the left button starts a drag from `mouse`, other buttons are ignored. */
    method OnMouseButtonDown(button: int, mouse: Pos)
      modifies this
      ensures zoom == old(zoom) + (if button == WheelUp then ZoomStep
                                   else if button == WheelDown then -ZoomStep
                                   else 0.0)
      ensures dragging == (button == LeftButton || old(dragging))
      ensures lastMousePos == if button == LeftButton then mouse else old(lastMousePos)
      ensures angleX == old(angleX) && angleY == old(angleY) && phaseControl == old(phaseControl)
      ensures State() == OnEvent(old(State()), MouseButtonDown(button), mouse)
    {
      if button == WheelUp {
        zoom := zoom + ZoomStep;
      } else if button == WheelDown {
        zoom := zoom - ZoomStep;
      } else if button == LeftButton {
        lastMousePos := mouse;
        dragging := true;
      }
    }

    /** A mouse button release: releasing the left button ends the drag and
        keeps the recorded position and the angles; other buttons are ignored. */
    method OnMouseButtonUp(button: int)
      modifies this
      ensures dragging == (button != LeftButton && old(dragging))
      ensures zoom == old(zoom) && angleX == old(angleX) && angleY == old(angleY)
      ensures lastMousePos == old(lastMousePos) && phaseControl == old(phaseControl)
      ensures State() == OnEvent(old(State()), MouseButtonUp(button), lastMousePos)
    {
      if button == LeftButton {
        dragging := false;
      }
    }

    /** A key press: the keys 1 to 4 select a phase preset, other keys are ignored. */
    method OnKeyDown(key: int)
      modifies this
      ensures phaseControl == match PresetFor(key) case Some(p) => p case None => old(phaseControl)
      ensures Key1 <= key <= Key4 ==> phaseControl == 90.0 * (key - Key1) as real
      ensures zoom == old(zoom) && angleX == old(angleX) && angleY == old(angleY)
      ensures dragging == old(dragging) && lastMousePos == old(lastMousePos)
      ensures State() == OnEvent(old(State()), KeyDown(key), lastMousePos)
    {
      if key == Key1 {
        phaseControl := NewMoon;
      } else if key == Key2 {
        phaseControl := FirstQuarter;
      } else if key == Key3 {
        phaseControl := FullMoon;
      } else if key == Key4 {
        phaseControl := LastQuarter;
      }
    }

    /** Dispatches one event; reports whether it asks the process to exit. */
    method HandleEvent(e: Event, mouse: Pos) returns (quit: bool)
      modifies this
      ensures quit == (e == Quit)
      ensures State() == OnEvent(old(State()), e, mouse)
    {
      quit := false;
      match e
      case Quit => quit := true;
      case MouseButtonDown(b) => OnMouseButtonDown(b, mouse);
      case MouseButtonUp(b) => OnMouseButtonUp(b);
      case KeyDown(k) => OnKeyDown(k);
      case Other =>
    }

    /** Drains a frame's events in order, stopping at the first Quit. */
    method HandleEvents(events: seq<Event>, mouse: Pos) returns (quit: bool)
      modifies this
      ensures quit == (Quit in events)
      ensures State() == OnEvents(old(State()), events, mouse)
    {
      quit := false;
      var i := 0;
      while i < |events|
        invariant 0 <= i <= |events|
        invariant Quit !in events[..i]
        invariant OnEvents(State(), events[i..], mouse) == OnEvents(old(State()), events, mouse)
      {
        quit := HandleEvent(events[i], mouse);
        if quit {
          assert events[i] in events;
          return;
        }
        assert events[..i + 1] == events[..i] + [events[i]];
        i := i + 1;
      }
      assert events[..i] == events;
    }

    /** The drag step of a frame: while dragging, the pointer's travel since
        the last recorded position turns the camera (vertical travel about X,
        horizontal travel about Y) and `mouse` becomes the recorded position. */
    method DragUpdate(mouse: Pos)
      modifies this
      ensures dragging ==> lastMousePos == mouse
      ensures angleX == old(angleX) + (if dragging then (mouse.y - old(lastMousePos).y) as real * Sensitivity else 0.0)
      ensures angleY == old(angleY) + (if dragging then (mouse.x - old(lastMousePos).x) as real * Sensitivity else 0.0)
      ensures !dragging ==> lastMousePos == old(lastMousePos)
      ensures zoom == old(zoom) && dragging == old(dragging) && phaseControl == old(phaseControl)
      ensures State() == DragStep(old(State()), mouse)
    {
      if dragging {
        var dx := mouse.x - lastMousePos.x;
        var dy := mouse.y - lastMousePos.y;
        angleX := angleX + dy as real * Sensitivity;
        angleY := angleY + dx as real * Sensitivity;
        lastMousePos := mouse;
      }
    }

    /** One iteration of the loop up to drawing: drain the events, then, if
        the process goes on, take the drag step. */
    method RunFrame(input: FrameInput) returns (exited: bool)
      modifies this
      ensures exited == Frame(old(State()), input).Exit?
      ensures !exited ==> State() == Frame(old(State()), input).view
    {
      exited := HandleEvents(input.events, input.mouse);
      if !exited {
        DragUpdate(input.mouse);
      }
    }

    /** Runs successive iterations of the loop, one per input, until one of
        them exits. */
    method Run(inputs: seq<FrameInput>) returns (exited: bool)
      modifies this
      ensures Frames(old(State()), inputs) == if exited then Exit else Continue(State())
    {
      exited := false;
      var i := 0;
      while i < |inputs|
        invariant 0 <= i <= |inputs|
        invariant Frames(State(), inputs[i..]) == Frames(old(State()), inputs)
      {
        exited := RunFrame(inputs[i]);
        if exited {
          return;
        }
        i := i + 1;
      }
    }
  }
}
