/** The camera and phase state of the moon-phase viewer as a value, the
    input events that change it, and what a frame of input does to it.
    These functions are the specification the imperative frame loop in
    module MoonSimulation is proved against; the lemmas below state what
    the viewer promises about sequences of events and frames. */
module ViewModel {

  datatype Option<T> = None | Some(value: T)

  /** A pointer position in window pixels, as the windowing library reports it. */
  datatype Pos = Pos(x: int, y: int)

  /** The six locals of the frame loop. */
  datatype View = View(
    zoom: real,          // translation along the view axis; negative is into the screen
    angleX: real,        // camera rotation about the X axis, in degrees
    angleY: real,        // camera rotation about the Y axis, in degrees
    dragging: bool,      // whether the left button is held
    lastMousePos: Pos,   // pointer position at the last drag step or left press
    phaseControl: real   // angle in degrees that places the light
  )

  /** The input events the loop dispatches on. `Other` stands for every event
      type the loop does not test for (pointer motion, key release, ...). */
  datatype Event =
    | Quit
    | MouseButtonDown(button: int)
    | MouseButtonUp(button: int)
    | KeyDown(key: int)
    | Other

  /** One iteration of the frame loop's input: the events drained from the
      queue and the pointer position read while handling them. */
  datatype FrameInput = FrameInput(events: seq<Event>, mouse: Pos)

  /** What a frame leaves behind: the loop goes on with a new view, or the
      process exits. */
  datatype Outcome = Continue(view: View) | Exit

  // Mouse buttons as the windowing library numbers them.
  const LeftButton: int := 1
  const WheelUp: int := 4
  const WheelDown: int := 5

  // Key codes of the number keys 1 to 4 (their ASCII codes).
  const Key1: int := 49
  const Key2: int := 50
  const Key3: int := 51
  const Key4: int := 52

  /** Zoom change per wheel notch. */
  const ZoomStep: real := 0.5

  /** Degrees of rotation per pixel of pointer travel. */
  const Sensitivity: real := 0.1

  // Phase presets, in degrees.
  const NewMoon: real := 0.0
  const FirstQuarter: real := 90.0
  const FullMoon: real := 180.0
  const LastQuarter: real := 270.0

  /** The state before the first frame. */
  const Initial: View := View(-8.0, 0.0, 0.0, false, Pos(0, 0), 0.5)

  /** The preset a key selects, if any: the keys 1 to 4 select the four
      quarter angles in order, every other key selects nothing. */
  function PresetFor(key: int): (r: Option<real>)
    ensures r.Some? <==> Key1 <= key <= Key4
    ensures r.Some? ==> r.value == 90.0 * (key - Key1) as real
  {
    if key == Key1 then Some(NewMoon)
    else if key == Key2 then Some(FirstQuarter)
    else if key == Key3 then Some(FullMoon)
    else if key == Key4 then Some(LastQuarter)
    else None
  }

  /** The effect of dispatching one event; `mouse` is the pointer position
      read while it is dispatched. Quit is handled by OnEvents. */
  function OnEvent(v: View, e: Event, mouse: Pos): (w: View) {
    match e
    case MouseButtonDown(b) =>
      if b == WheelUp then v.(zoom := v.zoom + ZoomStep)
      else if b == WheelDown then v.(zoom := v.zoom - ZoomStep)
      else if b == LeftButton then v.(lastMousePos := mouse, dragging := true)
      else v
    case MouseButtonUp(b) =>
      if b == LeftButton then v.(dragging := false) else v
    case KeyDown(k) =>
      (match PresetFor(k)
       case Some(p) => v.(phaseControl := p)
       case None => v)
    case Quit => v
    case Other => v
  }

  /** Dispatching a frame's events in order. A Quit event ends the process,
      so nothing after it is dispatched. */
  function OnEvents(v: View, es: seq<Event>, mouse: Pos): (w: View)
    decreases |es|
  {
    if es == [] || es[0] == Quit then v
    else OnEvents(OnEvent(v, es[0], mouse), es[1..], mouse)
  }

  /** The per-frame drag step: while the left button is held, vertical
      pointer travel since the last step turns the camera about X and
      horizontal travel turns it about Y. */
  function DragStep(v: View, mouse: Pos): (w: View) {
    if v.dragging then
      var dx := mouse.x - v.lastMousePos.x;
      var dy := mouse.y - v.lastMousePos.y;
      v.(angleX := v.angleX + dy as real * Sensitivity,
         angleY := v.angleY + dx as real * Sensitivity,
         lastMousePos := mouse)
    else v
  }

  /** One iteration of the frame loop, up to the point where drawing starts. */
  function Frame(v: View, input: FrameInput): (o: Outcome) {
    if Quit in input.events then Exit
    else Continue(DragStep(OnEvents(v, input.events, input.mouse), input.mouse))
  }

  /** Successive iterations of the frame loop, until one of them exits. */
  function Frames(v: View, inputs: seq<FrameInput>): (o: Outcome)
    decreases |inputs|
  {
    if inputs == [] then Continue(v)
    else
      match Frame(v, inputs[0])
      case Exit => Exit
      case Continue(w) => Frames(w, inputs[1..])
  }

  // ----- Reference definitions over event sequences -----

  /** The events that are dispatched: those before the first Quit. */
  function Handled(es: seq<Event>): (h: seq<Event>)
    ensures Quit !in h
    ensures h <= es
    ensures |h| < |es| ==> es[|h|] == Quit
    decreases |es|
  {
    if es == [] || es[0] == Quit then [] else [es[0]] + Handled(es[1..])
  }

  /** How many times `button` is pressed in `es`. */
  function Presses(es: seq<Event>, button: int): (n: nat)
    decreases |es|
  {
    if es == [] then 0
    else (if es[0] == MouseButtonDown(button) then 1 else 0) + Presses(es[1..], button)
  }

  /** The preset of the last key in `es` that selects one. */
  function LastPreset(es: seq<Event>): (p: Option<real>)
    decreases |es|
  {
    if es == [] then None
    else
      match LastPreset(es[1..])
      case Some(p) => Some(p)
      case None => if es[0].KeyDown? then PresetFor(es[0].key) else None
  }

  /** Whether the last left-button press or release in `es` was a press. */
  function LastLeftButton(es: seq<Event>): (b: Option<bool>)
    decreases |es|
  {
    if es == [] then None
    else
      match LastLeftButton(es[1..])
      case Some(b) => Some(b)
      case None =>
        if es[0] == MouseButtonDown(LeftButton) then Some(true)
        else if es[0] == MouseButtonUp(LeftButton) then Some(false)
        else None
  }

  /** `n` copies of the event `e`. */
  function Repeat(e: Event, n: nat): (r: seq<Event>)
    ensures |r| == n
    ensures forall i :: 0 <= i < n ==> r[i] == e
  {
    if n == 0 then [] else [e] + Repeat(e, n - 1)
  }

  // ----- Properties of event dispatch -----

  /** Zoom after a frame's events is the initial zoom plus one step per
      wheel-up notch and minus one step per wheel-down notch: no clamping. */
  lemma {:induction false} ZoomTracksScrolls(v: View, es: seq<Event>, mouse: Pos)
    ensures OnEvents(v, es, mouse).zoom
         == v.zoom + ZoomStep * (Presses(Handled(es), WheelUp) - Presses(Handled(es), WheelDown)) as real
    decreases |es|
  {
    if es == [] || es[0] == Quit {
    } else {
      var h := Handled(es);
      assert h == [es[0]] + Handled(es[1..]);
      assert h[1..] == Handled(es[1..]);
      ZoomTracksScrolls(OnEvent(v, es[0], mouse), es[1..], mouse);
    }
  }

  /** Event dispatch never rotates the camera; only the drag step does. */
  lemma {:induction false} EventsKeepAngles(v: View, es: seq<Event>, mouse: Pos)
    ensures OnEvents(v, es, mouse).angleX == v.angleX
    ensures OnEvents(v, es, mouse).angleY == v.angleY
    decreases |es|
  {
    if es != [] && es[0] != Quit {
      EventsKeepAngles(OnEvent(v, es[0], mouse), es[1..], mouse);
    }
  }

  /** The phase after a frame's events is the preset of the last dispatched
      number key 1 to 4, or the old phase when there is none. */
  lemma {:induction false} PhaseIsLastPreset(v: View, es: seq<Event>, mouse: Pos)
    ensures OnEvents(v, es, mouse).phaseControl
         == match LastPreset(Handled(es)) case Some(p) => p case None => v.phaseControl
    decreases |es|
  {
    if es != [] && es[0] != Quit {
      var h := Handled(es);
      assert h == [es[0]] + Handled(es[1..]);
      assert h[1..] == Handled(es[1..]);
      PhaseIsLastPreset(OnEvent(v, es[0], mouse), es[1..], mouse);
    }
  }

  /** The drag flag after a frame's events follows the last dispatched
      left-button press or release; the recorded pointer position is the
      current one exactly when the left button was pressed. */
  lemma {:induction false} DraggingFollowsLeftButton(v: View, es: seq<Event>, mouse: Pos)
    ensures OnEvents(v, es, mouse).dragging
         == match LastLeftButton(Handled(es)) case Some(b) => b case None => v.dragging
    ensures OnEvents(v, es, mouse).lastMousePos
         == if Presses(Handled(es), LeftButton) > 0 then mouse else v.lastMousePos
    decreases |es|
  {
    if es != [] && es[0] != Quit {
      var h := Handled(es);
      assert h == [es[0]] + Handled(es[1..]);
      assert h[1..] == Handled(es[1..]);
      DraggingFollowsLeftButton(OnEvent(v, es[0], mouse), es[1..], mouse);
    }
  }

  /** Dispatching two runs of events without a Quit in the first is
      dispatching the first and then the second. */
  lemma {:induction false} OnEventsAppend(v: View, a: seq<Event>, b: seq<Event>, mouse: Pos)
    requires Quit !in a
    ensures OnEvents(v, a + b, mouse) == OnEvents(OnEvents(v, a, mouse), b, mouse)
    decreases |a|
  {
    if a != [] {
      assert a[0] in a;
      assert (a + b)[0] == a[0];
      assert (a + b)[1..] == a[1..] + b;
      OnEventsAppend(OnEvent(v, a[0], mouse), a[1..], b, mouse);
    } else {
      assert a + b == b;
    }
  }

  /** `n` notches of one wheel direction move the zoom by `n` steps and
      change nothing else. */
  lemma {:induction false} RepeatedScroll(v: View, button: int, n: nat, mouse: Pos)
    requires button == WheelUp || button == WheelDown
    ensures OnEvents(v, Repeat(MouseButtonDown(button), n), mouse)
         == v.(zoom := v.zoom + (if button == WheelUp then ZoomStep else -ZoomStep) * n as real)
    decreases n
  {
    var es := Repeat(MouseButtonDown(button), n);
    if n > 0 {
      assert es[1..] == Repeat(MouseButtonDown(button), n - 1);
      RepeatedScroll(OnEvent(v, es[0], mouse), button, n - 1, mouse);
    }
  }

  /** Scroll up `n` times and then down `n` times is the identity on the
      whole state. */
  lemma ScrollsCancel(v: View, n: nat, mouse: Pos)
    ensures OnEvents(v, Repeat(MouseButtonDown(WheelUp), n) + Repeat(MouseButtonDown(WheelDown), n), mouse) == v
  {
    var ups := Repeat(MouseButtonDown(WheelUp), n);
    var downs := Repeat(MouseButtonDown(WheelDown), n);
    assert Quit !in ups;
    OnEventsAppend(v, ups, downs, mouse);
    RepeatedScroll(v, WheelUp, n, mouse);
    RepeatedScroll(OnEvents(v, ups, mouse), WheelDown, n, mouse);
  }

  /** Every event other than a wheel notch has the same effect when it is
      dispatched twice as when it is dispatched once; in particular pressing
      the same number key twice selects the same preset as pressing it once. */
  lemma EventIdempotent(v: View, e: Event, mouse: Pos)
    requires e != MouseButtonDown(WheelUp) && e != MouseButtonDown(WheelDown)
    ensures OnEvent(OnEvent(v, e, mouse), e, mouse) == OnEvent(v, e, mouse)
  {
  }

  /** Presses of buttons other than left and the wheel, releases of every
      button other than left (the wheel's included), and keys other than 1
      to 4 change nothing. */
  lemma IgnoredEvents(v: View, b: int, c: int, k: int, mouse: Pos)
    requires b != LeftButton && b != WheelUp && b != WheelDown
    requires c != LeftButton
    requires k < Key1 || Key4 < k
    ensures OnEvent(v, MouseButtonDown(b), mouse) == v
    ensures OnEvent(v, MouseButtonUp(c), mouse) == v
    ensures OnEvent(v, KeyDown(k), mouse) == v
  {
  }

  // ----- Properties of the frame loop -----

  /** A second drag step at the same pointer position changes nothing,
      because the travel is measured from the position recorded by the first. */
  lemma DragStepSettles(v: View, mouse: Pos)
    ensures DragStep(DragStep(v, mouse), mouse) == DragStep(v, mouse)
  {
  }

  /** A left press and the drag step of the same frame see the same pointer
      position, so in a frame that presses the left button the drag step
      does nothing and the camera does not turn, whatever else the frame's
      events do. */
  lemma PressDoesNotRotate(v: View, input: FrameInput)
    requires Quit !in input.events
    requires MouseButtonDown(LeftButton) in input.events
    ensures Frame(v, input) == Continue(OnEvents(v, input.events, input.mouse))
    ensures Frame(v, input).view.angleX == v.angleX && Frame(v, input).view.angleY == v.angleY
    ensures Frame(v, input).view.lastMousePos == input.mouse
  {
    var es := input.events;
    HandledWithoutQuit(es);
    PressIsCounted(es);
    DraggingFollowsLeftButton(v, es, input.mouse);
    EventsKeepAngles(v, es, input.mouse);
  }

  /** Without a Quit, every event is dispatched. */
  lemma {:induction false} HandledWithoutQuit(es: seq<Event>)
    requires Quit !in es
    ensures Handled(es) == es
    decreases |es|
  {
    if es != [] {
      assert es[0] in es;
      HandledWithoutQuit(es[1..]);
      assert es == [es[0]] + es[1..];
    }
  }

  /** A press that occurs in `es` is counted. */
  lemma {:induction false} PressIsCounted(es: seq<Event>)
    requires MouseButtonDown(LeftButton) in es
    ensures Presses(es, LeftButton) > 0
    decreases |es|
  {
    if es[0] != MouseButtonDown(LeftButton) {
      assert MouseButtonDown(LeftButton) in es[1..];
      PressIsCounted(es[1..]);
    }
  }

  /** Events the loop does not test for change nothing and never end it. */
  lemma {:induction false} OtherEventsChangeNothing(v: View, es: seq<Event>, mouse: Pos)
    requires forall j :: 0 <= j < |es| ==> es[j] == Other
    ensures Quit !in es
    ensures OnEvents(v, es, mouse) == v
    decreases |es|
  {
    if es != [] {
      OtherEventsChangeNothing(v, es[1..], mouse);
    }
  }

  /** Over consecutive frames while dragging whose events are all of kinds the
      loop does not test for (pointer motion among them), the camera turns
      by the pointer's total travel from the position recorded before the
      first of them to its position in the last: intermediate positions do
      not matter. */
  lemma {:induction false} DragTravelTelescopes(v: View, inputs: seq<FrameInput>)
    requires v.dragging && inputs != []
    requires forall i, j :: 0 <= i < |inputs| && 0 <= j < |inputs[i].events| ==> inputs[i].events[j] == Other
    ensures Frames(v, inputs) == Continue(v.(
      angleX := v.angleX + (inputs[|inputs| - 1].mouse.y - v.lastMousePos.y) as real * Sensitivity,
      angleY := v.angleY + (inputs[|inputs| - 1].mouse.x - v.lastMousePos.x) as real * Sensitivity,
      lastMousePos := inputs[|inputs| - 1].mouse))
    decreases |inputs|
  {
    var w := DragStep(v, inputs[0].mouse);
    OtherEventsChangeNothing(v, inputs[0].events, inputs[0].mouse);
    assert Frame(v, inputs[0]) == Continue(w);
    if |inputs| > 1 {
      var rest := inputs[1..];
      assert rest[|rest| - 1] == inputs[|inputs| - 1];
      DragTravelTelescopes(w, rest);
    }
  }

  /** While the left button is not held and no frame presses it, frames never
      turn the camera. */
  lemma {:induction false} IdleFramesKeepAngles(v: View, inputs: seq<FrameInput>)
    requires !v.dragging
    requires forall i :: 0 <= i < |inputs| ==> MouseButtonDown(LeftButton) !in inputs[i].events
    ensures Frames(v, inputs).Continue? ==>
      Frames(v, inputs).view.angleX == v.angleX && Frames(v, inputs).view.angleY == v.angleY
    decreases |inputs|
  {
    if inputs != [] && Quit !in inputs[0].events {
      var es := inputs[0].events;
      var m := inputs[0].mouse;
      DraggingFollowsLeftButton(v, es, m);
      NoPressNoDrag(Handled(es));
      EventsKeepAngles(v, es, m);
      IdleFramesKeepAngles(OnEvents(v, es, m), inputs[1..]);
    }
  }

  /** Without a left press, the last left-button event is never a press. */
  lemma {:induction false} NoPressNoDrag(es: seq<Event>)
    requires MouseButtonDown(LeftButton) !in es
    ensures LastLeftButton(es) != Some(true)
    decreases |es|
  {
    if es != [] {
      NoPressNoDrag(es[1..]);
    }
  }
}
