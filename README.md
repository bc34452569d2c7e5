# Moon-phase viewer: input and camera state

The viewer in `moon-phase.py` draws a textured Moon lit from a direction set
by `phase_control`, with a Sun and a starfield behind it, and lets the user
turn and zoom the camera. Apart from drawing, its frame loop keeps six
locals — `zoom`, `angle_x`, `angle_y`, `dragging`, `last_mouse_pos` and
`phase_control` — and changes them in response to input: the mouse wheel
zooms, a left-button drag turns the camera, and the number keys 1 to 4 pick
one of four phase presets. The `Moon` and `Sun` objects each hold an angle
that `update_angle` advances in place.

This project models that state machine and proves what it promises.

- `view.dfy`, module `ViewModel`: the state as a value (`View`), the
  events (`Event`), and pure functions for one event (`OnEvent`), a frame's
  events in order up to a Quit (`OnEvents`), the drag step (`DragStep`), one
  frame (`Frame`) and successive frames (`Frames`). Reference definitions
  over event sequences (`Handled`, `Presses`, `LastPreset`,
  `LastLeftButton`) and the lemmas that tie the dispatch to them.
- `simulation.dfy`, module `MoonSimulation`: class `Simulation`, whose
  fields are the six locals, with one mutating method per kind of event,
  the drag step, the loop that drains a frame's events and the loop over
  frames. Each method states its whole new state and is proved against the
  functions of `ViewModel`.
- `bodies.dfy`, module `Bodies`: classes `Moon` and `Sun` with their
  in-place `UpdateAngle`.

Numbers are exact: every numeric field is a `real`, so `zoom += 0.5` and
`dy * 0.1` carry no rounding. Pointer positions are integers in window
pixels.

The pointer position is a parameter. The loop reads it with
`pygame.mouse.get_pos()` on a left press and again in the drag step; the
model gives one position per frame to both, since the event queue is
drained once per frame and nothing between those reads refreshes the
pointer state. A consequence, proved as `PressDoesNotRotate`: in a frame
that presses the left button, the drag step does nothing, so the camera does
not turn in that frame.

A Quit event makes the program exit at once, so the model stops dispatching
at the first Quit and the frame's outcome is `Exit`.

No angle changes by itself from frame to frame, and no key releases a
preset. `update_angle` is defined on both bodies but never called.
`phase_control` starts at 0.5, which is none of the presets.

## Model

| member | source | states |
|---|---|---|
| `ViewModel.OnEvent` | moon-phase.py:166-187 | the effect of dispatching one event: the wheel zooms, the left button starts or ends a drag, keys 1 to 4 pick a preset; described by `EventIdempotent`, `IgnoredEvents` and, through `OnEvents`, the lemmas below |
| `ViewModel.OnEvents` | moon-phase.py:162-187 | dispatching a frame's events in order up to the first Quit; `ZoomTracksScrolls`, `EventsKeepAngles`, `PhaseIsLastPreset` and `DraggingFollowsLeftButton` together fix every field of its result |
| `ViewModel.DragStep` | moon-phase.py:189-194 | the per-frame drag step; described by `DragStepSettles`, `DragTravelTelescopes` and `PressDoesNotRotate` |
| `ViewModel.Frame` | moon-phase.py:161-194 | one iteration of the loop before drawing: exit on a Quit, else dispatch the events and take the drag step; described by `PressDoesNotRotate` |
| `ViewModel.Frames` | moon-phase.py:161-194 | successive iterations until one exits; described by `DragTravelTelescopes` and `IdleFramesKeepAngles` |
| `ViewModel.PresetFor` | moon-phase.py:180-187 | exactly the keys 1 to 4 select a preset, and key 1+i selects 90·i degrees (0, 90, 180, 270) |
| `ViewModel.Handled` | moon-phase.py:162-165 | the dispatched events are the prefix of the queue before the first Quit, and the event after them, if any, is a Quit |
| `ViewModel.ZoomTracksScrolls` | moon-phase.py:167-170 | after a frame's events, zoom is the old zoom plus 0.5 per wheel-up notch and minus 0.5 per wheel-down notch dispatched, with no clamping |
| `ViewModel.RepeatedScroll` | moon-phase.py:167-170 | n notches of one wheel direction move zoom by exactly n·0.5 that way and change no other part of the state |
| `ViewModel.ScrollsCancel` | moon-phase.py:167-170 | n wheel-up notches followed by n wheel-down notches leave the whole state as it was |
| `ViewModel.OnEventsAppend` | moon-phase.py:162-187 | dispatching two runs of events, the first without a Quit, is dispatching the first and then the second |
| `ViewModel.EventsKeepAngles` | moon-phase.py:162-187 | no event turns the camera: angle_x and angle_y change only in the drag step |
| `ViewModel.PhaseIsLastPreset` | moon-phase.py:179-187 | after a frame's events, phase_control is the preset of the last dispatched key 1 to 4, or unchanged when there is none |
| `ViewModel.DraggingFollowsLeftButton` | moon-phase.py:171-176 | after a frame's events, dragging is set by the last left press or release (unchanged if none), and last_mouse_pos becomes the current pointer if a left press was dispatched, otherwise stays the old position |
| `ViewModel.EventIdempotent` | moon-phase.py:166-187 | every event except a wheel notch has the same effect dispatched twice as once, so pressing a number key twice equals pressing it once |
| `ViewModel.IgnoredEvents` | moon-phase.py:166-187 | presses of buttons other than 1, 4 and 5, releases of every button other than 1 (4 and 5 included), and keys other than 1 to 4 change nothing |
| `ViewModel.OtherEventsChangeNothing` | moon-phase.py:162-187 | events of kinds the loop does not test for, pointer motion among them, change nothing and do not end the loop |
| `ViewModel.DragStepSettles` | moon-phase.py:189-194 | a second drag step at the same pointer position changes nothing, since travel is measured from the position the first one recorded |
| `ViewModel.PressDoesNotRotate` | moon-phase.py:171-194 | in a frame without a Quit whose events include a left press, the drag step changes nothing, both angles stay as they were, and last_mouse_pos is the current pointer |
| `ViewModel.DragTravelTelescopes` | moon-phase.py:189-194 | over frames while dragging whose events are all of kinds the loop ignores (pointer motion among them), angle_x grows by 0.1 times the total vertical travel and angle_y by 0.1 times the total horizontal travel from the recorded position to the last pointer position |
| `ViewModel.IdleFramesKeepAngles` | moon-phase.py:161-194 | while not dragging, frames without a left press never change the angles |
| `MoonSimulation.Simulation.constructor` | moon-phase.py:147-159 | the loop starts with zoom -8, both angles 0, not dragging, last_mouse_pos (0,0) and phase_control 0.5 |
| `MoonSimulation.Simulation.OnMouseButtonDown` | moon-phase.py:166-173 | button 4 adds 0.5 to zoom, button 5 subtracts 0.5, button 1 records the pointer and starts a drag, any other button changes nothing; every other field is unchanged |
| `MoonSimulation.Simulation.OnMouseButtonUp` | moon-phase.py:174-176 | releasing button 1 clears dragging and keeps the position, angles and everything else; releasing any other button changes nothing |
| `MoonSimulation.Simulation.OnKeyDown` | moon-phase.py:179-187 | keys 1 to 4 set phase_control to 0, 90, 180, 270; any other key leaves it; no other field changes |
| `MoonSimulation.Simulation.HandleEvent` | moon-phase.py:162-187 | dispatches one event as `OnEvent` says and reports exactly a Quit as a request to exit |
| `MoonSimulation.Simulation.HandleEvents` | moon-phase.py:162-187 | drains a frame's events in order, reports exit exactly when the queue holds a Quit, and ends in the state `OnEvents` gives |
| `MoonSimulation.Simulation.DragUpdate` | moon-phase.py:189-194 | while dragging, adds 0.1·dy to angle_x and 0.1·dx to angle_y and records the pointer; when not dragging nothing changes; zoom, dragging and phase are never touched |
| `MoonSimulation.Simulation.RunFrame` | moon-phase.py:161-194 | one iteration exits exactly when its events hold a Quit, and otherwise ends in the state `Frame` gives |
| `MoonSimulation.Simulation.Run` | moon-phase.py:161-194 | successive iterations end in exactly the outcome `Frames` gives |
| `Bodies.Moon.constructor` | moon-phase.py:27-29 | a new moon holds the given texture handle and angle 0 |
| `Bodies.Moon.UpdateAngle` | moon-phase.py:49-50 | the moon's angle becomes the old angle plus delta; the texture is untouched |
| `Bodies.Sun.constructor` | moon-phase.py:54-56 | a new sun holds the given texture handle and angle 0 |
| `Bodies.Sun.UpdateAngle` | moon-phase.py:82-83 | the sun's angle becomes the old angle plus delta; the texture is untouched |
| `Bodies.MoonUpdatesCompose` | moon-phase.py:49-50 | turning a moon by a and then by b turns it by a + b |
| `Bodies.SunUpdatesCompose` | moon-phase.py:82-83 | turning a sun by a and then by b turns it by a + b |

## Left out

- `load_texture` (moon-phase.py:9-23): image decoding and texture upload are foreign I/O; the texture handle is a constructor argument of `Moon` and `Sun`.
- The `draw` methods, `setup_lighting` and the background quad (moon-phase.py:32-46, 59-79, 86-139): OpenGL calls on hidden rendering state.
- The light position and the Sun's placement (moon-phase.py:61, 215): cosine and sine on floating point; `phase_control` is modelled, the trigonometry that reads it is not.
- Window creation, projection and camera transforms, presenting the frame and the 10 ms wait (moon-phase.py:143-145, 152-153, 196-227): windowing, drawing and timing.
- The Quit branch's `pygame.quit()` and `quit()` (moon-phase.py:163-165): the model ends dispatch and reports `Exit`, but does not model process teardown.
- `pygame.mouse.get_pos()`: the pointer position is an input, one per frame.
- Floating-point rounding of `zoom += 0.5` and `dy * 0.1`: fields are exact reals.
- `Simulation.Run`: models a finite prefix of the endless `while True` loop, one input per iteration.
