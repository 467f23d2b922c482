# Desktop pet clock: the pet's behaviour state machine

This project models the part of the desktop pet clock that has real logic: the
behaviour state machine of the `DesktopPet` widget. The pet is an 80x80
window. Its state is an activity label (`idle`, `walk_left`, `walk_right`,
`jump`), a facing direction (1 right, -1 left), an animation frame counter, an
eye-blink flag, a drag flag and the window position. Five callbacks change it:

- the behaviour timer (`random_behavior`) draws a new label from a fixed
  six-entry list and realigns the direction;
- the movement timer (`move_pet`) walks the pet 3 pixels and turns it round at
  the screen edges;
- the animation timer (`animate`) advances a frame counter modulo 10 and
  closes the eyes on frame 5;
- a left-button mouse press starts a drag and makes the pet idle, and any
  release ends the drag.

The model has three modules:

- `PetModel` (pet_model.dfy) gives each callback as a function from the pet's
  state before to its state after. Each function's contract states what the
  callback promises.
- `PetWidget` (desktop_pet.dfy) holds the class `DesktopPet`. Its methods
  assign the fields in place, as the widget does. Each method is proved equal
  to the matching `PetModel` function and keeps the invariant `Valid()`.
- `PetRuns` (pet_runs.dfy) applies any sequence of callbacks. Its lemmas show
  what holds after every run: the direction stays coupled to the label, the
  pet stays on screen, the timers freeze the pet while it is dragged, and the
  animation repeats with period 10.

The random draw of `random.choice` is a parameter: the index into the list
that the draw picked. Python's `//` and `%` are applied to positive divisors
only (`screen_width // 2`, `% 10`), where they agree with Dafny's `/` and `%`.

The code has only the four labels above and a frame period of 10. The `jump`
label has no physics behind it.

`move_pet` clamps from any starting position, not only from one already on
screen. So `PetModel.MovePet` states the clamp for every `x`; the only
assumption is that the screen is at least as wide as the pet.

## Model

| member | source | states |
|---|---|---|
| `PetModel.Initial` | pet_clock.py:116-131 | The set-up state satisfies the invariant, is idle, faces right and is not dragged; its x is on screen exactly when the screen is at least 159 pixels wide. |
| `PetModel.Clamp` | pet_clock.py:168-175 | Reference definition of the edge checks: the result lies in [lo, hi] and is the point of that interval nearest the input. |
| `PetModel.RandomBehavior` | pet_clock.py:149-159 | While dragged, nothing changes. Otherwise the new label is the drawn entry of `[idle, walk_left, walk_right, idle, idle, jump]`; walk_left gives direction -1, walk_right gives 1, other labels keep the direction. Only label and direction change, and direction/label coupling is preserved. |
| `PetModel.MovePet` | pet_clock.py:161-176 | Dragged or non-walking pets are unchanged. A walking pet's new x is clamp(x + 3*direction, 0, width-80) and lies on screen, from any starting x. Crossing the left edge gives x 0, direction 1, walk_right; crossing the right edge gives x width-80, direction -1, walk_left; otherwise label and direction stay. Frame, blink, drag flag and y never change; walking stays walking; the coupling is preserved. |
| `PetModel.Animate` | pet_clock.py:178-180 | The new frame lies in [0, 10) and is one more than the old modulo 10; the eyes are closed exactly on frame 5; nothing else changes, whether or not the pet is dragged. |
| `PetModel.MousePress` | pet_clock.py:281-285 | A left-button press sets the drag flag and the label idle; any other button changes nothing; only those two fields change, and the coupling is preserved. |
| `PetModel.MouseRelease` | pet_clock.py:291-293 | A release clears the drag flag for any button and changes nothing else. |
| `PetWidget.DesktopPet.constructor` | pet_clock.py:116-131 | The fields start as `PetModel.Initial` describes, and `Valid()` holds. |
| `PetWidget.DesktopPet.RandomBehavior` | pet_clock.py:149-159 | The in-place update gives exactly the state `PetModel.RandomBehavior` describes, and keeps `Valid()`. |
| `PetWidget.DesktopPet.MovePet` | pet_clock.py:161-176 | The in-place update gives exactly the state `PetModel.MovePet` describes, and keeps `Valid()`. |
| `PetWidget.DesktopPet.Animate` | pet_clock.py:178-180 | The in-place update gives exactly the state `PetModel.Animate` describes, and keeps `Valid()`. |
| `PetWidget.DesktopPet.MousePressEvent` | pet_clock.py:281-285 | The in-place update gives exactly the state `PetModel.MousePress` describes, and keeps `Valid()`. |
| `PetWidget.DesktopPet.MouseReleaseEvent` | pet_clock.py:291-293 | The in-place update gives exactly the state `PetModel.MouseRelease` describes, and keeps `Valid()`. |
| `PetWidget.DragScenario` | pet_clock.py:281-293 | Press, behaviour tick, movement tick, animation tick, release: the pet ends idle and not dragged, at the same position and facing the same way. |
| `PetRuns.StepPreservesInvariant` | pet_clock.py:149-182 | Each single callback keeps the direction coupled to the label, the frame in [0, 10) and the blink flag tied to frame 5. |
| `PetRuns.RunPreservesCoupled` | pet_clock.py:149-176 | Any sequence of callbacks keeps the direction a unit that agrees with a walking label. |
| `PetRuns.RunPreservesInvariant` | pet_clock.py:149-182 | Any sequence of callbacks keeps the whole invariant: the coupling and the frame/blink tie. |
| `PetRuns.ReachableInvariant` | pet_clock.py:122-126 | Every state reachable from the set-up state satisfies the invariant. |
| `PetRuns.RunKeepsOnScreen` | pet_clock.py:161-176 | On a screen at least as wide as the pet, a pet on screen stays on screen through any sequence of the modelled callbacks (no drag moves), and its y never changes. |
| `PetRuns.ReachableOnScreen` | pet_clock.py:117-120 | A pet set up on a screen at least 159 pixels wide is on screen in every state reached by the modelled callbacks (no drag moves), at its starting height. |
| `PetRuns.DraggedTimersOnlyAnimate` | pet_clock.py:149-182 | While the pet is dragged, any sequence of timer ticks changes only the frame and the blink flag. |
| `PetRuns.AnimationCycle` | pet_clock.py:178-179 | After n animation ticks the frame is the old frame plus n modulo 10, and for n > 0 nothing but the frame and the blink flag has changed. |
| `PetRuns.BlinkOncePerCycle` | pet_clock.py:178-180 | From any starting frame, after n > 0 animation ticks the eyes are closed exactly when the old frame plus n is 5 modulo 10, so once in every 10 ticks. |
| `PetRuns.RunPreservesFrameOk` | pet_clock.py:178-180 | Once the frame is in [0, 10) and the blink flag is tied to frame 5, every sequence of callbacks keeps this. |

## Left out

- Painting (`paintEvent`, `draw_cat`, the clock's background, the tray icon): Qt rendering, no state logic.
- `tail_angle` and `leg_offset`: floating-point sine values used only for drawing.
- The `QTimer` wiring and periods (100 ms, 3000 ms, 50 ms): event-loop scheduling. Each callback is a plain method, and a run interleaves them in any order.
- `mouseMoveEvent` and `drag_pos`: the window follows the cursor in global screen coordinates. This can put the pet anywhere, so the on-screen lemmas cover runs without drag moves.
- The window system's own placement of the window: the model's x and y are what `move` was asked for.
- `self.update()` in `animate`: a repaint request.
- `DesktopClock`: it reads the system clock and formats it with `strftime`.
- `PetClockApp`: tray menu, show/hide toggles and quit.
- The `jump` label: the code has no jump physics, so it is only a label here.
- The uniform distribution of `random.choice`: the model allows every index of the list, but not the probabilities (idle is drawn half of the time).
