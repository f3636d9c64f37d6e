# Panorama perspective control

A Dafny model of `PerspectiveControl`, the input controller of a spherical
panorama viewer. This controller turns mouse, wheel, touch and keyboard events into two
pieces of state:

- the viewing angle `camera_target_angle = {lng, lat}`, advanced once per animation frame by `update()`;
- the camera's field of view, kept in [10, 160] degrees.

The project has three modules:

- `Geometry` (`geometry.dfy`) holds the free helpers `getDistance` and `getScale`: the
  Euclidean distance between two points, and the pinch scale between a
  previous and a current pair of touches.
- `Interaction` (`interaction.dfy`) holds the control's state as a value
  (`ControlState`), with one pure transition per handler: wheel, mouse move, down and up,
  touch start, move and end, key down and up, and the frame update. It also holds
  `Step`/`Run` over a sequence of events, the invariant every reachable
  state keeps, and lemmas about sequences of events.
- `Controls` (`control.dfy`) holds the class `PerspectiveControl`, with the source's
  fields. Its handlers overwrite those fields in place. The touch-start handler
  refills `lastPoints` point by point, and the one-finger touch move
  overwrites entry 0. Each method is proved to move `Snapshot()` exactly as the
  matching `Interaction` transition does, and to keep `Valid()`.

Names: `muliteTouchMode`, `lastPonits` and `camera_target_angle` in the source
are `multiTouchMode`, `lastPoints` and `cameraTargetAngle` here. Numbers are
reals. The camera is reduced to its `fov`. The window's inner size and
`Math.sqrt` are the environment (`Env`), passed in as parameters. In a
sequence of events, each mouse move and touch move carries the environment
it arrives in, so the window may be resized between events. A key event is
represented by its code, the value of `keyCode || which || charCode`.

Behaviour of the code that the model keeps as written:

- The movement is not consumed by a frame. `update()` applies the last
  movement again on every frame until a release or a new event arrives
  (`FrameRepeatsDrag`).
- A pinch whose fingers have not moved gives a scale of -1, not 0
  (`StationaryPinchZoomsIn`).
- A pinch is always measured against the points stored at touch start,
  because a multi-touch move never refreshes them (`PinchKeepsBaseline`).
- Shift multiplies the key step by 5.
- In `update()` the keys are checked before multi-touch mode. The pinch
  changes the field of view inside the touch-move handler, not in `update()`.
- No orientation-sensor delta is part of `update()`.

## Model

| member | source | states |
|---|---|---|
| Geometry.SquaredDistance | src/components/PanoPlayer/controls/PerspectiveControl.ts:7-9 | the sum of the squared coordinate differences is non-negative and is 0 for coinciding points |
| Geometry.Distance | src/components/PanoPlayer/controls/PerspectiveControl.ts:3-10 | with a true square root, the distance is non-negative and its square is the squared distance |
| Geometry.Scale | src/components/PanoPlayer/controls/PerspectiveControl.ts:18-22 | for positive distances s (previous) and e (current): the result is above 1 iff s > e, and is then s/e; it is at most -1 iff s <= e, and is then -e/s; it never lies in (-1, 1); equal distances give exactly -1 |
| Geometry.PairDistance | src/components/PanoPlayer/controls/PerspectiveControl.ts:16-17 | the distance between the first two points of a list; with a true square root it is non-negative and its square is their squared distance |
| Geometry.GetScale | src/components/PanoPlayer/controls/PerspectiveControl.ts:12-23 | the scale is above 1 iff the current pair's distance (computed with the given square root) is smaller than the previous pair's, and at most -1 otherwise; the same pair twice gives -1; PinchDirection states the geometric version |
| Geometry.PinchDirection | src/components/PanoPlayer/controls/PerspectiveControl.ts:12-23 | with a true square root, the scale is positive exactly when the current squared distance is smaller than the previous one |
| Interaction.Initial | src/components/PanoPlayer/controls/PerspectiveControl.ts:34-130 | the state after construction: fov 75, angle (0, 0), movement and mouse (0, 0), no touch points, isUserInteractive, multiTouchMode, isUseKey and all five key flags (Shift included) off; it satisfies the invariant |
| Interaction.ClampFov | src/components/PanoPlayer/controls/PerspectiveControl.ts:177-185 | the result lies in [10, 160]; it is the input when the input is in range, and 160 or 10 above or below the range |
| Interaction.Wheel | src/components/PanoPlayer/controls/PerspectiveControl.ts:176-187 | only fov changes; it becomes fov + deltaY*0.05 clamped to [10, 160], for any deltaY; the invariant is kept |
| Interaction.DeviceCoords | src/components/PanoPlayer/controls/PerspectiveControl.ts:198-201 | the window's left and right edges map to -1 and 1, its top and bottom to 1 and -1, and positions inside the window map into [-1, 1] |
| Interaction.MouseMove | src/components/PanoPlayer/controls/PerspectiveControl.ts:192-202 | no change unless an interaction is in progress; otherwise movement*2.5 == (movementX, movementY)*radius and mouse is the normalised client position; nothing else changes |
| Interaction.MouseDown | src/components/PanoPlayer/controls/PerspectiveControl.ts:207-209 | only isUserInteractive changes, to true |
| Interaction.MouseUp | src/components/PanoPlayer/controls/PerspectiveControl.ts:214-224 | isUserInteractive becomes false and movement and mouse become (0, 0); the angle, fov, key flags and touch state are kept |
| Interaction.TouchStart | src/components/PanoPlayer/controls/PerspectiveControl.ts:229-239 | multi-touch mode iff more than one touch; interaction starts; the stored points are the touches, same length and order; nothing else changes |
| Interaction.TouchDistance | src/components/PanoPlayer/controls/PerspectiveControl.ts:265-273 | the distance between the first two touches' page positions; with a true square root it is non-negative and its square is their squared distance |
| Interaction.PinchScale | src/components/PanoPlayer/controls/PerspectiveControl.ts:260-274 | the scale from the stored pair to the current pair is above 1 or at most -1, and above 1 iff the current pair's distance (computed with the environment's square root) is smaller than the stored pair's |
| Interaction.SingleTouchMove | src/components/PanoPlayer/controls/PerspectiveControl.ts:245-257 | movement is the last touch minus the first stored point; that touch replaces the first stored point and the rest are kept; mouse is its normalised page position |
| Interaction.PinchMove | src/components/PanoPlayer/controls/PerspectiveControl.ts:258-285 | only fov changes, to fov + pinch scale when that is in [10, 160], and to 160 or 10 when it lies above or below; the stored points and the movement are untouched |
| Interaction.TouchMove | src/components/PanoPlayer/controls/PerspectiveControl.ts:244-286 | a multi-touch move with fewer than two touches changes nothing; any multi-touch move leaves the stored points, the movement and the angle unchanged; fov stays in range; the invariant is kept |
| Interaction.TouchEnd | src/components/PanoPlayer/controls/PerspectiveControl.ts:291-303 | multi-touch mode and the interaction end, the stored points are emptied, movement and mouse become (0, 0); the angle is kept |
| Interaction.KeyOf | src/components/PanoPlayer/controls/PerspectiveControl.ts:310-325 | codes 65/37 are Left, 68/39 Right, 87/38 Up, 83/40 Down, 16 Shift, and exactly these |
| Interaction.Press | src/components/PanoPlayer/controls/PerspectiveControl.ts:310-326 | a direction sets its flag and clears the opposite one, leaving the other axis and Shift alone; Shift sets only its own flag; another key changes nothing; mutual exclusion is kept |
| Interaction.Release | src/components/PanoPlayer/controls/PerspectiveControl.ts:336-352 | only the released key's flag is cleared; an unmapped code leaves all five flags unchanged; mutual exclusion is kept |
| Interaction.KeyDown | src/components/PanoPlayer/controls/PerspectiveControl.ts:308-329 | the flags follow Press; isUseKey equals left or right or up or down, so Shift and unmapped keys do not change it; isUserInteractive becomes true for every code |
| Interaction.KeyUp | src/components/PanoPlayer/controls/PerspectiveControl.ts:334-355 | the flags follow Release; isUseKey equals left or right or up or down; isUserInteractive becomes isUseKey or Shift |
| Interaction.KeyAngle | src/components/PanoPlayer/controls/PerspectiveControl.ts:368-387 | the step is 0.05 with Shift and 0.01 without; Down adds it to lat, Up subtracts it, Left subtracts it from lng, Right adds it; an axis with no key held is unchanged |
| Interaction.DragAngle | src/components/PanoPlayer/controls/PerspectiveControl.ts:360-363 | the lng decrease times the radius is movement.x*0.01 and the lat increase times the radius is movement.y*0.01; a zero movement changes nothing |
| Interaction.Update | src/components/PanoPlayer/controls/PerspectiveControl.ts:392-401 | no change without interaction; with a direction held, the key delta applies; otherwise the drag applies outside multi-touch mode, and nothing changes in it; only the angle changes |
| Interaction.StepKeepsInv | src/components/PanoPlayer/controls/PerspectiveControl.ts:176-401 | every handler and the frame update keep the invariant: fov in [10, 160], Left/Right and Up/Down exclusive, isUseKey consistent, at least two stored points in multi-touch mode |
| Interaction.RunKeepsInv | src/components/PanoPlayer/controls/PerspectiveControl.ts:176-401 | any sequence of events keeps the invariant |
| Interaction.Reachable | src/components/PanoPlayer/controls/PerspectiveControl.ts:310-354 | from construction, after any events: fov in [10, 160], Left and Right never both held, nor Up and Down, isUseKey exactly when a direction is held |
| Interaction.KeysOverrideDrag | src/components/PanoPlayer/controls/PerspectiveControl.ts:393-395 | while interacting with a direction held, the frame's angle is the key angle whatever the movement |
| Interaction.FrameRepeatsDrag | src/components/PanoPlayer/controls/PerspectiveControl.ts:392-399 | two frames with no event in between apply the drag twice: lng drops by 2*movement.x/radius*0.01 and lat rises by 2*movement.y/radius*0.01 |
| Interaction.MouseDragIgnoresRadius | src/components/PanoPlayer/controls/PerspectiveControl.ts:192-197 | a mouse move followed by a frame changes lng by -movementX*0.004 and lat by movementY*0.004, for any non-zero radius |
| Interaction.MultiTouchStartFreezesAngle | src/components/PanoPlayer/controls/PerspectiveControl.ts:229-231 | after a touch start with several touches and no direction held, a frame changes nothing |
| Interaction.ReleaseStopsMotion | src/components/PanoPlayer/controls/PerspectiveControl.ts:214-224 | after a mouse up or a touch end, a frame changes nothing |
| Interaction.StationaryPinchZoomsIn | src/components/PanoPlayer/controls/PerspectiveControl.ts:18-22 | a pinch at the stored positions changes fov to fov - 1, clamped |
| Interaction.PinchKeepsBaseline | src/components/PanoPlayer/controls/PerspectiveControl.ts:258-285 | a pinch move keeps the stored points, so the next pinch is measured against the touch-start points |
| Interaction.LastDirectionWins | src/components/PanoPlayer/controls/PerspectiveControl.ts:310-321 | for any two codes, pressing a Left key (A or the left arrow) then a Right key (D or the right arrow) leaves only Right held, and the reverse; the same for Up (W, up arrow) and Down (S, down arrow) |
| Controls.PerspectiveControl.constructor | src/components/PanoPlayer/controls/PerspectiveControl.ts:117-130 | the object starts in the initial state for its radius |
| Controls.PerspectiveControl.OnDocumentMouseWheel | src/components/PanoPlayer/controls/PerspectiveControl.ts:176-187 | the new state is Wheel of the old one |
| Controls.PerspectiveControl.OnDocumentMouseMove | src/components/PanoPlayer/controls/PerspectiveControl.ts:192-202 | the new state is MouseMove of the old one |
| Controls.PerspectiveControl.OnDocumentMouseDown | src/components/PanoPlayer/controls/PerspectiveControl.ts:207-209 | the new state is MouseDown of the old one |
| Controls.PerspectiveControl.OnDocumentMouseUp | src/components/PanoPlayer/controls/PerspectiveControl.ts:214-224 | the new state is MouseUp of the old one |
| Controls.PerspectiveControl.OnDocumentTouchStart | src/components/PanoPlayer/controls/PerspectiveControl.ts:229-239 | the loop refills the stored points so that the new state is TouchStart of the old one |
| Controls.PerspectiveControl.OnDocumentTouchMove | src/components/PanoPlayer/controls/PerspectiveControl.ts:244-286 | the new state is TouchMove of the old one; among the inputs `TouchMoveOk` admits, the method reports a throw exactly for a multi-touch move with fewer than two touches (`TouchMoveThrows`) |
| Controls.PerspectiveControl.OnDocumentTouchEnd | src/components/PanoPlayer/controls/PerspectiveControl.ts:291-303 | the new state is TouchEnd of the old one |
| Controls.PerspectiveControl.OnDocumentKeyDown | src/components/PanoPlayer/controls/PerspectiveControl.ts:308-329 | the new state is KeyDown of the old one |
| Controls.PerspectiveControl.OnDocumentKeyUp | src/components/PanoPlayer/controls/PerspectiveControl.ts:334-355 | the new state is KeyUp of the old one |
| Controls.PerspectiveControl.ConvertDistanceToAngle | src/components/PanoPlayer/controls/PerspectiveControl.ts:360-363 | only the angle changes, to DragAngle of the old angle |
| Controls.PerspectiveControl.UpdateKeyAngle | src/components/PanoPlayer/controls/PerspectiveControl.ts:368-387 | only the angle changes, to KeyAngle of the old angle and the key flags |
| Controls.PerspectiveControl.Update | src/components/PanoPlayer/controls/PerspectiveControl.ts:392-401 | the new state is Update of the old one, and the returned angle is the new target angle |

## Left out

- Listener registration and removal (`initEvent`, `removeEvent`) is DOM plumbing. Removal passes unbound method references while registration bound copies, so detachment has no effect. No round trip is modelled.
- The camera object is left out: construction, `lookAt`, `updateProjectionMatrix`, `onWindowResize`, raycasting in `getIntersects`, and `getCamera`. They are calls into three.js and the window. The camera is reduced to its field of view.
- A one-finger move with an empty touch list is left out (`TouchMoveOk` requires a touch). There the source writes `undefined` into `lastPonits[0]` (line 249) and then throws a TypeError reading its `pageX` (line 251), so it changes state and then throws; the model's `thrown` result covers only the multi-touch throw, which writes nothing first.
- Floating-point behaviour is left out: NaN and Infinity, and division by zero. Preconditions exclude these cases instead:
  - a one-finger move needs a stored point. An ordinary gesture breaks this: touch with two fingers, lift one (the touch-end handler empties `lastPonits`, line 294), then move the other. The source then sets `lastPonits` to the one moved touch, and the movement is NaN because it subtracts an undefined point. `RunOk` rejects such a sequence, so `RunKeepsInv` and `Reachable` do not cover it;
  - a pinch needs positive distances;
  - the window needs a positive size;
  - a frame that drags needs a non-zero radius.
- Geometry.Distance: `Math.sqrt` is a parameter. The contract speaks only of a function that satisfies `IsSqrt`, not of the host's square root.
- The `keyCode || which || charCode` fallback is represented by its result, one integer code.
- Controls.PerspectiveControl.Update: it returns a copy of the angle. The source returns the object itself, and later frames mutate that object, so the caller's view is aliased. The aliasing is not modelled.
- The touch-move handler stores the host's touch object in `lastPonits[0]`, not a copy. Only its page coordinates are modelled.
- Controls.PerspectiveControl.OnDocumentTouchMove: a thrown TypeError is modelled as a `thrown` result with no state change. What the host does with the exception is not modelled.
- src/components/PanoPlayer/PanoPlayer.ts is not part of this model. It builds the scene and the render loop over three.js, and its calls `render(scene)` and `update(radius)` do not match this class.
- src/components/PanoPlayer/controls/DeviceOrientationControl.ts is not part of this model. It only stores event payloads, and nothing in it feeds `update()`.
