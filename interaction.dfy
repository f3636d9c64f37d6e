/**
 * The state of the panorama perspective control, as a value, and one pure
 * transition per event handler. The class in module Controls updates its
 * fields in place and is proved to follow these transitions; the lemmas here
 * state what the transitions promise over several events.
 *
 * Numbers are reals. The environment the handlers read (`window.innerWidth`,
 * `window.innerHeight` and `Math.sqrt`) is passed in as an `Env`.
 */
module Interaction {
  import Geometry

  /** Field-of-view bounds enforced by every zoom (degrees). */
  const MinFov: real := 10.0
  const MaxFov: real := 160.0
  /** Field of view the camera is built with. */
  const InitialFov: real := 75.0
  /** Degrees of field of view per unit of wheel `deltaY`. */
  const WheelZoomFactor: real := 0.05
  /** Radians per unit of key step or of movement divided by radius. */
  const AngleFactor: real := 0.01
  /** Mouse movement is scaled by `radius / MouseMoveDivisor`. */
  const MouseMoveDivisor: real := 2.5

  datatype Vec = Vec(x: real, y: real)

  /** `camera_target_angle`: longitude and latitude of the viewing direction. */
  datatype Angle = Angle(lng: real, lat: real)

  /** The page coordinates kept for one touch. */
  datatype TouchPoint = TouchPoint(pageX: real, pageY: real)

  /** The five key flags: `onKeyLeft`, `onKeyRight`, `onKeyUp`, `onKeyDown`, `onKeyShift`. */
  datatype Keys = Keys(left: bool, right: bool, up: bool, down: bool, shift: bool)

  /** What a key code means to the control. */
  datatype Key = LeftKey | RightKey | UpKey | DownKey | ShiftKey | OtherKey

  /** Everything the handlers read or write. `radius` is set once, at construction. */
  datatype ControlState = ControlState(
    movement: Vec,
    mouse: Vec,
    fov: real,
    angle: Angle,
    radius: real,
    isUserInteractive: bool,
    multiTouchMode: bool,
    lastPoints: seq<TouchPoint>,
    isUseKey: bool,
    keys: Keys)

  /** The host environment: the window's inner size and the square root in use. */
  datatype Env = Env(innerWidth: real, innerHeight: real, sqrt: real -> real)

  predicate WindowOk(env: Env) {
    0.0 < env.innerWidth && 0.0 < env.innerHeight
  }

  /** The state right after construction: fov 75, angle (0, 0), every flag off. */
  function Initial(radius: real): (s: ControlState)
    ensures Inv(s) && s.radius == radius
    ensures s.fov == InitialFov && s.angle == Angle(0.0, 0.0) && s.lastPoints == []
    ensures !s.isUserInteractive && !s.multiTouchMode && !s.isUseKey
    ensures s.keys == Keys(false, false, false, false, false)
    ensures s.movement == Vec(0.0, 0.0) && s.mouse == Vec(0.0, 0.0)
  {
    ControlState(Vec(0.0, 0.0), Vec(0.0, 0.0), InitialFov, Angle(0.0, 0.0), radius,
                 false, false, [], false, Keys(false, false, false, false, false))
  }

  predicate AnyDirection(k: Keys) {
    k.left || k.right || k.up || k.down
  }

  /** Left and Right are never held together, nor Up and Down. */
  predicate Exclusive(k: Keys) {
    !(k.left && k.right) && !(k.up && k.down)
  }

  /**
   * What every reachable state satisfies: the field of view is in range, the
   * opposite key flags exclude each other, `isUseKey` is the disjunction of the
   * four direction flags, and multi-touch mode has at least two stored points.
   */
  ghost predicate Inv(s: ControlState) {
    MinFov <= s.fov <= MaxFov
    && Exclusive(s.keys)
    && s.isUseKey == AnyDirection(s.keys)
    && (s.multiTouchMode ==> 2 <= |s.lastPoints|)
  }

  // ---------------------------------------------------------------------------
  // Zoom

  /** The two `if`s that keep a field of view inside [MinFov, MaxFov]. */
  function ClampFov(f: real): (r: real)
    ensures MinFov <= r <= MaxFov
    ensures MinFov <= f <= MaxFov ==> r == f
    ensures MaxFov < f ==> r == MaxFov
    ensures f < MinFov ==> r == MinFov
  {
    var f1 := if f > MaxFov then MaxFov else f;
    if f1 < MinFov then MinFov else f1
  }

  /** `onDocumentMouseWheel`: only the field of view changes, by `deltaY * 0.05`, clamped. */
  function Wheel(s: ControlState, deltaY: real): (r: ControlState)
    ensures MinFov <= r.fov <= MaxFov
    ensures MinFov <= s.fov + deltaY * WheelZoomFactor <= MaxFov ==> r.fov == s.fov + deltaY * WheelZoomFactor
    ensures MaxFov < s.fov + deltaY * WheelZoomFactor ==> r.fov == MaxFov
    ensures s.fov + deltaY * WheelZoomFactor < MinFov ==> r.fov == MinFov
    ensures r == s.(fov := r.fov)
    ensures Inv(s) ==> Inv(r)
  {
    s.(fov := ClampFov(s.fov + deltaY * WheelZoomFactor))
  }

  // ---------------------------------------------------------------------------
  // Mouse

  /**
   * The normalised device coordinates of a window position: the window's left
   * and right edges map to -1 and 1, its top and bottom edges to 1 and -1.
   */
  function DeviceCoords(env: Env, px: real, py: real): (r: Vec)
    requires WindowOk(env)
    ensures px == 0.0 ==> r.x == -1.0
    ensures px == env.innerWidth ==> r.x == 1.0
    ensures py == 0.0 ==> r.y == 1.0
    ensures py == env.innerHeight ==> r.y == -1.0
    ensures 0.0 <= px <= env.innerWidth ==> -1.0 <= r.x <= 1.0
    ensures 0.0 <= py <= env.innerHeight ==> -1.0 <= r.y <= 1.0
  {
    var fx, fy := px / env.innerWidth, py / env.innerHeight;
    assert 0.0 <= px <= env.innerWidth ==> 0.0 <= fx <= 1.0 by {
      if 0.0 <= px <= env.innerWidth { FractionBounds(px, env.innerWidth); }
    }
    assert 0.0 <= py <= env.innerHeight ==> 0.0 <= fy <= 1.0 by {
      if 0.0 <= py <= env.innerHeight { FractionBounds(py, env.innerHeight); }
    }
    Vec(fx * 2.0 - 1.0, -fy * 2.0 + 1.0)
  }

  lemma FractionBounds(p: real, w: real)
    requires 0.0 <= p <= w && 0.0 < w
    ensures 0.0 <= p / w <= 1.0
  {
  }

  /**
   * `onDocumentMouseMove`: ignored unless an interaction is in progress;
   * otherwise the movement becomes `(movementX, movementY) * radius / 2.5`
   * and the mouse position is the event's client position, normalised.
   */
  function MouseMove(s: ControlState, env: Env, movementX: real, movementY: real,
                     clientX: real, clientY: real): (r: ControlState)
    requires s.isUserInteractive ==> WindowOk(env)
    ensures !s.isUserInteractive ==> r == s
    ensures s.isUserInteractive ==>
      r.movement.x * MouseMoveDivisor == movementX * s.radius
      && r.movement.y * MouseMoveDivisor == movementY * s.radius
      && r.mouse == DeviceCoords(env, clientX, clientY)
    ensures r == s.(movement := r.movement, mouse := r.mouse)
    ensures Inv(s) ==> Inv(r)
  {
    if !s.isUserInteractive then s
    else
      s.(movement := Vec(movementX * s.radius / MouseMoveDivisor, movementY * s.radius / MouseMoveDivisor),
         mouse := DeviceCoords(env, clientX, clientY))
  }

  /** `onDocumentMouseDown`: an interaction starts; nothing else changes. */
  function MouseDown(s: ControlState): (r: ControlState)
    ensures r.isUserInteractive
    ensures r == s.(isUserInteractive := true)
    ensures Inv(s) ==> Inv(r)
  {
    s.(isUserInteractive := true)
  }

  /**
   * `onDocumentMouseUp`: the interaction ends and movement and mouse return to
   * the origin; the angle, the field of view, the key flags and the touch
   * state are kept.
   */
  function MouseUp(s: ControlState): (r: ControlState)
    ensures !r.isUserInteractive
    ensures r.movement == Vec(0.0, 0.0) && r.mouse == Vec(0.0, 0.0)
    ensures r == s.(isUserInteractive := false, movement := r.movement, mouse := r.mouse)
    ensures Inv(s) ==> Inv(r)
  {
    s.(isUserInteractive := false, movement := Vec(0.0, 0.0), mouse := Vec(0.0, 0.0))
  }

  // ---------------------------------------------------------------------------
  // Touch

  /**
   * `onDocumentTouchStart`: multi-touch mode is on exactly when more than one
   * finger touches, an interaction starts, and the stored points are a copy of
   * the touch list, in order.
   */
  function TouchStart(s: ControlState, touches: seq<TouchPoint>): (r: ControlState)
    ensures r.multiTouchMode <==> 1 < |touches|
    ensures r.isUserInteractive
    ensures |r.lastPoints| == |touches|
    ensures forall i :: 0 <= i < |touches| ==> r.lastPoints[i] == touches[i]
    ensures r == s.(multiTouchMode := r.multiTouchMode, isUserInteractive := true, lastPoints := r.lastPoints)
    ensures Inv(s) ==> Inv(r)
  {
    s.(multiTouchMode := |touches| > 1, isUserInteractive := true, lastPoints := touches)
  }

  function AsPoint(t: TouchPoint): Geometry.Point {
    Geometry.Point(t.pageX, t.pageY)
  }

  /** The distance between the first two touches of a list. */
  function TouchDistance(env: Env, ts: seq<TouchPoint>): (r: real)
    requires 2 <= |ts|
    ensures Geometry.IsSqrt(env.sqrt) ==>
      0.0 <= r && r * r == Geometry.SquaredDistance(AsPoint(ts[0]), AsPoint(ts[1]))
  {
    Geometry.Distance(env.sqrt, AsPoint(ts[0]), AsPoint(ts[1]))
  }

  /** What `onDocumentTouchMove` needs to stay within the model (no NaN, no division by zero). */
  predicate TouchMoveOk(s: ControlState, env: Env, touches: seq<TouchPoint>) {
    if !s.multiTouchMode then
      1 <= |touches| && 1 <= |s.lastPoints| && WindowOk(env)
    else
      2 <= |touches| ==>
        2 <= |s.lastPoints| && 0.0 < TouchDistance(env, s.lastPoints) && 0.0 < TouchDistance(env, touches)
  }

  /** A multi-touch move with fewer than two touches reads `undefined.pageX` and throws. */
  predicate TouchMoveThrows(s: ControlState, touches: seq<TouchPoint>) {
    s.multiTouchMode && |touches| < 2
  }

  /** The pinch scale from the stored baseline pair to the current pair. */
  function PinchScale(s: ControlState, env: Env, touches: seq<TouchPoint>): (r: real)
    requires 2 <= |s.lastPoints| && 2 <= |touches|
    requires 0.0 < TouchDistance(env, s.lastPoints) && 0.0 < TouchDistance(env, touches)
    ensures 1.0 < r || r <= -1.0
    ensures 1.0 < r <==> TouchDistance(env, touches) < TouchDistance(env, s.lastPoints)
  {
    Geometry.GetScale(env.sqrt, [AsPoint(s.lastPoints[0]), AsPoint(s.lastPoints[1])],
                                [AsPoint(touches[0]), AsPoint(touches[1])])
  }

  /**
   * `onDocumentTouchMove` with one finger: the movement is the last touch
   * minus the first stored point, that touch replaces the first stored point
   * (the others are kept), and the mouse position is the touch's page
   * position, normalised.
   */
  function SingleTouchMove(s: ControlState, env: Env, touches: seq<TouchPoint>): (r: ControlState)
    requires 1 <= |touches| && 1 <= |s.lastPoints| && WindowOk(env)
    ensures var last, cur := s.lastPoints[0], touches[|touches| - 1];
      r.movement == Vec(cur.pageX - last.pageX, cur.pageY - last.pageY)
      && r.mouse == DeviceCoords(env, cur.pageX, cur.pageY)
      && |r.lastPoints| == |s.lastPoints| && r.lastPoints[0] == cur
      && r.lastPoints[1..] == s.lastPoints[1..]
    ensures r == s.(movement := r.movement, mouse := r.mouse, lastPoints := r.lastPoints)
    ensures Inv(s) && !s.multiTouchMode ==> Inv(r)
  {
    var last, cur := s.lastPoints[0], touches[|touches| - 1];
    s.(lastPoints := s.lastPoints[0 := cur],
       movement := Vec(cur.pageX - last.pageX, cur.pageY - last.pageY),
       mouse := DeviceCoords(env, cur.pageX, cur.pageY))
  }

  /**
   * `onDocumentTouchMove` with several fingers: only the field of view
   * changes, by the pinch scale against the stored points, clamped. The
   * stored points and the movement are not refreshed.
   */
  function PinchMove(s: ControlState, env: Env, touches: seq<TouchPoint>): (r: ControlState)
    requires 2 <= |s.lastPoints| && 2 <= |touches|
    requires 0.0 < TouchDistance(env, s.lastPoints) && 0.0 < TouchDistance(env, touches)
    ensures MinFov <= r.fov <= MaxFov
    ensures MinFov <= s.fov + PinchScale(s, env, touches) <= MaxFov ==> r.fov == s.fov + PinchScale(s, env, touches)
    ensures MaxFov < s.fov + PinchScale(s, env, touches) ==> r.fov == MaxFov
    ensures s.fov + PinchScale(s, env, touches) < MinFov ==> r.fov == MinFov
    ensures r == s.(fov := r.fov)
    ensures Inv(s) ==> Inv(r)
  {
    s.(fov := ClampFov(s.fov + PinchScale(s, env, touches)))
  }

  /** `onDocumentTouchMove`: a drag, a pinch, or a throw that changes nothing. */
  function TouchMove(s: ControlState, env: Env, touches: seq<TouchPoint>): (r: ControlState)
    requires TouchMoveOk(s, env, touches)
    ensures TouchMoveThrows(s, touches) ==> r == s
    ensures s.multiTouchMode ==> r.lastPoints == s.lastPoints && r.movement == s.movement && r.angle == s.angle
    ensures MinFov <= s.fov <= MaxFov ==> MinFov <= r.fov <= MaxFov
    ensures Inv(s) ==> Inv(r)
  {
    if !s.multiTouchMode then SingleTouchMove(s, env, touches)
    else if |touches| < 2 then s
    else PinchMove(s, env, touches)
  }

  /**
   * `onDocumentTouchEnd`: multi-touch mode and the interaction end, the stored
   * points are dropped, movement and mouse return to the origin.
   */
  function TouchEnd(s: ControlState): (r: ControlState)
    ensures !r.multiTouchMode && !r.isUserInteractive && r.lastPoints == []
    ensures r.movement == Vec(0.0, 0.0) && r.mouse == Vec(0.0, 0.0)
    ensures r == s.(multiTouchMode := false, isUserInteractive := false, lastPoints := [],
                    movement := r.movement, mouse := r.mouse)
    ensures Inv(s) ==> Inv(r)
  {
    s.(multiTouchMode := false, isUserInteractive := false, lastPoints := [],
       movement := Vec(0.0, 0.0), mouse := Vec(0.0, 0.0))
  }

  // ---------------------------------------------------------------------------
  // Keyboard

  /** The `switch` on the key code: A/Left, D/Right, W/Up, S/Down and Shift. */
  function KeyOf(code: int): (k: Key)
    ensures k == LeftKey <==> code == 65 || code == 37
    ensures k == RightKey <==> code == 68 || code == 39
    ensures k == UpKey <==> code == 87 || code == 38
    ensures k == DownKey <==> code == 83 || code == 40
    ensures k == ShiftKey <==> code == 16
  {
    if code == 65 || code == 37 then LeftKey
    else if code == 68 || code == 39 then RightKey
    else if code == 87 || code == 38 then UpKey
    else if code == 83 || code == 40 then DownKey
    else if code == 16 then ShiftKey
    else OtherKey
  }

  /**
   * The flags after a key is pressed: a direction sets its flag and clears the
   * opposite one, leaving the other axis and Shift alone; Shift sets its flag;
   * any other key changes nothing.
   */
  function Press(k: Keys, key: Key): (r: Keys)
    ensures key == LeftKey ==> r.left && !r.right
    ensures key == RightKey ==> r.right && !r.left
    ensures key == UpKey ==> r.up && !r.down
    ensures key == DownKey ==> r.down && !r.up
    ensures key == ShiftKey ==> r == k.(shift := true)
    ensures key == OtherKey ==> r == k
    ensures key in {LeftKey, RightKey} ==> r.up == k.up && r.down == k.down && r.shift == k.shift
    ensures key in {UpKey, DownKey} ==> r.left == k.left && r.right == k.right && r.shift == k.shift
    ensures Exclusive(k) ==> Exclusive(r)
  {
    match key
    case LeftKey => k.(left := true, right := false)
    case RightKey => k.(right := true, left := false)
    case UpKey => k.(up := true, down := false)
    case DownKey => k.(down := true, up := false)
    case ShiftKey => k.(shift := true)
    case OtherKey => k
  }

  /** The flags after a key is released: only that key's own flag is cleared. */
  function Release(k: Keys, key: Key): (r: Keys)
    ensures key == LeftKey ==> r == k.(left := false)
    ensures key == RightKey ==> r == k.(right := false)
    ensures key == UpKey ==> r == k.(up := false)
    ensures key == DownKey ==> r == k.(down := false)
    ensures key == ShiftKey ==> r == k.(shift := false)
    ensures key == OtherKey ==> r == k
    ensures Exclusive(k) ==> Exclusive(r)
  {
    match key
    case LeftKey => k.(left := false)
    case RightKey => k.(right := false)
    case UpKey => k.(up := false)
    case DownKey => k.(down := false)
    case ShiftKey => k.(shift := false)
    case OtherKey => k
  }

  /**
   * `onDocumentKeyDown`: the flags follow `Press`, `isUseKey` is recomputed
   * from the four direction flags, and an interaction starts whatever the key.
   */
  function KeyDown(s: ControlState, code: int): (r: ControlState)
    ensures r.keys == Press(s.keys, KeyOf(code))
    ensures r.isUseKey <==> r.keys.left || r.keys.right || r.keys.up || r.keys.down
    ensures r.isUserInteractive
    ensures KeyOf(code) in {ShiftKey, OtherKey} ==> r.isUseKey == AnyDirection(s.keys)
    ensures r == s.(keys := r.keys, isUseKey := r.isUseKey, isUserInteractive := true)
    ensures Inv(s) ==> Inv(r)
  {
    var k := Press(s.keys, KeyOf(code));
    s.(keys := k, isUseKey := AnyDirection(k), isUserInteractive := true)
  }

  /**
   * `onDocumentKeyUp`: the flags follow `Release`, `isUseKey` is recomputed,
   * and the interaction continues only while a direction or Shift is held.
   */
  function KeyUp(s: ControlState, code: int): (r: ControlState)
    ensures r.keys == Release(s.keys, KeyOf(code))
    ensures KeyOf(code) == OtherKey ==> r.keys == s.keys
    ensures r.isUseKey <==> r.keys.left || r.keys.right || r.keys.up || r.keys.down
    ensures r.isUserInteractive <==> r.isUseKey || r.keys.shift
    ensures r == s.(keys := r.keys, isUseKey := r.isUseKey, isUserInteractive := r.isUserInteractive)
    ensures Inv(s) ==> Inv(r)
  {
    var k := Release(s.keys, KeyOf(code));
    s.(keys := k, isUseKey := AnyDirection(k), isUserInteractive := AnyDirection(k) || k.shift)
  }

  // ---------------------------------------------------------------------------
  // Per-frame update

  /** The key step in radians: 5 units with Shift held, 1 unit otherwise. */
  function KeyStep(k: Keys): real {
    (if k.shift then 5.0 else 1.0) * AngleFactor
  }

  /**
   * `updateKeyAngle`: Down adds a step to the latitude and Up takes one away;
   * Left takes a step from the longitude and Right adds one. An axis with
   * neither of its keys held (or, as written, both) is unchanged.
   */
  function KeyAngle(a: Angle, k: Keys): (r: Angle)
    ensures k.down == k.up ==> r.lat == a.lat
    ensures k.down && !k.up ==> r.lat == a.lat + (if k.shift then 0.05 else 0.01)
    ensures k.up && !k.down ==> r.lat == a.lat - (if k.shift then 0.05 else 0.01)
    ensures k.left == k.right ==> r.lng == a.lng
    ensures k.left && !k.right ==> r.lng == a.lng - (if k.shift then 0.05 else 0.01)
    ensures k.right && !k.left ==> r.lng == a.lng + (if k.shift then 0.05 else 0.01)
  {
    var step := KeyStep(k);
    var lat1 := if k.down then a.lat + step else a.lat;
    var lat2 := if k.up then lat1 - step else lat1;
    var lng1 := if k.left then a.lng - step else a.lng;
    var lng2 := if k.right then lng1 + step else lng1;
    Angle(lng2, lat2)
  }

  /**
   * `convertDistanceToAngle`: a movement turns the longitude against its
   * x and the latitude with its y, in proportion to `movement / radius`.
   */
  function DragAngle(a: Angle, m: Vec, radius: real): (r: Angle)
    requires radius != 0.0
    ensures (a.lng - r.lng) * radius == m.x * AngleFactor
    ensures (r.lat - a.lat) * radius == m.y * AngleFactor
    ensures m == Vec(0.0, 0.0) ==> r == a
  {
    var dlng, dlat := m.x / radius * AngleFactor, m.y / radius * AngleFactor;
    assert dlng * radius == m.x * AngleFactor;
    assert dlat * radius == m.y * AngleFactor;
    Angle(a.lng - dlng, a.lat + dlat)
  }

  /** `update` divides by the radius only when it applies a drag. */
  predicate UpdateOk(s: ControlState) {
    s.isUserInteractive && !s.isUseKey && !s.multiTouchMode ==> s.radius != 0.0
  }

  /**
   * `update`: with no interaction in progress nothing changes; otherwise the
   * keys, when any direction is held, win over the movement; otherwise the
   * movement is applied unless multi-touch mode is on. Only the angle changes,
   * and the movement is not consumed.
   */
  function Update(s: ControlState): (r: ControlState)
    requires UpdateOk(s)
    ensures !s.isUserInteractive ==> r == s
    ensures s.isUserInteractive && s.isUseKey ==> r.angle == KeyAngle(s.angle, s.keys)
    ensures s.isUserInteractive && !s.isUseKey && !s.multiTouchMode ==>
      r.angle == DragAngle(s.angle, s.movement, s.radius)
    ensures !s.isUseKey && s.multiTouchMode ==> r == s
    ensures r == s.(angle := r.angle)
    ensures Inv(s) ==> Inv(r)
  {
    if s.isUserInteractive then
      if s.isUseKey then s.(angle := KeyAngle(s.angle, s.keys))
      else if !s.multiTouchMode then s.(angle := DragAngle(s.angle, s.movement, s.radius))
      else s
    else s
  }

  // ---------------------------------------------------------------------------
  // Event sequences

  /**
   * The handlers the host calls, and the animation frame that calls `update`.
   * The two events whose handlers read the window size or the square root
   * carry the environment as it is when they arrive.
   */
  datatype Event =
    | Wheeled(deltaY: real)
    | MouseMoved(env: Env, movementX: real, movementY: real, clientX: real, clientY: real)
    | MousePressed
    | MouseReleased
    | TouchStarted(touches: seq<TouchPoint>)
    | TouchMoved(env: Env, touches: seq<TouchPoint>)
    | TouchEnded
    | KeyPressed(code: int)
    | KeyReleased(code: int)
    | Frame

  predicate StepOk(s: ControlState, e: Event) {
    match e
    case MouseMoved(env, _, _, _, _) => s.isUserInteractive ==> WindowOk(env)
    case TouchMoved(env, ts) => TouchMoveOk(s, env, ts)
    case Frame => UpdateOk(s)
    case _ => true
  }

  function Step(s: ControlState, e: Event): ControlState
    requires StepOk(s, e)
  {
    match e
    case Wheeled(d) => Wheel(s, d)
    case MouseMoved(env, mx, my, cx, cy) => MouseMove(s, env, mx, my, cx, cy)
    case MousePressed => MouseDown(s)
    case MouseReleased => MouseUp(s)
    case TouchStarted(ts) => TouchStart(s, ts)
    case TouchMoved(env, ts) => TouchMove(s, env, ts)
    case TouchEnded => TouchEnd(s)
    case KeyPressed(c) => KeyDown(s, c)
    case KeyReleased(c) => KeyUp(s, c)
    case Frame => Update(s)
  }

  /** Every event of the sequence stays within the model when it arrives. */
  predicate RunOk(s: ControlState, events: seq<Event>)
    decreases |events|
  {
    events == [] || (StepOk(s, events[0]) && RunOk(Step(s, events[0]), events[1..]))
  }

  function Run(s: ControlState, events: seq<Event>): ControlState
    requires RunOk(s, events)
    decreases |events|
  {
    if events == [] then s else Run(Step(s, events[0]), events[1..])
  }

  // ---------------------------------------------------------------------------
  // Properties over several events

  /** Every handler and the frame update keep the invariant. */
  lemma StepKeepsInv(s: ControlState, e: Event)
    requires Inv(s) && StepOk(s, e)
    ensures Inv(Step(s, e))
  {
  }

  /** Any sequence of events keeps the invariant. */
  lemma {:induction false} RunKeepsInv(s: ControlState, events: seq<Event>)
    requires Inv(s) && RunOk(s, events)
    ensures Inv(Run(s, events))
    decreases |events|
  {
    if events != [] {
      StepKeepsInv(s, events[0]);
      RunKeepsInv(Step(s, events[0]), events[1..]);
    }
  }

  /**
   * From construction on, whatever events arrive: the field of view stays in
   * [10, 160], Left and Right are never both held, nor Up and Down, and
   * `isUseKey` is true exactly when a direction is held.
   */
  lemma Reachable(radius: real, events: seq<Event>)
    requires RunOk(Initial(radius), events)
    ensures var s := Run(Initial(radius), events);
      MinFov <= s.fov <= MaxFov
      && !(s.keys.left && s.keys.right) && !(s.keys.up && s.keys.down)
      && s.isUseKey == AnyDirection(s.keys)
  {
    RunKeepsInv(Initial(radius), events);
  }

  /** Keys win over drag: while a direction is held, the movement plays no part. */
  lemma KeysOverrideDrag(s: ControlState, m: Vec)
    requires s.isUserInteractive && s.isUseKey
    ensures UpdateOk(s) && UpdateOk(s.(movement := m))
    ensures Update(s.(movement := m)).angle == Update(s).angle == KeyAngle(s.angle, s.keys)
  {
  }

  /**
   * The movement is not consumed: two frames with no event in between apply
   * the same drag twice.
   */
  lemma FrameRepeatsDrag(s: ControlState)
    requires s.isUserInteractive && !s.isUseKey && !s.multiTouchMode && s.radius != 0.0
    ensures UpdateOk(Update(s))
    ensures var a := Update(Update(s)).angle;
      (s.angle.lng - a.lng) * s.radius == 2.0 * s.movement.x * AngleFactor
      && (a.lat - s.angle.lat) * s.radius == 2.0 * s.movement.y * AngleFactor
  {
  }

  /**
   * A mouse drag followed by a frame turns the longitude by
   * `-movementX * 0.004` and the latitude by `movementY * 0.004`, whatever the
   * (non-zero) radius: the radius the movement is scaled by cancels the radius
   * the angle is divided by.
   */
  lemma MouseDragIgnoresRadius(s: ControlState, env: Env, mx: real, my: real, cx: real, cy: real)
    requires s.isUserInteractive && !s.isUseKey && !s.multiTouchMode && s.radius != 0.0
    requires WindowOk(env)
    ensures UpdateOk(MouseMove(s, env, mx, my, cx, cy))
    ensures Update(MouseMove(s, env, mx, my, cx, cy)).angle
         == Angle(s.angle.lng - mx * 0.004, s.angle.lat + my * 0.004)
  {
  }

  /**
   * Putting a second finger down freezes the angle: after a touch start with
   * several touches, a frame changes nothing unless a direction key is held.
   */
  lemma MultiTouchStartFreezesAngle(s: ControlState, touches: seq<TouchPoint>)
    requires 1 < |touches| && !s.isUseKey
    ensures UpdateOk(TouchStart(s, touches))
    ensures Update(TouchStart(s, touches)) == TouchStart(s, touches)
  {
  }

  /** After a release, frames no longer move the camera. */
  lemma ReleaseStopsMotion(s: ControlState)
    ensures Update(MouseUp(s)) == MouseUp(s)
    ensures Update(TouchEnd(s)) == TouchEnd(s)
  {
  }

  /**
   * A pinch whose two fingers are where they were at touch start is read as
   * opening the fingers: the field of view drops by 1 (clamped), not 0.
   */
  lemma StationaryPinchZoomsIn(s: ControlState, env: Env, touches: seq<TouchPoint>)
    requires s.multiTouchMode && 2 <= |s.lastPoints| && 2 <= |touches|
    requires touches[0] == s.lastPoints[0] && touches[1] == s.lastPoints[1]
    requires 0.0 < TouchDistance(env, s.lastPoints)
    ensures TouchMoveOk(s, env, touches)
    ensures TouchMove(s, env, touches).fov == ClampFov(s.fov - 1.0)
  {
  }

  /**
   * Multi-touch moves keep comparing with the touch-start baseline: after one
   * pinch move, the next one's scale is measured from the same stored points,
   * not from the previous move's touches.
   */
  lemma PinchKeepsBaseline(s: ControlState, env: Env, first: seq<TouchPoint>, second: seq<TouchPoint>)
    requires s.multiTouchMode && 2 <= |s.lastPoints| && 2 <= |first| && 2 <= |second|
    requires 0.0 < TouchDistance(env, s.lastPoints)
    requires 0.0 < TouchDistance(env, first) && 0.0 < TouchDistance(env, second)
    ensures TouchMoveOk(s, env, first)
    ensures TouchMoveOk(TouchMove(s, env, first), env, second)
    ensures var r1 := TouchMove(s, env, first);
      r1.lastPoints == s.lastPoints
      && TouchMove(r1, env, second).fov == ClampFov(r1.fov + PinchScale(s, env, second))
  {
  }

  /**
   * Pressing one direction and then its opposite, by letter or by arrow, leaves
   * only the latter held.
   */
  lemma LastDirectionWins(s: ControlState, first: int, second: int)
    ensures KeyOf(first) == LeftKey && KeyOf(second) == RightKey ==>
      var k := KeyDown(KeyDown(s, first), second).keys; k.right && !k.left
    ensures KeyOf(first) == RightKey && KeyOf(second) == LeftKey ==>
      var k := KeyDown(KeyDown(s, first), second).keys; k.left && !k.right
    ensures KeyOf(first) == UpKey && KeyOf(second) == DownKey ==>
      var k := KeyDown(KeyDown(s, first), second).keys; k.down && !k.up
    ensures KeyOf(first) == DownKey && KeyOf(second) == UpKey ==>
      var k := KeyDown(KeyDown(s, first), second).keys; k.up && !k.down
  {
  }
}
