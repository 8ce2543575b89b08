/**
  The host program's control logic: the globals it keeps between frames, the
  mouse-button and cursor callbacks, the keyboard debounce in
  `processInput`, and the guard that feeds trackball rotations to the model
  only while the left button is held.

  The window system is not modelled: its callbacks become functions from
  the old globals and the event to the new globals. The external first-person
  camera and the loaded model are not part of this model either; the calls
  the host makes on them are recorded, in order, in the globals.
 */
module Host {
  import opened Glm
  import opened VirtualTrackball
  import opened OrbitCamera

  /** GLFW's action codes and the left mouse button's code. */
  const Release: int := 0
  const Press: int := 1
  const MouseButtonLeft: int := 0

  const ScreenWidth: real := 800.0
  const ScreenHeight: real := 600.0

  /** The debounce thresholds of `processInput`, in seconds. */
  const UpdateTimeMax: real := 0.01
  const ButtonTimeMax: real := 0.3

  /** The step of the point light's angles per accepted arrow key, in degrees. */
  const DeltaAngle: real := 1.0

  /** The `invisible` level the T key switches on. */
  const Translucent: real := 0.85

  datatype Option<T> = None | Some(value: T)

  /** The keys `processInput` polls. */
  datatype Key = Escape | Up | Down | Right | Left | W | S | A | D | R | E | Q | T

  /** The directions the external camera's `ProcessKeyboard` takes. */
  datatype Movement = MoveForward | MoveBackward | MoveLeft | MoveRight

  /** A call the host makes on the external first-person camera. */
  datatype CameraCall = Keyboard(direction: Movement, deltaTime: real) | MouseMovement(xoffset: real, yoffset: real)

  /** The globals of the host program that its callbacks and frame loop read and write. */
  datatype Globals = Globals(
    mouseState: int,
    trackball: Trackball,
    mousePosX: real,
    mousePosY: real,
    lastX: real,
    lastY: real,
    firstMouse: bool,
    timer: real,
    invisible: real,
    toon: bool,
    stencil: bool,
    bloom: bool,
    pointLight: SphereCamera,
    shouldClose: bool,
    cameraCalls: seq<CameraCall>,
    modelRotations: seq<Rotation>)

  /**
    The globals as the program initialises them. The trackball's radius is
    the screen height and its basis is the external camera's `front` and
    `up`, which are parameters here.
   */
  function InitialGlobals(t: Transcendentals, cameraFront: Vec3, cameraUp: Vec3): (g: Globals)
    ensures g.mouseState == Release && g.firstMouse && g.timer == 0.0
    ensures g.mousePosX == ScreenWidth && g.mousePosY == ScreenHeight
    ensures g.lastX == ScreenWidth / 2.0 && g.lastY == ScreenHeight / 2.0
    ensures g.trackball.r == ScreenHeight
    ensures g.invisible == 0.0 && !g.toon && !g.stencil && g.bloom && !g.shouldClose
    ensures g.pointLight.r == 20.0 && g.pointLight.theta == 0.0 && g.pointLight.phi == 45.0
    ensures g.cameraCalls == [] && g.modelRotations == []
  {
    Globals(
      Release,
      FromView(t, ScreenHeight, ScreenWidth, ScreenHeight, cameraFront, cameraUp),
      ScreenWidth, ScreenHeight,
      ScreenWidth / 2.0, ScreenHeight / 2.0, true,
      0.0, 0.0, false, false, true,
      FromAngles(t, Zero, 20.0, 0.0, 45.0),
      false, [], [])
  }

  // ---------------------------------------------------------------------
  // Mouse callbacks
  // ---------------------------------------------------------------------

  /**
    `mouse_button_callback`: only the left button, and only an action that
    differs from the stored state, is recorded; a transition to PRESS re-anchors
    the trackball at `(mousePosX, mousePosY)`.
   */
  function MouseButton(g: Globals, button: int, action: int): (g': Globals)
    ensures g'.mouseState != g.mouseState <==> button == MouseButtonLeft && action != g.mouseState
    ensures g'.mouseState == g.mouseState || g'.mouseState == action
    ensures g'.trackball != g.trackball ==> g'.mouseState == Press && g.mouseState != Press
    ensures g'.mouseState == Press && g.mouseState != Press ==>
              g'.trackball == RefreshScreenCoord(g.trackball, g.mousePosX, g.mousePosY)
    ensures g'.(mouseState := g.mouseState, trackball := g.trackball) == g
  {
    if button == MouseButtonLeft && action != g.mouseState then
      var tb := if action == Press then RefreshScreenCoord(g.trackball, g.mousePosX, g.mousePosY) else g.trackball;
      g.(mouseState := action, trackball := tb)
    else
      g
  }

  /** Delivering the same button event twice has the effect of delivering it once. */
  lemma MouseButtonRepeatIsNoOp(g: Globals, button: int, action: int)
    ensures MouseButton(MouseButton(g, button, action), button, action) == MouseButton(g, button, action)
  {
  }

  /**
    `mouse_callback`: the cursor offset since the last event, with y flipped,
    is passed to the external camera. The first event only records the
    position. `mousePosX` and `mousePosY` are not written.
   */
  function MouseMove(g: Globals, xpos: real, ypos: real): (g': Globals)
    ensures g'.lastX == xpos && g'.lastY == ypos && !g'.firstMouse
    ensures g.firstMouse ==> g'.cameraCalls == g.cameraCalls + [MouseMovement(0.0, 0.0)]
    ensures !g.firstMouse ==> g'.cameraCalls == g.cameraCalls + [MouseMovement(xpos - g.lastX, g.lastY - ypos)]
    ensures g'.(lastX := g.lastX, lastY := g.lastY, firstMouse := g.firstMouse, cameraCalls := g.cameraCalls) == g
  {
    var lastX := if g.firstMouse then xpos else g.lastX;
    var lastY := if g.firstMouse then ypos else g.lastY;
    var xoffset := xpos - lastX;
    var yoffset := lastY - ypos;
    g.(lastX := xpos, lastY := ypos, firstMouse := false,
       cameraCalls := g.cameraCalls + [MouseMovement(xoffset, yoffset)])
  }

  /**
    `mouse_callback` with the cursor position also stored in `mousePosX` and
    `mousePosY`, which the trackball is evidently meant to follow.
   */
  function MouseMoveTracked(g: Globals, xpos: real, ypos: real): (g': Globals)
    ensures g'.mousePosX == xpos && g'.mousePosY == ypos
    ensures g'.(mousePosX := g.mousePosX, mousePosY := g.mousePosY) == MouseMove(g, xpos, ypos)
  {
    MouseMove(g, xpos, ypos).(mousePosX := xpos, mousePosY := ypos)
  }

  /** Two cursor events in a row report offsets that add up to the whole movement. */
  lemma MouseOffsetsTelescope(g: Globals, x1: real, y1: real, x2: real, y2: real)
    requires !g.firstMouse
    ensures var g2 := MouseMove(MouseMove(g, x1, y1), x2, y2);
            var n := |g.cameraCalls|;
            |g2.cameraCalls| == n + 2
            && g2.cameraCalls[n].xoffset + g2.cameraCalls[n + 1].xoffset == x2 - g.lastX
            && g2.cameraCalls[n].yoffset + g2.cameraCalls[n + 1].yoffset == g.lastY - y2
  {
  }

  // ---------------------------------------------------------------------
  // processInput
  // ---------------------------------------------------------------------

  /** The timer-gated keys, in the order `processInput` tests them. */
  const GatedKeys: seq<Key> := [Up, Down, Right, Left, W, S, A, D, R, E, Q, T]

  /** The toggles wait for 0.3 s; the arrows and WASD for 0.01 s. */
  function Threshold(k: Key): (h: real)
    ensures 0.0 < h
  {
    if k == R || k == E || k == Q || k == T then ButtonTimeMax else UpdateTimeMax
  }

  /** The T key's rule: translucent unless already above 0.1, then opaque. */
  function ToggleInvisible(v: real): (v': real)
    ensures v' == 0.0 || v' == Translucent
    ensures v' == 0.0 <==> v > 0.1
  {
    if v > 0.1 then 0.0 else Translucent
  }

  /** From either of its two levels, T switches to the other and back. */
  lemma ToggleInvisibleAlternates(v: real)
    requires v == 0.0 || v == Translucent
    ensures ToggleInvisible(v) != v
    ensures ToggleInvisible(ToggleInvisible(v)) == v
  {
  }

  /**
    What an accepted gated key does: it resets the timer and changes exactly
    the one global its branch of `processInput` names.
   */
  function Fire(t: Transcendentals, g: Globals, k: Key, deltaTime: real): (g': Globals)
    ensures g'.timer == 0.0
    ensures g'.mouseState == g.mouseState && g'.trackball == g.trackball
    ensures g'.mousePosX == g.mousePosX && g'.mousePosY == g.mousePosY
    ensures g'.modelRotations == g.modelRotations && g'.shouldClose == g.shouldClose
    ensures match k
            case Up => g' == g.(timer := 0.0, pointLight := UpdatePhi(t, g.pointLight, DeltaAngle))
            case Down => g' == g.(timer := 0.0, pointLight := UpdatePhi(t, g.pointLight, -DeltaAngle))
            case Right => g' == g.(timer := 0.0, pointLight := UpdateTheta(t, g.pointLight, DeltaAngle))
            case Left => g' == g.(timer := 0.0, pointLight := UpdateTheta(t, g.pointLight, -DeltaAngle))
            case W => g' == g.(timer := 0.0, cameraCalls := g.cameraCalls + [Keyboard(MoveForward, deltaTime)])
            case S => g' == g.(timer := 0.0, cameraCalls := g.cameraCalls + [Keyboard(MoveBackward, deltaTime)])
            case A => g' == g.(timer := 0.0, cameraCalls := g.cameraCalls + [Keyboard(MoveLeft, deltaTime)])
            case D => g' == g.(timer := 0.0, cameraCalls := g.cameraCalls + [Keyboard(MoveRight, deltaTime)])
            case R => g' == g.(timer := 0.0, toon := !g.toon)
            case E => g' == g.(timer := 0.0, stencil := !g.stencil)
            case Q => g' == g.(timer := 0.0, bloom := !g.bloom)
            case T => g' == g.(timer := 0.0, invisible := ToggleInvisible(g.invisible))
            case Escape => g' == g.(timer := 0.0)
    ensures (k == Up || k == Down) ==>
              g'.pointLight.phi == ClampPhi(g.pointLight.phi, if k == Up then DeltaAngle else -DeltaAngle)
    ensures (k == Right || k == Left) ==>
              g'.pointLight.theta == WrapTheta(g.pointLight.theta, if k == Right then DeltaAngle else -DeltaAngle)
  {
    var g0 := g.(timer := 0.0);
    match k
    case Up => g0.(pointLight := UpdatePhi(t, g.pointLight, DeltaAngle))
    case Down => g0.(pointLight := UpdatePhi(t, g.pointLight, -DeltaAngle))
    case Right => g0.(pointLight := UpdateTheta(t, g.pointLight, DeltaAngle))
    case Left => g0.(pointLight := UpdateTheta(t, g.pointLight, -DeltaAngle))
    case W => g0.(cameraCalls := g.cameraCalls + [Keyboard(MoveForward, deltaTime)])
    case S => g0.(cameraCalls := g.cameraCalls + [Keyboard(MoveBackward, deltaTime)])
    case A => g0.(cameraCalls := g.cameraCalls + [Keyboard(MoveLeft, deltaTime)])
    case D => g0.(cameraCalls := g.cameraCalls + [Keyboard(MoveRight, deltaTime)])
    case R => g0.(toon := !g.toon)
    case E => g0.(stencil := !g.stencil)
    case Q => g0.(bloom := !g.bloom)
    case T => g0.(invisible := ToggleInvisible(g.invisible))
    case Escape => g0
  }

  /** The gated `if`s of `processInput` over `keys`, tested one after another. */
  function RunGated(t: Transcendentals, g: Globals, pressed: set<Key>, keys: seq<Key>, deltaTime: real): (g': Globals)
    ensures g'.timer == g.timer || g'.timer == 0.0
    ensures g'.shouldClose == g.shouldClose
    decreases |keys|
  {
    if |keys| == 0 then g
    else
      var k := keys[0];
      var g' := if k in pressed && g.timer > Threshold(k) then Fire(t, g, k, deltaTime) else g;
      RunGated(t, g', pressed, keys[1..], deltaTime)
  }

  /**
    `processInput`: Escape closes the window whatever the timer says; then
    the gated keys are tested in order.
   */
  function ProcessInput(t: Transcendentals, g: Globals, pressed: set<Key>, deltaTime: real): (g': Globals)
    ensures g'.shouldClose <==> g.shouldClose || Escape in pressed
    ensures g'.timer == g.timer || g'.timer == 0.0
  {
    var g0 := if Escape in pressed then g.(shouldClose := true) else g;
    RunGated(t, g0, pressed, GatedKeys, deltaTime)
  }

  /** The first key of `keys` that is pressed and whose threshold the timer exceeds. */
  function FirstFiring(timer: real, pressed: set<Key>, keys: seq<Key>): (f: Option<Key>)
    ensures f.Some? ==> f.value in keys && f.value in pressed && timer > Threshold(f.value)
    ensures f.Some? ==> exists i :: 0 <= i < |keys| && keys[i] == f.value
                          && forall j :: 0 <= j < i ==> !(keys[j] in pressed && timer > Threshold(keys[j]))
    ensures f.None? <==> forall i :: 0 <= i < |keys| ==> !(keys[i] in pressed && timer > Threshold(keys[i]))
    decreases |keys|
  {
    if |keys| == 0 then None
    else if keys[0] in pressed && timer > Threshold(keys[0]) then
      Some(keys[0])
    else
      var f := FirstFiring(timer, pressed, keys[1..]);
      assert forall i :: 1 <= i < |keys| ==> keys[i] == keys[1..][i - 1];
      assert f.Some? ==> exists i :: 0 <= i < |keys| && keys[i] == f.value
                          && forall j :: 0 <= j < i ==> !(keys[j] in pressed && timer > Threshold(keys[j])) by {
        if f.Some? {
          var i :| 0 <= i < |keys[1..]| && keys[1..][i] == f.value
                   && forall j :: 0 <= j < i ==> !(keys[1..][j] in pressed && timer > Threshold(keys[1..][j]));
          assert keys[i + 1] == f.value;
        }
      }
      f
  }

  /** With the timer at zero or below, no gated key fires. */
  lemma {:induction false} NothingFiresAtZero(t: Transcendentals, g: Globals, pressed: set<Key>, keys: seq<Key>, deltaTime: real)
    requires g.timer <= 0.0
    ensures RunGated(t, g, pressed, keys, deltaTime) == g
    decreases |keys|
  {
    if |keys| > 0 {
      NothingFiresAtZero(t, g, pressed, keys[1..], deltaTime);
    }
  }

  /**
    The gated `if`s amount to firing at most one key: the first that is
    pressed and whose threshold the timer exceeds, because firing resets the
    timer below every threshold.
   */
  lemma {:induction false} RunGatedFiresFirst(t: Transcendentals, g: Globals, pressed: set<Key>, keys: seq<Key>, deltaTime: real)
    ensures RunGated(t, g, pressed, keys, deltaTime) ==
              match FirstFiring(g.timer, pressed, keys)
              case None => g
              case Some(k) => Fire(t, g, k, deltaTime)
    decreases |keys|
  {
    if |keys| > 0 {
      var k := keys[0];
      if k in pressed && g.timer > Threshold(k) {
        NothingFiresAtZero(t, Fire(t, g, k, deltaTime), pressed, keys[1..], deltaTime);
      } else {
        RunGatedFiresFirst(t, g, pressed, keys[1..], deltaTime);
      }
    }
  }

  /**
    One `processInput` call: Escape requests closing, and at most one gated
    action fires — the first in test order whose key is down and whose
    threshold the timer exceeds.
   */
  lemma ProcessInputFiresAtMostOnce(t: Transcendentals, g: Globals, pressed: set<Key>, deltaTime: real)
    ensures var g0 := if Escape in pressed then g.(shouldClose := true) else g;
            ProcessInput(t, g, pressed, deltaTime) ==
              match FirstFiring(g.timer, pressed, GatedKeys)
              case None => g0
              case Some(k) => Fire(t, g0, k, deltaTime)
  {
    var g0 := if Escape in pressed then g.(shouldClose := true) else g;
    RunGatedFiresFirst(t, g0, pressed, GatedKeys, deltaTime);
  }

  /** `processInput` leaves the mouse and trackball globals alone. */
  lemma {:induction false} RunGatedKeepsCursor(t: Transcendentals, g: Globals, pressed: set<Key>, keys: seq<Key>, deltaTime: real)
    ensures var g' := RunGated(t, g, pressed, keys, deltaTime);
            g'.mouseState == g.mouseState && g'.trackball == g.trackball
            && g'.mousePosX == g.mousePosX && g'.mousePosY == g.mousePosY
            && g'.modelRotations == g.modelRotations
    decreases |keys|
  {
    if |keys| > 0 {
      var k := keys[0];
      var g' := if k in pressed && g.timer > Threshold(k) then Fire(t, g, k, deltaTime) else g;
      RunGatedKeepsCursor(t, g', pressed, keys[1..], deltaTime);
    }
  }

  // ---------------------------------------------------------------------
  // The frame loop's trackball guard
  // ---------------------------------------------------------------------

  /** Only while the left button is held does the frame ask the trackball for a rotation and apply it. */
  function ApplyTrackball(t: Transcendentals, g: Globals): (g': Globals)
    ensures g.mouseState != Press ==> g' == g
    ensures g.mouseState == Press ==>
              var res := GetRotation(t, g.trackball, g.mousePosX, g.mousePosY);
              g'.trackball == res.0 && g'.modelRotations == g.modelRotations + [res.1]
    ensures g'.(trackball := g.trackball, modelRotations := g.modelRotations) == g
  {
    if g.mouseState == Press then
      var res := GetRotation(t, g.trackball, g.mousePosX, g.mousePosY);
      g.(trackball := res.0, modelRotations := g.modelRotations + [res.1])
    else
      g
  }

  /** The top of the render loop: the key timer grows by the frame's `deltaTime`. */
  function AdvanceTimer(g: Globals, deltaTime: real): (g': Globals)
    ensures g'.timer == g.timer + deltaTime
    ensures g'.(timer := g.timer) == g
  {
    g.(timer := g.timer + deltaTime)
  }

  /**
    One frame: advance the timer, poll the keys, then apply the trackball.
    The timer has grown by `deltaTime` unless a key fired; one rotation is
    applied exactly when the left button is held.
   */
  function Frame(t: Transcendentals, g: Globals, deltaTime: real, pressed: set<Key>): (g': Globals)
    ensures g'.timer == g.timer + deltaTime || g'.timer == 0.0
    ensures g'.shouldClose <==> g.shouldClose || Escape in pressed
    ensures g'.mouseState == g.mouseState
    ensures g.mouseState != Press ==> g'.modelRotations == g.modelRotations && g'.trackball == g.trackball
    ensures g.mouseState == Press ==>
              var res := GetRotation(t, g.trackball, g.mousePosX, g.mousePosY);
              g'.trackball == res.0 && g'.modelRotations == g.modelRotations + [res.1]
  {
    var g1 := AdvanceTimer(g, deltaTime);
    var g0 := if Escape in pressed then g1.(shouldClose := true) else g1;
    RunGatedKeepsCursor(t, g0, pressed, GatedKeys, deltaTime);
    ApplyTrackball(t, ProcessInput(t, g1, pressed, deltaTime))
  }
}
