/**
  Whole sessions of the host program: the globals after a sequence of window
  events, and what the trackball contributes to the model over a session.

  As written, the cursor callback never updates `mousePosX`/`mousePosY`, so
  every press anchors the trackball at the initial `(800, 600)` and every
  later query asks about that same point: the trackball never leaves its dead
  zone. With the position tracked, a cursor movement does turn it.
 */
module HostSession {
  import opened Glm
  import opened VirtualTrackball
  import opened Host

  /** A window event: a mouse button, a cursor movement, or one frame of the render loop. */
  datatype Event =
    | Button(button: int, action: int)
    | Cursor(x: real, y: real)
    | Tick(deltaTime: real, pressed: set<Key>)

  /** Deliver one event; `tracked` selects the cursor callback that records the position. */
  function Step(t: Transcendentals, g: Globals, e: Event, tracked: bool): Globals {
    match e
    case Button(b, a) => MouseButton(g, b, a)
    case Cursor(x, y) => if tracked then MouseMoveTracked(g, x, y) else MouseMove(g, x, y)
    case Tick(dt, pressed) => Frame(t, g, dt, pressed)
  }

  /** Deliver the events in order. */
  function Run(t: Transcendentals, g: Globals, events: seq<Event>, tracked: bool): Globals
    decreases |events|
  {
    if |events| == 0 then g else Step(t, Run(t, g, events[..|events| - 1], tracked), events[|events| - 1], tracked)
  }

  /**
    The invariant of an untracked session: the cursor globals keep their
    initial values, the trackball keeps its radius and unit `front`, while the
    button is held the trackball is anchored at the cursor with `nowVec ==
    -front`, and every rotation handed to the model is the dead-zone pair.
   */
  ghost predicate Anchored(g: Globals) {
    g.mousePosX == ScreenWidth && g.mousePosY == ScreenHeight
    && g.trackball.r == ScreenHeight && Norm2(g.trackball.front) == 1.0
    && (g.mouseState == Press ==>
          g.trackball.x == g.mousePosX && g.trackball.y == g.mousePosY
          && g.trackball.nowVec == Neg(g.trackball.front))
    && forall i :: 0 <= i < |g.modelRotations| ==> g.modelRotations[i] == NoRotation
  }

  lemma AnchoredInitially(t: Transcendentals, cameraFront: Vec3, cameraUp: Vec3)
    requires SqrtLaw(t) && cameraFront != Zero
    ensures Anchored(InitialGlobals(t, cameraFront, cameraUp))
  {
    NormalizeUnit(t, cameraFront);
  }

  /** An anchored trackball queried at its anchor stays put and yields the dead-zone pair. */
  lemma AnchoredFrameIsStill(t: Transcendentals, g: Globals)
    requires SqrtLaw(t) && Anchored(g)
    ensures Anchored(ApplyTrackball(t, g))
  {
    if g.mouseState == Press {
      var tb := g.trackball;
      assert RefreshScreenCoord(tb, g.mousePosX, g.mousePosY) == tb;
      ProbeAtReferenceIsStill(t, tb, g.mousePosX, g.mousePosY);
    }
  }

  lemma ButtonKeepsAnchored(g: Globals, button: int, action: int)
    requires Anchored(g)
    ensures Anchored(MouseButton(g, button, action))
  {
    var g' := MouseButton(g, button, action);
    assert g'.mousePosX == g.mousePosX && g'.mousePosY == g.mousePosY && g'.modelRotations == g.modelRotations;
    assert g'.trackball.r == g.trackball.r && g'.trackball.front == g.trackball.front;
  }

  lemma CursorKeepsAnchored(g: Globals, x: real, y: real)
    requires Anchored(g)
    ensures Anchored(MouseMove(g, x, y))
  {
    var g' := MouseMove(g, x, y);
    assert g'.mouseState == g.mouseState && g'.trackball == g.trackball;
    assert g'.mousePosX == g.mousePosX && g'.mousePosY == g.mousePosY && g'.modelRotations == g.modelRotations;
  }

  lemma InputKeepsAnchored(t: Transcendentals, g: Globals, pressed: set<Key>, deltaTime: real)
    requires Anchored(g)
    ensures Anchored(ProcessInput(t, g, pressed, deltaTime))
  {
    var g0 := if Escape in pressed then g.(shouldClose := true) else g;
    RunGatedKeepsCursor(t, g0, pressed, GatedKeys, deltaTime);
  }

  lemma StepKeepsAnchored(t: Transcendentals, g: Globals, e: Event)
    requires SqrtLaw(t) && Anchored(g)
    ensures Anchored(Step(t, g, e, false))
  {
    match e
    case Button(b, a) =>
      ButtonKeepsAnchored(g, b, a);
    case Cursor(x, y) =>
      CursorKeepsAnchored(g, x, y);
    case Tick(dt, pressed) =>
      FrameKeepsAnchored(t, g, dt, pressed);
  }

  lemma FrameKeepsAnchored(t: Transcendentals, g: Globals, deltaTime: real, pressed: set<Key>)
    requires SqrtLaw(t) && Anchored(g)
    ensures Anchored(Frame(t, g, deltaTime, pressed))
  {
    AdvanceKeepsAnchored(g, deltaTime);
    InputThenTrackballKeepsAnchored(t, AdvanceTimer(g, deltaTime), deltaTime, pressed);
  }

  lemma AdvanceKeepsAnchored(g: Globals, deltaTime: real)
    requires Anchored(g)
    ensures Anchored(AdvanceTimer(g, deltaTime))
  {
  }

  lemma InputThenTrackballKeepsAnchored(t: Transcendentals, g: Globals, deltaTime: real, pressed: set<Key>)
    requires SqrtLaw(t) && Anchored(g)
    ensures Anchored(ApplyTrackball(t, ProcessInput(t, g, pressed, deltaTime)))
  {
    var g2 := ProcessInput(t, g, pressed, deltaTime);
    assert Anchored(g2) by {
      InputKeepsAnchored(t, g, pressed, deltaTime);
    }
    AnchoredFrameIsStill(t, g2);
  }

  lemma {:induction false} RunKeepsAnchored(t: Transcendentals, g: Globals, events: seq<Event>)
    requires SqrtLaw(t) && Anchored(g)
    ensures Anchored(Run(t, g, events, false))
    decreases |events|
  {
    if |events| > 0 {
      RunKeepsAnchored(t, g, events[..|events| - 1]);
      StepKeepsAnchored(t, Run(t, g, events[..|events| - 1], false), events[|events| - 1]);
    }
  }

  /**
    As written, whatever the events, every rotation the frame loop passes to
    the model is the dead-zone pair (angle 0) and `mousePosX`/`mousePosY` keep
    their initial values.
   */
  lemma TrackballNeverTurns(t: Transcendentals, cameraFront: Vec3, cameraUp: Vec3, events: seq<Event>)
    requires SqrtLaw(t) && cameraFront != Zero
    ensures var g := Run(t, InitialGlobals(t, cameraFront, cameraUp), events, false);
            g.mousePosX == ScreenWidth && g.mousePosY == ScreenHeight
            && forall i :: 0 <= i < |g.modelRotations| ==> g.modelRotations[i] == NoRotation
  {
    AnchoredInitially(t, cameraFront, cameraUp);
    RunKeepsAnchored(t, InitialGlobals(t, cameraFront, cameraUp), events);
  }

  // ---------------------------------------------------------------------
  // With the cursor position tracked
  // ---------------------------------------------------------------------

  /** A point on the x axis normalises to the unit vector of its sign. */
  lemma NormalizeOnAxis(t: Transcendentals, tb: Trackball, sx: real, sy: real)
    requires SqrtLaw(t)
    requires var d := Offset(tb, sx, sy); d.1 == 0.0 && OutsideRim(tb, d.0, d.1)
    ensures var d := Offset(tb, sx, sy);
            Probe(t, tb, sx, sy) == Vec3(if d.0 > 0.0 then 1.0 else -1.0, 0.0, 0.0)
  {
    var d := Offset(tb, sx, sy);
    OutsideRimIsPlanar(t, tb, sx, sy);
    var v := Probe(t, tb, sx, sy);
    var k :| 0.0 < k && v == Scale(Vec3(d.0, d.1, 0.0), k);
    SqFacts(tb.r);
    assert Sq(d.0) > 0.0;
    assert d.0 != 0.0;
    assert v.x == Times(k, d.0) && v.y == 0.0 && v.z == 0.0;
    assert Sq(v.x) == 1.0;
    if d.0 > 0.0 {
      ProductPositive(k, d.0);
      SqInjective(v.x, 1.0);
    } else {
      ProductPositive(k, -d.0);
      SqInjective(-v.x, 1.0);
    }
  }

  /** A unit vector on the x axis is far from any unit vector on the other side of the y-z plane. */
  lemma FarAcross(s: real, n: Vec3)
    requires Sq(s) == 1.0 && Norm2(n) == 1.0 && Times(s, n.x) <= 0.0
    ensures 2.0 <= Norm2(Sub(Vec3(s, 0.0, 0.0), n))
  {
    var w := Sub(Vec3(s, 0.0, 0.0), n);
    assert Sq(s - n.x) == Sq(s) - 2.0 * Times(s, n.x) + Sq(n.x);
    assert Sq(0.0 - n.y) == Sq(n.y) && Sq(0.0 - n.z) == Sq(n.z);
    assert Norm2(w) == Sq(w.x) + Sq(w.y) + Sq(w.z);
    assert Norm2(n) == Sq(n.x) + Sq(n.y) + Sq(n.z);
  }

  /** The session of the finding: press in place, move the cursor along the x axis, render one frame. */
  function PressAndDrag(x: real): seq<Event> {
    [Button(MouseButtonLeft, Press), Cursor(x, ScreenHeight), Tick(0.0, {})]
  }

  /** The cursor position on the far side of the ball from the unit vector `n`, along the x axis. */
  function DragTarget(n: Vec3): real {
    if n.x <= 0.0 then 1800.0 else -200.0
  }

  lemma RunThree(t: Transcendentals, g: Globals, a: Event, b: Event, c: Event, tracked: bool)
    ensures Run(t, g, [a, b, c], tracked) == Step(t, Step(t, Step(t, g, a, tracked), b, tracked), c, tracked)
  {
    var evs := [a, b, c];
    assert evs[..2] == [a, b] && [a, b][..1] == [a] && [a][..0] == [];
    assert Run(t, g, [a], tracked) == Step(t, g, a, tracked);
    assert Run(t, g, [a, b], tracked) == Step(t, Run(t, g, [a], tracked), b, tracked);
    assert Run(t, g, evs, tracked) == Step(t, Run(t, g, [a, b], tracked), c, tracked);
  }

  /**
    A ball of radius 600 anchored at the screen's far corner, with a unit
    `nowVec`, leaves its dead zone when probed 1000 pixels to the side.
   */
  lemma DragLeavesDeadZone(t: Transcendentals, tb: Trackball)
    requires SqrtLaw(t) && tb.x == ScreenWidth && tb.y == ScreenHeight && tb.r == ScreenHeight
    requires Norm2(tb.nowVec) == 1.0
    ensures GetRotation(t, tb, DragTarget(tb.nowVec), ScreenHeight).0.nowVec != tb.nowVec
  {
    var x := DragTarget(tb.nowVec);
    var s := if tb.nowVec.x <= 0.0 then 1.0 else -1.0;
    var d := Offset(tb, x, ScreenHeight);
    assert d.1 == 0.0 && (d.0 == 1000.0 || d.0 == -1000.0);
    assert Sq(d.0) == 1000000.0;
    assert OutsideRim(tb, d.0, d.1);
    NormalizeOnAxis(t, tb, x, ScreenHeight);
    var v := Probe(t, tb, x, ScreenHeight);
    assert v == Vec3(s, 0.0, 0.0);
    FarAcross(s, tb.nowVec);
    DeadZoneKeepsState(t, tb, x, ScreenHeight);
    assert GetRotation(t, tb, x, ScreenHeight).0.nowVec == v;
    assert v != tb.nowVec;
  }

  /** The globals the frame's trackball guard sees after a press and a tracked drag to `(x, 600)`. */
  function DraggedTo(t: Transcendentals, g: Globals, x: real): Globals {
    var g2 := MouseMoveTracked(MouseButton(g, MouseButtonLeft, Press), x, ScreenHeight);
    ProcessInput(t, AdvanceTimer(g2, 0.0), {}, 0.0)
  }

  /** The tracked session is the trackball guard applied after the press, the drag and the key poll. */
  lemma PressAndDragRuns(t: Transcendentals, g: Globals, x: real)
    ensures Run(t, g, PressAndDrag(x), true) == ApplyTrackball(t, DraggedTo(t, g, x))
  {
    var g1 := MouseButton(g, MouseButtonLeft, Press);
    var g2 := MouseMoveTracked(g1, x, ScreenHeight);
    RunThree(t, g, Button(MouseButtonLeft, Press), Cursor(x, ScreenHeight), Tick(0.0, {}), true);
    assert Run(t, g, PressAndDrag(x), true) == Frame(t, g2, 0.0, {});
  }

  /** A press from the released state anchors the trackball at the old cursor; the drag then only moves the cursor. */
  lemma DraggedState(t: Transcendentals, g: Globals, x: real)
    requires g.mouseState == Release
    ensures var g3 := DraggedTo(t, g, x);
            g3.mouseState == Press && g3.mousePosX == x && g3.mousePosY == ScreenHeight
            && g3.trackball == RefreshScreenCoord(g.trackball, g.mousePosX, g.mousePosY)
  {
    var g1 := MouseButton(g, MouseButtonLeft, Press);
    assert g1.mouseState == Press && g1.trackball == RefreshScreenCoord(g.trackball, g.mousePosX, g.mousePosY);
    var g2 := MouseMoveTracked(g1, x, ScreenHeight);
    assert g2.mouseState == Press && g2.trackball == g1.trackball && g2.mousePosX == x && g2.mousePosY == ScreenHeight;
    var g2' := AdvanceTimer(g2, 0.0);
    assert g2'.mouseState == Press && g2'.trackball == g1.trackball && g2'.mousePosX == x && g2'.mousePosY == ScreenHeight;
    assert DraggedTo(t, g, x) == RunGated(t, g2', {}, GatedKeys, 0.0);
    RunGatedKeepsCursor(t, g2', {}, GatedKeys, 0.0);
  }

  /**
    With the cursor position tracked, a press followed by a drag of 1000
    pixels to one side or the other leaves the dead zone: after one frame
    the trackball's `nowVec` has moved off its anchor `-front`. As written,
    `TrackballNeverTurns` keeps it there for the same sessions.
   */
  lemma TrackedDragTurns(t: Transcendentals, cameraFront: Vec3, cameraUp: Vec3)
    requires SqrtLaw(t) && cameraFront != Zero
    ensures exists x :: (x == 1800.0 || x == -200.0)
              && var g := Run(t, InitialGlobals(t, cameraFront, cameraUp), PressAndDrag(x), true);
                 g.trackball.nowVec != Neg(g.trackball.front)
  {
    var g0 := InitialGlobals(t, cameraFront, cameraUp);
    var tb := RefreshScreenCoord(g0.trackball, g0.mousePosX, g0.mousePosY);
    assert Norm2(tb.nowVec) == 1.0 by {
      NormalizeUnit(t, cameraFront);
      Norm2Neg(g0.trackball.front);
    }
    var x := DragTarget(tb.nowVec);
    var g3 := DraggedTo(t, g0, x);
    DraggedState(t, g0, x);
    var g4 := ApplyTrackball(t, g3);
    PressAndDragRuns(t, g0, x);
    assert g4.trackball == GetRotation(t, tb, x, ScreenHeight).0;
    DragLeavesDeadZone(t, tb);
    assert g4.trackball.front == tb.front;
  }
}
