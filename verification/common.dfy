/**
  The input plumbing shared by the camera exercises, reduced to pure steps:
  the cursor tracker that turns absolute pointer positions into offsets, the
  handling of cursor and scroll events, and the mapping from pressed movement
  keys to camera movements.
 */
module Common {
  import opened Vectors
  import opened Camera

  /** Where the pointer was last seen, and whether no position has been seen yet. */
  datatype CursorTracker = CursorTracker(firstMouse: bool, lastX: real, lastY: real)

  /** A tracker step: the updated tracker and the offsets to turn the camera by. */
  datatype CursorStep = CursorStep(tracker: CursorTracker, xoffset: real, yoffset: real)

  /**
    Turns a pointer position into offsets from the previous one, with the
    vertical axis reversed because window coordinates grow downwards. The
    first position only sets the reference point.
   */
  function TrackCursor(t: CursorTracker, xpos: real, ypos: real): (r: CursorStep)
    ensures !r.tracker.firstMouse
    ensures r.tracker.lastX == xpos && r.tracker.lastY == ypos
    ensures t.firstMouse ==> r.xoffset == 0.0 && r.yoffset == 0.0
    ensures !t.firstMouse ==> r.xoffset == xpos - t.lastX && r.yoffset == t.lastY - ypos
  {
    var t := if t.firstMouse then CursorTracker(false, xpos, ypos) else t;
    var xoffset := xpos - t.lastX;
    var yoffset := t.lastY - ypos;
    CursorStep(CursorTracker(t.firstMouse, xpos, ypos), xoffset, yoffset)
  }

  /** The offsets a sequence of positions produces, summed, and the tracker left behind. */
  datatype Totals = Totals(tracker: CursorTracker, sumX: real, sumY: real)

  function TrackAll(t: CursorTracker, xs: seq<real>, ys: seq<real>): Totals
    requires |xs| == |ys|
    decreases |xs|
  {
    if |xs| == 0 then Totals(t, 0.0, 0.0)
    else
      var step := TrackCursor(t, xs[0], ys[0]);
      var rest := TrackAll(step.tracker, xs[1..], ys[1..]);
      Totals(rest.tracker, step.xoffset + rest.sumX, step.yoffset + rest.sumY)
  }

  /**
    The offsets telescope: over a run of positions the horizontal offsets add
    up to the last x minus the reference x, and the vertical ones to the
    reference y minus the last y. The reference is the tracker's last
    position, or the first position when none had been seen.
   */
  lemma {:induction false} OffsetsTelescope(t: CursorTracker, xs: seq<real>, ys: seq<real>)
    requires |xs| == |ys| >= 1
    ensures var startX := if t.firstMouse then xs[0] else t.lastX;
      TrackAll(t, xs, ys).sumX == xs[|xs| - 1] - startX
    ensures var startY := if t.firstMouse then ys[0] else t.lastY;
      TrackAll(t, xs, ys).sumY == startY - ys[|ys| - 1]
    ensures TrackAll(t, xs, ys).tracker == CursorTracker(false, xs[|xs| - 1], ys[|ys| - 1])
    decreases |xs|
  {
    var step := TrackCursor(t, xs[0], ys[0]);
    if |xs| > 1 {
      OffsetsTelescope(step.tracker, xs[1..], ys[1..]);
    }
  }

  /** The window events the camera exercises react to; every other event is ignored here. */
  datatype Event =
    | CursorPos(x: real, y: real)
    | Scroll(xoffset: real, yoffset: real)
    | FramebufferSize(width: int, height: int)
    | Other

  datatype EventState = EventState(tracker: CursorTracker, camera: Camera)

  /**
    One event: a cursor position turns the camera by the tracked offsets with
    the pitch constrained, a scroll zooms by its vertical offset only, and the
    remaining events leave tracker and camera as they are.
   */
  function ProcessEvent(st: EventState, e: Event, basis: BasisFn): (r: EventState)
    ensures !e.CursorPos? ==> r.tracker == st.tracker
    ensures e.CursorPos? ==> r.tracker == CursorTracker(false, e.x, e.y)
    ensures e.CursorPos? ==> -89.0 <= r.camera.pitch <= 89.0
    ensures e.CursorPos? ==> var step := TrackCursor(st.tracker, e.x, e.y);
      r.camera == ProcessMouseMovement(st.camera, step.xoffset, step.yoffset, true, basis)
    ensures e.CursorPos? && st.tracker.firstMouse ==> r.camera == ProcessMouseMovement(st.camera, 0.0, 0.0, true, basis)
    ensures e.Scroll? ==> r.camera == ProcessMouseScroll(st.camera, e.yoffset)
    ensures e.FramebufferSize? || e.Other? ==> r == st
  {
    match e
    case CursorPos(x, y) =>
      var step := TrackCursor(st.tracker, x, y);
      EventState(step.tracker, ProcessMouseMovement(st.camera, step.xoffset, step.yoffset, true, basis))
    case Scroll(_, yoffset) =>
      st.(camera := ProcessMouseScroll(st.camera, yoffset))
    case FramebufferSize(_, _) => st
    case Other => st
  }

  /**
    The events of one poll, handled in order. Without cursor events the
    tracker is untouched, and a poll of only resize and other events changes
    nothing at all.
   */
  function ProcessEvents(st: EventState, es: seq<Event>, basis: BasisFn): (r: EventState)
    ensures (forall i :: 0 <= i < |es| ==> !es[i].CursorPos?) ==> r.tracker == st.tracker
    ensures (forall i :: 0 <= i < |es| ==> es[i].FramebufferSize? || es[i].Other?) ==> r == st
    decreases |es|
  {
    if |es| == 0 then st else ProcessEvents(ProcessEvent(st, es[0], basis), es[1..], basis)
  }

  /** Handling two runs of events one after the other is handling their concatenation. */
  lemma {:induction false} ProcessEventsAppend(st: EventState, a: seq<Event>, b: seq<Event>, basis: BasisFn)
    ensures ProcessEvents(st, a + b, basis) == ProcessEvents(ProcessEvents(st, a, basis), b, basis)
    decreases |a|
  {
    if |a| == 0 {
      assert a + b == b;
    } else {
      assert (a + b)[0] == a[0];
      assert (a + b)[1..] == a[1..] + b;
      ProcessEventsAppend(ProcessEvent(st, a[0], basis), a[1..], b, basis);
    }
  }

  /** The events a run of pointer positions produces. */
  function CursorEvents(xs: seq<real>, ys: seq<real>): (es: seq<Event>)
    requires |xs| == |ys|
    ensures |es| == |xs|
    ensures forall i :: 0 <= i < |es| ==> es[i] == CursorPos(xs[i], ys[i])
  {
    seq(|xs|, i requires 0 <= i < |xs| => CursorPos(xs[i], ys[i]))
  }

  /** Handling pointer events moves the tracker exactly as tracking the positions does. */
  lemma {:induction false} CursorEventsTrack(st: EventState, xs: seq<real>, ys: seq<real>, basis: BasisFn)
    requires |xs| == |ys|
    ensures ProcessEvents(st, CursorEvents(xs, ys), basis).tracker == TrackAll(st.tracker, xs, ys).tracker
    decreases |xs|
  {
    if |xs| > 0 {
      var es := CursorEvents(xs, ys);
      assert es[1..] == CursorEvents(xs[1..], ys[1..]);
      CursorEventsTrack(ProcessEvent(st, es[0], basis), xs[1..], ys[1..], basis);
    }
  }

  /** A scroll's horizontal offset has no effect. */
  lemma ScrollIgnoresHorizontal(st: EventState, a: real, b: real, yoffset: real, basis: BasisFn)
    ensures ProcessEvent(st, Scroll(a, yoffset), basis) == ProcessEvent(st, Scroll(b, yoffset), basis)
  {
  }

  /** Once a position has been seen the tracker never snaps again, and any cursor event ends the snapping. */
  lemma {:induction false} FirstMouseNeverReturns(st: EventState, es: seq<Event>, basis: BasisFn)
    ensures !st.tracker.firstMouse ==> !ProcessEvents(st, es, basis).tracker.firstMouse
    ensures (exists i :: 0 <= i < |es| && es[i].CursorPos?) ==> !ProcessEvents(st, es, basis).tracker.firstMouse
    decreases |es|
  {
    if |es| > 0 {
      var next := ProcessEvent(st, es[0], basis);
      FirstMouseNeverReturns(next, es[1..], basis);
      if exists i :: 0 <= i < |es| && es[i].CursorPos? {
        var i :| 0 <= i < |es| && es[i].CursorPos?;
        if i > 0 {
          assert es[1..][i - 1].CursorPos?;
        }
      }
    }
  }

  /** One event keeps the pitch within [-89, 89] and keeps a valid camera valid. */
  lemma EventKeepsCameraBounded(st: EventState, e: Event, basis: BasisFn)
    ensures -89.0 <= st.camera.pitch <= 89.0 ==> -89.0 <= ProcessEvent(st, e, basis).camera.pitch <= 89.0
    ensures Valid(st.camera, basis) ==> Valid(ProcessEvent(st, e, basis).camera, basis)
  {
    match e
    case CursorPos(x, y) =>
      var step := TrackCursor(st.tracker, x, y);
      OperationsKeepValid(st.camera, basis, Forward, 0.0, step.xoffset, step.yoffset, true, 0.0);
    case Scroll(_, yoffset) =>
      OperationsKeepValid(st.camera, basis, Forward, 0.0, 0.0, 0.0, true, yoffset);
    case FramebufferSize(_, _) =>
    case Other =>
  }

  /**
    Along the event path the pitch, once within [-89, 89], stays there, and
    a valid camera stays valid.
   */
  lemma {:induction false} EventsKeepCameraBounded(st: EventState, es: seq<Event>, basis: BasisFn)
    ensures -89.0 <= st.camera.pitch <= 89.0 ==> -89.0 <= ProcessEvents(st, es, basis).camera.pitch <= 89.0
    ensures Valid(st.camera, basis) ==> Valid(ProcessEvents(st, es, basis).camera, basis)
    decreases |es|
  {
    if |es| > 0 {
      EventKeepsCameraBounded(st, es[0], basis);
      EventsKeepCameraBounded(ProcessEvent(st, es[0], basis), es[1..], basis);
    }
  }

  /** The movement keys polled each frame. */
  datatype Key = W | S | A | D

  /** The key that drives each movement. */
  function KeyFor(m: CameraMovement): Key {
    match m
    case Forward => W
    case Backward => S
    case Left => A
    case Right => D
  }

  /** Position of a movement's key in the polling order W, S, A, D. */
  function Rank(m: CameraMovement): nat {
    match m
    case Forward => 0
    case Backward => 1
    case Left => 2
    case Right => 3
  }

  /**
    The keyboard movements one poll issues: one per pressed key, W forward, S
    backward, A left, D right, in that order.
   */
  function KeyMovements(pressed: set<Key>): (ms: seq<CameraMovement>)
    ensures forall m :: m in ms <==> KeyFor(m) in pressed
    ensures forall i, j :: 0 <= i < j < |ms| ==> Rank(ms[i]) < Rank(ms[j])
  {
    (if W in pressed then [Forward] else [])
    + (if S in pressed then [Backward] else [])
    + (if A in pressed then [Left] else [])
    + (if D in pressed then [Right] else [])
  }

  function ApplyMovements(cam: Camera, ms: seq<CameraMovement>, deltaTime: real): Camera
    decreases |ms|
  {
    if |ms| == 0 then cam else ApplyMovements(ProcessKeyboard(cam, ms[0], deltaTime), ms[1..], deltaTime)
  }

  /**
    The keyboard part of a frame: each pressed movement key moves the camera
    for `deltaTime`, so the camera moves by the summed steps of the pressed
    keys and nothing else changes.
   */
  function ProcessInput(cam: Camera, pressed: set<Key>, deltaTime: real): (r: Camera)
    ensures r == cam.(position := Add(cam.position,
      Displacement(cam.front, cam.right, cam.movementSpeed * deltaTime, KeyMovements(pressed))))
  {
    MovementsAreDisplacement(cam, KeyMovements(pressed), deltaTime);
    ApplyMovements(cam, KeyMovements(pressed), deltaTime)
  }

  /** The summed steps of a run of movements. */
  function Displacement(front: Vec3, right: Vec3, velocity: real, ms: seq<CameraMovement>): Vec3
    decreases |ms|
  {
    if |ms| == 0 then Zero
    else Add(Step(front, right, velocity, ms[0]), Displacement(front, right, velocity, ms[1..]))
  }

  /**
    A run of keyboard movements moves the camera by the sum of its steps and
    changes nothing else; in particular the order of the steps is immaterial.
   */
  lemma {:induction false} MovementsAreDisplacement(cam: Camera, ms: seq<CameraMovement>, deltaTime: real)
    ensures ApplyMovements(cam, ms, deltaTime)
      == cam.(position := Add(cam.position, Displacement(cam.front, cam.right, cam.movementSpeed * deltaTime, ms)))
    decreases |ms|
  {
    if |ms| > 0 {
      var next := ProcessKeyboard(cam, ms[0], deltaTime);
      MovementsAreDisplacement(next, ms[1..], deltaTime);
      KeyboardIsStep(cam, ms[0], deltaTime);
      var v := cam.movementSpeed * deltaTime;
      var step := Step(cam.front, cam.right, v, ms[0]);
      var rest := Displacement(cam.front, cam.right, v, ms[1..]);
      assert ApplyMovements(cam, ms, deltaTime) == ApplyMovements(next, ms[1..], deltaTime);
      assert next.front == cam.front && next.right == cam.right && next.movementSpeed == cam.movementSpeed;
      AddAssociates(cam.position, step, rest);
      assert Displacement(cam.front, cam.right, v, ms) == Add(step, rest);
      assert next.movementSpeed * deltaTime == v;
      assert Displacement(next.front, next.right, next.movementSpeed * deltaTime, ms[1..]) == rest;
      assert ApplyMovements(next, ms[1..], deltaTime) == next.(position := Add(next.position, rest));
      assert next.position == Add(cam.position, step);
      var target := Add(cam.position, Add(step, rest));
      assert next.(position := target) == cam.(position := target);
    } else {
      ScaleZero(cam.front, cam.position);
    }
  }

  /** Holding opposite keys together leaves the camera where it was. */
  lemma OpposingKeysCancel(cam: Camera, deltaTime: real)
    ensures ProcessInput(cam, {W, S}, deltaTime) == cam
    ensures ProcessInput(cam, {A, D}, deltaTime) == cam
    ensures ProcessInput(cam, {W, S, A, D}, deltaTime) == cam
  {
    FrontKeysCancel(cam, deltaTime);
    SideKeysCancel(cam, deltaTime);
    AllKeysCancel(cam, deltaTime);
  }

  lemma FrontKeysCancel(cam: Camera, deltaTime: real)
    ensures ProcessInput(cam, {W, S}, deltaTime) == cam
  {
    assert KeyMovements({W, S}) == [Forward, Backward];
    assert [Forward, Backward][1..] == [Backward];
    MovementsAreDisplacement(cam, [Forward, Backward], deltaTime);
  }

  lemma SideKeysCancel(cam: Camera, deltaTime: real)
    ensures ProcessInput(cam, {A, D}, deltaTime) == cam
  {
    assert KeyMovements({A, D}) == [Left, Right];
    assert [Left, Right][1..] == [Right];
    MovementsAreDisplacement(cam, [Left, Right], deltaTime);
  }

  lemma AllKeysCancel(cam: Camera, deltaTime: real)
    ensures ProcessInput(cam, {W, S, A, D}, deltaTime) == cam
  {
    assert KeyMovements({W, S, A, D}) == [Forward, Backward, Left, Right];
    assert [Forward, Backward, Left, Right][1..][1..] == [Left, Right];
    assert [Left, Right][1..] == [Right];
    MovementsAreDisplacement(cam, [Forward, Backward, Left, Right], deltaTime);
  }

}
