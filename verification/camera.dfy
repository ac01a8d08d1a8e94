/**
  The fly camera: a position, an orientation given by yaw and pitch in
  degrees, the basis vectors derived from that orientation, and tuning
  scalars. Keyboard input moves the position along the basis, pointer
  motion turns the camera, and the scroll wheel changes the field of view.

  Single-precision scalars are modelled as reals. The trigonometric basis
  recomputation and the look-at matrix construction are not modelled: they
  are passed in as functions, so every statement below holds whatever they
  compute.
 */
module Camera {
  import opened Vectors

  /** The direction of a keyboard movement. */
  datatype CameraMovement = Forward | Backward | Left | Right

  // Default camera values.
  const DefaultYaw: real := -90.0
  const DefaultPitch: real := 0.0
  const DefaultSpeed: real := 2.5
  const DefaultSensitivity: real := 0.1
  const DefaultZoom: real := 45.0

  // Bounds the camera keeps its angles within.
  const MaxPitch: real := 89.0
  const MinZoom: real := 1.0
  const MaxZoom: real := 45.0

  /** The camera's local basis: where it looks, its right and its up. */
  datatype Frame = Frame(front: Vec3, right: Vec3, up: Vec3)

  /**
    The basis recomputation as a function of yaw, pitch and the world's up
    vector; it stands for the trigonometry and normalisation that derive the
    basis from the angles.
   */
  type BasisFn = (real, real, Vec3) -> Frame

  datatype Camera = Camera(
    position: Vec3,
    front: Vec3,
    up: Vec3,
    right: Vec3,
    worldUp: Vec3,
    yaw: real,
    pitch: real,
    movementSpeed: real,
    mouseSensitivity: real,
    zoom: real)

  /** The basis vectors are the ones derived from the current yaw and pitch. */
  predicate BasisMatches(cam: Camera, basis: BasisFn) {
    Frame(cam.front, cam.right, cam.up) == basis(cam.yaw, cam.pitch, cam.worldUp)
  }

  /** Recomputes front, right and up together from yaw and pitch; nothing else changes. */
  function UpdateCameraVectors(cam: Camera, basis: BasisFn): (r: Camera)
    ensures BasisMatches(r, basis)
    ensures r.(front := cam.front, right := cam.right, up := cam.up) == cam
  {
    var f := basis(cam.yaw, cam.pitch, cam.worldUp);
    cam.(front := f.front, right := f.right, up := f.up)
  }

  /** The default camera: at the origin, looking along the default angles. */
  function Default(basis: BasisFn): (r: Camera)
    ensures r.position == Zero
    ensures r.yaw == -90.0 && r.pitch == 0.0
    ensures r.movementSpeed == 2.5 && r.mouseSensitivity == 0.1 && r.zoom == 45.0
    ensures r.worldUp == Vec3(0.0, 1.0, 0.0)
    ensures BasisMatches(r, basis)
  {
    var cam := Camera(
      position := Zero,
      front := Vec3(0.0, 0.0, -1.0),
      up := Zero,
      right := Zero,
      worldUp := UnitY,
      yaw := DefaultYaw,
      pitch := DefaultPitch,
      movementSpeed := DefaultSpeed,
      mouseSensitivity := DefaultSensitivity,
      zoom := DefaultZoom);
    UpdateCameraVectors(cam, basis)
  }

  /** A camera at `pt` with every other field at its default. */
  function New(pt: Vec3, basis: BasisFn): (r: Camera)
    ensures r.position == pt
    ensures r.yaw == -90.0 && r.pitch == 0.0
    ensures r.movementSpeed == 2.5 && r.mouseSensitivity == 0.1 && r.zoom == 45.0
    ensures r.worldUp == Vec3(0.0, 1.0, 0.0)
    ensures BasisMatches(r, basis)
  {
    Default(basis).(position := pt)
  }

  function GetZoom(cam: Camera): real {
    cam.zoom
  }

  /** The view matrix looks from the position towards position + front, with the camera's up. */
  function GetViewMatrix<M>(cam: Camera, lookAtRh: (Vec3, Vec3, Vec3) -> M): M {
    lookAtRh(cam.position, Add(cam.position, cam.front), cam.up)
  }

  /**
    The step one movement takes, given the camera's front and right vectors
    and its velocity: along front for forward (+) and backward (-), along
    right for right (+) and left (-).
   */
  function Step(front: Vec3, right: Vec3, velocity: real, m: CameraMovement): Vec3 {
    match m
    case Forward => Scale(front, velocity)
    case Backward => Scale(front, -velocity)
    case Left => Scale(right, -velocity)
    case Right => Scale(right, velocity)
  }

  /**
    Moves the camera by `speed * deltaTime` along its front (forward and
    backward) or its right (right and left) vector. Only the position changes.
   */
  function ProcessKeyboard(cam: Camera, direction: CameraMovement, deltaTime: real): (r: Camera)
    ensures r.(position := cam.position) == cam
    ensures Sub(r.position, cam.position) == Step(cam.front, cam.right, cam.movementSpeed * deltaTime, direction)
  {
    var velocity := cam.movementSpeed * deltaTime;
    match direction
    case Forward => cam.(position := Add(cam.position, Scale(cam.front, velocity)))
    case Backward => cam.(position := Sub(cam.position, Scale(cam.front, velocity)))
    case Left => cam.(position := Sub(cam.position, Scale(cam.right, velocity)))
    case Right => cam.(position := Add(cam.position, Scale(cam.right, velocity)))
  }

  /** The opposite movement: backward for forward, left for right, and so on. */
  function Opposite(direction: CameraMovement): CameraMovement {
    match direction
    case Forward => Backward
    case Backward => Forward
    case Left => Right
    case Right => Left
  }

  /** A movement followed by its opposite over the same time restores the camera exactly. */
  lemma OppositeMovesCancel(cam: Camera, direction: CameraMovement, deltaTime: real)
    ensures ProcessKeyboard(ProcessKeyboard(cam, direction, deltaTime), Opposite(direction), deltaTime) == cam
  {
    var v := cam.movementSpeed * deltaTime;
    var along := Step(cam.front, cam.right, v, direction);
    var back := Step(cam.front, cam.right, v, Opposite(direction));
    var once := ProcessKeyboard(cam, direction, deltaTime);
    var twice := ProcessKeyboard(once, Opposite(direction), deltaTime);
    KeyboardIsStep(cam, direction, deltaTime);
    KeyboardIsStep(once, Opposite(direction), deltaTime);
    assert once.front == cam.front && once.right == cam.right;
    assert once.movementSpeed * deltaTime == v;
    assert twice == once.(position := Add(once.position, back));
    StepsCancel(cam.front, cam.right, v, direction);
    AddAssociates(cam.position, along, back);
    ScaleZero(cam.front, cam.position);
  }

  /** A keyboard movement adds its step to the position and changes nothing else. */
  lemma KeyboardIsStep(cam: Camera, m: CameraMovement, deltaTime: real)
    ensures ProcessKeyboard(cam, m, deltaTime)
      == cam.(position := Add(cam.position, Step(cam.front, cam.right, cam.movementSpeed * deltaTime, m)))
  {
    var v := cam.movementSpeed * deltaTime;
    var r := ProcessKeyboard(cam, m, deltaTime);
    var p := cam.position;
    match m
    case Forward =>
      assert r.position == Add(p, Scale(cam.front, v));
    case Backward =>
      assert r.position == Sub(p, Scale(cam.front, v));
      SubIsAddNegated(p, cam.front, v);
    case Left =>
      assert r.position == Sub(p, Scale(cam.right, v));
      SubIsAddNegated(p, cam.right, v);
    case Right =>
      assert r.position == Add(p, Scale(cam.right, v));
  }

  /** The steps of a movement and of its opposite sum to nothing. */
  lemma StepsCancel(front: Vec3, right: Vec3, velocity: real, direction: CameraMovement)
    ensures Add(Step(front, right, velocity, direction), Step(front, right, velocity, Opposite(direction))) == Zero
  {
  }

  /** No time elapsed, no movement. */
  lemma KeyboardZeroTime(cam: Camera, direction: CameraMovement)
    ensures ProcessKeyboard(cam, direction, 0.0) == cam
  {
    ScaleZero(cam.front, cam.position);
    ScaleZero(cam.right, cam.position);
  }

  /**
    From (0, 0, 3) with the default orientation looking down -z, one second
    forward at the default speed reaches (0, 0, 0.5).
   */
  lemma ForwardOneSecond(basis: BasisFn)
    requires basis(-90.0, 0.0, UnitY).front == Vec3(0.0, 0.0, -1.0)
    ensures ProcessKeyboard(New(Vec3(0.0, 0.0, 3.0), basis), Forward, 1.0).position == Vec3(0.0, 0.0, 0.5)
  {
  }

  /** Truncation towards zero of a real. */
  function Trunc(x: real): (t: int)
    ensures 0.0 <= x ==> 0.0 <= t as real <= x < t as real + 1.0
    ensures x < 0.0 ==> t as real - 1.0 < x <= t as real <= 0.0
  {
    if x >= 0.0 then x.Floor else -((-x).Floor)
  }

  /**
    Rust's `%` on floats by 360: the remainder of truncated division, which
    keeps the sign of the dividend. The result differs from `v` by a whole
    number of turns and lies strictly between -360 and 360.
   */
  function Rem360(v: real): (r: real)
    ensures -360.0 < r < 360.0
    ensures v >= 0.0 ==> r >= 0.0
    ensures v <= 0.0 ==> r <= 0.0
    ensures (v - r) / 360.0 == ((v - r) / 360.0).Floor as real
    ensures -360.0 < v < 360.0 ==> r == v
  {
    var t := Trunc(v / 360.0);
    var r := v - t as real * 360.0;
    assert (v - r) / 360.0 == t as real;
    r
  }

  /**
    Turns the camera by pointer offsets scaled by the sensitivity: yaw wraps
    with Rust's `%` by 360, pitch is optionally clamped to [-89, 89], and the
    basis is recomputed from the new angles. Position, zoom, speed,
    sensitivity and world up are left alone.
   */
  function ProcessMouseMovement(cam: Camera, xoffset: real, yoffset: real, constrainPitch: bool, basis: BasisFn): (r: Camera)
    ensures r.position == cam.position && r.zoom == cam.zoom && r.worldUp == cam.worldUp
    ensures r.movementSpeed == cam.movementSpeed && r.mouseSensitivity == cam.mouseSensitivity
    ensures r.yaw == Rem360(cam.yaw + xoffset * cam.mouseSensitivity)
    ensures -360.0 < r.yaw < 360.0
    ensures !constrainPitch ==> r.pitch == cam.pitch + yoffset * cam.mouseSensitivity
    ensures constrainPitch ==> -89.0 <= r.pitch <= 89.0
    ensures constrainPitch && -89.0 <= cam.pitch + yoffset * cam.mouseSensitivity <= 89.0 ==>
      r.pitch == cam.pitch + yoffset * cam.mouseSensitivity
    ensures constrainPitch && cam.pitch + yoffset * cam.mouseSensitivity > 89.0 ==> r.pitch == 89.0
    ensures constrainPitch && cam.pitch + yoffset * cam.mouseSensitivity < -89.0 ==> r.pitch == -89.0
    ensures BasisMatches(r, basis)
  {
    var dx := xoffset * cam.mouseSensitivity;
    var dy := yoffset * cam.mouseSensitivity;
    var yaw := Rem360(cam.yaw + dx);
    var pitch := cam.pitch + dy;
    var pitch := if constrainPitch then Max(Min(pitch, MaxPitch), -MaxPitch) else pitch;
    UpdateCameraVectors(cam.(yaw := yaw, pitch := pitch), basis)
  }

  function Min(a: real, b: real): real {
    if a <= b then a else b
  }

  function Max(a: real, b: real): real {
    if a >= b then a else b
  }

  /**
    Narrows the field of view by the vertical scroll offset, keeping it
    within [1, 45]. Only the zoom changes.
   */
  function ProcessMouseScroll(cam: Camera, yoffset: real): (r: Camera)
    ensures r.(zoom := cam.zoom) == cam
    ensures 1.0 <= r.zoom <= 45.0
    ensures 1.0 <= cam.zoom - yoffset <= 45.0 ==> r.zoom == cam.zoom - yoffset
    ensures cam.zoom - yoffset < 1.0 ==> r.zoom == 1.0
    ensures cam.zoom - yoffset > 45.0 ==> r.zoom == 45.0
  {
    var zoom := cam.zoom - yoffset;
    var zoom := Max(zoom, MinZoom);
    var zoom := Min(zoom, MaxZoom);
    cam.(zoom := zoom)
  }

  /** Scrolling by nothing from a zoom already in range changes nothing. */
  lemma ScrollZeroIsNoOp(cam: Camera)
    requires 1.0 <= cam.zoom <= 45.0
    ensures ProcessMouseScroll(cam, 0.0) == cam
  {
  }

  /** At either bound, scrolling further outward leaves the zoom at that bound. */
  lemma ScrollSticksAtBounds(cam: Camera, yoffset: real)
    ensures cam.zoom == 1.0 && yoffset >= 0.0 ==> ProcessMouseScroll(cam, yoffset) == cam
    ensures cam.zoom == 45.0 && yoffset <= 0.0 ==> ProcessMouseScroll(cam, yoffset) == cam
  {
  }

  /**
    What the camera keeps true from construction on, whatever its inputs:
    the basis belongs to the angles, yaw stays within one turn either way,
    the zoom within [1, 45], and the world up vector is fixed.
   */
  predicate Valid(cam: Camera, basis: BasisFn) {
    && BasisMatches(cam, basis)
    && -360.0 < cam.yaw < 360.0
    && 1.0 <= cam.zoom <= 45.0
    && cam.worldUp == UnitY
  }

  /** A new camera is valid, and so is the camera after any operation on a valid one. */
  lemma OperationsKeepValid(cam: Camera, basis: BasisFn, direction: CameraMovement, deltaTime: real,
                            xoffset: real, yoffset: real, constrainPitch: bool, scroll: real)
    ensures Valid(New(cam.position, basis), basis)
    ensures Valid(cam, basis) ==> Valid(ProcessKeyboard(cam, direction, deltaTime), basis)
    ensures Valid(cam, basis) ==> Valid(ProcessMouseMovement(cam, xoffset, yoffset, constrainPitch, basis), basis)
    ensures Valid(cam, basis) ==> Valid(ProcessMouseScroll(cam, scroll), basis)
  {
  }

  /** The zoom a valid camera reports is a usable field of view in [1, 45] degrees. */
  lemma GetZoomInRange(cam: Camera, basis: BasisFn)
    requires Valid(cam, basis)
    ensures 1.0 <= GetZoom(cam) <= 45.0
  {
  }

  /**
    A pointer event without motion, with the pitch constrained, leaves a
    valid camera whose pitch is within the clamp exactly as it was.
   */
  lemma StillPointerIsNoOp(cam: Camera, basis: BasisFn)
    requires Valid(cam, basis) && -89.0 <= cam.pitch <= 89.0
    ensures ProcessMouseMovement(cam, 0.0, 0.0, true, basis) == cam
  {
  }

  /**
    Yaw is not brought into [0, 360): from the default -90, turning by
    -3000 units at the default sensitivity gives -390, which wraps to -30.
   */
  lemma YawKeepsSign(basis: BasisFn)
    ensures ProcessMouseMovement(New(Zero, basis), -3000.0, 0.0, true, basis).yaw == -30.0
  {
    assert Trunc(-390.0 / 360.0) == -1;
  }

  /** Without the constraint, pitch leaves [-89, 89]: 1000 units up reach 100 degrees. */
  lemma UnconstrainedPitchEscapes(basis: BasisFn)
    ensures ProcessMouseMovement(New(Zero, basis), 0.0, 1000.0, false, basis).pitch == 100.0
  {
  }

  /** Only position, front and up enter the view matrix, so scrolling never changes it. */
  lemma ViewMatrixIgnoresZoom<M>(cam: Camera, yoffset: real, lookAtRh: (Vec3, Vec3, Vec3) -> M)
    ensures GetViewMatrix(ProcessMouseScroll(cam, yoffset), lookAtRh) == GetViewMatrix(cam, lookAtRh)
  {
  }
}
