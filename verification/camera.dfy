/** The state surface of `nvh::CameraManipulator`: the camera pose value, the
    mode/speed/duration/window fields with their setters and getters, the
    animation flag, the matrix derived from the current pose, and the gesture
    table documented at the head of the class. The orbit/pan/dolly geometry and
    the Bezier animation live in the implementation file, which is not part of
    this model. */
module CameraManip {
  import opened Common

  datatype Mode = Examine | Fly | Walk

  datatype Action = NoAction | Orbit | Dolly | Pan | LookAround

  /** Mouse buttons and keyboard modifiers, all false by default. */
  datatype Inputs = Inputs(lmb: bool, mmb: bool, rmb: bool, shift: bool, ctrl: bool, alt: bool)

  const NoInputs: Inputs := Inputs(false, false, false, false, false, false)

  /** A camera pose: eye position, point of interest, up vector and vertical
      field of view in degrees. */
  datatype Camera = Camera(eye: Vec3, ctr: Vec3, up: Vec3, fov: real)

  /** The member initialisers of `Camera`. */
  const DefaultCamera: Camera := Camera(Vec3(10.0, 10.0, 10.0), Vec3(0.0, 0.0, 0.0), Vec3(0.0, 1.0, 0.0), 60.0)

  /** `vec3f ==`: component-wise exact comparison. */
  predicate SameVec(a: Vec3, b: Vec3) {
    a.x == b.x && a.y == b.y && a.z == b.z
  }

  /** `vec3f !=`. */
  predicate OtherVec(a: Vec3, b: Vec3) {
    a.x != b.x || a.y != b.y || a.z != b.z
  }

  /** `Camera::operator==`: exact equality of every component, no tolerance. */
  function Equal(a: Camera, b: Camera): (r: bool)
    ensures r <==> a == b
  {
    SameVec(a.eye, b.eye) && SameVec(a.ctr, b.ctr) && SameVec(a.up, b.up) && a.fov == b.fov
  }

  /** `Camera::operator!=`, written in the source as its own disjunction; it is
      exactly the negation of `==`. */
  function NotEqual(a: Camera, b: Camera): (r: bool)
    ensures r <==> !Equal(a, b)
    ensures r <==> a != b
  {
    OtherVec(a.eye, b.eye) || OtherVec(a.ctr, b.ctr) || OtherVec(a.up, b.up) || a.fov != b.fov
  }

  /** The documented gesture table: which action a combination of buttons and
      modifiers selects. Combinations the table does not list follow the
      precedence LookAround, Pan, Dolly, Orbit on the left button, then the
      middle and the right button. */
  function DocumentedAction(i: Inputs): (a: Action)
    ensures a == NoAction <==> !(i.lmb || i.mmb || i.rmb)
    ensures i == NoInputs.(lmb := true) ==> a == Orbit
    ensures i == NoInputs.(lmb := true, ctrl := true) || i == NoInputs.(mmb := true) ==> a == Pan
    ensures i == NoInputs.(lmb := true, shift := true) || i == NoInputs.(rmb := true) ==> a == Dolly
    ensures (i == NoInputs.(lmb := true, alt := true) || i == NoInputs.(lmb := true, ctrl := true, shift := true))
      ==> a == LookAround
  {
    if i.lmb then
      if i.alt || (i.ctrl && i.shift) then LookAround
      else if i.ctrl then Pan
      else if i.shift then Dolly
      else Orbit
    else if i.mmb then Pan
    else if i.rmb then Dolly
    else NoAction
  }

  /** The manipulator. `lookAt` stands for `nvmath::look_at`, whose definition
      is not part of this model; it is fixed when the manipulator is made. */
  class CameraManipulator {
    const lookAt: (Vec3, Vec3, Vec3) -> Mat4

    var matrix: Mat4
    var current: Camera
    var goal: Camera
    var snapshot: Camera

    var startTime: real
    var duration: real
    var animDone: bool

    var width: int
    var height: int

    var speed: real
    var mode: Mode

    /** When no animation runs, the pose shown, the pose aimed at and the pose
        the last animation started from coincide. */
    ghost predicate Valid()
      reads this
    {
      animDone ==> current == goal == snapshot
    }

    /** The member initialisers of the class. */
    constructor(lookAt: (Vec3, Vec3, Vec3) -> Mat4)
      ensures Valid()
      ensures this.lookAt == lookAt
      ensures matrix == Identity
      ensures current == DefaultCamera && goal == DefaultCamera && snapshot == DefaultCamera
      ensures startTime == 0.0 && duration == 0.5 && animDone && !IsAnimated()
      ensures width == 1 && height == 1
      ensures speed == 3.0 && mode == Examine
    {
      this.lookAt := lookAt;
      matrix := Identity;
      current, goal, snapshot := DefaultCamera, DefaultCamera, DefaultCamera;
      startTime, duration, animDone := 0.0, 0.5, true;
      width, height := 1, 1;
      speed, mode := 3.0, Examine;
    }

    function GetMode(): Mode
      reads this
    {
      mode
    }

    method SetMode(m: Mode)
      modifies this`mode
      ensures GetMode() == m
    {
      mode := m;
    }

    function GetSpeed(): real
      reads this
    {
      speed
    }

    method SetSpeed(s: real)
      modifies this`speed
      ensures GetSpeed() == s
    {
      speed := s;
    }

    function GetAnimationDuration(): real
      reads this
    {
      duration
    }

    method SetAnimationDuration(d: real)
      modifies this`duration
      ensures GetAnimationDuration() == d
    {
      duration := d;
    }

    function IsAnimated(): bool
      reads this
    {
      animDone == false
    }

    function GetWidth(): int
      reads this
    {
      width
    }

    function GetHeight(): int
      reads this
    {
      height
    }

    method SetWindowSize(w: int, h: int)
      modifies this`width, this`height
      ensures GetWidth() == w && GetHeight() == h
    {
      width, height := w, h;
    }

    function GetCamera(): Camera
      reads this
    {
      current
    }

    function GetFov(): real
      reads this
    {
      current.fov
    }

    function GetMatrix(): Mat4
      reads this
    {
      matrix
    }

    /** `getLookat`: eye, center and up of the current pose. */
    function GetLookat(): (Vec3, Vec3, Vec3)
      reads this
    {
      (current.eye, current.ctr, current.up)
    }

    /** `update()`: the matrix is recomputed from the current pose. */
    method Update()
      modifies this`matrix
      ensures GetMatrix() == lookAt(current.eye, current.ctr, current.up)
    {
      matrix := lookAt(current.eye, current.ctr, current.up);
    }

    /** `setCamera`. With `instantSet` the pose is applied at once and any running
        animation is cancelled; otherwise it becomes the goal of an animation
        starting at time `now` from the current pose. */
    method SetCamera(camera: Camera, instantSet: bool, now: real)
      requires Valid()
      modifies this`matrix, this`current, this`goal, this`snapshot, this`startTime, this`animDone
      ensures Valid()
      ensures instantSet ==> GetCamera() == camera && goal == camera && snapshot == camera
      ensures instantSet ==> !IsAnimated() && GetMatrix() == lookAt(camera.eye, camera.ctr, camera.up)
      ensures !instantSet ==> IsAnimated() && goal == camera && snapshot == old(current) && startTime == now
      ensures !instantSet ==> GetCamera() == old(current) && GetMatrix() == old(matrix)
    {
      if instantSet {
        current, goal, snapshot := camera, camera, camera;
        animDone := true;
        Update();
      } else {
        goal := camera;
        snapshot := current;
        startTime := now;
        animDone := false;
      }
    }

    /** `setLookat`: a pose with the given eye, center and up that keeps the
        current field of view, applied through `setCamera`. */
    method SetLookat(eye: Vec3, center: Vec3, up: Vec3, instantSet: bool, now: real)
      requires Valid()
      modifies this`matrix, this`current, this`goal, this`snapshot, this`startTime, this`animDone
      ensures Valid()
      ensures instantSet ==> GetLookat() == (eye, center, up) && GetFov() == old(GetFov()) && !IsAnimated()
      ensures instantSet ==> GetMatrix() == lookAt(eye, center, up)
      ensures !instantSet ==> IsAnimated() && goal == Camera(eye, center, up, old(current.fov))
      ensures !instantSet ==> GetCamera() == old(current)
    {
      SetCamera(Camera(eye, center, up, current.fov), instantSet, now);
    }
  }
}
