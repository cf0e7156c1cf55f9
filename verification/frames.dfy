/** The progressive-accumulation frame counter of the application. Each
    ray-traced frame is one more sample of the same image as long as the
    camera stays put; the counter starts over whenever the camera matrix or
    field of view moves away from the reference copy kept from the previous
    frame, when the window is resized, and when a UI widget changes a
    parameter. The camera is the manipulator of `CameraManip`. */
module Frames {
  import opened Common
  import opened CameraManip

  /** `CameraParams`: the camera matrix and field of view the accumulated
      samples were rendered with. */
  datatype CameraParams = CameraParams(camera: Mat4, fov: real)

  /** The reference camera and `m_rtcurrentFrameId`. */
  datatype FrameState = FrameState(reference: CameraParams, frameId: int)

  /** The window size the application opens with. */
  const WindowWidth: int := 1280
  const WindowHeight: int := 720

  /** One `updateFrameId` seeing camera `current`: a different matrix or field
      of view becomes the new reference and restarts the count at 0 (reset to
      -1, then incremented); otherwise the count goes up by one. */
  function Step(st: FrameState, current: CameraParams): (r: FrameState)
    ensures r.reference == current
    ensures current == st.reference ==> r.frameId == st.frameId + 1
    ensures current != st.reference ==> r.frameId == 0
  {
    var id := if current.camera != st.reference.camera || current.fov != st.reference.fov then -1 else st.frameId;
    FrameState(current, id + 1)
  }

  /** The state after one `updateFrameId` per camera in `cams`, in order. */
  function Run(st: FrameState, cams: seq<CameraParams>): FrameState
  {
    if cams == [] then st else Step(Run(st, cams[..|cams| - 1]), cams[|cams| - 1])
  }

  /** How many of the last frames of `cams` were rendered with camera `c`. */
  function Streak(cams: seq<CameraParams>, c: CameraParams): (n: nat)
    ensures n <= |cams|
    ensures forall i :: |cams| - n <= i < |cams| ==> cams[i] == c
    ensures n < |cams| ==> cams[|cams| - n - 1] != c
  {
    if cams == [] || cams[|cams| - 1] != c then 0 else Streak(cams[..|cams| - 1], c) + 1
  }

  /** After a run of frames, the reference is the last camera and the frame
      id counts the frames rendered with it since it last changed, from 0; if
      the camera never moved away from the starting reference, the count
      simply continues from the starting id. */
  lemma {:induction false} FrameIdCountsSinceChange(st: FrameState, cams: seq<CameraParams>)
    requires cams != []
    ensures var last := cams[|cams| - 1]; var r := Run(st, cams);
      r.reference == last
      && r.frameId == if Streak(cams, last) == |cams| && st.reference == last then st.frameId + |cams|
                      else Streak(cams, last) - 1
  {
    var n := |cams|;
    var last := cams[n - 1];
    var prefix := cams[..n - 1];
    if n > 1 {
      FrameIdCountsSinceChange(st, prefix);
      var prev := prefix[n - 2];
      assert prev == cams[n - 2];
      if last == prev {
        assert Streak(cams, last) == Streak(prefix, last) + 1;
      } else {
        assert Streak(prefix, last) == 0;
      }
    }
  }

  /** The members of `Application::Impl` the counter uses. */
  class Impl {
    const manip: CameraManipulator
    var cameraRef: CameraParams
    var frameId: int

    function State(): FrameState
      reads this
    {
      FrameState(cameraRef, frameId)
    }

    /** The camera the manipulator shows now. */
    function Observed(): CameraParams
      reads this, manip
    {
      CameraParams(manip.GetMatrix(), manip.GetFov())
    }

    constructor(manip: CameraManipulator, cameraRef: CameraParams, frameId: int)
      ensures this.manip == manip && this.cameraRef == cameraRef && this.frameId == frameId
    {
      this.manip := manip;
      this.cameraRef := cameraRef;
      this.frameId := frameId;
    }

    /** `resetFrameId`. */
    method ResetFrameId()
      modifies this`frameId
      ensures frameId == -1
    {
      frameId := -1;
    }

    /** `updateFrameId`, called once per ray-traced frame. */
    method UpdateFrameId()
      modifies this`cameraRef, this`frameId
      ensures State() == Step(old(State()), Observed())
    {
      var currentCameraMat := manip.GetMatrix();
      var currentCameraFov := manip.GetFov();
      if currentCameraMat != cameraRef.camera || currentCameraFov != cameraRef.fov {
        ResetFrameId();
        cameraRef := CameraParams(currentCameraMat, currentCameraFov);
      }
      frameId := frameId + 1;
    }

    /** `onResize`: the accumulated image no longer fits; the offscreen
        targets and descriptors are recreated (not modelled). */
    method OnResize(w: int, h: int)
      modifies this`frameId
      ensures frameId == -1
    {
      ResetFrameId();
    }

    /** `renderUI`: every widget is drawn and reports whether it changed a
        value; any change restarts the accumulation. */
    method RenderUI(widgetChanges: seq<bool>)
      modifies this`frameId
      ensures frameId == if true in widgetChanges then -1 else old(frameId)
    {
      var changed := false;
      for i := 0 to |widgetChanges|
        invariant changed <==> true in widgetChanges[..i]
      {
        assert widgetChanges[..i + 1] == widgetChanges[..i] + [widgetChanges[i]];
        changed := changed || widgetChanges[i];
      }
      assert widgetChanges[..|widgetChanges|] == widgetChanges;
      if changed {
        ResetFrameId();
      }
    }

    /** The camera set-up of `initWindow`: walk mode, the window size, a pose
        at (0,0,1) looking at the origin applied at once; the reference is
        taken from the manipulator and the count is reset. */
    method InitWindow()
      requires manip.Valid()
      modifies manip, this`cameraRef, this`frameId
      ensures manip.Valid()
      ensures manip.GetMode() == Walk && manip.GetWidth() == WindowWidth && manip.GetHeight() == WindowHeight
      ensures manip.GetLookat() == (Vec3(0.0, 0.0, 1.0), Vec3(0.0, 0.0, 0.0), Vec3(0.0, 1.0, 0.0))
      ensures !manip.IsAnimated()
      ensures manip.GetMatrix() == manip.lookAt(Vec3(0.0, 0.0, 1.0), Vec3(0.0, 0.0, 0.0), Vec3(0.0, 1.0, 0.0))
      ensures manip.GetFov() == old(manip.GetFov()) && manip.GetSpeed() == old(manip.GetSpeed())
      ensures manip.GetAnimationDuration() == old(manip.GetAnimationDuration())
      ensures cameraRef == Observed() && frameId == -1
    {
      manip.SetMode(Walk);
      manip.SetWindowSize(WindowWidth, WindowHeight);
      manip.SetLookat(Vec3(0.0, 0.0, 1.0), Vec3(0.0, 0.0, 0.0), Vec3(0.0, 1.0, 0.0), true, 0.0);
      cameraRef := CameraParams(manip.GetMatrix(), manip.GetFov());
      ResetFrameId();
    }
  }

  /** The first frame after `initWindow`, with the camera untouched, is
      sample 0 of a fresh accumulation. */
  lemma FirstFrameAfterInit(reference: CameraParams)
    ensures Step(FrameState(reference, -1), reference).frameId == 0
  {
  }
}
