/**
  The flow movement sensor: a polling loop that feeds successive frames of the left
  camera to the optical-flow estimate and keeps the latest velocity sample, which
  readers receive together with a freshness verdict.

  Time is an explicit parameter (`now`, nanoseconds); the camera's answer and the
  OpenCV tracking of each cycle are parameters too.
*/
module MovementSensor {
  import opened Outcomes
  import opened Images
  import opened OpticalFlow

  datatype Config = Config(left: string, right: string, focalLength: real)

  const DefaultFocalLength: real := 30.0

  /** The focal length used to scale linear velocity: the configured one when positive, else 30. */
  function GetFocalLength(cfg: Config): (f: real)
    ensures f > 0.0
    ensures cfg.focalLength > 0.0 ==> f == cfg.focalLength
    ensures cfg.focalLength <= 0.0 ==> f == DefaultFocalLength
  {
    if cfg.focalLength <= 0.0 then DefaultFocalLength else cfg.focalLength
  }

  /** Left is checked first, then right; a valid configuration depends on both cameras. */
  function Validate(cfg: Config): (r: Result<seq<string>>)
    ensures r.Success? <==> cfg.left != "" && cfg.right != ""
    ensures cfg.left == "" ==> r == Failure(NeedField("left"))
    ensures cfg.left != "" && cfg.right == "" ==> r == Failure(NeedField("right"))
    ensures r.Success? ==> r.value == [cfg.left, cfg.right]
  {
    if cfg.left == "" then Failure(NeedField("left"))
    else if cfg.right == "" then Failure(NeedField("right"))
    else Success([cfg.left, cfg.right])
  }

  /** How one cycle of the loop ends. */
  datatype Outcome = Failed(error: Error) | Skipped | Computed(linear: Vec3, angular: Vec3)

  /**
    The outcome of a cycle, given the previous frame (and its capture time) the loop
    remembers and what the camera and the tracker deliver this cycle.
  */
  function CycleOutcome(lastImage: Option<Image>, lastImageTime: int, capture: Capture, focalLength: real,
                        tracking: Tracking, atan2: (real, real) -> real): (o: Outcome)
    requires focalLength != 0.0
    ensures o.Computed? ==> capture.Captured? && |capture.images| > 0 && lastImage.Some?
                            && 0 < capture.capturedAt - lastImageTime <= Second
    ensures o.Skipped? <==> capture.Captured? && |capture.images| > 0
                            && (lastImage.None? || capture.capturedAt - lastImageTime > Second)
    ensures o.Failed? && capture.Captured? && |capture.images| > 0 ==>
              o.error == InvalidDuration && capture.capturedAt - lastImageTime <= 0
    ensures capture.CaptureFailed? ==> o == Failed(CameraFailure(capture.cause))
    ensures capture.Captured? && |capture.images| == 0 ==> o == Failed(NoImages)
    ensures o.Computed? ==>
              var e := ExpectedFlow(lastImage.value, capture.capturedAt - lastImageTime, focalLength, tracking, atan2);
              o.linear == e.linear && o.angular == e.angular
  {
    match capture
    case CaptureFailed(cause) => Failed(CameraFailure(cause))
    case Captured(images, capturedAt) =>
      if |images| == 0 then Failed(NoImages)
      else
        var diff := capturedAt - lastImageTime;
        if lastImage.None? || diff > Second then Skipped
        else
          var e := ExpectedFlow(lastImage.value, diff, focalLength, tracking, atan2);
          if e.err.Some? then Failed(e.err.value) else Computed(e.linear, e.angular)
  }

  /** With an image, a previous frame and a capture gap in (0, 1 s], the cycle computes the flow. */
  lemma GoodCycleComputes(lastImage: Option<Image>, lastImageTime: int, capture: Capture, focalLength: real,
                          tracking: Tracking, atan2: (real, real) -> real)
    requires focalLength != 0.0
    requires capture.Captured? && |capture.images| > 0
    requires lastImage.Some? && 0 < capture.capturedAt - lastImageTime <= Second
    ensures CycleOutcome(lastImage, lastImageTime, capture, focalLength, tracking, atan2).Computed?
  {
  }

  /** The frame the loop remembers between cycles. */
  class LoopState {
    var lastImage: Option<Image>
    var lastImageTime: int

    constructor ()
      ensures lastImage == None && lastImageTime == 0
    {
      lastImage := None;
      lastImageTime := 0;
    }
  }

  class FlowSensor {
    const cfg: Config
    var linear: Vec3
    var angular: Vec3
    var lastUpdate: int
    var lastError: Option<Error>

    constructor (cfg: Config)
      ensures this.cfg == cfg
      ensures linear == Zero && angular == Zero && lastUpdate == 0 && lastError == None
    {
      this.cfg := cfg;
      linear, angular := Zero, Zero;
      lastUpdate := 0;
      lastError := None;
    }

    /**
      The verdict handed to readers: the stored error, whatever the age of the sample;
      otherwise stale exactly when more than one second has passed since the last update.
    */
    function TooOld(now: int): (r: Option<Error>)
      reads this
      ensures lastError.Some? ==> r == lastError
      ensures lastError.None? ==> (r.Some? <==> now - lastUpdate > Second)
      ensures lastError.None? && r.Some? ==> r == Some(StaleData(lastUpdate))
    {
      if lastError.Some? then lastError
      else if now - lastUpdate > Second then Some(StaleData(lastUpdate))
      else None
    }

    /** The stored linear velocity with the freshness verdict. */
    method LinearVelocity(now: int) returns (v: Vec3, err: Option<Error>)
      ensures v == linear && err == TooOld(now)
    {
      v, err := linear, TooOld(now);
    }

    /** The stored angular velocity with the freshness verdict. */
    method AngularVelocity(now: int) returns (v: Vec3, err: Option<Error>)
      ensures v == angular && err == TooOld(now)
    {
      v, err := angular, TooOld(now);
    }

    /**
      `doLoop`: one cycle. Without an image the loop state is left alone; once an image
      is obtained, every exit records it as the previous frame. The sample is overwritten
      and stamped only when the flow was computed.
    */
    method DoLoop(state: LoopState, capture: Capture, tracking: Tracking, atan2: (real, real) -> real, now: int)
      returns (err: Option<Error>)
      modifies this, state
      ensures var o := CycleOutcome(old(state.lastImage), old(state.lastImageTime), capture,
                                    GetFocalLength(cfg), tracking, atan2);
              && (o.Failed? ==> err == Some(o.error) && unchanged(this))
              && (o.Skipped? ==> err == None && unchanged(this))
              && (o.Computed? ==> err == None && linear == o.linear && angular == o.angular
                                  && lastUpdate == now && lastError == old(lastError))
      ensures capture.Captured? && |capture.images| > 0 ==>
                state.lastImage == Some(capture.images[0]) && state.lastImageTime == capture.capturedAt
      ensures !(capture.Captured? && |capture.images| > 0) ==> unchanged(state)
    {
      if capture.CaptureFailed? {
        return Some(CameraFailure(capture.cause));
      }
      if |capture.images| == 0 {
        return Some(NoImages);
      }
      var image, capturedAt := capture.images[0], capture.capturedAt;

      var diff := capturedAt - state.lastImageTime;
      if state.lastImage.None? || diff > Second {
        err := None;
      } else {
        var l, a, e := ComputeFlow(state.lastImage.value, image, diff, GetFocalLength(cfg), tracking, atan2);
        if e.Some? {
          err := e;
        } else {
          linear := l;
          angular := a;
          lastUpdate := now;
          err := None;
        }
      }

      // the deferred update, run on every exit once an image was obtained
      state.lastImage := Some(image);
      state.lastImageTime := capturedAt;
    }

    /**
      One iteration of `run`: the cycle's error becomes the stored error (so a good cycle
      clears it), and a failing cycle also stamps the update time.
    */
    method RunCycle(state: LoopState, capture: Capture, tracking: Tracking, atan2: (real, real) -> real, now: int)
      modifies this, state
      ensures var o := CycleOutcome(old(state.lastImage), old(state.lastImageTime), capture,
                                    GetFocalLength(cfg), tracking, atan2);
              && (o.Failed? ==> lastError == Some(o.error) && lastUpdate == now
                                && linear == old(linear) && angular == old(angular))
              && (o.Skipped? ==> lastError == None && lastUpdate == old(lastUpdate)
                                 && linear == old(linear) && angular == old(angular))
              && (o.Computed? ==> lastError == None && lastUpdate == now
                                  && linear == o.linear && angular == o.angular)
      ensures capture.Captured? && |capture.images| > 0 ==>
                state.lastImage == Some(capture.images[0]) && state.lastImageTime == capture.capturedAt
      ensures !(capture.Captured? && |capture.images| > 0) ==> unchanged(state)
      ensures lastError.Some? ==> forall t :: TooOld(t) == lastError
      ensures lastError.None? && lastUpdate == now ==> forall t :: t <= now + Second ==> TooOld(t) == None
    {
      lastError := DoLoop(state, capture, tracking, atan2, now);
      if lastError.Some? {
        lastUpdate := now;
      }
    }
  }
}
