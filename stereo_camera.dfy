/**
  The stereo camera component: configuration defaults and validation, and the
  point-cloud request that hands one frame of each camera to the stereo algorithm.
*/
module StereoCamera {
  import opened Outcomes
  import opened Images
  import opened Stereo

  /** The decoded configuration fields. */
  datatype Config = Config(
    left: string,
    right: string,
    distanceMeters: real,
    focalLengthPixels: real,
    minDisparity: real,
    maxDisparity: real,
    disparityStep: int,
    pixelStep: int)

  /** The attributes as a user writes them, by JSON key. */
  datatype Attributes = Attributes(
    left: string,
    right: string,
    distanceMeters: real,      // "distance-meters"
    focalLengthPixels: real,   // "focal-length-pixels"
    minDisparityKey: real,     // "min-disparity"
    maxDisparityKey: real,     // "max-disparity"
    disparityStep: int,
    pixelStep: int)

  /** Decoding as the struct tags declare it: "max-disparity" fills MinDisparity and "min-disparity" fills MaxDisparity. */
  function DecodeAsWritten(a: Attributes): (cfg: Config)
    ensures cfg.minDisparity == a.maxDisparityKey && cfg.maxDisparity == a.minDisparityKey
    ensures cfg.left == a.left && cfg.right == a.right
  {
    Config(a.left, a.right, a.distanceMeters, a.focalLengthPixels, a.maxDisparityKey, a.minDisparityKey,
           a.disparityStep, a.pixelStep)
  }

  /** Decoding with each key filling the field of its own name. */
  function Decode(a: Attributes): (cfg: Config)
    ensures cfg.minDisparity == a.minDisparityKey && cfg.maxDisparity == a.maxDisparityKey
    ensures cfg.left == a.left && cfg.right == a.right
  {
    Config(a.left, a.right, a.distanceMeters, a.focalLengthPixels, a.minDisparityKey, a.maxDisparityKey,
           a.disparityStep, a.pixelStep)
  }

  const DefaultMinDisparity: real := 1.0
  const DefaultMaxDisparity: real := 64.0

  /** The configured minimum disparity when positive, else 1. */
  function GetMinDisparity(cfg: Config): (d: real)
    ensures d > 0.0
    ensures cfg.minDisparity > 0.0 ==> d == cfg.minDisparity
    ensures cfg.minDisparity <= 0.0 ==> d == DefaultMinDisparity
  {
    if cfg.minDisparity <= 0.0 then DefaultMinDisparity else cfg.minDisparity
  }

  /** The configured maximum disparity when positive, else 64. */
  function GetMaxDisparity(cfg: Config): (d: real)
    ensures d > 0.0
    ensures cfg.maxDisparity > 0.0 ==> d == cfg.maxDisparity
    ensures cfg.maxDisparity <= 0.0 ==> d == DefaultMaxDisparity
  {
    if cfg.maxDisparity <= 0.0 then DefaultMaxDisparity else cfg.maxDisparity
  }

  /** The disparity stride is always 1; the configured field is not consulted. */
  function GetDisparityStep(cfg: Config): (s: int)
    ensures s == 1
  {
    1
  }

  /** The pixel stride is always 1; the configured field is not consulted. */
  function GetPixelStep(cfg: Config): (s: int)
    ensures s == 1
  {
    1
  }

  /**
    The checks run in order (left, right, distance-meters, focal-length-pixels) and the
    first failing one is reported; a valid configuration depends on both cameras.
  */
  function Validate(cfg: Config): (r: Result<seq<string>>)
    ensures r.Success? <==> cfg.left != "" && cfg.right != "" && cfg.distanceMeters > 0.0 && cfg.focalLengthPixels > 0.0
    ensures cfg.left == "" ==> r == Failure(NeedField("left"))
    ensures cfg.left != "" && cfg.right == "" ==> r == Failure(NeedField("right"))
    ensures cfg.left != "" && cfg.right != "" && cfg.distanceMeters <= 0.0 ==> r == Failure(NeedField("distance-meters"))
    ensures cfg.left != "" && cfg.right != "" && cfg.distanceMeters > 0.0 && cfg.focalLengthPixels <= 0.0 ==>
              r == Failure(NeedField("focal-length-pixels"))
    ensures r.Success? ==> r.value == [cfg.left, cfg.right]
  {
    if cfg.left == "" then Failure(NeedField("left"))
    else if cfg.right == "" then Failure(NeedField("right"))
    else if cfg.distanceMeters <= 0.0 then Failure(NeedField("distance-meters"))
    else if cfg.focalLengthPixels <= 0.0 then Failure(NeedField("focal-length-pixels"))
    else Success([cfg.left, cfg.right])
  }

  /**
    The configuration handed to the stereo algorithm: baseline and focal length as
    configured, positive disparity bounds, unit strides (so its loops terminate).
  */
  function PointCloudConfig(cfg: Config): (c: StereoConfig)
    ensures c.baseline == cfg.distanceMeters && c.focalLength == cfg.focalLengthPixels
    ensures c.minDisparity == GetMinDisparity(cfg) && c.maxDisparity == GetMaxDisparity(cfg)
    ensures c.minDisparity > 0.0 && c.maxDisparity > 0.0
    ensures cfg.minDisparity <= 0.0 ==> c.minDisparity == DefaultMinDisparity
    ensures cfg.maxDisparity <= 0.0 ==> c.maxDisparity == DefaultMaxDisparity
    ensures c.disparityStep == 1 && c.pixelStep == 1
  {
    StereoConfig(
      cfg.distanceMeters, cfg.focalLengthPixels,
      GetMinDisparity(cfg), GetMaxDisparity(cfg),
      GetDisparityStep(cfg), GetPixelStep(cfg))
  }

  /**
    A finite point in front of the camera, with depth strictly between
    distance*focal/maxDisparity and distance*focal/minDisparity.
  */
  predicate InDepthRange(cfg: Config, pos: Position) {
    && pos.Finite? && pos.z > 0.0
    && pos.z * GetMaxDisparity(cfg) > cfg.distanceMeters * cfg.focalLengthPixels
    && pos.z * GetMinDisparity(cfg) < cfg.distanceMeters * cfg.focalLengthPixels
  }

  /** Under a configuration that passed validation, an accepted disparity projects into that range. */
  lemma {:induction false} ValidatedDepthBounds(cfg: Config, cx: real, cy: real, x: int, y: int, d: int)
    requires Validate(cfg).Success?
    requires Accepted(PointCloudConfig(cfg), d)
    ensures InDepthRange(cfg, Project(PointCloudConfig(cfg), cx, cy, x, y, d))
  {
    AcceptedDepthBounds(PointCloudConfig(cfg), cx, cy, x, y, d);
  }

  /** Hence every point of a cloud built under a validated configuration lies in that range. */
  lemma {:induction false} ValidatedCloudInFront(cfg: Config, left: Image, right: Image, cloud: Cloud, p: (int, int))
    requires Validate(cfg).Success?
    requires IsStereoCloud(left, right, PointCloudConfig(cfg), cloud)
    requires p in cloud
    ensures InDepthRange(cfg, cloud[p].position)
  {
    CloudPointIsProjection(left, right, PointCloudConfig(cfg), cloud, p);
    ValidatedDepthBounds(cfg, CenterX(left), CenterY(left), p.0, p.1, cloud[p].disparity);
  }

  /**
    With the tags as written, a sensible window 0 < min-disparity < max-disparity is
    turned around, so the filter rejects every disparity and the cloud is always empty.
  */
  lemma {:induction false} SwappedTagsRejectEveryDisparity(a: Attributes, left: Image, right: Image, cloud: Cloud)
    requires 0.0 < a.minDisparityKey < a.maxDisparityKey
    requires IsStereoCloud(left, right, PointCloudConfig(DecodeAsWritten(a)), cloud)
    ensures forall d :: !Accepted(PointCloudConfig(DecodeAsWritten(a)), d)
    ensures cloud == map[]
  {
    var c := PointCloudConfig(DecodeAsWritten(a));
    assert c.minDisparity == a.maxDisparityKey && c.maxDisparity == a.minDisparityKey;
    assert forall p :: p !in cloud;
  }

  /** The user's window min-disparity=1, max-disparity=64 accepts no disparity at all. */
  lemma SwappedTagsExample()
    ensures var a := Attributes("left", "right", 0.1, 500.0, 1.0, 64.0, 0, 0);
            forall d :: !Accepted(PointCloudConfig(DecodeAsWritten(a)), d)
  {
    var a := Attributes("left", "right", 0.1, 500.0, 1.0, 64.0, 0, 0);
    assert PointCloudConfig(DecodeAsWritten(a)).minDisparity == 64.0;
  }

  /**
    With each key filling its own field, a positive window is kept: the filter accepts
    exactly the disparities strictly between min-disparity and max-disparity.
  */
  lemma {:induction false} DecodedWindowIsConfigured(a: Attributes, d: int)
    requires 0.0 < a.minDisparityKey && 0.0 < a.maxDisparityKey
    ensures Accepted(PointCloudConfig(Decode(a)), d) <==> a.minDisparityKey < d as real < a.maxDisparityKey
  {
    var c := PointCloudConfig(Decode(a));
    assert c.minDisparity == a.minDisparityKey && c.maxDisparity == a.maxDisparityKey;
  }

  /**
    `NextPointCloud`: one frame from each camera, then the stereo algorithm under the
    assembled configuration. Camera errors are passed through; anything but exactly one
    image per camera is an error.
  */
  method NextPointCloud(cfg: Config, leftCapture: Capture, rightCapture: Capture) returns (res: Result<Cloud>)
    ensures leftCapture.CaptureFailed? ==> res == Failure(CameraFailure(leftCapture.cause))
    ensures leftCapture.Captured? && rightCapture.CaptureFailed? ==> res == Failure(CameraFailure(rightCapture.cause))
    ensures leftCapture.Captured? && rightCapture.Captured? && |leftCapture.images| != 1 ==>
              res == Failure(WrongImageCount("leftAll", |leftCapture.images|))
    ensures leftCapture.Captured? && rightCapture.Captured? && |leftCapture.images| == 1 && |rightCapture.images| != 1 ==>
              res == Failure(WrongImageCount("rightAll", |rightCapture.images|))
    ensures leftCapture.Captured? && rightCapture.Captured? && |leftCapture.images| == 1 && |rightCapture.images| == 1 ==>
              var l, r := leftCapture.images[0], rightCapture.images[0];
              && (l.width != r.width || l.height != r.height ==> res == Failure(DimensionMismatch))
              && (l.width == r.width && l.height == r.height ==>
                    res.Success? && IsStereoCloud(l, r, PointCloudConfig(cfg), res.value))
  {
    if leftCapture.CaptureFailed? {
      return Failure(CameraFailure(leftCapture.cause));
    }
    if rightCapture.CaptureFailed? {
      return Failure(CameraFailure(rightCapture.cause));
    }
    var leftAll, rightAll := leftCapture.images, rightCapture.images;
    if |leftAll| != 1 {
      return Failure(WrongImageCount("leftAll", |leftAll|));
    }
    if |rightAll| != 1 {
      return Failure(WrongImageCount("rightAll", |rightAll|));
    }
    var c := PointCloudConfig(cfg);
    res := StereoToPointCloud(leftAll[0], rightAll[0], c);
  }
}
