/**
  Optical-flow aggregation: linear and angular velocity from the correspondences that
  sparse feature tracking found between two frames.

  Corner detection and pyramidal Lucas-Kanade tracking are done by OpenCV; their output
  (previous points, next points, a status byte per point) is an input here, and so is
  `atan2`.
*/
module OpticalFlow {
  import opened Outcomes
  import opened Images

  /** `math.Pi` as a float64: 884279719003555 / 2^48. */
  const Pi: real := 3.141592653589793115997963468544185161590576171875
  const TwoPi: real := 6.28318530717958623199592693708837032318115234375

  /** Nanoseconds in one second. */
  const Second: int := 1_000_000_000

  datatype Vec3 = Vec3(x: real, y: real, z: real)
  const Zero: Vec3 := Vec3(0.0, 0.0, 0.0)

  /** `image.Point`: integer pixel coordinates. */
  datatype Point = Point(x: int, y: int)

  /** What OpenCV hands back: corners of the previous frame, where each went, and whether it was tracked. */
  datatype RawTracking = RawTracking(prevPts: seq<Point>, nextPts: seq<Point>, status: seq<Byte>)
  type Tracking = t: RawTracking | |t.nextPts| == |t.prevPts| && |t.status| == |t.prevPts|
    witness RawTracking([], [], [])

  /** Result of `computeFlow`: linear velocity, angular velocity and an optional error. */
  datatype FlowEstimate = FlowEstimate(linear: Vec3, angular: Vec3, err: Option<Error>)

  /** `Duration.Seconds()`. */
  function Seconds(ns: int): real { ns as real / Second as real }

  // ---------------------------------------------------------------------------
  // Angle normalisation

  /** Smallest integer not below v. */
  function Ceil(v: real): (n: int)
    ensures n as real - 1.0 < v <= n as real
  {
    -((-v).Floor)
  }

  /**
    Closed form of the two loops of `normalizeAngle`: subtract 2*pi as often as needed to
    reach at most pi, or add 2*pi as often as needed to reach at least -pi.
  */
  function NormalizedAngle(a: real): real {
    if a > Pi then a - TwoPi * Ceil((a - Pi) / TwoPi) as real
    else if a < -Pi then a + TwoPi * Ceil((-Pi - a) / TwoPi) as real
    else a
  }

  /** The result lies in [-pi, pi], differs from the input by whole turns, and inputs already in range are kept. */
  lemma NormalizedAngleSpec(a: real)
    ensures -Pi <= NormalizedAngle(a) <= Pi
    ensures (a - NormalizedAngle(a)) / TwoPi == ((a - NormalizedAngle(a)) / TwoPi).Floor as real
    ensures -Pi <= a <= Pi ==> NormalizedAngle(a) == a
  {
    if a > Pi {
      var k := Ceil((a - Pi) / TwoPi);
      assert (a - NormalizedAngle(a)) / TwoPi == k as real;
    } else if a < -Pi {
      var k := Ceil((-Pi - a) / TwoPi);
      assert (a - NormalizedAngle(a)) / TwoPi == -k as real;
    }
  }

  /** Normalising twice is normalising once. */
  lemma NormalizedAngleIdempotent(a: real)
    ensures NormalizedAngle(NormalizedAngle(a)) == NormalizedAngle(a)
  {
    NormalizedAngleSpec(a);
    NormalizedAngleSpec(NormalizedAngle(a));
  }

  /** `normalizeAngle`: two loops, first stepping down by 2*pi, then up by 2*pi. */
  method NormalizeAngle(angle: real) returns (r: real)
    ensures r == NormalizedAngle(angle)
  {
    r := angle;
    ghost var downs := if angle > Pi then Ceil((angle - Pi) / TwoPi) else 0;
    ghost var j := 0;
    while r > Pi
      invariant 0 <= j <= downs
      invariant r == angle - TwoPi * j as real
      decreases downs - j
    {
      r := r - TwoPi;
      j := j + 1;
    }
    ghost var mid := r;
    assert mid == (if angle > Pi then NormalizedAngle(angle) else angle);
    ghost var ups := if mid < -Pi then Ceil((-Pi - mid) / TwoPi) else 0;
    j := 0;
    while r < -Pi
      invariant 0 <= j <= ups
      invariant r == mid + TwoPi * j as real
      decreases ups - j
    {
      r := r + TwoPi;
      j := j + 1;
    }
  }

  // ---------------------------------------------------------------------------
  // Aggregation of the tracked correspondences

  /** Running sums of the aggregation loop. */
  datatype Sums = Sums(dx: int, dy: int, angle: real, count: nat)

  /** Angle swept around the centre (cx, cy) from p to q, normalised. */
  function AngularDisplacement(p: Point, q: Point, cx: real, cy: real, atan2: (real, real) -> real): real {
    NormalizedAngle(atan2(q.y as real - cy, q.x as real - cx) - atan2(p.y as real - cy, p.x as real - cx))
  }

  /** Sums over the first k correspondences; only those with status 1 contribute. */
  function Aggregate(tr: Tracking, k: nat, cx: real, cy: real, atan2: (real, real) -> real): Sums
    requires k <= |tr.prevPts|
  {
    if k == 0 then Sums(0, 0, 0.0, 0)
    else
      var s := Aggregate(tr, k - 1, cx, cy, atan2);
      var p, q := tr.prevPts[k - 1], tr.nextPts[k - 1];
      if tr.status[k - 1] == 1 then
        Sums(s.dx + (q.x - p.x), s.dy + (q.y - p.y), s.angle + AngularDisplacement(p, q, cx, cy, atan2), s.count + 1)
      else s
  }

  /** Indices among the first k whose status is 1. */
  function TrackedIndices(tr: Tracking, k: nat): set<nat>
    requires k <= |tr.prevPts|
  {
    set i: nat | i < k && tr.status[i] == 1
  }

  /** `validPoints` counts exactly the correspondences whose status is 1. */
  lemma {:induction false} CountIsTrackedCorrespondences(tr: Tracking, k: nat, cx: real, cy: real, atan2: (real, real) -> real)
    requires k <= |tr.prevPts|
    ensures Aggregate(tr, k, cx, cy, atan2).count == |TrackedIndices(tr, k)|
  {
    if k > 0 {
      CountIsTrackedCorrespondences(tr, k - 1, cx, cy, atan2);
      if tr.status[k - 1] == 1 {
        assert TrackedIndices(tr, k) == TrackedIndices(tr, k - 1) + {k - 1};
      } else {
        assert TrackedIndices(tr, k) == TrackedIndices(tr, k - 1);
      }
    }
  }

  /** Correspondences that were not tracked do not influence the sums, wherever OpenCV put them. */
  lemma {:induction false} UntrackedIgnored(tr1: Tracking, tr2: Tracking, k: nat, cx: real, cy: real, atan2: (real, real) -> real)
    requires k <= |tr1.prevPts| && k <= |tr2.prevPts|
    requires forall i :: 0 <= i < k ==> tr1.status[i] == tr2.status[i]
    requires forall i :: 0 <= i < k && tr1.status[i] == 1 ==>
               tr1.prevPts[i] == tr2.prevPts[i] && tr1.nextPts[i] == tr2.nextPts[i]
    ensures Aggregate(tr1, k, cx, cy, atan2) == Aggregate(tr2, k, cx, cy, atan2)
  {
    if k > 0 {
      UntrackedIgnored(tr1, tr2, k - 1, cx, cy, atan2);
    }
  }

  /** Every tracked correspondence moved by (dx, dy): the sums are count*dx and count*dy. */
  lemma {:induction false} UniformSums(tr: Tracking, k: nat, cx: real, cy: real, atan2: (real, real) -> real, dx: int, dy: int)
    requires k <= |tr.prevPts|
    requires forall i :: 0 <= i < k && tr.status[i] == 1 ==>
               tr.nextPts[i].x - tr.prevPts[i].x == dx && tr.nextPts[i].y - tr.prevPts[i].y == dy
    ensures Aggregate(tr, k, cx, cy, atan2).dx == Aggregate(tr, k, cx, cy, atan2).count * dx
    ensures Aggregate(tr, k, cx, cy, atan2).dy == Aggregate(tr, k, cx, cy, atan2).count * dy
    ensures dx == 0 && dy == 0 ==> Aggregate(tr, k, cx, cy, atan2).angle == 0.0
  {
    if k > 0 {
      UniformSums(tr, k - 1, cx, cy, atan2, dx, dy);
      var s := Aggregate(tr, k - 1, cx, cy, atan2);
      if tr.status[k - 1] == 1 {
        assert (s.count + 1) * dx == s.count * dx + dx;
        assert (s.count + 1) * dy == s.count * dy + dy;
        if dx == 0 && dy == 0 {
          NormalizedAngleSpec(0.0);
        }
      }
    }
  }

  // ---------------------------------------------------------------------------
  // computeFlow

  /**
    What `computeFlow` returns: an error with zero vectors when the elapsed time is not
    positive; zero vectors when nothing was detected or tracked; otherwise the mean
    displacement divided by the elapsed seconds, and for the linear part also by the
    focal length.
  */
  function ExpectedFlow(prev: Image, timeBetween: int, focalLengthPx: real, tr: Tracking, atan2: (real, real) -> real): (e: FlowEstimate)
    requires focalLengthPx != 0.0
    ensures e.linear.z == 0.0 && e.angular.x == 0.0 && e.angular.y == 0.0
    ensures e.err.Some? <==> timeBetween <= 0
    ensures e.err.Some? ==> e.err == Some(InvalidDuration) && e.linear == Zero && e.angular == Zero
  {
    if timeBetween <= 0 then FlowEstimate(Zero, Zero, Some(InvalidDuration))
    else if |tr.prevPts| == 0 then FlowEstimate(Zero, Zero, None)
    else
      var s := Aggregate(tr, |tr.prevPts|, CenterX(prev), CenterY(prev), atan2);
      if s.count == 0 then FlowEstimate(Zero, Zero, None)
      else
        var n, dt := s.count as real, Seconds(timeBetween);
        FlowEstimate(
          Vec3(s.dx as real / n / dt / focalLengthPx, s.dy as real / n / dt / focalLengthPx, 0.0),
          Vec3(0.0, 0.0, s.angle / n / dt),
          None)
  }

  /** No correspondence tracked: zero vectors and no error (for a positive elapsed time). */
  lemma NothingTrackedGivesZero(prev: Image, timeBetween: int, focalLengthPx: real, tr: Tracking, atan2: (real, real) -> real)
    requires focalLengthPx != 0.0 && timeBetween > 0
    requires forall i :: 0 <= i < |tr.status| ==> tr.status[i] != 1
    ensures ExpectedFlow(prev, timeBetween, focalLengthPx, tr, atan2) == FlowEstimate(Zero, Zero, None)
  {
    CountIsTrackedCorrespondences(tr, |tr.prevPts|, CenterX(prev), CenterY(prev), atan2);
    assert TrackedIndices(tr, |tr.prevPts|) == {};
  }

  /**
    Every tracked point moved by the same (dx, dy): the linear velocity is
    (dx/dt/f, dy/dt/f, 0).
  */
  lemma UniformTranslationVelocity(prev: Image, timeBetween: int, focalLengthPx: real, tr: Tracking,
                                   atan2: (real, real) -> real, dx: int, dy: int)
    requires focalLengthPx != 0.0 && timeBetween > 0
    requires exists i :: 0 <= i < |tr.status| && tr.status[i] == 1
    requires forall i :: 0 <= i < |tr.prevPts| && tr.status[i] == 1 ==>
               tr.nextPts[i].x - tr.prevPts[i].x == dx && tr.nextPts[i].y - tr.prevPts[i].y == dy
    ensures ExpectedFlow(prev, timeBetween, focalLengthPx, tr, atan2).linear ==
              Vec3(dx as real / Seconds(timeBetween) / focalLengthPx, dy as real / Seconds(timeBetween) / focalLengthPx, 0.0)
    ensures ExpectedFlow(prev, timeBetween, focalLengthPx, tr, atan2).err == None
  {
    var cx, cy := CenterX(prev), CenterY(prev);
    var k := |tr.prevPts|;
    UniformSums(tr, k, cx, cy, atan2, dx, dy);
    CountIsTrackedCorrespondences(tr, k, cx, cy, atan2);
    var i :| 0 <= i < |tr.status| && tr.status[i] == 1;
    assert i in TrackedIndices(tr, k);
    var s := Aggregate(tr, k, cx, cy, atan2);
    assert s.count > 0;
    MeanOfEqual(s.count, dx);
    MeanOfEqual(s.count, dy);
  }

  lemma MeanOfEqual(n: nat, v: int)
    requires n > 0
    ensures (n * v) as real / n as real == v as real
  {
    assert (n * v) as real == n as real * v as real;
  }

  /** Every tracked point stayed where it was: both velocities are zero. */
  lemma StationaryPointsGiveZeroVelocity(prev: Image, timeBetween: int, focalLengthPx: real, tr: Tracking, atan2: (real, real) -> real)
    requires focalLengthPx != 0.0 && timeBetween > 0
    requires forall i :: 0 <= i < |tr.prevPts| && tr.status[i] == 1 ==> tr.nextPts[i] == tr.prevPts[i]
    ensures ExpectedFlow(prev, timeBetween, focalLengthPx, tr, atan2) == FlowEstimate(Zero, Zero, None)
  {
    var cx, cy := CenterX(prev), CenterY(prev);
    UniformSums(tr, |tr.prevPts|, cx, cy, atan2, 0, 0);
  }

  /** The accumulation loop of `computeFlow` over the correspondences. */
  method SumTracked(tracking: Tracking, centerX: real, centerY: real, atan2: (real, real) -> real)
    returns (sumDx: int, sumDy: int, sumAngularZ: real, validPoints: nat)
    ensures Sums(sumDx, sumDy, sumAngularZ, validPoints) == Aggregate(tracking, |tracking.prevPts|, centerX, centerY, atan2)
  {
    var prevPts, nextPts, status := tracking.prevPts, tracking.nextPts, tracking.status;
    sumDx, sumDy := 0, 0;
    sumAngularZ := 0.0;
    validPoints := 0;

    var i := 0;
    while i < |prevPts|
      invariant 0 <= i <= |prevPts|
      invariant Sums(sumDx, sumDy, sumAngularZ, validPoints) == Aggregate(tracking, i, centerX, centerY, atan2)
    {
      if status[i] == 1 {
        var prevPt, nextPt := prevPts[i], nextPts[i];
        var dx := nextPt.x - prevPt.x;
        var dy := nextPt.y - prevPt.y;
        var prevAngle := atan2(prevPt.y as real - centerY, prevPt.x as real - centerX);
        var nextAngle := atan2(nextPt.y as real - centerY, nextPt.x as real - centerX);
        var angularDisplacement := NormalizeAngle(nextAngle - prevAngle);
        sumDx := sumDx + dx;
        sumDy := sumDy + dy;
        sumAngularZ := sumAngularZ + angularDisplacement;
        validPoints := validPoints + 1;
      }
      i := i + 1;
    }
  }

  /**
    `computeFlow`: rejects a non-positive elapsed time before any image work, converts
    both frames, and aggregates the correspondences OpenCV reports in `tracking`.
  */
  method ComputeFlow(prev: Image, now: Image, timeBetween: int, focalLengthPx: real,
                     tracking: Tracking, atan2: (real, real) -> real)
    returns (linear: Vec3, angular: Vec3, err: Option<Error>)
    requires focalLengthPx != 0.0
    ensures FlowEstimate(linear, angular, err) == ExpectedFlow(prev, timeBetween, focalLengthPx, tracking, atan2)
  {
    var dt := Seconds(timeBetween);
    if dt <= 0.0 {
      return Zero, Zero, Some(InvalidDuration);
    }

    // The converted frames go to the OpenCV stage, whose results are `tracking`.
    var prevMat := ImageToMat(prev);
    var nowMat := ImageToMat(now);

    if |tracking.prevPts| == 0 {
      return Zero, Zero, None;
    }

    var centerX := prev.width as real / 2.0;
    var centerY := prev.height as real / 2.0;
    var sumDx, sumDy, sumAngularZ, validPoints := SumTracked(tracking, centerX, centerY, atan2);

    if validPoints == 0 {
      return Zero, Zero, None;
    }

    var avgDx := sumDx as real / validPoints as real;
    var avgDy := sumDy as real / validPoints as real;
    var avgAngularZ := sumAngularZ / validPoints as real;

    var linearVelX := avgDx / dt;
    var linearVelY := avgDy / dt;
    var angularVelZ := avgAngularZ / dt;

    linearVelX := linearVelX / focalLengthPx;
    linearVelY := linearVelY / focalLengthPx;

    return Vec3(linearVelX, linearVelY, 0.0), Vec3(0.0, 0.0, angularVelZ), None;
  }

  // ---------------------------------------------------------------------------
  // imageToMat

  /**
    Byte `col` of row y of the BGR buffer of `img`: pixel col/3 of that row, channel
    blue, green, red for col%3 = 0, 1, 2, reduced to its high byte.
  */
  function BgrByte(img: Image, y: int, col: int): Byte {
    var c := At(img, col / 3 + img.minX, y + img.minY);
    if col % 3 == 0 then High8(c.b) else if col % 3 == 1 then High8(c.g) else High8(c.r)
  }

  /** The BGR layout: bytes 3x, 3x+1, 3x+2 of row y are b, g, r of pixel (x + minX, y + minY). */
  lemma BgrLayout(img: Image, x: int, y: int)
    ensures BgrByte(img, y, 3 * x) == High8(At(img, x + img.minX, y + img.minY).b)
    ensures BgrByte(img, y, 3 * x + 1) == High8(At(img, x + img.minX, y + img.minY).g)
    ensures BgrByte(img, y, 3 * x + 2) == High8(At(img, x + img.minX, y + img.minY).r)
  {
  }

  /** `imageToMat`: a height x (3*width) byte buffer holding every pixel once, in BGR order. */
  method ImageToMat(img: Image) returns (mat: array2<Byte>)
    ensures fresh(mat)
    ensures mat.Length0 == img.height && mat.Length1 == 3 * img.width
    ensures forall y, col :: 0 <= y < img.height && 0 <= col < 3 * img.width ==> mat[y, col] == BgrByte(img, y, col)
  {
    var width, height := img.width, img.height;
    mat := new Byte[height, 3 * width];
    var y := 0;
    while y < height
      invariant 0 <= y <= height
      invariant forall yy, col :: 0 <= yy < y && 0 <= col < 3 * width ==> mat[yy, col] == BgrByte(img, yy, col)
    {
      var x := 0;
      while x < width
        invariant 0 <= x <= width
        invariant forall yy, col :: 0 <= yy < y && 0 <= col < 3 * width ==> mat[yy, col] == BgrByte(img, yy, col)
        invariant forall col :: 0 <= col < 3 * x ==> mat[y, col] == BgrByte(img, y, col)
      {
        var c := At(img, x + img.minX, y + img.minY);
        BgrLayout(img, x, y);
        mat[y, x * 3] := High8(c.b);
        mat[y, x * 3 + 1] := High8(c.g);
        mat[y, x * 3 + 2] := High8(c.r);
        x := x + 1;
      }
      y := y + 1;
    }
  }
}
