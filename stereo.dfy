/**
  Stereo disparity search and point emission.

  For every sampled pixel of the left image, the search compares it with the pixels
  of the same row of the right image, from column x leftwards, and keeps the first
  disparity with the smallest single-pixel sum of absolute differences. Disparities
  strictly between the configured minimum and maximum become points of the cloud.
*/
module Stereo {
  import opened Outcomes
  import opened Images

  datatype StereoConfig = StereoConfig(
    baseline: real,       // distance between the cameras, in metres
    focalLength: real,    // in pixels
    minDisparity: real,
    maxDisparity: real,
    disparityStep: int,   // stride of the disparity search
    pixelStep: int)       // stride over the pixels of the left image

  /** `math.MaxFloat64`, the initial "best difference": an integer, (2^53 - 1) * 2^971. */
  const MaxFloat64: int := 179769313486231570814527423731704356798070567525844996598917476803157260780028538760589558632766878171540458953514382464234321326889464182768467546703537516986049910576551282076245490090389328944075868508455133942304583236903222948165808559332123348274797826204144723168738177180919299881250404026184124858368

  /** Largest single-pixel difference: three channels of 65535. */
  const MaxPixelDifference: int := 3 * 0xFFFF

  function Abs(v: int): nat { if v < 0 then -v else v }

  /** Sum of absolute differences of the R, G and B channels of two pixels. */
  function PixelDifference(img1: Image, img2: Image, x1: int, y1: int, x2: int, y2: int): (d: int)
    ensures 0 <= d <= MaxPixelDifference
    ensures d == 0 <==> (At(img1, x1, y1).r == At(img2, x2, y2).r
                         && At(img1, x1, y1).g == At(img2, x2, y2).g
                         && At(img1, x1, y1).b == At(img2, x2, y2).b)
  {
    var c1, c2 := At(img1, x1, y1), At(img2, x2, y2);
    Abs(c1.r - c2.r) + Abs(c1.g - c2.g) + Abs(c1.b - c2.b)
  }

  lemma PixelDifferenceSymmetric(img1: Image, img2: Image, x1: int, y1: int, x2: int, y2: int)
    ensures PixelDifference(img1, img2, x1, y1, x2, y2) == PixelDifference(img2, img1, x2, y2, x1, y1)
  {
  }

  /** Go's `int(v)`: conversion that truncates toward zero. */
  function TruncToInt(v: real): (n: int)
    ensures 0.0 <= v ==> 0 <= n && n as real <= v < n as real + 1.0
    ensures v < 0.0 ==> n <= 0 && n as real - 1.0 < v <= n as real
  {
    if 0.0 <= v then v.Floor else -((-v).Floor)
  }

  /**
    The last column the search visits. The search is not clamped to the left edge:
    when x - int(maxDisparity) does not lie strictly right of minX, only column x is searched.
  */
  function MaxSearchX(x: int, minX: int, maxDisparity: real): (m: int)
    ensures x - TruncToInt(maxDisparity) > minX ==> m == x - TruncToInt(maxDisparity)
    ensures x - TruncToInt(maxDisparity) <= minX ==> m == x
  {
    if x - TruncToInt(maxDisparity) > minX then x - TruncToInt(maxDisparity) else x
  }

  /** Number of columns x, x - step, x - 2*step, ... that are at least x - span. */
  function CandidateCount(span: int, step: int): nat
    requires step > 0
  {
    if span < 0 then 0 else span / step + 1
  }

  lemma {:induction false} CandidateCountSpec(span: int, step: int, k: nat)
    requires step > 0
    ensures k < CandidateCount(span, step) <==> k * step <= span
  {
    if span >= 0 {
      var q := span / step;
      assert span == q * step + span % step;
      if k <= q {
        MulMonotonic(k, q, step);
      } else {
        MulMonotonic(q + 1, k, step);
      }
    } else {
      assert k * step >= 0;
    }
  }

  lemma MulMonotonic(a: int, b: int, s: nat)
    requires a <= b
    ensures a * s <= b * s
  {
  }

  /** The column the search reads for its k-th candidate, disparity k * step. */
  function SearchColumn(x: int, step: int, k: int): int { x - k * step }

  /** The search visits candidate k exactly when its column is not left of MaxSearchX. */
  lemma {:induction false} VisitedColumns(x: int, minX: int, maxDisparity: real, step: int)
    requires step > 0
    ensures forall k: nat :: k < CandidateCount(x - MaxSearchX(x, minX, maxDisparity), step) <==>
                             MaxSearchX(x, minX, maxDisparity) <= SearchColumn(x, step, k)
  {
    forall k: nat ensures k < CandidateCount(x - MaxSearchX(x, minX, maxDisparity), step) <==>
                          MaxSearchX(x, minX, maxDisparity) <= SearchColumn(x, step, k) {
      CandidateCountSpec(x - MaxSearchX(x, minX, maxDisparity), step, k);
    }
  }

  /** Number of columns the search visits for pixel (x, _). */
  function SearchCount(left: Image, x: int, config: StereoConfig): nat
    requires config.disparityStep > 0
  {
    CandidateCount(x - MaxSearchX(x, left.minX, config.maxDisparity), config.disparityStep)
  }

  /** Cost of the k-th candidate, disparity k * disparityStep, of pixel (x, y). */
  function CandidateCost(left: Image, right: Image, x: int, y: int, step: int, k: int): int {
    PixelDifference(left, right, x, y, SearchColumn(x, step, k), y)
  }

  /**
    Costs of the candidates in the order the search visits them: one per column from x
    leftwards in steps of disparityStep down to MaxSearchX, each the pixel difference
    between (x, y) on the left and that column of row y on the right.
  */
  function Costs(left: Image, right: Image, x: int, y: int, config: StereoConfig): (cs: seq<int>)
    requires config.disparityStep > 0
    ensures |cs| == SearchCount(left, x, config)
    ensures forall k: nat :: k < |cs| <==>
              MaxSearchX(x, left.minX, config.maxDisparity) <= SearchColumn(x, config.disparityStep, k)
    ensures forall k :: 0 <= k < |cs| ==>
              cs[k] == PixelDifference(left, right, x, y, SearchColumn(x, config.disparityStep, k), y)
  {
    VisitedColumns(x, left.minX, config.maxDisparity, config.disparityStep);
    seq(SearchCount(left, x, config), k => CandidateCost(left, right, x, y, config.disparityStep, k))
  }

  /** Index of the first minimum of `costs`, found left to right with a strict comparison. */
  function ArgMinFirst(costs: seq<int>): (i: nat)
    requires |costs| > 0
    ensures i < |costs|
    decreases |costs|
  {
    if |costs| == 1 then 0
    else
      var i := ArgMinFirst(costs[..|costs| - 1]);
      if costs[|costs| - 1] < costs[i] then |costs| - 1 else i
  }

  lemma {:induction false} ArgMinFirstIsFirstMinimum(costs: seq<int>)
    requires |costs| > 0
    ensures forall j :: 0 <= j < |costs| ==> costs[ArgMinFirst(costs)] <= costs[j]
    ensures forall j :: 0 <= j < ArgMinFirst(costs) ==> costs[ArgMinFirst(costs)] < costs[j]
    decreases |costs|
  {
    if |costs| > 1 {
      var init := costs[..|costs| - 1];
      ArgMinFirstIsFirstMinimum(init);
      assert forall j :: 0 <= j < |init| ==> init[j] == costs[j];
    }
  }

  /** Scanning one more element: the first minimum moves to it only if it is strictly smaller. */
  lemma ArgMinFirstExtend(costs: seq<int>, k: nat)
    requires k < |costs|
    ensures k == 0 ==> ArgMinFirst(costs[..k + 1]) == 0
    ensures k > 0 ==> ArgMinFirst(costs[..k + 1]) ==
                      if costs[k] < costs[ArgMinFirst(costs[..k])] then k else ArgMinFirst(costs[..k])
  {
    assert costs[..k + 1][..k] == costs[..k];
  }

  /** Index of the candidate the search keeps for pixel (x, y); 0 when no column is searched. */
  function BestIndex(left: Image, right: Image, x: int, y: int, config: StereoConfig): nat
    requires config.disparityStep > 0
  {
    var costs := Costs(left, right, x, y, config);
    if |costs| == 0 then 0 else ArgMinFirst(costs)
  }

  /** The disparity the search keeps for pixel (x, y). */
  function BestDisparity(left: Image, right: Image, x: int, y: int, config: StereoConfig): int
    requires config.disparityStep > 0
  {
    BestIndex(left, right, x, y, config) * config.disparityStep
  }

  /**
    The kept candidate is one the search visits, its cost is minimal, and every candidate
    visited before it (a smaller disparity) costs strictly more.
  */
  lemma BestIndexIsFirstMinimum(left: Image, right: Image, x: int, y: int, config: StereoConfig)
    requires config.disparityStep > 0
    requires SearchCount(left, x, config) > 0
    ensures BestIndex(left, right, x, y, config) < SearchCount(left, x, config)
    ensures forall k :: 0 <= k < SearchCount(left, x, config) ==>
              CandidateCost(left, right, x, y, config.disparityStep, BestIndex(left, right, x, y, config))
              <= CandidateCost(left, right, x, y, config.disparityStep, k)
    ensures forall k :: 0 <= k < BestIndex(left, right, x, y, config) ==>
              CandidateCost(left, right, x, y, config.disparityStep, BestIndex(left, right, x, y, config))
              < CandidateCost(left, right, x, y, config.disparityStep, k)
  {
    ArgMinFirstIsFirstMinimum(Costs(left, right, x, y, config));
  }

  /**
    Every column the search reads lies in [MaxSearchX, x]; when x is a column of the
    left image, that column is inside the image, so with a common origin the right
    image is never read outside its bounds.
  */
  lemma SearchColumnsInRange(left: Image, x: int, config: StereoConfig, k: nat)
    requires config.disparityStep > 0
    requires k < SearchCount(left, x, config)
    ensures MaxSearchX(x, left.minX, config.maxDisparity) <= x - k * config.disparityStep <= x
    ensures left.minX <= x ==> left.minX <= x - k * config.disparityStep
  {
    CandidateCountSpec(x - MaxSearchX(x, left.minX, config.maxDisparity), config.disparityStep, k);
  }

  /**
    The kept disparity lies in [0, max(0, int(maxDisparity))]; disparity 0 is always the
    first candidate when int(maxDisparity) >= 0, and it is the only one when
    x - int(maxDisparity) <= minX.
  */
  lemma BestDisparityBounds(left: Image, right: Image, x: int, y: int, config: StereoConfig)
    requires config.disparityStep > 0
    ensures 0 <= BestDisparity(left, right, x, y, config)
    ensures BestDisparity(left, right, x, y, config) <= if TruncToInt(config.maxDisparity) < 0 then 0 else TruncToInt(config.maxDisparity)
    ensures 0 <= TruncToInt(config.maxDisparity) ==> SearchCount(left, x, config) > 0
    ensures x - TruncToInt(config.maxDisparity) <= left.minX ==> SearchCount(left, x, config) == 1
  {
    var costs := Costs(left, right, x, y, config);
    var span := x - MaxSearchX(x, left.minX, config.maxDisparity);
    if |costs| > 0 {
      var i := ArgMinFirst(costs);
      CandidateCountSpec(span, config.disparityStep, i);
      MulMonotonic(0, i, config.disparityStep);
    }
    if x - TruncToInt(config.maxDisparity) <= left.minX {
      assert span == 0;
      CandidateCountSpec(span, config.disparityStep, 1);
    }
  }

  /** Identical images: disparity 0 costs nothing, so the search keeps disparity 0. */
  lemma IdenticalImagesKeepDisparityZero(img: Image, x: int, y: int, config: StereoConfig)
    requires config.disparityStep > 0
    ensures BestDisparity(img, img, x, y, config) == 0
  {
    var costs := Costs(img, img, x, y, config);
    if |costs| > 0 {
      ArgMinFirstIsFirstMinimum(costs);
      assert costs[0] == 0;
    }
  }

  /**
    The acceptance filter: both bounds are exclusive, so a non-empty window needs
    minDisparity < maxDisparity, and with minDisparity >= 0 an accepted disparity is positive.
  */
  predicate Accepted(config: StereoConfig, d: int)
    ensures Accepted(config, d) ==> config.minDisparity < config.maxDisparity
    ensures Accepted(config, d) && config.minDisparity >= 0.0 ==> d > 0
  {
    config.minDisparity < d as real < config.maxDisparity
  }

  // ---------------------------------------------------------------------------
  // Projection and colour

  datatype Position = Finite(x: real, y: real, z: real) | NonFinite

  /** `color.NRGBA`: 8-bit channels. */
  datatype NRGBA = NRGBA(r: Byte, g: Byte, b: Byte, a: Byte)

  datatype CloudPoint = CloudPoint(disparity: int, position: Position, color: NRGBA)

  /** The cloud, keyed by the left-image pixel each point comes from. */
  type Cloud = map<(int, int), CloudPoint>

  /**
    Pinhole back-projection of pixel (x, y) at disparity d: depth z = baseline*focal/d,
    then x3d = (x - cx)*z/focal and y3d = (y - cy)*z/focal. With d == 0 or focal == 0
    the floating-point result is an infinity or NaN, modelled as NonFinite.
  */
  function Project(config: StereoConfig, cx: real, cy: real, x: int, y: int, d: int): (p: Position)
    ensures p.Finite? <==> d != 0 && config.focalLength != 0.0
    ensures p.Finite? ==> p.z * d as real == config.baseline * config.focalLength
    ensures p.Finite? ==> p.x * config.focalLength == (x as real - cx) * p.z
    ensures p.Finite? ==> p.y * config.focalLength == (y as real - cy) * p.z
  {
    if d == 0 || config.focalLength == 0.0 then NonFinite
    else
      var z := (config.baseline * config.focalLength) / d as real;
      Finite(((x as real - cx) * z) / config.focalLength, ((y as real - cy) * z) / config.focalLength, z)
  }

  /** For positive baseline and focal length, depth is positive and strictly decreasing in d. */
  lemma {:induction false} DepthPositiveAndDecreasing(config: StereoConfig, cx: real, cy: real, x: int, y: int, d1: int, d2: int)
    requires config.baseline > 0.0 && config.focalLength > 0.0
    requires 0 < d1 < d2
    ensures Project(config, cx, cy, x, y, d1).Finite? && Project(config, cx, cy, x, y, d2).Finite?
    ensures Project(config, cx, cy, x, y, d1).z > Project(config, cx, cy, x, y, d2).z > 0.0
  {
    var bf := config.baseline * config.focalLength;
    assert bf > 0.0;
    var z1, z2 := bf / d1 as real, bf / d2 as real;
    assert z2 > 0.0;
    assert z1 * d1 as real == bf == z2 * d2 as real;
    assert z1 * d1 as real > z2 * d1 as real;
  }

  /** Colour of a point: each 16-bit channel shifted right by 8, alpha the constant 1. */
  function PointColor(c: Color): (n: NRGBA)
    ensures n.a == 1
    ensures n.r * 0x100 <= c.r < n.r * 0x100 + 0x100
    ensures n.g * 0x100 <= c.g < n.g * 0x100 + 0x100
    ensures n.b * 0x100 <= c.b < n.b * 0x100 + 0x100
  {
    NRGBA(High8(c.r), High8(c.g), High8(c.b), 1)
  }

  function PointAt(left: Image, right: Image, config: StereoConfig, x: int, y: int): CloudPoint
    requires config.disparityStep > 0
  {
    var d := BestDisparity(left, right, x, y, config);
    CloudPoint(d, Project(config, CenterX(left), CenterY(left), x, y, d), PointColor(At(left, x, y)))
  }

  // ---------------------------------------------------------------------------
  // The sampling grid and the whole cloud

  /** v is reached from origin by whole steps. */
  predicate OnGrid(v: int, origin: int, step: int)
    requires step > 0
  {
    origin <= v && (v - origin) % step == 0
  }

  lemma {:induction false} GridGap(v: int, w: int, origin: int, step: int)
    requires step > 0 && OnGrid(v, origin, step) && OnGrid(w, origin, step) && v < w
    ensures v + step <= w
  {
    var qv, qw := (v - origin) / step, (w - origin) / step;
    assert v - origin == qv * step;
    assert w - origin == qw * step;
    if qw <= qv {
      MulMonotonic(qw, qv, step);
      assert false;
    }
    MulMonotonic(qv + 1, qw, step);
  }

  lemma {:induction false} GridNext(v: int, origin: int, step: int)
    requires step > 0 && OnGrid(v, origin, step)
    ensures OnGrid(v + step, origin, step)
  {
    var q := (v - origin) / step;
    assert v - origin == q * step;
    MulSucc(q, step);
    DivModUnique(v + step - origin, step, q + 1, 0);
  }

  lemma MulSucc(k: int, s: int)
    ensures (k + 1) * s == k * s + s
  {
  }

  /** Euclidean division is determined by quotient and remainder. */
  lemma {:induction false} DivModUnique(a: int, s: int, q: int, r: int)
    requires s > 0 && a == q * s + r && 0 <= r < s
    ensures a % s == r && a / s == q
  {
    var q', r' := a / s, a % s;
    assert a == q' * s + r';
    if q' < q {
      MulMonotonic(q' + 1, q, s);
      MulSucc(q', s);
      assert false;
    }
    if q < q' {
      MulMonotonic(q + 1, q', s);
      MulSucc(q, s);
      assert false;
    }
  }

  /** Pixel (x, y) of the left image is visited by the pixel loops. */
  predicate Sampled(left: Image, step: int, x: int, y: int)
    requires step > 0
  {
    InBounds(left, x, y) && OnGrid(x, left.minX, step) && OnGrid(y, left.minY, step)
  }

  /**
    `cloud` is the cloud of the pair: it holds a point for pixel (x, y) exactly when (x, y)
    is sampled and its kept disparity passes the filter, and that point carries the kept
    disparity, its projection and the left pixel's colour.
  */
  ghost predicate IsStereoCloud(left: Image, right: Image, config: StereoConfig, cloud: Cloud)
    requires config.disparityStep > 0 && config.pixelStep > 0
  {
    (forall p :: p in cloud <==>
       Sampled(left, config.pixelStep, p.0, p.1) && Accepted(config, BestDisparity(left, right, p.0, p.1, config)))
    && (forall p :: p in cloud ==> cloud[p] == PointAt(left, right, config, p.0, p.1))
  }

  /** The characterisation determines the cloud. */
  lemma StereoCloudUnique(left: Image, right: Image, config: StereoConfig, c1: Cloud, c2: Cloud)
    requires config.disparityStep > 0 && config.pixelStep > 0
    requires IsStereoCloud(left, right, config, c1) && IsStereoCloud(left, right, config, c2)
    ensures c1 == c2
  {
    assert forall p :: p in c1 <==> p in c2;
  }

  /** Identical left and right images give an empty cloud whenever minDisparity >= 0. */
  lemma IdenticalImagesGiveEmptyCloud(img: Image, config: StereoConfig, cloud: Cloud)
    requires config.disparityStep > 0 && config.pixelStep > 0
    requires config.minDisparity >= 0.0
    requires IsStereoCloud(img, img, config, cloud)
    ensures cloud == map[]
  {
    forall p | p in cloud ensures false {
      IdenticalImagesKeepDisparityZero(img, p.0, p.1, config);
    }
  }

  /**
    With positive baseline and focal length and a non-negative minimum disparity, an
    accepted disparity projects to a finite point in front of the camera whose depth lies
    strictly between baseline*focal/maxDisparity and baseline*focal/minDisparity.
  */
  lemma {:induction false} AcceptedDepthBounds(config: StereoConfig, cx: real, cy: real, x: int, y: int, d: int)
    requires config.baseline > 0.0 && config.focalLength > 0.0 && config.minDisparity >= 0.0
    requires Accepted(config, d)
    ensures Project(config, cx, cy, x, y, d).Finite? && Project(config, cx, cy, x, y, d).z > 0.0
    ensures Project(config, cx, cy, x, y, d).z * config.maxDisparity > config.baseline * config.focalLength
    ensures Project(config, cx, cy, x, y, d).z * config.minDisparity < config.baseline * config.focalLength
  {
    var pos := Project(config, cx, cy, x, y, d);
    DepthBetween(pos.z, d as real, config.baseline * config.focalLength, config.minDisparity, config.maxDisparity);
  }

  /**
    Every point of a cloud carries an accepted disparity and the projection of its pixel
    at that disparity, so `AcceptedDepthBounds` applies to it.
  */
  lemma CloudPointIsProjection(left: Image, right: Image, config: StereoConfig, cloud: Cloud, p: (int, int))
    requires config.disparityStep > 0 && config.pixelStep > 0
    requires IsStereoCloud(left, right, config, cloud)
    requires p in cloud
    ensures cloud[p].position == Project(config, CenterX(left), CenterY(left), p.0, p.1, cloud[p].disparity)
    ensures Accepted(config, cloud[p].disparity)
  {
  }

  lemma DepthBetween(z: real, d: real, bf: real, lo: real, hi: real)
    requires bf > 0.0 && z * d == bf && 0.0 <= lo < d < hi
    ensures z > 0.0 && z * hi > bf && z * lo < bf
  {
    assert z * (hi - d) > 0.0;
    assert z * (d - lo) > 0.0;
  }

  // ---------------------------------------------------------------------------
  // The algorithm

  /** The inner search of the pixel loop: the disparity kept for pixel (x, y). */
  method MatchDisparity(left: Image, right: Image, x: int, y: int, config: StereoConfig) returns (bestDisparity: int)
    requires config.disparityStep > 0
    ensures bestDisparity == BestDisparity(left, right, x, y, config)
  {
    var step := config.disparityStep;
    ghost var costs := Costs(left, right, x, y, config);
    ghost var span := x - MaxSearchX(x, left.minX, config.maxDisparity);
    bestDisparity := 0;
    var minDiff := MaxFloat64;

    var maxSearchX := x;
    if x - TruncToInt(config.maxDisparity) > left.minX {
      maxSearchX := x - TruncToInt(config.maxDisparity);
    }

    var searchX := x;
    ghost var k: nat := 0;
    while searchX >= maxSearchX
      invariant searchX == x - k * step
      invariant maxSearchX == x - span
      invariant k <= |costs|
      invariant k == 0 ==> bestDisparity == 0 && minDiff == MaxFloat64
      invariant k > 0 ==> (bestDisparity == ArgMinFirst(costs[..k]) * step
                           && minDiff == costs[ArgMinFirst(costs[..k])])
      decreases searchX - maxSearchX
    {
      assert SearchColumn(x, step, k) == searchX;
      var diff := PixelDifference(left, right, x, y, searchX, y);
      assert diff == costs[k];
      ArgMinFirstExtend(costs, k);
      if diff < minDiff {
        minDiff := diff;
        bestDisparity := x - searchX;
      }
      MulSucc(k, step);
      searchX := searchX - step;
      k := k + 1;
    }
    assert SearchColumn(x, step, k) == searchX;
    assert costs[..k] == costs;
  }

  /**
    One pass of the x loop over row y: the cloud gains exactly the sampled pixels of
    row y whose kept disparity passes the filter, each with its point.
  */
  method EmitRow(left: Image, right: Image, config: StereoConfig, cx: real, cy: real, y: int, pc0: Cloud)
    returns (pc: Cloud)
    requires config.disparityStep > 0 && config.pixelStep > 0
    requires cx == CenterX(left) && cy == CenterY(left)
    requires OnGrid(y, left.minY, config.pixelStep) && y < left.minY + left.height
    requires forall p :: p in pc0 ==> p.1 < y
    requires forall p :: p in pc0 ==> pc0[p] == PointAt(left, right, config, p.0, p.1)
    ensures forall p :: p in pc <==>
              p in pc0 || (p.1 == y && Sampled(left, config.pixelStep, p.0, p.1)
                           && Accepted(config, BestDisparity(left, right, p.0, p.1, config)))
    ensures forall p :: p in pc ==> pc[p] == PointAt(left, right, config, p.0, p.1)
  {
    pc := pc0;
    var step := config.pixelStep;
    var x := left.minX;
    while x < left.minX + left.width
      invariant OnGrid(x, left.minX, step)
      invariant forall p :: p in pc <==>
                  p in pc0 || (p.1 == y && p.0 < x && Sampled(left, step, p.0, p.1)
                               && Accepted(config, BestDisparity(left, right, p.0, p.1, config)))
      invariant forall p :: p in pc ==> pc[p] == PointAt(left, right, config, p.0, p.1)
      decreases left.minX + left.width - x
    {
      var c := At(left, x, y);
      var r8, g8, b8 := High8(c.r), High8(c.g), High8(c.b);
      var bestDisparity := MatchDisparity(left, right, x, y, config);
      if config.minDisparity < bestDisparity as real < config.maxDisparity {
        var position := Project(config, cx, cy, x, y, bestDisparity);
        pc := pc[(x, y) := CloudPoint(bestDisparity, position, NRGBA(r8, g8, b8, 1))];
      }
      forall xx | OnGrid(xx, left.minX, step) && x < xx ensures x + step <= xx {
        GridGap(x, xx, left.minX, step);
      }
      GridNext(x, left.minX, step);
      x := x + step;
    }
  }

  /**
    Point cloud of a stereo pair: fails when the two images differ in width or height;
    otherwise emits, for each sampled left pixel, a point when the kept disparity passes
    the filter.
  */
  method StereoToPointCloud(left: Image, right: Image, config: StereoConfig) returns (res: Result<Cloud>)
    requires config.disparityStep > 0 && config.pixelStep > 0
    ensures left.width != right.width || left.height != right.height ==> res == Failure(DimensionMismatch)
    ensures left.width == right.width && left.height == right.height ==>
              res.Success? && IsStereoCloud(left, right, config, res.value)
  {
    if left.width != right.width || left.height != right.height {
      return Failure(DimensionMismatch);
    }
    var cx := left.width as real / 2.0;
    var cy := left.height as real / 2.0;
    var pc: Cloud := map[];
    var step := config.pixelStep;

    var y := left.minY;
    while y < left.minY + left.height
      invariant OnGrid(y, left.minY, step)
      invariant forall p :: p in pc <==>
                  Sampled(left, step, p.0, p.1) && p.1 < y && Accepted(config, BestDisparity(left, right, p.0, p.1, config))
      invariant forall p :: p in pc ==> pc[p] == PointAt(left, right, config, p.0, p.1)
      decreases left.minY + left.height - y
    {
      pc := EmitRow(left, right, config, cx, cy, y, pc);
      forall yy | OnGrid(yy, left.minY, step) && y < yy ensures y + step <= yy {
        GridGap(y, yy, left.minY, step);
      }
      GridNext(y, left.minY, step);
      y := y + step;
    }
    return Success(pc);
  }
}
