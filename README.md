# Stereo camera and optical-flow movement sensor, modelled in Dafny

The repository provides two robot components.

- A **stereo camera**. It takes one frame from a left and a right camera and turns the pair
  into a coloured point cloud. For every sampled pixel of the left image it searches along the
  same row of the right image for the best-matching pixel. The match is a single-pixel sum of
  absolute RGB differences, and the first minimum wins. Disparities strictly between the
  configured minimum and maximum are back-projected with the pinhole model
  `z = baseline * focal / d`.
- An **optical-flow movement sensor**. A polling loop feeds successive left-camera frames to
  sparse feature tracking. It averages the tracked displacements into a linear velocity
  (pixels per second over the focal length) and an angular velocity about the optical axis.
  Readers get the latest sample together with a freshness verdict.

The model has six modules, one file each.

| file | module | models |
|---|---|---|
| `outcomes.dfy` | `Outcomes` | `Option`, `Result` and the error values the components return |
| `images.dfy` | `Images` | 16-bit RGBA images with an origin, the 16-to-8-bit shift, a camera's answer |
| `stereo.dfy` | `Stereo` | `stereo.go`: pixel difference, disparity search, filter, projection, the cloud |
| `flow.dfy` | `OpticalFlow` | `flow/flow.go`: `computeFlow`, `normalizeAngle`, `imageToMat` |
| `movement_sensor.dfy` | `MovementSensor` | `flow/movement_sensor.go`: config, `tooOld`, the readers, `doLoop`, one turn of `run` |
| `stereo_camera.dfy` | `StereoCamera` | `module.go`: config getters, `Validate`, `NextPointCloud` |

How the imperative parts are modelled:

- The loops of the source are `while` loops in methods.
  - `MatchDisparity` and `StereoToPointCloud` are proved against the specification functions
    `BestDisparity` and `IsStereoCloud`.
  - `NormalizeAngle` is proved against `NormalizedAngle`.
  - `SumTracked` is proved against `Aggregate`.
  - `ImageToMat` is proved against `BgrByte`.
- The properties the source promises are lemmas about those specification functions.
- The sensor and its loop state are classes whose methods update their fields.
- Channel values, pixel coordinates, tracked points and the difference sums are exact integers.
  The source's float64 arithmetic on them is exact, because every value is far below 2^53.
- Depths and velocities are `real`.
- Time is an integer number of nanoseconds, and the clock is a parameter (`now`).
- The camera's answer is a `Capture` value. OpenCV's tracking output and `atan2` are also
  parameters.

## Model

| member | source | states |
|---|---|---|
| Images.High8 | stereo.go:61 | the 8-bit value of a 16-bit channel `c` is the `b` with `b*256 <= c < b*256 + 256`, so it fits in a byte |
| Stereo.PixelDifference | stereo.go:28-38 | the difference of two pixels lies in [0, 3*65535] and is zero exactly when their R, G and B channels agree |
| Stereo.PixelDifferenceSymmetric | stereo.go:28-38 | swapping the two pixels does not change the difference |
| Stereo.TruncToInt | stereo.go:68-69 | Go's `int(v)` truncates toward zero: for v >= 0 it is the floor and for v < 0 the ceiling |
| Stereo.MaxSearchX | stereo.go:67-70 | the search bound is x - int(maxDisparity) when that lies strictly right of minX, and x itself otherwise (no clamping to the edge) |
| Stereo.VisitedColumns | stereo.go:72 | the search visits candidate k exactly when its column x - k*step is not left of the search bound |
| Stereo.CandidateCountSpec | stereo.go:72 | the search loop visits candidate k (column x - k*step) exactly when k*step <= x - maxSearchX |
| Stereo.Costs | stereo.go:72-74 | index k is a cost exactly when column x - k*step is not left of the search bound, and that cost is the pixel difference between (x, y) on the left and (x - k*step, y) on the right |
| Stereo.ArgMinFirstIsFirstMinimum | stereo.go:76-79 | a strict-`<` scan keeps a minimum, and every earlier element is strictly larger |
| Stereo.ArgMinFirstExtend | stereo.go:76-79 | one more visited candidate replaces the kept one only when it is strictly cheaper |
| Stereo.BestIndexIsFirstMinimum | stereo.go:64-80 | the kept candidate is visited and has minimal cost; every smaller disparity visited costs strictly more |
| Stereo.SearchColumnsInRange | stereo.go:67-72 | every column read lies in [maxSearchX, x], and never left of the image's first column when x is a column of the image |
| Stereo.BestDisparityBounds | stereo.go:64-80 | the kept disparity lies in [0, max(0, int(maxDisparity))]; disparity 0 is visited whenever int(maxDisparity) >= 0; only disparity 0 is searched when x - int(maxDisparity) <= minX |
| Stereo.IdenticalImagesKeepDisparityZero | stereo.go:64-80 | with identical images disparity 0 costs nothing and is kept |
| Stereo.Accepted | stereo.go:83 | a disparity passes only if minDisparity < maxDisparity, and with minDisparity >= 0 only a positive disparity passes, so its projection is finite |
| Stereo.Project | stereo.go:85-89 | the projection is finite exactly when d and the focal length are non-zero; then z*d = baseline*focal, x3d*f = (x - cx)*z and y3d*f = (y - cy)*z |
| Stereo.DepthPositiveAndDecreasing | stereo.go:85 | for positive baseline and focal length, depth is positive and strictly decreasing in the disparity |
| Stereo.AcceptedDepthBounds | stereo.go:83-85 | an accepted disparity gives a finite point whose depth lies strictly between B*f/maxDisparity and B*f/minDisparity |
| Stereo.PointColor | stereo.go:60-61 | each colour channel of a point is the 16-bit channel shifted right by 8, and alpha is 1 |
| Stereo.CloudPointIsProjection | stereo.go:83-95 | every point of a cloud carries an accepted disparity and the projection of its pixel at that disparity |
| Stereo.StereoCloudUnique | stereo.go:40-104 | the characterisation of the cloud determines it: two clouds of the same pair are equal |
| Stereo.IdenticalImagesGiveEmptyCloud | stereo.go:72-83 | identical left and right images give an empty cloud whenever minDisparity >= 0 |
| Stereo.MatchDisparity | stereo.go:64-80 | the search loop returns the first disparity of minimal cost |
| Stereo.EmitRow | stereo.go:58-100 | one pass of the x loop adds exactly the sampled pixels of its row whose kept disparity passes the filter, each with its disparity, projection and colour, and keeps the earlier rows |
| Stereo.StereoToPointCloud | stereo.go:40-104 | differing width or height is an error; otherwise the cloud holds a point for a pixel exactly when the pixel is sampled and its disparity passes the filter, with that disparity, its projection and its colour |
| OpticalFlow.NormalizedAngleSpec | flow/flow.go:143-151 | the normalised angle lies in [-pi, pi], differs from the input by whole turns, and equals the input when the input is already in [-pi, pi] |
| OpticalFlow.NormalizedAngleIdempotent | flow/flow.go:143-151 | normalising twice is normalising once |
| OpticalFlow.NormalizeAngle | flow/flow.go:143-151 | the two loops terminate with the closed-form normalised angle |
| OpticalFlow.CountIsTrackedCorrespondences | flow/flow.go:97-116 | `validPoints` is the number of correspondences whose status is 1 |
| OpticalFlow.UntrackedIgnored | flow/flow.go:97-116 | correspondences whose status is not 1 do not influence the sums, wherever their points are |
| OpticalFlow.UniformSums | flow/flow.go:97-116 | when every tracked point moved by (dx, dy), the sums are count*dx and count*dy, and the angle sum is 0 when nothing moved |
| OpticalFlow.ExpectedFlow | flow/flow.go:24-140 | linear z and angular x, y are always 0; an error is returned exactly when the elapsed time is not positive, and then with zero vectors |
| OpticalFlow.NothingTrackedGivesZero | flow/flow.go:119-121 | with no correspondence tracked (none detected included) the result is zero vectors and no error |
| OpticalFlow.UniformTranslationVelocity | flow/flow.go:124-139 | when every tracked point moved by (dx, dy), the linear velocity is (dx/dt/f, dy/dt/f, 0) and there is no error |
| OpticalFlow.StationaryPointsGiveZeroVelocity | flow/flow.go:104-139 | when no tracked point moved, both velocities are zero |
| OpticalFlow.SumTracked | flow/flow.go:89-117 | the accumulation loop computes the sums and the count over the tracked correspondences |
| OpticalFlow.ComputeFlow | flow/flow.go:24-140 | the method's result is the expected flow, so every property of `ExpectedFlow` holds for it |
| OpticalFlow.BgrLayout | flow/flow.go:165-169 | bytes 3x, 3x+1 and 3x+2 of row y hold blue, green and red of pixel (x + minX, y + minY), each shifted right by 8 |
| OpticalFlow.ImageToMat | flow/flow.go:154-174 | a fresh height x 3*width buffer in which every byte holds the BGR layout of the image |
| MovementSensor.GetFocalLength | flow/movement_sensor.go:38-43 | the focal length is positive: the configured one when positive, otherwise 30 |
| MovementSensor.Validate | flow/movement_sensor.go:45-54 | an empty left fails first, then an empty right; success exactly when both are set, listing [left, right] |
| MovementSensor.CycleOutcome | flow/movement_sensor.go:191-229 | a camera error is passed through and an empty image list gives the no-images error; with an image it skips exactly when there is no previous frame or the gap exceeds 1 s, fails only on a non-positive gap, and otherwise computes the flow estimate of the previous frame over the capture gap |
| MovementSensor.GoodCycleComputes | flow/movement_sensor.go:207-228 | an image, a previous frame and a gap in (0, 1 s] always give computed velocities |
| MovementSensor.LoopState.constructor | flow/movement_sensor.go:186-189 | the loop starts with no previous frame |
| MovementSensor.FlowSensor.constructor | flow/movement_sensor.go:90-96 | a new sensor holds zero velocities, no error and the zero time |
| MovementSensor.FlowSensor.TooOld | flow/movement_sensor.go:176-184 | a stored error is returned whatever the age; otherwise the sample is stale exactly when more than one second old, and exactly one second is fresh |
| MovementSensor.FlowSensor.LinearVelocity | flow/movement_sensor.go:130-134 | the reader returns the stored linear velocity with the freshness verdict |
| MovementSensor.FlowSensor.AngularVelocity | flow/movement_sensor.go:136-140 | the reader returns the stored angular velocity with the freshness verdict |
| MovementSensor.FlowSensor.DoLoop | flow/movement_sensor.go:191-229 | without an image the loop state is untouched; with one, every exit records it and its capture time; the sample changes, and is stamped `now`, only when the flow was computed |
| MovementSensor.FlowSensor.RunCycle | flow/movement_sensor.go:231-240 | the cycle's error becomes the stored error (a good cycle clears it); a failing cycle stamps the update time, so readers see that error from then on; the loop state carried to the next cycle is the new image and its capture time once an image was obtained, and unchanged otherwise |
| StereoCamera.GetMinDisparity | module.go:44-49 | the minimum disparity is positive: the configured one when positive, otherwise 1 |
| StereoCamera.GetMaxDisparity | module.go:51-56 | the maximum disparity is positive: the configured one when positive, otherwise 64 |
| StereoCamera.GetDisparityStep | module.go:58-60 | the disparity stride is 1 whatever is configured |
| StereoCamera.GetPixelStep | module.go:62-64 | the pixel stride is 1 whatever is configured |
| StereoCamera.Validate | module.go:66-83 | left, right, distance-meters and focal-length-pixels are checked in that order and the first failure is reported; success exactly when all hold, listing [left, right] |
| StereoCamera.PointCloudConfig | module.go:177-186 | the stereo configuration carries the configured baseline and focal length, the defaulted disparity bounds (the configured ones when positive, otherwise 1 and 64), and unit strides |
| StereoCamera.ValidatedDepthBounds | module.go:177-187 | under a validated configuration an accepted disparity gives a finite point in front of the camera, within the depth range of the disparity window |
| StereoCamera.ValidatedCloudInFront | module.go:156-188 | under a validated configuration every point of the cloud lies in that depth range |
| StereoCamera.NextPointCloud | module.go:156-188 | camera errors pass through, left first; anything but exactly one image per camera is an error, left checked first; otherwise the result is the stereo cloud of the two frames |
| StereoCamera.DecodeAsWritten | module.go:34-35 | with the tags as written, "max-disparity" fills the minimum and "min-disparity" the maximum |
| StereoCamera.Decode | module.go:34-35 | each disparity key fills the field of its own name |
| StereoCamera.SwappedTagsRejectEveryDisparity | module.go:34-35 | with the tags as written, a window 0 < min-disparity < max-disparity accepts no disparity, and the cloud is always empty |
| StereoCamera.SwappedTagsExample | module.go:34-35 | min-disparity 1 and max-disparity 64 accept no disparity under the tags as written |
| StereoCamera.DecodedWindowIsConfigured | module.go:34-35 | with each key filling its own field, the filter accepts exactly the disparities strictly between min-disparity and max-disparity |

Notes on behaviour that the model keeps as the code has it:

- The search is not clamped to the left edge. When `x - int(MaxDisparity)` is not strictly right
  of the image's first column, only disparity 0 is searched (`Stereo.MaxSearchX`,
  `Stereo.BestDisparityBounds`).
- `normalizeAngle` returns `-pi` unchanged. Its range is therefore [-pi, pi], not (-pi, pi].
  The model follows the code.
- The dimension check compares only width and height. The right image is then read at
  left-image coordinates. Each image keeps its own origin, and `Images.At` reads transparent
  black outside an image, as Go's `image.RGBA`, `image.NRGBA` and `image.RGBA64` do.
- Apart from the finding below, configurations are taken as decoded field values.
  `StereoCamera.Decode` gives each disparity field its intended meaning.

## Left out

- OpenCV is not part of this model: colour conversion, `GoodFeaturesToTrack`, `CalcOpticalFlowPyrLK`, the point vectors and Mat lifetimes (flow/flow.go:46-84). The point lists and status bytes are an input (`Tracking`), unrelated to the frames' pixels, and `math.Atan2` is a function parameter.
- Floating-point rounding in the projection, the velocity divisions and the angle loops; these are computed over `real`. `Pi` is the exact value of the float64 `math.Pi`.
- OpticalFlow.NormalizeAngle: exact arithmetic, so the float64 case where subtracting 2*pi no longer changes a huge input (and the loop never ends) is not modelled; the source only passes differences of two `atan2` values.
- OpticalFlow.ComputeFlow: requires a non-zero focal length, where Go would divide to an infinity or NaN; the only caller passes `GetFocalLength`, which is positive.
- OpticalFlow.ComputeFlow: the `imageToMat` error returns (flow/flow.go:33-35, 39-41) are not modelled, because `imageToMat` never fails.
- Images.At: other image types answer differently outside their bounds (`image.Gray` gives opaque black, `image.YCbCr`, which JPEG decoding yields, gives the colour of YCbCr (0, 0, 0)); the colour a search reads left of the right image's first column therefore depends on the image type, which the model does not capture.
- Stereo.StereoToPointCloud: requires positive pixel and disparity strides, because with a zero stride the source's loops never end; `NextPointCloud` always passes 1.
- Stereo.TruncToInt: does not model Go's implementation-specific result for values outside the 64-bit range.
- Stereo.Project: a zero disparity or focal length yields `NonFinite` instead of the specific infinity or NaN.
- The RDK point-cloud library (stereo.go:54, 92-98): the cloud is a map keyed by the left-image pixel; `pc.Set`'s error return and its merging of points with equal coordinates are not modelled.
- Concurrency and timing: the goroutine, `dataLock`, `time.Sleep`, the cancel context and the unsynchronised writes in `run` (flow/movement_sensor.go:231-239). One cycle is modelled at a time with an explicit clock.
- MovementSensor.FlowSensor.DoLoop: the two `time.Now()` calls (flow/movement_sensor.go:226, 236) are one `now` parameter, and `Duration` saturation is not modelled.
- Logging, component registration, constructors of the Go components, `Close`, `DoCommand`, `Readings`, `Properties`, the unimplemented movement-sensor methods and the `Image`/`Images` pass-throughs.
- JSON decoding in general; only the mapping of the two disparity keys is modelled, for the finding below.
- `cmd/cli/main.go`, `cmd/module/main.go` and `flow/flow_test.go` are not part of this model.

## Findings

| source | as written | input that shows it | evidently intended | confidence | as-written member | corrected member |
|---|---|---|---|---|---|---|
| module.go:34-35 | `MinDisparity` is tagged `"max-disparity"` and `MaxDisparity` is tagged `"min-disparity"` | attributes `"min-disparity": 1, "max-disparity": 64` decode to minimum 64 and maximum 1; no disparity satisfies 64 < d < 1, so every cloud is empty | each key fills the field of its own name, so the filter accepts 1 < d < 64 | high; not executed | StereoCamera.SwappedTagsRejectEveryDisparity | StereoCamera.DecodedWindowIsConfigured |
