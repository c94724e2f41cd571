# Webcam pose estimation: crop geometry and pose drawing

This project models the two computational parts of a real-time webcam pose
estimator. The program grabs a camera frame. It cuts out a centred crop with the
model's aspect ratio and scales it to the model's input size. It runs a MoveNet
pose model and then draws the detected skeletons onto the crop.

- `crop.dfy`, module `Crop`, models `resizeFrame`. `ResizeFrame` gives the
  `CropRegion` cut out of a `width x height` frame for a
  `targetWidth x targetHeight` input. The lemmas prove these properties:
  - the crop lies inside the frame;
  - exactly one axis is cut;
  - the cut axis keeps the target aspect ratio up to the one pixel that ceiling
    rounding adds;
  - the crop is centred;
  - a frame that already has the target ratio is used whole.

  The source compares two `double` scale factors and divides by one. Here that
  arithmetic is exact: `ScaleTestExact` and `CropLengthIsCeiling` show that the
  integer cross-multiplications give the same branch and the same ceiling as the
  real-number formulas.
- `pose.dfy`, module `Pose`, models `drawKeypoints`. The output tensor is a
  `seq<real>`. It holds 17 `(y, x, confidence)` triples for one pose, or one
  56-float record per pose. In that record, `[ymin, xmin, ymax, xmax, score]`
  follow the triples.
  - Every OpenCV drawing call is a `DrawCmd`: `Box`, `Dot`, `Line` or `FpsText`. A `Dot` carries
    its keypoint index and a `Line` the index of its entry in the skeleton table.
  - `DrawKeypoints` builds the command list with the source's loops and is proved
    equal to the specification `Render`.
  - `RenderMembers` proves that `Render` draws exactly what the loop-free predicate
    `Drawn` allows, plus the frame-rate label.
  - Further lemmas state the gates, the buffer offsets and the drawing order.

  The thresholds are a `Thresholds` parameter. `DefaultThresholds` holds the
  program's values.

The source's single `drawKeypoints` function is split into four methods, each
proved against its part of the specification:
- `DrawKeypoints` runs the loop over poses and then draws the frame rate;
- `DrawPose` is one pass of that loop, with the score gate and the box;
- `DrawDots` is the keypoint loop;
- `DrawSkeleton` is the edge loop.

`DrawPose` returns where the source writes `continue`.

## Model

| member | source | states |
|---|---|---|
| `Crop.ResizeFrame` | src/main.cpp:13-47 | the crop lies inside the frame and is not empty: `0 <= x`, `0 < w`, `x + w <= width`, and the same for `y`, `h` and `height` |
| `Crop.CeilDiv` | src/main.cpp:30 | the crop length is the least integer `r` with `r * b >= a`, i.e. `(r - 1) * b < a` |
| `Crop.TruncHalf` | src/main.cpp:32 | C++ `n / 2`: for `n >= 0`, `0 <= 2r <= n <= 2r + 1`; for `n < 0` the quotient is truncated toward zero |
| `Crop.ScaleTestExact` | src/main.cpp:23-28 | `targetHeight/height > targetWidth/width` in real arithmetic holds exactly when `targetHeight*width > targetWidth*height` |
| `Crop.CropLengthIsCeiling` | src/main.cpp:28-39 | the crop length is the ceiling of the real quotient `targetWidth / yScale` (width cut) or `targetHeight / xScale` (height cut) |
| `Crop.ScaledCeiling` | src/main.cpp:30 | `CeilDiv(t*len, s)` is the ceiling of `t / (s / len)` |
| `Crop.OneAxisOnly` | src/main.cpp:28-43 | when `targetHeight*width > targetWidth*height` the crop is `(pad, 0, w, height)`, otherwise `(0, pad, width, h)`: the other axis stays whole |
| `Crop.AspectWithinOnePixel` | src/main.cpp:29-39 | `0 <= w*targetHeight - targetWidth*h < targetHeight` in the first branch, `0 <= h*targetWidth - targetHeight*w < targetWidth` in the second |
| `Crop.Centred` | src/main.cpp:31-43 | the pad is `(sourceLen - cropLen) / 2`, so the far margin equals the near one or exceeds it by one pixel, on both axes |
| `Crop.SameAspectFullFrame` | src/main.cpp:37-43 | when `targetHeight*width == targetWidth*height` the crop is the whole frame `(0, 0, width, height)` |
| `Crop.CeilDivAtMost` | src/main.cpp:39 | if `a <= n*b` the rounded-up quotient is at most `n`, so the crop never exceeds the frame |
| `Pose.ConnectionsInRange` | src/main.cpp:69-70 | the skeleton has 16 edges and every index is below 17, so edge reads stay in the 51-float keypoint block |
| `Pose.DrawKeypoints` | src/main.cpp:72-130 | the commands drawn equal `Render`: all poses in order, then the frame-rate label |
| `Pose.DrawPose` | src/main.cpp:84-126 | a pose whose score passes the gate appends exactly `PoseCmds` (box when multi-pose, then dots, then lines); a gated pose appends nothing |
| `Pose.DrawDots` | src/main.cpp:102-109 | the keypoint loop appends exactly the dots of `KeypointCmds` for the 17 keypoints |
| `Pose.DrawSkeleton` | src/main.cpp:111-125 | the skeleton loop appends exactly the lines of `EdgeCmds` for the 16 edges |
| `Pose.KeypointCmdsMembers` | src/main.cpp:103-109 | a dot is among a pose's dots iff its keypoint is confident and the dot sits at that keypoint's position |
| `Pose.EdgeCmdsMembers` | src/main.cpp:112-125 | a line is among a pose's lines iff it is tagged with table entry `e < n` whose pair is `(from, to)`, both ends are confident and it joins their positions |
| `Pose.PoseCmdsMembers` | src/main.cpp:84-126 | for a pose that passes the gate, what is drawn for it is exactly what `Drawn` allows with that pose index |
| `Pose.PosesCmdsMembers` | src/main.cpp:84-126 | what is drawn for the first `n` poses is exactly what `Drawn` allows with pose index below `n` |
| `Pose.RenderMembers` | src/main.cpp:72-130 | a command is drawn iff it is the frame-rate label or `Drawn` allows it: the loops and the loop-free gating agree |
| `Pose.DotDrawn` | src/main.cpp:103-108 | a dot is drawn iff its pose is shown and `threshold <= output[56p + 3k + 2]` (equality is drawn); it is placed at offsets `56p + 3k`, `+1` |
| `Pose.LineDrawn` | src/main.cpp:112-124 | a line for table entry `e` is drawn iff `e < 16`, entry `e` is its `(from, to)` pair, its pose is shown and both endpoint confidences reach the threshold, independently of other edges |
| `Pose.BoxDrawn` | src/main.cpp:87-99 | a box is drawn iff `poses > 1` and the pose score at offset 55 reaches the pose threshold; its corners and score are offsets 51..55 |
| `Pose.GatedPoseDrawsNothing` | src/main.cpp:87-89 | a multi-pose record whose score is below the pose threshold contributes no box, dot or line |
| `Pose.FpsTextOnceLast` | src/main.cpp:128-129 | the frame-rate label is drawn exactly once, last, whatever the poses hold |
| `Pose.ThresholdIsInclusive` | src/main.cpp:106 | with threshold 0.2, a single-pose keypoint of confidence 0.2 is drawn and one of 0.19 is not |
| `Pose.KeypointCmdsOrdered` | src/main.cpp:103 | a pose's dots come in keypoint order |
| `Pose.EdgeCmdsOrdered` | src/main.cpp:112 | a pose's lines come in strictly increasing table order, so no edge is drawn twice |
| `Pose.PoseCmdsOrdered` | src/main.cpp:87-125 | within a pose: box, then dots, then lines |
| `Pose.PosesCmdsOrdered` | src/main.cpp:84 | the commands of all poses are ordered: by pose index, and within a pose as above |
| `Pose.EarlierPosesFirst` | src/main.cpp:84 | everything drawn for poses before `n` comes before anything drawn for pose `n` |
| `Pose.DrawOrder` | src/main.cpp:84-129 | the whole drawing is ordered by pose, then box, dots (by keypoint), lines (by table entry), with the label last |

## Left out

- `runInterpreter` (src/main.cpp:49-65) is not modelled. It copies the input into the engine's tensor, runs inference, times it and returns the engine's output pointer. These are foreign library calls and a clock. The output it returns is the `output` parameter of `DrawKeypoints`, whose precondition `Fits` requires 51 floats for one pose and 56 per pose otherwise.
- `main` (src/main.cpp:132-269) is not modelled: console prompts, model loading, tensor allocation, the camera loop, the window and the ESC key. The same goes for the smoothing `avgFrameMs += 0.05 * (frameMs - avgFrameMs)`. The smoothed value enters `Render` only as the `frameMs` carried by `FpsText`.
- The duplicated `inputWidth % 32` check at src/main.cpp:203 belongs to that setup code and is not modelled.
- `cv::resize` is not modelled. Its output size is the `targetWidth x targetHeight` passed to it, and the interpolation is library code.
- Pixel work is not modelled. Commands carry the normalised coordinates read from the buffer. The float-to-`int` truncation of pixel positions (src/main.cpp:92-95, 108, 121-122) is left out. So are the `cvRound` labels of the score percentage and of `1000 / frameMs`, and colours, radii and fonts.
- Crop.ScaleTestExact: the source compares two `double` scale factors and divides by one (src/main.cpp:23-30, 39). The model uses exact rational arithmetic. Floating-point rounding is not modelled. Near the equal-ratio case, or when the exact quotient is an integer, the `double` result can differ from the exact one.
- Crop.ResizeFrame: in-bounds holds in exact arithmetic only. With `double` scales, a 640 x 480 frame and an 896 x 672 target give `xScale == yScale == fl(1.4)`. The source then takes the height branch. `672 / fl(1.4)` rounds to 480.00000000000006, so `cvCeil` yields a crop height of 481 and the rectangle `(0, 0, 640, 481)` reaches one row past the frame. This is worked out by hand in IEEE double arithmetic, not executed. The model's contract, which says the crop lies inside the frame, does not describe that rounding.
- Crop.SameAspectFullFrame: the whole frame is promised in exact arithmetic only. For the same 640 x 480 → 896 x 672 case, the `double` computation asks for 481 rows of a 480-row frame.
- Crop.AspectWithinOnePixel: the one-pixel bound holds in exact arithmetic only. For 1280 x 720 → 416 x 416, `416 / yScale` rounds to 720.0000000000001, so the source crops 721 columns where the model crops 720. Then `721*416 - 416*720 = 416`, which is not below the bound of 416.
- Crop.ResizeFrame: frame and target sizes are unbounded integers. The 32-bit `int` products the model cross-multiplies are not overflow-checked, because the source never forms them.
- Pose.Thresholds: the thresholds are exact reals. The source's `0.2f` is the nearest `float`, not exactly 0.2.
- `DrawKeypoints` returns a list of commands. It does not draw into an image that the caller shares.
