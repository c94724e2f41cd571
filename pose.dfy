/** Decoding of the pose model's output tensor and the drawing it causes.

    The model writes a flat buffer of floats. With one pose it holds 17 keypoint
    triples `(y, x, confidence)`; with several poses it holds one 56-float record per
    pose: the 17 triples, then `[ymin, xmin, ymax, xmax, score]` at offsets 51..55.
    `drawKeypoints` walks this buffer and draws, per pose, a bounding box (multi-pose
    only), a dot per confident keypoint and a line per skeleton edge whose two ends are
    confident; then the frame rate, once.

    Each drawing call becomes a `DrawCmd`; the coordinates a command carries are the
    normalised values read from the buffer. `DrawKeypoints` builds the command list
    with the source's loops and is proved equal to the specification `Render`.
 */
module Pose {

  /** Keypoints per pose. (A function rather than a constant, so that the verifier
      does not unroll the keypoint recursion on a literal count.) */
  function KeypointCount(): nat { 17 }
  /** Floats per pose record in the multi-pose layout. */
  const PoseStride: nat := 56
  /** Offset, inside a pose record, of `[ymin, xmin, ymax, xmax, score]`. */
  const BoxOffset: nat := 51

  /** The skeleton: pairs of keypoint indices joined by a line. */
  function Connections(): seq<(nat, nat)>
  {
    [(0, 1), (0, 2), (1, 3), (2, 4), (5, 6), (5, 7), (7, 9), (6, 8),
     (8, 10), (5, 11), (6, 12), (11, 12), (11, 13), (13, 15), (12, 14), (14, 16)]
  }

  /** Every skeleton edge joins two of the 17 keypoints, so the reads of an edge's two
      triples stay inside the 51-float keypoint block of its pose. */
  lemma ConnectionsInRange()
    ensures |Connections()| == 16
    ensures forall i :: 0 <= i < |Connections()| ==>
              Connections()[i].0 < KeypointCount() && Connections()[i].1 < KeypointCount()
  {
  }

  /** Confidence thresholds below which a pose or a keypoint is not drawn. */
  datatype Thresholds = Thresholds(pose: real, keypoint: real)

  /** The thresholds the program is built with (0.2 for both). */
  const DefaultThresholds := Thresholds(0.2, 0.2)

  /** A normalised position: `y` and `x` are fractions of the frame's height and width. */
  datatype Point = Point(y: real, x: real)

  /** One drawing call on the display frame. */
  datatype DrawCmd =
    | Box(pose: nat, topLeft: Point, bottomRight: Point, score: real)  // rectangle and score label
    | Dot(pose: nat, keypoint: nat, at: Point)                         // filled keypoint marker
    | Line(pose: nat, edge: nat, from: nat, to: nat, a: Point, b: Point)  // skeleton edge `edge`
    | FpsText(frameMs: real)                                           // frame-rate label

  /** The buffer holds every float the decoder reads: 51 for a single pose,
      56 per pose otherwise. */
  predicate Fits(output: seq<real>, poses: nat)
  {
    (poses == 1 ==> |output| >= KeypointCount() * 3) &&
    (poses > 1 ==> |output| >= PoseStride * poses)
  }

  /** Offset of pose `p`'s record. */
  function PoseBase(p: nat): nat
  {
    PoseStride * p
  }

  /** Position of keypoint `k` of pose `p`, read as `(y, x)` at offset `56 * p + 3 * k`. */
  function KeypointAt(output: seq<real>, poses: nat, p: nat, k: nat): Point
    requires Fits(output, poses) && p < poses && k < KeypointCount()
  {
    var i := PoseBase(p) + 3 * k;
    Point(output[i], output[i + 1])
  }

  /** Confidence of keypoint `k` of pose `p`, the third float of its triple. */
  function Confidence(output: seq<real>, poses: nat, p: nat, k: nat): real
    requires Fits(output, poses) && p < poses && k < KeypointCount()
  {
    output[PoseBase(p) + 3 * k + 2]
  }

  /** Score of pose `p` in the multi-pose layout (offset 55 of its record). */
  function PoseScore(output: seq<real>, poses: nat, p: nat): real
    requires Fits(output, poses) && 1 < poses && p < poses
  {
    output[PoseBase(p) + BoxOffset + 4]
  }

  /** A pose is drawn unless the output is multi-pose and its score is below the threshold. */
  predicate PoseShown(output: seq<real>, poses: nat, th: Thresholds, p: nat)
    requires Fits(output, poses) && p < poses
  {
    poses <= 1 || !(PoseScore(output, poses, p) < th.pose)
  }

  /** A keypoint is confident unless its confidence is below the threshold. */
  predicate Confident(output: seq<real>, poses: nat, th: Thresholds, p: nat, k: nat)
    requires Fits(output, poses) && p < poses && k < KeypointCount()
  {
    !(Confidence(output, poses, p, k) < th.keypoint)
  }

  /** The bounding box of pose `p` with its score, drawn only in the multi-pose layout. */
  function BoxCmd(output: seq<real>, poses: nat, p: nat): DrawCmd
    requires Fits(output, poses) && 1 < poses && p < poses
  {
    var b := PoseBase(p) + BoxOffset;
    Box(p, Point(output[b], output[b + 1]), Point(output[b + 2], output[b + 3]), output[b + 4])
  }

  /** The dots for the first `n` keypoints of pose `p`, in keypoint order. */
  function KeypointCmds(output: seq<real>, poses: nat, th: Thresholds, p: nat, n: nat): seq<DrawCmd>
    requires Fits(output, poses) && p < poses && n <= KeypointCount()
  {
    if n == 0 then []
    else
      var k := n - 1;
      if Confident(output, poses, th, p, k)
      then KeypointCmds(output, poses, th, p, k) + [Dot(p, k, KeypointAt(output, poses, p, k))]
      else KeypointCmds(output, poses, th, p, k)
  }

  /** The lines for the first `n` skeleton edges of pose `p`, in table order. */
  function EdgeCmds(output: seq<real>, poses: nat, th: Thresholds, p: nat, n: nat): seq<DrawCmd>
    requires Fits(output, poses) && p < poses && n <= |Connections()|
  {
    if n == 0 then []
    else
      var (a, b) := Connections()[n - 1];
      if Confident(output, poses, th, p, a) && Confident(output, poses, th, p, b)
      then EdgeCmds(output, poses, th, p, n - 1) +
           [Line(p, n - 1, a, b, KeypointAt(output, poses, p, a), KeypointAt(output, poses, p, b))]
      else EdgeCmds(output, poses, th, p, n - 1)
  }

  /** The marks of pose `p`: all its dots, then all its lines. */
  function MarkCmds(output: seq<real>, poses: nat, th: Thresholds, p: nat): seq<DrawCmd>
    requires Fits(output, poses) && p < poses
  {
    KeypointCmds(output, poses, th, p, KeypointCount()) + EdgeCmds(output, poses, th, p, |Connections()|)
  }

  /** Everything drawn for a pose that passes the score gate: the box (multi-pose only),
      then the dots, then the lines. */
  function PoseCmds(output: seq<real>, poses: nat, th: Thresholds, p: nat): seq<DrawCmd>
    requires Fits(output, poses) && p < poses
  {
    if poses > 1 then [BoxCmd(output, poses, p)] + MarkCmds(output, poses, th, p)
    else MarkCmds(output, poses, th, p)
  }

  /** Everything drawn for the first `n` poses, in pose order; a pose below the score
      gate adds nothing. */
  function PosesCmds(output: seq<real>, poses: nat, th: Thresholds, n: nat): seq<DrawCmd>
    requires Fits(output, poses) && n <= poses
  {
    if n == 0 then []
    else if PoseShown(output, poses, th, n - 1)
    then PosesCmds(output, poses, th, n - 1) + PoseCmds(output, poses, th, n - 1)
    else PosesCmds(output, poses, th, n - 1)
  }

  /** The specification of `drawKeypoints`: all poses, then the frame-rate label. */
  function Render(output: seq<real>, poses: nat, frameMs: real, th: Thresholds): seq<DrawCmd>
    requires Fits(output, poses)
  {
    PosesCmds(output, poses, th, poses) + [FpsText(frameMs)]
  }

  /** `drawKeypoints`: draws every pose in index order, then the frame-rate label. */
  method DrawKeypoints(output: seq<real>, poses: nat, frameMs: real, th: Thresholds)
    returns (cmds: seq<DrawCmd>)
    requires Fits(output, poses)
    ensures cmds == Render(output, poses, frameMs, th)
  {
    cmds := [];
    for p := 0 to poses
      invariant cmds == PosesCmds(output, poses, th, p)
    {
      cmds := DrawPose(output, poses, th, p, cmds);
    }
    cmds := cmds + [FpsText(frameMs)];
  }

  /** One pass of the pose loop of `drawKeypoints`: the score gate and the bounding box
      (multi-pose only), then the keypoint and skeleton loops. */
  method DrawPose(output: seq<real>, poses: nat, th: Thresholds, p: nat, target: seq<DrawCmd>)
    returns (cmds: seq<DrawCmd>)
    requires Fits(output, poses) && p < poses
    ensures PoseShown(output, poses, th, p) ==> cmds == target + PoseCmds(output, poses, th, p)
    ensures !PoseShown(output, poses, th, p) ==> cmds == target
  {
    var pose := PoseStride * p;
    cmds := target;
    if poses > 1 {
      var box := pose + BoxOffset;
      var ymin, xmin := output[box], output[box + 1];
      var ymax, xmax := output[box + 2], output[box + 3];
      var score := output[box + 4];
      assert score == PoseScore(output, poses, p);
      if score < th.pose {
        return;
      }
      cmds := cmds + [Box(p, Point(ymin, xmin), Point(ymax, xmax), score)];
    }
    ghost var box := if poses > 1 then [BoxCmd(output, poses, p)] else [];
    ghost var dots := KeypointCmds(output, poses, th, p, KeypointCount());
    ghost var lines := EdgeCmds(output, poses, th, p, |Connections()|);
    assert cmds == target + box;
    cmds := DrawDots(output, poses, th, p, cmds);
    cmds := DrawSkeleton(output, poses, th, p, cmds);
    assert cmds == target + (box + (dots + lines));
  }

  /** The keypoint loop of `drawKeypoints` for pose `p`: appends a dot for each confident keypoint. */
  method DrawDots(output: seq<real>, poses: nat, th: Thresholds, p: nat, target: seq<DrawCmd>)
    returns (cmds: seq<DrawCmd>)
    requires Fits(output, poses) && p < poses
    ensures cmds == target + KeypointCmds(output, poses, th, p, KeypointCount())
  {
    var pose := PoseStride * p;
    cmds := target;
    for k := 0 to KeypointCount()
      invariant cmds == target + KeypointCmds(output, poses, th, p, k)
    {
      var keypoint := pose + 3 * k;
      var y, x, conf := output[keypoint], output[keypoint + 1], output[keypoint + 2];
      assert conf == Confidence(output, poses, p, k);
      if conf < th.keypoint {
        continue;
      }
      cmds := cmds + [Dot(p, k, Point(y, x))];
    }
  }

  /** The skeleton loop of `drawKeypoints` for pose `p`: appends a line for each edge whose
      two keypoints are both confident. */
  method DrawSkeleton(output: seq<real>, poses: nat, th: Thresholds, p: nat, target: seq<DrawCmd>)
    returns (cmds: seq<DrawCmd>)
    requires Fits(output, poses) && p < poses
    ensures cmds == target + EdgeCmds(output, poses, th, p, |Connections()|)
  {
    var pose := PoseStride * p;
    cmds := target;
    ConnectionsInRange();
    for i := 0 to |Connections()|
      invariant cmds == target + EdgeCmds(output, poses, th, p, i)
    {
      var (first, second) := Connections()[i];
      var keypoint1 := pose + 3 * first;
      var y1, x1, conf1 := output[keypoint1], output[keypoint1 + 1], output[keypoint1 + 2];
      var keypoint2 := pose + 3 * second;
      var y2, x2, conf2 := output[keypoint2], output[keypoint2 + 1], output[keypoint2 + 2];
      assert conf1 == Confidence(output, poses, p, first);
      assert conf2 == Confidence(output, poses, p, second);
      if conf1 < th.keypoint || conf2 < th.keypoint {
        continue;
      }
      cmds := cmds + [Line(p, i, first, second, Point(y1, x1), Point(y2, x2))];
    }
  }

  // ---------------------------------------------------------------------------
  // What gets drawn

  /** The gating of `drawKeypoints`, stated per command and without any loop: when the
      command `c` is drawn for the buffer `output`. */
  predicate Drawn(output: seq<real>, poses: nat, th: Thresholds, c: DrawCmd)
    requires Fits(output, poses)
  {
    match c
    case Box(p, topLeft, bottomRight, score) =>
      1 < poses && p < poses && !(PoseScore(output, poses, p) < th.pose) &&
      var b := PoseBase(p) + BoxOffset;
      topLeft == Point(output[b], output[b + 1]) &&
      bottomRight == Point(output[b + 2], output[b + 3]) &&
      score == output[b + 4]
    case Dot(p, k, at) =>
      p < poses && k < KeypointCount() && PoseShown(output, poses, th, p) &&
      Confident(output, poses, th, p, k) && at == KeypointAt(output, poses, p, k)
    case Line(p, e, a, b, pa, pb) =>
      p < poses && e < |Connections()| && Connections()[e] == (a, b) &&
      a < KeypointCount() && b < KeypointCount() &&
      PoseShown(output, poses, th, p) &&
      Confident(output, poses, th, p, a) && Confident(output, poses, th, p, b) &&
      pa == KeypointAt(output, poses, p, a) && pb == KeypointAt(output, poses, p, b)
    case FpsText(_) => false
  }

  /** The dots of a pose are exactly the confident keypoints among the first `n`,
      each at the position read from its triple. */
  lemma {:induction false} KeypointCmdsMembers(output: seq<real>, poses: nat, th: Thresholds, p: nat, n: nat, c: DrawCmd)
    requires Fits(output, poses) && p < poses && n <= KeypointCount()
    ensures c in KeypointCmds(output, poses, th, p, n) <==>
              c.Dot? && c.pose == p && c.keypoint < n &&
              Confident(output, poses, th, p, c.keypoint) &&
              c.at == KeypointAt(output, poses, p, c.keypoint)
  {
    if n > 0 {
      KeypointCmdsMembers(output, poses, th, p, n - 1, c);
    }
  }

  /** The lines of a pose are exactly the edges among the first `n` table entries whose
      two keypoints are confident, each tagged with its table index and drawn between the
      positions of its two keypoints. */
  lemma {:induction false} EdgeCmdsMembers(output: seq<real>, poses: nat, th: Thresholds, p: nat, n: nat, c: DrawCmd)
    requires Fits(output, poses) && p < poses && n <= |Connections()|
    ensures c in EdgeCmds(output, poses, th, p, n) <==>
              c.Line? && c.pose == p && c.edge < n && Connections()[c.edge] == (c.from, c.to) &&
              c.from < KeypointCount() && c.to < KeypointCount() &&
              Confident(output, poses, th, p, c.from) && Confident(output, poses, th, p, c.to) &&
              c.a == KeypointAt(output, poses, p, c.from) && c.b == KeypointAt(output, poses, p, c.to)
  {
    ConnectionsInRange();
    if n > 0 {
      EdgeCmdsMembers(output, poses, th, p, n - 1, c);
    }
  }

  /** What is drawn for a pose that passes the score gate is exactly what `Drawn` allows for it. */
  lemma PoseCmdsMembers(output: seq<real>, poses: nat, th: Thresholds, p: nat, c: DrawCmd)
    requires Fits(output, poses) && p < poses && PoseShown(output, poses, th, p)
    ensures c in PoseCmds(output, poses, th, p) <==>
              !c.FpsText? && c.pose == p && Drawn(output, poses, th, c)
  {
    KeypointCmdsMembers(output, poses, th, p, KeypointCount(), c);
    EdgeCmdsMembers(output, poses, th, p, |Connections()|, c);
  }

  /** What is drawn for the first `n` poses is exactly what `Drawn` allows for them. */
  lemma {:induction false} PosesCmdsMembers(output: seq<real>, poses: nat, th: Thresholds, n: nat, c: DrawCmd)
    requires Fits(output, poses) && n <= poses
    ensures c in PosesCmds(output, poses, th, n) <==>
              !c.FpsText? && c.pose < n && Drawn(output, poses, th, c)
  {
    if n > 0 {
      PosesCmdsMembers(output, poses, th, n - 1, c);
      if PoseShown(output, poses, th, n - 1) {
        PoseCmdsMembers(output, poses, th, n - 1, c);
      }
    }
  }

  /** `Render` draws exactly the commands `Drawn` allows, plus the frame-rate label. */
  lemma RenderMembers(output: seq<real>, poses: nat, frameMs: real, th: Thresholds, c: DrawCmd)
    requires Fits(output, poses)
    ensures c in Render(output, poses, frameMs, th) <==>
              c == FpsText(frameMs) || Drawn(output, poses, th, c)
  {
    PosesCmdsMembers(output, poses, th, poses, c);
  }

  /** A keypoint is drawn exactly when its pose is shown and its confidence, the float at
      offset `56 * p + 3 * k + 2`, is not below the keypoint threshold; a confidence equal
      to the threshold is drawn. The dot sits at the `(y, x)` read just before it. */
  lemma DotDrawn(output: seq<real>, poses: nat, frameMs: real, th: Thresholds, c: DrawCmd)
    requires Fits(output, poses) && c.Dot?
    ensures c in Render(output, poses, frameMs, th) <==>
              c.pose < poses && c.keypoint < KeypointCount() &&
              PoseShown(output, poses, th, c.pose) &&
              th.keypoint <= output[PoseStride * c.pose + 3 * c.keypoint + 2] &&
              c.at == Point(output[PoseStride * c.pose + 3 * c.keypoint],
                            output[PoseStride * c.pose + 3 * c.keypoint + 1])
  {
    RenderMembers(output, poses, frameMs, th, c);
    if c.pose < poses && c.keypoint < KeypointCount() {
      var i := PoseStride * c.pose + 3 * c.keypoint;
      assert Confidence(output, poses, c.pose, c.keypoint) == output[i + 2];
      assert KeypointAt(output, poses, c.pose, c.keypoint) == Point(output[i], output[i + 1]);
    }
  }

  /** A skeleton edge is drawn exactly when it is entry `edge` of the table, its pose is shown and both of
      its keypoints reach the keypoint threshold, whatever happens to the other edges; the
      line joins the two keypoints' positions. */
  lemma LineDrawn(output: seq<real>, poses: nat, frameMs: real, th: Thresholds, c: DrawCmd)
    requires Fits(output, poses) && c.Line?
    ensures c in Render(output, poses, frameMs, th) <==>
              c.pose < poses && c.edge < |Connections()| && Connections()[c.edge] == (c.from, c.to) &&
              PoseShown(output, poses, th, c.pose) &&
              th.keypoint <= output[PoseStride * c.pose + 3 * c.from + 2] &&
              th.keypoint <= output[PoseStride * c.pose + 3 * c.to + 2] &&
              c.a == Point(output[PoseStride * c.pose + 3 * c.from],
                           output[PoseStride * c.pose + 3 * c.from + 1]) &&
              c.b == Point(output[PoseStride * c.pose + 3 * c.to],
                           output[PoseStride * c.pose + 3 * c.to + 1])
  {
    RenderMembers(output, poses, frameMs, th, c);
    LineGate(output, poses, th, c);
  }

  /** The line case of `Drawn`, with the offsets written out. */
  lemma LineGate(output: seq<real>, poses: nat, th: Thresholds, c: DrawCmd)
    requires Fits(output, poses) && c.Line?
    ensures Drawn(output, poses, th, c) <==>
              c.pose < poses && c.edge < |Connections()| && Connections()[c.edge] == (c.from, c.to) &&
              PoseShown(output, poses, th, c.pose) &&
              th.keypoint <= output[PoseStride * c.pose + 3 * c.from + 2] &&
              th.keypoint <= output[PoseStride * c.pose + 3 * c.to + 2] &&
              c.a == Point(output[PoseStride * c.pose + 3 * c.from],
                           output[PoseStride * c.pose + 3 * c.from + 1]) &&
              c.b == Point(output[PoseStride * c.pose + 3 * c.to],
                           output[PoseStride * c.pose + 3 * c.to + 1])
  {
    if c.pose < poses && c.edge < |Connections()| && Connections()[c.edge] == (c.from, c.to) {
      ConnectionsInRange();
      var j, k := PoseStride * c.pose + 3 * c.from, PoseStride * c.pose + 3 * c.to;
      assert Confidence(output, poses, c.pose, c.from) == output[j + 2];
      assert Confidence(output, poses, c.pose, c.to) == output[k + 2];
      assert KeypointAt(output, poses, c.pose, c.from) == Point(output[j], output[j + 1]);
      assert KeypointAt(output, poses, c.pose, c.to) == Point(output[k], output[k + 1]);
    }
  }

  /** A bounding box is drawn only for multi-pose output, and there exactly for the poses
      whose score (offset 55) is not below the pose threshold, with the corners and score
      read from offsets 51..55. */
  lemma BoxDrawn(output: seq<real>, poses: nat, frameMs: real, th: Thresholds, c: DrawCmd)
    requires Fits(output, poses) && c.Box?
    ensures c in Render(output, poses, frameMs, th) <==>
              1 < poses && c.pose < poses &&
              th.pose <= output[PoseStride * c.pose + 55] &&
              c.topLeft == Point(output[PoseStride * c.pose + 51], output[PoseStride * c.pose + 52]) &&
              c.bottomRight == Point(output[PoseStride * c.pose + 53], output[PoseStride * c.pose + 54]) &&
              c.score == output[PoseStride * c.pose + 55]
  {
    RenderMembers(output, poses, frameMs, th, c);
  }

  /** A multi-pose record whose score is below the pose threshold draws nothing at all:
      no box, no dot, no line. */
  lemma GatedPoseDrawsNothing(output: seq<real>, poses: nat, frameMs: real, th: Thresholds, p: nat)
    requires Fits(output, poses) && 1 < poses && p < poses
    requires output[PoseStride * p + 55] < th.pose
    ensures forall c :: c in Render(output, poses, frameMs, th) ==> c.FpsText? || c.pose != p
  {
    forall c | c in Render(output, poses, frameMs, th)
      ensures c.FpsText? || c.pose != p
    {
      RenderMembers(output, poses, frameMs, th, c);
    }
  }

  /** The frame-rate label is drawn exactly once, as the last command, whatever the poses hold. */
  lemma FpsTextOnceLast(output: seq<real>, poses: nat, frameMs: real, th: Thresholds)
    requires Fits(output, poses)
    ensures var r := Render(output, poses, frameMs, th);
            |r| > 0 && r[|r| - 1] == FpsText(frameMs) &&
            forall i :: 0 <= i < |r| - 1 ==> !r[i].FpsText?
  {
    var r := Render(output, poses, frameMs, th);
    forall i | 0 <= i < |r| - 1
      ensures !r[i].FpsText?
    {
      assert r[i] in PosesCmds(output, poses, th, poses);
      PosesCmdsMembers(output, poses, th, poses, r[i]);
    }
  }

  /** With the program's thresholds, a single-pose keypoint whose confidence is exactly 0.2
      is drawn and one whose confidence is 0.19 is not. */
  lemma ThresholdIsInclusive(output: seq<real>, frameMs: real)
    requires |output| == 51
    ensures output[2] == 0.2 ==>
              Dot(0, 0, Point(output[0], output[1])) in Render(output, 1, frameMs, DefaultThresholds)
    ensures output[2] == 0.19 ==>
              Dot(0, 0, Point(output[0], output[1])) !in Render(output, 1, frameMs, DefaultThresholds)
  {
    DotDrawn(output, 1, frameMs, DefaultThresholds, Dot(0, 0, Point(output[0], output[1])));
  }

  // ---------------------------------------------------------------------------
  // Drawing order

  /** Kind of a command, in the order `drawKeypoints` draws them within one pose. */
  function Rank(c: DrawCmd): nat
  {
    match c
    case Box(_, _, _, _) => 0
    case Dot(_, _, _) => 1
    case Line(_, _, _, _, _, _) => 2
    case FpsText(_) => 3
  }

  /** `c` may be drawn before `d`: an earlier pose, or the same pose and an earlier kind,
      or two dots of the same pose in keypoint order, or two lines of the same pose in
      table order. */
  predicate Before(c: DrawCmd, d: DrawCmd)
  {
    !c.FpsText? && !d.FpsText? &&
    (c.pose < d.pose ||
     (c.pose == d.pose &&
      (Rank(c) < Rank(d) || (c.Dot? && d.Dot? && c.keypoint < d.keypoint) || (c.Line? && d.Line? && c.edge < d.edge))))
  }

  /** Every command of `s` may be drawn before every later one. */
  predicate Ordered(s: seq<DrawCmd>)
  {
    forall i, j :: 0 <= i < j < |s| ==> Before(s[i], s[j])
  }

  lemma OrderedAppend(a: seq<DrawCmd>, b: seq<DrawCmd>)
    requires Ordered(a) && Ordered(b)
    requires forall x, y :: x in a && y in b ==> Before(x, y)
    ensures Ordered(a + b)
  {
    var s := a + b;
    forall i, j | 0 <= i < j < |s|
      ensures Before(s[i], s[j])
    {
      if j < |a| {
        assert s[i] == a[i] && s[j] == a[j];
      } else if i >= |a| {
        assert s[i] == b[i - |a|] && s[j] == b[j - |a|];
      } else {
        assert s[i] == a[i] && s[j] == b[j - |a|];
      }
    }
  }

  /** The dots of a pose come in keypoint order. */
  lemma {:induction false} KeypointCmdsOrdered(output: seq<real>, poses: nat, th: Thresholds, p: nat, n: nat)
    requires Fits(output, poses) && p < poses && n <= KeypointCount()
    ensures Ordered(KeypointCmds(output, poses, th, p, n))
  {
    if n > 0 {
      KeypointCmdsOrdered(output, poses, th, p, n - 1);
      var prev := KeypointCmds(output, poses, th, p, n - 1);
      var next := if Confident(output, poses, th, p, n - 1)
                  then [Dot(p, n - 1, KeypointAt(output, poses, p, n - 1))] else [];
      forall x, y | x in prev && y in next
        ensures Before(x, y)
      {
        KeypointCmdsMembers(output, poses, th, p, n - 1, x);
      }
      OrderedAppend(prev, next);
    }
  }

  /** The lines of a pose come in table order. */
  lemma {:induction false} EdgeCmdsOrdered(output: seq<real>, poses: nat, th: Thresholds, p: nat, n: nat)
    requires Fits(output, poses) && p < poses && n <= |Connections()|
    ensures Ordered(EdgeCmds(output, poses, th, p, n))
  {
    if n > 0 {
      EdgeCmdsOrdered(output, poses, th, p, n - 1);
      var prev := EdgeCmds(output, poses, th, p, n - 1);
      var (a, b) := Connections()[n - 1];
      var next := if Confident(output, poses, th, p, a) && Confident(output, poses, th, p, b)
                  then [Line(p, n - 1, a, b, KeypointAt(output, poses, p, a), KeypointAt(output, poses, p, b))]
                  else [];
      forall x, y | x in prev && y in next
        ensures Before(x, y)
      {
        EdgeCmdsMembers(output, poses, th, p, n - 1, x);
      }
      OrderedAppend(prev, next);
    }
  }

  /** Within a pose: the box, then the dots in keypoint order, then the lines. */
  lemma PoseCmdsOrdered(output: seq<real>, poses: nat, th: Thresholds, p: nat)
    requires Fits(output, poses) && p < poses
    ensures Ordered(PoseCmds(output, poses, th, p))
  {
    var dots := KeypointCmds(output, poses, th, p, KeypointCount());
    var lines := EdgeCmds(output, poses, th, p, |Connections()|);
    KeypointCmdsOrdered(output, poses, th, p, KeypointCount());
    EdgeCmdsOrdered(output, poses, th, p, |Connections()|);
    forall x, y | x in dots && y in lines
      ensures Before(x, y)
    {
      KeypointCmdsMembers(output, poses, th, p, KeypointCount(), x);
      EdgeCmdsMembers(output, poses, th, p, |Connections()|, y);
    }
    OrderedAppend(dots, lines);
    if poses > 1 {
      var box := [BoxCmd(output, poses, p)];
      forall x, y | x in box && y in dots + lines
        ensures Before(x, y)
      {
        KeypointCmdsMembers(output, poses, th, p, KeypointCount(), y);
        EdgeCmdsMembers(output, poses, th, p, |Connections()|, y);
      }
      OrderedAppend(box, dots + lines);
    }
  }

  /** Poses are drawn in index order. */
  lemma {:induction false} PosesCmdsOrdered(output: seq<real>, poses: nat, th: Thresholds, n: nat)
    requires Fits(output, poses) && n <= poses
    ensures Ordered(PosesCmds(output, poses, th, n))
  {
    if n > 0 {
      PosesCmdsOrdered(output, poses, th, n - 1);
      if PoseShown(output, poses, th, n - 1) {
        PoseCmdsOrdered(output, poses, th, n - 1);
        EarlierPosesFirst(output, poses, th, n - 1);
        OrderedAppend(PosesCmds(output, poses, th, n - 1), PoseCmds(output, poses, th, n - 1));
      }
    }
  }

  /** Everything drawn for the poses before `n` may be drawn before everything of pose `n`. */
  lemma EarlierPosesFirst(output: seq<real>, poses: nat, th: Thresholds, n: nat)
    requires Fits(output, poses) && n < poses && PoseShown(output, poses, th, n)
    ensures forall x, y :: x in PosesCmds(output, poses, th, n) && y in PoseCmds(output, poses, th, n) ==>
              Before(x, y)
  {
    forall x, y | x in PosesCmds(output, poses, th, n) && y in PoseCmds(output, poses, th, n)
      ensures Before(x, y)
    {
      PosesCmdsMembers(output, poses, th, n, x);
      PoseCmdsMembers(output, poses, th, n, y);
    }
  }

  /** `drawKeypoints` draws pose by pose in index order, within a pose the box, then the dots
      in keypoint order, then the lines, and the frame-rate label after everything. */
  lemma DrawOrder(output: seq<real>, poses: nat, frameMs: real, th: Thresholds)
    requires Fits(output, poses)
    ensures var r := Render(output, poses, frameMs, th);
            forall i, j :: 0 <= i < j < |r| - 1 ==> Before(r[i], r[j])
  {
    var r := Render(output, poses, frameMs, th);
    var body := PosesCmds(output, poses, th, poses);
    PosesCmdsOrdered(output, poses, th, poses);
    forall i, j | 0 <= i < j < |r| - 1
      ensures Before(r[i], r[j])
    {
      assert r[i] == body[i] && r[j] == body[j];
    }
  }
}
