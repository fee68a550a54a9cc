/**
 * StereoProcessor::process: expands the caller's request bits into per-camera
 * requests, runs the monocular stage for each camera, and then only the
 * stereo stages that were requested, stopping at the first upstream failure.
 */
module StereoProcessor {
  import opened Optional
  import opened Geometry
  import opened Raster
  import opened ColorPacking
  import opened RequestFlags
  import opened DisparityNormalizer
  import opened SparseCloud
  import opened StructuredCloud

  /** The requests after expansion: left_flags, right_flags (before the shift) and flags. */
  datatype Requests = Requests(left: Flags, right: Flags, all: Flags)

  /**
   * The dependency expansion of the caller's request bits: the camera masks,
   * widened by what a stereo or a cloud request needs.
   */
  function Expand(flags: Flags): Requests
  {
    var stereo := flags & STEREO_ALL != 0;
    var clouds := flags & (POINT_CLOUD | POINT_CLOUD2) != 0;
    var left := if stereo then (flags & LEFT_ALL) | LEFT_RECT else flags & LEFT_ALL;
    var right := if stereo then (flags & RIGHT_ALL) | RIGHT_RECT else flags & RIGHT_ALL;
    if clouds then Requests(left | LEFT_RECT_COLOR, right, flags | DISPARITY) else Requests(left, right, flags)
  }

  /**
   * What the expansion guarantees for the cameras. Camera requests never
   * leak outside their own group and keep what the caller asked for; any
   * stereo request adds both rectified images; a cloud request adds the
   * left rectified colour image; nothing else is added.
   */
  lemma ExpansionRules(flags: Flags)
    ensures Expand(flags).left & !LEFT_ALL == 0 && Expand(flags).right & !RIGHT_ALL == 0
    ensures flags & LEFT_ALL & !Expand(flags).left == 0 && flags & RIGHT_ALL & !Expand(flags).right == 0
    ensures flags & STEREO_ALL != 0 ==> Expand(flags).left & LEFT_RECT != 0 && Expand(flags).right & RIGHT_RECT != 0
    ensures flags & (POINT_CLOUD | POINT_CLOUD2) != 0 ==> Expand(flags).left & LEFT_RECT_COLOR != 0
    ensures Expand(flags).left & !(flags | LEFT_RECT | LEFT_RECT_COLOR) == 0 && Expand(flags).right & !(flags | RIGHT_RECT) == 0
    ensures Expand(flags).left & LEFT_RECT & !flags != 0 ==> flags & STEREO_ALL != 0
    ensures Expand(flags).right & RIGHT_RECT & !flags != 0 ==> flags & STEREO_ALL != 0
    ensures Expand(flags).left & LEFT_RECT_COLOR & !flags != 0 ==> flags & (POINT_CLOUD | POINT_CLOUD2) != 0
  {
    var stereo := flags & STEREO_ALL != 0;
    var clouds := flags & (POINT_CLOUD | POINT_CLOUD2) != 0;
    if stereo {
      if clouds { } else { }
    } else {
      if clouds { } else { }
    }
  }

  /**
   * What the expansion does to flags: a cloud request adds DISPARITY and
   * nothing else changes, so DISPARITY ends up set exactly when some stereo
   * output was requested, and the cloud bits are the caller's.
   */
  lemma StageSelection(flags: Flags)
    ensures flags & (POINT_CLOUD | POINT_CLOUD2) != 0 ==> Expand(flags).all & DISPARITY != 0
    ensures Expand(flags).all & !DISPARITY == flags & !DISPARITY
    ensures Expand(flags).all & DISPARITY != 0 <==> flags & STEREO_ALL != 0
    ensures Expand(flags).all & POINT_CLOUD != 0 <==> flags & POINT_CLOUD != 0
    ensures Expand(flags).all & POINT_CLOUD2 != 0 <==> flags & POINT_CLOUD2 != 0
  {
    if flags & (POINT_CLOUD | POINT_CLOUD2) != 0 { } else { }
  }

  /** Requesting only the structured cloud. */
  lemma OnlyPointCloud2Example()
    ensures Expand(POINT_CLOUD2) == Requests(LEFT_RECT | LEFT_RECT_COLOR, RIGHT_RECT, POINT_CLOUD2 | DISPARITY)
    ensures Expand(POINT_CLOUD2).right >> 4 == LEFT_RECT
  {
  }

  datatype Camera = LeftCamera | RightCamera

  /** A stage process invokes, with the flags passed to the monocular stage. */
  datatype Stage = Mono(camera: Camera, flags: Flags) | DisparityStage | PointsStage | Points2Stage

  /** The order of the stages in a call. */
  function Rank(s: Stage): nat {
    match s
    case Mono(LeftCamera, _) => 0
    case Mono(RightCamera, _) => 1
    case DisparityStage => 2
    case PointsStage => 3
    case Points2Stage => 4
  }

  /** The stereo stages the expanded flags select, in order. */
  function StereoStages(all: Flags): seq<Stage> {
    (if all & DISPARITY != 0 then [DisparityStage] else []) +
    (if all & POINT_CLOUD != 0 then [PointsStage] else []) +
    (if all & POINT_CLOUD2 != 0 then [Points2Stage] else [])
  }

  /** The stages a call of process invokes, given the monocular stage's outcome for each camera. */
  function Plan(flags: Flags, mono: (Camera, Flags) -> bool): seq<Stage> {
    var r := Expand(flags);
    var left, right := Mono(LeftCamera, r.left), Mono(RightCamera, r.right >> 4);
    if !mono(LeftCamera, r.left) then [left]
    else if !mono(RightCamera, r.right >> 4) then [left, right]
    else [left, right] + StereoStages(r.all)
  }

  /**
   * The left monocular stage runs first; a failure stops everything after
   * it. The right monocular stage, if reached, gets right_flags >> 4, which
   * holds only left-camera bits. Stages never run twice or out of order.
   */
  lemma PlanShortCircuits(flags: Flags, mono: (Camera, Flags) -> bool)
    ensures Plan(flags, mono)[0] == Mono(LeftCamera, Expand(flags).left)
    ensures !mono(LeftCamera, Expand(flags).left) ==> |Plan(flags, mono)| == 1
    ensures mono(LeftCamera, Expand(flags).left) ==>
      |Plan(flags, mono)| >= 2 && Plan(flags, mono)[1] == Mono(RightCamera, Expand(flags).right >> 4) &&
      Plan(flags, mono)[1].flags & !LEFT_ALL == 0
    ensures !mono(LeftCamera, Expand(flags).left) || !mono(RightCamera, Expand(flags).right >> 4) ==>
      forall s :: s in Plan(flags, mono) ==> s.Mono?
    ensures forall j, k :: 0 <= j < k < |Plan(flags, mono)| ==> Rank(Plan(flags, mono)[j]) < Rank(Plan(flags, mono)[k])
  {
    CameraMasks(flags);
    var r := Expand(flags);
    assert (r.right >> 4) & !LEFT_ALL == 0;
  }

  /**
   * Once both monocular stages succeed, the disparity stage runs exactly
   * when some stereo output was requested, and each cloud builder exactly
   * when its own flag was.
   */
  lemma PlanRunsRequestedStages(flags: Flags, mono: (Camera, Flags) -> bool)
    requires mono(LeftCamera, Expand(flags).left) && mono(RightCamera, Expand(flags).right >> 4)
    ensures DisparityStage in Plan(flags, mono) <==> flags & STEREO_ALL != 0
    ensures PointsStage in Plan(flags, mono) <==> flags & POINT_CLOUD != 0
    ensures Points2Stage in Plan(flags, mono) <==> flags & POINT_CLOUD2 != 0
  {
    var r := Expand(flags);
    assert r.all & POINT_CLOUD == flags & POINT_CLOUD && r.all & POINT_CLOUD2 == flags & POINT_CLOUD2;
  }

  /** StereoImageSet: the outputs process fills (the camera image sets are not modelled). */
  class StereoImageSet {
    const disparity: DisparityImage
    const points: PointCloud
    const points2: PointCloud2

    constructor ()
      ensures fresh(disparity) && fresh(points) && fresh(points2)
    {
      disparity := new DisparityImage();
      points := new PointCloud();
      points2 := new PointCloud2();
    }
  }

  /**
   * The |= steps at the head of process: left_flags, right_flags and the
   * updated flags, which are the expansion of the caller's flags.
   */
  method ExpandFlags(flags: Flags) returns (leftFlags: Flags, rightFlags: Flags, requested: Flags)
    ensures Requests(leftFlags, rightFlags, requested) == Expand(flags)
  {
    requested := flags;
    leftFlags := flags & LEFT_ALL;
    rightFlags := flags & RIGHT_ALL;
    if flags & STEREO_ALL != 0 {
      leftFlags := leftFlags | LEFT_RECT;
      rightFlags := rightFlags | RIGHT_RECT;
    }
    if flags & (POINT_CLOUD | POINT_CLOUD2) != 0 {
      requested := requested | DISPARITY;
      leftFlags := leftFlags | LEFT_RECT_COLOR;
    }
  }

  /**
   * process. The monocular stage is the function mono of a camera and its
   * flags; the block matcher's output raw, the calibration model's
   * projection dense and the left rectified colour image are given. calls
   * records the stages invoked.
   */
  method Process(flags: Flags, mono: (Camera, Flags) -> bool, raw: Grid<int16>, matcher: Matcher,
                 model: StereoCameraModel, dense: Grid<Point3>, color: Grid<seq<byte>>, encoding: string,
                 output: StereoImageSet)
    returns (ok: bool, calls: seq<Stage>)
    requires raw.Valid() && dense.Valid()
    requires flags & (POINT_CLOUD | POINT_CLOUD2) != 0 ==> ColorFits(color, encoding, dense.rows, dense.cols)
    modifies output.disparity, output.points, output.points2
    ensures calls == Plan(flags, mono)
    ensures ok == (mono(LeftCamera, Expand(flags).left) && mono(RightCamera, Expand(flags).right >> 4))
    ensures ok && flags & STEREO_ALL != 0 ==> output.disparity.Normalized(raw, matcher, model)
    ensures !(ok && flags & STEREO_ALL != 0) ==> unchanged(output.disparity)
    ensures ok && flags & POINT_CLOUD != 0 ==> output.points.Built(dense, color, encoding)
    ensures !(ok && flags & POINT_CLOUD != 0) ==> unchanged(output.points)
    ensures ok && flags & POINT_CLOUD2 != 0 ==> output.points2.Built(dense, color, encoding, old(output.points2.data))
    ensures !(ok && flags & POINT_CLOUD2 != 0) ==> unchanged(output.points2)
  {
    var leftFlags, rightFlags, requested := ExpandFlags(flags);
    StageSelection(flags);

    var left, right := Mono(LeftCamera, leftFlags), Mono(RightCamera, rightFlags >> 4);
    if !mono(LeftCamera, leftFlags) {
      return false, [left];
    }
    if !mono(RightCamera, rightFlags >> 4) {
      return false, [left, right];
    }
    var stages := StereoStagesRun(requested, raw, matcher, model, dense, color, encoding, output);
    return true, [left, right] + stages;
  }

  /** The stereo half of process: the stages the expanded flags select, in order. */
  method StereoStagesRun(requested: Flags, raw: Grid<int16>, matcher: Matcher, model: StereoCameraModel,
                         dense: Grid<Point3>, color: Grid<seq<byte>>, encoding: string, output: StereoImageSet)
    returns (stages: seq<Stage>)
    requires raw.Valid() && dense.Valid()
    requires requested & (POINT_CLOUD | POINT_CLOUD2) != 0 ==> ColorFits(color, encoding, dense.rows, dense.cols)
    modifies output.disparity, output.points, output.points2
    ensures stages == StereoStages(requested)
    ensures requested & DISPARITY != 0 ==> output.disparity.Normalized(raw, matcher, model)
    ensures requested & DISPARITY == 0 ==> unchanged(output.disparity)
    ensures requested & POINT_CLOUD != 0 ==> output.points.Built(dense, color, encoding)
    ensures requested & POINT_CLOUD == 0 ==> unchanged(output.points)
    ensures requested & POINT_CLOUD2 != 0 ==> output.points2.Built(dense, color, encoding, old(output.points2.data))
    ensures requested & POINT_CLOUD2 == 0 ==> unchanged(output.points2)
  {
    stages := [];
    if requested & DISPARITY != 0 {
      ProcessDisparity(raw, matcher, model, output.disparity);
      stages := stages + [DisparityStage];
    }
    if requested & POINT_CLOUD != 0 {
      var _ := ProcessPoints(dense, color, encoding, output.points);
      stages := stages + [PointsStage];
    }
    if requested & POINT_CLOUD2 != 0 {
      var _ := ProcessPoints2(dense, color, encoding, output.points2);
      stages := stages + [Points2Stage];
    }
  }

  /**
   * The two clouds process builds from the same grid agree: sparse point k
   * is the cell of record u * cols + v of the structured cloud, where (u, v)
   * are its channel values, and that record holds the same x, y, z and, for
   * a recognised encoding, the same packed colour.
   */
  lemma CloudsAgree(dense: Grid<Point3>, color: Grid<seq<byte>>, encoding: string, before: seq<Word>,
                    cloud: PointCloud, cloud2: PointCloud2, k: nat)
    requires dense.Valid() && cloud.Built(dense, color, encoding) && cloud2.Built(dense, color, encoding, before)
    requires k < |cloud.points|
    ensures k < |ValidPixels(dense)| && |cloud.channels| == 3 && |cloud2.data| == 4 * |dense.cells|
    ensures |cloud.channels[1].values| == |cloud.channels[2].values| == |cloud.points|
    ensures ValidPixels(dense)[k].u * dense.cols + ValidPixels(dense)[k].v < |dense.cells|
    ensures var p := ValidPixels(dense)[k];
      cloud.channels[1].values[k] == CoordWord(p.u) && cloud.channels[2].values[k] == CoordWord(p.v)
    ensures var p := ValidPixels(dense)[k]; var i := p.u * dense.cols + p.v;
      cloud.points[k] == dense.cells[i] && IsValidPoint(cloud.points[k]) &&
      FieldOf(cloud2.data, i, 0) == Value(cloud.points[k].x) &&
      FieldOf(cloud2.data, i, 1) == Value(cloud.points[k].y) &&
      FieldOf(cloud2.data, i, 2) == DepthWord(cloud.points[k].z)
    ensures FormatOf(encoding).Some? ==>
      var p := ValidPixels(dense)[k]; var i := p.u * dense.cols + p.v;
      k < |cloud.channels[0].values| && FieldOf(cloud2.data, i, 3) == cloud.channels[0].values[k]
  {
    var ps := ValidPixels(dense);
    var p := ps[k];
    IndexInGrid(p.u, p.v, dense.rows, dense.cols);
    var i := p.u * dense.cols + p.v;
    ValidPixelsExact(dense);
    RecordContents(dense, color, encoding, before, cloud2, i);
    assert dense.At(p.u, p.v) == dense.cells[i];
    match FormatOf(encoding)
    case None =>
    case Some(fmt) =>
      assert color.At(p.u, p.v) == color.cells[i];
  }

  /** Conversely, every valid cell of the grid is a point of the sparse cloud. */
  lemma ValidCellListed(dense: Grid<Point3>, color: Grid<seq<byte>>, encoding: string, cloud: PointCloud, i: nat)
    requires dense.Valid() && cloud.Built(dense, color, encoding)
    requires i < |dense.cells| && IsValidPoint(dense.cells[i])
    ensures dense.cols > 0
    ensures exists k :: 0 <= k < |cloud.points| && ValidPixels(dense)[k] == Pixel(i / dense.cols, i % dense.cols)
                        && cloud.points[k] == dense.cells[i]
  {
    SameValidity(dense, i);
    var ps := ValidPixels(dense);
    var p := Pixel(i / dense.cols, i % dense.cols);
    var k :| 0 <= k < |ps| && ps[k] == p;
    assert dense.At(p.u, p.v) == dense.cells[i];
    assert cloud.points[k] == dense.cells[i];
  }
}
