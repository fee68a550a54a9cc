/**
 * processDisparity: the block matcher's signed 16-bit fixed-point grid
 * becomes a float disparity image, corrected for the horizontal offset of
 * the two principal points, with the stereo metadata filled in.
 */
module DisparityNormalizer {
  import opened Geometry

  /** int16_t, the block matcher's output cell. */
  newtype int16 = x: int | -0x8000 <= x < 0x8000

  /** The configured block matcher; it fixes the fixed-point scale. */
  datatype Matcher = CpuBlockMatcher | GpuBlockMatcher

  /** Raw units per disparity pixel: 16 for the CPU matcher, 1 for CUDA. */
  function Dpp(m: Matcher): nat {
    match m
    case CpuBlockMatcher => 16
    case GpuBlockMatcher => 1
  }

  function InvDpp(m: Matcher): real {
    1.0 / (Dpp(m) as real)
  }

  /** The intrinsics of one camera that the stage reads. */
  datatype Pinhole = Pinhole(fx: real, cx: real)

  /** The calibration model: both cameras and the baseline. */
  datatype StereoCameraModel = StereoCameraModel(left: Pinhole, right: Pinhole, baseline: real)

  function PrincipalOffset(model: StereoCameraModel): real {
    model.left.cx - model.right.cx
  }

  /**
   * One pixel of convertTo(dmat, CV_32F, inv_dpp, -(cx_l - cx_r)): the raw
   * value scaled to pixels, minus the principal-point offset. Undoing the
   * shift and the scale gives the raw value back.
   */
  function ToDisparity(raw: int16, m: Matcher, model: StereoCameraModel): (d: real)
    ensures (d + PrincipalOffset(model)) * (Dpp(m) as real) == raw as real
  {
    raw as real * InvDpp(m) - PrincipalOffset(model)
  }

  /** The conversion preserves the order of raw values. */
  lemma ToDisparityMonotone(a: int16, b: int16, m: Matcher, model: StereoCameraModel)
    requires a <= b
    ensures ToDisparity(a, m, model) <= ToDisparity(b, m, model)
  {
  }

  const TYPE_32FC1: string := "32FC1"
  const FLOAT_BYTES: nat := 4
  /** The fixed disparity search window recorded in the message. */
  const MIN_DISPARITY: real := 0.0
  const MAX_DISPARITY: real := 63.0

  /** stereo_msgs::DisparityImage; data holds one float per pixel, row-major. */
  class DisparityImage {
    var height: nat
    var width: nat
    var encoding: string
    var step: nat
    var data: seq<real>
    var f: real
    var T: real
    var minDisparity: real
    var maxDisparity: real
    var deltaD: real

    /** An empty message. */
    constructor ()
      ensures height == 0 && width == 0 && step == 0 && encoding == [] && data == []
    {
      height, width, step, encoding, data := 0, 0, 0, [], [];
    }

    /** The whole state processDisparity leaves behind. */
    ghost predicate Normalized(raw: Grid<int16>, m: Matcher, model: StereoCameraModel)
      reads this
      requires raw.Valid()
    {
      height == raw.rows && width == raw.cols && encoding == TYPE_32FC1 &&
      step == width * FLOAT_BYTES && |data| == height * width &&
      FLOAT_BYTES * |data| == step * height &&
      (forall i :: 0 <= i < |data| ==> data[i] == ToDisparity(raw.cells[i], m, model)) &&
      f == model.right.fx && T == model.baseline &&
      minDisparity == MIN_DISPARITY && maxDisparity == MAX_DISPARITY && deltaD == InvDpp(m)
    }
  }

  /**
   * processDisparity, with the block matcher's output raw given. Every field
   * of the message is written; nothing is read from its previous state.
   */
  method ProcessDisparity(raw: Grid<int16>, m: Matcher, model: StereoCameraModel, disparity: DisparityImage)
    requires raw.Valid()
    modifies disparity
    ensures disparity.Normalized(raw, m, model)
  {
    disparity.height := raw.rows;
    disparity.width := raw.cols;
    disparity.encoding := TYPE_32FC1;
    disparity.step := disparity.width * FLOAT_BYTES;
    // data.resize(step * height), then convertTo overwrites every pixel
    var n := disparity.height * disparity.width;
    disparity.data := seq(n, i requires 0 <= i < n => ToDisparity(raw.cells[i], m, model));
    disparity.f := model.right.fx;
    disparity.T := model.baseline;
    disparity.minDisparity := MIN_DISPARITY;
    disparity.maxDisparity := MAX_DISPARITY;
    disparity.deltaD := InvDpp(m);
  }

  /** CPU matcher values 160, 0, -1 and 320 with aligned principal points. */
  lemma FixedPointExample(model: StereoCameraModel)
    requires model.left.cx == model.right.cx
    ensures ToDisparity(160, CpuBlockMatcher, model) == 10.0
    ensures ToDisparity(0, CpuBlockMatcher, model) == 0.0
    ensures ToDisparity(-1, CpuBlockMatcher, model) == -0.0625
    ensures ToDisparity(320, CpuBlockMatcher, model) == 20.0
  {
  }
}
