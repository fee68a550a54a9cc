/**
 * Values shared by the stages of the stereo processor: single-precision
 * floats up to rounding, depths, the points of the dense grid produced by
 * the calibration model, the 4-byte words of the output buffers, row-major
 * grids, and the validity rule that both cloud builders apply (isValidPoint).
 */
module Geometry {
  /** An 8-bit channel value (uint8_t). */
  type byte = bv8

  /** A float, up to rounding: a finite value, an infinity, or NaN. */
  datatype Float = Num(value: real) | Inf(negative: bool) | NaN

  /**
   * The z coordinate of a projected pixel. MissingZ is the calibration
   * model's sentinel StereoCameraModel::MISSING_Z, a finite float whose
   * value is not fixed here. By convention of this model a depth equal to
   * the sentinel is written MissingZ, never Metric; the type does not
   * enforce that.
   */
  datatype Depth = Metric(value: real) | MissingZ | Infinite(negative: bool) | Undefined

  /** One cell of the dense point grid (cv::Vec3f). */
  datatype Point3 = Point3(x: Float, y: Float, z: Depth)

  /**
   * A 4-byte word of an output buffer: a float written by value, or a bit
   * pattern copied in unchanged (the packed colour, reinterpreted as float).
   */
  datatype Word = Value(f: Float) | Bits(pattern: bv32)

  /** quiet_NaN, the marker of an invalid point. */
  const BAD_POINT: Word := Value(NaN)

  /** A (row, column) position. */
  datatype Pixel = Pixel(u: nat, v: nat)

  /** A row-major image: cell (u, v) is cells[u * cols + v]. */
  datatype Grid<T> = Grid(rows: nat, cols: nat, cells: seq<T>) {
    predicate Valid() {
      |cells| == rows * cols
    }

    predicate Contains(p: Pixel) {
      p.u < rows && p.v < cols
    }

    function At(u: nat, v: nat): T
      requires Valid() && u < rows && v < cols
    {
      IndexInGrid(u, v, rows, cols);
      cells[u * cols + v]
    }
  }

  /** The row-major index of a cell inside the grid lies inside the grid. */
  lemma IndexInGrid(u: nat, v: nat, rows: nat, cols: nat)
    requires u < rows && v < cols
    ensures u * cols + v < rows * cols
    ensures (u + 1) * cols <= rows * cols
  {
    MulLeft(u + 1, rows, cols);
  }

  lemma {:induction false} MulLeft(a: nat, b: nat, c: nat)
    requires a <= b
    ensures a * c <= b * c
  {
    if c > 0 {
      MulLeft(a, b, c - 1);
      assert a * c == a * (c - 1) + a;
      assert b * c == b * (c - 1) + b;
    }
  }

  /**
   * isValidPoint: a point is usable unless its depth is the MISSING_Z
   * sentinel or infinite. Only z is inspected; a NaN depth passes, since
   * NaN is neither equal to the sentinel nor infinite.
   */
  function IsValidPoint(pt: Point3): (ok: bool)
    ensures ok <==> pt.z.Metric? || pt.z.Undefined?
  {
    pt.z != MissingZ && !pt.z.Infinite?
  }

  /** isValidPoint never looks at x or y. */
  lemma ValidityIgnoresXY(p: Point3, q: Point3)
    requires p.z == q.z
    ensures IsValidPoint(p) == IsValidPoint(q)
  {
  }

  /** The word a memcpy of a valid point's z produces. */
  function DepthWord(z: Depth): (w: Word)
    requires z.Metric? || z.Undefined?
    ensures w != BAD_POINT <==> z.Metric?
  {
    match z
    case Metric(r) => Value(Num(r))
    case Undefined => BAD_POINT
  }
}
