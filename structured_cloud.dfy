/**
 * processPoints2: the structured cloud. One 16-byte record per grid cell,
 * in row-major order, fields x, y, z, rgb at byte offsets 0, 4, 8, 12. The
 * buffer is modelled as 4-byte words: bytes 4w .. 4w+3 are word w.
 */
module StructuredCloud {
  import opened Optional
  import opened Geometry
  import opened ColorPacking

  /** sensor_msgs::PointField::FLOAT32. */
  const FLOAT32: nat := 7
  const POINT_STEP: nat := 16
  const WORD_BYTES: nat := 4

  /** sensor_msgs::PointField: name, byte offset in the record, element type, element count. */
  datatype PointField = PointField(name: string, offset: nat, dtype: nat, count: nat)

  /** The schema processPoints2 lays out. */
  const FIELDS: seq<PointField> := [
    PointField("x", 0, FLOAT32, 1),
    PointField("y", 4, FLOAT32, 1),
    PointField("z", 8, FLOAT32, 1),
    PointField("rgb", 12, FLOAT32, 1)
  ]

  /** Field k occupies word k of the record: the four fields tile the 16 bytes. */
  lemma FieldsTileRecord()
    ensures |FIELDS| == 4 && FIELDS[3].offset + WORD_BYTES == POINT_STEP
    ensures forall k :: 0 <= k < |FIELDS| ==>
      FIELDS[k].offset == WORD_BYTES * k && FIELDS[k].count == 1 && FIELDS[k].dtype == FLOAT32
  {
  }

  /**
   * The word that lies at byte i * point_step + offset: a word of record
   * i's 16 bytes, word offset / 4 of that record.
   */
  function WordIndex(i: nat, offset: nat): (w: nat)
    requires offset < POINT_STEP && offset % WORD_BYTES == 0
    ensures i * POINT_STEP <= WORD_BYTES * w && WORD_BYTES * (w + 1) <= (i + 1) * POINT_STEP
    ensures w == 4 * i + offset / WORD_BYTES
  {
    (i * POINT_STEP + offset) / WORD_BYTES
  }

  /** Field k of record i. */
  function FieldOf(data: seq<Word>, i: nat, k: nat): Word
    requires 4 * i + k < |data|
  {
    data[4 * i + k]
  }

  /** std::vector::resize on words: a kept prefix, then zero words. */
  function Resize(data: seq<Word>, n: nat): (r: seq<Word>)
    ensures |r| == n
    ensures forall j :: 0 <= j < n ==> r[j] == if j < |data| then data[j] else Bits(0)
  {
    if n <= |data| then data[..n] else data + seq(n - |data|, _ => Bits(0))
  }

  /** Field k (x, y or z) of the record of cell pt: its coordinate, or NaN if pt is not valid. */
  function CoordinateWord(pt: Point3, k: nat): Word
    requires k < 3
  {
    if !IsValidPoint(pt) then BAD_POINT
    else if k == 0 then Value(pt.x)
    else if k == 1 then Value(pt.y)
    else DepthWord(pt.z)
  }

  /** The rgb field of the record of cell pt with colour px: packed colour, or NaN if pt is not valid. */
  function RgbWord(fmt: Format, pt: Point3, px: seq<byte>): Word
    requires |px| == Channels(fmt)
  {
    if IsValidPoint(pt) then Bits(Pack(fmt, px)) else BAD_POINT
  }

  /** sensor_msgs::PointCloud2, without header and byte order. */
  class PointCloud2 {
    var height: nat
    var width: nat
    var fields: seq<PointField>
    var pointStep: nat
    var rowStep: nat
    var data: seq<Word>
    var isDense: bool

    /** An empty message. */
    constructor ()
      ensures height == 0 && width == 0 && fields == [] && data == [] && !isDense
    {
      height, width, fields, pointStep, rowStep, data, isDense := 0, 0, [], 0, 0, [], false;
    }

    /** The header of a rows x cols cloud and a buffer of row_step * height bytes. */
    ghost predicate Layout(rows: nat, cols: nat)
      reads this
    {
      height == rows && width == cols && fields == FIELDS &&
      pointStep == POINT_STEP && rowStep == POINT_STEP * width &&
      |data| == 4 * (rows * cols) && WORD_BYTES * |data| == rowStep * height && !isDense
    }

    /** Records 0 .. upTo-1 hold the coordinates of their cells, or NaN. */
    ghost predicate Coordinates(dense: Grid<Point3>, upTo: nat)
      reads this
      requires upTo <= |dense.cells| && |data| == 4 * |dense.cells|
    {
      forall i, k :: 0 <= i < upTo && 0 <= k < 3 ==> FieldOf(data, i, k) == CoordinateWord(dense.cells[i], k)
    }

    /**
     * The whole state processPoints2 leaves behind, given the buffer before
     * the call. For an unrecognised encoding the rgb words are those of the
     * resized old buffer: the call does not write them.
     */
    ghost predicate Built(dense: Grid<Point3>, color: Grid<seq<byte>>, encoding: string, before: seq<Word>)
      reads this
      requires dense.Valid()
    {
      var n := |dense.cells|;
      Layout(dense.rows, dense.cols) && Coordinates(dense, n) &&
      match FormatOf(encoding)
      case None =>
        forall i :: 0 <= i < n ==> FieldOf(data, i, 3) == FieldOf(Resize(before, 4 * n), i, 3)
      case Some(fmt) =>
        Fits(color, fmt, dense.rows, dense.cols) &&
        forall i :: 0 <= i < n ==> FieldOf(data, i, 3) == RgbWord(fmt, dense.cells[i], color.cells[i])
    }
  }

  /** row_step * height bytes are four words per cell. */
  lemma BufferWords(rows: nat, cols: nat)
    ensures (POINT_STEP * cols) * rows / WORD_BYTES == 4 * (rows * cols)
    ensures WORD_BYTES * (4 * (rows * cols)) == (POINT_STEP * cols) * rows
  {
    assert (POINT_STEP * cols) * rows == 16 * (rows * cols);
  }

  /**
   * processPoints2, with the projected grid dense given. The header and the
   * coordinate words are written for every cell; the rgb words only for a
   * recognised encoding. warned is the diagnostic for the other encodings.
   */
  method ProcessPoints2(dense: Grid<Point3>, color: Grid<seq<byte>>, encoding: string, points: PointCloud2)
    returns (warned: bool)
    requires dense.Valid() && ColorFits(color, encoding, dense.rows, dense.cols)
    modifies points
    ensures points.Built(dense, color, encoding, old(points.data))
    ensures warned <==> FormatOf(encoding).None?
  {
    points.height := dense.rows;
    points.width := dense.cols;
    points.fields := FIELDS;
    points.pointStep := POINT_STEP;
    points.rowStep := points.pointStep * points.width;
    BufferWords(dense.rows, dense.cols);
    points.data := Resize(points.data, points.rowStep * points.height / WORD_BYTES);
    points.isDense := false;

    FillCoordinates(dense, points);

    warned := false;
    if encoding == MONO8 {
      FillColor(dense, color, Mono8, points);
    } else if encoding == RGB8 {
      FillColor(dense, color, Rgb8, points);
    } else if encoding == BGR8 {
      FillColor(dense, color, Bgr8, points);
    } else {
      warned := true;
    }
  }

  /**
   * The state of the first pass after i records: records 0 .. i-1 hold
   * their coordinate words, their rgb words are those of base, and nothing
   * from record i on has changed.
   */
  ghost predicate FirstPass(dense: Grid<Point3>, base: seq<Word>, data: seq<Word>, i: nat)
  {
    i <= |dense.cells| && |data| == |base| == 4 * |dense.cells| &&
    (forall j, k :: 0 <= j < i && 0 <= k < 3 ==> FieldOf(data, j, k) == CoordinateWord(dense.cells[j], k)) &&
    (forall j :: 0 <= j < i ==> FieldOf(data, j, 3) == FieldOf(base, j, 3)) &&
    (forall j :: 4 * i <= j < |base| ==> data[j] == base[j])
  }

  /** Writing the three coordinate words of record i advances the first pass by one record. */
  lemma FirstPassStep(dense: Grid<Point3>, base: seq<Word>, data: seq<Word>, i: nat, x: Word, y: Word, z: Word)
    requires FirstPass(dense, base, data, i) && i < |dense.cells|
    requires x == CoordinateWord(dense.cells[i], 0) && y == CoordinateWord(dense.cells[i], 1)
    requires z == CoordinateWord(dense.cells[i], 2)
    ensures FirstPass(dense, base, data[4 * i := x][4 * i + 1 := y][4 * i + 2 := z], i + 1)
  {
  }

  /** The first loop: the x, y, z words of every record, rgb words untouched. */
  method FillCoordinates(dense: Grid<Point3>, points: PointCloud2)
    requires dense.Valid() && |points.data| == 4 * |dense.cells|
    modifies points`data
    ensures |points.data| == 4 * |dense.cells|
    ensures points.Coordinates(dense, |dense.cells|)
    ensures forall j :: 0 <= j < |dense.cells| ==> FieldOf(points.data, j, 3) == FieldOf(old(points.data), j, 3)
  {
    ghost var base := points.data;
    var i := 0;
    var u := 0;
    while u < dense.rows
      invariant u <= dense.rows && i == u * dense.cols
      invariant FirstPass(dense, base, points.data, i)
    {
      i := FillCoordinatesRow(dense, points, u, i, base);
      u := u + 1;
    }
  }

  /** The inner loop of the first pass: the records of row u; i is the running record counter. */
  method FillCoordinatesRow(dense: Grid<Point3>, points: PointCloud2, u: nat, i0: nat, ghost base: seq<Word>)
    returns (i: nat)
    requires dense.Valid() && u < dense.rows && i0 == u * dense.cols
    requires FirstPass(dense, base, points.data, i0)
    modifies points`data
    ensures i == (u + 1) * dense.cols
    ensures FirstPass(dense, base, points.data, i)
  {
    i := i0;
    var v := 0;
    while v < dense.cols
      invariant v <= dense.cols && i == u * dense.cols + v
      invariant FirstPass(dense, base, points.data, i)
    {
      IndexInGrid(u, v, dense.rows, dense.cols);
      var pt := dense.At(u, v);
      assert pt == dense.cells[i];
      if IsValidPoint(pt) {
        FirstPassStep(dense, base, points.data, i, Value(pt.x), Value(pt.y), DepthWord(pt.z));
        points.data := points.data[WordIndex(i, 0) := Value(pt.x)];
        points.data := points.data[WordIndex(i, 4) := Value(pt.y)];
        points.data := points.data[WordIndex(i, 8) := DepthWord(pt.z)];
      } else {
        FirstPassStep(dense, base, points.data, i, BAD_POINT, BAD_POINT, BAD_POINT);
        points.data := points.data[WordIndex(i, 0) := BAD_POINT];
        points.data := points.data[WordIndex(i, 4) := BAD_POINT];
        points.data := points.data[WordIndex(i, 8) := BAD_POINT];
      }
      v := v + 1;
      i := i + 1;
    }
  }

  /**
   * The state of a colour pass after i records: records 0 .. i-1 hold their
   * rgb words, and every coordinate word is that of base.
   */
  ghost predicate ColorPass(dense: Grid<Point3>, color: Grid<seq<byte>>, fmt: Format, base: seq<Word>,
                            data: seq<Word>, i: nat)
    requires Fits(color, fmt, dense.rows, dense.cols)
  {
    i <= |dense.cells| == |color.cells| && |data| == |base| == 4 * |dense.cells| &&
    (forall j, k :: 0 <= j < |dense.cells| && 0 <= k < 3 ==> FieldOf(data, j, k) == FieldOf(base, j, k)) &&
    (forall j :: 0 <= j < i ==> FieldOf(data, j, 3) == RgbWord(fmt, dense.cells[j], color.cells[j]))
  }

  /** Writing the rgb word of record i advances a colour pass by one record. */
  lemma ColorPassStep(dense: Grid<Point3>, color: Grid<seq<byte>>, fmt: Format, base: seq<Word>,
                      data: seq<Word>, i: nat, w: Word)
    requires Fits(color, fmt, dense.rows, dense.cols) && ColorPass(dense, color, fmt, base, data, i)
    requires i < |dense.cells| && w == RgbWord(fmt, dense.cells[i], color.cells[i])
    ensures ColorPass(dense, color, fmt, base, data[4 * i + 3 := w], i + 1)
  {
  }

  /** One of the three colour loops: the rgb word of every record, coordinates untouched. */
  method FillColor(dense: Grid<Point3>, color: Grid<seq<byte>>, fmt: Format, points: PointCloud2)
    requires dense.Valid() && Fits(color, fmt, dense.rows, dense.cols)
    requires |points.data| == 4 * |dense.cells|
    modifies points`data
    ensures |points.data| == 4 * |dense.cells|
    ensures forall j, k :: 0 <= j < |dense.cells| && 0 <= k < 3 ==>
      FieldOf(points.data, j, k) == FieldOf(old(points.data), j, k)
    ensures forall j :: 0 <= j < |dense.cells| ==>
      FieldOf(points.data, j, 3) == RgbWord(fmt, dense.cells[j], color.cells[j])
  {
    ghost var base := points.data;
    var i := 0;
    var u := 0;
    while u < dense.rows
      invariant u <= dense.rows && i == u * dense.cols
      invariant ColorPass(dense, color, fmt, base, points.data, i)
    {
      i := FillColorRow(dense, color, fmt, points, u, i, base);
      u := u + 1;
    }
  }

  /** The inner loop of a colour pass: the rgb words of row u; i is the running record counter. */
  method FillColorRow(dense: Grid<Point3>, color: Grid<seq<byte>>, fmt: Format, points: PointCloud2,
                      u: nat, i0: nat, ghost base: seq<Word>)
    returns (i: nat)
    requires dense.Valid() && Fits(color, fmt, dense.rows, dense.cols)
    requires u < dense.rows && i0 == u * dense.cols
    requires ColorPass(dense, color, fmt, base, points.data, i0)
    modifies points`data
    ensures i == (u + 1) * dense.cols
    ensures ColorPass(dense, color, fmt, base, points.data, i)
  {
    i := i0;
    var v := 0;
    while v < dense.cols
      invariant v <= dense.cols && i == u * dense.cols + v
      invariant ColorPass(dense, color, fmt, base, points.data, i)
    {
      IndexInGrid(u, v, dense.rows, dense.cols);
      assert dense.At(u, v) == dense.cells[i] && color.At(u, v) == color.cells[i];
      if IsValidPoint(dense.At(u, v)) {
        PixelFits(color, fmt, u, v);
        var px := color.At(u, v);
        ColorPassStep(dense, color, fmt, base, points.data, i, Bits(Pack(fmt, px)));
        points.data := points.data[WordIndex(i, 12) := Bits(Pack(fmt, px))];
      } else {
        ColorPassStep(dense, color, fmt, base, points.data, i, BAD_POINT);
        points.data := points.data[WordIndex(i, 12) := BAD_POINT];
      }
      v := v + 1;
      i := i + 1;
    }
  }

  /**
   * The record of each cell of a built cloud: a valid cell's record holds
   * its x, y and z; an invalid cell's record holds NaN in x, y and z, and
   * in rgb too when the encoding is recognised.
   */
  lemma RecordContents(dense: Grid<Point3>, color: Grid<seq<byte>>, encoding: string, before: seq<Word>,
                       points: PointCloud2, i: nat)
    requires dense.Valid() && points.Built(dense, color, encoding, before) && i < |dense.cells|
    ensures |points.data| == 4 * |dense.cells|
    ensures IsValidPoint(dense.cells[i]) ==>
      FieldOf(points.data, i, 0) == Value(dense.cells[i].x) &&
      FieldOf(points.data, i, 1) == Value(dense.cells[i].y) &&
      FieldOf(points.data, i, 2) == DepthWord(dense.cells[i].z)
    ensures !IsValidPoint(dense.cells[i]) ==>
      FieldOf(points.data, i, 0) == BAD_POINT && FieldOf(points.data, i, 1) == BAD_POINT &&
      FieldOf(points.data, i, 2) == BAD_POINT &&
      (FormatOf(encoding).Some? ==> FieldOf(points.data, i, 3) == BAD_POINT)
  {
    assert FieldOf(points.data, i, 0) == CoordinateWord(dense.cells[i], 0);
    assert FieldOf(points.data, i, 1) == CoordinateWord(dense.cells[i], 1);
    assert FieldOf(points.data, i, 2) == CoordinateWord(dense.cells[i], 2);
  }

  /**
   * For an unrecognised encoding the rgb words keep what the buffer held
   * before the call: a buffer of the same size keeps the previous call's
   * colours, and words the resize added read as zero.
   */
  lemma UnknownEncodingKeepsRgb(dense: Grid<Point3>, color: Grid<seq<byte>>, encoding: string,
                                before: seq<Word>, points: PointCloud2, i: nat)
    requires dense.Valid() && points.Built(dense, color, encoding, before) && i < |dense.cells|
    requires FormatOf(encoding).None?
    ensures |points.data| == 4 * |dense.cells|
    ensures 4 * i + 3 < |before| ==> FieldOf(points.data, i, 3) == before[4 * i + 3]
    ensures 4 * i + 3 >= |before| ==> FieldOf(points.data, i, 3) == Bits(0)
  {
    assert FieldOf(points.data, i, 3) == FieldOf(Resize(before, 4 * |dense.cells|), i, 3);
  }
}
