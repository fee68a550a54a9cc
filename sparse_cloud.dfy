/**
 * processPoints: the sparse cloud. The valid cells of the dense grid are
 * appended in row-major order to the point list, with their row in channel
 * "u" and their column in channel "v"; a second scan fills channel "rgb"
 * with the packed colour when the encoding is recognised.
 */
module SparseCloud {
  import opened Optional
  import opened Geometry
  import opened Raster
  import opened ColorPacking

  /** sensor_msgs::ChannelFloat32: a name and one float word per point. */
  datatype Channel = Channel(name: string, values: seq<Word>)

  /** The word push_back(u) stores for an integer coordinate. */
  function CoordWord(c: nat): Word {
    Value(Num(c as real))
  }

  /** The word the colour loop stores for a pixel: the packed value as a float bit pattern. */
  function ColorWord(fmt: Format, px: seq<byte>): Word
    requires |px| == Channels(fmt)
  {
    Bits(Pack(fmt, px))
  }

  /** The colour word of pixel p of a colour image that fits fmt. */
  function PixelColor(color: Grid<seq<byte>>, fmt: Format, p: Pixel): Word
    requires Fits(color, fmt, color.rows, color.cols) && color.Contains(p)
  {
    IndexInGrid(p.u, p.v, color.rows, color.cols);
    ColorWord(fmt, color.At(p.u, p.v))
  }

  /** channels[c].values.push_back(w). */
  function PushBack(channels: seq<Channel>, c: nat, w: Word): (r: seq<Channel>)
    requires c < |channels|
    ensures |r| == |channels| && r[c].name == channels[c].name && r[c].values == channels[c].values + [w]
    ensures forall j :: 0 <= j < |channels| && j != c ==> r[j] == channels[j]
  {
    channels[c := channels[c].(values := channels[c].values + [w])]
  }

  /** pts, us and vs list the cells ps of g: each point and its row and column. */
  ghost predicate Listing(g: Grid<Point3>, pts: seq<Point3>, us: seq<Word>, vs: seq<Word>, ps: seq<Pixel>)
    requires g.Valid()
  {
    |pts| == |ps| && |us| == |ps| && |vs| == |ps| &&
    forall k :: 0 <= k < |ps| ==>
      g.Contains(ps[k]) && pts[k] == g.At(ps[k].u, ps[k].v) && us[k] == CoordWord(ps[k].u) && vs[k] == CoordWord(ps[k].v)
  }

  /** One more push_back of point (u, v) extends the listing by that cell. */
  lemma ListingAppend(g: Grid<Point3>, pts: seq<Point3>, us: seq<Word>, vs: seq<Word>, ps: seq<Pixel>, u: nat, v: nat)
    requires g.Valid() && Listing(g, pts, us, vs, ps) && u < g.rows && v < g.cols
    ensures Listing(g, pts + [g.At(u, v)], us + [CoordWord(u)], vs + [CoordWord(v)], ps + [Pixel(u, v)])
  {
  }

  /** rgb holds the packed colour of each pixel of ps, in order. */
  ghost predicate ColorList(color: Grid<seq<byte>>, fmt: Format, rgb: seq<Word>, ps: seq<Pixel>)
    requires Fits(color, fmt, color.rows, color.cols)
  {
    |rgb| == |ps| && forall k :: 0 <= k < |ps| ==> color.Contains(ps[k]) && rgb[k] == PixelColor(color, fmt, ps[k])
  }

  /** One more push_back of the colour of pixel p extends the colour list by p. */
  lemma ColorListAppend(color: Grid<seq<byte>>, fmt: Format, rgb: seq<Word>, ps: seq<Pixel>, p: Pixel)
    requires Fits(color, fmt, color.rows, color.cols) && ColorList(color, fmt, rgb, ps) && color.Contains(p)
    ensures ColorList(color, fmt, rgb + [PixelColor(color, fmt, p)], ps + [p])
  {
  }

  /** sensor_msgs::PointCloud: the point list and its parallel channels. */
  class PointCloud {
    var points: seq<Point3>
    var channels: seq<Channel>

    /** An empty message. */
    constructor ()
      ensures points == [] && channels == []
    {
      points, channels := [], [];
    }

    /** Three channels named rgb, u, v, in that order. */
    ghost predicate Named()
      reads this
    {
      |channels| == 3 && channels[0].name == "rgb" && channels[1].name == "u" && channels[2].name == "v"
    }

    /** The point list and channels u, v hold exactly the pixels ps, in order. */
    ghost predicate Lists(g: Grid<Point3>, ps: seq<Pixel>)
      reads this
      requires g.Valid()
    {
      Named() && Listing(g, points, channels[1].values, channels[2].values, ps)
    }

    /** Channel rgb holds the packed colour of each pixel of ps, in order. */
    ghost predicate Colors(color: Grid<seq<byte>>, fmt: Format, ps: seq<Pixel>)
      reads this
      requires Named() && Fits(color, fmt, color.rows, color.cols)
    {
      ColorList(color, fmt, channels[0].values, ps)
    }

    /**
     * The whole state processPoints leaves behind: the valid pixels of the
     * scan with their coordinates, and their colours, or an empty rgb
     * channel for an unrecognised encoding.
     */
    ghost predicate Built(dense: Grid<Point3>, color: Grid<seq<byte>>, encoding: string)
      reads this
      requires dense.Valid()
    {
      Lists(dense, ValidPixels(dense)) &&
      match FormatOf(encoding)
      case None => channels[0].values == []
      case Some(fmt) => Fits(color, fmt, color.rows, color.cols) && Colors(color, fmt, ValidPixels(dense))
    }
  }

  /**
   * processPoints, with the projected grid dense given. The previous
   * contents of the message are discarded. warned is the diagnostic for an
   * unrecognised encoding.
   */
  method ProcessPoints(dense: Grid<Point3>, color: Grid<seq<byte>>, encoding: string, points: PointCloud)
    returns (warned: bool)
    requires dense.Valid() && ColorFits(color, encoding, dense.rows, dense.cols)
    modifies points
    ensures points.Built(dense, color, encoding)
    ensures warned <==> FormatOf(encoding).None?
  {
    points.points := [];
    points.channels := [Channel("rgb", []), Channel("u", []), Channel("v", [])];

    var u := 0;
    while u < dense.rows
      invariant u <= dense.rows
      invariant points.Lists(dense, Scan(dense, u))
      invariant points.channels[0].values == []
    {
      var v := 0;
      while v < dense.cols
        invariant v <= dense.cols
        invariant points.Lists(dense, Scan(dense, u) + RowScan(dense, u, v))
        invariant points.channels[0].values == []
      {
        var pt := dense.At(u, v);
        ScanStep(dense, u, v);
        if IsValidPoint(pt) {
          ListingAppend(dense, points.points, points.channels[1].values, points.channels[2].values,
                        Scan(dense, u) + RowScan(dense, u, v), u, v);
          points.points := points.points + [pt];
          points.channels := PushBack(points.channels, 1, CoordWord(u));
          points.channels := PushBack(points.channels, 2, CoordWord(v));
        }
        v := v + 1;
      }
      u := u + 1;
    }

    warned := false;
    if encoding == MONO8 {
      FillColor(dense, color, Mono8, points);
    } else if encoding == RGB8 {
      FillColor(dense, color, Rgb8, points);
    } else if encoding == BGR8 {
      FillColor(dense, color, Bgr8, points);
    } else {
      warned := true;
    }
  }

  /** One of the three colour loops: push the packed colour of every valid cell. */
  method FillColor(dense: Grid<Point3>, color: Grid<seq<byte>>, fmt: Format, points: PointCloud)
    requires dense.Valid() && Fits(color, fmt, dense.rows, dense.cols)
    requires points.Lists(dense, ValidPixels(dense)) && points.channels[0].values == []
    modifies points`channels
    ensures points.Lists(dense, ValidPixels(dense)) && points.Colors(color, fmt, ValidPixels(dense))
  {
    ghost var us, vs := points.channels[1], points.channels[2];
    var u := 0;
    while u < dense.rows
      invariant u <= dense.rows
      invariant |points.channels| == 3 && points.channels[0].name == "rgb"
      invariant points.channels[1] == us && points.channels[2] == vs
      invariant points.Colors(color, fmt, Scan(dense, u))
    {
      FillColorRow(dense, color, fmt, points, u);
      u := u + 1;
    }
  }

  /** The inner loop of a colour loop: the valid cells of row u. */
  method FillColorRow(dense: Grid<Point3>, color: Grid<seq<byte>>, fmt: Format, points: PointCloud, u: nat)
    requires dense.Valid() && Fits(color, fmt, dense.rows, dense.cols) && u < dense.rows
    requires points.Named() && points.Colors(color, fmt, Scan(dense, u))
    modifies points`channels
    ensures |points.channels| == 3 && points.channels[0].name == "rgb"
    ensures points.channels[1] == old(points.channels[1]) && points.channels[2] == old(points.channels[2])
    ensures points.Named() && points.Colors(color, fmt, Scan(dense, u + 1))
  {
    var v := 0;
    while v < dense.cols
      invariant v <= dense.cols
      invariant |points.channels| == 3 && points.channels[0].name == "rgb"
      invariant points.channels[1] == old(points.channels[1]) && points.channels[2] == old(points.channels[2])
      invariant ColorList(color, fmt, points.channels[0].values, Scan(dense, u) + RowScan(dense, u, v))
    {
      ScanStep(dense, u, v);
      if IsValidPoint(dense.At(u, v)) {
        PixelFits(color, fmt, u, v);
        var px := color.At(u, v);
        ColorListAppend(color, fmt, points.channels[0].values, Scan(dense, u) + RowScan(dense, u, v), Pixel(u, v));
        points.channels := PushBack(points.channels, 0, ColorWord(fmt, px));
      }
      v := v + 1;
    }
  }

  /** The channel words of point j come before those of point k in a row-major scan. */
  predicate ScannedBefore(uj: Word, vj: Word, uk: Word, vk: Word) {
    uj.Value? && uj.f.Num? && vj.Value? && vj.f.Num? && uk.Value? && uk.f.Num? && vk.Value? && vk.f.Num? &&
    (uj.f.value < uk.f.value || (uj.f.value == uk.f.value && vj.f.value < vk.f.value))
  }

  /**
   * What processPoints promises about the sparse cloud: as many points as
   * the grid has valid cells, channels u and v of the same length, every
   * point valid, the points in strictly increasing row-major order of their
   * (u, v), and an rgb channel as long as the point list for a recognised
   * encoding and empty otherwise.
   */
  lemma SparseCloudShape(dense: Grid<Point3>, color: Grid<seq<byte>>, encoding: string, points: PointCloud)
    requires dense.Valid() && points.Built(dense, color, encoding)
    ensures |points.points| == CountValid(dense.cells, |dense.cells|)
    ensures |points.channels| == 3
    ensures |points.channels[1].values| == |points.points| && |points.channels[2].values| == |points.points|
    ensures |points.channels[0].values| == (if FormatOf(encoding).Some? then |points.points| else 0)
    ensures forall k :: 0 <= k < |points.points| ==> IsValidPoint(points.points[k])
    ensures forall j, k :: 0 <= j < k < |points.points| ==>
      ScannedBefore(points.channels[1].values[j], points.channels[2].values[j],
                    points.channels[1].values[k], points.channels[2].values[k])
  {
    var ps := ValidPixels(dense);
    ValidPixelsCount(dense);
    ValidPixelsExact(dense);
    forall j, k | 0 <= j < k < |points.points|
      ensures ScannedBefore(points.channels[1].values[j], points.channels[2].values[j],
                            points.channels[1].values[k], points.channels[2].values[k])
    {
      assert Before(ps[j], ps[k]);
    }
  }
}
