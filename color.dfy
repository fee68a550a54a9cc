/**
 * The colour packing shared by processPoints and processPoints2: a pixel of
 * the rectified colour image becomes one 24-bit value 0x00RRGGBB, which the
 * builders store unchanged as the bit pattern of a float.
 */
module ColorPacking {
  import opened Optional
  import opened Geometry

  /** The encodings whose colour the builders can pack (sensor_msgs image_encodings). */
  datatype Format = Mono8 | Rgb8 | Bgr8

  const MONO8: string := "mono8"
  const RGB8: string := "rgb8"
  const BGR8: string := "bgr8"

  /** The recognised encoding an encoding string names, if any. */
  function FormatOf(encoding: string): Option<Format> {
    if encoding == MONO8 then Some(Mono8)
    else if encoding == RGB8 then Some(Rgb8)
    else if encoding == BGR8 then Some(Bgr8)
    else None
  }

  /** Channels per pixel: one for grey, three for colour. */
  function Channels(fmt: Format): nat {
    if fmt == Mono8 then 1 else 3
  }

  /** The colour a pixel shows, as red, green and blue intensities. */
  datatype Rgb = Rgb(r: byte, g: byte, b: byte)

  function ColourOf(fmt: Format, px: seq<byte>): Rgb
    requires |px| == Channels(fmt)
  {
    match fmt
    case Mono8 => Rgb(px[0], px[0], px[0])
    case Rgb8 => Rgb(px[0], px[1], px[2])
    case Bgr8 => Rgb(px[2], px[1], px[0])
  }

  /** The three bytes of a packed value: bits 16-23 red, 8-15 green, 0-7 blue. */
  function Unpack(w: bv32): Rgb {
    Rgb(((w >> 16) & 0xFF) as bv8, ((w >> 8) & 0xFF) as bv8, (w & 0xFF) as bv8)
  }

  /**
   * The shift/or expression of the colour loops: red in bits 16-23, green
   * in bits 8-15, blue in bits 0-7. It fits in 24 bits and unpacks to the
   * three intensities.
   */
  function Combine(r: byte, g: byte, b: byte): (rgb: bv32)
    ensures rgb < 0x100_0000
    ensures Unpack(rgb) == Rgb(r, g, b)
  {
    ((r as bv32) << 16) | ((g as bv32) << 8) | (b as bv32)
  }

  /**
   * The packed colour of a pixel, as each encoding's loop computes it:
   * (g << 16) | (g << 8) | g for MONO8, the bytes in order for RGB8 and
   * reversed for BGR8. It unpacks to the colour the pixel shows.
   */
  function Pack(fmt: Format, px: seq<byte>): (rgb: bv32)
    requires |px| == Channels(fmt)
    ensures rgb < 0x100_0000
    ensures Unpack(rgb) == ColourOf(fmt, px)
  {
    match fmt
    case Mono8 => Combine(px[0], px[0], px[0])
    case Rgb8 => Combine(px[0], px[1], px[2])
    case Bgr8 => Combine(px[2], px[1], px[0])
  }

  /** A 24-bit value is determined by its three bytes. */
  lemma UnpackInjective(a: bv32, b: bv32)
    requires a < 0x100_0000 && b < 0x100_0000
    requires Unpack(a) == Unpack(b)
    ensures a == b
  {
    assert ((a >> 16) & 0xFF) as bv8 == ((b >> 16) & 0xFF) as bv8;
    assert ((a >> 8) & 0xFF) as bv8 == ((b >> 8) & 0xFF) as bv8;
    assert (a & 0xFF) as bv8 == (b & 0xFF) as bv8;
  }

  /**
   * The packed value depends on the colour only, whatever the encoding: a
   * BGR8 pixel (b, g, r) packs like the RGB8 pixel (r, g, b), and a MONO8
   * pixel g like the RGB8 pixel (g, g, g).
   */
  lemma PackDependsOnColourOnly(f1: Format, a: seq<byte>, f2: Format, b: seq<byte>)
    requires |a| == Channels(f1) && |b| == Channels(f2)
    requires ColourOf(f1, a) == ColourOf(f2, b)
    ensures Pack(f1, a) == Pack(f2, b)
  {
    UnpackInjective(Pack(f1, a), Pack(f2, b));
  }

  /** Within one encoding, the packed value gives back the pixel itself. */
  lemma {:induction false} PackInjective(fmt: Format, a: seq<byte>, b: seq<byte>)
    requires |a| == Channels(fmt) && |b| == Channels(fmt)
    requires Pack(fmt, a) == Pack(fmt, b)
    ensures a == b
  {
    assert ColourOf(fmt, a) == ColourOf(fmt, b);
    if fmt == Mono8 {
      assert a == [a[0]] && b == [b[0]];
    } else {
      assert a == [a[0], a[1], a[2]] && b == [b[0], b[1], b[2]];
    }
  }

  /** The colour image has the grid's shape and fmt's channel count at every pixel. */
  predicate Fits(color: Grid<seq<byte>>, fmt: Format, rows: nat, cols: nat) {
    color.Valid() && color.rows == rows && color.cols == cols &&
    forall i :: 0 <= i < |color.cells| ==> |color.cells[i]| == Channels(fmt)
  }

  /** Every pixel of a colour image that fits fmt has fmt's channel count. */
  lemma PixelFits(color: Grid<seq<byte>>, fmt: Format, u: nat, v: nat)
    requires Fits(color, fmt, color.rows, color.cols) && u < color.rows && v < color.cols
    ensures |color.At(u, v)| == Channels(fmt)
  {
    IndexInGrid(u, v, color.rows, color.cols);
  }

  /** The colour image matches the grid wherever the builders read it. */
  predicate ColorFits(color: Grid<seq<byte>>, encoding: string, rows: nat, cols: nat) {
    match FormatOf(encoding)
    case None => true
    case Some(fmt) => Fits(color, fmt, rows, cols)
  }
}
