/**
 * The row-major filtered scan that both cloud builders perform over the
 * dense point grid: rows u = 0 .. rows-1, and inside each row columns
 * v = 0 .. cols-1, keeping the cells for which isValidPoint holds.
 */
module Raster {
  import opened Geometry

  /** p is visited strictly before q by a row-major scan. */
  predicate Before(p: Pixel, q: Pixel) {
    p.u < q.u || (p.u == q.u && p.v < q.v)
  }

  /** The valid pixels among columns 0 .. n-1 of row u, left to right. */
  function RowScan(g: Grid<Point3>, u: nat, n: nat): (r: seq<Pixel>)
    requires g.Valid() && u < g.rows && n <= g.cols
    ensures forall k :: 0 <= k < |r| ==> r[k].u == u && r[k].v < n
    decreases n
  {
    if n == 0 then []
    else RowScan(g, u, n - 1) + (if IsValidPoint(g.At(u, n - 1)) then [Pixel(u, n - 1)] else [])
  }

  /** The valid pixels of rows 0 .. m-1, in row-major order. */
  function Scan(g: Grid<Point3>, m: nat): (r: seq<Pixel>)
    requires g.Valid() && m <= g.rows
    ensures forall k :: 0 <= k < |r| ==> r[k].u < m && r[k].v < g.cols
  {
    if m == 0 then [] else Scan(g, m - 1) + RowScan(g, m - 1, g.cols)
  }

  /** The pixels a full scan of the grid keeps. */
  function ValidPixels(g: Grid<Point3>): (r: seq<Pixel>)
    requires g.Valid()
    ensures forall k :: 0 <= k < |r| ==> g.Contains(r[k])
  {
    Scan(g, g.rows)
  }

  /** Visiting cell (u, v) extends the scan by that cell when it is valid. */
  lemma ScanStep(g: Grid<Point3>, u: nat, v: nat)
    requires g.Valid() && u < g.rows && v < g.cols
    ensures Scan(g, u) + RowScan(g, u, v + 1) ==
            Scan(g, u) + RowScan(g, u, v) + (if IsValidPoint(g.At(u, v)) then [Pixel(u, v)] else [])
  {
    var a, b := Scan(g, u), RowScan(g, u, v);
    var c := if IsValidPoint(g.At(u, v)) then [Pixel(u, v)] else [];
    assert RowScan(g, u, v + 1) == b + c;
    assert a + (b + c) == (a + b) + c;
  }

  /** The number of valid cells among the first n of the row-major cell list. */
  function CountValid(cells: seq<Point3>, n: nat): (c: nat)
    requires n <= |cells|
    ensures c <= n
  {
    if n == 0 then 0 else CountValid(cells, n - 1) + (if IsValidPoint(cells[n - 1]) then 1 else 0)
  }

  lemma {:induction false} RowScanExact(g: Grid<Point3>, u: nat, n: nat)
    requires g.Valid() && u < g.rows && n <= g.cols
    ensures forall k :: 0 <= k < |RowScan(g, u, n)| ==> IsValidPoint(g.At(u, RowScan(g, u, n)[k].v))
    ensures forall v: nat :: v < n && IsValidPoint(g.At(u, v)) ==> Pixel(u, v) in RowScan(g, u, n)
    ensures forall j, k :: 0 <= j < k < |RowScan(g, u, n)| ==> RowScan(g, u, n)[j].v < RowScan(g, u, n)[k].v
  {
    if n > 0 {
      RowScanExact(g, u, n - 1);
    }
  }

  lemma {:induction false} ScanSound(g: Grid<Point3>, m: nat)
    requires g.Valid() && m <= g.rows
    ensures forall k :: 0 <= k < |Scan(g, m)| ==> IsValidPoint(g.At(Scan(g, m)[k].u, Scan(g, m)[k].v))
  {
    if m > 0 {
      ScanSound(g, m - 1);
      RowScanExact(g, m - 1, g.cols);
      var a: seq<Pixel>, b: seq<Pixel> := Scan(g, m - 1), RowScan(g, m - 1, g.cols);
      assert Scan(g, m) == a + b;
      forall k | 0 <= k < |a + b| ensures IsValidPoint(g.At((a + b)[k].u, (a + b)[k].v)) {
        if k >= |a| {
          assert (a + b)[k] == b[k - |a|];
        }
      }
    }
  }

  lemma {:induction false} ScanComplete(g: Grid<Point3>, m: nat)
    requires g.Valid() && m <= g.rows
    ensures forall u: nat, v: nat :: u < m && v < g.cols && IsValidPoint(g.At(u, v)) ==> Pixel(u, v) in Scan(g, m)
  {
    if m > 0 {
      ScanComplete(g, m - 1);
      RowScanExact(g, m - 1, g.cols);
      var a: seq<Pixel>, b: seq<Pixel> := Scan(g, m - 1), RowScan(g, m - 1, g.cols);
      assert Scan(g, m) == a + b;
      forall u: nat, v: nat | u < m && v < g.cols && IsValidPoint(g.At(u, v))
        ensures Pixel(u, v) in Scan(g, m)
      {
        if u < m - 1 {
          assert Pixel(u, v) in a;
        } else {
          assert Pixel(u, v) in b;
        }
      }
    }
  }

  lemma {:induction false} ScanOrdered(g: Grid<Point3>, m: nat)
    requires g.Valid() && m <= g.rows
    ensures forall j, k :: 0 <= j < k < |Scan(g, m)| ==> Before(Scan(g, m)[j], Scan(g, m)[k])
  {
    if m > 0 {
      ScanOrdered(g, m - 1);
      RowScanExact(g, m - 1, g.cols);
      var a: seq<Pixel>, b: seq<Pixel> := Scan(g, m - 1), RowScan(g, m - 1, g.cols);
      assert Scan(g, m) == a + b;
      forall j, k | 0 <= j < k < |a + b| ensures Before((a + b)[j], (a + b)[k]) {
        if k < |a| {
        } else if j >= |a| {
          assert (a + b)[j] == b[j - |a|] && (a + b)[k] == b[k - |a|];
        } else {
          assert (a + b)[j] == a[j] && (a + b)[k] == b[k - |a|];
        }
      }
    }
  }

  /**
   * The scan is exactly the set of valid pixels, each once, in row-major
   * order: every kept pixel is valid, every valid pixel is kept, and the
   * kept pixels are strictly increasing in scan order.
   */
  lemma ValidPixelsExact(g: Grid<Point3>)
    requires g.Valid()
    ensures forall k :: 0 <= k < |ValidPixels(g)| ==>
      IsValidPoint(g.At(ValidPixels(g)[k].u, ValidPixels(g)[k].v))
    ensures forall u: nat, v: nat :: u < g.rows && v < g.cols && IsValidPoint(g.At(u, v)) ==>
      Pixel(u, v) in ValidPixels(g)
    ensures forall j, k :: 0 <= j < k < |ValidPixels(g)| ==> Before(ValidPixels(g)[j], ValidPixels(g)[k])
  {
    ScanSound(g, g.rows);
    ScanComplete(g, g.rows);
    ScanOrdered(g, g.rows);
  }

  lemma {:induction false} RowScanCount(g: Grid<Point3>, u: nat, n: nat)
    requires g.Valid() && u < g.rows && n <= g.cols
    ensures u * g.cols + n <= |g.cells|
    ensures CountValid(g.cells, u * g.cols) + |RowScan(g, u, n)| == CountValid(g.cells, u * g.cols + n)
  {
    MulLeft(u + 1, g.rows, g.cols);
    assert (u + 1) * g.cols == u * g.cols + g.cols;
    if n > 0 {
      RowScanCount(g, u, n - 1);
    }
  }

  lemma {:induction false} ScanCount(g: Grid<Point3>, m: nat)
    requires g.Valid() && m <= g.rows
    ensures m * g.cols <= |g.cells|
    ensures |Scan(g, m)| == CountValid(g.cells, m * g.cols)
  {
    MulLeft(m, g.rows, g.cols);
    if m > 0 {
      ScanCount(g, m - 1);
      RowScanCount(g, m - 1, g.cols);
      var start := (m - 1) * g.cols;
      assert start + g.cols == m * g.cols;
      assert |Scan(g, m)| == |Scan(g, m - 1)| + |RowScan(g, m - 1, g.cols)|;
    }
  }

  /**
   * The sparse builder keeps exactly as many points as the structured
   * builder finds valid records, cell by cell, in the row-major cell list.
   */
  lemma ValidPixelsCount(g: Grid<Point3>)
    requires g.Valid()
    ensures |ValidPixels(g)| == CountValid(g.cells, |g.cells|)
  {
    ScanCount(g, g.rows);
  }

  /**
   * Record i of the flat cell list is valid exactly when its pixel
   * (i / cols, i % cols) is one the scan keeps: both builders classify the
   * same cells as valid.
   */
  lemma SameValidity(g: Grid<Point3>, i: nat)
    requires g.Valid() && i < |g.cells|
    ensures g.cols > 0 && i == (i / g.cols) * g.cols + i % g.cols && i / g.cols < g.rows
    ensures Pixel(i / g.cols, i % g.cols) in ValidPixels(g) <==> IsValidPoint(g.cells[i])
  {
    assert g.cols > 0;
    var u, v := i / g.cols, i % g.cols;
    assert i == u * g.cols + v;
    if u >= g.rows {
      MulLeft(g.rows, u, g.cols);
      assert false;
    }
    assert g.At(u, v) == g.cells[i];
    ValidPixelsExact(g);
    if Pixel(u, v) in ValidPixels(g) {
      var k :| 0 <= k < |ValidPixels(g)| && ValidPixels(g)[k] == Pixel(u, v);
    }
  }
}
