/** Raster windowing and interpolation-grid preparation (hydroadjust/sampling.py).

    A raster is a single band `grid[row][col]` with a GDAL geotransform and an optional
    nodata sentinel. `GetRasterWindow` cuts a pixel-aligned, padded window around a
    bounding box; `BuildInterpolationTable` turns a raster into the strictly increasing
    cell-centre axes and (x, y)-ordered values that the bilinear interpolator is built on. */
module Sampling {
  import opened Wrappers

  /** Axis-aligned box in georeferenced units, with its bounds addressed by name. */
  datatype BoundingBox = BoundingBox(xMin: real, xMax: real, yMin: real, yMax: real)

  /** The six geotransform coefficients in GDAL's order:
      X = originX + col * pixelWidth + row * rowRotation,
      Y = originY + col * colRotation + row * pixelHeight. */
  datatype GeoTransform = GeoTransform(originX: real, pixelWidth: real, rowRotation: real,
                                       originY: real, colRotation: real, pixelHeight: real)

  /** The ValueErrors (and the failed float-to-int conversion) raised while sampling. */
  datatype Error = RotatedGeoTransform | ZeroPixelSize

  predicate IsRotated(gt: GeoTransform) {
    gt.rowRotation != 0.0 || gt.colRotation != 0.0
  }

  /** A single-band raster; `width` is the number of columns of every row. */
  datatype Raster = Raster(grid: seq<seq<real>>, width: nat, gt: GeoTransform, nodata: Option<real>)

  predicate WellFormed(r: Raster) {
    forall i :: 0 <= i < |r.grid| ==> |r.grid[i]| == r.width
  }

  // ---------------------------------------------------------------- arithmetic helpers

  function Min(a: real, b: real): (m: real)
    ensures m <= a && m <= b && (m == a || m == b)
  {
    if a <= b then a else b
  }

  function Max(a: real, b: real): (m: real)
    ensures a <= m && b <= m && (m == a || m == b)
  {
    if a <= b then b else a
  }

  function Abs(a: real): (m: real)
    ensures 0.0 <= m && (m == a || m == -a)
  {
    if a < 0.0 then -a else a
  }

  /** `np.floor` followed by `int()`: the largest integer not above `r`. */
  function Floor(r: real): (f: int)
    ensures f as real <= r < f as real + 1.0
  {
    r.Floor
  }

  /** `np.ceil` followed by `int()`: the smallest integer not below `r`. */
  function Ceil(r: real): (c: int)
    ensures r <= c as real < r + 1.0
  {
    -((-r).Floor)
  }

  lemma ProductSign(p: real, d: real)
    requires d > 0.0
    ensures p > 0.0 ==> p * d > 0.0
    ensures p < 0.0 ==> p * d < 0.0
  {
  }

  // ---------------------------------------------------------------- window arithmetic

  /** Georeferenced coordinate of the (fractional) lattice index `i` on an axis with
      offset `o` and pixel size `p`. */
  function LatticeAt(o: real, p: real, i: real): real {
    o + p * i
  }

  /** A lattice coordinate moves with the index, upwards when the pixel size is positive
      and downwards when it is negative. */
  lemma LatticeMono(o: real, p: real, a: real, b: real)
    requires a < b
    ensures p > 0.0 ==> LatticeAt(o, p, a) < LatticeAt(o, p, b)
    ensures p < 0.0 ==> LatticeAt(o, p, b) < LatticeAt(o, p, a)
  {
    assert LatticeAt(o, p, b) - LatticeAt(o, p, a) == p * (b - a);
    ProductSign(p, b - a);
  }

  lemma LatticeStep(o: real, p: real, a: real)
    ensures LatticeAt(o, p, a + 1.0) == LatticeAt(o, p, a) + p
  {
    assert p * (a + 1.0) == p * a + p;
  }

  /** Fractional index of coordinate `v` on that axis. */
  function IndexOf(o: real, p: real, v: real): (i: real)
    requires p != 0.0
    ensures LatticeAt(o, p, i) == v
  {
    (v - o) / p
  }

  /** The window along one axis: pixel indices `lo` (inclusive) to `hi` (exclusive), and
      the georeferenced extent `eMin` to `eMax` of those pixels. */
  datatype AxisSpan = AxisSpan(lo: int, hi: int, eMin: real, eMax: real) {
    function Size(): int { hi - lo }
  }

  /** What the window bounds on one axis promise for the box edges `a` and `b`: at least one
      and less than two pixels of padding around their fractional indices on each side, so
      at least two pixels, and an extent whose ends are lattice points of the source,
      ordered whatever the sign of the pixel size. */
  predicate PadsAxis(o: real, p: real, a: real, b: real, s: AxisSpan)
    requires p != 0.0
  {
    var ia, ib := IndexOf(o, p, a), IndexOf(o, p, b);
    && (s.lo + 1) as real <= Min(ia, ib) < (s.lo + 2) as real
    && (s.hi - 2) as real < Max(ia, ib) <= (s.hi - 1) as real
    && s.Size() >= 2
    && s.eMin == LatticeAt(o, p, (if p > 0.0 then s.lo else s.hi) as real)
    && s.eMax == LatticeAt(o, p, (if p > 0.0 then s.hi else s.lo) as real)
    && s.eMin < s.eMax
  }

  lemma LatticeOrder(o: real, p: real, lo: int, hi: int)
    requires p != 0.0 && lo < hi
    ensures p > 0.0 ==> LatticeAt(o, p, lo as real) < LatticeAt(o, p, hi as real)
    ensures p < 0.0 ==> LatticeAt(o, p, hi as real) < LatticeAt(o, p, lo as real)
  {
    LatticeMono(o, p, lo as real, hi as real);
  }

  /** One axis of `get_raster_window`: fractional indices of both edges, `floor(min) - 1`
      and `ceil(max) + 1`, and the lattice coordinates of those two indices in order. */
  function PadAxis(o: real, p: real, a: real, b: real): (s: AxisSpan)
    requires p != 0.0
    ensures PadsAxis(o, p, a, b, s)
  {
    var ia, ib := IndexOf(o, p, a), IndexOf(o, p, b);
    var lo := Floor(Min(ia, ib)) - 1;
    var hi := Ceil(Max(ia, ib)) + 1;
    var eLo, eHi := LatticeAt(o, p, lo as real), LatticeAt(o, p, hi as real);
    LatticeOrder(o, p, lo, hi);
    AxisSpan(lo, hi, Min(eLo, eHi), Max(eLo, eHi))
  }

  /** A window: its column span and its row span. */
  datatype Window = Window(cols: AxisSpan, rows: AxisSpan) {
    function NumCols(): int { cols.Size() }
    function NumRows(): int { rows.Size() }
    /** The padded, georeferenced window handed to `gdal.Translate`. */
    function Padded(): BoundingBox { BoundingBox(cols.eMin, cols.eMax, rows.eMin, rows.eMax) }
  }

  /** Index arithmetic of `get_raster_window`: reject rotation, then pad each axis. */
  function RasterWindow(gt: GeoTransform, bbox: BoundingBox): (r: Result<Window, Error>)
    ensures IsRotated(gt) <==> r == Failure(RotatedGeoTransform)
    ensures r == Failure(ZeroPixelSize) <==>
              !IsRotated(gt) && (gt.pixelWidth == 0.0 || gt.pixelHeight == 0.0)
    ensures r.Success? ==>
      && PadsAxis(gt.originX, gt.pixelWidth, bbox.xMin, bbox.xMax, r.value.cols)
      && PadsAxis(gt.originY, gt.pixelHeight, bbox.yMin, bbox.yMax, r.value.rows)
  {
    if IsRotated(gt) then Failure(RotatedGeoTransform)
    else if gt.pixelWidth == 0.0 || gt.pixelHeight == 0.0 then Failure(ZeroPixelSize)
    else Success(Window(PadAxis(gt.originX, gt.pixelWidth, bbox.xMin, bbox.xMax),
                        PadAxis(gt.originY, gt.pixelHeight, bbox.yMin, bbox.yMax)))
  }

  lemma LatticeMargin(o: real, p: real, lo: int, hi: int, c: real)
    requires p != 0.0 && (lo + 1) as real <= c <= (hi - 1) as real
    ensures Min(LatticeAt(o, p, lo as real), LatticeAt(o, p, hi as real)) + Abs(p) <= LatticeAt(o, p, c)
    ensures LatticeAt(o, p, c) <= Max(LatticeAt(o, p, lo as real), LatticeAt(o, p, hi as real)) - Abs(p)
  {
    LatticeOrder(o, p, lo, hi);
    if p > 0.0 {
      LatticeStep(o, p, lo as real);
      LatticeStep(o, p, (hi - 1) as real);
      if (lo + 1) as real < c { LatticeMono(o, p, (lo + 1) as real, c); }
      if c < (hi - 1) as real { LatticeMono(o, p, c, (hi - 1) as real); }
    } else {
      LatticeStep(o, p, lo as real);
      LatticeStep(o, p, (hi - 1) as real);
      if (lo + 1) as real < c { LatticeMono(o, p, (lo + 1) as real, c); }
      if c < (hi - 1) as real { LatticeMono(o, p, c, (hi - 1) as real); }
    }
  }

  /** On one axis the padded extent holds both box edges with a full pixel to spare. */
  lemma {:induction false} AxisMargin(o: real, p: real, a: real, b: real, s: AxisSpan)
    requires p != 0.0 && PadsAxis(o, p, a, b, s)
    ensures s.eMin + Abs(p) <= Min(a, b) && Max(a, b) + Abs(p) <= s.eMax
  {
    LatticeMargin(o, p, s.lo, s.hi, IndexOf(o, p, a));
    LatticeMargin(o, p, s.lo, s.hi, IndexOf(o, p, b));
  }

  /** The padded extent contains the box with at least one full pixel of margin on every side. */
  lemma {:induction false} PaddedBoxContainsBBox(gt: GeoTransform, bbox: BoundingBox)
    requires RasterWindow(gt, bbox).Success?
    ensures var p := RasterWindow(gt, bbox).value.Padded();
      && p.xMin + Abs(gt.pixelWidth) <= Min(bbox.xMin, bbox.xMax)
      && Max(bbox.xMin, bbox.xMax) + Abs(gt.pixelWidth) <= p.xMax
      && p.yMin + Abs(gt.pixelHeight) <= Min(bbox.yMin, bbox.yMax)
      && Max(bbox.yMin, bbox.yMax) + Abs(gt.pixelHeight) <= p.yMax
  {
    var w := RasterWindow(gt, bbox).value;
    AxisMargin(gt.originX, gt.pixelWidth, bbox.xMin, bbox.xMax, w.cols);
    AxisMargin(gt.originY, gt.pixelHeight, bbox.yMin, bbox.yMax, w.rows);
  }

  // ---------------------------------------------------------------- the crop

  /** The value GDAL writes where the window leaves the source: its nodata value, or 0. */
  function FillValue(src: Raster): real {
    src.nodata.GetOr(0.0)
  }

  predicate InRaster(src: Raster, row: int, col: int) {
    0 <= row < |src.grid| && 0 <= col < src.width
  }

  /** Geotransform of the window: the origin moves to the lattice point of its first pixel. */
  function WindowGeoTransform(gt: GeoTransform, w: Window): GeoTransform {
    GeoTransform(LatticeAt(gt.originX, gt.pixelWidth, w.cols.lo as real), gt.pixelWidth, 0.0,
                 LatticeAt(gt.originY, gt.pixelHeight, w.rows.lo as real), 0.0, gt.pixelHeight)
  }

  /** The effect of the nearest-neighbour `gdal.Translate` onto a pixel-aligned window:
      an independent copy of the source pixels under it, the fill value outside the source. */
  function Crop(src: Raster, w: Window): (out: Raster)
    requires WellFormed(src) && w.NumCols() >= 0 && w.NumRows() >= 0
    ensures WellFormed(out) && |out.grid| == w.NumRows() && out.width == w.NumCols()
    ensures out.gt == WindowGeoTransform(src.gt, w) && out.nodata == src.nodata
    ensures forall r, c :: 0 <= r < |out.grid| && 0 <= c < out.width ==>
      if InRaster(src, w.rows.lo + r, w.cols.lo + c)
      then out.grid[r][c] == src.grid[w.rows.lo + r][w.cols.lo + c]
      else out.grid[r][c] == FillValue(src)
  {
    var grid := seq(w.NumRows(), r =>
      seq(w.NumCols(), c =>
        if InRaster(src, w.rows.lo + r, w.cols.lo + c) then src.grid[w.rows.lo + r][w.cols.lo + c]
        else FillValue(src)));
    Raster(grid, w.NumCols(), WindowGeoTransform(src.gt, w), src.nodata)
  }

  /** `get_raster_window`: the padded window around `bbox`, cut out of `src`. */
  function GetRasterWindow(src: Raster, bbox: BoundingBox): (r: Result<Raster, Error>)
    requires WellFormed(src)
    ensures IsRotated(src.gt) <==> r == Failure(RotatedGeoTransform)
    ensures r.Success? ==>
      && WellFormed(r.value) && |r.value.grid| >= 2 && r.value.width >= 2
      && !IsRotated(r.value.gt) && r.value.nodata == src.nodata
      && r.value.gt.pixelWidth == src.gt.pixelWidth && r.value.gt.pixelHeight == src.gt.pixelHeight
  {
    match RasterWindow(src.gt, bbox)
    case Failure(e) => Failure(e)
    case Success(w) => Success(Crop(src, w))
  }

  /** Georeferenced centre of pixel `i` on an axis. */
  function CellCentre(o: real, p: real, i: int): real {
    LatticeAt(o, p, 0.5 + i as real)
  }

  function CellCentreX(gt: GeoTransform, col: int): real {
    CellCentre(gt.originX, gt.pixelWidth, col)
  }

  function CellCentreY(gt: GeoTransform, row: int): real {
    CellCentre(gt.originY, gt.pixelHeight, row)
  }

  /** The crop keeps georeferencing: window pixel (r, c) has the centre of source pixel
      (rows.lo + r, cols.lo + c), so the window lies on the source pixel lattice. */
  lemma CropKeepsCellCentres(gt: GeoTransform, w: Window, r: int, c: int)
    ensures CellCentreX(WindowGeoTransform(gt, w), c) == CellCentreX(gt, w.cols.lo + c)
    ensures CellCentreY(WindowGeoTransform(gt, w), r) == CellCentreY(gt, w.rows.lo + r)
  {
    var p, q := gt.pixelWidth, gt.pixelHeight;
    assert p * w.cols.lo as real + p * (0.5 + c as real) == p * (0.5 + (w.cols.lo + c) as real);
    assert q * w.rows.lo as real + q * (0.5 + r as real) == q * (0.5 + (w.rows.lo + r) as real);
  }

  // ---------------------------------------------------------------- interpolation grid

  /** Cell-centre axes in strictly increasing order and `values[k][l]`, the sample at
      `(xs[k], ys[l])`, with nodata replaced by `None`. */
  datatype InterpolationTable = InterpolationTable(xs: seq<real>, ys: seq<real>, values: seq<seq<Option<real>>>)

  /** The bilinear interpolator over a table, left abstract: `None` stands for NaN. */
  type Sampler = (InterpolationTable, real, real) -> Option<real>

  /** The coordinate domain of a table; outside it the interpolator yields NaN. */
  predicate InDomain(t: InterpolationTable, x: real, y: real) {
    && |t.xs| > 0 && |t.ys| > 0
    && t.xs[0] <= x <= t.xs[|t.xs| - 1]
    && t.ys[0] <= y <= t.ys[|t.ys| - 1]
  }

  /** Index into an axis of `n` cells walked forwards or, for `a[::-1]`, backwards. */
  function AxisIndex(forwards: bool, n: nat, k: int): (i: int)
    requires 0 <= k < n
    ensures 0 <= i < n
  {
    if forwards then k else n - 1 - k
  }

  lemma AxisIndexInvolutive(forwards: bool, n: nat, k: int)
    requires 0 <= k < n
    ensures AxisIndex(forwards, n, AxisIndex(forwards, n, k)) == k
  {
  }

  /** `z_grid[z_grid == nodata_value] = nan` on one cell. */
  function MissingIfNodata(nodata: Option<real>, v: real): (z: Option<real>)
    ensures z == None <==> nodata == Some(v)
    ensures z.Some? ==> z.value == v
  {
    if nodata == Some(v) then None else Some(v)
  }

  /** The prepared cell-centre axis of `n` pixels: walked backwards unless the pixel size is positive. */
  function CentreAxis(o: real, p: real, n: nat): (xs: seq<real>)
    ensures |xs| == n
  {
    seq(n, k requires 0 <= k < n => CellCentre(o, p, AxisIndex(p > 0.0, n, k)))
  }

  /** Reference definition of the prepared table of `get_raster_interpolator`: axes walked
      backwards where the pixel size is not positive, the grid read in (x, y) order. */
  function InterpolationTableOf(r: Raster): (res: Result<InterpolationTable, Error>)
    requires WellFormed(r)
    ensures IsRotated(r.gt) <==> res.Failure?
    ensures res.Success? ==>
      && |res.value.xs| == r.width && |res.value.ys| == |r.grid|
      && |res.value.values| == r.width
      && forall k :: 0 <= k < r.width ==> |res.value.values[k]| == |r.grid|
  {
    if IsRotated(r.gt) then Failure(RotatedGeoTransform)
    else
      var colsForwards, rowsForwards := r.gt.pixelWidth > 0.0, r.gt.pixelHeight > 0.0;
      var numRows, numCols := |r.grid|, r.width;
      Success(InterpolationTable(
        CentreAxis(r.gt.originX, r.gt.pixelWidth, numCols),
        CentreAxis(r.gt.originY, r.gt.pixelHeight, numRows),
        seq(numCols, k requires 0 <= k < numCols => seq(numRows, l requires 0 <= l < numRows =>
          MissingIfNodata(r.nodata, r.grid[AxisIndex(rowsForwards, numRows, l)][AxisIndex(colsForwards, numCols, k)])))))
  }

  /** Reverse a sequence (`np.flip`). */
  function Flip<T>(s: seq<T>): (f: seq<T>)
    ensures |f| == |s| && forall i :: 0 <= i < |s| ==> f[i] == s[|s| - 1 - i]
  {
    seq(|s|, i requires 0 <= i < |s| => s[|s| - 1 - i])
  }

  /** `offset + size * (0.5 + np.arange(n))`, then flipped unless the size is positive. */
  method CentreValues(o: real, p: real, n: nat) returns (values: seq<real>)
    ensures values == CentreAxis(o, p, n)
  {
    values := [];
    for i := 0 to n
      invariant values == seq(i, k => CellCentre(o, p, k))
    {
      values := values + [CellCentre(o, p, i)];
    }
    ghost var ascending := values;
    if p <= 0.0 {
      values := Flip(values);
    }
    forall k | 0 <= k < n ensures values[k] == CentreAxis(o, p, n)[k] {
      assert ascending[AxisIndex(p > 0.0, n, k)] == CellCentre(o, p, AxisIndex(p > 0.0, n, k));
    }
  }

  /** The band with every nodata cell overwritten, in place, by `None`. */
  method MaskNodata(r: Raster) returns (zGrid: seq<seq<Option<real>>>)
    requires WellFormed(r)
    ensures |zGrid| == |r.grid|
    ensures forall a :: 0 <= a < |r.grid| ==> |zGrid[a]| == r.width
    ensures forall a, b :: 0 <= a < |r.grid| && 0 <= b < r.width ==>
      zGrid[a][b] == MissingIfNodata(r.nodata, r.grid[a][b])
  {
    var numRows, numCols := |r.grid|, r.width;
    zGrid := seq(numRows, i requires 0 <= i < numRows =>
      seq(numCols, j requires 0 <= j < numCols => Some(r.grid[i][j])));
    for i := 0 to numRows
      invariant |zGrid| == numRows
      invariant forall a :: 0 <= a < numRows ==> |zGrid[a]| == numCols
      invariant forall a, b :: 0 <= a < i && 0 <= b < numCols ==> zGrid[a][b] == MissingIfNodata(r.nodata, r.grid[a][b])
      invariant forall a, b :: i <= a < numRows && 0 <= b < numCols ==> zGrid[a][b] == Some(r.grid[a][b])
    {
      var row := zGrid[i];
      for j := 0 to numCols
        invariant |row| == numCols
        invariant forall b :: 0 <= b < j ==> row[b] == MissingIfNodata(r.nodata, r.grid[i][b])
        invariant forall b :: j <= b < numCols ==> row[b] == Some(r.grid[i][b])
      {
        if r.nodata == Some(r.grid[i][j]) {
          row := row[j := None];
        }
      }
      zGrid := zGrid[i := row];
    }
  }

  /** `z_grid[::row_step, ::col_step].transpose()`: the value for `(x_k, y_l)` at `[k][l]`. */
  method OrientAndTranspose(zGrid: seq<seq<Option<real>>>, numCols: nat, rowsForwards: bool, colsForwards: bool)
    returns (values: seq<seq<Option<real>>>)
    requires forall a :: 0 <= a < |zGrid| ==> |zGrid[a]| == numCols
    ensures |values| == numCols
    ensures forall k :: 0 <= k < numCols ==>
      values[k] == seq(|zGrid|, l requires 0 <= l < |zGrid| => zGrid[AxisIndex(rowsForwards, |zGrid|, l)][AxisIndex(colsForwards, numCols, k)])
  {
    var numRows := |zGrid|;
    values := [];
    for k := 0 to numCols
      invariant |values| == k
      invariant forall a :: 0 <= a < k ==>
        values[a] == seq(numRows, l requires 0 <= l < numRows => zGrid[AxisIndex(rowsForwards, numRows, l)][AxisIndex(colsForwards, numCols, a)])
    {
      var column: seq<Option<real>> := [];
      for l := 0 to numRows
        invariant column == seq(l, b requires 0 <= b < l => zGrid[AxisIndex(rowsForwards, numRows, b)][AxisIndex(colsForwards, numCols, k)])
      {
        column := column + [zGrid[AxisIndex(rowsForwards, numRows, l)][AxisIndex(colsForwards, numCols, k)]];
      }
      values := values + [column];
    }
  }

  /** `get_raster_interpolator` up to the SciPy constructor: reject rotation, build the
      cell-centre arrays, flip an axis with non-positive pixel size, blank nodata cells and
      transpose the grid to (x, y) order. */
  method BuildInterpolationTable(r: Raster) returns (res: Result<InterpolationTable, Error>)
    requires WellFormed(r)
    ensures res == InterpolationTableOf(r)
  {
    var gt := r.gt;
    if IsRotated(gt) {
      return Failure(RotatedGeoTransform);
    }
    var xValues := CentreValues(gt.originX, gt.pixelWidth, r.width);
    var yValues := CentreValues(gt.originY, gt.pixelHeight, |r.grid|);
    var colsForwards := gt.pixelWidth > 0.0;
    var rowsForwards := gt.pixelHeight > 0.0;
    var zGrid := MaskNodata(r);
    var values := OrientAndTranspose(zGrid, r.width, rowsForwards, colsForwards);
    res := Success(InterpolationTable(xValues, yValues, values));
    ghost var spec := InterpolationTableOf(r).value.values;
    forall k | 0 <= k < r.width ensures values[k] == spec[k] {
      assert forall l :: 0 <= l < |r.grid| ==> values[k][l] == spec[k][l];
    }
    assert values == spec;
  }

  // ---------------------------------------------------------------- properties of the table

  lemma CentreOrder(o: real, p: real, i: int, j: int)
    requires p != 0.0 && i < j
    ensures p > 0.0 ==> CellCentre(o, p, i) < CellCentre(o, p, j)
    ensures p < 0.0 ==> CellCentre(o, p, j) < CellCentre(o, p, i)
  {
    LatticeMono(o, p, 0.5 + i as real, 0.5 + j as real);
  }

  /** With a non-zero pixel size, a prepared axis is strictly increasing. */
  lemma {:induction false} CentreAxisIncreasing(o: real, p: real, n: nat)
    requires p != 0.0
    ensures var xs := CentreAxis(o, p, n);
      forall a, b :: 0 <= a < b < n ==> xs[a] < xs[b]
  {
    var xs := CentreAxis(o, p, n);
    forall a, b | 0 <= a < b < n ensures xs[a] < xs[b] {
      var i, j := AxisIndex(p > 0.0, n, a), AxisIndex(p > 0.0, n, b);
      if p > 0.0 { CentreOrder(o, p, i, j); }
      else { CentreOrder(o, p, j, i); }
    }
  }

  /** Both prepared axes of a raster with non-zero pixel sizes are strictly increasing. */
  lemma {:induction false} TableAxesIncreasing(r: Raster)
    requires WellFormed(r) && InterpolationTableOf(r).Success?
    ensures var t := InterpolationTableOf(r).value;
      && (r.gt.pixelWidth != 0.0 ==> forall a, b :: 0 <= a < b < |t.xs| ==> t.xs[a] < t.xs[b])
      && (r.gt.pixelHeight != 0.0 ==> forall a, b :: 0 <= a < b < |t.ys| ==> t.ys[a] < t.ys[b])
  {
    if r.gt.pixelWidth != 0.0 { CentreAxisIncreasing(r.gt.originX, r.gt.pixelWidth, r.width); }
    if r.gt.pixelHeight != 0.0 { CentreAxisIncreasing(r.gt.originY, r.gt.pixelHeight, |r.grid|); }
  }

  /** Every source cell lands in the table at its own centre, blanked exactly when it is nodata. */
  lemma {:induction false} TableHoldsEveryCell(r: Raster, row: int, col: int)
    requires WellFormed(r) && InterpolationTableOf(r).Success?
    requires 0 <= row < |r.grid| && 0 <= col < r.width
    ensures var t := InterpolationTableOf(r).value;
      var k, l := AxisIndex(r.gt.pixelWidth > 0.0, r.width, col), AxisIndex(r.gt.pixelHeight > 0.0, |r.grid|, row);
      && t.xs[k] == CellCentreX(r.gt, col) && t.ys[l] == CellCentreY(r.gt, row)
      && t.values[k][l] == MissingIfNodata(r.nodata, r.grid[row][col])
  {
    AxisIndexInvolutive(r.gt.pixelWidth > 0.0, r.width, col);
    AxisIndexInvolutive(r.gt.pixelHeight > 0.0, |r.grid|, row);
  }

  lemma CentreInjective(o: real, p: real, i: int, j: int)
    requires p != 0.0 && CellCentre(o, p, i) == CellCentre(o, p, j)
    ensures i == j
  {
    if i < j { CentreOrder(o, p, i, j); }
    else if j < i { CentreOrder(o, p, j, i); }
  }

  /** The value at `(xs[k], ys[l])` is the one of the source cell whose centre is that point. */
  lemma {:induction false} TableValueAtCentre(r: Raster, k: int, l: int, row: int, col: int)
    requires WellFormed(r) && InterpolationTableOf(r).Success?
    requires r.gt.pixelWidth != 0.0 && r.gt.pixelHeight != 0.0
    requires 0 <= k < r.width && 0 <= l < |r.grid| && 0 <= row < |r.grid| && 0 <= col < r.width
    requires InterpolationTableOf(r).value.xs[k] == CellCentreX(r.gt, col)
    requires InterpolationTableOf(r).value.ys[l] == CellCentreY(r.gt, row)
    ensures InterpolationTableOf(r).value.values[k][l] == MissingIfNodata(r.nodata, r.grid[row][col])
  {
    var gt := r.gt;
    CentreInjective(gt.originX, gt.pixelWidth, AxisIndex(gt.pixelWidth > 0.0, r.width, k), col);
    CentreInjective(gt.originY, gt.pixelHeight, AxisIndex(gt.pixelHeight > 0.0, |r.grid|, l), row);
  }

  // ---------------------------------------------------------------- window and table together

  lemma CentreSpan(o: real, p: real, lo: int, hi: int, c: real)
    requires p != 0.0 && (lo + 1) as real <= c <= (hi - 1) as real
    ensures Min(CellCentre(o, p, lo), CellCentre(o, p, hi - 1)) <= LatticeAt(o, p, c)
    ensures LatticeAt(o, p, c) <= Max(CellCentre(o, p, lo), CellCentre(o, p, hi - 1))
  {
    LatticeMono(o, p, 0.5 + lo as real, c);
    LatticeMono(o, p, c, 0.5 + (hi - 1) as real);
    LatticeMono(o, p, 0.5 + lo as real, 0.5 + (hi - 1) as real);
  }

  /** Centres of a window axis are the centres of the source pixels under it. */
  lemma ShiftedCentre(o: real, p: real, lo: int, i: int)
    ensures CellCentre(LatticeAt(o, p, lo as real), p, i) == CellCentre(o, p, lo + i)
  {
    assert p * lo as real + p * (0.5 + i as real) == p * (0.5 + (lo + i) as real);
  }

  /** The first and last prepared centres of a window axis are the extreme source centres under it. */
  lemma WindowCentreAxisEnds(o: real, p: real, s: AxisSpan)
    requires p != 0.0 && s.Size() >= 2
    ensures var xs := CentreAxis(LatticeAt(o, p, s.lo as real), p, s.Size());
      && xs[0] == Min(CellCentre(o, p, s.lo), CellCentre(o, p, s.hi - 1))
      && xs[s.Size() - 1] == Max(CellCentre(o, p, s.lo), CellCentre(o, p, s.hi - 1))
  {
    var n, wo := s.Size(), LatticeAt(o, p, s.lo as real);
    var xs := CentreAxis(wo, p, n);
    assert xs[0] == CellCentre(wo, p, AxisIndex(p > 0.0, n, 0));
    assert AxisIndex(p > 0.0, n, 0) == if p > 0.0 then 0 else n - 1;
    assert xs[n - 1] == CellCentre(wo, p, AxisIndex(p > 0.0, n, n - 1));
    assert AxisIndex(p > 0.0, n, n - 1) == if p > 0.0 then n - 1 else 0;
    ShiftedCentre(o, p, s.lo, 0);
    ShiftedCentre(o, p, s.lo, n - 1);
    assert s.lo + (n - 1) == s.hi - 1;
    CentreOrder(o, p, s.lo, s.hi - 1);
  }

  /** On one axis of a window, both box edges lie between the first and last prepared centres. */
  lemma {:induction false} AxisWithinCentres(o: real, p: real, a: real, b: real, s: AxisSpan, v: real)
    requires p != 0.0 && PadsAxis(o, p, a, b, s) && Min(a, b) <= v <= Max(a, b)
    ensures var xs := CentreAxis(LatticeAt(o, p, s.lo as real), p, s.Size());
      xs[0] <= v <= xs[s.Size() - 1]
  {
    WindowCentreAxisEnds(o, p, s);
    CentreSpan(o, p, s.lo, s.hi, IndexOf(o, p, a));
    CentreSpan(o, p, s.lo, s.hi, IndexOf(o, p, b));
  }

  /** The padding puts every point of the box inside the interpolation domain of the window,
      so a sample there is never refused for lying outside the grid. */
  lemma {:induction false} BBoxWithinWindowDomain(src: Raster, bbox: BoundingBox, x: real, y: real)
    requires WellFormed(src) && GetRasterWindow(src, bbox).Success?
    requires Min(bbox.xMin, bbox.xMax) <= x <= Max(bbox.xMin, bbox.xMax)
    requires Min(bbox.yMin, bbox.yMax) <= y <= Max(bbox.yMin, bbox.yMax)
    ensures InterpolationTableOf(GetRasterWindow(src, bbox).value).Success?
    ensures InDomain(InterpolationTableOf(GetRasterWindow(src, bbox).value).value, x, y)
  {
    var gt := src.gt;
    var w := RasterWindow(gt, bbox).value;
    AxisWithinCentres(gt.originX, gt.pixelWidth, bbox.xMin, bbox.xMax, w.cols, x);
    AxisWithinCentres(gt.originY, gt.pixelHeight, bbox.yMin, bbox.yMax, w.rows, y);
  }
}
