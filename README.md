# hydroadjust profile sampling, modelled in Dafny

This project models the sampling core of dhm-hydro-adjust. That is the code that reads DEM
heights (a digital elevation model) along user-drawn line objects so that they can later be
burnt into the DEM.

- **`Sampling`** (hydroadjust/sampling.py) has two parts.
  - `get_raster_window` turns a bounding box into a pixel-aligned window of the source raster.
    The window is padded by at least one and less than two pixels on every side. It is cut out by a nearest-neighbour
    `gdal.Translate`, where pixels outside the source get the fill value.
  - `get_raster_interpolator` builds the grid that SciPy's `RegularGridInterpolator` is
    constructed from. It holds cell-centre coordinate arrays, flipped into increasing order
    when the pixel size is negative, and the band with nodata replaced by NaN and transposed
    into (x, y) order.
- **`Features`** holds what the two sampling scripts share:
  - vertices, input geometries and the 2.5D output segments;
  - the four outcome counters;
  - the errors that abort a run;
  - the vertex bounding box;
  - "window, then interpolator" for one feature;
  - the feature loop, written as a left fold `RunFeatures` that stops at the first error.
- **`PrepareLines`** (hydroadjust/prepare_lines.py) is the loop over two-point lines. It
  samples both endpoints and writes the line with its Z values when both samples exist.
- **`PrepareHorseshoeLines`** (hydroadjust/prepare_horseshoe_lines.py) covers the default
  maximum sample distance and the loop over four-point horseshoes A, B, C, D.
  - The open end A-D and the closed end B-C are both sampled at
    `max(2, ceil(longest / maxDist) + 1)` evenly spaced points.
  - Sample i of one end is joined to sample i of the other.
  - A horseshoe is written only when every sample on both ends exists.
- **`SamplingScenario`** is the window-extraction scenario of tests/test_sampling.py, proved
  on its concrete data.
- **`Wrappers`** holds `Option` and `Result`.

How the model works, module by module:

- **Loops.** Each loop is a `method` whose loop invariant ties it to the fold. Its body is
  split into a sampling method and a rendering method, each proved equal to a function. The
  invariants, counter equations and per-feature outcome lemmas are stated about those
  functions. The loop-free sampling methods (`SampleLine`, `LineIteration`, `SampleProfiles`,
  `SampleHorseshoe`) repeat their functions step by step. They exist because the verifier runs
  out of resources on one combined loop body, and splitting the body into methods, each
  proved equal to its function, keeps each proof small.
- **The Python exceptions** are `Failure` values:
  - the rotation `ValueError` in `get_raster_window` and `get_raster_interpolator`;
  - the geometry-type `ValueError`;
  - the `int()` of an infinite or NaN index. This happens with a zero pixel size
    (`ZeroPixelSize`) or a zero sample distance (`ZeroSampleDistance`).
- **Counters and output.** The counters are a value threaded through the loop. The output
  layer is the sequence of lines written so far, in creation order.
- **The SciPy evaluation** is a parameter `interp: Sampler`, where `None` stands for NaN.
- **`np.hypot`** is a parameter `hypot`. Where a property needs the Euclidean length, it is
  required through `HypotAt` (at least each component, its square is the sum of squares), or
  the squared-length relation is required directly.

Notes on what the code does:

- **Fill value.** When the source has no nodata value, `gdal.Translate` fills the cells
  outside the source with 0. The interpolator then treats those cells as data.
- **Sample distance.** `--max-sample-dist` is never validated. Zero makes `int(np.ceil(...))`
  raise, which is modelled as `ZeroSampleDistance`. A negative value gives two samples on any
  horseshoe.
- **Geometries.** A geometry is an OGR type code plus its vertices.

All functions are pure, so running twice on the same input gives the same lines and counters.

## Model

| member | source | states |
|---|---|---|
| Sampling.Floor | hydroadjust/sampling.py:49-52 | `int(np.floor(r))`: the integer f with f <= r < f + 1 |
| Sampling.Ceil | hydroadjust/sampling.py:49-52 | `int(np.ceil(r))`: the integer c with r <= c < r + 1 |
| Sampling.RasterWindow | hydroadjust/sampling.py:29-65 | fails with RotatedGeoTransform exactly when a rotation term is non-zero, and with ZeroPixelSize exactly when an unrotated transform has a zero pixel size. Otherwise both axes are padded as PadsAxis says |
| Sampling.PadAxis | hydroadjust/sampling.py:44-65 | the lower index sits at least one and less than two pixels below the smaller fractional edge index, and the upper index correspondingly above the larger one. The span is at least two pixels. The extent's ends are source lattice points in increasing order, for either sign of the pixel size |
| Sampling.PaddedBoxContainsBBox | hydroadjust/sampling.py:39-65 | the padded georeferenced window contains the box with at least one full pixel (the absolute pixel size) of margin on every side |
| Sampling.FillValue | hydroadjust/sampling.py:71-86 | what `gdal.Translate` writes outside the source: its nodata value, or 0 when it has none |
| Sampling.WindowGeoTransform | hydroadjust/sampling.py:54-86 | the window keeps the source pixel sizes and zero rotation, and its origin is the lattice point of its first column and row |
| Sampling.Crop | hydroadjust/sampling.py:67-88 | the window has (row span) x (column span) cells. Each window cell equals the source cell under it, or the fill value where that cell is outside the source. The origin moves to the window's first lattice point, the pixel sizes are kept, rotation is zero, and nodata is kept |
| Sampling.GetRasterWindow | hydroadjust/sampling.py:17-88 | fails with RotatedGeoTransform iff the source is rotated. A window is well formed, at least 2 x 2, unrotated, and has the source's pixel size and nodata value |
| Sampling.CropKeepsCellCentres | hydroadjust/sampling.py:54-76 | window pixel (r, c) has the georeferenced centre of source pixel (rows.lo + r, cols.lo + c), so the window lies on the source pixel lattice |
| Sampling.MissingIfNodata | hydroadjust/sampling.py:130-131 | a cell becomes missing exactly when it equals the nodata value, and keeps its value otherwise |
| Sampling.InDomain | hydroadjust/sampling.py:135-141 | the rectangle between the first and last centres of both axes, outside which the interpolator (`bounds_error=False, fill_value=nan`) gives NaN |
| Sampling.CentreAxis | hydroadjust/sampling.py:113-128 | the prepared axis of n pixels has one centre per pixel. Its order is proved in CentreAxisIncreasing, and its construction by the arange-and-flip loop in CentreValues |
| Sampling.InterpolationTableOf | hydroadjust/sampling.py:101-141 | fails iff the raster is rotated. A table has one x per column, one y per row, and `values` of shape columns x rows |
| Sampling.Flip | hydroadjust/sampling.py:118-128 | `np.flip`: same length, element i is element n-1-i of the input |
| Sampling.CentreValues | hydroadjust/sampling.py:113-128 | the loop that builds `offset + size*(0.5 + arange(n))` and flips it for a non-positive size yields exactly the prepared centre axis |
| Sampling.MaskNodata | hydroadjust/sampling.py:130-131 | the in-place masking loop keeps the grid's shape, and every cell becomes missing iff it equals nodata |
| Sampling.OrientAndTranspose | hydroadjust/sampling.py:133-137 | the result has one column per x, and entry [k][l] is the grid cell at row l and column k, each walked backwards when its step is -1 |
| Sampling.BuildInterpolationTable | hydroadjust/sampling.py:101-137 | the method equals the reference table InterpolationTableOf, errors included |
| Sampling.CentreAxisIncreasing | hydroadjust/sampling.py:116-128 | with a non-zero pixel size, a prepared axis is strictly increasing, as RegularGridInterpolator demands |
| Sampling.TableAxesIncreasing | hydroadjust/sampling.py:116-128 | both table axes of a raster with non-zero pixel sizes are strictly increasing |
| Sampling.TableHoldsEveryCell | hydroadjust/sampling.py:110-137 | every source cell appears in the table at its own cell centre, missing exactly when it is nodata |
| Sampling.TableValueAtCentre | hydroadjust/sampling.py:110-137 | the table value at (xs[k], ys[l]) is that of the unique source cell whose centre is that point |
| Sampling.BBoxWithinWindowDomain | hydroadjust/sampling.py:39-57 | every point of the box lies between the first and last cell centres of its window on both axes, so it is inside the interpolator's domain |
| SamplingScenario.ScenarioWindowBounds | tests/test_sampling.py:13-36 | for the test raster and box, the window spans columns 1 to 6 and rows 1 to 5 (upper bounds exclusive, so columns 1..5 by rows 1..4) with the expected padded extent |
| SamplingScenario.ScenarioWindow | tests/test_sampling.py:13-68 | the window of the test box is exactly the expected 4 x 5 grid: the source's nodata cell and the out-of-raster column read as nodata, geotransform (600000.1, 0.1, 0, 6199999.9, 0, -0.1), nodata kept |
| Features.IsAcceptableGeometryType | hydroadjust/prepare_lines.py:12-17 | the four accepted LineString type codes: plain, 25D, M and ZM |
| Features.PointsBBox | hydroadjust/prepare_lines.py:62-67 | the min/max box of the vertices contains every vertex, and each of its four bounds is attained by some vertex |
| Features.FeatureTable | hydroadjust/prepare_lines.py:69-72 | window, then interpolator: fails with a rotation error exactly when the raster is rotated |
| Features.AllPresent | hydroadjust/prepare_lines.py:77-78 | `np.all(np.isfinite(zs))`: every sample exists |
| Features.CountUnexpected | hydroadjust/prepare_lines.py:93-96 | the point-count-mismatch counter goes up by one |
| Features.CountValid | hydroadjust/prepare_lines.py:88-92 | the expected and valid counters go up by one |
| Features.CountInvalid | hydroadjust/prepare_lines.py:89-92 | the expected and invalid counters go up by one |
| Features.SampleAt | hydroadjust/prepare_lines.py:74-75 | one vectorised interpolator call gives one sample per point |
| Features.RunFeatures | hydroadjust/prepare_lines.py:50-96 | the feature loop: an empty layer gives the initial run, and each further feature applies one iteration unless the run has already raised (its properties are RunFeaturesExtend, FailurePersists and FatalFeature) |
| Features.RunFeaturesExtend | hydroadjust/prepare_lines.py:50-56 | one more feature extends the loop over a prefix by one iteration, unless it has already failed |
| Features.FailurePersists | hydroadjust/prepare_lines.py:50-56 | once an iteration raises, the run ends with that error |
| Features.FatalFeature | hydroadjust/prepare_lines.py:50-56 | a feature on which every iteration raises makes the run fail, whatever precedes it |
| PrepareLines.LineSamplesOf | hydroadjust/prepare_lines.py:55-75 | a sampled two-point line has two vertices and two samples |
| PrepareLines.SampleLine | hydroadjust/prepare_lines.py:55-75 | the first half of the loop body (type check, point count, box, window, interpolator, endpoint Z) equals LineSamplesOf |
| PrepareLines.LineStep | hydroadjust/prepare_lines.py:55-96 | an iteration that does not raise counts the feature exactly once, as a mismatch or as expected, keeps every line already written and adds at most one |
| PrepareLines.LineIteration | hydroadjust/prepare_lines.py:55-96 | one whole iteration, counters and output included, equals LineStep |
| PrepareLines.LinesRun | hydroadjust/prepare_lines.py:50-96 | the loop over the layer as the fold of LineStep, stopping at the first raise |
| PrepareLines.PrepareLines | hydroadjust/prepare_lines.py:50-96 | the loop computes exactly the fold LinesRun over the layer. A finished run satisfies the counter equations: expected + unexpected = features, expected = valid + invalid, one output line per valid feature |
| PrepareLines.LinesRunCountsAdd | hydroadjust/prepare_lines.py:44-96 | every run that finishes, over any layer, satisfies the counter equations |
| PrepareLines.UnexpectedTypeIsFatal | hydroadjust/prepare_lines.py:55-56 | a non-LineString geometry anywhere in the layer makes the run fail: with UnexpectedGeometryType, unless an earlier feature already failed |
| PrepareLines.PointCountMismatchOnlyCounts | hydroadjust/prepare_lines.py:93-96 | a LineString with other than two points writes nothing and only increments the point-count-mismatch counter |
| PrepareLines.LineOutcome | hydroadjust/prepare_lines.py:74-92 | the counters become exactly CountValid of the old ones when both endpoint samples exist, and CountInvalid otherwise: expected and exactly one of valid and invalid go up by one. When valid, exactly its line with those Z values is appended. Otherwise nothing is written |
| PrepareLines.EndpointsInDomain | hydroadjust/prepare_lines.py:62-75 | both endpoints lie in the interpolation domain of their window, so a missing Z comes from nodata and never from leaving the grid |
| PrepareHorseshoeLines.MaxProfileSampleDist | hydroadjust/prepare_horseshoe_lines.py:33-41 | the requested distance when one is given, otherwise half the hypot of the two pixel sizes (its properties are DefaultSampleDistance) |
| PrepareHorseshoeLines.DefaultSampleDistance | hydroadjust/prepare_horseshoe_lines.py:33-41 | the default distance d is half the pixel diagonal: 4d^2 = width^2 + height^2, 2d is at least either pixel size, and d > 0 unless both sizes are zero |
| PrepareHorseshoeLines.NumProfileSamples | hydroadjust/prepare_horseshoe_lines.py:96-98 | at least two samples. For a positive distance it is the fewest that keep the longer profile within (n-1)*maxDist: (n-1)*maxDist covers it and (n-2)*maxDist does not when n > 2. For a negative distance and a non-negative length it is exactly two |
| PrepareHorseshoeLines.SampleCountBounds | hydroadjust/prepare_horseshoe_lines.py:96-98 | the same three bounds for `max(2, ceil(longest/maxDist) + 1)` |
| PrepareHorseshoeLines.Abscissa | hydroadjust/prepare_horseshoe_lines.py:100-106 | the k-th of n linspace abscissae: (n-1) times it is exactly k |
| PrepareHorseshoeLines.Lerp | hydroadjust/prepare_horseshoe_lines.py:108-110 | the point at abscissa t between two vertices: the first vertex at t = 0 and the second at t = 1 |
| PrepareHorseshoeLines.AbscissaSpacing | hydroadjust/prepare_horseshoe_lines.py:100-106 | `linspace(0, 1, n)` starts at exactly 0, ends at exactly 1, stays within [0, 1], and steps by 1/(n-1) |
| PrepareHorseshoeLines.Profile | hydroadjust/prepare_horseshoe_lines.py:108-110 | a profile has n points |
| PrepareHorseshoeLines.ProfileEnds | hydroadjust/prepare_horseshoe_lines.py:100-110 | a profile starts at its first vertex, ends at its second, and consecutive points differ by (b-a)/(n-1) |
| PrepareHorseshoeLines.LerpBetween | hydroadjust/prepare_horseshoe_lines.py:108-110 | a point with abscissa in [0, 1] lies between the two vertices on each axis |
| PrepareHorseshoeLines.StepWithinMaxDist | hydroadjust/prepare_horseshoe_lines.py:96-110 | if a profile's length is within (n-1)*maxDist, its squared step is at most maxDist^2 |
| PrepareHorseshoeLines.ProfileSpacing | hydroadjust/prepare_horseshoe_lines.py:96-110 | consecutive samples of a profile are one step apart, and that step is no longer than maxDist whenever the profile's length is within (n-1)*maxDist, as NumProfileSamples guarantees |
| PrepareHorseshoeLines.OpenLength | hydroadjust/prepare_horseshoe_lines.py:85-89 | the length of the open end A-D, as hypot of its X and Y differences |
| PrepareHorseshoeLines.ClosedLength | hydroadjust/prepare_horseshoe_lines.py:90-94 | the length of the closed end B-C, as hypot of its X and Y differences |
| PrepareHorseshoeLines.ProfilesOf | hydroadjust/prepare_horseshoe_lines.py:85-114 | fails exactly when the sample distance is zero, and then with ZeroSampleDistance. Otherwise both profiles and their samples have the same length, at least two |
| PrepareHorseshoeLines.HorseshoeSamplesOf | hydroadjust/prepare_horseshoe_lines.py:62-114 | any sampled horseshoe has paired profiles of equal length, at least two |
| PrepareHorseshoeLines.ProfileLines | hydroadjust/prepare_horseshoe_lines.py:119-126 | one rendered line per sample pair |
| PrepareHorseshoeLines.RenderStep | hydroadjust/prepare_horseshoe_lines.py:116-136 | the horseshoe is counted exactly once and the lines already written stay in place. Lines are added iff the valid counter goes up, and then one per sample pair |
| PrepareHorseshoeLines.HorseshoeStep | hydroadjust/prepare_horseshoe_lines.py:62-136 | an iteration that does not raise counts the feature exactly once and keeps every line already written |
| PrepareHorseshoeLines.SampleProfiles | hydroadjust/prepare_horseshoe_lines.py:85-114 | lengths, sample count, profiles and samples equal ProfilesOf, including the zero-distance failure |
| PrepareHorseshoeLines.SampleHorseshoe | hydroadjust/prepare_horseshoe_lines.py:62-114 | the first part of the loop body equals HorseshoeSamplesOf |
| PrepareHorseshoeLines.Render | hydroadjust/prepare_horseshoe_lines.py:116-136 | the line-writing loop and counter updates equal RenderStep |
| PrepareHorseshoeLines.HorseshoeRun | hydroadjust/prepare_horseshoe_lines.py:61-136 | the loop over the layer as the fold of HorseshoeStep, stopping at the first raise |
| PrepareHorseshoeLines.PrepareHorseshoeLines | hydroadjust/prepare_horseshoe_lines.py:33-136 | with the requested or default sample distance, the loop computes exactly the fold HorseshoeRun. A finished run satisfies expected + unexpected = features and expected = valid + invalid, and has at least two lines per valid horseshoe |
| PrepareHorseshoeLines.HorseshoeRunCountsAdd | hydroadjust/prepare_horseshoe_lines.py:55-136 | every run that finishes, over any layer, satisfies those counter equations |
| PrepareHorseshoeLines.UnexpectedTypeIsFatal | hydroadjust/prepare_horseshoe_lines.py:64-67 | a non-LineString geometry anywhere in the layer makes the run fail: with UnexpectedGeometryType, unless an earlier feature already failed |
| PrepareHorseshoeLines.ZeroDistanceIsFatal | hydroadjust/prepare_horseshoe_lines.py:96-98 | with a zero sample distance, any four-point geometry in the layer makes the run fail |
| PrepareHorseshoeLines.PointCountMismatchOnlyCounts | hydroadjust/prepare_horseshoe_lines.py:133-136 | a LineString with other than four points writes nothing and only increments the point-count-mismatch counter |
| PrepareHorseshoeLines.HorseshoeOutcome | hydroadjust/prepare_horseshoe_lines.py:112-132 | the counters become exactly CountValid of the old ones when every sample on both profiles exists, and CountInvalid otherwise, so expected and exactly one of valid and invalid go up by one. When valid, and then n lines are appended in order, line i from open sample i to closed sample i with their Z. Otherwise nothing is written |
| PrepareHorseshoeLines.RenderedEnds | hydroadjust/prepare_horseshoe_lines.py:100-110 | the first open and closed samples are A and B, and the last are D and C |
| PrepareHorseshoeLines.ProfileInDomain | hydroadjust/prepare_horseshoe_lines.py:71-114 | every sample of a profile between two horseshoe vertices lies in the window's interpolation domain, so a missing sample comes from nodata only |

## Left out

- GDAL/OGR I/O is left out: opening datasets, reading bands and layers, creating the SQLite
  output, the `/vsimem` temporary file, spatial references and `UseExceptions`. Rasters,
  layers and output layers are values.
- The command-line parsing and the summary logging after each loop are left out. They
  compute nothing the counters do not already hold.
- The bilinear evaluation inside `RegularGridInterpolator` is a parameter. It is SciPy's, not
  this code's. The model proves what is handed to it: strictly increasing axes, values in
  (x, y) order, and query points inside the domain.
- SciPy's own validation of the constructor arguments is left out. An empty window cannot
  occur, because a window always has at least 2 x 2 pixels.
- `np.hypot` is a parameter. Its Euclidean properties are required through `HypotAt`, or the
  squared-length premise of ProfileSpacing, where a lemma needs them.
- Floating point is left out. All arithmetic is exact on reals, so rounding, infinities and
  NaN are not modelled. Division by zero is modelled at the two places where it makes `int()`
  raise: `ZeroPixelSize` and `ZeroSampleDistance`. NaN samples are `None`.
- NaN in the source band is left out. NaN never equals nodata, so it would reach the
  interpolator unmasked, and a `None` Z only stands for a masked cell or an outside point.
- A feature without a geometry is not a case of its own. On it `GetGeometryRef()` gives
  None and the type check raises AttributeError, aborting the run. Giving such a feature any
  type code outside the four accepted ones produces the same outcome, a fatal error.
- Integer-typed bands are left out: `grid` holds reals, as for a floating-point band. On an
  integer band, assigning NaN to the nodata cells raises ValueError, which the model does not
  have.
- The Z and M of input vertices are left out, as they are dropped by the scripts.
- Partial output on a fatal error is left out: the model returns the error, not the lines
  written before it.
- The files that burn lines into the DEM (burn_hydro_adjustments.py and
  hydroadjust/burn_adjustments.py) and hydroadjust/cli/burn_line_z.py are not part of this
  model.
- PrepareHorseshoeLines.ProfileSpacing states the maxDist bound for one profile at a time. It
  is not restated over the two profiles of ProfilesOf. NumProfileSamples supplies its length
  premise for the longer profile, and the shorter profile's length is at most the longer's.
