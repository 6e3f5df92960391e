/** The vector side shared by the two profile-sampling scripts (hydroadjust/prepare_lines.py
    and hydroadjust/prepare_horseshoe_lines.py): input geometries, output 2.5D lines, the
    outcome counters, the fatal errors, and the feature loop as a left fold that stops at
    the first error. */
module Features {
  import opened Wrappers
  import opened Sampling

  /** The X and Y of an input vertex; the scripts ignore any Z or M. */
  datatype Point2 = Point2(x: real, y: real)

  datatype Point3 = Point3(x: real, y: real, z: real)

  /** A two-vertex `wkbLineString25D` output line. */
  datatype Segment3 = Segment3(start: Point3, end: Point3)

  /** An input feature: the OGR type code of its geometry and its vertices. */
  datatype Geometry = Geometry(geometryType: int, points: seq<Point2>)

  // OGR geometry type codes, as the Python bindings expose them
  const wkbLineString: int := 2
  const wkbLineString25D: int := -2147483646
  const wkbLineStringM: int := 2002
  const wkbLineStringZM: int := 3002

  /** `ACCEPTABLE_GEOMETRY_TYPES`: the four LineString flavours. */
  predicate IsAcceptableGeometryType(t: int) {
    t == wkbLineString || t == wkbLineString25D || t == wkbLineStringM || t == wkbLineStringZM
  }

  /** The four running counters of a sampling run. */
  datatype Counters = Counters(expectedPointCount: nat, unexpectedPointCount: nat, validCount: nat, invalidCount: nat)

  /** What a run has produced so far: the output layer's lines, in creation order, and the counters. */
  datatype Run = Run(lines: seq<Segment3>, counters: Counters)

  /** The exceptions that abort a whole run. */
  datatype RunError = SamplingFailed(cause: Sampling.Error) | UnexpectedGeometryType | ZeroSampleDistance

  /** Nothing written, all counters zero. */
  function InitialRun(): Run {
    Run([], Counters(0, 0, 0, 0))
  }

  function CountUnexpected(c: Counters): Counters {
    c.(unexpectedPointCount := c.unexpectedPointCount + 1)
  }

  function CountValid(c: Counters): Counters {
    c.(expectedPointCount := c.expectedPointCount + 1, validCount := c.validCount + 1)
  }

  function CountInvalid(c: Counters): Counters {
    c.(expectedPointCount := c.expectedPointCount + 1, invalidCount := c.invalidCount + 1)
  }

  /** The componentwise min/max box of the vertices (`np.min`/`np.max` over each column):
      it contains every vertex and each of its bounds is attained by one. */
  function PointsBBox(ps: seq<Point2>): (b: BoundingBox)
    requires |ps| > 0
    ensures forall i :: 0 <= i < |ps| ==> b.xMin <= ps[i].x <= b.xMax && b.yMin <= ps[i].y <= b.yMax
    ensures exists i :: 0 <= i < |ps| && ps[i].x == b.xMin
    ensures exists i :: 0 <= i < |ps| && ps[i].x == b.xMax
    ensures exists i :: 0 <= i < |ps| && ps[i].y == b.yMin
    ensures exists i :: 0 <= i < |ps| && ps[i].y == b.yMax
    decreases |ps|
  {
    if |ps| == 1 then BoundingBox(ps[0].x, ps[0].x, ps[0].y, ps[0].y)
    else
      var rest := PointsBBox(ps[1..]);
      assert forall i :: 1 <= i < |ps| ==> ps[i] == ps[1..][i - 1];
      BoundingBox(Min(ps[0].x, rest.xMin), Max(ps[0].x, rest.xMax),
                  Min(ps[0].y, rest.yMin), Max(ps[0].y, rest.yMax))
  }

  /** The interpolation table of the window around `bbox`: `get_raster_window` followed by
      `get_raster_interpolator`, with their ValueErrors as run errors. */
  function FeatureTable(raster: Raster, bbox: BoundingBox): (r: Result<InterpolationTable, RunError>)
    requires WellFormed(raster)
    ensures IsRotated(raster.gt) <==> r == Failure(SamplingFailed(RotatedGeoTransform))
  {
    match GetRasterWindow(raster, bbox)
    case Failure(e) => Failure(SamplingFailed(e))
    case Success(window) =>
      match InterpolationTableOf(window)
      case Failure(e) => Failure(SamplingFailed(e))
      case Success(table) => Success(table)
  }

  /** The interpolator evaluated at each point (one vectorised SciPy call). */
  function SampleAt(interp: Sampler, table: InterpolationTable, pts: seq<Point2>): (zs: seq<Option<real>>)
    ensures |zs| == |pts|
  {
    seq(|pts|, i requires 0 <= i < |pts| => interp(table, pts[i].x, pts[i].y))
  }

  /** `np.all(np.isfinite(zs))`. */
  predicate AllPresent(zs: seq<Option<real>>) {
    forall i :: 0 <= i < |zs| ==> zs[i].Some?
  }

  /** One iteration of a script's feature loop. */
  type Step = (Run, Geometry) -> Result<Run, RunError>

  /** The feature loop: every feature in layer order, stopping at the first raised error. */
  function RunFeatures(step: Step, features: seq<Geometry>): Result<Run, RunError>
    decreases |features|
  {
    if |features| == 0 then Success(InitialRun())
    else
      match RunFeatures(step, features[..|features| - 1])
      case Failure(e) => Failure(e)
      case Success(run) => step(run, features[|features| - 1])
  }

  /** One more iteration extends the loop over a prefix. */
  lemma RunFeaturesExtend(step: Step, features: seq<Geometry>, i: nat)
    requires i < |features|
    ensures RunFeatures(step, features[..i + 1]) ==
      match RunFeatures(step, features[..i])
      case Failure(e) => Failure(e)
      case Success(run) => step(run, features[i])
  {
    assert features[..i + 1][..i] == features[..i];
  }

  /** Once an iteration raises, the run ends with that error. */
  lemma {:induction false} FailurePersists(step: Step, features: seq<Geometry>, i: nat)
    requires i <= |features| && RunFeatures(step, features[..i]).Failure?
    ensures RunFeatures(step, features) == RunFeatures(step, features[..i])
    decreases |features| - i
  {
    if i == |features| {
      assert features[..i] == features;
    } else {
      RunFeaturesExtend(step, features, i);
      FailurePersists(step, features, i + 1);
    }
  }

  /** A feature on which an iteration raises whatever came before makes the whole run fail. */
  lemma {:induction false} FatalFeature(step: Step, features: seq<Geometry>, i: nat)
    requires i < |features| && forall run: Run :: step(run, features[i]).Failure?
    ensures RunFeatures(step, features).Failure?
  {
    RunFeaturesExtend(step, features, i);
    FailurePersists(step, features, i + 1);
  }
}
