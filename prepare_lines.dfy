/** The feature loop of hydroadjust/prepare_lines.py: sample the DEM at both endpoints of
    every two-point line and emit it as a 2.5D line when both samples exist. */
module PrepareLines {
  import opened Wrappers
  import opened Sampling
  import opened Features

  /** What the loop body learns about one feature before deciding what to emit. */
  datatype LineSamples = WrongPointCount | Sampled(xy: seq<Point2>, z: seq<Option<real>>)

  /** Type check, point-count check, and for a two-point line its endpoints and their
      sampled Z, from the window around its endpoint box. */
  function LineSamplesOf(raster: Raster, interp: Sampler, g: Geometry): (r: Result<LineSamples, RunError>)
    requires WellFormed(raster)
    ensures r.Success? && r.value.Sampled? ==> |r.value.xy| == 2 && |r.value.z| == 2
  {
    if !IsAcceptableGeometryType(g.geometryType) then Failure(UnexpectedGeometryType)
    else if |g.points| != 2 then Success(WrongPointCount)
    else
      match FeatureTable(raster, PointsBBox(g.points))
      case Failure(e) => Failure(e)
      case Success(table) => Success(Sampled(g.points, SampleAt(interp, table, g.points)))
  }

  /** One iteration of the loop: count the feature and emit its line when both Z exist. An
      iteration that does not raise counts the feature exactly once, as a point-count mismatch
      or as expected, and leaves every line already written in place, adding at most one. */
  function LineStep(raster: Raster, interp: Sampler, run: Run, g: Geometry): (r: Result<Run, RunError>)
    requires WellFormed(raster)
    ensures r.Success? ==>
      && r.value.counters.expectedPointCount + r.value.counters.unexpectedPointCount
           == run.counters.expectedPointCount + run.counters.unexpectedPointCount + 1
      && |run.lines| <= |r.value.lines| <= |run.lines| + 1
      && r.value.lines[..|run.lines|] == run.lines
  {
    match LineSamplesOf(raster, interp, g)
    case Failure(e) => Failure(e)
    case Success(WrongPointCount) => Success(run.(counters := CountUnexpected(run.counters)))
    case Success(Sampled(xy, z)) =>
      if AllPresent(z) then
        var line := Segment3(Point3(xy[0].x, xy[0].y, z[0].value), Point3(xy[1].x, xy[1].y, z[1].value));
        Success(Run(run.lines + [line], CountValid(run.counters)))
      else
        Success(Run(run.lines, CountInvalid(run.counters)))
  }

  function LineStepper(raster: Raster, interp: Sampler): Step
    requires WellFormed(raster)
  {
    (run, g) => LineStep(raster, interp, run, g)
  }

  /** The whole loop over the input layer. */
  function LinesRun(raster: Raster, interp: Sampler, features: seq<Geometry>): Result<Run, RunError>
    requires WellFormed(raster)
  {
    RunFeatures(LineStepper(raster, interp), features)
  }

  /** The counters of a finished run: every feature is counted once, as a point-count
      mismatch or as expected, every expected one as valid or invalid, and every valid
      one has exactly one output line. */
  predicate LineCountsAdd(run: Run, numFeatures: nat) {
    var c := run.counters;
    && c.expectedPointCount + c.unexpectedPointCount == numFeatures
    && c.expectedPointCount == c.validCount + c.invalidCount
    && |run.lines| == c.validCount
  }

  /** The first half of the loop body: fatal type check, soft point-count check, endpoint
      box, window, interpolator, and the Z of both endpoints. */
  method SampleLine(raster: Raster, interp: Sampler, g: Geometry) returns (res: Result<LineSamples, RunError>)
    requires WellFormed(raster)
    ensures res == LineSamplesOf(raster, interp, g)
  {
    if !IsAcceptableGeometryType(g.geometryType) {
      return Failure(UnexpectedGeometryType);
    }
    if |g.points| != 2 {
      return Success(WrongPointCount);
    }
    var xy := g.points;
    var bbox := PointsBBox(xy);
    var window := GetRasterWindow(raster, bbox);
    if window.Failure? {
      return Failure(SamplingFailed(window.error));
    }
    // a window is never rotated, so building its interpolator cannot raise
    var table := BuildInterpolationTable(window.value);
    assert table.Success?;
    var z := [interp(table.value, xy[0].x, xy[0].y), interp(table.value, xy[1].x, xy[1].y)];
    assert z == SampleAt(interp, table.value, xy);
    return Success(Sampled(xy, z));
  }

  /** The second half of the loop body: count the feature, and write its 2.5D line when
      both samples are finite. */
  method LineIteration(raster: Raster, interp: Sampler, run: Run, g: Geometry) returns (res: Result<Run, RunError>)
    requires WellFormed(raster)
    ensures res == LineStep(raster, interp, run, g)
  {
    var samples := SampleLine(raster, interp, g);
    if samples.Failure? {
      return Failure(samples.error);
    }
    var lines, counters := run.lines, run.counters;
    match samples.value {
      case WrongPointCount =>
        counters := CountUnexpected(counters);
      case Sampled(xy, z) =>
        if z[0].Some? && z[1].Some? {
          assert AllPresent(z);
          lines := lines + [Segment3(Point3(xy[0].x, xy[0].y, z[0].value), Point3(xy[1].x, xy[1].y, z[1].value))];
          counters := CountValid(counters);
        } else {
          counters := CountInvalid(counters);
        }
    }
    return Success(Run(lines, counters));
  }

  /** The loop of prepare_lines.py over a layer of features. */
  method PrepareLines(raster: Raster, interp: Sampler, features: seq<Geometry>) returns (res: Result<Run, RunError>)
    requires WellFormed(raster)
    ensures res == LinesRun(raster, interp, features)
    ensures res.Success? ==> LineCountsAdd(res.value, |features|)
  {
    ghost var step := LineStepper(raster, interp);
    var run := InitialRun();
    for f := 0 to |features|
      invariant RunFeatures(step, features[..f]) == Success(run)
    {
      RunFeaturesExtend(step, features, f);
      var next := LineIteration(raster, interp, run, features[f]);
      if next.Failure? {
        FailurePersists(step, features, f + 1);
        return next;
      }
      run := next.value;
    }
    assert features[..|features|] == features;
    LinesRunCountsAdd(raster, interp, features);
    return Success(run);
  }

  /** Every run that finishes satisfies the counter equations, for any layer. */
  lemma {:induction false} LinesRunCountsAdd(raster: Raster, interp: Sampler, features: seq<Geometry>)
    requires WellFormed(raster) && LinesRun(raster, interp, features).Success?
    ensures LineCountsAdd(LinesRun(raster, interp, features).value, |features|)
    decreases |features|
  {
    if |features| > 0 {
      var n := |features| - 1;
      var step := LineStepper(raster, interp);
      RunFeaturesExtend(step, features, n);
      assert features[..n + 1] == features;
      LinesRunCountsAdd(raster, interp, features[..n]);
    }
  }

  /** A geometry of any type other than a LineString aborts the run, wherever it is. */
  lemma {:induction false} UnexpectedTypeIsFatal(raster: Raster, interp: Sampler, features: seq<Geometry>, i: nat)
    requires WellFormed(raster) && i < |features| && !IsAcceptableGeometryType(features[i].geometryType)
    ensures LinesRun(raster, interp, features) == Failure(UnexpectedGeometryType) ||
            LinesRun(raster, interp, features[..i]).Failure?
    ensures LinesRun(raster, interp, features).Failure?
  {
    var step := LineStepper(raster, interp);
    RunFeaturesExtend(step, features, i);
    FailurePersists(step, features, i + 1);
  }

  /** A LineString with other than two points changes nothing but its counter. */
  lemma PointCountMismatchOnlyCounts(raster: Raster, interp: Sampler, run: Run, g: Geometry)
    requires WellFormed(raster) && IsAcceptableGeometryType(g.geometryType) && |g.points| != 2
    ensures var r := LineStep(raster, interp, run, g);
      && r.Success? && r.value.lines == run.lines
      && r.value.counters == run.counters.(unexpectedPointCount := run.counters.unexpectedPointCount + 1)
  {
  }

  /** A two-point line is counted as expected and as exactly one of valid and invalid; it is
      emitted, with its sampled Z values and in input order, iff both samples exist. */
  lemma LineOutcome(raster: Raster, interp: Sampler, run: Run, g: Geometry)
    requires WellFormed(raster) && IsAcceptableGeometryType(g.geometryType) && |g.points| == 2
    requires LineStep(raster, interp, run, g).Success?
    ensures var r := LineStep(raster, interp, run, g).value;
      var p := g.points;
      var table := FeatureTable(raster, PointsBBox(p)).value;
      var z0, z1 := interp(table, p[0].x, p[0].y), interp(table, p[1].x, p[1].y);
      && r.counters == (if z0.Some? && z1.Some? then CountValid(run.counters) else CountInvalid(run.counters))
      && (z0.Some? && z1.Some? ==>
            r.lines == run.lines + [Segment3(Point3(p[0].x, p[0].y, z0.value), Point3(p[1].x, p[1].y, z1.value))])
      && (z0.None? || z1.None? ==> r.lines == run.lines)
  {
    var p := g.points;
    var table := FeatureTable(raster, PointsBBox(p)).value;
    var z := SampleAt(interp, table, p);
    assert z[0] == interp(table, p[0].x, p[0].y) && z[1] == interp(table, p[1].x, p[1].y);
    assert AllPresent(z) <==> z[0].Some? && z[1].Some?;
  }

  /** Both endpoints of a line lie inside the interpolation domain of its window, so a missing
      sample comes from nodata in the raster and never from leaving the window. */
  lemma {:induction false} EndpointsInDomain(raster: Raster, p: seq<Point2>)
    requires WellFormed(raster) && |p| == 2 && FeatureTable(raster, PointsBBox(p)).Success?
    ensures InDomain(FeatureTable(raster, PointsBBox(p)).value, p[0].x, p[0].y)
    ensures InDomain(FeatureTable(raster, PointsBBox(p)).value, p[1].x, p[1].y)
  {
    var b := PointsBBox(p);
    BBoxWithinWindowDomain(raster, b, p[0].x, p[0].y);
    BBoxWithinWindowDomain(raster, b, p[1].x, p[1].y);
  }
}
