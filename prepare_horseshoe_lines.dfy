/** The feature loop of hydroadjust/prepare_horseshoe_lines.py. A horseshoe is a four-vertex
    line A, B, C, D; A-D is its open end and B-C its closed end. Both ends are sampled at the
    same number of evenly spaced points, and sample i of the open end is joined to sample i
    of the closed end by a 2.5D line, provided that every sample on both ends exists. */
module PrepareHorseshoeLines {
  import opened Wrappers
  import opened Sampling
  import opened Features

  /** `np.hypot`, left abstract: the Euclidean length of a vector is not a rational function. */
  type Hypot = (real, real) -> real

  // ---------------------------------------------------------------- sample distance

  /** `max_profile_sample_dist`: the requested `--max-sample-dist`, or else half the length
      of the diagonal of one pixel. */
  function MaxProfileSampleDist(requested: Option<real>, gt: GeoTransform, hypot: Hypot): real {
    match requested
    case Some(d) => d
    case None => 0.5 * hypot(gt.pixelWidth, gt.pixelHeight)
  }

  /** What `np.hypot` promises of `l = hypot(dx, dy)`: it is at least as long as either
      component, and `l^2 = dx^2 + dy^2`. */
  predicate HypotAt(hypot: Hypot, dx: real, dy: real) {
    var l := hypot(dx, dy);
    l >= Abs(dx) && l >= Abs(dy) && l * l == dx * dx + dy * dy
  }

  /** The default distance is half a pixel diagonal: its square is a quarter of the squared
      diagonal, it is at least half of either pixel size, and so it is positive for any raster
      with a non-zero pixel size. */
  lemma DefaultSampleDistance(gt: GeoTransform, hypot: Hypot)
    requires HypotAt(hypot, gt.pixelWidth, gt.pixelHeight)
    ensures var d := MaxProfileSampleDist(None, gt, hypot);
      && 4.0 * d * d == gt.pixelWidth * gt.pixelWidth + gt.pixelHeight * gt.pixelHeight
      && 2.0 * d >= Abs(gt.pixelWidth) && 2.0 * d >= Abs(gt.pixelHeight)
      && (gt.pixelWidth != 0.0 || gt.pixelHeight != 0.0 ==> d > 0.0)
  {
    var h := hypot(gt.pixelWidth, gt.pixelHeight);
    assert 4.0 * (0.5 * h) * (0.5 * h) == h * h;
  }

  /** `num_profile_samples`: the fewest samples, and never fewer than two, that keep the spacing
      on the longer profile within `maxDist`. Dividing by a zero `maxDist` gives `inf` or `nan`,
      on which `int()` raises, so the caller excludes it. */
  function NumProfileSamples(openLength: real, closedLength: real, maxDist: real): (n: int)
    requires maxDist != 0.0
    ensures n >= 2
    ensures maxDist > 0.0 ==> Max(openLength, closedLength) <= (n - 1) as real * maxDist
    ensures maxDist > 0.0 && n > 2 ==> (n - 2) as real * maxDist < Max(openLength, closedLength)
    ensures maxDist < 0.0 && Max(openLength, closedLength) >= 0.0 ==> n == 2
  {
    var longest := Max(openLength, closedLength);
    var c := Ceil(longest / maxDist);
    var n := if c + 1 < 2 then 2 else c + 1;
    SampleCountBounds(longest, maxDist, c, n);
    n
  }

  lemma SampleCountBounds(longest: real, maxDist: real, c: int, n: int)
    requires maxDist != 0.0 && c == Ceil(longest / maxDist) && n == (if c + 1 < 2 then 2 else c + 1)
    ensures maxDist > 0.0 ==> longest <= (n - 1) as real * maxDist
    ensures maxDist > 0.0 && n > 2 ==> (n - 2) as real * maxDist < longest
    ensures maxDist < 0.0 && longest >= 0.0 ==> n == 2
  {
    var q := Quotient(longest, maxDist);
    assert q <= c as real < q + 1.0;
    if maxDist > 0.0 {
      assert q <= (n - 1) as real;
      MulMono(q, (n - 1) as real, maxDist);
      assert longest <= (n - 1) as real * maxDist;
      if n > 2 {
        BelowQuotient((n - 2) as real, q, maxDist, longest);
      }
    } else if longest >= 0.0 {
      if q > 0.0 {
        ProductSign(maxDist, q);
      }
    }
  }

  // ---------------------------------------------------------------- real arithmetic

  lemma NonnegProduct(x: real, y: real)
    requires x >= 0.0 && y >= 0.0
    ensures x * y >= 0.0
  {
  }

  lemma MulMono(a: real, b: real, d: real)
    requires a <= b && d >= 0.0
    ensures a * d <= b * d
  {
    NonnegProduct(b - a, d);
    assert b * d - a * d == (b - a) * d;
  }

  lemma MulStrict(a: real, b: real, d: real)
    requires a < b && d > 0.0
    ensures a * d < b * d
  {
    ProductSign(b - a, d);
    assert b * d - a * d == (b - a) * d;
  }

  lemma CancelPositive(a: real, b: real, c: real)
    requires c > 0.0 && a * c == b * c
    ensures a == b
  {
    if a < b {
      MulStrict(a, b, c);
    } else if a > b {
      MulStrict(b, a, c);
    }
  }

  /** A fraction of a non-negative quantity lies between zero and the quantity. */
  lemma FractionOf(t: real, d: real) returns (w: real)
    requires 0.0 <= t <= 1.0 && d >= 0.0
    ensures w == t * d && 0.0 <= w <= d
  {
    w := t * d;
    NonnegProduct(t, d);
    NonnegProduct(1.0 - t, d);
    assert d - t * d == (1.0 - t) * d;
  }

  lemma BelowQuotient(a: real, q: real, d: real, l: real)
    requires a < q && d > 0.0 && q * d == l
    ensures a * d < l
  {
    MulStrict(a, q, d);
  }

  /** Names the quotient, so that the solver keeps it as one quantity. */
  lemma Quotient(x: real, y: real) returns (q: real)
    requires y != 0.0
    ensures q == x / y && q * y == x
  {
    q := x / y;
  }

  // ---------------------------------------------------------------- profiles

  /** `np.linspace(0.0, 1.0, n, endpoint=True)[k]`. */
  function Abscissa(n: int, k: int): (t: real)
    requires n >= 2
    ensures t * (n - 1) as real == k as real
  {
    k as real / (n - 1) as real
  }

  /** The abscissae run from exactly 0 to exactly 1 in equal steps of `1/(n-1)`. */
  lemma AbscissaSpacing(n: int, k: int)
    requires n >= 2 && 0 <= k < n
    ensures Abscissa(n, 0) == 0.0 && Abscissa(n, n - 1) == 1.0
    ensures 0.0 <= Abscissa(n, k) <= 1.0
    ensures k + 1 < n ==> Abscissa(n, k + 1) - Abscissa(n, k) == 1.0 / (n - 1) as real
  {
    var m := (n - 1) as real;
    assert k as real <= m;
    assert Abscissa(n, k) * m == k as real;
  }

  /** The point a fraction `t` of the way from `a` to `b`. */
  function Lerp(a: Point2, b: Point2, t: real): (p: Point2)
    ensures t == 0.0 ==> p == a
    ensures t == 1.0 ==> p == b
  {
    Point2(a.x + t * (b.x - a.x), a.y + t * (b.y - a.y))
  }

  /** A profile of `n` evenly spaced points from `a` to `b`. */
  function Profile(a: Point2, b: Point2, n: int): (ps: seq<Point2>)
    requires n >= 2
    ensures |ps| == n
  {
    seq(n, k requires 0 <= k < n => Lerp(a, b, Abscissa(n, k)))
  }

  /** A profile starts at `a`, ends at `b`, and steps by `(b - a)/(n - 1)`. */
  lemma ProfileEnds(a: Point2, b: Point2, n: int, k: int)
    requires n >= 2 && 0 <= k < n
    ensures Profile(a, b, n)[0] == a && Profile(a, b, n)[n - 1] == b
    ensures k + 1 < n ==>
      && Profile(a, b, n)[k + 1].x - Profile(a, b, n)[k].x == (b.x - a.x) / (n - 1) as real
      && Profile(a, b, n)[k + 1].y - Profile(a, b, n)[k].y == (b.y - a.y) / (n - 1) as real
  {
    AbscissaSpacing(n, k);
    var s := 1.0 / (n - 1) as real;
    if k + 1 < n {
      var t := Abscissa(n, k);
      assert Abscissa(n, k + 1) == t + s;
      assert (t + s) * (b.x - a.x) - t * (b.x - a.x) == s * (b.x - a.x);
      assert (t + s) * (b.y - a.y) - t * (b.y - a.y) == s * (b.y - a.y);
    }
  }

  /** For `0 <= t <= 1` the point lies between `a` and `b` on each axis. */
  lemma LerpBetween(a: Point2, b: Point2, t: real)
    requires 0.0 <= t <= 1.0
    ensures Min(a.x, b.x) <= Lerp(a, b, t).x <= Max(a.x, b.x)
    ensures Min(a.y, b.y) <= Lerp(a, b, t).y <= Max(a.y, b.y)
  {
    LerpAxis(a.x, b.x, t);
    LerpAxis(a.y, b.y, t);
  }

  lemma LerpAxis(u: real, v: real, t: real)
    requires 0.0 <= t <= 1.0
    ensures Min(u, v) <= u + t * (v - u) <= Max(u, v)
  {
    if u <= v {
      var w := FractionOf(t, v - u);
      assert Min(u, v) == u && Max(u, v) == v;
    } else {
      var w := FractionOf(t, u - v);
      assert t * (v - u) == -w;
      assert Min(u, v) == v && Max(u, v) == u;
    }
  }

  /** The squared step of a profile is at most `maxDist^2` when `length` is its true length and
      no longer than `(n - 1) * maxDist` (which `NumProfileSamples` guarantees). */
  lemma StepWithinMaxDist(dx: real, dy: real, length: real, n: int, maxDist: real)
    requires n >= 2 && maxDist > 0.0 && length >= 0.0 && length * length == dx * dx + dy * dy
    requires length <= (n - 1) as real * maxDist
    ensures var sx, sy := dx / (n - 1) as real, dy / (n - 1) as real;
      sx * sx + sy * sy <= maxDist * maxDist
  {
    var m := (n - 1) as real;
    var sx, sy, l := dx / m, dy / m, length / m;
    assert sx * m == dx && sy * m == dy && l * m == length;
    assert l <= maxDist by {
      if l > maxDist {
        MulStrict(maxDist, l, m);
      }
    }
    assert l >= 0.0 by {
      if l < 0.0 {
        ProductSign(l, m);
      }
    }
    assert sx * sx + sy * sy == l * l by {
      assert (sx * sx + sy * sy) * (m * m) == (sx * m) * (sx * m) + (sy * m) * (sy * m);
      assert (l * l) * (m * m) == (l * m) * (l * m);
      ProductSign(m, m);
      CancelPositive(sx * sx + sy * sy, l * l, m * m);
    }
    MulMono(l, maxDist, l);
    MulMono(l, maxDist, maxDist);
  }

  // ---------------------------------------------------------------- one horseshoe

  /** The samples of one horseshoe, before deciding whether to render it. */
  datatype HorseshoeSamples =
    | WrongPointCount
    | Sampled(openXY: seq<Point2>, openZ: seq<Option<real>>, closedXY: seq<Point2>, closedZ: seq<Option<real>>)

  /** Both profiles have the same number of samples, at least two, each with its Z. */
  predicate Paired(s: HorseshoeSamples) {
    s.Sampled? ==> |s.openXY| >= 2 && |s.openZ| == |s.closedXY| == |s.closedZ| == |s.openXY|
  }

  /** The lengths of the open (A-D) and closed (B-C) ends. */
  function OpenLength(h: seq<Point2>, hypot: Hypot): real
    requires |h| == 4
  {
    hypot(h[3].x - h[0].x, h[3].y - h[0].y)
  }

  function ClosedLength(h: seq<Point2>, hypot: Hypot): real
    requires |h| == 4
  {
    hypot(h[2].x - h[1].x, h[2].y - h[1].y)
  }

  /** From the interpolator of the horseshoe's window: the sample count, the two profiles and
      their sampled Z. A zero sample distance raises. */
  function ProfilesOf(table: InterpolationTable, interp: Sampler, hypot: Hypot, maxDist: real, h: seq<Point2>)
    : (r: Result<HorseshoeSamples, RunError>)
    requires |h| == 4
    ensures r.Success? <==> maxDist != 0.0
    ensures r.Failure? ==> r.error == ZeroSampleDistance
    ensures r.Success? ==> r.value.Sampled? && Paired(r.value)
  {
    if maxDist == 0.0 then Failure(ZeroSampleDistance)
    else
      var n := NumProfileSamples(OpenLength(h, hypot), ClosedLength(h, hypot), maxDist);
      var openXY, closedXY := Profile(h[0], h[3], n), Profile(h[1], h[2], n);
      Success(Sampled(openXY, SampleAt(interp, table, openXY), closedXY, SampleAt(interp, table, closedXY)))
  }

  /** The first part of one iteration: fatal type check, soft point-count check, then the
      window and interpolator around the horseshoe, then its profiles. */
  function HorseshoeSamplesOf(raster: Raster, interp: Sampler, hypot: Hypot, maxDist: real, g: Geometry)
    : (r: Result<HorseshoeSamples, RunError>)
    requires WellFormed(raster)
    ensures r.Success? ==> Paired(r.value)
  {
    if !IsAcceptableGeometryType(g.geometryType) then Failure(UnexpectedGeometryType)
    else if |g.points| != 4 then Success(WrongPointCount)
    else
      match FeatureTable(raster, PointsBBox(g.points))
      case Failure(e) => Failure(e)
      case Success(table) => ProfilesOf(table, interp, hypot, maxDist, g.points)
  }

  /** The rendered lines: line i runs from open sample i to closed sample i. */
  function ProfileLines(openXY: seq<Point2>, openZ: seq<Option<real>>, closedXY: seq<Point2>, closedZ: seq<Option<real>>)
    : (lines: seq<Segment3>)
    requires |openZ| == |closedXY| == |closedZ| == |openXY|
    requires AllPresent(openZ) && AllPresent(closedZ)
    ensures |lines| == |openXY|
  {
    seq(|openXY|, i requires 0 <= i < |openXY| =>
      Segment3(Point3(openXY[i].x, openXY[i].y, openZ[i].value), Point3(closedXY[i].x, closedXY[i].y, closedZ[i].value)))
  }

  /** The second part of one iteration: count the horseshoe, and render all of its lines or none.
      The horseshoe is counted exactly once, the lines already written stay in place, and a
      rendered horseshoe adds one line per sample pair. */
  function RenderStep(run: Run, s: HorseshoeSamples): (next: Run)
    requires Paired(s)
    ensures next.counters.expectedPointCount + next.counters.unexpectedPointCount
              == run.counters.expectedPointCount + run.counters.unexpectedPointCount + 1
    ensures |next.lines| >= |run.lines| && next.lines[..|run.lines|] == run.lines
    ensures next.counters.validCount == run.counters.validCount + 1 <==> |next.lines| > |run.lines|
    ensures s.Sampled? && next.counters.validCount == run.counters.validCount + 1 ==>
              |next.lines| == |run.lines| + |s.openXY|
  {
    match s
    case WrongPointCount => run.(counters := CountUnexpected(run.counters))
    case Sampled(openXY, openZ, closedXY, closedZ) =>
      if AllPresent(openZ) && AllPresent(closedZ) then
        Run(run.lines + ProfileLines(openXY, openZ, closedXY, closedZ), CountValid(run.counters))
      else
        Run(run.lines, CountInvalid(run.counters))
  }

  /** One iteration of the loop. One that does not raise counts the feature exactly once and
      keeps every line already written. */
  function HorseshoeStep(raster: Raster, interp: Sampler, hypot: Hypot, maxDist: real, run: Run, g: Geometry)
    : (r: Result<Run, RunError>)
    requires WellFormed(raster)
    ensures r.Success? ==>
      && r.value.counters.expectedPointCount + r.value.counters.unexpectedPointCount
           == run.counters.expectedPointCount + run.counters.unexpectedPointCount + 1
      && |r.value.lines| >= |run.lines| && r.value.lines[..|run.lines|] == run.lines
  {
    match HorseshoeSamplesOf(raster, interp, hypot, maxDist, g)
    case Failure(e) => Failure(e)
    case Success(s) => Success(RenderStep(run, s))
  }

  function HorseshoeStepper(raster: Raster, interp: Sampler, hypot: Hypot, maxDist: real): Step
    requires WellFormed(raster)
  {
    (run, g) => HorseshoeStep(raster, interp, hypot, maxDist, run, g)
  }

  /** The whole loop over the horseshoe layer. */
  function HorseshoeRun(raster: Raster, interp: Sampler, hypot: Hypot, maxDist: real, features: seq<Geometry>)
    : Result<Run, RunError>
    requires WellFormed(raster)
  {
    RunFeatures(HorseshoeStepper(raster, interp, hypot, maxDist), features)
  }

  /** The counters of a finished run: every feature is counted once, as a point-count mismatch or
      as expected, every expected one as valid or invalid, and every valid one has at least two
      output lines. */
  predicate HorseshoeCountsAdd(run: Run, numFeatures: nat) {
    var c := run.counters;
    && c.expectedPointCount + c.unexpectedPointCount == numFeatures
    && c.expectedPointCount == c.validCount + c.invalidCount
    && |run.lines| >= 2 * c.validCount
  }

  // ---------------------------------------------------------------- the loop

  /** Lengths, sample count, profiles and their Z, for a horseshoe whose interpolator exists. */
  method SampleProfiles(table: InterpolationTable, interp: Sampler, hypot: Hypot, maxDist: real, h: seq<Point2>)
    returns (res: Result<HorseshoeSamples, RunError>)
    requires |h| == 4
    ensures res == ProfilesOf(table, interp, hypot, maxDist, h)
  {
    var openLength := hypot(h[3].x - h[0].x, h[3].y - h[0].y);
    var closedLength := hypot(h[2].x - h[1].x, h[2].y - h[1].y);
    if maxDist == 0.0 {
      return Failure(ZeroSampleDistance);
    }
    var n := NumProfileSamples(openLength, closedLength, maxDist);
    var openXY, closedXY := Profile(h[0], h[3], n), Profile(h[1], h[2], n);
    var openZ := SampleAt(interp, table, openXY);
    var closedZ := SampleAt(interp, table, closedXY);
    return Success(Sampled(openXY, openZ, closedXY, closedZ));
  }

  /** The first part of the loop body, up to the two sampled profiles. */
  method SampleHorseshoe(raster: Raster, interp: Sampler, hypot: Hypot, maxDist: real, g: Geometry)
    returns (res: Result<HorseshoeSamples, RunError>)
    requires WellFormed(raster)
    ensures res == HorseshoeSamplesOf(raster, interp, hypot, maxDist, g)
  {
    if !IsAcceptableGeometryType(g.geometryType) {
      return Failure(UnexpectedGeometryType);
    }
    if |g.points| != 4 {
      return Success(WrongPointCount);
    }
    var h := g.points;
    var bbox := PointsBBox(h);
    var window := GetRasterWindow(raster, bbox);
    if window.Failure? {
      return Failure(SamplingFailed(window.error));
    }
    // a window is never rotated, so building its interpolator cannot raise
    var table := BuildInterpolationTable(window.value);
    assert table.Success?;
    res := SampleProfiles(table.value, interp, hypot, maxDist, h);
  }

  /** The rest of the loop body: write one line per sample pair, or count the horseshoe as
      invalid. */
  method Render(run: Run, s: HorseshoeSamples) returns (next: Run)
    requires Paired(s)
    ensures next == RenderStep(run, s)
  {
    var lines, counters := run.lines, run.counters;
    match s {
      case WrongPointCount =>
        counters := CountUnexpected(counters);
      case Sampled(openXY, openZ, closedXY, closedZ) =>
        if AllPresent(openZ) && AllPresent(closedZ) {
          ghost var rendered := ProfileLines(openXY, openZ, closedXY, closedZ);
          for i := 0 to |openXY|
            invariant lines == run.lines + rendered[..i]
          {
            lines := lines + [Segment3(Point3(openXY[i].x, openXY[i].y, openZ[i].value),
                                       Point3(closedXY[i].x, closedXY[i].y, closedZ[i].value))];
            assert rendered[..i + 1] == rendered[..i] + [rendered[i]];
          }
          assert rendered[..|openXY|] == rendered;
          counters := CountValid(counters);
        } else {
          counters := CountInvalid(counters);
        }
    }
    return Run(lines, counters);
  }

  /** The script after the raster is opened: the sample distance, then the loop over the
      horseshoe layer. */
  method PrepareHorseshoeLines(raster: Raster, interp: Sampler, hypot: Hypot, requested: Option<real>,
                               features: seq<Geometry>)
    returns (res: Result<Run, RunError>)
    requires WellFormed(raster)
    ensures res == HorseshoeRun(raster, interp, hypot, MaxProfileSampleDist(requested, raster.gt, hypot), features)
    ensures res.Success? ==> HorseshoeCountsAdd(res.value, |features|)
  {
    var maxDist := MaxProfileSampleDist(requested, raster.gt, hypot);
    ghost var step := HorseshoeStepper(raster, interp, hypot, maxDist);
    var run := InitialRun();
    for f := 0 to |features|
      invariant RunFeatures(step, features[..f]) == Success(run)
    {
      RunFeaturesExtend(step, features, f);
      var samples := SampleHorseshoe(raster, interp, hypot, maxDist, features[f]);
      if samples.Failure? {
        FailurePersists(step, features, f + 1);
        return Failure(samples.error);
      }
      run := Render(run, samples.value);
    }
    assert features[..|features|] == features;
    HorseshoeRunCountsAdd(raster, interp, hypot, maxDist, features);
    return Success(run);
  }

  // ---------------------------------------------------------------- properties

  /** Every run that finishes satisfies the counter equations, for any layer. */
  lemma {:induction false} HorseshoeRunCountsAdd(raster: Raster, interp: Sampler, hypot: Hypot, maxDist: real,
                                                 features: seq<Geometry>)
    requires WellFormed(raster) && HorseshoeRun(raster, interp, hypot, maxDist, features).Success?
    ensures HorseshoeCountsAdd(HorseshoeRun(raster, interp, hypot, maxDist, features).value, |features|)
    decreases |features|
  {
    if |features| > 0 {
      var n := |features| - 1;
      var step := HorseshoeStepper(raster, interp, hypot, maxDist);
      RunFeaturesExtend(step, features, n);
      assert features[..n + 1] == features;
      HorseshoeRunCountsAdd(raster, interp, hypot, maxDist, features[..n]);
    }
  }

  /** A geometry of any type other than a LineString aborts the run, wherever it is. */
  lemma {:induction false} UnexpectedTypeIsFatal(raster: Raster, interp: Sampler, hypot: Hypot, maxDist: real,
                                                 features: seq<Geometry>, i: nat)
    requires WellFormed(raster) && i < |features| && !IsAcceptableGeometryType(features[i].geometryType)
    ensures HorseshoeRun(raster, interp, hypot, maxDist, features) == Failure(UnexpectedGeometryType) ||
            HorseshoeRun(raster, interp, hypot, maxDist, features[..i]).Failure?
    ensures HorseshoeRun(raster, interp, hypot, maxDist, features).Failure?
  {
    var step := HorseshoeStepper(raster, interp, hypot, maxDist);
    RunFeaturesExtend(step, features, i);
    FailurePersists(step, features, i + 1);
  }

  /** With a zero sample distance, any four-point LineString makes the whole run fail. */
  lemma {:induction false} ZeroDistanceIsFatal(raster: Raster, interp: Sampler, hypot: Hypot,
                                               features: seq<Geometry>, i: nat)
    requires WellFormed(raster) && i < |features| && |features[i].points| == 4
    ensures HorseshoeRun(raster, interp, hypot, 0.0, features).Failure?
  {
    var step := HorseshoeStepper(raster, interp, hypot, 0.0);
    RunFeaturesExtend(step, features, i);
    FailurePersists(step, features, i + 1);
  }

  /** A LineString with other than four points changes nothing but its counter. */
  lemma PointCountMismatchOnlyCounts(raster: Raster, interp: Sampler, hypot: Hypot, maxDist: real, run: Run, g: Geometry)
    requires WellFormed(raster) && IsAcceptableGeometryType(g.geometryType) && |g.points| != 4
    ensures var r := HorseshoeStep(raster, interp, hypot, maxDist, run, g);
      && r.Success? && r.value.lines == run.lines
      && r.value.counters == run.counters.(unexpectedPointCount := run.counters.unexpectedPointCount + 1)
  {
  }

  /** A sampled horseshoe is counted as expected and as exactly one of valid and invalid. It is
      rendered iff every sample on both profiles exists, and then as `n` lines appended in order,
      line i from open sample i to closed sample i; otherwise nothing is written. */
  lemma HorseshoeOutcome(table: InterpolationTable, interp: Sampler, hypot: Hypot, maxDist: real, run: Run,
                         h: seq<Point2>)
    requires |h| == 4 && maxDist != 0.0
    ensures var r := RenderStep(run, ProfilesOf(table, interp, hypot, maxDist, h).value);
      var n := NumProfileSamples(OpenLength(h, hypot), ClosedLength(h, hypot), maxDist);
      var openXY, closedXY := Profile(h[0], h[3], n), Profile(h[1], h[2], n);
      var present := forall i :: 0 <= i < n ==>
        interp(table, openXY[i].x, openXY[i].y).Some? && interp(table, closedXY[i].x, closedXY[i].y).Some?;
      && r.counters == (if present then CountValid(run.counters) else CountInvalid(run.counters))
      && (present ==> |r.lines| == |run.lines| + n && r.lines[..|run.lines|] == run.lines)
      && (present ==> forall i :: 0 <= i < n ==>
            r.lines[|run.lines| + i] ==
              Segment3(Point3(openXY[i].x, openXY[i].y, interp(table, openXY[i].x, openXY[i].y).value),
                       Point3(closedXY[i].x, closedXY[i].y, interp(table, closedXY[i].x, closedXY[i].y).value)))
      && (!present ==> r.lines == run.lines)
  {
    var n := NumProfileSamples(OpenLength(h, hypot), ClosedLength(h, hypot), maxDist);
    var openXY, closedXY := Profile(h[0], h[3], n), Profile(h[1], h[2], n);
    var openZ, closedZ := SampleAt(interp, table, openXY), SampleAt(interp, table, closedXY);
    assert forall i :: 0 <= i < n ==> openZ[i] == interp(table, openXY[i].x, openXY[i].y);
    assert forall i :: 0 <= i < n ==> closedZ[i] == interp(table, closedXY[i].x, closedXY[i].y);
  }

  /** The first rendered line joins A to B and the last joins D to C: the lines fill the
      quadrilateral from the closed side of the horseshoe to its open side. */
  lemma RenderedEnds(table: InterpolationTable, interp: Sampler, hypot: Hypot, maxDist: real, h: seq<Point2>)
    requires |h| == 4 && maxDist != 0.0
    ensures var s := ProfilesOf(table, interp, hypot, maxDist, h).value;
      var n := |s.openXY|;
      && s.openXY[0] == h[0] && s.closedXY[0] == h[1]
      && s.openXY[n - 1] == h[3] && s.closedXY[n - 1] == h[2]
  {
    var n := NumProfileSamples(OpenLength(h, hypot), ClosedLength(h, hypot), maxDist);
    ProfileEnds(h[0], h[3], n, 0);
    ProfileEnds(h[1], h[2], n, 0);
  }

  /** Along a profile, consecutive samples are one step `(dx, dy)` apart, and the step is no
      longer than `maxDist` when the profile's true length is within `(n - 1) * maxDist`, which
      `NumProfileSamples` guarantees for the longer of the two profiles. */
  lemma ProfileSpacing(a: Point2, b: Point2, n: int, k: int, length: real, maxDist: real)
    requires n >= 2 && 0 <= k < n - 1 && maxDist > 0.0
    requires length >= 0.0 && length * length == (b.x - a.x) * (b.x - a.x) + (b.y - a.y) * (b.y - a.y)
    requires length <= (n - 1) as real * maxDist
    ensures var p, m := Profile(a, b, n), (n - 1) as real;
      var dx, dy := (b.x - a.x) / m, (b.y - a.y) / m;
      && p[k + 1].x == p[k].x + dx && p[k + 1].y == p[k].y + dy
      && dx * dx + dy * dy <= maxDist * maxDist
  {
    ProfileEnds(a, b, n, k);
    StepWithinMaxDist(b.x - a.x, b.y - a.y, length, n, maxDist);
  }

  /** Every profile sample lies inside the interpolation domain of the horseshoe's window, so a
      missing sample always comes from nodata and never from leaving the window. */
  lemma {:induction false} ProfileInDomain(raster: Raster, h: seq<Point2>, a: int, b: int, n: int, k: int)
    requires WellFormed(raster) && |h| == 4 && 0 <= a < 4 && 0 <= b < 4 && n >= 2 && 0 <= k < n
    requires FeatureTable(raster, PointsBBox(h)).Success?
    ensures InDomain(FeatureTable(raster, PointsBBox(h)).value, Profile(h[a], h[b], n)[k].x, Profile(h[a], h[b], n)[k].y)
  {
    var bbox := PointsBBox(h);
    var p := Profile(h[a], h[b], n)[k];
    AbscissaSpacing(n, k);
    LerpBetween(h[a], h[b], Abscissa(n, k));
    BBoxWithinWindowDomain(raster, bbox, p.x, p.y);
  }
}
