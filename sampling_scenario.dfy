/** The window-extraction scenario of tests/test_sampling.py: a 6 x 5 raster with pixel size
    (0.1, -0.1), one nodata cell, and a box that is not pixel-aligned and runs past the
    eastern edge of the raster. */
module SamplingScenario {
  import opened Wrappers
  import opened Sampling

  const NodataValue: real := -1337.0

  /** `np.arange(30.0).reshape(6, 5)` with cell (3, 2) set to nodata. */
  function InputRaster(): Raster {
    Raster([[ 0.0,  1.0,  2.0,  3.0,  4.0],
            [ 5.0,  6.0,  7.0,  8.0,  9.0],
            [10.0, 11.0, 12.0, 13.0, 14.0],
            [15.0, 16.0, NodataValue, 18.0, 19.0],
            [20.0, 21.0, 22.0, 23.0, 24.0],
            [25.0, 26.0, 27.0, 28.0, 29.0]],
           5, GeoTransform(600000.0, 0.1, 0.0, 6200000.0, 0.0, -0.1), Some(NodataValue))
  }

  function TargetBox(): BoundingBox {
    BoundingBox(600000.21, 600000.42, 6199999.61, 6199999.79)
  }

  /** The window the test expects: rows 1..4 and columns 1..5 of the source, column 5
      (outside the source) and the source's own nodata cell reading as nodata. */
  function ExpectedWindow(): Raster {
    Raster([[ 6.0,  7.0,  8.0,  9.0, NodataValue],
            [11.0, 12.0, 13.0, 14.0, NodataValue],
            [16.0, NodataValue, 18.0, 19.0, NodataValue],
            [21.0, 22.0, 23.0, 24.0, NodataValue]],
           5, GeoTransform(600000.1, 0.1, 0.0, 6199999.9, 0.0, -0.1), Some(NodataValue))
  }

  /** The window bounds: columns 1 to 6 and rows 1 to 5 (exclusive), with the padded extent. */
  lemma {:induction false} ScenarioWindowBounds()
    ensures RasterWindow(InputRaster().gt, TargetBox()) ==
      Success(Window(AxisSpan(1, 6, 600000.1, 600000.6), AxisSpan(1, 5, 6199999.5, 6199999.9)))
  {
    var gt, b := InputRaster().gt, TargetBox();
    assert IndexOf(gt.originX, gt.pixelWidth, b.xMin) == 2.1;
    assert IndexOf(gt.originX, gt.pixelWidth, b.xMax) == 4.2;
    assert IndexOf(gt.originY, gt.pixelHeight, b.yMin) == 3.9;
    assert IndexOf(gt.originY, gt.pixelHeight, b.yMax) == 2.1;
    assert Floor(2.1) == 2 && Ceil(4.2) == 5 && Ceil(3.9) == 4;
  }

  /** The crop of the scenario is exactly the expected window, georeferenced as expected. */
  lemma {:induction false} ScenarioWindow()
    ensures GetRasterWindow(InputRaster(), TargetBox()) == Success(ExpectedWindow())
  {
    ScenarioWindowBounds();
    var w := RasterWindow(InputRaster().gt, TargetBox()).value;
    var out := Crop(InputRaster(), w);
    var expected := ExpectedWindow();
    forall r | 0 <= r < 4 ensures out.grid[r] == expected.grid[r] {
      assert forall c :: 0 <= c < 5 ==> out.grid[r][c] == expected.grid[r][c];
    }
    assert out.grid == expected.grid;
  }
}
