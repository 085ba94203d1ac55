/**
 * The sample grid and strategy selection of `drawContour` in `src/2d-map.js`.
 * Rendering and contour extraction are not part of this model.
 */
module Map2D {
  import opened Wrappers
  import opened Numeric
  import opened Globals
  import opened Kde2D
  import opened EliteData

  /** `xScale(j)`: the linear scale from `[0, grid_size]` onto `[MAP_LEFT, MAP_RIGHT]`. */
  function XScale(j: int, gridSize: nat): real
    requires gridSize > 0
  {
    MAP_LEFT + (j as real) * (MAP_RIGHT - MAP_LEFT) / (gridSize as real)
  }

  /** `yScale(i)`: the linear scale from `[0, grid_size]` onto `[MAP_DOWN, MAP_UP]`. */
  function YScale(i: int, gridSize: nat): real
    requires gridSize > 0
  {
    MAP_DOWN + (i as real) * (MAP_UP - MAP_DOWN) / (gridSize as real)
  }

  /** The domain ends map onto the range ends. */
  lemma ScaleEnds(gridSize: nat)
    requires gridSize > 0
    ensures XScale(0, gridSize) == MAP_LEFT && XScale(gridSize, gridSize) == MAP_RIGHT
    ensures YScale(0, gridSize) == MAP_DOWN && YScale(gridSize, gridSize) == MAP_UP
  {
  }

  /** x grows with the column index. */
  lemma XScaleIncreasing(j1: int, j2: int, gridSize: nat)
    requires gridSize > 0 && j1 < j2
    ensures XScale(j1, gridSize) < XScale(j2, gridSize)
  {
    var w := (MAP_RIGHT - MAP_LEFT) / (gridSize as real);
    assert w > 0.0;
    assert (j1 as real) * (MAP_RIGHT - MAP_LEFT) / (gridSize as real) == (j1 as real) * w;
    assert (j2 as real) * (MAP_RIGHT - MAP_LEFT) / (gridSize as real) == (j2 as real) * w;
    assert (j2 as real) * w - (j1 as real) * w == ((j2 - j1) as real) * w;
  }

  /** y falls as the row index grows, since MAP_DOWN > MAP_UP. */
  lemma YScaleDecreasing(i1: int, i2: int, gridSize: nat)
    requires gridSize > 0 && i1 < i2
    ensures YScale(i1, gridSize) > YScale(i2, gridSize)
  {
    var h := (MAP_UP - MAP_DOWN) / (gridSize as real);
    assert h < 0.0;
    assert (i1 as real) * (MAP_UP - MAP_DOWN) / (gridSize as real) == (i1 as real) * h;
    assert (i2 as real) * (MAP_UP - MAP_DOWN) / (gridSize as real) == (i2 as real) * h;
    assert (i2 as real) * h - (i1 as real) * h == ((i2 - i1) as real) * h;
  }

  /** Indices stop at `grid_size - 1`: every sample lies inside the map, never on MAP_RIGHT or MAP_UP. */
  lemma SamplesInsideMap(i: int, j: int, gridSize: nat)
    requires gridSize > 0 && 0 <= i < gridSize && 0 <= j < gridSize
    ensures MAP_LEFT <= XScale(j, gridSize) < MAP_RIGHT
    ensures MAP_UP < YScale(i, gridSize) <= MAP_DOWN
  {
    ScaleEnds(gridSize);
    if j > 0 {
      XScaleIncreasing(0, j, gridSize);
    }
    XScaleIncreasing(j, gridSize, gridSize);
    if i > 0 {
      YScaleDecreasing(0, i, gridSize);
    }
    YScaleDecreasing(i, gridSize, gridSize);
  }

  /** Row-major slot of row `i`, column `j`. */
  function GridIndex(i: int, j: int, gridSize: nat): (idx: int)
    ensures 0 <= i < gridSize && 0 <= j < gridSize ==> 0 <= idx < gridSize * gridSize
  {
    if 0 <= i < gridSize && 0 <= j < gridSize then
      GridIndexInRange(i, j, gridSize);
      i * gridSize + j
    else i * gridSize + j
  }

  /** The sample of row `i`, column `j`: x from the column, y from the row. */
  function GridPoint(i: int, j: int, gridSize: nat): Vec2
    requires gridSize > 0
  {
    Vec2(XScale(j, gridSize), YScale(i, gridSize))
  }

  lemma GridIndexInRange(i: int, j: int, gridSize: nat)
    requires 0 <= i < gridSize && 0 <= j < gridSize
    ensures 0 <= i * gridSize + j < gridSize * gridSize
  {
    assert i * gridSize >= 0;
    assert i * gridSize + gridSize == (i + 1) * gridSize;
    assert (i + 1) * gridSize <= gridSize * gridSize;
  }

  /** Distinct cells have distinct slots, so no slot is written twice. */
  lemma GridIndexInjective(i1: int, j1: int, i2: int, j2: int, gridSize: nat)
    requires 0 <= i1 < gridSize && 0 <= j1 < gridSize
    requires 0 <= i2 < gridSize && 0 <= j2 < gridSize
    requires GridIndex(i1, j1, gridSize) == GridIndex(i2, j2, gridSize)
    ensures i1 == i2 && j1 == j2
  {
    if i1 < i2 {
      GridIndexRowOrder(i1, j1, i2, j2, gridSize);
    } else if i2 < i1 {
      GridIndexRowOrder(i2, j2, i1, j1, gridSize);
    }
  }

  /** Every slot of an earlier row comes before every slot of a later row. */
  lemma GridIndexRowOrder(i1: int, j1: int, i2: int, j2: int, gridSize: nat)
    requires i1 < i2 && 0 <= j1 < gridSize && 0 <= j2
    ensures GridIndex(i1, j1, gridSize) < GridIndex(i2, j2, gridSize)
  {
    MulMonotone(i1 + 1, i2, gridSize);
    assert (i1 + 1) * gridSize == i1 * gridSize + gridSize;
  }

  lemma MulMonotone(a: int, b: int, c: nat)
    requires a <= b
    ensures a * c <= b * c
  {
    assert b * c - a * c == (b - a) * c;
  }

  /** Every slot below `grid_size ** 2` is the slot of the cell (idx / grid_size, idx % grid_size). */
  lemma GridIndexCovers(idx: int, gridSize: nat)
    requires 0 <= idx < gridSize * gridSize
    ensures gridSize > 0
    ensures 0 <= idx / gridSize < gridSize && 0 <= idx % gridSize < gridSize
    ensures GridIndex(idx / gridSize, idx % gridSize, gridSize) == idx
  {
    if gridSize > 0 && idx / gridSize >= gridSize {
      MulMonotone(gridSize, idx / gridSize, gridSize);
    }
  }

  /** `samples` of `drawContour`: `Array(grid_size ** 2)` filled row by row. */
  method SampleGrid(gridSize: nat) returns (samples: seq<Vec2>)
    ensures |samples| == gridSize * gridSize
    ensures forall i, j :: 0 <= i < gridSize && 0 <= j < gridSize ==>
      samples[GridIndex(i, j, gridSize)] == GridPoint(i, j, gridSize)
    ensures forall idx :: 0 <= idx < |samples| ==> samples[idx] == GridPoint(idx / gridSize, idx % gridSize, gridSize)
  {
    var n := gridSize * gridSize;
    // `Array(n)` holds n holes; `None` marks a hole
    var slots := new Option<Vec2>[n](_ => None);
    for i := 0 to gridSize
      invariant forall r, c :: 0 <= r < i && 0 <= c < gridSize ==>
        slots[GridIndex(r, c, gridSize)] == Some(GridPoint(r, c, gridSize))
    {
      for j := 0 to gridSize
        invariant forall r, c :: ((0 <= r < i && 0 <= c < gridSize) || (r == i && 0 <= c < j)) ==>
          slots[GridIndex(r, c, gridSize)] == Some(GridPoint(r, c, gridSize))
      {
        forall r, c | (0 <= r < i && 0 <= c < gridSize) || (r == i && 0 <= c < j)
          ensures GridIndex(r, c, gridSize) != GridIndex(i, j, gridSize)
        {
          if GridIndex(r, c, gridSize) == GridIndex(i, j, gridSize) {
            GridIndexInjective(r, c, i, j, gridSize);
          }
        }
        slots[GridIndex(i, j, gridSize)] := Some(GridPoint(i, j, gridSize));
      }
    }
    forall idx | 0 <= idx < n
      ensures slots[idx].Some?
    {
      GridIndexCovers(idx, gridSize);
    }
    samples := seq(n, k requires 0 <= k < n && slots[k].Some? reads slots => slots[k].value);
    forall idx | 0 <= idx < n
      ensures samples[idx] == GridPoint(idx / gridSize, idx % gridSize, gridSize)
    {
      GridIndexCovers(idx, gridSize);
    }
  }

  /**
   * `drawContour` up to the contouring call: the grid, then `kde_2d_gpu` or `kde_2d_cpu`
   * chosen by `use_gpu` and returned as `strategy`. Slot `i * grid_size + j` holds the
   * density at row `i`, column `j`, whichever strategy ran.
   */
  method ContourValues(exp: PositiveFn, eliteData: seq<Elite>, year: int, eliteType: Option<string>,
                       kernelWidth: real, gridSize: nat, useGpu: bool)
    returns (values: Option<seq<real>>, strategy: Strategy)
    requires kernelWidth > 0.0
    ensures strategy == Gpu <==> useGpu
    ensures values.None? <==> FilteredPositions(eliteData, eliteType, year, !useGpu).None?
    ensures values.Some? ==> |values.value| == gridSize * gridSize
    ensures values.Some? ==> forall i, j :: 0 <= i < gridSize && 0 <= j < gridSize ==>
      values.value[GridIndex(i, j, gridSize)]
        == Density2D(exp, kernelWidth, GridPoint(i, j, gridSize), FilteredPositions(eliteData, eliteType, year, !useGpu).value)
  {
    // `getFilteredElites({type, year, useLiteData: !use_gpu}).map(d => d.getPos(year))`
    var data := FilteredPositions(eliteData, eliteType, year, !useGpu);
    strategy := if useGpu then Gpu else Cpu;
    if data.None? {
      return None, strategy;
    }
    var samples := SampleGrid(gridSize);
    var field;
    if strategy == Gpu {
      field := Kde2dGpu(exp, kernelWidth, samples, data.value);
    } else {
      field := Kde2dCpu(exp, kernelWidth, samples, data.value);
    }
    values := Some(field);
  }
}
