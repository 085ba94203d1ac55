# elite-distribution: a Dafny model of the density estimation core

elite-distribution is a browser front end that shows where the elites of imperial China
(degree holders, office holders, clan seats) lived in a chosen year. It draws a 2-D kernel
density contour map over the map of China. It also draws two 1-D density curves of the
same people, projected onto a user-rotatable arrow. This project models the arithmetic
under those pictures and proves properties of it:

- the unnormalised Gaussian kernels and the kernel density estimators
  (`src/globals.js`), in their CPU form (nested loops into an array) and in the per-thread
  form of the GPU kernels, both proved equal to one reference definition;
- the projection of 2-D positions onto the arrow (`getProjected1DPos`);
- record selection (`src/data.js`): `getPos(year)`, the every-tenth lite subsample and
  `getFilteredElites`;
- the sample grid of the contour map, filled in place row by row, and the choice of
  estimator (`src/2d-map.js`);
- the in-place duration pass over the dynasty list, the `slice(0, -1)` and the tooltip
  end year (`src/timeline.js`);
- the estimator choice, the y-domain maximum and the amplitude rescale of `map1d`
  (`src/1d-map.js`);
- the 3:2 fit of the page root, the CPU/GPU toggle, and the bandwidth and
  proportion that the `Map1D` component passes to `map1d` (`src/index.js`).

`Math.exp`, `Math.cos` and `Math.sin` are parameters of the model. `exp` is any function
from reals to positive reals; `cos` and `sin` are arbitrary. Numbers are exact reals, not
IEEE doubles. JavaScript's `undefined`, a `NaN` that a quotient can produce and a thrown
`TypeError` are modelled as `None` of an `Option`.

Modules and files: `Wrappers` (wrappers.dfy), `Numeric` (numeric.dfy), `Globals`
(globals.dfy), `Kde1D` (kde1d.dfy), `Kde2D` (kde2d.dfy), `Projection` (projection.dfy),
`EliteData` (data.dfy), `Map2D` (map2d.dfy), `Timeline` (timeline.dfy), `Map1D`
(map1d.dfy) and `App` (app.dfy).

## Model

| member | source | states |
|---|---|---|
| Kde1D.Gauss1D | src/globals.js:90-92 | the 1-D kernel `exp(-(x-mu)^2 / (2 sigma^2))` is positive |
| Kde1D.Gauss1DSymmetric | src/globals.js:90-92 | the 1-D kernel is symmetric in `x` and `mu` |
| Kde1D.Density1D | src/globals.js:97-99 | the sum of kernel terms at one sample is nonnegative, and positive when there is at least one observation |
| Kde1D.Kde1dCpu | src/globals.js:93-102 | the nested loops over an array of `[sample, 0.0]` pairs return, for every sample in order, the sample and the sum of the kernel over all points (the reference profile) |
| Kde1D.Density1DStep | src/globals.js:97-99 | one iteration of the inner loop adds the kernel at the next point to the density over the points seen so far |
| Kde1D.ThreadLoop1D | src/globals.js:114-116 | the GPU thread's accumulator loop over `j < nPoints`, written as tail recursion on `j`; `Kde1D.ThreadLoop1DSum` relates it to the reference density |
| Kde1D.ThreadLoop1DSum | src/globals.js:112-116 | the GPU thread's accumulator loop, started at `j` with the partial sum of the first `j` points, ends with the sum over the first `nPoints` points |
| Kde1D.Kde1dThread | src/globals.js:111-118 | GPU thread `x` returns `[samples[x], sum]` with the sum of the kernel over the first `nPoints` observations |
| Kde1D.Kde1dGpu | src/globals.js:108-124 | mapping the thread body over the thread indices yields exactly the CPU result |
| Kde1D.Density1DAppend | src/globals.js:97-99 | the density of two concatenated observation lists is the sum of their densities |
| Kde1D.Profile1DSuperposition | src/globals.js:93-102 | the profile of concatenated observations keeps the samples and adds the densities sample by sample |
| Kde1D.Profile1DShape | src/globals.js:93-102 | one pair per sample; every density is nonnegative; no observations give all zeros; no samples give an empty result |
| Kde1D.Profile1DTwoAtZero | src/globals.js:93-102 | bandwidth 1, samples [-1, 0, 1], two observations at 0 give densities `2e^-0.5`, `2e^0`, `2e^-0.5` |
| Kde2D.Gauss2D | src/globals.js:134-136 | the 2-D kernel `exp(-|v1-v2|^2 / (2 sigma^2))` is positive |
| Kde2D.Gauss2DSymmetric | src/globals.js:134-136 | the 2-D kernel is symmetric in its two points |
| Kde2D.Density2D | src/globals.js:140-142 | the sum of 2-D kernel terms at one sample is nonnegative, and positive when there is an observation |
| Kde2D.Kde2dCpu | src/globals.js:137-145 | the nested loops over a zero-filled array return, for every sample in order, the sum of the 2-D kernel over all points (the reference field) |
| Kde2D.Density2DStep | src/globals.js:140-142 | one iteration of the inner loop adds the 2-D kernel at the next point to the value over the points seen so far |
| Kde2D.ThreadLoop2D | src/globals.js:157-160 | the GPU thread's accumulator loop over `j < nPoints`, written as tail recursion on `j`; `Kde2D.ThreadLoop2DSum` relates it to the reference value |
| Kde2D.ThreadLoop2DSum | src/globals.js:155-160 | the 2-D thread loop, started from a partial sum, ends with the sum over the first `nPoints` points |
| Kde2D.Kde2dThread | src/globals.js:154-162 | GPU thread `x` returns the sum of the 2-D kernel at `samples[x]` over the first `nPoints` points |
| Kde2D.Kde2dGpu | src/globals.js:151-168 | mapping the 2-D thread body over the thread indices yields exactly the CPU result |
| Kde2D.Density2DAppend | src/globals.js:140-142 | the 2-D density is additive over concatenated observation lists |
| Kde2D.Field2DSuperposition | src/globals.js:137-145 | the field of concatenated observations is the elementwise sum of the two fields |
| Kde2D.Field2DShape | src/globals.js:137-145 | one value per sample; every value is nonnegative; no observations give all zeros; no samples give an empty result |
| Projection.Theta | src/globals.js:43 | the arrow angle in degrees converted to radians, `arrow_angle / 360 * PI * 2`; `Projection.ThetaTurns` states what it does |
| Projection.ThetaTurns | src/globals.js:43 | a full turn of 360 degrees adds `2 PI`, 180 degrees is `PI` and 0 degrees is 0 |
| Projection.ArrowVector | src/globals.js:41-48 | the arrow vector `(x - x0, y - y0)` equals `radius * (cos theta, sin theta)` |
| Projection.DotFromOrigin | src/globals.js:52-55 | `pdx * dx + pdy * dy`, the dot product of a point's offset from the arrow origin with a direction; `Projection.Projected1DPos` and `Projection.RadiusCancels` use it |
| Projection.RadiusCancels | src/globals.js:55 | dividing the dot product with the arrow vector `radius * (c, s)` by `arrow_radius` gives the dot product with `(c, s)`, for any nonzero radius |
| Projection.Projected1DPos | src/globals.js:39-58 | one value per point, in order; each is the dot product of the point's offset from the arrow origin with the unit direction `(cos theta, sin theta)` |
| Projection.ProjectionIgnoresRadius | src/globals.js:44-55 | dividing by `arrow_radius` cancels its scaling, so any two nonzero radii project identically |
| Projection.OriginProjectsToZero | src/globals.js:41-55 | the arrow origin projects to 0 |
| Projection.ReflectionNegates | src/globals.js:52-55 | a point reflected through the arrow origin projects to the negated value |
| Projection.ArrowHeadProjectsToRadius | src/globals.js:43-55 | when `cos^2 + sin^2 = 1` the arrow head projects to `arrow_radius` |
| Projection.ProjectionAlongEast | src/globals.js:39-58 | angle 0, radius 10: points 5 east, 5 north and 5 west of the origin project to 5, 0 and -5 |
| EliteData.SubsequenceReflexive | src/data.js:73-81 | every list is an order-preserving subsequence of itself |
| EliteData.SubsequenceLength | src/data.js:73-81 | a subsequence is no longer than the list it comes from |
| EliteData.SubsequenceElements | src/data.js:73-81 | every element of a subsequence occurs in the list it comes from |
| EliteData.SubsequenceTransitive | src/data.js:73-81 | a subsequence of a subsequence is a subsequence |
| EliteData.Filter | src/data.js:76-79 | `.filter` keeps an order-preserving subsequence whose elements all pass the predicate, and keeps every passing value exactly as often as it occurs |
| EliteData.EveryTenthFromLength | src/data.js:65 | the index filter from position `i` keeps `ceil(n/10) - ceil(i/10)` records |
| EliteData.EveryTenthFromAt | src/data.js:65 | record `m` kept from position `i` on is the input at the `m`-th multiple of 10 from `i`, and that position lies inside the input |
| EliteData.EveryTenthFromElements | src/data.js:65 | the same for every record kept from position `i` on |
| EliteData.EveryTenthFromSubsequence | src/data.js:65 | what the index filter keeps from position `i` on is a subsequence of the input from `i` on |
| EliteData.EveryTenthFrom | src/data.js:65 | the index filter `(d, i) => !(i % 10)` from position `i` on, as recursion on the index; its length, elements and order are stated by `EliteData.EveryTenthFromLength`, `EliteData.EveryTenthFromAt` and `EliteData.EveryTenthFromSubsequence` |
| EliteData.Lite | src/data.js:65 | `ELITE_DATA_LITE` has `ceil(n/10)` records, record `m` is record `10m` of the input, in order |
| EliteData.StartList | src/data.js:74 | the list the filters start from is `ELITE_DATA_LITE` (the every-tenth subsample) when `useLiteData` is truthy and the full data otherwise, and in both cases a subsequence of the full data |
| EliteData.AliveIn | src/data.js:76 | the year filter's predicate `birth_year <= year && year < death_year` |
| EliteData.Includes | src/data.js:79 | `String.prototype.includes`: the searched string occurs at some position; `EliteData.IncludesItself` gives the case `EliteData.OwnTypeKept` needs |
| EliteData.IncludesItself | src/data.js:79 | every string includes itself |
| EliteData.HasType | src/data.js:79 | the type filter's predicate `d.type.includes(type)` |
| EliteData.Kept | src/data.js:75-80 | a record survives the filters exactly when it passes each one that a truthy `year` or `type` switches on |
| EliteData.YearGiven | src/data.js:75 | the truthiness test `if (year)`: a year is given when it is present and not 0 |
| EliteData.TypeGiven | src/data.js:78 | the truthiness test `if (type)`: a type is given when it is present and not `""` |
| EliteData.OwnTypeKept | src/data.js:73-81 | a record of the starting list that is alive in `year` survives selection by its own type |
| EliteData.GetFilteredElites | src/data.js:73-81 | the result is a subsequence of the starting list (lite or full) and of the full data; it holds each record exactly as often as the starting list when the record passes the filters switched on by truthy `year` and `type`, and not at all otherwise |
| EliteData.FalsyFiltersKeepAll | src/data.js:74-80 | with falsy `type` and `year` the starting list comes back unchanged |
| EliteData.TypeFilterNarrows | src/data.js:78-80 | adding any `type` to the same `year` and data choice gives a subsequence, hence no more records |
| EliteData.FirstAtOrAfter | src/data.js:52-56 | the index returned is the first entry whose year is at least `year`, or the length if there is none |
| EliteData.Position | src/data.js:54 | `[year_xy.x, year_xy.y]`, the position `getPos` returns for one location entry (also at src/data.js:57 for entry 0); `EliteData.PosAt` states which entry |
| EliteData.PosAt | src/data.js:51-58 | `getPos` succeeds exactly when `year_location` is non-empty, and then returns the position of one of its entries |
| EliteData.GetPos | src/data.js:51-58 | the loop with early return yields the first entry with `year <= entry.year`, else entry 0, else the `TypeError` of an empty list |
| EliteData.PositionsAt | src/data.js:51-58 | mapping `getPos` over records succeeds iff every record has a location, and then gives `getPos` of each record in order |
| EliteData.PositionsOfSubsequence | src/data.js:51-58 | if `getPos` succeeds on every record of a list, it succeeds on every record of any subsequence of it |
| EliteData.FilteredPositions | src/2d-map.js:21-22 | the filtered records mapped through `getPos(year)`, as both `drawContour` and `Map1D` (src/index.js:254-266) compute them: `None` exactly when some filtered record has an empty `year_location` (the `TypeError` of `getPos`), otherwise one position per filtered record, each the `getPos` of that record |
| EliteData.FilteredPositionsNarrow | src/index.js:254-266 | when the positions of all records alive in a year exist, those of the records of any one type exist too and are no more numerous |
| Map2D.ScaleEnds | src/2d-map.js:29-34 | the scales map column 0 to MAP_LEFT, column `grid_size` to MAP_RIGHT, row 0 to MAP_DOWN and row `grid_size` to MAP_UP |
| Map2D.XScaleIncreasing | src/2d-map.js:29-31 | x strictly increases with the column |
| Map2D.YScaleDecreasing | src/2d-map.js:32-34 | y strictly decreases with the row, since MAP_DOWN > MAP_UP |
| Map2D.XScale | src/2d-map.js:29-31 | `xScale`, the linear map of `[0, grid_size]` onto `[MAP_LEFT, MAP_RIGHT]`; its properties are `Map2D.ScaleEnds` and `Map2D.XScaleIncreasing` |
| Map2D.YScale | src/2d-map.js:32-34 | `yScale`, the linear map of `[0, grid_size]` onto `[MAP_DOWN, MAP_UP]`; its properties are `Map2D.ScaleEnds` and `Map2D.YScaleDecreasing` |
| Map2D.GridPoint | src/2d-map.js:40-42 | the sample of row `i`, column `j`: x from the column, y from the row; `Map2D.SamplesInsideMap` places it inside the map |
| Map2D.SamplesInsideMap | src/2d-map.js:38-41 | every sample lies in `[MAP_LEFT, MAP_RIGHT) x (MAP_UP, MAP_DOWN]`; MAP_RIGHT and MAP_UP are never sampled |
| Map2D.GridIndex | src/2d-map.js:42 | slot `i * grid_size + j` of a cell of the grid is inside `Array(grid_size ** 2)` |
| Map2D.GridIndexInjective | src/2d-map.js:42 | distinct cells have distinct slots |
| Map2D.GridIndexRowOrder | src/2d-map.js:42 | every slot of an earlier row comes before every slot of a later row |
| Map2D.GridIndexCovers | src/2d-map.js:37-44 | every slot below `grid_size ** 2` is the slot of cell `(idx / grid_size, idx % grid_size)` |
| Map2D.SampleGrid | src/2d-map.js:37-44 | the filled array has `grid_size ** 2` entries, no holes, and slot `i * grid_size + j` holds `[xScale(j), yScale(i)]` |
| Map2D.ContourValues | src/2d-map.js:20-48 | the returned strategy is the GPU exactly when `use_gpu` is set, and `!use_gpu` picks the lite data; with either estimator slot `i * grid_size + j` holds the density at row `i`, column `j` over the filtered positions; `None` exactly when some `getPos` throws |
| Timeline.ComputeDurations | src/timeline.js:20-22 | the in-place loop pushes `start[i+1] - start[i]` onto every entry but the last and changes nothing else |
| Timeline.PassComplete | src/timeline.js:20-22 | a list that has the gap pushed onto every entry but the last, and the last entry unchanged, is the result of one pass |
| Timeline.Pushed | src/timeline.js:21 | entry `k` with `start[k+1] - start[k]` pushed onto it |
| Timeline.WithDurations | src/timeline.js:20-22 | the list one pass of the loop leaves behind, the reference for `Timeline.ComputeDurations` |
| Timeline.Drawn | src/timeline.js:32 | `slice(0, -1)` keeps every entry but the last, in order |
| Timeline.Duration | src/timeline.js:46 | `d[2]`, the first pushed element, `undefined` before any push (also read at src/timeline.js:37); `Timeline.DurationsAfterPass` and `Timeline.TooltipEnd` state its values |
| Timeline.TooltipEnd | src/timeline.js:46 | the end year `d[0] + d[2]` exists iff `d[2]` does, and exceeds the start by the duration |
| Timeline.DurationsAfterPass | src/timeline.js:20-22 | after one pass over fresh entries, entry `i < len-1` has `d[2] == start[i+1] - start[i]` and one pushed element; starts and names are unchanged |
| Timeline.LastEntryUntouched | src/timeline.js:20-32 | the last entry is not extended and is left out of the drawn data |
| Timeline.TooltipEndsAtNextStart | src/timeline.js:46 | the tooltip of every drawn entry ends at the next entry's start year |
| Timeline.AscendingGivesPositiveDurations | src/timeline.js:21 | strictly ascending start years give positive durations for every drawn entry |
| Timeline.WithDurationsCons | src/timeline.js:20-22 | the pass over a list of two or more entries is the head's push followed by the pass over the tail |
| Timeline.DurationsTelescope | src/timeline.js:20-22 | the drawn durations add up to the last start year minus the first |
| Timeline.EventsSpan1293 | src/globals.js:25-34 | for the dynasty list in `EVENTS` the drawn durations add up to 1293 years |
| Timeline.EventsAscending | src/globals.js:25-34 | `EVENTS` holds eight fresh entries with strictly ascending start years, from `YEAR_MIN` (618) to `YEAR_MAX` (1911) |
| Timeline.EventsDurationsPositive | src/timeline.js:20-32 | every dynasty of `EVENTS` that is drawn gets a positive duration |
| Timeline.SecondPassKeepsDurations | src/timeline.js:20-22 | a second pass pushes one more element onto each entry but the last, and keeps `d[2]`, the starts, the names and the last entry |
| Map1D.SelectKde1D | src/1d-map.js:27 | the GPU estimator is chosen exactly when `use_gpu` is `true`; `undefined` selects the CPU |
| Map1D.Rescale | src/1d-map.js:41 | the rescale keeps the length and every sample, and multiplies every density by `amp` |
| Map1D.MaxDensity | src/1d-map.js:32 | `d3.max` of the densities is defined iff the list is non-empty, is one of the densities and bounds all of them |
| Map1D.Map1d | src/1d-map.js:7-41 | `map1d` estimates with the selected strategy, takes the y-domain maximum from the estimate before the rescale, and draws the estimate rescaled by `amp` |
| Map1D.RescaleByOne | src/1d-map.js:41 | `amp = 1.0` leaves the density unchanged |
| Map1D.RescaledCurveFitsDomain | src/1d-map.js:32-41 | with `0 <= amp <= 1` a nonnegative curve rescaled after its maximum was taken stays between 0 and that maximum |
| Map1D.RescaleShrinks | src/1d-map.js:41 | with `0 <= amp <= 1` a rescaled nonnegative density lies between 0 and its original value |
| Map1D.ScaleDown | src/1d-map.js:41 | a factor in `[0, 1]` shrinks a nonnegative value |
| Map1D.Map1dCurveFitsDomain | src/1d-map.js:28-41 | the curve drawn for an `amp` in `[0, 1]` fits under the y-domain of the estimate |
| Map1D.SevenArgumentsUseCpu | src/1d-map.js:7-27 | leaving `use_gpu` off the call selects `kde_1d_cpu` |
| App.FitRoot | src/index.js:494-503 | the fitted root is 3:2 (`root_w == 1.5 * root_h`), fits in the window, and fills the width on a narrow window and the height otherwise |
| App.FitRootIsLargest | src/index.js:494-503 | no 3:2 box that fits in the window is wider or taller than the fitted root |
| App.Padding | src/index.js:507 | the padding is `root_h * 0.03` vertically and `root_w * 0.03` horizontally; on a 3:2 root the horizontal padding is 1.5 times the vertical one; each is nonnegative exactly when its side is |
| App.PaddingKeepsRatio | src/index.js:505-507 | padding proportional to each side keeps both the inner and the outer box at 3:2 |
| App.InitialState | src/index.js:509-521 | the initial state holds the fitted size, starts on the CPU and selects a year in `[YEAR_MIN, YEAR_MAX]` |
| App.ToggleCpuGpu | src/index.js:552-559 | the toggle flips `use_gpu` and changes nothing else in the state |
| App.ToggleTwiceRestores | src/index.js:552-559 | two toggles restore the state |
| App.Map1DBandwidth | src/index.js:251 | the 1-D bandwidth is `kernelWidth * 0.51`, positive and below the kernel width for a positive kernel width |
| App.Proportion | src/index.js:268 | `data_select.length / data_all.length` is a number iff `data_all` is non-empty, and then times `data_all.length` gives `data_select.length` |
| App.ProportionInUnitInterval | src/index.js:268 | a part of a non-empty whole has a proportion in `[0, 1]` |
| App.Map1DView | src/index.js:251-269 | `Map1D` fails exactly when `getPos` throws on a record of the unselected list; otherwise the selected list yields positions too and is no longer than the full one, both curves are CPU estimates with bandwidth `kernelWidth * 0.51`, the full curve is unscaled, and the selected curve is rescaled by a proportion in `[0, 1]`; the y-domain maxima come from the unscaled estimates |

## Left out

- Drawing is not modelled. This covers d3 selections, SVG, `d3.contours`, `geoPath`, axes, colour scales, `drawChinaMap`, `drawScatter`, `drawArrow`, `drawPeopleAlive`, the remaining lines of `drawBigEvents`, the buttons, `generateArrow`, and the text of the tooltips. It is rendering through a library that is not part of this model.
- React lifecycles, `setState` merging beyond the toggle, the `console.log` that `handleToggleCPUGPU` writes (src/index.js:554), jQuery sizing, the font size and `window` reads are not modelled: they are UI and I/O. The window size is a parameter of `App.FitRoot`.
- gpu.js kernel creation, the textual kernels, thread dispatch and `loopMaxIterations: ELITE_AMOUNT_MAX` are not modelled; they are a foreign parallel substrate. Only the per-thread body is modelled, as a function of the thread index. The bound itself is `Globals.ELITE_AMOUNT_MAX`. A GPU loop over more than 80000 observations, which such a bound would cut short, is not modelled.
- Kde1D.Gauss1D, Kde2D.Gauss2D: `Math.exp` is a parameter that is only known to be positive, and arithmetic is exact. IEEE rounding, overflow and underflow to 0 are not modelled, so nothing is claimed about decay or tolerance.
- Kde1D.Kde1dCpu, Kde2D.Kde2dCpu, Kde1D.Kde1dGpu, Kde2D.Kde2dGpu: require a positive bandwidth. In JavaScript a zero bandwidth gives `NaN` or 0 terms. The slider keeps the kernel width in `[0.1, 2]` (src/index.js:206-213).
- Projection.Projected1DPos: requires a nonzero radius. A zero radius divides by zero in JavaScript (`NaN`). The slider keeps the arrow length in `[1, 20]` (src/index.js:222-229). `Math.cos` and `Math.sin` are arbitrary parameters, and `Math.PI` is the rational `Globals.PI`.
- The coordinate revision `__getRotateThenResizeThenMoveFunction` applied while `ELITE_DATA` is built (src/data.js:21-49) is not modelled. Records enter the model with their positions already revised. The shallow copy at src/data.js:47 also changes the shared `year_location` objects; that aliasing is not modelled.
- Loading `elite.json` and `china-map.json` is not modelled. The records are a parameter whose `type` field is taken to be a string; `includes` is substring search on code points.
- `x.ticks(1000)` and `.nice()` of d3 scales are not modelled. The sample sequences are parameters. The x-domain `[-arrowLength, arrowLength]` that `Map1D` passes to `map1d` (src/index.js:259 and 269) only feeds the x scale and its ticks, so it is not modelled either. `xScale` and `yScale` of the contour grid are written out as the linear maps they are.
- String-to-number coercion of slider values is not modelled. All inputs are numbers already.
- EventEntry arrays: an `EVENTS` entry is a value (start, name, pushed elements), and the loop writes the updated entry back into the array. The sharing of the module-global array between calls is not modelled. `Timeline.SecondPassKeepsDurations` describes what a second call of `drawBigEvents` would do; the program never makes one, since `BigEvents` re-renders only when `appSize.H` changes (src/index.js:390-392) and `app_size` is set once, in the `App` constructor.
- App.Map1DView: a `NaN` proportion (no records at all) is modelled as no selected curve. JavaScript would draw a path of `NaN`s.
- App.Proportion: a positive count over 0, `Infinity` in JavaScript, is `None` like `0 / 0`. `Map1D` never divides that way, since its selected records are a filter of all records (src/index.js:254-266).
