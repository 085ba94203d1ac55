/**
 * The arithmetic of the React components in `src/index.js`: the 3:2 fit of `#root` in the
 * window, the CPU/GPU toggle, and what `Map1D` computes before it draws.
 */
module App {
  import opened Wrappers
  import opened Numeric
  import opened Globals
  import opened Kde1D
  import opened EliteData
  import opened Projection
  import opened Map1D

  //---------------------------------------------------------------------------
  // App constructor: fitting #root into the window
  //---------------------------------------------------------------------------

  /** The fitted width and height of `#root`, in pixels. */
  datatype RootSize = RootSize(w: real, h: real)

  const PADDING_RATIO: real := 0.03

  /**
   * The root size for a window of height `H` and width `W`: 3:2, filling the window's
   * width when it is the narrower side and its height otherwise.
   */
  function FitRoot(H: real, W: real): (r: RootSize)
    ensures r.w == 1.5 * r.h
    ensures r.w <= W && r.h <= H
    ensures H * 1.5 > W ==> r.w == W
    ensures H * 1.5 <= W ==> r.h == H
  {
    if H * 1.5 > W then RootSize(W, W / 1.5) else RootSize(H * 1.5, H)
  }

  /** No 3:2 box that fits in the window is larger than the fitted one. */
  lemma FitRootIsLargest(H: real, W: real, w: real, h: real)
    requires w == 1.5 * h && w <= W && h <= H
    ensures w <= FitRoot(H, W).w && h <= FitRoot(H, W).h
  {
  }

  /** The padding of `#root`: `root_h * 0.03` above and below, `root_w * 0.03` left and right. */
  function Padding(r: RootSize): (p: (real, real))
    ensures p == (r.h * PADDING_RATIO, r.w * PADDING_RATIO)
    ensures r.w == 1.5 * r.h ==> p.1 == 1.5 * p.0
    ensures p.0 >= 0.0 <==> r.h >= 0.0
    ensures p.1 >= 0.0 <==> r.w >= 0.0
  {
    (r.h * PADDING_RATIO, r.w * PADDING_RATIO)
  }

  /**
   * Padding proportional to each side keeps the 3:2 ratio, both for the box inside the
   * padding and for the box around it.
   */
  lemma PaddingKeepsRatio(H: real, W: real)
    ensures var r := FitRoot(H, W);
      var p := Padding(r);
      r.w - 2.0 * p.1 == 1.5 * (r.h - 2.0 * p.0) && r.w + 2.0 * p.1 == 1.5 * (r.h + 2.0 * p.0)
  {
  }

  /** The part of the `App` state named in its constructor. */
  datatype AppState = AppState(
    yearSelected: int, kernelWidth: real, arrowLength: real, arrowAngle: real,
    eliteType: string, appSize: RootSize, useGpu: bool)

  /** The state the constructor sets up for a window of height `H` and width `W`. */
  function InitialState(H: real, W: real): (s: AppState)
    ensures s.appSize == FitRoot(H, W)
    ensures !s.useGpu
    ensures YEAR_MIN <= s.yearSelected <= YEAR_MAX
  {
    AppState(DEFAULT_YEAR_SELECTED, DEFAULT_KERNEL_WIDTH, DEFAULT_ARROW_LENGTH, DEFAULT_ARROW_ANGLE,
             DEFAULT_ELITE_TYPE, FitRoot(H, W), DEFAULT_USE_GPU)
  }

  //---------------------------------------------------------------------------
  // handleToggleCPUGPU
  //---------------------------------------------------------------------------

  /** `setState(prev => ({use_gpu: !prev.use_gpu}))`: only `use_gpu` changes, and it flips. */
  function ToggleCpuGpu(s: AppState): (t: AppState)
    ensures t.useGpu != s.useGpu
    ensures t.(useGpu := s.useGpu) == s
  {
    s.(useGpu := !s.useGpu)
  }

  /** Two toggles restore the state. */
  lemma ToggleTwiceRestores(s: AppState)
    ensures ToggleCpuGpu(ToggleCpuGpu(s)) == s
  {
  }

  //---------------------------------------------------------------------------
  // Map1D.componentDidMount, up to the two map1d calls
  //---------------------------------------------------------------------------

  /** The bandwidth `Map1D` hands to `map1d`: the kernel width scaled by 0.51. */
  function Map1DBandwidth(kernelWidth: real): (b: real)
    ensures kernelWidth > 0.0 ==> 0.0 < b < kernelWidth
    ensures b == kernelWidth * 0.51
  {
    kernelWidth * 0.51
  }

  /**
   * `data_select.length / data_all.length`; `0 / 0` is `NaN` (`None`). A positive count over 0
   * would be `Infinity` in JavaScript and is `None` here too; `Map1D` never divides that way,
   * since the selected records are a filter of all of them.
   */
  function Proportion(nSelected: nat, nAll: nat): (p: Option<real>)
    ensures p.Some? <==> nAll > 0
    ensures p.Some? ==> p.value * (nAll as real) == nSelected as real
  {
    if nAll == 0 then None else Some((nSelected as real) / (nAll as real))
  }

  /** A part of a non-empty whole has a proportion between 0 and 1. */
  lemma ProportionInUnitInterval(nSelected: nat, nAll: nat)
    requires nSelected <= nAll && nAll > 0
    ensures 0.0 <= Proportion(nSelected, nAll).value <= 1.0
  {
  }

  /**
   * What `Map1D` hands to its two `map1d` calls and what they compute. `selected` is `None`
   * where the proportion is `NaN`.
   */
  datatype View1D = View1D(all: Plot1D, selected: Option<Plot1D>, proportion: Option<real>,
                           dataAll: seq<real>, dataSelected: seq<real>)

  /**
   * `Map1D.componentDidMount` without the drawing: both curves project the positions onto
   * the arrow, use the bandwidth `kernelWidth * 0.51` and are estimated on the CPU, since
   * `use_gpu` is not passed. The curve of all records is not rescaled; the selected curve
   * is rescaled by the proportion, which lies in `[0, 1]`. `None` when `getPos` throws.
   */
  method Map1DView(exp: PositiveFn, cos: real -> real, sin: real -> real, eliteData: seq<Elite>,
                   year: int, eliteType: Option<string>, kernelWidth: real, arrowLength: real,
                   arrowAngle: real, useGpu: bool, samples: seq<real>)
    returns (view: Option<View1D>)
    requires kernelWidth > 0.0 && arrowLength != 0.0
    ensures view.Some? <==> FilteredPositions(eliteData, None, year, !useGpu).Some?
    ensures view.Some? ==>
      var v := view.value;
      var bandwidth := Map1DBandwidth(kernelWidth);
      v.dataAll == Projected1DPos(cos, sin, FilteredPositions(eliteData, None, year, !useGpu).value, arrowLength, arrowAngle) &&
      FilteredPositions(eliteData, eliteType, year, !useGpu).Some? &&
      v.dataSelected == Projected1DPos(cos, sin, FilteredPositions(eliteData, eliteType, year, !useGpu).value, arrowLength, arrowAngle) &&
      |v.dataSelected| <= |v.dataAll| &&
      v.all.strategy == Cpu &&
      v.all.curve == Profile1D(exp, bandwidth, samples, v.dataAll) &&
      v.all.yDomainMax == MaxDensity(Profile1D(exp, bandwidth, samples, v.dataAll)) &&
      v.proportion == Proportion(|v.dataSelected|, |v.dataAll|) &&
      (v.proportion.Some? ==> 0.0 <= v.proportion.value <= 1.0) &&
      (v.selected.Some? <==> v.proportion.Some?) &&
      (v.selected.Some? ==>
        v.selected.value.strategy == Cpu &&
        v.selected.value.yDomainMax == MaxDensity(Profile1D(exp, bandwidth, samples, v.dataSelected)) &&
        v.selected.value.curve == Rescale(Profile1D(exp, bandwidth, samples, v.dataSelected), v.proportion.value))
  {
    var bandwidth := Map1DBandwidth(kernelWidth);
    var allPos2d := FilteredPositions(eliteData, None, year, !useGpu);
    if allPos2d.None? {
      return None;
    }
    var dataAll := Projected1DPos(cos, sin, allPos2d.value, arrowLength, arrowAngle);
    var plotAll := Map1d(exp, bandwidth, dataAll, samples, 1.0, None);
    RescaleByOne(Profile1D(exp, bandwidth, samples, dataAll));

    FilteredPositionsNarrow(eliteData, eliteType, year, !useGpu);
    var selectedPos2d := FilteredPositions(eliteData, eliteType, year, !useGpu);
    var dataSelected := Projected1DPos(cos, sin, selectedPos2d.value, arrowLength, arrowAngle);

    var proportion := Proportion(|dataSelected|, |dataAll|);
    var plotSelected := None;
    if proportion.Some? {
      ProportionInUnitInterval(|dataSelected|, |dataAll|);
      var plot := Map1d(exp, bandwidth, dataSelected, samples, proportion.value, None);
      plotSelected := Some(plot);
    }
    view := Some(View1D(plotAll, plotSelected, proportion, dataAll, dataSelected));
  }
}
