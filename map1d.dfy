/**
 * The numeric part of `map1d` in `src/1d-map.js`: choosing the estimator, the y-domain
 * maximum and the vertical rescale by `amp`. Drawing is not part of this model.
 */
module Map1D {
  import opened Wrappers
  import opened Numeric
  import opened Kde1D

  /**
   * `use_gpu ? kde_1d_gpu : kde_1d_cpu`. An argument left off the call is `undefined`
   * (`None`), which is falsy.
   */
  function SelectKde1D(useGpu: Option<bool>): (s: Strategy)
    ensures s == Gpu <==> useGpu == Some(true)
  {
    match useGpu
    case Some(true) => Gpu
    case _ => Cpu
  }

  /** `density.map(([x, y]) => [x, amp * y])`. */
  function Rescale(density: seq<Pair>, amp: real): (r: seq<Pair>)
    ensures |r| == |density|
    ensures forall i :: 0 <= i < |r| ==> r[i].sample == density[i].sample
    ensures forall i :: 0 <= i < |r| ==> r[i].density == amp * density[i].density
  {
    seq(|density|, i requires 0 <= i < |density| => Pair(density[i].sample, amp * density[i].density))
  }

  /** `d3.max(density, d => d[1])`: `undefined` (`None`) for an empty list. */
  function MaxDensity(density: seq<Pair>): (m: Option<real>)
    ensures m.Some? <==> |density| > 0
    ensures m.Some? ==> exists i :: 0 <= i < |density| && density[i].density == m.value
    ensures m.Some? ==> forall i :: 0 <= i < |density| ==> density[i].density <= m.value
  {
    if |density| == 0 then None
    else
      var rest := MaxDensity(density[1..]);
      if rest.None? || density[0].density >= rest.value then Some(density[0].density)
      else
        assert forall i :: 1 <= i < |density| ==> density[i] == density[1..][i - 1];
        rest
  }

  /** What `map1d` hands to the drawing: the y-domain maximum and the rescaled curve. */
  datatype Plot1D = Plot1D(strategy: Strategy, yDomainMax: Option<real>, curve: seq<Pair>)

  /**
   * `map1d` without the drawing. The y-domain maximum comes from the density as estimated,
   * before the rescale; the curve is the estimate with every density multiplied by `amp`.
   */
  method Map1d(exp: PositiveFn, bandwidth: real, data: seq<real>, samples: seq<real>, amp: real, useGpu: Option<bool>)
    returns (plot: Plot1D)
    requires bandwidth > 0.0
    ensures plot.strategy == SelectKde1D(useGpu)
    ensures plot.yDomainMax == MaxDensity(Profile1D(exp, bandwidth, samples, data))
    ensures plot.curve == Rescale(Profile1D(exp, bandwidth, samples, data), amp)
  {
    var strategy := SelectKde1D(useGpu);
    var density;
    if strategy == Gpu {
      density := Kde1dGpu(exp, bandwidth, samples, data);
    } else {
      density := Kde1dCpu(exp, bandwidth, samples, data);
    }
    var yMax := MaxDensity(density);
    density := Rescale(density, amp);
    plot := Plot1D(strategy, yMax, density);
  }

  /** `amp = 1.0` leaves the density as it was. */
  lemma RescaleByOne(density: seq<Pair>)
    ensures Rescale(density, 1.0) == density
  {
  }

  /**
   * With `0 <= amp <= 1`, as for a proportion, a rescaled curve of nonnegative densities
   * stays between 0 and the maximum taken before the rescale.
   */
  lemma RescaledCurveFitsDomain(density: seq<Pair>, amp: real)
    requires 0.0 <= amp <= 1.0 && |density| > 0
    requires forall i :: 0 <= i < |density| ==> density[i].density >= 0.0
    ensures MaxDensity(density).Some?
    ensures forall i :: 0 <= i < |density| ==>
      0.0 <= Rescale(density, amp)[i].density <= MaxDensity(density).value
  {
    var m := MaxDensity(density).value;
    forall i | 0 <= i < |density|
      ensures 0.0 <= Rescale(density, amp)[i].density <= m
    {
      RescaleShrinks(density, amp, i);
    }
  }

  lemma RescaleShrinks(density: seq<Pair>, amp: real, i: int)
    requires 0 <= i < |density|
    requires 0.0 <= amp <= 1.0 && 0.0 <= density[i].density
    ensures 0.0 <= Rescale(density, amp)[i].density <= density[i].density
  {
    var y := density[i].density;
    var z := Rescale(density, amp)[i].density;
    assert z == amp * y;
    ScaleDown(amp, y);
  }

  lemma ScaleDown(amp: real, y: real)
    requires 0.0 <= amp <= 1.0 && 0.0 <= y
    ensures 0.0 <= amp * y <= y
  {
    assert y - amp * y == (1.0 - amp) * y;
  }

  /** The curve `map1d` draws for a proportion `amp` fits under its own y-domain maximum. */
  lemma Map1dCurveFitsDomain(exp: PositiveFn, bandwidth: real, data: seq<real>, samples: seq<real>, amp: real)
    requires bandwidth > 0.0 && 0.0 <= amp <= 1.0 && |samples| > 0
    ensures MaxDensity(Profile1D(exp, bandwidth, samples, data)).Some?
    ensures forall i :: 0 <= i < |samples| ==>
      0.0 <= Rescale(Profile1D(exp, bandwidth, samples, data), amp)[i].density
          <= MaxDensity(Profile1D(exp, bandwidth, samples, data)).value
  {
    Profile1DShape(exp, bandwidth, samples, data);
    RescaledCurveFitsDomain(Profile1D(exp, bandwidth, samples, data), amp);
  }

  /** `map1d` called with seven arguments, as `Map1D` does, estimates on the CPU. */
  lemma SevenArgumentsUseCpu()
    ensures SelectKde1D(None) == Cpu
  {
  }
}
