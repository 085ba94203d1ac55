/**
 * The one-dimensional kernel density estimator of `src/globals.js`:
 * `__gauss_1d`, `kde_1d_cpu` and the per-thread body of `kde_1d_gpu`.
 */
module Kde1D {
  import opened Numeric

  /** One output entry `[sample, density]`. */
  datatype Pair = Pair(sample: real, density: real)

  /** `__gauss_1d(sigma, x, mu)`: an unnormalised Gaussian term. */
  function Gauss1D(exp: PositiveFn, sigma: real, x: real, mu: real): (r: real)
    requires sigma > 0.0
    ensures r > 0.0
  {
    // `Math.pow(v, 2)` is written `v * v`
    exp(-((x - mu) * (x - mu)) / (2.0 * (sigma * sigma)))
  }

  /** The kernel only sees the squared distance, so its two arguments commute. */
  lemma Gauss1DSymmetric(exp: PositiveFn, sigma: real, x: real, mu: real)
    requires sigma > 0.0
    ensures Gauss1D(exp, sigma, x, mu) == Gauss1D(exp, sigma, mu, x)
  {
    assert (x - mu) * (x - mu) == (mu - x) * (mu - x);
  }

  /**
   * The density at `x`: the sum of `Gauss1D(sigma, x, points[j])` over every `j`,
   * added in index order as the inner loops add them.
   */
  function Density1D(exp: PositiveFn, sigma: real, x: real, points: seq<real>): (r: real)
    requires sigma > 0.0
    ensures r >= 0.0
    ensures |points| > 0 ==> r > 0.0
    decreases |points|
  {
    if |points| == 0 then 0.0
    else Density1D(exp, sigma, x, points[..|points| - 1]) + Gauss1D(exp, sigma, x, points[|points| - 1])
  }

  /** The reference output: one pair per sample, in sample order. */
  function Profile1D(exp: PositiveFn, sigma: real, samples: seq<real>, points: seq<real>): seq<Pair>
    requires sigma > 0.0
  {
    seq(|samples|, i requires 0 <= i < |samples| => Pair(samples[i], Density1D(exp, sigma, samples[i], points)))
  }

  /** `kde_1d_cpu`: samples outer, observations inner, accumulating into `density[i][1]`. */
  method Kde1dCpu(exp: PositiveFn, bandwidth: real, gridSamples: seq<real>, points: seq<real>)
    returns (result: seq<Pair>)
    requires bandwidth > 0.0
    ensures result == Profile1D(exp, bandwidth, gridSamples, points)
  {
    var n := |gridSamples|;
    var density := new Pair[n](i requires 0 <= i < n => Pair(gridSamples[i], 0.0));
    for i := 0 to n
      invariant forall k :: 0 <= k < i ==> density[k] == Pair(gridSamples[k], Density1D(exp, bandwidth, gridSamples[k], points))
      invariant forall k :: i <= k < n ==> density[k] == Pair(gridSamples[k], 0.0)
    {
      ghost var before := density[..];
      var x := gridSamples[i];
      for j := 0 to |points|
        invariant density[i] == Pair(x, Density1D(exp, bandwidth, x, points[..j]))
        invariant forall k :: 0 <= k < n && k != i ==> density[k] == before[k]
      {
        Density1DStep(exp, bandwidth, x, points, j);
        // `kde_1d_cpu` inlines the `__gauss_1d` expression
        density[i] := Pair(x, density[i].density + Gauss1D(exp, bandwidth, x, points[j]));
      }
      assert points[..|points|] == points;
    }
    result := density[..];
    assert forall k :: 0 <= k < n ==> result[k] == Profile1D(exp, bandwidth, gridSamples, points)[k];
  }

  /** One more observation adds its kernel term to the partial density. */
  lemma Density1DStep(exp: PositiveFn, sigma: real, x: real, points: seq<real>, j: nat)
    requires sigma > 0.0 && j < |points|
    ensures Density1D(exp, sigma, x, points[..j + 1]) == Density1D(exp, sigma, x, points[..j]) + Gauss1D(exp, sigma, x, points[j])
  {
    assert points[..j + 1][..j] == points[..j];
  }

  /**
   * The loop inside one GPU thread: `sum` after the observations `j..nPoints` are added.
   * gpu.js caps the loop at `loopMaxIterations: Globals.ELITE_AMOUNT_MAX`; this loop has no cap.
   */
  function ThreadLoop1D(exp: PositiveFn, sigma: real, x: real, data: seq<real>, nPoints: nat, j: nat, sum: real): real
    requires sigma > 0.0 && nPoints <= |data| && j <= nPoints
    decreases nPoints - j
  {
    if j < nPoints then
      ThreadLoop1D(exp, sigma, x, data, nPoints, j + 1, sum + Gauss1D(exp, sigma, x, data[j]))
    else sum
  }

  /** Started on the partial density of the first `j` observations, the thread loop ends on the full density. */
  lemma {:induction false} ThreadLoop1DSum(exp: PositiveFn, sigma: real, x: real, data: seq<real>, nPoints: nat, j: nat)
    requires sigma > 0.0 && nPoints <= |data| && j <= nPoints
    ensures ThreadLoop1D(exp, sigma, x, data, nPoints, j, Density1D(exp, sigma, x, data[..j]))
         == Density1D(exp, sigma, x, data[..nPoints])
    decreases nPoints - j
  {
    if j < nPoints {
      assert data[..j + 1][..j] == data[..j];
      ThreadLoop1DSum(exp, sigma, x, data, nPoints, j + 1);
    }
  }

  /** The body of the `kde_1d_gpu` kernel for thread `thread`: `[samples[x], sum]`. */
  function Kde1dThread(exp: PositiveFn, samples: seq<real>, data: seq<real>, nPoints: nat, sigma: real, thread: nat): (r: Pair)
    requires sigma > 0.0 && thread < |samples| && nPoints <= |data|
    ensures r == Pair(samples[thread], Density1D(exp, sigma, samples[thread], data[..nPoints]))
  {
    ThreadLoop1DSum(exp, sigma, samples[thread], data, nPoints, 0);
    Pair(samples[thread], ThreadLoop1D(exp, sigma, samples[thread], data, nPoints, 0, 0.0))
  }

  /** `kde_1d_gpu`: the thread body mapped over the sample indices, with `nPoints = points.length`. */
  function Kde1dGpu(exp: PositiveFn, bandwidth: real, gridSamples: seq<real>, points: seq<real>): (r: seq<Pair>)
    requires bandwidth > 0.0
    ensures r == Profile1D(exp, bandwidth, gridSamples, points)
  {
    assert points[..|points|] == points;
    seq(|gridSamples|, x requires 0 <= x < |gridSamples| => Kde1dThread(exp, gridSamples, points, |points|, bandwidth, x))
  }

  /** Running on `points1 + points2` adds the densities of the two parts. */
  lemma {:induction false} Density1DAppend(exp: PositiveFn, sigma: real, x: real, points1: seq<real>, points2: seq<real>)
    requires sigma > 0.0
    ensures Density1D(exp, sigma, x, points1 + points2)
         == Density1D(exp, sigma, x, points1) + Density1D(exp, sigma, x, points2)
    decreases |points2|
  {
    if |points2| == 0 {
      assert points1 + points2 == points1;
    } else {
      var last := |points2| - 1;
      assert (points1 + points2)[..|points1 + points2| - 1] == points1 + points2[..last];
      Density1DAppend(exp, sigma, x, points1, points2[..last]);
    }
  }

  /** Superposition of the whole output: same samples, elementwise sum of the densities. */
  lemma Profile1DSuperposition(exp: PositiveFn, sigma: real, samples: seq<real>, points1: seq<real>, points2: seq<real>)
    requires sigma > 0.0
    ensures |Profile1D(exp, sigma, samples, points1 + points2)| == |samples|
    ensures forall i :: 0 <= i < |samples| ==>
      Profile1D(exp, sigma, samples, points1 + points2)[i].sample == samples[i] &&
      Profile1D(exp, sigma, samples, points1 + points2)[i].density
        == Profile1D(exp, sigma, samples, points1)[i].density + Profile1D(exp, sigma, samples, points2)[i].density
  {
    forall i | 0 <= i < |samples| {
      Density1DAppend(exp, sigma, samples[i], points1, points2);
    }
  }

  /** Empty observations give an all-zero profile; empty samples give an empty one. Every density is >= 0. */
  lemma Profile1DShape(exp: PositiveFn, sigma: real, samples: seq<real>, points: seq<real>)
    requires sigma > 0.0
    ensures |Profile1D(exp, sigma, samples, points)| == |samples|
    ensures forall i :: 0 <= i < |samples| ==> Profile1D(exp, sigma, samples, points)[i].density >= 0.0
    ensures points == [] ==> Profile1D(exp, sigma, samples, points) == seq(|samples|, i requires 0 <= i < |samples| => Pair(samples[i], 0.0))
    ensures samples == [] ==> Profile1D(exp, sigma, samples, points) == []
  {
  }

  /** The worked scenario: bandwidth 1, samples [-1, 0, 1], two observations at 0. */
  lemma Profile1DTwoAtZero(exp: PositiveFn)
    ensures Profile1D(exp, 1.0, [-1.0, 0.0, 1.0], [0.0, 0.0])
         == [Pair(-1.0, 2.0 * exp(-0.5)), Pair(0.0, 2.0 * exp(0.0)), Pair(1.0, 2.0 * exp(-0.5))]
  {
    var pts := [0.0, 0.0];
    assert pts[..1] == [0.0];
    assert [0.0][..0] == [];
    assert Gauss1D(exp, 1.0, -1.0, 0.0) == exp(-0.5);
    assert Gauss1D(exp, 1.0, 1.0, 0.0) == exp(-0.5);
    assert Gauss1D(exp, 1.0, 0.0, 0.0) == exp(0.0);
    assert Density1D(exp, 1.0, -1.0, pts) == 2.0 * exp(-0.5);
    assert Density1D(exp, 1.0, 0.0, pts) == 2.0 * exp(0.0);
    assert Density1D(exp, 1.0, 1.0, pts) == 2.0 * exp(-0.5);
  }
}
