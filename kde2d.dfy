/**
 * The two-dimensional kernel density estimator of `src/globals.js`:
 * `__gauss_2d`, `kde_2d_cpu` and the per-thread body of `kde_2d_gpu`.
 */
module Kde2D {
  import opened Numeric

  /** `__gauss_2d(sigma, vec1, vec2)`: an unnormalised isotropic Gaussian term. */
  function Gauss2D(exp: PositiveFn, sigma: real, vec1: Vec2, vec2: Vec2): (r: real)
    requires sigma > 0.0
    ensures r > 0.0
  {
    exp(-((vec1.x - vec2.x) * (vec1.x - vec2.x) + (vec1.y - vec2.y) * (vec1.y - vec2.y)) / (2.0 * (sigma * sigma)))
  }

  /** The kernel only sees the squared distance, so its two arguments commute. */
  lemma Gauss2DSymmetric(exp: PositiveFn, sigma: real, vec1: Vec2, vec2: Vec2)
    requires sigma > 0.0
    ensures Gauss2D(exp, sigma, vec1, vec2) == Gauss2D(exp, sigma, vec2, vec1)
  {
    assert (vec1.x - vec2.x) * (vec1.x - vec2.x) == (vec2.x - vec1.x) * (vec2.x - vec1.x);
    assert (vec1.y - vec2.y) * (vec1.y - vec2.y) == (vec2.y - vec1.y) * (vec2.y - vec1.y);
  }

  /** The value at sample `s`: the sum of `Gauss2D(sigma, s, points[j])` over every `j`, in index order. */
  function Density2D(exp: PositiveFn, sigma: real, s: Vec2, points: seq<Vec2>): (r: real)
    requires sigma > 0.0
    ensures r >= 0.0
    ensures |points| > 0 ==> r > 0.0
    decreases |points|
  {
    if |points| == 0 then 0.0
    else Density2D(exp, sigma, s, points[..|points| - 1]) + Gauss2D(exp, sigma, s, points[|points| - 1])
  }

  /** The reference output: one value per sample, in sample order. */
  function Field2D(exp: PositiveFn, sigma: real, samples: seq<Vec2>, points: seq<Vec2>): seq<real>
    requires sigma > 0.0
  {
    seq(|samples|, i requires 0 <= i < |samples| => Density2D(exp, sigma, samples[i], points))
  }

  /** `kde_2d_cpu`: `values` starts as `fill(0)`, then samples outer, observations inner. */
  method Kde2dCpu(exp: PositiveFn, kernelWidth: real, samples: seq<Vec2>, points: seq<Vec2>)
    returns (result: seq<real>)
    requires kernelWidth > 0.0
    ensures result == Field2D(exp, kernelWidth, samples, points)
  {
    var n := |samples|;
    var values := new real[n](_ => 0.0);
    for i := 0 to n
      invariant forall k :: 0 <= k < i ==> values[k] == Density2D(exp, kernelWidth, samples[k], points)
      invariant forall k :: i <= k < n ==> values[k] == 0.0
    {
      ghost var before := values[..];
      for j := 0 to |points|
        invariant values[i] == Density2D(exp, kernelWidth, samples[i], points[..j])
        invariant forall k :: 0 <= k < n && k != i ==> values[k] == before[k]
      {
        Density2DStep(exp, kernelWidth, samples[i], points, j);
        values[i] := values[i] + Gauss2D(exp, kernelWidth, samples[i], points[j]);
      }
      assert points[..|points|] == points;
    }
    result := values[..];
    assert forall k :: 0 <= k < n ==> result[k] == Field2D(exp, kernelWidth, samples, points)[k];
  }

  /** One more observation adds its kernel term to the partial density. */
  lemma Density2DStep(exp: PositiveFn, sigma: real, s: Vec2, points: seq<Vec2>, j: nat)
    requires sigma > 0.0 && j < |points|
    ensures Density2D(exp, sigma, s, points[..j + 1]) == Density2D(exp, sigma, s, points[..j]) + Gauss2D(exp, sigma, s, points[j])
  {
    assert points[..j + 1][..j] == points[..j];
  }

  /**
   * The loop inside one GPU thread: `sum` after the observations `j..nPoints` are added.
   * gpu.js caps the loop at `loopMaxIterations: Globals.ELITE_AMOUNT_MAX`; this loop has no cap.
   */
  function ThreadLoop2D(exp: PositiveFn, sigma: real, s: Vec2, points: seq<Vec2>, nPoints: nat, j: nat, sum: real): real
    requires sigma > 0.0 && nPoints <= |points| && j <= nPoints
    decreases nPoints - j
  {
    if j < nPoints then
      // the kernel inlines the `__gauss_2d` expression on the destructured `[vec2x, vec2y]`
      ThreadLoop2D(exp, sigma, s, points, nPoints, j + 1, sum + Gauss2D(exp, sigma, s, points[j]))
    else sum
  }

  /** Started on the partial value of the first `j` observations, the thread loop ends on the full value. */
  lemma {:induction false} ThreadLoop2DSum(exp: PositiveFn, sigma: real, s: Vec2, points: seq<Vec2>, nPoints: nat, j: nat)
    requires sigma > 0.0 && nPoints <= |points| && j <= nPoints
    ensures ThreadLoop2D(exp, sigma, s, points, nPoints, j, Density2D(exp, sigma, s, points[..j]))
         == Density2D(exp, sigma, s, points[..nPoints])
    decreases nPoints - j
  {
    if j < nPoints {
      assert points[..j + 1][..j] == points[..j];
      ThreadLoop2DSum(exp, sigma, s, points, nPoints, j + 1);
    }
  }

  /** The body of the `kde_2d_gpu` kernel for thread `thread`: the bare sum. */
  function Kde2dThread(exp: PositiveFn, samples: seq<Vec2>, points: seq<Vec2>, nPoints: nat, sigma: real, thread: nat): (r: real)
    requires sigma > 0.0 && thread < |samples| && nPoints <= |points|
    ensures r == Density2D(exp, sigma, samples[thread], points[..nPoints])
  {
    ThreadLoop2DSum(exp, sigma, samples[thread], points, nPoints, 0);
    ThreadLoop2D(exp, sigma, samples[thread], points, nPoints, 0, 0.0)
  }

  /** `kde_2d_gpu`: the thread body mapped over the sample indices, with `nPoints = points.length`. */
  function Kde2dGpu(exp: PositiveFn, kernelWidth: real, samples: seq<Vec2>, points: seq<Vec2>): (r: seq<real>)
    requires kernelWidth > 0.0
    ensures r == Field2D(exp, kernelWidth, samples, points)
  {
    assert points[..|points|] == points;
    seq(|samples|, x requires 0 <= x < |samples| => Kde2dThread(exp, samples, points, |points|, kernelWidth, x))
  }

  /** Running on `points1 + points2` adds the values of the two parts. */
  lemma {:induction false} Density2DAppend(exp: PositiveFn, sigma: real, s: Vec2, points1: seq<Vec2>, points2: seq<Vec2>)
    requires sigma > 0.0
    ensures Density2D(exp, sigma, s, points1 + points2)
         == Density2D(exp, sigma, s, points1) + Density2D(exp, sigma, s, points2)
    decreases |points2|
  {
    if |points2| == 0 {
      assert points1 + points2 == points1;
    } else {
      var last := |points2| - 1;
      assert (points1 + points2)[..|points1 + points2| - 1] == points1 + points2[..last];
      Density2DAppend(exp, sigma, s, points1, points2[..last]);
    }
  }

  /** Superposition of the whole field: the elementwise sum of the two fields. */
  lemma Field2DSuperposition(exp: PositiveFn, sigma: real, samples: seq<Vec2>, points1: seq<Vec2>, points2: seq<Vec2>)
    requires sigma > 0.0
    ensures |Field2D(exp, sigma, samples, points1 + points2)| == |samples|
    ensures forall i :: 0 <= i < |samples| ==>
      Field2D(exp, sigma, samples, points1 + points2)[i]
        == Field2D(exp, sigma, samples, points1)[i] + Field2D(exp, sigma, samples, points2)[i]
  {
    forall i | 0 <= i < |samples| {
      Density2DAppend(exp, sigma, samples[i], points1, points2);
    }
  }

  /** Empty observations give an all-zero field, empty samples an empty one; every value is >= 0. */
  lemma Field2DShape(exp: PositiveFn, sigma: real, samples: seq<Vec2>, points: seq<Vec2>)
    requires sigma > 0.0
    ensures |Field2D(exp, sigma, samples, points)| == |samples|
    ensures forall i :: 0 <= i < |samples| ==> Field2D(exp, sigma, samples, points)[i] >= 0.0
    ensures points == [] ==> Field2D(exp, sigma, samples, points) == seq(|samples|, _ => 0.0)
    ensures samples == [] ==> Field2D(exp, sigma, samples, points) == []
  {
  }
}
