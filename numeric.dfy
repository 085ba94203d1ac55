/** Numbers, vectors and the estimator choice shared by the density estimators. */
module Numeric {

  /**
   * The model of `Math.exp`. It is supplied by the caller. All the model assumes
   * about it is that it is positive everywhere.
   */
  type PositiveFn = f: real -> real | forall x :: f(x) > 0.0 witness (x: real) => 1.0

  /** A point `[x, y]` (longitude, latitude). */
  datatype Vec2 = Vec2(x: real, y: real)

  /** Which estimator runs: the nested CPU loops or the GPU kernel. */
  datatype Strategy = Cpu | Gpu
}
