/** The fixed constants of `src/globals.js`. */
module Globals {
  import opened Numeric

  const DEFAULT_USE_GPU: bool := false
  const DEFAULT_KERNEL_WIDTH: real := 1.0
  const DEFAULT_YEAR_SELECTED: int := 1051
  const DEFAULT_ARROW_LENGTH: real := 10.0
  const DEFAULT_ARROW_ANGLE: real := 27.0
  const DEFAULT_ELITE_TYPE: string := "进士"
  /** Origin of the projection arrow, `[115.91, 31.38]`. */
  const FIXED_ARROW_ORIGIN: Vec2 := Vec2(115.91, 31.38)
  /** Bounds of the map, in degrees. MAP_DOWN lies above MAP_UP numerically. */
  const MAP_UP: real := 14.39
  const MAP_DOWN: real := 55.80
  const MAP_LEFT: real := 72.72
  const MAP_RIGHT: real := 135.12
  const YEAR_MIN: int := 618
  const YEAR_MAX: int := 1911
  /** The static loop bound declared for the GPU kernels. */
  const ELITE_AMOUNT_MAX: nat := 80000
  /** `Math.PI`, written as the shortest decimal that rounds to that double. */
  const PI: real := 3.141592653589793
}
