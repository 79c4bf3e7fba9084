/** The numerical backend as the modelled code sees it: the handles it
    allocates (splines, accelerators) and the results of the numerical
    routines it calls (GSL integration, ODE driver, Newton root finder,
    spline construction and evaluation, CCL's linear-spacing helper,
    transcendental functions). The numerics themselves are not modelled:
    each routine is an uninterpreted function, and each step that can fail
    comes with an uninterpreted success flag. */
module Gsl {
  import opened Optional

  /** A one-dimensional spline handle (`gsl_spline *`). It records the sample
      points it was initialised from; its values elsewhere come from
      `Numerics.splineEval`. */
  class Spline {
    const xs: seq<real>
    const ys: seq<real>

    constructor (xs: seq<real>, ys: seq<real>)
      ensures this.xs == xs && this.ys == ys
    {
      this.xs := xs;
      this.ys := ys;
    }
  }

  /** A two-dimensional spline handle (`gsl_spline2d *`). */
  class Spline2d {
    constructor () { }
  }

  /** An interpolation accelerator (`gsl_interp_accel *`). It only speeds up
      evaluation, so evaluation results do not depend on it. */
  class Accel {
    constructor () { }
  }

  /** The uninterpreted results of the numerical routines.
      - linearSpacing(lo, hi, n): ccl_linear_spacing; None is a NULL return.
      - splineInit(xs, ys): whether gsl_spline_init succeeded on these samples.
      - splineEval(xs, ys, x): gsl_spline_eval of a spline built from (xs, ys).
      - pow, exp, sqrt, sin, sinh: the C math library.
      - chiOf(a), chiConverged(a): compute_chi, the comoving distance from a to 1
        in Mpc, and whether the CQUAD integration succeeded.
      - newtonRoot(chi, aStart), newtonConverged(chi, aStart): the Newton
        iteration of a_of_chi for chi != 0, started at aStart.
      - odeGrowth(a), odeRate(a), odeConverged(a): the growth ODE integrated
        from EPS_SCALEFAC_GROWTH to a: growth factor, growth rate, success.
      - dfIntegral(as, dfs, a), dfIntegralConverged(as, dfs, a): the integral
        of Delta f(a')/a' from a to 1, for the Delta f(a) spline built from
        (as, dfs), and whether it converged. */
  datatype Numerics = Numerics(
    linearSpacing: (real, real, int) -> Option<seq<real>>,
    splineInit: (seq<real>, seq<real>) -> bool,
    splineEval: (seq<real>, seq<real>, real) -> real,
    pow: (real, real) -> real,
    exp: real -> real,
    sqrt: real -> real,
    sin: real -> real,
    sinh: real -> real,
    chiOf: real -> real,
    chiConverged: real -> bool,
    newtonRoot: (real, real) -> real,
    newtonConverged: (real, real) -> bool,
    odeGrowth: real -> real,
    odeRate: real -> real,
    odeConverged: real -> bool,
    dfIntegral: (seq<real>, seq<real>, real) -> real,
    dfIntegralConverged: (seq<real>, seq<real>, real) -> bool)

  /** x lies between lo and hi, in whichever order those two are given. */
  predicate Between(x: real, lo: real, hi: real) {
    (lo <= x <= hi) || (hi <= x <= lo)
  }

  /** What the model relies on from the backend: a non-NULL linear spacing
      has the n >= 1 requested points, all between its end values; a spline
      that initialised successfully passes through its sample points; and
      the growth factor today is nonzero (the tables are divided by it). */
  ghost predicate WellFormed(num: Numerics) {
    && (forall lo: real, hi: real, n: int ::
          num.linearSpacing(lo, hi, n).Some? ==>
            var s := num.linearSpacing(lo, hi, n).value;
            n >= 1 && |s| == n && forall i :: 0 <= i < n ==> Between(s[i], lo, hi))
    && (forall xs: seq<real>, ys: seq<real>, i: int {:trigger num.splineEval(xs, ys, xs[i])} ::
          num.splineInit(xs, ys) && |ys| == |xs| && 0 <= i < |xs| ==>
            num.splineEval(xs, ys, xs[i]) == ys[i])
    && num.odeGrowth(1.0) != 0.0
  }

  /** `ccl_splines`: the scale-factor grid shared by the distance and growth
      tables, and EPS_SCALEFAC_GROWTH, below which the growth factor is not
      integrated. Their values live in files that are not part of this model. */
  datatype SplineParams = SplineParams(
    aSplineNa: int,
    aSplineMin: real,
    aSplineMax: real,
    epsScalefacGrowth: real)

  /** The malloc calls in the compute routines whose failure is checked. */
  datatype AllocSite =
    | DistancesY       // y in ccl_cosmology_compute_distances
    | DistancesAChi    // a for the a(chi) table
    | GrowthDf         // df_arr in ccl_cosmology_compute_growth
    | GrowthY          // y (growth factor)
    | GrowthY2         // y2 (growth rate)
}
