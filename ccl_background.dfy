/** The closed-form rules of src/ccl_background.c: the expansion rate
    h_over_h0, the density fractions of ccl_omega_x, the curvature dispatch
    of ccl_sinn, the small-a shortcut of the growth factor and the clamped
    modified-growth correction Delta f. */
module Background {
  import opened Core
  import opened Errors
  import opened Gsl

  /** The dark-energy evolution factor a^(-3(w0+wa)) exp(3 wa (a-1)). */
  function DarkEnergyFactor(p: Parameters, num: Numerics, a: real): real {
    num.pow(a, -3.0 * (p.w0 + p.wa)) * num.exp(3.0 * p.wa * (a - 1.0))
  }

  /** Omega_m + Omega_l X(a) + Omega_k a + Omega_g / a: a^3 E(a)^2, the sum
      shared by h_over_h0 and ccl_omega_x. */
  function Budget(p: Parameters, num: Numerics, a: real): real
    requires a != 0.0
  {
    p.omegaM + p.omegaL * DarkEnergyFactor(p, num, a) + p.omegaK * a + p.omegaG / a
  }

  /** E(a)^2, the argument of the square root in h_over_h0: scaled by a^3 it
      gives back the budget, so each fraction of ccl_omega_x is its term over
      a^3 E(a)^2. */
  function HOverH0Squared(p: Parameters, num: Numerics, a: real): (e2: real)
    requires a != 0.0
    ensures e2 * (a * a * a) == Budget(p, num, a)
    ensures Budget(p, num, a) > 0.0 <==> e2 * a > 0.0
  {
    Budget(p, num, a) / (a * a * a)
  }

  /** h_over_h0: E(a) = H(a) / H0. */
  function HOverH0(p: Parameters, num: Numerics, a: real): real
    requires a != 0.0
  {
    num.sqrt(HOverH0Squared(p, num, a))
  }

  /** Today (a = 1) the expansion rate squared is the sum of the four species
      that h_over_h0 includes, which by the closure of the parameters is
      1 - Omega_n_rel: E(1)^2 is 1 exactly when there is no relativistic
      neutrino density, because h_over_h0 leaves that species out, and E(1)
      is the square root of 1 - Omega_n_rel. */
  lemma {:induction false} ExpansionToday(p: Parameters, num: Numerics)
    requires Closure(p)
    requires num.pow(1.0, -3.0 * (p.w0 + p.wa)) == 1.0 && num.exp(0.0) == 1.0
    ensures HOverH0Squared(p, num, 1.0) == p.omegaM + p.omegaL + p.omegaK + p.omegaG
    ensures HOverH0Squared(p, num, 1.0) == 1.0 - p.omegaNRel
    ensures HOverH0Squared(p, num, 1.0) == 1.0 <==> p.omegaNRel == 0.0
    ensures HOverH0(p, num, 1.0) == num.sqrt(1.0 - p.omegaNRel)
  {
    assert 3.0 * p.wa * (1.0 - 1.0) == 0.0;
    assert DarkEnergyFactor(p, num, 1.0) == 1.0;
    assert Budget(p, num, 1.0) == p.omegaM + p.omegaL + p.omegaK + p.omegaG;
  }

  /** The species labels of ccl_omega_x; any other label value is `OtherLabel`. */
  datatype Species = MatterLabel | DarkEnergyLabel | RadiationLabel | CurvatureLabel | OtherLabel(value: int)

  /** The denominator ccl_omega_x uses for radiation: the shared budget
      multiplied through by a. */
  function RadiationDenominator(p: Parameters, num: Numerics, a: real): real {
    p.omegaM * a + p.omegaL * DarkEnergyFactor(p, num, a) * a + p.omegaK * a * a + p.omegaG
  }

  lemma RadiationDenominatorIsScaledBudget(p: Parameters, num: Numerics, a: real)
    requires a != 0.0
    ensures RadiationDenominator(p, num, a) == a * Budget(p, num, a)
    ensures Budget(p, num, a) != 0.0 ==> RadiationDenominator(p, num, a) != 0.0
  {
    var x := DarkEnergyFactor(p, num, a);
    calc {
      a * Budget(p, num, a);
      a * (p.omegaM + p.omegaL * x + p.omegaK * a + p.omegaG / a);
      a * p.omegaM + a * (p.omegaL * x) + a * (p.omegaK * a) + a * (p.omegaG / a);
      { assert a * (p.omegaG / a) == p.omegaG; }
      RadiationDenominator(p, num, a);
    }
    if Budget(p, num, a) != 0.0 {
      NonzeroProduct(a, Budget(p, num, a));
    }
  }

  /** ccl_omega_x: the fraction of the critical density at scale factor a in
      the given species, and the status after the call. The four known
      labels leave the status alone; any other species yields 0 and
      CCL_ERROR_PARAMETERS, whatever a is. Each species divides by its own
      denominator: the budget (which holds Omega_g / a) for three of them,
      and the budget multiplied through by a for radiation. */
  function OmegaX(p: Parameters, num: Numerics, a: real, species: Species, status: Status): (r: (real, Status))
    requires species.MatterLabel? || species.DarkEnergyLabel? || species.CurvatureLabel? ==>
      a != 0.0 && Budget(p, num, a) != 0.0
    requires species.RadiationLabel? ==> RadiationDenominator(p, num, a) != 0.0
    ensures species.OtherLabel? ==> r == (0.0, Fail(ErrorCode.Parameters))
    ensures !species.OtherLabel? ==> r.1 == status
  {
    match species
    case MatterLabel =>
      (p.omegaM / Budget(p, num, a), status)
    case DarkEnergyLabel =>
      (p.omegaL * DarkEnergyFactor(p, num, a) / Budget(p, num, a), status)
    case RadiationLabel =>
      (p.omegaG / RadiationDenominator(p, num, a), status)
    case CurvatureLabel =>
      (p.omegaK * a / Budget(p, num, a), status)
    case OtherLabel(_) =>
      (0.0, Fail(ErrorCode.Parameters))
  }

  lemma NonzeroProduct(x: real, y: real)
    requires x != 0.0 && y != 0.0
    ensures x * y != 0.0
  {
  }

  /** The four fractions that share the budget as denominator sum to one:
      matter, dark energy, radiation and curvature exhaust the expansion
      rate at every scale factor where it is defined (where the radiation
      denominator, the budget times a, is then nonzero too). */
  lemma {:induction false} DensityFractionsSumToOne(p: Parameters, num: Numerics, a: real, status: Status)
    requires a != 0.0 && Budget(p, num, a) != 0.0
    ensures RadiationDenominator(p, num, a) != 0.0
    ensures OmegaX(p, num, a, MatterLabel, status).0 + OmegaX(p, num, a, DarkEnergyLabel, status).0
          + OmegaX(p, num, a, RadiationLabel, status).0 + OmegaX(p, num, a, CurvatureLabel, status).0 == 1.0
  {
    RadiationDenominatorIsScaledBudget(p, num, a);
    OmegaXValues(p, num, a, status);
    OmegaXRadiationValue(p, num, a, status);
    QuotientsOfASum(p.omegaM, p.omegaL * DarkEnergyFactor(p, num, a), p.omegaK * a, p.omegaG / a, Budget(p, num, a));
  }

  /** Matter, dark energy and curvature are their term of the budget over
      the budget. */
  lemma OmegaXValues(p: Parameters, num: Numerics, a: real, status: Status)
    requires a != 0.0 && Budget(p, num, a) != 0.0
    ensures OmegaX(p, num, a, MatterLabel, status).0 == p.omegaM / Budget(p, num, a)
    ensures OmegaX(p, num, a, DarkEnergyLabel, status).0 == p.omegaL * DarkEnergyFactor(p, num, a) / Budget(p, num, a)
    ensures OmegaX(p, num, a, CurvatureLabel, status).0 == p.omegaK * a / Budget(p, num, a)
  {
  }

  /** Radiation, whose denominator is the budget times a, is likewise
      Omega_g / a over the budget. */
  lemma {:induction false} OmegaXRadiationValue(p: Parameters, num: Numerics, a: real, status: Status)
    requires a != 0.0 && Budget(p, num, a) != 0.0
    ensures RadiationDenominator(p, num, a) != 0.0
    ensures OmegaX(p, num, a, RadiationLabel, status).0 == (p.omegaG / a) / Budget(p, num, a)
  {
    RadiationDenominatorIsScaledBudget(p, num, a);
    QuotientOfQuotient(p.omegaG, RadiationDenominator(p, num, a), a, Budget(p, num, a));
  }

  lemma QuotientOfQuotient(x: real, r: real, y: real, z: real)
    requires y != 0.0 && z != 0.0 && r == y * z
    ensures x / r == (x / y) / z
  {
  }

  lemma QuotientsOfASum(u: real, v: real, w: real, x: real, b: real)
    requires b != 0.0 && b == u + v + w + x
    ensures u / b + v / b + x / b + w / b == 1.0
  {
  }

  /** ccl_sinn: the comoving angular distance for the curvature sign k_sign
      and sqrt|k|: chi itself for flat space, sin or sinh of sqrtk chi over
      sqrtk for closed or open space; any other sign yields 0 and
      CCL_ERROR_PARAMETERS. Only the bad-sign case touches the status. */
  function Sinn(kSign: int, sqrtk: real, chi: real, num: Numerics, status: Status): (r: (real, Status))
    requires kSign == 1 || kSign == -1 ==> sqrtk != 0.0
    ensures kSign == 0 ==> r == (chi, status)
    ensures kSign == 1 ==> r.0 * sqrtk == num.sin(sqrtk * chi) && r.1 == status
    ensures kSign == -1 ==> r.0 * sqrtk == num.sinh(sqrtk * chi) && r.1 == status
    ensures kSign != 0 && kSign != 1 && kSign != -1 ==> r == (0.0, Fail(ErrorCode.Parameters))
  {
    match kSign
    case -1 => (num.sinh(sqrtk * chi) / sqrtk, status)
    case 1 => (num.sin(sqrtk * chi) / sqrtk, status)
    case 0 => (chi, status)
    case _ => (0.0, Fail(ErrorCode.Parameters))
  }

  /** The growth factor D, the growth rate f and whether the computation
      succeeded, as growth_factor_and_growth_rate returns them. */
  datatype GrowthPoint = GrowthPoint(d: real, f: real, ok: bool)

  /** growth_factor_and_growth_rate: below EPS_SCALEFAC_GROWTH the universe
      is taken to be matter dominated (D = a, f = 1) and no ODE is solved;
      above it the ODE driver's answer is used. */
  function GrowthAndRate(num: Numerics, eps: real, a: real): (g: GrowthPoint)
    ensures a < eps ==> g == GrowthPoint(a, 1.0, true)
    ensures a >= eps ==> g.ok == num.odeConverged(a)
  {
    if a < eps then GrowthPoint(a, 1.0, true)
    else GrowthPoint(num.odeGrowth(a), num.odeRate(a), num.odeConverged(a))
  }

  /** The modified-growth correction at scale factor a, from the table
      (zs, dfs) over redshift: 0 for a <= 0, the first entry at or below the
      first redshift, the last entry above the last redshift, and the
      interpolant in between (the loop of ccl_cosmology_compute_growth that
      fills df_arr). */
  function DeltaF(a: real, zs: seq<real>, dfs: seq<real>, num: Numerics): real
    requires |zs| >= 1 && |dfs| == |zs|
  {
    if a <= 0.0 then 0.0
    else
      var z := 1.0 / a - 1.0;
      if z <= zs[0] then dfs[0]
      else if z > zs[|zs| - 1] then dfs[|zs| - 1]
      else num.splineEval(zs, dfs, z)
  }

  /** z restricted to [lo, hi]. */
  function Clamp(z: real, lo: real, hi: real): real {
    if z < lo then lo else if z > hi then hi else z
  }

  /** For a > 0, Delta f is the interpolating spline through the table
      evaluated at the redshift clamped into the table's range: clamping
      and extrapolating by the end values agree because the spline passes
      through its end points. */
  lemma {:induction false} DeltaFIsClampedInterpolant(a: real, zs: seq<real>, dfs: seq<real>, num: Numerics)
    requires WellFormed(num)
    requires |zs| >= 1 && |dfs| == |zs| && zs[0] <= zs[|zs| - 1]
    requires num.splineInit(zs, dfs)
    requires a > 0.0
    ensures DeltaF(a, zs, dfs, num) == num.splineEval(zs, dfs, Clamp(1.0 / a - 1.0, zs[0], zs[|zs| - 1]))
  {
    var z := 1.0 / a - 1.0;
    var last := |zs| - 1;
    if z <= zs[0] {
      assert Clamp(z, zs[0], zs[last]) == zs[0];
      assert num.splineEval(zs, dfs, zs[0]) == dfs[0];
    } else if z > zs[last] {
      assert Clamp(z, zs[0], zs[last]) == zs[last];
      assert num.splineEval(zs, dfs, zs[last]) == dfs[last];
    }
  }
}
