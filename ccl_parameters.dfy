/** Parameter derivation of src/ccl_core.c: ccl_parameters_fill_initial,
    ccl_parameters_create and its eight convenience constructors.
    A parameter record is a value (the C code passes and returns it by value);
    only the modified-growth tables are heap arrays that it owns. */
module Core {
  import opened Optional

  /** CMB temperature in kelvin, fixed by ccl_parameters_fill_initial. */
  const T_CMB: real := 2.7255
  /** M_PI as written in the C headers. */
  const PI: real := 3.14159265358979323846
  /** The two constants of the photon-density formula: kelvin per eV, and
      the critical density today in eV^4 per h^2 (8.098e-11). */
  const KELVIN_PER_EV: real := 11604.5
  const RHO_CRIT_EV4: real := 0.00000000008098

  /** Omeganuh2(a, N_nu, mnu, T_CMB, table), evaluated against the phase-space
      table built by ccl_calculate_nu_phasespace_spline. Neither routine is
      part of this model, so this is an uninterpreted function. */
  type NuDensity = (real, real, real, real) -> real

  /** ccl_parameters. The NaN-marked fields (A_s, sigma_8, z_star) are options.
      The modified-growth tables are the heap arrays z_mgrowth / df_mgrowth. */
  datatype Parameters = Parameters(
    omegaC: real,
    omegaB: real,
    omegaM: real,
    omegaN: real,
    omegaNRel: real,
    omegaNMass: real,
    omegaK: real,
    omegaG: real,
    omegaL: real,
    nNuRel: real,
    nNuMass: real,
    mnu: real,
    w0: real,
    wa: real,
    h: real,
    h0: real,
    aS: Option<real>,
    sigma8: Option<real>,
    nS: real,
    tCmb: real,
    zStar: Option<real>,
    hasMgrowth: bool,
    nzMgrowth: int,
    zMgrowth: array?<real>,
    dfMgrowth: array?<real>)

  /** The density closure: Omega_l is whatever makes the budget sum to one. */
  predicate Closure(p: Parameters) {
    p.omegaM + p.omegaG + p.omegaNRel + p.omegaK + p.omegaL == 1.0
  }

  /** A_s and sigma_8 are never both finite. */
  predicate NormalizationExclusive(p: Parameters) {
    !(p.aS.Some? && p.sigma8.Some?)
  }

  /** The tri-state has/size/pointer shape of the modified-growth tables. */
  predicate MgrowthWellFormed(p: Parameters) {
    if p.hasMgrowth then
      && p.nzMgrowth >= 1
      && p.zMgrowth != null && p.dfMgrowth != null
      && p.zMgrowth.Length == p.nzMgrowth && p.dfMgrowth.Length == p.nzMgrowth
    else
      p.nzMgrowth == 0 && p.zMgrowth == null && p.dfMgrowth == null
  }

  /** The primary (user-supplied) fields of q are those of p. */
  predicate SamePrimary(p: Parameters, q: Parameters) {
    && q.omegaC == p.omegaC && q.omegaB == p.omegaB && q.omegaK == p.omegaK
    && q.nNuRel == p.nNuRel && q.nNuMass == p.nNuMass && q.mnu == p.mnu
    && q.w0 == p.w0 && q.wa == p.wa && q.h == p.h && q.h0 == p.h0 && q.nS == p.nS
    && q.hasMgrowth == p.hasMgrowth && q.nzMgrowth == p.nzMgrowth
    && q.zMgrowth == p.zMgrowth && q.dfMgrowth == p.dfMgrowth
  }

  /** A physical density omega_x h^2 turned into the density parameter Omega_x. */
  function PerHSquared(omegaH2: real, h: real): real
    requires h != 0.0
  {
    omegaH2 / (h * h)
  }

  /** Omega_g = pi^2 (T_CMB / 11604.5)^4 / (15 * 8.098e-11 * h^2): the photon
      density depends on the CMB temperature and h only. */
  function PhotonDensity(tCmb: real, h: real): real
    requires h != 0.0
  {
    var x := tCmb / KELVIN_PER_EV;
    PI * PI * (x * x * x * x) / (15.0 * RHO_CRIT_EV4 * h * h)
  }

  /** ccl_parameters_fill_initial, applied to the record p and returning the
      filled record: fixes T_CMB, derives Omega_g, the two neutrino densities,
      Omega_m and Omega_l by closure, and enforces the normalization rule. */
  method FillInitial(p: Parameters, omeganuh2: NuDensity) returns (q: Parameters)
    requires p.h != 0.0
    ensures SamePrimary(p, q)
    ensures q.tCmb == T_CMB && q.omegaG == PhotonDensity(T_CMB, p.h)
    ensures q.omegaNRel == PerHSquared(omeganuh2(1.0, p.nNuRel, 0.0, T_CMB), p.h)
    ensures q.omegaNMass == PerHSquared(omeganuh2(1.0, p.nNuMass, p.mnu, T_CMB), p.h)
    ensures q.omegaN == q.omegaNRel + q.omegaNMass
    ensures q.omegaM == p.omegaB + p.omegaC + q.omegaNMass
    ensures Closure(q)
    ensures NormalizationExclusive(q)
    ensures p.aS.Some? ==> q.aS == p.aS && q.sigma8 == None
    ensures p.aS == None ==> q.aS == None && q.sigma8 == p.sigma8
    ensures q.zStar == None
  {
    q := p;
    q := q.(tCmb := T_CMB);
    q := q.(omegaG := PhotonDensity(q.tCmb, q.h));
    // The phase-space table is built here and never freed (not modelled).
    q := q.(omegaNRel := PerHSquared(omeganuh2(1.0, q.nNuRel, 0.0, q.tCmb), q.h));
    q := q.(omegaNMass := PerHSquared(omeganuh2(1.0, q.nNuMass, q.mnu, q.tCmb), q.h));
    q := q.(omegaN := q.omegaNRel + q.omegaNMass);
    q := q.(omegaM := q.omegaB + q.omegaC + q.omegaNMass);
    q := q.(omegaL := 1.0 - q.omegaM - q.omegaG - q.omegaNRel - q.omegaK);
    if q.aS.Some? {
      q := q.(sigma8 := None);
    }
    if q.sigma8.Some? {
      q := q.(aS := None);
    }
    q := q.(zStar := None);
  }

  /** What ccl_parameters_create promises about every scalar field of its
      result, in terms of its arguments: primary fields copied, H0 = 100 h,
      derived densities as fill_initial computes them, A_s as passed and
      sigma_8 and z_star unset. */
  ghost predicate CreatedFrom(
    p: Parameters, omegaC: real, omegaB: real, omegaK: real, nNuRel: real,
    nNuMass: real, mnu: real, w0: real, wa: real, h: real, aS: Option<real>,
    nS: real, omeganuh2: NuDensity)
    requires h != 0.0
  {
    && p.omegaC == omegaC && p.omegaB == omegaB && p.omegaK == omegaK
    && p.nNuRel == nNuRel && p.nNuMass == nNuMass && p.mnu == mnu
    && p.w0 == w0 && p.wa == wa && p.h == h && p.h0 == 100.0 * h && p.nS == nS
    && p.tCmb == T_CMB && p.omegaG == PhotonDensity(T_CMB, h)
    && p.omegaNRel == PerHSquared(omeganuh2(1.0, nNuRel, 0.0, T_CMB), h)
    && p.omegaNMass == PerHSquared(omeganuh2(1.0, nNuMass, mnu, T_CMB), h)
    && p.omegaN == p.omegaNRel + p.omegaNMass
    && p.omegaM == omegaB + omegaC + p.omegaNMass
    && Closure(p)
    && p.aS == aS && p.sigma8 == None && p.zStar == None
  }

  /** No modified-growth table: has_mgrowth false, size 0, NULL arrays. */
  predicate NoMgrowth(p: Parameters) {
    !p.hasMgrowth && p.nzMgrowth == 0 && p.zMgrowth == null && p.dfMgrowth == null
  }

  /** ccl_parameters_create. For nz > 0 the two caller arrays are copied into
      freshly allocated arrays of length nz (never aliasing the caller's); for
      nz <= 0 the table is absent whatever arrays were passed. */
  method ParametersCreate(
    omegaC: real, omegaB: real, omegaK: real, nNuRel: real, nNuMass: real,
    mnu: real, w0: real, wa: real, h: real, aS: Option<real>, nS: real,
    nzMgrowth: int, zarrMgrowth: array?<real>, dfarrMgrowth: array?<real>,
    omeganuh2: NuDensity)
    returns (p: Parameters)
    requires h != 0.0
    requires nzMgrowth > 0 ==>
      && zarrMgrowth != null && dfarrMgrowth != null
      && zarrMgrowth.Length >= nzMgrowth && dfarrMgrowth.Length >= nzMgrowth
    ensures CreatedFrom(p, omegaC, omegaB, omegaK, nNuRel, nNuMass, mnu, w0, wa, h, aS, nS, omeganuh2)
    ensures MgrowthWellFormed(p)
    ensures p.hasMgrowth <==> nzMgrowth > 0
    ensures nzMgrowth > 0 ==>
      && p.nzMgrowth == nzMgrowth
      && p.zMgrowth != null && p.dfMgrowth != null
      && fresh(p.zMgrowth) && fresh(p.dfMgrowth) && p.zMgrowth != p.dfMgrowth
      && p.zMgrowth[..] == zarrMgrowth[..nzMgrowth]
      && p.dfMgrowth[..] == dfarrMgrowth[..nzMgrowth]
    ensures nzMgrowth <= 0 ==> NoMgrowth(p)
  {
    // Fields that C leaves uninitialised until fill_initial are set to 0 here.
    p := Parameters(
      omegaC := omegaC, omegaB := omegaB, omegaM := 0.0, omegaN := 0.0,
      omegaNRel := 0.0, omegaNMass := 0.0, omegaK := omegaK, omegaG := 0.0,
      omegaL := 0.0, nNuRel := nNuRel, nNuMass := nNuMass, mnu := mnu,
      w0 := w0, wa := wa, h := h, h0 := h * 100.0,
      aS := None, sigma8 := None, nS := nS, tCmb := 0.0, zStar := None,
      hasMgrowth := false, nzMgrowth := 0, zMgrowth := null, dfMgrowth := null);
    p := p.(aS := aS);
    p := FillInitial(p, omeganuh2);
    if nzMgrowth > 0 {
      var z := new real[nzMgrowth](i requires 0 <= i < zarrMgrowth.Length reads zarrMgrowth => zarrMgrowth[i]);
      var df := new real[nzMgrowth](i requires 0 <= i < dfarrMgrowth.Length reads dfarrMgrowth => dfarrMgrowth[i]);
      p := p.(hasMgrowth := true, nzMgrowth := nzMgrowth, zMgrowth := z, dfMgrowth := df);
    } else {
      p := p.(hasMgrowth := false, nzMgrowth := 0, zMgrowth := null, dfMgrowth := null);
    }
  }

  /** The defaults shared by the convenience constructors: the derived
      record, with no modified-growth table. */
  ghost predicate Convenience(
    p: Parameters, omegaC: real, omegaB: real, omegaK: real, nNuRel: real,
    nNuMass: real, mnu: real, w0: real, wa: real, h: real, aS: Option<real>,
    nS: real, omeganuh2: NuDensity)
    requires h != 0.0
  {
    CreatedFrom(p, omegaC, omegaB, omegaK, nNuRel, nNuMass, mnu, w0, wa, h, aS, nS, omeganuh2)
    && NoMgrowth(p)
  }

  /** Flat, w0 = -1, wa = 0, no neutrinos. */
  method ParametersCreateFlatLcdm(omegaC: real, omegaB: real, h: real, aS: Option<real>, nS: real, omeganuh2: NuDensity)
    returns (p: Parameters)
    requires h != 0.0
    ensures Convenience(p, omegaC, omegaB, 0.0, 0.0, 0.0, 0.0, -1.0, 0.0, h, aS, nS, omeganuh2)
  {
    p := ParametersCreate(omegaC, omegaB, 0.0, 0.0, 0.0, 0.0, -1.0, 0.0, h, aS, nS, -1, null, null, omeganuh2);
  }

  /** Flat, w0 = -1, wa = 0, with neutrinos. */
  method ParametersCreateFlatLcdmNu(
    omegaC: real, omegaB: real, h: real, aS: Option<real>, nS: real,
    nNuRel: real, nNuMass: real, mnu: real, omeganuh2: NuDensity)
    returns (p: Parameters)
    requires h != 0.0
    ensures Convenience(p, omegaC, omegaB, 0.0, nNuRel, nNuMass, mnu, -1.0, 0.0, h, aS, nS, omeganuh2)
  {
    p := ParametersCreate(omegaC, omegaB, 0.0, nNuRel, nNuMass, mnu, -1.0, 0.0, h, aS, nS, -1, null, null, omeganuh2);
  }

  /** Curved, w0 = -1, wa = 0, no neutrinos. */
  method ParametersCreateLcdm(omegaC: real, omegaB: real, omegaK: real, h: real, aS: Option<real>, nS: real, omeganuh2: NuDensity)
    returns (p: Parameters)
    requires h != 0.0
    ensures Convenience(p, omegaC, omegaB, omegaK, 0.0, 0.0, 0.0, -1.0, 0.0, h, aS, nS, omeganuh2)
  {
    p := ParametersCreate(omegaC, omegaB, omegaK, 0.0, 0.0, 0.0, -1.0, 0.0, h, aS, nS, -1, null, null, omeganuh2);
  }

  /** Curved, w0 = -1, wa = 0, with neutrinos. */
  method ParametersCreateLcdmNu(
    omegaC: real, omegaB: real, omegaK: real, h: real, aS: Option<real>, nS: real,
    nNuRel: real, nNuMass: real, mnu: real, omeganuh2: NuDensity)
    returns (p: Parameters)
    requires h != 0.0
    ensures Convenience(p, omegaC, omegaB, omegaK, nNuRel, nNuMass, mnu, -1.0, 0.0, h, aS, nS, omeganuh2)
  {
    p := ParametersCreate(omegaC, omegaB, omegaK, nNuRel, nNuMass, mnu, -1.0, 0.0, h, aS, nS, -1, null, null, omeganuh2);
  }

  /** Flat, free w0, wa = 0, no neutrinos. */
  method ParametersCreateFlatWcdm(omegaC: real, omegaB: real, w0: real, h: real, aS: Option<real>, nS: real, omeganuh2: NuDensity)
    returns (p: Parameters)
    requires h != 0.0
    ensures Convenience(p, omegaC, omegaB, 0.0, 0.0, 0.0, 0.0, w0, 0.0, h, aS, nS, omeganuh2)
  {
    p := ParametersCreate(omegaC, omegaB, 0.0, 0.0, 0.0, 0.0, w0, 0.0, h, aS, nS, -1, null, null, omeganuh2);
  }

  /** Flat, free w0, wa = 0, with neutrinos. */
  method ParametersCreateFlatWcdmNu(
    omegaC: real, omegaB: real, w0: real, h: real, aS: Option<real>, nS: real,
    nNuRel: real, nNuMass: real, mnu: real, omeganuh2: NuDensity)
    returns (p: Parameters)
    requires h != 0.0
    ensures Convenience(p, omegaC, omegaB, 0.0, nNuRel, nNuMass, mnu, w0, 0.0, h, aS, nS, omeganuh2)
  {
    p := ParametersCreate(omegaC, omegaB, 0.0, nNuRel, nNuMass, mnu, w0, 0.0, h, aS, nS, -1, null, null, omeganuh2);
  }

  /** Flat, free w0 and wa, no neutrinos. */
  method ParametersCreateFlatWacdm(omegaC: real, omegaB: real, w0: real, wa: real, h: real, aS: Option<real>, nS: real, omeganuh2: NuDensity)
    returns (p: Parameters)
    requires h != 0.0
    ensures Convenience(p, omegaC, omegaB, 0.0, 0.0, 0.0, 0.0, w0, wa, h, aS, nS, omeganuh2)
  {
    p := ParametersCreate(omegaC, omegaB, 0.0, 0.0, 0.0, 0.0, w0, wa, h, aS, nS, -1, null, null, omeganuh2);
  }

  /** Flat, free w0 and wa, with neutrinos. */
  method ParametersCreateFlatWacdmNu(
    omegaC: real, omegaB: real, w0: real, wa: real, h: real, aS: Option<real>, nS: real,
    nNuRel: real, nNuMass: real, mnu: real, omeganuh2: NuDensity)
    returns (p: Parameters)
    requires h != 0.0
    ensures Convenience(p, omegaC, omegaB, 0.0, nNuRel, nNuMass, mnu, w0, wa, h, aS, nS, omeganuh2)
  {
    p := ParametersCreate(omegaC, omegaB, 0.0, nNuRel, nNuMass, mnu, w0, wa, h, aS, nS, -1, null, null, omeganuh2);
  }
}
