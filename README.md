# CCL background core in Dafny

A model of the bookkeeping core of the Core Cosmology Library (CCL) C code, with proofs about it. The core covers:

- **Parameters** (`src/ccl_core.c`): `ccl_parameters_create`, `ccl_parameters_fill_initial` and the eight `ccl_parameters_create_*` convenience constructors. They derive the density parameters (photons, neutrinos, matter, and dark energy by closure). They keep at most one of `A_s` and `sigma_8`, and they deep-copy the optional modified-growth tables.
- **The cosmology object** (`src/ccl_core.c`): `ccl_cosmology_create`, `ccl_data_free` and `ccl_cosmology_free`. The object is a cache of spline handles, four `computed_*` flags and a status.
- **Lazy table computation** (`src/ccl_background.c`): `ccl_cosmology_compute_distances` and `ccl_cosmology_compute_growth`.
  - Each does nothing once its flag is set.
  - On failure it writes one error code into the caller's `int *status` and leaves the cosmology untouched.
  - On success it stores freshly built splines and sets its flag.
- **Queries** (`src/ccl_background.c`): the single-point and batch queries for the expansion rate, the comoving radial and angular distances, the luminosity distance, the scale factor at a distance, and the growth factor (normalised or not) and growth rate.
  - Each guards its domain and computes the tables lazily.
  - A nonzero status ends the process through `ccl_check_status`.
- **Pure rules** (`src/ccl_background.c`): `h_over_h0`, `ccl_omega_x`, `ccl_sinn`, the small-`a` shortcut of the growth factor, and the clamped modified-growth correction Delta f.
- **The fatal-status policy** (`src/ccl_error.c`): `ccl_check_status`.

## How the C entities appear

- **Numerics.** The numerical back end is the datatype `Gsl.Numerics` of uninterpreted functions. It covers GSL integration, the growth ODE, Newton root finding, spline construction and evaluation, `ccl_linear_spacing`, and `pow`/`exp`/`sqrt`/`sin`/`sinh`. Each step that can fail has its own uninterpreted success flag.
  - `Gsl.WellFormed` states the three facts the model relies on:
    1. a non-NULL linear spacing has the requested points, all between its ends;
    2. a spline that initialised passes through its samples;
    3. the raw growth factor today is nonzero.
  - A spline handle is a `Gsl.Spline` object that records its samples.
  - A failing `malloc` is an `AllocSite` in the set `oom`.
- **Parameters.** `ccl_parameters` is the value type `Core.Parameters`.
  - NaN ("unset") is `None`.
  - `Omeganuh2` is a function-typed parameter.
- **The cosmology.** `ccl_cosmology` is the class `Cosmo.Cosmology`.
  - Its `data` field is the datatype `Data` of nullable handles plus `growth0`.
  - `Valid()` ties each flag to its handles and forbids one handle in two slots.
- **Status and control.** The caller's `int *status` is an in/out `Errors.Status`. `exit(1)` is the `Control` value `Exit(1)`, returned together with the status.
- **What the compute routines produce.** This is specified by total functions in `Tables`: `DistancesOutcome` and `GrowthOutcome` return `Done(tables)` or `Failed(code)`.
  - The imperative routines in `Compute` (array-filling loops, storing into the cosmology) are proved equal to those functions.
  - The `Tables` lemmas state what the tables mean at every grid node.

## Model

| member | source | states |
|---|---|---|
| Errors.CheckStatus | src/ccl_error.c:8-31 | control returns exactly when the status is 0; every nonzero code, listed or default, ends the process with exit code 1; the status is only read |
| Core.FillInitial | src/ccl_core.c:76-101 | the primary fields are kept and T_CMB = 2.7255. Omega_g is the photon density from T_CMB and h alone. Omega_n_rel and Omega_n_mass are Omeganuh2(1, N, m, T_CMB)/h^2 with m = 0 and mnu; Omega_n is their sum and Omega_m = Omega_b + Omega_c + Omega_n_mass. The closure Omega_m+Omega_g+Omega_n_rel+Omega_k+Omega_l = 1 holds exactly. A_s and sigma_8 are never both set: a set A_s is kept and clears sigma_8, otherwise sigma_8 is kept. z_star is unset |
| Core.ParametersCreate | src/ccl_core.c:121-168 | every primary field is as passed and H0 = 100 h; the derived fields are those of fill_initial; A_s is as passed, sigma_8 and z_star unset. has_mgrowth holds iff nz > 0. For nz > 0 the two tables are fresh, distinct arrays of length nz, equal element-wise to the first nz caller entries. For nz <= 0 they are absent (0, NULL) whatever was passed |
| Core.ParametersCreateFlatLcdm | src/ccl_core.c:175-187 | ParametersCreate with Omega_k = 0, no neutrinos, w0 = -1, wa = 0, and no modified growth |
| Core.ParametersCreateFlatLcdmNu | src/ccl_core.c:194-203 | ParametersCreate with Omega_k = 0, the given neutrinos, w0 = -1, wa = 0, and no modified growth |
| Core.ParametersCreateLcdm | src/ccl_core.c:212-223 | ParametersCreate with the given Omega_k, no neutrinos, w0 = -1, wa = 0, and no modified growth |
| Core.ParametersCreateLcdmNu | src/ccl_core.c:230-238 | ParametersCreate with the given Omega_k and neutrinos, w0 = -1, wa = 0, and no modified growth |
| Core.ParametersCreateFlatWcdm | src/ccl_core.c:247-258 | ParametersCreate with Omega_k = 0, no neutrinos, the given w0, wa = 0, and no modified growth |
| Core.ParametersCreateFlatWcdmNu | src/ccl_core.c:266-274 | ParametersCreate with Omega_k = 0, the given neutrinos and w0, wa = 0, and no modified growth |
| Core.ParametersCreateFlatWacdm | src/ccl_core.c:282-292 | ParametersCreate with Omega_k = 0, no neutrinos, the given w0 and wa, and no modified growth |
| Core.ParametersCreateFlatWacdmNu | src/ccl_core.c:299-306 | ParametersCreate with Omega_k = 0 and the given neutrinos, w0 and wa, and no modified growth |
| Cosmo.Cosmology.constructor | src/ccl_core.c:35-62 | params and config are stored as given. Every handle slot (chi, growth, fgrowth, E, the three accelerators, achi, logsigma, p_lin, p_nl, nu_pspace_int) is null and growth0 = 1. All four computed flags are false, status is 0, and the object is valid |
| Cosmo.DataFree | src/ccl_core.c:315-341 | the handles released are exactly the non-null slots among chi, growth, fgrowth, accelerator, accelerator_achi, E, achi, logsigma, p_lin and p_nl, in that order, whatever the flags say |
| Cosmo.ReleaseFirst | src/ccl_core.c:321-330 | the releases of the first five slots are their non-null entries, in order |
| Cosmo.ReleaseRest | src/ccl_core.c:331-340 | the last five releases complete the non-null entries of all ten slots |
| Cosmo.DataFreeReleasesOnce | src/ccl_core.c:315-341 | in a cache without aliasing, no handle is released twice; accelerator_m and nu_pspace_int are never released |
| Cosmo.Cosmology.Free | src/ccl_core.c:349-353 | the releases of ccl_data_free and then the object itself, each released exactly once |
| Background.HOverH0Squared | src/ccl_background.c:24-28 | a^3 E(a)^2 is the shared budget Omega_m + Omega_l X(a) + Omega_k a + Omega_g/a, so E(a)^2 a has the sign of that budget |
| Background.ExpansionToday | src/ccl_background.c:24-28 | E(1)^2 = Omega_m + Omega_l + Omega_k + Omega_g, which by the closure of fill_initial is 1 - Omega_n_rel; so E(1)^2 = 1 exactly when Omega_n_rel = 0, and E(1) is the square root of 1 - Omega_n_rel |
| Background.RadiationDenominatorIsScaledBudget | src/ccl_background.c:49-51 | for a != 0 the radiation denominator of ccl_omega_x is a times the denominator shared by the other species, hence nonzero when that one is |
| Background.OmegaX | src/ccl_background.c:39-60 | any label other than the four species returns 0 and sets CCL_ERROR_PARAMETERS, for every a; the four species leave the status alone |
| Background.OmegaXRadiationValue | src/ccl_background.c:49-51 | where the shared budget is nonzero, so is the radiation denominator, and radiation is Omega_g/a over that budget |
| Background.DensityFractionsSumToOne | src/ccl_background.c:39-60 | for a != 0 and a nonzero budget, all four species are defined and the matter, dark-energy, radiation and curvature fractions sum to exactly 1 |
| Background.Sinn | src/ccl_background.c:637-655 | k_sign 0 returns chi; for k_sign 1 and -1 the result times sqrtk is sin and sinh of sqrtk chi, and the status is kept; any other sign returns 0 and sets CCL_ERROR_PARAMETERS |
| Background.GrowthAndRate | src/ccl_background.c:110-138 | below EPS_SCALEFAC_GROWTH, D = a and f = 1 and success, with no ODE solve; otherwise success is the ODE driver's |
| Background.DeltaFIsClampedInterpolant | src/ccl_background.c:434-446 | for a > 0, Delta f is the redshift spline evaluated at z = 1/a - 1 clamped into [z_0, z_{n-1}] |
| Tables.ScaleFactorGrid | src/ccl_background.c:246-258 | the a grid is accepted exactly when the spacing exists, both ends are within 1e-5 of A_SPLINE_MIN/MAX and the last point is at most 1. Then it has A_SPLINE_NA points, all between the two ends. Otherwise the code is CCL_ERROR_LINSPACE |
| Tables.PositiveGrid | src/ccl_background.c:248-252 | with positive ends, every point of an accepted a grid is positive |
| Tables.TruncateToInt | src/ccl_background.c:318 | the (int) cast drops the fractional part, rounding toward zero from either side |
| Tables.ChiGridSize | src/ccl_background.c:318 | for chi_f >= chi_0 the chi grid has the largest n >= 0 with n * 5 <= chi_f - chi_0; for chi_f < chi_0 it has n <= 0 |
| Tables.ScaleFactorStep | src/ccl_background.c:192-228 | chi = 0 gives a = 1 and success without iterating; otherwise success is the Newton iteration's convergence from the previous root |
| Tables.RootChain | src/ccl_background.c:343-346 | the interior root loop yields one root per interior distance |
| Tables.ScaleFactorTable | src/ccl_background.c:340-346 | the a(chi) table has one entry per chi point: a_min last and, with two or more points, a_max first |
| Tables.DistancesOutcome | src/ccl_background.c:235-382 | A_SPLINE_MAX > 1 fails with CCL_ERROR_COMPUTECHI. Every failure is one of COMPUTECHI, LINSPACE, MEMORY, SPLINE, INTEG, ROOT. Success implies A_SPLINE_MAX <= 1 and tables over the accepted a grid |
| Tables.DistancesFromGrid | src/ccl_background.c:260-371 | after the grid, failures are LINSPACE, MEMORY, SPLINE, INTEG or ROOT, and the tables are over the given grid |
| Tables.InverseTable | src/ccl_background.c:314-371 | the chi grid has (int)((chi_f - chi_0)/5) >= 1 points, with ends within 1e-5 of chi(a_max) and chi(a_min), and a table of the same size; failures are LINSPACE, MEMORY, SPLINE or ROOT |
| Tables.DistanceTablesAtNodes | src/ccl_background.c:270-312 | at every node of the a grid the stored E spline returns h_over_h0(a) and the chi spline the integrated distance chi(a), whose integration converged |
| Tables.InverseTableAtEnds | src/ccl_background.c:340-360 | the a(chi) spline returns a_min at the far end of its grid and, with two or more points, a_max at the near end, and those ends lie within 1e-5 of chi(a_min) and chi(a_max) |
| Tables.GrowthRowAt | src/ccl_background.c:488-503 | without modified growth (or for a <= 0), the row times growth0 is D(a), the rate is f(a) and the MG integral counts as converged. With modified growth and a > 0, the rate is f(a) plus the Delta f(a) spline at a, the row times growth0 is D(a) exp(-integral from a to 1), and the MG flag is that integral's. The ODE flag is growth_factor_and_growth_rate's |
| Tables.GrowthTodayNonzero | src/ccl_background.c:487 | the raw growth factor today, by which every row is divided, is nonzero |
| Tables.GrowthOutcome | src/ccl_background.c:391-574 | failures are LINSPACE, MEMORY, SPLINE or INTEG, and the tables are over the accepted a grid |
| Tables.GrowthFromGrid | src/ccl_background.c:410-558 | after the grid, failures are MEMORY, SPLINE or INTEG, and the tables are over the given grid |
| Tables.PlainGrowthColumns | src/ccl_background.c:488-503 | without modified growth, each growth entry times growth0 is D(a) and each rate entry is f(a) |
| Tables.PlainGrowthTables | src/ccl_background.c:466-567 | without modified growth the stored growth0 is the nonzero D(1), both columns are initialised splines over the grid, D column times growth0 = D(a) and f column = f(a) |
| Tables.GrowthTablesAtNodes | src/ccl_background.c:487-567 | without modified growth, at every grid node the growth spline times growth0 is D(a) and the rate spline is f(a) |
| Tables.GrowthTablesAtNode | src/ccl_background.c:487-503 | at one node: the same, plus the normalised growth is exactly 1 at a = 1, and below EPS_SCALEFAC_GROWTH growth0 times it is a and the rate is 1 |
| Tables.MgrowthTablesAtNode | src/ccl_background.c:434-503 | with modified growth, at a node a > 0: growth0 is the nonzero D(1), the rate spline is f(a) + Delta f(a), and the growth spline times growth0 is D(a) exp(-integral from a to 1 over the Delta f(a) spline) |
| Compute.FillExpansionRates | src/ccl_background.c:270-273 | the loop fills y with h_over_h0 at every grid point (the table Tables.ExpansionTable) |
| Compute.FillDistances | src/ccl_background.c:289-291 | the loop fills y with chi(a) at every grid point (the table Tables.DistanceTable), and the accumulated flag fails exactly when some integral failed |
| Compute.FillScaleFactors | src/ccl_background.c:340-346 | the a(chi) buffer is a_max, the Newton roots, each started from the previous, then a_min; the flag fails exactly when some root failed |
| Compute.RootChainStep | src/ccl_background.c:343-345 | one loop iteration extends the root chain by the root started from the previous one |
| Compute.BuildInverseTable | src/ccl_background.c:314-371 | the a(chi) part computes exactly Tables.InverseTable |
| Compute.BuildDistancesFromGrid | src/ccl_background.c:260-371 | the body after the a grid computes exactly Tables.DistancesFromGrid |
| Compute.BuildDistances | src/ccl_background.c:240-371 | the table construction computes exactly Tables.DistancesOutcome |
| Compute.SharedAccelerator | src/ccl_background.c:373-374 | an existing accelerator is kept; a missing one is newly allocated |
| Compute.StoreDistances | src/ccl_background.c:373-378 | E, chi and achi are new splines of the tables; the accelerator is kept or newly allocated; computed_distances is set; nothing else changes (accelerator_achi included), and validity is kept |
| Compute.ComputeDistances | src/ccl_background.c:235-382 | with the flag set, the status and cosmology are unchanged. Otherwise, on Failed(c) the status becomes c and the cosmology is unchanged. On Done(t) the tables are stored and the status is kept |
| Compute.FillDeltaF | src/ccl_background.c:434-446 | df_arr holds Background.DeltaF at every grid point |
| Compute.GrowthEntry | src/ccl_background.c:489-502 | one iteration of the growth loop computes exactly the row Tables.GrowthRowAt |
| Compute.FillGrowth | src/ccl_background.c:487-503 | y and y2 hold the rows' D and f. The ODE flag fails exactly when today or some row failed; the MG flag fails exactly when some MG integral failed |
| Compute.BuildGrowthFromGrid | src/ccl_background.c:410-558 | the body after the a grid computes exactly Tables.GrowthFromGrid |
| Compute.BuildGrowth | src/ccl_background.c:396-558 | the table construction computes exactly Tables.GrowthOutcome |
| Compute.StoreGrowth | src/ccl_background.c:562-567 | growth and fgrowth are new splines of the tables; growth0 is stored; the accelerator is kept or newly allocated; computed_growth is set; nothing else changes |
| Compute.ComputeGrowth | src/ccl_background.c:391-574 | with the flag set, the status and cosmology are unchanged. Otherwise, on Failed(c) the status becomes c and the cosmology is unchanged. On Done(t) the tables are stored and the status is kept |
| Compute.StoreAcceleratorKeepsNoAliasing | src/ccl_background.c:373-374 | keeping the accelerator, or storing one no slot holds, keeps the cache free of aliasing |
| Compute.InstallDistancesKeepsNoAliasing | src/ccl_background.c:373-377 | storing three new distance splines (and the shared accelerator) keeps the cache free of aliasing |
| Compute.InstallGrowthKeepsNoAliasing | src/ccl_background.c:562-565 | storing two new growth splines (and the shared accelerator) keeps the cache free of aliasing |
| Queries.RadialDistanceAt | src/ccl_background.c:604-616 | rejected exactly above 1; 0 in (1-1e-8, 1] |
| Queries.AngularDistanceAt | src/ccl_background.c:659-676 | rejected exactly above 1 and 0 in (1-1e-8, 1]. In flat space it is the radial distance; below 1-1e-8 it is ccl_sinn of the radial distance |
| Queries.LuminosityDistanceAt | src/ccl_background.c:704-717 | rejected exactly above 1; 0 in (1-1e-8, 1]; below it, the radial distance divided by a |
| Queries.ScaleFactorAt | src/ccl_background.c:742-755 | rejected exactly for chi < 0; 1 for chi in [0, 1e-8); otherwise the a(chi) spline |
| Queries.UpToToday | src/ccl_background.c:777-788 | rejected exactly above 1; otherwise the spline value |
| Queries.UnnormGrowthAt | src/ccl_background.c:809-820 | rejected exactly above 1; otherwise growth0 times the normalised growth factor |
| Queries.DistanceQueriesAtNodes | src/ccl_background.c:579-617 | at every node of the computed a grid, ccl_h_over_h0 returns h_over_h0(a). Away from today, the radial distance is chi(a) and the luminosity distance chi(a)/a |
| Queries.ScaleFactorQueryAtEnds | src/ccl_background.c:740-756 | ccl_scale_factor_of_chi returns a_min at the far end of its chi grid and a_max at the near end (two or more points), each away from chi ~ 0 |
| Queries.GrowthQueriesAtNodes | src/ccl_background.c:775-852 | without modified growth, at every grid node up to today: the unnormalised growth is D(a), the growth rate is f(a), and the normalised growth is exactly 1 at a = 1 |
| Queries.ReadyCheck | src/ccl_background.c:612-615 | control continues iff the tables were cached, or were computed with a zero status. On continuing the status is unchanged; otherwise it is exit code 1; a failed computation stores its code |
| Queries.EnsureDistances | src/ccl_background.c:612-615 | the cache is untouched or holds the new distance tables; the status and control are those of ReadyCheck; after continuing, computed_distances is true |
| Queries.EnsureGrowth | src/ccl_background.c:783-786 | the cache is untouched or holds the new growth tables; the status and control are those of ReadyCheck; after continuing, computed_growth is true |
| Queries.FillAnswers | src/ccl_background.c:626-633 | for a query defined wherever the loop goes, the output holds the answer at every point before the first rejected one; the loop stops there and the rest of the output is untouched |
| Queries.FirstRejected | src/ccl_background.c:626-633 | every point before the result is answered, and the result is the first rejected point at or after the start, or the end |
| Queries.AnswerAll | src/ccl_background.c:626-633 | the batch outcome: answers up to the first rejected point, the rest untouched. Then either the ready status and continue, or CCL_ERROR_COMPUTECHI and exit 1. It continues iff every point is defined and answered |
| Queries.HOverH0Query | src/ccl_background.c:579-586 | lazy distances plus a status check, then the E spline at a, with no range check |
| Queries.HOverH0Batch | src/ccl_background.c:590-599 | lazy distances plus a status check; a failed check leaves the output untouched; otherwise the E spline at every point, and it continues |
| Queries.ComovingRadialDistance | src/ccl_background.c:602-618 | within 1e-8 below 1: 0 with nothing computed. Above 1: COMPUTECHI and exit with nothing computed. Otherwise lazy distances, the ready check, and the chi spline at a |
| Queries.ComovingRadialDistances | src/ccl_background.c:620-635 | lazy distances, the ready check, then the radial answers up to the first a > 1 (COMPUTECHI and exit there); continues iff every a <= 1 |
| Queries.ComovingAngularDistance | src/ccl_background.c:657-677 | the guards of the radial query. Otherwise, after the ready check, ccl_sinn of the chi spline value, whose status effect (CCL_ERROR_PARAMETERS for a bad sign) is kept without a check |
| Queries.AngularBatchStatus | src/ccl_background.c:686-699 | a complete angular batch changes the status only to CCL_ERROR_PARAMETERS, only for a bad curvature sign, and only when some point lies below 1-1e-8 |
| Queries.AngularBatchStatusStep | src/ccl_background.c:686-699 | one more point sets CCL_ERROR_PARAMETERS exactly when ccl_sinn is called on it with a bad sign |
| Queries.AngularPoint | src/ccl_background.c:687-698 | one point up to today: the angular distance, and the status after ccl_sinn |
| Queries.FillAngular | src/ccl_background.c:686-699 | the angular answers up to the first a > 1, the rest untouched, and the status threaded through ccl_sinn over the points visited |
| Queries.ComovingAngularDistances | src/ccl_background.c:679-700 | lazy distances, the ready check, then the angular answers up to the first a > 1. The status is threaded through ccl_sinn, then COMPUTECHI and exit at a rejected point; continues iff every a <= 1 |
| Queries.LuminosityDistance | src/ccl_background.c:702-718 | the guards of the radial query; otherwise, after the ready check, the radial distance query at a divided by a |
| Queries.LuminosityDefinedWhileAnswered | src/ccl_background.c:722-736 | when every scale factor the loop reaches below 1-1e-8 is nonzero, chi(a)/a is defined at every point the loop reaches |
| Queries.LuminosityDistanceBatch | src/ccl_background.c:722-736 | lazy distances, the ready check, then chi(a)/a (0 near today) up to the first a > 1; continues iff every a <= 1. Only the points the loop reaches need a != 0 |
| Queries.ScaleFactorOfChi | src/ccl_background.c:740-756 | chi in [0, 1e-8): 1 with nothing computed. chi < 0: COMPUTECHI and exit with nothing computed. Otherwise lazy distances, the ready check, and the a(chi) spline |
| Queries.ScaleFactorOfChis | src/ccl_background.c:759-773 | lazy distances, the ready check, then a(chi) answers up to the first chi < 0; continues iff every chi >= 0 |
| Queries.GrowthAnswer | src/ccl_background.c:777-850 | each growth quantity is rejected exactly above a = 1 |
| Queries.GrowthQuery | src/ccl_background.c:775-852 | ccl_growth_factor, _unnorm and ccl_growth_rate. Above 1: COMPUTECHI and exit with nothing computed. Otherwise lazy growth, the ready check, then growth, growth0*growth or fgrowth at a |
| Queries.GrowthBatch | src/ccl_background.c:791-867 | the three growth batches: lazy growth, the ready check, then the answers up to the first a > 1 (COMPUTECHI and exit there); continues iff every a <= 1 |
| Queries.AnswerGrowth | src/ccl_background.c:798-804 | the growth batch loop stops exactly at the first a > 1 and continues iff there is none |

## Left out

- Floating point: the model computes over exact reals. IEEE rounding, infinities and NaN results are not modelled, and the closure and sum identities hold over the reals only. NEAR_ONE is the exact real 1 - 1e-8 rather than its double.
- The numerical routines (CQUAD integration, the growth ODE, Newton iteration in a_of_chi, spline construction and evaluation, ccl_linear_spacing, chi_integrand, growth_ode_system, df_integrand) are uninterpreted. Only their success flags, and the three facts listed in `Gsl.WellFormed`, enter the model. The values an ODE or root finder leaves behind on failure are not modelled, because every failure ends in an error return.
- GSL's default error handler, which aborts on a spline evaluated out of range, is not modelled: spline evaluation is total.
- Omeganuh2 and ccl_calculate_nu_phasespace_spline are not part of this model; Omeganuh2 is a function parameter. The phase-space spline that fill_initial allocates and never frees is not modelled.
- status_message, sprintf/strcpy and the fprintf to stderr are left out; exit(1) is the returned control value `Exit(1)`.
- The frees of temporaries (a, y, y2, df_arr, the temporary splines, the workspace and root solver) are left out. So are the leaks on error paths. The model tracks only what is stored in the cosmology.
- k_sign and sqrtk, read by ccl_sinn, are never assigned in src/ccl_core.c; the model takes them as parameters of the angular queries.
- The A_SPLINE_* constants, EPS_SCALEFAC_GROWTH and the error-code numbers live in headers that are not part of this model; they are parameters (`SplineParams`) and named codes.
- The dead assignment of dchi after the chi spacing (src/ccl_background.c:320) is not modelled.
- cosmo->status is never written by the modelled routines; the model keeps it unchanged.
- src/ccl_halofit.c, the headers and the tests are not part of this model.
- Batch outputs are arrays, and the inputs are passed as sequences, so an output array aliasing the input array is not modelled.
- Core.FillInitial: requires h != 0, because C would divide by zero (inf/NaN); the same holds for Core.ParametersCreate and the eight convenience constructors.
- Core.ParametersCreate: requires non-NULL tables of at least nz entries when nz > 0, which memcpy needs.
- Background.OmegaX: requires, for each species, that its own denominator is nonzero (for matter, dark energy and curvature also a != 0, since the shared denominator holds Omega_g/a), because C would produce inf/NaN. Any other label needs nothing.
- Background.Sinn: requires sqrtk != 0 for k_sign = 1 or -1, for the same reason. Queries.AngularDistanceAt, Queries.ComovingAngularDistance and Queries.ComovingAngularDistances inherit this requirement.
- Queries.LuminosityDistance: requires a != 0 below 1-1e-8, where C divides by a. Queries.LuminosityDistanceAt requires the same, and Queries.LuminosityDistanceBatch requires it of every point its loop reaches.
- Tables.DistancesOutcome: requires A_SPLINE_MIN and A_SPLINE_MAX positive, so that every grid point is nonzero (h_over_h0 divides by a). Every distance query inherits this requirement.
- Queries.GrowthQueriesAtNodes: states the query answers at the nodes only without modified growth. With it, Tables.MgrowthTablesAtNode states the spline values at the nodes a > 0, which the growth queries return up to today (Queries.UpToToday, Queries.UnnormGrowthAt); the Delta f integral in them is uninterpreted.
- Compute.ComputeGrowth, Queries.EnsureGrowth, Queries.GrowthQuery and Queries.GrowthBatch: require that the modified-growth arrays of the parameters match nz_mgrowth, which every Core.ParametersCreate result meets.
- Core.ParametersCreate and Cosmo.Cosmology.constructor: allocate as if malloc never fails; src/ccl_core.c:37 and :155-158 do not check its result.
- The Newton iteration of a_of_chi (src/ccl_background.c:211-218) has no iteration cap; the model assumes it ends, since `newtonRoot` and `newtonConverged` are total.
