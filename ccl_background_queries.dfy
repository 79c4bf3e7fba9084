/** The public background queries of src/ccl_background.c: each one makes
    sure the tables it needs are in the cosmology's cache (computing them
    and checking the status when they are not), rejects scale factors above
    today (or negative distances) with CCL_ERROR_COMPUTECHI and a fatal
    status check, and otherwise evaluates the cached spline. The batch
    forms do the same point by point into an output buffer. */
module Queries {
  import opened Errors
  import opened Gsl
  import opened Core
  import opened Background
  import opened Tables
  import opened Cosmo
  import opened Compute

  /** 1 - 1e-8: above it (and up to 1) a scale factor counts as today. */
  const NEAR_ONE: real := 0.99999999

  /** 1e-8: below it a non-negative distance counts as zero. */
  const NEAR_ZERO: real := 0.00000001

  /** The answer of a query at one point: a value, or the rejection of a
      point outside the allowed range (which sets CCL_ERROR_COMPUTECHI and
      ends the process). */
  datatype Answer = Value(x: real) | OutOfRange

  // ---------------------------------------------------------------------
  // One point, given the cached splines

  /** ccl_comoving_radial_distance after the cache is ready: 0 for a scale
      factor within 1e-8 below today, a rejection above today, and the chi
      spline elsewhere. */
  function RadialDistanceAt(chi: Spline, num: Numerics, a: real): (q: Answer)
    ensures q.OutOfRange? <==> a > 1.0
    ensures NEAR_ONE < a <= 1.0 ==> q == Value(0.0)
  {
    if NEAR_ONE < a <= 1.0 then Value(0.0)
    else if a > 1.0 then OutOfRange
    else Value(num.splineEval(chi.xs, chi.ys, a))
  }

  /** ccl_comoving_angular_distance after the cache is ready: the radial
      distance passed through ccl_sinn for the curvature sign kSign, which
      in flat space leaves it as it is. */
  function AngularDistanceAt(chi: Spline, num: Numerics, kSign: int, sqrtk: real, a: real): (q: Answer)
    requires kSign == 1 || kSign == -1 ==> sqrtk != 0.0
    ensures q.OutOfRange? <==> a > 1.0
    ensures NEAR_ONE < a <= 1.0 ==> q == Value(0.0)
    ensures kSign == 0 ==> q == RadialDistanceAt(chi, num, a)
    ensures a <= NEAR_ONE ==>
      q == Value(Sinn(kSign, sqrtk, RadialDistanceAt(chi, num, a).x, num, Ok).0)
  {
    if NEAR_ONE < a <= 1.0 then Value(0.0)
    else if a > 1.0 then OutOfRange
    else Value(Sinn(kSign, sqrtk, num.splineEval(chi.xs, chi.ys, a), num, Ok).0)
  }

  /** ccl_luminosity_distance after the cache is ready: the radial distance
      divided by the scale factor, with the same range checks. */
  function LuminosityDistanceAt(chi: Spline, num: Numerics, a: real): (q: Answer)
    requires a <= NEAR_ONE ==> a != 0.0
    ensures q.OutOfRange? <==> a > 1.0
    ensures NEAR_ONE < a <= 1.0 ==> q == Value(0.0)
    ensures a <= NEAR_ONE ==> q == Value(RadialDistanceAt(chi, num, a).x / a)
  {
    if NEAR_ONE < a <= 1.0 then Value(0.0)
    else if a > 1.0 then OutOfRange
    else Value(num.splineEval(chi.xs, chi.ys, a) / a)
  }

  /** ccl_scale_factor_of_chi after the cache is ready: 1 for a distance
      within 1e-8 of zero, a rejection for a negative distance, and the
      a(chi) spline elsewhere. */
  function ScaleFactorAt(achi: Spline, num: Numerics, chi: real): (q: Answer)
    ensures q.OutOfRange? <==> chi < 0.0
    ensures 0.0 <= chi < NEAR_ZERO ==> q == Value(1.0)
    ensures chi >= NEAR_ZERO ==> q == Value(num.splineEval(achi.xs, achi.ys, chi))
  {
    if 0.0 <= chi < NEAR_ZERO then Value(1.0)
    else if chi < 0.0 then OutOfRange
    else Value(num.splineEval(achi.xs, achi.ys, chi))
  }

  /** ccl_growth_factor and ccl_growth_rate after the cache is ready: a
      rejection above today, the spline (growth or fgrowth) elsewhere. */
  function UpToToday(s: Spline, num: Numerics, a: real): (q: Answer)
    ensures q.OutOfRange? <==> a > 1.0
    ensures a <= 1.0 ==> q == Value(num.splineEval(s.xs, s.ys, a))
  {
    if a > 1.0 then OutOfRange else Value(num.splineEval(s.xs, s.ys, a))
  }

  /** ccl_growth_factor_unnorm after the cache is ready: the normalised
      growth factor scaled back by growth0. */
  function UnnormGrowthAt(growth: Spline, growth0: real, num: Numerics, a: real): (q: Answer)
    ensures q.OutOfRange? <==> a > 1.0
    ensures a <= 1.0 ==> q == Value(growth0 * UpToToday(growth, num, a).x)
  {
    if a > 1.0 then OutOfRange else Value(growth0 * num.splineEval(growth.xs, growth.ys, a))
  }

  // ---------------------------------------------------------------------
  // What the answers are at the nodes of the tables

  /** At every node of the scale-factor grid, the expansion-rate query
      returns h_over_h0 and, away from today, the radial distance query
      returns the integrated distance chi(a) and the luminosity distance
      query chi(a)/a. */
  lemma {:induction false} DistanceQueriesAtNodes(p: Parameters, sp: SplineParams, num: Numerics, oom: set<AllocSite>,
                                                 t: DistanceTables, e: Spline, chi: Spline, i: int)
    requires WellFormed(num)
    requires sp.aSplineMin > 0.0 && sp.aSplineMax > 0.0
    requires DistancesOutcome(p, sp, num, oom) == Done(t)
    requires e.xs == t.a && e.ys == t.e && chi.xs == t.a && chi.ys == t.chi
    requires 0 <= i < |t.a|
    ensures t.a[i] > 0.0
    ensures num.splineEval(e.xs, e.ys, t.a[i]) == HOverH0(p, num, t.a[i])
    ensures t.a[i] <= NEAR_ONE ==>
      && RadialDistanceAt(chi, num, t.a[i]) == Value(num.chiOf(t.a[i]))
      && LuminosityDistanceAt(chi, num, t.a[i]) == Value(num.chiOf(t.a[i]) / t.a[i])
  {
    PositiveGrid(sp, num);
    assert DistancesFromGrid(p, num, oom, t.a) == Done(t);
    DistanceTablesAtNodes(p, num, oom, t.a);
  }

  /** The a(chi) query returns a_min at the far end of its distance grid
      and, when that grid has two or more points, a_max at the near end
      (each provided the distance there is not within 1e-8 of zero). */
  lemma {:induction false} ScaleFactorQueryAtEnds(p: Parameters, sp: SplineParams, num: Numerics, oom: set<AllocSite>,
                                                 t: DistanceTables, achi: Spline)
    requires WellFormed(num)
    requires sp.aSplineMin > 0.0 && sp.aSplineMax > 0.0
    requires DistancesOutcome(p, sp, num, oom) == Done(t)
    requires achi.xs == t.chiGrid && achi.ys == t.aOfChi
    ensures |t.chiGrid| >= 1
    ensures t.chiGrid[|t.chiGrid| - 1] >= NEAR_ZERO ==>
      ScaleFactorAt(achi, num, t.chiGrid[|t.chiGrid| - 1]) == Value(t.a[0])
    ensures |t.chiGrid| >= 2 && t.chiGrid[0] >= NEAR_ZERO ==>
      ScaleFactorAt(achi, num, t.chiGrid[0]) == Value(t.a[|t.a| - 1])
  {
    PositiveGrid(sp, num);
    var a := t.a;
    var e := ExpansionTable(p, num, a);
    var chi := DistanceTable(num, a);
    assert DistancesFromGrid(p, num, oom, a) == Done(t);
    var chi0, chif := chi[|a| - 1], chi[0];
    assert InverseTable(num, oom, chi0, chif, a[|a| - 1], a[0]) == Done((t.chiGrid, t.aOfChi));
    InverseTableAtEnds(num, oom, chi0, chif, a[|a| - 1], a[0]);
  }

  /** Without modified growth, at every node of the scale-factor grid up to
      today, the unnormalised growth query returns the ODE growth factor
      D(a), the growth-rate query the ODE rate f(a), and at a node a = 1 the
      normalised growth query returns exactly 1. */
  lemma GrowthQueriesAtNodes(p: Parameters, zs: seq<real>, dfs: seq<real>, sp: SplineParams,
                             num: Numerics, oom: set<AllocSite>,
                             t: GrowthTables, growth: Spline, fgrowth: Spline, i: int)
    requires WellFormed(num)
    requires !p.hasMgrowth
    requires GrowthOutcome(p, zs, dfs, sp, num, oom) == Done(t)
    requires growth.xs == t.a && growth.ys == t.d && fgrowth.xs == t.a && fgrowth.ys == t.f
    requires 0 <= i < |t.a| && t.a[i] <= 1.0
    ensures UnnormGrowthAt(growth, t.growth0, num, t.a[i]) == Value(GrowthAndRate(num, sp.epsScalefacGrowth, t.a[i]).d)
    ensures UpToToday(fgrowth, num, t.a[i]) == Value(GrowthAndRate(num, sp.epsScalefacGrowth, t.a[i]).f)
    ensures t.a[i] == 1.0 ==> UpToToday(growth, num, t.a[i]) == Value(1.0)
  {
    GrowthOutcomeFromGrid(p, zs, dfs, sp, num, oom, t);
    GrowthGridQueriesAtNodes(p, zs, dfs, sp.epsScalefacGrowth, num, oom, t, growth, fgrowth, i);
  }

  /** A computed growth outcome is the one built on the scale-factor grid. */
  lemma GrowthOutcomeFromGrid(p: Parameters, zs: seq<real>, dfs: seq<real>, sp: SplineParams,
                              num: Numerics, oom: set<AllocSite>, t: GrowthTables)
    requires WellFormed(num)
    requires p.hasMgrowth ==> |zs| >= 1 && |dfs| == |zs|
    requires GrowthOutcome(p, zs, dfs, sp, num, oom) == Done(t)
    ensures GrowthFromGrid(p, zs, dfs, sp.epsScalefacGrowth, num, oom, t.a) == Done(t)
  {
  }

  /** GrowthQueriesAtNodes, for the tables built on a given grid. */
  lemma GrowthGridQueriesAtNodes(p: Parameters, zs: seq<real>, dfs: seq<real>, eps: real,
                                                   num: Numerics, oom: set<AllocSite>,
                                                   t: GrowthTables, growth: Spline, fgrowth: Spline, i: int)
    requires WellFormed(num)
    requires !p.hasMgrowth
    requires GrowthFromGrid(p, zs, dfs, eps, num, oom, t.a) == Done(t)
    requires growth.xs == t.a && growth.ys == t.d && fgrowth.xs == t.a && fgrowth.ys == t.f
    requires 0 <= i < |t.a| && t.a[i] <= 1.0
    ensures UnnormGrowthAt(growth, t.growth0, num, t.a[i]) == Value(GrowthAndRate(num, eps, t.a[i]).d)
    ensures UpToToday(fgrowth, num, t.a[i]) == Value(GrowthAndRate(num, eps, t.a[i]).f)
    ensures t.a[i] == 1.0 ==> UpToToday(growth, num, t.a[i]) == Value(1.0)
  {
    var a, g := t.a[i], GrowthAndRate(num, eps, t.a[i]);
    GrowthTablesAtNode(p, zs, dfs, eps, num, oom, t.a, i);
    GrowthNodeAnswers(growth, fgrowth, t.growth0, num, a, g.d, g.f);
  }

  /** The growth queries at a point up to today where the splines give
      d / growth0 and f. */
  lemma GrowthNodeAnswers(growth: Spline, fgrowth: Spline, growth0: real, num: Numerics, a: real, d: real, f: real)
    requires a <= 1.0
    requires num.splineEval(growth.xs, growth.ys, a) * growth0 == d
    requires num.splineEval(fgrowth.xs, fgrowth.ys, a) == f
    ensures UnnormGrowthAt(growth, growth0, num, a) == Value(d)
    ensures UpToToday(fgrowth, num, a) == Value(f)
  {
    var x := num.splineEval(growth.xs, growth.ys, a);
    assert growth0 * x == x * growth0;
  }

  // ---------------------------------------------------------------------
  // Making the cache ready

  /** The status and control flow after the lazy computation at the head of
      a query: nothing happens when the tables are cached; a failed
      computation stores its code and the status check ends the process; a
      successful one leaves the caller's status, which is then checked, so a
      status that was already nonzero ends the process too. */
  function ReadyCheck<T>(computed: bool, outcome: Outcome<T>, status: Status): (r: (Status, Control))
    ensures r.1.Continue? <==> computed || (outcome.Done? && status == Ok)
    ensures r.1.Continue? ==> r.0 == status
    ensures r.1.Exit? ==> r.1 == Exit(1)
    ensures !computed && outcome.Failed? ==> r.0 == Fail(outcome.code)
  {
    if computed then (status, Continue)
    else match outcome
      case Failed(c) => (Fail(c), CheckStatus(Fail(c)))
      case Done(_) => (status, CheckStatus(status))
  }

  /** The cache after the lazy distance computation: unchanged when the
      distances were cached or their computation failed, the new tables
      stored otherwise. */
  twostate predicate DistancesCached(cosmo: Cosmology, outcome: Outcome<DistanceTables>)
    reads cosmo
  {
    if old(cosmo.computedDistances) then unchanged(cosmo)
    else match outcome
      case Failed(_) => unchanged(cosmo)
      case Done(t) => DistancesStored(cosmo, t)
  }

  /** The same for the growth tables. */
  twostate predicate GrowthCached(cosmo: Cosmology, outcome: Outcome<GrowthTables>)
    reads cosmo
  {
    if old(cosmo.computedGrowth) then unchanged(cosmo)
    else match outcome
      case Failed(_) => unchanged(cosmo)
      case Done(t) => GrowthStored(cosmo, t)
  }

  /** `if (!cosmo->computed_distances) { compute; check status; }` */
  method EnsureDistances(cosmo: Cosmology, sp: SplineParams, num: Numerics, oom: set<AllocSite>, status: Status)
    returns (status': Status, ctl: Control)
    requires cosmo.Valid() && WellFormed(num)
    requires sp.aSplineMin > 0.0 && sp.aSplineMax > 0.0
    modifies cosmo
    ensures cosmo.Valid()
    ensures DistancesCached(cosmo, DistancesOutcome(cosmo.params, sp, num, oom))
    ensures (status', ctl) == ReadyCheck(old(cosmo.computedDistances), DistancesOutcome(cosmo.params, sp, num, oom), status)
    ensures ctl.Continue? ==> cosmo.computedDistances
  {
    if !cosmo.computedDistances {
      status' := ComputeDistances(cosmo, sp, num, oom, status);
      ctl := CheckStatus(status');
    } else {
      status' := status;
      ctl := Continue;
    }
  }

  /** The growth computation's outcome for the modified-growth arrays as
      they were when the query was called. */
  twostate function CachedGrowthOutcome(cosmo: Cosmology, sp: SplineParams, num: Numerics, oom: set<AllocSite>): Outcome<GrowthTables>
    requires WellFormed(num) && MgrowthWellFormed(cosmo.params)
    reads cosmo
  {
    old(GrowthOutcome(cosmo.params, MgrowthRedshifts(cosmo.params), MgrowthValues(cosmo.params), sp, num, oom))
  }

  /** `if (!cosmo->computed_growth) { compute; check status; }` */
  method EnsureGrowth(cosmo: Cosmology, sp: SplineParams, num: Numerics, oom: set<AllocSite>, status: Status)
    returns (status': Status, ctl: Control)
    requires cosmo.Valid() && WellFormed(num)
    requires MgrowthWellFormed(cosmo.params)
    modifies cosmo
    ensures cosmo.Valid()
    ensures GrowthCached(cosmo, CachedGrowthOutcome(cosmo, sp, num, oom))
    ensures (status', ctl) == ReadyCheck(old(cosmo.computedGrowth), CachedGrowthOutcome(cosmo, sp, num, oom), status)
    ensures ctl.Continue? ==> cosmo.computedGrowth
  {
    if !cosmo.computedGrowth {
      status' := ComputeGrowth(cosmo, sp, num, oom, status);
      ctl := CheckStatus(status');
    } else {
      status' := status;
      ctl := Continue;
    }
  }

  // ---------------------------------------------------------------------
  // Batches

  /** f can be evaluated at every point the batch loop reaches: at every
      point whose predecessors were all answered. */
  ghost predicate DefinedWhileAnswered(xs: seq<real>, f: real --> Answer) {
    forall j :: 0 <= j < |xs| && (forall k :: 0 <= k < j ==> f.requires(xs[k]) && f(xs[k]).Value?) ==> f.requires(xs[j])
  }

  /** The loop of a batch query: output[i] receives the answer at xs[i]
      until the first rejected point, where the loop stops (the status
      check there ends the process); `stop` is that point, or |xs|. */
  method FillAnswers(xs: seq<real>, f: real --> Answer, output: array<real>) returns (stop: int)
    requires output.Length == |xs|
    requires DefinedWhileAnswered(xs, f)
    modifies output
    ensures stop == FirstRejected(xs, f, 0)
    ensures forall j :: 0 <= j < stop ==> f(xs[j]) == Value(output[j])
    ensures forall j :: stop <= j < |xs| ==> output[j] == old(output[j])
  {
    stop := 0;
    while stop < |xs| && f(xs[stop]).Value?
      invariant 0 <= stop <= |xs|
      invariant forall j :: 0 <= j < stop ==> f.requires(xs[j]) && f(xs[j]) == Value(output[j])
      invariant forall j :: stop <= j < |xs| ==> output[j] == old(output[j])
    {
      output[stop] := f(xs[stop]).x;
      stop := stop + 1;
    }
  }

  /** The first point at or after `from` that f rejects, or |xs| when it
      rejects none of them. */
  function FirstRejected(xs: seq<real>, f: real --> Answer, from: int): (k: int)
    requires DefinedWhileAnswered(xs, f)
    requires 0 <= from <= |xs|
    requires forall j :: 0 <= j < from ==> f.requires(xs[j]) && f(xs[j]).Value?
    ensures from <= k <= |xs|
    ensures forall j :: 0 <= j < k ==> f.requires(xs[j]) && f(xs[j]).Value?
    ensures k < |xs| ==> f.requires(xs[k]) && f(xs[k]).OutOfRange?
    decreases |xs| - from
  {
    if from == |xs| then from
    else if f(xs[from]).OutOfRange? then from
    else FirstRejected(xs, f, from + 1)
  }

  /** The outcome of a batch after the cache is ready with status `ready`:
      f could be evaluated wherever the loop went, the answers are there up
      to the first rejected point, the rest of the output is untouched, and
      then either the status is left as it was (no point rejected) or it is
      CCL_ERROR_COMPUTECHI and the process ends. */
  twostate predicate Answered(xs: seq<real>, f: real --> Answer, output: array<real>, ready: Status,
                              status': Status, ctl: Control)
    requires output.Length == |xs|
    reads output
  {
    && DefinedWhileAnswered(xs, f)
    && var stop := FirstRejected(xs, f, 0);
    && (forall j :: 0 <= j < stop ==> f(xs[j]) == Value(output[j]))
    && (forall j :: stop <= j < |xs| ==> output[j] == old(output[j]))
    && (stop == |xs| ==> status' == ready && ctl == Continue)
    && (stop < |xs| ==> status' == Fail(ComputeChi) && ctl == Exit(1))
  }

  /** The batch loop followed by the status check at a rejected point. */
  method AnswerAll(xs: seq<real>, f: real --> Answer, output: array<real>, ready: Status)
    returns (status': Status, ctl: Control)
    requires output.Length == |xs|
    requires DefinedWhileAnswered(xs, f)
    modifies output
    ensures Answered(xs, f, output, ready, status', ctl)
    ensures ctl.Continue? <==> forall j :: 0 <= j < |xs| ==> f.requires(xs[j]) && f(xs[j]).Value?
  {
    var stop := FillAnswers(xs, f, output);
    if stop < |xs| {
      status' := Fail(ComputeChi);
      ctl := CheckStatus(status');
    } else {
      status' := ready;
      ctl := Continue;
    }
  }

  function ExpansionRates(e: Spline, num: Numerics): real -> Answer {
    x => Value(num.splineEval(e.xs, e.ys, x))
  }

  function RadialDistances(chi: Spline, num: Numerics): real -> Answer {
    x => RadialDistanceAt(chi, num, x)
  }

  function AngularDistances(chi: Spline, num: Numerics, kSign: int, sqrtk: real): real --> Answer
    requires kSign == 1 || kSign == -1 ==> sqrtk != 0.0
  {
    x => AngularDistanceAt(chi, num, kSign, sqrtk, x)
  }

  function LuminosityDistances(chi: Spline, num: Numerics): real --> Answer {
    x requires x <= NEAR_ONE ==> x != 0.0 => LuminosityDistanceAt(chi, num, x)
  }

  function ScaleFactors(achi: Spline, num: Numerics): real -> Answer {
    x => ScaleFactorAt(achi, num, x)
  }

  function UpToTodays(s: Spline, num: Numerics): real -> Answer {
    x => UpToToday(s, num, x)
  }

  function UnnormGrowths(growth: Spline, growth0: real, num: Numerics): real -> Answer {
    x => UnnormGrowthAt(growth, growth0, num, x)
  }

  // ---------------------------------------------------------------------
  // The queries

  /** ccl_h_over_h0: the E spline at a, with no range check. */
  method HOverH0Query(cosmo: Cosmology, sp: SplineParams, num: Numerics, oom: set<AllocSite>, a: real, status: Status)
    returns (h: real, status': Status, ctl: Control)
    requires cosmo.Valid() && WellFormed(num)
    requires sp.aSplineMin > 0.0 && sp.aSplineMax > 0.0
    modifies cosmo
    ensures cosmo.Valid()
    ensures DistancesCached(cosmo, DistancesOutcome(cosmo.params, sp, num, oom))
    ensures (status', ctl) == ReadyCheck(old(cosmo.computedDistances), DistancesOutcome(cosmo.params, sp, num, oom), status)
    ensures ctl.Continue? ==> cosmo.data.e != null && h == num.splineEval(cosmo.data.e.xs, cosmo.data.e.ys, a)
  {
    h := 0.0;
    status', ctl := EnsureDistances(cosmo, sp, num, oom, status);
    if ctl.Continue? {
      h := num.splineEval(cosmo.data.e.xs, cosmo.data.e.ys, a);
    }
  }

  /** ccl_h_over_h0s. */
  method HOverH0Batch(cosmo: Cosmology, sp: SplineParams, num: Numerics, oom: set<AllocSite>,
                      scales: seq<real>, output: array<real>, status: Status)
    returns (status': Status, ctl: Control)
    requires cosmo.Valid() && WellFormed(num)
    requires sp.aSplineMin > 0.0 && sp.aSplineMax > 0.0
    requires output.Length == |scales|
    modifies cosmo, output
    ensures cosmo.Valid()
    ensures DistancesCached(cosmo, DistancesOutcome(cosmo.params, sp, num, oom))
    ensures var ready := ReadyCheck(old(cosmo.computedDistances), DistancesOutcome(cosmo.params, sp, num, oom), status);
      && (ready.1.Exit? ==> (status', ctl) == ready && unchanged(output))
      && (ready.1.Continue? ==>
            && cosmo.data.e != null
            && Answered(scales, ExpansionRates(cosmo.data.e, num), output, ready.0, status', ctl)
            && ctl.Continue?)
  {
    status', ctl := EnsureDistances(cosmo, sp, num, oom, status);
    label ready:
    if ctl.Continue? {
      status', ctl := AnswerAll(scales, ExpansionRates(cosmo.data.e, num), output, status');
    }
    assert unchanged@ready(cosmo);
  }

  /** ccl_comoving_radial_distance. */
  method ComovingRadialDistance(cosmo: Cosmology, sp: SplineParams, num: Numerics, oom: set<AllocSite>, a: real, status: Status)
    returns (d: real, status': Status, ctl: Control)
    requires cosmo.Valid() && WellFormed(num)
    requires sp.aSplineMin > 0.0 && sp.aSplineMax > 0.0
    modifies cosmo
    ensures cosmo.Valid()
    ensures NEAR_ONE < a <= 1.0 ==> d == 0.0 && status' == status && ctl == Continue && unchanged(cosmo)
    ensures a > 1.0 ==> d == 0.0 && status' == Fail(ComputeChi) && ctl == Exit(1) && unchanged(cosmo)
    ensures a <= NEAR_ONE ==>
      && DistancesCached(cosmo, DistancesOutcome(cosmo.params, sp, num, oom))
      && (status', ctl) == ReadyCheck(old(cosmo.computedDistances), DistancesOutcome(cosmo.params, sp, num, oom), status)
      && (ctl.Continue? ==> cosmo.data.chi != null && RadialDistanceAt(cosmo.data.chi, num, a) == Value(d))
  {
    d := 0.0;
    if NEAR_ONE < a <= 1.0 {
      status', ctl := status, Continue;
    } else if a > 1.0 {
      status' := Fail(ComputeChi);
      ctl := CheckStatus(status');
    } else {
      status', ctl := EnsureDistances(cosmo, sp, num, oom, status);
      if ctl.Continue? {
        d := num.splineEval(cosmo.data.chi.xs, cosmo.data.chi.ys, a);
      }
    }
  }

  /** ccl_comoving_radial_distances. */
  method ComovingRadialDistances(cosmo: Cosmology, sp: SplineParams, num: Numerics, oom: set<AllocSite>,
                                 scales: seq<real>, output: array<real>, status: Status)
    returns (status': Status, ctl: Control)
    requires cosmo.Valid() && WellFormed(num)
    requires sp.aSplineMin > 0.0 && sp.aSplineMax > 0.0
    requires output.Length == |scales|
    modifies cosmo, output
    ensures cosmo.Valid()
    ensures DistancesCached(cosmo, DistancesOutcome(cosmo.params, sp, num, oom))
    ensures var ready := ReadyCheck(old(cosmo.computedDistances), DistancesOutcome(cosmo.params, sp, num, oom), status);
      && (ready.1.Exit? ==> (status', ctl) == ready && unchanged(output))
      && (ready.1.Continue? ==>
            && cosmo.data.chi != null
            && Answered(scales, RadialDistances(cosmo.data.chi, num), output, ready.0, status', ctl)
            && (ctl.Continue? <==> forall j :: 0 <= j < |scales| ==> scales[j] <= 1.0))
  {
    status', ctl := EnsureDistances(cosmo, sp, num, oom, status);
    label ready:
    if ctl.Continue? {
      status', ctl := AnswerAll(scales, RadialDistances(cosmo.data.chi, num), output, status');
    }
    assert unchanged@ready(cosmo);
  }

  /** ccl_comoving_angular_distance; kSign and sqrtk are the curvature
      sign and sqrt|k| that ccl_sinn reads. A bad sign makes ccl_sinn
      return 0 and set CCL_ERROR_PARAMETERS, with no status check. */
  method ComovingAngularDistance(cosmo: Cosmology, sp: SplineParams, num: Numerics, oom: set<AllocSite>,
                                 kSign: int, sqrtk: real, a: real, status: Status)
    returns (d: real, status': Status, ctl: Control)
    requires cosmo.Valid() && WellFormed(num)
    requires sp.aSplineMin > 0.0 && sp.aSplineMax > 0.0
    requires kSign == 1 || kSign == -1 ==> sqrtk != 0.0
    modifies cosmo
    ensures cosmo.Valid()
    ensures NEAR_ONE < a <= 1.0 ==> d == 0.0 && status' == status && ctl == Continue && unchanged(cosmo)
    ensures a > 1.0 ==> d == 0.0 && status' == Fail(ComputeChi) && ctl == Exit(1) && unchanged(cosmo)
    ensures a <= NEAR_ONE ==>
      var ready := ReadyCheck(old(cosmo.computedDistances), DistancesOutcome(cosmo.params, sp, num, oom), status);
      && DistancesCached(cosmo, DistancesOutcome(cosmo.params, sp, num, oom))
      && ctl == ready.1
      && (ctl.Exit? ==> status' == ready.0)
      && (ctl.Continue? ==>
            && cosmo.data.chi != null
            && AngularDistanceAt(cosmo.data.chi, num, kSign, sqrtk, a) == Value(d)
            && status' == Sinn(kSign, sqrtk, RadialDistanceAt(cosmo.data.chi, num, a).x, num, ready.0).1)
  {
    d := 0.0;
    if NEAR_ONE < a <= 1.0 {
      status', ctl := status, Continue;
    } else if a > 1.0 {
      status' := Fail(ComputeChi);
      ctl := CheckStatus(status');
    } else {
      status', ctl := EnsureDistances(cosmo, sp, num, oom, status);
      if ctl.Continue? {
        var r := Sinn(kSign, sqrtk, num.splineEval(cosmo.data.chi.xs, cosmo.data.chi.ys, a), num, status');
        d, status' := r.0, r.1;
      }
    }
  }

  /** The status a complete angular batch leaves: ccl_sinn sets
      CCL_ERROR_PARAMETERS for a bad curvature sign at every point it is
      called on, that is at every point not within 1e-8 below today. */
  function AngularBatchStatus(xs: seq<real>, kSign: int, status: Status): (s: Status)
    ensures s != status ==> s == Fail(ErrorCode.Parameters)
    ensures (forall j :: 0 <= j < |xs| ==> xs[j] > NEAR_ONE) ==> s == status
    ensures kSign == 0 || kSign == 1 || kSign == -1 ==> s == status
  {
    if (exists j :: 0 <= j < |xs| && xs[j] <= NEAR_ONE) && kSign != 0 && kSign != 1 && kSign != -1
    then Fail(ErrorCode.Parameters)
    else status
  }

  /** ccl_comoving_angular_distances: the loop threads the status through
      ccl_sinn at every evaluated point. */
  method ComovingAngularDistances(cosmo: Cosmology, sp: SplineParams, num: Numerics, oom: set<AllocSite>,
                                  kSign: int, sqrtk: real, scales: seq<real>, output: array<real>, status: Status)
    returns (status': Status, ctl: Control)
    requires cosmo.Valid() && WellFormed(num)
    requires sp.aSplineMin > 0.0 && sp.aSplineMax > 0.0
    requires kSign == 1 || kSign == -1 ==> sqrtk != 0.0
    requires output.Length == |scales|
    modifies cosmo, output
    ensures cosmo.Valid()
    ensures DistancesCached(cosmo, DistancesOutcome(cosmo.params, sp, num, oom))
    ensures var ready := ReadyCheck(old(cosmo.computedDistances), DistancesOutcome(cosmo.params, sp, num, oom), status);
      && (ready.1.Exit? ==> (status', ctl) == ready && unchanged(output))
      && (ready.1.Continue? ==>
            && cosmo.data.chi != null
            && Answered(scales, AngularDistances(cosmo.data.chi, num, kSign, sqrtk), output,
                        AngularBatchStatus(scales, kSign, ready.0), status', ctl)
            && (ctl.Continue? <==> forall j :: 0 <= j < |scales| ==> scales[j] <= 1.0))
  {
    status', ctl := EnsureDistances(cosmo, sp, num, oom, status);
    label ready:
    if ctl.Continue? {
      var ready := status';
      var stop;
      stop, status' := FillAngular(cosmo.data.chi, num, kSign, sqrtk, scales, output, ready);
      if stop < |scales| {
        status' := Fail(ComputeChi);
        ctl := CheckStatus(status');
      } else {
        assert scales[..stop] == scales;
      }
    }
    assert unchanged@ready(cosmo);
  }

  /** Appending one point to an angular batch: ccl_sinn is called on it
      (and sets CCL_ERROR_PARAMETERS for a bad sign) unless it lies within
      1e-8 below today. */
  lemma AngularBatchStatusStep(xs: seq<real>, i: int, kSign: int, status: Status)
    requires 0 <= i < |xs|
    ensures AngularBatchStatus(xs[..i + 1], kSign, status) ==
      if xs[i] <= NEAR_ONE && kSign != 0 && kSign != 1 && kSign != -1 then Fail(ErrorCode.Parameters)
      else AngularBatchStatus(xs[..i], kSign, status)
  {
    assert xs[..i + 1][i] == xs[i];
    assert forall j :: 0 <= j < i ==> xs[..i + 1][j] == xs[..i][j];
  }

  /** One point of ccl_comoving_angular_distances up to today: 0 within
      1e-8 below today, otherwise ccl_sinn of the chi spline, which sets
      CCL_ERROR_PARAMETERS for a bad curvature sign. */
  method AngularPoint(chi: Spline, num: Numerics, kSign: int, sqrtk: real, a: real, status: Status)
    returns (d: real, status': Status)
    requires kSign == 1 || kSign == -1 ==> sqrtk != 0.0
    requires a <= 1.0
    ensures AngularDistanceAt(chi, num, kSign, sqrtk, a) == Value(d)
    ensures status' == if a <= NEAR_ONE && kSign != 0 && kSign != 1 && kSign != -1 then Fail(ErrorCode.Parameters) else status
  {
    if NEAR_ONE < a {
      d, status' := 0.0, status;
    } else {
      var r := Sinn(kSign, sqrtk, num.splineEval(chi.xs, chi.ys, a), num, status);
      d, status' := r.0, r.1;
    }
  }

  /** The loop of ccl_comoving_angular_distances: like the other batch
      loops, but the status is threaded through ccl_sinn. */
  method FillAngular(chi: Spline, num: Numerics, kSign: int, sqrtk: real, scales: seq<real>,
                     output: array<real>, ready: Status)
    returns (stop: int, status': Status)
    requires kSign == 1 || kSign == -1 ==> sqrtk != 0.0
    requires output.Length == |scales|
    modifies output
    ensures stop == FirstRejected(scales, AngularDistances(chi, num, kSign, sqrtk), 0)
    ensures forall j :: 0 <= j < stop ==> AngularDistanceAt(chi, num, kSign, sqrtk, scales[j]) == Value(output[j])
    ensures forall j :: stop <= j < |scales| ==> output[j] == old(output[j])
    ensures status' == AngularBatchStatus(scales[..stop], kSign, ready)
  {
    stop := 0;
    status' := ready;
    while stop < |scales| && scales[stop] <= 1.0
      invariant 0 <= stop <= |scales|
      invariant forall j :: 0 <= j < stop ==> AngularDistanceAt(chi, num, kSign, sqrtk, scales[j]) == Value(output[j])
      invariant forall j :: stop <= j < |scales| ==> output[j] == old(output[j])
      invariant status' == AngularBatchStatus(scales[..stop], kSign, ready)
    {
      AngularBatchStatusStep(scales, stop, kSign, ready);
      output[stop], status' := AngularPoint(chi, num, kSign, sqrtk, scales[stop], status');
      stop := stop + 1;
    }
    ghost var f := AngularDistances(chi, num, kSign, sqrtk);
    assert forall j :: 0 <= j < stop ==> f(scales[j]).Value?;
  }

  /** ccl_luminosity_distance: after the cache is ready, the radial
      distance query at a divided by a. */
  method LuminosityDistance(cosmo: Cosmology, sp: SplineParams, num: Numerics, oom: set<AllocSite>, a: real, status: Status)
    returns (d: real, status': Status, ctl: Control)
    requires cosmo.Valid() && WellFormed(num)
    requires sp.aSplineMin > 0.0 && sp.aSplineMax > 0.0
    requires a <= NEAR_ONE ==> a != 0.0
    modifies cosmo
    ensures cosmo.Valid()
    ensures NEAR_ONE < a <= 1.0 ==> d == 0.0 && status' == status && ctl == Continue && unchanged(cosmo)
    ensures a > 1.0 ==> d == 0.0 && status' == Fail(ComputeChi) && ctl == Exit(1) && unchanged(cosmo)
    ensures a <= NEAR_ONE ==>
      && DistancesCached(cosmo, DistancesOutcome(cosmo.params, sp, num, oom))
      && (status', ctl) == ReadyCheck(old(cosmo.computedDistances), DistancesOutcome(cosmo.params, sp, num, oom), status)
      && (ctl.Continue? ==> cosmo.data.chi != null && LuminosityDistanceAt(cosmo.data.chi, num, a) == Value(d))
  {
    d := 0.0;
    if NEAR_ONE < a <= 1.0 {
      status', ctl := status, Continue;
    } else if a > 1.0 {
      status' := Fail(ComputeChi);
      ctl := CheckStatus(status');
    } else {
      status', ctl := EnsureDistances(cosmo, sp, num, oom, status);
      if ctl.Continue? {
        var radial, s, c := ComovingRadialDistance(cosmo, sp, num, oom, a, status');
        d := radial / a;
        status', ctl := s, c;
      }
    }
  }

  /** ccl_luminosity_distances. */
  method LuminosityDistanceBatch(cosmo: Cosmology, sp: SplineParams, num: Numerics, oom: set<AllocSite>,
                                 scales: seq<real>, output: array<real>, status: Status)
    returns (status': Status, ctl: Control)
    requires cosmo.Valid() && WellFormed(num)
    requires sp.aSplineMin > 0.0 && sp.aSplineMax > 0.0
    requires ReachedAreNonzero(scales)
    requires output.Length == |scales|
    modifies cosmo, output
    ensures cosmo.Valid()
    ensures DistancesCached(cosmo, DistancesOutcome(cosmo.params, sp, num, oom))
    ensures var ready := ReadyCheck(old(cosmo.computedDistances), DistancesOutcome(cosmo.params, sp, num, oom), status);
      && (ready.1.Exit? ==> (status', ctl) == ready && unchanged(output))
      && (ready.1.Continue? ==>
            && cosmo.data.chi != null
            && Answered(scales, LuminosityDistances(cosmo.data.chi, num), output, ready.0, status', ctl)
            && (ctl.Continue? <==> forall j :: 0 <= j < |scales| ==> scales[j] <= 1.0))
  {
    status', ctl := EnsureDistances(cosmo, sp, num, oom, status);
    label ready:
    if ctl.Continue? {
      LuminosityDefinedWhileAnswered(cosmo.data.chi, num, scales);
      status', ctl := AnswerAll(scales, LuminosityDistances(cosmo.data.chi, num), output, status');
    }
    assert unchanged@ready(cosmo);
  }

  /** Every scale factor the loop of ccl_luminosity_distances reaches (each
      one preceded only by scale factors up to today) is nonzero where the
      distance is divided by it. */
  predicate ReachedAreNonzero(scales: seq<real>) {
    forall j :: 0 <= j < |scales| && (forall k :: 0 <= k < j ==> scales[k] <= 1.0) && scales[j] <= NEAR_ONE ==>
      scales[j] != 0.0
  }

  /** Hence the luminosity distance can be evaluated wherever that loop goes. */
  lemma LuminosityDefinedWhileAnswered(chi: Spline, num: Numerics, scales: seq<real>)
    requires ReachedAreNonzero(scales)
    ensures DefinedWhileAnswered(scales, LuminosityDistances(chi, num))
  {
    var f := LuminosityDistances(chi, num);
    forall j | 0 <= j < |scales| && (forall k :: 0 <= k < j ==> f.requires(scales[k]) && f(scales[k]).Value?)
      ensures f.requires(scales[j])
    {
      forall k | 0 <= k < j ensures scales[k] <= 1.0 {
        assert f(scales[k]) == LuminosityDistanceAt(chi, num, scales[k]);
      }
    }
  }

  /** ccl_scale_factor_of_chi. */
  method ScaleFactorOfChi(cosmo: Cosmology, sp: SplineParams, num: Numerics, oom: set<AllocSite>, chi: real, status: Status)
    returns (a: real, status': Status, ctl: Control)
    requires cosmo.Valid() && WellFormed(num)
    requires sp.aSplineMin > 0.0 && sp.aSplineMax > 0.0
    modifies cosmo
    ensures cosmo.Valid()
    ensures 0.0 <= chi < NEAR_ZERO ==> a == 1.0 && status' == status && ctl == Continue && unchanged(cosmo)
    ensures chi < 0.0 ==> a == 0.0 && status' == Fail(ComputeChi) && ctl == Exit(1) && unchanged(cosmo)
    ensures chi >= NEAR_ZERO ==>
      && DistancesCached(cosmo, DistancesOutcome(cosmo.params, sp, num, oom))
      && (status', ctl) == ReadyCheck(old(cosmo.computedDistances), DistancesOutcome(cosmo.params, sp, num, oom), status)
      && (ctl.Continue? ==> cosmo.data.achi != null && ScaleFactorAt(cosmo.data.achi, num, chi) == Value(a))
  {
    if 0.0 <= chi < NEAR_ZERO {
      a := 1.0;
      status', ctl := status, Continue;
    } else if chi < 0.0 {
      a := 0.0;
      status' := Fail(ComputeChi);
      ctl := CheckStatus(status');
    } else {
      a := 0.0;
      status', ctl := EnsureDistances(cosmo, sp, num, oom, status);
      if ctl.Continue? {
        a := num.splineEval(cosmo.data.achi.xs, cosmo.data.achi.ys, chi);
      }
    }
  }

  /** ccl_scale_factor_of_chis. */
  method ScaleFactorOfChis(cosmo: Cosmology, sp: SplineParams, num: Numerics, oom: set<AllocSite>,
                           chis: seq<real>, output: array<real>, status: Status)
    returns (status': Status, ctl: Control)
    requires cosmo.Valid() && WellFormed(num)
    requires sp.aSplineMin > 0.0 && sp.aSplineMax > 0.0
    requires output.Length == |chis|
    modifies cosmo, output
    ensures cosmo.Valid()
    ensures DistancesCached(cosmo, DistancesOutcome(cosmo.params, sp, num, oom))
    ensures var ready := ReadyCheck(old(cosmo.computedDistances), DistancesOutcome(cosmo.params, sp, num, oom), status);
      && (ready.1.Exit? ==> (status', ctl) == ready && unchanged(output))
      && (ready.1.Continue? ==>
            && cosmo.data.achi != null
            && Answered(chis, ScaleFactors(cosmo.data.achi, num), output, ready.0, status', ctl)
            && (ctl.Continue? <==> forall j :: 0 <= j < |chis| ==> chis[j] >= 0.0))
  {
    status', ctl := EnsureDistances(cosmo, sp, num, oom, status);
    label ready:
    if ctl.Continue? {
      status', ctl := AnswerAll(chis, ScaleFactors(cosmo.data.achi, num), output, status');
    }
    assert unchanged@ready(cosmo);
  }

  // ---------------------------------------------------------------------
  // Growth queries

  /** The three growth quantities: ccl_growth_factor (D(a)/D(1), the growth
      spline), ccl_growth_factor_unnorm (growth0 times that) and
      ccl_growth_rate (f(a), the fgrowth spline). */
  datatype GrowthQuantity = Normalised | Unnormalised | Rate

  /** The answer for one quantity at one point, after the cache is ready. */
  function GrowthAnswer(quantity: GrowthQuantity, d: Data, num: Numerics, a: real): (q: Answer)
    requires d.growth != null && d.fgrowth != null
    ensures q.OutOfRange? <==> a > 1.0
  {
    match quantity
    case Normalised => UpToToday(d.growth, num, a)
    case Unnormalised => UnnormGrowthAt(d.growth, d.growth0, num, a)
    case Rate => UpToToday(d.fgrowth, num, a)
  }

  function GrowthAnswers(quantity: GrowthQuantity, d: Data, num: Numerics): real --> Answer
    requires d.growth != null && d.fgrowth != null
  {
    x => GrowthAnswer(quantity, d, num, x)
  }

  /** ccl_growth_factor, ccl_growth_factor_unnorm and ccl_growth_rate. */
  method GrowthQuery(cosmo: Cosmology, sp: SplineParams, num: Numerics, oom: set<AllocSite>,
                     quantity: GrowthQuantity, a: real, status: Status)
    returns (g: real, status': Status, ctl: Control)
    requires cosmo.Valid() && WellFormed(num)
    requires MgrowthWellFormed(cosmo.params)
    modifies cosmo
    ensures cosmo.Valid()
    ensures a > 1.0 ==> g == 0.0 && status' == Fail(ComputeChi) && ctl == Exit(1) && unchanged(cosmo)
    ensures a <= 1.0 ==>
      var outcome := CachedGrowthOutcome(cosmo, sp, num, oom);
      && GrowthCached(cosmo, outcome)
      && (status', ctl) == ReadyCheck(old(cosmo.computedGrowth), outcome, status)
      && (ctl.Continue? ==>
            && cosmo.data.growth != null && cosmo.data.fgrowth != null
            && GrowthAnswer(quantity, cosmo.data, num, a) == Value(g))
  {
    g := 0.0;
    if a > 1.0 {
      status' := Fail(ComputeChi);
      ctl := CheckStatus(status');
    } else {
      status', ctl := EnsureGrowth(cosmo, sp, num, oom, status);
      if ctl.Continue? {
        var d := cosmo.data;
        match quantity
        case Normalised => g := num.splineEval(d.growth.xs, d.growth.ys, a);
        case Unnormalised => g := d.growth0 * num.splineEval(d.growth.xs, d.growth.ys, a);
        case Rate => g := num.splineEval(d.fgrowth.xs, d.fgrowth.ys, a);
      }
    }
  }

  /** ccl_growth_factors, ccl_growth_factors_unnorm and ccl_growth_rates. */
  method GrowthBatch(cosmo: Cosmology, sp: SplineParams, num: Numerics, oom: set<AllocSite>,
                     quantity: GrowthQuantity, scales: seq<real>, output: array<real>, status: Status)
    returns (status': Status, ctl: Control)
    requires cosmo.Valid() && WellFormed(num)
    requires MgrowthWellFormed(cosmo.params)
    requires output.Length == |scales|
    modifies cosmo, output
    ensures cosmo.Valid()
    ensures
      var outcome := CachedGrowthOutcome(cosmo, sp, num, oom);
      var ready := ReadyCheck(old(cosmo.computedGrowth), outcome, status);
      && GrowthCached(cosmo, outcome)
      && (ready.1.Exit? ==> (status', ctl) == ready && unchanged(output))
      && (ready.1.Continue? ==>
            && cosmo.data.growth != null && cosmo.data.fgrowth != null
            && Answered(scales, GrowthAnswers(quantity, cosmo.data, num), output, ready.0, status', ctl)
            && (ctl.Continue? <==> forall j :: 0 <= j < |scales| ==> scales[j] <= 1.0))
  {
    status', ctl := EnsureGrowth(cosmo, sp, num, oom, status);
    label ready:
    if ctl.Continue? {
      status', ctl := AnswerGrowth(quantity, cosmo.data, num, scales, output, status');
    }
    assert unchanged@ready(cosmo);
  }

  /** The loop of a growth batch: it stops exactly at the first scale
      factor above today. */
  method AnswerGrowth(quantity: GrowthQuantity, d: Data, num: Numerics, scales: seq<real>, output: array<real>, ready: Status)
    returns (status': Status, ctl: Control)
    requires d.growth != null && d.fgrowth != null
    requires output.Length == |scales|
    modifies output
    ensures Answered(scales, GrowthAnswers(quantity, d, num), output, ready, status', ctl)
    ensures ctl.Continue? <==> forall j :: 0 <= j < |scales| ==> scales[j] <= 1.0
  {
    status', ctl := AnswerAll(scales, GrowthAnswers(quantity, d, num), output, ready);
  }
}
