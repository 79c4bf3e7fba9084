/** ccl_cosmology_compute_distances and ccl_cosmology_compute_growth as
    those two routines proceed: buffers filled by loops, checks with early
    returns, and finally the new splines installed in the cosmology's cache. Each
    builder is proved to produce exactly the outcome its table function
    describes. */
module Compute {
  import opened Optional
  import opened Errors
  import opened Gsl
  import opened Core
  import opened Background
  import opened Tables
  import opened Cosmo

  // ---------------------------------------------------------------------
  // Distances

  /** The loop filling y with E(a). */
  method FillExpansionRates(p: Parameters, num: Numerics, a: seq<real>, y: array<real>)
    requires y.Length == |a| && forall i :: 0 <= i < |a| ==> a[i] != 0.0
    modifies y
    ensures y[..] == ExpansionTable(p, num, a)
  {
    for i := 0 to |a|
      invariant forall k :: 0 <= k < i ==> y[k] == HOverH0(p, num, a[k])
    {
      y[i] := HOverH0(p, num, a[i]);
    }
  }

  /** The loop filling y with chi(a); `failed` accumulates the integration
      failures (chistatus |= compute_chi(...)). */
  method FillDistances(num: Numerics, a: seq<real>, y: array<real>) returns (failed: bool)
    requires y.Length == |a|
    modifies y
    ensures y[..] == DistanceTable(num, a)
    ensures failed <==> !DistancesConverged(num, a)
  {
    failed := false;
    for i := 0 to |a|
      invariant forall k :: 0 <= k < i ==> y[k] == num.chiOf(a[k])
      invariant failed <==> exists k :: 0 <= k < i && !num.chiConverged(a[k])
    {
      y[i] := num.chiOf(a[i]);
      failed := failed || !num.chiConverged(a[i]);
    }
  }

  /** The a(chi) buffer: a0 first, af last, and the warm-started roots in
      between; `failed` accumulates the root-finding failures. */
  method FillScaleFactors(num: Numerics, chis: seq<real>, a0: real, af: real, table: array<real>) returns (failed: bool)
    requires table.Length == |chis| >= 1
    modifies table
    ensures table[..] == ScaleFactorTable(num, chis, a0, af).roots
    ensures failed <==> !ScaleFactorTable(num, chis, a0, af).ok
  {
    var n := table.Length;
    table[0] := a0;
    table[n - 1] := af;
    var aOld := a0;
    failed := false;
    ghost var chain := Chain([], true);
    var i := 1;
    assert chis[1..1] == [];
    while i < n - 1
      invariant 1 <= i <= n && (n >= 2 ==> i <= n - 1)
      invariant table[n - 1] == af
      invariant n >= 2 ==> table[0] == a0
      invariant chain == RootChain(num, chis[1..i], a0)
      invariant |chain.roots| == i - 1
      invariant forall k :: 1 <= k < i ==> table[k] == chain.roots[k - 1]
      invariant failed <==> !chain.ok
      invariant aOld == LastOr(chain.roots, a0)
    {
      var step := ScaleFactorStep(num, chis[i], aOld);
      RootChainStep(num, chis, i, a0, chain, step);
      aOld := step.0;
      failed := failed || !step.1;
      table[i] := aOld;
      chain := Chain(chain.roots + [step.0], chain.ok && step.1);
      i := i + 1;
    }
    if n >= 2 {
      assert table[..] == [a0] + chain.roots + [af];
    }
  }

  /** One more grid point extends the chain of roots by the root found
      from the last one. */
  lemma RootChainStep(num: Numerics, chis: seq<real>, i: int, start: real, chain: Chain, step: (real, bool))
    requires 1 <= i < |chis|
    requires chain == RootChain(num, chis[1..i], start)
    requires step == ScaleFactorStep(num, chis[i], LastOr(chain.roots, start))
    ensures RootChain(num, chis[1..i + 1], start) == Chain(chain.roots + [step.0], chain.ok && step.1)
  {
    assert chis[1..i + 1][..i - 1] == chis[1..i];
  }

  /** The a(chi) part of ccl_cosmology_compute_distances. */
  method BuildInverseTable(num: Numerics, oom: set<AllocSite>, chi0: real, chif: real, a0: real, af: real)
    returns (r: Outcome<(seq<real>, seq<real>)>)
    requires WellFormed(num)
    ensures r == InverseTable(num, oom, chi0, chif, a0, af)
  {
    var n := ChiGridSize(chi0, chif);
    var y := num.linearSpacing(chi0, chif, n);
    if y.None? || !EndsNear(y.value, chi0, chif) {
      return Failed(Linspace);
    }
    if DistancesAChi in oom {
      return Failed(Memory);
    }
    var a := new real[n];
    var failed := FillScaleFactors(num, y.value, a0, af, a);
    if failed {
      return Failed(Root);
    }
    if !num.splineInit(y.value, a[..]) {
      return Failed(Spline);
    }
    return Done((y.value, a[..]));
  }

  /** The part of ccl_cosmology_compute_distances after the a grid: one
      buffer y holds E(a) and then chi(a). */
  method BuildDistancesFromGrid(p: Parameters, num: Numerics, oom: set<AllocSite>, a: seq<real>)
    returns (r: Outcome<DistanceTables>)
    requires WellFormed(num)
    requires |a| >= 1 && forall i :: 0 <= i < |a| ==> a[i] > 0.0
    ensures r == DistancesFromGrid(p, num, oom, a)
  {
    var na := |a|;
    if DistancesY in oom {
      return Failed(Memory);
    }
    var y := new real[na];
    FillExpansionRates(p, num, a, y);
    var e := y[..];
    if !num.splineInit(a, e) {
      return Failed(Spline);
    }
    var failed := FillDistances(num, a, y);
    if failed {
      return Failed(Integ);
    }
    var chi := y[..];
    if !num.splineInit(a, chi) {
      return Failed(Spline);
    }
    var inverse := BuildInverseTable(num, oom, chi[na - 1], chi[0], a[na - 1], a[0]);
    match inverse
    case Failed(c) => return Failed(c);
    case Done(inv) => return Done(DistanceTables(a, e, chi, inv.0, inv.1));
  }

  /** The tables of ccl_cosmology_compute_distances, or its error code. */
  method BuildDistances(p: Parameters, sp: SplineParams, num: Numerics, oom: set<AllocSite>)
    returns (r: Outcome<DistanceTables>)
    requires WellFormed(num)
    requires sp.aSplineMin > 0.0 && sp.aSplineMax > 0.0
    ensures r == DistancesOutcome(p, sp, num, oom)
  {
    if sp.aSplineMax > 1.0 {
      return Failed(ComputeChi);
    }
    PositiveGrid(sp, num);
    var grid := ScaleFactorGrid(sp, num);
    match grid
    case Failed(c) => return Failed(c);
    case Done(a) => r := BuildDistancesFromGrid(p, num, oom, a);
  }

  /** The cosmology after a successful distance computation, compared with
      before it: new E, chi and a(chi) splines built from the tables t, the
      shared accelerator kept or, when missing, newly allocated, the
      distances marked computed, and nothing else changed. */
  twostate predicate DistancesStored(cosmo: Cosmology, t: DistanceTables)
    reads cosmo
  {
    && cosmo.computedDistances
    && cosmo.data.e != null && cosmo.data.chi != null && cosmo.data.achi != null
    && fresh(cosmo.data.e) && fresh(cosmo.data.chi) && fresh(cosmo.data.achi)
    && cosmo.data.e.xs == t.a && cosmo.data.e.ys == t.e
    && cosmo.data.chi.xs == t.a && cosmo.data.chi.ys == t.chi
    && cosmo.data.achi.xs == t.chiGrid && cosmo.data.achi.ys == t.aOfChi
    && (old(cosmo.data.accelerator) != null ==> cosmo.data.accelerator == old(cosmo.data.accelerator))
    && (old(cosmo.data.accelerator) == null ==> cosmo.data.accelerator != null && fresh(cosmo.data.accelerator))
    && cosmo.data == old(cosmo.data).(e := cosmo.data.e, chi := cosmo.data.chi, achi := cosmo.data.achi,
                                      accelerator := cosmo.data.accelerator)
    && cosmo.computedGrowth == old(cosmo.computedGrowth)
    && cosmo.computedPower == old(cosmo.computedPower)
    && cosmo.computedSigma == old(cosmo.computedSigma)
    && cosmo.status == old(cosmo.status)
  }

  /** gsl_spline_alloc and gsl_spline_init: a new spline through the
      samples (xs, ys), held by none of the given slots. */
  method NewSpline(xs: seq<real>, ys: seq<real>, ghost slots: seq<object?>) returns (spline: Spline)
    ensures fresh(spline) && spline !in slots
    ensures spline.xs == xs && spline.ys == ys
  {
    spline := new Spline(xs, ys);
  }

  /** The interpolation accelerator shared by the distance and growth
      splines: the one already in the cache, or a new one when there is none. */
  method SharedAccelerator(current: Accel?) returns (accelerator: Accel)
    ensures current != null ==> accelerator == current
    ensures current == null ==> fresh(accelerator)
  {
    if current == null {
      accelerator := new Accel();
    } else {
      accelerator := current;
    }
  }

  /** The assignments that end ccl_cosmology_compute_distances. */
  method StoreDistances(cosmo: Cosmology, t: DistanceTables)
    requires cosmo.Valid()
    modifies cosmo
    ensures cosmo.Valid()
    ensures DistancesStored(cosmo, t)
  {
    ghost var before := cosmo.data;
    var e := NewSpline(t.a, t.e, AllSlots(before));
    var chi := NewSpline(t.a, t.chi, AllSlots(before));
    var achi := NewSpline(t.chiGrid, t.aOfChi, AllSlots(before));
    var accelerator := SharedAccelerator(cosmo.data.accelerator);
    cosmo.data := cosmo.data.(e := e, chi := chi, achi := achi, accelerator := accelerator);
    cosmo.computedDistances := true;
    InstallDistancesKeepsNoAliasing(before, e, chi, achi, accelerator);
  }

  /** ccl_cosmology_compute_distances. Nothing happens when the distances
      are already computed. Otherwise, on failure the caller's status
      receives the error code and the cosmology is untouched; on success the
      tables are stored and the caller's status is left as it was. */
  method ComputeDistances(cosmo: Cosmology, sp: SplineParams, num: Numerics, oom: set<AllocSite>, status: Status)
    returns (status': Status)
    requires cosmo.Valid()
    requires WellFormed(num)
    requires sp.aSplineMin > 0.0 && sp.aSplineMax > 0.0
    modifies cosmo
    ensures cosmo.Valid()
    ensures old(cosmo.computedDistances) ==> status' == status && unchanged(cosmo)
    ensures !old(cosmo.computedDistances) ==>
      match DistancesOutcome(cosmo.params, sp, num, oom)
      case Failed(c) => status' == Fail(c) && unchanged(cosmo)
      case Done(t) => status' == status && DistancesStored(cosmo, t)
  {
    status' := status;
    if cosmo.computedDistances {
      return;
    }
    var outcome := BuildDistances(cosmo.params, sp, num, oom);
    match outcome
    case Failed(c) =>
      status' := Fail(c);
    case Done(t) =>
      StoreDistances(cosmo, t);
  }

  // ---------------------------------------------------------------------
  // Growth

  /** The loop filling df_arr with Delta f(a). */
  method FillDeltaF(a: seq<real>, zs: seq<real>, dfs: seq<real>, num: Numerics, dfArr: array<real>)
    requires |zs| >= 1 && |dfs| == |zs| && dfArr.Length == |a|
    modifies dfArr
    ensures dfArr[..] == DeltaFTable(a, zs, dfs, num)
  {
    for i := 0 to |a|
      invariant forall k :: 0 <= k < i ==> dfArr[k] == DeltaF(a[k], zs, dfs, num)
    {
      if a[i] > 0.0 {
        var z := 1.0 / a[i] - 1.0;
        if z <= zs[0] {
          dfArr[i] := dfs[0];
        } else if z > zs[|zs| - 1] {
          dfArr[i] := dfs[|zs| - 1];
        } else {
          dfArr[i] := num.splineEval(zs, dfs, z);
        }
      } else {
        dfArr[i] := 0.0;
      }
    }
  }

  /** One pass of the growth loop: the ODE answer at x, corrected for
      modified growth when there is one and x > 0, and divided by the
      growth factor today. */
  method GrowthEntry(num: Numerics, eps: real, mg: bool, a: seq<real>, dfa: seq<real>, growth0: real, x: real)
    returns (d: real, f: real, ok: bool, mgOk: bool)
    requires growth0 != 0.0
    ensures GrowthRow(d, f, ok, mgOk) == GrowthRowAt(num, eps, mg, a, dfa, growth0, x)
  {
    var g := GrowthAndRate(num, eps, x);
    d := g.d;
    f := g.f;
    ok := g.ok;
    mgOk := true;
    if mg {
      if x > 0.0 {
        f := f + num.splineEval(a, dfa, x);
        mgOk := num.dfIntegralConverged(a, dfa, x);
        d := d * num.exp(-num.dfIntegral(a, dfa, x));
      }
    }
    d := d / growth0;
  }

  /** The growth loop: y and y2 receive the rows' D and f; `failed` starts
      from the growth today and accumulates the ODE failures, `mgFailed`
      the modified-growth integral failures. */
  method FillGrowth(num: Numerics, eps: real, mg: bool, a: seq<real>, dfa: seq<real>, growth0: real, todayOk: bool,
                    y: array<real>, y2: array<real>) returns (failed: bool, mgFailed: bool)
    requires growth0 != 0.0
    requires y.Length == |a| && y2.Length == |a| && y != y2
    modifies y, y2
    ensures var rows := GrowthRows(num, eps, mg, a, dfa, growth0);
      && y[..] == GrowthColumn(rows) && y2[..] == RateColumn(rows)
      && (failed <==> !(todayOk && RowsConverged(rows)))
      && (mgFailed <==> !RowsMgConverged(rows))
  {
    ghost var rows := GrowthRows(num, eps, mg, a, dfa, growth0);
    failed := !todayOk;
    mgFailed := false;
    for i := 0 to |a|
      invariant forall k :: 0 <= k < i ==> y[k] == rows[k].d && y2[k] == rows[k].f
      invariant failed <==> !todayOk || exists k :: 0 <= k < i && !rows[k].ok
      invariant mgFailed <==> exists k :: 0 <= k < i && !rows[k].mgOk
    {
      var d, f, ok, mgOk := GrowthEntry(num, eps, mg, a, dfa, growth0, a[i]);
      assert rows[i] == GrowthRow(d, f, ok, mgOk);
      y[i] := d;
      y2[i] := f;
      failed := failed || !ok;
      mgFailed := mgFailed || !mgOk;
    }
    assert y[..] == GrowthColumn(rows);
    assert y2[..] == RateColumn(rows);
  }

  /** The part of ccl_cosmology_compute_growth after the a grid. */
  method BuildGrowthFromGrid(p: Parameters, zs: seq<real>, dfs: seq<real>, eps: real, num: Numerics, oom: set<AllocSite>, a: seq<real>)
    returns (r: Outcome<GrowthTables>)
    requires WellFormed(num)
    requires p.hasMgrowth ==> |zs| >= 1 && |dfs| == |zs|
    ensures r == GrowthFromGrid(p, zs, dfs, eps, num, oom, a)
  {
    var na := |a|;
    var dfa: seq<real> := [];
    if p.hasMgrowth {
      if GrowthDf in oom {
        return Failed(Memory);
      }
      var dfArr := new real[na];
      if !num.splineInit(zs, dfs) {
        return Failed(Spline);
      }
      FillDeltaF(a, zs, dfs, num, dfArr);
      dfa := dfArr[..];
      if !num.splineInit(a, dfa) {
        return Failed(Spline);
      }
    }
    assert dfa == DeltaFColumn(p, zs, dfs, num, a);
    if GrowthY in oom {
      return Failed(Memory);
    }
    var y := new real[na];
    if GrowthY2 in oom {
      return Failed(Memory);
    }
    var y2 := new real[na];
    var today := GrowthAndRate(num, eps, 1.0);
    GrowthTodayNonzero(num, eps);
    var failed, mgFailed := FillGrowth(num, eps, p.hasMgrowth, a, dfa, today.d, today.ok, y, y2);
    if failed || mgFailed {
      return Failed(Integ);
    }
    if !num.splineInit(a, y[..]) {
      return Failed(Spline);
    }
    if !num.splineInit(a, y2[..]) {
      return Failed(Spline);
    }
    return Done(GrowthTables(a, y[..], y2[..], today.d));
  }

  /** The tables of ccl_cosmology_compute_growth, or its error code. */
  method BuildGrowth(p: Parameters, zs: seq<real>, dfs: seq<real>, sp: SplineParams, num: Numerics, oom: set<AllocSite>)
    returns (r: Outcome<GrowthTables>)
    requires WellFormed(num)
    requires p.hasMgrowth ==> |zs| >= 1 && |dfs| == |zs|
    ensures r == GrowthOutcome(p, zs, dfs, sp, num, oom)
  {
    var grid := ScaleFactorGrid(sp, num);
    match grid
    case Failed(c) => return Failed(c);
    case Done(a) => r := BuildGrowthFromGrid(p, zs, dfs, sp.epsScalefacGrowth, num, oom, a);
  }

  /** The modified-growth redshifts of the parameters, or [] without them. */
  function MgrowthRedshifts(p: Parameters): seq<real>
    reads p.zMgrowth
  {
    if p.zMgrowth == null then [] else p.zMgrowth[..]
  }

  /** The modified-growth Delta f values of the parameters, or [] without them. */
  function MgrowthValues(p: Parameters): seq<real>
    reads p.dfMgrowth
  {
    if p.dfMgrowth == null then [] else p.dfMgrowth[..]
  }

  /** The cosmology after a successful growth computation, compared with
      before it: new growth and growth-rate splines built from the tables t,
      growth0 stored, the shared accelerator kept or, when missing, newly
      allocated, the growth marked computed, and nothing else changed. */
  twostate predicate GrowthStored(cosmo: Cosmology, t: GrowthTables)
    reads cosmo
  {
    && cosmo.computedGrowth
    && cosmo.data.growth != null && cosmo.data.fgrowth != null
    && fresh(cosmo.data.growth) && fresh(cosmo.data.fgrowth)
    && cosmo.data.growth.xs == t.a && cosmo.data.growth.ys == t.d
    && cosmo.data.fgrowth.xs == t.a && cosmo.data.fgrowth.ys == t.f
    && cosmo.data.growth0 == t.growth0
    && (old(cosmo.data.accelerator) != null ==> cosmo.data.accelerator == old(cosmo.data.accelerator))
    && (old(cosmo.data.accelerator) == null ==> cosmo.data.accelerator != null && fresh(cosmo.data.accelerator))
    && cosmo.data == old(cosmo.data).(growth := cosmo.data.growth, fgrowth := cosmo.data.fgrowth,
                                      growth0 := t.growth0, accelerator := cosmo.data.accelerator)
    && cosmo.computedDistances == old(cosmo.computedDistances)
    && cosmo.computedPower == old(cosmo.computedPower)
    && cosmo.computedSigma == old(cosmo.computedSigma)
    && cosmo.status == old(cosmo.status)
  }

  /** The assignments that end ccl_cosmology_compute_growth. */
  method StoreGrowth(cosmo: Cosmology, t: GrowthTables)
    requires cosmo.Valid()
    modifies cosmo
    ensures cosmo.Valid()
    ensures GrowthStored(cosmo, t)
  {
    ghost var before := cosmo.data;
    var growth := NewSpline(t.a, t.d, AllSlots(before));
    var fgrowth := NewSpline(t.a, t.f, AllSlots(before));
    var accelerator := SharedAccelerator(cosmo.data.accelerator);
    cosmo.data := cosmo.data.(growth := growth, fgrowth := fgrowth, accelerator := accelerator);
    InstallGrowthKeepsNoAliasing(before, growth, fgrowth, accelerator);
    ghost var installed := cosmo.data;
    cosmo.data := cosmo.data.(growth0 := t.growth0);
    assert AllSlots(cosmo.data) == AllSlots(installed);
    cosmo.computedGrowth := true;
  }

  /** ccl_cosmology_compute_growth. Nothing happens when the growth is
      already computed. Otherwise, on failure the caller's status receives
      the error code and the cosmology is untouched; on success the tables
      are stored and the caller's status is left as it was. */
  method ComputeGrowth(cosmo: Cosmology, sp: SplineParams, num: Numerics, oom: set<AllocSite>, status: Status)
    returns (status': Status)
    requires cosmo.Valid()
    requires WellFormed(num)
    requires MgrowthWellFormed(cosmo.params)
    modifies cosmo
    ensures cosmo.Valid()
    ensures old(cosmo.computedGrowth) ==> status' == status && unchanged(cosmo)
    ensures !old(cosmo.computedGrowth) ==>
      match GrowthOutcome(cosmo.params, MgrowthRedshifts(cosmo.params), MgrowthValues(cosmo.params), sp, num, oom)
      case Failed(c) => status' == Fail(c) && unchanged(cosmo)
      case Done(t) => status' == status && GrowthStored(cosmo, t)
  {
    status' := status;
    if cosmo.computedGrowth {
      return;
    }
    var outcome := BuildGrowth(cosmo.params, MgrowthRedshifts(cosmo.params), MgrowthValues(cosmo.params), sp, num, oom);
    match outcome
    case Failed(c) =>
      status' := Fail(c);
    case Done(t) =>
      StoreGrowth(cosmo, t);
  }

  // Each store into one handle slot of the cache is a store into one
  // position of its slot sequence.

  lemma SlotsAfterChi(d: Data, x: Spline)
    ensures StoredAt(AllSlots(d), AllSlots(d.(chi := x)), 0, x)
  {
  }

  lemma SlotsAfterGrowth(d: Data, x: Spline)
    ensures StoredAt(AllSlots(d), AllSlots(d.(growth := x)), 1, x)
  {
  }

  lemma SlotsAfterFgrowth(d: Data, x: Spline)
    ensures StoredAt(AllSlots(d), AllSlots(d.(fgrowth := x)), 2, x)
  {
  }

  lemma SlotsAfterAccelerator(d: Data, x: Accel)
    ensures StoredAt(AllSlots(d), AllSlots(d.(accelerator := x)), 3, x)
  {
  }

  lemma SlotsAfterE(d: Data, x: Spline)
    ensures StoredAt(AllSlots(d), AllSlots(d.(e := x)), 5, x)
  {
  }

  lemma SlotsAfterAchi(d: Data, x: Spline)
    ensures StoredAt(AllSlots(d), AllSlots(d.(achi := x)), 6, x)
  {
  }

  /** Keeping the accelerator, or storing one that no slot holds, keeps the
      cache free of aliasing. */
  lemma StoreAcceleratorKeepsNoAliasing(d: Data, accelerator: Accel)
    requires NoAliasing(AllSlots(d))
    requires accelerator == d.accelerator || accelerator !in AllSlots(d)
    ensures NoAliasing(AllSlots(d.(accelerator := accelerator)))
  {
    if accelerator == d.accelerator {
      assert d.(accelerator := accelerator) == d;
    } else {
      SlotsAfterAccelerator(d, accelerator);
      NoAliasingUpdate(AllSlots(d), AllSlots(d.(accelerator := accelerator)), 3, accelerator);
    }
  }

  /** Storing three new distance splines (and the accelerator, new unless it
      was already there) keeps the cache free of aliasing. */
  lemma InstallDistancesKeepsNoAliasing(d: Data, e: Spline, chi: Spline, achi: Spline, accelerator: Accel)
    requires NoAliasing(AllSlots(d))
    requires e !in AllSlots(d) && chi !in AllSlots(d) && achi !in AllSlots(d)
    requires e != chi && e != achi && chi != achi
    requires accelerator == d.accelerator || accelerator !in AllSlots(d)
    ensures NoAliasing(AllSlots(d.(e := e, chi := chi, achi := achi, accelerator := accelerator)))
  {
    var d1 := d.(e := e);
    SlotsAfterE(d, e);
    NoAliasingUpdate(AllSlots(d), AllSlots(d1), 5, e);
    NotInUpdate(AllSlots(d), AllSlots(d1), 5, e, chi);
    NotInUpdate(AllSlots(d), AllSlots(d1), 5, e, achi);
    var d2 := d1.(chi := chi);
    SlotsAfterChi(d1, chi);
    NoAliasingUpdate(AllSlots(d1), AllSlots(d2), 0, chi);
    NotInUpdate(AllSlots(d1), AllSlots(d2), 0, chi, achi);
    var d3 := d2.(achi := achi);
    SlotsAfterAchi(d2, achi);
    NoAliasingUpdate(AllSlots(d2), AllSlots(d3), 6, achi);
    if accelerator != d.accelerator {
      NotInUpdate(AllSlots(d), AllSlots(d1), 5, e, accelerator);
      NotInUpdate(AllSlots(d1), AllSlots(d2), 0, chi, accelerator);
      NotInUpdate(AllSlots(d2), AllSlots(d3), 6, achi, accelerator);
    }
    StoreAcceleratorKeepsNoAliasing(d3, accelerator);
  }

  /** Storing two new growth splines (and the accelerator, new unless it
      was already there) keeps the cache free of aliasing. */
  lemma InstallGrowthKeepsNoAliasing(d: Data, growth: Spline, fgrowth: Spline, accelerator: Accel)
    requires NoAliasing(AllSlots(d))
    requires growth !in AllSlots(d) && fgrowth !in AllSlots(d) && growth != fgrowth
    requires accelerator == d.accelerator || accelerator !in AllSlots(d)
    ensures NoAliasing(AllSlots(d.(growth := growth, fgrowth := fgrowth, accelerator := accelerator)))
  {
    var d1 := d.(growth := growth);
    SlotsAfterGrowth(d, growth);
    NoAliasingUpdate(AllSlots(d), AllSlots(d1), 1, growth);
    NotInUpdate(AllSlots(d), AllSlots(d1), 1, growth, fgrowth);
    var d2 := d1.(fgrowth := fgrowth);
    SlotsAfterFgrowth(d1, fgrowth);
    NoAliasingUpdate(AllSlots(d1), AllSlots(d2), 2, fgrowth);
    if accelerator != d.accelerator {
      NotInUpdate(AllSlots(d), AllSlots(d1), 1, growth, accelerator);
      NotInUpdate(AllSlots(d1), AllSlots(d2), 2, fgrowth, accelerator);
    }
    StoreAcceleratorKeepsNoAliasing(d2, accelerator);
  }
}
