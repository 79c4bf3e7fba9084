/** What ccl_cosmology_compute_distances and ccl_cosmology_compute_growth
    produce, as functions of the parameters, the spline settings, the
    numerical backend and the set of allocations that fail: either the
    tables they store in the cosmology, or the first error code they write
    into the caller's status. */
module Tables {
  import opened Optional
  import opened Errors
  import opened Gsl
  import opened Core
  import opened Background

  /** The result of a table computation: the tables, or the error code. */
  datatype Outcome<T> = Done(value: T) | Failed(code: ErrorCode)

  /** How far the end points of a linear spacing may be from the requested
      end values. */
  const SPACING_TOLERANCE: real := 0.00001

  /** The spacing, in Mpc, of the comoving-distance grid of the a(chi) table. */
  const CHI_STEP: real := 5.0

  function Abs(x: real): real {
    if x < 0.0 then -x else x
  }

  /** The end points of s are within SPACING_TOLERANCE of lo and hi. */
  predicate EndsNear(s: seq<real>, lo: real, hi: real)
    requires |s| >= 1
  {
    Abs(s[0] - lo) <= SPACING_TOLERANCE && Abs(s[|s| - 1] - hi) <= SPACING_TOLERANCE
  }

  /** The scale-factor grid both compute routines start from: the linear
      spacing from A_SPLINE_MIN to A_SPLINE_MAX with A_SPLINE_NA points,
      rejected with CCL_ERROR_LINSPACE when it is missing, when either end is
      off by more than the tolerance, or when its last point exceeds 1. */
  function ScaleFactorGrid(sp: SplineParams, num: Numerics): (r: Outcome<seq<real>>)
    requires WellFormed(num)
    ensures r.Failed? ==> r.code == Linspace
    ensures r.Done? ==>
      && |r.value| == sp.aSplineNa >= 1
      && EndsNear(r.value, sp.aSplineMin, sp.aSplineMax)
      && r.value[|r.value| - 1] <= 1.0
      && (forall i :: 0 <= i < |r.value| ==> Between(r.value[i], sp.aSplineMin, sp.aSplineMax))
    ensures r.Done? <==>
      var o := num.linearSpacing(sp.aSplineMin, sp.aSplineMax, sp.aSplineNa);
      o.Some? && EndsNear(o.value, sp.aSplineMin, sp.aSplineMax) && o.value[|o.value| - 1] <= 1.0
  {
    var o := num.linearSpacing(sp.aSplineMin, sp.aSplineMax, sp.aSplineNa);
    if o.None? then Failed(Linspace)
    else if !EndsNear(o.value, sp.aSplineMin, sp.aSplineMax) || o.value[|o.value| - 1] > 1.0 then Failed(Linspace)
    else Done(o.value)
  }

  /** A grid between two positive end values holds only positive points. */
  lemma {:induction false} PositiveGrid(sp: SplineParams, num: Numerics)
    requires WellFormed(num)
    requires sp.aSplineMin > 0.0 && sp.aSplineMax > 0.0
    ensures ScaleFactorGrid(sp, num).Done? ==>
      forall i :: 0 <= i < |ScaleFactorGrid(sp, num).value| ==> ScaleFactorGrid(sp, num).value[i] > 0.0
  {
    if ScaleFactorGrid(sp, num).Done? {
      var a := ScaleFactorGrid(sp, num).value;
      forall i | 0 <= i < |a| ensures a[i] > 0.0 {
        assert Between(a[i], sp.aSplineMin, sp.aSplineMax);
      }
    }
  }

  /** C's conversion of a double to int: the fractional part is discarded,
      rounding toward zero. */
  function TruncateToInt(x: real): (n: int)
    ensures x >= 0.0 ==> n as real <= x < n as real + 1.0
    ensures x < 0.0 ==> n as real - 1.0 < x <= n as real
  {
    if x >= 0.0 then x.Floor else -((-x).Floor)
  }

  /** The number of points of the comoving-distance grid: the range of chi
      divided by CHI_STEP, truncated. */
  function ChiGridSize(chi0: real, chif: real): (n: int)
    ensures chi0 <= chif ==> n >= 0 && n as real * CHI_STEP <= chif - chi0 < (n as real + 1.0) * CHI_STEP
    ensures chif < chi0 ==> n <= 0
  {
    TruncateToInt((chif - chi0) / CHI_STEP)
  }

  // ---------------------------------------------------------------------
  // Distances

  /** E(a) at every grid point (the first use of y). */
  function ExpansionTable(p: Parameters, num: Numerics, a: seq<real>): seq<real>
    requires forall i :: 0 <= i < |a| ==> a[i] != 0.0
  {
    seq(|a|, i requires 0 <= i < |a| => HOverH0(p, num, a[i]))
  }

  /** chi(a) at every grid point (the second use of y). */
  function DistanceTable(num: Numerics, a: seq<real>): seq<real> {
    seq(|a|, i requires 0 <= i < |a| => num.chiOf(a[i]))
  }

  /** Every chi(a) integration converged. */
  predicate DistancesConverged(num: Numerics, a: seq<real>) {
    forall i :: 0 <= i < |a| ==> num.chiConverged(a[i])
  }

  /** a_of_chi: the scale factor at distance chi and whether the Newton
      iteration converged. chi = 0 gives a = 1 without iterating; otherwise
      the iteration starts from aStart, the previous root. */
  function ScaleFactorStep(num: Numerics, chi: real, aStart: real): (r: (real, bool))
    ensures chi == 0.0 ==> r == (1.0, true)
    ensures chi != 0.0 ==> r.1 == num.newtonConverged(chi, aStart)
  {
    if chi == 0.0 then (1.0, true)
    else (num.newtonRoot(chi, aStart), num.newtonConverged(chi, aStart))
  }

  /** The chain of roots the interior loop of the a(chi) table produces:
      each root is found starting from the previous one (the first from
      start), and the chain succeeds only if every root does. */
  datatype Chain = Chain(roots: seq<real>, ok: bool)

  function RootChain(num: Numerics, chis: seq<real>, start: real): (c: Chain)
    ensures |c.roots| == |chis|
  {
    if chis == [] then Chain([], true)
    else
      var prev := RootChain(num, chis[..|chis| - 1], start);
      var step := ScaleFactorStep(num, chis[|chis| - 1], LastOr(prev.roots, start));
      Chain(prev.roots + [step.0], prev.ok && step.1)
  }

  /** The last element of s, or d when s is empty. */
  function LastOr(s: seq<real>, d: real): real {
    if s == [] then d else s[|s| - 1]
  }

  /** The a(chi) table over the grid chis: a0 (the largest scale factor) at
      the first point, af (the smallest) at the last, roots in between. With
      a single point the later assignment wins and the table is [af]. */
  function ScaleFactorTable(num: Numerics, chis: seq<real>, a0: real, af: real): (c: Chain)
    requires |chis| >= 1
    ensures |c.roots| == |chis|
    ensures c.roots[|chis| - 1] == af
    ensures |chis| >= 2 ==> c.roots[0] == a0
  {
    if |chis| == 1 then Chain([af], true)
    else
      var inner := RootChain(num, chis[1..|chis| - 1], a0);
      Chain([a0] + inner.roots + [af], inner.ok)
  }

  /** The tables ccl_cosmology_compute_distances stores: E and chi over the
      scale-factor grid a, and a over the comoving-distance grid chiGrid. */
  datatype DistanceTables = DistanceTables(
    a: seq<real>, e: seq<real>, chi: seq<real>, chiGrid: seq<real>, aOfChi: seq<real>)

  /** ccl_cosmology_compute_distances, for a cosmology whose distances are
      not yet computed. The checks come in the order that routine makes them:
      A_SPLINE_MAX > 1, the a grid, the y buffer, the E spline, the chi
      integrals, the chi spline, and then the a(chi) part. */
  function DistancesOutcome(p: Parameters, sp: SplineParams, num: Numerics, oom: set<AllocSite>): (r: Outcome<DistanceTables>)
    requires WellFormed(num)
    requires sp.aSplineMin > 0.0 && sp.aSplineMax > 0.0
    ensures r.Failed? ==> r.code in {ComputeChi, Linspace, Memory, Spline, Integ, Root}
    ensures sp.aSplineMax > 1.0 ==> r == Failed(ComputeChi)
    ensures r.Done? ==> sp.aSplineMax <= 1.0 && ScaleFactorGrid(sp, num) == Done(r.value.a)
  {
    if sp.aSplineMax > 1.0 then Failed(ComputeChi)
    else
      PositiveGrid(sp, num);
      match ScaleFactorGrid(sp, num)
      case Failed(c) => Failed(c)
      case Done(a) => DistancesFromGrid(p, num, oom, a)
  }

  /** The part of ccl_cosmology_compute_distances after the a grid. */
  function DistancesFromGrid(p: Parameters, num: Numerics, oom: set<AllocSite>, a: seq<real>): (r: Outcome<DistanceTables>)
    requires WellFormed(num)
    requires |a| >= 1 && forall i :: 0 <= i < |a| ==> a[i] > 0.0
    ensures r.Failed? ==> r.code in {Linspace, Memory, Spline, Integ, Root}
    ensures r.Done? ==> r.value.a == a
  {
    if DistancesY in oom then Failed(Memory)
    else
      var e := ExpansionTable(p, num, a);
      if !num.splineInit(a, e) then Failed(Spline)
      else if !DistancesConverged(num, a) then Failed(Integ)
      else
        var chi := DistanceTable(num, a);
        if !num.splineInit(a, chi) then Failed(Spline)
        else
          match InverseTable(num, oom, chi[|a| - 1], chi[0], a[|a| - 1], a[0])
          case Failed(c) => Failed(c)
          case Done(inv) => Done(DistanceTables(a, e, chi, inv.0, inv.1))
  }

  /** The a(chi) part: a linear grid in chi from chi0 = chi(a_max) to
      chif = chi(a_min) with ChiGridSize points, checked like the a grid;
      the a buffer; the roots; the a(chi) spline. */
  function InverseTable(num: Numerics, oom: set<AllocSite>, chi0: real, chif: real, a0: real, af: real): (r: Outcome<(seq<real>, seq<real>)>)
    requires WellFormed(num)
    ensures r.Failed? ==> r.code in {Linspace, Memory, Spline, Root}
    ensures r.Done? ==>
      && |r.value.0| == |r.value.1| == ChiGridSize(chi0, chif) >= 1
      && EndsNear(r.value.0, chi0, chif)
  {
    var n := ChiGridSize(chi0, chif);
    var o := num.linearSpacing(chi0, chif, n);
    if o.None? || !EndsNear(o.value, chi0, chif) then Failed(Linspace)
    else if DistancesAChi in oom then Failed(Memory)
    else
      var table := ScaleFactorTable(num, o.value, a0, af);
      if !table.ok then Failed(Root)
      else if !num.splineInit(o.value, table.roots) then Failed(Spline)
      else Done((o.value, table.roots))
  }

  /** A spline that initialised successfully from a table of values of a
      function returns that function's value at every node. */
  lemma InterpolatesAtNodes(num: Numerics, xs: seq<real>, ys: seq<real>)
    requires WellFormed(num)
    requires |ys| == |xs| && num.splineInit(xs, ys)
    ensures forall i :: 0 <= i < |xs| ==> num.splineEval(xs, ys, xs[i]) == ys[i]
  {
  }

  /** What the stored distance tables mean. At every node of the a grid the
      E spline returns h_over_h0 and the chi spline the integrated distance,
      whose integration converged. */
  lemma {:induction false} DistanceTablesAtNodes(p: Parameters, num: Numerics, oom: set<AllocSite>, a: seq<real>)
    requires WellFormed(num)
    requires |a| >= 1 && forall i :: 0 <= i < |a| ==> a[i] > 0.0
    requires DistancesFromGrid(p, num, oom, a).Done?
    ensures var t := DistancesFromGrid(p, num, oom, a).value;
      && |t.e| == |t.a| && |t.chi| == |t.a|
      && (forall i :: 0 <= i < |t.a| ==>
            && num.splineEval(t.a, t.e, t.a[i]) == HOverH0(p, num, t.a[i])
            && num.splineEval(t.a, t.chi, t.a[i]) == num.chiOf(t.a[i])
            && num.chiConverged(t.a[i]))
  {
    var e := ExpansionTable(p, num, a);
    var chi := DistanceTable(num, a);
    var t := DistancesFromGrid(p, num, oom, a).value;
    assert t.a == a && t.e == e && t.chi == chi;
    InterpolatesAtNodes(num, a, e);
    InterpolatesAtNodes(num, a, chi);
  }

  /** The a(chi) spline returns a_min at the far end of its grid (within
      the tolerance of chi(a_min)) and, when the grid has two or more
      points, a_max at the near end (within the tolerance of chi(a_max)). */
  lemma {:induction false} InverseTableAtEnds(num: Numerics, oom: set<AllocSite>, chi0: real, chif: real, a0: real, af: real)
    requires WellFormed(num)
    requires InverseTable(num, oom, chi0, chif, a0, af).Done?
    ensures var (grid, table) := InverseTable(num, oom, chi0, chif, a0, af).value;
      && |grid| == |table| >= 1
      && Abs(grid[|grid| - 1] - chif) <= SPACING_TOLERANCE
      && num.splineEval(grid, table, grid[|grid| - 1]) == af
      && (|grid| >= 2 ==>
            && Abs(grid[0] - chi0) <= SPACING_TOLERANCE
            && num.splineEval(grid, table, grid[0]) == a0)
  {
    var n := ChiGridSize(chi0, chif);
    var grid := num.linearSpacing(chi0, chif, n).value;
    var table := ScaleFactorTable(num, grid, a0, af);
    assert InverseTable(num, oom, chi0, chif, a0, af).value == (grid, table.roots);
    InterpolatesAtNodes(num, grid, table.roots);
  }

  // ---------------------------------------------------------------------
  // Growth

  /** Delta f at every grid point (df_arr). */
  function DeltaFTable(a: seq<real>, zs: seq<real>, dfs: seq<real>, num: Numerics): seq<real>
    requires |zs| >= 1 && |dfs| == |zs|
  {
    seq(|a|, i requires 0 <= i < |a| => DeltaF(a[i], zs, dfs, num))
  }

  /** One entry of the growth loop: the normalised growth factor, the growth
      rate, whether the ODE converged and whether the modified-growth
      integral converged. With modified growth and a > 0 the rate gains
      Delta f(a) and the factor is damped by exp(-int_a^1 Delta f/a' da');
      the factor is then divided by the growth factor today. */
  datatype GrowthRow = GrowthRow(d: real, f: real, ok: bool, mgOk: bool)

  function GrowthRowAt(num: Numerics, eps: real, mg: bool, a: seq<real>, dfa: seq<real>, growth0: real, x: real): (row: GrowthRow)
    requires growth0 != 0.0
    ensures !mg || x <= 0.0 ==>
      && row.d * growth0 == GrowthAndRate(num, eps, x).d
      && row.f == GrowthAndRate(num, eps, x).f
      && row.mgOk
    ensures mg && x > 0.0 ==>
      && row.d * growth0 == GrowthAndRate(num, eps, x).d * num.exp(-num.dfIntegral(a, dfa, x))
      && row.f == GrowthAndRate(num, eps, x).f + num.splineEval(a, dfa, x)
      && row.mgOk == num.dfIntegralConverged(a, dfa, x)
    ensures row.ok == GrowthAndRate(num, eps, x).ok
  {
    var g := GrowthAndRate(num, eps, x);
    if mg && x > 0.0 then
      GrowthRow(g.d * num.exp(-num.dfIntegral(a, dfa, x)) / growth0,
                g.f + num.splineEval(a, dfa, x), g.ok, num.dfIntegralConverged(a, dfa, x))
    else
      GrowthRow(g.d / growth0, g.f, g.ok, true)
  }

  function GrowthRows(num: Numerics, eps: real, mg: bool, a: seq<real>, dfa: seq<real>, growth0: real): seq<GrowthRow>
    requires growth0 != 0.0
  {
    seq(|a|, i requires 0 <= i < |a| => GrowthRowAt(num, eps, mg, a, dfa, growth0, a[i]))
  }

  predicate RowsConverged(rows: seq<GrowthRow>) {
    forall i :: 0 <= i < |rows| ==> rows[i].ok
  }

  predicate RowsMgConverged(rows: seq<GrowthRow>) {
    forall i :: 0 <= i < |rows| ==> rows[i].mgOk
  }

  function GrowthColumn(rows: seq<GrowthRow>): seq<real> {
    seq(|rows|, i requires 0 <= i < |rows| => rows[i].d)
  }

  function RateColumn(rows: seq<GrowthRow>): seq<real> {
    seq(|rows|, i requires 0 <= i < |rows| => rows[i].f)
  }

  /** The raw growth factor today is never zero, so the tables can be
      divided by it. */
  lemma GrowthTodayNonzero(num: Numerics, eps: real)
    requires WellFormed(num)
    ensures GrowthAndRate(num, eps, 1.0).d != 0.0
  {
  }

  /** The tables ccl_cosmology_compute_growth stores: D(a)/D(1) and f(a) over
      the scale-factor grid a, and growth0 = D(1). */
  datatype GrowthTables = GrowthTables(a: seq<real>, d: seq<real>, f: seq<real>, growth0: real)

  /** ccl_cosmology_compute_growth, for a cosmology whose growth is not yet
      computed; (zs, dfs) are the modified-growth tables when the parameters
      have one. */
  function GrowthOutcome(p: Parameters, zs: seq<real>, dfs: seq<real>, sp: SplineParams, num: Numerics, oom: set<AllocSite>): (r: Outcome<GrowthTables>)
    requires WellFormed(num)
    requires p.hasMgrowth ==> |zs| >= 1 && |dfs| == |zs|
    ensures r.Failed? ==> r.code in {Linspace, Memory, Spline, Integ}
    ensures r.Done? ==> ScaleFactorGrid(sp, num) == Done(r.value.a)
  {
    match ScaleFactorGrid(sp, num)
    case Failed(c) => Failed(c)
    case Done(a) => GrowthFromGrid(p, zs, dfs, sp.epsScalefacGrowth, num, oom, a)
  }

  /** The Delta f(a) table, or [] without modified growth. */
  function DeltaFColumn(p: Parameters, zs: seq<real>, dfs: seq<real>, num: Numerics, a: seq<real>): seq<real>
    requires p.hasMgrowth ==> |zs| >= 1 && |dfs| == |zs|
  {
    if p.hasMgrowth then DeltaFTable(a, zs, dfs, num) else []
  }

  /** The part of ccl_cosmology_compute_growth after the a grid. */
  function GrowthFromGrid(p: Parameters, zs: seq<real>, dfs: seq<real>, eps: real, num: Numerics, oom: set<AllocSite>, a: seq<real>): (r: Outcome<GrowthTables>)
    requires WellFormed(num)
    requires p.hasMgrowth ==> |zs| >= 1 && |dfs| == |zs|
    ensures r.Failed? ==> r.code in {Memory, Spline, Integ}
    ensures r.Done? ==> r.value.a == a
  {
    if p.hasMgrowth && GrowthDf in oom then Failed(Memory)
    else if p.hasMgrowth && !num.splineInit(zs, dfs) then Failed(Spline)
    else
      var dfa := DeltaFColumn(p, zs, dfs, num, a);
      if p.hasMgrowth && !num.splineInit(a, dfa) then Failed(Spline)
      else if GrowthY in oom then Failed(Memory)
      else if GrowthY2 in oom then Failed(Memory)
      else
        var today := GrowthAndRate(num, eps, 1.0);
        GrowthTodayNonzero(num, eps);
        var rows := GrowthRows(num, eps, p.hasMgrowth, a, dfa, today.d);
        if !(today.ok && RowsConverged(rows)) || !RowsMgConverged(rows) then Failed(Integ)
        else if !num.splineInit(a, GrowthColumn(rows)) then Failed(Spline)
        else if !num.splineInit(a, RateColumn(rows)) then Failed(Spline)
        else Done(GrowthTables(a, GrowthColumn(rows), RateColumn(rows), today.d))
  }

  /** Without modified growth every row is the plain ODE answer, divided by
      the growth factor today for D. */
  lemma {:induction false} PlainGrowthColumns(num: Numerics, eps: real, a: seq<real>, growth0: real)
    requires growth0 != 0.0
    ensures var rows := GrowthRows(num, eps, false, a, [], growth0);
      && |GrowthColumn(rows)| == |a| && |RateColumn(rows)| == |a|
      && forall i :: 0 <= i < |a| ==>
           && GrowthColumn(rows)[i] * growth0 == GrowthAndRate(num, eps, a[i]).d
           && RateColumn(rows)[i] == GrowthAndRate(num, eps, a[i]).f
  {
    var rows := GrowthRows(num, eps, false, a, [], growth0);
    forall i | 0 <= i < |a|
      ensures GrowthColumn(rows)[i] * growth0 == GrowthAndRate(num, eps, a[i]).d
      ensures RateColumn(rows)[i] == GrowthAndRate(num, eps, a[i]).f
    {
      assert rows[i] == GrowthRowAt(num, eps, false, a, [], growth0, a[i]);
    }
  }

  /** Without modified growth the stored tables are the plain columns: the
      growth column times the growth factor today is the ODE growth factor,
      the rate column the ODE growth rate, and both splines initialised. */
  lemma {:induction false} PlainGrowthTables(p: Parameters, zs: seq<real>, dfs: seq<real>, eps: real, num: Numerics, oom: set<AllocSite>, a: seq<real>)
    requires WellFormed(num)
    requires !p.hasMgrowth
    requires GrowthFromGrid(p, zs, dfs, eps, num, oom, a).Done?
    ensures var t := GrowthFromGrid(p, zs, dfs, eps, num, oom, a).value;
      && t.a == a
      && t.growth0 == GrowthAndRate(num, eps, 1.0).d != 0.0
      && |t.d| == |a| && |t.f| == |a|
      && num.splineInit(a, t.d) && num.splineInit(a, t.f)
      && (forall i :: 0 <= i < |a| ==> t.d[i] * t.growth0 == GrowthAndRate(num, eps, a[i]).d)
      && (forall i :: 0 <= i < |a| ==> t.f[i] == GrowthAndRate(num, eps, a[i]).f)
  {
    GrowthTodayNonzero(num, eps);
    var g0 := GrowthAndRate(num, eps, 1.0).d;
    assert DeltaFColumn(p, zs, dfs, num, a) == [];
    var rows := GrowthRows(num, eps, false, a, [], g0);
    assert GrowthFromGrid(p, zs, dfs, eps, num, oom, a).value == GrowthTables(a, GrowthColumn(rows), RateColumn(rows), g0);
    PlainGrowthColumns(num, eps, a, g0);
  }

  lemma CancelNonzero(x: real, g: real)
    requires g != 0.0 && x * g == g
    ensures x == 1.0
  {
  }

  /** What the stored growth tables mean without modified growth: at every
      node of the grid the growth spline is D(a)/D(1) and the rate spline
      f(a). */
  lemma {:induction false} GrowthTablesAtNodes(p: Parameters, zs: seq<real>, dfs: seq<real>, eps: real, num: Numerics, oom: set<AllocSite>, a: seq<real>)
    requires WellFormed(num)
    requires !p.hasMgrowth
    requires GrowthFromGrid(p, zs, dfs, eps, num, oom, a).Done?
    ensures var t := GrowthFromGrid(p, zs, dfs, eps, num, oom, a).value;
      && t.a == a
      && t.growth0 == GrowthAndRate(num, eps, 1.0).d != 0.0
      && |t.d| == |a| && |t.f| == |a|
      && forall i :: 0 <= i < |a| ==>
           && num.splineEval(a, t.d, a[i]) * t.growth0 == GrowthAndRate(num, eps, a[i]).d
           && num.splineEval(a, t.f, a[i]) == GrowthAndRate(num, eps, a[i]).f
  {
    PlainGrowthTables(p, zs, dfs, eps, num, oom, a);
    var t := GrowthFromGrid(p, zs, dfs, eps, num, oom, a).value;
    InterpolatesAtNodes(num, a, t.d);
    InterpolatesAtNodes(num, a, t.f);
  }

  /** Hence, at one node: the growth spline times D(1) is D(a) and the rate
      spline is f(a); the normalised growth factor is exactly 1 at a node
      a = 1; and below EPS_SCALEFAC_GROWTH, where the universe is taken to
      be matter dominated, D(1) times the normalised growth factor is a and
      the growth rate is 1. */
  lemma GrowthTablesAtNode(p: Parameters, zs: seq<real>, dfs: seq<real>, eps: real, num: Numerics, oom: set<AllocSite>, a: seq<real>, i: int)
    requires WellFormed(num)
    requires !p.hasMgrowth
    requires GrowthFromGrid(p, zs, dfs, eps, num, oom, a).Done?
    requires 0 <= i < |a|
    ensures var t := GrowthFromGrid(p, zs, dfs, eps, num, oom, a).value;
      && num.splineEval(a, t.d, a[i]) * t.growth0 == GrowthAndRate(num, eps, a[i]).d
      && num.splineEval(a, t.f, a[i]) == GrowthAndRate(num, eps, a[i]).f
      && (a[i] == 1.0 ==> num.splineEval(a, t.d, a[i]) == 1.0)
      && (a[i] < eps ==> num.splineEval(a, t.d, a[i]) * t.growth0 == a[i] && num.splineEval(a, t.f, a[i]) == 1.0)
  {
    GrowthTablesAtNodes(p, zs, dfs, eps, num, oom, a);
    var t := GrowthFromGrid(p, zs, dfs, eps, num, oom, a).value;
    var x := num.splineEval(a, t.d, a[i]);
    if a[i] == 1.0 {
      assert x * t.growth0 == t.growth0;
      CancelNonzero(x, t.growth0);
    }
  }

  /** What the stored growth tables mean with modified growth, at a node
      a > 0 of the grid: the rate spline is f(a) + Delta f(a), and the
      growth spline times D(1) is D(a) damped by exp(-I(a)), where I(a) is
      the integral from a to 1 over the spline through the Delta f(a)
      table. */
  lemma {:induction false} MgrowthTablesAtNode(p: Parameters, zs: seq<real>, dfs: seq<real>, eps: real, num: Numerics, oom: set<AllocSite>, a: seq<real>, i: int)
    requires WellFormed(num)
    requires p.hasMgrowth && |zs| >= 1 && |dfs| == |zs|
    requires GrowthFromGrid(p, zs, dfs, eps, num, oom, a).Done?
    requires 0 <= i < |a| && a[i] > 0.0
    ensures var t := GrowthFromGrid(p, zs, dfs, eps, num, oom, a).value;
      && t.growth0 == GrowthAndRate(num, eps, 1.0).d != 0.0
      && num.splineEval(a, t.f, a[i]) == GrowthAndRate(num, eps, a[i]).f + DeltaF(a[i], zs, dfs, num)
      && num.splineEval(a, t.d, a[i]) * t.growth0
         == GrowthAndRate(num, eps, a[i]).d * num.exp(-num.dfIntegral(a, DeltaFTable(a, zs, dfs, num), a[i]))
  {
    GrowthTodayNonzero(num, eps);
    var g0 := GrowthAndRate(num, eps, 1.0).d;
    var dfa := DeltaFTable(a, zs, dfs, num);
    assert DeltaFColumn(p, zs, dfs, num, a) == dfa;
    var rows := GrowthRows(num, eps, true, a, dfa, g0);
    var t := GrowthFromGrid(p, zs, dfs, eps, num, oom, a).value;
    assert t == GrowthTables(a, GrowthColumn(rows), RateColumn(rows), g0);
    InterpolatesAtNodes(num, a, dfa);
    InterpolatesAtNodes(num, a, t.d);
    InterpolatesAtNodes(num, a, t.f);
    assert rows[i] == GrowthRowAt(num, eps, true, a, dfa, g0, a[i]);
    assert num.splineEval(a, dfa, a[i]) == DeltaF(a[i], zs, dfs, num);
  }


}
