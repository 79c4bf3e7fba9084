/** The cosmology object of src/ccl_core.c: its configuration, its cache of
    spline handles (`ccl_data`), its `computed_*` flags and its status, with
    ccl_cosmology_create, ccl_data_free and ccl_cosmology_free. */
module Cosmo {
  import opened Core
  import opened Errors
  import opened Gsl

  /** The three method choices of `ccl_configuration`. Only the values that
      the modelled files name are listed; any other value is `Other…`. */
  datatype TransferFunction = BoltzmannClass | Bbks | OtherTransferFunction
  datatype MatterPowerSpectrum = Halofit | OtherMatterPowerSpectrum
  datatype MassFunction = Tinker | OtherMassFunction

  datatype Configuration = Configuration(
    transferFunctionMethod: TransferFunction,
    matterPowerSpectrumMethod: MatterPowerSpectrum,
    massFunctionMethod: MassFunction)

  /** default_config: CLASS transfer function, halofit, Tinker mass function. */
  const DEFAULT_CONFIG: Configuration := Configuration(BoltzmannClass, Halofit, Tinker)

  /** `ccl_data`: the cached splines and accelerators (null when absent) and
      growth0, the raw growth factor today. */
  datatype Data = Data(
    chi: Spline?,
    growth: Spline?,
    fgrowth: Spline?,
    e: Spline?,
    accelerator: Accel?,
    acceleratorAchi: Accel?,
    acceleratorM: Accel?,
    growth0: real,
    achi: Spline?,
    logsigma: Spline?,
    pLin: Spline?,
    pNl: Spline2d?,
    nuPspaceInt: Spline?)

  /** The data of a freshly created cosmology: every handle null, growth0 = 1. */
  const EMPTY_DATA: Data := Data(null, null, null, null, null, null, null, 1.0, null, null, null, null, null)

  /** The slots that ccl_data_free releases, in the order it releases them. */
  function FreeOrder(d: Data): seq<object?> {
    [d.chi, d.growth, d.fgrowth, d.accelerator, d.acceleratorAchi, d.e, d.achi,
     d.logsigma, d.pLin, d.pNl]
  }

  /** Every handle slot of `d`: the released ones, then the two it keeps. */
  function AllSlots(d: Data): seq<object?> {
    FreeOrder(d) + [d.acceleratorM, d.nuPspaceInt]
  }

  /** No handle is held by two slots. */
  predicate NoAliasing(s: seq<object?>) {
    forall i, j :: 0 <= i < j < |s| && s[i] != null ==> s[i] != s[j]
  }

  predicate Distinct(s: seq<object>) {
    forall i, j :: 0 <= i < j < |s| ==> s[i] != s[j]
  }

  /** The non-null entries of s, in order. */
  function NonNull(s: seq<object?>): seq<object> {
    if s == [] then []
    else NonNull(s[..|s| - 1]) + (if s[|s| - 1] == null then [] else [s[|s| - 1]])
  }

  /** The filter keeps exactly the non-null entries: each kept entry comes
      from s, and each non-null entry of s is kept. */
  lemma {:induction false} NonNullMembers(s: seq<object?>)
    ensures forall k :: 0 <= k < |NonNull(s)| ==> NonNull(s)[k] in s
    ensures forall k :: 0 <= k < |s| && s[k] != null ==> s[k] in NonNull(s)
  {
    if s != [] {
      var init := s[..|s| - 1];
      NonNullMembers(init);
      assert forall k :: 0 <= k < |init| ==> s[k] == init[k];
    }
  }

  /** Dropping the nulls of a sequence without aliasing leaves no duplicates. */
  lemma {:induction false} NonNullDistinct(s: seq<object?>)
    requires NoAliasing(s)
    ensures Distinct(NonNull(s))
  {
    if s != [] {
      var init := s[..|s| - 1];
      var last := s[|s| - 1];
      assert NoAliasing(init) by {
        forall i, j | 0 <= i < j < |init| && init[i] != null
          ensures init[i] != init[j]
        {
          assert init[i] == s[i] && init[j] == s[j];
        }
      }
      NonNullDistinct(init);
      if last != null {
        NonNullMembers(init);
        forall k | 0 <= k < |NonNull(init)| ensures NonNull(init)[k] != last {
          var x := NonNull(init)[k];
          assert x in init;
          var i :| 0 <= i < |init| && init[i] == x;
          assert s[i] == x && s[i] != null;
        }
      }
    }
  }

  /** t is s with x stored at position k. */
  predicate StoredAt(s: seq<object?>, t: seq<object?>, k: int, x: object) {
    && |t| == |s| && 0 <= k < |s| && t[k] == x
    && forall j :: 0 <= j < |s| && j != k ==> t[j] == s[j]
  }

  /** Storing in one slot a handle that no slot holds yet keeps the slots
      free of aliasing. */
  lemma NoAliasingUpdate(s: seq<object?>, t: seq<object?>, k: int, x: object)
    requires NoAliasing(s) && StoredAt(s, t, k, x) && x !in s
    ensures NoAliasing(t)
  {
    forall i, j | 0 <= i < j < |t| && t[i] != null
      ensures t[i] != t[j]
    {
      if i == k {
        assert t[j] == s[j];
      } else if j == k {
        assert t[i] == s[i];
      }
    }
  }

  /** A handle held by no slot, other than the one stored, is still held
      by none after the store. */
  lemma NotInUpdate(s: seq<object?>, t: seq<object?>, k: int, x: object, y: object)
    requires StoredAt(s, t, k, x) && y !in s && y != x
    ensures y !in t
  {
    forall i | 0 <= i < |t| ensures t[i] != y {
      if i != k {
        assert t[i] == s[i];
      }
    }
  }

  /** `ccl_cosmology`. The parameters and configuration are fixed at creation;
      the cache, the flags and the status are what later calls change. */
  class Cosmology {
    const params: Parameters
    const config: Configuration
    var data: Data
    var computedDistances: bool
    var computedGrowth: bool
    var computedPower: bool
    var computedSigma: bool
    var status: Status

    /** The cache is consistent with the flags: a flag is set exactly when
        the tables it guards are present, and those tables share the
        interpolation accelerator; no handle sits in two slots. */
    predicate Valid()
      reads this
    {
      && NoAliasing(AllSlots(data))
      && (computedDistances <==> data.e != null && data.chi != null && data.achi != null)
      && (computedGrowth <==> data.growth != null && data.fgrowth != null)
      && (computedDistances || computedGrowth ==> data.accelerator != null)
    }

    /** ccl_cosmology_create: parameters and configuration stored as given,
        every handle null, growth0 = 1, every flag false, status 0. */
    constructor (params: Parameters, config: Configuration)
      ensures this.params == params && this.config == config
      ensures data == EMPTY_DATA && data.growth0 == 1.0
      ensures forall o :: o in AllSlots(data) ==> o == null
      ensures !computedDistances && !computedGrowth && !computedPower && !computedSigma
      ensures status == Ok
      ensures Valid()
    {
      this.params := params;
      this.config := config;
      data := EMPTY_DATA;
      computedDistances := false;
      computedGrowth := false;
      computedPower := false;
      computedSigma := false;
      status := Ok;
    }

    /** ccl_cosmology_free: releases the handles ccl_data_free releases, then
        the object itself. */
    method Free() returns (released: seq<object>)
      requires Valid()
      ensures released == NonNull(FreeOrder(data)) + [this]
      ensures Distinct(released)
    {
      var handles := DataFree(data);
      released := handles + [this];
      DataFreeReleasesOnce(data);
      NonNullMembers(FreeOrder(data));
      assert this !in handles;
    }
  }

  /** One `if (slot != NULL) free(slot)` step of ccl_data_free: slot k of
      `order` is examined, and `released` lists the handles freed so far. */
  method ReleaseIfSet(released: seq<object>, ghost order: seq<object?>, ghost k: int, slot: object?)
    returns (released': seq<object>)
    requires 0 <= k < |order| && slot == order[k]
    requires released == NonNull(order[..k])
    ensures released' == NonNull(order[..k + 1])
    ensures slot == null ==> released' == released
    ensures slot != null ==> released' == released + [slot]
  {
    released' := released;
    if slot != null {
      released' := released' + [slot];
    }
    assert order[..k + 1][..k] == order[..k];
  }

  /** ccl_data_free: one release for each non-null slot among chi, growth,
      fgrowth, the two accelerators, E, achi, logsigma, p_lin and p_nl, in
      that order, whatever the flags say. */
  method DataFree(data: Data) returns (released: seq<object>)
    ensures released == NonNull(FreeOrder(data))
  {
    released := ReleaseFirst(data);
    released := ReleaseRest(data, released);
  }

  /** The first half of ccl_data_free: chi, growth, fgrowth and the two
      accelerators. */
  method ReleaseFirst(data: Data) returns (released: seq<object>)
    ensures released == NonNull(FreeOrder(data)[..5])
  {
    ghost var order := FreeOrder(data);
    assert order[..0] == [];
    released := ReleaseIfSet([], order, 0, data.chi);
    released := ReleaseIfSet(released, order, 1, data.growth);
    released := ReleaseIfSet(released, order, 2, data.fgrowth);
    released := ReleaseIfSet(released, order, 3, data.accelerator);
    released := ReleaseIfSet(released, order, 4, data.acceleratorAchi);
  }

  /** The second half of ccl_data_free: E, achi, logsigma, p_lin, p_nl. */
  method ReleaseRest(data: Data, released: seq<object>) returns (released': seq<object>)
    requires released == NonNull(FreeOrder(data)[..5])
    ensures released' == NonNull(FreeOrder(data))
  {
    ghost var order := FreeOrder(data);
    released' := ReleaseIfSet(released, order, 5, data.e);
    released' := ReleaseIfSet(released', order, 6, data.achi);
    released' := ReleaseIfSet(released', order, 7, data.logsigma);
    released' := ReleaseIfSet(released', order, 8, data.pLin);
    released' := ReleaseIfSet(released', order, 9, data.pNl);
    assert order[..10] == order;
  }

  /** In a cache without aliasing, ccl_data_free releases no handle twice,
      and never the mass-function accelerator or the neutrino phase-space
      table, which it leaves allocated. */
  lemma {:induction false} DataFreeReleasesOnce(data: Data)
    requires NoAliasing(AllSlots(data))
    ensures Distinct(NonNull(FreeOrder(data)))
    ensures data.acceleratorM != null ==> data.acceleratorM !in NonNull(FreeOrder(data))
    ensures data.nuPspaceInt != null ==> data.nuPspaceInt !in NonNull(FreeOrder(data))
  {
    FreeOrderKeepsDistinct(data);
    NonNullMembers(FreeOrder(data));
    NonNullDistinct(FreeOrder(data));
  }

  /** The freed slots inherit the absence of aliasing from the whole cache,
      and neither kept slot aliases a freed one. */
  lemma FreeOrderKeepsDistinct(data: Data)
    requires NoAliasing(AllSlots(data))
    ensures NoAliasing(FreeOrder(data))
    ensures data.acceleratorM != null ==> data.acceleratorM !in FreeOrder(data)
    ensures data.nuPspaceInt != null ==> data.nuPspaceInt !in FreeOrder(data)
  {
    var all := AllSlots(data);
    var order := FreeOrder(data);
    assert forall k :: 0 <= k < |order| ==> order[k] == all[k];
    if data.acceleratorM != null {
      assert all[10] == data.acceleratorM;
      forall k | 0 <= k < |order| ensures order[k] != data.acceleratorM {
        assert all[k] != null ==> all[k] != all[10];
      }
    }
    if data.nuPspaceInt != null {
      assert all[11] == data.nuPspaceInt;
      forall k | 0 <= k < |order| ensures order[k] != data.nuPspaceInt {
        assert all[k] != null ==> all[k] != all[11];
      }
    }
  }
}
