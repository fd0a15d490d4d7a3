/**
  `no_adcp_quality_control` of magtogoek/adcp/quality_control.py: flag
  variables of zeros (SeaDataNet's "no quality control") for the variables
  present among temperature, pres, u, v and w.
 */
module NoQualityControl {
  import opened Datasets
  import Utils
  import QualityControl

  /** The variables that get a flag variable of zeros, in the order they are visited. */
  const NoQcNames: seq<Name> := [Temperature, Pres, U, V, W]

  /** A flag variable of zeros only. */
  predicate AllZero(z: Variable) {
    match z
    case ProfileFlags(g) => forall i, j :: 0 <= i < |g| && 0 <= j < |g[i]| ==> g[i][j] == QualityControl.NoQcValue
    case SeriesFlags(s) => forall j :: 0 <= j < |s| ==> s[j] == QualityControl.NoQcValue
    case _ => false
  }

  /** `dataset[var].copy().astype("int8") * 0`: zeros of the variable's dimensions. */
  function Zeros(x: Variable, nd: nat, nt: nat): (z: Variable)
    ensures AllZero(z)
    ensures Fits(x, nd, nt) ==> Fits(z, nd, nt)
    ensures (x.Profile? || x.ProfileFlags?) <==> z.ProfileFlags?
  {
    match x
    case Profile(_) => ProfileFlags(seq(nd, i => seq(nt, j => QualityControl.NoQcValue)))
    case ProfileFlags(_) => ProfileFlags(seq(nd, i => seq(nt, j => QualityControl.NoQcValue)))
    case _ => SeriesFlags(seq(nt, j => QualityControl.NoQcValue))
  }

  /** The variables after the loop of `no_adcp_quality_control` has visited `names`:
      `n_QC` of zeros for each visited `n` in the dataset, all else unchanged. */
  function WithZeroQc(vars: Vars, names: seq<Name>, nd: nat, nt: nat): (r: Vars)
    requires forall k :: 0 <= k < |names| ==> !names[k].QC?
    ensures forall k :: 0 <= k < |names| && names[k] in vars ==>
      && QC(names[k]) in r && AllZero(r[QC(names[k])])
      && ((vars[names[k]].Profile? || vars[names[k]].ProfileFlags?) <==> r[QC(names[k])].ProfileFlags?)
    ensures forall n :: n in r <==> n in vars || (n.QC? && n.of in names && n.of in vars)
    ensures forall n :: n in vars && !(n.QC? && n.of in names && n.of in vars) ==> r[n] == vars[n]
    decreases |names|
  {
    if names == [] then vars
    else
      var r' := WithZeroQc(vars, names[..|names| - 1], nd, nt);
      var n := names[|names| - 1];
      assert forall m :: m in names <==> m in names[..|names| - 1] || m == n;
      if n in vars then r'[QC(n) := Zeros(vars[n], nd, nt)] else r'
  }

  /** The zero flags have the dataset's shape. */
  lemma {:induction false} WithZeroQcShape(vars: Vars, names: seq<Name>, nd: nat, nt: nat)
    requires forall k :: 0 <= k < |names| ==> !names[k].QC?
    requires WellShaped(vars, nd, nt)
    ensures WellShaped(WithZeroQc(vars, names, nd, nt), nd, nt)
    decreases |names|
  {
    if names != [] {
      WithZeroQcShape(vars, names[..|names| - 1], nd, nt);
    }
  }

  /** One more pass of the loop, stated on the variables the earlier passes left. */
  lemma WithZeroQcStep(vars: Vars, names: seq<Name>, n: Name, nd: nat, nt: nat)
    requires forall k :: 0 <= k < |names| ==> !names[k].QC?
    requires !n.QC?
    ensures var r := WithZeroQc(vars, names, nd, nt);
      WithZeroQc(vars, names + [n], nd, nt) == if n in r then r[QC(n) := Zeros(r[n], nd, nt)] else r
  {
    assert (names + [n])[..|names|] == names;
  }

  /** `no_adcp_quality_control`: zero flags for temperature, pres, u, v, w when present. */
  method NoAdcpQualityControl(ds: AdcpDataset, l: Utils.Logger)
    requires ds.Valid()
    modifies ds`vars, l
    ensures ds.vars == WithZeroQc(old(ds.vars), NoQcNames, |ds.depth|, |ds.time|)
    ensures ds.Valid()
    ensures l.logbook == Utils.SectionLine("No Quality Controlled", false, "") + Utils.LogLine("No quality control carried out", false, "")
    ensures l.wCount == 0 && l.level == old(l.level)
  {
    l.Reset();
    l.Section("No Quality Controlled", false, "");
    l.Log(Utils.Text("No quality control carried out"), false, "");
    AddZeroFlags(ds, NoQcNames);
  }

  /** The loop of `no_adcp_quality_control` over `names`. */
  method AddZeroFlags(ds: AdcpDataset, names: seq<Name>)
    requires ds.Valid() && forall k :: 0 <= k < |names| ==> !names[k].QC?
    modifies ds`vars
    ensures ds.vars == WithZeroQc(old(ds.vars), names, |ds.depth|, |ds.time|)
    ensures ds.Valid()
  {
    var nd, nt := |ds.depth|, |ds.time|;
    for k := 0 to |names|
      invariant ds.vars == WithZeroQc(old(ds.vars), names[..k], nd, nt)
    {
      var n := names[k];
      assert names[..k + 1] == names[..k] + [n];
      WithZeroQcStep(old(ds.vars), names[..k], n, nd, nt);
      if n in ds.vars {
        ds.vars := ds.vars[QC(n) := Zeros(ds.vars[n], nd, nt)];
      }
    }
    assert names[..|names|] == names;
    WithZeroQcShape(old(ds.vars), names, nd, nt);
  }
}
