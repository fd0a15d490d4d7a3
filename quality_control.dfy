/**
  The quality control of magtogoek/adcp/quality_control.py: the threshold
  tests, the plausibility blanking of the velocities, the bottom-track motion
  correction, and the flag grid that `adcp_quality_control` builds by
  overwriting an array of ones with a fixed sequence of masked assignments.

  Flags follow the SeaDataNet scale: 0 no quality control, 1 good, 3 probably
  bad, 4 bad, 9 missing.
 */
module QualityControl {
  import opened Wrappers
  import opened Floats
  import opened Datasets
  import Utils

  // ---------------------------------------------------------------------------
  // Constants and parameters
  // ---------------------------------------------------------------------------

  /** Meters per second. */
  const ImplausibleVelThreshold: real := 15.0
  /** Degrees Celsius. */
  const MinTemperature: real := -2.0
  const MaxTemperature: real := 32.0
  /** Decibars. */
  const MinPressure: real := 0.0
  const MaxPressure: real := 10000.0

  const NoQcValue: int := 0
  const GoodValue: int := 1
  const ProbablyBadValue: int := 3
  const BadValue: int := 4
  const MissingValue: int := 9

  /** How `adcp_quality_control` fails. */
  datatype QcError =
    /** A test found its variables missing and called `l.warnings`, which `Logger` lacks. */
    | NoWarningsMethod(test: string)
    /** The error-velocity test read `dataset.e` from a dataset without it. */
    | NoSuchVariable(name: Name)
    /** `if sidelobe_flag:` on an array of more than one cell. */
    | AmbiguousTruthValue
    /** The 'nav' motion correction indexed a variable no dataset holds. */
    | NoSuchKey(key: string)

  /** The keyword arguments of `adcp_quality_control` that the model uses. */
  datatype QcParams = QcParams(
    ampTh: Option<real>,
    corrTh: Option<real>,
    pgTh: Option<real>,
    rollTh: Option<real>,
    pitchTh: Option<real>,
    horizontalVelTh: Option<real>,
    verticalVelTh: Option<real>,
    errorVelTh: Option<real>,
    motionCorrectionMode: Option<string>,
    sidelobesCorrection: bool)

  const DefaultParams: QcParams :=
    QcParams(Some(30.0), Some(64.0), Some(90.0), Some(20.0), Some(20.0), Some(5.0), Some(5.0), Some(5.0), None, false)

  /** A threshold is truthy: neither None nor zero. */
  predicate Enabled(th: Option<real>) {
    th.Some? && th.value != 0.0
  }

  function Th(th: Option<real>): real {
    if th.Some? then th.value else 0.0
  }

  /** The results of the tests that are outside the model (they use square
      roots, circular means and cosines), given as inputs: the horizontal,
      vertical and error velocity masks over (depth, time), the roll and pitch
      masks over (time), and what `sidelobe_test` returned (None for False or
      None). */
  datatype OuterMasks = OuterMasks(
    horizontal: Grid<bool>,
    vertical: Grid<bool>,
    error: Grid<bool>,
    roll: seq<bool>,
    pitch: seq<bool>,
    sidelobe: Option<Grid<bool>>)

  predicate OuterFits(o: OuterMasks, nd: nat, nt: nat) {
    && IsGrid(o.horizontal, nd, nt) && IsGrid(o.vertical, nd, nt) && IsGrid(o.error, nd, nt)
    && |o.roll| == nt && |o.pitch| == nt
    && (o.sidelobe.Some? ==> IsGrid(o.sidelobe.value, nd, nt))
  }

  /** The dataset has the three velocity components over (depth, time). */
  predicate HasVelocities(vars: Vars) {
    U in vars && V in vars && W in vars
  }

  /** `g[i][j]`, false outside the grid. */
  predicate Holds(g: Grid<bool>, i: int, j: int) {
    0 <= i < |g| && 0 <= j < |g[i]| && g[i][j]
  }

  /** `np.tile(s, depth.shape + (1,))`: the same row at every depth. */
  function Tile(s: seq<bool>, nd: nat): (g: Grid<bool>)
    ensures IsGrid(g, nd, |s|)
    ensures forall i, j :: 0 <= i < nd && 0 <= j < |s| ==> (Holds(g, i, j) <==> s[j])
  {
    seq(nd, i => s)
  }

  lemma GridsEqual<T>(a: Grid<T>, b: Grid<T>, nd: nat, nt: nat)
    requires IsGrid(a, nd, nt) && IsGrid(b, nd, nt)
    requires forall i, j :: 0 <= i < nd && 0 <= j < nt ==> a[i][j] == b[i][j]
    ensures a == b
  {
    forall i | 0 <= i < nd ensures a[i] == b[i] {
    }
  }

  // ---------------------------------------------------------------------------
  // Threshold tests
  // ---------------------------------------------------------------------------

  /** The cells where all four beams lie strictly below `th`: the common body
      of `correlation_test` and `amplitude_test`. */
  function FourBeamTest(vars: Vars, nd: nat, nt: nat, b1: Name, b2: Name, b3: Name, b4: Name, th: real, test: string)
    : (r: Result<Grid<bool>, QcError>)
    ensures r.Success? <==> b1 in vars && b2 in vars && b3 in vars && b4 in vars
    ensures r.Failure? ==> r.error == NoWarningsMethod(test)
    ensures r.Success? ==> IsGrid(r.value, nd, nt)
    ensures r.Success? ==> forall i, j :: 0 <= i < nd && 0 <= j < nt ==>
      (r.value[i][j] <==> Below(Value(vars, b1, i, j), th) && Below(Value(vars, b2, i, j), th)
                          && Below(Value(vars, b3, i, j), th) && Below(Value(vars, b4, i, j), th))
  {
    if b1 in vars && b2 in vars && b3 in vars && b4 in vars then
      Success(seq(nd, i => seq(nt, j =>
        Below(Value(vars, b1, i, j), th) && Below(Value(vars, b2, i, j), th)
        && Below(Value(vars, b3, i, j), th) && Below(Value(vars, b4, i, j), th))))
    else
      Failure(NoWarningsMethod(test))
  }

  /** `correlation_test`: fails where corr1..corr4 are all below the threshold. */
  function CorrelationTest(vars: Vars, nd: nat, nt: nat, th: real): (r: Result<Grid<bool>, QcError>)
    ensures r.Success? <==> Corr1 in vars && Corr2 in vars && Corr3 in vars && Corr4 in vars
    ensures r.Failure? ==> r.error == NoWarningsMethod("correlation")
    ensures r.Success? ==> IsGrid(r.value, nd, nt)
    ensures r.Success? ==> forall i, j :: 0 <= i < nd && 0 <= j < nt ==>
      (r.value[i][j] <==> AllBeamsBelow(vars, Corr1, Corr2, Corr3, Corr4, th, i, j))
  {
    FourBeamTest(vars, nd, nt, Corr1, Corr2, Corr3, Corr4, th, "correlation")
  }

  /** `amplitude_test`: fails where amp1..amp4 are all below the threshold. */
  function AmplitudeTest(vars: Vars, nd: nat, nt: nat, th: real): (r: Result<Grid<bool>, QcError>)
    ensures r.Success? <==> Amp1 in vars && Amp2 in vars && Amp3 in vars && Amp4 in vars
    ensures r.Failure? ==> r.error == NoWarningsMethod("amplitude")
    ensures r.Success? ==> IsGrid(r.value, nd, nt)
    ensures r.Success? ==> forall i, j :: 0 <= i < nd && 0 <= j < nt ==>
      (r.value[i][j] <==> AllBeamsBelow(vars, Amp1, Amp2, Amp3, Amp4, th, i, j))
  {
    FourBeamTest(vars, nd, nt, Amp1, Amp2, Amp3, Amp4, th, "amplitude")
  }

  /** A beam whose value is missing, or at or above the threshold, lets the cell
      pass both the correlation and the amplitude test. */
  lemma OneBeamPasses(vars: Vars, nd: nat, nt: nat, th: real, b: Name, i: int, j: int)
    requires 0 <= i < nd && 0 <= j < nt
    requires b in {Corr1, Corr2, Corr3, Corr4, Amp1, Amp2, Amp3, Amp4}
    requires Value(vars, b, i, j).NaN? || (Value(vars, b, i, j).Num? && Value(vars, b, i, j).r >= th)
    ensures b in {Corr1, Corr2, Corr3, Corr4} && CorrelationTest(vars, nd, nt, th).Success? ==>
      !CorrelationTest(vars, nd, nt, th).value[i][j]
    ensures b in {Amp1, Amp2, Amp3, Amp4} && AmplitudeTest(vars, nd, nt, th).Success? ==>
      !AmplitudeTest(vars, nd, nt, th).value[i][j]
  {
  }

  /** `percentgood_test`: fails exactly where `pg` is below the threshold. */
  function PercentGoodTest(vars: Vars, nd: nat, nt: nat, th: real): (r: Result<Grid<bool>, QcError>)
    ensures r.Success? <==> Pg in vars
    ensures r.Failure? ==> r.error == NoWarningsMethod("percentgood")
    ensures r.Success? ==> IsGrid(r.value, nd, nt)
    ensures r.Success? ==> forall i, j :: 0 <= i < nd && 0 <= j < nt ==>
      (r.value[i][j] <==> match Value(vars, Pg, i, j)
                           case Num(x) => x < th
                           case NegInf => true
                           case _ => false)
  {
    if Pg in vars then Success(BelowGrid(vars, Pg, nd, nt, th)) else Failure(NoWarningsMethod("percentgood"))
  }

  /** The cells of `n` below `th`. */
  function BelowGrid(vars: Vars, n: Name, nd: nat, nt: nat, th: real): (g: Grid<bool>)
    ensures IsGrid(g, nd, nt)
    ensures forall i, j :: 0 <= i < nd && 0 <= j < nt ==> (g[i][j] <==> Below(Value(vars, n, i, j), th))
  {
    seq(nd, i => seq(nt, j => Below(Value(vars, n, i, j), th)))
  }

  /** `x > hi | x < lo`, elementwise. */
  predicate OutOfRange(x: Float, lo: real, hi: real) {
    Above(x, hi) || Below(x, lo)
  }

  /** `temperature_test`: fails outside [-2, 32]. */
  function TemperatureTest(vars: Vars, nt: nat): (r: seq<bool>)
    ensures |r| == nt
    ensures forall j :: 0 <= j < nt ==>
      (r[j] <==> match At(vars, Temperature, j)
                 case Num(x) => x < -2.0 || 32.0 < x
                 case NaN => false
                 case _ => true)
  {
    seq(nt, j => OutOfRange(At(vars, Temperature, j), MinTemperature, MaxTemperature))
  }

  /** `pressure_test`: fails outside [0, 10000]. */
  function PressureTest(vars: Vars, nt: nat): (r: seq<bool>)
    ensures |r| == nt
    ensures forall j :: 0 <= j < nt ==>
      (r[j] <==> match At(vars, Pres, j)
                 case Num(x) => x < 0.0 || 10000.0 < x
                 case NaN => false
                 case _ => true)
  {
    seq(nt, j => OutOfRange(At(vars, Pres, j), MinPressure, MaxPressure))
  }

  /** Both bounds of both ranges are good values, and a missing value never fails. */
  lemma RangeBoundsAreGood(vars: Vars, nt: nat, j: int)
    requires 0 <= j < nt
    ensures At(vars, Temperature, j) in {Num(-2.0), Num(32.0), NaN} ==> !TemperatureTest(vars, nt)[j]
    ensures At(vars, Pres, j) in {Num(0.0), Num(10000.0), NaN} ==> !PressureTest(vars, nt)[j]
  {
  }

  /** The fifth-beam failure of one cell: some present, enabled variable lies below its threshold. */
  predicate FifthBeamFails(vars: Vars, amp: Option<real>, corr: Option<real>, pg: Option<real>, i: int, j: int) {
    || (VbAmp in vars && Enabled(amp) && Below(Value(vars, VbAmp, i, j), Th(amp)))
    || (VbCorr in vars && Enabled(corr) && Below(Value(vars, VbCorr, i, j), Th(corr)))
    || (VbPg in vars && Enabled(pg) && Below(Value(vars, VbPg, i, j), Th(pg)))
  }

  /** `vb[mask] = x` on a 2-D array: the masked cells take `x`, the others keep their value. */
  method SetWhere<T>(a: array2<T>, mask: Grid<bool>, x: T)
    requires IsGrid(mask, a.Length0, a.Length1)
    modifies a
    ensures forall i, j :: 0 <= i < a.Length0 && 0 <= j < a.Length1 ==>
      a[i, j] == (if mask[i][j] then x else old(a[i, j]))
  {
    var i := 0;
    while i < a.Length0
      invariant 0 <= i <= a.Length0
      invariant forall p, q :: 0 <= p < a.Length0 && 0 <= q < a.Length1 ==>
        a[p, q] == (if p < i && mask[p][q] then x else old(a[p, q]))
    {
      var j := 0;
      while j < a.Length1
        invariant 0 <= j <= a.Length1
        invariant forall p, q :: 0 <= p < a.Length0 && 0 <= q < a.Length1 ==>
          a[p, q] == (if (p < i || (p == i && q < j)) && mask[p][q] then x else old(a[p, q]))
      {
        if mask[i][j] {
          a[i, j] := x;
        }
        j := j + 1;
      }
      i := i + 1;
    }
  }

  /** `vertical_beam_test`: an all-False array, set True where an enabled fifth-beam test fails. */
  method VerticalBeamTest(vars: Vars, nd: nat, nt: nat, amp: Option<real>, corr: Option<real>, pg: Option<real>)
    returns (vb: array2<bool>)
    ensures fresh(vb) && vb.Length0 == nd && vb.Length1 == nt
    ensures forall i, j :: 0 <= i < nd && 0 <= j < nt ==> (vb[i, j] <==> FifthBeamFails(vars, amp, corr, pg, i, j))
  {
    vb := new bool[nd, nt]((i, j) => false);
    if VbAmp in vars && Enabled(amp) {
      SetWhere(vb, BelowGrid(vars, VbAmp, nd, nt, Th(amp)), true);
    }
    if VbCorr in vars && Enabled(corr) {
      SetWhere(vb, BelowGrid(vars, VbCorr, nd, nt, Th(corr)), true);
    }
    if VbPg in vars && Enabled(pg) {
      SetWhere(vb, BelowGrid(vars, VbPg, nd, nt, Th(pg)), true);
    }
  }

  /** Without fifth-beam data, or with every threshold falsy, no cell fails. */
  lemma FifthBeamNeedsData(vars: Vars, amp: Option<real>, corr: Option<real>, pg: Option<real>, i: int, j: int)
    requires (VbAmp !in vars || !Enabled(amp)) && (VbCorr !in vars || !Enabled(corr)) && (VbPg !in vars || !Enabled(pg))
    ensures !FifthBeamFails(vars, amp, corr, pg, i, j)
  {
  }

  // ---------------------------------------------------------------------------
  // Motion correction
  // ---------------------------------------------------------------------------

  const BtCorrectedNote: string := "Motion correction carried out with bottom track"
  const BtMissingWarning: string := "Motion correction aborded. Bottom velocity (bt_u, bt_v, bt_w) missing"
  const NavMissingWarning: string := "Motion correction aborded. Navigation velocity (u_ship, v_ship) missing"
  const InvalidModeWarning: string := "Motion correction aborded. Motion correction mode invalid. ('bt' or 'nav')"

  predicate HasBottomTrack(vars: Vars) {
    BtU in vars && BtV in vars && BtW in vars
  }

  /** The 'nav' correction runs: u_ship and v_ship are present. */
  predicate NavApplies(vars: Vars, mode: string) {
    mode == "nav" && UShip in vars && VShip in vars
  }

  /** The variable `dataset[f"{field}ship"]` the 'nav' loop writes for its first
      field, u. No variable of the model's datasets has that name (the loader's
      `uship` and `vship` entries are commented out), so the write raises. */
  const NavShipCopy: string := "uship"

  /** `dataset[n] + np.tile(dataset[ship].where(np.isfinite(lon), 0), ...)`:
      the ship velocity, taken as 0 where the longitude is not finite, added at every depth. */
  function NavAdded(vars: Vars, n: Name, ship: Name, nd: nat, nt: nat): (g: Grid<Float>)
    ensures IsGrid(g, nd, nt)
    ensures forall i, j :: 0 <= i < nd && 0 <= j < nt ==>
      g[i][j] == Add(Value(vars, n, i, j), if IsFinite(At(vars, Lon, j)) then At(vars, ship, j) else Num(0.0))
  {
    seq(nd, i => seq(nt, j => Add(Value(vars, n, i, j), if IsFinite(At(vars, Lon, j)) then At(vars, ship, j) else Num(0.0))))
  }

  /** How `motion_correction` raises: in 'nav' mode with the ship velocities
      present, reading `dataset.lon` fails when there is no longitude, and
      otherwise writing `uship` fails after u has been corrected. */
  function MotionError(vars: Vars, mode: string): (e: Option<QcError>)
    ensures e.Some? <==> NavApplies(vars, mode)
    ensures e.Some? ==> e.value == if Lon in vars then NoSuchKey(NavShipCopy) else NoSuchVariable(Lon)
  {
    if !NavApplies(vars, mode) then None
    else if Lon in vars then Some(NoSuchKey(NavShipCopy))
    else Some(NoSuchVariable(Lon))
  }

  predicate BottomTrackApplies(vars: Vars, mode: string) {
    mode == "bt" && HasBottomTrack(vars)
  }

  /** The bottom-track velocity matching a velocity component. */
  function BottomTrack(n: Name): Name {
    match n
    case U => BtU
    case V => BtV
    case _ => BtW
  }

  /** `dataset[n] - dataset[bt].values`: the (time) series is broadcast over depth. */
  function BtSubtracted(vars: Vars, n: Name, nd: nat, nt: nat): (g: Grid<Float>)
    ensures IsGrid(g, nd, nt)
    ensures forall i, j :: 0 <= i < nd && 0 <= j < nt ==> g[i][j] == Sub(Value(vars, n, i, j), At(vars, BottomTrack(n), j))
  {
    seq(nd, i => seq(nt, j => Sub(Value(vars, n, i, j), At(vars, BottomTrack(n), j))))
  }

  /** The components corrected after `k` passes of the correction loop. */
  function CorrectedUpTo(vars: Vars, nd: nat, nt: nat, k: int): Vars {
    var v1 := if k >= 1 then vars[U := Profile(BtSubtracted(vars, U, nd, nt))] else vars;
    var v2 := if k >= 2 then v1[V := Profile(BtSubtracted(vars, V, nd, nt))] else v1;
    if k >= 3 then v2[W := Profile(BtSubtracted(vars, W, nd, nt))] else v2
  }

  /** One pass of the loop corrects the next component from values the earlier passes left alone. */
  lemma CorrectedStep(vars: Vars, nd: nat, nt: nat, k: int)
    requires WellShaped(vars, nd, nt) && HasVelocities(vars) && 0 <= k < 3
    ensures var f := [U, V, W][k];
      CorrectedUpTo(vars, nd, nt, k + 1) == CorrectedUpTo(vars, nd, nt, k)[f := Profile(BtSubtracted(CorrectedUpTo(vars, nd, nt, k), f, nd, nt))]
    ensures WellShaped(CorrectedUpTo(vars, nd, nt, k + 1), nd, nt)
  {
    var f := [U, V, W][k];
    var c := CorrectedUpTo(vars, nd, nt, k);
    assert forall i, j :: Value(c, f, i, j) == Value(vars, f, i, j);
    assert forall j :: At(c, BottomTrack(f), j) == At(vars, BottomTrack(f), j);
    GridsEqual(BtSubtracted(c, f, nd, nt), BtSubtracted(vars, f, nd, nt), nd, nt);
  }

  /** The velocities after `motion_correction(dataset, mode)`, also when it raises. */
  function MotionCorrected(vars: Vars, nd: nat, nt: nat, mode: string): (r: Vars)
    ensures HasVelocities(vars) ==> r.Keys == vars.Keys
    ensures forall n :: n in vars && n != U && n != V && n != W ==> n in r && r[n] == vars[n]
    ensures !BottomTrackApplies(vars, mode) && !(NavApplies(vars, mode) && Lon in vars) ==> r == vars
    ensures BottomTrackApplies(vars, mode) && HasVelocities(vars) ==>
      forall n, i, j :: n in {U, V, W} && 0 <= i < nd && 0 <= j < nt ==>
        Value(r, n, i, j) == Sub(Value(vars, n, i, j), At(vars, BottomTrack(n), j))
    ensures NavApplies(vars, mode) && Lon in vars && HasVelocities(vars) ==>
      && (forall i, j :: 0 <= i < nd && 0 <= j < nt ==>
           Value(r, U, i, j) == Add(Value(vars, U, i, j), if IsFinite(At(vars, Lon, j)) then At(vars, UShip, j) else Num(0.0)))
      && r[V] == vars[V] && r[W] == vars[W]
  {
    if BottomTrackApplies(vars, mode) then CorrectedUpTo(vars, nd, nt, 3)
    else if NavApplies(vars, mode) && Lon in vars then vars[U := Profile(NavAdded(vars, U, UShip, nd, nt))]
    else vars
  }

  /** With finite velocities and bottom track, the corrected velocity is the
      difference; anything missing stays missing. */
  lemma MotionCorrectionSubtracts(vars: Vars, nd: nat, nt: nat, n: Name, i: int, j: int)
    requires HasVelocities(vars) && HasBottomTrack(vars)
    requires n in {U, V, W} && 0 <= i < nd && 0 <= j < nt
    ensures var c := Value(MotionCorrected(vars, nd, nt, "bt"), n, i, j);
      && (Value(vars, n, i, j).Num? && At(vars, BottomTrack(n), j).Num? ==>
           c == Num(Value(vars, n, i, j).r - At(vars, BottomTrack(n), j).r))
      && (Value(vars, n, i, j).NaN? || At(vars, BottomTrack(n), j).NaN? ==> c.NaN?)
  {
  }

  /** What `motion_correction` writes to the logbook: nothing when the 'nav'
      branch raises before its log line. */
  function MotionLog(vars: Vars, mode: string): (s: string)
    ensures s == "" <==> NavApplies(vars, mode)
    ensures BottomTrackApplies(vars, mode) ==> s == Utils.LogLine(BtCorrectedNote, false, "")
  {
    if mode == "bt" then Utils.LogLine(if HasBottomTrack(vars) then BtCorrectedNote else BtMissingWarning, false, "")
    else if mode == "nav" then (if NavApplies(vars, mode) then "" else Utils.LogLine(NavMissingWarning, false, ""))
    else Utils.LogLine(InvalidModeWarning, false, "")
  }

  /** Whether `motion_correction` issues a warning: it neither corrects nor raises. */
  predicate MotionWarns(vars: Vars, mode: string): (w: bool)
    ensures w <==> !BottomTrackApplies(vars, mode) && MotionError(vars, mode).None?
  {
    !BottomTrackApplies(vars, mode) && !NavApplies(vars, mode)
  }

  /** `motion_correction`: subtracts the bottom track from u, v and w in place when all
      three are present in 'bt' mode; in 'nav' mode with the ship velocities
      present, adds the ship velocity to u and raises; otherwise leaves the
      velocities and warns. */
  method MotionCorrection(ds: AdcpDataset, mode: string, l: Utils.Logger) returns (err: Option<QcError>)
    requires ds.Valid() && HasVelocities(ds.vars)
    modifies ds`vars, l
    ensures ds.Valid()
    ensures ds.vars == MotionCorrected(old(ds.vars), |ds.depth|, |ds.time|, mode)
    ensures err == MotionError(old(ds.vars), mode)
    ensures l.logbook == old(l.logbook) + MotionLog(old(ds.vars), mode)
    ensures l.wCount == old(l.wCount) + (if MotionWarns(old(ds.vars), mode) && l.level < 2 then 1 else 0)
    ensures l.level == old(l.level)
  {
    if mode == "bt" {
      BottomTrackCorrection(ds, l);
      err := None;
    } else if mode == "nav" {
      err := NavigationCorrection(ds, l);
    } else {
      l.Warning(Utils.Text(InvalidModeWarning), false, "");
      err := None;
    }
  }

  /** The 'bt' branch of `motion_correction`. */
  method BottomTrackCorrection(ds: AdcpDataset, l: Utils.Logger)
    requires ds.Valid() && HasVelocities(ds.vars)
    modifies ds`vars, l
    ensures ds.Valid()
    ensures ds.vars == MotionCorrected(old(ds.vars), |ds.depth|, |ds.time|, "bt")
    ensures l.logbook == old(l.logbook) + MotionLog(old(ds.vars), "bt")
    ensures l.wCount == old(l.wCount) + (if MotionWarns(old(ds.vars), "bt") && l.level < 2 then 1 else 0)
    ensures l.level == old(l.level)
  {
    if BtU in ds.vars && BtV in ds.vars && BtW in ds.vars {
      SubtractBottomTrack(ds);
      l.Log(Utils.Text(BtCorrectedNote), false, "");
    } else {
      l.Warning(Utils.Text(BtMissingWarning), false, "");
    }
  }

  /** The 'nav' branch of `motion_correction`. */
  method NavigationCorrection(ds: AdcpDataset, l: Utils.Logger) returns (err: Option<QcError>)
    requires ds.Valid() && HasVelocities(ds.vars)
    modifies ds`vars, l
    ensures ds.Valid()
    ensures ds.vars == MotionCorrected(old(ds.vars), |ds.depth|, |ds.time|, "nav")
    ensures err == MotionError(old(ds.vars), "nav")
    ensures l.logbook == old(l.logbook) + MotionLog(old(ds.vars), "nav")
    ensures l.wCount == old(l.wCount) + (if MotionWarns(old(ds.vars), "nav") && l.level < 2 then 1 else 0)
    ensures l.level == old(l.level)
  {
    ghost var before := ds.vars;
    if UShip in ds.vars && VShip in ds.vars {
      assert MotionLog(before, "nav") == "";
      if Lon !in ds.vars {
        assert MotionCorrected(before, |ds.depth|, |ds.time|, "nav") == before;
        return Some(NoSuchVariable(Lon));
      }
      AddShipVelocity(ds);
      return Some(NoSuchKey(NavShipCopy));
    }
    assert MotionCorrected(before, |ds.depth|, |ds.time|, "nav") == before;
    assert MotionLog(before, "nav") == Utils.LogLine(NavMissingWarning, false, "");
    l.Warning(Utils.Text(NavMissingWarning), false, "");
    err := None;
  }

  /** The first pass of the 'nav' loop: u gains the ship velocity. */
  method AddShipVelocity(ds: AdcpDataset)
    requires ds.Valid() && HasVelocities(ds.vars) && NavApplies(ds.vars, "nav") && Lon in ds.vars
    modifies ds`vars
    ensures ds.vars == MotionCorrected(old(ds.vars), |ds.depth|, |ds.time|, "nav")
    ensures ds.Valid()
  {
    var g := NavAdded(ds.vars, U, UShip, |ds.depth|, |ds.time|);
    UpdateFits(ds.vars, U, Profile(g), |ds.depth|, |ds.time|);
    ds.vars := ds.vars[U := Profile(g)];
  }

  /** The 'bt' loop of `motion_correction`: `dataset[field] -= dataset[f"bt_{field}"].values` for u, v, w. */
  method SubtractBottomTrack(ds: AdcpDataset)
    requires ds.Valid() && HasVelocities(ds.vars) && HasBottomTrack(ds.vars)
    modifies ds`vars
    ensures ds.Valid()
    ensures ds.vars == MotionCorrected(old(ds.vars), |ds.depth|, |ds.time|, "bt")
  {
    var nd, nt := |ds.depth|, |ds.time|;
    var fields := [U, V, W];
    for k := 0 to 3
      invariant ds.vars == CorrectedUpTo(old(ds.vars), nd, nt, k)
      invariant WellShaped(ds.vars, nd, nt)
    {
      CorrectedStep(old(ds.vars), nd, nt, k);
      var f := fields[k];
      ds.vars := ds.vars[f := Profile(BtSubtracted(ds.vars, f, nd, nt))];
    }
  }

  // ---------------------------------------------------------------------------
  // Implausible velocities
  // ---------------------------------------------------------------------------

  /** `(x > -thres) & (x < thres)`: false on a missing value. */
  predicate Plausible(x: Float, thres: real) {
    Above(x, -thres) && Below(x, thres)
  }

  /** The first `k` of u, v, w are plausible at (i, j). */
  predicate KeepFirst(vars: Vars, k: int, i: int, j: int, thres: real) {
    && (k <= 0 || Plausible(Value(vars, U, i, j), thres))
    && (k <= 1 || Plausible(Value(vars, V, i, j), thres))
    && (k <= 2 || Plausible(Value(vars, W, i, j), thres))
  }

  /** `dataset[n].where(keep)`: NaN where `keep` is false. */
  function Where(vars: Vars, n: Name, nd: nat, nt: nat, keep: Grid<bool>): (g: Grid<Float>)
    ensures IsGrid(g, nd, nt)
    ensures forall i, j :: 0 <= i < nd && 0 <= j < nt ==> g[i][j] == if Holds(keep, i, j) then Value(vars, n, i, j) else NaN
  {
    seq(nd, i => seq(nt, j => if Holds(keep, i, j) then Value(vars, n, i, j) else NaN))
  }

  /** u, v and w all blanked where `keep` is false. */
  function Blank(vars: Vars, nd: nat, nt: nat, keep: Grid<bool>): Vars {
    vars[U := Profile(Where(vars, U, nd, nt, keep))][V := Profile(Where(vars, V, nd, nt, keep))][W := Profile(Where(vars, W, nd, nt, keep))]
  }

  /** The plausible cells of one component. */
  function PlausibleGrid(vars: Vars, n: Name, nd: nat, nt: nat, thres: real): (g: Grid<bool>)
    ensures IsGrid(g, nd, nt)
    ensures forall i, j :: 0 <= i < nd && 0 <= j < nt ==> (g[i][j] <==> Plausible(Value(vars, n, i, j), thres))
  {
    seq(nd, i => seq(nt, j => Plausible(Value(vars, n, i, j), thres)))
  }

  function KeepGrid(vars: Vars, nd: nat, nt: nat, thres: real, k: int): (g: Grid<bool>)
    ensures IsGrid(g, nd, nt)
    ensures forall i, j :: 0 <= i < nd && 0 <= j < nt ==> (g[i][j] <==> KeepFirst(vars, k, i, j, thres))
  {
    seq(nd, i => seq(nt, j => KeepFirst(vars, k, i, j, thres)))
  }

  /** The velocities after `set_implausible_vel_to_nan(dataset, thres)`: a cell
      keeps its u, v, w when all three lie strictly inside (-thres, thres), and
      all three become NaN otherwise. */
  function ImplausibleToNaN(vars: Vars, nd: nat, nt: nat, thres: real): (r: Vars)
    ensures HasVelocities(vars) ==> r.Keys == vars.Keys
    ensures forall n :: n in vars && n != U && n != V && n != W ==> n in r && r[n] == vars[n]
    ensures forall n, i, j :: n in {U, V, W} && 0 <= i < nd && 0 <= j < nt ==>
      Value(r, n, i, j) == if KeepFirst(vars, 3, i, j, thres) then Value(vars, n, i, j) else NaN
  {
    Blank(vars, nd, nt, KeepGrid(vars, nd, nt, thres, 3))
  }

  /** After the blanking, at every cell either all three components are finite
      and strictly inside the bounds, or all three are missing. */
  lemma ImplausibleAllOrNothing(vars: Vars, nd: nat, nt: nat, thres: real, i: int, j: int)
    requires 0 <= i < nd && 0 <= j < nt
    ensures var r := ImplausibleToNaN(vars, nd, nt, thres);
      || (Value(r, U, i, j) == NaN && Value(r, V, i, j) == NaN && Value(r, W, i, j) == NaN)
      || (forall n :: n in {U, V, W} ==> Value(r, n, i, j).Num? && -thres < Value(r, n, i, j).r < thres)
  {
    var r := ImplausibleToNaN(vars, nd, nt, thres);
    if KeepFirst(vars, 3, i, j, thres) {
      forall n | n in {U, V, W} ensures Value(r, n, i, j).Num? && -thres < Value(r, n, i, j).r < thres {
        assert Plausible(Value(vars, n, i, j), thres);
      }
    }
  }

  /** Blanking twice blanks nothing more. */
  lemma ImplausibleIdempotent(vars: Vars, nd: nat, nt: nat, thres: real)
    requires WellShaped(vars, nd, nt) && HasVelocities(vars)
    ensures ImplausibleToNaN(ImplausibleToNaN(vars, nd, nt, thres), nd, nt, thres) == ImplausibleToNaN(vars, nd, nt, thres)
  {
    var r := ImplausibleToNaN(vars, nd, nt, thres);
    var r2 := ImplausibleToNaN(r, nd, nt, thres);
    forall i, j | 0 <= i < nd && 0 <= j < nt
      ensures KeepFirst(r, 3, i, j, thres) == KeepFirst(vars, 3, i, j, thres)
    {
      ImplausibleAllOrNothing(vars, nd, nt, thres, i, j);
    }
    forall n | n in {U, V, W} ensures r2[n] == r[n] {
      GridsEqual(r2[n].cells, r[n].cells, nd, nt);
    }
  }

  /** The state after `k` passes of the blanking loop, in closed form. */
  function KeptAfter(vars: Vars, nd: nat, nt: nat, thres: real, k: int): Vars {
    if k == 0 then vars else Blank(vars, nd, nt, KeepGrid(vars, nd, nt, thres, k))
  }

  /** Blanking replaces u, v, w and nothing else. */
  lemma BlankShape(vars: Vars, nd: nat, nt: nat, keep: Grid<bool>)
    requires WellShaped(vars, nd, nt) && HasVelocities(vars)
    ensures WellShaped(Blank(vars, nd, nt, keep), nd, nt) && HasVelocities(Blank(vars, nd, nt, keep))
    ensures Blank(vars, nd, nt, keep).Keys == vars.Keys
  {
  }

  /** Two blankings agree when they agree on the three components. */
  lemma BlankAgain(vars: Vars, nd: nat, nt: nat, k1: Grid<bool>, m: Grid<bool>, k2: Grid<bool>)
    requires forall n, i, j :: n in {U, V, W} && 0 <= i < nd && 0 <= j < nt ==>
      (if Holds(m, i, j) then Value(Blank(vars, nd, nt, k1), n, i, j) else NaN) == (if Holds(k2, i, j) then Value(vars, n, i, j) else NaN)
    ensures Blank(Blank(vars, nd, nt, k1), nd, nt, m) == Blank(vars, nd, nt, k2)
  {
    var c := Blank(vars, nd, nt, k1);
    forall n | n in {U, V, W} ensures Where(c, n, nd, nt, m) == Where(vars, n, nd, nt, k2) {
      GridsEqual(Where(c, n, nd, nt, m), Where(vars, n, nd, nt, k2), nd, nt);
    }
  }

  /** The mask the loop computes at pass `k` is the mask of the first `k + 1` components. */
  lemma KeptMask(vars: Vars, nd: nat, nt: nat, thres: real, k: int, i: int, j: int)
    requires 0 <= k < 3 && 0 <= i < nd && 0 <= j < nt
    ensures var c := KeptAfter(vars, nd, nt, thres, k);
      Holds(PlausibleGrid(c, [U, V, W][k], nd, nt, thres), i, j) <==> KeepFirst(vars, k + 1, i, j, thres)
  {
    var f := [U, V, W][k];
    var c := KeptAfter(vars, nd, nt, thres, k);
    if k > 0 {
      assert Value(c, f, i, j) == if KeepFirst(vars, k, i, j, thres) then Value(vars, f, i, j) else NaN;
    }
  }

  /** One pass of the loop: the mask of the next component, computed on the
      already blanked values, is the mask of the first `k + 1` components. */
  lemma KeptStep(vars: Vars, nd: nat, nt: nat, thres: real, k: int)
    requires WellShaped(vars, nd, nt) && HasVelocities(vars) && 0 <= k < 3
    ensures var c := KeptAfter(vars, nd, nt, thres, k);
      Blank(c, nd, nt, PlausibleGrid(c, [U, V, W][k], nd, nt, thres)) == KeptAfter(vars, nd, nt, thres, k + 1)
    ensures WellShaped(KeptAfter(vars, nd, nt, thres, k + 1), nd, nt)
  {
    var c := KeptAfter(vars, nd, nt, thres, k);
    var m := PlausibleGrid(c, [U, V, W][k], nd, nt, thres);
    var k2 := KeepGrid(vars, nd, nt, thres, k + 1);
    BlankShape(vars, nd, nt, k2);
    forall i, j | 0 <= i < nd && 0 <= j < nt ensures Holds(m, i, j) <==> Holds(k2, i, j) {
      KeptMask(vars, nd, nt, thres, k, i, j);
    }
    if k == 0 {
      GridsEqual(m, k2, nd, nt);
    } else {
      var k1 := KeepGrid(vars, nd, nt, thres, k);
      BlankAgain(vars, nd, nt, k1, m, k2);
    }
  }

  /** `set_implausible_vel_to_nan`: for each of u, v, w in turn, blanks all three
      velocities where that component is not plausible. */
  method SetImplausibleVelToNan(ds: AdcpDataset, thres: real)
    requires ds.Valid() && HasVelocities(ds.vars)
    modifies ds`vars
    ensures ds.Valid()
    ensures ds.vars == ImplausibleToNaN(old(ds.vars), |ds.depth|, |ds.time|, thres)
  {
    var nd, nt := |ds.depth|, |ds.time|;
    var fields := [U, V, W];
    for k := 0 to 3
      invariant ds.vars == KeptAfter(old(ds.vars), nd, nt, thres, k)
      invariant WellShaped(ds.vars, nd, nt) && HasVelocities(ds.vars)
    {
      KeptStep(old(ds.vars), nd, nt, thres, k);
      var plausible := PlausibleGrid(ds.vars, fields[k], nd, nt, thres);
      ds.vars := Blank(ds.vars, nd, nt, plausible);
    }
  }

  // ---------------------------------------------------------------------------
  // The flag grid
  // ---------------------------------------------------------------------------

  /** One masked assignment `vel_flags[mask] = flag`. */
  datatype Step = Step(mask: Grid<bool>, flag: int)

  function AsSeq(st: Option<Step>): seq<Step> {
    if st.Some? then [st.value] else []
  }

  predicate StepsFit(steps: seq<Step>, nd: nat, nt: nat) {
    forall k :: 0 <= k < |steps| ==> IsGrid(steps[k].mask, nd, nt)
  }

  /** Every assignment of `steps` covers the grid and writes `f`. */
  predicate Writes(steps: seq<Step>, f: int, nd: nat, nt: nat) {
    forall k :: 0 <= k < |steps| ==> IsGrid(steps[k].mask, nd, nt) && steps[k].flag == f
  }

  /** Every assignment of `steps` writes one of `fs`. */
  predicate FlagsIn(steps: seq<Step>, fs: set<int>) {
    forall k :: 0 <= k < |steps| ==> steps[k].flag in fs
  }

  lemma FlagsInAppend(a: seq<Step>, b: seq<Step>, fs: set<int>)
    requires FlagsIn(a, fs) && FlagsIn(b, fs)
    ensures FlagsIn(a + b, fs)
  {
    forall k | 0 <= k < |a + b| ensures (a + b)[k].flag in fs {
      if k >= |a| {
        assert (a + b)[k] == b[k - |a|];
      }
    }
  }

  lemma WritesAppend(a: seq<Step>, b: seq<Step>, f: int, nd: nat, nt: nat)
    requires Writes(a, f, nd, nt) && Writes(b, f, nd, nt)
    ensures Writes(a + b, f, nd, nt)
  {
    forall k | 0 <= k < |a + b| ensures IsGrid((a + b)[k].mask, nd, nt) && (a + b)[k].flag == f {
      if k < |a| {
        assert (a + b)[k] == a[k];
      } else {
        assert (a + b)[k] == b[k - |a|];
      }
    }
  }

  /** The flag of cell (i, j) after the assignments `steps` on an array of ones. */
  function FlagAt(steps: seq<Step>, i: int, j: int): (f: int)
    ensures f == GoodValue || exists k :: 0 <= k < |steps| && steps[k].flag == f
  {
    if steps == [] then GoodValue
    else if Holds(steps[|steps| - 1].mask, i, j) then steps[|steps| - 1].flag
    else FlagAt(steps[..|steps| - 1], i, j)
  }

  /** Some assignment of `steps` covers cell (i, j). */
  predicate AnyHolds(steps: seq<Step>, i: int, j: int) {
    exists k :: 0 <= k < |steps| && Holds(steps[k].mask, i, j)
  }

  /** The last assignment that covers a cell decides its flag; a cell no
      assignment covers keeps 1. */
  lemma {:induction false} LastAssignmentWins(steps: seq<Step>, i: int, j: int)
    ensures !AnyHolds(steps, i, j) ==> FlagAt(steps, i, j) == GoodValue
    ensures AnyHolds(steps, i, j) ==>
      (exists k :: && 0 <= k < |steps| && Holds(steps[k].mask, i, j) && FlagAt(steps, i, j) == steps[k].flag
                   && (forall q :: k < q < |steps| ==> !Holds(steps[q].mask, i, j)))
    decreases |steps|
  {
    if steps != [] {
      var n := |steps| - 1;
      var init := steps[..n];
      LastAssignmentWins(init, i, j);
      assert forall q :: 0 <= q < n ==> init[q] == steps[q];
      if !Holds(steps[n].mask, i, j) && AnyHolds(steps, i, j) {
        var k :| 0 <= k < |steps| && Holds(steps[k].mask, i, j);
        assert AnyHolds(init, i, j);
      }
    }
  }

  /** Assignments made after others override them wherever they apply. */
  lemma {:induction false} FlagAtAppend(a: seq<Step>, b: seq<Step>, i: int, j: int)
    ensures FlagAt(a + b, i, j) == if AnyHolds(b, i, j) then FlagAt(b, i, j) else FlagAt(a, i, j)
    decreases |b|
  {
    if b == [] {
      assert a + b == a;
    } else {
      var n := |b| - 1;
      var b' := b[..n];
      assert (a + b)[..|a + b| - 1] == a + b';
      FlagAtAppend(a, b', i, j);
      assert forall q :: 0 <= q < n ==> b'[q] == b[q];
      if !Holds(b[n].mask, i, j) && AnyHolds(b, i, j) {
        var k :| 0 <= k < |b| && Holds(b[k].mask, i, j);
        assert AnyHolds(b', i, j);
      }
    }
  }

  /** Assignments that all write the same flag give that flag wherever one applies, and 1 elsewhere. */
  lemma {:induction false} FlagAtUniform(steps: seq<Step>, f: int, i: int, j: int)
    requires forall k :: 0 <= k < |steps| ==> steps[k].flag == f
    ensures FlagAt(steps, i, j) == if AnyHolds(steps, i, j) then f else GoodValue
  {
    LastAssignmentWins(steps, i, j);
  }

  lemma AnyHoldsAppend(a: seq<Step>, b: seq<Step>, i: int, j: int)
    ensures AnyHolds(a + b, i, j) <==> AnyHolds(a, i, j) || AnyHolds(b, i, j)
  {
    if AnyHolds(a + b, i, j) {
      var k :| 0 <= k < |a + b| && Holds((a + b)[k].mask, i, j);
      if k >= |a| {
        assert (a + b)[k] == b[k - |a|];
      } else {
        assert (a + b)[k] == a[k];
      }
    }
    if AnyHolds(a, i, j) {
      var k :| 0 <= k < |a| && Holds(a[k].mask, i, j);
      assert (a + b)[k] == a[k];
    }
    if AnyHolds(b, i, j) {
      var k :| 0 <= k < |b| && Holds(b[k].mask, i, j);
      assert (a + b)[k + |a|] == b[k];
    }
  }

  /** `if th: vel_flags[test] = flag`, when the test can run. */
  function TestStep(enabled: bool, test: Result<Grid<bool>, QcError>, flag: int): Result<Option<Step>, QcError> {
    if !enabled then Success(None)
    else if test.Failure? then Failure(test.error)
    else Success(Some(Step(test.value, flag)))
  }

  function AmplitudeStep(vars: Vars, nd: nat, nt: nat, p: QcParams): Result<Option<Step>, QcError> {
    TestStep(Enabled(p.ampTh), AmplitudeTest(vars, nd, nt, Th(p.ampTh)), ProbablyBadValue)
  }

  function CorrelationStep(vars: Vars, nd: nat, nt: nat, p: QcParams): Result<Option<Step>, QcError> {
    TestStep(Enabled(p.corrTh), CorrelationTest(vars, nd, nt, Th(p.corrTh)), ProbablyBadValue)
  }

  function PercentGoodStep(vars: Vars, nd: nat, nt: nat, p: QcParams): Result<Option<Step>, QcError> {
    TestStep(Enabled(p.pgTh), PercentGoodTest(vars, nd, nt, Th(p.pgTh)), ProbablyBadValue)
  }

  function MaskStep(enabled: bool, mask: Grid<bool>): Option<Step> {
    if enabled then Some(Step(mask, ProbablyBadValue)) else None
  }

  /** The error-velocity test reads `dataset.e`. */
  function ErrorStep(vars: Vars, p: QcParams, outer: OuterMasks): (r: Result<Option<Step>, QcError>)
    ensures r.Failure? <==> Enabled(p.errorVelTh) && E !in vars
    ensures r.Failure? ==> r.error == NoSuchVariable(E)
    ensures r.Success? ==> (r.value.Some? <==> Enabled(p.errorVelTh))
    ensures r.Success? && r.value.Some? ==> r.value.value == Step(outer.error, ProbablyBadValue)
  {
    if !Enabled(p.errorVelTh) then Success(None)
    else if E !in vars then Failure(NoSuchVariable(E))
    else Success(Some(Step(outer.error, ProbablyBadValue)))
  }

  /** The roll and pitch failures over (time), tiled over depth. */
  function TiltStep(th: Option<real>, present: bool, mask: seq<bool>, nd: nat, test: string): (r: Result<Option<Step>, QcError>)
    ensures r.Failure? <==> Enabled(th) && !present
    ensures r.Failure? ==> r.error == NoWarningsMethod(test)
    ensures r.Success? ==> (r.value.Some? <==> Enabled(th))
    ensures r.Success? && r.value.Some? ==>
      && r.value.value.flag == ProbablyBadValue
      && IsGrid(r.value.value.mask, nd, |mask|)
      && forall i, j :: 0 <= i < nd && 0 <= j < |mask| ==> (Holds(r.value.value.mask, i, j) <==> mask[j])
  {
    if !Enabled(th) then Success(None)
    else if !present then Failure(NoWarningsMethod(test))
    else Success(Some(Step(Tile(mask, nd), ProbablyBadValue)))
  }

  /** `if sidelobe_flag: vel_flags[sidelobe_flag] = 4`: the truth value of an
      array is defined only for at most one cell, and a one-cell mask that is
      false changes nothing when applied. */
  function SidelobeStep(nd: nat, nt: nat, p: QcParams, outer: OuterMasks): (r: Result<Option<Step>, QcError>)
    ensures r.Failure? <==> p.sidelobesCorrection && outer.sidelobe.Some? && nd * nt > 1
    ensures r.Failure? ==> r.error == AmbiguousTruthValue
    ensures r.Success? && r.value.Some? ==> nd * nt <= 1 && outer.sidelobe == Some(r.value.value.mask) && r.value.value.flag == BadValue
  {
    if !p.sidelobesCorrection || outer.sidelobe.None? then Success(None)
    else if nd * nt > 1 then Failure(AmbiguousTruthValue)
    else Success(Some(Step(outer.sidelobe.value, BadValue)))
  }

  function PressureStep(vars: Vars, nd: nat, nt: nat): Option<Step> {
    if Pres in vars then Some(Step(Tile(PressureTest(vars, nt), nd), BadValue)) else None
  }

  /** Some velocity component is not finite. */
  predicate MissingAt(vars: Vars, i: int, j: int) {
    !IsFinite(Value(vars, U, i, j)) || !IsFinite(Value(vars, V, i, j)) || !IsFinite(Value(vars, W, i, j))
  }

  /** `~isfinite(u) | ~isfinite(v) | ~isfinite(w)`. */
  function MissingVelocity(vars: Vars, nd: nat, nt: nat): (g: Grid<bool>)
    ensures IsGrid(g, nd, nt)
    ensures forall i, j :: 0 <= i < nd && 0 <= j < nt ==> (g[i][j] <==> MissingAt(vars, i, j))
  {
    seq(nd, i => seq(nt, j => MissingAt(vars, i, j)))
  }

  /** The mask as written: `np.bitwise_or(a, b, c)` takes its third argument as
      the output array, so the result is `a | b` and w is not looked at. */
  function MissingVelocityAsWritten(vars: Vars, nd: nat, nt: nat): (g: Grid<bool>)
    ensures IsGrid(g, nd, nt)
  {
    seq(nd, i => seq(nt, j => !IsFinite(Value(vars, U, i, j)) || !IsFinite(Value(vars, V, i, j))))
  }

  /** On its own, the mask as written misses a cell where only w is missing. */
  lemma MissingAsWrittenIgnoresW()
    ensures var vars := map[U := Profile([[Num(0.0)]]), V := Profile([[Num(0.0)]]), W := Profile([[NaN]])];
      !MissingVelocityAsWritten(vars, 1, 1)[0][0] && MissingVelocity(vars, 1, 1)[0][0]
  {
    var vars := map[U := Profile([[Num(0.0)]]), V := Profile([[Num(0.0)]]), W := Profile([[NaN]])];
    assert Value(vars, U, 0, 0) == Num(0.0) && Value(vars, V, 0, 0) == Num(0.0) && Value(vars, W, 0, 0) == NaN;
  }

  /** After the plausibility blanking the two masks are the same, so the grid
      `adcp_quality_control` computes is the intended one. */
  lemma MissingAsWrittenAgreesAfterBlanking(vars: Vars, nd: nat, nt: nat, thres: real)
    ensures var r := ImplausibleToNaN(vars, nd, nt, thres);
      MissingVelocityAsWritten(r, nd, nt) == MissingVelocity(r, nd, nt)
  {
    var r := ImplausibleToNaN(vars, nd, nt, thres);
    forall i, j | 0 <= i < nd && 0 <= j < nt
      ensures MissingVelocityAsWritten(r, nd, nt)[i][j] == MissingVelocity(r, nd, nt)[i][j]
    {
      ImplausibleAllOrNothing(vars, nd, nt, thres, i, j);
    }
    GridsEqual(MissingVelocityAsWritten(r, nd, nt), MissingVelocity(r, nd, nt), nd, nt);
  }

  function MissingStep(vars: Vars, nd: nat, nt: nat): Step {
    Step(MissingVelocity(vars, nd, nt), MissingValue)
  }

  /** An enabled amplitude test finds one of amp1..amp4 missing. */
  predicate AmplitudeRaises(vars: Vars, p: QcParams) {
    Enabled(p.ampTh) && !(Amp1 in vars && Amp2 in vars && Amp3 in vars && Amp4 in vars)
  }

  /** An enabled correlation test finds one of corr1..corr4 missing. */
  predicate CorrelationRaises(vars: Vars, p: QcParams) {
    Enabled(p.corrTh) && !(Corr1 in vars && Corr2 in vars && Corr3 in vars && Corr4 in vars)
  }

  /** An enabled percent-good test finds pg missing. */
  predicate PercentGoodRaises(vars: Vars, p: QcParams) {
    Enabled(p.pgTh) && Pg !in vars
  }

  /** The beam tests that write 3, in the order `adcp_quality_control` runs
      them, or the error of the first that raises. */
  function BeamSteps(vars: Vars, nd: nat, nt: nat, p: QcParams): (r: Result<seq<Step>, QcError>)
    ensures r.Failure? <==> AmplitudeRaises(vars, p) || CorrelationRaises(vars, p) || PercentGoodRaises(vars, p)
    ensures r.Failure? ==> r.error == NoWarningsMethod(
      if AmplitudeRaises(vars, p) then "amplitude" else if CorrelationRaises(vars, p) then "correlation" else "percentgood")
    ensures r.Success? ==> forall k :: 0 <= k < |r.value| ==> r.value[k].flag == ProbablyBadValue
  {
    var amp :- AmplitudeStep(vars, nd, nt, p);
    var corr :- CorrelationStep(vars, nd, nt, p);
    var pg :- PercentGoodStep(vars, nd, nt, p);
    Success(AsSeq(amp) + AsSeq(corr) + AsSeq(pg))
  }

  /** The roll and pitch tests. */
  function TiltSteps(vars: Vars, nd: nat, p: QcParams, outer: OuterMasks): Result<seq<Step>, QcError> {
    var roll :- TiltStep(p.rollTh, Roll in vars, outer.roll, nd, "roll");
    var pitch :- TiltStep(p.pitchTh, Pitch in vars, outer.pitch, nd, "pitch");
    Success(AsSeq(roll) + AsSeq(pitch))
  }

  /** The horizontal, vertical and error velocity tests. */
  function VelocitySteps(vars: Vars, p: QcParams, outer: OuterMasks): Result<seq<Step>, QcError> {
    var hor := MaskStep(Enabled(p.horizontalVelTh), outer.horizontal);
    var ver := MaskStep(Enabled(p.verticalVelTh), outer.vertical);
    var err :- ErrorStep(vars, p, outer);
    Success(AsSeq(hor) + AsSeq(ver) + AsSeq(err))
  }

  /** The velocity and tilt tests that follow the beam tests. */
  function OuterSteps(vars: Vars, nd: nat, p: QcParams, outer: OuterMasks): (r: Result<seq<Step>, QcError>)
    ensures r.Failure? <==>
      || (Enabled(p.errorVelTh) && E !in vars)
      || (Enabled(p.rollTh) && Roll !in vars)
      || (Enabled(p.pitchTh) && Pitch !in vars)
    ensures r.Failure? ==>
      r.error == if Enabled(p.errorVelTh) && E !in vars then NoSuchVariable(E)
        else if Enabled(p.rollTh) && Roll !in vars then NoWarningsMethod("roll")
        else NoWarningsMethod("pitch")
    ensures r.Success? ==> forall k :: 0 <= k < |r.value| ==> r.value[k].flag == ProbablyBadValue
  {
    var vel :- VelocitySteps(vars, p, outer);
    var tilt :- TiltSteps(vars, nd, p, outer);
    Success(vel + tilt)
  }

  /** All the tests that write 3. */
  function ProbablyBadSteps(vars: Vars, nd: nat, nt: nat, p: QcParams, outer: OuterMasks): (r: Result<seq<Step>, QcError>)
    ensures r.Success? ==> FlagsIn(r.value, {ProbablyBadValue})
  {
    var beams :- BeamSteps(vars, nd, nt, p);
    var others :- OuterSteps(vars, nd, p, outer);
    FlagsInAppend(beams, others, {ProbablyBadValue});
    Success(beams + others)
  }

  /** Every masked assignment to `vel_flags`, in order: the tests that write 3,
      the sidelobe and pressure masks that write 4, and the missing velocities
      that write 9. */
  function VelFlagSteps(vars: Vars, nd: nat, nt: nat, p: QcParams, outer: OuterMasks): (r: Result<seq<Step>, QcError>)
    ensures r.Failure? <==>
      BeamSteps(vars, nd, nt, p).Failure? || OuterSteps(vars, nd, p, outer).Failure? || FinalSteps(vars, nd, nt, p, outer).Failure?
    ensures r.Success? ==> |r.value| > 0 && r.value[|r.value| - 1] == MissingStep(vars, nd, nt)
    ensures r.Success? ==> FlagsIn(r.value, {ProbablyBadValue, BadValue, MissingValue})
  {
    var bad :- ProbablyBadSteps(vars, nd, nt, p, outer);
    var last :- FinalSteps(vars, nd, nt, p, outer);
    FlagsInAppend(bad, last, {ProbablyBadValue, BadValue, MissingValue});
    Success(bad + last)
  }

  /** The sidelobe, pressure and missing-velocity assignments. */
  function FinalSteps(vars: Vars, nd: nat, nt: nat, p: QcParams, outer: OuterMasks): (r: Result<seq<Step>, QcError>)
    ensures r.Failure? <==> p.sidelobesCorrection && outer.sidelobe.Some? && nd * nt > 1
    ensures r.Failure? ==> r.error == AmbiguousTruthValue
    ensures r.Success? ==> |r.value| > 0 && r.value[|r.value| - 1] == MissingStep(vars, nd, nt)
    ensures r.Success? ==> forall k :: 0 <= k < |r.value| - 1 ==> r.value[k].flag == BadValue
  {
    var side :- SidelobeStep(nd, nt, p, outer);
    Success(AsSeq(side) + AsSeq(PressureStep(vars, nd, nt)) + [MissingStep(vars, nd, nt)])
  }

  lemma OptionWrites(st: Option<Step>, f: int, nd: nat, nt: nat)
    requires st.Some? ==> IsGrid(st.value.mask, nd, nt) && st.value.flag == f
    ensures Writes(AsSeq(st), f, nd, nt)
  {
  }

  lemma BeamStepsWrite(vars: Vars, nd: nat, nt: nat, p: QcParams)
    requires BeamSteps(vars, nd, nt, p).Success?
    ensures Writes(BeamSteps(vars, nd, nt, p).value, ProbablyBadValue, nd, nt)
  {
    var f := ProbablyBadValue;
    var amp := AmplitudeStep(vars, nd, nt, p).value;
    var corr := CorrelationStep(vars, nd, nt, p).value;
    var pg := PercentGoodStep(vars, nd, nt, p).value;
    OptionWrites(amp, f, nd, nt);
    OptionWrites(corr, f, nd, nt);
    OptionWrites(pg, f, nd, nt);
    WritesAppend(AsSeq(amp), AsSeq(corr), f, nd, nt);
    WritesAppend(AsSeq(amp) + AsSeq(corr), AsSeq(pg), f, nd, nt);
  }

  lemma OuterStepsWrite(vars: Vars, nd: nat, nt: nat, p: QcParams, outer: OuterMasks)
    requires OuterFits(outer, nd, nt) && OuterSteps(vars, nd, p, outer).Success?
    ensures Writes(OuterSteps(vars, nd, p, outer).value, ProbablyBadValue, nd, nt)
  {
    var f := ProbablyBadValue;
    var hor := MaskStep(Enabled(p.horizontalVelTh), outer.horizontal);
    var ver := MaskStep(Enabled(p.verticalVelTh), outer.vertical);
    var err := ErrorStep(vars, p, outer).value;
    var roll := TiltStep(p.rollTh, Roll in vars, outer.roll, nd, "roll").value;
    var pitch := TiltStep(p.pitchTh, Pitch in vars, outer.pitch, nd, "pitch").value;
    OptionWrites(hor, f, nd, nt);
    OptionWrites(ver, f, nd, nt);
    OptionWrites(err, f, nd, nt);
    OptionWrites(roll, f, nd, nt);
    OptionWrites(pitch, f, nd, nt);
    WritesAppend(AsSeq(roll), AsSeq(pitch), f, nd, nt);
    WritesAppend(AsSeq(hor), AsSeq(ver), f, nd, nt);
    WritesAppend(AsSeq(hor) + AsSeq(ver), AsSeq(err), f, nd, nt);
    WritesAppend(AsSeq(hor) + AsSeq(ver) + AsSeq(err), AsSeq(roll) + AsSeq(pitch), f, nd, nt);
  }

  /** The 3-steps cover the grid. */
  lemma ProbablyBadStepsWrite(vars: Vars, nd: nat, nt: nat, p: QcParams, outer: OuterMasks)
    requires OuterFits(outer, nd, nt) && ProbablyBadSteps(vars, nd, nt, p, outer).Success?
    ensures Writes(ProbablyBadSteps(vars, nd, nt, p, outer).value, ProbablyBadValue, nd, nt)
  {
    BeamStepsWrite(vars, nd, nt, p);
    OuterStepsWrite(vars, nd, nt, p, outer);
    WritesAppend(BeamSteps(vars, nd, nt, p).value, OuterSteps(vars, nd, p, outer).value, ProbablyBadValue, nd, nt);
  }

  lemma AnyHoldsAsSeq(st: Option<Step>, i: int, j: int)
    ensures AnyHolds(AsSeq(st), i, j) <==> st.Some? && Holds(st.value.mask, i, j)
  {
    if st.Some? {
      assert AsSeq(st)[0] == st.value;
    }
  }

  /** All four beams lie below `th`. */
  predicate AllBeamsBelow(vars: Vars, b1: Name, b2: Name, b3: Name, b4: Name, th: real, i: int, j: int) {
    Below(Value(vars, b1, i, j), th) && Below(Value(vars, b2, i, j), th)
    && Below(Value(vars, b3, i, j), th) && Below(Value(vars, b4, i, j), th)
  }

  /** Some enabled beam test fails at (i, j). */
  predicate FailsBeamTest(vars: Vars, p: QcParams, i: int, j: int) {
    || (Enabled(p.ampTh) && AllBeamsBelow(vars, Amp1, Amp2, Amp3, Amp4, Th(p.ampTh), i, j))
    || (Enabled(p.corrTh) && AllBeamsBelow(vars, Corr1, Corr2, Corr3, Corr4, Th(p.corrTh), i, j))
    || (Enabled(p.pgTh) && Below(Value(vars, Pg, i, j), Th(p.pgTh)))
  }

  /** Some enabled velocity or tilt test fails at (i, j). */
  predicate FailsOuterTest(p: QcParams, outer: OuterMasks, i: int, j: int) {
    || (Enabled(p.horizontalVelTh) && Holds(outer.horizontal, i, j))
    || (Enabled(p.verticalVelTh) && Holds(outer.vertical, i, j))
    || (Enabled(p.errorVelTh) && Holds(outer.error, i, j))
    || (Enabled(p.rollTh) && 0 <= j < |outer.roll| && outer.roll[j])
    || (Enabled(p.pitchTh) && 0 <= j < |outer.pitch| && outer.pitch[j])
  }

  /** Some enabled test that writes 3 fails at (i, j). */
  predicate FailsEnabledTest(vars: Vars, p: QcParams, outer: OuterMasks, i: int, j: int) {
    FailsBeamTest(vars, p, i, j) || FailsOuterTest(p, outer, i, j)
  }

  /** The sidelobe mask or a pressure failure at time j. */
  predicate BadAt(vars: Vars, p: QcParams, outer: OuterMasks, i: int, j: int) {
    || (p.sidelobesCorrection && outer.sidelobe.Some? && Holds(outer.sidelobe.value, i, j))
    || (Pres in vars && OutOfRange(At(vars, Pres, j), MinPressure, MaxPressure))
  }

  /** The flag a cell is meant to end with: 9 for a missing velocity, else 4
      for sidelobe or pressure, else 3 for a failed enabled test, else 1. */
  function ReferenceFlag(vars: Vars, p: QcParams, outer: OuterMasks, i: int, j: int): (f: int)
    ensures f in {GoodValue, ProbablyBadValue, BadValue, MissingValue}
  {
    if MissingAt(vars, i, j) then MissingValue
    else if BadAt(vars, p, outer, i, j) then BadValue
    else if FailsEnabledTest(vars, p, outer, i, j) then ProbablyBadValue
    else GoodValue
  }

  lemma BeamStepsHold(vars: Vars, nd: nat, nt: nat, p: QcParams, i: int, j: int)
    requires BeamSteps(vars, nd, nt, p).Success? && 0 <= i < nd && 0 <= j < nt
    ensures AnyHolds(BeamSteps(vars, nd, nt, p).value, i, j) <==> FailsBeamTest(vars, p, i, j)
  {
    var amp := AmplitudeStep(vars, nd, nt, p).value;
    var corr := CorrelationStep(vars, nd, nt, p).value;
    var pg := PercentGoodStep(vars, nd, nt, p).value;
    AnyHoldsAsSeq(amp, i, j);
    AnyHoldsAsSeq(corr, i, j);
    AnyHoldsAsSeq(pg, i, j);
    AnyHoldsAppend(AsSeq(amp), AsSeq(corr), i, j);
    AnyHoldsAppend(AsSeq(amp) + AsSeq(corr), AsSeq(pg), i, j);
  }

  lemma OuterStepsHold(vars: Vars, nd: nat, nt: nat, p: QcParams, outer: OuterMasks, i: int, j: int)
    requires OuterFits(outer, nd, nt) && OuterSteps(vars, nd, p, outer).Success? && 0 <= i < nd && 0 <= j < nt
    ensures AnyHolds(OuterSteps(vars, nd, p, outer).value, i, j) <==> FailsOuterTest(p, outer, i, j)
  {
    var hor := MaskStep(Enabled(p.horizontalVelTh), outer.horizontal);
    var ver := MaskStep(Enabled(p.verticalVelTh), outer.vertical);
    var err := ErrorStep(vars, p, outer).value;
    var roll := TiltStep(p.rollTh, Roll in vars, outer.roll, nd, "roll").value;
    var pitch := TiltStep(p.pitchTh, Pitch in vars, outer.pitch, nd, "pitch").value;
    AnyHoldsAsSeq(hor, i, j);
    AnyHoldsAsSeq(ver, i, j);
    AnyHoldsAsSeq(err, i, j);
    AnyHoldsAsSeq(roll, i, j);
    AnyHoldsAsSeq(pitch, i, j);
    AnyHoldsAppend(AsSeq(roll), AsSeq(pitch), i, j);
    AnyHoldsAppend(AsSeq(hor), AsSeq(ver), i, j);
    AnyHoldsAppend(AsSeq(hor) + AsSeq(ver), AsSeq(err), i, j);
    AnyHoldsAppend(AsSeq(hor) + AsSeq(ver) + AsSeq(err), AsSeq(roll) + AsSeq(pitch), i, j);
  }

  /** The 3-steps cover exactly the cells where an enabled test fails. */
  lemma ProbablyBadStepsHold(vars: Vars, nd: nat, nt: nat, p: QcParams, outer: OuterMasks, i: int, j: int)
    requires OuterFits(outer, nd, nt) && ProbablyBadSteps(vars, nd, nt, p, outer).Success?
    requires 0 <= i < nd && 0 <= j < nt
    ensures AnyHolds(ProbablyBadSteps(vars, nd, nt, p, outer).value, i, j) <==> FailsEnabledTest(vars, p, outer, i, j)
  {
    BeamStepsHold(vars, nd, nt, p, i, j);
    OuterStepsHold(vars, nd, nt, p, outer, i, j);
    AnyHoldsAppend(BeamSteps(vars, nd, nt, p).value, OuterSteps(vars, nd, p, outer).value, i, j);
  }

  /** The sidelobe and pressure steps write 4 exactly where `BadAt` holds. */
  lemma BadStepsHold(vars: Vars, nd: nat, nt: nat, p: QcParams, outer: OuterMasks, i: int, j: int)
    requires OuterFits(outer, nd, nt) && SidelobeStep(nd, nt, p, outer).Success? && 0 <= i < nd && 0 <= j < nt
    ensures var four := AsSeq(SidelobeStep(nd, nt, p, outer).value) + AsSeq(PressureStep(vars, nd, nt));
      && (forall k :: 0 <= k < |four| ==> four[k].flag == BadValue)
      && (AnyHolds(four, i, j) <==> BadAt(vars, p, outer, i, j))
  {
    var side := SidelobeStep(nd, nt, p, outer).value;
    var pres := PressureStep(vars, nd, nt);
    AnyHoldsAsSeq(side, i, j);
    AnyHoldsAsSeq(pres, i, j);
    AnyHoldsAppend(AsSeq(side), AsSeq(pres), i, j);
  }

  /** Three tiers of assignments, each writing one flag, give the flag of the
      last tier that covers the cell. */
  lemma {:induction false} TieredFlag(bad: seq<Step>, four: seq<Step>, last: seq<Step>, i: int, j: int)
    requires forall k :: 0 <= k < |bad| ==> bad[k].flag == ProbablyBadValue
    requires forall k :: 0 <= k < |four| ==> four[k].flag == BadValue
    requires forall k :: 0 <= k < |last| ==> last[k].flag == MissingValue
    ensures FlagAt(bad + four + last, i, j) ==
      if AnyHolds(last, i, j) then MissingValue
      else if AnyHolds(four, i, j) then BadValue
      else if AnyHolds(bad, i, j) then ProbablyBadValue
      else GoodValue
  {
    FlagAtUniform(bad, ProbablyBadValue, i, j);
    FlagAtUniform(four, BadValue, i, j);
    FlagAtUniform(last, MissingValue, i, j);
    FlagAtAppend(bad, four, i, j);
    FlagAtAppend(bad + four, last, i, j);
  }

  /** A successful run assigns the 3-tier, then the 4-tier, then the missing velocities. */
  lemma VelFlagStepsTiers(vars: Vars, nd: nat, nt: nat, p: QcParams, outer: OuterMasks)
    requires VelFlagSteps(vars, nd, nt, p, outer).Success?
    ensures ProbablyBadSteps(vars, nd, nt, p, outer).Success? && SidelobeStep(nd, nt, p, outer).Success?
    ensures VelFlagSteps(vars, nd, nt, p, outer).value ==
      ProbablyBadSteps(vars, nd, nt, p, outer).value
      + (AsSeq(SidelobeStep(nd, nt, p, outer).value) + AsSeq(PressureStep(vars, nd, nt)))
      + [MissingStep(vars, nd, nt)]
  {
    var bad := ProbablyBadSteps(vars, nd, nt, p, outer).value;
    var four := AsSeq(SidelobeStep(nd, nt, p, outer).value) + AsSeq(PressureStep(vars, nd, nt));
    var last := [MissingStep(vars, nd, nt)];
    assert FinalSteps(vars, nd, nt, p, outer).value == four + last;
    assert bad + (four + last) == bad + four + last;
  }

  /** The flag grid the assignments leave is the reference flag, cell by cell. */
  lemma VelFlagsAreReference(vars: Vars, nd: nat, nt: nat, p: QcParams, outer: OuterMasks, i: int, j: int)
    requires OuterFits(outer, nd, nt) && VelFlagSteps(vars, nd, nt, p, outer).Success?
    requires 0 <= i < nd && 0 <= j < nt
    ensures FlagAt(VelFlagSteps(vars, nd, nt, p, outer).value, i, j) == ReferenceFlag(vars, p, outer, i, j)
  {
    VelFlagStepsTiers(vars, nd, nt, p, outer);
    var bad := ProbablyBadSteps(vars, nd, nt, p, outer).value;
    var four := AsSeq(SidelobeStep(nd, nt, p, outer).value) + AsSeq(PressureStep(vars, nd, nt));
    var last := [MissingStep(vars, nd, nt)];
    ProbablyBadStepsWrite(vars, nd, nt, p, outer);
    ProbablyBadStepsHold(vars, nd, nt, p, outer, i, j);
    BadStepsHold(vars, nd, nt, p, outer, i, j);
    assert AnyHolds(last, i, j) <==> MissingAt(vars, i, j) by {
      assert last[0].mask == MissingVelocity(vars, nd, nt);
    }
    TieredFlag(bad, four, last, i, j);
  }

  // ---------------------------------------------------------------------------
  // adcp_quality_control
  // ---------------------------------------------------------------------------

  /** `vel_flags[mask] = flag` when the test ran; `done` records the assignments so far. */
  method Assign(flags: array2<int>, ghost done: seq<Step>, st: Option<Step>) returns (ghost done': seq<Step>)
    requires st.Some? ==> IsGrid(st.value.mask, flags.Length0, flags.Length1)
    requires Records(flags, done)
    modifies flags
    ensures done' == done + AsSeq(st)
    ensures Records(flags, done')
  {
    done' := done + AsSeq(st);
    if st.Some? {
      assert done'[..|done'| - 1] == done;
      SetWhere(flags, st.value.mask, st.value.flag);
      forall i, j | 0 <= i < flags.Length0 && 0 <= j < flags.Length1 ensures flags[i, j] == FlagAt(done', i, j) {
        assert old(flags[i, j]) == FlagAt(done, i, j);
      }
    } else {
      assert done' == done;
    }
  }

  /** The cells of `flags` are the flags the assignments `done` leave. */
  ghost predicate Records(flags: array2<int>, done: seq<Step>)
    reads flags
  {
    forall i, j :: 0 <= i < flags.Length0 && 0 <= j < flags.Length1 ==> flags[i, j] == FlagAt(done, i, j)
  }

  /** Every mask a successful run assigns covers the grid. */
  lemma VelFlagStepsFit(vars: Vars, nd: nat, nt: nat, p: QcParams, outer: OuterMasks)
    requires OuterFits(outer, nd, nt) && VelFlagSteps(vars, nd, nt, p, outer).Success?
    ensures StepsFit(VelFlagSteps(vars, nd, nt, p, outer).value, nd, nt)
  {
    VelFlagStepsTiers(vars, nd, nt, p, outer);
    ProbablyBadStepsWrite(vars, nd, nt, p, outer);
    var bad := ProbablyBadSteps(vars, nd, nt, p, outer).value;
    var side := SidelobeStep(nd, nt, p, outer).value;
    var pres := PressureStep(vars, nd, nt);
    var last := [MissingStep(vars, nd, nt)];
    OptionWrites(side, BadValue, nd, nt);
    OptionWrites(pres, BadValue, nd, nt);
    WritesAppend(AsSeq(side), AsSeq(pres), BadValue, nd, nt);
    var steps := bad + (AsSeq(side) + AsSeq(pres)) + last;
    forall k | 0 <= k < |steps| ensures IsGrid(steps[k].mask, nd, nt) {
      if k < |bad| {
        assert steps[k] == bad[k];
      } else if k < |steps| - 1 {
        assert steps[k] == (AsSeq(side) + AsSeq(pres))[k - |bad|];
      }
    }
  }

  /** `vel_flags`: an array of ones overwritten by each enabled test in turn,
      or the error of the first test that raises. The tests only read the
      dataset, so raising before the first assignment or after some of them
      leaves the same outcome. */
  method VelocityFlags(vars: Vars, nd: nat, nt: nat, p: QcParams, outer: OuterMasks) returns (r: Result<array2<int>, QcError>)
    requires OuterFits(outer, nd, nt)
    ensures r.Failure? ==> VelFlagSteps(vars, nd, nt, p, outer) == Failure(r.error)
    ensures r.Success? ==> fresh(r.value) && r.value.Length0 == nd && r.value.Length1 == nt
    ensures r.Success? ==> VelFlagSteps(vars, nd, nt, p, outer).Success? && Records(r.value, VelFlagSteps(vars, nd, nt, p, outer).value)
  {
    var run := VelFlagSteps(vars, nd, nt, p, outer);
    if run.Failure? {
      return Failure(run.error);
    }
    VelFlagStepsFit(vars, nd, nt, p, outer);
    var flags := ApplySteps(run.value, nd, nt);
    return Success(flags);
  }

  /** `np.ones(...)`, then `vel_flags[mask] = flag` for each step in order. */
  method ApplySteps(steps: seq<Step>, nd: nat, nt: nat) returns (flags: array2<int>)
    requires StepsFit(steps, nd, nt)
    ensures fresh(flags) && flags.Length0 == nd && flags.Length1 == nt
    ensures Records(flags, steps)
  {
    flags := new int[nd, nt]((i, j) => GoodValue);
    ghost var done: seq<Step> := [];
    for k := 0 to |steps|
      invariant done == steps[..k]
      invariant Records(flags, done)
    {
      assert steps[..k + 1] == steps[..k] + [steps[k]];
      done := Assign(flags, done, Some(steps[k]));
    }
    assert steps[..|steps|] == steps;
  }

  // ---------------------------------------------------------------------------
  // The quality-control variables
  // ---------------------------------------------------------------------------

  /** The cells of a 2-D array as a (depth, time) grid. */
  function Rows(a: array2<int>): (g: Grid<int>)
    reads a
    ensures IsGrid(g, a.Length0, a.Length1)
    ensures forall i, j :: 0 <= i < a.Length0 && 0 <= j < a.Length1 ==> g[i][j] == a[i, j]
  {
    seq(a.Length0, (i: int) reads a => seq(a.Length1, (j: int) reads a => if 0 <= i < a.Length0 && 0 <= j < a.Length1 then a[i, j] else 0))
  }

  /** `mask * f` for a boolean array: `f` where set, 0 elsewhere. */
  function Scaled(mask: array2<bool>, f: int): (g: Grid<int>)
    reads mask
    ensures IsGrid(g, mask.Length0, mask.Length1)
    ensures forall i, j :: 0 <= i < mask.Length0 && 0 <= j < mask.Length1 ==> g[i][j] == if mask[i, j] then f else 0
  {
    seq(mask.Length0, (i: int) reads mask => seq(mask.Length1, (j: int) reads mask =>
      if 0 <= i < mask.Length0 && 0 <= j < mask.Length1 && mask[i, j] then f else 0))
  }

  /** The grid the assignments `steps` leave in an array of ones. */
  function FlagGrid(steps: seq<Step>, nd: nat, nt: nat): (g: Grid<int>)
    ensures IsGrid(g, nd, nt)
    ensures forall i, j :: 0 <= i < nd && 0 <= j < nt ==> g[i][j] == FlagAt(steps, i, j)
  {
    seq(nd, i => seq(nt, j => FlagAt(steps, i, j)))
  }

  /** `qc = np.ones(shape); qc[fails] = 4`: 4 where a range test fails, 1 elsewhere. */
  function RangeQc(fails: seq<bool>): (q: seq<int>)
    ensures |q| == |fails|
    ensures forall j :: 0 <= j < |q| ==> q[j] == if fails[j] then BadValue else GoodValue
  {
    seq(|fails|, j requires 0 <= j < |fails| => if fails[j] then BadValue else GoodValue)
  }

  /** `vb_vel_QC`: 3 where the fifth beam fails a test, 0 elsewhere. */
  function VbQc(vars: Vars, nd: nat, nt: nat, p: QcParams): (g: Grid<int>)
    ensures IsGrid(g, nd, nt)
    ensures forall i, j :: 0 <= i < nd && 0 <= j < nt ==>
      g[i][j] == if FifthBeamFails(vars, p.ampTh, p.corrTh, p.pgTh, i, j) then ProbablyBadValue else NoQcValue
  {
    seq(nd, i => seq(nt, j => if FifthBeamFails(vars, p.ampTh, p.corrTh, p.pgTh, i, j) then ProbablyBadValue else NoQcValue))
  }

  /** The flag variables `adcp_quality_control` can write. */
  const QcNames: set<Name> := {QC(U), QC(V), QC(W), QC(Pres), QC(Temperature), QC(VbVel)}

  /** The variables `adcp_quality_control` adds once the flag grid is built:
      `pres_QC`, `temperature_QC` and `vb_vel_QC` when their data are present,
      then the same grid as `u_QC`, `v_QC` and `w_QC`. */
  function QcVariables(vars: Vars, nd: nat, nt: nat, p: QcParams, flags: Grid<int>): (r: Vars)
    ensures r.Keys == vars.Keys + {QC(U), QC(V), QC(W)}
      + (if Pres in vars then {QC(Pres)} else {})
      + (if Temperature in vars then {QC(Temperature)} else {})
      + (if VbVel in vars then {QC(VbVel)} else {})
    ensures forall n :: n in vars && n !in QcNames ==> r[n] == vars[n]
    ensures r[QC(U)] == ProfileFlags(flags) && r[QC(V)] == ProfileFlags(flags) && r[QC(W)] == ProfileFlags(flags)
    ensures Pres in vars ==> r[QC(Pres)] == SeriesFlags(RangeQc(PressureTest(vars, nt)))
    ensures Temperature in vars ==> r[QC(Temperature)] == SeriesFlags(RangeQc(TemperatureTest(vars, nt)))
    ensures VbVel in vars ==> r[QC(VbVel)] == ProfileFlags(VbQc(vars, nd, nt, p))
  {
    var v1 := if Pres in vars then vars[QC(Pres) := SeriesFlags(RangeQc(PressureTest(vars, nt)))] else vars;
    var v2 := if Temperature in vars then v1[QC(Temperature) := SeriesFlags(RangeQc(TemperatureTest(vars, nt)))] else v1;
    var v3 := if VbVel in vars then v2[QC(VbVel) := ProfileFlags(VbQc(vars, nd, nt, p))] else v2;
    v3[QC(U) := ProfileFlags(flags)][QC(V) := ProfileFlags(flags)][QC(W) := ProfileFlags(flags)]
  }

  /** `if motion_correction_mode:`: a mode is given and is not the empty string. */
  predicate MotionModeGiven(p: QcParams) {
    p.motionCorrectionMode.Some? && |p.motionCorrectionMode.value| > 0
  }

  /** The velocities after the optional motion correction. */
  function Moved(vars: Vars, nd: nat, nt: nat, p: QcParams): Vars {
    if MotionModeGiven(p) then MotionCorrected(vars, nd, nt, p.motionCorrectionMode.value) else vars
  }

  /** The dataset the tests read: motion corrected, then with implausible velocities blanked. */
  function Prepared(vars: Vars, nd: nat, nt: nat, p: QcParams): Vars {
    ImplausibleToNaN(Moved(vars, nd, nt, p), nd, nt, ImplausibleVelThreshold)
  }

  /** The dataset variables after a call, and the error it raised, if any
      (None: no error up to the flag variables). */
  datatype QcRun = QcRun(vars: Vars, error: Option<QcError>)

  /** The flagging part of `adcp_quality_control` on the dataset the tests
      read: when a test raises, the dataset has no flag variable added. */
  function Flagged(prepared: Vars, nd: nat, nt: nat, p: QcParams, outer: OuterMasks): QcRun {
    match VelFlagSteps(prepared, nd, nt, p, outer)
    case Failure(e) => QcRun(prepared, Some(e))
    case Success(steps) => QcRun(QcVariables(prepared, nd, nt, p, FlagGrid(steps, nd, nt)), None)
  }

  /** The error the optional motion correction raises. */
  function MotionFailure(vars: Vars, p: QcParams): Option<QcError> {
    if MotionModeGiven(p) then MotionError(vars, p.motionCorrectionMode.value) else None
  }

  /** `adcp_quality_control` on the variables of a dataset that has u, v and w,
      up to and including the flag variables: when the motion correction or a
      test raises, the dataset keeps the corrections already made in place and
      gains no flag variable. The final logbook append, which can still raise,
      is in `AdcpQualityControl`. */
  function Run(vars: Vars, nd: nat, nt: nat, p: QcParams, outer: OuterMasks): (r: QcRun)
    requires HasVelocities(vars)
    ensures MotionFailure(vars, p).Some? ==> r.error == MotionFailure(vars, p)
    ensures r.error.Some? ==> r.vars.Keys == vars.Keys
    ensures r.error.None? ==> QC(U) in r.vars && QC(V) in r.vars && QC(W) in r.vars
  {
    match MotionFailure(vars, p)
    case Some(e) => QcRun(Moved(vars, nd, nt, p), Some(e))
    case None => Flagged(Prepared(vars, nd, nt, p), nd, nt, p, outer)
  }

  /** What the optional motion correction writes to the logbook. */
  function QcMotionLog(vars: Vars, p: QcParams): string {
    if MotionModeGiven(p) then MotionLog(vars, p.motionCorrectionMode.value) else ""
  }

  /** Whether the optional motion correction warns. */
  predicate QcMotionWarns(vars: Vars, p: QcParams) {
    MotionModeGiven(p) && MotionWarns(vars, p.motionCorrectionMode.value)
  }

  /** The flag variables keep the dataset's shape. */
  lemma QcVariablesShape(vars: Vars, nd: nat, nt: nat, p: QcParams, flags: Grid<int>)
    requires WellShaped(vars, nd, nt) && IsGrid(flags, nd, nt)
    ensures WellShaped(QcVariables(vars, nd, nt, p, flags), nd, nt)
  {
    var r := QcVariables(vars, nd, nt, p, flags);
    forall n | n in r
      ensures Fits(r[n], nd, nt) && (IsProfileName(n) ==> r[n].Profile?) && (IsSeriesName(n) ==> r[n].Series?)
    {
      if n !in QcNames {
        assert r[n] == vars[n];
      }
    }
  }

  /** A run without error is the flag variables over the prepared dataset. */
  lemma QcSucceeds(vars: Vars, nd: nat, nt: nat, p: QcParams, outer: OuterMasks)
    requires HasVelocities(vars)
    requires Run(vars, nd, nt, p, outer).error.None?
    ensures VelFlagSteps(Prepared(vars, nd, nt, p), nd, nt, p, outer).Success?
    ensures Run(vars, nd, nt, p, outer).vars ==
      QcVariables(Prepared(vars, nd, nt, p), nd, nt, p, FlagGrid(VelFlagSteps(Prepared(vars, nd, nt, p), nd, nt, p, outer).value, nd, nt))
  {
  }

  /** Motion correction and blanking change u, v, w and nothing else. */
  lemma PreparedKeeps(vars: Vars, nd: nat, nt: nat, p: QcParams)
    requires HasVelocities(vars)
    ensures Prepared(vars, nd, nt, p).Keys == vars.Keys
    ensures forall n :: n in vars && n != U && n != V && n != W ==> Prepared(vars, nd, nt, p)[n] == vars[n]
  {
    var m := Moved(vars, nd, nt, p);
    assert m.Keys == vars.Keys;
    assert HasVelocities(m);
  }

  lemma PreparedReads(vars: Vars, nd: nat, nt: nat, p: QcParams, n: Name, i: int, j: int)
    requires HasVelocities(vars) && n != U && n != V && n != W
    ensures Value(Prepared(vars, nd, nt, p), n, i, j) == Value(vars, n, i, j)
    ensures At(Prepared(vars, nd, nt, p), n, j) == At(vars, n, j)
  {
    PreparedKeeps(vars, nd, nt, p);
  }

  /** The range tests and the fifth-beam flags read only variables the preparation leaves alone. */
  lemma PreparedTests(vars: Vars, nd: nat, nt: nat, p: QcParams)
    requires HasVelocities(vars)
    ensures PressureTest(Prepared(vars, nd, nt, p), nt) == PressureTest(vars, nt)
    ensures TemperatureTest(Prepared(vars, nd, nt, p), nt) == TemperatureTest(vars, nt)
    ensures VbQc(Prepared(vars, nd, nt, p), nd, nt, p) == VbQc(vars, nd, nt, p)
  {
    var prepared := Prepared(vars, nd, nt, p);
    forall j | 0 <= j < nt
      ensures PressureTest(prepared, nt)[j] == PressureTest(vars, nt)[j]
      ensures TemperatureTest(prepared, nt)[j] == TemperatureTest(vars, nt)[j]
    {
      PreparedReads(vars, nd, nt, p, Pres, 0, j);
      PreparedReads(vars, nd, nt, p, Temperature, 0, j);
    }
    forall i, j | 0 <= i < nd && 0 <= j < nt ensures VbQc(prepared, nd, nt, p)[i][j] == VbQc(vars, nd, nt, p)[i][j] {
      PreparedReads(vars, nd, nt, p, VbAmp, i, j);
      PreparedReads(vars, nd, nt, p, VbCorr, i, j);
      PreparedReads(vars, nd, nt, p, VbPg, i, j);
    }
    GridsEqual(VbQc(prepared, nd, nt, p), VbQc(vars, nd, nt, p), nd, nt);
  }

  /** After the preparation a velocity is missing exactly where, after the
      motion correction, one of u, v, w was not plausible. */
  lemma PreparedMissing(vars: Vars, nd: nat, nt: nat, p: QcParams, i: int, j: int)
    requires 0 <= i < nd && 0 <= j < nt
    ensures MissingAt(Prepared(vars, nd, nt, p), i, j) <==> !KeepFirst(Moved(vars, nd, nt, p), 3, i, j, ImplausibleVelThreshold)
  {
    var m := Moved(vars, nd, nt, p);
    var prepared := Prepared(vars, nd, nt, p);
    if KeepFirst(m, 3, i, j, ImplausibleVelThreshold) {
      assert Plausible(Value(m, U, i, j), ImplausibleVelThreshold);
      assert Plausible(Value(m, V, i, j), ImplausibleVelThreshold);
      assert Plausible(Value(m, W, i, j), ImplausibleVelThreshold);
    } else {
      assert Value(prepared, U, i, j) == NaN;
    }
  }

  /** u_QC, v_QC and w_QC are one (depth, time) grid. */
  lemma QcVelocityFlagsShared(vars: Vars, nd: nat, nt: nat, p: QcParams, outer: OuterMasks)
    requires HasVelocities(vars)
    requires Run(vars, nd, nt, p, outer).error.None?
    ensures var r := Run(vars, nd, nt, p, outer).vars;
      && QC(U) in r && QC(V) in r && QC(W) in r
      && r[QC(U)] == r[QC(V)] == r[QC(W)]
      && r[QC(U)].ProfileFlags? && IsGrid(r[QC(U)].flags, nd, nt)
  {
    QcSucceeds(vars, nd, nt, p, outer);
  }

  /** Each cell of u_QC is the reference flag of the prepared dataset: 9 for a
      missing velocity, else 4 for a sidelobe or pressure failure, else 3 for a
      failed enabled test, else 1. */
  lemma QcVelocityFlag(vars: Vars, nd: nat, nt: nat, p: QcParams, outer: OuterMasks, i: int, j: int)
    requires HasVelocities(vars)
    requires OuterFits(outer, nd, nt) && Run(vars, nd, nt, p, outer).error.None?
    requires 0 <= i < nd && 0 <= j < nt
    ensures var r := Run(vars, nd, nt, p, outer).vars;
      && QC(U) in r && r[QC(U)].ProfileFlags? && IsGrid(r[QC(U)].flags, nd, nt)
      && r[QC(U)].flags[i][j] == ReferenceFlag(Prepared(vars, nd, nt, p), p, outer, i, j)
      && r[QC(U)].flags[i][j] in {GoodValue, ProbablyBadValue, BadValue, MissingValue}
  {
    QcSucceeds(vars, nd, nt, p, outer);
    VelFlagsAreReference(Prepared(vars, nd, nt, p), nd, nt, p, outer, i, j);
  }

  /** A velocity is flagged 9 exactly where, after the optional motion
      correction, one of u, v, w is missing or not strictly inside (-15, 15). */
  lemma QcMissingIff(vars: Vars, nd: nat, nt: nat, p: QcParams, outer: OuterMasks, i: int, j: int)
    requires HasVelocities(vars)
    requires OuterFits(outer, nd, nt) && Run(vars, nd, nt, p, outer).error.None?
    requires 0 <= i < nd && 0 <= j < nt
    ensures var r := Run(vars, nd, nt, p, outer).vars;
      && QC(U) in r && r[QC(U)].ProfileFlags? && IsGrid(r[QC(U)].flags, nd, nt)
      && (r[QC(U)].flags[i][j] == MissingValue <==> !KeepFirst(Moved(vars, nd, nt, p), 3, i, j, ImplausibleVelThreshold))
  {
    QcVelocityFlag(vars, nd, nt, p, outer, i, j);
    PreparedMissing(vars, nd, nt, p, i, j);
  }

  /** pres_QC is 4 where the pressure is out of range and 1 elsewhere. */
  lemma QcPressureFlags(vars: Vars, nd: nat, nt: nat, p: QcParams, outer: OuterMasks, j: int)
    requires HasVelocities(vars) && Run(vars, nd, nt, p, outer).error.None?
    requires Pres in vars && 0 <= j < nt
    ensures var r := Run(vars, nd, nt, p, outer).vars;
      && QC(Pres) in r && r[QC(Pres)].SeriesFlags? && |r[QC(Pres)].marks| == nt
      && (r[QC(Pres)].marks[j] == BadValue <==> PressureTest(vars, nt)[j])
      && (r[QC(Pres)].marks[j] == GoodValue <==> !PressureTest(vars, nt)[j])
  {
    QcSucceeds(vars, nd, nt, p, outer);
    var prepared := Prepared(vars, nd, nt, p);
    PreparedKeeps(vars, nd, nt, p);
    PreparedTests(vars, nd, nt, p);
  }

  /** An out-of-range pressure leaves 4 or 9 down the whole velocity column. */
  lemma QcPressureColumn(vars: Vars, nd: nat, nt: nat, p: QcParams, outer: OuterMasks, i: int, j: int)
    requires HasVelocities(vars) && OuterFits(outer, nd, nt) && Run(vars, nd, nt, p, outer).error.None?
    requires Pres in vars && 0 <= i < nd && 0 <= j < nt && PressureTest(vars, nt)[j]
    ensures var r := Run(vars, nd, nt, p, outer).vars;
      && QC(U) in r && r[QC(U)].ProfileFlags? && IsGrid(r[QC(U)].flags, nd, nt)
      && r[QC(U)].flags[i][j] in {BadValue, MissingValue}
  {
    PreparedKeeps(vars, nd, nt, p);
    assert At(Prepared(vars, nd, nt, p), Pres, j) == At(vars, Pres, j);
    QcVelocityFlag(vars, nd, nt, p, outer, i, j);
  }

  /** temperature_QC is 4 outside [-2, 32] and 1 elsewhere. */
  lemma QcTemperatureFlags(vars: Vars, nd: nat, nt: nat, p: QcParams, outer: OuterMasks, j: int)
    requires HasVelocities(vars) && Run(vars, nd, nt, p, outer).error.None?
    requires Temperature in vars && 0 <= j < nt
    ensures var r := Run(vars, nd, nt, p, outer).vars;
      && QC(Temperature) in r && r[QC(Temperature)].SeriesFlags? && |r[QC(Temperature)].marks| == nt
      && (r[QC(Temperature)].marks[j] == BadValue <==> TemperatureTest(vars, nt)[j])
      && (r[QC(Temperature)].marks[j] == GoodValue <==> !TemperatureTest(vars, nt)[j])
  {
    QcSucceeds(vars, nd, nt, p, outer);
    var prepared := Prepared(vars, nd, nt, p);
    PreparedKeeps(vars, nd, nt, p);
    PreparedTests(vars, nd, nt, p);
  }

  /** vb_vel_QC is 3 where the fifth beam fails an enabled test and 0 elsewhere. */
  lemma QcFifthBeamFlags(vars: Vars, nd: nat, nt: nat, p: QcParams, outer: OuterMasks)
    requires HasVelocities(vars) && Run(vars, nd, nt, p, outer).error.None?
    requires VbVel in vars
    ensures var r := Run(vars, nd, nt, p, outer).vars;
      QC(VbVel) in r && r[QC(VbVel)] == ProfileFlags(VbQc(vars, nd, nt, p))
  {
    QcSucceeds(vars, nd, nt, p, outer);
    var prepared := Prepared(vars, nd, nt, p);
    PreparedKeeps(vars, nd, nt, p);
    PreparedTests(vars, nd, nt, p);
  }

  /** The run adds u_QC, v_QC, w_QC, and pres_QC, temperature_QC, vb_vel_QC for
      the data present; the other variables keep their values. */
  lemma QcAddsFlagVariables(vars: Vars, nd: nat, nt: nat, p: QcParams, outer: OuterMasks)
    requires HasVelocities(vars) && Run(vars, nd, nt, p, outer).error.None?
    ensures var r := Run(vars, nd, nt, p, outer).vars;
      r.Keys == vars.Keys + {QC(U), QC(V), QC(W)}
        + (if Pres in vars then {QC(Pres)} else {})
        + (if Temperature in vars then {QC(Temperature)} else {})
        + (if VbVel in vars then {QC(VbVel)} else {})
    ensures var r := Run(vars, nd, nt, p, outer).vars;
      forall n :: n in vars && n !in QcNames && n != U && n != V && n != W ==> r[n] == vars[n]
  {
    QcSucceeds(vars, nd, nt, p, outer);
    PreparedKeeps(vars, nd, nt, p);
    var prepared := Prepared(vars, nd, nt, p);
    var r := Run(vars, nd, nt, p, outer).vars;
    assert r == QcVariables(prepared, nd, nt, p, FlagGrid(VelFlagSteps(prepared, nd, nt, p, outer).value, nd, nt));
    forall n | n in vars && n !in QcNames && n != U && n != V && n != W ensures r[n] == vars[n] {
      assert prepared[n] == vars[n];
    }
  }


  /** In 'nav' mode with the ship velocities present the run raises: without a
      longitude nothing has changed; with one, u has gained the ship velocity,
      v and w are unchanged, and no flag variable has been added. */
  lemma QcNavRaises(vars: Vars, nd: nat, nt: nat, p: QcParams, outer: OuterMasks)
    requires HasVelocities(vars) && MotionModeGiven(p) && NavApplies(vars, p.motionCorrectionMode.value)
    ensures var r := Run(vars, nd, nt, p, outer);
      && r.error == Some(if Lon in vars then NoSuchKey(NavShipCopy) else NoSuchVariable(Lon))
      && r.vars.Keys == vars.Keys
      && (Lon !in vars ==> r.vars == vars)
      && (Lon in vars ==> r.vars[V] == vars[V] && r.vars[W] == vars[W])
      && (Lon in vars ==> forall i, j :: 0 <= i < nd && 0 <= j < nt ==>
           Value(r.vars, U, i, j) == Add(Value(vars, U, i, j), if IsFinite(At(vars, Lon, j)) then At(vars, UShip, j) else Num(0.0)))
  {
  }

  /** With every threshold falsy, no sidelobe correction, no pressure and a
      motion correction that does not raise, the run succeeds and a velocity is
      flagged 9 where it is missing after blanking and 1 elsewhere. */
  lemma QcNothingEnabled(vars: Vars, nd: nat, nt: nat, p: QcParams, outer: OuterMasks, i: int, j: int)
    requires !Enabled(p.ampTh) && !Enabled(p.corrTh) && !Enabled(p.pgTh)
    requires !Enabled(p.horizontalVelTh) && !Enabled(p.verticalVelTh) && !Enabled(p.errorVelTh)
    requires !Enabled(p.rollTh) && !Enabled(p.pitchTh) && !p.sidelobesCorrection && Pres !in vars
    requires HasVelocities(vars) && OuterFits(outer, nd, nt) && 0 <= i < nd && 0 <= j < nt
    requires MotionFailure(vars, p).None?
    ensures Run(vars, nd, nt, p, outer).error.None?
    ensures var r := Run(vars, nd, nt, p, outer).vars;
      && QC(U) in r && r[QC(U)].ProfileFlags? && IsGrid(r[QC(U)].flags, nd, nt)
      && r[QC(U)].flags[i][j] == if MissingAt(Prepared(vars, nd, nt, p), i, j) then MissingValue else GoodValue
  {
    PreparedKeeps(vars, nd, nt, p);
    QcVelocityFlag(vars, nd, nt, p, outer, i, j);
  }

  /** The attribute the run appends its logbook to. */
  const LogbookAttr: string := "logbook"

  /** `adcp_quality_control(dataset, ...)`: the run of `Run`, then
      `dataset.attrs["logbook"] += l.logbook`, which raises when the dataset has
      no "logbook" attribute, after the flag variables have been added. */
  method AdcpQualityControl(ds: AdcpDataset, p: QcParams, outer: OuterMasks, l: Utils.Logger) returns (err: Option<QcError>)
    requires ds.Valid() && HasVelocities(ds.vars) && OuterFits(outer, |ds.depth|, |ds.time|)
    modifies ds, l
    ensures var run := Run(old(ds.vars), |ds.depth|, |ds.time|, p, outer);
      && ds.vars == run.vars
      && err == (if run.error.None? && old(ds.logbook).None? then Some(NoSuchKey(LogbookAttr)) else run.error)
    ensures err.None? ==> old(ds.logbook).Some? && ds.logbook == Some(old(ds.logbook).value + l.logbook)
    ensures err.Some? ==> ds.logbook == old(ds.logbook)
    ensures ds.Valid()
    ensures Utils.SectionLine("Quality Control", false, "") + QcMotionLog(old(ds.vars), p) <= l.logbook
    ensures l.wCount == (if QcMotionWarns(old(ds.vars), p) && l.level < 2 then 1 else 0)
    ensures l.level == old(l.level)
  {
    err := CorrectMotion(ds, p, l);
    if err.Some? {
      return;
    }
    SetImplausibleVelToNan(ds, ImplausibleVelThreshold);
    err := AddFlagVariables(ds, p, outer);
    if err.Some? {
      return;
    }
    if ds.logbook.None? {
      return Some(NoSuchKey(LogbookAttr));
    }
    ds.logbook := Some(ds.logbook.value + l.logbook);
  }

  /** The logbook reset and section heading, then the motion correction when a mode is given. */
  method CorrectMotion(ds: AdcpDataset, p: QcParams, l: Utils.Logger) returns (err: Option<QcError>)
    requires ds.Valid() && HasVelocities(ds.vars)
    modifies ds`vars, l
    ensures ds.vars == Moved(old(ds.vars), |ds.depth|, |ds.time|, p)
    ensures err == MotionFailure(old(ds.vars), p)
    ensures ds.Valid() && HasVelocities(ds.vars)
    ensures l.logbook == Utils.SectionLine("Quality Control", false, "") + QcMotionLog(old(ds.vars), p)
    ensures l.wCount == (if QcMotionWarns(old(ds.vars), p) && l.level < 2 then 1 else 0)
    ensures l.level == old(l.level)
  {
    StartLog(l);
    err := None;
    if MotionModeGiven(p) {
      err := MotionCorrection(ds, p.motionCorrectionMode.value, l);
    }
  }

  /** `l.reset()`, then `l.section("Quality Control")`. */
  method StartLog(l: Utils.Logger)
    modifies l
    ensures l.logbook == Utils.SectionLine("Quality Control", false, "")
    ensures l.wCount == 0 && l.level == old(l.level)
  {
    l.Reset();
    l.Section("Quality Control", false, "");
  }

  /** The flag grid and the flag variables. */
  method AddFlagVariables(ds: AdcpDataset, p: QcParams, outer: OuterMasks) returns (err: Option<QcError>)
    requires ds.Valid() && OuterFits(outer, |ds.depth|, |ds.time|)
    modifies ds`vars
    ensures QcRun(ds.vars, err) == Flagged(old(ds.vars), |ds.depth|, |ds.time|, p, outer)
    ensures ds.Valid()
  {
    var nd, nt := |ds.depth|, |ds.time|;
    var prepared := ds.vars;
    var flags := VelocityFlags(prepared, nd, nt, p, outer);
    if flags.Failure? {
      return Some(flags.error);
    }
    var grid := Rows(flags.value);
    GridsEqual(grid, FlagGrid(VelFlagSteps(prepared, nd, nt, p, outer).value, nd, nt), nd, nt);
    AddQcVariables(ds, p, grid);
    err := None;
  }

  /** `pres_QC`, `temperature_QC`, `vb_vel_QC`, then `u_QC`, `v_QC`, `w_QC`. */
  method AddQcVariables(ds: AdcpDataset, p: QcParams, grid: Grid<int>)
    requires ds.Valid() && IsGrid(grid, |ds.depth|, |ds.time|)
    modifies ds`vars
    ensures ds.vars == QcVariables(old(ds.vars), |ds.depth|, |ds.time|, p, grid)
    ensures ds.Valid()
  {
    var nd, nt := |ds.depth|, |ds.time|;
    var prepared := ds.vars;
    QcVariablesShape(prepared, nd, nt, p, grid);
    if Pres in prepared {
      ds.vars := ds.vars[QC(Pres) := SeriesFlags(RangeQc(PressureTest(prepared, nt)))];
    }
    if Temperature in prepared {
      ds.vars := ds.vars[QC(Temperature) := SeriesFlags(RangeQc(TemperatureTest(prepared, nt)))];
    }
    if VbVel in prepared {
      var vb := VerticalBeamTest(prepared, nd, nt, p.ampTh, p.corrTh, p.pgTh);
      var vbQc := Scaled(vb, ProbablyBadValue);
      GridsEqual(vbQc, VbQc(prepared, nd, nt, p), nd, nt);
      ds.vars := ds.vars[QC(VbVel) := ProfileFlags(vbQc)];
    }
    ds.vars := ds.vars[QC(U) := ProfileFlags(grid)][QC(V) := ProfileFlags(grid)][QC(W) := ProfileFlags(grid)];
  }
}
