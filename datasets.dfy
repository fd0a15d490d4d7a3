/**
  The ADCP dataset shared by the loader and the quality control: named
  variables over the dimensions (depth, time) or (time), held in a map the
  operations update in place.
 */
module Datasets {
  import opened Wrappers
  import opened Floats

  /** A depth x time array: `g[i][j]` is depth cell `i` at time `j`. */
  type Grid<T> = seq<seq<T>>

  predicate IsGrid<T>(g: Grid<T>, nd: nat, nt: nat) {
    |g| == nd && forall i :: 0 <= i < nd ==> |g[i]| == nt
  }

  /** One data variable: measurements over (depth, time) or (time), or the
      integer quality flags the quality control attaches to them. */
  datatype Variable =
    | Profile(cells: Grid<Float>)
    | Series(values: seq<Float>)
    | ProfileFlags(flags: Grid<int>)
    | SeriesFlags(marks: seq<int>)

  /** The names of the variables the loader creates and the quality control
      reads or writes; `Label` gives each its name in the dataset. */
  datatype Name =
    | U | V | W | E | Pg | Amp1 | Amp2 | Amp3 | Amp4 | Corr1 | Corr2 | Corr3 | Corr4
    | VbVel | VbAmp | VbCorr | VbPg
    | Lon | Lat | Roll | Pitch | Heading | BtU | BtV | BtW | BtE | BtDepth
    | XducerDepth | Temp | Pres | TimeString | Temperature | UShip | VShip
    | QC(of: Name)

  function Label(n: Name): string {
    match n
    case U => "u" case V => "v" case W => "w" case E => "e" case Pg => "pg"
    case Amp1 => "amp1" case Amp2 => "amp2" case Amp3 => "amp3" case Amp4 => "amp4"
    case Corr1 => "corr1" case Corr2 => "corr2" case Corr3 => "corr3" case Corr4 => "corr4"
    case VbVel => "vb_vel" case VbAmp => "vb_amp" case VbCorr => "vb_corr" case VbPg => "vb_pg"
    case Lon => "lon" case Lat => "lat" case Roll => "roll_" case Pitch => "pitch"
    case Heading => "heading" case BtU => "bt_u" case BtV => "bt_v" case BtW => "bt_w"
    case BtE => "bt_e" case BtDepth => "bt_depth" case XducerDepth => "xducer_depth"
    case Temp => "temp" case Pres => "pres" case TimeString => "time_string"
    case Temperature => "temperature" case UShip => "u_ship" case VShip => "v_ship"
    case QC(m) => Label(m) + "_QC"
  }

  type Vars = map<Name, Variable>

  /** The names read over (depth, time). */
  predicate IsProfileName(n: Name) {
    match n
    case U | V | W | E | Pg | Amp1 | Amp2 | Amp3 | Amp4 | Corr1 | Corr2 | Corr3 | Corr4 => true
    case VbVel | VbAmp | VbCorr | VbPg => true
    case _ => false
  }

  /** The names read over (time). */
  predicate IsSeriesName(n: Name) {
    !n.QC? && !IsProfileName(n)
  }

  predicate Fits(x: Variable, nd: nat, nt: nat) {
    match x
    case Profile(g) => IsGrid(g, nd, nt)
    case ProfileFlags(g) => IsGrid(g, nd, nt)
    case Series(s) => |s| == nt
    case SeriesFlags(s) => |s| == nt
  }

  /** Every variable has the dataset's shape, and a measured variable has its known dimensions. */
  predicate WellShaped(vars: Vars, nd: nat, nt: nat) {
    forall n :: n in vars ==>
      && Fits(vars[n], nd, nt)
      && (IsProfileName(n) ==> vars[n].Profile?)
      && (IsSeriesName(n) ==> vars[n].Series?)
  }

  /** Cell (i, j) of a (depth, time) variable; NaN where there is none. */
  function Value(vars: Vars, n: Name, i: int, j: int): Float {
    if n in vars && vars[n].Profile? && 0 <= i < |vars[n].cells| && 0 <= j < |vars[n].cells[i]|
    then vars[n].cells[i][j]
    else NaN
  }

  /** Element j of a (time) variable; NaN where there is none. */
  function At(vars: Vars, n: Name, j: int): Float {
    if n in vars && vars[n].Series? && 0 <= j < |vars[n].values| then vars[n].values[j] else NaN
  }

  /** Assigning a variable of the right shape and kind keeps the dataset well shaped. */
  lemma UpdateFits(vars: Vars, n: Name, x: Variable, nd: nat, nt: nat)
    requires WellShaped(vars, nd, nt) && Fits(x, nd, nt)
    requires (IsProfileName(n) ==> x.Profile?) && (IsSeriesName(n) ==> x.Series?)
    ensures WellShaped(vars[n := x], nd, nt)
  {
  }

  /** An xarray Dataset: the depth and time coordinates, the data variables,
      and the one attribute the model follows, `attrs["logbook"]` (None while
      the dataset has no such attribute). */
  class AdcpDataset {
    const depth: seq<real>
    const time: seq<real>
    var vars: Vars
    var logbook: Option<string>

    ghost predicate Valid()
      reads this
    {
      WellShaped(vars, |depth|, |time|)
    }

    constructor (depth: seq<real>, time: seq<real>, vars: Vars)
      requires WellShaped(vars, |depth|, |time|)
      ensures this.depth == depth && this.time == time && this.vars == vars
      ensures logbook.None?
      ensures Valid()
    {
      this.depth := depth;
      this.time := time;
      this.vars := vars;
      this.logbook := None;
    }
  }
}
