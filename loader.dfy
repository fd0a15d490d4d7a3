/**
  The parts of magtogoek/adcp/loader.py that are logic rather than file
  reading: its own `Logger`, which counts a warning whenever a message carries
  the tag "WARNING:", the check of the `dday` time vector and its replacement,
  the depth of the bins below the surface, and the variable catalogue of
  `init_dataset`.
 */
module Loader {
  import opened Wrappers
  import opened Floats
  import opened Datasets
  import opened Utils

  // ---------------------------------------------------------------------------
  // Substring search (Python's `pat in s`)
  // ---------------------------------------------------------------------------

  predicate OccursAt(pat: string, s: string, i: int) {
    0 <= i && i + |pat| <= |s| && s[i..i + |pat|] == pat
  }

  lemma OccursShift(pat: string, s: string)
    requires s != []
    ensures (exists i :: OccursAt(pat, s[1..], i)) <==> (exists i :: 1 <= i && OccursAt(pat, s, i))
  {
    forall i | OccursAt(pat, s[1..], i) ensures OccursAt(pat, s, i + 1) {
      assert s[1..][i..i + |pat|] == s[i + 1..i + 1 + |pat|];
    }
    forall i | 1 <= i && OccursAt(pat, s, i) ensures OccursAt(pat, s[1..], i - 1) {
      assert s[1..][i - 1..i - 1 + |pat|] == s[i..i + |pat|];
    }
  }

  /** `pat in s`: `pat` occurs somewhere in `s`. */
  function Occurs(pat: string, s: string): (r: bool)
    ensures r <==> exists i :: OccursAt(pat, s, i)
    decreases |s|
  {
    if |s| < |pat| then false
    else if s[..|pat|] == pat then assert OccursAt(pat, s, 0); true
    else
      OccursShift(pat, s);
      Occurs(pat, s[1..])
  }

  const WarningTag: string := "WARNING:"

  /** How many strings of a list carry the warning tag. */
  function TaggedCount(ms: seq<string>): nat {
    if ms == [] then 0
    else TaggedCount(ms[..|ms| - 1]) + (if Occurs(WarningTag, ms[|ms| - 1]) then 1 else 0)
  }

  /** The warnings `log` counts for a message. */
  function Warnings(msg: Message): nat {
    match msg
    case Text(s) => if Occurs(WarningTag, s) then 1 else 0
    case Items(ms) => TaggedCount(ms)
  }

  /** What `log(msg, t)` appends: the strings of a list are logged without the timestamp. */
  function LoaderRendered(msg: Message, t: bool, stamp: string): string {
    match msg
    case Text(s) => LogLine(s, t, stamp)
    case Items(ms) => LogLines(ms, false, stamp)
  }

  /** Counting over two lists one after the other adds their counts. */
  lemma {:induction false} TaggedCountAppend(a: seq<string>, b: seq<string>)
    ensures TaggedCount(a + b) == TaggedCount(a) + TaggedCount(b)
    decreases |b|
  {
    if b == [] {
      assert a + b == a;
    } else {
      var b' := b[..|b| - 1];
      assert (a + b)[..|a + b| - 1] == a + b';
      TaggedCountAppend(a, b');
    }
  }

  /** A list never counts more warnings than it has strings, and counts them all
      exactly when every string carries the tag. */
  lemma {:induction false} TaggedCountBounds(ms: seq<string>)
    ensures TaggedCount(ms) <= |ms|
    ensures TaggedCount(ms) == |ms| <==> forall k :: 0 <= k < |ms| ==> Occurs(WarningTag, ms[k])
    decreases |ms|
  {
    if ms != [] {
      var ms' := ms[..|ms| - 1];
      TaggedCountBounds(ms');
      assert forall k :: 0 <= k < |ms'| ==> ms'[k] == ms[k];
    }
  }

  class Logger {
    var logbook: string
    var wCount: nat

    constructor (logbook: string)
      ensures this.logbook == logbook && wCount == 0
    {
      this.logbook := "" + logbook;
      this.wCount := 0;
    }

    /** `section`: appends `[msg]`, with the timestamp when `t` is set. */
    method Section(msg: string, t: bool, stamp: string)
      modifies this
      ensures logbook == old(logbook) + SectionLine(msg, t, stamp)
      ensures wCount == old(wCount)
    {
      var time := if !t then "" else " " + stamp;
      logbook := logbook + "[" + msg + "]" + time + "\n";
    }

    /** `log`: appends one line per string, and counts one warning per string tagged "WARNING:". */
    method Log(msg: Message, t: bool, stamp: string)
      modifies this
      ensures logbook == old(logbook) + LoaderRendered(msg, t, stamp)
      ensures old(logbook) <= logbook
      ensures wCount == old(wCount) + Warnings(msg)
    {
      match msg
      case Text(s) =>
        LogString(s, t, stamp);
      case Items(ms) =>
        for k := 0 to |ms|
          invariant logbook == old(logbook) + LogLines(ms[..k], false, stamp)
          invariant wCount == old(wCount) + TaggedCount(ms[..k])
        {
          assert ms[..k + 1][..k] == ms[..k];
          LogString(ms[k], false, stamp);
        }
        assert ms[..|ms|] == ms;
    }

    method LogString(s: string, t: bool, stamp: string)
      modifies this
      ensures logbook == old(logbook) + LogLine(s, t, stamp)
      ensures wCount == old(wCount) + (if Occurs(WarningTag, s) then 1 else 0)
    {
      if Occurs(WarningTag, s) {
        wCount := wCount + 1;
      }
      var line := if !t then s else stamp + " " + s;
      logbook := logbook + " " + line + "\n";
    }
  }

  // ---------------------------------------------------------------------------
  // The time vector
  // ---------------------------------------------------------------------------

  predicate NegativeAt(dday: seq<Float>, i: int) {
    0 <= i < |dday| && Below(dday[i], 0.0)
  }

  /** `np.diff(dday)[i] < 0`. */
  predicate StepsBackAt(dday: seq<Float>, i: int) {
    0 <= i && i + 1 < |dday| && Below(Sub(dday[i + 1], dday[i]), 0.0)
  }

  /** `(dday < 0).any()`. */
  function AnyNegative(dday: seq<Float>): (r: bool)
    ensures r <==> exists i :: NegativeAt(dday, i)
  {
    if dday == [] then false
    else
      var d' := dday[..|dday| - 1];
      assert forall i :: NegativeAt(d', i) <==> 0 <= i < |d'| && NegativeAt(dday, i);
      assert NegativeAt(dday, |dday| - 1) <==> Below(dday[|dday| - 1], 0.0);
      Below(dday[|dday| - 1], 0.0) || AnyNegative(d')
  }

  /** `(np.diff(dday) < 0).any()`. */
  function AnyStepBack(dday: seq<Float>): (r: bool)
    ensures r <==> exists i :: StepsBackAt(dday, i)
  {
    if |dday| < 2 then false
    else
      var d' := dday[..|dday| - 1];
      assert forall i :: StepsBackAt(d', i) <==> 0 <= i < |d'| - 1 && StepsBackAt(dday, i);
      StepsBackAt(dday, |dday| - 2) || AnyStepBack(d')
  }

  /** The `bad_time` condition: a negative day or a step back in time. */
  function BadTime(dday: seq<Float>): (r: bool)
    ensures r <==> (exists i :: NegativeAt(dday, i)) || (exists i :: StepsBackAt(dday, i))
  {
    AnyNegative(dday) || AnyStepBack(dday)
  }

  /** `np.arange(len(dday)) / (3600 * 24)`: one-second steps from day 0. */
  function DefaultDday(n: nat): (d: seq<Float>)
    ensures |d| == n
    ensures forall i :: 0 <= i < n ==> d[i] == Num(i as real / 86400.0)
  {
    seq(n, i => Num(i as real / (3600 * 24) as real))
  }

  /** The replacement vector steps by one second and is never bad. */
  lemma DefaultDdayIsGood(n: nat)
    ensures forall i :: 0 <= i < n - 1 ==> Sub(DefaultDday(n)[i + 1], DefaultDday(n)[i]) == Num(1.0 / 86400.0)
    ensures !BadTime(DefaultDday(n))
  {
    var d := DefaultDday(n);
    forall i | 0 <= i < n - 1 ensures Sub(d[i + 1], d[i]) == Num(1.0 / 86400.0) {
      assert d[i + 1].r - d[i].r == ((i + 1) as real - i as real) / 86400.0;
    }
    forall i ensures !StepsBackAt(d, i) {
      if 0 <= i && i + 1 < n {
        assert Sub(d[i + 1], d[i]) == Num(1.0 / 86400.0);
      }
    }
  }

  /** The days the loader passes on: the recorded `dday`, or the default vector when it is bad. */
  function LoadedDays(dday: seq<Float>): (r: seq<Float>)
    ensures |r| == |dday|
    ensures !BadTime(r)
    ensures BadTime(dday) ==> r == DefaultDday(|dday|)
    ensures !BadTime(dday) ==> r == dday
  {
    if BadTime(dday) then DefaultDdayIsGood(|dday|); DefaultDday(|dday|) else dday
  }

  /** The decimal text of an integer, as Python's f-string writes it. */
  function Decimal(n: int): string
    decreases if n < 0 then 1 - n else n
  {
    if n < 0 then "-" + Decimal(-n)
    else if n < 10 then ["0123456789"[n]]
    else Decimal(n / 10) + ["0123456789"[n % 10]]
  }

  const NonMonotonicText: string :=
    " The `dday` vector either contains negative values or is not monotonically increasing."

  const NonMonotonicWarning: string := WarningTag + NonMonotonicText

  function ReplacedTimeText(yearbase: int): string {
    " Time was replaced by a default datetime vector: 1 second timestep since " + Decimal(yearbase)
  }

  function ReplacedTimeWarning(yearbase: int): string {
    WarningTag + ReplacedTimeText(yearbase)
  }

  /** The list `load_rdi_binary` logs on a bad time vector, as written: the
      two adjacent f-strings lack a comma and so form a single string. */
  function BadTimeMessagesAsWritten(yearbase: int): (ms: seq<string>)
    ensures |ms| == 1 && ms[0] == BadTimeMessages(yearbase)[0] + BadTimeMessages(yearbase)[1]
  {
    [NonMonotonicWarning + ReplacedTimeWarning(yearbase)]
  }

  /** The two warnings, one string each. */
  function BadTimeMessages(yearbase: int): (ms: seq<string>)
    ensures |ms| == 2 && OccursAt(WarningTag, ms[0], 0) && OccursAt(WarningTag, ms[1], 0)
  {
    StartsWithTag(NonMonotonicText);
    StartsWithTag(ReplacedTimeText(yearbase));
    [NonMonotonicWarning, ReplacedTimeWarning(yearbase)]
  }

  lemma StartsWithTag(rest: string)
    ensures Occurs(WarningTag, WarningTag + rest) && OccursAt(WarningTag, WarningTag + rest, 0)
  {
    assert (WarningTag + rest)[0..|WarningTag|] == WarningTag;
  }

  /** As written, the list holds one string, with "WARNING:" at its start and again in its middle. */
  lemma BadTimeTagsAsWritten(yearbase: int)
    ensures |BadTimeMessagesAsWritten(yearbase)| == 1
    ensures OccursAt(WarningTag, BadTimeMessagesAsWritten(yearbase)[0], 0)
    ensures OccursAt(WarningTag, BadTimeMessagesAsWritten(yearbase)[0], |NonMonotonicWarning|)
  {
    var m := BadTimeMessages(yearbase);
    var s := BadTimeMessagesAsWritten(yearbase)[0];
    var k := |WarningTag|;
    assert m[0] == NonMonotonicWarning;
    assert s[..k] == m[0][..k];
    assert s[|m[0]|..|m[0]| + k] == m[1][..k];
  }

  /** As written, the logbook gets one line holding both warnings and the count rises by one only. */
  lemma BadTimeWarningsAsWritten(yearbase: int)
    ensures TaggedCount(BadTimeMessagesAsWritten(yearbase)) == 1
  {
    var ms := BadTimeMessagesAsWritten(yearbase);
    BadTimeTagsAsWritten(yearbase);
    assert Occurs(WarningTag, ms[0]);
    assert ms[..0] == [];
  }

  /** With one string per warning, the logbook gets two lines and the count rises by two. */
  lemma BadTimeWarningsCounted(yearbase: int)
    ensures TaggedCount(BadTimeMessages(yearbase)) == 2
  {
    var ms := BadTimeMessages(yearbase);
    var first := NonMonotonicWarning;
    var second := ReplacedTimeWarning(yearbase);
    StartsWithTag(NonMonotonicText);
    StartsWithTag(ReplacedTimeText(yearbase));
    assert ms[..|ms| - 1] == [first];
    assert [first][..0] == [];
    assert TaggedCount([first]) == TaggedCount([]) + 1;
    assert TaggedCount(ms) == TaggedCount([first]) + 1;
  }

  /** `load_rdi_binary`'s time check: logs the two warnings and returns the
      replacement vector when `dday` is bad, and `dday` itself otherwise. */
  method LoadTime(l: Logger, dday: seq<Float>, yearbase: int) returns (days: seq<Float>, badTime: bool)
    modifies l
    ensures badTime == BadTime(dday)
    ensures days == LoadedDays(dday)
    ensures l.logbook == old(l.logbook) + (if badTime then LogLines(BadTimeMessages(yearbase), false, "") else "")
    ensures l.wCount == old(l.wCount) + (if badTime then 2 else 0)
  {
    badTime := false;
    if AnyNegative(dday) || AnyStepBack(dday) {
      badTime := true;
      BadTimeWarningsCounted(yearbase);
      l.Log(Items(BadTimeMessages(yearbase)), false, "");
      days := DefaultDday(|dday|);
    } else {
      days := dday;
    }
  }

  // ---------------------------------------------------------------------------
  // Depth below the surface
  // ---------------------------------------------------------------------------

  /** Bin depths below the surface from the transducer depth and the ranges
      `dep` from the transducer; none for the "os" sonar, whose `dep` is
      already below the surface. */
  function DepthBelowSurface(sonar: string, xducerDepth: real, dep: seq<real>, orientation: string): (r: Option<seq<real>>)
    ensures r.Some? <==> sonar != "os"
    ensures r.Some? ==> |r.value| == |dep|
    ensures r.Some? && orientation == "down" ==> forall i :: 0 <= i < |dep| ==> r.value[i] - xducerDepth == dep[i]
    ensures r.Some? && orientation != "down" ==> forall i :: 0 <= i < |dep| ==> xducerDepth - r.value[i] == dep[i]
  {
    if sonar == "os" then None
    else if orientation == "down" then Some(seq(|dep|, i requires 0 <= i < |dep| => xducerDepth + dep[i]))
    else Some(seq(|dep|, i requires 0 <= i < |dep| => xducerDepth - dep[i]))
  }

  /** Looking down, farther bins are deeper; otherwise farther bins are shallower. */
  lemma DepthOrder(sonar: string, xducerDepth: real, dep: seq<real>, orientation: string, i: int, j: int)
    requires sonar != "os" && 0 <= i < |dep| && 0 <= j < |dep| && dep[i] <= dep[j]
    ensures var d := DepthBelowSurface(sonar, xducerDepth, dep, orientation).value;
      if orientation == "down" then d[i] <= d[j] else d[i] >= d[j]
  {
  }
  /** The depth coordinate `load_rdi_binary` means to build the dataset over:
      the depth below the surface, or `dep` itself for the "os" sonar. */
  function DatasetDepth(sonar: string, xducerDepth: real, dep: seq<real>, orientation: string): (d: seq<real>)
    ensures |d| == |dep|
    ensures sonar == "os" ==> d == dep
    ensures sonar != "os" ==> DepthBelowSurface(sonar, xducerDepth, dep, orientation) == Some(d)
  {
    match DepthBelowSurface(sonar, xducerDepth, dep, orientation)
    case Some(below) => below
    case None => dep
  }

  /** The depth coordinate as written: `init_dataset(time, data.dep, ...)`
      passes the ranges from the transducer and drops the computed depth. */
  function DatasetDepthAsWritten(sonar: string, xducerDepth: real, dep: seq<real>, orientation: string): (d: seq<real>)
    ensures |d| == |dep|
  {
    dep
  }

  /** As written, a downward-looking transducer below the surface leaves every
      bin at its range from the transducer instead of its depth below the surface. */
  lemma DepthDroppedAsWritten(sonar: string, xducerDepth: real, dep: seq<real>, i: int)
    requires sonar != "os" && xducerDepth != 0.0 && 0 <= i < |dep|
    ensures DatasetDepthAsWritten(sonar, xducerDepth, dep, "down")[i] != DatasetDepth(sonar, xducerDepth, dep, "down")[i]
  {
    var d := DatasetDepth(sonar, xducerDepth, dep, "down");
    assert d[i] - xducerDepth == dep[i];
  }

  /** For instance, a downward-looking ADCP 5 m deep with one bin 1 m away. */
  lemma DepthDroppedExample()
    ensures DatasetDepthAsWritten("wh", 5.0, [1.0], "down") == [1.0]
    ensures DatasetDepth("wh", 5.0, [1.0], "down") == [6.0]
  {
    var d := DatasetDepth("wh", 5.0, [1.0], "down");
    assert d[0] - 5.0 == 1.0;
  }


  // ---------------------------------------------------------------------------
  // init_dataset
  // ---------------------------------------------------------------------------

  /** The 13 (depth, time) variables of every loaded dataset. */
  const LoaderProfiles: set<Name> :=
    {U, V, W, E, Pg, Amp1, Amp2, Amp3, Amp4, Corr1, Corr2, Corr3, Corr4}

  /** The (depth, time) variables of the Sentinel V fifth beam. */
  const FifthBeamProfiles: set<Name> := {VbVel, VbAmp, VbCorr}

  /** The 14 (time) variables of every loaded dataset. */
  const LoaderSeries: set<Name> :=
    {Lon, Lat, Roll, Pitch, Heading, BtU, BtV, BtW, BtE, BtDepth, XducerDepth, Temp, Pres, TimeString}

  /** The catalogue agrees with the dimensions the dataset gives each name. */
  lemma SeriesKinds(n: Name)
    requires n in LoaderSeries
    ensures IsSeriesName(n)
  {
  }

  lemma ProfileKinds(n: Name)
    requires n in LoaderProfiles + FifthBeamProfiles
    ensures IsProfileName(n)
  {
  }

  /** `nans(depth.shape + time.shape)`. */
  function Nans2(nd: nat, nt: nat): (g: Grid<Float>)
    ensures IsGrid(g, nd, nt)
    ensures forall i, j :: 0 <= i < nd && 0 <= j < nt ==> g[i][j] == NaN
  {
    seq(nd, i => seq(nt, j => NaN))
  }

  /** `nans(time.shape)`. */
  function Nans(nt: nat): (s: seq<Float>)
    ensures |s| == nt && forall j :: 0 <= j < nt ==> s[j] == NaN
  {
    seq(nt, j => NaN)
  }

  function ProfileNames(sonar: string): set<Name> {
    if sonar == "sv" then LoaderProfiles + FifthBeamProfiles else LoaderProfiles
  }

  /** The data variables of `init_dataset`: the (depth, time) ones over the
      grid and the (time) ones over the time axis, all filled with NaN. */
  function InitVariables(nd: nat, nt: nat, sonar: string): (r: Vars)
    ensures WellShaped(r, nd, nt)
  {
    var r := map n | n in ProfileNames(sonar) + LoaderSeries ::
      if n in ProfileNames(sonar) then Profile(Nans2(nd, nt)) else Series(Nans(nt));
    InitVariablesShape(nd, nt, sonar, r);
    r
  }

  lemma InitVariablesShape(nd: nat, nt: nat, sonar: string, r: Vars)
    requires r == map n | n in ProfileNames(sonar) + LoaderSeries ::
      if n in ProfileNames(sonar) then Profile(Nans2(nd, nt)) else Series(Nans(nt))
    ensures WellShaped(r, nd, nt)
  {
    forall n | n in r
      ensures Fits(r[n], nd, nt) && (IsProfileName(n) ==> r[n].Profile?) && (IsSeriesName(n) ==> r[n].Series?)
    {
      if n in ProfileNames(sonar) {
        ProfileKinds(n);
      } else {
        SeriesKinds(n);
      }
    }
  }

  lemma ProfileCount()
    ensures |LoaderProfiles| == 13
  {
    var a := {U, V, W, E, Pg, Amp1};
    var b := {Amp2, Amp3, Amp4, Corr1, Corr2, Corr3, Corr4};
    assert |a| == 6 && |b| == 7 && a !! b;
    assert LoaderProfiles == a + b;
  }

  lemma SeriesCount()
    ensures |LoaderSeries| == 14
  {
    var a := {Lon, Lat, Roll, Pitch, Heading, BtU, BtV};
    var b := {BtW, BtE, BtDepth, XducerDepth, Temp, Pres, TimeString};
    assert |a| == 7 && |b| == 7 && a !! b;
    assert LoaderSeries == a + b;
  }

  lemma CatalogueSizes()
    ensures |LoaderProfiles| == 13 && |LoaderProfiles + FifthBeamProfiles| == 16 && |LoaderSeries| == 14
  {
    ProfileCount();
    SeriesCount();
    assert |FifthBeamProfiles| == 3 && LoaderProfiles !! FifthBeamProfiles;
  }

  lemma InitVariablesKinds(nd: nat, nt: nat, sonar: string)
    ensures var r := InitVariables(nd, nt, sonar);
      && (set n | n in r && r[n].Profile?) == ProfileNames(sonar)
      && (set n | n in r && r[n].Series?) == LoaderSeries
  {
    var r := InitVariables(nd, nt, sonar);
    assert ProfileNames(sonar) !! LoaderSeries;
    assert forall n :: n in r && r[n].Profile? <==> n in ProfileNames(sonar);
    assert forall n :: n in r && r[n].Series? <==> n in LoaderSeries;
  }

  /** `init_dataset` makes 13 (depth, time) variables, exactly three more
      (vb_vel, vb_amp, vb_corr) for the "sv" sonar, and 14 (time) variables,
      every value missing. */
  lemma InitVariablesCatalogue(nd: nat, nt: nat, sonar: string)
    ensures var r := InitVariables(nd, nt, sonar);
      && (set n | n in r && r[n].Profile?) == (if sonar == "sv" then LoaderProfiles + {VbVel, VbAmp, VbCorr} else LoaderProfiles)
      && |set n | n in r && r[n].Profile?| == (if sonar == "sv" then 16 else 13)
      && (set n | n in r && r[n].Series?) == LoaderSeries
      && |set n | n in r && r[n].Series?| == 14
      && (forall n, i, j :: n in r && r[n].Profile? && 0 <= i < nd && 0 <= j < nt ==> r[n].cells[i][j] == NaN)
      && (forall n, j :: n in r && r[n].Series? && 0 <= j < nt ==> r[n].values[j] == NaN)
  {
    CatalogueSizes();
    InitVariablesKinds(nd, nt, sonar);
  }

  /** `init_dataset(time, depth, sonar)`: a new dataset over these coordinates with the catalogue above. */
  method InitDataset(time: seq<real>, depth: seq<real>, sonar: string) returns (ds: AdcpDataset)
    ensures fresh(ds) && ds.Valid()
    ensures ds.depth == depth && ds.time == time
    ensures ds.vars == InitVariables(|depth|, |time|, sonar)
  {
    ds := new AdcpDataset(depth, time, InitVariables(|depth|, |time|, sonar));
  }

  /** `init_dataset` at loader.py:199, over the depth below the surface. */
  method InitLoadedDataset(time: seq<real>, sonar: string, xducerDepth: real, dep: seq<real>, orientation: string)
    returns (ds: AdcpDataset)
    ensures fresh(ds) && ds.Valid()
    ensures ds.depth == DatasetDepth(sonar, xducerDepth, dep, orientation) && ds.time == time
    ensures ds.vars == InitVariables(|dep|, |time|, sonar)
  {
    ds := InitDataset(time, DatasetDepth(sonar, xducerDepth, dep, orientation), sonar);
  }
}
