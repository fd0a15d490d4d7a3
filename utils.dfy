/**
  The `Logger` of magtogoek/utils.py: a logbook string grown line by line and a
  count of the warnings issued. Console output is left out; the wall-clock
  timestamp is the parameter `stamp`.
 */
module Utils {

  /** A message: one string, or a list of strings logged one after the other. */
  datatype Message = Text(text: string) | Items(items: seq<string>)

  /** The logbook line of a message, with the timestamp in front when `t` is set. */
  function LogLine(msg: string, t: bool, stamp: string): string {
    " " + (if t then stamp + " " + msg else msg) + "\n"
  }

  /** The logbook line of a section heading. */
  function SectionLine(name: string, t: bool, stamp: string): string {
    "[" + name + "]" + (if t then " " + stamp else "") + "\n"
  }

  /** The logbook lines of a list of messages, in list order. */
  function LogLines(ms: seq<string>, t: bool, stamp: string): string {
    if ms == [] then "" else LogLines(ms[..|ms| - 1], t, stamp) + LogLine(ms[|ms| - 1], t, stamp)
  }

  /** What logging `msg` appends to the logbook. */
  function Rendered(msg: Message, t: bool, stamp: string): string {
    match msg
    case Text(s) => LogLine(s, t, stamp)
    case Items(ms) => LogLines(ms, t, stamp)
  }

  /** The number of strings a message holds: one warning is counted for each. */
  function Strings(msg: Message): nat {
    match msg
    case Text(_) => 1
    case Items(ms) => |ms|
  }

  /** Logging two lists one after the other logs their concatenation. */
  lemma {:induction false} LogLinesAppend(a: seq<string>, b: seq<string>, t: bool, stamp: string)
    ensures LogLines(a + b, t, stamp) == LogLines(a, t, stamp) + LogLines(b, t, stamp)
    decreases |b|
  {
    if b == [] {
      assert a + b == a;
    } else {
      var b' := b[..|b| - 1];
      assert (a + b)[..|a + b| - 1] == a + b';
      LogLinesAppend(a, b', t, stamp);
    }
  }

  /** A list message logs like logging its first string, then the rest of the list. */
  lemma ListIsOneCallPerItem(ms: seq<string>, t: bool, stamp: string)
    requires ms != []
    ensures Rendered(Items(ms), t, stamp) == Rendered(Text(ms[0]), t, stamp) + Rendered(Items(ms[1..]), t, stamp)
  {
    var first := [ms[0]];
    assert first[..0] == [];
    assert LogLines(first, t, stamp) == LogLine(ms[0], t, stamp);
    assert ms == first + ms[1..];
    LogLinesAppend(first, ms[1..], t, stamp);
  }

  class Logger {
    var logbook: string
    var wCount: nat
    /** 0 prints everything, 1 prints only warnings, 2 prints nothing. */
    var level: int

    constructor (logbook: string, level: int)
      ensures this.logbook == logbook && wCount == 0 && this.level == level
    {
      this.logbook := logbook;
      this.wCount := 0;
      this.level := level;
    }

    /** `section`: appends the heading `[section]`, with the timestamp when `t` is set. */
    method Section(section: string, t: bool, stamp: string)
      modifies this
      ensures logbook == old(logbook) + SectionLine(section, t, stamp)
      ensures wCount == old(wCount) && level == old(level)
    {
      var time := if !t then "" else " " + stamp;
      logbook := logbook + "[" + section + "]" + time + "\n";
    }

    /** `log`: appends one line per string, whatever the level; counts nothing. */
    method Log(msg: Message, t: bool, stamp: string)
      modifies this
      ensures logbook == old(logbook) + Rendered(msg, t, stamp)
      ensures old(logbook) <= logbook
      ensures wCount == old(wCount) && level == old(level)
    {
      match msg
      case Text(s) =>
        AppendLine(s, t, stamp);
      case Items(ms) =>
        for k := 0 to |ms|
          invariant logbook == old(logbook) + LogLines(ms[..k], t, stamp)
          invariant wCount == old(wCount) && level == old(level)
        {
          assert ms[..k + 1][..k] == ms[..k];
          AppendLine(ms[k], t, stamp);
        }
        assert ms[..|ms|] == ms;
    }

    /** `warning`: logs like `log`, and counts one warning per string when the level is below 2. */
    method Warning(msg: Message, t: bool, stamp: string)
      modifies this
      ensures logbook == old(logbook) + Rendered(msg, t, stamp)
      ensures old(logbook) <= logbook
      ensures wCount == old(wCount) + (if level < 2 then Strings(msg) else 0)
      ensures level == old(level)
    {
      match msg
      case Text(s) =>
        WarnLine(s, t, stamp);
      case Items(ms) =>
        for k := 0 to |ms|
          invariant logbook == old(logbook) + LogLines(ms[..k], t, stamp)
          invariant wCount == old(wCount) + (if level < 2 then k else 0)
          invariant level == old(level)
        {
          assert ms[..k + 1][..k] == ms[..k];
          WarnLine(ms[k], t, stamp);
        }
        assert ms[..|ms|] == ms;
    }

    /** `reset`: empties the logbook and the warning count; the level stays. */
    method Reset()
      modifies this
      ensures logbook == "" && wCount == 0 && level == old(level)
    {
      logbook := "";
      wCount := 0;
    }

    method AppendLine(s: string, t: bool, stamp: string)
      modifies this
      ensures logbook == old(logbook) + LogLine(s, t, stamp)
      ensures wCount == old(wCount) && level == old(level)
    {
      var msg := if !t then s else stamp + " " + s;
      logbook := logbook + " " + msg + "\n";
    }

    method WarnLine(s: string, t: bool, stamp: string)
      modifies this
      ensures logbook == old(logbook) + LogLine(s, t, stamp)
      ensures wCount == old(wCount) + (if level < 2 then 1 else 0)
      ensures level == old(level)
    {
      if level < 2 {
        wCount := wCount + 1;
      }
      AppendLine(s, t, stamp);
    }
  }
}
