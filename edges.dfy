/** Pure description of what one poll of the digital inputs does to the edge logs.
    A poll compares a fresh reading with the stored levels; every input whose level
    changed gets one entry, in its rising log when the new level is 1 and in its
    falling log otherwise. */
module Edges {

  /** A level as read from a digital input (the device reports 0 or 1). */
  type Level = int

  /** An absolute clock reading, in microseconds of some fixed epoch. */
  type Instant = int

  /** A log entry: time elapsed since the session start, in microseconds. */
  type Elapsed = int

  /** The level that counts as "high": only a reading of exactly 1 is a rising edge. */
  const High: Level := 1

  /** True iff some input reads differently from the stored level. */
  predicate Differs(prev: seq<Level>, next: seq<Level>)
    requires |prev| == |next|
  {
    exists i :: 0 <= i < |prev| && prev[i] != next[i]
  }

  /** For readings of equal length, differing at some index is list inequality. */
  lemma DiffersIffUnequal(prev: seq<Level>, next: seq<Level>)
    requires |prev| == |next|
    ensures Differs(prev, next) <==> prev != next
  {
  }

  /** The log of one input after a poll that moved its level from `prev` to `next`:
      `t` is appended when the level changed in the direction this log records. */
  function Logged(log: seq<Elapsed>, prev: Level, next: Level, t: Elapsed, rising: bool): (r: seq<Elapsed>)
    ensures prev == next ==> r == log
    ensures r == log || r == log + [t]
    ensures r != log <==> prev != next && (next == High) == rising
  {
    if prev != next && (next == High) == rising then log + [t] else log
  }

  /** All rising (or all falling) logs after one poll, input by input. */
  function Route(logs: seq<seq<Elapsed>>, prev: seq<Level>, next: seq<Level>, t: Elapsed, rising: bool)
    : seq<seq<Elapsed>>
    requires |prev| == |logs| && |next| == |logs|
  {
    seq(|logs|, i requires 0 <= i < |logs| => Logged(logs[i], prev[i], next[i], t, rising))
  }

  /** Logs that agree with `Logged` input by input are the routed logs. */
  lemma RouteFromEntries(r: seq<seq<Elapsed>>, logs: seq<seq<Elapsed>>, prev: seq<Level>, next: seq<Level>,
                         t: Elapsed, rising: bool)
    requires |prev| == |logs| && |next| == |logs| && |r| == |logs|
    requires forall j :: 0 <= j < |r| ==> r[j] == Logged(logs[j], prev[j], next[j], t, rising)
    ensures r == Route(logs, prev, next, t, rising)
  {
  }

  /** Number of inputs whose level differs between the two readings. */
  function CountChanged(prev: seq<Level>, next: seq<Level>): (n: nat)
    requires |prev| == |next|
    ensures n <= |prev|
    decreases |prev|
  {
    if prev == [] then 0
    else (if prev[0] != next[0] then 1 else 0) + CountChanged(prev[1..], next[1..])
  }

  /** Total number of entries held by a list of logs. */
  function Total(logs: seq<seq<Elapsed>>): nat
    decreases |logs|
  {
    if logs == [] then 0 else |logs[0]| + Total(logs[1..])
  }

  /** A poll that sees no change leaves every log as it was. */
  lemma RouteUnchanged(logs: seq<seq<Elapsed>>, levels: seq<Level>, t: Elapsed, rising: bool)
    requires |levels| == |logs|
    ensures Route(logs, levels, levels, t, rising) == logs
  {
  }

  /** For one input, the rising and falling logs together grow by exactly one entry,
      stamped `t`, when its level changed, and by nothing otherwise. */
  lemma OneEntryPerChange(rising: seq<seq<Elapsed>>, falling: seq<seq<Elapsed>>,
                          prev: seq<Level>, next: seq<Level>, t: Elapsed, i: nat)
    requires |prev| == |rising| && |next| == |rising| && |falling| == |rising|
    requires i < |rising|
    ensures var r := Route(rising, prev, next, t, true)[i];
            var f := Route(falling, prev, next, t, false)[i];
            |r| + |f| == |rising[i]| + |falling[i]| + (if prev[i] != next[i] then 1 else 0)
            && r[..|rising[i]|] == rising[i] && f[..|falling[i]|] == falling[i]
            && (forall k :: |rising[i]| <= k < |r| ==> r[k] == t)
            && (forall k :: |falling[i]| <= k < |f| ==> f[k] == t)
            && (|r| > |rising[i]| <==> prev[i] != next[i] && next[i] == High)
  {
  }

  /** Differing at some index is the same as a positive count of changed inputs. */
  lemma {:induction false} DiffersIffCounted(prev: seq<Level>, next: seq<Level>)
    requires |prev| == |next|
    ensures Differs(prev, next) <==> CountChanged(prev, next) > 0
    decreases |prev|
  {
    if prev != [] {
      DiffersIffCounted(prev[1..], next[1..]);
      if prev[0] == next[0] && Differs(prev, next) {
        var i :| 0 <= i < |prev| && prev[i] != next[i];
        assert prev[1..][i - 1] != next[1..][i - 1];
      }
      if Differs(prev[1..], next[1..]) {
        var i :| 0 <= i < |prev| - 1 && prev[1..][i] != next[1..][i];
        assert prev[i + 1] != next[i + 1];
      }
    }
  }

  /** Across all inputs, one poll adds exactly as many entries to the logs as there
      are inputs whose level changed. */
  lemma {:induction false} RouteTotal(rising: seq<seq<Elapsed>>, falling: seq<seq<Elapsed>>,
                                      prev: seq<Level>, next: seq<Level>, t: Elapsed)
    requires |prev| == |rising| && |next| == |rising| && |falling| == |rising|
    ensures Total(Route(rising, prev, next, t, true)) + Total(Route(falling, prev, next, t, false))
            == Total(rising) + Total(falling) + CountChanged(prev, next)
    decreases |rising|
  {
    if rising != [] {
      RouteTotal(rising[1..], falling[1..], prev[1..], next[1..], t);
      var r := Route(rising, prev, next, t, true);
      var f := Route(falling, prev, next, t, false);
      assert r[1..] == Route(rising[1..], prev[1..], next[1..], t, true);
      assert f[1..] == Route(falling[1..], prev[1..], next[1..], t, false);
    }
  }
}
