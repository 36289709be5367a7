/** The trigger bookkeeping of the application as pure functions: the commanded
    trigger level together with the two trigger logs, a tick that flips the level
    and records the new one, and a stop that always records one falling entry. */
module Cadence {
  import opened Edges

  /** The commanded trigger level and the trigger logs kept by the recorder. */
  datatype TriggerLog = TriggerLog(level: bool, rising: seq<Elapsed>, falling: seq<Elapsed>)

  /** One tick of the trigger timer at elapsed time `t`: negate the level and record
      the new level, unconditionally, in the matching log. */
  function Tick(v: TriggerLog, t: Elapsed): TriggerLog
  {
    if v.level then TriggerLog(false, v.rising, v.falling + [t])
    else TriggerLog(true, v.rising + [t], v.falling)
  }

  /** Stopping at elapsed time `t`: one falling entry, the level left as it was. */
  function Stop(v: TriggerLog, t: Elapsed): TriggerLog
  {
    v.(falling := v.falling + [t])
  }

  /** The effect of consecutive ticks at the elapsed times `ts`, in order. */
  function Ticks(v: TriggerLog, ts: seq<Elapsed>): TriggerLog
    decreases |ts|
  {
    if ts == [] then v else Ticks(Tick(v, ts[0]), ts[1..])
  }

  /** The state right after the application is built: no tick yet, and the stop
      performed at construction has already left one falling entry. */
  function AfterConstruction(t: Elapsed): TriggerLog
  {
    Stop(TriggerLog(false, [], []), t)
  }

  /** `k` ticks starting from level `v.level` add ceil(k/2) entries to the log of the
      opposite level and floor(k/2) to the other one; the logs only grow at the end,
      and the level has flipped iff `k` is odd. */
  lemma {:induction false} TicksCount(v: TriggerLog, ts: seq<Elapsed>)
    ensures var w := Ticks(v, ts);
            var k := |ts|;
            w.level == (if k % 2 == 0 then v.level else !v.level)
            && |w.rising| == |v.rising| + (if v.level then k / 2 else (k + 1) / 2)
            && |w.falling| == |v.falling| + (if v.level then (k + 1) / 2 else k / 2)
            && w.rising[..|v.rising|] == v.rising
            && w.falling[..|v.falling|] == v.falling
    decreases |ts|
  {
    if ts != [] {
      var u := Tick(v, ts[0]);
      TicksCount(u, ts[1..]);
      var w := Ticks(u, ts[1..]);
      assert w.rising[..|v.rising|] == w.rising[..|u.rising|][..|v.rising|];
      assert w.falling[..|v.falling|] == w.falling[..|u.falling|][..|v.falling|];
    }
  }

  /** Over any run of ticks, the rising and falling entries added differ by at most one,
      and an even run adds the same number to each log and restores the level. */
  lemma Alternation(v: TriggerLog, ts: seq<Elapsed>)
    ensures var w := Ticks(v, ts);
            var added := (|w.rising| - |v.rising|) - (|w.falling| - |v.falling|);
            -1 <= added <= 1
            && (|ts| % 2 == 0 ==> added == 0 && w.level == v.level)
  {
    TicksCount(v, ts);
  }

  /** A session that starts from the state left by construction, runs `|ts|` ticks and
      is stopped ends with more falling than rising trigger entries: two more after an
      even number of ticks, one more after an odd number. The level is then high iff
      the number of ticks was odd, and the next session starts from that level. */
  lemma FirstSessionBoundary(t0: Elapsed, ts: seq<Elapsed>, tStop: Elapsed)
    ensures var w := Stop(Ticks(AfterConstruction(t0), ts), tStop);
            |w.falling| == |w.rising| + (if |ts| % 2 == 0 then 2 else 1)
            && w.level == (|ts| % 2 == 1)
            && w.falling[0] == t0 && w.falling[|w.falling| - 1] == tStop
  {
    var v := AfterConstruction(t0);
    TicksCount(v, ts);
    var w := Ticks(v, ts);
    assert w.falling[..1] == [t0];
  }

  /** Two stops in a row record two falling entries: a stop is not idempotent. */
  lemma StopTwice(v: TriggerLog, t1: Elapsed, t2: Elapsed)
    ensures Stop(Stop(v, t1), t2) == TriggerLog(v.level, v.rising, v.falling + [t1, t2])
  {
  }
}
