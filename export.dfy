/** The keyed bundle the application saves: two series per input name, the two
    trigger series and the session start time. */
module Export {
  import opened Edges

  /** A value of the bundle: a series of log entries, or the session start time. */
  datatype Value = Series(entries: seq<Elapsed>) | StartTime(at: Instant)

  type Bundle = map<string, Value>

  const TriggerRisingKey: string := "ts_trigger_rising"
  const TriggerFallingKey: string := "ts_trigger_falling"
  const StartTimeKey: string := "start_time"

  /** The name under which the rising log of input `name` is saved. */
  function RisingKey(name: string): string
  {
    "ts_" + name + "_rising"
  }

  /** The name under which the falling log of input `name` is saved. */
  function FallingKey(name: string): string
  {
    "ts_" + name + "_falling"
  }

  /** Position of the first occurrence of `name` in `names`. */
  function FirstIndex(names: seq<string>, name: string): (r: nat)
    requires name in names
    ensures r < |names| && names[r] == name
    decreases |names|
  {
    if names[0] == name then 0 else 1 + FirstIndex(names[1..], name)
  }

  /** No earlier position holds `name`: the lookup finds the first occurrence, so
      every later duplicate of a name is saved with the first one's logs. */
  lemma {:induction false} FirstIndexIsFirst(names: seq<string>, name: string, j: nat)
    requires name in names && j < FirstIndex(names, name)
    ensures names[j] != name
    decreases |names|
  {
    if j > 0 {
      FirstIndexIsFirst(names[1..], name, j - 1);
    }
  }

  /** The keys of the input series for the names `names`. */
  function InputKeys(names: seq<string>): set<string>
  {
    (set name | name in names :: RisingKey(name)) + (set name | name in names :: FallingKey(name))
  }

  /** Every key the bundle holds for the input names `names`. */
  function Keys(names: seq<string>): set<string>
  {
    InputKeys(names) + {TriggerRisingKey, TriggerFallingKey, StartTimeKey}
  }

  /** The input name can be read back from its rising key. */
  lemma RisingKeyInjective(a: string, b: string)
    ensures RisingKey(a) == RisingKey(b) <==> a == b
  {
    if RisingKey(a) == RisingKey(b) {
      assert a == RisingKey(a)[3..|RisingKey(a)| - 7];
      assert b == RisingKey(b)[3..|RisingKey(b)| - 7];
    }
  }

  /** The input name can be read back from its falling key. */
  lemma FallingKeyInjective(a: string, b: string)
    ensures FallingKey(a) == FallingKey(b) <==> a == b
  {
    if FallingKey(a) == FallingKey(b) {
      assert a == FallingKey(a)[3..|FallingKey(a)| - 8];
      assert b == FallingKey(b)[3..|FallingKey(b)| - 8];
    }
  }

  /** A rising key is never a falling key, and neither is the start time key. */
  lemma KeysDisjoint(a: string, b: string)
    ensures RisingKey(a) != FallingKey(b)
    ensures RisingKey(a) != StartTimeKey && FallingKey(a) != StartTimeKey
    ensures RisingKey(a) != TriggerFallingKey && FallingKey(a) != TriggerRisingKey
  {
    var r, f := RisingKey(a), FallingKey(b);
    if |r| == |f| {
      assert r[|r| - 7] == '_';
      assert f[|f| - 7] == 'f';
    }
    assert RisingKey(a)[0] == 't';
    assert FallingKey(a)[0] == 't';
    var tf, tr := TriggerFallingKey, TriggerRisingKey;
    if |r| == |tf| {
      assert r[|r| - 7] == '_' && tf[|tf| - 7] == 'f';
    }
    var fa := FallingKey(a);
    if |fa| == |tr| {
      assert fa[|fa| - 7] == 'f' && tr[|tr| - 7] == '_';
    }
  }

  /** Only the input named "trigger" has keys that clash with the trigger series. */
  lemma TriggerKeyClash(name: string)
    ensures RisingKey(name) == TriggerRisingKey <==> name == "trigger"
    ensures FallingKey(name) == TriggerFallingKey <==> name == "trigger"
  {
    RisingKeyInjective(name, "trigger");
    FallingKeyInjective(name, "trigger");
  }

  /** Writing the two series of `name` adds its two keys and leaves the series of
      every other name where they were. */
  lemma WriteInput(before: Bundle, done: seq<string>, name: string, vr: Value, vf: Value)
    requires before.Keys == InputKeys(done)
    ensures var after := before[RisingKey(name) := vr][FallingKey(name) := vf];
            after.Keys == InputKeys(done + [name])
            && after[RisingKey(name)] == vr && after[FallingKey(name)] == vf
            && forall other :: other in done && other != name ==>
                 after[RisingKey(other)] == before[RisingKey(other)]
                 && after[FallingKey(other)] == before[FallingKey(other)]
  {
    var after := before[RisingKey(name) := vr][FallingKey(name) := vf];
    KeysDisjoint(name, name);
    forall other | other in done && other != name
      ensures after[RisingKey(other)] == before[RisingKey(other)]
      ensures after[FallingKey(other)] == before[FallingKey(other)]
    {
      KeysDisjoint(other, name);
      KeysDisjoint(name, other);
      RisingKeyInjective(other, name);
      FallingKeyInjective(other, name);
    }
    assert InputKeys(done + [name]) == InputKeys(done) + {RisingKey(name), FallingKey(name)};
  }

  /** Writing the trigger series and the start time leaves the series of every
      input not named "trigger" where they were. */
  lemma WriteTrigger(before: Bundle, names: seq<string>, vr: Value, vf: Value, st: Value)
    requires before.Keys == InputKeys(names)
    ensures var after := before[TriggerRisingKey := vr][TriggerFallingKey := vf][StartTimeKey := st];
            after.Keys == Keys(names)
            && after[TriggerRisingKey] == vr && after[TriggerFallingKey] == vf && after[StartTimeKey] == st
            && forall name :: name in names && name != "trigger" ==>
                 after[RisingKey(name)] == before[RisingKey(name)]
                 && after[FallingKey(name)] == before[FallingKey(name)]
  {
    var after := before[TriggerRisingKey := vr][TriggerFallingKey := vf][StartTimeKey := st];
    forall name | name in names && name != "trigger"
      ensures after[RisingKey(name)] == before[RisingKey(name)]
      ensures after[FallingKey(name)] == before[FallingKey(name)]
    {
      KeysDisjoint(name, name);
      TriggerKeyClash(name);
    }
  }
}
