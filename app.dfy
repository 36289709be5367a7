/** The application around the recorder: a polling flag, the commanded trigger level,
    the input edge counters and the saved bundle. Timers, widgets and the file
    dialog are not part of this model; the clock readings they would supply are
    parameters. */
module App {
  import opened Edges
  import opened Cadence
  import opened Export
  import opened Recorder

  /** The recorder configuration the application always uses. */
  const TriggerPin: int := 0
  const DigitalInputPins: seq<int> := [6]
  const DigitalInputNames: seq<string> := ["sound"]

  /** Outcome of building the bundle: the bundle, or the input name whose first
      position is past the end of the logs (indexing the log list raises, and
      nothing is saved). */
  datatype SaveResult = Saved(data: Bundle) | IndexError(name: string)

  /** Number of entries in each log. */
  function Lengths(logs: seq<seq<Elapsed>>): seq<nat>
  {
    seq(|logs|, i requires 0 <= i < |logs| => |logs[i]|)
  }

  /** The input part of the bundle, name by name in order: each name's two series are
      the logs at the first position holding that name. Stops at the first name whose
      first position has no log. */
  method InputSeries(names: seq<string>, rising: seq<seq<Elapsed>>, falling: seq<seq<Elapsed>>)
    returns (r: SaveResult)
    requires |falling| == |rising|
    ensures r.Saved? <==> forall name :: name in names ==> FirstIndex(names, name) < |rising|
    ensures r.IndexError? ==> (r.name in names && FirstIndex(names, r.name) >= |rising|)
    ensures r.Saved? ==> r.data.Keys == InputKeys(names)
    ensures r.Saved? ==> forall name :: name in names ==>
      FirstIndex(names, name) < |rising|
      && r.data[RisingKey(name)] == Series(rising[FirstIndex(names, name)])
      && r.data[FallingKey(name)] == Series(falling[FirstIndex(names, name)])
  {
    var data: Bundle := map[];
    var j := 0;
    while j < |names|
      invariant 0 <= j <= |names|
      invariant data.Keys == InputKeys(names[..j])
      invariant forall name :: name in names[..j] ==>
        FirstIndex(names, name) < |rising|
        && data[RisingKey(name)] == Series(rising[FirstIndex(names, name)])
        && data[FallingKey(name)] == Series(falling[FirstIndex(names, name)])
    {
      var name := names[j];
      var inputInd := FirstIndex(names, name);
      if inputInd >= |rising| {
        return IndexError(name);
      }
      WriteInput(data, names[..j], name, Series(rising[inputInd]), Series(falling[inputInd]));
      data := data[RisingKey(name) := Series(rising[inputInd])][FallingKey(name) := Series(falling[inputInd])];
      assert names[..j + 1] == names[..j] + [name];
      j := j + 1;
    }
    assert names[..j] == names;
    r := Saved(data);
  }

  class TimeStamperApp {
    const timestamper: TimeStamper
    const startTime: Instant
    var polling: bool
    var triggerState: bool
    var counterRising: seq<nat>
    var counterFalling: seq<nat>

    ghost predicate Valid()
      reads this, timestamper
    {
      timestamper.Valid() && startTime == timestamper.startTime
    }

    /** The commanded trigger level together with the recorder's trigger logs. */
    ghost function TriggerView(): TriggerLog
      reads this, timestamper
    {
      TriggerLog(triggerState, timestamper.timestampsTriggerRising, timestamper.timestampsTriggerFalling)
    }

    /** Builds the recorder with the default pins from the `baseline` reading taken at
        clock reading `now`, then stops, as a stop at clock reading `stopNow` would:
        one falling trigger entry exists before anything was started. */
    constructor (baseline: seq<Level>, now: Instant, stopNow: Instant)
      requires |baseline| == |DigitalInputPins|
      ensures Valid() && fresh(timestamper)
      ensures !polling && counterRising == [] && counterFalling == []
      ensures TriggerView() == AfterConstruction(stopNow - now)
      ensures timestamper.state == baseline && startTime == now
      ensures timestamper.inputPins == DigitalInputPins && timestamper.inputNames == DigitalInputNames
      ensures timestamper.triggerPin == TriggerPin
      ensures forall i :: 0 <= i < |DigitalInputPins| ==>
        timestamper.timestampsRising[i] == [] && timestamper.timestampsFalling[i] == []
    {
      polling := false;
      triggerState := false;
      timestamper := new TimeStamper(TriggerPin, DigitalInputPins, DigitalInputNames, baseline, now);
      startTime := now;
      counterRising := [];
      counterFalling := [];
      new;
      StopPolling(stopNow);
    }

    /** One tick of the trigger timer at clock reading `now`: flip the commanded level
        and record the new one. Inputs, counters and the polling flag are untouched. */
    method Trigger(now: Instant)
      requires Valid()
      modifies this, timestamper
      ensures Valid()
      ensures TriggerView() == Tick(old(TriggerView()), now - startTime)
      ensures polling == old(polling)
      ensures counterRising == old(counterRising) && counterFalling == old(counterFalling)
      ensures timestamper.state == old(timestamper.state)
      ensures timestamper.timestampsRising == old(timestamper.timestampsRising)
      ensures timestamper.timestampsFalling == old(timestamper.timestampsFalling)
      ensures timestamper.inputPins == old(timestamper.inputPins)
      ensures timestamper.inputNames == old(timestamper.inputNames)
      ensures timestamper.triggerPin == old(timestamper.triggerPin)
    {
      triggerState := !triggerState;
      timestamper.Trigger(triggerState, now);
    }

    /** One tick of the polling timer with the device `reading` at clock reading `now`.
        When the recorder reports a change, the counters become the lengths of the
        input logs; otherwise they keep their old values. */
    method Poll(reading: seq<Level>, now: Instant)
      requires Valid()
      requires |reading| == |timestamper.inputPins|
      modifies this, timestamper
      ensures Valid()
      ensures timestamper.state == reading
      ensures var changed := Differs(old(timestamper.state), reading);
        var t := now - startTime;
        && timestamper.timestampsRising
           == (if changed then Route(old(timestamper.timestampsRising), old(timestamper.state), reading, t, true)
               else old(timestamper.timestampsRising))
        && timestamper.timestampsFalling
           == (if changed then Route(old(timestamper.timestampsFalling), old(timestamper.state), reading, t, false)
               else old(timestamper.timestampsFalling))
      ensures Differs(old(timestamper.state), reading) ==>
        |counterRising| == |timestamper.inputPins| && |counterFalling| == |timestamper.inputPins|
        && (forall i :: 0 <= i < |counterRising| ==> counterRising[i] == |timestamper.timestampsRising[i]|)
        && (forall i :: 0 <= i < |counterFalling| ==> counterFalling[i] == |timestamper.timestampsFalling[i]|)
      ensures !Differs(old(timestamper.state), reading) ==>
        counterRising == old(counterRising) && counterFalling == old(counterFalling)
      ensures TriggerView() == old(TriggerView()) && polling == old(polling)
      ensures timestamper.inputPins == old(timestamper.inputPins)
      ensures timestamper.inputNames == old(timestamper.inputNames)
      ensures timestamper.triggerPin == old(timestamper.triggerPin)
    {
      var changeStatus := timestamper.Poll(reading, now);
      if changeStatus {
        var rising, falling := timestamper.timestampsRising, timestamper.timestampsFalling;
        counterRising := Lengths(rising);
        counterFalling := Lengths(falling);
        assert forall i :: 0 <= i < |counterRising| ==> counterRising[i] == |rising[i]|;
        assert forall i :: 0 <= i < |counterFalling| ==> counterFalling[i] == |falling[i]|;
      }
    }

    /** The start/stop button: starts when stopped, stops (at clock reading `now`)
        when running. */
    method StartStopPolling(now: Instant)
      requires Valid()
      modifies this, timestamper
      ensures Valid()
      ensures polling == !old(polling)
      ensures TriggerView() == if old(polling) then Stop(old(TriggerView()), now - startTime)
                               else old(TriggerView())
      ensures counterRising == old(counterRising) && counterFalling == old(counterFalling)
      ensures timestamper.state == old(timestamper.state)
      ensures timestamper.timestampsRising == old(timestamper.timestampsRising)
      ensures timestamper.timestampsFalling == old(timestamper.timestampsFalling)
      ensures timestamper.inputPins == old(timestamper.inputPins)
      ensures timestamper.inputNames == old(timestamper.inputNames)
      ensures timestamper.triggerPin == old(timestamper.triggerPin)
    {
      if !polling {
        StartPolling();
      } else {
        StopPolling(now);
      }
    }

    /** Starts a session: sets the flag and records no trigger entry; the commanded
        level is whatever the previous session left. */
    method StartPolling()
      modifies this
      ensures polling
      ensures triggerState == old(triggerState)
      ensures counterRising == old(counterRising) && counterFalling == old(counterFalling)
    {
      polling := true;
    }

    /** Stops a session at clock reading `now`: clears the flag and always records one
        falling trigger entry, without resetting the commanded level. */
    method StopPolling(now: Instant)
      requires Valid()
      modifies this, timestamper
      ensures Valid()
      ensures !polling
      ensures TriggerView() == Stop(old(TriggerView()), now - startTime)
      ensures counterRising == old(counterRising) && counterFalling == old(counterFalling)
      ensures timestamper.state == old(timestamper.state)
      ensures timestamper.timestampsRising == old(timestamper.timestampsRising)
      ensures timestamper.timestampsFalling == old(timestamper.timestampsFalling)
      ensures timestamper.inputPins == old(timestamper.inputPins)
      ensures timestamper.inputNames == old(timestamper.inputNames)
      ensures timestamper.triggerPin == old(timestamper.triggerPin)
    {
      polling := false;
      timestamper.Trigger(false, now);
    }

    /** Builds the bundle to save. Each input name contributes its rising and falling
        series, taken from the first position holding that name; the trigger series
        and the start time are written last, so they win over an input named
        "trigger". Fails if some name's first position has no log. */
    method SaveTimestamps() returns (r: SaveResult)
      requires Valid()
      ensures r.Saved? <==> forall name :: name in timestamper.inputNames ==>
        FirstIndex(timestamper.inputNames, name) < |timestamper.inputPins|
      ensures r.IndexError? ==>
        (r.name in timestamper.inputNames && FirstIndex(timestamper.inputNames, r.name) >= |timestamper.inputPins|)
      ensures r.Saved? ==> r.data.Keys == Keys(timestamper.inputNames)
      ensures r.Saved? ==> forall name :: name in timestamper.inputNames && name != "trigger" ==>
        FirstIndex(timestamper.inputNames, name) < |timestamper.inputPins|
        && r.data[RisingKey(name)]
           == Series(timestamper.timestampsRising[FirstIndex(timestamper.inputNames, name)])
        && r.data[FallingKey(name)]
           == Series(timestamper.timestampsFalling[FirstIndex(timestamper.inputNames, name)])
      ensures r.Saved? ==>
        TriggerRisingKey in r.data && r.data[TriggerRisingKey] == Series(timestamper.timestampsTriggerRising)
        && TriggerFallingKey in r.data && r.data[TriggerFallingKey] == Series(timestamper.timestampsTriggerFalling)
        && StartTimeKey in r.data && r.data[StartTimeKey] == StartTime(startTime)
    {
      var inputs := InputSeries(timestamper.inputNames, timestamper.timestampsRising, timestamper.timestampsFalling);
      if inputs.IndexError? {
        return inputs;
      }
      var data := inputs.data;
      var names := timestamper.inputNames;
      var triggerRising := Series(timestamper.timestampsTriggerRising);
      var triggerFalling := Series(timestamper.timestampsTriggerFalling);
      WriteTrigger(data, names, triggerRising, triggerFalling, StartTime(startTime));
      data := data[TriggerRisingKey := triggerRising][TriggerFallingKey := triggerFalling][StartTimeKey := StartTime(startTime)];
      r := Saved(data);
    }
  }
}
