/** The edge recorder: the stored level of every input, two edge logs per input and
    two trigger logs. Device reads and the clock are parameters of its methods. */
module Recorder {
  import opened Edges

  class TimeStamper {
    var triggerPin: int
    var inputPins: seq<int>
    var inputNames: seq<string>
    var startTime: Instant
    /** Last level read from each input. */
    var state: seq<Level>
    var timestampsTriggerRising: seq<Elapsed>
    var timestampsTriggerFalling: seq<Elapsed>
    /** One rising and one falling log per input, in input order. */
    var timestampsRising: seq<seq<Elapsed>>
    var timestampsFalling: seq<seq<Elapsed>>

    /** One stored level and two logs for each input pin. */
    ghost predicate Valid()
      reads this
    {
      |state| == |inputPins| && |timestampsRising| == |inputPins| && |timestampsFalling| == |inputPins|
    }

    /** Configures the session: `baseline` is the level read from each input pin, in
        order, and `now` is the clock reading taken after those reads. */
    constructor (triggerPin: int, inputPins: seq<int>, inputNames: seq<string>,
                 baseline: seq<Level>, now: Instant)
      requires |baseline| == |inputPins|
      ensures Valid()
      ensures this.triggerPin == triggerPin && this.inputPins == inputPins
      ensures this.inputNames == inputNames && startTime == now
      ensures state == baseline
      ensures timestampsTriggerRising == [] && timestampsTriggerFalling == []
      ensures forall i :: 0 <= i < |inputPins| ==> timestampsRising[i] == [] && timestampsFalling[i] == []
    {
      this.triggerPin := triggerPin;
      this.inputPins := inputPins;
      var levels: seq<Level> := [];
      var i := 0;
      while i < |inputPins|
        invariant 0 <= i <= |inputPins|
        invariant levels == baseline[..i]
      {
        levels := levels + [baseline[i]];
        i := i + 1;
      }
      state := levels;
      this.inputNames := inputNames;
      startTime := now;
      timestampsTriggerRising := [];
      timestampsTriggerFalling := [];
      timestampsRising := seq(|inputPins|, _ => []);
      timestampsFalling := seq(|inputPins|, _ => []);
    }

    /** Records that the trigger output was set to `high` at clock reading `now`:
        exactly one entry, in the log that matches `high`, whatever was recorded before. */
    method Trigger(high: bool, now: Instant)
      modifies this
      ensures timestampsTriggerRising == if high then old(timestampsTriggerRising) + [now - startTime]
                                         else old(timestampsTriggerRising)
      ensures timestampsTriggerFalling == if high then old(timestampsTriggerFalling)
                                          else old(timestampsTriggerFalling) + [now - startTime]
      ensures state == old(state)
      ensures timestampsRising == old(timestampsRising) && timestampsFalling == old(timestampsFalling)
      ensures triggerPin == old(triggerPin) && inputPins == old(inputPins)
      ensures inputNames == old(inputNames) && startTime == old(startTime)
    {
      var timestamp := now - startTime;
      if high {
        timestampsTriggerRising := timestampsTriggerRising + [timestamp];
      } else {
        timestampsTriggerFalling := timestampsTriggerFalling + [timestamp];
      }
    }

    /** Stores the fresh `reading` of every input and, if any level changed, logs one
        entry stamped `now - startTime` for each changed input. Reports whether
        anything changed. */
    method Poll(reading: seq<Level>, now: Instant) returns (changed: bool)
      requires Valid()
      requires |reading| == |inputPins|
      modifies this
      ensures Valid()
      ensures state == reading
      ensures changed <==> Differs(old(state), reading)
      ensures !changed ==> timestampsRising == old(timestampsRising) && timestampsFalling == old(timestampsFalling)
      ensures changed ==> timestampsRising == Route(old(timestampsRising), old(state), reading, now - startTime, true)
      ensures changed ==> timestampsFalling == Route(old(timestampsFalling), old(state), reading, now - startTime, false)
      ensures timestampsTriggerRising == old(timestampsTriggerRising)
      ensures timestampsTriggerFalling == old(timestampsTriggerFalling)
      ensures triggerPin == old(triggerPin) && inputPins == old(inputPins)
      ensures inputNames == old(inputNames) && startTime == old(startTime)
    {
      var previousState, oldRising, oldFalling := state, timestampsRising, timestampsFalling;
      var n := |inputPins|;
      var levels := previousState;
      var i := 0;
      while i < n
        invariant 0 <= i <= n && |levels| == n
        invariant forall j :: 0 <= j < i ==> levels[j] == reading[j]
        invariant forall j :: i <= j < n ==> levels[j] == previousState[j]
      {
        levels := levels[i := reading[i]];
        i := i + 1;
      }
      assert levels == reading;
      DiffersIffUnequal(previousState, levels);
      var rising, falling := oldRising, oldFalling;
      if levels != previousState {
        changed := true;
        rising, falling := LogEdges(oldRising, oldFalling, previousState, levels, now - startTime);
      } else {
        changed := false;
      }
      state, timestampsRising, timestampsFalling := levels, rising, falling;
    }
  }

  /** The second pass of a poll that saw a change: walking the inputs in order, each
      input whose level moved from `previous` to `levels` gets the one timestamp `t`,
      in its rising log if the new level is high and in its falling log otherwise. */
  method LogEdges(rising: seq<seq<Elapsed>>, falling: seq<seq<Elapsed>>,
                  previous: seq<Level>, levels: seq<Level>, t: Elapsed)
    returns (newRising: seq<seq<Elapsed>>, newFalling: seq<seq<Elapsed>>)
    requires |previous| == |rising| && |levels| == |rising| && |falling| == |rising|
    ensures newRising == Route(rising, previous, levels, t, true)
    ensures newFalling == Route(falling, previous, levels, t, false)
  {
    newRising, newFalling := rising, falling;
    var i := 0;
    while i < |levels|
      invariant 0 <= i <= |levels| && |newRising| == |levels| && |newFalling| == |levels|
      invariant forall j :: 0 <= j < i ==> newRising[j] == Logged(rising[j], previous[j], levels[j], t, true)
      invariant forall j :: 0 <= j < i ==> newFalling[j] == Logged(falling[j], previous[j], levels[j], t, false)
      invariant forall j :: i <= j < |levels| ==> newRising[j] == rising[j] && newFalling[j] == falling[j]
    {
      if levels[i] != previous[i] {
        if levels[i] == High {
          newRising := newRising[i := newRising[i] + [t]];
        } else {
          newFalling := newFalling[i := newFalling[i] + [t]];
        }
      }
      i := i + 1;
    }
    RouteFromEntries(newRising, rising, previous, levels, t, true);
    RouteFromEntries(newFalling, falling, previous, levels, t, false);
  }
}
