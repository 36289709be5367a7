# Timestamper: edge recording and trigger bookkeeping

This project models, in Dafny, the timing bookkeeping of the timestamper application
(`timestamper.py`). The application drives a camera trigger line as a square wave.
It also polls digital TTL inputs and records when each line rises or falls.

- `TimeStamper` is the edge recorder. It keeps the last level read from each input
  pin, a rising log and a falling log per input, and a rising log and a falling log
  for the trigger. `Poll` compares a fresh reading with the stored levels. It stamps
  every changed input once, with one timestamp for the whole call, and overwrites
  the stored levels. `Trigger` records one trigger entry, whatever was recorded
  before it.
- `TimeStamperApp` holds the `polling` flag and the commanded trigger level. Each
  trigger tick flips the level and records the new value. Stopping always records
  one falling trigger entry and leaves the level as it is. The constructor stops
  once, so a falling entry exists before any session starts. After a change, the
  input counters are set to the lengths of the input logs. Saving builds a keyed
  bundle: `ts_<name>_rising` and `ts_<name>_falling` for each input name, plus
  `ts_trigger_rising`, `ts_trigger_falling` and `start_time`.

Device reads and clock readings are method parameters. A reading is a sequence of
integer levels, one per input pin; only a level of exactly 1 counts as high, as in
the source. A clock reading is an integer number of microseconds (the resolution of
Python's `datetime`). A log entry is the clock reading minus the start time.

Modules:
- `Edges` (`edges.dfy`): what one poll does to the logs, as functions (`Logged`,
  `Route`), plus lemmas about them.
- `Recorder` (`timestamper.dfy`): the `TimeStamper` class and its second-pass helper
  `LogEdges`.
- `Cadence` (`trigger_cadence.dfy`): trigger ticks and stops as functions on the
  commanded level and the trigger logs, plus the alternation and boundary lemmas.
- `Export` (`export.dfy`): bundle keys, `FirstIndex` (the `list.index` lookup) and
  lemmas on which keys can collide.
- `App` (`app.dfy`): the `TimeStamperApp` class and the input half of the bundle.

The code keeps no trigger count and has no trigger limit. `stop_polling` always
records a falling entry, so two stops in a row record two (`Cadence.StopTwice`).

## Model

| member | source | states |
|---|---|---|
| `Edges.Logged` | timestamper.py:119-124 | one input's log either stays the same or gains exactly the entry `t`. It grows iff the level changed and the new level's direction (1 is high) matches the log; an unchanged level never adds an entry |
| `Edges.DiffersIffUnequal` | timestamper.py:115 | for readings of equal length, "some index differs" is the same as the list inequality the source tests |
| `Edges.RouteUnchanged` | timestamper.py:128-130 | a poll whose reading equals the stored levels leaves every log as it was |
| `Edges.OneEntryPerChange` | timestamper.py:116-124 | for each input, its rising and falling logs together gain one entry if its level changed and none otherwise. Old entries stay as a prefix, every new entry is the single timestamp `t`, and the rising log grows iff the new level is 1 |
| `Edges.DiffersIffCounted` | timestamper.py:115-120 | the reading differs from the stored levels iff the number of changed inputs is positive |
| `Edges.RouteTotal` | timestamper.py:116-124 | across all inputs, a poll adds to the logs exactly as many entries as there are changed inputs |
| `Recorder.LogEdges` | timestamper.py:119-124 | the per-input loop produces exactly the routed rising and falling logs (`Route`) for the one timestamp `t` |
| `Recorder.TimeStamper.constructor` | timestamper.py:57-88 | the stored levels are the baseline reading, in pin order. There is one empty rising log and one empty falling log per input pin, both trigger logs are empty, and the start time is the clock reading taken after the baseline reads |
| `Recorder.TimeStamper.Trigger` | timestamper.py:96-106 | exactly one entry, `now - startTime`, is appended: to the trigger-rising log if the state is high, otherwise to the trigger-falling log. No comparison is made with earlier entries, and the input levels and input logs are unchanged |
| `Recorder.TimeStamper.Poll` | timestamper.py:108-130 | afterwards the stored levels equal the reading, with the same length. The result is true iff some input changed. If false, no log changes. If true, the input logs are the routed logs for the one timestamp `now - startTime`, and the trigger logs are untouched |
| `Cadence.TicksCount` | timestamper.py:237-240 | `k` ticks from level `l` flip the level iff `k` is odd. They add ceil(k/2) entries to the log of the opposite level and floor(k/2) to the other log, and keep all earlier entries as a prefix |
| `Cadence.Alternation` | timestamper.py:237-240 | over any run of ticks, the rising and falling entries added differ by at most one; an even run adds equally to both logs and restores the level |
| `Cadence.FirstSessionBoundary` | timestamper.py:269-279 | starting from construction (which stops once), `k` ticks and a stop leave two more falling than rising trigger entries if `k` is even and one more if `k` is odd. The first falling entry is the constructor's stop, the last is the final stop, and the level stays high after an odd run |
| `Cadence.StopTwice` | timestamper.py:269-279 | two stops in a row append two falling trigger entries and leave the level and the rising log as they were |
| `Export.FirstIndex` | timestamper.py:290 | the lookup returns a position inside the name list that holds the name |
| `Export.FirstIndexIsFirst` | timestamper.py:290 | no earlier position holds the name, so a duplicated name is saved with the logs of its first occurrence |
| `Export.RisingKeyInjective` | timestamper.py:291 | two names give the same rising key iff they are the same name |
| `Export.FallingKeyInjective` | timestamper.py:292 | two names give the same falling key iff they are the same name |
| `Export.KeysDisjoint` | timestamper.py:291-295 | a rising key is never a falling key, no input key is `start_time`, and no rising/falling input key equals the trigger key of the other direction |
| `Export.TriggerKeyClash` | timestamper.py:291-294 | an input's key equals `ts_trigger_rising` or `ts_trigger_falling` iff the input is named `trigger` |
| `Export.WriteInput` | timestamper.py:289-292 | writing one name's two series adds exactly its two keys and keeps the series already written for every other name |
| `Export.WriteTrigger` | timestamper.py:293-295 | writing the trigger series and the start time gives exactly the full key set and keeps the series of every input not named `trigger` |
| `App.InputSeries` | timestamper.py:288-292 | success iff every name's first position has a log. On failure, the reported name is one whose first position has no log. On success, the keys are exactly the two per name, each holding the logs at that name's first position |
| `App.TimeStamperApp.constructor` | timestamper.py:140-170 | a recorder is built with the default pins and names from the baseline reading. Polling is off, the level is low, and the counters are empty. The trigger logs hold just the one falling entry of the stop at line 170 |
| `App.TimeStamperApp.Trigger` | timestamper.py:237-240 | the commanded level and trigger logs advance by exactly one `Tick`: the level is negated and the new value recorded. Input state, counters and the polling flag are unchanged |
| `App.TimeStamperApp.Poll` | timestamper.py:242-249 | the recorder is polled as in `TimeStamper.Poll`. When a change was reported, each counter equals the length of the corresponding input log; otherwise the counters keep their old values |
| `App.TimeStamperApp.StartStopPolling` | timestamper.py:251-255 | the polling flag is toggled. Stopping a running session appends one falling trigger entry; starting records nothing |
| `App.TimeStamperApp.StartPolling` | timestamper.py:257-267 | polling is set on; the commanded level and the counters are unchanged, and no trigger entry is recorded |
| `App.TimeStamperApp.StopPolling` | timestamper.py:269-279 | polling is set off and exactly one falling trigger entry is appended. The commanded level is not reset and the input logs are unchanged |
| `App.TimeStamperApp.SaveTimestamps` | timestamper.py:287-295 | success iff every input name's first position has a log. The keys are exactly `ts_<name>_rising`/`ts_<name>_falling` per name, plus the two trigger keys and `start_time`. Each input key holds the logs at the name's first position, except for a name `trigger`, whose keys hold the trigger logs because these are written last |

## Left out

- The Qt interface is not modelled: windows, buttons, labels, the status bar, the stored window geometry, `init_gui`, `center_on_screen`, `update_trigger_period` and `closeEvent`. It is display code.
- The `QTimer` scheduling is not modelled, nor any interleaving of the poll and trigger timers. These are event-loop behaviour. Each tick is a method call with the clock reading as a parameter.
- Device calls that raise are not modelled. A failing read in `poll` would leave `state` partly overwritten and the exception would escape. In the model a reading always arrives whole.
- `set_trigger_timer_half_interval` and the period label are not modelled: they are floating-point interval arithmetic.
- The LabJack `u3` calls are not modelled, nor `DummyDevice` with its random reads and the inverted `dummy` flag. These are hardware and foreign calls. Readings arrive as parameters.
- The device release (`close`) is not modelled: it is a foreign call with no effect on the logs.
- `datetime.now()` becomes an integer clock-reading parameter, and the ISO 8601 text of `start_time` is kept as the clock reading itself.
- `Recorder.TimeStamper.Trigger`: log entries are exact integer microsecond differences, not the floating-point seconds of `total_seconds()`. Rounding is not modelled.
- `Recorder.TimeStamper.Poll`: the same integer-entry simplification applies. The `print` of each edge is left out (console output).
- `np.array`, `np.savez` and the file dialog of `save_timestamps` are not modelled: they are file I/O. Only the key/value shape of the bundle is modelled.
- `name_inputs` is not modelled: it writes an attribute that nothing reads.
