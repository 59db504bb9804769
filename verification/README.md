# Irrigation controller: actuation sequencing, modelled in Dafny

This project models the core of a small irrigation controller. The
controller reads a configuration document and resolves each plant's
solenoid valve and pump to a relay bound to a GPIO pin. It then waters the
plants one at a time: valve on, a one-second settle, pump on, a wait for the
plant's watering time, then pump off and valve off. The two "off" calls
sit in a `finally` block.

Every output call and every sleep is modelled as an event appended to a
trace. Which steps raise is a parameter, so one pure function covers every
way a watering can end. The configuration is plain Dafny maps and sequences.

Modules (one per source component):

- `Outcome` (`outcome.dfy`): `Option`, `Result` and `Status`. A raised Python
  exception becomes an `Err` or `Raised` value.
- `Relay` (`relay.dfy`): the relay class hierarchy, shown as a class tag.
  Also the active-low `on`/`off`/`toggle` commands and the two-level lookup
  `get_relay`.
- `WaterLevel` (`water_level.dfy`): `get_water_time`. It models the
  regular expression Python's `strptime` builds for `"%Ss"`, the full-length
  check, the `datetime` range check and the ten-second fallback.
- `Plant` (`plant.dfy`): the watering sequence under faults (`Plant.Water`,
  the body and `finally` of `water()`), `parse_obj`, the in-place rewriting
  of entries, the `Plants` constructor and its lazy iteration
  (`Plant.Iterate`, run to completion by `Plant.Collect`).
- `Scheduler` (`scheduler.dfy`): one pass of the main loop, i.e. water each
  yielded plant in turn. `Scheduler.PassOver` is the lazy loop that resolves
  one entry and waters its plant before resolving the next;
  `Scheduler.Pass` runs it from the configuration; `Scheduler.WaterAll`
  waters an already collected list of plants.

## Model

| member | source | states |
|---|---|---|
| `Relay.DeviceType` | plant.py:13-20 | Only the base relay class (relay.py:14) has no category tag; the valve class uses the `valves` table and the pump class the `pumps` table |
| `Relay.NewRelay` | relay.py:16-20 | Construction fails, with "device type unknown", exactly when the class has no category tag; otherwise the relay keeps the given pin and device id |
| `Relay.GetRelay` | relay.py:36-42 | Succeeds iff the id is a key of the category's table and its index is a position of `relays`; the relay is then bound to `relays[table[id]]` and keeps the id; it never fails with the constructor's error, because an untagged class fails at the table lookup first |
| `Relay.On` | relay.py:22-25 | One output call, on the relay's own pin, at the level that energises an active-low load |
| `Relay.Off` | relay.py:27-30 | One output call, on the relay's own pin, at the level that de-energises the load |
| `Relay.Toggle` | relay.py:32-34 | One output call, on the relay's own pin, at a level different from the one read |
| `Relay.ToggleSwapsOnAndOff` | relay.py:22-34 | Toggling a relay that reads as on gives exactly `off()`, and toggling one that reads as off gives exactly `on()` |
| `Relay.SameIdDifferentPins` | relay.py:40 | The category chooses the table, so one id can be a valve on one pin and a pump on another |
| `WaterLevel.MatchSecondsField` | plant.py:60 | The match of the seconds field ends within the string, and the value it reads is at most 61 |
| `WaterLevel.StrptimeSeconds` | plant.py:60-61 | Any seconds value that strptime accepts is below 60 |
| `WaterLevel.GetWaterTime` | plant.py:57-66 | The result is always below 60 and never an error; when strptime rejects the string, the result is the 10-second fallback |
| `WaterLevel.StrptimeAcceptsExactlyDenotations` | plant.py:60-61 | strptime reads N from a string iff the string is one digit, or two digits worth at most 59, followed by `s`, `S` or the long s; in both directions |
| `WaterLevel.GetWaterTimeSpec` | plant.py:57-66 | A string denoting N seconds gives N; every string that denotes nothing gives 10 |
| `WaterLevel.ZeroPaddedRoundTrip` | plant.py:57-66 | Every duration below a minute, written zero-padded as `NNs`, reads back as itself |
| `WaterLevel.WaterTimeExamples` | plant.py:57-66 | "05s" and "5s" give 5, "59S" gives 59, and "60s", "61s", "100s", "5ss", "abc", "" and the default "10s" all give 10 |
| `Plant.WaterTime` | plant.py:51 | A `water_level` that is a string gives its `get_water_time` duration; any other value makes strptime raise |
| `Plant.RunActions` | plant.py:47-51 | Steps run in order until one raises; the trace holds exactly the events of the steps that completed; the status is the first exception, or Done iff every step completed |
| `Plant.WaterWithoutFaults` | plant.py:44-54 | With no fault, a watering emits exactly: valve on, wait 1, pump on, wait d, pump off, valve off, and completes |
| `Plant.CleanupAlwaysRuns` | plant.py:47-54 | Unless a cleanup call itself fails, the trace ends with pump off then valve off, each issued exactly once, and the body's own exception (if any) propagates |
| `Plant.CleanupTrace` | plant.py:52-54 | The cleanup emits a prefix of pump off, valve off; it completes iff neither call fails; a failing pump off emits nothing and raises |
| `Plant.PumpOffFailureSkipsValveOff` | plant.py:52-54 | If pump off raises, valve off is never issued, and pump off's exception propagates, masking any earlier one |
| `Plant.CleanupMustSucceed` | plant.py:52-54 | A watering that completes had no failing cleanup call |
| `Plant.CleanupReversesStartup` | plant.py:47-54 | Relays are switched on in a prefix of the order valve, pump, and off in a prefix of the reverse order pump, valve; with no fault, both orders are complete |
| `Plant.PumpRunsOnlyWithValveOpen` | plant.py:44-54 | At every point of a watering, whatever fails, if the pump is switched on then so is the valve |
| `Plant.BothOffAfterWatering` | plant.py:52-54 | Unless a cleanup call fails, both the pump and the valve are last driven HIGH (off) when the watering returns or raises |
| `Plant.ParseObj` | plant.py:34-42 | Reads name, valve, water_level and pump; a missing name, valve or pump fails; a missing water_level becomes "10s" |
| `Plant.MissingWaterLevelMeansTenSeconds` | plant.py:40 | An entry without `water_level` is watered for 10 seconds |
| `Plant.ResolveField` | plant.py:80-81 | A device field resolves iff it is present, is a string, and that id resolves in the class's table; a missing field raises a key error naming it |
| `Plant.ResolveEntry` | plant.py:79-82 | An entry yields a plant iff both device ids resolve and it has a name; the plant's valve comes from `valves`, its pump from `pumps`, its name and `water_level` from the entry, with "10s" when `water_level` is absent; only the `valve` and `pump` fields of the entry are rewritten, into the resolved relays |
| `Plant.NewPlants` | plant.py:72-75 | Construction fails, with "no plants supplied", exactly when the `plants` key is missing; an empty list is accepted |
| `Plant.Collect` | plant.py:77-82 | At most one plant per entry; the iteration stops early iff fewer plants than entries are yielded; entries after the failing one are left untouched |
| `Plant.CollectYieldsResolvedPlants` | plant.py:79-82 | The i-th plant yielded is exactly the plant entry i resolves to, and entry i is left rewritten as its resolution leaves it |
| `Plant.CollectStopsAtFailure` | plant.py:77-82 | An early stop happens at an entry whose resolution raises exactly the stop error, with that entry rewritten as far as it got |
| `Plant.StopsAtFirstFailure` | plant.py:79-82 | If entry k is the first one that does not resolve, exactly k plants are yielded and entry k's error is raised |
| `Plant.YieldsOnePlantPerEntry` | plant.py:79-82 | When every entry resolves, each entry yields one plant, in order; the plant's valve pin is `relays[valves[id]]` and its pump pin `relays[pumps[id]]`, its name is the entry's and its `water_level` the entry's or "10s"; every other field of the entry is kept |
| `Plant.EmptyPlantsYieldNothing` | plant.py:72-79 | An empty `plants` list is accepted and the iteration yields nothing, without error |
| `Plant.RewrittenEntriesDoNotResolveAgain` | plant.py:80-81 | The iteration is not restartable: iterating the rewritten entries again fails at the first entry, whose valve is now a relay rather than an id |
| `Scheduler.WaterAll` | main.py:23-24 | Watering plants in turn completes iff every plant's watering completes |
| `Scheduler.PassOverIsConcatenation` | main.py:23-24 | The lazy loop's trace is the in-order concatenation of the yielded plants' waterings, stopping at the first one that raises; if all complete, the pass ends as the iteration does |
| `Scheduler.PassIsConcatenation` | main.py:21-24 | A pass over a configuration without `plants` raises before any actuation; otherwise it is that same in-order concatenation |
| `Scheduler.WateringsDoNotOverlap` | main.py:23-24 | When a plant's watering completes, its trace, ending with its pump off and valve off, comes entirely before the next plant's events |
| `Scheduler.BasilScenario` | plant.py:44-54 | With relays [1,2,3], valve v1 at 0 and pump p1 at 1, watering "Basil" at "05s" drives pin 1 LOW, waits 1, drives pin 2 LOW, waits 5, drives pin 2 HIGH, then pin 1 HIGH, and completes |

## Left out

- GPIO hardware, the `RPi` module, `GPIOPin` and `IOBoard` (relay.py:7-8, main.py:10, 19) are foreign code. A pin is an abstract integer id. A relay operation is the single output command it issues.
- `time.sleep` does not block. Each sleep is a `Wait` event carrying its duration in seconds.
- The infinite `while True`, the JSON file read and the config path (main.py:14-24) are I/O and a loop that never ends. One pass is modelled as a function of the configuration it reads. Re-reading the file each pass means two passes over the same file give the same trace. Here that holds by construction, because `Pass` is a function.
- The `print` diagnostics (relay.py:24, 28; plant.py:63-64) are not modelled.
- A step that raises emits no event: a failing output call is taken not to have changed its pin.
- Exception chaining (`__context__`) is not modelled. Only the exception that propagates is modelled: a cleanup exception replaces the body's.
- `Relay.Toggle`: the level read from the pin is a parameter, since the read is a foreign call.
- `Relay.GetRelay`: table indices are naturals. Python's negative-index wrap-around on `relays` is not modelled, so success means `0 <= index < |relays|`.
- `Relay.GetRelay`: an absent `valves` or `pumps` table is modelled as an empty one. An absent `relays` list is modelled as an empty list. The lookup fails either way and nothing is actuated. Python raises a `KeyError` for the missing key where the model reports an unknown id or an index out of range.
- `WaterLevel.GetWaterTime`: Python's `\d` also matches non-ASCII decimal digits (e.g. Arabic-Indic digits), which `int()` then reads. Only ASCII digits are modelled, so such strings get the 10-second fallback here.
- `Plant.ParseObj`: a `valve` or `pump` field that is not a resolved relay fails at parse time (`NotARelay`). Python would build the Plant and fail later, inside `water()`. The plant iteration always rewrites both fields first, so this case cannot arise there (`Plant.ResolveEntry` never reports it).
- `Plant.ResolveField`: a device id that is not a string raises `DeviceIdNotAKey`. This one error covers both Python's `KeyError` (numbers, null) and its `TypeError` (lists, objects).
- A `plants` value that is not a list, and list elements that are not objects, are not modelled. Entries are maps from field names to values.
- `Plant.NewPlants` checks only that the `plants` key is present, as the code does (plant.py:74); it does not demand a non-empty list, so an empty list is accepted.
- `Plant.CleanupAlwaysRuns` and `Plant.PumpOffFailureSkipsValveOff` keep the code's masking: a cleanup exception replaces the body's, and the two are not reported together.
