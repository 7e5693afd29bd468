# dbus-dcp-tank: depth sensor and level publisher

`dbus-dcp-tank` reads a liquid-level sensor over Modbus-RTU. It republishes the
fill level of one tank as a Victron tank service on D-Bus. This project models
and proves the part of `dbus-dcp-tank/dbus-dcp-tank.py` that holds logic:

- **`DepthSensor` module** (`depth_sensor.dfy`), for the `DepthSensor` class:
  - the two calibration tables that turn the unit register and the scaling
    register into a unit name and a scaling factor, each with its fallback;
  - start-up calibration (`Calibrate`, `NewSensor`), where the scaling factor
    exists only if the connect, the unit read and the scaling read all succeed.
    It is an `Option<real>`, because the attribute is otherwise never assigned;
  - `get_level` as `GetLevel`. It maps "read failed | register value" to one of
    three results: `NoData` (the bare `None` returned for the sentinel 65534),
    `Reading(pct, rem)` (the pair returned with error flag False), or
    `ReadError` (the triple `(-1, -1, True)`). All arithmetic is exact `real`.
- **`LevelService` module** (`level_service.dfy`), for `DbusMqttLevelService`:
  - a `Service` class whose fields stand for `last`, `/Level`, `/Remaining` and
    `/UpdateIndex`;
  - a `Tick` method for `_update`, proved equal to the specification function
    `Step`;
  - `HandleChangedValue` for `_handlechangedvalue`, and `ExternalWrite` for
    a write from another process, which the bus library stores once the
    callback accepts it;
  - lemmas about single ticks and about runs of ticks (`Run`).

`Wrappers` (`wrappers.dfy`) holds the `Option` type.

Behaviour of the code that the model keeps as written:

- On a failed read, `_update` returns before it advances `/UpdateIndex`
  (dbus-dcp-tank/dbus-dcp-tank.py:249-250), so the index does not move on such
  a tick.
- A failed connect, unit read or scaling read leaves `scaling_factor`
  unassigned. There is no default.
- `WorkedExample`: with factor code 2, raw 100 gives 20 % and 4 m³, and raw 500
  gives 100 % and 0 m³.
- `/UpdateIndex` advances as the code writes it: add one, and reset to 0 above
  255. This equals `(i + 1) % 256` for every `i` in −1..255, in particular for
  every `i` in 0..255. Values outside that range can come from an accepted
  external write (`ExternalWrite`).

## Model

| member | source | states |
|---|---|---|
| DepthSensor.UnitName | dbus-dcp-tank/dbus-dcp-tank.py:134-150 | codes 0x0000–0x000A give their table name; every other code, and only those, gives "Unknown Unit" |
| DepthSensor.UnitNameRoundTrip | dbus-dcp-tank/dbus-dcp-tank.py:135-147 | no two unit codes share a name: the reverse lookup of a known code's name returns that code |
| DepthSensor.UnknownUnitHasNoCode | dbus-dcp-tank/dbus-dcp-tank.py:150 | the fallback name "Unknown Unit" is not the name of any code in the table |
| DepthSensor.ScalingFactor | dbus-dcp-tank/dbus-dcp-tank.py:155-157 | code n in 0..3 selects 10^-n (factor × 10^n = 1); any other code selects 1; the factor is always in (0, 1] |
| DepthSensor.ScalingCodes | dbus-dcp-tank/dbus-dcp-tank.py:156-157 | codes 0, 1, 2, 3 decode to 1, 0.1, 0.01, 0.001 |
| DepthSensor.Calibrate | dbus-dcp-tank/dbus-dcp-tank.py:129-159 | the unit is known iff connect and unit read succeed; the scaling factor exists iff connect, unit read and scaling read all succeed, and is then the decoded scaling code |
| DepthSensor.NewSensor | dbus-dcp-tank/dbus-dcp-tank.py:124-159 | a new sensor has depth 5.0 and area 1.0, and the calibrated (possibly absent) scaling factor |
| DepthSensor.CalibratedFactorInTable | dbus-dcp-tank/dbus-dcp-tank.py:153-157 | a calibrated scaling factor is one of 1, 0.1, 0.01, 0.001 |
| DepthSensor.GetLevel | dbus-dcp-tank/dbus-dcp-tank.py:161-190 | a failed read gives ReadError and only that; raw 65534 gives NoData, never the error; otherwise pct × depth = raw × sf × 100 and rem = area × (depth − raw × sf) |
| DepthSensor.RemainingFromPercent | dbus-dcp-tank/dbus-dcp-tank.py:169-179 | every reading satisfies rem = area × depth × (1 − pct / 100) |
| DepthSensor.LevelMonotone | dbus-dcp-tank/dbus-dcp-tank.py:169-176 | with positive factor, depth and area, pct is non-decreasing and rem non-increasing in the raw value |
| DepthSensor.EmptyTank | dbus-dcp-tank/dbus-dcp-tank.py:169-176 | on a calibrated sensor, raw 0 gives 0 % and the full 5.0 m³ |
| DepthSensor.WorkedExample | dbus-dcp-tank/dbus-dcp-tank.py:169-186 | with factor code 2: raw 100 gives 20 % and 4 m³; raw 500 gives 100 % and 0 m³ |
| DepthSensor.DefaultReadingOnLine | dbus-dcp-tank/dbus-dcp-tank.py:125-176 | every reading of a sensor built at start-up has pct ≥ 0 and rem = 5 × (1 − pct / 100) |
| LevelService.NextIndex | dbus-dcp-tank/dbus-dcp-tank.py:271-274 | an index below 255 (negative ones included) advances by one; an index of 255 or more resets to 0 |
| LevelService.NextIndexIsModular | dbus-dcp-tank/dbus-dcp-tank.py:271-274 | for an index in −1..255 (so every index in 0..255) the advance is (i + 1) mod 256 and lands in 0..255; 255 wraps to 0 |
| LevelService.NextIndexInRange | dbus-dcp-tank/dbus-dcp-tank.py:271-274 | one advance lands in 0..255 exactly when the index was at least −1 |
| LevelService.Unpack | dbus-dcp-tank/dbus-dcp-tank.py:248-250 | the unpacked error flag is set iff the read failed, and the values are then (−1, −1); a reading unpacks to (pct, rem, False) |
| LevelService.Step | dbus-dcp-tank/dbus-dcp-tank.py:246-275 | an error tick changes nothing (Level, Remaining, last, UpdateIndex); a successful tick sets last to level + remaining, writes Level/Remaining iff that sum differs from the old last and otherwise keeps them, and advances UpdateIndex |
| LevelService.Service.constructor | dbus-dcp-tank/dbus-dcp-tank.py:205-242 | the service starts with last = −2 (line 208), and with Level and Remaining None and UpdateIndex 0, the initial values that `add_path` registers (lines 235-242) from `paths_dbus` (lines 310-314) |
| LevelService.Service.Tick | dbus-dcp-tank/dbus-dcp-tank.py:246-275 | `_update` reads the sensor and changes the service exactly as Step says; it returns True on every path |
| LevelService.Service.HandleChangedValue | dbus-dcp-tank/dbus-dcp-tank.py:277-279 | every external write is accepted (returns True) and the callback itself changes nothing |
| LevelService.Written | dbus-dcp-tank/dbus-dcp-tank.py:235-242 | an accepted write to a writeable path replaces that path's value only; `last` and the other paths keep theirs |
| LevelService.Service.ExternalWrite | dbus-dcp-tank/dbus-dcp-tank.py:235-242 | a write from another process asks `_handlechangedvalue` and, since it always accepts, the service then holds the state Written gives |
| LevelService.ExternalWriteBreaksCoherence | dbus-dcp-tank/dbus-dcp-tank.py:251-267 | after 0 % / 5 m³ is published, an external write of 99 to Level makes the state incoherent, and a tick repeating the reading leaves 99 published, because only the sum is compared with last |
| LevelService.RepeatedReadingSuppressed | dbus-dcp-tank/dbus-dcp-tank.py:251-267 | a reading repeated on the next tick writes nothing more: that tick only advances UpdateIndex |
| LevelService.RunIndex | dbus-dcp-tank/dbus-dcp-tank.py:248-274 | over any run of ticks from an index in 0..255, the final index is the start plus the number of successful ticks, mod 256 |
| LevelService.StepPublishesReading | dbus-dcp-tank/dbus-dcp-tank.py:251-267 | with the fixed geometry, distinct readings have distinct sums, so from a coherent state (no external write since the last publish) a successful tick always leaves that reading as Level/Remaining, even from the initial last = −2 |
| LevelService.RunCoherent | dbus-dcp-tank/dbus-dcp-tank.py:246-267 | over any run of fixed-geometry readings, last stays the sum of the published pair (or −2 with nothing published) |
| LevelService.StepPublishesSensorReading | dbus-dcp-tank/dbus-dcp-tank.py:161-186 | from a coherent state, a successful step on a reading of a sensor built at start-up publishes the percentage and volume that get_level computed (unrounded) |
| LevelService.InitialCoherent | dbus-dcp-tank/dbus-dcp-tank.py:208 | the initial state (last = −2, nothing published) is coherent |

## Left out

- Modbus serial I/O (`ModbusClient`, `connect`, `read_holding_registers`) is not modelled. Each read is an input value: "read failed" or the 16-bit register value.
- D-Bus and Victron service creation, path registration, the static identity paths, the bus selection (`SystemBus`/`SessionBus`), the GLib timer and the main loop are not modelled. `Tick` stands for one timer callback.
- Loading config.ini, sleeping and exiting when it is missing, choosing the log level, and parsing the tank type, capacity and standard are not modelled. All of it is file and environment handling.
- The start-up wait loop in `main` is not modelled. It never runs: `level` starts at −999 and the loop tests `== -1`.
- The text formatters `_litres`, `_percent`, `_n` are not modelled (float-to-string formatting).
- LevelService.Step, LevelService.Service.Tick and the lemmas about them (StepPublishesReading, StepPublishesSensorReading, RunCoherent, RepeatedReadingSuppressed): publish the unrounded reals, not `round(level, 1)` and `round(remaining, 3)` (dbus-dcp-tank/dbus-dcp-tank.py:254-258); `last` keeps the unrounded sum, as at line 267. Float rounding is not modelled; all arithmetic is exact `real`, not IEEE double.
- LevelService.Service.Tick: requires that the reading is not the sentinel. On raw 65534, `_update` unpacks the bare `None` that `get_level` returns and raises a TypeError. The model adds no handling for that case.
- DepthSensor.GetLevel: requires a scaling factor whenever a successful non-sentinel read would use it. If calibration failed, the source raises an AttributeError there. It also requires a non-zero depth for the division (always 5.0 in the source).
- The bus library that stores accepted external writes is not part of this model. `ExternalWrite` stands for it: it stores the value once `HandleChangedValue` accepts. `NextIndex` is defined for every integer, so any integer index such a write leaves is covered.
- LevelService.Service.ExternalWrite: only integer writes to `/UpdateIndex` and real-or-None writes to `/Level` and `/Remaining` are modelled. `_handlechangedvalue` accepts a value of any type. A None or a string written to `/UpdateIndex` makes `self._dbusservice["/UpdateIndex"] + 1` (dbus-dcp-tank/dbus-dcp-tank.py:271) raise on the next tick. A non-integer number such as 3.5 leaves a non-integer index.
- LevelService.StepPublishesReading: holds only from a coherent state, so only for runs without an external write to `/Level` or `/Remaining`. Such a write leaves `last` alone, and a later tick whose sum equals `last` keeps the written value published (`ExternalWriteBreaksCoherence`).
- LevelService.RunCoherent: covers runs of ticks only. Between ticks an external write to `/Level` or `/Remaining` can break coherence, as `ExternalWriteBreaksCoherence` shows.
- LevelService.StepPublishesSensorReading: requires a coherent starting state, for the same reason as StepPublishesReading.
- Log messages are not modelled.
