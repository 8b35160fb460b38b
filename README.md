# OpenLapSim battery simulation comparison, modelled in Dafny

This project models the simulation comparison script of OpenLapSim
(`src/simComparison.py`). The script reads a recorded battery test log,
drives a stateful battery model through the recorded current profile, and
lines up the simulated outputs with the measurements, index by index, for
plotting.

Two parts are modelled:

- **The reader** (`read_battery_data`), starting from rows whose fields are
  already parsed to numbers. `SimComparison.ReadBatteryData` returns one
  time value (minutes times 60) and one measured `BatterySimOutput` per row,
  in file order. Voltage and current are copied. `tInternal` comes from the
  cathode temperature and `tAnode` from the anode temperature. `soc` and
  `rint` are zero.
- **The driver** (the `__main__` block). `SimComparison.RunComparison`
  builds a fresh model from the first row's anode temperature, initial state
  of charge 0.7 and one series cell. `SimComparison.Run` then makes the
  bootstrap call `(current[0], 0.1)`, followed by one call
  `((c[i] + c[i+1]) / 2, t[i+1] - t[i])` per consecutive pair of samples.
  It appends every output in order.

The battery model (`BatterySim.BatteryModel`) is an external collaborator
whose physics is not part of this model. It is a class with an internal
`state` and two given functions: `init` builds the first state from the
initial temperature, state of charge and cell count, and `advance` maps a
state, a current and a duration to the next state and the reported output.
A ghost field `log` records every `UpdateCurrent` call. The reference
function `BatterySim.Replay` gives the outputs that a sequence of calls
produces from a state. The driver is proved against it: `bm.log` grows by
exactly `Calls(times, currents)`, and the results are
`Replay(advance, initialState, Calls(times, currents))`.

Python floats are modelled as exact `real` numbers.

The script has no ordering check. An out-of-order pair passes its
negative interval to the model unchanged (`NegativeIntervalPassedThrough`).

The script has no guard against reusing a model. `Run` on a model that was
already used appends another schedule to its log and continues from the
model's current state. So `Run` has no precondition on `bm.log`.

## Model

| member | source | states |
|---|---|---|
| SimComparison.ReadBatteryData | src/simComparison.py:6-28 | one time value and one record per row, in row order; time is minutes times 60; the record copies voltage and current, takes tInternal from the cathode and tAnode from the anode temperature, and has soc and rint zero |
| SimComparison.CurrentValues | src/simComparison.py:102 | one current per measured record, in order: entry k is record k's current |
| SecondsKeepOrder | src/simComparison.py:22 | converting the time axis from minutes to seconds keeps its non-decreasing order, and the reverse holds too |
| SimComparison.Steps | src/simComparison.py:113-119 | one interior step per consecutive pair of samples: n - 1 steps for n samples, none for a single sample |
| SimComparison.StepsAt | src/simComparison.py:113-119 | interior step i passes the mean of currents i and i + 1 and the time from sample i to sample i + 1 |
| SimComparison.CallsSchedule | src/simComparison.py:111-121 | exactly one call per sample; call 0 is the bootstrap (current[0], 0.1); call i + 1 is (midpoint current, t[i+1] - t[i]) |
| BatterySim.BatteryModel.constructor | src/simComparison.py:104 | the model keeps the initial temperature, state of charge and cell count it is given, starts from the state init builds from them, and has an empty call log |
| BatterySim.BatteryModel.UpdateCurrent | src/simComparison.py:119 | one call is appended to the log; the state and the returned output are the model's step from the previous state |
| BatterySim.ReplayAppend | src/simComparison.py:119-121 | one more call extends the outputs by that call's response from the state left by the earlier calls |
| BatterySim.ReplayAt | src/simComparison.py:111-121 | output k is the response to call k from the state left by calls 0 to k - 1 |
| SimComparison.Run | src/simComparison.py:106-121 | the model's log grows by exactly the call schedule; the results are the model's outputs for those calls in order, one per sample; the model ends in the state those calls lead to |
| SimComparison.RunComparison | src/simComparison.py:100-121 | the time axis is the rows' times in seconds; the measured records are the rows mapped field by field (tInternal from the cathode, tAnode from the anode temperature, voltage and current copied, soc and rint zero); there is one simulated output per row; the outputs are those of a fresh model built from the first row's anode temperature, state of charge 0.7 and one cell, driven by the call schedule |
| SingleSampleBootstrapOnly | src/simComparison.py:111-113 | a single-sample input makes only the bootstrap call |
| ConstantCurrentStep | src/simComparison.py:116-118 | equal currents at both ends of an interval give that current as the step's drive current |
| NegativeIntervalPassedThrough | src/simComparison.py:114-119 | an out-of-order pair passes its negative interval to the model unchanged |
| BootstrapResponse | src/simComparison.py:111 | the first output is the model's answer to (current[0], 0.1) from its initial state |
| IntervalResponse | src/simComparison.py:113-121 | output k + 1 is the model's answer to the step for samples k and k + 1, from the state left by all earlier calls |
| DependsOnlyOnTimesCurrentsAndFirstAnode | src/simComparison.py:102-104 | two inputs with the same times, the same currents and the same first anode temperature give the same simulated outputs; nothing else in the data feeds the run |
| ThreeRowProfile | src/simComparison.py:100-121 | rows at 0, 1 and 2.5 minutes with currents 1.0, 2.0 and 1.5 give the time axis 0, 60, 150, the calls (1.0, 0.1), (1.5, 60), (1.75, 90), and a model started from the first anode temperature 25 |

The lemmas without a module in the first column are in module
`SimComparisonProperties`.

## Left out

- File opening and tab-separated parsing with `csv.DictReader`, and the `float` conversions with their failures (src/simComparison.py:11-18): this is I/O and library parsing. The model starts from already-parsed rows.
- The dead assignment `soc = current` (src/simComparison.py:19): it is never used.
- `plot_test_data` (src/simComparison.py:31-88): matplotlib rendering. Its channel extraction only feeds the plots.
- The command-line argument check, the usage message and `sys.exit(1)` (src/simComparison.py:92-98): process I/O.
- The debug `print` of the first current (src/simComparison.py:109): console output.
- BatterySim.BatteryModel: its physics and the definition of `BatterySimOutput` are not part of this model. The physics is a pair of given functions, and the output is a record with the six fields the script uses. Because `init` and `advance` are pure functions, the model assumes the battery model is deterministic: the same state and arguments always give the same next state and output. It also assumes each `update_current` returns a value of its own, not a shared mutable object that later calls would change. `Run`'s `simResults == Replay(...)` and `DependsOnlyOnTimesCurrentsAndFirstAnode` rest on both assumptions.
- Empty input: the script fails with `IndexError` when it reads the first record (src/simComparison.py:104; lines 109 and 111 also read index 0), before any model call. `Run`, `RunComparison` and `ExpectedSimulation` require at least one row instead of modelling that failure.
- IEEE-754 rounding: values are exact reals, so the midpoint, the difference and the scaling by 60 are exact.
