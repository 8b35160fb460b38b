/** Drives the battery model through a recorded test profile and lines its
    outputs up with the measured data: the reader that turns parsed rows
    into a time axis and measured records, the schedule of model calls, and
    the driver loop that makes those calls. */
module SimComparison {
  import opened BatterySim

  /** One already-parsed row of the tab-separated test log. */
  datatype Row = Row(
    timeMinutes: real,
    voltage: real,
    current: real,
    anodeTemp: real,
    cathodeTemp: real)

  const SecondsPerMinute: real := 60.0

  /** Nominal duration of the first model call, which has no interval before it. */
  const BootstrapDuration: real := 0.1

  /** Initial state of charge and series cell count the model is built with. */
  const InitialSoc: real := 0.7
  const SeriesCells: int := 1

  ghost predicate NonDecreasing(s: seq<real>)
  {
    forall i, j :: 0 <= i < j < |s| ==> s[i] <= s[j]
  }

  /** The time of every row, in minutes as recorded. */
  function MinutesOf(rows: seq<Row>): (r: seq<real>)
    ensures |r| == |rows|
  {
    seq(|rows|, k requires 0 <= k < |rows| => rows[k].timeMinutes)
  }

  /** The reader's time axis: every row's time, in seconds. */
  function TimeAxis(rows: seq<Row>): (r: seq<real>)
    ensures |r| == |rows|
  {
    seq(|rows|, k requires 0 <= k < |rows| => rows[k].timeMinutes * SecondsPerMinute)
  }

  /** The measured current of every record, in order. */
  function CurrentValues(results: seq<BatterySimOutput>): (r: seq<real>)
    ensures |r| == |results|
    ensures forall k :: 0 <= k < |results| ==> r[k] == results[k].current
  {
    seq(|results|, k requires 0 <= k < |results| => results[k].current)
  }

  /** Converts parsed rows, in order, into a time axis in seconds and one
      measured record per row; state of charge and resistance are not
      measured and are set to zero. */
  method ReadBatteryData(rows: seq<Row>) returns (timeSeconds: seq<real>, batteryData: seq<BatterySimOutput>)
    ensures |timeSeconds| == |rows| && |batteryData| == |rows|
    ensures forall k :: 0 <= k < |rows| ==> timeSeconds[k] == rows[k].timeMinutes * SecondsPerMinute
    ensures forall k :: 0 <= k < |rows| ==>
      batteryData[k].tInternal == rows[k].cathodeTemp && batteryData[k].tAnode == rows[k].anodeTemp &&
      batteryData[k].voltage == rows[k].voltage && batteryData[k].current == rows[k].current &&
      batteryData[k].soc == 0.0 && batteryData[k].rint == 0.0
  {
    timeSeconds := [];
    batteryData := [];
    for i := 0 to |rows|
      invariant |timeSeconds| == i && |batteryData| == i
      invariant forall k :: 0 <= k < i ==> timeSeconds[k] == rows[k].timeMinutes * SecondsPerMinute
      invariant forall k :: 0 <= k < i ==>
        batteryData[k].tInternal == rows[k].cathodeTemp && batteryData[k].tAnode == rows[k].anodeTemp &&
        batteryData[k].voltage == rows[k].voltage && batteryData[k].current == rows[k].current &&
        batteryData[k].soc == 0.0 && batteryData[k].rint == 0.0
    {
      var row := rows[i];
      timeSeconds := timeSeconds + [row.timeMinutes * SecondsPerMinute];
      var batteryOutput := BatterySimOutput(tInternal := row.cathodeTemp, tAnode := row.anodeTemp, soc := 0.0,
                                            voltage := row.voltage, current := row.current, rint := 0.0);
      batteryData := batteryData + [batteryOutput];
    }
  }

  /** The interior steps, one per consecutive pair of samples: the mean of
      the two currents over the time between them. */
  function Steps(times: seq<real>, currents: seq<real>): (r: seq<Call>)
    requires |times| == |currents|
    ensures |times| >= 1 ==> |r| == |times| - 1
    ensures |times| <= 1 ==> r == []
    decreases |times|
  {
    if |times| < 2 then []
    else [Call((currents[0] + currents[1]) / 2.0, times[1] - times[0])] + Steps(times[1..], currents[1..])
  }

  /** Every call the driver makes, in order: the bootstrap call on the first
      current, then the interior steps. */
  function Calls(times: seq<real>, currents: seq<real>): (r: seq<Call>)
    requires |times| == |currents| >= 1
  {
    [Call(currents[0], BootstrapDuration)] + Steps(times, currents)
  }

  /** Step `i` joins samples `i` and `i + 1`. */
  lemma {:induction false} StepsAt(times: seq<real>, currents: seq<real>, i: nat)
    requires |times| == |currents| && i + 1 < |times|
    ensures Steps(times, currents)[i] == Call((currents[i] + currents[i + 1]) / 2.0, times[i + 1] - times[i])
    decreases i
  {
    if i > 0 {
      StepsAt(times[1..], currents[1..], i - 1);
    }
  }

  /** The call schedule: exactly one call per sample; the first is the
      bootstrap call, and call `i + 1` passes the midpoint current and the
      width of interval `i`, unchecked. */
  lemma CallsSchedule(times: seq<real>, currents: seq<real>)
    requires |times| == |currents| >= 1
    ensures |Calls(times, currents)| == |times|
    ensures Calls(times, currents)[0] == Call(currents[0], BootstrapDuration)
    ensures forall i :: 0 <= i < |times| - 1 ==>
      Calls(times, currents)[i + 1] == Call((currents[i] + currents[i + 1]) / 2.0, times[i + 1] - times[i])
  {
    forall i | 0 <= i < |times| - 1
      ensures Calls(times, currents)[i + 1] == Call((currents[i] + currents[i + 1]) / 2.0, times[i + 1] - times[i])
    {
      StepsAt(times, currents, i);
    }
  }

  /** What the comparison run produces for `rows`: the outputs of a model
      built from the first row's anode temperature, driven by the calls the
      time axis and the measured currents give. */
  ghost function ExpectedSimulation<S>(rows: seq<Row>, init: (real, real, int) -> S,
                                       advance: (S, real, real) -> (S, BatterySimOutput)): (r: seq<BatterySimOutput>)
    requires |rows| >= 1
  {
    var currents := seq(|rows|, k requires 0 <= k < |rows| => rows[k].current);
    Replay(advance, init(rows[0].anodeTemp, InitialSoc, SeriesCells), Calls(TimeAxis(rows), currents))
  }

  /** The driver loop: one bootstrap call, then one call per consecutive pair
      of samples, collecting every output in order. */
  method Run<S>(times: seq<real>, currents: seq<real>, bm: BatteryModel<S>) returns (simResults: seq<BatterySimOutput>)
    requires |times| == |currents| >= 1
    modifies bm
    ensures |simResults| == |times|
    ensures bm.log == old(bm.log) + Calls(times, currents)
    ensures simResults == Replay(bm.advance, old(bm.state), Calls(times, currents))
    ensures bm.state == FinalState(bm.advance, old(bm.state), Calls(times, currents))
  {
    ghost var start := bm.state;
    ghost var calls := [Call(currents[0], BootstrapDuration)];
    var first := bm.UpdateCurrent(currents[0], BootstrapDuration);
    simResults := [first];
    for i := 0 to |times| - 1
      invariant |calls| == i + 1 && calls[0] == Call(currents[0], BootstrapDuration)
      invariant forall k :: 0 <= k < i ==>
        calls[k + 1] == Call((currents[k] + currents[k + 1]) / 2.0, times[k + 1] - times[k])
      invariant bm.log == old(bm.log) + calls
      invariant simResults == Replay(bm.advance, start, calls)
      invariant bm.state == FinalState(bm.advance, start, calls)
    {
      var tStart := times[i];
      var tEnd := times[i + 1];
      var currentStart := currents[i];
      var currentEnd := currents[i + 1];
      var avgCurrent := (currentStart + currentEnd) / 2.0;
      ReplayAppend(bm.advance, start, calls, Call(avgCurrent, tEnd - tStart));
      var res := bm.UpdateCurrent(avgCurrent, tEnd - tStart);
      calls := calls + [Call(avgCurrent, tEnd - tStart)];
      simResults := simResults + [res];
    }
    CallsSchedule(times, currents);
    forall k | 0 < k < |calls| ensures calls[k] == Calls(times, currents)[k] {
      var j := k - 1;
      assert calls[j + 1] == Call((currents[j] + currents[j + 1]) / 2.0, times[j + 1] - times[j]);
    }
    assert calls == Calls(times, currents);
  }

  /** The whole comparison run on parsed rows: read them, build a fresh
      model from the first row's anode temperature, run the driver, and
      return the time axis, the measured records and the simulated ones. */
  method RunComparison<S>(rows: seq<Row>, init: (real, real, int) -> S,
                          advance: (S, real, real) -> (S, BatterySimOutput))
    returns (times: seq<real>, testResults: seq<BatterySimOutput>, simResults: seq<BatterySimOutput>)
    requires |rows| >= 1
    ensures |times| == |rows| && |testResults| == |rows| && |simResults| == |rows|
    ensures times == TimeAxis(rows)
    ensures forall k :: 0 <= k < |rows| ==>
      testResults[k].tInternal == rows[k].cathodeTemp && testResults[k].tAnode == rows[k].anodeTemp &&
      testResults[k].voltage == rows[k].voltage && testResults[k].current == rows[k].current &&
      testResults[k].soc == 0.0 && testResults[k].rint == 0.0
    ensures simResults == ExpectedSimulation(rows, init, advance)
  {
    times, testResults := ReadBatteryData(rows);
    var currentValues := CurrentValues(testResults);
    var bm := new BatteryModel(testResults[0].tAnode, InitialSoc, SeriesCells, init, advance);
    simResults := Run(times, currentValues, bm);
    assert times == TimeAxis(rows);
    assert currentValues == seq(|rows|, k requires 0 <= k < |rows| => rows[k].current);
  }
}
