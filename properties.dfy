/** Properties of the comparison run that relate several calls or several
    inputs: the edge cases of the call schedule, what each simulated output
    answers, what the run depends on, and a worked three-row profile. */
module SimComparisonProperties {
  import opened BatterySim
  import opened SimComparison

  /** With a single sample only the bootstrap call is made. */
  lemma SingleSampleBootstrapOnly(times: seq<real>, currents: seq<real>)
    requires |times| == |currents| == 1
    ensures Calls(times, currents) == [Call(currents[0], BootstrapDuration)]
  {
  }

  /** Equal currents at both ends of an interval drive the model at that current. */
  lemma ConstantCurrentStep(times: seq<real>, currents: seq<real>, i: nat)
    requires |times| == |currents| && i + 1 < |times|
    requires currents[i] == currents[i + 1]
    ensures Calls(times, currents)[i + 1].current == currents[i]
  {
    CallsSchedule(times, currents);
  }

  /** Samples out of time order are not rejected, sorted or clamped: the
      negative interval is passed to the model as it is. */
  lemma NegativeIntervalPassedThrough(times: seq<real>, currents: seq<real>, i: nat)
    requires |times| == |currents| && i + 1 < |times|
    requires times[i + 1] < times[i]
    ensures Calls(times, currents)[i + 1].duration == times[i + 1] - times[i] < 0.0
  {
    CallsSchedule(times, currents);
  }

  /** The first output is the model's answer to the bootstrap call from its initial state. */
  lemma BootstrapResponse<S>(advance: (S, real, real) -> (S, BatterySimOutput), s: S,
                             times: seq<real>, currents: seq<real>)
    requires |times| == |currents| >= 1
    ensures Replay(advance, s, Calls(times, currents))[0] == advance(s, currents[0], BootstrapDuration).1
  {
  }

  /** Output `k + 1` is the model's answer to the step for samples `k` and
      `k + 1`, made from the state left by the bootstrap call and the steps
      before it: outputs line up with the samples by index. */
  lemma IntervalResponse<S>(advance: (S, real, real) -> (S, BatterySimOutput), s: S,
                            times: seq<real>, currents: seq<real>, k: nat)
    requires |times| == |currents| && k + 1 < |times|
    ensures Replay(advance, s, Calls(times, currents))[k + 1]
         == advance(FinalState(advance, s, Calls(times, currents)[..k + 1]),
                    (currents[k] + currents[k + 1]) / 2.0, times[k + 1] - times[k]).1
  {
    CallsSchedule(times, currents);
    ReplayAt(advance, s, Calls(times, currents), k + 1);
  }

  /** Converting minutes to seconds keeps, and reflects, the order of the time axis. */
  lemma SecondsKeepOrder(rows: seq<Row>)
    ensures NonDecreasing(MinutesOf(rows)) <==> NonDecreasing(TimeAxis(rows))
  {
    if NonDecreasing(TimeAxis(rows)) {
      forall i, j | 0 <= i < j < |rows| ensures MinutesOf(rows)[i] <= MinutesOf(rows)[j] {
        assert TimeAxis(rows)[i] <= TimeAxis(rows)[j];
      }
    }
    if NonDecreasing(MinutesOf(rows)) {
      forall i, j | 0 <= i < j < |rows| ensures TimeAxis(rows)[i] <= TimeAxis(rows)[j] {
        assert MinutesOf(rows)[i] <= MinutesOf(rows)[j];
      }
    }
  }

  /** The run depends on the rows only through their times, their currents
      and the first row's anode temperature; voltages, cathode temperatures
      and later anode temperatures feed nothing. */
  lemma DependsOnlyOnTimesCurrentsAndFirstAnode<S>(rows1: seq<Row>, rows2: seq<Row>, init: (real, real, int) -> S,
                                                   advance: (S, real, real) -> (S, BatterySimOutput))
    requires |rows1| == |rows2| >= 1
    requires forall k :: 0 <= k < |rows1| ==>
      rows1[k].timeMinutes == rows2[k].timeMinutes && rows1[k].current == rows2[k].current
    requires rows1[0].anodeTemp == rows2[0].anodeTemp
    ensures ExpectedSimulation(rows1, init, advance) == ExpectedSimulation(rows2, init, advance)
  {
    assert TimeAxis(rows1) == TimeAxis(rows2);
    assert seq(|rows1|, k requires 0 <= k < |rows1| => rows1[k].current)
        == seq(|rows2|, k requires 0 <= k < |rows2| => rows2[k].current);
  }

  /** A three-row profile, at 0, 1 and 2.5 minutes with currents 1.0, 2.0
      and 1.5 A: the model starts from the first anode temperature and
      receives the bootstrap call and the steps (1.5 A, 60 s) and (1.75 A, 90 s). */
  lemma ThreeRowProfile<S>(v0: real, v1: real, v2: real, c0: real, c1: real, c2: real,
                           init: (real, real, int) -> S, advance: (S, real, real) -> (S, BatterySimOutput))
    ensures var rows := [Row(0.0, v0, 1.0, 25.0, c0), Row(1.0, v1, 2.0, 26.0, c1), Row(2.5, v2, 1.5, 27.0, c2)];
            var calls := [Call(1.0, 0.1), Call(1.5, 60.0), Call(1.75, 90.0)];
            TimeAxis(rows) == [0.0, 60.0, 150.0] &&
            Calls(TimeAxis(rows), [1.0, 2.0, 1.5]) == calls &&
            ExpectedSimulation(rows, init, advance) == Replay(advance, init(25.0, 0.7, 1), calls)
  {
    var rows := [Row(0.0, v0, 1.0, 25.0, c0), Row(1.0, v1, 2.0, 26.0, c1), Row(2.5, v2, 1.5, 27.0, c2)];
    var times := TimeAxis(rows);
    assert times == [0.0, 60.0, 150.0];
    assert seq(|rows|, k requires 0 <= k < |rows| => rows[k].current) == [1.0, 2.0, 1.5];
    assert times[1..] == [60.0, 150.0];
    assert times[1..][1..] == [150.0];
    var currents := [1.0, 2.0, 1.5];
    assert currents[1..] == [2.0, 1.5];
    assert currents[1..][1..] == [1.5];
    assert Steps(times[1..][1..], currents[1..][1..]) == [];
    assert Steps(times[1..], currents[1..]) == [Call(1.75, 90.0)];
    assert Steps(times, currents) == [Call(1.5, 60.0), Call(1.75, 90.0)];
    assert Calls(times, currents) == [Call(1.0, 0.1), Call(1.5, 60.0), Call(1.75, 90.0)];
  }
}
