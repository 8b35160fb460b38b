/** The battery simulator as the comparison driver sees it: the record it
    returns after every step, and a stateful model whose physics is not
    known here. The physics is a parameter of the model (an initialiser and
    a one-step transition), so that what a sequence of steps produces can
    be stated as a function of the calls made. */
module BatterySim {

  /** One state-advance result, also used for a measured row of test data. */
  datatype BatterySimOutput = BatterySimOutput(
    tInternal: real,
    tAnode: real,
    soc: real,
    voltage: real,
    current: real,
    rint: real)

  /** The arguments of one `update_current` call: the drive current and the
      length of the step in seconds. */
  datatype Call = Call(current: real, duration: real)

  /** The outputs the model returns when `calls` are made, in order, starting
      from internal state `s`. */
  function Replay<S>(advance: (S, real, real) -> (S, BatterySimOutput), s: S, calls: seq<Call>): (r: seq<BatterySimOutput>)
    ensures |r| == |calls|
    decreases |calls|
  {
    if calls == [] then []
    else
      var next := advance(s, calls[0].current, calls[0].duration);
      [next.1] + Replay(advance, next.0, calls[1..])
  }

  /** The internal state the model is left in once `calls` are made from `s`. */
  function FinalState<S>(advance: (S, real, real) -> (S, BatterySimOutput), s: S, calls: seq<Call>): (r: S)
    decreases |calls|
  {
    if calls == [] then s
    else FinalState(advance, advance(s, calls[0].current, calls[0].duration).0, calls[1..])
  }

  /** One more call extends the outputs by the response to that call, made
      from the state the earlier calls left behind. */
  lemma {:induction false} ReplayAppend<S>(advance: (S, real, real) -> (S, BatterySimOutput), s: S, calls: seq<Call>, c: Call)
    ensures Replay(advance, s, calls + [c])
         == Replay(advance, s, calls) + [advance(FinalState(advance, s, calls), c.current, c.duration).1]
    ensures FinalState(advance, s, calls + [c]) == advance(FinalState(advance, s, calls), c.current, c.duration).0
    decreases |calls|
  {
    if calls != [] {
      assert (calls + [c])[0] == calls[0];
      assert (calls + [c])[1..] == calls[1..] + [c];
      ReplayAppend(advance, advance(s, calls[0].current, calls[0].duration).0, calls[1..], c);
    } else {
      assert calls + [c] == [c];
    }
  }

  /** Output `k` is the model's response to call `k`, made from the state
      left by calls `0..k-1`: each step depends on every step before it. */
  lemma {:induction false} ReplayAt<S>(advance: (S, real, real) -> (S, BatterySimOutput), s: S, calls: seq<Call>, k: nat)
    requires k < |calls|
    ensures Replay(advance, s, calls)[k]
         == advance(FinalState(advance, s, calls[..k]), calls[k].current, calls[k].duration).1
    decreases k
  {
    if k > 0 {
      var next := advance(s, calls[0].current, calls[0].duration).0;
      ReplayAt(advance, next, calls[1..], k - 1);
      assert calls[..k][0] == calls[0];
      assert calls[..k][1..] == calls[1..][..k - 1];
    }
  }

  /** The stateful battery model. Its physics is given by `advance`, an
      opaque transition from an internal state, a current and a duration to
      the next internal state and the reported output. The ghost `log`
      records every `UpdateCurrent` call in order. */
  class BatteryModel<S> {
    const initialTemperature: real
    const initialSoc: real
    const seriesCells: int
    const advance: (S, real, real) -> (S, BatterySimOutput)
    var state: S
    ghost var log: seq<Call>

    constructor (initialTemperature: real, initialSoc: real, seriesCells: int,
                 init: (real, real, int) -> S,
                 advance: (S, real, real) -> (S, BatterySimOutput))
      ensures this.initialTemperature == initialTemperature
      ensures this.initialSoc == initialSoc
      ensures this.seriesCells == seriesCells
      ensures this.advance == advance
      ensures state == init(initialTemperature, initialSoc, seriesCells)
      ensures log == []
    {
      this.initialTemperature := initialTemperature;
      this.initialSoc := initialSoc;
      this.seriesCells := seriesCells;
      this.advance := advance;
      state := init(initialTemperature, initialSoc, seriesCells);
      log := [];
    }

    /** Advances the model by `duration` seconds at constant `current`. */
    method UpdateCurrent(current: real, duration: real) returns (r: BatterySimOutput)
      modifies this
      ensures log == old(log) + [Call(current, duration)]
      ensures state == advance(old(state), current, duration).0
      ensures r == advance(old(state), current, duration).1
    {
      var next := advance(state, current, duration);
      state := next.0;
      r := next.1;
      log := log + [Call(current, duration)];
    }
  }
}
