/** Clients of the trading algorithm that exercise its contracts on concrete
    inputs: a run over a small DataFrame with no transforms, and a tag
    registered twice. */
module Scenarios {
  import opened Types
  import opened Registry
  import opened Reducer
  import opened Algorithm

  /** Tracked sids [1, 2] and a DataFrame with three timestamps and no
      registered transforms: the simulation gets exactly the one adapted
      source and no transforms, spans the first to the last timestamp, and the
      report is the reduction of whatever the engine emits, or the
      exception the engine raises. */
  method RunWithoutTransforms(t0: Value, t1: Value, t2: Value, drive: SimulatedTrading -> Result<seq<Snapshot>>)
    returns (r: Result<Report>, ghost sim: Option<SimulatedTrading>)
    ensures sim.Some?
    ensures sim.value.sources == [DataFrameSource(DataFrame([t0, t1, t2], true), [1, 2])]
    ensures sim.value.transforms == []
    ensures sim.value.environment == Environment(t0, t2)
    ensures drive(sim.value).Success? ==> r == DailyStats(drive(sim.value).value)
    ensures drive(sim.value).Failure? ==> r == Failure(drive(sim.value).error)
  {
    var algo := new TradingAlgorithm([1, 2], [], map[]);
    var frame := DataFrame([t0, t1, t2], true);
    r, sim := algo.Run(FromDataFrame(frame), drive);
    assert |sim.value.transforms| == 0;
  }

  /** A DataFrame whose index is not a DatetimeIndex fails before any
      simulator is built, whatever the engine would emit. */
  method RunRejectsPlainIndex(index: seq<Value>, drive: SimulatedTrading -> Result<seq<Snapshot>>)
    returns (r: Result<Report>)
    ensures r == Failure(AssertionFailed)
  {
    var algo := new TradingAlgorithm([0], [], map[]);
    ghost var sim;
    r, sim := algo.Run(FromDataFrame(DataFrame(index, false)), drive);
  }

  /** Registering class `a` and then class `b` under "x": the simulator built
      afterwards holds a single transform, built from `b` and named "x". */
  method OverwriteThenAssemble(a: TransformClass, b: TransformClass, source: Stream)
    returns (r: Result<SimulatedTrading>)
    requires EnvironmentFor(source).Success?
    ensures r.Success?
    ensures r.value.transforms == [StatefulTransform(b, [], map[], "x")]
  {
    var algo := new TradingAlgorithm([0], [], map[]);
    algo.AddTransform(a, "x", [Value(1)], map[]);
    algo.AddTransform(b, "x", [], map[]);
    assert algo.registeredTransforms == map["x" := Descriptor(b, [], map[])];
    r := algo.CreateSimulator(source);
    var ts := r.value.transforms;
    MaterialisedCovers(ts, algo.registeredTransforms);
    assert |ts| == 1;
    assert ts[0].namestring in algo.registeredTransforms;
  }
}
