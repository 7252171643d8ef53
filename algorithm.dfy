/** The trading algorithm base class: its state and setters, transform
    registration, assembly of a simulation from a source, and `run`, which
    drives the simulation and reduces its snapshots to a daily report. */
module Algorithm {
  import opened Types
  import opened Registry
  import opened Reducer

  /** A pandas DataFrame input: its row index and whether that index is a
      DatetimeIndex. */
  datatype DataFrame = DataFrame(index: seq<Value>, isDatetimeIndex: bool)

  /** A zipline source, as the simulator sees it: a DataFrame adapted by
      `DataFrameSource` (with a sid filter), or a native source, whose `data`
      attribute may be missing. */
  datatype Stream =
    | DataFrameSource(frame: DataFrame, sids: seq<Sid>)
    | NativeSource(id: nat, data: Option<seq<Value>>)
  {
    /** `source.data.index`, or `None` when the source has no `data`. */
    function DataIndex(): Option<seq<Value>>
    {
      match this
      case DataFrameSource(frame, _) => Some(frame.index)
      case NativeSource(_, data) => data
    }
  }

  /** What `run` accepts: a DataFrame or a zipline source. */
  datatype Source = FromDataFrame(frame: DataFrame) | FromStream(stream: Stream)

  /** The simulation span `create_trading_environment` resolves. */
  datatype Environment = Environment(start: Value, end: Value)

  /** The execution-cost model the simulator is built with. */
  datatype Slippage = FixedSlippage

  /** The arguments `SimulatedTrading` is constructed from. */
  datatype SimulatedTrading = SimulatedTrading(
    sources: seq<Stream>,
    transforms: seq<StatefulTransform>,
    algorithm: TradingAlgorithm,
    environment: Environment,
    slippage: Slippage)

  /** The environment spans the source's first to last timestamp. A source
      without `data` raises AttributeError; an empty index has no first
      element (IndexError). */
  function EnvironmentFor(source: Stream): (r: Result<Environment>)
    ensures source.DataIndex().None? ==> r == Failure(AttributeMissing("data"))
    ensures source.DataIndex().Some? ==> (r.Failure? <==> source.DataIndex().value == [])
    ensures source.DataIndex().Some? && r.Failure? ==> r.error == IndexOutOfRange
    ensures r.Success? ==>
              source.DataIndex().Some? &&
              var index := source.DataIndex().value;
              r.value.start == index[0] && r.value.end == index[|index| - 1]
  {
    match source.DataIndex()
    case None => Failure(AttributeMissing("data"))
    case Some(index) =>
      if index == [] then Failure(IndexOutOfRange)
      else Success(Environment(index[0], index[|index| - 1]))
  }

  /** The assertion `run` makes: a DataFrame must have a DatetimeIndex. */
  predicate PassesIndexCheck(source: Source)
  {
    source.FromDataFrame? ==> source.frame.isDatetimeIndex
  }

  /** A snapshot of every field of an algorithm. */
  datatype AlgorithmState = AlgorithmState(
    sids: seq<Sid>,
    done: bool,
    order: Option<OrderCallable>,
    frameCount: int,
    portfolio: Option<Portfolio>,
    logger: Option<Logger>,
    registeredTransforms: Registry)

  class TradingAlgorithm {
    /** The tracked instruments, set at construction and never reassigned here. */
    const sids: seq<Sid>
    var done: bool
    var order: Option<OrderCallable>
    var frameCount: int
    var portfolio: Option<Portfolio>
    /** `None` until `set_logger` creates the attribute. */
    var logger: Option<Logger>
    var registeredTransforms: Registry

    ghost function State(): AlgorithmState
      reads this
    {
      AlgorithmState(sids, done, order, frameCount, portfolio, logger, registeredTransforms)
    }

    /** Initialises the tracked sids and an empty, not-done state with no
        order callable, no portfolio and no transforms, then calls the
        `initialize` hook with the forwarded arguments. */
    constructor (sids: seq<Sid>, args: seq<Value>, kwargs: map<string, Value>)
      ensures State() == AlgorithmState(sids, false, None, 0, None, None, map[])
    {
      this.sids := sids;
      done := false;
      order := None;
      frameCount := 0;
      portfolio := None;
      logger := None;
      registeredTransforms := map[];
      new;
      Initialize(args, kwargs);
    }

    /** The default `initialize` hook does nothing. */
    method Initialize(args: seq<Value>, kwargs: map<string, Value>)
      ensures unchanged(this)
    {
    }

    /** Stores the descriptor of `transformClass` and its arguments under
        `tag`, replacing any earlier one; nothing else changes. */
    method AddTransform(transformClass: TransformClass, tag: string, args: seq<Value>, kwargs: map<string, Value>)
      modifies this
      ensures State() == old(State()).(registeredTransforms :=
                Register(old(registeredTransforms), tag, Descriptor(transformClass, args, kwargs)))
    {
      registeredTransforms := registeredTransforms[tag := Descriptor(transformClass, args, kwargs)];
    }

    method SetPortfolio(portfolio: Portfolio)
      modifies this
      ensures State() == old(State()).(portfolio := Some(portfolio))
    {
      this.portfolio := Some(portfolio);
    }

    method SetOrder(orderCallable: OrderCallable)
      modifies this
      ensures State() == old(State()).(order := Some(orderCallable))
    {
      order := Some(orderCallable);
    }

    method SetLogger(logger: Logger)
      modifies this
      ensures State() == old(State()).(logger := Some(logger))
    {
      this.logger := Some(logger);
    }

    /** Accepts a slippage callable and stores it nowhere. */
    method SetSlippageOverride(slippageCallable: SlippageCallable)
      ensures unchanged(this)
    {
    }

    /** The sids a DataFrame source is restricted to: the tracked sids, as
        given at construction. */
    function GetSidFilter(): (r: seq<Sid>)
      ensures r == sids
    {
      sids
    }

    /** `sim` is the simulation `_create_simulator` builds for `source`: that
        one source, one transform per registered tag, this algorithm, the
        source's span and fixed slippage. */
    ghost predicate SimulationFor(sim: SimulatedTrading, source: Stream)
      reads this
    {
      && sim.sources == [source]
      && Materialises(sim.transforms, registeredTransforms)
      && sim.algorithm == this
      && EnvironmentFor(source) == Success(sim.environment)
      && sim.slippage == FixedSlippage
    }

    /** `_create_simulator`: resolve the environment, then wrap every
        registered descriptor, in the registry's (unspecified) iteration
        order, into a stateful transform named by its tag. */
    method CreateSimulator(source: Stream) returns (r: Result<SimulatedTrading>)
      ensures r.Failure? <==> EnvironmentFor(source).Failure?
      ensures r.Failure? ==> r.error == EnvironmentFor(source).error
      ensures r.Success? ==> SimulationFor(r.value, source)
    {
      var environment := EnvironmentFor(source);
      if environment.Failure? {
        return Failure(environment.error);
      }
      var transforms: seq<StatefulTransform> := [];
      var pending := registeredTransforms.Keys;
      while pending != {}
        invariant pending <= registeredTransforms.Keys
        invariant Tags(transforms) == registeredTransforms.Keys - pending
        invariant |transforms| == |registeredTransforms.Keys - pending|
        invariant DistinctTags(transforms)
        invariant forall i :: 0 <= i < |transforms| ==>
                    transforms[i].namestring in registeredTransforms &&
                    transforms[i] == Instantiate(transforms[i].namestring, registeredTransforms[transforms[i].namestring])
        decreases pending
      {
        var namestring :| namestring in pending;
        var sf := Instantiate(namestring, registeredTransforms[namestring]);
        assert registeredTransforms.Keys - (pending - {namestring}) == (registeredTransforms.Keys - pending) + {namestring};
        TagsAppend(transforms, sf);
        transforms := transforms + [sf];
        pending := pending - {namestring};
      }
      r := Success(SimulatedTrading([source], transforms, this, environment.value, FixedSlippage));
    }

    /** The source the simulator reads: a DataFrame is adapted by
        `DataFrameSource` restricted to the tracked sids; a zipline source
        passes through. */
    function Adapt(source: Source): (s: Stream)
      ensures source.FromDataFrame? ==>
                s.DataFrameSource? && s.sids == GetSidFilter() && s.DataIndex() == Some(source.frame.index)
      ensures source.FromStream? ==> s == source.stream
    {
      match source
      case FromDataFrame(frame) => DataFrameSource(frame, sids)
      case FromStream(stream) => stream
    }

    /** `run`: a DataFrame whose index is not a DatetimeIndex fails its
        assertion before any simulator is built; a source without data or
        with an empty index fails while building the environment; otherwise
        the simulator is built and `drive` (the simulation engine) yields its
        snapshots or raises. Snapshots are reduced to the daily report; an
        exception from the engine escapes with no partial report. */
    method Run(source: Source, drive: SimulatedTrading -> Result<seq<Snapshot>>)
      returns (r: Result<Report>, ghost sim: Option<SimulatedTrading>)
      ensures !PassesIndexCheck(source) ==> r == Failure(AssertionFailed) && sim == None
      ensures PassesIndexCheck(source) && EnvironmentFor(Adapt(source)).Failure? ==>
                r == Failure(EnvironmentFor(Adapt(source)).error) && sim == None
      ensures PassesIndexCheck(source) && EnvironmentFor(Adapt(source)).Success? ==>
                sim.Some? && SimulationFor(sim.value, Adapt(source)) &&
                r == match drive(sim.value)
                     case Failure(e) => Failure(e)
                     case Success(perfs) => DailyStats(perfs)
    {
      if !PassesIndexCheck(source) {
        return Failure(AssertionFailed), None;
      }
      var stream := Adapt(source);
      var simulatedTrading := CreateSimulator(stream);
      if simulatedTrading.Failure? {
        return Failure(simulatedTrading.error), None;
      }
      sim := Some(simulatedTrading.value);
      var perfs := drive(simulatedTrading.value);
      match perfs {
        case Failure(e) => r := Failure(e);
        case Success(snapshots) => r := CreateDailyStats(snapshots);
      }
    }
  }
}
