/** Values shared by the trading algorithm, its transform registry and its
    performance reducer. Everything the algorithm only passes along (prices,
    metrics, timestamps, construction arguments, callables) is uninterpreted. */
module Types {

  datatype Option<T> = None | Some(value: T)

  /** The exceptions the core raises: a failed `assert` (AssertionError), an
      index into an empty sequence (IndexError), a missing dictionary key
      (KeyError) and a missing attribute (AttributeError); and an exception
      raised inside a collaborator, such as the simulation engine. */
  datatype Error =
    | AssertionFailed
    | IndexOutOfRange
    | KeyMissing(key: string)
    | AttributeMissing(name: string)
    | Raised(id: nat)

  datatype Result<T> = Success(value: T) | Failure(error: Error)

  /** An uninterpreted value: a price, a performance metric, a transform
      construction argument or a timestamp. */
  datatype Value = Value(id: int)

  /** Instrument identifiers ("sids") are ints. */
  type Sid = int

  /** A record keyed by field name, such as the `daily_perf` of a snapshot. */
  type Record = map<string, Value>

  /** The key under which a daily record carries its closing timestamp. */
  const PeriodClose: string := "period_close"

  /** The key that marks a daily snapshot. */
  const DailyPerfKey: string := "daily_perf"

  /** A performance snapshot emitted by the simulation, split into its fields
      other than `daily_perf` and the `daily_perf` record when the snapshot
      has that key. */
  datatype PerfDict = PerfDict(fields: Record, dailyPerf: Option<Record>)
  {
    /** The keys of the snapshot as a dictionary. */
    function Keys(): set<string>
    {
      fields.Keys + if dailyPerf.Some? then {DailyPerfKey} else {}
    }
  }

  /** A snapshot keeps `daily_perf` only in its own slot, never among the
      other fields. */
  type Snapshot = s: PerfDict | DailyPerfKey !in s.fields witness PerfDict(map[], None)

  /** The implementation reference of a transform (a Python class). */
  datatype TransformClass = TransformClass(id: nat)

  /** What `add_transform` stores under a tag: the class, and the positional and
      keyword arguments for its later construction. */
  datatype Descriptor = Descriptor(transformClass: TransformClass, args: seq<Value>, kwargs: map<string, Value>)

  /** A materialised transform: built from a descriptor, then stamped with its tag. */
  datatype StatefulTransform = StatefulTransform(
    transformClass: TransformClass,
    args: seq<Value>,
    kwargs: map<string, Value>,
    namestring: string)

  /** Collaborators the algorithm only stores. */
  datatype OrderCallable = OrderCallable(id: nat)
  datatype Portfolio = Portfolio(id: nat)
  datatype Logger = Logger(id: nat)
  datatype SlippageCallable = SlippageCallable(id: nat)
}
