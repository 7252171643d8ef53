# TradingAlgorithm core of zipline, modelled in Dafny

This project models the base class `TradingAlgorithm` of the zipline
backtester (`zipline/algorithm.py`). A user subclasses it with strategy code.
The class holds the tracked instruments ("sids") and a registry of transforms
(named per-instrument signals). `run` turns a price source into a simulation,
drives it, and reduces the performance snapshots the simulation emits into a
daily report.

The model has five modules, one per component:

- `Types` (types.dfy): the values the core only passes along. These are
  prices, metrics, timestamps, transform classes, arguments, callables,
  portfolio and logger, all uninterpreted. It also holds snapshots and the
  errors the core raises.
- `Registry` (registry.dfy): `add_transform`'s overwrite-on-write update of
  the tag → descriptor map. It also defines what a materialisation of the
  registry is: one stateful transform per tag, stamped with that tag.
- `Reducer` (reducer.dfy): the loop of `_create_daily_stats`, which splits
  snapshots into a daily bucket and a cumulative bucket. It also builds the
  report indexed by each daily record's `period_close`.
- `Algorithm` (algorithm.dfy): the `TradingAlgorithm` class. Its fields are
  the object's attributes. The setters and `add_transform` change them in
  place. `_create_simulator` keeps its loop over the registry, and `run`
  wires the pieces together.
- `Scenarios` (scenarios.dfy): client methods that use the class contracts on
  concrete inputs. One runs a small DataFrame with no transforms, one shows a
  DataFrame rejected for its index type, and one registers a tag twice.

Two details of the source shape the model:

- `run` (zipline/algorithm.py:94-95) checks only that a DataFrame's index is a
  `DatetimeIndex`. It does not check that the timestamps increase, so the
  model's `DataFrame` has a flag for the index type and nothing about ordering.
- `_create_daily_stats` (zipline/algorithm.py:117, 121) reads `period_close`
  from the inner `daily_perf` record, not from the snapshot itself.

`Reducer.DailyPerfs` and `Reducer.CumPerfs` are the reference definitions of
the two lists the loop at zipline/algorithm.py:113-119 builds. The lemmas in
the table below characterise them, and `Reducer.PartitionPerfs` proves the
loop equal to them.

## Model

| member | source | states |
|---|---|---|
| `Algorithm.TradingAlgorithm.constructor` | zipline/algorithm.py:31-46 | sids are the argument; done is false; order and portfolio are null; frame_count is 0; the registry is empty; there is no logger yet; the no-op `initialize` hook then changes nothing |
| `Algorithm.TradingAlgorithm.Initialize` | zipline/algorithm.py:156-157 | the default hook changes no field |
| `Algorithm.TradingAlgorithm.AddTransform` | zipline/algorithm.py:126-142 | the registry becomes `Register` of the old one with descriptor {class, args, kwargs} under the tag; every other field is unchanged |
| `Registry.Register` | zipline/algorithm.py:140-142 | the tag maps exactly to the new descriptor; other tags keep their entries; the key set gains only the tag, and the size grows by one iff the tag was new |
| `Registry.RegisterLastWins` | zipline/algorithm.py:140-142 | registering twice under one tag equals registering only the second descriptor |
| `Algorithm.TradingAlgorithm.SetPortfolio` | zipline/algorithm.py:144-145 | only `portfolio` changes, to the argument |
| `Algorithm.TradingAlgorithm.SetOrder` | zipline/algorithm.py:147-148 | only `order` changes, to the argument |
| `Algorithm.TradingAlgorithm.SetLogger` | zipline/algorithm.py:153-154 | only `logger` changes, to the argument |
| `Algorithm.TradingAlgorithm.SetSlippageOverride` | zipline/algorithm.py:159-160 | accepts a callable and changes no field |
| `Algorithm.TradingAlgorithm.GetSidFilter` | zipline/algorithm.py:150-151 | returns the tracked sids given at construction; as a function it mutates nothing |
| `Algorithm.EnvironmentFor` | zipline/algorithm.py:54 | a source without `data` raises AttributeError; otherwise it fails with IndexError exactly when the index is empty, and the span runs from the first to the last timestamp |
| `Algorithm.TradingAlgorithm.Adapt` | zipline/algorithm.py:94-96 | a DataFrame becomes a `DataFrameSource` with the tracked sids as its filter and the DataFrame's index as its data index; a zipline source passes through unchanged |
| `Algorithm.TradingAlgorithm.CreateSimulator` | zipline/algorithm.py:48-76 | fails exactly when the environment cannot be built, with that error; otherwise the simulator has exactly the one source, a materialisation of the registry as its transforms, this algorithm, the source's span and fixed slippage |
| `Registry.Instantiate` | zipline/algorithm.py:59-64 | the built transform's namestring is the tag, and its class, args and kwargs give back exactly the descriptor |
| `Registry.MaterialisedCovers` | zipline/algorithm.py:57-66 | materialised transforms carry exactly the registry's keys as namestrings, and each key's class, args and kwargs are built |
| `Registry.MaterialisationsPermute` | zipline/algorithm.py:58-66 | whatever order the registry is iterated in, two materialisations hold the same transforms (equal multisets) |
| `Registry.OverwriteMaterialisesLast` | zipline/algorithm.py:57-66 | after registering A then B under one tag, exactly one transform has that tag, and it is built from B |
| `Reducer.IsDaily` | zipline/algorithm.py:116 | a snapshot is daily exactly when `daily_perf` is among its keys |
| `Reducer.PartitionPerfs` | zipline/algorithm.py:113-119 | the loop's two lists are exactly the daily bucket and the cumulative bucket of the snapshot list |
| `Reducer.PositionsExact` | zipline/algorithm.py:115-119 | the daily and non-daily positions are ascending and name exactly the snapshots that have, or lack, `daily_perf` |
| `Reducer.DailyPerfsSelect` | zipline/algorithm.py:115-117 | `daily_perfs[k]` is the `daily_perf` of the k-th daily snapshot in emission order |
| `Reducer.CumPerfsSelect` | zipline/algorithm.py:118-119 | `cum_perfs[k]` is the k-th snapshot without `daily_perf` in emission order |
| `Reducer.PartitionExhaustive` | zipline/algorithm.py:113-119 | every position is in exactly one bucket; `daily_perfs` plus `cum_perfs` sizes sum to the number of snapshots |
| `Reducer.BucketsConcat` | zipline/algorithm.py:115-119 | both buckets of a concatenation are the concatenations of the buckets (no reordering) |
| `Reducer.DailyIndex` | zipline/algorithm.py:121 | succeeds iff every daily record has `period_close`, and then entry k is record k's `period_close`; otherwise KeyError('period_close') |
| `Reducer.Frame` | zipline/algorithm.py:122 | the table has one row per record; row k is record k under index entry k |
| `Reducer.DailyStats` | zipline/algorithm.py:111-124 | one row per daily record, in order, indexed by that record's own `period_close`; KeyError iff some daily record lacks it |
| `Reducer.RowsFollowDailySnapshots` | zipline/algorithm.py:121-122 | the row count equals the number of snapshots with `daily_perf`, and row k holds the k-th such snapshot's record |
| `Reducer.NoDailyEmptyReport` | zipline/algorithm.py:113-122 | with no daily snapshot, the daily bucket is empty and the report is an empty table, not an error |
| `Reducer.CreateDailyStats` | zipline/algorithm.py:111-124 | the method's result is `DailyStats` of the snapshots |
| `Algorithm.TradingAlgorithm.Run` | zipline/algorithm.py:78-108 | a DataFrame without a DatetimeIndex fails the assertion and no simulator is built; a source whose environment cannot be built fails with that error; otherwise the simulator is the one `CreateSimulator` describes, an exception the engine raises escapes with no partial report, and otherwise the report is `DailyStats` of the snapshots the engine emits; `run` changes no field |
| `Scenarios.RunWithoutTransforms` | zipline/algorithm.py:94-108 | sids [1, 2], three timestamps and no transforms give a simulator with one source, no transforms and the span from the first to the last timestamp; the result is the engine's exception or the reduction of its snapshots |
| `Scenarios.RunRejectsPlainIndex` | zipline/algorithm.py:94-95 | a non-DatetimeIndex DataFrame gives AssertionError whatever the engine would emit |
| `Scenarios.OverwriteThenAssemble` | zipline/algorithm.py:57-66 | after registering A then B under "x", the simulator's transforms are exactly B named "x" |

## Left out

- The simulation engine (`SimulatedTrading`, its iteration and the `list(...)` drive) is not visible here. `Run` takes it as a parameter: a function from the assembled simulator to its snapshot list, or to the exception the engine raises.
- Algorithm.TradingAlgorithm.Run: the simulation calls back into the algorithm (through `set_order`, `set_portfolio` and `handle_data`) while it is driven. The model's `Run` changes no field, so those changes are not modelled.
- `DataFrameSource` is source adaptation over pandas. It is modelled only as the pair (DataFrame, sids filter), whose data index is the DataFrame's index. How it restricts the DataFrame's columns to the filter is not modelled, so the model's DataFrame has no columns.
- Algorithm.TradingAlgorithm.GetSidFilter: `self.sids` keeps the caller's list object, and `get_sid_filter` hands out that same object. The model holds the sids as an immutable value fixed at construction. It therefore does not capture aliasing: a later change to that list, or a reassignment of `self.sids` by a subclass, would change the filter `run` gives `DataFrameSource`.
- Algorithm.EnvironmentFor: `create_trading_environment` is calendar logic. The model keeps only the (first, last) span, the AttributeError of a source without `data` and the IndexError of an empty index. It does not model other failures of that function.
- Algorithm.TradingAlgorithm.CreateSimulator: the `StatefulTransform` constructor is external. A transform is the value (class, args, kwargs, namestring). Constructor failures from incompatible arguments are not modelled.
- `FixedSlippage` is a constant of the model. `set_slippage_override` is inert in the source, and so it is in the model.
- pandas and numpy are left out. The report is a sequence of (index, record) rows, and `np.datetime64(..., utc=True)` is the identity on an uninterpreted timestamp. Column alignment across records with different keys is left out.
- Timestamps are uninterpreted, so "the report index is non-decreasing" is not stated. The index follows snapshot emission order exactly, as `RowsFollowDailySnapshots` states.
- The forwarding of `*args`/`**kwargs` is modelled as a sequence and a map of values. User subclass hooks (`initialize`, `handle_data`) are not modelled. The default `initialize` is the no-op the base class defines.
- `set_logger` creates the `logger` attribute on first call. The model uses `None` for "attribute not yet set".
- `done` and `frame_count` are only initialised in this file, and the model never changes them either.
- Python 2's dict iteration order in `iteritems()` is unspecified. `CreateSimulator` picks tags in an arbitrary order, and its properties hold for every order: as sets of tags, and up to permutation (`MaterialisationsPermute`).
