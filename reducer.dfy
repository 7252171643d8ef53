/** The performance reducer: the snapshots a simulation emits are split, in
    emission order, into daily records and cumulative summaries, and the daily
    records become a report indexed by each record's `period_close`. */
module Reducer {
  import opened Types

  /** `'daily_perf' in perf`: the snapshot has the `daily_perf` key. */
  predicate IsDaily(s: Snapshot): (b: bool)
    ensures b <==> DailyPerfKey in s.Keys()
  {
    s.dailyPerf.Some?
  }

  /** The `daily_perf` records of the snapshots that carry one, in order. */
  function DailyPerfs(perfs: seq<Snapshot>): seq<Record>
  {
    if perfs == [] then []
    else
      var last := perfs[|perfs| - 1];
      DailyPerfs(perfs[..|perfs| - 1]) + (if IsDaily(last) then [last.dailyPerf.value] else [])
  }

  /** The snapshots that carry no `daily_perf`, in order. */
  function CumPerfs(perfs: seq<Snapshot>): seq<Snapshot>
  {
    if perfs == [] then []
    else
      var last := perfs[|perfs| - 1];
      CumPerfs(perfs[..|perfs| - 1]) + (if IsDaily(last) then [] else [last])
  }

  /** The positions `j` of `perfs` with `IsDaily(perfs[j]) == daily`, ascending. */
  function Positions(perfs: seq<Snapshot>, daily: bool): seq<nat>
  {
    if perfs == [] then []
    else Positions(perfs[..|perfs| - 1], daily) + (if IsDaily(perfs[|perfs| - 1]) == daily then [|perfs| - 1] else [])
  }

  ghost predicate Increasing(idx: seq<nat>)
  {
    forall i, j :: 0 <= i < j < |idx| ==> idx[i] < idx[j]
  }

  /** `Positions(perfs, daily)` lists, in ascending order, exactly the
      positions whose snapshot is daily (or not, as `daily` says). */
  lemma {:induction false} PositionsExact(perfs: seq<Snapshot>, daily: bool)
    ensures Increasing(Positions(perfs, daily))
    ensures forall k :: 0 <= k < |Positions(perfs, daily)| ==>
              Positions(perfs, daily)[k] < |perfs| && IsDaily(perfs[Positions(perfs, daily)[k]]) == daily
    ensures forall j :: 0 <= j < |perfs| ==> (j in Positions(perfs, daily) <==> IsDaily(perfs[j]) == daily)
  {
    if perfs != [] {
      var init := perfs[..|perfs| - 1];
      PositionsExact(init, daily);
      assert forall j :: 0 <= j < |init| ==> init[j] == perfs[j];
    }
  }

  /** The daily bucket is the subsequence of daily snapshots' records,
      taken at the daily positions in order. */
  lemma {:induction false} DailyPerfsSelect(perfs: seq<Snapshot>)
    ensures |DailyPerfs(perfs)| == |Positions(perfs, true)|
    ensures forall k :: 0 <= k < |DailyPerfs(perfs)| ==>
              Positions(perfs, true)[k] < |perfs| &&
              perfs[Positions(perfs, true)[k]].dailyPerf == Some(DailyPerfs(perfs)[k])
  {
    if perfs != [] {
      var init := perfs[..|perfs| - 1];
      DailyPerfsSelect(init);
      PositionsExact(init, true);
      assert forall j :: 0 <= j < |init| ==> init[j] == perfs[j];
    }
  }

  /** The cumulative bucket is the subsequence of the snapshots without a
      daily record, taken at the other positions in order. */
  lemma {:induction false} CumPerfsSelect(perfs: seq<Snapshot>)
    ensures |CumPerfs(perfs)| == |Positions(perfs, false)|
    ensures forall k :: 0 <= k < |CumPerfs(perfs)| ==>
              Positions(perfs, false)[k] < |perfs| &&
              CumPerfs(perfs)[k] == perfs[Positions(perfs, false)[k]]
  {
    if perfs != [] {
      var init := perfs[..|perfs| - 1];
      CumPerfsSelect(init);
      PositionsExact(init, false);
      assert forall j :: 0 <= j < |init| ==> init[j] == perfs[j];
    }
  }

  /** The partition is exhaustive and disjoint: every snapshot goes to exactly
      one bucket, so the bucket sizes add up to the number of snapshots. */
  lemma {:induction false} PartitionExhaustive(perfs: seq<Snapshot>)
    ensures |DailyPerfs(perfs)| + |CumPerfs(perfs)| == |perfs|
    ensures forall j :: 0 <= j < |perfs| ==> (j in Positions(perfs, true) <==> j !in Positions(perfs, false))
  {
    if perfs != [] {
      PartitionExhaustive(perfs[..|perfs| - 1]);
    }
    PositionsExact(perfs, true);
    PositionsExact(perfs, false);
  }

  /** Splitting the snapshot list anywhere splits both buckets at the same
      place: neither bucket reorders snapshots. */
  lemma {:induction false} BucketsConcat(a: seq<Snapshot>, b: seq<Snapshot>)
    ensures DailyPerfs(a + b) == DailyPerfs(a) + DailyPerfs(b)
    ensures CumPerfs(a + b) == CumPerfs(a) + CumPerfs(b)
  {
    if b != [] {
      var init := b[..|b| - 1];
      assert (a + b)[..|a + b| - 1] == a + init;
      assert (a + b)[|a + b| - 1] == b[|b| - 1];
      BucketsConcat(a, init);
    } else {
      assert a + b == a;
    }
  }

  /** The list comprehension over the daily records: each record's
      `period_close` (the timezone conversion is the identity here), or a
      KeyError when some record lacks that key. */
  function DailyIndex(daily: seq<Record>): (r: Result<seq<Value>>)
    ensures r.Success? <==> forall k :: 0 <= k < |daily| ==> PeriodClose in daily[k]
    ensures r.Failure? ==> r.error == KeyMissing(PeriodClose)
    ensures r.Success? ==> |r.value| == |daily| && forall k :: 0 <= k < |daily| ==> r.value[k] == daily[k][PeriodClose]
  {
    if daily == [] then Success([])
    else if PeriodClose !in daily[0] then Failure(KeyMissing(PeriodClose))
    else
      match DailyIndex(daily[1..])
      case Success(rest) => Success([daily[0][PeriodClose]] + rest)
      case Failure(e) => Failure(e)
  }

  /** One row of the report: its index entry and its columns. */
  datatype Row = Row(periodClose: Value, perf: Record)

  /** A table of rows in index order. */
  type Report = seq<Row>

  /** `DataFrame(rows, index=index)`: row `k` is `rows[k]` under `index[k]`. */
  function Frame(index: seq<Value>, rows: seq<Record>): (r: Report)
    requires |index| == |rows|
    ensures |r| == |rows|
    ensures forall k :: 0 <= k < |r| ==> r[k].periodClose == index[k] && r[k].perf == rows[k]
  {
    seq(|rows|, k requires 0 <= k < |rows| => Row(index[k], rows[k]))
  }

  /** The report `_create_daily_stats` returns: one row per daily record, in
      order, indexed by that record's own `period_close`; a KeyError when a
      daily record lacks `period_close`. */
  function DailyStats(perfs: seq<Snapshot>): (r: Result<Report>)
    ensures r.Success? <==> forall k :: 0 <= k < |DailyPerfs(perfs)| ==> PeriodClose in DailyPerfs(perfs)[k]
    ensures r.Failure? ==> r.error == KeyMissing(PeriodClose)
    ensures r.Success? ==>
              |r.value| == |DailyPerfs(perfs)| &&
              forall k :: 0 <= k < |r.value| ==>
                r.value[k] == Row(DailyPerfs(perfs)[k][PeriodClose], DailyPerfs(perfs)[k])
  {
    var daily := DailyPerfs(perfs);
    match DailyIndex(daily)
    case Success(index) => Success(Frame(index, daily))
    case Failure(e) => Failure(e)
  }

  /** A succeeding report has as many rows as there are daily snapshots, and
      row `k` comes from the `k`-th daily snapshot in emission order. */
  lemma RowsFollowDailySnapshots(perfs: seq<Snapshot>)
    requires DailyStats(perfs).Success?
    ensures |DailyStats(perfs).value| == |Positions(perfs, true)|
    ensures forall k :: 0 <= k < |DailyStats(perfs).value| ==>
              Positions(perfs, true)[k] < |perfs| &&
              perfs[Positions(perfs, true)[k]].dailyPerf == Some(DailyStats(perfs).value[k].perf)
  {
    DailyPerfsSelect(perfs);
  }

  /** When no snapshot carries `daily_perf`, the report is empty, not an error. */
  lemma {:induction false} NoDailyEmptyReport(perfs: seq<Snapshot>)
    requires forall j :: 0 <= j < |perfs| ==> !IsDaily(perfs[j])
    ensures DailyPerfs(perfs) == []
    ensures DailyStats(perfs) == Success([])
  {
    if perfs != [] {
      NoDailyEmptyReport(perfs[..|perfs| - 1]);
    }
    assert DailyIndex([]) == Success([]);
  }

  /** The loop of `_create_daily_stats`: one pass over the snapshots,
      appending each to its bucket. */
  method PartitionPerfs(perfs: seq<Snapshot>) returns (dailyPerfs: seq<Record>, cumPerfs: seq<Snapshot>)
    ensures dailyPerfs == DailyPerfs(perfs)
    ensures cumPerfs == CumPerfs(perfs)
  {
    dailyPerfs, cumPerfs := [], [];
    for i := 0 to |perfs|
      invariant dailyPerfs == DailyPerfs(perfs[..i])
      invariant cumPerfs == CumPerfs(perfs[..i])
    {
      assert perfs[..i + 1][..i] == perfs[..i];
      var perf := perfs[i];
      match perf.dailyPerf {
        case Some(d) => dailyPerfs := dailyPerfs + [d];
        case None => cumPerfs := cumPerfs + [perf];
      }
    }
    assert perfs[..|perfs|] == perfs;
  }

  /** `_create_daily_stats`: partition, read each daily record's
      `period_close`, and build the report. This is the loop-based version of
      `DailyStats`, which states what the report is. */
  method CreateDailyStats(perfs: seq<Snapshot>) returns (r: Result<Report>)
    ensures r == DailyStats(perfs)
  {
    var dailyPerfs, cumPerfs := PartitionPerfs(perfs);
    var dailyDts := DailyIndex(dailyPerfs);
    match dailyDts {
      case Success(index) => r := Success(Frame(index, dailyPerfs));
      case Failure(e) => r := Failure(e);
    }
  }
}
