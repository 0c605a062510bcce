/**
 The benchmark runner: for every batch size and every run it resets the table, inserts the events
 slice by slice between readings of the clock, and summarises the runs by their medians.
 */
module Runners {
  import opened Common
  import opened Events
  import opened Medians

  datatype Op = Reset | InsertBatch(events: seq<Event>)

  datatype RunMeasurement = RunMeasurement(eventsPerSecond: Float, processingMS: Float, insertMS: Float)

  datatype Measurement = Measurement(
    batchSize: int, insertOperations: int,
    medianEventsPerSecond: Float, medianProcessingMS: Float, medianInsertMS: Float,
    runs: seq<RunMeasurement>)

  // ---------- the plan of operations ----------

  function Min(a: int, b: int): int {
    if a < b then a else b
  }

  /** The slices from a position on, each at most batchSize long. */
  function SlicesFrom(events: seq<Event>, batchSize: int, start: nat): seq<seq<Event>>
    requires batchSize > 0
    decreases |events| - start
  {
    if start >= |events| then []
    else [events[start..Min(start + batchSize, |events|)]] + SlicesFrom(events, batchSize, start + batchSize)
  }

  function Slices(events: seq<Event>, batchSize: int): seq<seq<Event>>
    requires batchSize > 0
  {
    SlicesFrom(events, batchSize, 0)
  }

  function Inserts(slices: seq<seq<Event>>): seq<Op> {
    if slices == [] then [] else [InsertBatch(slices[0])] + Inserts(slices[1..])
  }

  function PlanRun(events: seq<Event>, batchSize: int): seq<Op>
    requires batchSize > 0
  {
    [Reset] + Inserts(Slices(events, batchSize))
  }

  function PlanRuns(events: seq<Event>, batchSize: int, runs: nat): seq<Op>
    requires batchSize > 0
  {
    if runs == 0 then [] else PlanRuns(events, batchSize, runs - 1) + PlanRun(events, batchSize)
  }

  predicate AllPositive(sizes: seq<int>) {
    forall i | 0 <= i < |sizes| :: sizes[i] > 0
  }

  function Plan(events: seq<Event>, sizes: seq<int>, runs: nat): seq<Op>
    requires AllPositive(sizes)
  {
    if sizes == [] then []
    else Plan(events, sizes[..|sizes| - 1], runs) + PlanRuns(events, sizes[|sizes| - 1], runs)
  }

  // ---------- what the clock readings measure ----------

  function Milliseconds(duration: int): Float {
    Finite(duration as real / 1_000_000.0)
  }

  function PerSecond(count: nat, duration: int): Float {
    if duration != 0 then Finite(count as real / (duration as real / 1_000_000_000.0))
    else if count == 0 then NaN
    else Infinite
  }

  /** The time between the two readings around each of c inserts, the first reading being the t-th. */
  function InsertTime(clock: nat -> int, t: nat, c: nat): int {
    if c == 0 then 0 else InsertTime(clock, t, c - 1) + (clock(t + 2 * c - 1) - clock(t + 2 * c - 2))
  }

  function ProcessingTime(clock: nat -> int, t: nat, c: nat): int {
    clock(t + 2 * c + 1) - clock(t)
  }

  /** A run of c inserts over count events whose first reading is the t-th. */
  function RunAt(clock: nat -> int, t: nat, count: nat, c: nat): RunMeasurement {
    RunMeasurement(
      PerSecond(count, ProcessingTime(clock, t, c)),
      Milliseconds(ProcessingTime(clock, t, c)),
      Milliseconds(InsertTime(clock, t + 1, c)))
  }

  function RunsAt(clock: nat -> int, t: nat, count: nat, c: nat, runs: nat): (r: seq<RunMeasurement>)
    ensures |r| == runs
    decreases runs
  {
    if runs == 0 then []
    else RunsAt(clock, t, count, c, runs - 1) + [RunAt(clock, TicksAfter(t, c, runs - 1), count, c)]
  }

  function TicksAfter(t: nat, c: nat, runs: nat): nat
    decreases runs
  {
    if runs == 0 then t else TicksAfter(t, c, runs - 1) + 2 * c + 2
  }

  function RateOf(run: RunMeasurement): Float {
    run.eventsPerSecond
  }

  function ProcessingOf(run: RunMeasurement): Float {
    run.processingMS
  }

  function InsertingOf(run: RunMeasurement): Float {
    run.insertMS
  }

  function Summary(batchSize: int, insertOperations: int, runs: seq<RunMeasurement>): Measurement
    requires runs != []
  {
    Measurement(batchSize, insertOperations,
                MedianOf(Selected(runs, RateOf)), MedianOf(Selected(runs, ProcessingOf)),
                MedianOf(Selected(runs, InsertingOf)), runs)
  }

  /** The measurement of one batch size, its first reading being the t-th. */
  function MeasurementAt(clock: nat -> int, t: nat, events: seq<Event>, batchSize: int, runs: nat): Measurement
    requires batchSize > 0 && runs > 0
  {
    var c := |Slices(events, batchSize)|;
    Summary(batchSize, c, RunsAt(clock, t, |events|, c, runs))
  }

  function TicksAfterSizes(t: nat, events: seq<Event>, sizes: seq<int>, runs: nat): nat
    requires AllPositive(sizes)
  {
    if sizes == [] then t
    else
      var init, last := sizes[..|sizes| - 1], sizes[|sizes| - 1];
      TicksAfter(TicksAfterSizes(t, events, init, runs), |Slices(events, last)|, runs)
  }

  /** The measurements of the batch sizes, each starting with the reading after the last of the one before. */
  function MeasurementsAt(clock: nat -> int, t: nat, events: seq<Event>, sizes: seq<int>, runs: nat): seq<Measurement>
    requires AllPositive(sizes) && runs > 0
    decreases |sizes|
  {
    if sizes == [] then []
    else
      var init, last := sizes[..|sizes| - 1], sizes[|sizes| - 1];
      MeasurementsAt(clock, t, events, init, runs)
      + [MeasurementAt(clock, TicksAfterSizes(t, events, init, runs), events, last, runs)]
  }

  /** Doing the next planned operation leaves the rest of the plan. */
  lemma DoNext(log: seq<Op>, op: Op, rest: seq<Op>, plan: seq<Op>)
    requires log + ([op] + rest) == plan
    ensures (log + [op]) + rest == plan && log + [op] <= plan
  {
  }

  /** A run has made the slices before start, and the clock readings around them. */
  ghost predicate Midway(
    events: seq<Event>, batchSize: int, start: nat, log: seq<Op>, plan: seq<Op>,
    done: nat, clock: nat -> int, t: nat, insertDuration: int)
    requires batchSize > 0
  {
    && log + Inserts(SlicesFrom(events, batchSize, start)) == plan
    && done + |SlicesFrom(events, batchSize, start)| == |Slices(events, batchSize)|
    && insertDuration == InsertTime(clock, t, done)
  }

  lemma MidwayAdvances(
    events: seq<Event>, batchSize: int, start: nat, log: seq<Op>, plan: seq<Op>,
    done: nat, clock: nat -> int, t: nat, insertDuration: int)
    requires batchSize > 0 && start < |events|
    requires Midway(events, batchSize, start, log, plan, done, clock, t, insertDuration)
    ensures var op := InsertBatch(events[start..Min(start + batchSize, |events|)]);
            && log + [op] <= plan
            && Midway(events, batchSize, start + batchSize, log + [op], plan, done + 1, clock, t,
                      insertDuration + (clock(t + 2 * done + 1) - clock(t + 2 * done)))
  {
    var slice, rest := events[start..Min(start + batchSize, |events|)], SlicesFrom(events, batchSize, start + batchSize);
    assert ([slice] + rest)[1..] == rest;
    DoNext(log, InsertBatch(slice), Inserts(rest), plan);
  }

  lemma {:induction false} RunsArePrefix(events: seq<Event>, batchSize: int, fewer: nat, runs: nat)
    requires batchSize > 0 && fewer <= runs
    ensures PlanRuns(events, batchSize, fewer) <= PlanRuns(events, batchSize, runs)
  {
    if fewer < runs {
      RunsArePrefix(events, batchSize, fewer, runs - 1);
    }
  }

  /** What is planned next continues what is planned before it. */
  lemma RunPlanned(before: seq<Op>, events: seq<Event>, batchSize: int, k: nat, runs: nat)
    requires batchSize > 0 && k < runs
    ensures (before + PlanRuns(events, batchSize, k)) + PlanRun(events, batchSize)
            == before + PlanRuns(events, batchSize, k + 1)
    ensures before + PlanRuns(events, batchSize, k + 1) <= before + PlanRuns(events, batchSize, runs)
  {
    RunsArePrefix(events, batchSize, k + 1, runs);
  }

  lemma {:induction false} SizesArePrefix(events: seq<Event>, sizes: seq<int>, k: nat, runs: nat)
    requires AllPositive(sizes) && k <= |sizes|
    ensures Plan(events, sizes[..k], runs) <= Plan(events, sizes, runs)
  {
    if k < |sizes| {
      var init := sizes[..|sizes| - 1];
      SizesArePrefix(events, init, k, runs);
      assert init[..k] == sizes[..k];
    } else {
      assert sizes[..k] == sizes;
    }
  }

  /** What is planned next for a batch size continues what is planned before it. */
  lemma SizePlanned(before: seq<Op>, events: seq<Event>, sizes: seq<int>, k: nat, runs: nat)
    requires AllPositive(sizes) && k < |sizes|
    ensures (before + Plan(events, sizes[..k], runs)) + PlanRuns(events, sizes[k], runs)
            == before + Plan(events, sizes[..k + 1], runs)
    ensures (before + Plan(events, sizes[..k], runs)) + PlanRuns(events, sizes[k], runs)
            <= before + Plan(events, sizes, runs)
  {
    assert sizes[..k + 1][..k] == sizes[..k];
    SizesArePrefix(events, sizes, k + 1, runs);
  }

  lemma SizeMeasured(clock: nat -> int, t: nat, events: seq<Event>, sizes: seq<int>, k: nat, runs: nat)
    requires AllPositive(sizes) && k < |sizes| && runs > 0
    ensures var ticks := TicksAfterSizes(t, events, sizes[..k], runs);
            && TicksAfterSizes(t, events, sizes[..k + 1], runs) == TicksAfter(ticks, |Slices(events, sizes[k])|, runs)
            && MeasurementsAt(clock, t, events, sizes[..k + 1], runs)
               == MeasurementsAt(clock, t, events, sizes[..k], runs)
                  + [MeasurementAt(clock, ticks, events, sizes[k], runs)]
  {
    assert sizes[..k + 1][..k] == sizes[..k];
  }

  lemma PrefixOfPrefix(a: seq<Op>, b: seq<Op>, c: seq<Op>)
    requires a <= b <= c
    ensures a <= c
  {
  }

  ghost predicate NoFailure(fails: nat -> bool, first: nat, end: nat) {
    forall i | first <= i < end :: !fails(i)
  }

  /** Of the operations from the first up to the end only the last has failed. */
  ghost predicate FirstFailure(fails: nat -> bool, first: nat, end: nat) {
    first < end && fails(end - 1) && NoFailure(fails, first, end - 1)
  }

  method Summarise(batchSize: int, insertOperations: int, runs: seq<RunMeasurement>) returns (m: Measurement)
    requires runs != []
    ensures m == Summary(batchSize, insertOperations, runs)
  {
    var medianRate := Median(runs, RateOf);
    var medianProcessing := Median(runs, ProcessingOf);
    var medianInsert := Median(runs, InsertingOf);
    m := Measurement(batchSize, insertOperations, medianRate, medianProcessing, medianInsert, runs);
  }

  // ---------- the runner ----------

  class Runner {
    const events: seq<Event>
    const batchSizes: seq<int>
    const runs: nat
    /** The k-th reading of the clock, in nanoseconds. */
    const clock: nat -> int
    /** Whether the k-th database operation fails. */
    const fails: nat -> bool

    var log: seq<Op>
    var ticks: nat

    constructor (events: seq<Event>, batchSizes: seq<int>, runs: nat, clock: nat -> int, fails: nat -> bool)
      ensures this.events == events && this.batchSizes == batchSizes && this.runs == runs
      ensures this.clock == clock && this.fails == fails && log == [] && ticks == 0
    {
      this.events, this.batchSizes, this.runs, this.clock, this.fails := events, batchSizes, runs, clock, fails;
      log, ticks := [], 0;
    }

    method Perform(op: Op) returns (ok: bool)
      modifies this`log
      ensures log == old(log) + [op] && ok == !fails(|old(log)|)
    {
      ok := !fails(|log|);
      log := log + [op];
    }

    method Now() returns (instant: int)
      modifies this`ticks
      ensures instant == clock(old(ticks)) && ticks == old(ticks) + 1
    {
      instant := clock(ticks);
      ticks := ticks + 1;
    }

    /** One insert between two readings of the clock. */
    method TimedInsert(slice: seq<Event>) returns (elapsed: Option<int>)
      modifies this
      ensures log == old(log) + [InsertBatch(slice)]
      ensures elapsed.None? <==> fails(|old(log)|)
      ensures elapsed.Some? ==> ticks == old(ticks) + 2 && elapsed.value == clock(old(ticks) + 1) - clock(old(ticks))
    {
      var insertStart := Now();
      var ok := Perform(InsertBatch(slice));
      if !ok {
        return None;
      }
      var insertEnd := Now();
      elapsed := Some(insertEnd - insertStart);
    }

    /** Every slice in order, or those up to the first failure, and the time spent inserting. */
    method InsertSlices(batchSize: int) returns (insertDuration: Option<int>)
      requires batchSize > 0
      modifies this
      ensures log <= old(log) + Inserts(Slices(events, batchSize))
      ensures insertDuration.None? ==> FirstFailure(fails, |old(log)|, |log|)
      ensures insertDuration.Some? ==>
                var c := |Slices(events, batchSize)|;
                && NoFailure(fails, |old(log)|, |log|)
                && log == old(log) + Inserts(Slices(events, batchSize))
                && ticks == old(ticks) + 2 * c
                && insertDuration.value == InsertTime(clock, old(ticks), c)
    {
      ghost var plan, t, done := log + Inserts(Slices(events, batchSize)), ticks, 0;
      var total, start := 0, 0;
      while start < |events|
        invariant |log| >= |old(log)| && NoFailure(fails, |old(log)|, |log|)
        invariant ticks == t + 2 * done
        invariant Midway(events, batchSize, start, log, plan, done, clock, t, total)
        decreases |events| - start
      {
        var end := Min(start + batchSize, |events|);
        MidwayAdvances(events, batchSize, start, log, plan, done, clock, t, total);
        var elapsed := TimedInsert(events[start..end]);
        if elapsed.None? {
          return None;
        }
        total := total + elapsed.value;
        done := done + 1;
        start := start + batchSize;
      }
      insertDuration := Some(total);
    }

    /** One run: a reset, then every slice, or everything up to the first failure. */
    method RunOnce(batchSize: int) returns (result: Option<RunMeasurement>)
      requires batchSize > 0
      modifies this
      ensures log <= old(log) + PlanRun(events, batchSize)
      ensures result.None? ==> FirstFailure(fails, |old(log)|, |log|)
      ensures result.Some? ==> NoFailure(fails, |old(log)|, |log|) && log == old(log) + PlanRun(events, batchSize)
      ensures result.Some? ==>
                var c := |Slices(events, batchSize)|;
                result.value == RunAt(clock, old(ticks), |events|, c) && ticks == old(ticks) + 2 * c + 2
    {
      ghost var plan := log + PlanRun(events, batchSize);
      DoNext(log, Reset, Inserts(Slices(events, batchSize)), plan);
      var ok := Perform(Reset);
      if !ok {
        return None;
      }
      var processingStart := Now();
      var insertDuration := InsertSlices(batchSize);
      if insertDuration.None? {
        return None;
      }
      var processingEnd := Now();
      var processingDuration := processingEnd - processingStart;
      result := Some(RunMeasurement(
                       PerSecond(|events|, processingDuration),
                       Milliseconds(processingDuration), Milliseconds(insertDuration.value)));
    }

    /** All runs of one batch size, or everything up to the first failure. */
    method RepeatRuns(batchSize: int) returns (result: Option<seq<RunMeasurement>>)
      requires batchSize > 0
      modifies this
      ensures log <= old(log) + PlanRuns(events, batchSize, runs)
      ensures result.None? ==> FirstFailure(fails, |old(log)|, |log|)
      ensures result.Some? ==>
                var c := |Slices(events, batchSize)|;
                && NoFailure(fails, |old(log)|, |log|)
                && log == old(log) + PlanRuns(events, batchSize, runs)
                && ticks == TicksAfter(old(ticks), c, runs)
                && result.value == RunsAt(clock, old(ticks), |events|, c, runs)
    {
      ghost var before, t, c := log, ticks, |Slices(events, batchSize)|;
      var runMeasurements := [];
      for runIndex := 0 to runs
        invariant |log| >= |before| && NoFailure(fails, |before|, |log|)
        invariant log == before + PlanRuns(events, batchSize, runIndex)
        invariant ticks == TicksAfter(t, c, runIndex)
        invariant runMeasurements == RunsAt(clock, t, |events|, c, runIndex)
      {
        RunPlanned(before, events, batchSize, runIndex, runs);
        ghost var next := log + PlanRun(events, batchSize);
        var run := RunOnce(batchSize);
        if run.None? {
          PrefixOfPrefix(log, next, before + PlanRuns(events, batchSize, runs));
          return None;
        }
        runMeasurements := runMeasurements + [run.value];
      }
      result := Some(runMeasurements);
    }

    /** All runs of one batch size and their summary. */
    method MeasureSize(batchSize: int) returns (result: Option<Measurement>)
      requires batchSize > 0 && runs > 0
      modifies this
      ensures log <= old(log) + PlanRuns(events, batchSize, runs)
      ensures result.None? ==> FirstFailure(fails, |old(log)|, |log|)
      ensures result.Some? ==>
                var c := |Slices(events, batchSize)|;
                && NoFailure(fails, |old(log)|, |log|)
                && log == old(log) + PlanRuns(events, batchSize, runs)
                && ticks == TicksAfter(old(ticks), c, runs)
                && result.value == MeasurementAt(clock, old(ticks), events, batchSize, runs)
    {
      var insertOperations := (|events| + batchSize - 1) / batchSize;
      SliceCount(events, batchSize);
      var runMeasurements := RepeatRuns(batchSize);
      if runMeasurements.None? {
        return None;
      }
      var measurement := Summarise(batchSize, insertOperations, runMeasurements.value);
      result := Some(measurement);
    }

    /** What is done once the first k batch sizes are: their operations, and their measurements. */
    ghost predicate Done(k: nat, before: seq<Op>, t: nat, measured: seq<Measurement>)
      requires AllPositive(batchSizes) && runs > 0
      reads this
    {
      && k <= |batchSizes| && |log| >= |before| && NoFailure(fails, |before|, |log|)
      && log == before + Plan(events, batchSizes[..k], runs)
      && ticks == TicksAfterSizes(t, events, batchSizes[..k], runs)
      && measured == MeasurementsAt(clock, t, events, batchSizes[..k], runs)
    }

    method NextSize(k: nat, measured: seq<Measurement>, ghost before: seq<Op>, ghost t: nat)
      returns (result: Option<seq<Measurement>>)
      requires AllPositive(batchSizes) && runs > 0 && k < |batchSizes| && Done(k, before, t, measured)
      modifies this
      ensures result.Some? ==> Done(k + 1, before, t, result.value)
      ensures result.None? ==>
                FirstFailure(fails, |before|, |log|) && log <= before + Plan(events, batchSizes, runs)
    {
      SizeMeasured(clock, t, events, batchSizes, k, runs);
      SizePlanned(before, events, batchSizes, k, runs);
      ghost var next := log + PlanRuns(events, batchSizes[k], runs);
      var measurement := MeasureSize(batchSizes[k]);
      if measurement.None? {
        PrefixOfPrefix(log, next, before + Plan(events, batchSizes, runs));
        return None;
      }
      result := Some(measured + [measurement.value]);
    }

    /**
     All runs of all batch sizes: without a failure exactly the planned operations, and the measurements
     the clock gives; otherwise nothing, having stopped at the first failure.
     */
    method Run() returns (result: Option<seq<Measurement>>)
      requires AllPositive(batchSizes) && runs > 0
      modifies this
      ensures log <= old(log) + Plan(events, batchSizes, runs)
      ensures result.None? ==> FirstFailure(fails, |old(log)|, |log|)
      ensures result.Some? ==> NoFailure(fails, |old(log)|, |log|) && log == old(log) + Plan(events, batchSizes, runs)
      ensures result.Some? ==> result.value == MeasurementsAt(clock, old(ticks), events, batchSizes, runs)
    {
      ghost var before, t := log, ticks;
      var measurements := [];
      for k := 0 to |batchSizes|
        invariant Done(k, before, t, measurements)
      {
        var longer := NextSize(k, measurements, before, t);
        if longer.None? {
          return None;
        }
        measurements := longer.value;
      }
      assert batchSizes[..|batchSizes|] == batchSizes;
      result := Some(measurements);
    }
  }

  // ---------- slices partition the events ----------

  function CeilingQuotient(n: nat, b: int): int
    requires b > 0
  {
    if n == 0 then 0 else 1 + CeilingQuotient(if n <= b then 0 else n - b, b)
  }

  lemma {:induction false} CeilingByAdding(n: nat, b: int)
    requires b > 0
    ensures (n + b - 1) / b == CeilingQuotient(n, b)
  {
    if n > b {
      CeilingByAdding(n - b, b);
      OneMore(n - 1, b);
    } else if n > 0 {
      OneMore(n - 1, b);
      Small(n - 1, b);
    } else {
      Small(b - 1, b);
    }
  }

  lemma OneMore(x: int, b: int)
    requires b > 0
    ensures (x + b) / b == x / b + 1
  {
    var q, r := x / b, x % b;
    assert x + b == (q + 1) * b + r;
    Unique(x + b, b, q + 1, r);
  }

  lemma Small(x: nat, b: int)
    requires x < b
    ensures x / b == 0
  {
    Unique(x, b, 0, x);
  }

  lemma Unique(x: int, b: int, q: int, r: int)
    requires b > 0 && x == q * b + r && 0 <= r < b
    ensures x / b == q
  {
    var p, s := x / b, x % b;
    assert x == p * b + s;
    assert (p - q) * b == p * b - q * b;
    MultipleIsWide(p - q, b);
  }

  lemma MultipleIsWide(k: int, b: int)
    requires b > 0
    ensures k >= 1 ==> k * b >= b
    ensures k <= -1 ==> k * b <= -b
  {
    if k >= 1 {
      assert (k - 1) * b >= 0;
    } else if k <= -1 {
      assert (k + 1) * b <= 0;
    }
  }

  lemma {:induction false} SlicesFromCount(events: seq<Event>, batchSize: int, start: nat)
    requires batchSize > 0
    ensures |SlicesFrom(events, batchSize, start)|
            == CeilingQuotient(if start >= |events| then 0 else |events| - start, batchSize)
    decreases |events| - start
  {
    if start < |events| {
      SlicesFromCount(events, batchSize, start + batchSize);
    }
  }

  /** The number of inserts announced for a run is the number of slices made. */
  lemma SliceCount(events: seq<Event>, batchSize: int)
    requires batchSize > 0
    ensures |Slices(events, batchSize)| == (|events| + batchSize - 1) / batchSize
  {
    SlicesFromCount(events, batchSize, 0);
    CeilingByAdding(|events|, batchSize);
  }

  lemma {:induction false} FlattenCons(xs: seq<Event>, xss: seq<seq<Event>>)
    ensures Flatten([xs] + xss) == xs + Flatten(xss)
  {
    if xss == [] {
      assert [xs][..0] == [];
    } else {
      var init, last := xss[..|xss| - 1], xss[|xss| - 1];
      FlattenCons(xs, init);
      assert ([xs] + xss)[..|xss|] == [xs] + init;
      assert xs + (Flatten(init) + last) == (xs + Flatten(init)) + last;
    }
  }

  lemma {:induction false} SlicesFromPartition(events: seq<Event>, batchSize: int, start: nat)
    requires batchSize > 0
    ensures var slices := SlicesFrom(events, batchSize, start);
            && Flatten(slices) == (if start < |events| then events[start..] else [])
            && (forall i | 0 <= i < |slices| :: 1 <= |slices[i]| <= batchSize)
            && (forall i | 0 <= i < |slices| - 1 :: |slices[i]| == batchSize)
    decreases |events| - start
  {
    if start < |events| {
      var end := Min(start + batchSize, |events|);
      SlicesFromPartition(events, batchSize, start + batchSize);
      FlattenCons(events[start..end], SlicesFrom(events, batchSize, start + batchSize));
      assert events[start..] == events[start..end] + events[end..];
      assert end < |events| || events[end..] == [];
    }
  }

  /** The slices of a run are non-empty, full but for the last, and joined together give back the events. */
  lemma SlicesPartition(events: seq<Event>, batchSize: int)
    requires batchSize > 0
    ensures Flatten(Slices(events, batchSize)) == events
    ensures forall i | 0 <= i < |Slices(events, batchSize)| :: 1 <= |Slices(events, batchSize)[i]| <= batchSize
    ensures forall i | 0 <= i < |Slices(events, batchSize)| - 1 :: |Slices(events, batchSize)[i]| == batchSize
  {
    SlicesFromPartition(events, batchSize, 0);
  }

  // ---------- what the plan does to the table ----------

  /** The rows in the table after some operations. */
  function Replay(table: seq<Event>, ops: seq<Op>): seq<Event> {
    if ops == [] then table
    else
      var before, last := Replay(table, ops[..|ops| - 1]), ops[|ops| - 1];
      if last.Reset? then [] else before + last.events
  }

  lemma {:induction false} ReplayJoins(table: seq<Event>, first: seq<Op>, second: seq<Op>)
    ensures Replay(table, first + second) == Replay(Replay(table, first), second)
  {
    if second == [] {
      assert first + second == first;
    } else {
      var init := second[..|second| - 1];
      ReplayJoins(table, first, init);
      assert (first + second)[..|first + second| - 1] == first + init;
    }
  }

  lemma {:induction false} ReplayInserts(table: seq<Event>, slices: seq<seq<Event>>)
    ensures Replay(table, Inserts(slices)) == table + Flatten(slices)
    decreases |slices|
  {
    if slices != [] {
      var first, rest := slices[0], slices[1..];
      ReplayInserts(table + first, rest);
      ReplayJoins(table, [InsertBatch(first)], Inserts(rest));
      assert [InsertBatch(first)][..0] == [];
      FlattenCons(first, rest);
      assert slices == [first] + rest;
      assert (table + first) + Flatten(rest) == table + (first + Flatten(rest));
    }
  }

  lemma {:induction false} InsertsOneByOne(slices: seq<seq<Event>>)
    ensures |Inserts(slices)| == |slices| && forall i | 0 <= i < |slices| :: Inserts(slices)[i] == InsertBatch(slices[i])
  {
    if slices != [] {
      InsertsOneByOne(slices[1..]);
    }
  }

  /** Whatever was in the table, each run leaves exactly the events, each once and in order. */
  lemma RunLeavesEvents(table: seq<Event>, events: seq<Event>, batchSize: int)
    requires batchSize > 0
    ensures Replay(table, PlanRun(events, batchSize)) == events
  {
    var slices := Slices(events, batchSize);
    ReplayJoins(table, [Reset], Inserts(slices));
    assert [Reset][..0] == [];
    ReplayInserts([], slices);
    SlicesPartition(events, batchSize);
  }

  function CountInserts(ops: seq<Op>): nat {
    if ops == [] then 0 else CountInserts(ops[..|ops| - 1]) + if ops[|ops| - 1].Reset? then 0 else 1
  }

  lemma {:induction false} CountInsertsJoins(first: seq<Op>, second: seq<Op>)
    ensures CountInserts(first + second) == CountInserts(first) + CountInserts(second)
  {
    if second == [] {
      assert first + second == first;
    } else {
      var init := second[..|second| - 1];
      CountInsertsJoins(first, init);
      assert (first + second)[..|first + second| - 1] == first + init;
    }
  }

  lemma {:induction false} AllInserts(ops: seq<Op>)
    requires forall i | 0 <= i < |ops| :: ops[i].InsertBatch?
    ensures CountInserts(ops) == |ops|
  {
    if ops != [] {
      AllInserts(ops[..|ops| - 1]);
    }
  }

  /** The number of inserts announced for a run. */
  function InsertOperations(count: nat, batchSize: int): int
    requires batchSize > 0
  {
    (count + batchSize - 1) / batchSize
  }

  /** The inserts of all batch sizes, by the count each announces. */
  function AnnouncedInserts(count: nat, sizes: seq<int>): int
    requires AllPositive(sizes)
  {
    if sizes == [] then 0
    else AnnouncedInserts(count, sizes[..|sizes| - 1]) + InsertOperations(count, sizes[|sizes| - 1])
  }

  lemma RunInserts(events: seq<Event>, batchSize: int)
    requires batchSize > 0
    ensures CountInserts(PlanRun(events, batchSize)) == InsertOperations(|events|, batchSize)
  {
    var slices := Slices(events, batchSize);
    CountInsertsJoins([Reset], Inserts(slices));
    assert [Reset][..0] == [];
    InsertsOneByOne(slices);
    AllInserts(Inserts(slices));
    SliceCount(events, batchSize);
  }

  lemma {:induction false} RunsInserts(events: seq<Event>, batchSize: int, runs: nat)
    requires batchSize > 0
    ensures CountInserts(PlanRuns(events, batchSize, runs)) == runs * InsertOperations(|events|, batchSize)
  {
    if runs > 0 {
      RunsInserts(events, batchSize, runs - 1);
      CountInsertsJoins(PlanRuns(events, batchSize, runs - 1), PlanRun(events, batchSize));
      RunInserts(events, batchSize);
      Distribute(runs - 1, 1, InsertOperations(|events|, batchSize));
    }
  }

  lemma Distribute(a: int, b: int, c: int)
    ensures (a + b) * c == a * c + b * c
  {
  }

  lemma Spread(a: int, b: int, c: int)
    ensures c * (a + b) == c * a + c * b
  {
  }

  /** A completed measurement makes runs times the sum of the announced numbers of inserts. */
  lemma {:induction false} PlanInserts(events: seq<Event>, sizes: seq<int>, runs: nat)
    requires AllPositive(sizes)
    ensures CountInserts(Plan(events, sizes, runs)) == runs * AnnouncedInserts(|events|, sizes)
  {
    if sizes != [] {
      var init, last := sizes[..|sizes| - 1], sizes[|sizes| - 1];
      PlanInserts(events, init, runs);
      RunsInserts(events, last, runs);
      CountInsertsJoins(Plan(events, init, runs), PlanRuns(events, last, runs));
      Spread(AnnouncedInserts(|events|, init), InsertOperations(|events|, last), runs);
    }
  }

  // ---------- laws of the measurements ----------

  ghost predicate Monotone(clock: nat -> int) {
    forall i: nat, j: nat | i <= j :: clock(i) <= clock(j)
  }

  /** With a clock that never goes back, the inserts together take no longer than the run. */
  lemma {:induction false} InsertTimeWithin(clock: nat -> int, t: nat, c: nat)
    requires Monotone(clock)
    ensures 0 <= InsertTime(clock, t, c) <= clock(t + 2 * c) - clock(t)
  {
    if c > 0 {
      InsertTimeWithin(clock, t, c - 1);
      assert clock(t + 2 * c - 2) <= clock(t + 2 * c - 1) <= clock(t + 2 * c);
    }
  }

  /** f(0) + f(1) + ... up to c terms. */
  ghost function Sum(c: nat, f: nat -> int): int {
    if c == 0 then 0 else Sum(c - 1, f) + f(c - 1)
  }

  /** The reading after the j-th insert minus the reading before it, the first such reading being the t-th. */
  ghost function Elapsed(clock: nat -> int, t: nat): nat -> int {
    (j: nat) => clock(t + 2 * j + 1) - clock(t + 2 * j)
  }

  lemma {:induction false} InsertTimeIsSum(clock: nat -> int, t: nat, c: nat)
    ensures InsertTime(clock, t, c) == Sum(c, Elapsed(clock, t))
  {
    if c > 0 {
      InsertTimeIsSum(clock, t, c - 1);
      assert Elapsed(clock, t)(c - 1) == clock(t + 2 * c - 1) - clock(t + 2 * c - 2) by {
        assert t + 2 * (c - 1) + 1 == t + 2 * c - 1 && t + 2 * (c - 1) == t + 2 * c - 2;
      }
    }
  }

  /**
   What a run of c inserts reports, in clock readings, the first being the start-th: the time from its
   first reading to its last, and the sum over its inserts of the reading after minus the reading before,
   both in milliseconds; and the events per second of the whole time.
   */
  ghost predicate TimedBy(run: RunMeasurement, clock: nat -> int, start: nat, count: nat, c: nat) {
    var whole, inserting := clock(start + 2 * c + 1) - clock(start), Sum(c, Elapsed(clock, start + 1));
    && run.processingMS == Finite(whole as real / 1_000_000.0)
    && run.insertMS == Finite(inserting as real / 1_000_000.0)
    && (whole != 0 ==> run.eventsPerSecond == Finite(count as real / (whole as real / 1_000_000_000.0)))
    && (whole == 0 && count > 0 ==> run.eventsPerSecond == Infinite)
  }

  lemma RunIsTimed(clock: nat -> int, t: nat, count: nat, c: nat)
    ensures TimedBy(RunAt(clock, t, count, c), clock, t, count, c)
  {
    InsertTimeIsSum(clock, t + 1, c);
  }

  /** The time outside the inserts: before the first, between them, and after the last. */
  function IdleTime(clock: nat -> int, t: nat, c: nat): int {
    if c == 0 then clock(t + 1) - clock(t) else IdleTime(clock, t, c - 1) + (clock(t + 2 * c + 1) - clock(t + 2 * c))
  }

  /** Every tick of a run is counted once, as time inserting or as time between inserts. */
  lemma {:induction false} TimeIsAccountedFor(clock: nat -> int, t: nat, c: nat)
    ensures ProcessingTime(clock, t, c) == InsertTime(clock, t + 1, c) + IdleTime(clock, t, c)
  {
    if c > 0 {
      TimeIsAccountedFor(clock, t, c - 1);
      assert t + 1 + 2 * c - 2 == t + 2 * (c - 1) + 1 && t + 1 + 2 * c - 1 == t + 2 * c;
    }
  }

  lemma {:induction false} RunsAtIndex(clock: nat -> int, t: nat, count: nat, c: nat, runs: nat, i: nat)
    requires i < runs
    ensures RunsAt(clock, t, count, c, runs)[i] == RunAt(clock, TicksAfter(t, c, i), count, c)
    decreases runs
  {
    if i < runs - 1 {
      RunsAtIndex(clock, t, count, c, runs - 1, i);
    }
  }

  lemma RunInsertsWithin(clock: nat -> int, t: nat, count: nat, c: nat)
    requires Monotone(clock)
    ensures var run := RunAt(clock, t, count, c);
            Le(Finite(0.0), run.insertMS) && Le(run.insertMS, run.processingMS)
  {
    InsertTimeWithin(clock, t + 1, c);
    assert clock(t) <= clock(t + 1) && clock(t + 1 + 2 * c) == clock(t + 2 * c + 1);
  }

  /** No run spends more time inserting than it takes. */
  ghost predicate Within(runs: seq<RunMeasurement>) {
    forall i | 0 <= i < |runs| :: Le(Finite(0.0), runs[i].insertMS) && Le(runs[i].insertMS, runs[i].processingMS)
  }

  lemma RunsInsertWithin(clock: nat -> int, t: nat, count: nat, c: nat, runs: nat)
    requires Monotone(clock)
    ensures Within(RunsAt(clock, t, count, c, runs))
  {
    forall i | 0 <= i < runs
      ensures var run := RunsAt(clock, t, count, c, runs)[i];
              Le(Finite(0.0), run.insertMS) && Le(run.insertMS, run.processingMS)
    {
      RunsAtIndex(clock, t, count, c, runs, i);
      RunInsertsWithin(clock, TicksAfter(t, c, i), count, c);
    }
  }

  lemma SummaryDominated(runs: seq<RunMeasurement>)
    requires runs != [] && Within(runs)
    ensures Le(MedianOf(Selected(runs, InsertingOf)), MedianOf(Selected(runs, ProcessingOf)))
  {
    var a, b := Selected(runs, InsertingOf), Selected(runs, ProcessingOf);
    MedianDominated(a, b, MedianOf(a), MedianOf(b));
  }

  /** For any number of runs the median insert time is at most the median processing time. */
  lemma MedianInsertWithin(clock: nat -> int, t: nat, events: seq<Event>, batchSize: int, runs: nat)
    requires Monotone(clock) && batchSize > 0 && runs > 0
    ensures var m := MeasurementAt(clock, t, events, batchSize, runs);
            Le(m.medianInsertMS, m.medianProcessingMS)
  {
    var c := |Slices(events, batchSize)|;
    RunsInsertWithin(clock, t, |events|, c, runs);
    SummaryDominated(RunsAt(clock, t, |events|, c, runs));
  }

  lemma {:induction false} MeasurementsCount(clock: nat -> int, t: nat, events: seq<Event>, sizes: seq<int>, runs: nat)
    requires AllPositive(sizes) && runs > 0
    ensures |MeasurementsAt(clock, t, events, sizes, runs)| == |sizes|
    decreases |sizes|
  {
    if sizes != [] {
      MeasurementsCount(clock, t, events, sizes[..|sizes| - 1], runs);
    }
  }

  lemma {:induction false} MeasurementsAtIndex(
    clock: nat -> int, t: nat, events: seq<Event>, sizes: seq<int>, runs: nat, k: nat)
    requires AllPositive(sizes) && runs > 0 && k < |sizes|
    ensures |MeasurementsAt(clock, t, events, sizes, runs)| == |sizes|
    ensures MeasurementsAt(clock, t, events, sizes, runs)[k]
            == MeasurementAt(clock, TicksAfterSizes(t, events, sizes[..k], runs), events, sizes[k], runs)
    decreases |sizes|
  {
    var init := sizes[..|sizes| - 1];
    MeasurementsCount(clock, t, events, init, runs);
    MeasurementsCount(clock, t, events, sizes, runs);
    if k < |init| {
      MeasurementsAtIndex(clock, t, events, init, runs, k);
      assert init[..k] == sizes[..k];
    } else {
      assert init == sizes[..k];
    }
  }

  /**
   What a report may say of a batch size: how many inserts every run makes, one entry for each run, none of
   which spent more time inserting than it took, and medians in the same relation.
   */
  ghost predicate Credible(m: Measurement, events: seq<Event>, batchSize: int, runs: nat)
    requires batchSize > 0
  {
    && m.batchSize == batchSize
    && m.insertOperations == CountInserts(PlanRun(events, batchSize))
    && |m.runs| == runs && Within(m.runs)
    && IsMedian(Selected(m.runs, RateOf), m.medianEventsPerSecond)
    && IsMedian(Selected(m.runs, ProcessingOf), m.medianProcessingMS)
    && IsMedian(Selected(m.runs, InsertingOf), m.medianInsertMS)
    && Le(m.medianInsertMS, m.medianProcessingMS)
  }

  lemma MeasurementIsCredible(clock: nat -> int, t: nat, events: seq<Event>, batchSize: int, runs: nat)
    requires batchSize > 0 && runs > 0 && Monotone(clock)
    ensures Credible(MeasurementAt(clock, t, events, batchSize, runs), events, batchSize, runs)
  {
    RunInserts(events, batchSize);
    SliceCount(events, batchSize);
    RunsInsertWithin(clock, t, |events|, |Slices(events, batchSize)|, runs);
    MedianInsertWithin(clock, t, events, batchSize, runs);
  }

  /** With a clock that never goes back, every measurement of a completed report is credible. */
  lemma ReportIsCredible(clock: nat -> int, t: nat, events: seq<Event>, sizes: seq<int>, runs: nat, k: nat)
    requires AllPositive(sizes) && runs > 0 && k < |sizes| && Monotone(clock)
    ensures |MeasurementsAt(clock, t, events, sizes, runs)| == |sizes|
    ensures Credible(MeasurementsAt(clock, t, events, sizes, runs)[k], events, sizes[k], runs)
  {
    MeasurementsAtIndex(clock, t, events, sizes, runs, k);
    MeasurementIsCredible(clock, TicksAfterSizes(t, events, sizes[..k], runs), events, sizes[k], runs);
  }

  // ---------- which readings a report uses ----------

  lemma {:induction false} RunReadings(events: seq<Event>, batchSize: int, t: nat, runs: nat)
    requires batchSize > 0
    ensures TicksAfter(t, |Slices(events, batchSize)|, runs) == t + 2 * |PlanRuns(events, batchSize, runs)|
    ensures |PlanRuns(events, batchSize, runs)| == runs * (|Slices(events, batchSize)| + 1)
  {
    if runs > 0 {
      RunReadings(events, batchSize, t, runs - 1);
      InsertsOneByOne(Slices(events, batchSize));
      Distribute(runs - 1, 1, |Slices(events, batchSize)| + 1);
    }
  }

  lemma {:induction false} SizeReadings(events: seq<Event>, sizes: seq<int>, t: nat, runs: nat)
    requires AllPositive(sizes)
    ensures TicksAfterSizes(t, events, sizes, runs) == t + 2 * |Plan(events, sizes, runs)|
  {
    if sizes != [] {
      var init, last := sizes[..|sizes| - 1], sizes[|sizes| - 1];
      SizeReadings(events, init, t, runs);
      RunReadings(events, last, TicksAfterSizes(t, events, init, runs), runs);
    }
  }

  lemma MeasurementIsTimed(clock: nat -> int, t: nat, events: seq<Event>, batchSize: int, runs: nat, i: nat)
    returns (run: RunMeasurement, start: nat)
    requires batchSize > 0 && i < runs
    ensures |MeasurementAt(clock, t, events, batchSize, runs).runs| == runs
    ensures run == MeasurementAt(clock, t, events, batchSize, runs).runs[i]
    ensures start == t + 2 * |PlanRuns(events, batchSize, i)|
    ensures TimedBy(run, clock, start, |events|, |Slices(events, batchSize)|)
  {
    var c := |Slices(events, batchSize)|;
    RunReadings(events, batchSize, t, i);
    RunsAtIndex(clock, t, |events|, c, runs, i);
    start := TicksAfter(t, c, i);
    run := RunAt(clock, start, |events|, c);
    RunIsTimed(clock, start, |events|, c);
  }

  /**
   Run i of batch size k in a report is timed by its own readings: there are two for every operation,
   so its first comes after two for each operation of the batch sizes and runs before it.
   */
  lemma ReportIsTimed(clock: nat -> int, t: nat, events: seq<Event>, sizes: seq<int>, runs: nat, k: nat, i: nat)
    returns (run: RunMeasurement, start: nat)
    requires AllPositive(sizes) && k < |sizes| && i < runs
    ensures |MeasurementsAt(clock, t, events, sizes, runs)| == |sizes|
    ensures |MeasurementsAt(clock, t, events, sizes, runs)[k].runs| == runs
    ensures run == MeasurementsAt(clock, t, events, sizes, runs)[k].runs[i]
    ensures start == t + 2 * |Plan(events, sizes[..k], runs)| + 2 * |PlanRuns(events, sizes[k], i)|
    ensures TimedBy(run, clock, start, |events|, |Slices(events, sizes[k])|)
  {
    var before := TicksAfterSizes(t, events, sizes[..k], runs);
    MeasurementsAtIndex(clock, t, events, sizes, runs, k);
    SizeReadings(events, sizes[..k], t, runs);
    run, start := MeasurementIsTimed(clock, before, events, sizes[k], runs, i);
  }

  /** The clock moves during every run of a batch size. */
  ghost predicate Moves(clock: nat -> int, t: nat, c: nat, runs: nat) {
    forall i | 0 <= i < runs :: 0 < ProcessingTime(clock, TicksAfter(t, c, i), c)
  }

  lemma RateOfTime(count: nat, duration: int)
    requires 0 < count && 0 < duration
    ensures Milliseconds(duration).value > 0.0
    ensures PerSecond(count, duration) == Quotient(1000.0 * count as real, Milliseconds(duration))
  {
    var d, n := duration as real, count as real;
    assert n / (d / 1_000_000_000.0) == n * 1_000_000_000.0 / d;
    assert 1000.0 * n / (d / 1_000_000.0) == 1000.0 * n * 1_000_000.0 / d;
  }

  /** Every run takes some time, and its rate is n over that time. */
  ghost predicate RatesOfTimes(runs: seq<RunMeasurement>, n: real) {
    forall i | 0 <= i < |runs| ::
      && runs[i].processingMS.Finite? && 0.0 < runs[i].processingMS.value
      && runs[i].eventsPerSecond == Quotient(n, runs[i].processingMS)
  }

  lemma RatesAreReciprocals(clock: nat -> int, t: nat, count: nat, c: nat, runs: nat)
    requires count > 0 && Moves(clock, t, c, runs)
    ensures RatesOfTimes(RunsAt(clock, t, count, c, runs), 1000.0 * count as real)
  {
    forall i | 0 <= i < runs
      ensures var run := RunsAt(clock, t, count, c, runs)[i];
              && run.processingMS.Finite? && 0.0 < run.processingMS.value
              && run.eventsPerSecond == Quotient(1000.0 * count as real, run.processingMS)
    {
      RunsAtIndex(clock, t, count, c, runs, i);
      RateOfTime(count, ProcessingTime(clock, TicksAfter(t, c, i), c));
    }
  }

  lemma SummaryReciprocal(runs: seq<RunMeasurement>, n: real)
    requires |runs| % 2 == 1 && 0.0 < n && RatesOfTimes(runs, n)
    ensures var time := MedianOf(Selected(runs, ProcessingOf));
            time.Finite? && 0.0 < time.value && MedianOf(Selected(runs, RateOf)) == Quotient(n, time)
  {
    var rates, times := Selected(runs, RateOf), Selected(runs, ProcessingOf);
    OddMedianReciprocal(rates, times, n, MedianOf(times));
    MedianIsUnique(rates, MedianOf(rates), Quotient(n, MedianOf(times)));
  }

  /** For an odd number of runs the median rate is the number of events over the median processing time. */
  lemma MedianRateIsRateOfMedian(clock: nat -> int, t: nat, events: seq<Event>, batchSize: int, runs: nat)
    requires batchSize > 0 && runs % 2 == 1 && events != [] && Moves(clock, t, |Slices(events, batchSize)|, runs)
    ensures var m := MeasurementAt(clock, t, events, batchSize, runs);
            && m.medianProcessingMS.Finite? && 0.0 < m.medianProcessingMS.value
            && m.medianEventsPerSecond == Quotient(1000.0 * |events| as real, m.medianProcessingMS)
  {
    var c := |Slices(events, batchSize)|;
    RatesAreReciprocals(clock, t, |events|, c, runs);
    SummaryReciprocal(RunsAt(clock, t, |events|, c, runs), 1000.0 * |events| as real);
  }

  // ---------- options ----------

  datatype Options = Options(eventCount: int, runs: int, batchSizes: seq<int>)

  datatype OptionsError = CountNotPositive | RunsNotPositive | SizeNotPositive | SizeDuplicated(size: int)

  const DEFAULT_SIZES: seq<int> := [1, 100, 500, 1000]

  predicate AllDistinct(sizes: seq<int>) {
    forall i, j | 0 <= i < j < |sizes| :: sizes[i] != sizes[j]
  }

  function SizesOf(options: Options): seq<int> {
    if options.batchSizes == [] then DEFAULT_SIZES else options.batchSizes
  }

  /** The sizes before this one are acceptable, and this one is not, for this reason. */
  ghost predicate FirstBad(sizes: seq<int>, error: OptionsError) {
    exists i ::
      && 0 <= i < |sizes| && AllPositive(sizes[..i]) && AllDistinct(sizes[..i])
      && error == (if sizes[i] <= 0 then SizeNotPositive else SizeDuplicated(sizes[i]))
      && (sizes[i] <= 0 || sizes[i] in sizes[..i])
  }

  /** Options pass exactly when both counts are positive and the sizes, or the defaults, are positive and distinct. */
  method ValidateOptions(options: Options) returns (result: Result<Options, OptionsError>)
    ensures result.Ok? <==>
              options.eventCount > 0 && options.runs > 0 && AllPositive(SizesOf(options)) && AllDistinct(SizesOf(options))
    ensures result.Ok? ==> result.value == Options(options.eventCount, options.runs, SizesOf(options))
    ensures result.Ok? && options.batchSizes == [] ==> result.value.batchSizes == [1, 100, 500, 1000]
    ensures options.eventCount <= 0 ==> result == Err(CountNotPositive)
    ensures options.eventCount > 0 && options.runs <= 0 ==> result == Err(RunsNotPositive)
    ensures options.eventCount > 0 && options.runs > 0 && result.Err? ==> FirstBad(SizesOf(options), result.error)
  {
    if options.eventCount <= 0 {
      return Err(CountNotPositive);
    }
    if options.runs <= 0 {
      return Err(RunsNotPositive);
    }
    var sizes := options.batchSizes;
    if |sizes| == 0 {
      sizes := DEFAULT_SIZES;
    }
    var seen: set<int> := {};
    var i := 0;
    while i < |sizes|
      invariant i <= |sizes|
      invariant seen == set size | size in sizes[..i]
      invariant AllPositive(sizes[..i]) && AllDistinct(sizes[..i])
    {
      if sizes[i] <= 0 {
        return Err(SizeNotPositive);
      }
      if sizes[i] in seen {
        return Err(SizeDuplicated(sizes[i]));
      }
      assert sizes[..i + 1] == sizes[..i] + [sizes[i]];
      seen := seen + {sizes[i]};
      i := i + 1;
    }
    assert sizes[..i] == sizes;
    result := Ok(Options(options.eventCount, options.runs, sizes));
  }
}
