/** The `CompressionQueue` object with its counters, flushing, and every run of overlapping batches. */
module QueueRuns {
  import opened Basics
  import opened CompressionQueue

  // ----- The average of the last hundred ratios -----

  function Sum(xs: seq<real>): real {
    if |xs| == 0 then 0.0 else Sum(xs[..|xs| - 1]) + xs[|xs| - 1]
  }

  function Mean(xs: seq<real>): real {
    if |xs| == 0 then 0.0 else Sum(xs) / |xs| as real
  }

  function Last(xs: seq<real>, n: nat): seq<real> {
    if |xs| <= n then xs else xs[|xs| - n..]
  }

  lemma LastOfOneMore(xs: seq<real>, x: real, n: nat)
    requires n > 0
    ensures Last(Last(xs, n) + [x], n) == Last(xs + [x], n)
  {
  }

  function RatiosOf(results: seq<Settled>): seq<real> {
    if |results| == 0 then []
    else
      var n := |results| - 1;
      RatiosOf(results[..n]) + if results[n].Compressed? then [results[n].ratio] else []
  }

  // ----- The object -----

  class Queue {
    const config: Config
    var queue: seq<Item>
    var processing: set<string>
    var pending: int
    var running: int
    var completed: int
    var failed: int
    var totalCompressed: int
    var compressionRatios: seq<real>
    var averageCompressionRatio: real
    // the items of all batches in flight, the ids that ended either way, how often each item was started, and every
    // ratio ever recorded
    ghost var inFlight: seq<Item>
    ghost var succeeded: set<string>
    ghost var abandoned: set<string>
    ghost var starts: map<string, nat>
    ghost var ratios: seq<real>

    ghost function View(): State
      reads this
    {
      State(queue, inFlight, succeeded, abandoned, starts)
    }

    /** Items are conserved and bounded, and every counter is the size of what it counts. */
    ghost predicate Valid()
      reads this
    {
      && Conserved(View()) && Bounded(config, View())
      && processing == Ids(inFlight)
      && pending == |queue| && running == |inFlight| && completed == |succeeded| && failed == |abandoned|
      && totalCompressed == |ratios|
      && compressionRatios == Last(ratios, 100) && averageCompressionRatio == Mean(compressionRatios)
    }

    constructor (config: Config)
      ensures Valid() && this.config == config && View() == State([], [], {}, {}, map[])
    {
      this.config := config;
      queue, processing, pending, running, completed, failed, totalCompressed := [], {}, 0, 0, 0, 0, 0;
      compressionRatios, averageCompressionRatio := [], 0.0;
      inFlight, succeeded, abandoned, starts, ratios := [], {}, {}, map[], [];
    }

    /** `enqueue`; the id is a new UUID. The result says whether processing is triggered at once. */
    method Enqueue(id: string, output: string) returns (triggers: bool)
      requires Valid() && id !in starts
      modifies this`queue, this`pending, this`starts
      ensures Valid() && View() == Add(old(View()), id, output)
      ensures triggers <==> |queue| >= config.batchSize
    {
      hide Conserved, Bounded;
      AddKeeps(config, View(), id, output);
      queue := queue + [Item(id, output, 0)];
      pending := pending + 1;
      starts := starts[id := 0];
      triggers := |queue| >= config.batchSize;
    }

    /** The first half of `processQueue`, up to the point where it waits. */
    method TakeBatch() returns (batch: seq<Item>)
      requires Valid()
      modifies this`queue, this`processing, this`pending, this`running, this`inFlight, this`starts
      ensures Valid() && View() == Take(config, old(View()))
      ensures batch == old(queue)[..BatchLength(config, old(View()))]
    {
      hide Conserved, Bounded, Ids, CountStarts, Mean, Last;
      TakeConserves(config, View());
      TakeBounds(config, View());
      RunningCount(View());
      if |queue| == 0 || |processing| >= config.maxConcurrent {
        TakesNothing(config, View());
        return [];
      }
      var available := config.maxConcurrent - |processing|;
      var count := if available < config.batchSize then available else config.batchSize;
      if count <= 0 {
        TakesNothing(config, View());
        return [];
      }
      if count > |queue| { count := |queue|; }
      batch := queue[..count];
      queue := queue[count..];
      MarkRunning(batch);
      IdsConcat(inFlight, batch);
      starts := CountStarts(starts, batch);
      inFlight := inFlight + batch;
    }

    method MarkRunning(batch: seq<Item>)
      modifies this`processing, this`pending, this`running
      ensures processing == old(processing) + Ids(batch)
      ensures pending == old(pending) - |batch| && running == old(running) + |batch|
    {
      for i := 0 to |batch|
        invariant processing == old(processing) + Ids(batch[..i])
        invariant pending == old(pending) - i && running == old(running) + i
      {
        IdsOneMore(batch, i);
        processing := processing + {batch[i].id};
        pending := pending - 1;
        running := running + 1;
      }
      assert batch[..|batch|] == batch;
    }

    /** `updateAverageRatio` */
    method UpdateAverageRatio()
      modifies this`compressionRatios, this`averageCompressionRatio
      ensures compressionRatios == Last(old(compressionRatios), 100) && averageCompressionRatio == Mean(compressionRatios)
    {
      if |compressionRatios| == 0 {
        averageCompressionRatio := 0.0;
        return;
      }
      if |compressionRatios| > 100 { compressionRatios := compressionRatios[|compressionRatios| - 100..]; }
      averageCompressionRatio := Sum(compressionRatios) / |compressionRatios| as real;
    }

    /** The second half of `processQueue` for one item. */
    method SettleItem(item: Item, result: Settled)
      requires compressionRatios == Last(ratios, 100) && averageCompressionRatio == Mean(compressionRatios)
      modifies this`queue, this`processing, this`pending, this`running, this`completed, this`failed, this`totalCompressed,
               this`compressionRatios, this`averageCompressionRatio, this`ratios
      ensures processing == old(processing) - {item.id} && running == old(running) - 1
      ensures completed == old(completed) + if result.Rejected? then 0 else 1
      ensures queue == old(queue) + if Retries(config, item, result) then [item.(retries := item.retries + 1)] else []
      ensures pending == old(pending) + if Retries(config, item, result) then 1 else 0
      ensures failed == old(failed) + if result.Rejected? && item.retries >= config.maxRetries then 1 else 0
      ensures ratios == old(ratios) + if result.Compressed? then [result.ratio] else []
      ensures totalCompressed == old(totalCompressed) + if result.Compressed? then 1 else 0
      ensures compressionRatios == Last(ratios, 100) && averageCompressionRatio == Mean(compressionRatios)
    {
      processing := processing - {item.id};
      running := running - 1;
      if !result.Rejected? {
        completed := completed + 1;
        if result.Compressed? {
          totalCompressed := totalCompressed + 1;
          LastOfOneMore(ratios, result.ratio, 100);
          ratios := ratios + [result.ratio];
          compressionRatios := compressionRatios + [result.ratio];
          UpdateAverageRatio();
        }
      } else if item.retries < config.maxRetries {
        queue := queue + [item.(retries := item.retries + 1)];
        pending := pending + 1;
      } else {
        failed := failed + 1;
      }
    }

    /** The second half of `processQueue`: a batch, anywhere among those in flight, has settled. */
    method SettleBatch(ghost before: seq<Item>, batch: seq<Item>, ghost after: seq<Item>, results: seq<Settled>)
      requires Valid() && inFlight == before + batch + after && |batch| == |results|
      modifies this
      ensures Valid() && View() == Settle(config, old(View()), before, batch, after, results)
      ensures ratios == old(ratios) + RatiosOf(results)
    {
      hide Conserved, Bounded, Mean, Last, Ids, Retried, Succeeded, GivenUp, SuccessCount, GivenUpCount, RatiosOf;
      ghost var s := View();
      NothingSettled(config);
      assert batch[..0] == [] && results[..0] == [];
      SettleConserves(config, s, before, batch, after, results);
      SettleBounds(config, s, before, batch, after, results);
      for i := 0 to |batch|
        invariant s.queue == old(queue) && inFlight == old(inFlight)
        invariant processing == old(processing) - Ids(batch[..i]) && running == old(running) - i
        invariant queue == old(queue) + Retried(config, batch[..i], results[..i]) && pending == |queue|
        invariant completed == old(completed) + SuccessCount(results[..i])
        invariant failed == old(failed) + GivenUpCount(config, batch[..i], results[..i])
        invariant ratios == old(ratios) + RatiosOf(results[..i]) && totalCompressed == |ratios|
        invariant compressionRatios == Last(ratios, 100) && averageCompressionRatio == Mean(compressionRatios)
        invariant succeeded == old(succeeded) && abandoned == old(abandoned) && starts == old(starts)
      {
        IdsOneMore(batch, i);
        SettledOneMore(config, batch, results, i);
        SettleItem(batch[i], results[i]);
      }
      assert batch[..|batch|] == batch && results[..|results|] == results;
      SettledCounts(config, s, before, batch, after, results);
      inFlight := before + after;
      succeeded := succeeded + Succeeded(batch, results);
      abandoned := abandoned + GivenUp(config, batch, results);
    }

    /** `flush`, called while any batches of other `processQueue` calls are in flight: every item ends. `settle` is what the
      * compressor does to each attempt; during each wait some other batch settles. */
    method Flush(others: seq<seq<Item>>, settle: (string, nat) -> Settled)
      requires Valid() && inFlight == Flat(others) && NoneEmpty(others)
      requires config.maxConcurrent > 0 && config.batchSize > 0
      modifies this
      ensures Valid() && queue == [] && inFlight == []
      ensures starts.Keys == old(starts.Keys) == succeeded + abandoned
    {
      var waiting := others;
      while |queue| > 0 || |processing| > 0
        invariant Valid() && inFlight == Flat(waiting) && NoneEmpty(waiting) && starts.Keys == old(starts.Keys)
        decreases Measure(config, View())
      {
        RunningCount(View());
        waiting := FlushRound(waiting, settle);
      }
      RunningCount(View());
      assert Ids(queue + inFlight) == {};
    }

    /** One turn of the flush loop: a batch of its own, then the wait, if anything is still processing. */
    method FlushRound(waiting: seq<seq<Item>>, settle: (string, nat) -> Settled) returns (rest: seq<seq<Item>>)
      requires Valid() && inFlight == Flat(waiting) && NoneEmpty(waiting) && (queue != [] || inFlight != [])
      requires config.maxConcurrent > 0 && config.batchSize > 0
      modifies this
      ensures Valid() && inFlight == Flat(rest) && NoneEmpty(rest) && starts.Keys == old(starts.Keys)
      ensures Measure(config, View()) < old(Measure(config, View()))
    {
      hide Conserved, Bounded, Measure, Retried, Succeeded, GivenUp, Mean, Last, Ids, Flat;
      TakeMakesProgress(config, View());
      var batch := TakeBatch();
      assert inFlight == Flat(waiting) + batch + [];
      SettleOne(Flat(waiting), batch, [], settle);
      assert Flat(waiting) + [] == inFlight;
      rest := waiting;
      RunningCount(View());
      if |processing| > 0 {
        FlatOfNone(waiting);
        var k :| 0 <= k < |waiting|;
        FlatSplit(waiting, k);
        SettleOne(Flat(waiting[..k]), waiting[k], Flat(waiting[k + 1..]), settle);
        rest := waiting[..k] + waiting[k + 1..];
      }
    }

    method SettleOne(ghost before: seq<Item>, batch: seq<Item>, ghost after: seq<Item>, settle: (string, nat) -> Settled)
      requires Valid() && inFlight == before + batch + after
      modifies this
      ensures Valid() && inFlight == before + after && starts == old(starts)
      ensures Measure(config, View()) + |batch| <= old(Measure(config, View()))
    {
      hide Conserved, Bounded, Measure, Retried, Succeeded, GivenUp, Mean, Last, Ids;
      var results := seq(|batch|, i requires 0 <= i < |batch| => settle(batch[i].id, batch[i].retries));
      SettleMakesProgress(config, View(), before, batch, after, results);
      SettleBatch(before, batch, after, results);
    }
  }

  /** The batches in flight, one after the other. */
  function Flat(batches: seq<seq<Item>>): seq<Item> {
    if |batches| == 0 then [] else Flat(batches[..|batches| - 1]) + batches[|batches| - 1]
  }

  predicate NoneEmpty(batches: seq<seq<Item>>) {
    forall k :: 0 <= k < |batches| ==> batches[k] != []
  }

  lemma FlatOfNone(batches: seq<seq<Item>>)
    ensures Flat(batches) != [] ==> |batches| > 0
  {
  }

  lemma {:induction false} FlatSplit(batches: seq<seq<Item>>, k: nat)
    requires k < |batches|
    ensures Flat(batches) == Flat(batches[..k]) + batches[k] + Flat(batches[k + 1..])
    ensures Flat(batches[..k] + batches[k + 1..]) == Flat(batches[..k]) + Flat(batches[k + 1..])
    decreases |batches|
  {
    hide Flat;
    var n := |batches| - 1;
    var init, last := batches[..n], batches[n];
    assert batches == init + [last];
    FlatOneMore(init, last);
    if k == n {
      assert batches[k + 1..] == [] && batches[..k] + [] == batches[..k];
      FlatOfNothing();
    } else {
      FlatSplit(init, k);
      var tail := init[k + 1..];
      assert init[..k] == batches[..k] && batches[k + 1..] == tail + [last];
      FlatOneMore(tail, last);
      ConcatAssociates(batches[..k], tail, [last]);
      FlatOneMore(batches[..k] + tail, last);
      ConcatAssociates(Flat(batches[..k]), Flat(tail), last);
      ConcatAssociates(Flat(batches[..k]) + batches[k], Flat(tail), last);
    }
  }

  lemma FlatOfNothing()
    ensures Flat([]) == []
  {
  }

  lemma FlatOneMore(batches: seq<seq<Item>>, batch: seq<Item>)
    ensures Flat(batches + [batch]) == Flat(batches) + batch
  {
    assert (batches + [batch])[..|batches|] == batches;
  }

  lemma NothingSettled(c: Config)
    ensures Ids([]) == {} && Retried(c, [], []) == [] && SuccessCount([]) == 0 && GivenUpCount(c, [], []) == 0 && RatiosOf([]) == []
  {
  }

  lemma TakesNothing(c: Config, s: State)
    requires BatchLength(c, s) == 0
    ensures Take(c, s) == s
  {
    assert s.inFlight + [] == s.inFlight && s.queue[0..] == s.queue && s.queue[..0] == [];
    assert CountStarts(s.starts, []) == s.starts;
  }

  lemma RunningCount(s: State)
    requires Conserved(s)
    ensures |Ids(s.inFlight)| == |s.inFlight|
  {
    DistinctConcat(s.queue, s.inFlight);
    DistinctCount(s.inFlight);
  }

  lemma IdsOneMore(batch: seq<Item>, i: nat)
    requires i < |batch|
    ensures Ids(batch[..i + 1]) == Ids(batch[..i]) + {batch[i].id}
  {
    assert batch[..i + 1] == batch[..i] + [batch[i]];
  }

  function SuccessCount(results: seq<Settled>): nat {
    if |results| == 0 then 0
    else SuccessCount(results[..|results| - 1]) + if results[|results| - 1].Rejected? then 0 else 1
  }

  function GivenUpCount(c: Config, batch: seq<Item>, results: seq<Settled>): nat
    requires |batch| == |results|
  {
    if |batch| == 0 then 0
    else
      var n := |batch| - 1;
      GivenUpCount(c, batch[..n], results[..n]) + if results[n].Rejected? && batch[n].retries >= c.maxRetries then 1 else 0
  }

  lemma SettledOneMore(c: Config, batch: seq<Item>, results: seq<Settled>, i: nat)
    requires |batch| == |results| && i < |batch|
    ensures Retried(c, batch[..i + 1], results[..i + 1])
            == Retried(c, batch[..i], results[..i])
               + if Retries(c, batch[i], results[i]) then [batch[i].(retries := batch[i].retries + 1)] else []
    ensures SuccessCount(results[..i + 1]) == SuccessCount(results[..i]) + if results[i].Rejected? then 0 else 1
    ensures GivenUpCount(c, batch[..i + 1], results[..i + 1])
            == GivenUpCount(c, batch[..i], results[..i]) + if results[i].Rejected? && batch[i].retries >= c.maxRetries then 1 else 0
    ensures RatiosOf(results[..i + 1]) == RatiosOf(results[..i]) + if results[i].Compressed? then [results[i].ratio] else []
  {
    assert batch[..i + 1][..i] == batch[..i] && results[..i + 1][..i] == results[..i];
  }

  lemma {:induction false} CountsAreSizes(c: Config, batch: seq<Item>, results: seq<Settled>)
    requires |batch| == |results| && Distinct(batch)
    ensures |Succeeded(batch, results)| == SuccessCount(results) && |GivenUp(c, batch, results)| == GivenUpCount(c, batch, results)
    ensures Succeeded(batch, results) <= Ids(batch) && GivenUp(c, batch, results) <= Ids(batch)
  {
    if |batch| > 0 {
      var n := |batch| - 1;
      assert batch == batch[..n] + [batch[n]];
      DistinctConcat(batch[..n], [batch[n]]);
      IdsConcat(batch[..n], [batch[n]]);
      CountsAreSizes(c, batch[..n], results[..n]);
      assert batch[n] in [batch[n]];
    }
  }

  /** The sizes after a batch settled. */
  lemma SettledCounts(c: Config, s: State, before: seq<Item>, batch: seq<Item>, after: seq<Item>, results: seq<Settled>)
    requires Conserved(s) && s.inFlight == before + batch + after && |batch| == |results|
    ensures |s.succeeded + Succeeded(batch, results)| == |s.succeeded| + SuccessCount(results)
    ensures |s.abandoned + GivenUp(c, batch, results)| == |s.abandoned| + GivenUpCount(c, batch, results)
    ensures Ids(before + after) == Ids(s.inFlight) - Ids(batch)
  {
    hide Distinct, Ids, Succeeded, GivenUp;
    DistinctConcat(s.queue, s.inFlight);
    DistinctConcat(before + batch, after);
    DistinctConcat(before, batch);
    IdsConcat(s.queue, s.inFlight);
    IdsConcat(before + batch, after);
    IdsConcat(before, batch);
    IdsConcat(before, after);
    CountsAreSizes(c, batch, results);
  }

  /** Conservation in numbers: enqueued items are pending, running, completed or failed. */
  lemma ConservedCount(s: State)
    requires Conserved(s)
    ensures |s.starts| == |s.queue| + |s.inFlight| + |s.succeeded| + |s.abandoned|
  {
    var live := s.queue + s.inFlight;
    DistinctCount(live);
    assert |s.starts.Keys| == |Ids(live) + s.succeeded + s.abandoned|;
  }

  // ----- Every run -----

  datatype Event =
    | Enqueued(id: string, output: string)
    | Processed                                   // a call of `processQueue` takes its batch, which may be empty
    | BatchSettled(before: seq<Item>, batch: seq<Item>, after: seq<Item>, results: seq<Settled>)

  predicate Enabled(s: State, e: Event) {
    match e
    case Enqueued(id, _) => id !in s.starts
    case Processed => true
    case BatchSettled(before, batch, after, results) =>
      batch != [] && |batch| == |results| && s.inFlight == before + batch + after
  }

  function Next(c: Config, s: State, e: Event): State
    requires Enabled(s, e)
  {
    match e
    case Enqueued(id, output) => Add(s, id, output)
    case Processed => Take(c, s)
    case BatchSettled(before, batch, after, results) => Settle(c, s, before, batch, after, results)
  }

  ghost predicate Possible(c: Config, s: State, run: seq<Event>)
    decreases |run|
  {
    |run| == 0 || (Enabled(s, run[0]) && Possible(c, Next(c, s, run[0]), run[1..]))
  }

  ghost function After(c: Config, s: State, run: seq<Event>): State
    requires Possible(c, s, run)
    decreases |run|
  {
    if |run| == 0 then s else After(c, Next(c, s, run[0]), run[1..])
  }

  lemma {:induction false} RunKeeps(c: Config, s: State, run: seq<Event>)
    requires Conserved(s) && Bounded(c, s) && Possible(c, s, run)
    ensures Conserved(After(c, s, run)) && Bounded(c, After(c, s, run))
    decreases |run|
  {
    hide Conserved, Bounded, Add, Take, Settle;
    if |run| > 0 {
      match run[0] {
        case Enqueued(id, output) =>
          assert id !in s.starts;
          AddKeeps(c, s, id, output);
        case Processed =>
          TakeConserves(c, s);
          TakeBounds(c, s);
        case BatchSettled(before, batch, after, results) =>
          SettleConserves(c, s, before, batch, after, results);
          SettleBounds(c, s, before, batch, after, results);
      }
      RunKeeps(c, Next(c, s, run[0]), run[1..]);
    }
  }

  const EMPTY := State([], [], {}, {}, map[])

  /** However calls of `processQueue` overlap: nothing is lost or doubled, never more than `maxConcurrent` items run, and no
    * item is started more than `maxRetries + 1` times (once, if that is not positive). */
  lemma EveryRunIsConserved(c: Config, run: seq<Event>, id: string)
    requires Possible(c, EMPTY, run)
    ensures var s := After(c, EMPTY, run);
            && |s.starts| == |s.queue| + |s.inFlight| + |s.succeeded| + |s.abandoned|
            && (s.inFlight != [] ==> |s.inFlight| <= c.maxConcurrent)
            && (id in s.starts ==> s.starts[id] <= 1 || s.starts[id] <= c.maxRetries + 1)
  {
    RunKeeps(c, EMPTY, run);
    var s := After(c, EMPTY, run);
    ConservedCount(s);
    if id in s.starts { assert StartsOk(c, s, id); }
  }

  /** The step starts or settles at least one item. */
  predicate Effective(c: Config, s: State, e: Event) {
    !e.Enqueued? && (e.Processed? ==> BatchLength(c, s) > 0)
  }

  ghost predicate AllEffective(c: Config, s: State, run: seq<Event>)
    requires Possible(c, s, run)
    decreases |run|
  {
    |run| == 0 || (Effective(c, s, run[0]) && AllEffective(c, Next(c, s, run[0]), run[1..]))
  }

  /** Without new items only so many steps can start or settle anything, in whatever order batches overlap. */
  lemma {:induction false} WorkEnds(c: Config, s: State, run: seq<Event>)
    requires Possible(c, s, run) && AllEffective(c, s, run)
    ensures |run| + Measure(c, After(c, s, run)) <= Measure(c, s)
    decreases |run|
  {
    hide Measure, Take, Settle;
    if |run| > 0 {
      match run[0] {
        case Processed => TakeMakesProgress(c, s);
        case BatchSettled(before, batch, after, results) => SettleMakesProgress(c, s, before, batch, after, results);
      }
      WorkEnds(c, Next(c, s, run[0]), run[1..]);
    }
  }

  // ----- When flushing ends -----

  predicate Drained(s: State) {
    s.queue == [] && s.inFlight == []
  }

  /** Nothing can be started and nothing is in flight to settle. */
  ghost predicate Halted(c: Config, s: State) {
    forall e :: Enabled(s, e) ==> !Effective(c, s, e)
  }

  /** While items are left, some step is possible exactly when a batch is in flight or both limits are positive. */
  lemma HaltsIff(c: Config, s: State)
    requires !Drained(s)
    ensures Halted(c, s) <==> s.inFlight == [] && (c.maxConcurrent <= 0 || c.batchSize <= 0)
  {
    if s.inFlight != [] {
      var results := seq(|s.inFlight|, _ => Skipped);
      var e := BatchSettled([], s.inFlight, [], results);
      assert [] + s.inFlight + [] == s.inFlight;
      assert Enabled(s, e) && Effective(c, s, e);
    } else {
      assert Enabled(s, Processed);
    }
  }

  /** Every item can be brought to its end, in steps that are all effective. */
  lemma {:induction false} DrainingRun(c: Config, s: State) returns (run: seq<Event>)
    requires c.maxConcurrent > 0 && c.batchSize > 0
    ensures Possible(c, s, run) && AllEffective(c, s, run) && Drained(After(c, s, run))
    decreases Measure(c, s)
  {
    hide Measure, Take, Settle;
    if Drained(s) {
      run := [];
    } else {
      HaltsIff(c, s);
      var e :| Enabled(s, e) && Effective(c, s, e);
      match e {
        case Processed => TakeMakesProgress(c, s);
        case BatchSettled(before, batch, after, results) => SettleMakesProgress(c, s, before, batch, after, results);
      }
      var rest := DrainingRun(c, Next(c, s, e));
      run := [e] + rest;
      assert run[1..] == rest;
    }
  }

  ghost predicate AlwaysDrains(c: Config, s: State) {
    forall run :: Possible(c, s, run) && AllEffective(c, s, run) && Halted(c, After(c, s, run)) ==> Drained(After(c, s, run))
  }

  /** From every reachable state, with batches overlapping in any way: what is done without new items ends after a bounded
    * number of steps, and it ends with every item completed or failed if and only if nothing is queued or both limits are
    * positive. Otherwise `flush` goes on for ever. */
  lemma FlushEndsIff(c: Config, past: seq<Event>)
    requires Possible(c, EMPTY, past)
    ensures var s := After(c, EMPTY, past);
            && (AlwaysDrains(c, s) <==> s.queue == [] || (c.maxConcurrent > 0 && c.batchSize > 0))
            && (forall run :: Possible(c, s, run) && AllEffective(c, s, run) ==> |run| <= Measure(c, s))
  {
    hide Measure, Take, Settle, Effective;
    RunKeeps(c, EMPTY, past);
    var s := After(c, EMPTY, past);
    forall run | Possible(c, s, run) && AllEffective(c, s, run) ensures |run| <= Measure(c, s) {
      WorkEnds(c, s, run);
    }
    if c.maxConcurrent > 0 && c.batchSize > 0 {
      forall run | Possible(c, s, run) && AllEffective(c, s, run) && Halted(c, After(c, s, run)) ensures Drained(After(c, s, run)) {
        if !Drained(After(c, s, run)) { HaltsIff(c, After(c, s, run)); }
      }
    } else {
      assert s.inFlight == [];
      NothingEffective(c, s);
    }
  }

  /** With a limit that is not positive and nothing in flight, the only effective run is the empty one. */
  lemma NothingEffective(c: Config, s: State)
    requires s.inFlight == [] && (c.maxConcurrent <= 0 || c.batchSize <= 0)
    ensures Halted(c, s) && (AlwaysDrains(c, s) <==> s.queue == [])
  {
    assert Possible(c, s, []) && AllEffective(c, s, []) && After(c, s, []) == s;
    if !Drained(s) { HaltsIff(c, s); }
    forall run | Possible(c, s, run) && AllEffective(c, s, run) ensures |run| == 0 {}
  }
}
