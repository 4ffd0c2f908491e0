/** `CompressionQueue`: items wait, run in bounded batches that overlap, are retried, and end completed or failed.
  * What one batch taken or settled does to the state. */
module CompressionQueue {
  datatype Item = Item(id: string, output: string, retries: nat)

  /** How `processItem` settles: skipped as too small, compressed, or rejected. */
  datatype Settled = Skipped | Compressed(ratio: real) | Rejected

  /** Nothing checks the configured numbers. */
  datatype Config = Config(maxConcurrent: int, maxRetries: int, batchSize: int)

  /** Where every item is: waiting, in a batch that runs, ended, and how often it was started. */
  datatype State = State(queue: seq<Item>, inFlight: seq<Item>, succeeded: set<string>, abandoned: set<string>,
                         starts: map<string, nat>)

  // ----- Lists of items -----

  predicate Distinct(items: seq<Item>) {
    forall i, j :: 0 <= i < j < |items| ==> items[i].id != items[j].id
  }

  function Ids(items: seq<Item>): set<string> {
    set x | x in items :: x.id
  }

  lemma {:induction false} DistinctCount(items: seq<Item>)
    requires Distinct(items)
    ensures |Ids(items)| == |items|
  {
    if |items| == 0 {
      assert Ids(items) == {};
    } else {
      var n := |items| - 1;
      DistinctCount(items[..n]);
      assert items == items[..n] + [items[n]];
      assert Ids(items) == Ids(items[..n]) + {items[n].id};
    }
  }

  lemma IdsConcat(a: seq<Item>, b: seq<Item>)
    ensures Ids(a + b) == Ids(a) + Ids(b)
  {
    assert forall x :: x in a + b <==> x in a || x in b;
  }

  lemma DistinctConcat(a: seq<Item>, b: seq<Item>)
    ensures Distinct(a + b) <==> Distinct(a) && Distinct(b) && Ids(a) !! Ids(b)
  {
    var both := a + b;
    if Distinct(a) && Distinct(b) && Ids(a) !! Ids(b) {
      forall i, j | 0 <= i < |a| && 0 <= j < |b| ensures a[i].id != b[j].id {
        assert a[i].id in Ids(a) && b[j].id in Ids(b);
      }
    }
    if Distinct(both) {
      assert forall i :: 0 <= i < |a| ==> both[i] == a[i];
      assert forall j :: 0 <= j < |b| ==> both[|a| + j] == b[j];
      forall id | id in Ids(a) ensures id !in Ids(b) {
        var i :| 0 <= i < |a| && a[i].id == id;
        forall x | x in b ensures x.id != id {
          var j :| 0 <= j < |b| && b[j] == x;
          assert both[|a| + j].id != both[i].id;
        }
      }
    }
  }

  // ----- What a call of `processQueue` does to the state -----

  /** How many items it takes. */
  function BatchLength(c: Config, s: State): (n: nat)
    ensures n <= |s.queue| && (n > 0 ==> |s.inFlight| + n <= c.maxConcurrent)
    ensures n > 0 <==> s.queue != [] && |s.inFlight| < c.maxConcurrent && c.batchSize > 0
  {
    var room := c.maxConcurrent - |s.inFlight|;
    var most := if room < c.batchSize then room else c.batchSize;
    if most <= 0 then 0 else if most < |s.queue| then most else |s.queue|
  }

  function CountStarts(starts: map<string, nat>, batch: seq<Item>): map<string, nat> {
    map id | id in starts :: if id in Ids(batch) then starts[id] + 1 else starts[id]
  }

  function Add(s: State, id: string, output: string): State {
    s.(queue := s.queue + [Item(id, output, 0)], starts := s.starts[id := 0])
  }

  function Take(c: Config, s: State): State {
    var n := BatchLength(c, s);
    s.(queue := s.queue[n..], inFlight := s.inFlight + s.queue[..n], starts := CountStarts(s.starts, s.queue[..n]))
  }

  /** A batch is the oldest items of the queue, as many as the free places and the batch size allow. */
  lemma TakesTheOldest(c: Config, s: State)
    ensures var after := Take(c, s);
            && after.inFlight[..|s.inFlight|] == s.inFlight
            && s.queue == after.inFlight[|s.inFlight|..] + after.queue
            && var taken := |after.inFlight| - |s.inFlight|;
               && taken <= |s.queue|
               && (taken > 0 ==> taken <= c.batchSize && |s.inFlight| + taken <= c.maxConcurrent)
               && (taken < |s.queue| ==> taken >= c.batchSize || |s.inFlight| + taken >= c.maxConcurrent)
  {
  }

  predicate Retries(c: Config, x: Item, r: Settled) {
    r.Rejected? && x.retries < c.maxRetries
  }

  /** The items of a settled batch that queue again, that succeeded, and that were given up. */
  function Retried(c: Config, batch: seq<Item>, results: seq<Settled>): seq<Item>
    requires |batch| == |results|
  {
    if |batch| == 0 then []
    else
      var n := |batch| - 1;
      Retried(c, batch[..n], results[..n])
      + if Retries(c, batch[n], results[n]) then [batch[n].(retries := batch[n].retries + 1)] else []
  }

  function Succeeded(batch: seq<Item>, results: seq<Settled>): set<string>
    requires |batch| == |results|
  {
    if |batch| == 0 then {}
    else
      var n := |batch| - 1;
      Succeeded(batch[..n], results[..n]) + if results[n].Rejected? then {} else {batch[n].id}
  }

  function GivenUp(c: Config, batch: seq<Item>, results: seq<Settled>): set<string>
    requires |batch| == |results|
  {
    if |batch| == 0 then {}
    else
      var n := |batch| - 1;
      GivenUp(c, batch[..n], results[..n])
      + if results[n].Rejected? && batch[n].retries >= c.maxRetries then {batch[n].id} else {}
  }

  /** One running batch, anywhere among the others, settles. */
  function Settle(c: Config, s: State, before: seq<Item>, batch: seq<Item>, after: seq<Item>, results: seq<Settled>): State
    requires |batch| == |results|
  {
    s.(queue := s.queue + Retried(c, batch, results), inFlight := before + after,
       succeeded := s.succeeded + Succeeded(batch, results), abandoned := s.abandoned + GivenUp(c, batch, results))
  }

  // ----- Conservation, and how often an item runs -----

  /** Every item ever enqueued is in exactly one place. */
  ghost predicate Conserved(s: State) {
    && Distinct(s.queue + s.inFlight)
    && Ids(s.queue + s.inFlight) !! s.succeeded && Ids(s.queue + s.inFlight) !! s.abandoned && s.succeeded !! s.abandoned
    && s.starts.Keys == Ids(s.queue + s.inFlight) + s.succeeded + s.abandoned
  }

  predicate StartsOk(c: Config, s: State, id: string)
    requires id in s.starts
  {
    s.starts[id] <= 1 || s.starts[id] <= c.maxRetries + 1
  }

  predicate Startable(c: Config, starts: map<string, nat>, x: Item) {
    x.id in starts && starts[x.id] == x.retries && (x.retries == 0 || x.retries <= c.maxRetries)
  }

  predicate Running(c: Config, starts: map<string, nat>, x: Item) {
    x.id in starts && starts[x.id] == x.retries + 1 && (x.retries == 0 || x.retries <= c.maxRetries)
  }

  /** A waiting item was started once for each retry it had, a running one once more, and none too often. */
  ghost predicate Bounded(c: Config, s: State) {
    && (|s.inFlight| == 0 || (|s.inFlight| <= c.maxConcurrent && c.batchSize > 0))
    && (forall x :: x in s.queue ==> Startable(c, s.starts, x))
    && (forall x :: x in s.inFlight ==> Running(c, s.starts, x))
    && (forall id :: id in s.starts ==> StartsOk(c, s, id))
  }

  lemma AddKeeps(c: Config, s: State, id: string, output: string)
    requires Conserved(s) && Bounded(c, s) && id !in s.starts
    ensures Conserved(Add(s, id, output)) && Bounded(c, Add(s, id, output))
  {
    var x := Item(id, output, 0);
    DistinctConcat(s.queue, s.inFlight);
    DistinctConcat(s.queue, [x]);
    IdsConcat(s.queue, s.inFlight);
    IdsConcat(s.queue, [x]);
    IdsConcat(s.queue + [x], s.inFlight);
    assert Ids([x]) == {id};
    DistinctConcat(s.queue + [x], s.inFlight);
  }

  lemma TakeConserves(c: Config, s: State)
    requires Conserved(s)
    ensures Conserved(Take(c, s))
  {
    hide Distinct, Ids;
    var n := BatchLength(c, s);
    var batch, rest := s.queue[..n], s.queue[n..];
    assert s.queue == batch + rest;
    DistinctConcat(batch, rest);
    DistinctConcat(s.queue, s.inFlight);
    DistinctConcat(s.inFlight, batch);
    DistinctConcat(rest, s.inFlight + batch);
    IdsConcat(batch, rest);
    IdsConcat(s.queue, s.inFlight);
    IdsConcat(s.inFlight, batch);
    IdsConcat(rest, s.inFlight + batch);
  }

  lemma CountedStart(starts: map<string, nat>, batch: seq<Item>, id: string)
    ensures id in CountStarts(starts, batch) <==> id in starts
    ensures id in starts ==> CountStarts(starts, batch)[id] == starts[id] + if id in Ids(batch) then 1 else 0
  {
  }

  lemma OneStartMore(c: Config, s: State, batch: seq<Item>, id: string)
    requires Bounded(c, s) && id in s.starts && forall x :: x in batch ==> x in s.queue
    ensures CountStarts(s.starts, batch)[id] <= 1 || CountStarts(s.starts, batch)[id] <= c.maxRetries + 1
  {
    assert StartsOk(c, s, id);
    if id in Ids(batch) {
      var x :| x in batch && x.id == id;
      assert Startable(c, s.starts, x);
    }
  }

  /** Counting a batch of waiting items as started makes them running and changes nothing about the others. */
  lemma BatchStarts(c: Config, starts: map<string, nat>, batch: seq<Item>, x: Item)
    ensures x.id in Ids(batch) && Startable(c, starts, x) ==> Running(c, CountStarts(starts, batch), x)
    ensures x.id !in Ids(batch) ==> (Startable(c, starts, x) <==> Startable(c, CountStarts(starts, batch), x))
    ensures x.id !in Ids(batch) ==> (Running(c, starts, x) <==> Running(c, CountStarts(starts, batch), x))
  {
    CountedStart(starts, batch, x.id);
  }

  lemma TakeBounds(c: Config, s: State)
    requires Conserved(s) && Bounded(c, s)
    ensures Bounded(c, Take(c, s))
  {
    hide Distinct, CountStarts, Startable, Running;
    var n := BatchLength(c, s);
    var batch, rest := s.queue[..n], s.queue[n..];
    assert s.queue == batch + rest;
    DistinctConcat(batch, rest);
    DistinctConcat(s.queue, s.inFlight);
    IdsConcat(batch, rest);
    forall x | x in rest ensures Startable(c, CountStarts(s.starts, batch), x) {
      assert x in s.queue && x.id in Ids(rest);
      BatchStarts(c, s.starts, batch, x);
    }
    forall x | x in s.inFlight + batch ensures Running(c, CountStarts(s.starts, batch), x) {
      BatchStarts(c, s.starts, batch, x);
      if x in batch {
        assert x in s.queue && x.id in Ids(batch);
      } else {
        assert x in s.inFlight && x.id in Ids(s.inFlight);
      }
    }
    forall id | id in CountStarts(s.starts, batch) ensures StartsOk(c, Take(c, s), id) {
      CountedStart(s.starts, batch, id);
      OneStartMore(c, s, batch, id);
    }
  }

  /** A settled batch splits into the three outcomes, without loss or overlap. */
  lemma {:induction false} OutcomesPartition(c: Config, batch: seq<Item>, results: seq<Settled>)
    requires |batch| == |results| && Distinct(batch)
    ensures var again, well, lost := Retried(c, batch, results), Succeeded(batch, results), GivenUp(c, batch, results);
            && Distinct(again) && Ids(batch) == Ids(again) + well + lost
            && Ids(again) !! well && Ids(again) !! lost && well !! lost
    decreases |batch|
  {
    if |batch| > 0 {
      var n := |batch| - 1;
      var init, settled, x := batch[..n], results[..n], batch[n];
      assert batch == init + [x];
      DistinctConcat(init, [x]);
      IdsConcat(init, [x]);
      assert Ids([x]) == {x.id};
      OutcomesPartition(c, init, settled);
      LastOutcome(c, batch, results);
    }
  }

  lemma OneItem(x: Item)
    ensures Distinct([x]) && Ids([x]) == {x.id}
  {
  }

  lemma LastOutcome(c: Config, batch: seq<Item>, results: seq<Settled>)
    requires |batch| == |results| && |batch| > 0
    requires var n := |batch| - 1;
             Distinct(Retried(c, batch[..n], results[..n])) && batch[n].id !in Ids(Retried(c, batch[..n], results[..n]))
    ensures var n := |batch| - 1;
            var again := Retries(c, batch[n], results[n]);
            && Distinct(Retried(c, batch, results))
            && Ids(Retried(c, batch, results)) == Ids(Retried(c, batch[..n], results[..n])) + if again then {batch[n].id} else {}
  {
    hide Distinct, Retried;
    var n := |batch| - 1;
    var kept := Retried(c, batch[..n], results[..n]);
    LastRetried(c, batch, results);
    if Retries(c, batch[n], results[n]) {
      var again := batch[n].(retries := batch[n].retries + 1);
      OneItem(again);
      DistinctConcat(kept, [again]);
      IdsConcat(kept, [again]);
    }
  }

  lemma LastRetried(c: Config, batch: seq<Item>, results: seq<Settled>)
    requires |batch| == |results| && |batch| > 0
    ensures var n := |batch| - 1;
            var kept := Retried(c, batch[..n], results[..n]);
            Retried(c, batch, results)
            == if Retries(c, batch[n], results[n]) then kept + [batch[n].(retries := batch[n].retries + 1)] else kept
  {
  }

  lemma {:induction false} RetriedAre(c: Config, batch: seq<Item>, results: seq<Settled>, x: Item)
    requires |batch| == |results| && x in Retried(c, batch, results)
    ensures x.retries > 0 && x.retries <= c.maxRetries && x.(retries := x.retries - 1) in batch
  {
    var n := |batch| - 1;
    if x in Retried(c, batch[..n], results[..n]) {
      RetriedAre(c, batch[..n], results[..n], x);
    } else {
      assert x == batch[n].(retries := batch[n].retries + 1) && batch[n] in batch;
    }
  }

  lemma SettleConserves(c: Config, s: State, before: seq<Item>, batch: seq<Item>, after: seq<Item>, results: seq<Settled>)
    requires Conserved(s) && s.inFlight == before + batch + after && |batch| == |results|
    ensures Conserved(Settle(c, s, before, batch, after, results))
  {
    hide Distinct, Ids, Retried, Succeeded, GivenUp;
    var again := Retried(c, batch, results);
    DistinctConcat(before, batch);
    DistinctConcat(before + batch, after);
    DistinctConcat(s.queue, s.inFlight);
    IdsConcat(before, batch);
    IdsConcat(before + batch, after);
    IdsConcat(s.queue, s.inFlight);
    OutcomesPartition(c, batch, results);
    IdsConcat(before, after);
    IdsConcat(s.queue, again);
    IdsConcat(s.queue + again, before + after);
    DistinctConcat(before, after);
    DistinctConcat(s.queue, again);
    DistinctConcat(s.queue + again, before + after);
  }

  lemma SettleBounds(c: Config, s: State, before: seq<Item>, batch: seq<Item>, after: seq<Item>, results: seq<Settled>)
    requires Bounded(c, s) && s.inFlight == before + batch + after && |batch| == |results|
    ensures Bounded(c, Settle(c, s, before, batch, after, results))
  {
    hide Retried;
    var again := Retried(c, batch, results);
    forall x | x in s.queue + again ensures Startable(c, s.starts, x) {
      if x !in s.queue {
        RetriedAre(c, batch, results, x);
        assert Running(c, s.starts, x.(retries := x.retries - 1));
      }
    }
  }

  // ----- The work left -----

  /** How often an item may still run. */
  function Chances(c: Config, x: Item): nat {
    if x.retries < c.maxRetries then c.maxRetries - x.retries + 1 else 1
  }

  function Work(c: Config, items: seq<Item>): nat {
    if |items| == 0 then 0 else Work(c, items[..|items| - 1]) + Chances(c, items[|items| - 1])
  }

  lemma {:induction false} WorkConcat(c: Config, a: seq<Item>, b: seq<Item>)
    ensures Work(c, a + b) == Work(c, a) + Work(c, b)
  {
    if |b| == 0 {
      assert a + b == a;
    } else {
      var n := |b| - 1;
      WorkConcat(c, a, b[..n]);
      assert (a + b)[..|a| + n] == a + b[..n];
    }
  }

  /** Settling uses up at least one chance of each item of the batch. */
  lemma {:induction false} RetriesUseChances(c: Config, batch: seq<Item>, results: seq<Settled>)
    requires |batch| == |results|
    ensures Work(c, Retried(c, batch, results)) + |batch| <= Work(c, batch)
    ensures |Retried(c, batch, results)| <= |batch|
  {
    if |batch| > 0 {
      var n := |batch| - 1;
      var kept := Retried(c, batch[..n], results[..n]);
      RetriesUseChances(c, batch[..n], results[..n]);
      if Retries(c, batch[n], results[n]) {
        var again := batch[n].(retries := batch[n].retries + 1);
        assert (kept + [again])[..|kept|] == kept;
      } else {
        assert Retried(c, batch, results) == kept;
      }
    }
  }

  /** Twice the chances left, and one for each waiting item. */
  function Measure(c: Config, s: State): nat {
    2 * (Work(c, s.queue) + Work(c, s.inFlight)) + |s.queue|
  }

  lemma TakeMakesProgress(c: Config, s: State)
    ensures Measure(c, Take(c, s)) == Measure(c, s) - BatchLength(c, s)
  {
    var n := BatchLength(c, s);
    assert s.queue == s.queue[..n] + s.queue[n..];
    WorkConcat(c, s.queue[..n], s.queue[n..]);
    WorkConcat(c, s.inFlight, s.queue[..n]);
  }

  lemma SettleMakesProgress(c: Config, s: State, before: seq<Item>, batch: seq<Item>, after: seq<Item>, results: seq<Settled>)
    requires s.inFlight == before + batch + after && |batch| == |results|
    ensures Measure(c, Settle(c, s, before, batch, after, results)) + |batch| <= Measure(c, s)
  {
    RetriesUseChances(c, batch, results);
    WorkConcat(c, before, batch);
    WorkConcat(c, before + batch, after);
    WorkConcat(c, before, after);
    WorkConcat(c, s.queue, Retried(c, batch, results));
  }
}
