/** Token usage totals in exact reals: the streaming accumulator, the batch and the price formula agree. */
module Usage {

  datatype Pricing = Pricing(inputPerMillion: real, outputPerMillion: real)

  /** `getModelPricing` */
  type PriceList = string -> Pricing

  /** One usage record; absent cache counts are zero. */
  datatype Record = Record(model: string, input: int, output: int, cacheWrite: int, cacheRead: int) {
    function EffectiveInput(): int { input + cacheWrite + cacheRead }
  }

  datatype ModelUsage = ModelUsage(model: string, inputTokens: int, outputTokens: int, cost: real, calls: nat)

  /** Buckets in the order their models first appeared, as a JavaScript Map keeps them. */
  datatype Totals = Totals(inputTokens: int, outputTokens: int, cost: real, calls: nat,
                           order: seq<string>, buckets: map<string, ModelUsage>)

  const NO_USAGE := Totals(0, 0, 0.0, 0, [], map[])

  datatype Stats = Stats(totalInputTokens: int, totalOutputTokens: int, totalTokens: int, totalCost: real, apiCalls: nat,
                         modelBreakdown: seq<ModelUsage>)

  // ----- Prices -----

  /** `calculateCostWithCache` */
  function CostWithCache(r: Record, p: Pricing): real {
    (r.input as real / 1000000.0) * p.inputPerMillion
    + (r.cacheWrite as real / 1000000.0) * p.inputPerMillion * 1.25
    + (r.cacheRead as real / 1000000.0) * p.inputPerMillion * 0.1
    + (r.output as real / 1000000.0) * p.outputPerMillion
  }

  /** The accumulator's formula, on prices per token. */
  function CostPerToken(r: Record, p: Pricing): real {
    var inputPerToken, outputPerToken := p.inputPerMillion / 1000000.0, p.outputPerMillion / 1000000.0;
    r.input as real * inputPerToken
    + r.cacheWrite as real * inputPerToken * 1.25
    + r.cacheRead as real * inputPerToken * 0.1
    + r.output as real * outputPerToken
  }

  lemma ScaleEitherFactor(x: real, y: real)
    ensures x * (y / 1000000.0) == (x / 1000000.0) * y
  {
    assert x * (y / 1000000.0) == (x * y) / 1000000.0;
  }

  lemma PerTokenIsPerMillion(r: Record, p: Pricing)
    ensures CostPerToken(r, p) == CostWithCache(r, p)
  {
    ScaleEitherFactor(r.input as real, p.inputPerMillion);
    ScaleEitherFactor(r.cacheWrite as real, p.inputPerMillion);
    ScaleEitherFactor(r.cacheRead as real, p.inputPerMillion);
    ScaleEitherFactor(r.output as real, p.outputPerMillion);
  }

  // ----- The streaming accumulator as a function -----

  function Bucket(t: Totals, model: string): ModelUsage {
    if model in t.buckets then t.buckets[model] else ModelUsage(model, 0, 0, 0.0, 0)
  }

  function Add(prices: PriceList, t: Totals, r: Record): Totals {
    var cost := CostPerToken(r, prices(r.model));
    var b := Bucket(t, r.model);
    Totals(t.inputTokens + r.EffectiveInput(), t.outputTokens + r.output, t.cost + cost, t.calls + 1,
           if r.model in t.buckets then t.order else t.order + [r.model],
           t.buckets[r.model := ModelUsage(b.model, b.inputTokens + r.EffectiveInput(), b.outputTokens + r.output,
                                           b.cost + cost, b.calls + 1)])
  }

  function AddAll(prices: PriceList, rs: seq<Record>): Totals {
    if |rs| == 0 then NO_USAGE else Add(prices, AddAll(prices, rs[..|rs| - 1]), rs[|rs| - 1])
  }

  function Breakdown(t: Totals): seq<ModelUsage> {
    seq(|t.order|, i requires 0 <= i < |t.order| => Bucket(t, t.order[i]))
  }

  /** `usageStatsFromAccumulator` */
  function StatsOf(t: Totals): Stats {
    if t.calls == 0 then Stats(0, 0, 0, 0.0, 0, [])
    else Stats(t.inputTokens, t.outputTokens, t.inputTokens + t.outputTokens, t.cost, t.calls, Breakdown(t))
  }

  class UsageAccumulator {
    var totalInputTokens: int
    var totalOutputTokens: int
    var totalCost: real
    var apiCalls: nat
    var order: seq<string>
    var buckets: map<string, ModelUsage>

    function Value(): Totals
      reads this
    {
      Totals(totalInputTokens, totalOutputTokens, totalCost, apiCalls, order, buckets)
    }

    constructor ()
      ensures Value() == NO_USAGE
    {
      totalInputTokens, totalOutputTokens, totalCost, apiCalls, order, buckets := 0, 0, 0.0, 0, [], map[];
    }

    constructor Restore(t: Totals)
      ensures Value() == t
    {
      totalInputTokens, totalOutputTokens, totalCost, apiCalls := t.inputTokens, t.outputTokens, t.cost, t.calls;
      order, buckets := t.order, t.buckets;
    }

    /** `addUsageToAccumulator` */
    method AddUsage(prices: PriceList, r: Record)
      modifies this
      ensures Value() == Add(prices, old(Value()), r)
    {
      apiCalls := apiCalls + 1;
      totalInputTokens := totalInputTokens + r.EffectiveInput();
      totalOutputTokens := totalOutputTokens + r.output;
      if r.model !in buckets {
        order := order + [r.model];
        buckets := buckets[r.model := ModelUsage(r.model, 0, 0, 0.0, 0)];
      }
      var cost := CostPerToken(r, prices(r.model));
      totalCost := totalCost + cost;
      var b := buckets[r.model];
      buckets := buckets[r.model := b.(inputTokens := b.inputTokens + r.EffectiveInput(),
                                       outputTokens := b.outputTokens + r.output, cost := b.cost + cost, calls := b.calls + 1)];
    }
  }

  // ----- What the totals mean, stated without the accumulator -----

  function OfModel(rs: seq<Record>, model: string): seq<Record> {
    if |rs| == 0 then []
    else
      var rest := OfModel(rs[..|rs| - 1], model);
      if rs[|rs| - 1].model == model then rest + [rs[|rs| - 1]] else rest
  }

  function SumInput(rs: seq<Record>): int {
    if |rs| == 0 then 0 else SumInput(rs[..|rs| - 1]) + rs[|rs| - 1].EffectiveInput()
  }

  function SumOutput(rs: seq<Record>): int {
    if |rs| == 0 then 0 else SumOutput(rs[..|rs| - 1]) + rs[|rs| - 1].output
  }

  function SumCost(prices: PriceList, rs: seq<Record>): real {
    if |rs| == 0 then 0.0
    else SumCost(prices, rs[..|rs| - 1]) + CostWithCache(rs[|rs| - 1], prices(rs[|rs| - 1].model))
  }

  /** Models in order of first appearance. */
  function FirstSeen(rs: seq<Record>): seq<string> {
    if |rs| == 0 then []
    else
      var before := FirstSeen(rs[..|rs| - 1]);
      if rs[|rs| - 1].model in before then before else before + [rs[|rs| - 1].model]
  }

  function UsageOf(prices: PriceList, rs: seq<Record>, model: string): ModelUsage {
    var own := OfModel(rs, model);
    ModelUsage(model, SumInput(own), SumOutput(own), SumCost(prices, own), |own|)
  }

  function InputOf(r: Record): int { r.input }
  function OutputOf(r: Record): int { r.output }
  function CacheWriteOf(r: Record): int { r.cacheWrite }
  function CacheReadOf(r: Record): int { r.cacheRead }

  function SumOf(rs: seq<Record>, f: Record -> int): int {
    if |rs| == 0 then 0 else SumOf(rs[..|rs| - 1], f) + f(rs[|rs| - 1])
  }

  /** The input total counts fresh input, cache writes and cache reads, the output total output alone. */
  lemma {:induction false} TotalsAreOfTokens(rs: seq<Record>)
    ensures SumInput(rs) == SumOf(rs, InputOf) + SumOf(rs, CacheWriteOf) + SumOf(rs, CacheReadOf)
    ensures SumOutput(rs) == SumOf(rs, OutputOf)
  {
    if |rs| > 0 { TotalsAreOfTokens(rs[..|rs| - 1]); }
  }

  /** What a record costs: cache writes are a quarter dearer than fresh input, cache reads cost a tenth of it. */
  lemma CostOfTokens(r: Record, p: Pricing)
    ensures 1000000.0 * CostWithCache(r, p)
            == p.inputPerMillion * (r.input as real + 1.25 * r.cacheWrite as real + 0.1 * r.cacheRead as real)
               + p.outputPerMillion * r.output as real
  {
    var i, w, c, o, x, y := r.input as real, r.cacheWrite as real, r.cacheRead as real, r.output as real, p.inputPerMillion, p.outputPerMillion;
    assert (i / 1000000.0) * x == i * x / 1000000.0 && (w / 1000000.0) * x * 1.25 == w * x * 1.25 / 1000000.0;
    assert (c / 1000000.0) * x * 0.1 == c * x * 0.1 / 1000000.0 && (o / 1000000.0) * y == o * y / 1000000.0;
  }

  lemma {:induction false} GrandTotalsAreSums(prices: PriceList, rs: seq<Record>)
    ensures var t := AddAll(prices, rs);
            && t.inputTokens == SumInput(rs) && t.outputTokens == SumOutput(rs)
            && t.cost == SumCost(prices, rs) && t.calls == |rs|
  {
    if |rs| > 0 {
      GrandTotalsAreSums(prices, rs[..|rs| - 1]);
      PerTokenIsPerMillion(rs[|rs| - 1], prices(rs[|rs| - 1].model));
    }
  }

  lemma {:induction false} OrderIsFirstSeen(prices: PriceList, rs: seq<Record>)
    ensures var t := AddAll(prices, rs);
            t.order == FirstSeen(rs) && forall m :: m in t.buckets <==> m in t.order
  {
    if |rs| > 0 {
      OrderIsFirstSeen(prices, rs[..|rs| - 1]);
    }
  }

  lemma UsageOfOneMore(prices: PriceList, rs: seq<Record>, r: Record, model: string)
    ensures var b := UsageOf(prices, rs, model);
            UsageOf(prices, rs + [r], model)
            == if r.model != model then b
               else ModelUsage(model, b.inputTokens + r.EffectiveInput(), b.outputTokens + r.output,
                               b.cost + CostWithCache(r, prices(model)), b.calls + 1)
  {
    var own := OfModel(rs, model);
    assert (rs + [r])[..|rs|] == rs;
    assert (own + [r])[..|own|] == own;
  }

  lemma BucketAfterAdd(prices: PriceList, t: Totals, r: Record, model: string)
    ensures var b, u := Bucket(t, model), Add(prices, t, r);
            && (model in u.buckets <==> model in t.buckets || model == r.model)
            && Bucket(u, model)
               == if r.model != model then b
                  else ModelUsage(b.model, b.inputTokens + r.EffectiveInput(), b.outputTokens + r.output,
                                  b.cost + CostWithCache(r, prices(model)), b.calls + 1)
  {
    PerTokenIsPerMillion(r, prices(r.model));
  }

  lemma OfModelOneMore(rs: seq<Record>, r: Record, model: string)
    ensures OfModel(rs + [r], model) == OfModel(rs, model) + if r.model == model then [r] else []
  {
    assert (rs + [r])[..|rs|] == rs;
  }

  /** Every bucket holds the sums over the records of its model; a model without a bucket has no records. */
  lemma {:induction false} BucketIsModelSum(prices: PriceList, rs: seq<Record>, model: string)
    ensures Bucket(AddAll(prices, rs), model) == UsageOf(prices, rs, model)
    ensures model in AddAll(prices, rs).buckets <==> |OfModel(rs, model)| > 0
    decreases |rs|
  {
    hide AddAll, Add, Bucket, UsageOf, OfModel, CostWithCache;
    if |rs| == 0 {
      assert rs == [];
      NoRecordsNoUsage(prices, model);
    } else {
      var init, r := rs[..|rs| - 1], rs[|rs| - 1];
      assert rs == init + [r];
      BucketIsModelSum(prices, init, model);
      AddAllOneMore(prices, init, r);
      BucketAfterAdd(prices, AddAll(prices, init), r, model);
      UsageOfOneMore(prices, init, r, model);
      UsageNamesModel(prices, init, model);
      OfModelOneMore(init, r, model);
    }
  }

  lemma NoRecordsNoUsage(prices: PriceList, model: string)
    ensures Bucket(AddAll(prices, []), model) == UsageOf(prices, [], model)
    ensures model !in AddAll(prices, []).buckets && OfModel([], model) == []
  {
  }

  lemma UsageNamesModel(prices: PriceList, rs: seq<Record>, model: string)
    ensures UsageOf(prices, rs, model).model == model
  {
  }

  function BucketInput(bs: seq<ModelUsage>): int {
    if |bs| == 0 then 0 else BucketInput(bs[..|bs| - 1]) + bs[|bs| - 1].inputTokens
  }

  function BucketOutput(bs: seq<ModelUsage>): int {
    if |bs| == 0 then 0 else BucketOutput(bs[..|bs| - 1]) + bs[|bs| - 1].outputTokens
  }

  function BucketCost(bs: seq<ModelUsage>): real {
    if |bs| == 0 then 0.0 else BucketCost(bs[..|bs| - 1]) + bs[|bs| - 1].cost
  }

  function BucketCalls(bs: seq<ModelUsage>): nat {
    if |bs| == 0 then 0 else BucketCalls(bs[..|bs| - 1]) + bs[|bs| - 1].calls
  }

  predicate Balanced(t: Totals, bs: seq<ModelUsage>) {
    && t.inputTokens == BucketInput(bs) && t.outputTokens == BucketOutput(bs)
    && t.cost == BucketCost(bs) && t.calls == BucketCalls(bs)
  }

  lemma {:induction false} BucketChange(bs: seq<ModelUsage>, i: nat, b: ModelUsage)
    requires i < |bs|
    ensures BucketInput(bs[i := b]) == BucketInput(bs) - bs[i].inputTokens + b.inputTokens
    ensures BucketOutput(bs[i := b]) == BucketOutput(bs) - bs[i].outputTokens + b.outputTokens
    ensures BucketCost(bs[i := b]) == BucketCost(bs) - bs[i].cost + b.cost
    ensures BucketCalls(bs[i := b]) == BucketCalls(bs) - bs[i].calls + b.calls
  {
    var n := |bs| - 1;
    if i < n {
      BucketChange(bs[..n], i, b);
      assert bs[i := b][..n] == bs[..n][i := b];
    } else {
      assert bs[i := b][..n] == bs[..n];
    }
  }

  ghost predicate OrderOk(t: Totals) {
    && (forall m :: m in t.buckets <==> m in t.order)
    && forall i, j :: 0 <= i < j < |t.order| ==> t.order[i] != t.order[j]
  }

  /** Conservation: the totals equal the sums over the model breakdown, whatever was added. */
  lemma {:induction false} TotalsAreConserved(prices: PriceList, rs: seq<Record>)
    ensures OrderOk(AddAll(prices, rs)) && Balanced(AddAll(prices, rs), Breakdown(AddAll(prices, rs)))
  {
    if |rs| > 0 {
      var t := AddAll(prices, rs[..|rs| - 1]);
      TotalsAreConserved(prices, rs[..|rs| - 1]);
      AddKeepsBalance(prices, t, rs[|rs| - 1]);
    }
  }

  lemma AddKeepsBalance(prices: PriceList, t: Totals, r: Record)
    requires OrderOk(t) && Balanced(t, Breakdown(t))
    ensures OrderOk(Add(prices, t, r)) && Balanced(Add(prices, t, r), Breakdown(Add(prices, t, r)))
  {
    hide CostPerToken, Breakdown, BucketInput, BucketOutput, BucketCost, BucketCalls;
    AddKeepsOrder(prices, t, r);
    var u, bs := Add(prices, t, r), Breakdown(t);
    if r.model in t.buckets {
      var i := BreakdownChange(prices, t, r);
      BucketChange(bs, i, u.buckets[r.model]);
    } else {
      BreakdownGrows(prices, t, r);
      BucketGrows(bs, u.buckets[r.model]);
    }
  }

  lemma AddKeepsOrder(prices: PriceList, t: Totals, r: Record)
    requires OrderOk(t)
    ensures OrderOk(Add(prices, t, r))
  {
    hide CostPerToken;
  }

  lemma BucketGrows(bs: seq<ModelUsage>, b: ModelUsage)
    ensures BucketInput(bs + [b]) == BucketInput(bs) + b.inputTokens && BucketOutput(bs + [b]) == BucketOutput(bs) + b.outputTokens
    ensures BucketCost(bs + [b]) == BucketCost(bs) + b.cost && BucketCalls(bs + [b]) == BucketCalls(bs) + b.calls
  {
    assert (bs + [b])[..|bs|] == bs;
  }

  lemma BreakdownChange(prices: PriceList, t: Totals, r: Record) returns (i: nat)
    requires OrderOk(t) && r.model in t.buckets
    ensures i < |t.order| && t.order[i] == r.model && |Breakdown(t)| == |t.order| && Breakdown(t)[i] == t.buckets[r.model]
    ensures Breakdown(Add(prices, t, r)) == Breakdown(t)[i := Add(prices, t, r).buckets[r.model]]
  {
    hide CostPerToken;
    i :| 0 <= i < |t.order| && t.order[i] == r.model;
  }

  lemma BreakdownGrows(prices: PriceList, t: Totals, r: Record)
    requires OrderOk(t) && r.model !in t.buckets
    ensures Breakdown(Add(prices, t, r)) == Breakdown(t) + [Add(prices, t, r).buckets[r.model]]
  {
    hide CostPerToken;
  }

  // ----- Batch aggregation of transcript entries -----

  /** An assistant entry without numeric input and output counts has no usage. */
  datatype Entry = Assistant(model: string, usage: bool, input: int, output: int, cacheWrite: int, cacheRead: int) | OtherEntry

  function UsableIn(e: Entry): seq<Record> {
    match e
    case Assistant(model, true, i, o, w, r) => [Record(model, i, o, w, r)]
    case _ => []
  }

  function UsableRecords(entries: seq<Entry>): seq<Record> {
    if |entries| == 0 then []
    else UsableRecords(entries[..|entries| - 1]) + UsableIn(entries[|entries| - 1])
  }

  lemma UsableOneMore(entries: seq<Entry>, n: nat)
    requires n < |entries|
    ensures UsableRecords(entries[..n + 1])
            == UsableRecords(entries[..n]) + UsableIn(entries[n])
  {
    assert entries[..n + 1][..n] == entries[..n];
  }

  lemma AddAllOneMore(prices: PriceList, rs: seq<Record>, r: Record)
    ensures AddAll(prices, rs + [r]) == Add(prices, AddAll(prices, rs), r)
  {
    assert (rs + [r])[..|rs|] == rs;
  }

  /** The loop of `aggregateUsageStats`, with its own running variables. */
  method Tally(prices: PriceList, entries: seq<Entry>)
    returns (input: int, output: int, cost: real, calls: nat, order: seq<string>, buckets: map<string, ModelUsage>)
    ensures Totals(input, output, cost, calls, order, buckets) == AddAll(prices, UsableRecords(entries))
  {
    input, output, cost, calls, order, buckets := 0, 0, 0.0, 0, [], map[];
    for n := 0 to |entries|
      invariant Totals(input, output, cost, calls, order, buckets) == AddAll(prices, UsableRecords(entries[..n]))
    {
      ghost var before := UsableRecords(entries[..n]);
      ghost var after := UsableRecords(entries[..n + 1]);
      var e := entries[n];
      assert after == before + UsableIn(e) by { UsableOneMore(entries, n); }
      if e.OtherEntry? || !e.usage {
        assert after == before;
        continue;
      }
      var r := Record(e.model, e.input, e.output, e.cacheWrite, e.cacheRead);
      AddAllOneMore(prices, before, r);
      input, output, cost, calls, order, buckets := TallyOne(prices, r, input, output, cost, calls, order, buckets);
    }
    assert entries[..|entries|] == entries;
  }

  method TallyOne(prices: PriceList, r: Record, input: int, output: int, cost: real, calls: nat,
                  order: seq<string>, buckets: map<string, ModelUsage>)
    returns (input': int, output': int, cost': real, calls': nat, order': seq<string>, buckets': map<string, ModelUsage>)
    ensures Totals(input', output', cost', calls', order', buckets')
            == Add(prices, Totals(input, output, cost, calls, order, buckets), r)
  {
    calls' := calls + 1;
    input', output' := input + r.EffectiveInput(), output + r.output;
    order', buckets' := order, buckets;
    if r.model !in buckets {
      order' := order + [r.model];
      buckets' := buckets[r.model := ModelUsage(r.model, 0, 0, 0.0, 0)];
    }
    var b := buckets'[r.model];
    var c := CostPerToken(r, prices(r.model));
    cost' := cost + c;
    buckets' := buckets'[r.model := ModelUsage(b.model, b.inputTokens + r.EffectiveInput(), b.outputTokens + r.output,
                                               b.cost + c, b.calls + 1)];
  }

  /** `aggregateUsageStats` gives what folding the accumulator over the usable records gives, breakdown order included. */
  method AggregateUsageStats(prices: PriceList, entries: seq<Entry>) returns (stats: Stats)
    ensures stats == StatsOf(AddAll(prices, UsableRecords(entries)))
  {
    var input, output, cost, calls, order, buckets := Tally(prices, entries);
    if calls == 0 {
      return Stats(0, 0, 0, 0.0, 0, []);
    }
    TotalsAreConserved(prices, UsableRecords(entries));
    var breakdown := CollectBuckets(Totals(input, output, cost, calls, order, buckets));
    stats := Stats(input, output, input + output, cost, calls, breakdown);
  }

  method CollectBuckets(t: Totals) returns (breakdown: seq<ModelUsage>)
    requires OrderOk(t)
    ensures breakdown == Breakdown(t)
  {
    breakdown := [];
    for i := 0 to |t.order|
      invariant |breakdown| == i
      invariant forall k :: 0 <= k < i ==> breakdown[k] == Bucket(t, t.order[k])
    {
      assert t.order[i] in t.order;
      breakdown := breakdown + [t.buckets[t.order[i]]];
    }
  }
}
