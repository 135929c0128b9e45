// What calls cost (backend/app/observability/cost.py). Money and prices are exact reals where
// the source has decimals.
module Cost {
  import opened Lists
  import opened Wrappers

  const TOKENS_PER_UNIT := 1000000.0
  const MICRODOLLAR := 0.000001

  datatype ModelPricing = ModelPricing(model: string, inputPerMillion: real, outputPerMillion: real) {
    predicate Valid() {
      model != "" && inputPerMillion >= 0.0 && outputPerMillion >= 0.0
    }
  }

  datatype Usage = Usage(inputTokens: nat, outputTokens: nat)

  datatype CostEstimate = CostEstimate(
    provider: string, model: string, inputTokens: nat, outputTokens: nat,
    inputCost: real, outputCost: real, usageReported: bool, priced: bool)
  {
    function TotalCost(): real {
      inputCost + outputCost
    }
  }

  // -- one call --------------------------------------------------------------

  // `quantize` to the microdollar, halves going up.
  function Quantized(amount: real): real
    requires amount >= 0.0
  {
    (amount / MICRODOLLAR + 0.5).Floor as real * MICRODOLLAR
  }

  // The quantized amount is the whole number of microdollars closest to the amount, and the
  // larger of the two when the amount lies halfway.
  lemma NearestMicrodollar(amount: real, other: int)
    requires amount >= 0.0
    ensures var whole := (Quantized(amount) / MICRODOLLAR).Floor;
            && whole >= 0 && Quantized(amount) == whole as real * MICRODOLLAR
            && (other != whole ==> var gap := other as real * MICRODOLLAR - amount;
                var own := Quantized(amount) - amount;
                Size(own) < Size(gap) || (Size(own) == Size(gap) && other < whole))
    ensures Size(Quantized(amount) - amount) <= MICRODOLLAR / 2.0
  {
    var scaled := amount / MICRODOLLAR;
    var whole := (scaled + 0.5).Floor;
    assert amount == scaled * MICRODOLLAR;
    assert whole as real <= scaled + 0.5 < whole as real + 1.0;
    assert Quantized(amount) / MICRODOLLAR == whole as real;
  }

  function Size(x: real): real {
    if x < 0.0 then -x else x
  }

  function ExactCost(tokens: nat, perMillion: real): real {
    tokens as real / TOKENS_PER_UNIT * perMillion
  }

  function CostOf(tokens: nat, perMillion: real): (cost: real)
    requires perMillion >= 0.0
    ensures cost >= 0.0 && Size(cost - ExactCost(tokens, perMillion)) <= MICRODOLLAR / 2.0
  {
    ProductNotNegative(tokens as real / TOKENS_PER_UNIT, perMillion);
    NearestMicrodollar(ExactCost(tokens, perMillion), 0);
    Quantized(ExactCost(tokens, perMillion))
  }

  lemma ProductNotNegative(a: real, b: real)
    requires a >= 0.0 && b >= 0.0
    ensures a * b >= 0.0
  {
  }

  type Prices = map<string, ModelPricing>

  ghost predicate ValidPrices(prices: Prices) {
    forall model :: model in prices ==> prices[model].Valid() && prices[model].model == model
  }

  // `PricingTable`: a model may be priced only once.
  method PricingTable(entries: seq<ModelPricing>) returns (table: Result<Prices, string>)
    requires forall entry :: entry in entries ==> entry.Valid()
    ensures table.Success? <==> forall i, j :: 0 <= i < j < |entries| ==> entries[i].model != entries[j].model
    ensures table.Success? ==> ValidPrices(table.value) && table.value.Values == set entry | entry in entries
    ensures table.Failure? ==> exists j :: 0 <= j < |entries| && entries[j].model == table.error &&
                                 exists i :: 0 <= i < j && entries[i].model == table.error
  {
    var prices: Prices := map[];
    for n := 0 to |entries|
      invariant forall i, j :: 0 <= i < j < n ==> entries[i].model != entries[j].model
      invariant forall i :: 0 <= i < n ==> entries[i].model in prices && prices[entries[i].model] == entries[i]
      invariant forall model :: model in prices ==>
                  prices[model].model == model && exists i :: 0 <= i < n && entries[i] == prices[model]
    {
      if entries[n].model in prices {
        return Failure(entries[n].model);
      }
      prices := prices[entries[n].model := entries[n]];
    }
    forall entry | entry in entries
      ensures entry in prices.Values
    {
      assert entry.model in prices && prices[entry.model] == entry;
    }
    return Success(prices);
  }

  datatype Call = Call(provider: string, model: string, usage: Option<Usage>)

  function Tokens(call: Call): Usage {
    if call.usage.Some? then call.usage.value else Usage(0, 0)
  }

  function EstimateCost(call: Call, prices: Prices): CostEstimate
    requires ValidPrices(prices)
  {
    var tokens := Tokens(call);
    var reported := call.usage.Some? && (tokens.inputTokens != 0 || tokens.outputTokens != 0);
    if call.model !in prices then
      CostEstimate(call.provider, call.model, tokens.inputTokens, tokens.outputTokens, 0.0, 0.0, reported, false)
    else
      var price := prices[call.model];
      CostEstimate(call.provider, call.model, tokens.inputTokens, tokens.outputTokens,
                   CostOf(tokens.inputTokens, price.inputPerMillion),
                   CostOf(tokens.outputTokens, price.outputPerMillion), reported, true)
  }

  // What a call would cost without rounding: its input at the price of input and its output at
  // the price of output. A call nobody priced, or that reports no usage, costs nothing known.
  function TrueCost(call: Call, prices: Prices): real {
    match call.usage
    case None => 0.0
    case Some(usage) =>
      if call.model !in prices then 0.0
      else
        usage.inputTokens as real * prices[call.model].inputPerMillion / TOKENS_PER_UNIT +
        usage.outputTokens as real * prices[call.model].outputPerMillion / TOKENS_PER_UNIT
  }

  lemma NothingCosts(perMillion: real)
    ensures ExactCost(0, perMillion) == 0.0
  {
  }

  lemma ExactCostIs(tokens: nat, perMillion: real)
    ensures ExactCost(tokens, perMillion) == tokens as real * perMillion / TOKENS_PER_UNIT
  {
  }

  lemma ErrorsAdd(a: real, x: real, b: real, y: real, bound: real)
    requires Size(a - x) <= bound && Size(b - y) <= bound
    ensures Size((a + b) - (x + y)) <= 2.0 * bound
  {
  }

  // Without usage the tokens are none, and cost nothing.
  lemma TrueCostIsExact(call: Call, prices: Prices)
    requires call.model in prices
    ensures TrueCost(call, prices) ==
            ExactCost(Tokens(call).inputTokens, prices[call.model].inputPerMillion) +
            ExactCost(Tokens(call).outputTokens, prices[call.model].outputPerMillion)
  {
    var price, tokens := prices[call.model], Tokens(call);
    ExactCostIs(tokens.inputTokens, price.inputPerMillion);
    ExactCostIs(tokens.outputTokens, price.outputPerMillion);
    if call.usage.None? {
      NothingCosts(price.inputPerMillion);
      NothingCosts(price.outputPerMillion);
    }
  }

  lemma OneCallWithinOne(call: Call, prices: Prices)
    requires ValidPrices(prices)
    ensures Size(EstimateCost(call, prices).TotalCost() - TrueCost(call, prices)) <=
            if EstimateCost(call, prices).priced then MICRODOLLAR else 0.0
  {
    if call.model in prices {
      var price, tokens := prices[call.model], Tokens(call);
      TrueCostIsExact(call, prices);
      ErrorsAdd(CostOf(tokens.inputTokens, price.inputPerMillion),
                ExactCost(tokens.inputTokens, price.inputPerMillion),
                CostOf(tokens.outputTokens, price.outputPerMillion),
                ExactCost(tokens.outputTokens, price.outputPerMillion), MICRODOLLAR / 2.0);
    }
  }

  // An estimate shows the tokens that were reported, none otherwise; zero on both counts reads
  // as unreported. Only a priced call has costs, one of its input and one of its output.
  lemma EstimateShowsTheCall(call: Call, prices: Prices)
    requires ValidPrices(prices)
    ensures var estimate := EstimateCost(call, prices);
            && estimate.provider == call.provider && estimate.model == call.model
            && (estimate.usageReported <==> estimate.inputTokens + estimate.outputTokens > 0)
            && (call.usage.None? ==> !estimate.usageReported)
            && (call.usage.Some? ==> estimate.inputTokens == call.usage.value.inputTokens
                                     && estimate.outputTokens == call.usage.value.outputTokens)
            && (estimate.priced <==> call.model in prices)
            && (!estimate.priced ==> estimate.inputCost == estimate.outputCost == 0.0)
            && (estimate.priced ==>
                  && estimate.inputCost == CostOf(estimate.inputTokens, prices[call.model].inputPerMillion)
                  && estimate.outputCost == CostOf(estimate.outputTokens, prices[call.model].outputPerMillion))
  {
  }

  // -- many calls -------------------------------------------------------------

  function Total(entries: seq<CostEstimate>): real {
    if entries == [] then 0.0 else Total(entries[..|entries| - 1]) + entries[|entries| - 1].TotalCost()
  }

  function TotalFor(entries: seq<CostEstimate>, model: string): real {
    if entries == [] then 0.0
    else
      var last := entries[|entries| - 1];
      TotalFor(entries[..|entries| - 1], model) + if last.model == model then last.TotalCost() else 0.0
  }

  function Estimates(calls: seq<Call>, prices: Prices): (entries: seq<CostEstimate>)
    requires ValidPrices(prices)
    ensures |entries| == |calls|
  {
    if calls == [] then []
    else Estimates(calls[..|calls| - 1], prices) + [EstimateCost(calls[|calls| - 1], prices)]
  }

  function TrueTotal(calls: seq<Call>, prices: Prices): real {
    if calls == [] then 0.0 else TrueTotal(calls[..|calls| - 1], prices) + TrueCost(calls[|calls| - 1], prices)
  }

  function PricedCalls(entries: seq<CostEstimate>): nat {
    if entries == [] then 0
    else PricedCalls(entries[..|entries| - 1]) + if entries[|entries| - 1].priced then 1 else 0
  }

  // Rounding every call costs at most one microdollar a priced call, over any number of calls.
  lemma {:induction false} LedgerWithinOneEach(calls: seq<Call>, prices: Prices)
    requires ValidPrices(prices)
    ensures var entries := Estimates(calls, prices);
            && Size(Total(entries) - TrueTotal(calls, prices)) <= PricedCalls(entries) as real * MICRODOLLAR
            && PricedCalls(entries) <= |calls|
  {
    if calls != [] {
      var before, last := calls[..|calls| - 1], calls[|calls| - 1];
      LedgerWithinOneEach(before, prices);
      OneCallWithinOne(last, prices);
      var entries, e := Estimates(before, prices), EstimateCost(last, prices);
      assert (entries + [e])[..|entries|] == entries;
      var a, b := Total(entries) - TrueTotal(before, prices), e.TotalCost() - TrueCost(last, prices);
      assert Total(entries + [e]) - TrueTotal(calls, prices) == a + b;
    }
  }

  lemma TotalSnoc(entries: seq<CostEstimate>, last: CostEstimate)
    ensures Total(entries + [last]) == Total(entries) + last.TotalCost()
  {
    assert (entries + [last])[..|entries|] == entries;
  }

  lemma {:induction false} TotalWithout(entries: seq<CostEstimate>, i: nat)
    requires i < |entries|
    ensures Total(entries) == Total(entries[..i] + entries[i + 1..]) + entries[i].TotalCost()
  {
    var front, last := entries[..|entries| - 1], entries[|entries| - 1];
    assert entries == front + [last];
    if i == |front| {
      assert entries[..i] + entries[i + 1..] == front;
      TotalSnoc(front, last);
    } else {
      var shorter := front[..i] + front[i + 1..];
      assert entries[..i] + entries[i + 1..] == shorter + [last] && front[i] == entries[i];
      TotalWithout(front, i);
      TotalSnoc(front, last);
      TotalSnoc(shorter, last);
    }
  }

  // The total does not depend on the order of the calls.
  lemma {:induction false} OrderIsIrrelevant(a: seq<CostEstimate>, b: seq<CostEstimate>)
    requires multiset(a) == multiset(b)
    ensures Total(a) == Total(b)
    decreases |a|
  {
    if a == [] {
      assert |multiset(b)| == 0;
    } else {
      var n := |a| - 1;
      assert a[n] in multiset(b);
      var i :| 0 <= i < |b| && b[i] == a[n];
      Without(a, n);
      Without(b, i);
      assert a[..n] + a[n + 1..] == a[..n];
      OrderIsIrrelevant(a[..n], b[..i] + b[i + 1..]);
      TotalWithout(b, i);
    }
  }

  // The totals of some models, added up.
  function SumOver(models: seq<string>, totals: map<string, real>): real
    requires forall model :: model in models ==> model in totals
  {
    if models == [] then 0.0 else totals[models[0]] + SumOver(models[1..], totals)
  }

  ghost function SumFor(models: seq<string>, entries: seq<CostEstimate>): real {
    if models == [] then 0.0 else TotalFor(entries, models[0]) + SumFor(models[1..], entries)
  }

  lemma {:induction false} SumForStep(models: seq<string>, entries: seq<CostEstimate>)
    requires NoRepeats(models) && entries != []
    ensures var last := entries[|entries| - 1];
            SumFor(models, entries) == SumFor(models, entries[..|entries| - 1]) +
            if last.model in models then last.TotalCost() else 0.0
  {
    if models != [] {
      SumForStep(models[1..], entries);
      assert models == [models[0]] + models[1..];
    }
  }

  lemma {:induction false} ModelsCoverTotal(models: seq<string>, entries: seq<CostEstimate>)
    requires NoRepeats(models) && forall entry :: entry in entries ==> entry.model in models
    ensures SumFor(models, entries) == Total(entries)
  {
    if entries == [] {
      NothingForNobody(models);
    } else {
      ModelsCoverTotal(models, entries[..|entries| - 1]);
      SumForStep(models, entries);
    }
  }

  lemma {:induction false} NothingForNobody(models: seq<string>)
    ensures SumFor(models, []) == 0.0
  {
    if models != [] {
      NothingForNobody(models[1..]);
    }
  }

  // Adding up `by_model`, in whatever order its keys are taken, gives the total.
  lemma ByModelAddsUp(entries: seq<CostEstimate>, totals: map<string, real>, models: seq<string>)
    requires IsByModel(entries, totals)
    requires NoRepeats(models) && forall model :: model in models <==> model in totals
    ensures SumOver(models, totals) == Total(entries)
  {
    ModelsCoverTotal(models, entries);
    SameSum(models, entries, totals);
  }

  lemma {:induction false} SameSum(models: seq<string>, entries: seq<CostEstimate>, totals: map<string, real>)
    requires IsByModel(entries, totals) && forall model :: model in models ==> model in totals
    ensures SumOver(models, totals) == SumFor(models, entries)
  {
    if models != [] {
      SameSum(models[1..], entries, totals);
    }
  }

  ghost predicate IsByModel(entries: seq<CostEstimate>, totals: map<string, real>) {
    && (forall entry :: entry in entries ==> entry.model in totals)
    && (forall model :: model in totals ==> exists i :: 0 <= i < |entries| && entries[i].model == model)
    && (forall model :: model in totals ==> totals[model] == TotalFor(entries, model))
  }

  function WithEntry(totals: map<string, real>, entry: CostEstimate): map<string, real> {
    totals[entry.model := (if entry.model in totals then totals[entry.model] else 0.0) + entry.TotalCost()]
  }

  lemma {:induction false} NothingForAbsent(entries: seq<CostEstimate>, model: string)
    requires forall entry :: entry in entries ==> entry.model != model
    ensures TotalFor(entries, model) == 0.0
  {
    if entries != [] {
      NothingForAbsent(entries[..|entries| - 1], model);
    }
  }

  class UsageLedger {
    var entries: seq<CostEstimate>

    constructor ()
      ensures entries == []
    {
      entries := [];
    }

    method Add(estimate: CostEstimate) returns (same: CostEstimate)
      modifies this
      ensures entries == old(entries) + [estimate] && same == estimate
    {
      entries := entries + [estimate];
      same := estimate;
    }

    method TotalCost() returns (total: real)
      ensures total == Total(entries)
    {
      total := 0.0;
      for n := 0 to |entries|
        invariant total == Total(entries[..n])
      {
        total := total + entries[n].TotalCost();
        assert entries[..n + 1][..n] == entries[..n];
      }
      assert entries[..|entries|] == entries;
    }

    method FullyPriced() returns (all: bool)
      ensures all <==> PricedCalls(entries) == |entries|
    {
      all := forall entry :: entry in entries ==> entry.priced;
      AllPriced(entries);
    }

    // The totals by model; the source also sorts its keys.
    method ByModel() returns (totals: map<string, real>)
      ensures IsByModel(entries, totals)
    {
      totals := map[];
      for n := 0 to |entries|
        invariant IsByModel(entries[..n], totals)
      {
        NextByModel(entries, n, totals);
        totals := WithEntry(totals, entries[n]);
      }
      assert entries[..|entries|] == entries;
    }
  }

  lemma NextByModel(entries: seq<CostEstimate>, n: nat, totals: map<string, real>)
    requires n < |entries| && IsByModel(entries[..n], totals)
    ensures IsByModel(entries[..n + 1], WithEntry(totals, entries[n]))
  {
    AddedByModel(entries[..n], entries[n], totals);
    assert entries[..n + 1] == entries[..n] + [entries[n]];
  }

  lemma AddedByModel(entries: seq<CostEstimate>, entry: CostEstimate, totals: map<string, real>)
    requires IsByModel(entries, totals)
    ensures IsByModel(entries + [entry], WithEntry(totals, entry))
  {
    var longer, after := entries + [entry], WithEntry(totals, entry);
    assert longer[..|entries|] == entries;
    if entry.model !in totals {
      NothingForAbsent(entries, entry.model);
    }
    forall model | model in after
      ensures exists i :: 0 <= i < |longer| && longer[i].model == model
    {
      if model == entry.model {
        assert longer[|entries|].model == model;
      } else {
        var i :| 0 <= i < |entries| && entries[i].model == model;
        assert longer[i].model == model;
      }
    }
  }

  lemma {:induction false} AllPriced(entries: seq<CostEstimate>)
    ensures PricedCalls(entries) <= |entries|
    ensures PricedCalls(entries) == |entries| <==> forall entry :: entry in entries ==> entry.priced
  {
    if entries != [] {
      var before := entries[..|entries| - 1];
      AllPriced(before);
      assert entries == before + [entries[|entries| - 1]];
    }
  }
}
