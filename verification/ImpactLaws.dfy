/**
  Accounting and weights of the rows of one event: tokens and cost are split without loss, weights form
  a distribution, confidences stay in the unit interval.
 */
module ImpactLaws {
  import opened Text
  import opened Relevance
  import opened Providers
  import opened Ledger
  import opened Router
  import opened RouterLaws
  import opened Session
  import opened Enricher
  import opened ImpactRows

  // ----- Splitting a total

  function Shares(total: int, parts: nat): (s: seq<int>)
    ensures |s| == parts && forall i :: 0 <= i < parts ==> s[i] == AllocateInt(total, parts, i)
  {
    seq(parts, i requires 0 <= i < parts => AllocateInt(total, parts, i))
  }

  function SumInts(s: seq<int>, n: nat): int
    requires n <= |s|
  {
    if n == 0 then 0 else SumInts(s, n - 1) + s[n - 1]
  }

  lemma {:induction false} SumOfSteps(s: seq<int>, base: int, extra: int, n: nat)
    requires n <= |s| && 0 <= extra && forall i :: 0 <= i < n ==> s[i] == if i < extra then base + 1 else base
    ensures SumInts(s, n) == n * base + if n <= extra then n else extra
  {
    if n > 0 { SumOfSteps(s, base, extra, n - 1); }
  }

  lemma {:induction false} SumOfZeros(s: seq<int>, n: nat)
    requires n <= |s| && forall i :: 0 <= i < n ==> s[i] == 0
    ensures SumInts(s, n) == 0
  {
    if n > 0 { SumOfZeros(s, n - 1); }
  }

  /** The shares of a split add up to the total; nothing is split of a total that is not positive. */
  lemma AllocationExact(total: int, parts: nat)
    requires parts > 0
    ensures SumInts(Shares(total, parts), parts) == if total > 0 then total else 0
  {
    if total > 0 {
      SumOfSteps(Shares(total, parts), total / parts, total % parts, parts);
    } else {
      SumOfZeros(Shares(total, parts), parts);
    }
  }

  /** No two shares differ by more than one token, the larger coming first, and none is negative. */
  lemma AllocationFair(total: int, parts: int, i: int, j: int)
    requires 0 <= i <= j < parts
    ensures 0 <= AllocateInt(total, parts, j) <= AllocateInt(total, parts, i) <= AllocateInt(total, parts, j) + 1
  {}

  // ----- What rows and pairs add up to

  ghost function RowsUsage(rows: seq<FeatureRow>, n: nat): Usage
    requires n <= |rows|
  {
    if n == 0 then NoUsage()
    else
      var u, row := RowsUsage(rows, n - 1), rows[n - 1];
      Usage(u.input + row.input, u.output + row.output, u.cost + row.cost)
  }

  ghost function PairsUsage(results: seq<PairSentiment>, n: nat): Usage
    requires n <= |results|
  {
    if n == 0 then NoUsage()
    else
      var u, r := PairsUsage(results, n - 1), results[n - 1];
      Usage(u.input + r.input, u.output + r.output, u.cost + r.cost)
  }

  function MetaUsage(m: Meta): Usage {
    Usage(m.input, m.output, m.cost)
  }

  lemma {:induction false} RowsUsagePrefix(rows: seq<FeatureRow>, more: seq<FeatureRow>, n: nat)
    requires n <= |rows|
    ensures RowsUsage(rows + more, n) == RowsUsage(rows, n)
  {
    if n > 0 { RowsUsagePrefix(rows, more, n - 1); }
  }

  lemma {:induction false} PairsUsagePrefix(results: seq<PairSentiment>, more: seq<PairSentiment>, n: nat)
    requires n <= |results|
    ensures PairsUsage(results + more, n) == PairsUsage(results, n)
  {
    if n > 0 { PairsUsagePrefix(results, more, n - 1); }
  }

  function Times(x: real, n: nat): real {
    if n == 0 then 0.0 else Times(x, n - 1) + x
  }

  lemma {:induction false} TimesIsProduct(x: real, n: nat)
    ensures Times(x, n) == n as real * x
  {
    if n > 0 { TimesIsProduct(x, n - 1); }
  }

  lemma SharedCost(cost: real, parts: nat)
    requires parts > 0
    ensures Times(cost / parts as real, parts) == cost
  {
    TimesIsProduct(cost / parts as real, parts);
  }

  /** The row is a pair's own usage on top of a share. */
  predicate OnTop(row: FeatureRow, r: PairSentiment, input: int, output: int, cost: real) {
    row.input == input + r.input && row.output == output + r.output && row.cost == cost + r.cost
  }

  lemma {:induction false} RowsSplit(rows: seq<FeatureRow>, results: seq<PairSentiment>, ins: seq<int>, outs: seq<int>, cost: real, n: nat)
    requires n <= |rows| == |results| == |ins| == |outs|
    requires forall i :: 0 <= i < n ==> OnTop(rows[i], results[i], ins[i], outs[i], cost)
    ensures var u, own := RowsUsage(rows, n), PairsUsage(results, n);
            && u.input == SumInts(ins, n) + own.input
            && u.output == SumInts(outs, n) + own.output
            && u.cost == Times(cost, n) + own.cost
  {
    if n > 0 {
      RowsSplit(rows, results, ins, outs, cost, n - 1);
      assert OnTop(rows[n - 1], results[n - 1], ins[n - 1], outs[n - 1], cost);
    }
  }

  /** Each row carries its pair's own usage on top of its share of the event's. */
  lemma RowUsage(event: EnrichedEvent, session: MarketSession, pairs: seq<Pair>, results: seq<PairSentiment>, i: nat)
    requires i < |pairs| == |results|
    ensures var m := event.meta;
            OnTop(PairRows(event, session, pairs, results)[i], results[i],
                  Shares(m.input, |pairs|)[i], Shares(m.output, |pairs|)[i], m.cost / |pairs| as real)
  {
    assert PairRows(event, session, pairs, results)[i] == PairRowAt(event, session, pairs, results, i);
  }

  lemma ConfidenceInUnit(c: real, score: real)
    ensures 0.0 <= PairConfidence(c, score) <= 1.0
  {}

  /** Each row names its pair, has its weight, and a confidence in the unit interval. */
  lemma RowSays(event: EnrichedEvent, session: MarketSession, pairs: seq<Pair>, results: seq<PairSentiment>, i: nat)
    requires i < |pairs| == |results|
    ensures var row := PairRows(event, session, pairs, results)[i];
            && row.parentEntity == pairs[i].parent.symbol
            && row.childEntity == (if pairs[i].child.Some? then pairs[i].child.value.symbol else "N/A")
            && row.weight == WeightAt(pairs, results, i)
            && 0.0 <= row.confidence <= 1.0
  {
    assert PairRows(event, session, pairs, results)[i] == PairRowAt(event, session, pairs, results, i);
    ConfidenceInUnit(EntityConfidence(pairs[i]), results[i].score);
  }

  /** The rows of an event carry its own usage and that of its pairs, exactly once. */
  lemma RowsConserve(event: EnrichedEvent, session: MarketSession, pairs: seq<Pair>, results: seq<PairSentiment>)
    requires |pairs| == |results| && pairs != [] && event.meta.input >= 0 && event.meta.output >= 0
    ensures Adds(MetaUsage(event.meta), PairsUsage(results, |results|),
                 RowsUsage(PairRows(event, session, pairs, results), |pairs|))
  {
    var rows, m, parts := PairRows(event, session, pairs, results), event.meta, |pairs|;
    forall i | 0 <= i < parts
      ensures OnTop(rows[i], results[i], Shares(m.input, parts)[i], Shares(m.output, parts)[i], m.cost / parts as real)
    {
      RowUsage(event, session, pairs, results, i);
    }
    RowsSplit(rows, results, Shares(m.input, parts), Shares(m.output, parts), m.cost / parts as real, parts);
    AllocationExact(m.input, parts);
    AllocationExact(m.output, parts);
    SharedCost(m.cost, parts);
  }

  // ----- What the router was charged

  lemma CallCharges(env: Env, log: History, call: int, text: string)
    ensures var routed := RouteCall(env, log, call, text);
            && (routed.outcome.Success? ==> Adds(SpentIn(log), Bill(routed.outcome.result), SpentIn(routed.log)))
            && (routed.outcome.Failure? ==> SpentIn(routed.log) == SpentIn(log))
  {
    var chain := ChainOf(env.reg.settings, env.order(call));
    RouteCharges(env.reg, log, chain, Tries(env.world, call, text, chain));
  }

  lemma JudgeOneCharges(env: Env, before: PairRun, text: string) returns (r: PairSentiment)
    ensures var after := JudgeOne(env, before, text);
            after.results == before.results + [r] && Adds(SpentIn(before.log), PairUsage(r), SpentIn(after.log))
  {
    var routed := RouteCall(env, before.log, before.calls, text);
    r := Judged(text, routed.outcome);
    CallCharges(env, before.log, before.calls, text);
  }

  function PairUsage(r: PairSentiment): Usage {
    Usage(r.input, r.output, r.cost)
  }

  lemma PairsUsageLast(results: seq<PairSentiment>, r: PairSentiment)
    ensures Adds(PairsUsage(results, |results|), PairUsage(r), PairsUsage(results + [r], |results| + 1))
  {
    PairsUsagePrefix(results, [r], |results|);
  }

  /** Since the history `log` the router was charged exactly what the sentiments so far report. */
  ghost predicate ChargedSince(log: History, run: PairRun) {
    Adds(SpentIn(log), PairsUsage(run.results, |run.results|), SpentIn(run.log))
  }

  lemma JudgeOneKeeps(env: Env, log: History, before: PairRun, text: string)
    requires ChargedSince(log, before)
    ensures ChargedSince(log, JudgeOne(env, before, text))
  {
    var r := JudgeOneCharges(env, before, text);
    PairsUsageLast(before.results, r);
  }

  lemma {:induction false} JudgeKeeps(ask: Asker, inv: PairRun -> bool, start: PairRun, texts: int -> string, n: nat)
    requires inv(start) && forall run, text :: inv(run) ==> inv(ask(run, text))
    ensures inv(JudgeOver(ask, start, texts, n))
  {
    if n > 0 { JudgeKeeps(ask, inv, start, texts, n - 1); }
  }

  /** Judging pairs charges the router exactly what their sentiments report. */
  lemma PairsCharge(env: Env, log: History, calls: int, article: Article, pairs: seq<Pair>)
    ensures ChargedSince(log, Judge(env, log, calls, article, pairs))
  {
    var inv := (run: PairRun) => ChargedSince(log, run);
    assert inv(PairRun([], log, calls));
    forall run, text | inv(run) ensures inv(AskWith(env)(run, text)) {
      JudgeOneKeeps(env, log, run, text);
    }
    JudgeKeeps(AskWith(env), inv, PairRun([], log, calls), PairTexts(article, pairs), |pairs|);
  }

  predicate Unbilled(m: Meta) {
    m.input == 0 && m.output == 0 && m.cost == 0.0
  }

  /** Enriching an article charges the router exactly what the event's metadata report. */
  lemma EnrichCharges(env: Env, log: History, calls: int, draft: EnrichedEvent)
    requires Unbilled(draft.meta)
    ensures var e := Enrich(env, log, calls, draft);
            Adds(SpentIn(log), MetaUsage(e.event.meta), SpentIn(e.log))
  {
    if draft.needsLLM { CallCharges(env, log, calls, RequestText(draft.article)); }
  }

  // ----- Honest clients, non-negative counts

  ghost predicate HonestWorld(world: World) {
    forall call, text, i, key :: Honest(world(call, text, i, key))
  }

  lemma {:induction false} RouteFromHonest(r: Registry, log: History, chain: seq<string>, tries: nat -> Attempt, i: nat, last: Option<string>)
    requires forall k :: Honest(tries(k))
    ensures var o := RouteFrom(r, log, chain, tries, i, last).outcome;
            o.Success? ==> o.result.input >= 0 && o.result.output >= 0
    decreases |chain| - i
  {
    if i < |chain| {
      RouteStep(r, log, chain, tries, i, last);
      assert Honest(tries(i));
      var v := TryKey(r, log, chain[i], tries(i));
      if !Decisive(v) {
        RouteFromHonest(r, LogAfter(r, log, chain[i], tries(i)), chain, tries, i + 1, if v.Soft? then Some(v.message) else last);
      }
    }
  }

  lemma EnrichHonest(env: Env, log: History, calls: int, draft: EnrichedEvent)
    requires HonestWorld(env.world) && Unbilled(draft.meta)
    ensures var m := Enrich(env, log, calls, draft).event.meta; m.input >= 0 && m.output >= 0
  {
    var text := RequestText(draft.article);
    var chain := ChainOf(env.reg.settings, env.order(calls));
    var tries := Tries(env.world, calls, text, chain);
    if draft.needsLLM && chain != [] {
      RouteFromHonest(env.reg, log, chain, tries, 0, None);
    }
  }

  // ----- Weights and confidences

  lemma RawWeightPositive(pair: Pair, score: real)
    ensures PairRawWeight(pair, score) > 0.0
  {}

  lemma {:induction false} RawSumCovers(pairs: seq<Pair>, results: seq<PairSentiment>, n: nat)
    requires n <= |pairs| && n <= |results|
    ensures RawSum(pairs, results, n) >= 0.0 && (n > 0 ==> RawSum(pairs, results, n) > 0.0)
    ensures forall i :: 0 <= i < n ==> PairRawWeight(pairs[i], results[i].score) <= RawSum(pairs, results, n)
    ensures n >= 2 ==> forall i :: 0 <= i < n ==> PairRawWeight(pairs[i], results[i].score) < RawSum(pairs, results, n)
  {
    if n > 0 {
      RawSumCovers(pairs, results, n - 1);
      RawWeightPositive(pairs[n - 1], results[n - 1].score);
    }
  }

  function WeightSum(pairs: seq<Pair>, results: seq<PairSentiment>, n: nat): real
    requires n <= |pairs| == |results|
  {
    if n == 0 then 0.0 else WeightSum(pairs, results, n - 1) + WeightAt(pairs, results, n - 1)
  }

  lemma {:induction false} WeightSumIsShare(pairs: seq<Pair>, results: seq<PairSentiment>, n: nat)
    requires n <= |pairs| == |results| && RawSum(pairs, results, |pairs|) > 0.0
    ensures WeightSum(pairs, results, n) == RawSum(pairs, results, n) / RawSum(pairs, results, |pairs|)
  {
    if n > 0 {
      WeightSumIsShare(pairs, results, n - 1);
      AddShares(RawSum(pairs, results, n - 1), PairRawWeight(pairs[n - 1], results[n - 1].score), RawSum(pairs, results, |pairs|));
    }
  }

  lemma AddShares(a: real, b: real, t: real)
    requires t > 0.0
    ensures a / t + b / t == (a + b) / t
  {}

  lemma ShareBounds(a: real, t: real)
    requires 0.0 < a <= t
    ensures 0.0 < a / t <= 1.0 && (a < t ==> a / t < 1.0)
  {}

  lemma ShareOfItself(t: real)
    requires t > 0.0
    ensures t / t == 1.0
  {}

  lemma WeightBounds(pairs: seq<Pair>, results: seq<PairSentiment>, i: nat)
    requires i < |pairs| == |results| && !Reset(pairs, results)
    requires PairRawWeight(pairs[i], results[i].score) <= RawSum(pairs, results, |pairs|)
    ensures 0.0 < WeightAt(pairs, results, i) <= 1.0
    ensures PairRawWeight(pairs[i], results[i].score) < RawSum(pairs, results, |pairs|) ==> WeightAt(pairs, results, i) < 1.0
  {
    RawWeightPositive(pairs[i], results[i].score);
    ShareBounds(PairRawWeight(pairs[i], results[i].score), RawSum(pairs, results, |pairs|));
  }

  /**
    The weights of a non-empty event form a distribution, for any confidences and scores, and the reset
    to equal weights never happens.
   */
  lemma WeightsFormDistribution(pairs: seq<Pair>, results: seq<PairSentiment>)
    requires |pairs| == |results| && pairs != []
    ensures !Reset(pairs, results) && WeightSum(pairs, results, |pairs|) == 1.0
    ensures forall i :: 0 <= i < |pairs| ==> 0.0 < WeightAt(pairs, results, i) <= 1.0
    ensures |pairs| >= 2 ==> forall i :: 0 <= i < |pairs| ==> WeightAt(pairs, results, i) < 1.0
  {
    RawSumCovers(pairs, results, |pairs|);
    WeightSumIsShare(pairs, results, |pairs|);
    ShareOfItself(RawSum(pairs, results, |pairs|));
    forall i | 0 <= i < |pairs|
      ensures 0.0 < WeightAt(pairs, results, i) <= 1.0 && (|pairs| >= 2 ==> WeightAt(pairs, results, i) < 1.0)
    {
      WeightBounds(pairs, results, i);
    }
  }

  /** Sentiment can only lower a confidence, by at most three tenths of it. */
  lemma ConfidenceDamped(c: real, score: real)
    requires 0.0 <= c <= 1.0
    ensures 0.7 * c <= PairConfidence(c, score) <= c
  {
    var m := Magnitude(score);
    DampedProduct(c, m);
  }

  lemma DampedProduct(c: real, m: real)
    requires 0.0 <= c <= 1.0 && 0.0 <= m <= 1.0
    ensures 0.7 * c <= c * (0.7 + 0.3 * m) <= c
  {
    assert c * (0.7 + 0.3 * m) == 0.7 * c + 0.3 * (c * m);
    assert 0.0 <= c * m <= c;
  }
}
