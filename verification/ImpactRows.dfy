/**
  Feature rows of an event (internal/engine/impact_rows.go): one per matched entity in ordinary mode,
  one per parent/child pair in impact mode.
 */
module ImpactRows {
  import opened Text
  import opened Relevance
  import opened Providers
  import opened Ledger
  import opened Router
  import opened Session
  import opened Selection
  import opened Tags
  import opened Enricher
  import opened Pairs

  datatype FeatureRow = FeatureRow(
    articleID: string,
    symbol: string,
    parentEntity: string,
    childEntity: string,
    provider: string,
    model: string,
    sessionDate: int,
    sessionLabel: string,
    sentimentScore: real,
    displayMood: string,
    relevance: real,
    factorVector: seq<string>,
    input: int,
    output: int,
    cost: real,
    weight: real,
    confidence: real,
    summary: string)

  // ----- Pure pieces

  function Clamp(x: real): real {
    if x < 0.0 then 0.0 else x
  }

  /** The magnitude of a sentiment score, at most one. */
  function Magnitude(score: real): real {
    var m := if score < 0.0 then -score else score;
    if m > 1.0 then 1.0 else m
  }

  function PairRawWeight(pair: Pair, score: real): real {
    var child := if pair.child.Some? then Clamp(pair.child.value.confidence) else 0.0;
    var raw := Clamp(pair.parent.confidence) + 0.5 * child + 0.1 * Magnitude(score);
    if raw <= 0.0 then 1.0 else raw
  }

  function EntityConfidence(pair: Pair): real {
    if pair.child.Some? then (pair.parent.confidence + pair.child.value.confidence) / 2.0 else pair.parent.confidence
  }

  function PairConfidence(entityConfidence: real, score: real): real {
    var c := entityConfidence * (0.7 + 0.3 * Magnitude(score));
    if c < 0.0 then 0.0 else if c > 1.0 then 1.0 else c
  }

  /** Share `idx` of a total split over `parts` rows: the remainder goes to the first ones. */
  function AllocateInt(total: int, parts: int, idx: int): int {
    if parts <= 0 || total <= 0 then 0
    else if idx < total % parts then total / parts + 1
    else total / parts
  }

  function MoodShown(mood: string): string {
    if Trim(mood) == "" then "neutral" else Trim(mood)
  }

  function SummaryOf(a: Article): string {
    if Trim(a.summary) != "" then Trim(a.summary) else Trim(a.title)
  }

  /** A row names the provider (or model) only if event and pair agree on it. */
  function Common(pairSide: string, eventSide: string): string {
    var p, e := if Trim(pairSide) == "" then Trim(eventSide) else Trim(pairSide), Trim(eventSide);
    if p != "" && Lower(p) == Lower(e) then p else "mixed"
  }

  // ----- Ordinary mode

  function PlainRow(event: EnrichedEvent, session: MarketSession, symbol: string, parent: string, confidence: real): FeatureRow {
    FeatureRow(event.article.id, symbol, parent, "N/A", event.meta.provider, event.meta.model,
               session.sessionDate, session.sessionLabel, event.score, MoodShown(event.mood), event.relevance,
               IDs(event.tags), event.meta.input, event.meta.output, event.meta.cost, 1.0, confidence,
               SummaryOf(event.article))
  }

  function EntityRow(event: EnrichedEvent, session: MarketSession, m: EntityMatch): FeatureRow {
    PlainRow(event, session, m.symbol, m.symbol, m.confidence)
  }

  function EntityRows(event: EnrichedEvent, session: MarketSession, n: nat): seq<FeatureRow>
    requires n <= |event.matches|
  {
    if n == 0 then [] else EntityRows(event, session, n - 1) + [EntityRow(event, session, event.matches[n - 1])]
  }

  function PlainRows(event: EnrichedEvent, session: MarketSession): seq<FeatureRow> {
    if event.matches == [] then [PlainRow(event, session, "UNKNOWN", "N/A", 0.0)]
    else EntityRows(event, session, |event.matches|)
  }

  // ----- Impact mode

  /** The sentiments of pairs asked one after the other, and the router's history and call number after them. */
  datatype PairRun = PairRun(results: seq<PairSentiment>, log: History, calls: int)

  ghost function JudgeOne(env: Env, before: PairRun, text: string): PairRun {
    var routed := RouteCall(env, before.log, before.calls, text);
    PairRun(before.results + [Judged(text, routed.outcome)], routed.log, before.calls + 1)
  }

  type Asker = (PairRun, string) -> PairRun

  /** Asking one pair as a value, so that laws about runs of pairs need not look into it. */
  ghost function AskWith(env: Env): Asker {
    (run: PairRun, text: string) => JudgeOne(env, run, text)
  }

  /** The request texts of the pairs by their place. */
  function PairTexts(article: Article, pairs: seq<Pair>): int -> string {
    (i: int) => if 0 <= i < |pairs| then PairText(article, pairs[i]) else ""
  }

  ghost function JudgeOver(ask: Asker, start: PairRun, texts: int -> string, n: nat): PairRun {
    if n == 0 then start else ask(JudgeOver(ask, start, texts, n - 1), texts(n - 1))
  }

  function ResultCount(run: PairRun): int {
    |run.results|
  }

  /** Every asking raises the count by one. */
  ghost predicate CountsEach(ask: Asker, count: PairRun -> int) {
    forall run, text :: count(ask(run, text)) == count(run) + 1
  }

  lemma {:induction false} CountsAll(ask: Asker, count: PairRun -> int, start: PairRun, texts: int -> string, n: nat)
    requires CountsEach(ask, count)
    ensures count(JudgeOver(ask, start, texts, n)) == count(start) + n
  {
    if n > 0 { CountsAll(ask, count, start, texts, n - 1); }
  }

  ghost function Judge(env: Env, log: History, calls: int, article: Article, pairs: seq<Pair>): (run: PairRun)
    ensures |run.results| == |pairs|
  {
    var start := PairRun([], log, calls);
    assert CountsEach(AskWith(env), ResultCount);
    CountsAll(AskWith(env), ResultCount, start, PairTexts(article, pairs), |pairs|);
    JudgeOver(AskWith(env), start, PairTexts(article, pairs), |pairs|)
  }

  function RawSum(pairs: seq<Pair>, results: seq<PairSentiment>, n: nat): real
    requires n <= |pairs| && n <= |results|
  {
    if n == 0 then 0.0
    else RawSum(pairs, results, n - 1) + PairRawWeight(pairs[n - 1], results[n - 1].score)
  }

  /** The reset to equal weights applies when the raw weights do not add up to something positive. */
  predicate Reset(pairs: seq<Pair>, results: seq<PairSentiment>)
    requires |pairs| == |results|
  {
    RawSum(pairs, results, |pairs|) <= 0.0
  }

  function WeightAt(pairs: seq<Pair>, results: seq<PairSentiment>, i: nat): real
    requires i < |pairs| == |results|
  {
    if Reset(pairs, results) then 1.0 / |pairs| as real
    else PairRawWeight(pairs[i], results[i].score) / RawSum(pairs, results, |pairs|)
  }

  /** What a row takes over from its event: its share of the tokens and the cost. */
  datatype Share = Share(input: int, output: int, cost: real)

  function ShareOf(m: Meta, parts: int, idx: int): Share
    requires parts > 0
  {
    Share(AllocateInt(m.input, parts, idx), AllocateInt(m.output, parts, idx), m.cost / parts as real)
  }

  function PairRow(event: EnrichedEvent, session: MarketSession, pair: Pair, result: PairSentiment,
                   share: Share, weight: real): FeatureRow
  {
    FeatureRow(event.article.id, pair.parent.symbol, pair.parent.symbol,
               if pair.child.Some? then pair.child.value.symbol else "N/A",
               Common(result.provider, event.meta.provider), Common(result.model, event.meta.model),
               session.sessionDate, session.sessionLabel, result.score, MoodShown(result.mood), event.relevance,
               IDs(event.tags),
               share.input + result.input, share.output + result.output, share.cost + result.cost,
               weight, PairConfidence(EntityConfidence(pair), result.score),
               SummaryOf(event.article))
  }

  function PairRowAt(event: EnrichedEvent, session: MarketSession, pairs: seq<Pair>, results: seq<PairSentiment>, i: nat): FeatureRow
    requires i < |pairs| == |results|
  {
    PairRow(event, session, pairs[i], results[i], ShareOf(event.meta, |pairs|, i), WeightAt(pairs, results, i))
  }

  function PairRows(event: EnrichedEvent, session: MarketSession, pairs: seq<Pair>, results: seq<PairSentiment>): seq<FeatureRow>
    requires |pairs| == |results|
  {
    seq(|pairs|, i requires 0 <= i < |pairs| => PairRowAt(event, session, pairs, results, i))
  }

  /** Rows, and the router's history and call number after them. */
  datatype Rowed = Rowed(rows: seq<FeatureRow>, log: History, calls: int)

  ghost function RowsFor(env: Env, log: History, calls: int, event: EnrichedEvent, session: MarketSession, impact: Impact): Rowed {
    if !impact.enabled then Rowed(PlainRows(event, session), log, calls)
    else
      var pairs := PairsOf(impact, event.matches);
      var run := Judge(env, log, calls, event.article, pairs);
      Rowed(PairRows(event, session, pairs, run.results), run.log, run.calls)
  }

  method BuildFeatureRows(router: ProviderRouter, event: EnrichedEvent, session: MarketSession, impact: Impact,
                          world: World, order: Order) returns (rows: seq<FeatureRow>)
    requires router.Valid()
    modifies router
    ensures router.Valid()
    ensures Rowed(rows, router.log, router.calls)
            == RowsFor(Env(router.Reg(), world, order), old(router.log), old(router.calls), event, session, impact)
  {
    if impact.enabled {
      rows := BuildImpactFeatureRows(router, event, session, impact, world, order);
      return;
    }
    if event.matches == [] {
      return [PlainRow(event, session, "UNKNOWN", "N/A", 0.0)];
    }
    rows := [];
    for i := 0 to |event.matches|
      invariant rows == EntityRows(event, session, i)
    {
      rows := rows + [EntityRow(event, session, event.matches[i])];
    }
  }

  method JudgePairs(router: ProviderRouter, article: Article, pairs: seq<Pair>, world: World, order: Order)
    returns (results: seq<PairSentiment>, total: real)
    requires router.Valid()
    modifies router
    ensures router.Valid()
    ensures PairRun(results, router.log, router.calls)
            == Judge(Env(router.Reg(), world, order), old(router.log), old(router.calls), article, pairs)
    ensures |results| == |pairs| && total == RawSum(pairs, results, |pairs|)
  {
    ghost var ask, start := AskWith(Env(router.Reg(), world, order)), PairRun([], router.log, router.calls);
    results, total := [], 0.0;
    for i := 0 to |pairs|
      invariant router.Valid()
      invariant PairRun(results, router.log, router.calls) == JudgeOver(ask, start, PairTexts(article, pairs), i)
      invariant |results| == i && total == RawSum(pairs, results, i)
    {
      var sentiment := JudgeNext(router, article, pairs[i], world, order, results);
      total := AddWeight(pairs, results, total, sentiment, i);
      results := results + [sentiment];
    }
  }

  method AddWeight(pairs: seq<Pair>, ghost results: seq<PairSentiment>, total: real, sentiment: PairSentiment, i: nat)
    returns (sum: real)
    requires i < |pairs| && |results| == i && total == RawSum(pairs, results, i)
    ensures sum == RawSum(pairs, results + [sentiment], i + 1)
  {
    RawSumAppend(pairs, results, sentiment, i);
    sum := total + PairRawWeight(pairs[i], sentiment.score);
  }

  method JudgeNext(router: ProviderRouter, article: Article, pair: Pair, world: World, order: Order,
                   ghost results: seq<PairSentiment>) returns (sentiment: PairSentiment)
    requires router.Valid()
    modifies router
    ensures router.Valid()
    ensures PairRun(results + [sentiment], router.log, router.calls)
            == JudgeOne(Env(router.Reg(), world, order), PairRun(results, old(router.log), old(router.calls)), PairText(article, pair))
  {
    sentiment := ClassifyPairSentiment(router, article, pair, world, order);
  }

  lemma {:induction false} RawSumAppend(pairs: seq<Pair>, results: seq<PairSentiment>, more: PairSentiment, n: nat)
    requires n <= |pairs| && n <= |results|
    ensures RawSum(pairs, results + [more], n) == RawSum(pairs, results, n)
  {
    if n > 0 { RawSumAppend(pairs, results, more, n - 1); }
  }

  method BuildImpactFeatureRows(router: ProviderRouter, event: EnrichedEvent, session: MarketSession, impact: Impact,
                                world: World, order: Order) returns (rows: seq<FeatureRow>)
    requires router.Valid() && impact.enabled
    modifies router
    ensures router.Valid()
    ensures Rowed(rows, router.log, router.calls)
            == RowsFor(Env(router.Reg(), world, order), old(router.log), old(router.calls), event, session, impact)
  {
    var pairs := PairSpecs(impact, event.matches);
    if pairs == [] {
      return [];
    }
    var results, total := JudgePairs(router, event.article, pairs, world, order);
    rows := WriteRows(event, session, pairs, results, total);
  }

  method WriteRows(event: EnrichedEvent, session: MarketSession, pairs: seq<Pair>, results: seq<PairSentiment>, rawTotal: real)
    returns (rows: seq<FeatureRow>)
    requires |pairs| == |results| && rawTotal == RawSum(pairs, results, |pairs|)
    ensures |rows| == |pairs| && rows == PairRows(event, session, pairs, results)
  {
    ghost var written := PairRows(event, session, pairs, results);
    rows := [];
    for i := 0 to |pairs|
      invariant rows == written[..i]
    {
      var row := WriteRow(event, session, pairs, results, rawTotal, i);
      NextPrefix(written, i);
      rows := rows + [row];
    }
  }

  lemma NextPrefix<T>(s: seq<T>, i: nat)
    requires i < |s|
    ensures s[..i + 1] == s[..i] + [s[i]] && s[..|s|] == s
  {}

  method WriteRow(event: EnrichedEvent, session: MarketSession, pairs: seq<Pair>, results: seq<PairSentiment>, rawTotal: real,
                  i: nat) returns (row: FeatureRow)
    requires i < |pairs| == |results| && rawTotal == RawSum(pairs, results, |pairs|)
    ensures row == PairRowAt(event, session, pairs, results, i)
  {
    var total, rawWeight := rawTotal, PairRawWeight(pairs[i], results[i].score);
    if rawTotal <= 0.0 {
      total, rawWeight := |pairs| as real, 1.0;
    }
    row := PairRow(event, session, pairs[i], results[i], ShareOf(event.meta, |pairs|, i), rawWeight / total);
  }
}
