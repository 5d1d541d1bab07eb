/**
  What the fields of a feature row say (internal/engine/impact_rows.go), told from the event, the pair
  and the sentiment the row was written for.
 */
module RowFields {
  import opened Text
  import opened Relevance
  import opened Providers
  import opened Ledger
  import opened Router
  import opened Session
  import opened Selection
  import opened Tags
  import opened Enricher
  import opened EnrichLaws
  import opened Pairs
  import opened ImpactRows
  import opened ImpactLaws

  // ----- Weights

  /** Negative confidences count as none. */
  function Counted(confidence: real): real {
    if confidence < 0.0 then 0.0 else confidence
  }

  /** How strong a sentiment is, whichever way it points; never more than 1. */
  function Strength(score: real): real {
    if score >= 1.0 || score <= -1.0 then 1.0 else if score >= 0.0 then score else -score
  }

  /** The parent's confidence, half the child's and a tenth of the strength of the sentiment; 1 where all are none. */
  function Importance(pair: Pair, score: real): real {
    var child := if pair.child.Some? then Counted(pair.child.value.confidence) / 2.0 else 0.0;
    var sum := Counted(pair.parent.confidence) + child + Strength(score) / 10.0;
    if sum == 0.0 then 1.0 else sum
  }

  lemma RawWeightIs(pair: Pair, score: real)
    ensures PairRawWeight(pair, score) == Importance(pair, score) > 0.0
  {}

  /** `part` is that share of `t`. */
  predicate IsPart(share: real, t: real, part: real) {
    share * t == part
  }

  lemma QuotientIsPart(part: real, t: real)
    requires t > 0.0
    ensures IsPart(part / t, t, part)
  {}

  lemma OneWeight(e: EnrichedEvent, session: MarketSession, pairs: seq<Pair>, results: seq<PairSentiment>, i: nat, t: real)
    requires i < |pairs| == |results| && t == RawSum(pairs, results, |pairs|) && t > 0.0
    ensures var row := PairRows(e, session, pairs, results)[i];
            IsPart(row.weight, t, Importance(pairs[i], row.sentimentScore))
  {
    assert PairRows(e, session, pairs, results)[i] == PairRowAt(e, session, pairs, results, i);
    RawWeightIs(pairs[i], results[i].score);
    QuotientIsPart(PairRawWeight(pairs[i], results[i].score), t);
  }

  /** The weights of an event's rows are in proportion to the importance of their pairs. */
  lemma WeightsInProportion(e: EnrichedEvent, session: MarketSession, pairs: seq<Pair>, results: seq<PairSentiment>) returns (t: real)
    requires |pairs| == |results| && pairs != []
    ensures var rows := PairRows(e, session, pairs, results);
            && |rows| == |pairs| && t > 0.0
            && forall i :: 0 <= i < |rows| ==> IsPart(rows[i].weight, t, Importance(pairs[i], rows[i].sentimentScore))
  {
    var rows := PairRows(e, session, pairs, results);
    RawSumCovers(pairs, results, |pairs|);
    t := RawSum(pairs, results, |pairs|);
    forall i | 0 <= i < |rows| ensures IsPart(rows[i].weight, t, Importance(pairs[i], rows[i].sentimentScore)) {
      OneWeight(e, session, pairs, results, i, t);
    }
  }

  // ----- Confidence

  /** Between seven tenths and all of the mean confidence of parent and child, by the strength of the sentiment. */
  function Damped(pair: Pair, score: real): real {
    var mean := if pair.child.Some? then (pair.parent.confidence + pair.child.value.confidence) / 2.0 else pair.parent.confidence;
    mean - 0.3 * (1.0 - Strength(score)) * mean
  }

  /** The damped mean, kept within 0 and 1. */
  predicate ConfidenceOf(c: real, pair: Pair, score: real) {
    var d := Damped(pair, score);
    0.0 <= c <= 1.0 && (0.0 <= d <= 1.0 ==> c == d) && (d < 0.0 ==> c == 0.0) && (d > 1.0 ==> c == 1.0)
  }

  lemma ConfidenceIs(pair: Pair, score: real)
    ensures ConfidenceOf(PairConfidence(EntityConfidence(pair), score), pair, score)
  {
    var mean, m := EntityConfidence(pair), Strength(score);
    assert mean * (0.7 + 0.3 * m) == mean - 0.3 * (1.0 - m) * mean;
  }

  // ----- The other fields

  /** The provider (or model) a row names: the one event and pair agree on up to case, the pair's own if it is blank, or none. */
  predicate AgreedOn(shown: string, pairSide: string, eventSide: string) {
    if !Blank(eventSide) && (Blank(pairSide) || Lower(Trim(pairSide)) == Lower(Trim(eventSide))) then
      shown == if Blank(pairSide) then Trim(eventSide) else Trim(pairSide)
    else shown == "mixed"
  }

  lemma SameLengthLower(a: string, b: string)
    requires Lower(a) == Lower(b)
    ensures a == "" <==> b == ""
  {
    assert |Lower(a)| == |a| && |Lower(b)| == |b|;
  }

  lemma CommonIs(pairSide: string, eventSide: string)
    ensures AgreedOn(Common(pairSide, eventSide), pairSide, eventSide)
  {
    if Lower(Trim(pairSide)) == Lower(Trim(eventSide)) { SameLengthLower(Trim(pairSide), Trim(eventSide)); }
  }

  /** The label of a row is the mood without outer spaces, "neutral" where blank. */
  predicate LabelOf(shown: string, mood: string) {
    shown == if Blank(mood) then "neutral" else Trim(mood)
  }

  /** What every row of an event says of it. */
  predicate SaysOfEvent(row: FeatureRow, e: EnrichedEvent, session: MarketSession) {
    && row.articleID == e.article.id && row.sessionDate == session.sessionDate && row.sessionLabel == session.sessionLabel
    && row.relevance == e.relevance && row.factorVector == IDs(e.tags)
    && row.summary == if Blank(e.article.summary) then Trim(e.article.title) else Trim(e.article.summary)
  }

  /** What the row of a pair says of the pair and its sentiment. */
  predicate SaysOfPair(row: FeatureRow, e: EnrichedEvent, pair: Pair, s: PairSentiment) {
    && row.symbol == row.parentEntity == pair.parent.symbol
    && row.childEntity == (if pair.child.Some? then pair.child.value.symbol else "N/A")
    && row.sentimentScore == s.score && LabelOf(row.displayMood, s.mood)
    && AgreedOn(row.provider, s.provider, e.meta.provider) && AgreedOn(row.model, s.model, e.meta.model)
    && ConfidenceOf(row.confidence, pair, row.sentimentScore)
  }

  lemma PairRowSays(e: EnrichedEvent, session: MarketSession, pairs: seq<Pair>, results: seq<PairSentiment>, i: nat)
    requires i < |pairs| == |results|
    ensures var row := PairRows(e, session, pairs, results)[i];
            SaysOfEvent(row, e, session) && SaysOfPair(row, e, pairs[i], results[i])
  {
    assert PairRows(e, session, pairs, results)[i] == PairRowAt(e, session, pairs, results, i);
    ConfidenceIs(pairs[i], results[i].score);
    CommonIs(results[i].provider, e.meta.provider);
    CommonIs(results[i].model, e.meta.model);
  }

  /** What a row of ordinary mode says: the event's own sentiment, tokens and cost, for one match. */
  predicate SaysOfMatch(row: FeatureRow, e: EnrichedEvent, symbol: string, parent: string, confidence: real) {
    && row.symbol == symbol && row.parentEntity == parent && row.childEntity == "N/A"
    && row.provider == e.meta.provider && row.model == e.meta.model
    && row.sentimentScore == e.score && LabelOf(row.displayMood, e.mood)
    && row.input == e.meta.input && row.output == e.meta.output && row.cost == e.meta.cost
    && row.weight == 1.0 && row.confidence == confidence
  }

  predicate SaysOfEntity(row: FeatureRow, e: EnrichedEvent, session: MarketSession, m: EntityMatch) {
    SaysOfEvent(row, e, session) && SaysOfMatch(row, e, m.symbol, m.symbol, m.confidence)
  }

  lemma EntityRowSays(e: EnrichedEvent, session: MarketSession, m: EntityMatch)
    ensures SaysOfEntity(EntityRow(e, session, m), e, session, m)
  {}

  lemma {:induction false} EntityRowsSay(e: EnrichedEvent, session: MarketSession, n: nat)
    requires n <= |e.matches|
    ensures var rows := EntityRows(e, session, n);
            |rows| == n && forall i :: 0 <= i < n ==> SaysOfEntity(rows[i], e, session, e.matches[i])
  {
    if n > 0 {
      EntityRowsSay(e, session, n - 1);
      EntityRowSays(e, session, e.matches[n - 1]);
    }
  }

  /** Ordinary mode writes one row for each match in order, and a single one for an unknown entity where there is none. */
  lemma PlainRowsSay(e: EnrichedEvent, session: MarketSession)
    ensures var rows := PlainRows(e, session);
            if e.matches == [] then
              |rows| == 1 && SaysOfEvent(rows[0], e, session) && SaysOfMatch(rows[0], e, "UNKNOWN", "N/A", 0.0)
            else
              |rows| == |e.matches| && forall i :: 0 <= i < |rows| ==> SaysOfEntity(rows[i], e, session, e.matches[i])
  {
    EntityRowsSay(e, session, |e.matches|);
  }

  // ----- The sentiments behind the rows

  /** The text the router is asked about a pair. */
  function PairQuestion(a: Article, parent: string, child: string): string {
    Trim("Parent: " + Trim(parent) + "\nChild: " + (if Blank(child) then "N/A" else Trim(child)) +
         "\nTitle: " + Trim(a.title) + "\nSummary: " + Trim(a.summary) + "\nBody: " + Trim(a.body))
  }

  function ChildSymbol(pair: Pair): string {
    if pair.child.Some? then pair.child.value.symbol else ""
  }

  lemma JoinTwo(x: string, rest: seq<string>, sep: string)
    requires rest != []
    ensures Join([x] + rest, sep) == x + sep + Join(rest, sep)
  {
    assert ([x] + rest)[1..] == rest;
  }

  lemma JoinFive(a: string, b: string, c: string, d: string, e: string, sep: string)
    ensures Join([a, b, c, d, e], sep) == a + sep + (b + sep + (c + sep + (d + sep + e)))
  {
    JoinTwo(d, [e], sep);
    JoinTwo(c, [d, e], sep);
    JoinTwo(b, [c, d, e], sep);
    JoinTwo(a, [b, c, d, e], sep);
    assert [a] + [b, c, d, e] == [a, b, c, d, e] && [b] + [c, d, e] == [b, c, d, e];
    assert [c] + [d, e] == [c, d, e] && [d] + [e] == [d, e];
  }

  lemma PairTextIs(a: Article, pair: Pair)
    ensures PairText(a, pair) == PairQuestion(a, pair.parent.symbol, ChildSymbol(pair))
  {
    var p, t, m, b := Trim(pair.parent.symbol), Trim(a.title), Trim(a.summary), Trim(a.body);
    var c := if Blank(ChildSymbol(pair)) then "N/A" else Trim(ChildSymbol(pair));
    BlankEmpty();
    JoinFive("Parent: " + p, "Child: " + c, "Title: " + t, "Summary: " + m, "Body: " + b, "\n");
    LinesJoined(p, c, t, m, b);
  }

  lemma BlankEmpty()
    ensures Blank("")
  {}

  lemma LinesJoined(p: string, c: string, t: string, m: string, b: string)
    ensures "Parent: " + p + "\n" + ("Child: " + c + "\n" + ("Title: " + t + "\n" + ("Summary: " + m + "\n" + ("Body: " + b))))
         == "Parent: " + p + "\nChild: " + c + "\nTitle: " + t + "\nSummary: " + m + "\nBody: " + b
  {
    assert "\n" + "Child: " == "\nChild: " && "\n" + "Title: " == "\nTitle: ";
    assert "\n" + "Summary: " == "\nSummary: " && "\n" + "Body: " == "\nBody: ";
  }

  /** The router's history and call number, and the sentiments so far, after the first `i` pairs. */
  ghost function RunAt(env: Env, log: History, calls: int, article: Article, pairs: seq<Pair>, i: nat): PairRun {
    JudgeOver(AskWith(env), PairRun([], log, calls), PairTexts(article, pairs), i)
  }

  /** The sentiment is the router's answer, call number `call`, or the rules' finding; what follows starts from there. */
  ghost predicate InTurn(env: Env, before: PairRun, after: PairRun, call: int, text: string, s: PairSentiment) {
    var routed := RouteCall(env, before.log, call, text);
    SentimentOf(s, text, routed.outcome) && after.log == routed.log
  }

  /** Asking adds one sentiment to those before. */
  lemma AskedOnce(env: Env, before: PairRun, text: string, after: PairRun) returns (s: PairSentiment)
    requires after == JudgeOne(env, before, text)
    ensures after.results == before.results + [s] && InTurn(env, before, after, before.calls, text, s)
  {
    s := Judged(text, RouteCall(env, before.log, before.calls, text).outcome);
    JudgedIs(text, RouteCall(env, before.log, before.calls, text).outcome);
  }

  ghost predicate AddsOne(ask: Asker) {
    forall run, text :: |ask(run, text).results| == |run.results| + 1 && run.results <= ask(run, text).results
  }

  lemma AskAddsOne(env: Env)
    ensures AddsOne(AskWith(env))
  {}

  lemma {:induction false} EarlierStay(ask: Asker, start: PairRun, texts: int -> string, i: nat, n: nat)
    requires i <= n && AddsOne(ask)
    ensures JudgeOver(ask, start, texts, i).results <= JudgeOver(ask, start, texts, n).results
  {
    if i < n { EarlierStay(ask, start, texts, i, n - 1); }
  }

  lemma {:induction false} CallsInTurn(ask: Asker, start: PairRun, texts: int -> string, i: nat)
    requires forall run, text :: ask(run, text).calls == run.calls + 1
    ensures JudgeOver(ask, start, texts, i).calls == start.calls + i
  {
    if i > 0 { CallsInTurn(ask, start, texts, i - 1); }
  }

  /** A sentiment stays at its place. */
  lemma StaysInPlace(ask: Asker, start: PairRun, texts: int -> string, i: nat, n: nat, s: PairSentiment)
    requires i < n && AddsOne(ask) && start.results == []
    requires JudgeOver(ask, start, texts, i + 1).results == JudgeOver(ask, start, texts, i).results + [s]
    ensures i < |JudgeOver(ask, start, texts, n).results| && JudgeOver(ask, start, texts, n).results[i] == s
  {
    CountsAll(ask, ResultCount, start, texts, i);
    EarlierStay(ask, start, texts, i + 1, n);
    assert JudgeOver(ask, start, texts, i + 1).results[i] == s;
  }

  lemma JudgedInTurn(env: Env, start: PairRun, texts: int -> string, i: nat, n: nat, text: string, before: PairRun, after: PairRun, end: PairRun)
    returns (s: PairSentiment)
    requires i < n && start.results == [] && text == texts(i)
    requires before == JudgeOver(AskWith(env), start, texts, i) && after == JudgeOver(AskWith(env), start, texts, i + 1)
    requires end == JudgeOver(AskWith(env), start, texts, n)
    ensures i < |end.results| && end.results[i] == s && InTurn(env, before, after, before.calls, text, s)
    ensures before.calls == start.calls + i
  {
    var ask := AskWith(env);
    AskAddsOne(env);
    CallsInTurn(ask, start, texts, i);
    s := AskedOnce(env, before, text, after);
    StaysInPlace(ask, start, texts, i, n, s);
  }

  lemma PairTextAt(article: Article, pairs: seq<Pair>, i: nat)
    requires i < |pairs|
    ensures PairTexts(article, pairs)(i) == PairQuestion(article, pairs[i].parent.symbol, ChildSymbol(pairs[i]))
  {
    PairTextIs(article, pairs[i]);
  }

  /** Pairs are judged one after the other, each sentiment being the router's answer about its pair or the rules' finding. */
  lemma PairJudged(env: Env, log: History, calls: int, article: Article, pairs: seq<Pair>, i: nat, before: PairRun, after: PairRun)
    returns (text: string, s: PairSentiment)
    requires i < |pairs|
    requires before == RunAt(env, log, calls, article, pairs, i) && after == RunAt(env, log, calls, article, pairs, i + 1)
    ensures text == PairQuestion(article, pairs[i].parent.symbol, ChildSymbol(pairs[i]))
    ensures Judge(env, log, calls, article, pairs).results[i] == s && InTurn(env, before, after, before.calls, text, s)
    ensures before.calls == calls + i && (i == 0 ==> before.log == log)
  {
    PairTextAt(article, pairs, i);
    text := PairTexts(article, pairs)(i);
    s := JudgedInTurn(env, PairRun([], log, calls), PairTexts(article, pairs), i, |pairs|, text, before, after,
                      Judge(env, log, calls, article, pairs));
  }

  // ----- The rows of an event in impact mode

  /** All an event's rows say in impact mode: one for each pair, in order, with its own sentiment and its due weight. */
  lemma ImpactRowsSay(env: Env, log: History, calls: int, e: EnrichedEvent, session: MarketSession, impact: Impact)
    returns (results: seq<PairSentiment>, t: real)
    requires impact.enabled
    ensures var pairs, rows := PairsOf(impact, e.matches), RowsFor(env, log, calls, e, session, impact).rows;
            && |rows| == |pairs| == |results| && t > 0.0
            && results == Judge(env, log, calls, e.article, pairs).results
            && forall i :: 0 <= i < |rows| ==>
                 && SaysOfEvent(rows[i], e, session) && SaysOfPair(rows[i], e, pairs[i], results[i])
                 && IsPart(rows[i].weight, t, Importance(pairs[i], rows[i].sentimentScore))
  {
    var pairs := PairsOf(impact, e.matches);
    results := Judge(env, log, calls, e.article, pairs).results;
    t := 1.0;
    if pairs != [] { t := WeightsInProportion(e, session, pairs, results); }
    forall i | 0 <= i < |pairs|
      ensures var row := PairRows(e, session, pairs, results)[i]; SaysOfEvent(row, e, session) && SaysOfPair(row, e, pairs[i], results[i])
    {
      PairRowSays(e, session, pairs, results, i);
    }
  }
}
