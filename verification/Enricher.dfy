/**
  Enrichment of one article (internal/enrich/enricher.go, internal/enrich/entity_mapper.go): rules
  first, and the router only for articles in the ambiguous band of the relevance score.
 */
module Enricher {
  import opened Text
  import opened Entities
  import opened EntityMap
  import opened Matcher
  import opened Relevance
  import opened Providers
  import opened Ledger
  import opened Router
  import opened Tags

  // ----- The sentiment rules

  const UPBEAT := ["growth", "strong", "beat", "upside", "upgrade", "surge"]
  const DOWNBEAT := ["weak", "miss", "downside", "downgrade", "delay", "cut"]

  function TokensFound(text: string, tokens: seq<string>, n: nat): nat
    requires n <= |tokens|
  {
    if n == 0 then 0 else TokensFound(text, tokens, n - 1) + if Contains(text, tokens[n - 1]) then 1 else 0
  }

  /** Upbeat words in the text less downbeat ones. */
  function Balance(text: string): int {
    TokensFound(Lower(text), UPBEAT, |UPBEAT|) - TokensFound(Lower(text), DOWNBEAT, |DOWNBEAT|)
  }

  function MoodOf(balance: int): string {
    if balance > 0 then "positive" else if balance < 0 then "negative" else "neutral"
  }

  /** The label only depends on which words prevail; the thresholds never hide a single word. */
  method DeterministicSentiment(text: string) returns (mood: string, score: real)
    ensures mood == MoodOf(Balance(text)) && score == 0.15 * Balance(text) as real
  {
    var lower := Lower(text);
    score := 0.0;
    for i := 0 to |UPBEAT|
      invariant score == 0.15 * TokensFound(lower, UPBEAT, i) as real
    {
      if Contains(lower, UPBEAT[i]) {
        score := score + 0.15;
      }
    }
    var up := TokensFound(lower, UPBEAT, |UPBEAT|);
    for i := 0 to |DOWNBEAT|
      invariant score == 0.15 * (up - TokensFound(lower, DOWNBEAT, i)) as real
    {
      if Contains(lower, DOWNBEAT[i]) {
        score := score - 0.15;
      }
    }
    mood := "neutral";
    if score > 0.1 {
      mood := "positive";
    }
    if score < -0.1 {
      mood := "negative";
    }
  }

  // ----- The entity mapper

  predicate MatchedID(matches: seq<EntityMatch>, id: string) {
    exists i :: 0 <= i < |matches| && matches[i].entityID == id
  }

  function MatchOf(e: Entity, hit: EntityHit): EntityMatch
    requires hit.Hit?
  {
    EntityMatch(e.id, e.symbol, e.name, hit.confidence, hit.how)
  }

  function Matches(text: string, universe: seq<Entity>, n: nat): seq<EntityMatch>
    requires n <= |universe|
  {
    if n == 0 then []
    else
      var before, e := Matches(text, universe, n - 1), universe[n - 1];
      var hit := MatchEntity(text, e);
      if hit.Miss? || MatchedID(before, e.id) then before else before + [MatchOf(e, hit)]
  }

  function MatchesOf(article: Article, universe: seq<Entity>): seq<EntityMatch> {
    Matches(Lower(ArticleText(article)), universe, |universe|)
  }

  lemma MatchedIDAppend(matches: seq<EntityMatch>, m: EntityMatch)
    ensures forall id :: MatchedID(matches + [m], id) <==> MatchedID(matches, id) || id == m.entityID
  {
    forall id ensures MatchedID(matches + [m], id) <==> MatchedID(matches, id) || id == m.entityID {
      if MatchedID(matches, id) {
        var i :| 0 <= i < |matches| && matches[i].entityID == id;
        assert (matches + [m])[i] == matches[i];
      }
      assert (matches + [m])[|matches|] == m;
    }
  }

  method MapEntities(article: Article, universe: seq<Entity>) returns (matches: seq<EntityMatch>)
    ensures matches == MatchesOf(article, universe)
  {
    var text := Lower(ArticleText(article));
    var seen: set<string> := {};
    matches := [];
    for i := 0 to |universe|
      invariant matches == Matches(text, universe, i)
      invariant forall id :: id in seen <==> MatchedID(matches, id)
    {
      var entity := universe[i];
      var hit := MatchEntity(text, entity);
      if hit.Miss? {
        continue;
      }
      if entity.id in seen {
        continue;
      }
      MatchedIDAppend(matches, MatchOf(entity, hit));
      seen := seen + {entity.id};
      matches := matches + [EntityMatch(entity.id, entity.symbol, entity.name, hit.confidence, hit.how)];
    }
  }

  /** `universe[i]` is the first of the first `n` entities with its id that the text mentions. */
  ghost predicate FirstHit(text: string, universe: seq<Entity>, n: nat, i: nat) {
    && i < n <= |universe|
    && MatchEntity(text, universe[i]).Hit?
    && forall j :: 0 <= j < i && universe[j].id == universe[i].id ==> MatchEntity(text, universe[j]).Miss?
  }

  /** Each match is that of the first mentioned entity with its id, in universe order. */
  lemma {:induction false} MatchOrigin(text: string, universe: seq<Entity>, n: nat, k: nat) returns (i: nat)
    requires n <= |universe| && k < |Matches(text, universe, n)|
    ensures FirstHit(text, universe, n, i)
    ensures Matches(text, universe, n)[k] == MatchOf(universe[i], MatchEntity(text, universe[i]))
    ensures |Matches(text, universe, i)| == k
  {
    var before := Matches(text, universe, n - 1);
    if k < |before| {
      i := MatchOrigin(text, universe, n - 1, k);
    } else {
      i := n - 1;
      NewIsFirstHit(text, universe, i);
    }
  }

  lemma NewIsFirstHit(text: string, universe: seq<Entity>, i: nat)
    requires i < |universe| && MatchEntity(text, universe[i]).Hit? && !MatchedID(Matches(text, universe, i), universe[i].id)
    ensures FirstHit(text, universe, i + 1, i)
  {
    forall j | 0 <= j < i && MatchEntity(text, universe[j]).Hit? ensures universe[j].id != universe[i].id {
      HitIsMatched(text, universe, i, j);
    }
  }

  /** No mentioned id is left out. */
  lemma {:induction false} HitIsMatched(text: string, universe: seq<Entity>, n: nat, j: nat)
    requires j < n <= |universe| && MatchEntity(text, universe[j]).Hit?
    ensures MatchedID(Matches(text, universe, n), universe[j].id)
  {
    var before, e := Matches(text, universe, n - 1), universe[n - 1];
    if j < n - 1 { HitIsMatched(text, universe, n - 1, j); }
    if MatchEntity(text, e).Hit? { MatchedIDAppend(before, MatchOf(e, MatchEntity(text, e))); }
  }

  /** No two matches share a symbol that is not blank. */
  ghost predicate DistinctMatches(matches: seq<EntityMatch>) {
    forall i, j :: 0 <= i < j < |matches| && Key(matches[i].symbol) != "" ==> Key(matches[i].symbol) != Key(matches[j].symbol)
  }

  /** Over an effective universe the matches have distinct symbols. */
  lemma MatchesDistinct(article: Article, universe: seq<Entity>)
    requires DistinctSymbols(universe)
    ensures DistinctMatches(MatchesOf(article, universe))
  {
    var text, matches := Lower(ArticleText(article)), MatchesOf(article, universe);
    forall i, j | 0 <= i < j < |matches| && Key(matches[i].symbol) != ""
      ensures Key(matches[i].symbol) != Key(matches[j].symbol)
    {
      var a := MatchOrigin(text, universe, |universe|, i);
      var b := MatchOrigin(text, universe, |universe|, j);
      assert a != b;
    }
  }

  // ----- One article

  datatype Profile = Profile(minRelevance: real, novelty: real, ambiguity: real)

  datatype Meta = Meta(provider: string, model: string, input: int, output: int, cost: real)

  datatype EnrichedEvent = EnrichedEvent(
    meta: Meta,
    article: Article,
    matches: seq<EntityMatch>,
    tags: seq<FactorTag>,
    mood: string,
    score: real,
    relevance: real,
    needsLLM: bool)

  function OrRules(s: string): string {
    if s == "" then "rules" else s
  }

  function RequestText(a: Article): string {
    Trim(ArticleText(a))
  }

  /** The event the rules alone produce. */
  function Draft(a: Article, universe: seq<Entity>, factors: seq<Factor>, entities: seq<Entity>, profile: Profile): EnrichedEvent {
    var relevance, balance := RelevanceScore(a, factors, entities), Balance(RequestText(a));
    EnrichedEvent(Meta("rules", "rules", 0, 0, 0.0), a, MatchesOf(a, universe),
                  RuleTags(Lower(RequestText(a)), factors, |factors|),
                  MoodOf(balance), 0.15 * balance as real, relevance,
                  NeedsLLMRefinement(relevance, profile.novelty, profile.ambiguity))
  }

  /** The event once a provider answered. */
  function Refined(e: EnrichedEvent, r: RouterResult): EnrichedEvent {
    e.(meta := Meta(OrRules(r.provider), OrRules(r.model), r.input, r.output, r.cost),
       tags := Merged(e.tags, r.factors.tags, |r.factors.tags|),
       mood := r.sentiment.labelText,
       score := r.sentiment.score)
  }

  function Answered(e: EnrichedEvent, o: Outcome): EnrichedEvent {
    if o.Success? then Refined(e, o.result) else e
  }

  /** The event, and the router's history and call number after it. */
  datatype Enriched = Enriched(event: EnrichedEvent, log: History, calls: int)

  ghost function Enrich(env: Env, log: History, calls: int, draft: EnrichedEvent): Enriched {
    if !draft.needsLLM then Enriched(draft, log, calls)
    else
      var routed := RouteCall(env, log, calls, RequestText(draft.article));
      Enriched(Answered(draft, routed.outcome), routed.log, calls + 1)
  }

  method EnrichArticle(router: ProviderRouter, universe: seq<Entity>, article: Article, factors: seq<Factor>,
                       entities: seq<Entity>, profile: Profile, world: World, order: Order)
    returns (event: EnrichedEvent)
    requires router.Valid()
    modifies router
    ensures router.Valid()
    ensures Enriched(event, router.log, router.calls)
            == Enrich(Env(router.Reg(), world, order), old(router.log), old(router.calls),
                      Draft(article, universe, factors, entities, profile))
  {
    var text := Trim(ArticleText(article));
    var matches := MapEntities(article, universe);
    var tags := DeterministicFactorTags(text, factors);
    var mood, score := DeterministicSentiment(text);
    var breakdown := ScoreBreakdown(article, factors, entities);
    var needsLLM := NeedsLLMRefinement(breakdown.relevance, profile.novelty, profile.ambiguity);
    var meta := Meta("", "", 0, 0, 0.0);
    if needsLLM {
      var outcome := router.Enrich(text, world, order);
      if outcome.Success? {
        var routed := outcome.result;
        mood, score := routed.sentiment.labelText, routed.sentiment.score;
        tags := MergeFactorTags(tags, routed.factors.tags);
        meta := Meta(routed.provider, routed.model, routed.input, routed.output, routed.cost);
      }
    }
    if meta.provider == "" {
      meta := meta.(provider := "rules");
    }
    if meta.model == "" {
      meta := meta.(model := "rules");
    }
    event := EnrichedEvent(meta, article, matches, tags, mood, score, breakdown.relevance, needsLLM);
  }

  // ----- One parent/child pair

  datatype Pair = Pair(parent: EntityMatch, child: Option<EntityMatch>)

  datatype PairSentiment = PairSentiment(
    provider: string, model: string, mood: string, score: real, input: int, output: int, cost: real)

  function ChildLabel(child: Option<EntityMatch>): string {
    if child.None? || Trim(child.value.symbol) == "" then "N/A" else Trim(child.value.symbol)
  }

  function PairText(a: Article, pair: Pair): string {
    Trim(Join(["Parent: " + Trim(pair.parent.symbol),
               "Child: " + ChildLabel(pair.child),
               "Title: " + Trim(a.title),
               "Summary: " + Trim(a.summary),
               "Body: " + Trim(a.body)], "\n"))
  }

  function RulesOnly(text: string): PairSentiment {
    PairSentiment("rules", "rules", MoodOf(Balance(text)), 0.15 * Balance(text) as real, 0, 0, 0.0)
  }

  function Judged(text: string, o: Outcome): PairSentiment {
    if o.Failure? then RulesOnly(text)
    else
      var r := o.result;
      PairSentiment(r.provider, r.model, r.sentiment.labelText, r.sentiment.score, r.input, r.output, r.cost)
  }

  method ClassifyPairSentiment(router: ProviderRouter, article: Article, pair: Pair, world: World, order: Order)
    returns (result: PairSentiment)
    requires router.Valid()
    modifies router
    ensures router.Valid() && router.calls == old(router.calls) + 1
    ensures var text := PairText(article, pair);
            var routed := RouteCall(Env(router.Reg(), world, order), old(router.log), old(router.calls), text);
            result == Judged(text, routed.outcome) && router.log == routed.log
  {
    var text := PairText(article, pair);
    var mood, score := DeterministicSentiment(text);
    result := PairSentiment("rules", "rules", mood, score, 0, 0, 0.0);
    var outcome := router.Enrich(text, world, order);
    if outcome.Failure? {
      return;
    }
    var routed := outcome.result;
    result := PairSentiment(routed.provider, routed.model, routed.sentiment.labelText, routed.sentiment.score,
                            routed.input, routed.output, routed.cost);
  }
}
