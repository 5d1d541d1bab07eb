/**
  What holds of every run: map iteration order never shows, and every event is about distinct symbols
  and carries each factor once.
 */
module RunLaws {
  import opened Text
  import opened Entities
  import opened EntityMap
  import opened Config
  import opened Relevance
  import opened Ledger
  import opened Router
  import opened Session
  import opened Selection
  import opened SelectionLaws
  import opened Tags
  import opened Enricher
  import opened Pairs
  import opened ImpactRows
  import Dedupe
  import opened Service
  import opened ServiceLaws
  import opened EventLaws
  import opened OrderLaws
  import opened Engine

  // ----- Order independence

  /** Same answers, same configuration; only the ranging order may differ, over one client at most if there is no chain. */
  ghost predicate SameButOrder(a: Env, b: Env) {
    && a.reg == b.reg && a.world == b.world
    && (a.reg.settings.fallbackChain != []
        || (!TwoClients(a.reg) && RangesOnce(a.reg, a.order) && RangesOnce(b.reg, b.order)))
  }

  lemma SameRoute(a: Env, b: Env, log: History, call: int, text: string)
    requires SameButOrder(a, b)
    ensures RouteCall(a, log, call, text) == RouteCall(b, log, call, text)
  {
    if a.reg.settings.fallbackChain == [] { SameListing(a.reg, a.order(call), b.order(call)); }
  }

  lemma SameJudgeOne(a: Env, b: Env, before: PairRun, text: string)
    requires SameButOrder(a, b)
    ensures JudgeOne(a, before, text) == JudgeOne(b, before, text)
  {
    SameRoute(a, b, before.log, before.calls, text);
  }

  lemma {:induction false} SameJudgeOver(f: Asker, g: Asker, start: PairRun, texts: int -> string, n: nat)
    requires forall run, text :: f(run, text) == g(run, text)
    ensures JudgeOver(f, start, texts, n) == JudgeOver(g, start, texts, n)
  {
    if n > 0 { SameJudgeOver(f, g, start, texts, n - 1); }
  }

  lemma SameJudge(a: Env, b: Env, log: History, calls: int, article: Article, pairs: seq<Pair>)
    requires SameButOrder(a, b)
    ensures Judge(a, log, calls, article, pairs) == Judge(b, log, calls, article, pairs)
  {
    forall run, text ensures AskWith(a)(run, text) == AskWith(b)(run, text) {
      SameJudgeOne(a, b, run, text);
    }
    SameJudgeOver(AskWith(a), AskWith(b), PairRun([], log, calls), PairTexts(article, pairs), |pairs|);
  }

  lemma SameRows(a: Env, b: Env, log: History, calls: int, e: EnrichedEvent, session: MarketSession, impact: Impact)
    requires SameButOrder(a, b)
    ensures RowsFor(a, log, calls, e, session, impact) == RowsFor(b, log, calls, e, session, impact)
  {
    var pairs := PairsOf(impact, e.matches);
    SameJudge(a, b, log, calls, e.article, pairs);
  }

  lemma SameTaken(a: Env, b: Env, s: Scope, t: Scope, p: Progress, draft: EnrichedEvent)
    requires SameButOrder(a, b) && s.impact == t.impact
    ensures Taken(a, s, p, draft) == Taken(b, t, p, draft)
  {
    SameRoute(a, b, p.log, p.calls, RequestText(draft.article));
    var e := Enrich(a, p.log, p.calls, draft);
    SameRows(a, b, e.log, e.calls, e.event, Aligned(e.event).session, s.impact);
  }

  /** The same run scope up to the order of the selected entities. */
  ghost predicate SameButListing(s: Scope, t: Scope) {
    s.cfg == t.cfg && s.universe == t.universe && s.impact == t.impact && multiset(s.entities) == multiset(t.entities)
  }

  lemma SameDraft(s: Scope, t: Scope, a: Article)
    requires SameButListing(s, t)
    ensures DraftOf(s, a) == DraftOf(t, a)
  {
    ScoreIgnoresEntityOrder(a, s.cfg.factors, s.entities, t.entities);
  }

  lemma SameStep(a: Env, b: Env, s: Scope, t: Scope, p: Progress, article: Article)
    requires SameButOrder(a, b) && SameButListing(s, t)
    ensures StepOf(a, s)(p, article) == StepOf(b, t)(p, article)
  {
    SameDraft(s, t, article);
    SameTaken(a, b, s, t, p, DraftOf(s, article));
  }

  lemma {:induction false} SameRun(f: Stepper, g: Stepper, start: Progress, articles: seq<Article>, n: nat)
    requires n <= |articles| && forall p, a :: f(p, a) == g(p, a)
    ensures RunOver(f, start, articles, n) == RunOver(g, start, articles, n)
  {
    if n > 0 { SameRun(f, g, start, articles, n - 1); }
  }

  lemma SameRunAll(a: Env, b: Env, s: Scope, t: Scope, log: History, calls: int, articles: seq<Article>)
    requires SameButOrder(a, b) && SameButListing(s, t)
    ensures RunAll(a, s, log, calls, articles) == RunAll(b, t, log, calls, articles)
  {
    forall p, article ensures StepOf(a, s)(p, article) == StepOf(b, t)(p, article) {
      SameStep(a, b, s, t, p, article);
    }
    SameRun(StepOf(a, s), StepOf(b, t), Progress([], [], log, calls), articles, |articles|);
  }

  /**
    Map order never shows: with a fallback chain or one client at most, and the same answers of clients
    and clock, any two selections the maps may yield for one request lead to the same events, rows,
    totals and ledger.
   */
  lemma RunIgnoresMapOrder(a: Env, b: Env, cfg: RunConfig, u: seq<Entity>, v: seq<Entity>, c: Choice, d: Choice,
                           requested: seq<string>, ingested: seq<Article>, log: History, calls: int)
    requires SameButOrder(a, b)
    requires IsEffective(u, cfg.defaults + cfg.custom) && IsSelection(c, u, requested, cfg.groups)
    requires IsEffective(v, cfg.defaults + cfg.custom) && IsSelection(d, v, requested, cfg.groups)
    ensures c.Refused? ==> d == c
    ensures c.Granted? ==>
              d.Granted? && RunOf(a, cfg, u, c, ingested, log, calls) == RunOf(b, cfg, v, d, ingested, log, calls)
  {
    EffectiveUnique(u, v, cfg.defaults + cfg.custom);
    SelectionIgnoresMapOrder(c, d, u, requested, cfg.groups);
    if c.Granted? {
      SameRunAll(a, b, Scope(cfg, u, c.entities, c.impact), Scope(cfg, v, d.entities, d.impact), log, calls, Dedupe.Deduped(ingested));
    }
  }

  // ----- The events of a run

  /** The events of a run are those of its relevant articles, duplicates left out, in order. */
  lemma RunOfEvents(env: Env, cfg: RunConfig, universe: seq<Entity>, choice: Choice, ingested: seq<Article>, log: History, calls: int)
    requires choice.Granted?
    ensures var s, articles := Scope(cfg, universe, choice.entities, choice.impact), Dedupe.Deduped(ingested);
            ArticlesOf(RunOf(env, cfg, universe, choice, ingested, log, calls).events) == Relevant(s, articles, |articles|)
  {
    var s, articles := Scope(cfg, universe, choice.entities, choice.impact), Dedupe.Deduped(ingested);
    RunEventsAre(env, s, log, calls, articles);
  }

  ghost predicate DistinctEvents(events: seq<AlignedEvent>) {
    forall i :: 0 <= i < |events| ==> DistinctMatches(events[i].event.matches)
  }

  lemma DistinctAppend(events: seq<AlignedEvent>, a: AlignedEvent)
    requires DistinctEvents(events) && DistinctMatches(a.event.matches)
    ensures DistinctEvents(events + [a])
  {}

  lemma TakenDistinct(env: Env, s: Scope, p: Progress, a: Article)
    requires DistinctSymbols(s.universe) && DistinctEvents(p.events)
    ensures DistinctEvents(StepOf(env, s)(p, a).events)
  {
    var e := Enrich(env, p.log, p.calls, DraftOf(s, a)).event;
    assert e.matches == MatchesOf(a, s.universe);
    MatchesDistinct(a, s.universe);
    DistinctAppend(p.events, Aligned(e));
  }

  /** Every event of a run matches distinct symbols, so its pairs are exactly the due ones, each once. */
  lemma RunEventsDistinct(env: Env, s: Scope, log: History, calls: int, articles: seq<Article>)
    requires DistinctSymbols(s.universe)
    ensures DistinctEvents(RunAll(env, s, log, calls, articles).events)
  {
    var inv := (p: Progress) => DistinctEvents(p.events);
    forall p, a | inv(p) ensures inv(StepOf(env, s)(p, a)) {
      TakenDistinct(env, s, p, a);
    }
    RunKeeps(StepOf(env, s), inv, Progress([], [], log, calls), articles, |articles|);
  }

  /** With distinct factors every event of a run carries each factor once, refined or not. */
  lemma EventTagsOnce(env: Env, s: Scope, log: History, calls: int, a: Article)
    requires forall i, j :: 0 <= i < j < |s.cfg.factors| ==> s.cfg.factors[i].id != s.cfg.factors[j].id
    ensures OncePerFactor(Enrich(env, log, calls, DraftOf(s, a)).event.tags)
  {
    var draft := DraftOf(s, a);
    RuleTagsOnce(Lower(RequestText(a)), s.cfg.factors, |s.cfg.factors|);
    var o := RouteCall(env, log, calls, RequestText(a)).outcome;
    if o.Success? {
      MergeOnceIff(draft.tags, o.result.factors.tags, |o.result.factors.tags|);
    }
  }
}
