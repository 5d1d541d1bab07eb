/**
  One run of the engine (internal/engine/service.go): select entities, then per deduplicated article
  score, enrich, align and write rows. The operation itself is `Engine.Run`.
 */
module Service {
  import opened Entities
  import opened Relevance
  import opened Providers
  import opened Ledger
  import opened Router
  import opened Session
  import opened Selection
  import opened Enricher
  import opened ImpactRows
  import opened ImpactLaws

  datatype RunConfig = RunConfig(
    defaults: seq<Entity>,
    custom: seq<Entity>,
    groups: seq<EntityGroup>,
    factors: seq<Factor>,
    profile: Profile)

  datatype AlignedEvent = AlignedEvent(event: EnrichedEvent, session: MarketSession, labelWindowTo: int)

  /** Events and rows so far, and the router's history and call number. */
  datatype Progress = Progress(events: seq<AlignedEvent>, rows: seq<FeatureRow>, log: History, calls: int)

  /** What a run is about: the universe, the selected entities and the parent/child mode. */
  datatype Scope = Scope(cfg: RunConfig, universe: seq<Entity>, entities: seq<Entity>, impact: Impact)

  function DraftOf(s: Scope, a: Article): EnrichedEvent {
    Draft(a, s.universe, s.cfg.factors, s.entities, s.cfg.profile)
  }

  function Aligned(e: EnrichedEvent): AlignedEvent {
    AlignedEvent(e, AlignToNSESession(e.article.publishedAt), LabelWindowEnd(e.article.publishedAt))
  }

  /** The run once the event of an article that is relevant enough is done. */
  ghost function Taken(env: Env, s: Scope, p: Progress, draft: EnrichedEvent): Progress {
    var e := Enrich(env, p.log, p.calls, draft);
    var r := RowsFor(env, e.log, e.calls, e.event, Aligned(e.event).session, s.impact);
    Progress(p.events + [Aligned(e.event)], p.rows + r.rows, r.log, r.calls)
  }

  ghost function RunStep(env: Env, s: Scope, p: Progress, a: Article): Progress {
    if DraftOf(s, a).relevance < s.cfg.profile.minRelevance then p else Taken(env, s, p, DraftOf(s, a))
  }

  type Stepper = (Progress, Article) -> Progress

  /** The step over one article as a value, so that laws about whole runs need not look into it. */
  ghost function StepOf(env: Env, s: Scope): Stepper {
    (p: Progress, a: Article) => RunStep(env, s, p, a)
  }

  ghost function RunOver(step: Stepper, start: Progress, articles: seq<Article>, n: nat): Progress
    requires n <= |articles|
  {
    if n == 0 then start else step(RunOver(step, start, articles, n - 1), articles[n - 1])
  }

  /** The whole run from a router's history and call number. */
  ghost function RunAll(env: Env, s: Scope, log: History, calls: int, articles: seq<Article>): Progress {
    RunOver(StepOf(env, s), Progress([], [], log, calls), articles, |articles|)
  }

  method TakeArticle(router: ProviderRouter, s: Scope, article: Article, world: World, order: Order, ghost p: Progress)
    returns (events: seq<AlignedEvent>, rows: seq<FeatureRow>)
    requires router.Valid() && p.log == router.log && p.calls == router.calls
    modifies router
    ensures router.Valid()
    ensures Progress(p.events + events, p.rows + rows, router.log, router.calls)
            == RunStep(Env(router.Reg(), world, order), s, p, article)
  {
    var breakdown := ScoreBreakdown(article, s.cfg.factors, s.entities);
    if breakdown.relevance < s.cfg.profile.minRelevance {
      assert p.events + [] == p.events && p.rows + [] == p.rows;
      return [], [];
    }
    var enriched := EnrichArticle(router, s.universe, article, s.cfg.factors, s.entities, s.cfg.profile, world, order);
    var session := AlignToNSESession(article.publishedAt);
    var aligned := AlignedEvent(enriched, session, LabelWindowEnd(article.publishedAt));
    rows := BuildFeatureRows(router, enriched, session, s.impact, world, order);
    events := [aligned];
  }

  method AddUp(rows: seq<FeatureRow>) returns (totals: Usage)
    ensures totals == RowsUsage(rows, |rows|)
  {
    totals := Usage(0, 0, 0.0);
    for i := 0 to |rows|
      invariant totals == RowsUsage(rows, i)
    {
      totals := Usage(totals.input + rows[i].input, totals.output + rows[i].output, totals.cost + rows[i].cost);
    }
  }

  method RunArticles(router: ProviderRouter, s: Scope, articles: seq<Article>, world: World, order: Order)
    returns (events: seq<AlignedEvent>, rows: seq<FeatureRow>)
    requires router.Valid()
    modifies router
    ensures router.Valid()
    ensures Progress(events, rows, router.log, router.calls)
            == RunAll(Env(router.Reg(), world, order), s, old(router.log), old(router.calls), articles)
  {
    ghost var step, start := StepOf(Env(router.Reg(), world, order), s), Progress([], [], router.log, router.calls);
    events, rows := [], [];
    for i := 0 to |articles|
      invariant router.Valid()
      invariant Progress(events, rows, router.log, router.calls) == RunOver(step, start, articles, i)
    {
      var moreEvents, moreRows :=
        TakeArticle(router, s, articles[i], world, order, Progress(events, rows, router.log, router.calls));
      events, rows := events + moreEvents, rows + moreRows;
    }
  }
}
