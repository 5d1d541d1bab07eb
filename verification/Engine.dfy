/**
  The engine's run (internal/engine/service.go, Run), up to the computed result.
 */
module Engine {
  import opened Entities
  import opened Config
  import opened Relevance
  import opened Providers
  import opened Ledger
  import opened Router
  import opened Selection
  import opened ImpactRows
  import opened ImpactLaws
  import opened Dedupe
  import opened Service
  import opened ServiceLaws

  datatype RunResult = RunResult(
    events: seq<AlignedEvent>,
    rows: seq<FeatureRow>,
    totals: Usage,
    articlesTotal: int,
    articlesDeduped: int,
    eventsOutput: int)

  datatype RunOutcome = Rejected(missing: seq<string>) | Completed(result: RunResult)

  /** What a finished run reports. */
  ghost function ReportOf(p: Progress, ingested: seq<Article>): RunResult {
    RunResult(p.events, p.rows, RowsUsage(p.rows, |p.rows|), |ingested|, |Deduped(ingested)|, |p.events|)
  }

  /** The run of a selection, from a router's history and call number. */
  ghost function RunOf(env: Env, cfg: RunConfig, universe: seq<Entity>, choice: Choice, ingested: seq<Article>,
                       log: History, calls: int): Progress
    requires choice.Granted?
  {
    RunAll(env, Scope(cfg, universe, choice.entities, choice.impact), log, calls, Deduped(ingested))
  }

  /** What the run does to the router's usage in impact mode. */
  ghost predicate Accounted(before: Usage, r: RunResult, impact: Impact, after: Usage) {
    Adds(before, Plus(r.totals, Unmatched(impact, r.events, |r.events|)), after)
  }

  method Run(router: ProviderRouter, cfg: RunConfig, requested: seq<string>, ingested: seq<Article>, world: World, order: Order)
    returns (r: RunOutcome, ghost universe: seq<Entity>, ghost choice: Choice)
    requires router.Valid()
    modifies router
    ensures router.Valid()
    ensures IsEffective(universe, cfg.defaults + cfg.custom) && IsSelection(choice, universe, requested, cfg.groups)
    ensures choice.Refused? ==>
              r == Rejected(choice.missing) && router.log == old(router.log) && router.calls == old(router.calls)
    ensures choice.Granted? ==>
              var p := RunOf(Env(router.Reg(), world, order), cfg, universe, choice, ingested, old(router.log), old(router.calls));
              r == Completed(ReportOf(p, ingested)) && router.log == p.log && router.calls == p.calls
    ensures choice.Granted? ==>
              && r.result.totals == RowsUsage(r.result.rows, |r.result.rows|) && r.result.eventsOutput == |r.result.events|
              && r.result.articlesTotal == |ingested| && r.result.articlesDeduped == |Deduped(ingested)|
    ensures choice.Granted? && choice.impact.enabled && HonestWorld(world) ==>
              Accounted(old(Sum(router.usage)), r.result, choice.impact, Sum(router.usage))
  {
    var articles := Filter(ingested);
    var all := EffectiveEntities(cfg.defaults, cfg.custom);
    universe := all;
    var selection := SelectEntities(all, requested, cfg.groups);
    choice := selection;
    if selection.Refused? {
      return Rejected(selection.missing), universe, choice;
    }
    var scope := Scope(cfg, all, selection.entities, selection.impact);
    ghost var env := Env(router.Reg(), world, order);
    UsageIsSpent(router);
    var events, rows := RunArticles(router, scope, articles, world, order);
    UsageIsSpent(router);
    if scope.impact.enabled && HonestWorld(world) {
      RunConserves(env, scope, old(router.log), old(router.calls), articles);
    }
    var totals := AddUp(rows);
    r := Completed(RunResult(events, rows, totals, |ingested|, |articles|, |events|));
  }

  lemma UsageIsSpent(router: ProviderRouter)
    requires router.Valid()
    ensures Sum(router.usage) == SpentIn(router.log)
  {
    LedgerIsSumOfCharges(router.settings, router.log);
  }
}
