/**
  Accounting in impact mode (internal/engine/impact_rows.go, internal/engine/service.go): an event that
  matched no parent has no row to carry its usage; whether that can happen is decided by the articles.
 */
module UnmatchedLaws {
  import opened Relevance
  import opened Providers
  import opened Ledger
  import opened Router
  import opened Selection
  import opened Enricher
  import opened Pairs
  import opened ImpactLaws
  import opened Service
  import opened ServiceLaws
  import opened Exactness

  /** The run asks the router about the article, which matches no parent. */
  predicate Orphan(s: Scope, a: Article) {
    Asked(s, a) && !HasParent(s.impact, DraftOf(s, a))
  }

  // ----- Events that leave nothing unreported

  /** Rows speak for the event, or there is nothing to report of it. */
  predicate Covered(impact: Impact, e: EnrichedEvent) {
    HasParent(impact, e) || Unbilled(e.meta)
  }

  ghost predicate AllCovered(impact: Impact, events: seq<AlignedEvent>) {
    forall i :: 0 <= i < |events| ==> Covered(impact, events[i].event)
  }

  lemma CoveredAppend(impact: Impact, events: seq<AlignedEvent>, a: AlignedEvent)
    requires AllCovered(impact, events) && Covered(impact, a.event)
    ensures AllCovered(impact, events + [a])
  {}

  lemma {:induction false} NoTokensUnmatched(impact: Impact, events: seq<AlignedEvent>, n: nat)
    requires n <= |events| && AllCovered(impact, events)
    ensures Unmatched(impact, events, n).input == 0 && Unmatched(impact, events, n).output == 0
  {
    if n > 0 {
      NoTokensUnmatched(impact, events, n - 1);
      assert Covered(impact, events[n - 1].event);
    }
  }

  lemma {:induction false} NoCostUnmatched(impact: Impact, events: seq<AlignedEvent>, n: nat)
    requires n <= |events| && AllCovered(impact, events)
    ensures Unmatched(impact, events, n).cost == 0.0
  {
    if n > 0 {
      NoCostUnmatched(impact, events, n - 1);
      assert Covered(impact, events[n - 1].event);
    }
  }

  lemma CoveredExact(impact: Impact, log: History, p: Progress)
    requires Balanced(impact, log, p) && AllCovered(impact, p.events)
    ensures ReportsCharge(log, p)
  {
    NoTokensUnmatched(impact, p.events, |p.events|);
    NoCostUnmatched(impact, p.events, |p.events|);
  }

  lemma SameMatches(env: Env, log: History, calls: int, draft: EnrichedEvent)
    ensures Enrich(env, log, calls, draft).event.matches == draft.matches
    ensures !draft.needsLLM ==> Enrich(env, log, calls, draft).event == draft
  {}

  // ----- No orphan: exact in every world

  ghost function CoveredRun(impact: Impact): Progress -> bool {
    (p: Progress) => AllCovered(impact, p.events)
  }

  lemma NoOrphanCovered(env: Env, s: Scope, p: Progress, a: Article)
    requires !Orphan(s, a) && AllCovered(s.impact, p.events)
    ensures AllCovered(s.impact, StepOf(env, s)(p, a).events)
  {
    if !(DraftOf(s, a).relevance < s.cfg.profile.minRelevance) {
      var e := Enrich(env, p.log, p.calls, DraftOf(s, a)).event;
      SameMatches(env, p.log, p.calls, DraftOf(s, a));
      Turn(env, s, p, a);
      CoveredAppend(s.impact, p.events, Aligned(e));
    }
  }

  lemma NoOrphanKept(env: Env, s: Scope, articles: seq<Article>)
    requires forall i :: 0 <= i < |articles| ==> !Orphan(s, articles[i])
    ensures KeptOn(StepOf(env, s), CoveredRun(s.impact), articles, 0, |articles|)
  {
    var step, inv := StepOf(env, s), CoveredRun(s.impact);
    forall p, i | 0 <= i < |articles| && inv(p) ensures inv(step(p, articles[i])) {
      NoOrphanCovered(env, s, p, articles[i]);
    }
  }

  lemma NoOrphanExact(env: Env, s: Scope, log: History, calls: int, articles: seq<Article>)
    requires s.impact.enabled && HonestWorld(env.world) && forall i :: 0 <= i < |articles| ==> !Orphan(s, articles[i])
    ensures ReportsCharge(log, RunAll(env, s, log, calls, articles))
  {
    NoOrphanKept(env, s, articles);
    RunKeepsOn(StepOf(env, s), CoveredRun(s.impact), Progress([], [], log, calls), articles, |articles|);
    RunConserves(env, s, log, calls, articles);
    CoveredExact(s.impact, log, RunAll(env, s, log, calls, articles));
  }

  // ----- Nothing to charge: exact in every world

  ghost predicate Unspent(r: Registry, impact: Impact, log: History, p: Progress) {
    SameUsage(r, log, p.log) && AllCovered(impact, p.events)
  }

  lemma UnspentTaken(env: Env, s: Scope, log: History, p: Progress, draft: EnrichedEvent)
    requires s.impact.enabled && !CanCharge(env.reg, log) && Unspent(env.reg, s.impact, log, p) && Unbilled(draft.meta)
    ensures Unspent(env.reg, s.impact, log, Taken(env, s, p, draft))
  {
    var e := Enrich(env, p.log, p.calls, draft);
    PoorEnrich(env, log, p.log, p.calls, draft);
    PoorJudge(env, log, e.log, e.calls, e.event.article, PairsOf(s.impact, e.event.matches));
    CoveredAppend(s.impact, p.events, Aligned(e.event));
  }

  lemma PoorRunCovered(env: Env, s: Scope, log: History, calls: int, articles: seq<Article>)
    requires s.impact.enabled && !CanCharge(env.reg, log)
    ensures AllCovered(s.impact, RunAll(env, s, log, calls, articles).events)
  {
    var inv := (p: Progress) => Unspent(env.reg, s.impact, log, p);
    assert inv(Progress([], [], log, calls));
    forall p, a | inv(p) ensures inv(StepOf(env, s)(p, a)) {
      UnspentTaken(env, s, log, p, DraftOf(s, a));
    }
    RunKeeps(StepOf(env, s), inv, Progress([], [], log, calls), articles, |articles|);
  }

  lemma PoorImpactExact(env: Env, s: Scope, log: History, calls: int, articles: seq<Article>)
    requires s.impact.enabled && HonestWorld(env.world) && !CanCharge(env.reg, log)
    ensures ReportsCharge(log, RunAll(env, s, log, calls, articles))
  {
    PoorRunCovered(env, s, log, calls, articles);
    RunConserves(env, s, log, calls, articles);
    CoveredExact(s.impact, log, RunAll(env, s, log, calls, articles));
  }

  // ----- An orphan: not exact in some world

  ghost predicate NoDebt(events: seq<AlignedEvent>) {
    forall i :: 0 <= i < |events| ==> events[i].event.meta.input >= 0
  }

  lemma NoDebtAppend(events: seq<AlignedEvent>, a: AlignedEvent)
    requires NoDebt(events) && a.event.meta.input >= 0
    ensures NoDebt(events + [a])
  {}

  lemma StepNoDebt(env: Env, s: Scope, p: Progress, a: Article)
    requires HonestWorld(env.world) && NoDebt(p.events)
    ensures NoDebt(StepOf(env, s)(p, a).events)
  {
    if !(DraftOf(s, a).relevance < s.cfg.profile.minRelevance) {
      EnrichHonest(env, p.log, p.calls, DraftOf(s, a));
      Turn(env, s, p, a);
      NoDebtAppend(p.events, Aligned(Enrich(env, p.log, p.calls, DraftOf(s, a)).event));
    }
  }

  lemma RunNoDebt(env: Env, s: Scope, log: History, calls: int, articles: seq<Article>)
    requires HonestWorld(env.world)
    ensures NoDebt(RunAll(env, s, log, calls, articles).events)
  {
    var inv := (p: Progress) => NoDebt(p.events);
    forall p, a | inv(p) ensures inv(StepOf(env, s)(p, a)) {
      StepNoDebt(env, s, p, a);
    }
    RunKeeps(StepOf(env, s), inv, Progress([], [], log, calls), articles, |articles|);
  }

  /** One charged event without a parent makes the unreported tokens positive. */
  lemma {:induction false} UnmatchedCounts(impact: Impact, events: seq<AlignedEvent>, n: nat, e: nat)
    requires n <= |events| && NoDebt(events)
    ensures Unmatched(impact, events, n).input >= 0
    ensures e < n && !HasParent(impact, events[e].event) && events[e].event.meta.input > 0 ==>
              Unmatched(impact, events, n).input > 0
  {
    if n > 0 { UnmatchedCounts(impact, events, n - 1, e); }
  }

  lemma OrphanUnreported(impact: Impact, log: History, p: Progress, e: nat)
    requires Balanced(impact, log, p) && NoDebt(p.events) && e < |p.events|
    requires !HasParent(impact, p.events[e].event) && p.events[e].event.meta.input > 0
    ensures !ReportsCharge(log, p)
  {
    UnmatchedCounts(impact, p.events, |p.events|, e);
  }

  /** If an article is an orphan and something can be charged, some answers make the report fall short. */
  lemma OrphanFallsShort(r: Registry, order: Order, s: Scope, log: History, calls: int, articles: seq<Article>, n: nat)
    returns (world: World)
    requires s.impact.enabled && n < |articles| && Orphan(s, articles[n])
    requires CanCharge(r, log) && (r.settings.fallbackChain == [] ==> RangesClients(r, order))
    ensures HonestWorld(world)
    ensures !ReportsCharge(log, RunAll(Env(r, world, order), s, log, calls, articles))
  {
    world := AskedCanBeCharged(r, order, s, log, calls, articles, n);
    var env := Env(r, world, order);
    var p, matches := RunAll(env, s, log, calls, articles), MatchesOf(articles[n], s.universe);
    var e: nat :| e < |p.events| && ChargedFor(matches)(p.events[e]);
    RunConserves(env, s, log, calls, articles);
    RunNoDebt(env, s, log, calls, articles);
    assert DraftOf(s, articles[n]).matches == matches;
    OrphanUnreported(s.impact, log, p, e);
  }

  /**
    In impact mode the report equals the charge, in tokens and cost and whatever the clients answer,
    exactly when every article the router is asked about matches a parent, or no provider that would be
    tried has a client and room in its budgets.
   */
  lemma ImpactExactIff(r: Registry, order: Order, s: Scope, log: History, calls: int, articles: seq<Article>)
    requires s.impact.enabled && (r.settings.fallbackChain == [] ==> RangesClients(r, order))
    ensures AlwaysExact(r, order, s, log, calls, articles) <==>
              (forall n :: 0 <= n < |articles| ==> !Orphan(s, articles[n])) || !CanCharge(r, log)
  {
    if (forall n :: 0 <= n < |articles| ==> !Orphan(s, articles[n])) || !CanCharge(r, log) {
      forall world | HonestWorld(world) ensures ReportsCharge(log, RunAll(Env(r, world, order), s, log, calls, articles)) {
        if CanCharge(r, log) {
          NoOrphanExact(Env(r, world, order), s, log, calls, articles);
        } else {
          PoorImpactExact(Env(r, world, order), s, log, calls, articles);
        }
      }
    } else {
      var n :| 0 <= n < |articles| && Orphan(s, articles[n]);
      var world := OrphanFallsShort(r, order, s, log, calls, articles, n);
    }
  }
}
