/**
  Accounting in ordinary mode (internal/engine/impact_rows.go, internal/engine/service.go): every row
  carries the whole usage of its event, so the report can exceed what the router was charged; when it
  does is decided by the articles.
 */
module OrdinaryLaws {
  import opened Relevance
  import opened Providers
  import opened Ledger
  import opened Router
  import opened Session
  import opened Enricher
  import opened ImpactRows
  import opened ImpactLaws
  import opened Service
  import opened ServiceLaws
  import opened Exactness

  // ----- The rows of one event

  /** How many rows an event has in ordinary mode. */
  function RowCount(e: EnrichedEvent): nat {
    if e.matches == [] then 1 else |e.matches|
  }

  lemma NextMultiple(n: int, x: int, c: real)
    ensures n * x == x + (n - 1) * x
    ensures n as real * c == c + (n - 1) as real * c
  {}

  /** `n` times the usage. */
  predicate IsMultiple(u: Usage, n: int, m: Meta) {
    u.input == n * m.input && u.output == n * m.output && u.cost == n as real * m.cost
  }

  lemma MultipleStep(u: Usage, n: int, m: Meta, v: Usage)
    requires IsMultiple(u, n - 1, m)
    requires v.input == u.input + m.input && v.output == u.output + m.output && v.cost == u.cost + m.cost
    ensures IsMultiple(v, n, m)
  {
    NextMultiple(n, m.input, m.cost);
    NextMultiple(n, m.output, m.cost);
  }

  lemma {:induction false} EntityRowsUsage(e: EnrichedEvent, session: MarketSession, n: nat)
    requires n <= |e.matches|
    ensures |EntityRows(e, session, n)| == n && IsMultiple(RowsUsage(EntityRows(e, session, n), n), n, e.meta)
  {
    if n > 0 {
      var before, row := EntityRows(e, session, n - 1), EntityRow(e, session, e.matches[n - 1]);
      EntityRowsUsage(e, session, n - 1);
      RowsUsagePrefix(before, [row], n - 1);
      MultipleStep(RowsUsage(before, n - 1), n, e.meta, RowsUsage(before + [row], n));
    }
  }

  lemma PlainRowsUsage(e: EnrichedEvent, session: MarketSession)
    ensures var rows := PlainRows(e, session);
            |rows| == RowCount(e) && IsMultiple(RowsUsage(rows, |rows|), RowCount(e), e.meta)
  {
    EntityRowsUsage(e, session, |e.matches|);
  }

  // ----- Reported and charged tokens

  /** One of the two token counts. */
  function Side(u: Usage, output: bool): int {
    if output then u.output else u.input
  }

  /** Tokens the rows of an event report over and above its own. */
  function Extra(e: EnrichedEvent, output: bool): int {
    (RowCount(e) - 1) * Side(MetaUsage(e.meta), output)
  }

  function Surplus(events: seq<AlignedEvent>, output: bool, n: nat): int
    requires n <= |events|
  {
    if n == 0 then 0 else Surplus(events, output, n - 1) + Extra(events[n - 1].event, output)
  }

  lemma {:induction false} SurplusPrefix(events: seq<AlignedEvent>, more: seq<AlignedEvent>, output: bool, n: nat)
    requires n <= |events|
    ensures Surplus(events + more, output, n) == Surplus(events, output, n)
  {
    if n > 0 { SurplusPrefix(events, more, output, n - 1); }
  }

  lemma SurplusLast(events: seq<AlignedEvent>, a: AlignedEvent, output: bool)
    ensures Surplus(events + [a], output, |events| + 1) == Surplus(events, output, |events|) + Extra(a.event, output)
  {
    SurplusPrefix(events, [a], output, |events|);
  }

  /** Reported tokens are those charged plus the surplus. */
  ghost predicate SurplusReported(log: History, output: bool, p: Progress) {
    Side(RowsUsage(p.rows, |p.rows|), output)
    == Side(SpentIn(p.log), output) - Side(SpentIn(log), output) + Surplus(p.events, output, |p.events|)
  }

  ghost predicate NoneNegative(events: seq<AlignedEvent>, output: bool) {
    forall i :: 0 <= i < |events| ==> Side(MetaUsage(events[i].event.meta), output) >= 0
  }

  lemma NoneNegativeAppend(events: seq<AlignedEvent>, a: AlignedEvent, output: bool)
    requires NoneNegative(events, output) && Side(MetaUsage(a.event.meta), output) >= 0
    ensures NoneNegative(events + [a], output)
  {}

  ghost predicate Overcounts(log: History, output: bool, p: Progress) {
    SurplusReported(log, output, p) && NoneNegative(p.events, output)
  }

  lemma SurplusStep(rows: int, more: int, spent: int, base: int, surplus: int, own: int, extra: int)
    requires rows == spent - base + surplus && more == own + extra
    ensures rows + more == (spent + own) - base + (surplus + extra)
  {}

  lemma RowsWithExtra(e: EnrichedEvent, session: MarketSession, output: bool)
    ensures var rows := PlainRows(e, session);
            Side(RowsUsage(rows, |rows|), output) == Side(MetaUsage(e.meta), output) + Extra(e, output)
  {
    PlainRowsUsage(e, session);
    NextMultiple(RowCount(e), Side(MetaUsage(e.meta), output), 0.0);
  }

  lemma PlainStep(log: History, output: bool, p: Progress, e: Enriched, r: Rowed)
    requires SurplusReported(log, output, p) && Adds(SpentIn(p.log), MetaUsage(e.event.meta), SpentIn(e.log))
    requires r == Rowed(PlainRows(e.event, Aligned(e.event).session), e.log, e.calls)
    ensures SurplusReported(log, output, Progress(p.events + [Aligned(e.event)], p.rows + r.rows, r.log, r.calls))
  {
    var events, rows := p.events + [Aligned(e.event)], p.rows + r.rows;
    assert |rows| == |p.rows| + |r.rows| && |events| == |p.events| + 1;
    RowsWithExtra(e.event, Aligned(e.event).session, output);
    RowsUsageConcat(p.rows, r.rows, |r.rows|);
    SurplusLast(p.events, Aligned(e.event), output);
    SurplusStep(Side(RowsUsage(p.rows, |p.rows|), output), Side(RowsUsage(r.rows, |r.rows|), output),
                Side(SpentIn(p.log), output), Side(SpentIn(log), output), Surplus(p.events, output, |p.events|),
                Side(MetaUsage(e.event.meta), output), Extra(e.event, output));
  }

  lemma PlainTaken(env: Env, s: Scope, log: History, output: bool, p: Progress, a: Article)
    requires !s.impact.enabled && HonestWorld(env.world) && Overcounts(log, output, p)
    ensures Overcounts(log, output, StepOf(env, s)(p, a))
  {
    var draft := DraftOf(s, a);
    var e := Enrich(env, p.log, p.calls, draft);
    EnrichCharges(env, p.log, p.calls, draft);
    EnrichHonest(env, p.log, p.calls, draft);
    PlainStep(log, output, p, e, RowsFor(env, e.log, e.calls, e.event, Aligned(e.event).session, s.impact));
    NoneNegativeAppend(p.events, Aligned(e.event), output);
  }

  lemma OrdinaryOvercounts(env: Env, s: Scope, log: History, calls: int, articles: seq<Article>, output: bool)
    requires !s.impact.enabled && HonestWorld(env.world)
    ensures Overcounts(log, output, RunAll(env, s, log, calls, articles))
  {
    var inv := (p: Progress) => Overcounts(log, output, p);
    assert inv(Progress([], [], log, calls));
    forall p, a | inv(p) ensures inv(StepOf(env, s)(p, a)) {
      PlainTaken(env, s, log, output, p, a);
    }
    RunKeeps(StepOf(env, s), inv, Progress([], [], log, calls), articles, |articles|);
  }

  /** The event was charged such tokens, and more than one row reports them. */
  predicate Repeats(e: EnrichedEvent, output: bool) {
    |e.matches| >= 2 && Side(MetaUsage(e.meta), output) != 0
  }

  ghost predicate NoneRepeats(events: seq<AlignedEvent>, output: bool, n: nat)
    requires n <= |events|
  {
    forall i :: 0 <= i < n ==> !Repeats(events[i].event, output)
  }

  lemma {:induction false} SurplusZeroIff(events: seq<AlignedEvent>, output: bool, n: nat)
    requires n <= |events| && NoneNegative(events, output)
    ensures Surplus(events, output, n) >= 0
    ensures Surplus(events, output, n) == 0 <==> NoneRepeats(events, output, n)
  {
    if n > 0 {
      SurplusZeroIff(events, output, n - 1);
      NoSurplusIff(RowCount(events[n - 1].event), Side(MetaUsage(events[n - 1].event.meta), output));
      assert NoneRepeats(events, output, n) <==> NoneRepeats(events, output, n - 1) && !Repeats(events[n - 1].event, output);
    }
  }

  lemma NoSurplusIff(count: nat, x: int)
    requires count >= 1 && x >= 0
    ensures (count - 1) * x >= 0 && ((count - 1) * x == 0 <==> count < 2 || x == 0)
  {}

  /**
    In any one run the report is at least what the router was charged, of either kind of tokens, and
    exactly that if and only if no event charged such tokens matched two or more entities.
   */
  lemma OrdinaryReport(env: Env, s: Scope, log: History, calls: int, articles: seq<Article>, output: bool)
    requires !s.impact.enabled && HonestWorld(env.world)
    ensures var p := RunAll(env, s, log, calls, articles);
            var reported, charged := Side(RowsUsage(p.rows, |p.rows|), output), Side(SpentIn(p.log), output) - Side(SpentIn(log), output);
            reported >= charged && (reported == charged <==> NoneRepeats(p.events, output, |p.events|))
  {
    var p := RunAll(env, s, log, calls, articles);
    OrdinaryOvercounts(env, s, log, calls, articles, output);
    SurplusZeroIff(p.events, output, |p.events|);
  }

  // ----- What can be said before the run

  /** The article is relevant enough, lies in the ambiguous band, and matches two or more entities. */
  predicate Risky(s: Scope, a: Article) {
    Asked(s, a) && |MatchesOf(a, s.universe)| >= 2
  }

  // ----- No risky article: exact in every world

  lemma SameAmounts(e: EnrichedEvent, session: MarketSession)
    requires |e.matches| < 2 || Unbilled(e.meta)
    ensures var rows, u := PlainRows(e, session), MetaUsage(e.meta);
            var v := RowsUsage(rows, |rows|);
            v.input == u.input && v.output == u.output && v.cost == u.cost
  {
    PlainRowsUsage(e, session);
  }

  lemma ExactStep(log: History, p: Progress, e: Enriched, r: Rowed)
    requires ReportsCharge(log, p) && Adds(SpentIn(p.log), MetaUsage(e.event.meta), SpentIn(e.log))
    requires |e.event.matches| < 2 || Unbilled(e.event.meta)
    requires r == Rowed(PlainRows(e.event, Aligned(e.event).session), e.log, e.calls)
    ensures ReportsCharge(log, Progress(p.events + [Aligned(e.event)], p.rows + r.rows, r.log, r.calls))
  {
    var rows := p.rows + r.rows;
    assert |rows| == |p.rows| + |r.rows|;
    SameAmounts(e.event, Aligned(e.event).session);
    RowsUsageConcat(p.rows, r.rows, |r.rows|);
  }

  /** One turn of the run in ordinary mode. */
  lemma PlainTurn(env: Env, s: Scope, p: Progress, a: Article)
    requires !s.impact.enabled
    ensures var e := Enrich(env, p.log, p.calls, DraftOf(s, a));
            StepOf(env, s)(p, a)
            == if DraftOf(s, a).relevance < s.cfg.profile.minRelevance then p
               else Progress(p.events + [Aligned(e.event)], p.rows + PlainRows(e.event, Aligned(e.event).session), e.log, e.calls)
  {}

  lemma SafeArticle(env: Env, s: Scope, log: History, p: Progress, a: Article)
    requires !s.impact.enabled && !Risky(s, a) && ReportsCharge(log, p)
    ensures ReportsCharge(log, StepOf(env, s)(p, a))
  {
    var draft := DraftOf(s, a);
    var e := Enrich(env, p.log, p.calls, draft);
    EnrichCharges(env, p.log, p.calls, draft);
    if !(draft.relevance < s.cfg.profile.minRelevance) {
      assert e.event.matches == MatchesOf(a, s.universe);
      ExactStep(log, p, e, Rowed(PlainRows(e.event, Aligned(e.event).session), e.log, e.calls));
    }
    PlainTurn(env, s, p, a);
  }

  ghost function Exactly(log: History): Progress -> bool {
    (p: Progress) => ReportsCharge(log, p)
  }

  lemma SafeKept(env: Env, s: Scope, log: History, articles: seq<Article>)
    requires !s.impact.enabled && forall i :: 0 <= i < |articles| ==> !Risky(s, articles[i])
    ensures KeptOn(StepOf(env, s), Exactly(log), articles, 0, |articles|)
  {
    var step, inv := StepOf(env, s), Exactly(log);
    forall p, i | 0 <= i < |articles| && inv(p) ensures inv(step(p, articles[i])) {
      SafeArticle(env, s, log, p, articles[i]);
    }
  }

  lemma StartExact(log: History, calls: int)
    ensures Exactly(log)(Progress([], [], log, calls))
  {}

  lemma SafeArticlesExact(env: Env, s: Scope, log: History, calls: int, articles: seq<Article>)
    requires !s.impact.enabled && forall i :: 0 <= i < |articles| ==> !Risky(s, articles[i])
    ensures ReportsCharge(log, RunAll(env, s, log, calls, articles))
  {
    SafeKept(env, s, log, articles);
    StartExact(log, calls);
    RunKeepsOn(StepOf(env, s), Exactly(log), Progress([], [], log, calls), articles, |articles|);
  }

  // ----- Nothing to charge: exact in every world

  /** Nothing was charged since `log`, and no row reports anything. */
  ghost predicate Idle(r: Registry, log: History, p: Progress) {
    SameUsage(r, log, p.log) && ReportsCharge(log, p)
  }

  lemma PoorArticle(env: Env, s: Scope, log: History, p: Progress, a: Article)
    requires !s.impact.enabled && !CanCharge(env.reg, log) && Idle(env.reg, log, p)
    ensures Idle(env.reg, log, StepOf(env, s)(p, a))
  {
    var draft := DraftOf(s, a);
    var e := Enrich(env, p.log, p.calls, draft);
    PoorEnrich(env, log, p.log, p.calls, draft);
    EnrichCharges(env, p.log, p.calls, draft);
    ExactStep(log, p, e, Rowed(PlainRows(e.event, Aligned(e.event).session), e.log, e.calls));
    PlainTurn(env, s, p, a);
  }

  lemma PoorRunExact(env: Env, s: Scope, log: History, calls: int, articles: seq<Article>)
    requires !s.impact.enabled && !CanCharge(env.reg, log)
    ensures ReportsCharge(log, RunAll(env, s, log, calls, articles))
  {
    var inv := (p: Progress) => Idle(env.reg, log, p);
    assert inv(Progress([], [], log, calls));
    forall p, a | inv(p) ensures inv(StepOf(env, s)(p, a)) {
      PoorArticle(env, s, log, p, a);
    }
    RunKeeps(StepOf(env, s), inv, Progress([], [], log, calls), articles, |articles|);
  }

  // ----- A world that charges the risky article

  /** If an article is risky and something can be charged, some answers make the report exceed the charge. */
  lemma RiskyArticleOvercounts(r: Registry, order: Order, s: Scope, log: History, calls: int, articles: seq<Article>, n: nat)
    returns (world: World)
    requires !s.impact.enabled && n < |articles| && Risky(s, articles[n])
    requires CanCharge(r, log) && (r.settings.fallbackChain == [] ==> RangesClients(r, order))
    ensures HonestWorld(world)
    ensures !ReportsCharge(log, RunAll(Env(r, world, order), s, log, calls, articles))
  {
    world := AskedCanBeCharged(r, order, s, log, calls, articles, n);
    var p := RunAll(Env(r, world, order), s, log, calls, articles);
    var e :| 0 <= e < |p.events| && ChargedFor(MatchesOf(articles[n], s.universe))(p.events[e]);
    assert Repeats(p.events[e].event, false);
    OrdinaryReport(Env(r, world, order), s, log, calls, articles, false);
  }

  /**
    In ordinary mode the report equals the charge, in tokens and cost and whatever the clients answer,
    exactly when no article that is relevant enough and in the ambiguous band matches two or more
    entities, or no provider has room in its budgets.
   */
  lemma OrdinaryExactIff(r: Registry, order: Order, s: Scope, log: History, calls: int, articles: seq<Article>)
    requires !s.impact.enabled && (r.settings.fallbackChain == [] ==> RangesClients(r, order))
    ensures AlwaysExact(r, order, s, log, calls, articles) <==>
              (forall n :: 0 <= n < |articles| ==> !Risky(s, articles[n])) || !CanCharge(r, log)
  {
    if (forall n :: 0 <= n < |articles| ==> !Risky(s, articles[n])) || !CanCharge(r, log) {
      forall world | HonestWorld(world) ensures ReportsCharge(log, RunAll(Env(r, world, order), s, log, calls, articles)) {
        if CanCharge(r, log) {
          SafeArticlesExact(Env(r, world, order), s, log, calls, articles);
        } else {
          PoorRunExact(Env(r, world, order), s, log, calls, articles);
        }
      }
    } else {
      var n :| 0 <= n < |articles| && Risky(s, articles[n]);
      var world := RiskyArticleOvercounts(r, order, s, log, calls, articles, n);
    }
  }
}
