/**
  Conservation over whole runs in impact mode: tokens and cost from the router's ledger to the rows.
 */
module ServiceLaws {
  import opened Relevance
  import opened Providers
  import opened Ledger
  import opened Router
  import opened Selection
  import opened Enricher
  import opened Pairs
  import opened PairLaws
  import opened ImpactRows
  import opened ImpactLaws
  import opened Service

  function Plus(a: Usage, b: Usage): Usage {
    Usage(a.input + b.input, a.output + b.output, a.cost + b.cost)
  }

  predicate SameSum(a: Usage, b: Usage, c: Usage, d: Usage) {
    && a.input + b.input == c.input + d.input
    && a.output + b.output == c.output + d.output
    && a.cost + b.cost == c.cost + d.cost
  }

  lemma {:induction false} RowsUsageConcat(a: seq<FeatureRow>, b: seq<FeatureRow>, n: nat)
    requires n <= |b|
    ensures Adds(RowsUsage(a, |a|), RowsUsage(b, n), RowsUsage(a + b, |a| + n))
  {
    if n == 0 { RowsUsagePrefix(a, b, |a|); } else { RowsUsageConcat(a, b, n - 1); }
  }

  // ----- Impact mode: conservation

  predicate HasParent(impact: Impact, e: EnrichedEvent) {
    exists i :: 0 <= i < |e.matches| && ParentMatch(impact, e.matches[i])
  }

  /** The own usage of the first `n` events that matched no parent, and so have no row to carry it. */
  ghost function Unmatched(impact: Impact, events: seq<AlignedEvent>, n: nat): Usage
    requires n <= |events|
  {
    if n == 0 then NoUsage()
    else
      var u, e := Unmatched(impact, events, n - 1), events[n - 1].event;
      if HasParent(impact, e) then u else Plus(u, MetaUsage(e.meta))
  }

  lemma {:induction false} UnmatchedPrefix(impact: Impact, events: seq<AlignedEvent>, more: seq<AlignedEvent>, n: nat)
    requires n <= |events|
    ensures Unmatched(impact, events + more, n) == Unmatched(impact, events, n)
  {
    if n > 0 { UnmatchedPrefix(impact, events, more, n - 1); }
  }

  /** The usage the rows of an event take over from it: all of it, or nothing when it matched no parent. */
  ghost function Carried(impact: Impact, e: EnrichedEvent): Usage {
    if HasParent(impact, e) then MetaUsage(e.meta) else NoUsage()
  }

  lemma UnmatchedLast(impact: Impact, events: seq<AlignedEvent>, a: AlignedEvent)
    ensures SameSum(Unmatched(impact, events + [a], |events| + 1), Carried(impact, a.event),
                    Unmatched(impact, events, |events|), MetaUsage(a.event.meta))
  {
    UnmatchedPrefix(impact, events, [a], |events|);
  }

  /** An event has no pair exactly when it matched no parent. */
  lemma PairsIffParent(impact: Impact, e: EnrichedEvent)
    ensures PairsOf(impact, e.matches) == [] <==> !HasParent(impact, e)
  {
    NoPairsIff(impact, e.matches);
    if HasParent(impact, e) {
      var i :| 0 <= i < |e.matches| && ParentMatch(impact, e.matches[i]);
      assert e.matches[i] in e.matches;
    }
    assert forall m :: m in e.matches ==> exists i :: 0 <= i < |e.matches| && e.matches[i] == m;
  }

  lemma SameCharge(own: Usage, judged: Usage, rows: Usage, before: Usage, after: Usage)
    requires Adds(own, judged, rows) && Adds(before, judged, after)
    ensures SameSum(rows, before, own, after)
  {}

  lemma RunPairsConserve(log: History, e: EnrichedEvent, pairs: seq<Pair>, run: PairRun)
    requires |pairs| == |run.results| && ChargedSince(log, run) && e.meta.input >= 0 && e.meta.output >= 0
    ensures SameSum(RowsUsage(PairRows(e, Aligned(e).session, pairs, run.results), |pairs|), SpentIn(log),
                    if pairs == [] then NoUsage() else MetaUsage(e.meta), SpentIn(run.log))
  {
    var rows, judged := RowsUsage(PairRows(e, Aligned(e).session, pairs, run.results), |pairs|), PairsUsage(run.results, |pairs|);
    if pairs == [] {
      SameCharge(NoUsage(), judged, rows, SpentIn(log), SpentIn(run.log));
    } else {
      RowsConserve(e, Aligned(e).session, pairs, run.results);
      SameCharge(MetaUsage(e.meta), judged, rows, SpentIn(log), SpentIn(run.log));
    }
  }

  /** The rows of one event add up to what they take over from it and what judging its pairs was charged. */
  lemma EventConserves(env: Env, log: History, calls: int, e: EnrichedEvent, impact: Impact)
    requires impact.enabled && e.meta.input >= 0 && e.meta.output >= 0
    ensures var r := RowsFor(env, log, calls, e, Aligned(e).session, impact);
            SameSum(RowsUsage(r.rows, |r.rows|), SpentIn(log), Carried(impact, e), SpentIn(r.log))
  {
    var pairs := PairsOf(impact, e.matches);
    PairsIffParent(impact, e);
    PairsCharge(env, log, calls, e.article, pairs);
    RunPairsConserve(log, e, pairs, Judge(env, log, calls, e.article, pairs));
  }

  /** Since `log`, the router was charged what the rows so far report, plus the events no row speaks for. */
  ghost predicate Balanced(impact: Impact, log: History, p: Progress) {
    Adds(SpentIn(log), Plus(RowsUsage(p.rows, |p.rows|), Unmatched(impact, p.events, |p.events|)), SpentIn(p.log))
  }

  lemma BalanceStep(start: Usage, rows: Usage, unmatched: Usage, spent: Usage, own: Usage, enriched: Usage, more: Usage,
                    carried: Usage, after: Usage, rows': Usage, unmatched': Usage)
    requires Adds(start, Plus(rows, unmatched), spent) && Adds(spent, own, enriched)
    requires SameSum(more, enriched, carried, after)
    requires Adds(rows, more, rows') && SameSum(unmatched', carried, unmatched, own)
    ensures Adds(start, Plus(rows', unmatched'), after)
  {}

  lemma StepBalanced(impact: Impact, log: History, p: Progress, e: Enriched, r: Rowed)
    requires Balanced(impact, log, p) && Adds(SpentIn(p.log), MetaUsage(e.event.meta), SpentIn(e.log))
    requires SameSum(RowsUsage(r.rows, |r.rows|), SpentIn(e.log), Carried(impact, e.event), SpentIn(r.log))
    ensures Balanced(impact, log, Progress(p.events + [Aligned(e.event)], p.rows + r.rows, r.log, r.calls))
  {
    var events, rows := p.events + [Aligned(e.event)], p.rows + r.rows;
    RowsUsageConcat(p.rows, r.rows, |r.rows|);
    UnmatchedLast(impact, p.events, Aligned(e.event));
    assert |rows| == |p.rows| + |r.rows| && |events| == |p.events| + 1;
    BalanceStep(SpentIn(log), RowsUsage(p.rows, |p.rows|), Unmatched(impact, p.events, |p.events|), SpentIn(p.log),
                MetaUsage(e.event.meta), SpentIn(e.log), RowsUsage(r.rows, |r.rows|), Carried(impact, e.event),
                SpentIn(r.log), RowsUsage(rows, |rows|), Unmatched(impact, events, |events|));
  }

  lemma TakenBalanced(env: Env, s: Scope, log: History, p: Progress, draft: EnrichedEvent)
    requires s.impact.enabled && HonestWorld(env.world) && Balanced(s.impact, log, p)
    requires Unbilled(draft.meta)
    ensures Balanced(s.impact, log, Taken(env, s, p, draft))
  {
    var e := Enrich(env, p.log, p.calls, draft);
    EnrichCharges(env, p.log, p.calls, draft);
    EnrichHonest(env, p.log, p.calls, draft);
    EventConserves(env, e.log, e.calls, e.event, s.impact);
    StepBalanced(s.impact, log, p, e, RowsFor(env, e.log, e.calls, e.event, Aligned(e.event).session, s.impact));
  }

  // ----- Invariants of a run

  ghost predicate Preserves(step: Stepper, inv: Progress -> bool) {
    forall p, a :: inv(p) ==> inv(step(p, a))
  }

  lemma {:induction false} RunKeeps(step: Stepper, inv: Progress -> bool, start: Progress, articles: seq<Article>, n: nat)
    requires n <= |articles| && Preserves(step, inv) && inv(start)
    ensures inv(RunOver(step, start, articles, n))
  {
    if n > 0 { RunKeeps(step, inv, start, articles, n - 1); }
  }

  lemma StepKeepsBalance(env: Env, s: Scope, log: History, p: Progress, a: Article)
    requires s.impact.enabled && HonestWorld(env.world) && Balanced(s.impact, log, p)
    ensures Balanced(s.impact, log, StepOf(env, s)(p, a))
  {
    TakenBalanced(env, s, log, p, DraftOf(s, a));
  }

  ghost function BalancedSince(impact: Impact, log: History): Progress -> bool {
    (p: Progress) => Balanced(impact, log, p)
  }

  lemma StartBalanced(impact: Impact, log: History, calls: int)
    ensures BalancedSince(impact, log)(Progress([], [], log, calls))
  {}

  lemma StepsKeepBalance(env: Env, s: Scope, log: History)
    requires s.impact.enabled && HonestWorld(env.world)
    ensures Preserves(StepOf(env, s), BalancedSince(s.impact, log))
  {
    var step, inv := StepOf(env, s), BalancedSince(s.impact, log);
    forall p, a | inv(p) ensures inv(step(p, a)) {
      StepKeepsBalance(env, s, log, p, a);
    }
  }

  /**
    End-to-end conservation: in impact mode the router is charged exactly what the run reports plus the
    own usage of the events that matched no parent, in tokens and in cost.
   */
  lemma RunConserves(env: Env, s: Scope, log: History, calls: int, articles: seq<Article>)
    requires s.impact.enabled && HonestWorld(env.world)
    ensures Balanced(s.impact, log, RunAll(env, s, log, calls, articles))
  {
    StartBalanced(s.impact, log, calls);
    StepsKeepBalance(env, s, log);
    RunKeeps(StepOf(env, s), BalancedSince(s.impact, log), Progress([], [], log, calls), articles, |articles|);
  }
}
