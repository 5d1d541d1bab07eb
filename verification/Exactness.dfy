/**
  When the rows of a run report exactly what the router was charged, seen before the run: what can be
  known about its articles and providers, runs that charge nothing, and clients that charge a single
  call of one's choice.
 */
module Exactness {
  import opened Text
  import opened Relevance
  import opened Providers
  import opened Ledger
  import opened Router
  import opened RouterLaws
  import opened Enricher
  import opened Pairs
  import opened ImpactRows
  import opened ImpactLaws
  import opened Service

  // ----- What can be said before the run

  /** The article makes the run ask the router about it. */
  predicate Asked(s: Scope, a: Article) {
    !(DraftOf(s, a).relevance < s.cfg.profile.minRelevance) && DraftOf(s, a).needsLLM
  }

  predicate Triable(r: Registry, key: string) {
    key in r.clients && (r.settings.fallbackChain == [] || key in r.settings.fallbackChain)
  }

  /** Some key that would be tried has a client and room in every budget. */
  ghost predicate CanCharge(r: Registry, log: History) {
    exists key :: Triable(r, key) && WithinBudget(r.settings, Replay(r.settings, log).usage, key)
  }

  /** A range over the client map yields every client. */
  ghost predicate RangesClients(r: Registry, order: Order) {
    forall call, key :: key in r.clients ==> key in order(call)
  }

  /** The run reports exactly what the router was charged: both kinds of tokens, and the cost. */
  ghost predicate ReportsCharge(log: History, p: Progress) {
    Adds(SpentIn(log), RowsUsage(p.rows, |p.rows|), SpentIn(p.log))
  }

  /** It does so whatever the clients answer. */
  ghost predicate AlwaysExact(r: Registry, order: Order, s: Scope, log: History, calls: int, articles: seq<Article>) {
    forall world :: HonestWorld(world) ==> ReportsCharge(log, RunAll(Env(r, world, order), s, log, calls, articles))
  }

  // ----- Runs step by step

  /** Each of these articles keeps the invariant. */
  ghost predicate KeptOn(step: Stepper, inv: Progress -> bool, articles: seq<Article>, i: nat, n: nat) {
    forall p, j :: i <= j < n <= |articles| && inv(p) ==> inv(step(p, articles[j]))
  }

  lemma {:induction false} RunKeepsFrom(step: Stepper, inv: Progress -> bool, start: Progress, articles: seq<Article>, i: nat, n: nat)
    requires i <= n <= |articles| && inv(RunOver(step, start, articles, i)) && KeptOn(step, inv, articles, i, n)
    ensures inv(RunOver(step, start, articles, n))
  {
    if i < n { RunKeepsFrom(step, inv, start, articles, i, n - 1); }
  }

  lemma RunKeepsOn(step: Stepper, inv: Progress -> bool, start: Progress, articles: seq<Article>, n: nat)
    requires n <= |articles| && inv(start) && KeptOn(step, inv, articles, 0, n)
    ensures inv(RunOver(step, start, articles, n))
  {
    RunKeepsFrom(step, inv, start, articles, 0, n);
  }

  /** What one article establishes, and the later ones keep, holds at the end. */
  lemma RunKeepsAfter(step: Stepper, inv: Progress -> bool, start: Progress, articles: seq<Article>, n: nat)
    requires n < |articles| && inv(step(RunOver(step, start, articles, n), articles[n]))
    requires KeptOn(step, inv, articles, n + 1, |articles|)
    ensures inv(RunOver(step, start, articles, |articles|))
  {
    RunKeepsFrom(step, inv, start, articles, n + 1, |articles|);
  }

  type Marks = (int, Progress) -> bool

  /** Each of the first `n` articles carries the mark on. */
  ghost predicate Carries(step: Stepper, at: Marks, articles: seq<Article>, n: nat) {
    forall p, j :: 0 <= j < n <= |articles| && at(j, p) ==> at(j + 1, step(p, articles[j]))
  }

  lemma {:induction false} RunReaches(step: Stepper, at: Marks, start: Progress, articles: seq<Article>, i: nat, n: nat)
    requires i <= n <= |articles| && at(0, start) && Carries(step, at, articles, n)
    ensures at(i, RunOver(step, start, articles, i))
  {
    if i > 0 { RunReaches(step, at, start, articles, i - 1, n); }
  }

  /** Some event so far is of this kind. */
  ghost function SomeEvent(kind: AlignedEvent -> bool): Progress -> bool {
    (p: Progress) => exists e :: 0 <= e < |p.events| && kind(p.events[e])
  }

  /** One turn of the run. */
  lemma Turn(env: Env, s: Scope, p: Progress, a: Article)
    requires !(DraftOf(s, a).relevance < s.cfg.profile.minRelevance)
    ensures var e := Enrich(env, p.log, p.calls, DraftOf(s, a));
            && StepOf(env, s)(p, a) == Taken(env, s, p, DraftOf(s, a))
            && StepOf(env, s)(p, a).events == p.events + [Aligned(e.event)]
  {}

  lemma EventStays(env: Env, s: Scope, kind: AlignedEvent -> bool, p: Progress, a: Article)
    requires SomeEvent(kind)(p)
    ensures SomeEvent(kind)(StepOf(env, s)(p, a))
  {
    var p' := StepOf(env, s)(p, a);
    var e :| 0 <= e < |p.events| && kind(p.events[e]);
    if !(DraftOf(s, a).relevance < s.cfg.profile.minRelevance) { Turn(env, s, p, a); }
    assert p'.events[e] == p.events[e];
  }

  lemma EventStaysOn(env: Env, s: Scope, kind: AlignedEvent -> bool, articles: seq<Article>, i: nat)
    ensures KeptOn(StepOf(env, s), SomeEvent(kind), articles, i, |articles|)
  {
    var step, inv := StepOf(env, s), SomeEvent(kind);
    forall p, j | i <= j < |articles| && inv(p) ensures inv(step(p, articles[j])) {
      EventStays(env, s, kind, p, articles[j]);
    }
  }

  // ----- Nothing to charge

  lemma {:induction false} PoorRoute(r: Registry, log: History, chain: seq<string>, tries: nat -> Attempt, i: nat, last: Option<string>)
    requires forall j :: i <= j < |chain| && chain[j] in r.clients ==>
               !WithinBudget(r.settings, Replay(r.settings, log).usage, chain[j])
    ensures var routed := RouteFrom(r, log, chain, tries, i, last);
            routed.outcome.Failure? && Replay(r.settings, routed.log).usage == Replay(r.settings, log).usage
    decreases |chain| - i
  {
    if i < |chain| {
      RouteStep(r, log, chain, tries, i, last);
      var v := TryKey(r, log, chain[i], tries(i));
      assert v.Skip?;
      PoorRoute(r, LogAfter(r, log, chain[i], tries(i)), chain, tries, i + 1, last);
    }
  }

  /** The router's charges are as they were after `log`. */
  ghost predicate SameUsage(r: Registry, log: History, now: History) {
    Replay(r.settings, now).usage == Replay(r.settings, log).usage
  }

  lemma PoorCall(env: Env, log: History, now: History, call: int, text: string)
    requires !CanCharge(env.reg, log) && SameUsage(env.reg, log, now)
    ensures var routed := RouteCall(env, now, call, text);
            routed.outcome.Failure? && SameUsage(env.reg, log, routed.log)
  {
    var r := env.reg;
    var chain := ChainOf(r.settings, env.order(call));
    forall j | 0 <= j < |chain| && chain[j] in r.clients
      ensures !WithinBudget(r.settings, Replay(r.settings, now).usage, chain[j])
    {
      assert Triable(r, chain[j]);
    }
    if chain != [] { PoorRoute(r, now, chain, Tries(env.world, call, text, chain), 0, None); }
  }

  lemma PoorEnrich(env: Env, log: History, now: History, calls: int, draft: EnrichedEvent)
    requires !CanCharge(env.reg, log) && Unbilled(draft.meta) && SameUsage(env.reg, log, now)
    ensures var e := Enrich(env, now, calls, draft);
            Unbilled(e.event.meta) && SameUsage(env.reg, log, e.log)
  {
    PoorCall(env, log, now, calls, RequestText(draft.article));
  }

  lemma PoorJudge(env: Env, log: History, now: History, calls: int, article: Article, pairs: seq<Pair>)
    requires !CanCharge(env.reg, log) && SameUsage(env.reg, log, now)
    ensures SameUsage(env.reg, log, Judge(env, now, calls, article, pairs).log)
  {
    var inv := (run: PairRun) => SameUsage(env.reg, log, run.log);
    assert inv(PairRun([], now, calls));
    forall run, text | inv(run) ensures inv(AskWith(env)(run, text)) {
      PoorCall(env, log, run.log, run.calls, text);
    }
    JudgeKeeps(AskWith(env), inv, PairRun([], now, calls), PairTexts(article, pairs), |pairs|);
  }

  // ----- A world that charges one call

  function Refusal(t: int): Attempt {
    Attempt(t, t, FatalError(""), FatalError(""), FatalError(""))
  }

  function Bargain(t: int): Attempt {
    Attempt(t, t, Answer(Sentiment("", 0.0, 1, 1)), Answer(FactorReply([], 0, 0)), Answer(EntityReply([], 0, 0)))
  }

  /** Every call but number `only` fails fatally; that one is answered for one token each way. */
  function Spoiler(only: int, t: int): World {
    (call: int, text: string, i: nat, key: string) => if call == only then Bargain(t) else Refusal(t)
  }

  lemma SpoilerHonest(only: int, t: int)
    ensures HonestWorld(Spoiler(only, t))
  {
    forall call, text, i, key ensures Honest(Spoiler(only, t)(call, text, i, key)) {
      assert Honest(Bargain(t)) && Honest(Refusal(t));
    }
  }

  lemma {:induction false} RefusedRoute(r: Registry, log: History, chain: seq<string>, tries: nat -> Attempt, i: nat, last: Option<string>, t: int)
    requires forall j :: tries(j) == Refusal(t)
    ensures var routed := RouteFrom(r, log, chain, tries, i, last);
            routed.outcome.Failure? && Replay(r.settings, routed.log) == Replay(r.settings, log)
    decreases |chain| - i
  {
    if i < |chain| {
      RouteStep(r, log, chain, tries, i, last);
      var v := TryKey(r, log, chain[i], tries(i));
      assert v.Skip? || v.Fatal?;
      if v.Skip? { RefusedRoute(r, LogAfter(r, log, chain[i], tries(i)), chain, tries, i + 1, last, t); }
    }
  }

  lemma {:induction false} ChargedRoute(r: Registry, log: History, chain: seq<string>, tries: nat -> Attempt, i: nat, last: Option<string>, t: int, rich: nat)
    requires forall j :: tries(j) == Bargain(t)
    requires forall key :: BreakerClosed(Replay(r.settings, log), key, t)
    requires i <= rich < |chain| && chain[rich] in r.clients
    requires WithinBudget(r.settings, Replay(r.settings, log).usage, chain[rich])
    ensures var o := RouteFrom(r, log, chain, tries, i, last).outcome;
            o.Success? && o.result.input == 1 && o.result.output == 1
    decreases |chain| - i
  {
    RouteStep(r, log, chain, tries, i, last);
    var v := TryKey(r, log, chain[i], tries(i));
    assert v.Done? || v.Skip?;
    if v.Skip? { ChargedRoute(r, LogAfter(r, log, chain[i], tries(i)), chain, tries, i + 1, last, t, rich); }
  }

  /** A time by which every breaker is closed. */
  lemma Latest(m: map<string, int>) returns (t: int)
    ensures forall key :: key in m ==> m[key] <= t
    decreases |m|
  {
    if m == map[] {
      t := 0;
    } else {
      var k :| k in m;
      var rest := m - {k};
      assert rest.Keys == m.Keys - {k};
      var u := Latest(rest);
      t := if m[k] > u then m[k] else u;
      forall key | key in m ensures m[key] <= t {
        if key != k { assert key in rest; }
      }
    }
  }

  // ----- Up to that call nothing happens

  /** The router's maps are as they were after `log`. */
  ghost predicate SameBooks(r: Registry, log: History, now: History) {
    Replay(r.settings, now) == Replay(r.settings, log)
  }

  lemma SpoiledCall(env: Env, log: History, now: History, call: int, text: string, only: int, t: int)
    requires env.world == Spoiler(only, t) && call != only && SameBooks(env.reg, log, now)
    ensures SameBooks(env.reg, log, RouteCall(env, now, call, text).log)
  {
    var chain := ChainOf(env.reg.settings, env.order(call));
    if chain != [] { RefusedRoute(env.reg, now, chain, Tries(env.world, call, text, chain), 0, None, t); }
  }

  /** How many router calls the article makes: one if asked about, and in impact mode one for each pair. */
  ghost function CallCount(s: Scope, a: Article): nat {
    if DraftOf(s, a).relevance < s.cfg.profile.minRelevance then 0
    else
      (if DraftOf(s, a).needsLLM then 1 else 0)
      + if s.impact.enabled then |PairsOf(s.impact, MatchesOf(a, s.universe))| else 0
  }

  ghost function CountsOf(s: Scope): Article -> nat {
    (a: Article) => CallCount(s, a)
  }

  /** How many calls the articles from `i` up to `n` make. */
  ghost function Pending(counts: Article -> nat, articles: seq<Article>, i: nat, n: nat): nat
    requires i <= n <= |articles|
    decreases n - i
  {
    if i == n then 0 else counts(articles[i]) + Pending(counts, articles, i + 1, n)
  }

  ghost predicate AskedInStep(ask: Asker, at: (int, PairRun) -> bool, n: int) {
    forall run, text, i :: 0 <= i < n && at(i, run) ==> at(i + 1, ask(run, text))
  }

  lemma {:induction false} JudgeReaches(ask: Asker, at: (int, PairRun) -> bool, start: PairRun, texts: int -> string, i: nat, n: nat)
    requires i <= n && at(0, start) && AskedInStep(ask, at, n)
    ensures at(i, JudgeOver(ask, start, texts, i))
  {
    if i > 0 { JudgeReaches(ask, at, start, texts, i - 1, n); }
  }

  lemma SpoiledJudge(env: Env, log: History, now: History, calls: int, article: Article, pairs: seq<Pair>, only: int, t: int)
    requires env.world == Spoiler(only, t) && SameBooks(env.reg, log, now) && calls + |pairs| <= only
    ensures var run := Judge(env, now, calls, article, pairs);
            SameBooks(env.reg, log, run.log) && run.calls == calls + |pairs|
  {
    var at := (i: int, run: PairRun) => SameBooks(env.reg, log, run.log) && run.calls == calls + i;
    var start := PairRun([], now, calls);
    assert at(0, start);
    forall run, text, i | 0 <= i < |pairs| && at(i, run) ensures at(i + 1, AskWith(env)(run, text)) {
      SpoiledCall(env, log, run.log, run.calls, text, only, t);
    }
    JudgeReaches(AskWith(env), at, start, PairTexts(article, pairs), |pairs|, |pairs|);
    assert at(|pairs|, JudgeOver(AskWith(env), start, PairTexts(article, pairs), |pairs|));
  }

  lemma SpoiledEnrich(env: Env, log: History, now: History, calls: int, draft: EnrichedEvent, only: int, t: int)
    requires env.world == Spoiler(only, t) && SameBooks(env.reg, log, now) && (draft.needsLLM ==> calls != only)
    ensures var e := Enrich(env, now, calls, draft);
            SameBooks(env.reg, log, e.log) && e.calls == (if draft.needsLLM then calls + 1 else calls)
            && e.event.matches == draft.matches && e.event.article == draft.article
  {
    if draft.needsLLM { SpoiledCall(env, log, now, calls, RequestText(draft.article), only, t); }
  }

  /** Nothing has come of the run so far, and `due` more calls lead to call number `only`. */
  ghost predicate Spoiled(r: Registry, log: History, p: Progress, due: int, only: int) {
    SameBooks(r, log, p.log) && p.calls + due == only
  }

  lemma SpoiledTaken(env: Env, s: Scope, log: History, p: Progress, draft: EnrichedEvent, pairs: nat, only: int, t: int, left: int)
    requires env.world == Spoiler(only, t) && left >= 0
    requires pairs == if s.impact.enabled then |PairsOf(s.impact, draft.matches)| else 0
    requires SameBooks(env.reg, log, p.log) && p.calls + (if draft.needsLLM then 1 else 0) + pairs + left == only
    ensures Spoiled(env.reg, log, Taken(env, s, p, draft), left, only)
  {
    var e := Enrich(env, p.log, p.calls, draft);
    SpoiledEnrich(env, log, p.log, p.calls, draft, only, t);
    if s.impact.enabled {
      SpoiledJudge(env, log, e.log, e.calls, e.event.article, PairsOf(s.impact, e.event.matches), only, t);
    }
  }

  lemma SpoiledArticle(env: Env, s: Scope, log: History, p: Progress, a: Article, only: int, t: int, due: int, left: int)
    returns (p': Progress)
    requires env.world == Spoiler(only, t) && Spoiled(env.reg, log, p, due, only)
    requires due == CallCount(s, a) + left && left >= 0
    ensures p' == StepOf(env, s)(p, a) && Spoiled(env.reg, log, p', left, only)
  {
    p' := StepOf(env, s)(p, a);
    if !(DraftOf(s, a).relevance < s.cfg.profile.minRelevance) {
      var pairs := if s.impact.enabled then |PairsOf(s.impact, MatchesOf(a, s.universe))| else 0;
      SpoiledTaken(env, s, log, p, DraftOf(s, a), pairs, only, t, left);
    }
  }

  ghost function SpoiledMark(r: Registry, log: History, counts: Article -> nat, articles: seq<Article>, n: nat, only: int): Marks {
    (i: int, p: Progress) => 0 <= i <= n <= |articles| && Spoiled(r, log, p, Pending(counts, articles, i, n), only)
  }

  /** Each of the first `n` articles takes its calls off the pending ones, and changes nothing else. */
  ghost predicate StepsSpoil(step: Stepper, r: Registry, log: History, counts: Article -> nat, articles: seq<Article>, n: nat, only: int) {
    forall p, i :: 0 <= i < n <= |articles| && Spoiled(r, log, p, Pending(counts, articles, i, n), only) ==>
      Spoiled(r, log, step(p, articles[i]), Pending(counts, articles, i + 1, n), only)
  }

  lemma PendingNext(s: Scope, articles: seq<Article>, i: nat, n: nat)
    requires i < n <= |articles|
    ensures Pending(CountsOf(s), articles, i, n) == CallCount(s, articles[i]) + Pending(CountsOf(s), articles, i + 1, n)
  {}

  lemma SpoiledStep(env: Env, s: Scope, log: History, articles: seq<Article>, n: nat, only: int, t: int, i: nat, p: Progress)
    returns (p': Progress)
    requires i < n <= |articles| && env.world == Spoiler(only, t)
    requires Spoiled(env.reg, log, p, Pending(CountsOf(s), articles, i, n), only)
    ensures p' == StepOf(env, s)(p, articles[i])
    ensures Spoiled(env.reg, log, p', Pending(CountsOf(s), articles, i + 1, n), only)
  {
    PendingNext(s, articles, i, n);
    p' := SpoiledArticle(env, s, log, p, articles[i], only, t, Pending(CountsOf(s), articles, i, n), Pending(CountsOf(s), articles, i + 1, n));
  }

  lemma SpoilerSteps(env: Env, s: Scope, log: History, articles: seq<Article>, n: nat, only: int, t: int)
    requires n <= |articles| && env.world == Spoiler(only, t)
    ensures StepsSpoil(StepOf(env, s), env.reg, log, CountsOf(s), articles, n, only)
  {
    var step, counts := StepOf(env, s), CountsOf(s);
    forall p, i | 0 <= i < n && Spoiled(env.reg, log, p, Pending(counts, articles, i, n), only)
      ensures Spoiled(env.reg, log, step(p, articles[i]), Pending(counts, articles, i + 1, n), only)
    {
      var p' := SpoiledStep(env, s, log, articles, n, only, t, i, p);
    }
  }

  lemma CarriesIf(step: Stepper, r: Registry, log: History, counts: Article -> nat, articles: seq<Article>, n: nat, only: int)
    requires StepsSpoil(step, r, log, counts, articles, n, only)
    ensures Carries(step, SpoiledMark(r, log, counts, articles, n, only), articles, n)
  {
    var at := SpoiledMark(r, log, counts, articles, n, only);
    forall p, i | 0 <= i < n <= |articles| && at(i, p) ensures at(i + 1, step(p, articles[i])) {
      assert Spoiled(r, log, p, Pending(counts, articles, i, n), only);
    }
  }

  lemma StartSpoiled(r: Registry, log: History, calls: int, counts: Article -> nat, articles: seq<Article>, n: nat, only: int)
    requires n <= |articles| && only == calls + Pending(counts, articles, 0, n)
    ensures SpoiledMark(r, log, counts, articles, n, only)(0, Progress([], [], log, calls))
  {}

  lemma MarkMeans(r: Registry, log: History, counts: Article -> nat, articles: seq<Article>, n: nat, only: int, i: int, p: Progress)
    requires SpoiledMark(r, log, counts, articles, n, only)(i, p)
    ensures 0 <= i <= n <= |articles| && Spoiled(r, log, p, Pending(counts, articles, i, n), only)
  {}

  lemma SpoiledUntil(env: Env, s: Scope, log: History, calls: int, articles: seq<Article>, n: nat, only: int, t: int) returns (p: Progress)
    requires n <= |articles| && env.world == Spoiler(only, t)
    requires only == calls + Pending(CountsOf(s), articles, 0, n)
    ensures p == RunOver(StepOf(env, s), Progress([], [], log, calls), articles, n)
    ensures Spoiled(env.reg, log, p, 0, only)
  {
    p := RunOver(StepOf(env, s), Progress([], [], log, calls), articles, n);
    SpoilerSteps(env, s, log, articles, n, only, t);
    CarriesIf(StepOf(env, s), env.reg, log, CountsOf(s), articles, n, only);
    StartSpoiled(env.reg, log, calls, CountsOf(s), articles, n, only);
    RunReaches(StepOf(env, s), SpoiledMark(env.reg, log, CountsOf(s), articles, n, only), Progress([], [], log, calls), articles, n, n);
    MarkMeans(env.reg, log, CountsOf(s), articles, n, only, n, p);
  }

  // ----- And that call is charged

  /** Something can be charged after `log`, and at time `t` no breaker is in the way. */
  ghost predicate Chargeable(env: Env, log: History, t: int) {
    && CanCharge(env.reg, log) && (env.reg.settings.fallbackChain == [] ==> RangesClients(env.reg, env.order))
    && forall key :: BreakerClosed(Replay(env.reg.settings, log), key, t)
  }

  lemma ChargedCall(env: Env, log: History, now: History, call: int, text: string, only: int, t: int)
    requires Chargeable(env, log, t) && env.world == Spoiler(only, t) && call == only && SameBooks(env.reg, log, now)
    ensures var o := RouteCall(env, now, call, text).outcome; o.Success? && o.result.input == 1
  {
    var r := env.reg;
    var chain := ChainOf(r.settings, env.order(call));
    var key :| Triable(r, key) && WithinBudget(r.settings, Replay(r.settings, log).usage, key);
    assert key in chain;
    var rich :| 0 <= rich < |chain| && chain[rich] == key;
    ChargedRoute(r, now, chain, Tries(env.world, call, text, chain), 0, None, t, rich);
  }

  /** The event was charged one input token, and has these matches. */
  function ChargedFor(matches: seq<EntityMatch>): AlignedEvent -> bool {
    (a: AlignedEvent) => a.event.meta.input == 1 && a.event.matches == matches
  }

  lemma ChargedArticle(env: Env, s: Scope, log: History, p: Progress, a: Article, only: int, t: int)
    requires Asked(s, a) && Chargeable(env, log, t) && env.world == Spoiler(only, t) && Spoiled(env.reg, log, p, 0, only)
    ensures SomeEvent(ChargedFor(MatchesOf(a, s.universe)))(StepOf(env, s)(p, a))
  {
    var draft := DraftOf(s, a);
    ChargedCall(env, log, p.log, p.calls, RequestText(draft.article), only, t);
    var e := Enrich(env, p.log, p.calls, draft).event;
    assert e.matches == MatchesOf(a, s.universe) && e.meta.input == 1;
    Turn(env, s, p, a);
    assert StepOf(env, s)(p, a).events[|p.events|] == Aligned(e);
  }

  lemma SpoilerCharges(env: Env, s: Scope, log: History, calls: int, articles: seq<Article>, n: nat, only: int, t: int)
    requires n < |articles| && Asked(s, articles[n]) && Chargeable(env, log, t)
    requires env.world == Spoiler(only, t) && only == calls + Pending(CountsOf(s), articles, 0, n)
    ensures SomeEvent(ChargedFor(MatchesOf(articles[n], s.universe)))(RunAll(env, s, log, calls, articles))
  {
    var kind := ChargedFor(MatchesOf(articles[n], s.universe));
    var p := SpoiledUntil(env, s, log, calls, articles, n, only, t);
    ChargedArticle(env, s, log, p, articles[n], only, t);
    EventStaysOn(env, s, kind, articles, n + 1);
    RunKeepsAfter(StepOf(env, s), SomeEvent(kind), Progress([], [], log, calls), articles, n);
  }

  /** If an article is asked about and something can be charged, some answers charge the run for it. */
  lemma AskedCanBeCharged(r: Registry, order: Order, s: Scope, log: History, calls: int, articles: seq<Article>, n: nat)
    returns (world: World)
    requires n < |articles| && Asked(s, articles[n])
    requires CanCharge(r, log) && (r.settings.fallbackChain == [] ==> RangesClients(r, order))
    ensures HonestWorld(world)
    ensures SomeEvent(ChargedFor(MatchesOf(articles[n], s.universe)))(RunAll(Env(r, world, order), s, log, calls, articles))
  {
    var t := Latest(Replay(r.settings, log).openUntil);
    var only := calls + Pending(CountsOf(s), articles, 0, n);
    world := Spoiler(only, t);
    SpoilerHonest(only, t);
    SpoilerCharges(Env(r, world, order), s, log, calls, articles, n, only, t);
  }
}
