/**
  Which articles a run turns into events, and what it makes of their time (internal/engine/service.go,
  internal/ingest/dedupe.go).
 */
module EventLaws {
  import opened Text
  import opened Entities
  import opened Matcher
  import opened Relevance
  import opened Providers
  import opened Ledger
  import opened Router
  import opened Session
  import opened Enricher
  import Dedupe
  import opened Service
  import opened Exactness

  // ----- Duplicates

  /** The article can be told apart by its canonical hash. */
  predicate Hashed(a: Article) {
    !Blank(a.canonicalHash)
  }

  /** Hashed articles are duplicates exactly when their hashes agree, the others when URL and title do, whatever the case. */
  lemma DuplicateIff(a: Article, b: Article)
    ensures Hashed(a) && Hashed(b) ==>
              (Dedupe.DedupeKey(a) == Dedupe.DedupeKey(b) <==> Trim(a.canonicalHash) == Trim(b.canonicalHash))
    ensures !Hashed(a) && !Hashed(b) ==>
              (Dedupe.DedupeKey(a) == Dedupe.DedupeKey(b) <==> Lower(Trim(a.url + "|" + a.title)) == Lower(Trim(b.url + "|" + b.title)))
    ensures Hashed(a) && !Hashed(b) ==>
              (Dedupe.DedupeKey(a) == Dedupe.DedupeKey(b) <==> Trim(a.canonicalHash) == Lower(Trim(b.url + "|" + b.title)))
  {}

  // ----- The events of a run

  /** Those of the first `n` articles whose relevance reaches the minimum, in order. */
  function Relevant(s: Scope, articles: seq<Article>, n: nat): seq<Article>
    requires n <= |articles|
  {
    if n == 0 then []
    else
      var before, a := Relevant(s, articles, n - 1), articles[n - 1];
      if RelevanceBreakdown(a, s.cfg.factors, s.entities).relevance >= s.cfg.profile.minRelevance then before + [a] else before
  }

  function ArticlesOf(events: seq<AlignedEvent>): seq<Article> {
    seq(|events|, i requires 0 <= i < |events| => events[i].event.article)
  }

  /** The event is about its article's time: the Indian day, the part of it, and the close of the next day's trading. */
  predicate OnTime(a: AlignedEvent) {
    && a.session == AlignToNSESession(a.event.article.publishedAt)
    && a.labelWindowTo == a.session.sessionDate + DAY + 15 * HOUR + 30 * MINUTE
  }

  ghost predicate AllOnTime(events: seq<AlignedEvent>) {
    forall i :: 0 <= i < |events| ==> OnTime(events[i])
  }

  lemma AlignedOnTime(e: EnrichedEvent)
    ensures OnTime(Aligned(e))
  {
    LabelWindowBounds(e.article.publishedAt);
  }

  lemma MoreOnTime(events: seq<AlignedEvent>, a: AlignedEvent)
    requires AllOnTime(events) && OnTime(a)
    ensures AllOnTime(events + [a])
  {}

  ghost function EventsMark(s: Scope, articles: seq<Article>): Marks {
    (i: int, p: Progress) => 0 <= i <= |articles| && ArticlesOf(p.events) == Relevant(s, articles, i) && AllOnTime(p.events)
  }

  lemma DraftRelevance(s: Scope, a: Article)
    ensures DraftOf(s, a).relevance == RelevanceBreakdown(a, s.cfg.factors, s.entities).relevance && DraftOf(s, a).article == a
  {}

  lemma MoreArticles(events: seq<AlignedEvent>, a: AlignedEvent)
    ensures ArticlesOf(events + [a]) == ArticlesOf(events) + [a.event.article]
  {}

  lemma TurnAppends(env: Env, s: Scope, p: Progress, a: Article)
    requires AllOnTime(p.events)
    ensures var p', gate := StepOf(env, s)(p, a), RelevanceBreakdown(a, s.cfg.factors, s.entities).relevance >= s.cfg.profile.minRelevance;
            ArticlesOf(p'.events) == ArticlesOf(p.events) + (if gate then [a] else []) && AllOnTime(p'.events)
  {
    DraftRelevance(s, a);
    if !(DraftOf(s, a).relevance < s.cfg.profile.minRelevance) {
      var e := Enrich(env, p.log, p.calls, DraftOf(s, a)).event;
      Turn(env, s, p, a);
      AlignedOnTime(e);
      MoreOnTime(p.events, Aligned(e));
      MoreArticles(p.events, Aligned(e));
    }
  }

  lemma TurnEvents(env: Env, s: Scope, articles: seq<Article>, i: nat, p: Progress)
    requires i < |articles| && EventsMark(s, articles)(i, p)
    ensures EventsMark(s, articles)(i + 1, StepOf(env, s)(p, articles[i]))
  {
    TurnAppends(env, s, p, articles[i]);
  }

  /** The events of a run are those of its relevant articles, in order, each aligned to its article's time. */
  lemma RunEventsAre(env: Env, s: Scope, log: History, calls: int, articles: seq<Article>)
    ensures var events := RunAll(env, s, log, calls, articles).events;
            ArticlesOf(events) == Relevant(s, articles, |articles|) && AllOnTime(events)
  {
    var step, at, start := StepOf(env, s), EventsMark(s, articles), Progress([], [], log, calls);
    assert ArticlesOf([]) == [] && Relevant(s, articles, 0) == [];
    assert at(0, start);
    forall p, j | 0 <= j < |articles| && at(j, p) ensures at(j + 1, step(p, articles[j])) {
      TurnEvents(env, s, articles, j, p);
    }
    RunReaches(step, at, start, articles, |articles|, |articles|);
    assert at(|articles|, RunOver(step, start, articles, |articles|));
  }

  // ----- The matches of an event

  /** The match is of the entity, as sure as the name of it that the text mentions allows. */
  ghost predicate IsMatchOf(m: EntityMatch, e: Entity, text: string) {
    && m.entityID == e.id && m.symbol == e.symbol && m.name == e.name && m.how == "keyword_match"
    && m.confidence == if Mentions(text, e.name) then 0.95 else if Mentions(text, e.symbol) then 0.9 else 0.85
  }

  /** Each match is of the first mentioned entity with its id, in universe order. */
  lemma MatchIsOf(a: Article, universe: seq<Entity>, k: nat) returns (i: nat)
    requires k < |MatchesOf(a, universe)|
    ensures FirstHit(Lower(ArticleText(a)), universe, |universe|, i)
    ensures IsMatchOf(MatchesOf(a, universe)[k], universe[i], Lower(ArticleText(a)))
  {
    i := MatchOrigin(Lower(ArticleText(a)), universe, |universe|, k);
    MatchEntityMeaning(Lower(ArticleText(a)), universe[i]);
  }
}
