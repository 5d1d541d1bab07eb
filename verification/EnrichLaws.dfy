/**
  What an event and a pair's sentiment say (internal/enrich/enricher.go): the provider's answer where
  there is one and the rules' findings where there is not.
 */
module EnrichLaws {
  import opened Text
  import opened Entities
  import opened Relevance
  import opened Providers
  import opened Ledger
  import opened Router
  import opened Tags
  import opened Enricher

  // ----- The rules' mood

  function WordsFound(text: string, words: set<string>): set<string> {
    set w | w in words && Contains(Lower(text), w)
  }

  const UPBEAT_WORDS := {"growth", "strong", "beat", "upside", "upgrade", "surge"}
  const DOWNBEAT_WORDS := {"weak", "miss", "downside", "downgrade", "delay", "cut"}

  /** Those of the first `n` tokens that pass. */
  function Passing(pass: string -> bool, tokens: seq<string>, n: nat): set<string>
    requires n <= |tokens|
  {
    set i | 0 <= i < n && pass(tokens[i]) :: tokens[i]
  }

  function InText(text: string): string -> bool {
    (w: string) => Contains(text, w)
  }

  lemma PassingStep(pass: string -> bool, tokens: seq<string>, n: nat)
    requires 0 < n <= |tokens| && forall i, j :: 0 <= i < j < |tokens| ==> tokens[i] != tokens[j]
    ensures |Passing(pass, tokens, n)| == |Passing(pass, tokens, n - 1)| + if pass(tokens[n - 1]) then 1 else 0
  {
    var w, front := tokens[n - 1], Passing(pass, tokens, n - 1);
    assert w !in front;
    assert Passing(pass, tokens, n) == front + if pass(w) then {w} else {};
  }

  lemma {:induction false} TokensAreWords(text: string, tokens: seq<string>, n: nat)
    requires n <= |tokens| && forall i, j :: 0 <= i < j < |tokens| ==> tokens[i] != tokens[j]
    ensures TokensFound(text, tokens, n) == |Passing(InText(text), tokens, n)|
  {
    if n > 0 {
      TokensAreWords(text, tokens, n - 1);
      PassingStep(InText(text), tokens, n);
    }
  }

  lemma UpbeatWords(w: string)
    ensures w in UPBEAT_WORDS <==> exists i :: 0 <= i < |UPBEAT| && UPBEAT[i] == w
  {
    assert UPBEAT[0] == "growth" && UPBEAT[1] == "strong" && UPBEAT[2] == "beat";
    assert UPBEAT[3] == "upside" && UPBEAT[4] == "upgrade" && UPBEAT[5] == "surge";
  }

  lemma DownbeatWords(w: string)
    ensures w in DOWNBEAT_WORDS <==> exists i :: 0 <= i < |DOWNBEAT| && DOWNBEAT[i] == w
  {
    assert DOWNBEAT[0] == "weak" && DOWNBEAT[1] == "miss" && DOWNBEAT[2] == "downside";
    assert DOWNBEAT[3] == "downgrade" && DOWNBEAT[4] == "delay" && DOWNBEAT[5] == "cut";
  }

  lemma WordsFoundIs(text: string, words: set<string>, tokens: seq<string>)
    requires forall w :: w in words <==> exists i :: 0 <= i < |tokens| && tokens[i] == w
    requires forall i, j :: 0 <= i < j < |tokens| ==> tokens[i] != tokens[j]
    ensures TokensFound(Lower(text), tokens, |tokens|) == |WordsFound(text, words)|
  {
    TokensAreWords(Lower(text), tokens, |tokens|);
    assert WordsFound(text, words) == Passing(InText(Lower(text)), tokens, |tokens|);
  }

  /** The balance is the number of upbeat words in the lower-cased text less the number of downbeat ones. */
  lemma BalanceCounts(text: string)
    ensures Balance(text) == |WordsFound(text, UPBEAT_WORDS)| - |WordsFound(text, DOWNBEAT_WORDS)|
  {
    forall w ensures w in UPBEAT_WORDS <==> exists i :: 0 <= i < |UPBEAT| && UPBEAT[i] == w { UpbeatWords(w); }
    forall w ensures w in DOWNBEAT_WORDS <==> exists i :: 0 <= i < |DOWNBEAT| && DOWNBEAT[i] == w { DownbeatWords(w); }
    WordsFoundIs(text, UPBEAT_WORDS, UPBEAT);
    WordsFoundIs(text, DOWNBEAT_WORDS, DOWNBEAT);
  }

  /** What the rules make of a text: the side with more words, and fifteen hundredths for each word it is ahead. */
  predicate RulesSay(text: string, mood: string, score: real) {
    var up, down := |WordsFound(text, UPBEAT_WORDS)|, |WordsFound(text, DOWNBEAT_WORDS)|;
    && mood == (if up > down then "positive" else if up < down then "negative" else "neutral")
    && score == (up - down) as real * 15.0 / 100.0
  }

  lemma BalanceSays(text: string)
    ensures RulesSay(text, MoodOf(Balance(text)), 0.15 * Balance(text) as real)
  {
    BalanceCounts(text);
  }

  // ----- The rules' tags

  /** The places of the keywords that stand in the lower-cased text. */
  function KeywordsIn(text: string, keywords: seq<string>): set<int> {
    set k | 0 <= k < |keywords| && keywords[k] != "" && Contains(text, Lower(keywords[k]))
  }

  function KeywordPasses(text: string, keywords: seq<string>): int -> bool {
    (k: int) => 0 <= k < |keywords| && keywords[k] != "" && Contains(text, Lower(keywords[k]))
  }

  function PassingBelow(pass: int -> bool, n: nat): set<int> {
    set k | 0 <= k < n && pass(k)
  }

  lemma PassingBelowStep(pass: int -> bool, n: nat)
    requires n > 0
    ensures |PassingBelow(pass, n)| == |PassingBelow(pass, n - 1)| + if pass(n - 1) then 1 else 0
  {
    assert PassingBelow(pass, n) == PassingBelow(pass, n - 1) + if pass(n - 1) then {n - 1} else {};
  }

  lemma {:induction false} KeywordsFoundSize(text: string, keywords: seq<string>, n: nat)
    requires n <= |keywords|
    ensures KeywordsFound(text, keywords, n) == |PassingBelow(KeywordPasses(text, keywords), n)|
  {
    if n > 0 {
      KeywordsFoundSize(text, keywords, n - 1);
      PassingBelowStep(KeywordPasses(text, keywords), n);
    }
  }

  lemma FactorFoundSize(text: string, f: Factor)
    ensures FactorFound(text, f) == |KeywordsIn(text, f.keywords)|
  {
    KeywordsFoundSize(text, f.keywords, |f.keywords|);
    assert KeywordsIn(text, f.keywords) == PassingBelow(KeywordPasses(text, f.keywords), |f.keywords|);
  }

  /** The tag is the factor's, its score the factor's weight times the share of its keywords in the text. */
  predicate TagOf(text: string, f: Factor, tag: FactorTag) {
    && tag.factorID == f.id && tag.name == f.name && tag.category == f.category
    && tag.matchedBy == "rule_keyword" && !tag.llmRefined
    && KeywordsIn(text, f.keywords) != {}
    && tag.score * |f.keywords| as real == |KeywordsIn(text, f.keywords)| as real * f.weight
  }

  lemma ShareTimes(hits: int, total: int, weight: real)
    requires total > 0
    ensures hits as real / total as real * weight * total as real == hits as real * weight
  {
    assert hits as real / total as real * total as real == hits as real;
  }

  lemma RuleTagIs(text: string, f: Factor)
    requires FactorFound(text, f) > 0
    ensures f.keywords != [] && TagOf(text, f, RuleTag(f, FactorFound(text, f)))
  {
    FactorFoundSize(text, f);
    ShareTimes(FactorFound(text, f), |f.keywords|, f.weight);
  }

  /** Each rule tag is that of a factor with a keyword in the text, in the order of the factors. */
  lemma {:induction false} RuleTagOrigin(text: string, factors: seq<Factor>, n: nat, i: nat) returns (f: nat)
    requires n <= |factors| && i < |RuleTags(text, factors, n)|
    ensures f < n && TagOf(text, factors[f], RuleTags(text, factors, n)[i]) && |RuleTags(text, factors, f)| == i
  {
    var before := RuleTags(text, factors, n - 1);
    if i < |before| {
      f := RuleTagOrigin(text, factors, n - 1, i);
    } else {
      f := n - 1;
      RuleTagIs(text, factors[f]);
    }
  }

  /** Every factor with a keyword in the text has its tag, and no other has one. */
  lemma {:induction false} RuleTagPlace(text: string, factors: seq<Factor>, n: nat, f: nat)
    requires f < n <= |factors|
    ensures var i, tags := |RuleTags(text, factors, f)|, RuleTags(text, factors, n);
            if KeywordsIn(text, factors[f].keywords) != {} then
              |RuleTags(text, factors, f + 1)| == i + 1 && i < |tags| && TagOf(text, factors[f], tags[i])
            else |RuleTags(text, factors, f + 1)| == i
  {
    FactorFoundSize(text, factors[f]);
    if f < n - 1 {
      RuleTagPlace(text, factors, n - 1, f);
    } else if KeywordsIn(text, factors[f].keywords) != {} {
      RuleTagIs(text, factors[f]);
    }
  }

  // ----- The tags of an event

  /** The tag at `k` is the first of highest score among those of its factor. */
  predicate FirstHighest(tags: seq<FactorTag>, k: nat) {
    && k < |tags|
    && (forall m :: 0 <= m < |tags| && tags[m].factorID == tags[k].factorID ==> tags[m].score <= tags[k].score)
    && (forall m :: 0 <= m < k && tags[m].factorID == tags[k].factorID ==> tags[m].score < tags[k].score)
  }

  lemma CameFromIsFirstHighest(base: seq<FactorTag>, add: seq<FactorTag>, i: nat, tag: FactorTag, j: int) returns (k: nat)
    requires OncePerFactor(base) && CameFrom(base, add, |add|, i, tag, j)
    requires i >= |base| ==> forall m :: 0 <= m < |base| ==> base[m].factorID != tag.factorID
    ensures FirstHighest(base + add, k) && (base + add)[k] == tag
  {
    var all := base + add;
    k := if j == -1 then i else |base| + j;
    assert all[k] == tag;
    forall m | 0 <= m < |all| && all[m].factorID == tag.factorID
      ensures all[m].score <= tag.score && (m < k ==> all[m].score < tag.score)
    {
      if m < |base| { assert all[m] == base[m]; } else { assert all[m] == add[m - |base|]; }
    }
  }

  lemma NewTagIsNew(base: seq<FactorTag>, add: seq<FactorTag>, i: nat)
    requires OncePerFactor(base) && |base| <= i < |Merged(base, add, |add|)|
    ensures forall m :: 0 <= m < |base| ==> base[m].factorID != Merged(base, add, |add|)[i].factorID
  {
    var merged := Merged(base, add, |add|);
    MergedIDs(base, add, |add|);
    NewIDsOnce(base, add, |add|);
    assert IDs(merged)[i] == NewIDs(base, add, |add|)[i - |base|];
    forall m | 0 <= m < |base| ensures base[m].factorID != merged[i].factorID {
      assert IDs(base)[m] == base[m].factorID;
    }
  }

  lemma {:induction false} NewIDsAre(base: seq<FactorTag>, add: seq<FactorTag>, n: nat, id: string)
    requires n <= |add|
    ensures id in NewIDs(base, add, n) <==> id !in IDs(base) && exists k :: 0 <= k < n && add[k].factorID == id
  {
    if n > 0 { NewIDsAre(base, add, n - 1, id); }
  }

  lemma HasID(tags: seq<FactorTag>, id: string)
    ensures id in IDs(tags) <==> exists k :: 0 <= k < |tags| && tags[k].factorID == id
  {
    if k :| 0 <= k < |tags| && tags[k].factorID == id { assert IDs(tags)[k] == id; }
  }

  /** The factors of a merge are those of both lists, those of the base first and in its order. */
  lemma MergedFactors(base: seq<FactorTag>, add: seq<FactorTag>, id: string)
    ensures IDs(base) <= IDs(Merged(base, add, |add|))
    ensures id in IDs(Merged(base, add, |add|)) <==> id in IDs(base) || id in IDs(add)
  {
    MergedIDs(base, add, |add|);
    NewIDsAre(base, add, |add|, id);
    HasID(add, id);
  }

  // ----- One article

  /** The router is asked about the article: its relevance lies in the ambiguous band. */
  predicate InBand(a: Article, factors: seq<Factor>, entities: seq<Entity>, profile: Profile) {
    var relevance := RelevanceBreakdown(a, factors, entities).relevance;
    profile.ambiguity <= relevance && relevance < profile.novelty
  }

  /** The text the router is asked about. */
  function Question(a: Article): string {
    Trim(a.title + " " + a.summary + " " + a.body)
  }

  lemma QuestionIs(a: Article)
    ensures RequestText(a) == Question(a)
  {
    var parts, rest := [a.title, a.summary, a.body], [a.summary, a.body];
    assert parts[1..] == rest && rest[1..] == [a.body];
    assert Join(rest, " ") == a.summary + " " + a.body;
    assert Join(parts, " ") == a.title + " " + Join(rest, " ");
    assert a.title + " " + (a.summary + " " + a.body) == a.title + " " + a.summary + " " + a.body;
  }

  /** What the rules alone say of an article. */
  lemma RulesEvent(a: Article, universe: seq<Entity>, factors: seq<Factor>, entities: seq<Entity>, profile: Profile)
    ensures var e := Draft(a, universe, factors, entities, profile);
            && e.article == a && e.matches == MatchesOf(a, universe)
            && e.relevance == RelevanceBreakdown(a, factors, entities).relevance
            && (e.needsLLM <==> InBand(a, factors, entities, profile))
            && RulesSay(Question(a), e.mood, e.score)
            && e.tags == RuleTags(Lower(Question(a)), factors, |factors|)
            && e.meta == Meta("rules", "rules", 0, 0, 0.0)
  {
    QuestionIs(a);
    BalanceSays(Question(a));
  }

  /** What enrichment never touches. */
  predicate SameSubject(e: EnrichedEvent, draft: EnrichedEvent) {
    e.article == draft.article && e.matches == draft.matches && e.relevance == draft.relevance && e.needsLLM == draft.needsLLM
  }

  /**
    Asked and answered: mood, score, tokens and cost are the reply's, the factors are the rules' and
    then the reply's, and each keeps the first of its tags of highest score, the rules' going first.
   */
  lemma AnsweredEvent(env: Env, log: History, calls: int, draft: EnrichedEvent)
    requires draft.needsLLM && OncePerFactor(draft.tags)
    requires RouteCall(env, log, calls, Question(draft.article)).outcome.Success?
    ensures var e := Enrich(env, log, calls, draft).event;
            var r := RouteCall(env, log, calls, Question(draft.article)).outcome.result;
            && SameSubject(e, draft) && e.mood == r.sentiment.labelText && e.score == r.sentiment.score
            && e.meta == Meta(if r.provider == "" then "rules" else r.provider, if r.model == "" then "rules" else r.model,
                              r.input, r.output, r.cost)
            && IDs(draft.tags) <= IDs(e.tags)
            && (forall id :: id in IDs(e.tags) <==> id in IDs(draft.tags) || id in IDs(r.factors.tags))
            && OncePerFactor(e.tags)
            && forall i :: 0 <= i < |e.tags| ==> IsFirstHighest(draft.tags + r.factors.tags, e.tags[i])
  {
    QuestionIs(draft.article);
    var r := RouteCall(env, log, calls, Question(draft.article)).outcome.result;
    MergedTags(draft.tags, r.factors.tags);
  }

  ghost predicate IsFirstHighest(tags: seq<FactorTag>, tag: FactorTag) {
    exists k: nat :: FirstHighest(tags, k) && tags[k] == tag
  }

  lemma MergedTags(base: seq<FactorTag>, add: seq<FactorTag>)
    requires OncePerFactor(base)
    ensures var merged := Merged(base, add, |add|);
            && IDs(base) <= IDs(merged) && OncePerFactor(merged)
            && (forall id :: id in IDs(merged) <==> id in IDs(base) || id in IDs(add))
            && forall i :: 0 <= i < |merged| ==> IsFirstHighest(base + add, merged[i])
  {
    var merged := Merged(base, add, |add|);
    MergeOnceIff(base, add, |add|);
    MergedFactors(base, add, "");
    forall id ensures id in IDs(merged) <==> id in IDs(base) || id in IDs(add) { MergedFactors(base, add, id); }
    forall i | 0 <= i < |merged| ensures IsFirstHighest(base + add, merged[i]) {
      var j := MergeKeepsFirstBest(base, add, |add|, i);
      if i >= |base| { NewTagIsNew(base, add, i); }
      var k := CameFromIsFirstHighest(base, add, i, merged[i], j);
    }
  }

  /** Not asked, or not answered: the event is the rules', with nothing charged. */
  lemma UnansweredEvent(env: Env, log: History, calls: int, draft: EnrichedEvent)
    requires draft.needsLLM ==> RouteCall(env, log, calls, Question(draft.article)).outcome.Failure?
    ensures Enrich(env, log, calls, draft).event == draft
  {
    QuestionIs(draft.article);
  }

  // ----- One pair

  /** The sentiment is the reply's where the router answered, and the rules' at no cost where it did not. */
  predicate SentimentOf(s: PairSentiment, text: string, o: Outcome) {
    match o
    case Success(_, r) =>
      && s.provider == r.provider && s.model == r.model && s.mood == r.sentiment.labelText && s.score == r.sentiment.score
      && s.input == r.input && s.output == r.output && s.cost == r.cost
    case Failure(_) =>
      && s.provider == "rules" && s.model == "rules" && RulesSay(text, s.mood, s.score)
      && s.input == 0 && s.output == 0 && s.cost == 0.0
  }

  lemma JudgedIs(text: string, o: Outcome)
    ensures SentimentOf(Judged(text, o), text, o)
  {
    BalanceSays(text);
  }
}
