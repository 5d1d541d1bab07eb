/**
  The relevance gate (internal/ingest/relevance.go): the regular-expression term matcher, its exact
  relation to the token matcher, and the relevance score.
 */
module Relevance {
  import opened Text
  import opened Entities
  import opened Matcher

  // ----- The regular-expression matcher

  /** A match of `(^|[^a-z0-9])term([^a-z0-9]|$)` whose term starts at `i`. */
  predicate TermAt(text: string, term: string, i: nat) {
    OccursAt(text, term, i)
    && (i == 0 || !IsWord(text[i - 1]))
    && (i + |term| == |text| || !IsWord(text[i + |term|]))
  }

  predicate RegexContainsTerm(text: string, term: string) {
    var t := Lower(Trim(term));
    t != "" && exists i: nat :: i <= |text| && TermAt(text, t, i)
  }

  predicate HasWordChar(s: string) {
    exists i :: 0 <= i < |s| && IsWord(s[i])
  }

  predicate AllWordChars(s: string) {
    forall i :: 0 <= i < |s| ==> IsWord(s[i])
  }

  lemma {:induction false} WordsEmptyIff(s: string)
    ensures Words(s) == [] <==> !HasWordChar(s)
  {
    if s != [] && !IsWord(s[0]) {
      WordsEmptyIff(s[1..]);
      assert forall i :: 0 <= i < |s[1..]| ==> s[1..][i] == s[i + 1];
      if HasWordChar(s) {
        var i :| 0 <= i < |s| && IsWord(s[i]);
        assert IsWord(s[1..][i - 1]);
      }
    }
  }

  /** Spaces around a text add no tokens. */
  lemma SpacesAddNoTokens(pre: string, mid: string, post: string)
    requires forall i :: 0 <= i < |pre| ==> IsSpace(pre[i])
    requires forall i :: 0 <= i < |post| ==> IsSpace(post[i])
    ensures Words(pre + (mid + post)) == Words(mid)
  {
    WordsEmptyIff(pre);
    WordsEmptyIff(post);
    RunsConcat(mid, post, IsWord);
    RunsConcat(pre, mid + post, IsWord);
  }

  lemma TrimParts(s: string) returns (pre: string, post: string)
    ensures s == pre + (Trim(s) + post)
    ensures forall i :: 0 <= i < |pre| ==> IsSpace(pre[i])
    ensures forall i :: 0 <= i < |post| ==> IsSpace(post[i])
  {
    var lo := TrimStart(s, 0);
    var hi := TrimEnd(s, lo, |s|);
    TrimStartSpaces(s, 0);
    TrimEndSpaces(s, lo, |s|);
    pre, post := s[..lo], s[hi..];
  }

  lemma LowerConcat(a: string, b: string)
    ensures Lower(a + b) == Lower(a) + Lower(b)
  {}

  lemma TrimKeepsTokens(s: string)
    ensures Words(Lower(Trim(s))) == Tokens(s)
  {
    var pre, post := TrimParts(s);
    LowerConcat(pre, Trim(s) + post);
    LowerConcat(Trim(s), post);
    SpacesAddNoTokens(Lower(pre), Lower(Trim(s)), Lower(post));
  }

  /** What a regex match leaves of the text: three pieces that split into tokens independently. */
  lemma TermAtSplitsTokens(text: string, t: string, i: nat)
    requires TermAt(text, t, i)
    ensures SublistAt(Words(text), Words(t), |Words(text[..i])|)
  {
    var pre, post := text[..i], text[i + |t|..];
    assert text == pre + (t + post);
    assert t != [] ==> (i == 0 || !IsWord(pre[|pre| - 1]));
    RunsConcat(t, post, IsWord);
    RunsConcat(pre, t + post, IsWord);
    assert Words(text) == Words(pre) + (Words(t) + Words(post));
  }

  /** A token of the text is bounded on both sides by a non-word character or an end of the text. */
  lemma {:induction false} TokenOccurs(text: string, k: nat) returns (i: nat)
    requires k < |Words(text)|
    ensures i <= |text| && TermAt(text, Words(text)[k], i)
    ensures text != [] && IsWord(text[0]) && k > 0 ==> i > 0
    decreases |text|
  {
    if IsWord(text[0]) {
      var n := RunLength(text, IsWord);
      if k == 0 {
        i := 0;
      } else {
        var j := TokenOccurs(text[n..], k - 1);
        i := n + j;
        RunsAreWords(text[n..]);
        var tok := Words(text[n..])[k - 1];
        assert tok[0] == text[n..][j];
        ShiftMatch(text, n, tok, j);
      }
    } else {
      var j := TokenOccurs(text[1..], k);
      i := 1 + j;
      ShiftMatch(text, 1, Words(text[1..])[k], j);
    }
  }

  lemma ShiftMatch(text: string, n: nat, tok: string, j: nat)
    requires 1 <= n <= |text| && TermAt(text[n..], tok, j) && j <= |text| - n
    requires j == 0 ==> !IsWord(text[n - 1])
    ensures TermAt(text, tok, n + j)
  {
    var rest := text[n..];
    assert text[n + j..n + j + |tok|] == rest[j..j + |tok|];
    assert j > 0 ==> text[n + j - 1] == rest[j - 1];
    assert j + |tok| < |rest| ==> text[n + j + |tok|] == rest[j + |tok|];
  }

  // ----- The two matchers related

  /**
    On lower-cased text the regular expression is the stricter matcher: whatever it accepts, the
    token matcher accepts too, provided the term has an alphanumeric character at all.
   */
  lemma RegexImpliesToken(text: string, term: string)
    requires Lower(text) == text
    requires HasWordChar(Lower(Trim(term)))
    requires RegexContainsTerm(text, term)
    ensures ContainsTerm(text, term)
  {
    var t := Lower(Trim(term));
    var i: nat :| i <= |text| && TermAt(text, t, i);
    TermAtSplitsTokens(text, t, i);
    TrimKeepsTokens(term);
    WordsEmptyIff(t);
    ContainsTermIsTokenMatch(text, term);
  }

  lemma AlnumTermsAgree(text: string, term: string)
    requires Lower(text) == text
    requires AllWordChars(Lower(Trim(term)))
    ensures RegexContainsTerm(text, term) <==> ContainsTerm(text, term)
  {
    var t := Lower(Trim(term));
    TrimKeepsTokens(term);
    ContainsTermIsTokenMatch(text, term);
    if t == "" {
      assert Words(t) == [];
    } else {
      assert IsWord(t[0]);
      WordsOfWord(t);
      if RegexContainsTerm(text, term) {
        RegexImpliesToken(text, term);
      } else if Sublist(Words(text), [t]) {
        var k: nat :| k <= |Words(text)| && SublistAt(Words(text), [t], k);
        SingleTokenMatches(text, t, k);
      }
    }
  }

  lemma SingleTokenMatches(text: string, t: string, k: nat)
    requires SublistAt(Words(text), [t], k)
    ensures exists i: nat :: i <= |text| && TermAt(text, t, i)
  {
    assert Words(text)[k] == Words(text)[k..k + 1][0];
    var i := TokenOccurs(text, k);
  }

  ghost predicate AgreeOnEveryText(term: string) {
    forall text :: Lower(text) == text ==> (RegexContainsTerm(text, term) <==> ContainsTerm(text, term))
  }

  lemma {:induction false} JoinAlphabet(ts: seq<string>, sep: char)
    requires AllWords(ts)
    ensures forall i :: 0 <= i < |Join(ts, [sep])| ==> IsWord(Join(ts, [sep])[i]) || Join(ts, [sep])[i] == sep
  {
    if |ts| > 1 { JoinAlphabet(ts[1..], sep); }
  }

  lemma LowerOfAlphabet(s: string)
    requires forall i :: 0 <= i < |s| ==> IsWord(s[i]) || s[i] == ' ' || s[i] == '-'
    ensures Lower(s) == s
  {}

  /** A text the two matchers disagree on, for a term that is not purely alphanumeric. */
  lemma Disagreement(term: string) returns (text: string)
    requires !AllWordChars(Lower(Trim(term)))
    ensures Lower(text) == text
    ensures RegexContainsTerm(text, term) != ContainsTerm(text, term)
  {
    if HasWordChar(Lower(Trim(term))) {
      text := OtherSeparator(term);
    } else {
      text := PunctuationOnly(term);
    }
  }

  /** A term of punctuation alone is found by the regular expression in itself, never as tokens. */
  lemma PunctuationOnly(term: string) returns (text: string)
    requires Trim(term) != "" && !HasWordChar(Lower(Trim(term)))
    ensures Lower(text) == text && RegexContainsTerm(text, term) && !ContainsTerm(text, term)
  {
    text := Lower(Trim(term));
    LowerIdempotent(Trim(term));
    TrimKeepsTokens(term);
    WordsEmptyIff(text);
    assert text[0..|text|] == text;
    assert TermAt(text, text, 0);
    ContainsTermIsTokenMatch(text, term);
  }

  /** The term's tokens joined by a separator the term does not use. */
  lemma OtherSeparator(term: string) returns (text: string)
    requires !AllWordChars(Lower(Trim(term))) && HasWordChar(Lower(Trim(term)))
    ensures Lower(text) == text && !RegexContainsTerm(text, term) && ContainsTerm(text, term)
  {
    var t := Lower(Trim(term));
    var x :| 0 <= x < |t| && !IsWord(t[x]);
    var ts, sep := Words(t), if t[x] == ' ' then '-' else ' ';
    RunsAreWords(t);
    JoinAlphabet(ts, sep);
    text := Join(ts, [sep]);
    LowerOfAlphabet(text);
    WordsOfJoin(ts, sep);
    TrimKeepsTokens(term);
    WordsEmptyIff(t);
    assert Words(text)[0..|ts|] == ts;
    assert SublistAt(Words(text), ts, 0);
    ContainsTermIsTokenMatch(text, term);
    CharNowhere(text, t, x);
  }

  /** A term holding a character the text does not have matches nowhere in it. */
  lemma CharNowhere(text: string, t: string, x: nat)
    requires x < |t| && forall i :: 0 <= i < |text| ==> text[i] != t[x]
    ensures forall i: nat :: i <= |text| ==> !TermAt(text, t, i)
  {
    forall i: nat | i <= |text| ensures !TermAt(text, t, i) {
      assert i + |t| <= |text| ==> text[i..i + |t|][x] == text[i + x];
    }
  }

  /** The matchers agree on every lower-cased text exactly for the purely alphanumeric terms. */
  lemma MatchersAgreeIff(term: string)
    ensures AgreeOnEveryText(term) <==> AllWordChars(Lower(Trim(term)))
  {
    if AllWordChars(Lower(Trim(term))) {
      forall text | Lower(text) == text
        ensures RegexContainsTerm(text, term) <==> ContainsTerm(text, term)
      {
        AlnumTermsAgree(text, term);
      }
    } else {
      var text := Disagreement(term);
    }
  }

  // ----- The score

  datatype Article = Article(
    id: string,
    url: string,
    title: string,
    summary: string,
    body: string,
    canonicalHash: string,
    publishedAt: int)

  datatype Breakdown = Breakdown(relevance: real, factorScore: real, entityScore: real)

  function ArticleText(a: Article): string {
    Join([a.title, a.summary, a.body], " ")
  }

  function KeywordHits(text: string, keywords: seq<string>): (n: nat)
    ensures n <= |keywords|
  {
    if keywords == [] then 0
    else
      var last := keywords[|keywords| - 1];
      KeywordHits(text, keywords[..|keywords| - 1])
      + if last != "" && RegexContainsTerm(text, last) then 1 else 0
  }

  function FactorHits(text: string, factors: seq<Factor>): nat {
    if factors == [] then 0
    else FactorHits(text, factors[..|factors| - 1]) + KeywordHits(text, factors[|factors| - 1].keywords)
  }

  function KeywordTotal(factors: seq<Factor>): nat {
    if factors == [] then 0
    else KeywordTotal(factors[..|factors| - 1]) + |factors[|factors| - 1].keywords|
  }

  function EntityHits(text: string, entities: seq<Entity>): (n: nat)
    ensures n <= |entities|
  {
    if entities == [] then 0
    else
      EntityHits(text, entities[..|entities| - 1])
      + if MatchEntity(text, entities[|entities| - 1]).Hit? then 1 else 0
  }

  function Ratio(hits: nat, total: nat): real {
    if total > 0 then hits as real / total as real else 0.0
  }

  function RelevanceBreakdown(a: Article, factors: seq<Factor>, entities: seq<Entity>): Breakdown {
    var text := Lower(ArticleText(a));
    var f := Ratio(FactorHits(text, factors), KeywordTotal(factors));
    var e := Ratio(EntityHits(text, entities), |entities|);
    Breakdown(0.65 * f + 0.35 * e, f, e)
  }

  function RelevanceScore(a: Article, factors: seq<Factor>, entities: seq<Entity>): real {
    RelevanceBreakdown(a, factors, entities).relevance
  }

  predicate NeedsLLMRefinement(score: real, novelty: real, ambiguity: real) {
    ambiguity <= score < novelty
  }

  method ScoreBreakdown(a: Article, factors: seq<Factor>, entities: seq<Entity>) returns (r: Breakdown)
    ensures r == RelevanceBreakdown(a, factors, entities)
  {
    var text := Lower(ArticleText(a));
    if text == "" {
      return Breakdown(0.0, 0.0, 0.0);
    }
    var factorHits, factorTotal := 0, 0;
    for i := 0 to |factors|
      invariant factorHits == FactorHits(text, factors[..i]) && factorTotal == KeywordTotal(factors[..i])
    {
      var keywords := factors[i].keywords;
      for j := 0 to |keywords|
        invariant factorHits == FactorHits(text, factors[..i]) + KeywordHits(text, keywords[..j])
        invariant factorTotal == KeywordTotal(factors[..i]) + j
      {
        factorTotal := factorTotal + 1;
        if keywords[j] != "" && RegexContainsTerm(text, keywords[j]) {
          factorHits := factorHits + 1;
        }
        assert keywords[..j + 1][..j] == keywords[..j];
      }
      assert keywords[..|keywords|] == keywords;
      assert factors[..i + 1][..i] == factors[..i];
    }
    assert factors[..|factors|] == factors;
    var entityHits := 0;
    for i := 0 to |entities|
      invariant entityHits == EntityHits(text, entities[..i])
    {
      if MatchEntity(text, entities[i]).Hit? {
        entityHits := entityHits + 1;
      }
      assert entities[..i + 1][..i] == entities[..i];
    }
    assert entities[..|entities|] == entities;
    var factorScore := 0.0;
    if factorTotal > 0 {
      factorScore := factorHits as real / factorTotal as real;
    }
    var entityScore := 0.0;
    if |entities| > 0 {
      entityScore := entityHits as real / |entities| as real;
    }
    r := Breakdown(0.65 * factorScore + 0.35 * entityScore, factorScore, entityScore);
  }

  lemma {:induction false} EntityHitsSplit(text: string, a: seq<Entity>, b: seq<Entity>)
    ensures EntityHits(text, a + b) == EntityHits(text, a) + EntityHits(text, b)
  {
    if b == [] {
      assert a + b == a;
    } else {
      EntityHitsSplit(text, a, b[..|b| - 1]);
      assert (a + b)[..|a + b| - 1] == a + b[..|b| - 1];
    }
  }

  lemma TakeOut(s: seq<Entity>, i: nat)
    requires i < |s|
    ensures multiset(s[..i] + s[i + 1..]) == multiset(s) - multiset{s[i]}
  {
    assert s == s[..i] + [s[i]] + s[i + 1..];
  }

  lemma EntityHitsTakeOut(text: string, s: seq<Entity>, i: nat)
    requires i < |s|
    ensures EntityHits(text, s) == EntityHits(text, s[..i] + s[i + 1..]) + EntityHits(text, [s[i]])
  {
    EntityHitsSplit(text, s[..i], s[i + 1..]);
    EntityHitsSplit(text, s[..i], [s[i]] + s[i + 1..]);
    EntityHitsSplit(text, [s[i]], s[i + 1..]);
    assert s == s[..i] + ([s[i]] + s[i + 1..]);
  }

  lemma FrontMultiset(a: seq<Entity>)
    requires a != []
    ensures multiset(a[..|a| - 1]) == multiset(a) - multiset{a[|a| - 1]}
    ensures a[|a| - 1] in multiset(a)
  {
    assert a == a[..|a| - 1] + [a[|a| - 1]];
  }

  lemma {:induction false} EntityHitsPermute(text: string, a: seq<Entity>, b: seq<Entity>)
    requires multiset(a) == multiset(b)
    ensures EntityHits(text, a) == EntityHits(text, b)
    decreases |a|
  {
    if a == [] {
      assert |b| == |multiset(b)| == 0;
    } else {
      var front, x := a[..|a| - 1], a[|a| - 1];
      FrontMultiset(a);
      assert x in b;
      var i :| 0 <= i < |b| && b[i] == x;
      TakeOut(b, i);
      EntityHitsTakeOut(text, b, i);
      EntityHitsPermute(text, front, b[..i] + b[i + 1..]);
      assert [x][..0] == [];
    }
  }

  /** The order in which the selected entities are listed cannot change an article's score. */
  lemma ScoreIgnoresEntityOrder(a: Article, factors: seq<Factor>, e1: seq<Entity>, e2: seq<Entity>)
    requires multiset(e1) == multiset(e2)
    ensures RelevanceBreakdown(a, factors, e1) == RelevanceBreakdown(a, factors, e2)
  {
    assert |e1| == |multiset(e1)| == |e2|;
    EntityHitsPermute(Lower(ArticleText(a)), e1, e2);
  }

  lemma {:induction false} FactorHitsBounded(text: string, factors: seq<Factor>)
    ensures FactorHits(text, factors) <= KeywordTotal(factors)
  {
    if factors != [] { FactorHitsBounded(text, factors[..|factors| - 1]); }
  }

  lemma RatioBounds(hits: nat, total: nat)
    requires hits <= total
    ensures 0.0 <= Ratio(hits, total) <= 1.0
    ensures total > 0 ==> (Ratio(hits, total) == 1.0 <==> hits == total)
    ensures total > 0 ==> (Ratio(hits, total) == 0.0 <==> hits == 0)
  {
    if total > 0 {
      var h, t := hits as real, total as real;
      assert h <= t;
    }
  }

  /** Every component lies in [0, 1], and a full score needs every keyword and every entity to hit. */
  lemma ScoreRange(a: Article, factors: seq<Factor>, entities: seq<Entity>)
    ensures var b := RelevanceBreakdown(a, factors, entities);
            && 0.0 <= b.relevance <= 1.0 && 0.0 <= b.factorScore <= 1.0 && 0.0 <= b.entityScore <= 1.0
            && (b.relevance == 1.0 <==>
                  var text := Lower(ArticleText(a));
                  && 0 < KeywordTotal(factors) == FactorHits(text, factors)
                  && 0 < |entities| == EntityHits(text, entities))
  {
    var text := Lower(ArticleText(a));
    FactorHitsBounded(text, factors);
    RatioBounds(FactorHits(text, factors), KeywordTotal(factors));
    RatioBounds(EntityHits(text, entities), |entities|);
  }
}
