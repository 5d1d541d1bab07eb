/**
  What a relevance score counts (internal/ingest/relevance.go): shares of keywords and of entities found
  in the article, told over their positions, and what each share is worth.
 */
module RelevanceLaws {
  import opened Text
  import opened Entities
  import opened Matcher
  import opened Relevance

  // ----- Positions

  /** The places of all keywords: factor, and keyword within it. */
  function KeywordPlaces(factors: seq<Factor>): set<(int, int)> {
    set f, k | 0 <= f < |factors| && 0 <= k < |factors[f].keywords| :: (f, k)
  }

  /** Those whose keyword stands in the text. */
  function FoundPlaces(text: string, factors: seq<Factor>): set<(int, int)> {
    set f, k | 0 <= f < |factors| && 0 <= k < |factors[f].keywords| && RegexContainsTerm(text, factors[f].keywords[k]) :: (f, k)
  }

  /** The places of the entities the text mentions. */
  function FoundEntities(text: string, entities: seq<Entity>): set<int> {
    set i | 0 <= i < |entities| && MatchEntity(text, entities[i]).Hit?
  }

  // ----- The counts

  /** Whether a term stands in the text, as a value, so that counting need not look into it. */
  function Finder(text: string): string -> bool {
    (term: string) => RegexContainsTerm(text, term)
  }

  function Mentioner(text: string): Entity -> bool {
    (e: Entity) => MatchEntity(text, e).Hit?
  }

  function PlacesBy(found: string -> bool, factors: seq<Factor>): set<(int, int)> {
    set f, k | 0 <= f < |factors| && 0 <= k < |factors[f].keywords| && found(factors[f].keywords[k]) :: (f, k)
  }

  function RowBy(found: string -> bool, row: int, keywords: seq<string>): set<(int, int)> {
    set k | 0 <= k < |keywords| && found(keywords[k]) :: (row, k)
  }

  function IndicesBy(hit: Entity -> bool, entities: seq<Entity>): set<int> {
    set i | 0 <= i < |entities| && hit(entities[i])
  }

  lemma DisjointSizes<T>(a: set<T>, b: set<T>)
    requires a !! b
    ensures |a + b| == |a| + |b|
  {}

  lemma RowByStep(found: string -> bool, row: int, keywords: seq<string>)
    requires keywords != []
    ensures var n := |keywords| - 1;
            |RowBy(found, row, keywords)| == |RowBy(found, row, keywords[..n])| + if found(keywords[n]) then 1 else 0
  {
    var n := |keywords| - 1;
    var front, more := RowBy(found, row, keywords[..n]), if found(keywords[n]) then {(row, n)} else {};
    assert RowBy(found, row, keywords) == front + more;
    DisjointSizes(front, more);
  }

  lemma PlacesByStep(found: string -> bool, factors: seq<Factor>)
    requires factors != []
    ensures var n := |factors| - 1;
            |PlacesBy(found, factors)| == |PlacesBy(found, factors[..n])| + |RowBy(found, n, factors[n].keywords)|
  {
    var n := |factors| - 1;
    var front, more := PlacesBy(found, factors[..n]), RowBy(found, n, factors[n].keywords);
    assert PlacesBy(found, factors) == front + more;
    DisjointSizes(front, more);
  }

  lemma IndicesByStep(hit: Entity -> bool, entities: seq<Entity>)
    requires entities != []
    ensures var n := |entities| - 1;
            |IndicesBy(hit, entities)| == |IndicesBy(hit, entities[..n])| + if hit(entities[n]) then 1 else 0
  {
    var n := |entities| - 1;
    var front, more := IndicesBy(hit, entities[..n]), if hit(entities[n]) then {n} else {};
    assert IndicesBy(hit, entities) == front + more;
    DisjointSizes(front, more);
  }

  function Anything(): string -> bool {
    (term: string) => true
  }

  lemma {:induction false} AnyRowSize(row: int, keywords: seq<string>)
    ensures |RowBy(Anything(), row, keywords)| == |keywords|
  {
    if keywords != [] {
      AnyRowSize(row, keywords[..|keywords| - 1]);
      RowByStep(Anything(), row, keywords);
    }
  }

  lemma {:induction false} AnyPlacesSize(factors: seq<Factor>)
    ensures |PlacesBy(Anything(), factors)| == KeywordTotal(factors)
  {
    if factors != [] {
      AnyPlacesSize(factors[..|factors| - 1]);
      PlacesByStep(Anything(), factors);
      AnyRowSize(|factors| - 1, factors[|factors| - 1].keywords);
    }
  }

  lemma {:induction false} FoundRowSize(row: int, text: string, keywords: seq<string>)
    ensures |RowBy(Finder(text), row, keywords)| == KeywordHits(text, keywords)
  {
    if keywords != [] {
      FoundRowSize(row, text, keywords[..|keywords| - 1]);
      RowByStep(Finder(text), row, keywords);
    }
  }

  lemma {:induction false} FoundBySize(text: string, factors: seq<Factor>)
    ensures |PlacesBy(Finder(text), factors)| == FactorHits(text, factors)
  {
    if factors != [] {
      FoundBySize(text, factors[..|factors| - 1]);
      PlacesByStep(Finder(text), factors);
      FoundRowSize(|factors| - 1, text, factors[|factors| - 1].keywords);
    }
  }

  lemma {:induction false} MentionedSize(text: string, entities: seq<Entity>)
    ensures |IndicesBy(Mentioner(text), entities)| == EntityHits(text, entities)
  {
    if entities != [] {
      MentionedSize(text, entities[..|entities| - 1]);
      IndicesByStep(Mentioner(text), entities);
    }
  }

  lemma PlaceCounts(text: string, factors: seq<Factor>, entities: seq<Entity>)
    ensures |KeywordPlaces(factors)| == KeywordTotal(factors)
    ensures |FoundPlaces(text, factors)| == FactorHits(text, factors)
    ensures |FoundEntities(text, entities)| == EntityHits(text, entities)
  {
    AnyPlacesSize(factors);
    FoundBySize(text, factors);
    MentionedSize(text, entities);
    assert KeywordPlaces(factors) == PlacesBy(Anything(), factors);
    assert FoundPlaces(text, factors) == PlacesBy(Finder(text), factors);
    assert FoundEntities(text, entities) == IndicesBy(Mentioner(text), entities);
  }

  // ----- The score

  /** `share` is `part` of `whole`, or zero where there is nothing to find. */
  predicate IsShare(share: real, part: nat, whole: nat) {
    if whole == 0 then share == 0.0 else share * whole as real == part as real
  }

  lemma RatioIsShare(part: nat, whole: nat)
    ensures IsShare(Ratio(part, whole), part, whole)
  {}

  /** The two components are the shares of keywords and of entities found in the lower-cased article. */
  lemma ScoreCounts(a: Article, factors: seq<Factor>, entities: seq<Entity>)
    ensures var b, text := RelevanceBreakdown(a, factors, entities), Lower(a.title + " " + a.summary + " " + a.body);
            && IsShare(b.factorScore, |FoundPlaces(text, factors)|, |KeywordPlaces(factors)|)
            && IsShare(b.entityScore, |FoundEntities(text, entities)|, |entities|)
  {
    var text := Lower(a.title + " " + a.summary + " " + a.body);
    ArticleTextIs(a);
    PlaceCounts(text, factors, entities);
    RatioIsShare(FactorHits(text, factors), KeywordTotal(factors));
    RatioIsShare(EntityHits(text, entities), |entities|);
  }

  lemma ArticleTextIs(a: Article)
    ensures ArticleText(a) == a.title + " " + a.summary + " " + a.body
  {
    var parts, rest := [a.title, a.summary, a.body], [a.summary, a.body];
    assert parts[1..] == rest && rest[1..] == [a.body];
    assert Join(rest, " ") == a.summary + " " + a.body;
    assert Join(parts, " ") == a.title + " " + Join(rest, " ");
    assert a.title + " " + (a.summary + " " + a.body) == a.title + " " + a.summary + " " + a.body;
  }

  /** Relevance moves by 0.65 for each unit of the keyword share and by 0.35 for each unit of the entity share. */
  lemma ScoreSlope(a: Article, factors: seq<Factor>, entities: seq<Entity>, b: Article, factors': seq<Factor>, entities': seq<Entity>)
    ensures var x, y := RelevanceBreakdown(a, factors, entities), RelevanceBreakdown(b, factors', entities');
            x.relevance - y.relevance == 0.65 * (x.factorScore - y.factorScore) + 0.35 * (x.entityScore - y.entityScore)
  {}

  lemma WholeShare(share: real, whole: nat)
    requires whole > 0 && IsShare(share, whole, whole)
    ensures share == 1.0
  {}

  lemma NoShare(share: real, whole: nat)
    requires IsShare(share, 0, whole)
    ensures share == 0.0
  {}

  /** All keywords and no entity score 0.65, all entities and no keyword 0.35, nothing at all 0. */
  lemma ScoreCorners(a: Article, factors: seq<Factor>, entities: seq<Entity>)
    ensures var b, text := RelevanceBreakdown(a, factors, entities), Lower(a.title + " " + a.summary + " " + a.body);
            var keywords, found, mentioned := KeywordPlaces(factors), FoundPlaces(text, factors), FoundEntities(text, entities);
            && (keywords != {} && found == keywords && mentioned == {} ==> b.relevance == 0.65)
            && (entities != [] && |mentioned| == |entities| && found == {} ==> b.relevance == 0.35)
            && (found == {} && mentioned == {} ==> b.relevance == 0.0)
  {
    var b, text := RelevanceBreakdown(a, factors, entities), Lower(a.title + " " + a.summary + " " + a.body);
    ScoreCounts(a, factors, entities);
    if FoundPlaces(text, factors) == {} { NoShare(b.factorScore, |KeywordPlaces(factors)|); }
    if FoundEntities(text, entities) == {} { NoShare(b.entityScore, |entities|); }
    if KeywordPlaces(factors) != {} && FoundPlaces(text, factors) == KeywordPlaces(factors) {
      WholeShare(b.factorScore, |KeywordPlaces(factors)|);
    }
    if entities != [] && |FoundEntities(text, entities)| == |entities| { WholeShare(b.entityScore, |entities|); }
  }
}
