/**
  Configurations in which what a run reports need not be what it is charged: one for ordinary mode and
  one for impact mode, each with the exact condition proved elsewhere.
 */
module Misreports {
  import opened Text
  import opened Entities
  import opened Matcher
  import opened Relevance
  import opened Providers
  import opened Ledger
  import opened Router
  import opened Selection
  import opened SelectionLaws
  import opened Enricher
  import opened Pairs
  import opened Service
  import opened Exactness
  import opened OrdinaryLaws
  import opened UnmatchedLaws

  // ----- The router and the article

  /** One provider without budgets, and a chain of just that one. */
  function OneClient(key: string): Registry {
    Registry(Settings([], [key], 1, 60, 0, 0, 0.0, 0.0), map[key := Client("client", "model")],
             (k: string, input: int, output: int) => 0.0)
  }

  lemma OneClientCanCharge(key: string)
    ensures CanCharge(OneClient(key), Start)
  {
    assert key in OneClient(key).settings.fallbackChain;
    assert Triable(OneClient(key), key);
  }

  function Headline(title: string): Article {
    Article("a1", "", title, "", "", "", 0)
  }

  /** Every article of the band from 0 to 1 is refined, and none is dropped. */
  const OPEN := Profile(0.0, 1.0, 0.0)

  function ScopeOver(universe: seq<Entity>, entities: seq<Entity>, impact: Impact): Scope {
    Scope(RunConfig(universe, [], [], [], OPEN), universe, entities, impact)
  }

  /** Without factors no article scores 1, so the router is always asked. */
  lemma AlwaysAsked(universe: seq<Entity>, entities: seq<Entity>, impact: Impact, a: Article)
    ensures Asked(ScopeOver(universe, entities, impact), a)
  {
    ScoreRange(a, [], entities);
    assert KeywordTotal([]) == 0;
  }

  // ----- Tokens

  lemma WordIsToken(w: string)
    requires w != "" && forall i :: 0 <= i < |w| ==> IsWord(w[i])
    ensures Words(w) == [w]
  {
    assert RunLength(w, IsWord) == |w|;
    assert IsWord(w[0]) && w[..|w|] == w && w[|w|..] == [];
    assert Runs(w, IsWord) == [w[..|w|]] + Runs(w[|w|..], IsWord);
  }

  lemma HeadlineTokens(title: string)
    ensures Tokens(Lower(ArticleText(Headline(title)))) == Tokens(title)
  {
    var text, lower := ArticleText(Headline(title)), Lower(title);
    HeadlineText(title);
    LowerIdempotent(text);
    assert Lower(text) == [] + (lower + "  ");
    SpacesAddNoTokens([], lower, "  ");
  }

  lemma HeadlineText(title: string)
    ensures ArticleText(Headline(title)) == title + "  "
  {
    assert Join(["", ""], " ") == " ";
    assert [title, "", ""][1..] == ["", ""];
  }

  lemma TitleIsMentioned(title: string)
    requires Tokens(title) != []
    ensures Mentions(Lower(ArticleText(Headline(title))), title)
  {
    var ts := Tokens(title);
    HeadlineTokens(title);
    assert SublistAt(ts, ts, 0);
  }

  lemma OtherWordIsNotMentioned(title: string, term: string)
    requires |Tokens(title)| == |Tokens(term)| == 1 && Tokens(title) != Tokens(term)
    ensures !Mentions(Lower(ArticleText(Headline(title))), term)
  {
    HeadlineTokens(title);
    forall i: nat | i <= 1 ensures !SublistAt(Tokens(title), Tokens(term), i) {
      if i == 0 { assert Tokens(title)[0..1] == Tokens(title); }
    }
  }

  lemma TheTokens()
    ensures Tokens("Acme") == ["acme"] && Tokens("Other") == ["other"] && Tokens("OTHER") == ["other"]
  {
    assert Lower("Acme") == "acme" && Lower("Other") == "other" && Lower("OTHER") == "other";
    WordIsToken("acme");
    WordIsToken("other");
  }

  function Listed(id: string, symbol: string, name: string, aliases: seq<string>): Entity {
    Entity(id, symbol, name, aliases, "NSE", "IT", "", EQUITY, true)
  }

  lemma NamedIsHit(title: string, e: Entity, term: string)
    requires e.enabled && Tokens(title) != [] && title == term && term in [e.name, e.symbol] + e.aliases
    ensures MatchEntity(Lower(ArticleText(Headline(title))), e).Hit?
  {
    TitleIsMentioned(title);
    MatchEntityMeaning(Lower(ArticleText(Headline(title))), e);
  }

  // ----- Ordinary mode

  lemma BothMatched(first: Entity, second: Entity, title: string)
    requires first.id != second.id
    requires var text := Lower(ArticleText(Headline(title))); MatchEntity(text, first).Hit? && MatchEntity(text, second).Hit?
    ensures |MatchesOf(Headline(title), [first, second])| >= 2
  {
    var text, universe := Lower(ArticleText(Headline(title))), [first, second];
    HitIsMatched(text, universe, 2, 0);
    HitIsMatched(text, universe, 2, 1);
    var matches := Matches(text, universe, 2);
    var i :| 0 <= i < |matches| && matches[i].entityID == first.id;
    var j :| 0 <= j < |matches| && matches[j].entityID == second.id;
    assert i != j;
  }

  /** Two listings of one company, and an article that names it: some answers are reported twice. */
  lemma OrdinaryOvercounts() returns (r: Registry, s: Scope, a: Article)
    ensures !s.impact.enabled && Risky(s, a) && CanCharge(r, Start)
    ensures forall order: Order :: !AlwaysExact(r, order, s, Start, 0, [a])
  {
    var first, second := Listed("1", "ACME", "Acme", []), Listed("2", "ACMEDVR", "Acme DVR", ["Acme"]);
    r, s, a := OneClient("client:model"), ScopeOver([first, second], [first, second], NO_IMPACT), Headline("Acme");
    TheTokens();
    assert [first.name, first.symbol][0] == "Acme" && ([second.name, second.symbol] + second.aliases)[2] == "Acme";
    NamedIsHit("Acme", first, "Acme");
    NamedIsHit("Acme", second, "Acme");
    BothMatched(first, second, "Acme");
    AlwaysAsked([first, second], [first, second], NO_IMPACT, a);
    OneClientCanCharge("client:model");
    assert [a][0] == a;
    forall order: Order ensures !AlwaysExact(r, order, s, Start, 0, [a]) {
      OrdinaryExactIff(r, order, s, Start, 0, [a]);
    }
  }

  // ----- Impact mode

  lemma UnnamedIsNotHit(title: string, e: Entity)
    requires e.aliases == [] && |Tokens(title)| == |Tokens(e.name)| == |Tokens(e.symbol)| == 1
    requires Tokens(e.name) != Tokens(title) && Tokens(e.symbol) != Tokens(title)
    ensures MatchEntity(Lower(ArticleText(Headline(title))), e).Miss?
  {
    OtherWordIsNotMentioned(title, e.name);
    OtherWordIsNotMentioned(title, e.symbol);
    MatchEntityMeaning(Lower(ArticleText(Headline(title))), e);
  }

  lemma NoParentMatched(impact: Impact, company: Entity, parent: Entity, a: Article)
    requires MatchEntity(Lower(ArticleText(a)), parent).Miss? && Key(company.symbol) !in impact.parents
    ensures forall i :: 0 <= i < |MatchesOf(a, [company, parent])| ==> !ParentMatch(impact, MatchesOf(a, [company, parent])[i])
  {
    var text, matches := Lower(ArticleText(a)), MatchesOf(a, [company, parent]);
    forall i | 0 <= i < |matches| ensures !ParentMatch(impact, matches[i]) {
      var j := MatchOrigin(text, [company, parent], 2, i);
      assert j == 0;
    }
  }

  /** A run about one parent, and an article that names another company: some answers are never reported. */
  lemma ImpactFallsShort() returns (r: Registry, s: Scope, a: Article)
    ensures s.impact.enabled && Orphan(s, a) && CanCharge(r, Start)
    ensures forall order: Order :: !AlwaysExact(r, order, s, Start, 0, [a])
  {
    var company, parent := Listed("1", "ACME", "Acme", []), Listed("2", "OTHER", "Other", []);
    var groups, impact := [EntityGroup("nifty-it-impact", "OTHER", [])], ImpactOf([EntityGroup("nifty-it-impact", "OTHER", [])], [parent]);
    r, s, a := OneClient("client:model"), ScopeOver([company, parent], [parent], impact), Headline("Acme");
    SoleParent(groups, parent);
    TheTokens();
    UnnamedIsNotHit("Acme", parent);
    NoParentMatched(impact, company, parent, a);
    AlwaysAsked([company, parent], [parent], impact, a);
    OneClientCanCharge("client:model");
    assert [a][0] == a;
    forall order: Order ensures !AlwaysExact(r, order, s, Start, 0, [a]) {
      ImpactExactIff(r, order, s, Start, 0, [a]);
    }
  }

  lemma SoleParent(groups: seq<EntityGroup>, parent: Entity)
    requires groups == [EntityGroup("nifty-it-impact", "OTHER", [])] && parent.symbol == "OTHER"
    ensures var impact := ImpactOf(groups, [parent]); impact.enabled && Key("ACME") !in impact.parents
  {
    TrimOfTrimmed("OTHER");
    TrimOfTrimmed("ACME");
    assert Key("OTHER") == "OTHER" && Key("ACME") == "ACME";
    TrimOfTrimmed(GROUP_ID);
    assert Lower(GROUP_ID) == GROUP_ID;
    assert [parent][0] == parent && IsParentOf(groups[0], "OTHER");
    ImpactMeaning(groups, [parent], "OTHER");
    ImpactMeaning(groups, [parent], "ACME");
  }
}
