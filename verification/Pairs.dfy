/**
  The parent/child pairs of an event in impact mode (internal/engine/impact_rows.go).
 */
module Pairs {
  import opened Text
  import opened Sorting
  import opened Providers
  import opened Selection
  import opened Enricher

  /** The order of both sorts: by upper-cased symbol. */
  predicate BySymbol(a: EntityMatch, b: EntityMatch) {
    StrLess(Upper(a.symbol), Upper(b.symbol))
  }

  lemma MatchOrder()
    ensures StrictOrder(BySymbol)
  {
    forall a: EntityMatch ensures !BySymbol(a, a) { StrLessIrreflexive(Upper(a.symbol)); }
    forall a: EntityMatch, b: EntityMatch, c: EntityMatch | BySymbol(a, b) && BySymbol(b, c) ensures BySymbol(a, c) {
      StrLessTrans(Upper(a.symbol), Upper(b.symbol), Upper(c.symbol));
    }
  }

  lemma DistinctComparableMatches(a: EntityMatch, b: EntityMatch)
    requires Key(a.symbol) != Key(b.symbol)
    ensures BySymbol(a, b) || BySymbol(b, a)
  {
    KeyOfUpper(a.symbol);
    KeyOfUpper(b.symbol);
    StrLessTotal(Upper(a.symbol), Upper(b.symbol));
  }

  // ----- Splitting the matches

  predicate ParentMatch(impact: Impact, m: EntityMatch) {
    Key(m.symbol) != "" && Key(m.symbol) in impact.parents
  }

  predicate ChildMatch(impact: Impact, m: EntityMatch) {
    Key(m.symbol) != "" && Key(m.symbol) !in impact.parents && Key(m.symbol) in impact.children
  }

  function ParentsIn(impact: Impact, matches: seq<EntityMatch>, n: nat): seq<EntityMatch>
    requires n <= |matches|
  {
    if n == 0 then []
    else
      var before := ParentsIn(impact, matches, n - 1);
      if ParentMatch(impact, matches[n - 1]) then before + [matches[n - 1]] else before
  }

  type ChildMap = map<string, EntityMatch>

  function ChildrenBySymbol(impact: Impact, matches: seq<EntityMatch>, n: nat): ChildMap
    requires n <= |matches|
  {
    if n == 0 then map[]
    else
      var before, m := ChildrenBySymbol(impact, matches, n - 1), matches[n - 1];
      if ChildMatch(impact, m) then before[Key(m.symbol) := m] else before
  }

  ghost predicate FiledMatches(m: ChildMap) {
    forall k :: k in m ==> Key(m[k].symbol) == k
  }

  lemma {:induction false} ChildrenFiled(impact: Impact, matches: seq<EntityMatch>, n: nat)
    requires n <= |matches|
    ensures FiledMatches(ChildrenBySymbol(impact, matches, n))
  {
    if n > 0 { ChildrenFiled(impact, matches, n - 1); }
  }

  // ----- The children of one parent

  /** The matched ones of the allowed children, each once, in order. */
  ghost predicate ListsMatched(cs: seq<EntityMatch>, known: ChildMap, allowed: set<string>) {
    && Ascending(cs, BySymbol)
    && forall c :: c in cs <==> Key(c.symbol) in allowed && Key(c.symbol) in known && c == known[Key(c.symbol)]
  }

  lemma ListsMatchedUnique(a: seq<EntityMatch>, b: seq<EntityMatch>, known: ChildMap, allowed: set<string>)
    requires ListsMatched(a, known, allowed) && ListsMatched(b, known, allowed)
    ensures a == b
  {
    MatchOrder();
    ListingUnique(a, b, BySymbol);
  }

  /** Ranges over the allowed children in whatever order the map yields, then sorts. */
  method MatchedChildren(known: ChildMap, allowed: set<string>) returns (cs: seq<EntityMatch>)
    requires FiledMatches(known)
    ensures ListsMatched(cs, known, allowed)
  {
    cs := [];
    var rest := allowed;
    while rest != {}
      invariant rest <= allowed && Comparable(cs, BySymbol)
      invariant forall c :: c in cs <==> Key(c.symbol) in allowed - rest && Key(c.symbol) in known && c == known[Key(c.symbol)]
    {
      var key := NextKey(rest);
      rest := rest - {key};
      if key !in known {
        continue;
      }
      NewMatchComparable(cs, known[key]);
      ghost var before := cs;
      cs := cs + [known[key]];
      assert forall c :: c in cs <==> c in before || c == known[key];
    }
    MatchOrder();
    SortAscends(cs, BySymbol);
    cs := Sort(cs, BySymbol);
  }

  predicate KeyIsNew(cs: seq<EntityMatch>, m: EntityMatch) {
    forall c :: c in cs ==> Key(c.symbol) != Key(m.symbol)
  }

  lemma NewMatchComparable(cs: seq<EntityMatch>, m: EntityMatch)
    requires Comparable(cs, BySymbol) && KeyIsNew(cs, m)
    ensures Comparable(cs + [m], BySymbol)
  {
    forall i | 0 <= i < |cs| ensures BySymbol(cs[i], m) || BySymbol(m, cs[i]) {
      assert cs[i] in cs;
      DistinctComparableMatches(cs[i], m);
    }
  }

  lemma NewMatchFits(cs: seq<EntityMatch>, m: EntityMatch)
    requires KeyIsNew(cs, m)
    ensures forall c :: c in cs ==> BySymbol(m, c) || BySymbol(c, m)
  {
    forall c | c in cs ensures BySymbol(m, c) || BySymbol(c, m) {
      DistinctComparableMatches(m, c);
    }
  }

  /** The same listing as a function: it exists, whatever order it was found in. */
  ghost function ChildList(known: ChildMap, allowed: set<string>): (cs: seq<EntityMatch>)
    requires FiledMatches(known)
    ensures ListsMatched(cs, known, allowed)
    decreases allowed
  {
    if allowed == {} then []
    else
      var k :| k in allowed;
      var rest := ChildList(known, allowed - {k});
      if k in known then
        MatchOrder();
        NewMatchFits(rest, known[k]);
        InsertAscends(known[k], rest, BySymbol);
        Insert(known[k], rest, BySymbol)
      else rest
  }

  function AllowedChildren(impact: Impact, p: EntityMatch): set<string> {
    ChildrenIn(impact.byParent, Key(p.symbol))
  }

  function PairUp(p: EntityMatch, cs: seq<EntityMatch>, n: nat): seq<Pair>
    requires n <= |cs|
  {
    if n == 0 then [] else PairUp(p, cs, n - 1) + [Pair(p, Some(cs[n - 1]))]
  }

  function PairsFor(p: EntityMatch, cs: seq<EntityMatch>): seq<Pair> {
    if cs == [] then [Pair(p, None)] else PairUp(p, cs, |cs|)
  }

  // ----- All pairs

  /** What each of the first `n` parents contributes, one after the other. */
  ghost function PairsOver(parents: seq<EntityMatch>, own: EntityMatch -> seq<Pair>, n: nat): seq<Pair>
    requires n <= |parents|
  {
    if n == 0 then [] else PairsOver(parents, own, n - 1) + own(parents[n - 1])
  }

  ghost function OwnPairs(impact: Impact, known: ChildMap): EntityMatch -> seq<Pair>
    requires FiledMatches(known)
  {
    (p: EntityMatch) =>
      if FiledMatches(known) then PairsFor(p, ChildList(known, AllowedChildren(impact, p))) else []
  }

  ghost function SortedParents(impact: Impact, matches: seq<EntityMatch>): seq<EntityMatch> {
    Sort(ParentsIn(impact, matches, |matches|), BySymbol)
  }

  ghost function PairsOf(impact: Impact, matches: seq<EntityMatch>): seq<Pair> {
    ChildrenFiled(impact, matches, |matches|);
    var parents := SortedParents(impact, matches);
    PairsOver(parents, OwnPairs(impact, ChildrenBySymbol(impact, matches, |matches|)), |parents|)
  }

  method SplitMatches(impact: Impact, matches: seq<EntityMatch>) returns (parents: seq<EntityMatch>, children: ChildMap)
    ensures parents == ParentsIn(impact, matches, |matches|)
    ensures children == ChildrenBySymbol(impact, matches, |matches|)
  {
    parents, children := [], map[];
    for i := 0 to |matches|
      invariant parents == ParentsIn(impact, matches, i) && children == ChildrenBySymbol(impact, matches, i)
    {
      var symbol := Key(matches[i].symbol);
      if symbol == "" {
        continue;
      }
      if symbol in impact.parents {
        parents := parents + [matches[i]];
        continue;
      }
      if symbol in impact.children {
        children := children[symbol := matches[i]];
        continue;
      }
    }
  }

  method PairSpecs(impact: Impact, matches: seq<EntityMatch>) returns (pairs: seq<Pair>)
    ensures pairs == PairsOf(impact, matches)
  {
    var parents, known := SplitMatches(impact, matches);
    ChildrenFiled(impact, matches, |matches|);
    parents := Sort(parents, BySymbol);
    ghost var ownPairs := OwnPairs(impact, known);
    pairs := [];
    for i := 0 to |parents|
      invariant pairs == PairsOver(parents, ownPairs, i)
    {
      var own := PairsOfParent(impact, known, parents[i]);
      pairs := pairs + own;
    }
  }

  method PairsOfParent(impact: Impact, known: ChildMap, parent: EntityMatch) returns (pairs: seq<Pair>)
    requires FiledMatches(known)
    ensures pairs == PairsFor(parent, ChildList(known, AllowedChildren(impact, parent)))
  {
    var allowed := AllowedChildren(impact, parent);
    if allowed == {} {
      assert ChildList(known, allowed) == [];
      return [Pair(parent, None)];
    }
    var matched := MatchedChildren(known, allowed);
    ListsMatchedUnique(matched, ChildList(known, allowed), known, allowed);
    if matched == [] {
      return [Pair(parent, None)];
    }
    pairs := [];
    for j := 0 to |matched|
      invariant pairs == PairUp(parent, matched, j)
    {
      pairs := pairs + [Pair(parent, Some(matched[j]))];
    }
  }
}
