/**
  Which pairs an event gives rise to: exactly the declared ones, each once, in order.
 */
module PairLaws {
  import opened Text
  import opened Sorting
  import opened Providers
  import opened Selection
  import opened Enricher
  import opened Pairs

  /** The event matched `c` as a child the parent `p` declares. */
  predicate MatchedChildOf(impact: Impact, matches: seq<EntityMatch>, p: EntityMatch, c: EntityMatch) {
    c in matches && ChildMatch(impact, c) && Key(c.symbol) in AllowedChildren(impact, p)
  }

  /** What the pair says is so: a matched parent with a matched child it declares, or with none. */
  ghost predicate DuePair(impact: Impact, matches: seq<EntityMatch>, pair: Pair) {
    && pair.parent in matches && ParentMatch(impact, pair.parent)
    && match pair.child
       case Some(c) => MatchedChildOf(impact, matches, pair.parent, c)
       case None => forall c :: !MatchedChildOf(impact, matches, pair.parent, c)
  }

  /** By parent, then by child. */
  predicate PairLess(a: Pair, b: Pair) {
    || BySymbol(a.parent, b.parent)
    || (a.parent == b.parent && a.child.Some? && b.child.Some? && BySymbol(a.child.value, b.child.value))
  }

  // ----- Splitting keeps every match

  lemma {:induction false} ParentsInMembers(impact: Impact, matches: seq<EntityMatch>, n: nat, m: EntityMatch)
    requires n <= |matches|
    ensures m in ParentsIn(impact, matches, n) <==> m in matches[..n] && ParentMatch(impact, m)
  {
    if n > 0 {
      ParentsInMembers(impact, matches, n - 1, m);
      assert matches[..n] == matches[..n - 1] + [matches[n - 1]];
    }
  }

  lemma {:induction false} ChildOrigin(impact: Impact, matches: seq<EntityMatch>, n: nat, k: string) returns (i: nat)
    requires n <= |matches| && k in ChildrenBySymbol(impact, matches, n)
    ensures i < n && ChildrenBySymbol(impact, matches, n)[k] == matches[i]
    ensures ChildMatch(impact, matches[i]) && Key(matches[i].symbol) == k
  {
    var m := matches[n - 1];
    if ChildMatch(impact, m) && Key(m.symbol) == k { i := n - 1; } else { i := ChildOrigin(impact, matches, n - 1, k); }
  }

  lemma {:induction false} ChildKept(impact: Impact, matches: seq<EntityMatch>, n: nat, i: nat)
    requires i < n <= |matches| && ChildMatch(impact, matches[i])
    ensures Key(matches[i].symbol) in ChildrenBySymbol(impact, matches, n)
  {
    if i < n - 1 { ChildKept(impact, matches, n - 1, i); }
  }

  lemma SameSymbolSameMatch(matches: seq<EntityMatch>, i: nat, j: nat)
    requires DistinctMatches(matches) && i < |matches| && j < |matches|
    requires Key(matches[i].symbol) == Key(matches[j].symbol) != ""
    ensures i == j
  {}

  lemma ChildKnown(impact: Impact, matches: seq<EntityMatch>, i: nat)
    requires DistinctMatches(matches) && i < |matches| && ChildMatch(impact, matches[i])
    ensures var known, k := ChildrenBySymbol(impact, matches, |matches|), Key(matches[i].symbol);
            k in known && known[k] == matches[i]
  {
    ChildKept(impact, matches, |matches|, i);
    var j := ChildOrigin(impact, matches, |matches|, Key(matches[i].symbol));
    SameSymbolSameMatch(matches, i, j);
  }

  /** With distinct symbols the map holds exactly the matched children. */
  lemma KnownChildren(impact: Impact, matches: seq<EntityMatch>, c: EntityMatch)
    requires DistinctMatches(matches)
    ensures var known := ChildrenBySymbol(impact, matches, |matches|);
            (Key(c.symbol) in known && known[Key(c.symbol)] == c) <==> c in matches && ChildMatch(impact, c)
  {
    var known := ChildrenBySymbol(impact, matches, |matches|);
    if c in matches && ChildMatch(impact, c) {
      var i :| 0 <= i < |matches| && matches[i] == c;
      ChildKnown(impact, matches, i);
    }
    if Key(c.symbol) in known && known[Key(c.symbol)] == c {
      var j := ChildOrigin(impact, matches, |matches|, Key(c.symbol));
    }
  }

  lemma {:induction false} ParentOrigin(impact: Impact, matches: seq<EntityMatch>, n: nat, m: EntityMatch) returns (i: nat)
    requires n <= |matches| && m in ParentsIn(impact, matches, n)
    ensures i < n && matches[i] == m && ParentMatch(impact, m)
  {
    if m in ParentsIn(impact, matches, n - 1) { i := ParentOrigin(impact, matches, n - 1, m); } else { i := n - 1; }
  }

  lemma EarlierParentsDiffer(impact: Impact, matches: seq<EntityMatch>, n: nat)
    requires n < |matches| && DistinctMatches(matches) && ParentMatch(impact, matches[n])
    ensures KeyIsNew(ParentsIn(impact, matches, n), matches[n])
  {
    forall c | c in ParentsIn(impact, matches, n) ensures Key(c.symbol) != Key(matches[n].symbol) {
      var i := ParentOrigin(impact, matches, n, c);
    }
  }

  lemma {:induction false} ParentsInDistinct(impact: Impact, matches: seq<EntityMatch>, n: nat)
    requires n <= |matches| && DistinctMatches(matches)
    ensures Comparable(ParentsIn(impact, matches, n), BySymbol)
  {
    if n > 0 {
      ParentsInDistinct(impact, matches, n - 1);
      if ParentMatch(impact, matches[n - 1]) {
        EarlierParentsDiffer(impact, matches, n - 1);
        NewMatchComparable(ParentsIn(impact, matches, n - 1), matches[n - 1]);
      }
    }
  }

  lemma SortedParentsFacts(impact: Impact, matches: seq<EntityMatch>)
    requires DistinctMatches(matches)
    ensures Ascending(SortedParents(impact, matches), BySymbol)
    ensures forall m :: m in SortedParents(impact, matches) <==> m in matches && ParentMatch(impact, m)
  {
    var ps := ParentsIn(impact, matches, |matches|);
    ParentsInDistinct(impact, matches, |matches|);
    MatchOrder();
    SortAscends(ps, BySymbol);
    assert matches[..|matches|] == matches;
    forall m ensures m in ps <==> m in matches && ParentMatch(impact, m) {
      ParentsInMembers(impact, matches, |matches|, m);
    }
  }

  // ----- The pairs of one parent

  lemma {:induction false} PairUpAt(p: EntityMatch, cs: seq<EntityMatch>, n: nat)
    requires n <= |cs|
    ensures |PairUp(p, cs, n)| == n
    ensures forall i :: 0 <= i < n ==> PairUp(p, cs, n)[i] == Pair(p, Some(cs[i]))
  {
    if n > 0 { PairUpAt(p, cs, n - 1); }
  }

  lemma PairsForFacts(p: EntityMatch, cs: seq<EntityMatch>)
    requires Ascending(cs, BySymbol)
    ensures PairsFor(p, cs) != [] && Ascending(PairsFor(p, cs), PairLess)
    ensures forall pair :: pair in PairsFor(p, cs) ==> pair.parent == p
    ensures forall child :: Pair(p, child) in PairsFor(p, cs) <==>
              if child.Some? then child.value in cs else cs == []
  {
    if cs != [] {
      var pairs := PairUp(p, cs, |cs|);
      PairUpAt(p, cs, |cs|);
      forall child: Option<EntityMatch> ensures Pair(p, child) in pairs <==> child.Some? && child.value in cs {
        if child.Some? && child.value in cs {
          var i :| 0 <= i < |cs| && cs[i] == child.value;
          assert pairs[i] == Pair(p, child);
        }
      }
    }
  }

  lemma DueForParent(impact: Impact, matches: seq<EntityMatch>, p: EntityMatch, pair: Pair)
    requires DistinctMatches(matches) && FiledMatches(ChildrenBySymbol(impact, matches, |matches|))
    requires p in matches && ParentMatch(impact, p)
    ensures var cs := ChildList(ChildrenBySymbol(impact, matches, |matches|), AllowedChildren(impact, p));
            pair in PairsFor(p, cs) <==> pair.parent == p && DuePair(impact, matches, pair)
  {
    var known := ChildrenBySymbol(impact, matches, |matches|);
    var cs := ChildList(known, AllowedChildren(impact, p));
    PairsForFacts(p, cs);
    forall c ensures c in cs <==> MatchedChildOf(impact, matches, p, c) {
      KnownChildren(impact, matches, c);
    }
    if pair.parent == p { assert pair == Pair(p, pair.child); }
    assert cs == [] <==> forall c :: !MatchedChildOf(impact, matches, p, c) by {
      if cs != [] { assert cs[0] in cs; }
    }
  }

  // ----- All pairs

  lemma PairOrder()
    ensures StrictOrder(PairLess)
  {
    MatchOrder();
  }

  lemma {:induction false} PairOrigin(parents: seq<EntityMatch>, own: EntityMatch -> seq<Pair>, n: nat, pair: Pair) returns (i: nat)
    requires n <= |parents| && pair in PairsOver(parents, own, n)
    ensures i < n && pair in own(parents[i])
  {
    if pair in own(parents[n - 1]) { i := n - 1; } else { i := PairOrigin(parents, own, n - 1, pair); }
  }

  lemma {:induction false} PairKept(parents: seq<EntityMatch>, own: EntityMatch -> seq<Pair>, n: nat, pair: Pair, i: nat)
    requires i < n <= |parents| && pair in own(parents[i])
    ensures pair in PairsOver(parents, own, n)
  {
    if i < n - 1 { PairKept(parents, own, n - 1, pair, i); }
  }

  /** Every parent's own pairs are about it and in order. */
  ghost predicate OwnInOrder(own: EntityMatch -> seq<Pair>) {
    forall p :: Ascending(own(p), PairLess) && forall pair :: pair in own(p) ==> pair.parent == p
  }

  lemma OwnPairsInOrder(impact: Impact, known: ChildMap)
    requires FiledMatches(known)
    ensures OwnInOrder(OwnPairs(impact, known))
    ensures forall p :: OwnPairs(impact, known)(p) != []
  {
    forall p
      ensures Ascending(OwnPairs(impact, known)(p), PairLess) && OwnPairs(impact, known)(p) != []
      ensures forall pair :: pair in OwnPairs(impact, known)(p) ==> pair.parent == p
    {
      PairsForFacts(p, ChildList(known, AllowedChildren(impact, p)));
    }
  }

  lemma {:induction false} PairsOverAscend(parents: seq<EntityMatch>, own: EntityMatch -> seq<Pair>, n: nat)
    requires n <= |parents| && Ascending(parents, BySymbol) && OwnInOrder(own)
    ensures Ascending(PairsOver(parents, own, n), PairLess)
  {
    if n > 0 {
      PairsOverAscend(parents, own, n - 1);
      var before := PairsOver(parents, own, n - 1);
      forall a, b | a in before && b in own(parents[n - 1]) ensures PairLess(a, b) {
        var i := PairOrigin(parents, own, n - 1, a);
      }
      AscendingConcat(before, own(parents[n - 1]), PairLess);
    }
  }

  lemma AscendingConcat<T(!new)>(a: seq<T>, b: seq<T>, less: (T, T) -> bool)
    requires Ascending(a, less) && Ascending(b, less)
    requires forall x, y :: x in a && y in b ==> less(x, y)
    ensures Ascending(a + b, less)
  {
    forall i, j | 0 <= i < j < |a + b| ensures less((a + b)[i], (a + b)[j]) {
      if i < |a| <= j { assert a[i] in a && b[j - |a|] in b; }
    }
  }

  lemma PairIsDue(impact: Impact, matches: seq<EntityMatch>, pair: Pair)
    requires DistinctMatches(matches)
    ensures pair in PairsOf(impact, matches) <==> DuePair(impact, matches, pair)
  {
    var known, parents := ChildrenBySymbol(impact, matches, |matches|), SortedParents(impact, matches);
    ChildrenFiled(impact, matches, |matches|);
    SortedParentsFacts(impact, matches);
    var own := OwnPairs(impact, known);
    if pair in PairsOf(impact, matches) {
      var i := PairOrigin(parents, own, |parents|, pair);
      assert parents[i] in parents;
      DueForParent(impact, matches, parents[i], pair);
    }
    if DuePair(impact, matches, pair) {
      var i :| 0 <= i < |parents| && parents[i] == pair.parent;
      DueForParent(impact, matches, parents[i], pair);
      PairKept(parents, own, |parents|, pair, i);
    }
  }

  /** There are no pairs exactly when no parent was matched, distinct symbols or not. */
  lemma NoPairsIff(impact: Impact, matches: seq<EntityMatch>)
    ensures PairsOf(impact, matches) == [] <==> forall m :: m in matches ==> !ParentMatch(impact, m)
  {
    var known, parents := ChildrenBySymbol(impact, matches, |matches|), SortedParents(impact, matches);
    ChildrenFiled(impact, matches, |matches|);
    OwnPairsInOrder(impact, known);
    assert matches[..|matches|] == matches;
    forall m ensures m in parents <==> m in matches && ParentMatch(impact, m) {
      ParentsInMembers(impact, matches, |matches|, m);
    }
    assert parents != [] ==> parents[0] in parents;
  }

  /**
    The pairs of an event are exactly the due ones, each once, ordered by parent and then child; there
    are none exactly when no parent was matched.
   */
  lemma ExactPairs(impact: Impact, matches: seq<EntityMatch>)
    requires DistinctMatches(matches)
    ensures Ascending(PairsOf(impact, matches), PairLess)
    ensures forall i, j :: 0 <= i < j < |PairsOf(impact, matches)| ==> PairsOf(impact, matches)[i] != PairsOf(impact, matches)[j]
    ensures forall pair :: pair in PairsOf(impact, matches) <==> DuePair(impact, matches, pair)
    ensures PairsOf(impact, matches) == [] <==> forall m :: m in matches ==> !ParentMatch(impact, m)
  {
    var known, parents := ChildrenBySymbol(impact, matches, |matches|), SortedParents(impact, matches);
    ChildrenFiled(impact, matches, |matches|);
    SortedParentsFacts(impact, matches);
    OwnPairsInOrder(impact, known);
    PairsOverAscend(parents, OwnPairs(impact, known), |parents|);
    PairOrder();
    AscendingOnce(PairsOf(impact, matches), PairLess);
    forall pair ensures pair in PairsOf(impact, matches) <==> DuePair(impact, matches, pair) {
      PairIsDue(impact, matches, pair);
    }
    NoPairsIff(impact, matches);
  }
}
