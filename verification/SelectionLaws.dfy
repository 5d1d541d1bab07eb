/**
  Entity selection is all-or-nothing, complete for the impact group of a validated configuration, and
  independent of map iteration order.
 */
module SelectionLaws {
  import opened Text
  import opened Entities
  import opened EntityMap
  import opened Aliases
  import opened Config
  import opened Selection
  import opened Requests

  // ----- What a requested item resolves to

  /** The entity goes by this key: it is its symbol, its name or an alias. */
  predicate GoesBy(e: Entity, k: string) {
    k != "" && HasKey(Names(e), k)
  }

  lemma {:induction false} FileUnderHit(m: Universe, names: seq<string>, n: nat, e: Entity, j: nat)
    requires j < n <= |names| && Key(names[j]) != ""
    ensures var k := Key(names[j]); k in FileUnder(m, names, n, e) && FileUnder(m, names, n, e)[k] == e
  {
    if j < n - 1 { FileUnderHit(m, names, n - 1, e, j); }
  }

  /** A key the entity does not go by is left as it was. */
  lemma {:induction false} FileUnderMiss(m: Universe, names: seq<string>, n: nat, e: Entity, k: string)
    requires n <= |names| && !(k != "" && HasKey(names, k))
    ensures k in FileUnder(m, names, n, e) <==> k in m
    ensures k in m ==> FileUnder(m, names, n, e)[k] == m[k]
  {
    if n > 0 {
      FileUnderMiss(m, names, n - 1, e, k);
      assert Key(names[n - 1]) == k ==> HasKey(names, k);
    }
  }

  /** Filing `e` puts it under the key if it goes by it, and leaves the key alone otherwise. */
  ghost predicate Effect(m: Universe, m': Universe, e: Entity, goes: bool, k: string) {
    && (goes ==> k in m' && m'[k] == e)
    && (!goes ==> (k in m' <==> k in m) && (k in m ==> m'[k] == m[k]))
  }

  lemma FilingEffect(m: Universe, e: Entity, k: string)
    ensures Effect(m, FileEntity(m, e), e, GoesBy(e, k), k)
  {
    var names := Names(e);
    if GoesBy(e, k) {
      var j :| 0 <= j < |names| && Key(names[j]) == k;
      FileUnderHit(m, names, |names|, e, j);
    } else {
      FileUnderMiss(m, names, |names|, e, k);
    }
  }

  type Filing = (Universe, Entity) -> Universe

  ghost predicate Files(file: Filing, goes: Entity -> bool, k: string) {
    forall m, e :: Effect(m, file(m, e), e, goes(e), k)
  }

  lemma {:induction false} LastFiled(file: Filing, goes: Entity -> bool, k: string, all: seq<Entity>, n: nat, i: nat)
    requires Files(file, goes, k) && i < n <= |all| && goes(all[i]) && forall j :: i < j < n ==> !goes(all[j])
    ensures k in FileAll(file, all, n) && FileAll(file, all, n)[k] == all[i]
  {
    assert Effect(FileAll(file, all, n - 1), FileAll(file, all, n), all[n - 1], goes(all[n - 1]), k);
    if i < n - 1 { LastFiled(file, goes, k, all, n - 1, i); }
  }

  lemma {:induction false} FiledSomewhere(file: Filing, goes: Entity -> bool, k: string, all: seq<Entity>, n: nat, i: nat)
    requires Files(file, goes, k) && i < n <= |all| && goes(all[i])
    ensures k in FileAll(file, all, n)
  {
    assert Effect(FileAll(file, all, n - 1), FileAll(file, all, n), all[n - 1], goes(all[n - 1]), k);
    if i < n - 1 { FiledSomewhere(file, goes, k, all, n - 1, i); }
  }

  /** A filed key holds the last entity that goes by it. */
  lemma {:induction false} OnlyFiled(file: Filing, goes: Entity -> bool, k: string, all: seq<Entity>, n: nat) returns (i: nat)
    requires Files(file, goes, k) && n <= |all| && k in FileAll(file, all, n)
    ensures i < n && goes(all[i]) && FileAll(file, all, n)[k] == all[i]
    ensures forall j :: i < j < n ==> !goes(all[j])
  {
    assert Effect(FileAll(file, all, n - 1), FileAll(file, all, n), all[n - 1], goes(all[n - 1]), k);
    if goes(all[n - 1]) { i := n - 1; } else { i := OnlyFiled(file, goes, k, all, n - 1); }
  }

  ghost function GoesByKey(k: string): Entity -> bool {
    (e: Entity) => GoesBy(e, k)
  }

  lemma EntitiesFile(k: string)
    ensures Files(FileEntity, GoesByKey(k), k)
  {
    forall m: Universe, e: Entity ensures Effect(m, FileEntity(m, e), e, GoesBy(e, k), k) {
      FilingEffect(m, e, k);
    }
  }

  /**
    A key resolves to the last entity, in universe order, that goes by it: an alias of a later entity
    wins even over the symbol of an earlier one.
   */
  lemma LookupTakesLast(all: seq<Entity>, k: string, i: nat)
    requires i < |all| && GoesBy(all[i], k) && forall j :: i < j < |all| ==> !GoesBy(all[j], k)
    ensures k in Lookup(all, |all|) && Lookup(all, |all|)[k] == all[i]
  {
    EntitiesFile(k);
    LastFiled(FileEntity, GoesByKey(k), k, all, |all|, i);
  }

  lemma LookupHolds(all: seq<Entity>, k: string) returns (i: nat)
    requires k in Lookup(all, |all|)
    ensures i < |all| && Lookup(all, |all|)[k] == all[i] && GoesBy(all[i], k)
    ensures forall j :: i < j < |all| ==> !GoesBy(all[j], k)
  {
    EntitiesFile(k);
    i := OnlyFiled(FileEntity, GoesByKey(k), k, all, |all|);
    assert forall j :: i < j < |all| ==> GoesByKey(k)(all[j]) == GoesBy(all[j], k);
  }

  /**
    Among entities with distinct symbols, a symbol resolves to its own entity exactly when no later
    entity goes by it.
   */
  lemma SymbolKeptIff(all: seq<Entity>, i: nat)
    requires DistinctSymbols(all) && i < |all| && Key(all[i].symbol) != ""
    ensures var k := Key(all[i].symbol);
            && k in Lookup(all, |all|)
            && (Lookup(all, |all|)[k] == all[i] <==> forall j :: i < j < |all| ==> !GoesBy(all[j], k))
  {
    var k := Key(all[i].symbol);
    assert Names(all[i])[0] == all[i].symbol;
    assert GoesBy(all[i], k);
    EntitiesFile(k);
    FiledSomewhere(FileEntity, GoesByKey(k), k, all, |all|, i);
    var j := LookupHolds(all, k);
    assert j >= i;
  }

  ghost predicate Resolves(all: seq<Entity>, item: string) {
    exists i :: 0 <= i < |all| && GoesBy(all[i], Key(item))
  }

  lemma ResolvesIff(all: seq<Entity>, item: string)
    ensures Key(item) in Lookup(all, |all|) <==> Resolves(all, item)
  {
    var k := Key(item);
    EntitiesFile(k);
    if k in Lookup(all, |all|) { var i := OnlyFiled(FileEntity, GoesByKey(k), k, all, |all|); }
    if Resolves(all, item) {
      var i :| 0 <= i < |all| && GoesBy(all[i], k);
      FiledSomewhere(FileEntity, GoesByKey(k), k, all, |all|, i);
    }
  }

  // ----- All or nothing

  /** The item says something, and nothing goes by it. */
  predicate Unknown(lookup: Universe, item: string) {
    !Blank(item) && Key(item) !in lookup
  }

  lemma {:induction false} MissingWitness(lookup: Universe, requested: seq<string>, n: nat) returns (i: nat)
    requires n <= |requested| && Missing(lookup, requested, n) != []
    ensures i < n && Unknown(lookup, requested[i])
  {
    if Unknown(lookup, requested[n - 1]) { i := n - 1; } else { i := MissingWitness(lookup, requested, n - 1); }
  }

  lemma {:induction false} MissingNoted(lookup: Universe, requested: seq<string>, n: nat, i: nat)
    requires i < n <= |requested| && Unknown(lookup, requested[i])
    ensures Missing(lookup, requested, n) != []
  {
    if i < n - 1 { MissingNoted(lookup, requested, n - 1, i); }
  }

  lemma {:induction false} SelectedWitness(lookup: Universe, requested: seq<string>, n: nat) returns (i: nat)
    requires n <= |requested| && Selected(lookup, requested, n) != []
    ensures i < n && !Blank(requested[i])
  {
    if Key(requested[n - 1]) != "" { i := n - 1; } else { i := SelectedWitness(lookup, requested, n - 1); }
  }

  lemma {:induction false} SelectedNoted(lookup: Universe, requested: seq<string>, n: nat, i: nat)
    requires i < n <= |requested| && !Blank(requested[i]) && Key(requested[i]) in lookup
    ensures Selected(lookup, requested, n) != []
  {
    if i < n - 1 {
      SelectedNoted(lookup, requested, n - 1, i);
    } else {
      var before := Selected(lookup, requested, n - 1);
      assert Chosen(before, EntityKey(lookup[Key(requested[i])])) ==> before != [];
    }
  }

  /**
    All or nothing: a non-empty request is refused exactly when some item that is not blank resolves to
    nothing, or every item is blank.
   */
  lemma RefusedIff(r: Choice, all: seq<Entity>, requested: seq<string>, groups: seq<EntityGroup>)
    requires IsSelection(r, all, requested, groups) && requested != []
    ensures r.Refused? <==>
              || (exists i :: 0 <= i < |requested| && !Blank(requested[i]) && !Resolves(all, requested[i]))
              || (forall i :: 0 <= i < |requested| ==> Blank(requested[i]))
  {
    var lookup := Lookup(all, |all|);
    var missing, selected := Missing(lookup, requested, |requested|), Selected(lookup, requested, |requested|);
    assert r.Refused? <==> missing != [] || selected == [];
    forall i | 0 <= i < |requested| ensures Unknown(lookup, requested[i]) <==> !Blank(requested[i]) && !Resolves(all, requested[i]) {
      ResolvesIff(all, requested[i]);
    }
    if missing != [] {
      var i := MissingWitness(lookup, requested, |requested|);
    } else {
      forall i | 0 <= i < |requested| ensures !Unknown(lookup, requested[i]) {
        if Unknown(lookup, requested[i]) { MissingNoted(lookup, requested, |requested|, i); }
      }
      if selected == [] {
        forall i | 0 <= i < |requested| ensures Blank(requested[i]) {
          if !Blank(requested[i]) { SelectedNoted(lookup, requested, |requested|, i); }
        }
      } else {
        var i := SelectedWitness(lookup, requested, |requested|);
      }
    }
  }

  /** The item is one a refusal names with these words. */
  ghost predicate Unresolved(all: seq<Entity>, item: string, m: string) {
    !Blank(item) && !Resolves(all, item) && Trim(item) == m
  }

  ghost predicate NamesUnresolved(all: seq<Entity>, requested: seq<string>, m: string) {
    exists i :: 0 <= i < |requested| && Unresolved(all, requested[i], m)
  }

  lemma MissingTurn(all: seq<Entity>, requested: seq<string>, n: nat, m: string)
    requires 0 < n <= |requested|
    ensures var lookup := Lookup(all, |all|);
            m in Missing(lookup, requested, n) <==> m in Missing(lookup, requested, n - 1) || Unresolved(all, requested[n - 1], m)
  {
    ResolvesIff(all, requested[n - 1]);
    BlankHasNoKey(requested[n - 1]);
  }

  /** A list that grows by `m` exactly at the hits. */
  lemma {:induction false} GatheredIff(lists: int -> seq<string>, hit: int -> bool, m: string, n: int)
    requires n >= 0 && m !in lists(0) && forall i :: 0 < i <= n ==> (m in lists(i) <==> m in lists(i - 1) || hit(i - 1))
    ensures m in lists(n) <==> exists i :: 0 <= i < n && hit(i)
  {
    if n > 0 { GatheredIff(lists, hit, m, n - 1); }
  }

  ghost function MissingLists(lookup: Universe, requested: seq<string>): int -> seq<string> {
    (i: int) => if 0 <= i <= |requested| then Missing(lookup, requested, i) else []
  }

  ghost function UnresolvedAt(all: seq<Entity>, requested: seq<string>, m: string): int -> bool {
    (i: int) => 0 <= i < |requested| && Unresolved(all, requested[i], m)
  }

  lemma UnresolvedAtIs(all: seq<Entity>, requested: seq<string>, n: nat, m: string)
    requires n <= |requested|
    ensures (exists i :: 0 <= i < n && UnresolvedAt(all, requested, m)(i)) <==> exists i :: 0 <= i < n && Unresolved(all, requested[i], m)
  {
    if i :| 0 <= i < n && Unresolved(all, requested[i], m) { assert UnresolvedAt(all, requested, m)(i); }
  }

  lemma MissingListsAt(lookup: Universe, requested: seq<string>, i: nat)
    requires i <= |requested|
    ensures MissingLists(lookup, requested)(i) == Missing(lookup, requested, i)
  {}

  lemma UnresolvedAtPlace(all: seq<Entity>, requested: seq<string>, m: string, i: nat)
    requires i < |requested|
    ensures UnresolvedAt(all, requested, m)(i) == Unresolved(all, requested[i], m)
  {}

  lemma MissingListsTurn(all: seq<Entity>, lookup: Universe, requested: seq<string>, i: nat, m: string)
    requires 0 < i <= |requested| && lookup == Lookup(all, |all|)
    ensures m in MissingLists(lookup, requested)(i) <==>
              m in MissingLists(lookup, requested)(i - 1) || UnresolvedAt(all, requested, m)(i - 1)
  {
    MissingListsAt(lookup, requested, i);
    MissingListsAt(lookup, requested, i - 1);
    UnresolvedAtPlace(all, requested, m, i - 1);
    MissingTurn(all, requested, i, m);
  }

  lemma MissingMeaning(all: seq<Entity>, requested: seq<string>, n: nat, m: string)
    requires n <= |requested|
    ensures m in Missing(Lookup(all, |all|), requested, n) <==> exists i :: 0 <= i < n && Unresolved(all, requested[i], m)
  {
    var lookup := Lookup(all, |all|);
    var lists, hit := MissingLists(lookup, requested), UnresolvedAt(all, requested, m);
    forall i | 0 < i <= n ensures m in lists(i) <==> m in lists(i - 1) || hit(i - 1) {
      MissingListsTurn(all, lookup, requested, i, m);
    }
    MissingListsAt(lookup, requested, n);
    GatheredIff(lists, hit, m, n);
    UnresolvedAtIs(all, requested, n, m);
  }

  lemma BlankHasNoKey(item: string)
    ensures Blank(item) <==> Key(item) == ""
  {}

  /** A refusal names exactly the items that resolve to nothing, or says that there are none to resolve. */
  lemma RefusalNames(r: Choice, all: seq<Entity>, requested: seq<string>, groups: seq<EntityGroup>, m: string)
    requires IsSelection(r, all, requested, groups) && r.Refused?
    ensures (exists i :: 0 <= i < |requested| && !Blank(requested[i])) ==> (m in r.missing <==> NamesUnresolved(all, requested, m))
    ensures (forall i :: 0 <= i < |requested| ==> Blank(requested[i])) ==> r.missing == ["no matching entities"]
  {
    var missing := Missing(Lookup(all, |all|), requested, |requested|);
    RefusedIff(r, all, requested, groups);
    MissingMeaning(all, requested, |requested|, m);
    if missing != [] { MissingMeaning(all, requested, |requested|, missing[0]); }
    if i :| 0 <= i < |requested| && !Blank(requested[i]) && !Resolves(all, requested[i]) {
      MissingMeaning(all, requested, |requested|, Trim(requested[i]));
      assert Unresolved(all, requested[i], Trim(requested[i]));
    }
    assert missing != [] ==> missing[0] in missing;
    assert r.missing == if missing != [] then missing else ["no matching entities"];
  }

  /** Without a request the run is about the whole universe; outside impact mode about the entities selected, in order. */
  lemma PlainSelection(r: Choice, all: seq<Entity>, requested: seq<string>, groups: seq<EntityGroup>, e: Entity)
    requires IsSelection(r, all, requested, groups) && r.Granted? && !r.impact.enabled
    ensures requested == [] ==> r.entities == all
    ensures requested != [] ==> var items := ItemsOf(Lookup(all, |all|), requested);
              e in r.entities <==> exists i: nat :: i < |requested| && FirstOfKey(items, EntityKey, i) && items(i).value == e
    ensures requested != [] ==> forall i, j :: 0 <= i < j < |r.entities| ==> EntityKey(r.entities[i]) != EntityKey(r.entities[j])
  {
    if requested != [] {
      SelectedMeaning(Lookup(all, |all|), requested, e);
      SelectedKeepsFirst(Lookup(all, |all|), requested, |requested|);
      KeptOnce(ItemsOf(Lookup(all, |all|), requested), EntityKey, |requested|);
    }
  }

  // ----- The impact group

  /** The request names this declared parent, and it is not shadowed. */
  ghost predicate NamesParent(all: seq<Entity>, requested: seq<string>, groups: seq<EntityGroup>, p: string) {
    && p != "" && DeclaresParent(groups, p)
    && Requested(ItemsOf(Lookup(all, |all|), requested), |requested|, p)
    && !Shadowed(ItemsOf(Lookup(all, |all|), requested), |requested|, p)
  }

  /** The group declares `c` as a child of `p`. */
  predicate GroupDeclares(g: EntityGroup, p: string, c: string) {
    InGroup(g) && Key(g.parentSymbol) == p && c != "" && HasKey(g.childSymbols, c)
  }

  predicate Declares(groups: seq<EntityGroup>, p: string, c: string) {
    exists g :: 0 <= g < |groups| && GroupDeclares(groups[g], p, c)
  }

  predicate IsParentOf(g: EntityGroup, p: string) {
    InGroup(g) && Key(g.parentSymbol) == p
  }

  predicate DeclaresParent(groups: seq<EntityGroup>, p: string) {
    exists g :: 0 <= g < |groups| && IsParentOf(groups[g], p)
  }

  lemma {:induction false} ChildKeysHit(symbols: seq<string>, n: nat, i: nat)
    requires i < n <= |symbols| && Key(symbols[i]) != ""
    ensures Key(symbols[i]) in ChildKeys(symbols, n)
  {
    if i < n - 1 { ChildKeysHit(symbols, n - 1, i); }
  }

  lemma {:induction false} ChildKeysKnown(symbols: seq<string>, n: nat, c: string) returns (i: nat)
    requires n <= |symbols| && c in ChildKeys(symbols, n)
    ensures i < n && Key(symbols[i]) == c && c != ""
  {
    if Key(symbols[n - 1]) == c && c != "" { i := n - 1; } else { i := ChildKeysKnown(symbols, n - 1, c); }
  }

  lemma GroupDeclaresIff(g: EntityGroup, p: string, c: string)
    ensures GroupDeclares(g, p, c) <==> IsParentOf(g, p) && c in ChildKeys(g.childSymbols, |g.childSymbols|)
  {
    if c in ChildKeys(g.childSymbols, |g.childSymbols|) {
      var i := ChildKeysKnown(g.childSymbols, |g.childSymbols|, c);
    }
    if c != "" && HasKey(g.childSymbols, c) {
      var i :| 0 <= i < |g.childSymbols| && Key(g.childSymbols[i]) == c;
      ChildKeysHit(g.childSymbols, |g.childSymbols|, i);
    }
  }

  lemma GroupStep(groups: seq<EntityGroup>, n: nat, p: string, c: string)
    requires 0 < n <= |groups|
    ensures var m, m' := GroupMap(groups, n - 1), GroupMap(groups, n);
            && (p in m' <==> p in m || IsParentOf(groups[n - 1], p))
            && (c in ChildrenIn(m', p) <==> c in ChildrenIn(m, p) || GroupDeclares(groups[n - 1], p, c))
  {
    GroupDeclaresIff(groups[n - 1], p, c);
  }

  lemma {:induction false} GroupMapHit(groups: seq<EntityGroup>, n: nat, p: string, c: string, g: nat)
    requires g < n <= |groups|
    ensures IsParentOf(groups[g], p) ==> p in GroupMap(groups, n)
    ensures GroupDeclares(groups[g], p, c) ==> c in ChildrenIn(GroupMap(groups, n), p)
  {
    GroupStep(groups, n, p, c);
    if g < n - 1 { GroupMapHit(groups, n - 1, p, c, g); }
  }

  lemma {:induction false} GroupMapParent(groups: seq<EntityGroup>, n: nat, p: string) returns (g: nat)
    requires n <= |groups| && p in GroupMap(groups, n)
    ensures g < n && IsParentOf(groups[g], p)
  {
    GroupStep(groups, n, p, p);
    if IsParentOf(groups[n - 1], p) { g := n - 1; } else { g := GroupMapParent(groups, n - 1, p); }
  }

  lemma {:induction false} GroupMapChild(groups: seq<EntityGroup>, n: nat, p: string, c: string) returns (g: nat)
    requires n <= |groups| && c in ChildrenIn(GroupMap(groups, n), p)
    ensures g < n && GroupDeclares(groups[g], p, c)
  {
    GroupStep(groups, n, p, c);
    if GroupDeclares(groups[n - 1], p, c) { g := n - 1; } else { g := GroupMapChild(groups, n - 1, p, c); }
  }

  lemma GroupMapMeaning(groups: seq<EntityGroup>, p: string, c: string)
    ensures p in GroupMap(groups, |groups|) <==> DeclaresParent(groups, p)
    ensures c in ChildrenIn(GroupMap(groups, |groups|), p) <==> Declares(groups, p, c)
  {
    var n := |groups|;
    if p in GroupMap(groups, n) { var g := GroupMapParent(groups, n, p); }
    if c in ChildrenIn(GroupMap(groups, n), p) { var g := GroupMapChild(groups, n, p, c); }
    if DeclaresParent(groups, p) {
      var g :| 0 <= g < |groups| && IsParentOf(groups[g], p);
      GroupMapHit(groups, n, p, c, g);
    }
    if Declares(groups, p, c) {
      var g :| 0 <= g < |groups| && GroupDeclares(groups[g], p, c);
      GroupMapHit(groups, n, p, c, g);
    }
  }

  lemma {:induction false} RequestedHit(gm: map<string, set<string>>, selected: seq<Entity>, n: nat, i: nat)
    requires i < n <= |selected|
    requires Key(selected[i].symbol) != "" && Key(selected[i].symbol) in gm
    ensures Key(selected[i].symbol) in RequestedParents(gm, selected, n)
  {
    if i < n - 1 { RequestedHit(gm, selected, n - 1, i); }
  }

  lemma {:induction false} RequestedKnown(gm: map<string, set<string>>, selected: seq<Entity>, n: nat, p: string) returns (i: nat)
    requires n <= |selected| && p in RequestedParents(gm, selected, n)
    ensures i < n && Key(selected[i].symbol) == p && p != "" && p in gm
  {
    var k := Key(selected[n - 1].symbol);
    if k == p && k != "" && k in gm { i := n - 1; } else { i := RequestedKnown(gm, selected, n - 1, p); }
  }

  lemma RequestedMeaning(gm: map<string, set<string>>, selected: seq<Entity>, p: string)
    ensures p in RequestedParents(gm, selected, |selected|) <==> p != "" && p in gm && HasSymbol(selected, p)
  {
    if p in RequestedParents(gm, selected, |selected|) { var i := RequestedKnown(gm, selected, |selected|, p); }
    if p != "" && p in gm && HasSymbol(selected, p) {
      var i :| 0 <= i < |selected| && Key(selected[i].symbol) == p;
      RequestedHit(gm, selected, |selected|, i);
    }
  }

  /** The parents of an impact run are the selected group parents, its children all they declare. */
  lemma ImpactMeaning(groups: seq<EntityGroup>, selected: seq<Entity>, k: string)
    ensures var impact := ImpactOf(groups, selected);
            && (k in impact.parents <==> k != "" && HasSymbol(selected, k) && DeclaresParent(groups, k))
            && (k in impact.children <==> exists p :: p in impact.parents && Declares(groups, p, k))
            && (impact.enabled <==> impact.parents != {})
  {
    var gm := GroupMap(groups, |groups|);
    GroupMapMeaning(groups, k, k);
    RequestedMeaning(gm, selected, k);
    forall p ensures k in ChildrenIn(gm, p) <==> Declares(groups, p, k) {
      GroupMapMeaning(groups, p, k);
    }
    var impact := ImpactFor(gm, RequestedParents(gm, selected, |selected|));
    assert k in impact.children <==> exists p :: p in impact.parents && k in ChildrenIn(gm, p);
  }

  /** The children an impact run allows a symbol are those its groups declare, if it is one of the parents. */
  lemma AllowedMeaning(groups: seq<EntityGroup>, selected: seq<Entity>, p: string, c: string)
    ensures var impact := ImpactOf(groups, selected);
            c in ChildrenIn(impact.byParent, p) <==> p in impact.parents && Declares(groups, p, c)
  {
    var gm := GroupMap(groups, |groups|);
    GroupMapMeaning(groups, p, c);
    RequestedMeaning(gm, selected, p);
    var impact := ImpactFor(gm, RequestedParents(gm, selected, |selected|));
    assert p in impact.parents && c in ChildrenIn(gm, p) ==> p in impact.byParent;
  }

  function SymbolKey(e: Entity): string {
    Key(e.symbol)
  }

  /** The selected entities that are parents, as items to keep the first of each symbol of. */
  function ParentItems(selected: seq<Entity>, parents: set<string>): Items {
    (i: int) => if 0 <= i < |selected| && Key(selected[i].symbol) in parents then Some(selected[i]) else None
  }

  /** The parents among the first `n` selected entities are the first ones of each symbol. */
  ghost predicate ParentsAreFirsts(selected: seq<Entity>, parents: set<string>, n: nat) {
    n <= |selected| && ParentsAmong(selected, parents, n) == KeepFirst(ParentItems(selected, parents), SymbolKey, n)
  }

  lemma ParentsTurn(selected: seq<Entity>, parents: set<string>, n: nat)
    requires 0 < n <= |selected|
    ensures ParentsAreFirsts(selected, parents, n - 1) ==> ParentsAreFirsts(selected, parents, n)
  {
    var e := selected[n - 1];
    assert ParentItems(selected, parents)(n - 1) == if Key(e.symbol) in parents then Some(e) else None;
    SymbolIsKey(ParentsAmong(selected, parents, n - 1), Key(e.symbol));
  }

  lemma {:induction false} ParentsKeepFirst(selected: seq<Entity>, parents: set<string>, n: nat)
    requires n <= |selected|
    ensures ParentsAreFirsts(selected, parents, n)
  {
    if n > 0 {
      ParentsKeepFirst(selected, parents, n - 1);
      ParentsTurn(selected, parents, n);
    }
  }

  lemma SymbolIsKey(es: seq<Entity>, k: string)
    ensures HasSymbol(es, k) <==> HasKeyed(es, SymbolKey, k)
  {}

  /** Listed are exactly the symbols of selected parents, each once. */
  lemma ParentsListed(selected: seq<Entity>, parents: set<string>, k: string)
    ensures HasSymbol(ParentsAmong(selected, parents, |selected|), k) <==> HasSymbol(selected, k) && k in parents
    ensures OncePerSymbol(ParentsAmong(selected, parents, |selected|))
  {
    var items, listed := ParentItems(selected, parents), ParentsAmong(selected, parents, |selected|);
    ParentsKeepFirst(selected, parents, |selected|);
    KeptOnce(items, SymbolKey, |selected|);
    SymbolIsKey(listed, k);
    if HasSymbol(listed, k) { var i := KeyOrigin(items, SymbolKey, |selected|, k); }
    if HasSymbol(selected, k) && k in parents {
      var i :| 0 <= i < |selected| && Key(selected[i].symbol) == k;
      KeyCovered(items, SymbolKey, |selected|, i);
    }
  }

  ghost predicate OncePerSymbol(es: seq<Entity>) {
    forall i, j :: 0 <= i < j < |es| ==> SymbolKey(es[i]) != SymbolKey(es[j])
  }

  /** In a validated configuration a declared parent has the parent role and a declared child the child role. */
  lemma DeclaredRoles(groups: seq<EntityGroup>, all: seq<Entity>, p: string, c: string)
    requires GroupsValid(groups, all)
    ensures DeclaresParent(groups, p) ==> p in LastByKey(all) && LastByKey(all)[p].role == PARENT
    ensures Declares(groups, p, c) ==> c in LastByKey(all) && LastByKey(all)[c].role == CHILD
  {
    var bySymbol := LastByKey(all);
    if Declares(groups, p, c) {
      var g :| 0 <= g < |groups| && GroupDeclares(groups[g], p, c);
      var i :| 0 <= i < |groups[g].childSymbols| && Key(groups[g].childSymbols[i]) == c;
      assert GroupValid(groups[g], bySymbol);
      assert RoleIn(bySymbol, groups[g].childSymbols[i], CHILD);
    }
    if DeclaresParent(groups, p) {
      var g :| 0 <= g < |groups| && IsParentOf(groups[g], p);
      assert GroupValid(groups[g], bySymbol);
    }
  }

  lemma HasSymbolConcat(a: seq<Entity>, b: seq<Entity>, k: string)
    ensures HasSymbol(a + b, k) <==> HasSymbol(a, k) || HasSymbol(b, k)
  {
    if HasSymbol(a + b, k) {
      var i :| 0 <= i < |a + b| && Key((a + b)[i].symbol) == k;
      if i < |a| { assert Key(a[i].symbol) == k; } else { assert Key(b[i - |a|].symbol) == k; }
    }
    if HasSymbol(a, k) {
      var i :| 0 <= i < |a| && Key(a[i].symbol) == k;
      assert Key((a + b)[i].symbol) == k;
    }
    if HasSymbol(b, k) {
      var i :| 0 <= i < |b| && Key(b[i].symbol) == k;
      assert Key((a + b)[|a| + i].symbol) == k;
    }
  }

  /** An impact selection as its two parts. */
  lemma SelectionParts(r: Choice, all: seq<Entity>, requested: seq<string>, groups: seq<EntityGroup>)
    returns (selected: seq<Entity>, parents: seq<Entity>, children: seq<Entity>)
    requires IsSelection(r, all, requested, groups) && r.Granted? && r.impact.enabled
    ensures selected == Selected(Lookup(all, |all|), requested, |requested|) && r.impact == ImpactOf(groups, selected)
    ensures parents == ParentsAmong(selected, r.impact.parents, |selected|)
    ensures ListsChildren(children, r.impact, LastByKey(all), parents) && r.entities == parents + children
  {
    selected := Selected(Lookup(all, |all|), requested, |requested|);
    parents := ParentsAmong(selected, r.impact.parents, |selected|);
    children := r.entities[|parents|..];
  }

  /** Which symbols an impact selection lists, before any check of the configuration. */
  lemma ListedSymbols(r: Choice, all: seq<Entity>, requested: seq<string>, groups: seq<EntityGroup>, k: string)
    requires IsSelection(r, all, requested, groups) && r.Granted? && r.impact.enabled
    ensures HasSymbol(r.entities, k) <==>
              k in r.impact.parents || (k in r.impact.children && k in LastByKey(all))
    ensures OncePerSymbol(r.entities)
    ensures k in r.impact.parents ==> DeclaresParent(groups, k)
    ensures k in r.impact.children <==> exists p :: p in r.impact.parents && Declares(groups, p, k)
  {
    var selected, parents, children := SelectionParts(r, all, requested, groups);
    var impact := r.impact;
    ImpactMeaning(groups, selected, k);
    HasSymbolConcat(parents, children, k);
    ParentsListed(selected, impact.parents, k);
    if HasSymbol(children, k) {
      var i :| 0 <= i < |children| && Key(children[i].symbol) == k;
      assert ListedChild(impact, LastByKey(all), parents, k);
    }
    assert k in impact.children && k in LastByKey(all) && !HasSymbol(parents, k) ==>
           ListedChild(impact, LastByKey(all), parents, k);
    DistinctParts(parents, children, impact, LastByKey(all));
  }

  /**
    Under a validated configuration the parent/child mode is on exactly when the request names a
    declared parent, and the run is then about exactly the parents it names and all the children they
    declare, each once, no symbol being both; no declared child is ever skipped.
   */
  lemma ImpactSelectionComplete(r: Choice, all: seq<Entity>, requested: seq<string>, groups: seq<EntityGroup>, k: string)
    requires IsSelection(r, all, requested, groups) && GroupsValid(groups, all)
    requires requested != [] && r.Granted?
    ensures r.impact.enabled <==> exists p :: NamesParent(all, requested, groups, p)
    ensures r.impact.enabled ==>
              (HasSymbol(r.entities, k) <==>
                 NamesParent(all, requested, groups, k)
                 || exists p :: NamesParent(all, requested, groups, p) && Declares(groups, p, k))
    ensures r.impact.enabled ==> OncePerSymbol(r.entities)
    ensures !(NamesParent(all, requested, groups, k)
              && exists p :: NamesParent(all, requested, groups, p) && Declares(groups, p, k))
  {
    var selected := Selected(Lookup(all, |all|), requested, |requested|);
    var impact := ImpactOf(groups, selected);
    forall p ensures p in impact.parents <==> NamesParent(all, requested, groups, p) {
      ImpactMeaning(groups, selected, p);
      if p != "" { SelectedSymbolIff(Lookup(all, |all|), requested, p); }
    }
    ImpactMeaning(groups, selected, k);
    DeclaredRoles(groups, all, k, k);
    forall p | Declares(groups, p, k) ensures k in LastByKey(all) && LastByKey(all)[k].role == CHILD {
      DeclaredRoles(groups, all, p, k);
    }
    if r.impact.enabled { ListedSymbols(r, all, requested, groups, k); }
  }

  /** A declared parent that the request names is part of the run exactly when it is not shadowed. */
  lemma RequestedParentIff(r: Choice, all: seq<Entity>, requested: seq<string>, groups: seq<EntityGroup>, p: string)
    requires IsSelection(r, all, requested, groups) && requested != [] && r.Granted?
    requires p != "" && DeclaresParent(groups, p) && Requested(ItemsOf(Lookup(all, |all|), requested), |requested|, p)
    ensures p in r.impact.parents <==> !Shadowed(ItemsOf(Lookup(all, |all|), requested), |requested|, p)
  {
    var selected := Selected(Lookup(all, |all|), requested, |requested|);
    ImpactMeaning(groups, selected, p);
    SelectedSymbolIff(Lookup(all, |all|), requested, p);
  }

  /** Nothing is shadowed where every entity has a symbol. */
  lemma NoShadow(all: seq<Entity>, requested: seq<string>, p: string)
    requires forall i :: 0 <= i < |all| ==> Key(all[i].symbol) != ""
    ensures !Shadowed(ItemsOf(Lookup(all, |all|), requested), |requested|, p)
  {
    var items := ItemsOf(Lookup(all, |all|), requested);
    forall i | 0 <= i < |requested| ensures !NamesSymbol(items, i, "") {
      if items(i).Some? { var j := LookupHolds(all, Key(requested[i])); }
    }
  }

  lemma DistinctParts(parents: seq<Entity>, children: seq<Entity>, impact: Impact, bySymbol: Universe)
    requires ListsChildren(children, impact, bySymbol, parents) && OncePerSymbol(parents)
    ensures OncePerSymbol(parents + children)
  {
    var es := parents + children;
    forall i, j | 0 <= i < j < |es| ensures Key(es[i].symbol) != Key(es[j].symbol) {
      if i < |parents| <= j {
        assert es[j] == children[j - |parents|];
        assert ListedChild(impact, bySymbol, parents, Key(es[j].symbol));
        assert HasSymbol(parents, Key(es[i].symbol));
      }
    }
  }

  // ----- Order independence

  lemma SameChildren(a: seq<Entity>, b: seq<Entity>, impact: Impact, bySymbol: Universe, parents: seq<Entity>)
    requires ListsChildren(a, impact, bySymbol, parents) && ListsChildren(b, impact, bySymbol, parents)
    ensures multiset(a) == multiset(b)
  {
    OnceEach(a);
    OnceEach(b);
    forall e ensures e in a <==> e in b {
      ChildTransfer(a, b, impact, bySymbol, parents, e);
      ChildTransfer(b, a, impact, bySymbol, parents, e);
    }
  }

  lemma ChildTransfer(a: seq<Entity>, b: seq<Entity>, impact: Impact, bySymbol: Universe, parents: seq<Entity>, e: Entity)
    requires ListsChildren(a, impact, bySymbol, parents) && ListsChildren(b, impact, bySymbol, parents)
    ensures e in a ==> e in b
  {
    if e in a {
      var i :| 0 <= i < |a| && a[i] == e;
      var k := Key(e.symbol);
      assert ListedChild(impact, bySymbol, parents, k);
      var j :| 0 <= j < |b| && Key(b[j].symbol) == k;
      assert b[j] == bySymbol[k] == e;
    }
  }

  lemma {:induction false} OnceEach(a: seq<Entity>)
    requires forall i, j :: 0 <= i < j < |a| ==> Key(a[i].symbol) != Key(a[j].symbol)
    ensures forall e :: multiset(a)[e] == if e in a then 1 else 0
  {
    if a != [] {
      var front, last := a[..|a| - 1], a[|a| - 1];
      assert forall i :: 0 <= i < |front| ==> front[i] == a[i];
      OnceEach(front);
      assert a == front + [last];
      assert multiset(a) == multiset(front) + multiset{last};
      assert last !in front;
    }
  }

  /**
    Map iteration order can only permute the children: two runs of the selection on one request give
    the same verdict, the same impact and the same entities up to order.
   */
  lemma SelectionIgnoresMapOrder(r: Choice, q: Choice, all: seq<Entity>, requested: seq<string>, groups: seq<EntityGroup>)
    requires IsSelection(r, all, requested, groups) && IsSelection(q, all, requested, groups)
    ensures r.Refused? ==> q == r
    ensures r.Granted? ==> q.Granted? && q.impact == r.impact && multiset(q.entities) == multiset(r.entities)
    ensures r.Granted? && !r.impact.enabled ==> q == r
  {
    if r.Granted? && r.impact.enabled {
      var s, parents, children := SelectionParts(r, all, requested, groups);
      var s', parents', children' := SelectionParts(q, all, requested, groups);
      SameChildren(children, children', r.impact, LastByKey(all), parents);
    }
  }
}
