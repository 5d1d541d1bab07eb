/**
  Which entities a run is about (internal/engine/service.go, selectEntities) and the parent/child mode
  (internal/engine/impact_rows.go, newImpactModeConfig).
 */
module Selection {
  import opened Text
  import opened Sorting
  import opened Entities
  import opened EntityMap
  import opened Config

  const GROUP_ID := "nifty-it-impact"

  datatype Impact = Impact(
    enabled: bool,
    parents: set<string>,
    children: set<string>,
    byParent: map<string, set<string>>)

  const NO_IMPACT := Impact(false, {}, {}, map[])

  // ----- Parent and child symbols

  predicate InGroup(g: EntityGroup) {
    Lower(Trim(g.id)) == GROUP_ID && Key(g.parentSymbol) != ""
  }

  function ChildKeys(symbols: seq<string>, n: nat): set<string>
    requires n <= |symbols|
  {
    if n == 0 then {}
    else
      var k := Key(symbols[n - 1]);
      ChildKeys(symbols, n - 1) + if k == "" then {} else {k}
  }

  function ChildrenIn(m: map<string, set<string>>, p: string): set<string> {
    if p in m then m[p] else {}
  }

  /** The declared children of every parent of the impact group. */
  function GroupMap(groups: seq<EntityGroup>, n: nat): map<string, set<string>>
    requires n <= |groups|
  {
    if n == 0 then map[]
    else
      var m, g := GroupMap(groups, n - 1), groups[n - 1];
      if !InGroup(g) then m
      else
        var p := Key(g.parentSymbol);
        m[p := ChildrenIn(m, p) + ChildKeys(g.childSymbols, |g.childSymbols|)]
  }

  /** The parents among the first `n` selected entities. */
  function RequestedParents(gm: map<string, set<string>>, selected: seq<Entity>, n: nat): set<string>
    requires n <= |selected|
  {
    if n == 0 then {}
    else
      var k := Key(selected[n - 1].symbol);
      RequestedParents(gm, selected, n - 1) + if k != "" && k in gm then {k} else {}
  }

  function ImpactFor(gm: map<string, set<string>>, parents: set<string>): Impact {
    if parents == {} then NO_IMPACT
    else
      Impact(true, parents,
             set p, c | p in parents && p in gm && c in gm[p] :: c,
             map p | p in parents && p in gm && gm[p] != {} :: gm[p])
  }

  function ImpactOf(groups: seq<EntityGroup>, selected: seq<Entity>): Impact {
    var gm := GroupMap(groups, |groups|);
    ImpactFor(gm, RequestedParents(gm, selected, |selected|))
  }

  method NewImpactMode(groups: seq<EntityGroup>, requested: seq<Entity>) returns (impact: Impact)
    ensures impact == ImpactOf(groups, requested)
  {
    var byParent := DeclaredChildren(groups);
    var parents := FindParents(byParent, requested);
    if parents == {} {
      return NO_IMPACT;
    }
    impact := CollectChildren(byParent, parents);
  }

  method FindParents(byParent: map<string, set<string>>, requested: seq<Entity>) returns (parents: set<string>)
    ensures parents == RequestedParents(byParent, requested, |requested|) && parents <= byParent.Keys
  {
    parents := {};
    for i := 0 to |requested|
      invariant parents == RequestedParents(byParent, requested, i) && parents <= byParent.Keys
    {
      var symbol := Key(requested[i].symbol);
      if symbol == "" {
        continue;
      }
      if symbol in byParent {
        parents := parents + {symbol};
      }
    }
  }

  method DeclaredChildren(groups: seq<EntityGroup>) returns (byParent: map<string, set<string>>)
    ensures byParent == GroupMap(groups, |groups|)
  {
    byParent := map[];
    for i := 0 to |groups|
      invariant byParent == GroupMap(groups, i)
    {
      if Lower(Trim(groups[i].id)) != GROUP_ID {
        continue;
      }
      var parent := Key(groups[i].parentSymbol);
      if parent == "" {
        continue;
      }
      var children := AddChildren(ChildrenIn(byParent, parent), groups[i].childSymbols);
      byParent := byParent[parent := children];
    }
  }

  method AddChildren(before: set<string>, symbols: seq<string>) returns (children: set<string>)
    ensures children == before + ChildKeys(symbols, |symbols|)
  {
    children := before;
    for j := 0 to |symbols|
      invariant children == before + ChildKeys(symbols, j)
    {
      var child := Key(symbols[j]);
      if child == "" {
        continue;
      }
      children := children + {child};
    }
  }

  /** Ranges over the requested parents, and the children of each, in whatever order the maps yield. */
  method CollectChildren(gm: map<string, set<string>>, parents: set<string>) returns (impact: Impact)
    requires parents != {} && parents <= gm.Keys
    ensures impact == ImpactFor(gm, parents)
  {
    var union: set<string> := {};
    var byParent: map<string, set<string>> := map[];
    var rest := parents;
    while rest != {}
      invariant rest <= parents
      invariant union == set p, c | p in parents - rest && p in gm && c in gm[p] :: c
      invariant byParent == map p | p in parents - rest && p in gm && gm[p] != {} :: gm[p]
    {
      var parent := NextKey(rest);
      rest := rest - {parent};
      if gm[parent] == {} {
        continue;
      }
      union := union + gm[parent];
      byParent := byParent[parent := gm[parent]];
    }
    impact := Impact(true, parents, union, byParent);
  }

  // ----- Resolving the request

  function Names(e: Entity): seq<string> {
    [e.symbol, e.name] + e.aliases
  }

  function FileUnder(m: Universe, names: seq<string>, n: nat, e: Entity): Universe
    requires n <= |names|
  {
    if n == 0 then m
    else
      var m', k := FileUnder(m, names, n - 1, e), Key(names[n - 1]);
      if k == "" then m' else m'[k := e]
  }

  /** Every symbol, name and alias of the first `n` entities; a later entity takes over a shared key. */
  function Lookup(all: seq<Entity>, n: nat): Universe
    requires n <= |all|
  {
    FileAll(FileEntity, all, n)
  }

  function FileEntity(m: Universe, e: Entity): Universe {
    FileUnder(m, Names(e), |Names(e)|, e)
  }

  function FileAll(file: (Universe, Entity) -> Universe, all: seq<Entity>, n: nat): Universe
    requires n <= |all|
  {
    if n == 0 then map[] else file(FileAll(file, all, n - 1), all[n - 1])
  }

  method BuildLookup(all: seq<Entity>) returns (lookup: Universe)
    ensures lookup == Lookup(all, |all|)
  {
    lookup := map[];
    for i := 0 to |all|
      invariant lookup == Lookup(all, i)
    {
      lookup := FileNames(lookup, all[i]);
    }
  }

  method FileNames(before: Universe, e: Entity) returns (lookup: Universe)
    ensures lookup == FileEntity(before, e)
  {
    var names := Names(e);
    lookup := before;
    for j := 0 to |names|
      invariant lookup == FileUnder(before, names, j, e)
    {
      var key := Key(names[j]);
      if key != "" {
        lookup := lookup[key := e];
      }
    }
  }

  /** The key under which a selected entity counts as already selected. */
  function EntityKey(e: Entity): string {
    if Key(e.symbol) != "" then Key(e.symbol) else Key(e.name)
  }

  predicate Chosen(es: seq<Entity>, k: string) {
    exists i :: 0 <= i < |es| && EntityKey(es[i]) == k
  }

  function Selected(lookup: Universe, requested: seq<string>, n: nat): seq<Entity>
    requires n <= |requested|
  {
    if n == 0 then []
    else
      var before, k := Selected(lookup, requested, n - 1), Key(requested[n - 1]);
      if k == "" || k !in lookup || Chosen(before, EntityKey(lookup[k])) then before else before + [lookup[k]]
  }

  function Missing(lookup: Universe, requested: seq<string>, n: nat): seq<string>
    requires n <= |requested|
  {
    if n == 0 then []
    else
      var before, k := Missing(lookup, requested, n - 1), Key(requested[n - 1]);
      if k == "" || k in lookup then before else before + [Trim(requested[n - 1])]
  }

  method Resolve(lookup: Universe, requested: seq<string>) returns (selected: seq<Entity>, missing: seq<string>)
    ensures selected == Selected(lookup, requested, |requested|)
    ensures missing == Missing(lookup, requested, |requested|)
  {
    var seen: set<string> := {};
    selected, missing := [], [];
    for i := 0 to |requested|
      invariant selected == Selected(lookup, requested, i) && missing == Missing(lookup, requested, i)
      invariant SeenMarks(seen, selected)
    {
      var key := Key(requested[i]);
      if key == "" {
        continue;
      }
      if key !in lookup {
        missing := missing + [Trim(requested[i])];
        continue;
      }
      selected, seen := SelectOnce(lookup[key], selected, seen);
    }
  }

  ghost predicate SeenMarks(seen: set<string>, selected: seq<Entity>) {
    forall k :: k in seen <==> Chosen(selected, k)
  }

  method SelectOnce(entity: Entity, before: seq<Entity>, marked: set<string>) returns (selected: seq<Entity>, seen: set<string>)
    requires SeenMarks(marked, before)
    ensures SeenMarks(seen, selected)
    ensures selected == if Chosen(before, EntityKey(entity)) then before else before + [entity]
  {
    var entityKey := EntityKey(entity);
    if entityKey in marked {
      return before, marked;
    }
    ChosenAppend(before, entity);
    return before + [entity], marked + {entityKey};
  }

  lemma ChosenAppend(es: seq<Entity>, e: Entity)
    ensures forall k :: Chosen(es + [e], k) <==> Chosen(es, k) || k == EntityKey(e)
  {
    forall k ensures Chosen(es + [e], k) <==> Chosen(es, k) || k == EntityKey(e) {
      if Chosen(es, k) {
        var i :| 0 <= i < |es| && EntityKey(es[i]) == k;
        assert (es + [e])[i] == es[i];
      }
      assert (es + [e])[|es|] == e;
    }
  }

  // ----- Parents and children of the request

  predicate HasSymbol(es: seq<Entity>, k: string) {
    exists i :: 0 <= i < |es| && Key(es[i].symbol) == k
  }

  /** The requested group parents, in the order they were requested. */
  function ParentsAmong(selected: seq<Entity>, parents: set<string>, n: nat): seq<Entity>
    requires n <= |selected|
  {
    if n == 0 then []
    else
      var before, e := ParentsAmong(selected, parents, n - 1), selected[n - 1];
      if Key(e.symbol) !in parents || HasSymbol(before, Key(e.symbol)) then before else before + [e]
  }

  /** A child that gets listed: known, and not already listed as a parent. */
  predicate ListedChild(impact: Impact, bySymbol: Universe, parents: seq<Entity>, k: string) {
    k in impact.children && k in bySymbol && !HasSymbol(parents, k)
  }

  /** `tail` lists each of these children once, in some order. */
  ghost predicate ListsChildren(tail: seq<Entity>, impact: Impact, bySymbol: Universe, parents: seq<Entity>) {
    && (forall i :: 0 <= i < |tail| ==>
          ListedChild(impact, bySymbol, parents, Key(tail[i].symbol)) && tail[i] == bySymbol[Key(tail[i].symbol)])
    && (forall i, j :: 0 <= i < j < |tail| ==> Key(tail[i].symbol) != Key(tail[j].symbol))
    && (forall k :: ListedChild(impact, bySymbol, parents, k) ==> HasSymbol(tail, k))
  }

  datatype Choice = Refused(missing: seq<string>) | Granted(entities: seq<Entity>, impact: Impact)

  /** What a request selects from the universe `all`; only the order of the children is left open. */
  ghost predicate IsSelection(r: Choice, all: seq<Entity>, requested: seq<string>, groups: seq<EntityGroup>) {
    if requested == [] then r == Granted(all, NO_IMPACT)
    else
      var lookup := Lookup(all, |all|);
      var selected := Selected(lookup, requested, |requested|);
      var missing := Missing(lookup, requested, |requested|);
      var impact := ImpactOf(groups, selected);
      if missing != [] then r == Refused(missing)
      else if selected == [] then r == Refused(["no matching entities"])
      else if !impact.enabled then r == Granted(selected, impact)
      else
        var parents := ParentsAmong(selected, impact.parents, |selected|);
        && r.Granted? && r.impact == impact
        && parents <= r.entities
        && ListsChildren(r.entities[|parents|..], impact, LastByKey(all), parents)
  }

  method SelectEntities(all: seq<Entity>, requested: seq<string>, groups: seq<EntityGroup>) returns (r: Choice)
    ensures IsSelection(r, all, requested, groups)
  {
    if |requested| == 0 {
      return Granted(all, NO_IMPACT);
    }
    var lookup := BuildLookup(all);
    var selected, missing := Resolve(lookup, requested);
    if |missing| > 0 || |selected| == 0 {
      if |missing| == 0 {
        missing := ["no matching entities"];
      }
      return Refused(missing);
    }
    var impact := NewImpactMode(groups, selected);
    if !impact.enabled {
      return Granted(selected, impact);
    }
    var bySymbol := FileBySymbol(all);
    var parents := ListParents(selected, impact.parents);
    FirstByKeyFiled(all, |all|);
    ImpactUnion(groups, selected);
    var children := ListChildren(impact, bySymbol, parents);
    r := Granted(parents + children, impact);
    assert r.entities[|parents|..] == children;
  }

  method ListParents(selected: seq<Entity>, parents: set<string>) returns (out: seq<Entity>)
    ensures out == ParentsAmong(selected, parents, |selected|)
  {
    var seen: set<string> := {};
    out := [];
    for i := 0 to |selected|
      invariant out == ParentsAmong(selected, parents, i)
      invariant forall k :: k in seen <==> HasSymbol(out, k)
    {
      var symbol := Key(selected[i].symbol);
      if symbol !in parents {
        continue;
      }
      if symbol in seen {
        continue;
      }
      HasSymbolAppend(out, selected[i]);
      seen := seen + {symbol};
      out := out + [selected[i]];
    }
  }

  lemma HasSymbolGrows(es: seq<Entity>, e: Entity, k: string)
    ensures HasSymbol(es + [e], k) <==> HasSymbol(es, k) || k == Key(e.symbol)
  {
    if HasSymbol(es, k) {
      var i :| 0 <= i < |es| && Key(es[i].symbol) == k;
      assert (es + [e])[i] == es[i];
    }
    assert (es + [e])[|es|] == e;
  }

  lemma HasSymbolAppend(es: seq<Entity>, e: Entity)
    ensures forall k :: HasSymbol(es + [e], k) <==> HasSymbol(es, k) || k == Key(e.symbol)
  {
    forall k ensures HasSymbol(es + [e], k) <==> HasSymbol(es, k) || k == Key(e.symbol) {
      HasSymbolGrows(es, e, k);
    }
  }

  /** The children of an impact are those of its parents. */
  ghost predicate Unioned(impact: Impact) {
    && impact.byParent.Keys <= impact.parents
    && forall c :: c in impact.children <==> exists p :: p in impact.byParent && c in impact.byParent[p]
  }

  lemma ImpactUnion(groups: seq<EntityGroup>, selected: seq<Entity>)
    ensures Unioned(ImpactOf(groups, selected))
  {
    var gm := GroupMap(groups, |groups|);
    var parents := RequestedParents(gm, selected, |selected|);
    var impact := ImpactFor(gm, parents);
    forall c | c in impact.children ensures exists p :: p in impact.byParent && c in impact.byParent[p] {
      var p :| p in parents && p in gm && c in gm[p];
      assert p in impact.byParent;
    }
  }

  /** Progress of the child listing: `seen` marks the parents and the children listed so far. */
  ghost predicate ListingState(out: seq<Entity>, seen: set<string>, impact: Impact, bySymbol: Universe, parents: seq<Entity>) {
    && (forall i :: 0 <= i < |out| ==>
          ListedChild(impact, bySymbol, parents, Key(out[i].symbol)) && out[i] == bySymbol[Key(out[i].symbol)])
    && (forall i, j :: 0 <= i < j < |out| ==> Key(out[i].symbol) != Key(out[j].symbol))
    && (forall k :: k in seen <==> HasSymbol(parents, k) || HasSymbol(out, k))
  }

  method ListChildren(impact: Impact, bySymbol: Universe, parents: seq<Entity>) returns (out: seq<Entity>)
    requires Unioned(impact) && Filed(bySymbol)
    ensures ListsChildren(out, impact, bySymbol, parents)
  {
    var seen: set<string> := {};
    for i := 0 to |parents|
      invariant seen == set j | 0 <= j < i :: Key(parents[j].symbol)
    {
      seen := seen + {Key(parents[i].symbol)};
    }
    out := [];
    var rest := impact.byParent.Keys;
    while rest != {}
      invariant rest <= impact.byParent.Keys
      invariant ListingState(out, seen, impact, bySymbol, parents)
      invariant forall p, c :: p in impact.byParent.Keys - rest && c in impact.byParent[p] && c in bySymbol ==> c in seen
    {
      var parent := NextKey(rest);
      out, seen := ListChildrenOf(impact, bySymbol, parents, parent, out, seen);
      rest := rest - {parent};
    }
  }

  method ListChildrenOf(impact: Impact, bySymbol: Universe, parents: seq<Entity>, parent: string,
                        listed: seq<Entity>, marked: set<string>)
    returns (out: seq<Entity>, seen: set<string>)
    requires Unioned(impact) && Filed(bySymbol) && parent in impact.byParent
    requires ListingState(listed, marked, impact, bySymbol, parents)
    ensures ListingState(out, seen, impact, bySymbol, parents) && marked <= seen
    ensures forall c :: c in impact.byParent[parent] && c in bySymbol ==> c in seen
  {
    out, seen := listed, marked;
    var rest := impact.byParent[parent];
    while rest != {}
      invariant rest <= impact.byParent[parent] && marked <= seen
      invariant ListingState(out, seen, impact, bySymbol, parents)
      invariant forall c :: c in impact.byParent[parent] - rest && c in bySymbol ==> c in seen
    {
      var child := NextKey(rest);
      rest := rest - {child};
      if child in seen {
        continue;
      }
      if child !in bySymbol {
        continue;
      }
      AppendChild(out, seen, impact, bySymbol, parents, child);
      seen := seen + {child};
      out := out + [bySymbol[child]];
    }
  }

  lemma AppendChild(out: seq<Entity>, seen: set<string>, impact: Impact, bySymbol: Universe, parents: seq<Entity>, c: string)
    requires Filed(bySymbol) && ListingState(out, seen, impact, bySymbol, parents)
    requires c in impact.children && c in bySymbol && c !in seen
    ensures ListingState(out + [bySymbol[c]], seen + {c}, impact, bySymbol, parents)
  {
    var e := bySymbol[c];
    var out' := out + [e];
    HasSymbolAppend(out, e);
    assert Key(e.symbol) == c && ListedChild(impact, bySymbol, parents, c);
    forall i | 0 <= i < |out| ensures Key(out[i].symbol) != c {
      assert HasSymbol(out, Key(out[i].symbol));
    }
    assert forall i :: 0 <= i < |out'| ==> out'[i] == if i < |out| then out[i] else e;
  }
}
