/**
  The effective entity universe (internal/config/types.go) and the group and fallback-chain checks of
  the loader (internal/config/loader.go).
 */
module Config {
  import opened Text
  import opened Sorting
  import opened Entities
  import opened EntityMap
  import opened Aliases
  import opened Providers

  // ----- Effective entities

  /** The key an entity is listed under: its symbol, or its lower-cased name when it has none. */
  function UniverseKey(e: Entity): string {
    if Key(e.symbol) != "" then Key(e.symbol) else Lower(Trim(e.name))
  }

  /** The enabled ones of the first `n` entities by key; a later one replaces an earlier one. */
  function EnabledByKey(es: seq<Entity>, n: nat): Universe
    requires n <= |es|
  {
    if n == 0 then map[]
    else
      var m, e := EnabledByKey(es, n - 1), es[n - 1];
      if !e.enabled || UniverseKey(e) == "" then m else m[UniverseKey(e) := e]
  }

  function EffectiveByKey(es: seq<Entity>): Universe {
    AllLoaded(EnabledByKey(es, |es|))
  }

  predicate ByUniverseKey(a: Entity, b: Entity) {
    StrLess(UniverseKey(a), UniverseKey(b))
  }

  lemma UniverseOrder()
    ensures StrictOrder(ByUniverseKey)
  {
    forall a: Entity ensures !ByUniverseKey(a, a) { StrLessIrreflexive(UniverseKey(a)); }
    forall a: Entity, b: Entity, c: Entity | ByUniverseKey(a, b) && ByUniverseKey(b, c) ensures ByUniverseKey(a, c) {
      StrLessTrans(UniverseKey(a), UniverseKey(b), UniverseKey(c));
    }
  }

  ghost predicate IsEffective(out: seq<Entity>, es: seq<Entity>) {
    && Ascending(out, ByUniverseKey)
    && forall e {:trigger e in out} :: e in out <==> UniverseKey(e) in EffectiveByKey(es) && e == EffectiveByKey(es)[UniverseKey(e)]
  }

  ghost predicate KeyedByUniverse(m: Universe) {
    forall k :: k in m ==> k != "" && UniverseKey(m[k]) == k && m[k].enabled
  }

  lemma {:induction false} EnabledByKeyKeyed(es: seq<Entity>, n: nat)
    requires n <= |es|
    ensures KeyedByUniverse(EnabledByKey(es, n))
  {
    if n > 0 { EnabledByKeyKeyed(es, n - 1); }
  }

  lemma EffectiveKeyed(es: seq<Entity>)
    ensures KeyedByUniverse(EffectiveByKey(es))
  {
    EnabledByKeyKeyed(es, |es|);
  }

  method EffectiveEntities(defaults: seq<Entity>, custom: seq<Entity>) returns (entities: seq<Entity>)
    ensures IsEffective(entities, defaults + custom)
  {
    var combined := defaults + custom;
    var seen: Universe := map[];
    for i := 0 to |combined|
      invariant seen == AllLoaded(EnabledByKey(combined, i))
    {
      var e := combined[i];
      if !e.enabled {
        continue;
      }
      var key := Key(e.symbol);
      if key == "" {
        key := Lower(Trim(e.name));
      }
      if key == "" {
        continue;
      }
      AllLoadedUpdate(EnabledByKey(combined, i), key, e);
      e := e.(typ := if Trim(e.typ) == "" then DefaultEntityTypeForSymbol(e.symbol) else NormalizeEntityType(e.typ));
      seen := seen[key := e];
    }
    EffectiveKeyed(combined);
    var keys := SortedKeys(seen);
    entities := ListUniverse(seen, keys);
    EffectiveListing(entities, keys, seen);
  }

  method ListUniverse(seen: Universe, keys: seq<string>) returns (entities: seq<Entity>)
    requires forall k :: k in keys ==> k in seen
    ensures |entities| == |keys| && forall j :: 0 <= j < |keys| ==> entities[j] == seen[keys[j]]
  {
    entities := [];
    for i := 0 to |keys|
      invariant |entities| == i && forall j :: 0 <= j < i ==> entities[j] == seen[keys[j]]
    {
      entities := entities + [seen[keys[i]]];
    }
  }

  lemma EffectiveListing(entities: seq<Entity>, keys: seq<string>, seen: Universe)
    requires KeyedByUniverse(seen) && Ascending(keys, StrLess) && (forall k :: k in keys <==> k in seen)
    requires |entities| == |keys| && forall j :: 0 <= j < |keys| ==> keys[j] in seen && entities[j] == seen[keys[j]]
    ensures Ascending(entities, ByUniverseKey)
    ensures forall e :: e in entities <==> UniverseKey(e) in seen && e == seen[UniverseKey(e)]
  {
    forall i, j | 0 <= i < j < |entities| ensures ByUniverseKey(entities[i], entities[j]) {
      assert StrLess(keys[i], keys[j]);
    }
    forall e | UniverseKey(e) in seen && e == seen[UniverseKey(e)] ensures e in entities {
      var j :| 0 <= j < |keys| && keys[j] == UniverseKey(e);
      assert entities[j] == e;
    }
  }

  method SortedKeys(m: Universe) returns (keys: seq<string>)
    ensures Ascending(keys, StrLess)
    ensures forall k :: k in keys <==> k in m
  {
    keys := [];
    var rest := m.Keys;
    while rest != {}
      invariant rest <= m.Keys
      invariant forall k :: k in keys <==> k in m.Keys - rest
      invariant forall i, j :: 0 <= i < j < |keys| ==> keys[i] != keys[j]
    {
      var key := NextKey(rest);
      assert key !in keys;
      keys := keys + [key];
      rest := rest - {key};
    }
    StringOrder();
    DistinctComparable(keys);
    SortAscends(keys, StrLess);
    keys := Sort(keys, StrLess);
  }

  /** The universe is determined by the configured lists, whatever order the map of keys yields. */
  lemma EffectiveUnique(a: seq<Entity>, b: seq<Entity>, es: seq<Entity>)
    requires IsEffective(a, es) && IsEffective(b, es)
    ensures a == b
  {
    UniverseOrder();
    forall e ensures e in a <==> e in b {
      assert e in a <==> UniverseKey(e) in EffectiveByKey(es) && e == EffectiveByKey(es)[UniverseKey(e)];
    }
    ListingUnique(a, b, ByUniverseKey);
  }

  /** Entry `i` is the last enabled one of its key: its symbol, or its name in lower case where it has none. */
  ghost predicate LastEnabledEntry(es: seq<Entity>, i: nat) {
    && i < |es| && es[i].enabled && (Key(es[i].symbol) != "" || !Blank(es[i].name))
    && forall j :: i < j < |es| && es[j].enabled ==> UniverseKey(es[j]) != UniverseKey(es[i])
  }

  /** Entities without symbol share a key when their names agree up to case, and with a symbol that is such a name. */
  lemma UniverseKeyMeaning(a: Entity, b: Entity)
    ensures Key(a.symbol) != "" && Key(b.symbol) != "" ==> (UniverseKey(a) == UniverseKey(b) <==> Key(a.symbol) == Key(b.symbol))
    ensures Key(a.symbol) == "" && Key(b.symbol) == "" ==> (UniverseKey(a) == UniverseKey(b) <==> Lower(Trim(a.name)) == Lower(Trim(b.name)))
    ensures Key(a.symbol) != "" && Key(b.symbol) == "" ==> (UniverseKey(a) == UniverseKey(b) <==> Key(a.symbol) == Lower(Trim(b.name)))
  {}

  lemma {:induction false} LastEnabledStays(es: seq<Entity>, n: nat, k: string)
    requires n <= |es|
    ensures k in EnabledByKey(es, n) <==> k != "" && exists i :: 0 <= i < n && es[i].enabled && UniverseKey(es[i]) == k
    ensures k in EnabledByKey(es, n) ==> exists i ::
              && 0 <= i < n && es[i].enabled && UniverseKey(es[i]) == k && EnabledByKey(es, n)[k] == es[i]
              && forall j :: i < j < n && es[j].enabled ==> UniverseKey(es[j]) != k
  {
    if n > 0 { LastEnabledStays(es, n - 1, k); }
  }

  /** The universe holds, with its type in normal form, exactly the last enabled entry of every key. */
  lemma EffectiveMeaning(out: seq<Entity>, es: seq<Entity>, e: Entity)
    requires IsEffective(out, es)
    ensures e in out <==> exists i: nat :: LastEnabledEntry(es, i) && e == es[i].(typ := LoadedType(es[i]))
  {
    var m := EnabledByKey(es, |es|);
    LastEnabledStays(es, |es|, UniverseKey(e));
    if e in out { EntryOf(es, e); }
    if i: nat :| LastEnabledEntry(es, i) && e == es[i].(typ := LoadedType(es[i])) { EntryIsListed(es, i); }
  }

  lemma EntryOf(es: seq<Entity>, e: Entity)
    requires UniverseKey(e) in EffectiveByKey(es) && e == EffectiveByKey(es)[UniverseKey(e)]
    ensures exists i: nat :: LastEnabledEntry(es, i) && e == es[i].(typ := LoadedType(es[i]))
  {
    var k, m := UniverseKey(e), EnabledByKey(es, |es|);
    LastEnabledStays(es, |es|, k);
    var i :| 0 <= i < |es| && es[i].enabled && UniverseKey(es[i]) == k && m[k] == es[i]
             && forall j :: i < j < |es| && es[j].enabled ==> UniverseKey(es[j]) != k;
    assert e == Loaded(m[k]);
    assert LastEnabledEntry(es, i);
  }

  lemma EntryIsListed(es: seq<Entity>, i: nat)
    requires LastEnabledEntry(es, i)
    ensures var k := UniverseKey(es[i]); k in EffectiveByKey(es) && EffectiveByKey(es)[k] == Loaded(es[i])
    ensures UniverseKey(Loaded(es[i])) == UniverseKey(es[i])
  {
    LastEnabledStays(es, |es|, UniverseKey(es[i]));
  }

  lemma EffectiveDistinctSymbols(all: seq<Entity>, es: seq<Entity>)
    requires IsEffective(all, es)
    ensures DistinctSymbols(all)
    ensures forall i :: 0 <= i < |all| ==> all[i].enabled
  {
    forall i, j | 0 <= i < j < |all| && Key(all[i].symbol) != "" ensures Key(all[i].symbol) != Key(all[j].symbol) {
      assert ByUniverseKey(all[i], all[j]);
      StrLessIrreflexive(UniverseKey(all[i]));
    }
    EffectiveKeyed(es);
    forall i | 0 <= i < |all| ensures all[i].enabled {
      assert all[i] in all;
    }
  }

  // ----- The loader's checks

  /** The entity filed under the symbol has the role. */
  predicate RoleIn(m: Universe, symbol: string, role: string) {
    Key(symbol) in m && m[Key(symbol)].role == role
  }

  datatype Check = Accepted | NotFound(symbol: string) | WrongRole(symbol: string, role: string)

  method CheckMember(bySymbol: Universe, symbol: string, role: string) returns (r: Check)
    ensures r.Accepted? <==> RoleIn(bySymbol, symbol, role)
    ensures r.NotFound? <==> Key(symbol) !in bySymbol
  {
    if Key(symbol) !in bySymbol {
      return NotFound(symbol);
    }
    if bySymbol[Key(symbol)].role != role {
      return WrongRole(symbol, role);
    }
    return Accepted;
  }

  predicate GroupValid(g: EntityGroup, bySymbol: Universe) {
    && RoleIn(bySymbol, g.parentSymbol, PARENT)
    && forall c :: 0 <= c < |g.childSymbols| ==> RoleIn(bySymbol, g.childSymbols[c], CHILD)
  }

  /** Every declared parent and child is an enabled entity of that role. */
  predicate GroupsValid(groups: seq<EntityGroup>, all: seq<Entity>) {
    forall g :: 0 <= g < |groups| ==> GroupValid(groups[g], LastByKey(all))
  }

  method ValidateGroup(bySymbol: Universe, group: EntityGroup) returns (r: Check)
    ensures r.Accepted? <==> GroupValid(group, bySymbol)
  {
    r := CheckMember(bySymbol, group.parentSymbol, PARENT);
    if !r.Accepted? {
      return;
    }
    for c := 0 to |group.childSymbols|
      invariant forall d :: 0 <= d < c ==> RoleIn(bySymbol, group.childSymbols[d], CHILD)
    {
      r := CheckMember(bySymbol, group.childSymbols[c], CHILD);
      if !r.Accepted? {
        return;
      }
    }
    return Accepted;
  }

  method FileBySymbol(all: seq<Entity>) returns (bySymbol: Universe)
    ensures bySymbol == LastByKey(all)
  {
    bySymbol := map[];
    for i := 0 to |all|
      invariant bySymbol == FirstByKey(all, i)
    {
      var symbol := Key(all[i].symbol);
      if symbol == "" {
        continue;
      }
      bySymbol := bySymbol[symbol := all[i]];
    }
  }

  /** The group part of `validate`: accepts exactly the groups whose members have the declared roles. */
  method ValidateGroups(groups: seq<EntityGroup>, all: seq<Entity>) returns (r: Check)
    ensures r.Accepted? <==> GroupsValid(groups, all)
  {
    var bySymbol := FileBySymbol(all);
    for g := 0 to |groups|
      invariant forall h :: 0 <= h < g ==> GroupValid(groups[h], bySymbol)
    {
      r := ValidateGroup(bySymbol, groups[g]);
      if !r.Accepted? {
        return;
      }
    }
    return Accepted;
  }

  /** The fallback-chain part of `validate`: every entry names an enabled provider. */
  method ValidateChain(providers: seq<Provider>, chain: seq<string>) returns (ok: bool)
    ensures ok <==> forall i :: 0 <= i < |chain| ==> chain[i] in PriceMap(providers)
  {
    var known: set<string> := {};
    for i := 0 to |providers|
      invariant known == PriceMap(providers[..i]).Keys
    {
      assert providers[..i + 1][..i] == providers[..i];
      if providers[i].enabled {
        known := known + {ProviderKey(providers[i])};
      }
    }
    assert providers[..|providers|] == providers;
    for i := 0 to |chain|
      invariant forall j :: 0 <= j < i ==> chain[j] in PriceMap(providers)
    {
      if chain[i] !in known {
        return false;
      }
    }
    return true;
  }
}
