/**
  Inputs on which the program does not do what a reader might expect, each with the exact condition
  proved elsewhere: a sync that breaks its own reload, a requested parent that is dropped, and an alias
  that takes over a symbol.
 */
module Witnesses {
  import opened Text
  import opened Entities
  import opened EntityMap
  import opened Config
  import opened Bhavcopy
  import opened Reload
  import opened Selection
  import opened Requests
  import opened SelectionLaws

  function NewEntity(id: string, symbol: string, name: string, role: string): Entity {
    Entity(id, symbol, name, [], "NSE", "IT", role, EQUITY, true)
  }

  lemma UpperWord(s: string)
    requires forall i :: 0 <= i < |s| ==> 'A' <= s[i] <= 'Z'
    ensures Key(s) == s
  {
    TrimOfTrimmed(s);
  }

  // ----- A sync that breaks its own reload

  /** One enabled entity with a symbol has its own role in its list. */
  lemma SoleRole(e: Entity)
    requires e.enabled && Key(e.symbol) != ""
    ensures HasRole([e], Key(e.symbol), e.role)
  {
    assert EnabledByKey([e], 1) == EnabledByKey([e], 0)[UniverseKey(e) := e];
  }

  predicate IsParentFile(parent: Entity) {
    parent.enabled && Key(parent.symbol) == "INFY" && parent.role == PARENT
  }

  lemma ParentLoads(parent: Entity)
    requires IsParentFile(parent)
    ensures var e := LoadEntity(parent);
            LoadFile([parent]) + LoadFile([]) == [e] && e.enabled && Key(e.symbol) == "INFY" && e.role == PARENT
  {
    RoleNamesAreWords(PARENT);
    PlainWord(PARENT);
    assert LoadFile([parent]) == [LoadEntity(parent)];
  }

  lemma ValidBefore(parent: Entity, group: EntityGroup, all: seq<Entity>)
    requires IsParentFile(parent) && Key(group.parentSymbol) == "INFY" && group.childSymbols == []
    requires IsEffective(all, LoadFile([parent]) + LoadFile([]))
    ensures GroupsValid([group], all)
  {
    ParentLoads(parent);
    SoleRole(LoadEntity(parent));
    RoleInEffective(all, [LoadEntity(parent)], "INFY", PARENT);
  }

  lemma InvalidAfter(parent: Entity, group: EntityGroup, row: Row, all: seq<Entity>, out: seq<Entity>, reloaded: seq<Entity>)
    requires Key(group.parentSymbol) == "INFY" && Counts(row) && Key(row.symbol) == "INFY"
    requires IsEffective(all, LoadFile([parent]) + LoadFile([])) && GroupsValid([group], all)
    requires IsSync(out, [row], LoadFile([])) && IsEffective(reloaded, LoadFile([parent]) + LoadFile(out))
    ensures !GroupsValid([group], reloaded)
  {
    assert [row][0] == row && DeclaredIn([group][0], "INFY", PARENT);
    assert LastByKey(LoadFile([])) == map[];
    EquityRowBreaksReload([parent], [], [group], [row], all, out, reloaded, "INFY", PARENT);
  }

  /**
    The default file lists one parent, the custom file is empty and the one group has no children. The
    configuration is valid; a single equity row for the parent later, the reloaded one is not.
   */
  method SyncBreaksReload() returns (before: Check, after: Check)
    ensures before.Accepted? && !after.Accepted?
  {
    UpperWord("INFY");
    UpperWord("EQ");
    var parent := NewEntity("nse-infy", "INFY", "Infosys", PARENT);
    var group, row := EntityGroup(GROUP_ID, "INFY", []), Row("INFY", "EQ", "Infosys");
    var file, empty := LoadFile([parent]), LoadFile([]);
    var all := EffectiveEntities(file, empty);
    ValidBefore(parent, group, all);
    before := ValidateGroups([group], all);
    var out := NormalizeBhavcopyRows([row], empty);
    var reloaded := EffectiveEntities(file, LoadFile(out));
    InvalidAfter(parent, group, row, all, out, reloaded);
    after := ValidateGroups([group], reloaded);
  }

  // ----- A requested parent that is dropped

  /** `b` has the symbol and another name, `a` has no symbol but that symbol as its name. */
  predicate Clash(b: Entity, a: Entity, symbol: string, name: string) {
    && Key(b.symbol) == Key(symbol) != "" && Key(b.name) == Key(name) != "" && Key(name) != Key(symbol) && b.aliases == []
    && Key(a.symbol) == "" && Key(a.name) == Key(symbol) && a.aliases == []
  }

  /** A request for the symbol and then the name selects only the entity without symbol, and no mode. */
  lemma FirstShadowsSecond(r: Choice, b: Entity, a: Entity, symbol: string, name: string, groups: seq<EntityGroup>)
    requires Clash(b, a, symbol, name) && IsSelection(r, [b, a], [symbol, name], groups)
    ensures r == Granted([a], NO_IMPACT)
    ensures var items := ItemsOf(Lookup([b, a], 2), [symbol, name]);
            items(0) == Some(a) && items(1) == Some(b)
  {
    PairLookup(b, a, symbol, name);
    SecondDropped(Lookup([b, a], 2), symbol, name, a, b);
    NoSymbolNoImpact(groups, a);
  }

  lemma SoleParentValid(b: Entity, a: Entity, group: EntityGroup)
    requires Key(b.symbol) == Key(group.parentSymbol) != "" && b.role == PARENT && Key(a.symbol) == ""
    requires group.childSymbols == []
    ensures GroupsValid([group], [b, a]) && DistinctSymbols([b, a])
  {
    LastWins([b, a], 0, Key(b.symbol), 2);
  }

  lemma PairByKey(b: Entity, a: Entity)
    requires b.enabled && a.enabled && Loaded(b) == b && Loaded(a) == a
    requires UniverseKey(b) != "" && UniverseKey(a) != "" && UniverseKey(b) != UniverseKey(a)
    ensures EffectiveByKey([b, a]) == map[UniverseKey(b) := b, UniverseKey(a) := a]
  {
    var es, kb, ka := [b, a], UniverseKey(b), UniverseKey(a);
    var m0, m1 := EnabledByKey(es, 0), EnabledByKey(es, 1);
    AllLoadedUpdate(m0, kb, b);
    AllLoadedUpdate(m1, ka, a);
    LoadedTwice(m0, kb, b, ka, a);
  }

  lemma LoadedTwice(m: Universe, kb: string, b: Entity, ka: string, a: Entity)
    requires m == map[]
    ensures AllLoaded(m)[kb := b][ka := a] == map[kb := b, ka := a]
  {}

  /** Two enabled entities in key order, already in normal form, are a universe. */
  lemma PairEffective(b: Entity, a: Entity)
    requires b.enabled && a.enabled && Loaded(b) == b && Loaded(a) == a
    requires UniverseKey(b) != "" && UniverseKey(a) != "" && StrLess(UniverseKey(b), UniverseKey(a))
    ensures IsEffective([b, a], [b, a])
  {
    StrLessIrreflexive(UniverseKey(b));
    PairByKey(b, a);
    PairListed([b, a], b, a, EffectiveByKey([b, a]), UniverseKey);
  }

  lemma PairListed(out: seq<Entity>, b: Entity, a: Entity, m: Universe, keyOf: Entity -> string)
    requires out == [b, a] && keyOf(b) != keyOf(a) && m == map[keyOf(b) := b, keyOf(a) := a]
    ensures forall e :: e in out <==> keyOf(e) in m && e == m[keyOf(e)]
  {}

  lemma EquityIsNormal(e: Entity)
    requires e.typ == EQUITY
    ensures Loaded(e) == e
  {
    TypeNamesAreWords(EQUITY);
    PlainWord(EQUITY);
  }

  lemma TheWords()
    ensures Key("INFY") == "INFY" && Key("INFOSYS") == "INFOSYS" && Key("") == ""
    ensures Lower(Trim("INFY")) == "infy" && StrLess("INFY", "infy") && Lower(Trim(GROUP_ID)) == GROUP_ID
  {
    UpperWord("INFY");
    UpperWord("INFOSYS");
    UpperWord("");
    TrimOfTrimmed("INFY");
    TrimOfTrimmed(GROUP_ID);
    assert Lower("INFY") == "infy" && Lower(GROUP_ID) == GROUP_ID;
  }

  /**
    A parent and an entity without symbol that has the parent's symbol as its name. They are a universe
    and the group is valid, yet a request that names first one and then the other selects only the
    entity without symbol, and no parent/child mode.
   */
  lemma ShadowedParentDropped() returns (b: Entity, a: Entity, group: EntityGroup)
    ensures IsEffective([b, a], [b, a]) && GroupsValid([group], [b, a]) && IsParentOf(group, "INFY")
    ensures ItemsOf(Lookup([b, a], 2), ["INFY", "INFOSYS"])(1) == Some(b) && Key(b.symbol) == "INFY" && b.role == PARENT
    ensures forall r :: IsSelection(r, [b, a], ["INFY", "INFOSYS"], [group]) ==> r == Granted([a], NO_IMPACT)
  {
    b, a := NewEntity("b", "INFY", "INFOSYS", PARENT), NewEntity("a", "", "INFY", "");
    group := EntityGroup(GROUP_ID, "INFY", []);
    TheWords();
    EquityIsNormal(b);
    EquityIsNormal(a);
    PairEffective(b, a);
    SoleParentValid(b, a, group);
    PairLookup(b, a, "INFY", "INFOSYS");
    forall r | IsSelection(r, [b, a], ["INFY", "INFOSYS"], [group]) ensures r == Granted([a], NO_IMPACT) {
      FirstShadowsSecond(r, b, a, "INFY", "INFOSYS", [group]);
    }
  }

  /** Of two items whose entities share a key only the first one's is selected, and nothing is missing. */
  lemma SecondDropped(lookup: Universe, x: string, y: string, a: Entity, b: Entity)
    requires Key(x) != "" && Key(x) in lookup && lookup[Key(x)] == a
    requires Key(y) != "" && Key(y) in lookup && lookup[Key(y)] == b
    requires EntityKey(a) == EntityKey(b)
    ensures Selected(lookup, [x, y], 2) == [a] && Missing(lookup, [x, y], 2) == []
  {
    assert Selected(lookup, [x, y], 0) == [] && Missing(lookup, [x, y], 0) == [];
    assert Selected(lookup, [x, y], 1) == [a] && Missing(lookup, [x, y], 1) == [];
    assert [a][0] == a;
  }

  lemma PlainGoesBy(e: Entity, k: string)
    requires e.aliases == []
    ensures GoesBy(e, k) <==> k != "" && (Key(e.symbol) == k || Key(e.name) == k)
  {
    var names := Names(e);
    assert names == [e.symbol, e.name];
    assert names[0] == e.symbol && names[1] == e.name;
  }

  lemma PairLookup(b: Entity, a: Entity, symbol: string, name: string)
    requires Clash(b, a, symbol, name)
    ensures var lookup := Lookup([b, a], 2);
            Key(symbol) in lookup && lookup[Key(symbol)] == a && Key(name) in lookup && lookup[Key(name)] == b
  {
    PlainGoesBy(a, Key(symbol));
    PlainGoesBy(a, Key(name));
    PlainGoesBy(b, Key(name));
    LookupTakesLast([b, a], Key(symbol), 1);
    LookupTakesLast([b, a], Key(name), 0);
  }

  lemma NoSymbolNoImpact(groups: seq<EntityGroup>, a: Entity)
    requires Key(a.symbol) == ""
    ensures ImpactOf(groups, [a]) == NO_IMPACT
  {
    var impact := ImpactOf(groups, [a]);
    forall k ensures k !in impact.parents {
      ImpactMeaning(groups, [a], k);
    }
    ImpactMeaning(groups, [a], "");
  }

  // ----- An alias that takes over a symbol

  /** A universe of two entities, the second with the first one's symbol as an alias. */
  lemma AliasTakesSymbol() returns (first: Entity, second: Entity)
    ensures IsEffective([first, second], [first, second]) && DistinctSymbols([first, second])
    ensures var lookup := Lookup([first, second], 2);
            Key(first.symbol) in lookup && lookup[Key(first.symbol)] == second != first
  {
    first, second := NewEntity("1", "AAA", "", ""), NewEntity("2", "BBB", "", "").(aliases := ["AAA"]);
    UpperWord("AAA");
    UpperWord("BBB");
    EquityIsNormal(first);
    EquityIsNormal(second);
    PairEffective(first, second);
    assert Names(second)[2] == "AAA";
    assert GoesBy(second, "AAA");
    LookupTakesLast([first, second], "AAA", 1);
  }
}
