/**
  What the sync command does to the configuration it then reloads (cmd/entities-sync/main.go): the
  custom entities are replaced by the synced ones, while group validation still asks for their roles.
 */
module Reload {
  import opened Text
  import opened Entities
  import opened EntityMap
  import opened Aliases
  import opened Config
  import opened Bhavcopy
  import opened SyncLaws

  // ----- Loading an entity file

  /** An entity as the loader leaves it: type and role in normal form. */
  function LoadEntity(e: Entity): Entity {
    Loaded(e).(role := NormalizeEntityRole(e.role))
  }

  function LoadFile(file: seq<Entity>): seq<Entity> {
    seq(|file|, i requires 0 <= i < |file| => LoadEntity(file[i]))
  }

  /** The loader's pass over one file, rewriting it in place. */
  method NormalizeEntityTypes(entities: array<Entity>)
    modifies entities
    ensures entities[..] == LoadFile(old(entities[..]))
  {
    ghost var file := entities[..];
    for i := 0 to entities.Length
      invariant LoadedUpTo(entities[..], file, i)
    {
      ghost var before := entities[..];
      var e := NormalizeOne(entities[i]);
      entities[i] := e;
      assert entities[..] == before[i := e];
      LoadedNext(before, file, i);
    }
  }

  ghost predicate LoadedUpTo(now: seq<Entity>, file: seq<Entity>, n: nat) {
    n <= |now| == |file| && now[n..] == file[n..] && now[..n] == LoadFile(file)[..n]
  }

  lemma LoadedNext(now: seq<Entity>, file: seq<Entity>, n: nat)
    requires n < |file| && LoadedUpTo(now, file, n)
    ensures LoadedUpTo(now[n := LoadEntity(now[n])], file, n + 1)
  {
    assert now[n] == now[n..][0] == file[n];
  }

  method NormalizeOne(e: Entity) returns (r: Entity)
    ensures r == LoadEntity(e)
  {
    var typ := if Trim(e.typ) == "" then DefaultEntityTypeForSymbol(e.symbol) else e.typ;
    DefaultTypeNormal(e.symbol);
    r := e.(typ := NormalizeEntityType(typ), role := NormalizeEntityRole(e.role));
  }

  lemma DefaultTypeNormal(symbol: string)
    ensures NormalizeEntityType(DefaultEntityTypeForSymbol(symbol)) == DefaultEntityTypeForSymbol(symbol)
  {
    var t := DefaultEntityTypeForSymbol(symbol);
    TypeNamesAreWords(t);
    PlainWord(t);
  }

  lemma RoleNamesAreWords(role: string)
    requires role == PARENT || role == CHILD
    ensures role != [] && forall i :: 0 <= i < |role| ==> IsWord(role[i])
  {}

  lemma RoleNormal(raw: string)
    ensures NormalizeEntityRole(NormalizeEntityRole(raw)) == NormalizeEntityRole(raw)
  {
    var role := NormalizeEntityRole(raw);
    if role != "" {
      RoleNamesAreWords(role);
      PlainWord(role);
    }
  }

  // ----- Which entity a symbol stands for

  predicate StandsFor(e: Entity, k: string) {
    e.enabled && UniverseKey(e) == k && k != ""
  }

  lemma EnabledStep(es: seq<Entity>, n: nat, k: string)
    requires 0 < n <= |es|
    ensures var before, after := EnabledByKey(es, n - 1), EnabledByKey(es, n);
            && (StandsFor(es[n - 1], k) ==> k in after && after[k] == es[n - 1])
            && (!StandsFor(es[n - 1], k) ==> (k in after <==> k in before) && (k in before ==> after[k] == before[k]))
  {}

  lemma {:induction false} EnabledKnown(es: seq<Entity>, n: nat, k: string) returns (i: nat)
    requires n <= |es| && k in EnabledByKey(es, n)
    ensures i < n && StandsFor(es[i], k) && EnabledByKey(es, n)[k] == es[i]
    ensures forall j :: i < j < n ==> !StandsFor(es[j], k)
  {
    EnabledStep(es, n, k);
    if StandsFor(es[n - 1], k) { i := n - 1; } else { i := EnabledKnown(es, n - 1, k); }
  }

  lemma {:induction false} EnabledFound(es: seq<Entity>, n: nat, i: nat, k: string)
    requires i < n <= |es| && es[i].enabled && UniverseKey(es[i]) == k && k != ""
    ensures k in EnabledByKey(es, n)
  {
    if i < n - 1 { EnabledFound(es, n - 1, i, k); }
  }

  /** In a concatenation the second list decides, wherever it has the key. */
  lemma {:induction false} EnabledConcat(a: seq<Entity>, b: seq<Entity>, n: nat, all: nat, k: string)
    requires n <= |b| && all == |a| + n
    ensures var m, ma, mb := EnabledByKey(a + b, all), EnabledByKey(a, |a|), EnabledByKey(b, n);
            && (k in m <==> k in ma || k in mb)
            && (k in mb ==> m[k] == mb[k])
            && (k !in mb && k in ma ==> m[k] == ma[k])
  {
    if n == 0 {
      EnabledPrefix(a, b, |a|);
    } else {
      EnabledConcat(a, b, n - 1, all - 1, k);
      EnabledStep(a + b, all, k);
      EnabledStep(b, n, k);
    }
  }

  lemma {:induction false} EnabledPrefix(a: seq<Entity>, b: seq<Entity>, n: nat)
    requires n <= |a|
    ensures EnabledByKey(a + b, n) == EnabledByKey(a, n)
  {
    if n > 0 { EnabledPrefix(a, b, n - 1); }
  }

  /** The symbol stands for an enabled entity of that role in the list. */
  ghost predicate HasRole(es: seq<Entity>, k: string, role: string) {
    var m := EnabledByKey(es, |es|);
    k in m && Key(m[k].symbol) == k && m[k].role == role
  }

  /** Group validation looks roles up in exactly this way. */
  lemma RoleInEffective(all: seq<Entity>, es: seq<Entity>, k: string, role: string)
    requires IsEffective(all, es) && k != ""
    ensures k in LastByKey(all) && LastByKey(all)[k].role == role <==> HasRole(es, k, role)
  {
    var m := EffectiveByKey(es);
    EffectiveDistinctSymbols(all, es);
    DistinctSymbolsFiled(all, k);
    if k in LastByKey(all) {
      var i :| 0 <= i < |all| && Key(all[i].symbol) == k;
      assert all[i] in all && UniverseKey(all[i]) == k;
    }
    if HasRole(es, k, role) {
      assert UniverseKey(m[k]) == k && m[k] in all;
      var i :| 0 <= i < |all| && all[i] == m[k];
    }
  }

  // ----- What validation asks for

  ghost predicate Declared(groups: seq<EntityGroup>, k: string, role: string) {
    exists g :: 0 <= g < |groups| && DeclaredIn(groups[g], k, role)
  }

  predicate DeclaredIn(g: EntityGroup, k: string, role: string) {
    (role == PARENT && Key(g.parentSymbol) == k) || (role == CHILD && HasKey(g.childSymbols, k))
  }

  lemma GroupValidIff(g: EntityGroup, bySymbol: Universe)
    ensures GroupValid(g, bySymbol) <==>
              forall k, role :: DeclaredIn(g, k, role) ==> k in bySymbol && bySymbol[k].role == role
  {
    if forall k, role :: DeclaredIn(g, k, role) ==> k in bySymbol && bySymbol[k].role == role {
      assert DeclaredIn(g, Key(g.parentSymbol), PARENT);
      forall c | 0 <= c < |g.childSymbols| ensures RoleIn(bySymbol, g.childSymbols[c], CHILD) {
        assert DeclaredIn(g, Key(g.childSymbols[c]), CHILD);
      }
    }
    if GroupValid(g, bySymbol) {
      forall k, role | DeclaredIn(g, k, role) ensures k in bySymbol && bySymbol[k].role == role {
        if role == CHILD && HasKey(g.childSymbols, k) {
          var c :| 0 <= c < |g.childSymbols| && Key(g.childSymbols[c]) == k;
          assert RoleIn(bySymbol, g.childSymbols[c], CHILD);
        }
      }
    }
  }

  lemma GroupsValidIff(groups: seq<EntityGroup>, all: seq<Entity>)
    ensures GroupsValid(groups, all) <==>
              forall k, role :: Declared(groups, k, role) ==> k in LastByKey(all) && LastByKey(all)[k].role == role
  {
    var m := LastByKey(all);
    forall g | 0 <= g < |groups|
      ensures GroupValid(groups[g], m) <==>
                forall k, role :: DeclaredIn(groups[g], k, role) ==> k in m && m[k].role == role
    {
      GroupValidIff(groups[g], m);
    }
    if forall k, role :: Declared(groups, k, role) ==> k in m && m[k].role == role {
      forall g, k, role | 0 <= g < |groups| && DeclaredIn(groups[g], k, role) ensures k in m && m[k].role == role {
        assert Declared(groups, k, role);
      }
    }
  }

  // ----- Roles across a sync

  predicate RolesNormal(es: seq<Entity>) {
    forall i :: 0 <= i < |es| ==> NormalizeEntityRole(es[i].role) == es[i].role
  }

  lemma LoadedRolesNormal(file: seq<Entity>)
    ensures RolesNormal(LoadFile(file))
  {
    forall i | 0 <= i < |file| ensures NormalizeEntityRole(LoadFile(file)[i].role) == LoadFile(file)[i].role {
      RoleNormal(file[i].role);
    }
  }

  lemma LoadKeepsKey(e: Entity)
    ensures LoadEntity(e).enabled == e.enabled && UniverseKey(LoadEntity(e)) == UniverseKey(e)
  {}

  lemma FinishKeepsKey(e: Entity)
    ensures Finished(e).enabled == e.enabled && Finished(e).symbol == e.symbol
  {}

  lemma SyncedBack(out: seq<Entity>, m: Universe, k: string)
    requires Listing(out, m) && Filed(m) && k in m && m[k].enabled
    ensures k in EnabledByKey(LoadFile(out), |out|)
  {
    FinishKeepsKey(m[k]);
    LoadKeepsKey(Finished(m[k]));
    assert Key(Finished(m[k]).symbol) == k && Finished(m[k]) in out;
    var i :| 0 <= i < |out| && out[i] == Finished(m[k]);
    assert LoadFile(out)[i] == LoadEntity(Finished(m[k]));
    EnabledFound(LoadFile(out), |out|, i, k);
  }

  lemma SyncedKnown(out: seq<Entity>, m: Universe, k: string)
    requires Listing(out, m) && Filed(m) && k in EnabledByKey(LoadFile(out), |out|)
    ensures k in m && m[k].enabled && EnabledByKey(LoadFile(out), |out|)[k] == LoadEntity(Finished(m[k]))
  {
    var i := EnabledKnown(LoadFile(out), |out|, k);
    assert out[i] in out;
  }

  /** What a synced file says about a symbol once it is loaded again. */
  lemma SyncedRole(out: seq<Entity>, rows: seq<Row>, custom: seq<Entity>, k: string)
    requires IsSync(out, rows, custom) && k != ""
    ensures var m, back := Synced(rows, custom), EnabledByKey(LoadFile(out), |out|);
            && (k in back <==> k in m && m[k].enabled)
            && (k in back ==> Key(back[k].symbol) == k && back[k].role == NormalizeEntityRole(m[k].role))
  {
    var m := Synced(rows, custom);
    SyncedFiled(rows, custom);
    if k in EnabledByKey(LoadFile(out), |out|) { SyncedKnown(out, m, k); }
    if k in m && m[k].enabled { SyncedBack(out, m, k); }
  }

  lemma EnabledIsFiled(es: seq<Entity>, k: string)
    requires k in EnabledByKey(es, |es|) && Key(EnabledByKey(es, |es|)[k].symbol) == k
    ensures k in LastByKey(es)
  {
    var i := EnabledKnown(es, |es|, k);
    var last := LastIndex(es, k, i, |es|);
    LastWins(es, last, k, |es|);
  }

  lemma LastEnabledStands(es: seq<Entity>, k: string)
    requires k in LastByKey(es) && LastByKey(es)[k].enabled
    ensures var m := EnabledByKey(es, |es|);
            k in m && (Key(m[k].symbol) == k ==> m[k] == LastByKey(es)[k])
  {
    var last := LastKnown(es, k);
    assert StandsFor(es[last], k);
    EnabledFound(es, |es|, last, k);
    var i := EnabledKnown(es, |es|, k);
    assert i >= last;
    assert i > last ==> Key(es[i].symbol) != k;
  }

  /** What the custom list said before, of a symbol that stood for some entity of the universe. */
  lemma CustomRole(es: seq<Entity>, custom: seq<Entity>, k: string, role: string)
    requires HasRole(es + custom, k, role) && k != ""
    ensures k !in LastByKey(custom) ==> HasRole(es, k, role)
    ensures k in LastByKey(custom) && LastByKey(custom)[k].enabled ==> LastByKey(custom)[k].role == role
  {
    RoleConcat(es, custom, k, role);
    if k !in LastByKey(custom) {
      if k in EnabledByKey(custom, |custom|) { EnabledIsFiled(custom, k); }
    } else if LastByKey(custom)[k].enabled {
      LastEnabledStands(custom, k);
    }
  }

  /**
    Whether a declared member still has its role once the synced file is loaded: an equity row must
    not name it, unless the custom file disables it and the defaults give it that role; nor may a sync
    be what enables it.
   */
  ghost predicate RoleSurvives(defaults: seq<Entity>, custom: seq<Entity>, rows: seq<Row>, k: string, role: string) {
    var was := LastByKey(custom);
    if k in was && !was[k].enabled then
      if IsIndexKey(k) then !Named(rows, k) && was[k].role == role else HasRole(defaults, k, role)
    else !Named(rows, k) && (k in was || !IsIndexKey(k))
  }

  lemma RolesFiled(es: seq<Entity>, k: string)
    requires RolesNormal(es) && k in LastByKey(es)
    ensures NormalizeEntityRole(LastByKey(es)[k].role) == LastByKey(es)[k].role
  {
    var i := LastKnown(es, k);
  }

  /** The later list decides, if it has the key at all. */
  lemma RoleConcat(es: seq<Entity>, more: seq<Entity>, k: string, role: string)
    ensures HasRole(es + more, k, role) <==>
              if k in EnabledByKey(more, |more|) then HasRole(more, k, role) else HasRole(es, k, role)
  {
    EnabledConcat(es, more, |more|, |es + more|, k);
  }

  lemma MemberAfterSync(defaults: seq<Entity>, custom: seq<Entity>, rows: seq<Row>, out: seq<Entity>, k: string, role: string)
    requires RolesNormal(custom) && IsSync(out, rows, custom)
    requires k != "" && (role == PARENT || role == CHILD) && HasRole(defaults + custom, k, role)
    ensures HasRole(defaults + LoadFile(out), k, role) <==> RoleSurvives(defaults, custom, rows, k, role)
  {
    SyncedFields(rows, custom, k);
    SyncedRole(out, rows, custom, k);
    CustomRole(defaults, custom, k, role);
    RoleConcat(defaults, LoadFile(out), k, role);
    if k in LastByKey(custom) { RolesFiled(custom, k); }
  }

  /**
    The sync command's own reload succeeds, as far as groups go, exactly when every declared member
    keeps its role in the sense above.
   */
  lemma ReloadAfterSyncIff(defaultFile: seq<Entity>, customFile: seq<Entity>, groups: seq<EntityGroup>, rows: seq<Row>,
                           all: seq<Entity>, out: seq<Entity>, reloaded: seq<Entity>)
    requires IsEffective(all, LoadFile(defaultFile) + LoadFile(customFile)) && GroupsValid(groups, all)
    requires IsSync(out, rows, LoadFile(customFile))
    requires IsEffective(reloaded, LoadFile(defaultFile) + LoadFile(out))
    ensures GroupsValid(groups, reloaded) <==>
              forall k, role :: Declared(groups, k, role) ==>
                RoleSurvives(LoadFile(defaultFile), LoadFile(customFile), rows, k, role)
  {
    var defaults, custom := LoadFile(defaultFile), LoadFile(customFile);
    LoadedRolesNormal(customFile);
    GroupsValidIff(groups, all);
    GroupsValidIff(groups, reloaded);
    FirstByKeyFiled(all, |all|);
    forall k, role | Declared(groups, k, role)
      ensures k in LastByKey(reloaded) && LastByKey(reloaded)[k].role == role <==>
                RoleSurvives(defaults, custom, rows, k, role)
    {
      RoleInEffective(all, defaults + custom, k, role);
      RoleInEffective(reloaded, defaults + LoadFile(out), k, role);
      MemberAfterSync(defaults, custom, rows, out, k, role);
    }
  }

  /**
    In particular one equity row for a group member that the custom file does not disable, such as a
    parent that only the default file lists, makes the reload fail.
   */
  lemma EquityRowBreaksReload(defaultFile: seq<Entity>, customFile: seq<Entity>, groups: seq<EntityGroup>, rows: seq<Row>,
                              all: seq<Entity>, out: seq<Entity>, reloaded: seq<Entity>, k: string, role: string)
    requires IsEffective(all, LoadFile(defaultFile) + LoadFile(customFile)) && GroupsValid(groups, all)
    requires IsSync(out, rows, LoadFile(customFile))
    requires IsEffective(reloaded, LoadFile(defaultFile) + LoadFile(out))
    requires Declared(groups, k, role) && Named(rows, k)
    requires k in LastByKey(LoadFile(customFile)) ==> LastByKey(LoadFile(customFile))[k].enabled
    ensures !GroupsValid(groups, reloaded)
  {
    ReloadAfterSyncIff(defaultFile, customFile, groups, rows, all, out, reloaded);
  }
}
