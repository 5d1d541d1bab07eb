/**
  What a sync promises: running it again on its own output changes nothing; symbols, aliases, texts,
  type and enabled flag of every known entity are kept; the role is lost where an equity row names it.
 */
module SyncLaws {
  import opened Text
  import opened Entities
  import opened EntityMap
  import opened Aliases
  import opened Bhavcopy

  predicate Solid(s: string) {
    s != "" && Trimmed(s)
  }

  lemma FirstNonEmptyOfSolid(a: string, b: string)
    requires Solid(a)
    ensures FirstNonEmpty(a, b) == a
  {
    TrimOfTrimmed(a);
  }

  lemma FirstNonEmptySolid(a: string, b: string)
    requires Trim(b) != ""
    ensures Solid(FirstNonEmpty(a, b))
  {}

  predicate KnownType(t: string) {
    t == EQUITY || t == INDEX
  }

  lemma KnownTypeFacts(t: string, other: string)
    requires KnownType(t)
    ensures Solid(t) && NormalizeEntityType(t) == t && NormalizeEntityType(FirstNonEmpty(t, other)) == t && !Blank(t)
  {
    TypeNamesAreWords(t);
    PlainWord(t);
  }

  // ----- The built ID

  lemma DashedEnds(s: string)
    requires s != ""
    ensures Dashed(s) != "" && (!IsSpace(s[|s| - 1]) ==> !IsSpace(Dashed(s)[|Dashed(s)| - 1]))
  {}

  lemma BuiltIDSolid(symbol: string)
    requires !Blank(symbol)
    ensures Solid(BuildEntityID(symbol))
  {
    var body := Lower(Trim(symbol));
    DashedEnds(body);
    var id := BuildEntityID(symbol);
    assert id[0] == 'n' && id[|id| - 1] == Dashed(body)[|Dashed(body)| - 1];
  }

  // ----- Rows that leave an entity as it is

  /** The entity has been through an update by this row, and the row has nothing to add to it. */
  ghost predicate Touched(e: Entity, row: Row) {
    && Solid(e.id) && Solid(e.name) && Solid(e.exchange) && Solid(e.sector) && KnownType(e.typ)
    && e.symbol == Key(row.symbol) && e.role == ""
    && HasKey(e.aliases, Key(row.symbol)) && HasKey(e.aliases, Key(RowName(row)))
  }

  lemma RowStrings(row: Row)
    requires Counts(row)
    ensures Solid(Key(row.symbol)) && Solid(RowName(row))
    ensures Key(Key(row.symbol)) == Key(row.symbol) && Key(row.symbol) != "" && Key(RowName(row)) != ""
    ensures Solid(FreshEntity(row).id)
    ensures Trim("NSE") == "NSE" && Trim("Unknown") == "Unknown"
  {
    KeyOfKey(row.symbol);
    TrimOfTrimmed(Key(row.symbol));
    TrimOfTrimmed(RowName(row));
    BuiltIDSolid(Key(row.symbol));
    TrimOfTrimmed("NSE");
    TrimOfTrimmed("Unknown");
  }

  lemma FreshTouched(row: Row)
    requires Counts(row)
    ensures Touched(FreshEntity(row), row)
  {
    RowStrings(row);
    var aliases := FreshEntity(row).aliases;
    assert aliases[0] == Key(row.symbol) && aliases[1] == RowName(row);
  }

  lemma RefreshedTouched(e: Entity, row: Row)
    requires Counts(row)
    ensures Touched(Refreshed(e, row), row)
  {
    RowStrings(row);
    FreshTouched(row);
    RefreshedAliases(e, row);
    var made := FreshEntity(row);
    TrimOfTrimmed(made.id);
    TrimOfTrimmed(made.name);
    FirstNonEmptySolid(e.id, made.id);
    FirstNonEmptySolid(e.name, made.name);
    FirstNonEmptySolid(e.exchange, made.exchange);
    FirstNonEmptySolid(e.sector, made.sector);
  }

  lemma RefreshedAliases(e: Entity, row: Row)
    requires Counts(row)
    ensures forall k :: HasKey(Refreshed(e, row).aliases, k) <==>
                          k != "" && (HasKey(e.aliases, k) || HasKey(FreshEntity(row).aliases, k))
  {
    MergeKeepsKeys(e.aliases, FreshEntity(row).aliases);
  }

  /** Later rows for the same symbol keep what an earlier row established. */
  lemma RefreshedStaysTouched(e: Entity, row: Row, later: Row)
    requires Counts(row) && Counts(later) && Key(later.symbol) == Key(row.symbol) && Touched(e, row)
    ensures Touched(Refreshed(e, later), row)
  {
    RefreshedTouched(e, later);
    RowStrings(row);
    MergeKeepsKeys(e.aliases, FreshEntity(later).aliases);
  }

  lemma AsIndexStaysTouched(e: Entity, row: Row, fallback: Entity)
    requires Counts(row) && Touched(e, row)
    ensures Touched(AsIndex(e, fallback), row)
  {
    RowStrings(row);
    MergeKeepsKeys(e.aliases, fallback.aliases);
    FirstNonEmptyOfSolid(e.id, fallback.id);
    FirstNonEmptyOfSolid(e.name, fallback.name);
    FirstNonEmptyOfSolid(e.exchange, fallback.exchange);
    FirstNonEmptyOfSolid(e.sector, fallback.sector);
  }

  lemma FinishedStaysTouched(e: Entity, row: Row)
    requires Counts(row) && Touched(e, row)
    ensures Touched(Finished(e), row)
  {
    RowStrings(row);
    UniqueNonEmptyFacts(e.aliases);
    KnownTypeFacts(e.typ, "");
    TrimOfTrimmed(e.id);
    TrimOfTrimmed(e.name);
    TrimOfTrimmed(e.exchange);
  }

  /** On a finished entity that was touched by a row, the row is absorbed. */
  lemma RowAbsorbed(e: Entity, row: Row)
    requires Counts(row) && Touched(e, row) && Canonical(e.aliases)
    ensures Refreshed(e, row) == e
  {
    var made := FreshEntity(row);
    KnownTypeFacts(e.typ, made.typ);
    FirstNonEmptyOfSolid(e.id, made.id);
    FirstNonEmptyOfSolid(e.name, made.name);
    FirstNonEmptyOfSolid(e.exchange, made.exchange);
    FirstNonEmptyOfSolid(e.sector, made.sector);
    RowAliasesAbsorbed(e, row);
    var r := Refreshed(e, row);
    assert r.id == e.id && r.symbol == e.symbol && r.name == e.name && r.exchange == e.exchange;
    assert r.sector == e.sector && r.role == e.role && r.typ == e.typ && r.enabled == e.enabled;
  }

  lemma PairCovered(a: string, b: string, xs: seq<string>)
    requires HasKey(xs, Key(a)) && HasKey(xs, Key(b))
    ensures Covered([a, b], xs)
  {}

  lemma RowAliasesAbsorbed(e: Entity, row: Row)
    requires Counts(row) && Touched(e, row) && Canonical(e.aliases)
    ensures MergeAliases(e.aliases, FreshEntity(row).aliases) == e.aliases
  {
    RowStrings(row);
    PairCovered(Key(row.symbol), RowName(row), e.aliases);
    MergeAbsorbs(e.aliases, FreshEntity(row).aliases);
  }

  // ----- Index entries that leave an entity as it is

  ghost predicate GoodFallback(f: Entity) {
    && Solid(f.id) && Solid(f.name) && Solid(f.exchange) && Solid(f.sector)
    && f.typ == INDEX && f.enabled && Key(f.symbol) != ""
    && forall i :: 0 <= i < |f.aliases| ==> Solid(f.aliases[i])
  }

  ghost predicate Indexed(e: Entity, f: Entity) {
    && Solid(e.id) && Solid(e.name) && Solid(e.exchange) && Solid(e.sector)
    && e.typ == INDEX && e.enabled
    && forall i :: 0 <= i < |f.aliases| ==> HasKey(e.aliases, Key(f.aliases[i]))
  }

  lemma FallbackFacts()
    ensures GoodFallback(NIFTY_IT) && GoodFallback(NIFTY_BANK)
    ensures Key(NIFTY_IT.symbol) == "NIFTIT" && Key(NIFTY_BANK.symbol) == "NIFTBANK"
  {
    TrimOfTrimmed("NIFTIT");
    TrimOfTrimmed("NIFTBANK");
  }

  lemma SolidKey(x: string)
    requires Solid(x)
    ensures Key(x) != "" && Trim(x) != ""
  {
    TrimOfTrimmed(x);
  }

  lemma AsIndexIndexed(e: Entity, f: Entity)
    requires GoodFallback(f)
    ensures Indexed(AsIndex(e, f), f)
  {
    SolidKey(f.id);
    SolidKey(f.name);
    SolidKey(f.exchange);
    SolidKey(f.sector);
    MergeKeepsKeys(e.aliases, f.aliases);
    forall i | 0 <= i < |f.aliases| ensures HasKey(AsIndex(e, f).aliases, Key(f.aliases[i])) {
      SolidKey(f.aliases[i]);
      assert HasKey(f.aliases, Key(f.aliases[i]));
    }
  }

  lemma FallbackIndexed(f: Entity)
    requires GoodFallback(f)
    ensures Indexed(f.(aliases := UniqueNonEmptyOf(f.aliases)), f)
  {
    UniqueNonEmptyFacts(f.aliases);
    forall i | 0 <= i < |f.aliases| ensures HasKey(UniqueNonEmptyOf(f.aliases), Key(f.aliases[i])) {
      SolidKey(f.aliases[i]);
      assert HasKey(f.aliases, Key(f.aliases[i]));
    }
  }

  lemma FinishedStaysIndexed(e: Entity, f: Entity)
    requires GoodFallback(f) && Indexed(e, f)
    ensures Indexed(Finished(e), f)
  {
    UniqueNonEmptyFacts(e.aliases);
    KnownTypeFacts(e.typ, "");
    TrimOfTrimmed(e.id);
    TrimOfTrimmed(e.name);
    TrimOfTrimmed(e.exchange);
    forall i | 0 <= i < |f.aliases| ensures Key(f.aliases[i]) != "" { SolidKey(f.aliases[i]); }
  }

  lemma IndexAbsorbed(e: Entity, f: Entity)
    requires GoodFallback(f) && Indexed(e, f) && Canonical(e.aliases)
    ensures AsIndex(e, f) == e
  {
    FirstNonEmptyOfSolid(e.id, f.id);
    FirstNonEmptyOfSolid(e.name, f.name);
    FirstNonEmptyOfSolid(e.exchange, f.exchange);
    FirstNonEmptyOfSolid(e.sector, f.sector);
    assert Covered(f.aliases, e.aliases);
    MergeAbsorbs(e.aliases, f.aliases);
  }

  // ----- Finishing

  lemma FinishedTwice(e: Entity)
    requires !Blank(e.symbol)
    ensures Finished(Finished(e)) == Finished(e) && Loaded(Finished(e)) == Finished(e)
    ensures Canonical(Finished(e).aliases)
  {
    var f := Finished(e);
    BuiltIDSolid(e.symbol);
    TrimOfTrimmed(BuildEntityID(e.symbol));
    TrimOfTrimmed("NSE");
    UniqueNonEmptyFacts(e.aliases);
    CanonicalIsFixed(f.aliases);
    NormalizeEntityTypeStable(e.typ);
  }

  // ----- The rows as a whole

  /** Some row that counts names the symbol `k`. */
  predicate Named(rows: seq<Row>, k: string) {
    exists j :: 0 <= j < |rows| && Counts(rows[j]) && Key(rows[j].symbol) == k
  }

  lemma NamedAppend(rows: seq<Row>, k: string)
    requires rows != []
    ensures Named(rows, k) <==>
              Named(rows[..|rows| - 1], k) || (Counts(rows[|rows| - 1]) && Key(rows[|rows| - 1].symbol) == k)
  {
    var front := rows[..|rows| - 1];
    assert forall j :: 0 <= j < |front| ==> front[j] == rows[j];
    if Named(front, k) {
      var j :| 0 <= j < |front| && Counts(front[j]) && Key(front[j].symbol) == k;
      assert Counts(rows[j]);
    }
  }

  /** What the rows make of one key. */
  lemma {:induction false} RowsEffect(m: Universe, rows: seq<Row>, k: string)
    ensures var m' := ApplyRows(m, rows);
            && (k in m' <==> k in m || Named(rows, k))
            && (k in m && !Named(rows, k) ==> m'[k] == m[k])
            && (Named(rows, k) ==> m'[k].role == "")
            && (k in m' ==> m'[k].enabled == if k in m then m[k].enabled else true)
            && (k in m ==> forall a :: a != "" && HasKey(m[k].aliases, a) ==> HasKey(m'[k].aliases, a))
  {
    if rows != [] {
      var front, row := rows[..|rows| - 1], rows[|rows| - 1];
      RowsEffect(m, front, k);
      NamedAppend(rows, k);
      var before := ApplyRows(m, front);
      if Counts(row) && Key(row.symbol) == k && k in before {
        RefreshedAliases(before[k], row);
      }
    }
  }

  lemma {:induction false} RowsTouch(m: Universe, rows: seq<Row>, j: nat)
    requires j < |rows| && Counts(rows[j])
    ensures Key(rows[j].symbol) in ApplyRows(m, rows)
    ensures Touched(ApplyRows(m, rows)[Key(rows[j].symbol)], rows[j])
  {
    var front, last := rows[..|rows| - 1], rows[|rows| - 1];
    var before, k := ApplyRows(m, front), Key(rows[j].symbol);
    if j == |rows| - 1 {
      if k in before { RefreshedTouched(before[k], last); } else { FreshTouched(last); }
    } else {
      assert front[j] == rows[j];
      RowsTouch(m, front, j);
      if Counts(last) && Key(last.symbol) == k { RefreshedStaysTouched(before[k], rows[j], last); }
    }
  }

  lemma EnsureEffect(m: Universe, f: Entity, k: string)
    requires k in m
    ensures k in EnsureIndex(m, f)
    ensures EnsureIndex(m, f)[k] == if k != "" && k == Key(f.symbol) then AsIndex(m[k], f) else m[k]
  {}

  lemma EnsureKeepsTouched(m: Universe, f: Entity, row: Row)
    requires Counts(row) && Key(row.symbol) in m && Touched(m[Key(row.symbol)], row)
    ensures Key(row.symbol) in EnsureIndex(m, f) && Touched(EnsureIndex(m, f)[Key(row.symbol)], row)
  {
    EnsureEffect(m, f, Key(row.symbol));
    if Key(f.symbol) == Key(row.symbol) { AsIndexStaysTouched(m[Key(row.symbol)], row, f); }
  }

  lemma SyncedTouched(rows: seq<Row>, existing: seq<Entity>, j: nat)
    requires j < |rows| && Counts(rows[j])
    ensures Key(rows[j].symbol) in Synced(rows, existing)
    ensures Touched(Synced(rows, existing)[Key(rows[j].symbol)], rows[j])
  {
    var m := ApplyRows(LoadExisting(existing), rows);
    RowsTouch(LoadExisting(existing), rows, j);
    EnsureKeepsTouched(m, NIFTY_IT, rows[j]);
    EnsureKeepsTouched(EnsureIndex(m, NIFTY_IT), NIFTY_BANK, rows[j]);
  }

  lemma EnsureMakesIndexed(m: Universe, f: Entity)
    requires GoodFallback(f)
    ensures Key(f.symbol) in EnsureIndex(m, f) && Indexed(EnsureIndex(m, f)[Key(f.symbol)], f)
  {
    FallbackIndexed(f);
    if Key(f.symbol) in m { AsIndexIndexed(m[Key(f.symbol)], f); }
  }

  predicate IsFallback(f: Entity) {
    f == NIFTY_IT || f == NIFTY_BANK
  }

  lemma SyncedIndexed(rows: seq<Row>, existing: seq<Entity>, f: Entity)
    requires IsFallback(f)
    ensures Key(f.symbol) in Synced(rows, existing) && Indexed(Synced(rows, existing)[Key(f.symbol)], f)
    ensures GoodFallback(f)
  {
    FallbackFacts();
    var m := ApplyRows(LoadExisting(existing), rows);
    EnsureMakesIndexed(m, NIFTY_IT);
    EnsureMakesIndexed(EnsureIndex(m, NIFTY_IT), NIFTY_BANK);
  }

  // ----- Idempotence

  /** The finished universe. */
  ghost function Final(m: Universe): Universe {
    map k | k in m :: Finished(m[k])
  }

  lemma ListingKeysDistinct(out: seq<Entity>, m: Universe)
    requires Listing(out, m)
    ensures forall i, j :: 0 <= i < j < |out| ==> Key(out[i].symbol) != Key(out[j].symbol)
  {
    forall i, j | 0 <= i < j < |out| ensures Key(out[i].symbol) != Key(out[j].symbol) {
      assert out[i] in out && out[j] in out;
      assert BySymbol(out[i], out[j]);
      StrLessIrreflexive(out[i].symbol);
    }
  }

  lemma ListedLoads(out: seq<Entity>, m: Universe, k: string)
    requires Listing(out, m) && Filed(m) && k in m
    ensures k in LastByKey(out) && LastByKey(out)[k] == Finished(m[k])
  {
    var e := Finished(m[k]);
    assert Key(e.symbol) == k;
    assert e in out;
    var i :| 0 <= i < |out| && out[i] == e;
    ListingKeysDistinct(out, m);
    LastWins(out, i, k, |out|);
  }

  lemma LoadedBack(out: seq<Entity>, m: Universe, k: string)
    requires Listing(out, m) && Filed(m) && k in m
    ensures k in LoadExisting(out) && LoadExisting(out)[k] == Final(m)[k]
  {
    ListedLoads(out, m, k);
    FinishedTwice(m[k]);
    var was := LastByKey(out);
    assert AllLoaded(was)[k] == Loaded(was[k]);
  }

  lemma MapsEqual(a: Universe, b: Universe)
    requires a.Keys == b.Keys && forall k :: k in a ==> a[k] == b[k]
    ensures a == b
  {}

  /** Loading what a sync wrote gives back the finished universe. */
  lemma LoadOfListing(out: seq<Entity>, m: Universe)
    requires Listing(out, m) && Filed(m)
    ensures LoadExisting(out) == Final(m)
  {
    ListedKeys(out, m);
    LoadKeys(out);
    var a, b := LoadExisting(out), Final(m);
    assert b.Keys == m.Keys;
    forall k | k in a ensures a[k] == b[k] { LoadedBack(out, m, k); }
    MapsEqual(a, b);
  }

  lemma LoadKeys(es: seq<Entity>)
    ensures LoadExisting(es).Keys == LastByKey(es).Keys
  {}

  lemma ListedKeys(out: seq<Entity>, m: Universe)
    requires Listing(out, m) && Filed(m)
    ensures LastByKey(out).Keys == m.Keys
  {
    forall k ensures k in LastByKey(out) <==> k in m {
      if k in m { ListedLoads(out, m, k); }
      if k in LastByKey(out) {
        var i := LastKnown(out, k);
        assert out[i] in out;
      }
    }
  }

  lemma {:induction false} RowsAbsorbed(n: Universe, rows: seq<Row>)
    requires forall j :: 0 <= j < |rows| && Counts(rows[j]) ==>
               var k := Key(rows[j].symbol);
               k in n && Touched(n[k], rows[j]) && Canonical(n[k].aliases)
    ensures ApplyRows(n, rows) == n
  {
    if rows != [] {
      var front, row := rows[..|rows| - 1], rows[|rows| - 1];
      assert forall j :: 0 <= j < |front| ==> front[j] == rows[j];
      RowsAbsorbed(n, front);
      if Counts(row) { RowAbsorbed(n[Key(row.symbol)], row); }
    }
  }

  lemma EnsureAbsorbed(n: Universe, f: Entity)
    requires GoodFallback(f) && Key(f.symbol) in n
    requires Indexed(n[Key(f.symbol)], f) && Canonical(n[Key(f.symbol)].aliases)
    ensures EnsureIndex(n, f) == n
  {
    IndexAbsorbed(n[Key(f.symbol)], f);
  }

  lemma FinalAbsorbsIndex(rows: seq<Row>, existing: seq<Entity>, f: Entity)
    requires IsFallback(f)
    ensures EnsureIndex(Final(Synced(rows, existing)), f) == Final(Synced(rows, existing))
  {
    var m := Synced(rows, existing);
    SyncedFiled(rows, existing);
    SyncedIndexed(rows, existing, f);
    FinishedStaysIndexed(m[Key(f.symbol)], f);
    FinishedTwice(m[Key(f.symbol)]);
    EnsureAbsorbed(Final(m), f);
  }

  lemma FinalAbsorbsRows(rows: seq<Row>, existing: seq<Entity>)
    ensures ApplyRows(Final(Synced(rows, existing)), rows) == Final(Synced(rows, existing))
  {
    var m := Synced(rows, existing);
    var n := Final(m);
    SyncedFiled(rows, existing);
    forall j | 0 <= j < |rows| && Counts(rows[j])
      ensures var k := Key(rows[j].symbol);
              k in n && Touched(n[k], rows[j]) && Canonical(n[k].aliases)
    {
      SyncedTouched(rows, existing, j);
      var e := m[Key(rows[j].symbol)];
      FinishedStaysTouched(e, rows[j]);
      FinishedTwice(e);
    }
    RowsAbsorbed(n, rows);
  }

  /**
    A sync is idempotent: its output, synced again with the same rows, is the same sequence, whatever
    the rows (repeated, mixed in case, naming the indexes) and whatever was there before.
   */
  lemma SyncIdempotent(out: seq<Entity>, rows: seq<Row>, existing: seq<Entity>)
    requires IsSync(out, rows, existing)
    ensures IsSync(out, rows, out)
  {
    var m := Synced(rows, existing);
    SyncedFiled(rows, existing);
    LoadOfListing(out, m);
    FinalAbsorbsRows(rows, existing);
    FinalAbsorbsIndex(rows, existing, NIFTY_IT);
    FinalAbsorbsIndex(rows, existing, NIFTY_BANK);
    assert Synced(rows, out) == Final(m);
    forall e ensures e in out <==> Key(e.symbol) in Final(m) && e == Finished(Final(m)[Key(e.symbol)]) {
      if Key(e.symbol) in m { FinishedTwice(m[Key(e.symbol)]); }
    }
  }

  // ----- What is kept

  predicate IsIndexKey(k: string) {
    k == Key(NIFTY_IT.symbol) || k == Key(NIFTY_BANK.symbol)
  }

  lemma EnsureNew(m: Universe, f: Entity, k: string)
    requires k !in m && Key(f.symbol) != ""
    ensures k in EnsureIndex(m, f) <==> k == Key(f.symbol)
    ensures k == Key(f.symbol) ==> EnsureIndex(m, f)[k] == f.(aliases := UniqueNonEmptyOf(f.aliases))
  {}

  lemma EnsureKeepsAliases(m: Universe, f: Entity, k: string)
    requires k in m
    ensures k in EnsureIndex(m, f)
    ensures forall a :: a != "" && HasKey(m[k].aliases, a) ==> HasKey(EnsureIndex(m, f)[k].aliases, a)
  {
    EnsureEffect(m, f, k);
    MergeKeepsKeys(m[k].aliases, f.aliases);
  }

  /** What one index entry makes of one key. */
  lemma EnsureFields(m: Universe, f: Entity, k: string)
    requires GoodFallback(f) && f.role == ""
    ensures var m' := EnsureIndex(m, f);
            && (k in m' <==> k in m || k == Key(f.symbol))
            && (k in m' ==> m'[k].role == if k in m then m[k].role else "")
            && (k in m && k != Key(f.symbol) ==> m'[k].enabled == m[k].enabled)
            && (k == Key(f.symbol) ==> m'[k].enabled && m'[k].typ == INDEX)
  {
    if k in m { EnsureEffect(m, f, k); } else { EnsureNew(m, f, k); }
  }

  /** Keys, roles and enabled flags of the synced universe. */
  lemma SyncedFields(rows: seq<Row>, existing: seq<Entity>, k: string)
    ensures var m, was := Synced(rows, existing), LastByKey(existing);
            && (k in m <==> k in was || Named(rows, k) || IsIndexKey(k))
            && (k in m ==> m[k].role == if k in was && !Named(rows, k) then was[k].role else "")
            && (k in m && !IsIndexKey(k) ==> m[k].enabled == if k in was then was[k].enabled else true)
            && (IsIndexKey(k) ==> m[k].enabled)
  {
    var m0 := LoadExisting(existing);
    RowsEffect(m0, rows, k);
    FallbackFacts();
    var m1 := ApplyRows(m0, rows);
    EnsureFields(m1, NIFTY_IT, k);
    EnsureFields(EnsureIndex(m1, NIFTY_IT), NIFTY_BANK, k);
  }

  lemma SyncedAliases(rows: seq<Row>, existing: seq<Entity>, k: string, a: string)
    requires k in LastByKey(existing) && a != "" && HasKey(LastByKey(existing)[k].aliases, a)
    ensures k in Synced(rows, existing) && HasKey(Synced(rows, existing)[k].aliases, a)
  {
    var m0 := LoadExisting(existing);
    RowsEffect(m0, rows, k);
    var m1 := ApplyRows(m0, rows);
    EnsureKeepsAliases(m1, NIFTY_IT, k);
    EnsureKeepsAliases(EnsureIndex(m1, NIFTY_IT), NIFTY_BANK, k);
  }

  lemma ListedEntity(out: seq<Entity>, rows: seq<Row>, existing: seq<Entity>, e: Entity)
    requires IsSync(out, rows, existing)
    ensures e in out ==> Key(e.symbol) in Synced(rows, existing) && e == Finished(Synced(rows, existing)[Key(e.symbol)])
    ensures Key(e.symbol) in Synced(rows, existing) ==>
              exists x :: x in out && Key(x.symbol) == Key(e.symbol)
  {
    SyncedFiled(rows, existing);
    var k := Key(e.symbol);
    if k in Synced(rows, existing) {
      var x := Finished(Synced(rows, existing)[k]);
      assert Key(x.symbol) == k;
      assert x in out;
    }
  }

  ghost predicate Covers(out: seq<Entity>, k: string) {
    exists e :: e in out && Key(e.symbol) == k
  }

  /**
    The symbols of a sync: exactly those known before, those of the equity rows and the two indexes,
    each under one entity, strictly increasing.
   */
  lemma SyncCoversSymbols(out: seq<Entity>, rows: seq<Row>, existing: seq<Entity>, k: string)
    requires IsSync(out, rows, existing)
    ensures Covers(out, k) <==> k in LastByKey(existing) || Named(rows, k) || IsIndexKey(k)
    ensures forall i, j :: 0 <= i < j < |out| ==>
              StrLess(out[i].symbol, out[j].symbol) && Key(out[i].symbol) != Key(out[j].symbol)
  {
    var m := Synced(rows, existing);
    SyncedFields(rows, existing, k);
    SyncedFiled(rows, existing);
    ListingKeysDistinct(out, m);
    forall i, j | 0 <= i < j < |out| ensures StrLess(out[i].symbol, out[j].symbol) {
      assert BySymbol(out[i], out[j]);
    }
    if k in m { ListedEntity(out, rows, existing, Finished(m[k])); }
    if Covers(out, k) {
      var e :| e in out && Key(e.symbol) == k;
      ListedEntity(out, rows, existing, e);
    }
  }

  // ----- Texts and type of an entity

  /** A text that is not blank survives, up to the spaces around it. */
  predicate KeepsText(was: string, now: string) {
    !Blank(was) ==> Trim(now) == Trim(was)
  }

  predicate KeepsTexts(was: Entity, now: Entity) {
    && KeepsText(was.id, now.id) && KeepsText(was.name, now.name)
    && KeepsText(was.exchange, now.exchange) && KeepsText(was.sector, now.sector)
  }

  lemma KeepsTransitive(a: Entity, b: Entity, c: Entity)
    requires KeepsTexts(a, b) && KeepsTexts(b, c)
    ensures KeepsTexts(a, c)
  {}

  lemma FirstNonEmptyKeeps(a: string, b: string)
    ensures KeepsText(a, FirstNonEmpty(a, b))
  {
    TrimOfTrimmed(Trim(a));
  }

  lemma RefreshedKeeps(e: Entity, row: Row)
    ensures KeepsTexts(e, Refreshed(e, row))
    ensures KnownType(e.typ) ==> Refreshed(e, row).typ == e.typ
  {
    var made := FreshEntity(row);
    FirstNonEmptyKeeps(e.id, made.id);
    FirstNonEmptyKeeps(e.name, made.name);
    FirstNonEmptyKeeps(e.exchange, made.exchange);
    FirstNonEmptyKeeps(e.sector, made.sector);
    if KnownType(e.typ) { KnownTypeFacts(e.typ, made.typ); }
  }

  lemma AsIndexKeeps(e: Entity, f: Entity)
    ensures KeepsTexts(e, AsIndex(e, f))
  {
    FirstNonEmptyKeeps(e.id, f.id);
    FirstNonEmptyKeeps(e.name, f.name);
    FirstNonEmptyKeeps(e.exchange, f.exchange);
    FirstNonEmptyKeeps(e.sector, f.sector);
  }

  lemma FinishedKeeps(e: Entity)
    ensures KeepsTexts(e, Finished(e))
    ensures KnownType(e.typ) ==> Finished(e).typ == e.typ
  {
    if KnownType(e.typ) { KnownTypeFacts(e.typ, ""); }
  }

  /** What the rows leave of a known entity, and which type they give a new one. */
  lemma {:induction false} RowsKeepTexts(m: Universe, rows: seq<Row>, k: string)
    requires k in m ==> KnownType(m[k].typ)
    ensures k in m ==> k in ApplyRows(m, rows) && KeepsTexts(m[k], ApplyRows(m, rows)[k])
    ensures k in ApplyRows(m, rows) ==> ApplyRows(m, rows)[k].typ == if k in m then m[k].typ else EQUITY
  {
    if rows != [] {
      var front, row := rows[..|rows| - 1], rows[|rows| - 1];
      var before := ApplyRows(m, front);
      RowsKeepTexts(m, front, k);
      if Counts(row) && Key(row.symbol) == k && k in before {
        RefreshedKeeps(before[k], row);
        if k in m { KeepsTransitive(m[k], before[k], Refreshed(before[k], row)); }
      }
    }
  }

  lemma EnsureKeepsTexts(m: Universe, f: Entity, k: string)
    requires k in m && f.typ == INDEX && Key(f.symbol) != ""
    ensures k in EnsureIndex(m, f) && KeepsTexts(m[k], EnsureIndex(m, f)[k])
    ensures EnsureIndex(m, f)[k].typ == if k == Key(f.symbol) then INDEX else m[k].typ
  {
    EnsureEffect(m, f, k);
    if k == Key(f.symbol) { AsIndexKeeps(m[k], f); }
  }

  lemma LoadedTypeKnown(e: Entity)
    ensures KnownType(LoadedType(e))
  {}

  lemma SyncedTexts(rows: seq<Row>, existing: seq<Entity>, k: string)
    requires k in LastByKey(existing)
    ensures var m, was := Synced(rows, existing), LastByKey(existing)[k];
            && k in m && KeepsTexts(was, m[k])
            && m[k].typ == if IsIndexKey(k) then INDEX else LoadedType(was)
  {
    var m0, was := LoadExisting(existing), LastByKey(existing)[k];
    LoadedTypeKnown(was);
    RowsKeepTexts(m0, rows, k);
    FallbackFacts();
    var m1 := ApplyRows(m0, rows);
    var m2 := EnsureIndex(m1, NIFTY_IT);
    EnsureKeepsTexts(m1, NIFTY_IT, k);
    EnsureKeepsTexts(m2, NIFTY_BANK, k);
    KeepsTransitive(m0[k], m1[k], m2[k]);
    KeepsTransitive(m0[k], m2[k], EnsureIndex(m2, NIFTY_BANK)[k]);
  }

  /**
    Every known entity keeps its id, name, exchange and sector wherever they are not blank, up to the
    spaces around them, and its type in normal form, unless it is one of the two indexes.
   */
  lemma SyncKeepsTexts(out: seq<Entity>, rows: seq<Row>, existing: seq<Entity>, e: Entity)
    requires IsSync(out, rows, existing) && e in out && Key(e.symbol) in LastByKey(existing)
    ensures var k := Key(e.symbol);
            && KeepsTexts(LastByKey(existing)[k], e)
            && e.typ == if IsIndexKey(k) then INDEX else LoadedType(LastByKey(existing)[k])
  {
    var k := Key(e.symbol);
    var m := Synced(rows, existing);
    ListedEntity(out, rows, existing, e);
    SyncedTexts(rows, existing, k);
    LoadedTypeKnown(LastByKey(existing)[k]);
    FinishedKeeps(m[k]);
    KeepsTransitive(LastByKey(existing)[k], m[k], e);
  }

  /**
    Every entity keeps all its aliases up to case and gains the symbol and name of each equity row for
    it, and only the two indexes are ever switched on.
   */
  lemma SyncKeepsEntity(out: seq<Entity>, rows: seq<Row>, existing: seq<Entity>, e: Entity)
    requires IsSync(out, rows, existing) && e in out
    ensures var k := Key(e.symbol);
            && (k in LastByKey(existing) ==>
                  && (forall a :: a != "" && HasKey(LastByKey(existing)[k].aliases, a) ==> HasKey(e.aliases, a))
                  && (e.enabled <==> LastByKey(existing)[k].enabled || IsIndexKey(k)))
            && (k !in LastByKey(existing) ==> e.enabled)
            && (forall j :: 0 <= j < |rows| && Counts(rows[j]) && Key(rows[j].symbol) == k ==>
                  HasKey(e.aliases, Key(rows[j].symbol)) && (!Blank(rows[j].name) ==> HasKey(e.aliases, Key(rows[j].name))))
  {
    var k, m := Key(e.symbol), Synced(rows, existing);
    ListedEntity(out, rows, existing, e);
    SyncedFields(rows, existing, k);
    UniqueNonEmptyFacts(m[k].aliases);
    forall a | k in LastByKey(existing) && a != "" && HasKey(LastByKey(existing)[k].aliases, a)
      ensures HasKey(e.aliases, a)
    {
      SyncedAliases(rows, existing, k, a);
    }
    forall j | 0 <= j < |rows| && Counts(rows[j]) && Key(rows[j].symbol) == k
      ensures HasKey(e.aliases, Key(rows[j].symbol)) && (!Blank(rows[j].name) ==> HasKey(e.aliases, Key(rows[j].name)))
    {
      SyncedTouched(rows, existing, j);
      RowStrings(rows[j]);
      KeyOfKey(rows[j].name);
    }
  }

  /**
    The exception: an entity keeps its role exactly when it had none or no equity row names it. New
    entities have none.
   */
  lemma SyncKeepsRoleIff(out: seq<Entity>, rows: seq<Row>, existing: seq<Entity>, e: Entity)
    requires IsSync(out, rows, existing) && e in out
    ensures var k, was := Key(e.symbol), LastByKey(existing);
            && (k in was ==> (e.role == was[k].role <==> was[k].role == "" || !Named(rows, k)))
            && (k !in was || Named(rows, k) ==> e.role == "")
  {
    ListedEntity(out, rows, existing, e);
    SyncedFields(rows, existing, Key(e.symbol));
  }
}
