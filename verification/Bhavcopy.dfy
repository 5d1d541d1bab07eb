/**
  Universe sync from an exchange bhavcopy (internal/nse/bhavcopy.go): an upsert of equity rows into the
  existing entities, plus the two index entries.
 */
module Bhavcopy {
  import opened Text
  import opened Sorting
  import opened Entities
  import opened EntityMap
  import opened Aliases

  datatype Row = Row(symbol: string, series: string, name: string)

  const NIFTY_IT := Entity("nse-index-niftit", "NIFTIT", "Nifty IT", ["NIFTIT", "Nifty IT"], "NSE", "Index", "", INDEX, true)
  const NIFTY_BANK := Entity("nse-index-niftbank", "NIFTBANK", "Nifty Bank", ["NIFTBANK", "Nifty Bank"], "NSE", "Index", "", INDEX, true)

  /** The replacements of `buildEntityID`, one character at a time. */
  function Dashed(s: string): string {
    if s == "" then ""
    else
      Dashed(s[..|s| - 1]) +
      var c := s[|s| - 1];
      if c == '&' then "and" else if c == ' ' || c == '_' then "-" else [c]
  }

  function BuildEntityID(symbol: string): string {
    "nse-" + Dashed(Lower(Trim(symbol)))
  }

  function FirstNonEmpty(a: string, b: string): string {
    if Trim(a) != "" then Trim(a) else Trim(b)
  }

  // ----- The stages

  function LoadExisting(existing: seq<Entity>): Universe {
    AllLoaded(LastByKey(existing))
  }

  predicate Counts(row: Row) {
    Key(row.symbol) != "" && Key(row.series) == "EQ"
  }

  function RowName(row: Row): string {
    if Trim(row.name) != "" then Trim(row.name) else Key(row.symbol)
  }

  function FreshEntity(row: Row): Entity {
    var symbol := Key(row.symbol);
    Entity(BuildEntityID(symbol), symbol, RowName(row), [symbol, RowName(row)], "NSE", "Unknown", "", EQUITY, true)
  }

  /** An equity row over an entity already known; note that the role is not carried over. */
  function Refreshed(e: Entity, row: Row): Entity {
    var made := FreshEntity(row);
    Entity(FirstNonEmpty(e.id, made.id),
           made.symbol,
           FirstNonEmpty(e.name, made.name),
           MergeAliases(e.aliases, made.aliases),
           FirstNonEmpty(e.exchange, made.exchange),
           FirstNonEmpty(e.sector, made.sector),
           "",
           NormalizeEntityType(FirstNonEmpty(e.typ, made.typ)),
           e.enabled)
  }

  function ApplyRow(m: Universe, row: Row): Universe {
    if !Counts(row) then m
    else
      var key := Key(row.symbol);
      m[key := if key in m then Refreshed(m[key], row) else FreshEntity(row)]
  }

  function ApplyRows(m: Universe, rows: seq<Row>): Universe {
    if rows == [] then m else ApplyRow(ApplyRows(m, rows[..|rows| - 1]), rows[|rows| - 1])
  }

  function AsIndex(e: Entity, fallback: Entity): Entity {
    Entity(FirstNonEmpty(e.id, fallback.id),
           e.symbol,
           FirstNonEmpty(e.name, fallback.name),
           MergeAliases(e.aliases, fallback.aliases),
           FirstNonEmpty(e.exchange, fallback.exchange),
           FirstNonEmpty(e.sector, fallback.sector),
           e.role,
           INDEX,
           true)
  }

  function EnsureIndex(m: Universe, fallback: Entity): Universe {
    var key := Key(fallback.symbol);
    if key == "" then m
    else
      m[key := if key in m then AsIndex(m[key], fallback)
               else fallback.(aliases := UniqueNonEmptyOf(fallback.aliases))]
  }

  function Finished(e: Entity): Entity {
    Entity(if Blank(e.id) then BuildEntityID(e.symbol) else e.id,
           e.symbol,
           if Blank(e.name) then e.symbol else e.name,
           UniqueNonEmptyOf(e.aliases),
           if Blank(e.exchange) then "NSE" else e.exchange,
           e.sector,
           e.role,
           NormalizeEntityType(e.typ),
           e.enabled)
  }

  /** The universe before its entities are finished and listed. */
  function Synced(rows: seq<Row>, existing: seq<Entity>): Universe {
    EnsureIndex(EnsureIndex(ApplyRows(LoadExisting(existing), rows), NIFTY_IT), NIFTY_BANK)
  }

  predicate BySymbol(a: Entity, b: Entity) {
    StrLess(a.symbol, b.symbol)
  }

  /** The finished entities of a universe, each once, strictly increasing by symbol. */
  ghost predicate Listing(out: seq<Entity>, m: Universe) {
    && Ascending(out, BySymbol)
    && forall e {:trigger e in out} :: e in out <==> Key(e.symbol) in m && e == Finished(m[Key(e.symbol)])
  }

  ghost predicate IsSync(out: seq<Entity>, rows: seq<Row>, existing: seq<Entity>) {
    Listing(out, Synced(rows, existing))
  }

  lemma SymbolOrder()
    ensures StrictOrder(BySymbol)
  {
    forall a: Entity ensures !BySymbol(a, a) { StrLessIrreflexive(a.symbol); }
    forall a: Entity, b: Entity, c: Entity | BySymbol(a, b) && BySymbol(b, c) ensures BySymbol(a, c) {
      StrLessTrans(a.symbol, b.symbol, c.symbol);
    }
  }

  lemma LoadExistingFiled(existing: seq<Entity>)
    ensures Filed(LoadExisting(existing))
  {
    FirstByKeyFiled(existing, |existing|);
  }

  lemma ApplyRowFiled(m: Universe, row: Row)
    requires Filed(m)
    ensures Filed(ApplyRow(m, row))
  {
    KeyOfKey(row.symbol);
  }

  lemma {:induction false} ApplyRowsFiled(m: Universe, rows: seq<Row>)
    requires Filed(m)
    ensures Filed(ApplyRows(m, rows))
  {
    if rows != [] {
      ApplyRowsFiled(m, rows[..|rows| - 1]);
      ApplyRowFiled(ApplyRows(m, rows[..|rows| - 1]), rows[|rows| - 1]);
    }
  }

  lemma EnsureIndexFiled(m: Universe, fallback: Entity)
    requires Filed(m)
    ensures Filed(EnsureIndex(m, fallback))
  {}

  lemma SyncedFiled(rows: seq<Row>, existing: seq<Entity>)
    ensures Filed(Synced(rows, existing))
  {
    LoadExistingFiled(existing);
    ApplyRowsFiled(LoadExisting(existing), rows);
    var m := ApplyRows(LoadExisting(existing), rows);
    EnsureIndexFiled(m, NIFTY_IT);
    EnsureIndexFiled(EnsureIndex(m, NIFTY_IT), NIFTY_BANK);
  }

  // ----- The methods

  method EnsureIndexEntry(bySymbol: Universe, fallback: Entity) returns (updated: Universe)
    ensures updated == EnsureIndex(bySymbol, fallback)
  {
    var symbol := Key(fallback.symbol);
    if symbol == "" {
      return bySymbol;
    }
    if symbol in bySymbol {
      var existing := bySymbol[symbol];
      var aliases := UniqueNonEmpty(existing.aliases + fallback.aliases);
      existing := existing.(typ := INDEX, enabled := true);
      existing := existing.(name := FirstNonEmpty(existing.name, fallback.name),
                            exchange := FirstNonEmpty(existing.exchange, fallback.exchange),
                            sector := FirstNonEmpty(existing.sector, fallback.sector),
                            id := FirstNonEmpty(existing.id, fallback.id),
                            aliases := aliases);
      return bySymbol[symbol := existing];
    }
    var aliases := UniqueNonEmpty(fallback.aliases);
    return bySymbol[symbol := fallback.(aliases := aliases)];
  }

  method LoadByKey(existing: seq<Entity>) returns (bySymbol: Universe)
    ensures bySymbol == LoadExisting(existing)
  {
    bySymbol := map[];
    for i := 0 to |existing|
      invariant bySymbol == AllLoaded(FirstByKey(existing, i))
    {
      var e := existing[i];
      var symbol := Key(e.symbol);
      if symbol == "" {
        continue;
      }
      AllLoadedUpdate(FirstByKey(existing, i), symbol, e);
      e := e.(typ := if Trim(e.typ) == "" then DefaultEntityTypeForSymbol(e.symbol) else NormalizeEntityType(e.typ));
      bySymbol := bySymbol[symbol := e];
    }
  }

  method NormalizeBhavcopyRows(rows: seq<Row>, existing: seq<Entity>) returns (out: seq<Entity>)
    ensures IsSync(out, rows, existing)
  {
    var bySymbol := LoadByKey(existing);
    bySymbol := UpsertRows(bySymbol, rows);
    bySymbol := EnsureIndexEntry(bySymbol, NIFTY_IT);
    bySymbol := EnsureIndexEntry(bySymbol, NIFTY_BANK);
    SyncedFiled(rows, existing);
    out := ListEntities(bySymbol);
  }

  method UpsertRows(m: Universe, rows: seq<Row>) returns (bySymbol: Universe)
    ensures bySymbol == ApplyRows(m, rows)
  {
    bySymbol := m;
    for i := 0 to |rows|
      invariant bySymbol == ApplyRows(m, rows[..i])
    {
      assert rows[..i + 1][..i] == rows[..i];
      bySymbol := UpsertRow(bySymbol, rows[i]);
    }
    assert rows[..|rows|] == rows;
  }

  method UpsertRow(bySymbol: Universe, row: Row) returns (updatedMap: Universe)
    ensures updatedMap == ApplyRow(bySymbol, row)
  {
    var symbol := Key(row.symbol);
    if symbol == "" {
      return bySymbol;
    }
    if Key(row.series) != "EQ" {
      return bySymbol;
    }
    var updated := FreshEntity(row);
    if symbol in bySymbol {
      var was := bySymbol[symbol];
      var aliases := UniqueNonEmpty(was.aliases + updated.aliases);
      updated := updated.(id := FirstNonEmpty(was.id, updated.id),
                          name := FirstNonEmpty(was.name, updated.name),
                          exchange := FirstNonEmpty(was.exchange, updated.exchange),
                          sector := FirstNonEmpty(was.sector, updated.sector),
                          enabled := was.enabled,
                          typ := NormalizeEntityType(FirstNonEmpty(was.typ, updated.typ)),
                          aliases := aliases);
    }
    return bySymbol[symbol := updated];
  }

  method FinishEntity(entity: Entity) returns (e: Entity)
    ensures e == Finished(entity)
  {
    e := entity;
    if Trim(e.id) == "" {
      e := e.(id := BuildEntityID(e.symbol));
    }
    if Trim(e.name) == "" {
      e := e.(name := e.symbol);
    }
    e := e.(typ := NormalizeEntityType(e.typ));
    if Trim(e.exchange) == "" {
      e := e.(exchange := "NSE");
    }
    var aliases := UniqueNonEmpty(e.aliases);
    e := e.(aliases := aliases);
  }

  /** Finishes the entities in whatever order the map yields them, then sorts by symbol. */
  method ListEntities(m: Universe) returns (out: seq<Entity>)
    requires Filed(m)
    ensures Listing(out, m)
  {
    out := [];
    var rest := m.Keys;
    while rest != {}
      invariant rest <= m.Keys
      invariant forall e :: e in out <==> Key(e.symbol) in m.Keys - rest && e == Finished(m[Key(e.symbol)])
      invariant Comparable(out, BySymbol)
    {
      var key := NextKey(rest);
      var e := FinishEntity(m[key]);
      NewSymbolComparable(out, e, rest);
      ghost var before := out;
      out := out + [e];
      assert forall x :: x in out <==> x in before || x == e;
      rest := rest - {key};
    }
    SymbolOrder();
    SortAscends(out, BySymbol);
    out := Sort(out, BySymbol);
  }

  lemma NewSymbolComparable(out: seq<Entity>, e: Entity, rest: set<string>)
    requires Comparable(out, BySymbol) && Key(e.symbol) in rest
    requires forall x :: x in out ==> Key(x.symbol) !in rest
    ensures Comparable(out + [e], BySymbol)
  {
    forall i | 0 <= i < |out| ensures BySymbol(out[i], e) || BySymbol(e, out[i]) {
      assert out[i] in out;
      StrLessTotal(out[i].symbol, e.symbol);
    }
  }

  /** Map iteration order does not show: the result of a sync is determined. */
  lemma SyncUnique(a: seq<Entity>, b: seq<Entity>, rows: seq<Row>, existing: seq<Entity>)
    requires IsSync(a, rows, existing) && IsSync(b, rows, existing)
    ensures a == b
  {
    SymbolOrder();
    forall e ensures e in a <==> e in b {
      assert e in a <==> Key(e.symbol) in Synced(rows, existing) && e == Finished(Synced(rows, existing)[Key(e.symbol)]);
    }
    ListingUnique(a, b, BySymbol);
  }
}
