/**
  What a sync makes of each field of an entity, told from the existing list and the raw rows
  (internal/nse/bhavcopy.go).
 */
module SyncFields {
  import opened Text
  import opened Entities
  import opened EntityMap
  import opened Aliases
  import opened Bhavcopy
  import opened SyncLaws

  // ----- The built ID

  /** `strings.ReplaceAll` for a pattern of one character. */
  function ReplaceAll(s: string, c: char, repl: string): string {
    if s == "" then "" else (if s[0] == c then repl else [s[0]]) + ReplaceAll(s[1..], c, repl)
  }

  lemma {:induction false} ReplaceAllConcat(a: string, b: string, c: char, repl: string)
    ensures ReplaceAll(a + b, c, repl) == ReplaceAll(a, c, repl) + ReplaceAll(b, c, repl)
  {
    if a == "" {
      assert a + b == b;
    } else {
      assert (a + b)[0] == a[0] && (a + b)[1..] == a[1..] + b;
      ReplaceAllConcat(a[1..], b, c, repl);
    }
  }

  lemma ReplaceOne(x: char, c: char, repl: string)
    ensures ReplaceAll([x], c, repl) == if x == c then repl else [x]
  {
    assert [x][1..] == "" && ReplaceAll("", c, repl) == "";
  }

  function ThreeReplaced(s: string): string {
    ReplaceAll(ReplaceAll(ReplaceAll(s, '&', "and"), ' ', "-"), '_', "-")
  }

  lemma ThreeReplacedOne(x: char)
    ensures ThreeReplaced([x]) == if x == '&' then "and" else if x == ' ' || x == '_' then "-" else [x]
  {
    ReplaceOne(x, '&', "and");
    ReplaceOne(x, ' ', "-");
    ReplaceOne(x, '_', "-");
    ReplaceOne('-', '_', "-");
    if x == '&' { AndIsKept(); }
  }

  lemma AndIsKept()
    ensures ReplaceAll(ReplaceAll("and", ' ', "-"), '_', "-") == "and"
  {
    assert "and"[1..] == "nd" && "nd"[1..] == "d" && "d"[1..] == "";
  }

  lemma ThreeReplacedConcat(a: string, b: string)
    ensures ThreeReplaced(a + b) == ThreeReplaced(a) + ThreeReplaced(b)
  {
    var a1, b1 := ReplaceAll(a, '&', "and"), ReplaceAll(b, '&', "and");
    ReplaceAllConcat(a, b, '&', "and");
    ReplaceAllConcat(a1, b1, ' ', "-");
    ReplaceAllConcat(ReplaceAll(a1, ' ', "-"), ReplaceAll(b1, ' ', "-"), '_', "-");
  }

  lemma {:induction false} DashedIsThreePasses(s: string)
    ensures Dashed(s) == ThreeReplaced(s)
  {
    if s != "" {
      var front, c := s[..|s| - 1], s[|s| - 1];
      DashedIsThreePasses(front);
      ThreeReplacedOne(c);
      ThreeReplacedConcat(front, [c]);
      assert s == front + [c];
    }
  }

  /** One pass over the symbol does the three replacements of the program. */
  lemma BuiltIDIsReplaced(symbol: string)
    ensures BuildEntityID(symbol)
            == "nse-" + ReplaceAll(ReplaceAll(ReplaceAll(Lower(Trim(symbol)), '&', "and"), ' ', "-"), '_', "-")
  {
    DashedIsThreePasses(Lower(Trim(symbol)));
  }

  // ----- The rows that count

  /** A row counts if it has a symbol and its series is EQ, in any case and whatever spaces are around it. */
  lemma CountsMeaning(row: Row)
    ensures Counts(row) <==> !Blank(row.symbol) && Trim(row.series) in {"EQ", "Eq", "eQ", "eq"}
  {
    UpperTwo(Trim(row.series), 'E', 'e', 'Q', 'q');
    BlankKey(row.symbol);
  }

  lemma UpperTwo(s: string, a: char, a': char, b: char, b': char)
    requires forall c :: UpperChar(c) == a <==> c == a || c == a'
    requires forall c :: UpperChar(c) == b <==> c == b || c == b'
    ensures Upper(s) == [a, b] <==> s in {[a, b], [a, b'], [a', b], [a', b']}
  {
    if |s| == 2 {
      assert s == [s[0], s[1]];
      assert Upper(s) == [UpperChar(s[0]), UpperChar(s[1])];
    } else {
      assert |Upper(s)| != 2;
    }
  }

  // ----- Texts

  /** `now` is `was` without the spaces around it or, where that is blank, `other`. */
  predicate Picks(was: string, other: string, now: string) {
    now == if Blank(was) then other else Trim(was)
  }

  /** The four texts an entity falls back on. */
  datatype Texts = Texts(id: string, name: string, exchange: string, sector: string)

  predicate SolidTexts(t: Texts) {
    Solid(t.id) && Solid(t.name) && Solid(t.exchange) && Solid(t.sector)
  }

  predicate HasTexts(e: Entity, t: Texts) {
    e.id == t.id && e.name == t.name && e.exchange == t.exchange && e.sector == t.sector
  }

  predicate PicksTexts(was: Entity, t: Texts, now: Entity) {
    && Picks(was.id, t.id, now.id) && Picks(was.name, t.name, now.name)
    && Picks(was.exchange, t.exchange, now.exchange) && Picks(was.sector, t.sector, now.sector)
  }

  /** What the first counting row of a symbol gives its entity: the company's name or, where blank, the symbol. */
  function RowTexts(row: Row): Texts {
    var k := Key(row.symbol);
    Texts(BuildEntityID(k), if Blank(row.name) then k else Trim(row.name), "NSE", "Unknown")
  }

  predicate Names(row: Row, k: string) {
    Counts(row) && Key(row.symbol) == k
  }

  /** Row `j` is the first that counts for the symbol. */
  predicate FirstNaming(rows: seq<Row>, j: nat, k: string) {
    j < |rows| && Names(rows[j], k) && forall i :: 0 <= i < j ==> !Names(rows[i], k)
  }

  lemma RowTextsSolid(row: Row)
    requires Counts(row)
    ensures SolidTexts(RowTexts(row)) && HasTexts(FreshEntity(row), RowTexts(row))
  {
    RowStrings(row);
  }

  lemma PicksFirstNonEmpty(was: string, other: string)
    requires Solid(other)
    ensures Picks(was, other, FirstNonEmpty(was, other)) && Solid(FirstNonEmpty(was, other))
  {
    TrimOfTrimmed(other);
  }

  lemma RefreshedPicks(e: Entity, row: Row)
    requires Counts(row)
    ensures PicksTexts(e, RowTexts(row), Refreshed(e, row))
  {
    var t := RowTexts(row);
    RowTextsSolid(row);
    PicksFirstNonEmpty(e.id, t.id);
    PicksFirstNonEmpty(e.name, t.name);
    PicksFirstNonEmpty(e.exchange, t.exchange);
    PicksFirstNonEmpty(e.sector, t.sector);
  }

  predicate SolidEntity(e: Entity) {
    Solid(e.id) && Solid(e.name) && Solid(e.exchange) && Solid(e.sector)
  }

  lemma PickedIsSolid(was: Entity, t: Texts, now: Entity)
    requires SolidTexts(t) && PicksTexts(was, t, now)
    ensures SolidEntity(now)
  {}

  /** Solid texts are not changed any more. */
  lemma PicksOfSolid(was: Entity, t: Texts, now: Entity)
    requires SolidEntity(was) && PicksTexts(was, t, now)
    ensures now.id == was.id && now.name == was.name && now.exchange == was.exchange && now.sector == was.sector
  {
    TrimOfTrimmed(was.id);
    TrimOfTrimmed(was.name);
    TrimOfTrimmed(was.exchange);
    TrimOfTrimmed(was.sector);
  }

  /** After the rows an entity has what it had or, where that was blank, what its first row gives. */
  predicate TextsAfterRow(known: bool, was: Entity, t: Texts, now: Entity) {
    if known then PicksTexts(was, t, now) else HasTexts(now, t)
  }

  lemma NotNamedBefore(rows: seq<Row>, j: nat, k: string)
    requires FirstNaming(rows, j, k)
    ensures !Named(rows[..j], k)
  {
    forall i | 0 <= i < j ensures !Names(rows[..j][i], k) {
      assert rows[..j][i] == rows[i];
    }
  }

  lemma FirstNamingFront(rows: seq<Row>, j: nat, k: string)
    requires FirstNaming(rows, j, k) && j < |rows| - 1
    ensures FirstNaming(rows[..|rows| - 1], j, k) && rows[..|rows| - 1][j] == rows[j]
  {
    assert forall i :: 0 <= i < |rows| - 1 ==> rows[..|rows| - 1][i] == rows[i];
  }

  lemma {:induction false} RowsGiveTexts(m: Universe, rows: seq<Row>, j: nat, k: string, was: Entity)
    requires FirstNaming(rows, j, k) && (k in m ==> was == m[k])
    ensures k in ApplyRows(m, rows) && TextsAfterRow(k in m, was, RowTexts(rows[j]), ApplyRows(m, rows)[k])
    ensures ApplyRows(m, rows)[k].symbol == k
  {
    var front, last := rows[..|rows| - 1], rows[|rows| - 1];
    var before := ApplyRows(m, front);
    if j == |rows| - 1 {
      NotNamedBefore(rows, j, k);
      RowsEffect(m, front, k);
      RowTextsSolid(last);
      if k in m { RefreshedPicks(was, last); }
    } else {
      FirstNamingFront(rows, j, k);
      RowsGiveTexts(m, front, j, k, was);
      if Names(last, k) { LaterRowKeeps(k in m, was, RowTexts(rows[j]), before[k], rows[j], last); }
    }
  }

  lemma LaterRowKeeps(known: bool, was: Entity, t: Texts, e: Entity, first: Row, later: Row)
    requires Counts(first) && Counts(later) && t == RowTexts(first) && TextsAfterRow(known, was, t, e)
    ensures TextsAfterRow(known, was, t, Refreshed(e, later))
  {
    RowTextsSolid(first);
    if known { PickedIsSolid(was, t, e); }
    RefreshedPicks(e, later);
    PicksOfSolid(e, RowTexts(later), Refreshed(e, later));
  }

  // ----- Index entries and finishing

  function IndexTexts(f: Entity): Texts {
    Texts(f.id, f.name, f.exchange, f.sector)
  }

  lemma AsIndexPicks(e: Entity, f: Entity)
    requires GoodFallback(f)
    ensures PicksTexts(e, IndexTexts(f), AsIndex(e, f))
  {
    PicksFirstNonEmpty(e.id, f.id);
    PicksFirstNonEmpty(e.name, f.name);
    PicksFirstNonEmpty(e.exchange, f.exchange);
    PicksFirstNonEmpty(e.sector, f.sector);
  }

  lemma EnsureTexts(m: Universe, f: Entity, k: string)
    requires GoodFallback(f)
    ensures k in m && k != Key(f.symbol) ==> k in EnsureIndex(m, f) && EnsureIndex(m, f)[k] == m[k]
    ensures k in m && k == Key(f.symbol) ==> k in EnsureIndex(m, f) && PicksTexts(m[k], IndexTexts(f), EnsureIndex(m, f)[k])
    ensures k !in m ==> (k in EnsureIndex(m, f) <==> k == Key(f.symbol))
    ensures k !in m && k == Key(f.symbol) ==> HasTexts(EnsureIndex(m, f)[k], IndexTexts(f))
    ensures k in EnsureIndex(m, f) ==> EnsureIndex(m, f)[k].symbol == if k in m then m[k].symbol else f.symbol
  {
    if k in m {
      EnsureEffect(m, f, k);
      if k == Key(f.symbol) { AsIndexPicks(m[k], f); }
    } else {
      EnsureNew(m, f, k);
    }
  }

  /** Of solid texts the index entries change nothing. */
  lemma EnsureKeepsSolid(m: Universe, f: Entity, k: string)
    requires GoodFallback(f) && k in m && SolidEntity(m[k])
    ensures k in EnsureIndex(m, f) && HasTexts(EnsureIndex(m, f)[k], IndexTexts(m[k])) && SolidEntity(EnsureIndex(m, f)[k])
    ensures EnsureIndex(m, f)[k].symbol == m[k].symbol
  {
    EnsureTexts(m, f, k);
    if k == Key(f.symbol) { PicksOfSolid(m[k], IndexTexts(f), EnsureIndex(m, f)[k]); }
  }

  lemma BothKeepSolid(m: Universe, k: string)
    requires k in m && SolidEntity(m[k])
    ensures var m' := EnsureIndex(EnsureIndex(m, NIFTY_IT), NIFTY_BANK);
            k in m' && HasTexts(m'[k], IndexTexts(m[k])) && SolidEntity(m'[k]) && m'[k].symbol == m[k].symbol
  {
    FallbackFacts();
    EnsureKeepsSolid(m, NIFTY_IT, k);
    EnsureKeepsSolid(EnsureIndex(m, NIFTY_IT), NIFTY_BANK, k);
  }

  lemma FinishedKeepsSolid(e: Entity)
    requires SolidEntity(e)
    ensures HasTexts(Finished(e), IndexTexts(e))
  {
    TrimOfTrimmed(e.id);
    TrimOfTrimmed(e.name);
    TrimOfTrimmed(e.exchange);
  }

  lemma LoadedTexts(existing: seq<Entity>, k: string)
    ensures k in LoadExisting(existing) <==> k in LastByKey(existing)
    ensures k in LastByKey(existing) ==> HasTexts(LoadExisting(existing)[k], IndexTexts(LastByKey(existing)[k]))
    ensures k in LastByKey(existing) ==> LoadExisting(existing)[k].symbol == LastByKey(existing)[k].symbol
  {}

  /**
    An equity row names the entity: its id, name, exchange and sector are those it had or, where blank
    or where it is new, the built id, the name the first such row gives (the symbol, where that is
    blank), NSE and Unknown.
   */
  lemma NamedTexts(out: seq<Entity>, rows: seq<Row>, existing: seq<Entity>, e: Entity, j: nat)
    requires IsSync(out, rows, existing) && e in out && FirstNaming(rows, j, Key(e.symbol))
    ensures var k, was := Key(e.symbol), LastByKey(existing);
            && e.symbol == k
            && if k in was then PicksTexts(was[k], RowTexts(rows[j]), e) else HasTexts(e, RowTexts(rows[j]))
  {
    var k, m0 := Key(e.symbol), LoadExisting(existing);
    var was := if k in m0 then m0[k] else e;
    LoadedTexts(existing, k);
    ListedEntity(out, rows, existing, e);
    RowsGiveTexts(m0, rows, j, k, was);
    RowTextsSolid(rows[j]);
    var m1 := ApplyRows(m0, rows);
    if k in m0 { PickedIsSolid(was, RowTexts(rows[j]), m1[k]); }
    BothKeepSolid(m1, k);
    FinishedKeepsSolid(Synced(rows, existing)[k]);
  }

  /** An index that no row names has what it had or, where blank or where it is new, the texts of its entry. */
  lemma IndexEntryTexts(out: seq<Entity>, rows: seq<Row>, existing: seq<Entity>, e: Entity, f: Entity)
    requires IsSync(out, rows, existing) && e in out && IsFallback(f) && Key(e.symbol) == Key(f.symbol) && !Named(rows, Key(e.symbol))
    ensures var k, was := Key(e.symbol), LastByKey(existing);
            && e.symbol == (if k in was then was[k].symbol else f.symbol)
            && if k in was then PicksTexts(was[k], IndexTexts(f), e) else HasTexts(e, IndexTexts(f))
  {
    var k, m0 := Key(e.symbol), LoadExisting(existing);
    LoadedTexts(existing, k);
    ListedEntity(out, rows, existing, e);
    RowsEffect(m0, rows, k);
    FallbackFacts();
    var m1 := ApplyRows(m0, rows);
    EnsureTexts(m1, NIFTY_IT, k);
    var m2 := EnsureIndex(m1, NIFTY_IT);
    EnsureTexts(m2, NIFTY_BANK, k);
    assert k in m1 ==> HasTexts(m1[k], IndexTexts(m0[k]));
    if k in m1 { PickedIsSolid(m1[k], IndexTexts(f), Synced(rows, existing)[k]); }
    FinishedKeepsSolid(Synced(rows, existing)[k]);
  }

  /** Any other entity keeps its texts as they are, but for a blank id, name or exchange. */
  lemma OtherTexts(out: seq<Entity>, rows: seq<Row>, existing: seq<Entity>, e: Entity)
    requires IsSync(out, rows, existing) && e in out && !Named(rows, Key(e.symbol)) && !IsIndexKey(Key(e.symbol))
    ensures var k, was := Key(e.symbol), LastByKey(existing);
            && k in was && e.symbol == was[k].symbol && e.sector == was[k].sector
            && e.id == (if Blank(was[k].id) then BuildEntityID(was[k].symbol) else was[k].id)
            && e.name == (if Blank(was[k].name) then was[k].symbol else was[k].name)
            && e.exchange == (if Blank(was[k].exchange) then "NSE" else was[k].exchange)
  {
    var k, m0 := Key(e.symbol), LoadExisting(existing);
    LoadedTexts(existing, k);
    ListedEntity(out, rows, existing, e);
    RowsEffect(m0, rows, k);
    FallbackFacts();
    var m1 := ApplyRows(m0, rows);
    EnsureTexts(m1, NIFTY_IT, k);
    EnsureTexts(EnsureIndex(m1, NIFTY_IT), NIFTY_BANK, k);
  }

  // ----- Aliases and type

  /** The row brings this alias: its symbol, or its name where there is one. */
  predicate RowBrings(row: Row, k: string, a: string) {
    Names(row, k) && (a == k || (!Blank(row.name) && a == Key(row.name)))
  }

  predicate SomeRowBrings(rows: seq<Row>, k: string, a: string) {
    exists j :: 0 <= j < |rows| && RowBrings(rows[j], k, a)
  }

  lemma SomeRowBringsAppend(rows: seq<Row>, k: string, a: string)
    requires rows != []
    ensures SomeRowBrings(rows, k, a) <==> SomeRowBrings(rows[..|rows| - 1], k, a) || RowBrings(rows[|rows| - 1], k, a)
  {
    var front := rows[..|rows| - 1];
    assert forall j :: 0 <= j < |front| ==> front[j] == rows[j];
    if SomeRowBrings(front, k, a) {
      var j :| 0 <= j < |front| && RowBrings(front[j], k, a);
      assert RowBrings(rows[j], k, a);
    }
  }

  lemma FreshAliases(row: Row, k: string, a: string)
    requires Names(row, k) && a != ""
    ensures HasKey(FreshEntity(row).aliases, a) <==> RowBrings(row, k, a)
  {
    KeyOfKey(row.symbol);
    KeyOfKey(row.name);
    TwoKeys(k, RowName(row), a);
  }

  lemma TwoKeys(x: string, y: string, a: string)
    ensures HasKey([x, y], a) <==> a == Key(x) || a == Key(y)
  {
    assert [x, y][0] == x && [x, y][1] == y;
  }

  lemma {:induction false} RowsBringAliases(m: Universe, rows: seq<Row>, k: string, a: string)
    requires a != "" && k in ApplyRows(m, rows)
    ensures HasKey(ApplyRows(m, rows)[k].aliases, a) <==> (k in m && HasKey(m[k].aliases, a)) || SomeRowBrings(rows, k, a)
  {
    if rows != [] {
      var front, row := rows[..|rows| - 1], rows[|rows| - 1];
      var before := ApplyRows(m, front);
      SomeRowBringsAppend(rows, k, a);
      if k in before { RowsBringAliases(m, front, k, a); } else { NothingBrought(m, front, k, a); }
      if Names(row, k) {
        FreshAliases(row, k, a);
        if k in before { RefreshedAliases(before[k], row); }
      }
    }
  }

  lemma NothingBrought(m: Universe, rows: seq<Row>, k: string, a: string)
    requires k !in ApplyRows(m, rows)
    ensures k !in m && !SomeRowBrings(rows, k, a)
  {
    RowsEffect(m, rows, k);
    if j :| 0 <= j < |rows| && RowBrings(rows[j], k, a) { assert Named(rows, k); }
  }

  predicate EntryBrings(f: Entity, k: string, a: string) {
    k == Key(f.symbol) && HasKey(f.aliases, a)
  }

  lemma EnsureAliases(m: Universe, f: Entity, k: string, a: string)
    requires GoodFallback(f) && a != "" && k in EnsureIndex(m, f)
    ensures HasKey(EnsureIndex(m, f)[k].aliases, a) <==> (k in m && HasKey(m[k].aliases, a)) || EntryBrings(f, k, a)
  {
    if k in m {
      EnsureEffect(m, f, k);
      MergeKeepsKeys(m[k].aliases, f.aliases);
    } else {
      EnsureNew(m, f, k);
      UniqueNonEmptyFacts(f.aliases);
    }
  }

  /**
    The aliases of an entity are, up to case, exactly those it had, the symbol and name of every equity
    row for it, and those of its entry if it is an index.
   */
  lemma SyncAliasesIff(out: seq<Entity>, rows: seq<Row>, existing: seq<Entity>, e: Entity, a: string)
    requires IsSync(out, rows, existing) && e in out && a != ""
    ensures var k, was := Key(e.symbol), LastByKey(existing);
            HasKey(e.aliases, a) <==>
              || (k in was && HasKey(was[k].aliases, a)) || SomeRowBrings(rows, k, a)
              || EntryBrings(NIFTY_IT, k, a) || EntryBrings(NIFTY_BANK, k, a)
  {
    var k, m0 := Key(e.symbol), LoadExisting(existing);
    var m1 := ApplyRows(m0, rows);
    var m2 := EnsureIndex(m1, NIFTY_IT);
    ListedEntity(out, rows, existing, e);
    FallbackFacts();
    UniqueNonEmptyFacts(Synced(rows, existing)[k].aliases);
    EnsureAliases(m2, NIFTY_BANK, k, a);
    if k in m2 { EnsureAliases(m1, NIFTY_IT, k, a); } else { EnsureTexts(m1, NIFTY_IT, k); }
    if k in m1 { RowsBringAliases(m0, rows, k, a); } else { NothingBrought(m0, rows, k, a); }
  }

  /** An entity that was not known is an equity, or an index if it is one of the two. */
  lemma NewType(out: seq<Entity>, rows: seq<Row>, existing: seq<Entity>, e: Entity)
    requires IsSync(out, rows, existing) && e in out && Key(e.symbol) !in LastByKey(existing)
    ensures e.typ == if IsIndexKey(Key(e.symbol)) then INDEX else EQUITY
  {
    var k, m0 := Key(e.symbol), LoadExisting(existing);
    var m1 := ApplyRows(m0, rows);
    var m2 := EnsureIndex(m1, NIFTY_IT);
    ListedEntity(out, rows, existing, e);
    RowsKeepTexts(m0, rows, k);
    FallbackFacts();
    EnsureFields(m1, NIFTY_IT, k);
    EnsureFields(m2, NIFTY_BANK, k);
    EnsureTexts(m1, NIFTY_IT, k);
    EnsureTexts(m2, NIFTY_BANK, k);
    FinishedKeeps(Synced(rows, existing)[k]);
  }

  /** A sync of nothing into nothing holds the two indexes, as the program words them, and nothing else. */
  lemma SyncOfNothing(out: seq<Entity>, e: Entity, a: string)
    requires IsSync(out, [], []) && e in out && a != ""
    ensures (e.symbol == "NIFTIT" && HasTexts(e, Texts("nse-index-niftit", "Nifty IT", "NSE", "Index")))
            || (e.symbol == "NIFTBANK" && HasTexts(e, Texts("nse-index-niftbank", "Nifty Bank", "NSE", "Index")))
    ensures e.typ == "index" && e.enabled && e.role == ""
    ensures e.symbol == "NIFTIT" ==> (HasKey(e.aliases, a) <==> a == Key("NIFTIT") || a == Key("Nifty IT"))
    ensures e.symbol == "NIFTBANK" ==> (HasKey(e.aliases, a) <==> a == Key("NIFTBANK") || a == Key("Nifty Bank"))
    ensures Covers(out, "NIFTIT") && Covers(out, "NIFTBANK")
  {
    var k := Key(e.symbol);
    NothingKnown(k);
    ListedEntity(out, [], [], e);
    SyncedFields([], [], k);
    FallbackFacts();
    var f := if k == Key(NIFTY_IT.symbol) then NIFTY_IT else NIFTY_BANK;
    IndexEntryTexts(out, [], [], e, f);
    NewType(out, [], [], e);
    SyncKeepsRoleIff(out, [], [], e);
    SyncAliasesIff(out, [], [], e, a);
    TwoKeys("NIFTIT", "Nifty IT", a);
    TwoKeys("NIFTBANK", "Nifty Bank", a);
    SyncCoversSymbols(out, [], [], "NIFTIT");
    SyncCoversSymbols(out, [], [], "NIFTBANK");
  }

  lemma NothingKnown(k: string)
    ensures k !in LastByKey([]) && !Named([], k)
  {}
}
