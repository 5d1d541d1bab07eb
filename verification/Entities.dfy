/**
  The entity universe (internal/config/types.go): entities, groups, and the small normalisers.
 */
module Entities {
  import opened Text

  const EQUITY := "equity"
  const INDEX := "index"
  const PARENT := "parent"
  const CHILD := "child"

  datatype Entity = Entity(
    id: string,
    symbol: string,
    name: string,
    aliases: seq<string>,
    exchange: string,
    sector: string,
    role: string,
    typ: string,
    enabled: bool)

  datatype EntityGroup = EntityGroup(id: string, parentSymbol: string, childSymbols: seq<string>)

  datatype Factor = Factor(id: string, name: string, category: string, keywords: seq<string>, weight: real)

  function NormalizeEntityType(raw: string): string {
    var typ := Lower(Trim(raw));
    if typ == EQUITY || typ == INDEX then typ else EQUITY
  }

  function NormalizeEntityRole(raw: string): string {
    var role := Lower(Trim(raw));
    if role == PARENT || role == CHILD then role else ""
  }

  function DefaultEntityTypeForSymbol(symbol: string): string {
    if "NIFT" <= Key(symbol) then INDEX else EQUITY
  }

  /** The type an entity carries once loaded: a blank type is guessed from the symbol. */
  function LoadedType(e: Entity): string {
    if Blank(e.typ) then DefaultEntityTypeForSymbol(e.symbol) else NormalizeEntityType(e.typ)
  }

  function Loaded(e: Entity): Entity {
    e.(typ := LoadedType(e))
  }

  /** A type is index if it says so, whatever its case and outer spaces, and equity otherwise. */
  lemma TypeMeaning(raw: string)
    ensures NormalizeEntityType(raw) == "index" <==> Lower(Trim(raw)) == "index"
    ensures NormalizeEntityType(raw) == "index" || NormalizeEntityType(raw) == "equity"
  {}

  /** A role is parent or child if it says so, and blank otherwise. */
  lemma RoleMeaning(raw: string)
    ensures NormalizeEntityRole(raw) == "parent" <==> Lower(Trim(raw)) == "parent"
    ensures NormalizeEntityRole(raw) == "child" <==> Lower(Trim(raw)) == "child"
    ensures NormalizeEntityRole(raw) == "parent" || NormalizeEntityRole(raw) == "child" || NormalizeEntityRole(raw) == ""
  {}

  /** A blank type is guessed: symbols that start with NIFT are indexes. */
  lemma LoadedTypeMeaning(e: Entity)
    ensures LoadedType(e) == "index" <==>
              if Blank(e.typ) then |Key(e.symbol)| >= 4 && Key(e.symbol)[..4] == "NIFT" else Lower(Trim(e.typ)) == "index"
    ensures LoadedType(e) == "index" || LoadedType(e) == "equity"
  {
    assert "NIFT" <= Key(e.symbol) <==> |Key(e.symbol)| >= 4 && Key(e.symbol)[..4] == "NIFT";
  }

  lemma NormalizeEntityTypeStable(raw: string)
    ensures NormalizeEntityType(NormalizeEntityType(raw)) == NormalizeEntityType(raw)
    ensures !Blank(NormalizeEntityType(raw))
  {
    var t := NormalizeEntityType(raw);
    TypeNamesAreWords(t);
    PlainWord(t);
  }

  lemma TypeNamesAreWords(t: string)
    requires t == EQUITY || t == INDEX
    ensures t != [] && forall i :: 0 <= i < |t| ==> IsWord(t[i])
  {}

  lemma PlainWord(t: string)
    requires t != [] && forall i :: 0 <= i < |t| ==> IsWord(t[i])
    ensures Trim(t) == t && Lower(t) == t
  {
    TrimOfTrimmed(t);
  }
}
