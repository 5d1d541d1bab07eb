/**
  What a request selects (internal/engine/service.go, selectEntities): of the entities its items name,
  each key once, the first item winning.
 */
module Requests {
  import opened Text
  import opened Entities
  import opened EntityMap
  import opened Selection

  // ----- What gets selected

  type Items = int -> Option<Entity>

  type Keying = Entity -> string

  /** The entity each requested item names, if it is not blank and names one. */
  function ItemsOf(lookup: Universe, requested: seq<string>): Items {
    (i: int) =>
      if 0 <= i < |requested| && Key(requested[i]) != "" && Key(requested[i]) in lookup
      then Some(lookup[Key(requested[i])]) else None
  }

  /** The key an item's entity is selected under. */
  function ItemKey(items: Items, keyOf: Keying, i: int): Option<string> {
    if items(i).Some? then Some(keyOf(items(i).value)) else None
  }

  predicate HasKeyed(es: seq<Entity>, keyOf: Keying, key: string) {
    exists i :: 0 <= i < |es| && keyOf(es[i]) == key
  }

  /** The entities of the first `n` items, each key once. */
  function KeepFirst(items: Items, keyOf: Keying, n: nat): seq<Entity> {
    if n == 0 then []
    else
      var before, item := KeepFirst(items, keyOf, n - 1), items(n - 1);
      if item.None? || HasKeyed(before, keyOf, keyOf(item.value)) then before else before + [item.value]
  }

  lemma {:induction false} SelectedKeepsFirst(lookup: Universe, requested: seq<string>, n: nat)
    requires n <= |requested|
    ensures Selected(lookup, requested, n) == KeepFirst(ItemsOf(lookup, requested), EntityKey, n)
  {
    if n > 0 {
      SelectedKeepsFirst(lookup, requested, n - 1);
      var before := Selected(lookup, requested, n - 1);
      forall key ensures Chosen(before, key) <==> HasKeyed(before, EntityKey, key) {}
    }
  }

  /** The item names an entity, and no earlier item named one with the same key. */
  ghost predicate FirstOfKey(items: Items, keyOf: Keying, i: int) {
    items(i).Some? && forall j :: 0 <= j < i ==> ItemKey(items, keyOf, j) != ItemKey(items, keyOf, i)
  }

  lemma KeepStep(items: Items, keyOf: Keying, n: nat, key: string)
    requires n > 0
    ensures HasKeyed(KeepFirst(items, keyOf, n), keyOf, key) <==>
              HasKeyed(KeepFirst(items, keyOf, n - 1), keyOf, key) || ItemKey(items, keyOf, n - 1) == Some(key)
  {
    var before, item := KeepFirst(items, keyOf, n - 1), items(n - 1);
    if item.Some? {
      var es := before + [item.value];
      assert es[|before|] == item.value && forall i :: 0 <= i < |before| ==> es[i] == before[i];
    }
  }

  lemma {:induction false} KeyCovered(items: Items, keyOf: Keying, n: nat, i: nat)
    requires i < n && items(i).Some?
    ensures HasKeyed(KeepFirst(items, keyOf, n), keyOf, keyOf(items(i).value))
  {
    KeepStep(items, keyOf, n, keyOf(items(i).value));
    if i < n - 1 { KeyCovered(items, keyOf, n - 1, i); }
  }

  lemma {:induction false} KeyOrigin(items: Items, keyOf: Keying, n: nat, key: string) returns (i: nat)
    requires HasKeyed(KeepFirst(items, keyOf, n), keyOf, key)
    ensures i < n && ItemKey(items, keyOf, i) == Some(key)
  {
    KeepStep(items, keyOf, n, key);
    if ItemKey(items, keyOf, n - 1) == Some(key) { i := n - 1; } else { i := KeyOrigin(items, keyOf, n - 1, key); }
  }

  /** An item brings in a new key exactly when it is the first of its key. */
  lemma NewKeyIff(items: Items, keyOf: Keying, i: nat)
    requires items(i).Some?
    ensures !HasKeyed(KeepFirst(items, keyOf, i), keyOf, keyOf(items(i).value)) <==> FirstOfKey(items, keyOf, i)
  {
    var key := keyOf(items(i).value);
    if HasKeyed(KeepFirst(items, keyOf, i), keyOf, key) {
      var j := KeyOrigin(items, keyOf, i, key);
    } else {
      forall j: nat | j < i ensures ItemKey(items, keyOf, j) != Some(key) {
        if items(j).Some? { KeyCovered(items, keyOf, i, j); }
      }
    }
  }

  lemma {:induction false} KeptOrigin(items: Items, keyOf: Keying, n: nat, e: Entity) returns (i: nat)
    requires e in KeepFirst(items, keyOf, n)
    ensures i < n && FirstOfKey(items, keyOf, i) && items(i).value == e
  {
    if e in KeepFirst(items, keyOf, n - 1) {
      i := KeptOrigin(items, keyOf, n - 1, e);
    } else {
      i := n - 1;
      NewKeyIff(items, keyOf, i);
    }
  }

  lemma {:induction false} FirstIsKept(items: Items, keyOf: Keying, n: nat, i: nat)
    requires i < n && FirstOfKey(items, keyOf, i)
    ensures items(i).value in KeepFirst(items, keyOf, n)
  {
    if i < n - 1 { FirstIsKept(items, keyOf, n - 1, i); } else { NewKeyIff(items, keyOf, i); }
  }

  lemma {:induction false} LeastOfKey(items: Items, keyOf: Keying, i: nat) returns (first: nat)
    requires items(i).Some?
    ensures first <= i && FirstOfKey(items, keyOf, first) && ItemKey(items, keyOf, first) == ItemKey(items, keyOf, i)
  {
    if j: nat :| j < i && ItemKey(items, keyOf, j) == ItemKey(items, keyOf, i) {
      first := LeastOfKey(items, keyOf, j);
    } else {
      first := i;
    }
  }

  lemma {:induction false} KeptOnce(items: Items, keyOf: Keying, n: nat)
    ensures forall i, j :: 0 <= i < j < |KeepFirst(items, keyOf, n)| ==>
              keyOf(KeepFirst(items, keyOf, n)[i]) != keyOf(KeepFirst(items, keyOf, n)[j])
  {
    if n > 0 { KeptOnce(items, keyOf, n - 1); }
  }

  /** Items that name entities of one key name the same entity. */
  ghost predicate KeysApart(items: Items, keyOf: Keying, n: nat) {
    forall i: nat, j: nat :: i < n && j < n && items(i).Some? && ItemKey(items, keyOf, i) == ItemKey(items, keyOf, j)
      ==> items(i) == items(j)
  }

  ghost predicate AllKept(items: Items, keyOf: Keying, n: nat) {
    forall i: nat :: i < n && items(i).Some? ==> items(i).value in KeepFirst(items, keyOf, n)
  }

  lemma AllKeptIff(items: Items, keyOf: Keying, n: nat)
    ensures AllKept(items, keyOf, n) <==> KeysApart(items, keyOf, n)
  {
    if KeysApart(items, keyOf, n) {
      forall i: nat | i < n && items(i).Some? ensures items(i).value in KeepFirst(items, keyOf, n) {
        var first := LeastOfKey(items, keyOf, i);
        FirstIsKept(items, keyOf, n, first);
      }
    }
    if AllKept(items, keyOf, n) {
      forall i: nat, j: nat | i < n && j < n && items(i).Some? && ItemKey(items, keyOf, i) == ItemKey(items, keyOf, j)
        ensures items(i) == items(j)
      {
        var a := KeptOrigin(items, keyOf, n, items(i).value);
        var b := KeptOrigin(items, keyOf, n, items(j).value);
        SameFirst(items, keyOf, a, b);
      }
    }
  }

  lemma SameFirst(items: Items, keyOf: Keying, a: nat, b: nat)
    requires FirstOfKey(items, keyOf, a) && FirstOfKey(items, keyOf, b)
    requires ItemKey(items, keyOf, a) == ItemKey(items, keyOf, b)
    ensures a == b
  {}

  /** Selected are exactly the entities of the items that are the first of their key. */
  lemma SelectedMeaning(lookup: Universe, requested: seq<string>, e: Entity)
    ensures var items := ItemsOf(lookup, requested);
            e in Selected(lookup, requested, |requested|) <==>
              exists i: nat :: i < |requested| && FirstOfKey(items, EntityKey, i) && items(i).value == e
  {
    var items := ItemsOf(lookup, requested);
    SelectedKeepsFirst(lookup, requested, |requested|);
    if e in Selected(lookup, requested, |requested|) {
      var i := KeptOrigin(items, EntityKey, |requested|, e);
    }
    if i: nat :| i < |requested| && FirstOfKey(items, EntityKey, i) && items(i).value == e {
      FirstIsKept(items, EntityKey, |requested|, i);
    }
  }

  /**
    The entity of every requested item is selected exactly when no two of the entities the items name
    share the key they are selected under.
   */
  lemma AllSelectedIff(lookup: Universe, requested: seq<string>)
    ensures var items := ItemsOf(lookup, requested);
            (forall i: nat :: i < |requested| && items(i).Some? ==> items(i).value in Selected(lookup, requested, |requested|))
            <==> KeysApart(items, EntityKey, |requested|)
  {
    SelectedKeepsFirst(lookup, requested, |requested|);
    AllKeptIff(ItemsOf(lookup, requested), EntityKey, |requested|);
  }

  // ----- Requested symbols

  predicate NamesSymbol(items: Items, i: int, p: string) {
    items(i).Some? && Key(items(i).value.symbol) == p
  }

  /** Some item names an entity with this symbol. */
  predicate Requested(items: Items, n: nat, p: string) {
    exists i :: 0 <= i < n && NamesSymbol(items, i, p)
  }

  /** The item names an entity without symbol that has this as its name. */
  predicate NamesNameless(items: Items, i: int, p: string) {
    NamesSymbol(items, i, "") && Key(items(i).value.name) == p
  }

  /** Before any item names an entity with this symbol, one names an entity without symbol that has it as its name. */
  ghost predicate Shadowed(items: Items, n: nat, p: string) {
    exists i :: 0 <= i < n && NamesNameless(items, i, p) && forall j :: 0 <= j < i ==> !NamesSymbol(items, j, p)
  }

  /** An item's key is `p` if it names the symbol, or an entity without symbol of that name. */
  lemma KeyIs(items: Items, i: int, p: string)
    requires p != ""
    ensures ItemKey(items, EntityKey, i) == Some(p) <==> NamesSymbol(items, i, p) || NamesNameless(items, i, p)
  {}

  /** A symbol is selected exactly when it is requested and not shadowed. */
  lemma SelectedSymbolIff(lookup: Universe, requested: seq<string>, p: string)
    requires p != ""
    ensures var items, n := ItemsOf(lookup, requested), |requested|;
            HasSymbol(Selected(lookup, requested, n), p) <==> Requested(items, n, p) && !Shadowed(items, n, p)
  {
    var items, n := ItemsOf(lookup, requested), |requested|;
    SelectedKeepsFirst(lookup, requested, n);
    if HasSymbol(KeepFirst(items, EntityKey, n), p) { KeptSymbol(items, n, p); }
    if Requested(items, n, p) && !Shadowed(items, n, p) { SymbolKept(items, n, p); }
  }

  lemma KeptSymbol(items: Items, n: nat, p: string)
    requires p != "" && HasSymbol(KeepFirst(items, EntityKey, n), p)
    ensures Requested(items, n, p) && !Shadowed(items, n, p)
  {
    var kept := KeepFirst(items, EntityKey, n);
    var x :| 0 <= x < |kept| && Key(kept[x].symbol) == p;
    var i := KeptOrigin(items, EntityKey, n, kept[x]);
    SelectedUnshadowed(items, n, p, i);
  }

  lemma SymbolKept(items: Items, n: nat, p: string)
    requires p != "" && Requested(items, n, p) && !Shadowed(items, n, p)
    ensures HasSymbol(KeepFirst(items, EntityKey, n), p)
  {
    var kept := KeepFirst(items, EntityKey, n);
    var i :| 0 <= i < n && NamesSymbol(items, i, p);
    KeyIs(items, i, p);
    var first := LeastOfKey(items, EntityKey, i);
    UnshadowedFirst(items, n, p, first);
    FirstIsKept(items, EntityKey, n, first);
    var x :| 0 <= x < |kept| && kept[x] == items(first).value;
  }

  lemma SelectedUnshadowed(items: Items, n: nat, p: string, i: nat)
    requires p != "" && i < n && FirstOfKey(items, EntityKey, i) && NamesSymbol(items, i, p)
    ensures Requested(items, n, p) && !Shadowed(items, n, p)
  {
    forall x | 0 <= x < n && NamesNameless(items, x, p) ensures x > i {
      KeyIs(items, x, p);
      KeyIs(items, i, p);
    }
  }

  lemma UnshadowedFirst(items: Items, n: nat, p: string, first: nat)
    requires p != "" && first < n && FirstOfKey(items, EntityKey, first) && ItemKey(items, EntityKey, first) == Some(p)
    requires !Shadowed(items, n, p)
    ensures NamesSymbol(items, first, p)
  {
    KeyIs(items, first, p);
    forall j | 0 <= j < first ensures !NamesSymbol(items, j, p) {
      KeyIs(items, j, p);
    }
  }
}
