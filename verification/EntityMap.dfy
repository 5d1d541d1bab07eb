/**
  Entities filed in a map under their upper-cased symbol, the way both the sync and the run selection
  do it: blanks are left out, and of several entities with one key the last stays.
 */
module EntityMap {
  import opened Text
  import opened Entities

  type Universe = map<string, Entity>

  /** The first `n` entities by key, blanks left out; of several with one key the last stays. */
  function FirstByKey(es: seq<Entity>, n: nat): Universe
    requires n <= |es|
  {
    if n == 0 then map[]
    else
      var m, k := FirstByKey(es, n - 1), Key(es[n - 1].symbol);
      if k == "" then m else m[k := es[n - 1]]
  }

  function LastByKey(es: seq<Entity>): Universe {
    FirstByKey(es, |es|)
  }

  function AllLoaded(m: Universe): Universe {
    map k | k in m :: Loaded(m[k])
  }

  lemma AllLoadedUpdate(m: Universe, k: string, e: Entity)
    ensures AllLoaded(m[k := e]) == AllLoaded(m)[k := Loaded(e)]
  {}

  /** Every entity is filed under the key of its symbol, which is never blank. */
  ghost predicate Filed(m: Universe) {
    forall k :: k in m ==> k != "" && Key(m[k].symbol) == k
  }

  lemma {:induction false} FirstByKeyFiled(es: seq<Entity>, n: nat)
    requires n <= |es|
    ensures Filed(FirstByKey(es, n))
  {
    if n > 0 { FirstByKeyFiled(es, n - 1); }
  }

  /** `es[i]` is the last entity with key `k`. */
  ghost predicate LastAt(es: seq<Entity>, i: nat, k: string) {
    i < |es| && Key(es[i].symbol) == k && forall j :: i < j < |es| ==> Key(es[j].symbol) != k
  }

  /** The map holds, for every key that is not blank, the last entity with that key. */
  lemma {:induction false} LastWins(es: seq<Entity>, i: nat, k: string, n: nat)
    requires LastAt(es, i, k) && k != "" && i < n <= |es|
    ensures k in FirstByKey(es, n) && FirstByKey(es, n)[k] == es[i]
  {
    if i < n - 1 { LastWins(es, i, k, n - 1); }
  }

  lemma {:induction false} KnownIndex(es: seq<Entity>, k: string, n: nat) returns (i: nat)
    requires n <= |es| && k in FirstByKey(es, n)
    ensures i < n && Key(es[i].symbol) == k && k != ""
  {
    var key := Key(es[n - 1].symbol);
    if key == k && key != "" {
      i := n - 1;
    } else {
      assert k in FirstByKey(es, n - 1);
      i := KnownIndex(es, k, n - 1);
    }
  }

  lemma {:induction false} LastIndex(es: seq<Entity>, k: string, i: nat, n: nat) returns (last: nat)
    requires i < n <= |es| && Key(es[i].symbol) == k
    requires forall j :: n <= j < |es| ==> Key(es[j].symbol) != k
    ensures LastAt(es, last, k)
  {
    if Key(es[n - 1].symbol) == k { last := n - 1; } else { last := LastIndex(es, k, i, n - 1); }
  }

  lemma LastKnown(es: seq<Entity>, k: string) returns (i: nat)
    requires k in LastByKey(es)
    ensures LastAt(es, i, k) && k != "" && LastByKey(es)[k] == es[i]
  {
    i := KnownIndex(es, k, |es|);
    i := LastIndex(es, k, i, |es|);
    LastWins(es, i, k, |es|);
  }

  /** No two entities of the list share a symbol. */
  ghost predicate DistinctSymbols(all: seq<Entity>) {
    forall i, j :: 0 <= i < j < |all| && Key(all[i].symbol) != "" ==> Key(all[i].symbol) != Key(all[j].symbol)
  }

  lemma DistinctSymbolsFiled(all: seq<Entity>, k: string)
    requires DistinctSymbols(all) && k != ""
    ensures k in LastByKey(all) <==> exists i :: 0 <= i < |all| && Key(all[i].symbol) == k
    ensures forall i :: 0 <= i < |all| && Key(all[i].symbol) == k ==> k in LastByKey(all) && LastByKey(all)[k] == all[i]
  {
    if k in LastByKey(all) { var i := LastKnown(all, k); }
    forall i | 0 <= i < |all| && Key(all[i].symbol) == k ensures k in LastByKey(all) && LastByKey(all)[k] == all[i] {
      LastWins(all, i, k, |all|);
    }
  }
}
