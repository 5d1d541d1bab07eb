/**
  Alias lists (internal/nse/bhavcopy.go, uniqueNonEmpty and mergeAliases): trimmed, without blanks,
  one spelling per upper-cased key, sorted.
 */
module Aliases {
  import opened Text
  import opened Sorting

  lemma StringOrder()
    ensures StrictOrder(StrLess)
  {
    forall a ensures !StrLess(a, a) { StrLessIrreflexive(a); }
    forall a, b, c | StrLess(a, b) && StrLess(b, c) ensures StrLess(a, c) { StrLessTrans(a, b, c); }
  }

  lemma DistinctComparable(xs: seq<string>)
    requires forall i, j :: 0 <= i < j < |xs| ==> xs[i] != xs[j]
    ensures Comparable(xs, StrLess)
  {
    forall i, j | 0 <= i < j < |xs| ensures StrLess(xs[i], xs[j]) || StrLess(xs[j], xs[i]) {
      StrLessTotal(xs[i], xs[j]);
    }
  }

  /** Some spelling of the key is in the list. */
  predicate HasKey(xs: seq<string>, key: string) {
    exists i :: 0 <= i < |xs| && Key(xs[i]) == key
  }

  /** The first spelling of every key, in order of appearance. */
  function FirstSpellings(values: seq<string>): seq<string> {
    if values == [] then []
    else
      var front, t := FirstSpellings(values[..|values| - 1]), Trim(values[|values| - 1]);
      if t == "" || HasKey(front, Key(t)) then front else front + [t]
  }

  function UniqueNonEmptyOf(values: seq<string>): seq<string> {
    Sort(FirstSpellings(values), StrLess)
  }

  function MergeAliases(a: seq<string>, b: seq<string>): seq<string> {
    UniqueNonEmptyOf(a + b)
  }

  ghost predicate Clean(xs: seq<string>) {
    && (forall i :: 0 <= i < |xs| ==> xs[i] != "" && Trimmed(xs[i]))
    && (forall i, j :: 0 <= i < j < |xs| ==> Key(xs[i]) != Key(xs[j]))
  }

  /** What `uniqueNonEmpty` leaves: clean and sorted. */
  ghost predicate Canonical(xs: seq<string>) {
    Clean(xs) && Ascending(xs, StrLess)
  }

  method UniqueNonEmpty(values: seq<string>) returns (out: seq<string>)
    ensures out == UniqueNonEmptyOf(values)
  {
    var seen: set<string> := {};
    out := [];
    for n := 0 to |values|
      invariant out == FirstSpellings(values[..n])
      invariant forall k :: k in seen <==> HasKey(out, k)
    {
      var trimmed := Trim(values[n]);
      assert values[..n + 1][..n] == values[..n];
      KeyOfKey(values[n]);
      TrimOfTrimmed(trimmed);
      if trimmed == "" {
        continue;
      }
      var key := Upper(trimmed);
      if key in seen {
        continue;
      }
      HasKeyAppend(out, trimmed);
      seen := seen + {key};
      out := out + [trimmed];
    }
    assert values[..|values|] == values;
    out := Sort(out, StrLess);
  }

  lemma HasKeyAppend(xs: seq<string>, x: string)
    ensures forall k :: HasKey(xs + [x], k) <==> HasKey(xs, k) || k == Key(x)
  {
    forall k ensures HasKey(xs + [x], k) <==> HasKey(xs, k) || k == Key(x) {
      if HasKey(xs, k) {
        var i :| 0 <= i < |xs| && Key(xs[i]) == k;
        assert (xs + [x])[i] == xs[i];
      }
      assert (xs + [x])[|xs|] == x;
    }
  }

  lemma HasKeyMembers(xs: seq<string>, ys: seq<string>)
    requires forall x :: x in xs <==> x in ys
    ensures forall k :: HasKey(xs, k) <==> HasKey(ys, k)
  {
    forall k ensures HasKey(xs, k) <==> HasKey(ys, k) {
      HasKeyMonotone(xs, ys, k);
      HasKeyMonotone(ys, xs, k);
    }
  }

  lemma HasKeyMonotone(xs: seq<string>, ys: seq<string>, k: string)
    requires forall x :: x in xs ==> x in ys
    ensures HasKey(xs, k) ==> HasKey(ys, k)
  {
    if HasKey(xs, k) {
      var i :| 0 <= i < |xs| && Key(xs[i]) == k;
      assert xs[i] in ys;
      var j :| 0 <= j < |ys| && ys[j] == xs[i];
    }
  }

  lemma {:induction false} FirstSpellingsFacts(values: seq<string>)
    ensures Clean(FirstSpellings(values))
    ensures forall k :: HasKey(FirstSpellings(values), k) <==> k != "" && HasKey(values, k)
  {
    if values != [] {
      var front, v := values[..|values| - 1], values[|values| - 1];
      FirstSpellingsFacts(front);
      KeyOfKey(v);
      HasKeyAppend(front, v);
      HasKeyAppend(FirstSpellings(front), Trim(v));
      assert values == front + [v];
      if Trim(v) != "" && !HasKey(FirstSpellings(front), Key(Trim(v))) {
        CleanAppend(FirstSpellings(front), Trim(v));
      }
    }
  }

  /** The result is canonical and holds exactly the non-blank keys of the input. */
  lemma UniqueNonEmptyFacts(values: seq<string>)
    ensures Canonical(UniqueNonEmptyOf(values))
    ensures forall k :: HasKey(UniqueNonEmptyOf(values), k) <==> k != "" && HasKey(values, k)
  {
    var xs := FirstSpellings(values);
    FirstSpellingsFacts(values);
    StringOrder();
    DistinctComparable(xs);
    SortAscends(xs, StrLess);
    HasKeyMembers(Sort(xs, StrLess), xs);
    SortedStaysClean(xs);
  }

  lemma SortedStaysClean(xs: seq<string>)
    requires Clean(xs)
    ensures Clean(Sort(xs, StrLess))
  {
    var ys := Sort(xs, StrLess);
    StringOrder();
    DistinctComparable(xs);
    SortAscends(xs, StrLess);
    forall i | 0 <= i < |ys| ensures ys[i] != "" && Trimmed(ys[i]) {
      assert ys[i] in xs;
    }
    forall i, j | 0 <= i < j < |ys| ensures Key(ys[i]) != Key(ys[j]) {
      assert StrLess(ys[i], ys[j]);
      StrLessIrreflexive(ys[i]);
      assert ys[i] in xs && ys[j] in xs;
      var a :| 0 <= a < |xs| && xs[a] == ys[i];
      var b :| 0 <= b < |xs| && xs[b] == ys[j];
      assert a != b;
    }
  }

  /** No earlier value has the key of this one, which is not blank. */
  ghost predicate FirstSpelled(values: seq<string>, i: nat) {
    i < |values| && !Blank(values[i]) && forall j :: 0 <= j < i ==> Key(values[j]) != Key(values[i])
  }

  lemma FirstSpelledFront(values: seq<string>, i: nat)
    requires values != [] && i < |values| - 1
    ensures FirstSpelled(values[..|values| - 1], i) <==> FirstSpelled(values, i)
  {
    assert forall j :: 0 <= j < |values| - 1 ==> values[..|values| - 1][j] == values[j];
  }

  /** The last value is the first of its key exactly when the spellings before it do not have it. */
  lemma LastSpelling(values: seq<string>)
    requires values != []
    ensures var front, v := values[..|values| - 1], values[|values| - 1];
            FirstSpelled(values, |values| - 1) <==> Trim(v) != "" && !HasKey(FirstSpellings(front), Key(Trim(v)))
  {
    var front, v := values[..|values| - 1], values[|values| - 1];
    KeyOfKey(v);
    FirstSpellingsFacts(front);
    if HasKey(front, Key(v)) {
      var j :| 0 <= j < |front| && Key(front[j]) == Key(v);
      assert values[j] == front[j];
    }
    assert forall j :: 0 <= j < |front| ==> values[j] == front[j];
    BlankKey(v);
  }

  lemma BlankKey(v: string)
    ensures Blank(v) <==> Key(v) == ""
  {}

  ghost predicate SpelledSo(values: seq<string>, t: string) {
    exists i: nat :: FirstSpelled(values, i) && Trim(values[i]) == t
  }

  lemma SpelledSoTurn(values: seq<string>, t: string)
    requires values != []
    ensures var front, last := values[..|values| - 1], |values| - 1;
            SpelledSo(values, t) <==> SpelledSo(front, t) || (FirstSpelled(values, last) && Trim(values[last]) == t)
  {
    var front, last := values[..|values| - 1], |values| - 1;
    if SpelledSo(front, t) {
      var i: nat :| FirstSpelled(front, i) && Trim(front[i]) == t;
      FirstSpelledFront(values, i);
    }
    if SpelledSo(values, t) {
      var i: nat :| FirstSpelled(values, i) && Trim(values[i]) == t;
      if i < last { FirstSpelledFront(values, i); }
    }
  }

  lemma {:induction false} SpellingsAreFirst(values: seq<string>, t: string)
    ensures t in FirstSpellings(values) <==> SpelledSo(values, t)
  {
    if values != [] {
      SpellingsAreFirst(values[..|values| - 1], t);
      LastSpelling(values);
      SpelledSoTurn(values, t);
    }
  }

  /** Of several spellings of a key the first stays, trimmed. */
  lemma FirstSpellingStays(values: seq<string>, t: string)
    ensures t in UniqueNonEmptyOf(values) <==> exists i: nat :: FirstSpelled(values, i) && Trim(values[i]) == t
  {
    SpellingsAreFirst(values, t);
  }

  ghost predicate Covered(ys: seq<string>, xs: seq<string>) {
    forall i :: 0 <= i < |ys| ==> Blank(ys[i]) || HasKey(xs, Key(ys[i]))
  }

  lemma {:induction false} CleanIsFixed(xs: seq<string>)
    requires Clean(xs)
    ensures FirstSpellings(xs) == xs
  {
    if xs != [] {
      var front, x := xs[..|xs| - 1], xs[|xs| - 1];
      CleanFront(xs);
      CleanIsFixed(front);
      TrimOfTrimmed(x);
      assert FirstSpellings(xs) == front + [x];
    }
  }

  lemma CleanFront(xs: seq<string>)
    requires Clean(xs) && xs != []
    ensures Clean(xs[..|xs| - 1]) && !HasKey(xs[..|xs| - 1], Key(xs[|xs| - 1]))
  {
    assert forall i :: 0 <= i < |xs| - 1 ==> xs[..|xs| - 1][i] == xs[i];
  }

  lemma CleanAppend(xs: seq<string>, x: string)
    requires Clean(xs) && x != "" && Trimmed(x) && !HasKey(xs, Key(x))
    ensures Clean(xs + [x])
  {
    var ys := xs + [x];
    assert forall i :: 0 <= i < |xs| ==> ys[i] == xs[i];
  }

  lemma {:induction false} CoveredAddsNothing(xs: seq<string>, ys: seq<string>)
    requires Clean(xs) && Covered(ys, xs)
    ensures FirstSpellings(xs + ys) == xs
  {
    if ys == [] {
      assert xs + ys == xs;
      CleanIsFixed(xs);
    } else {
      var front, y := ys[..|ys| - 1], ys[|ys| - 1];
      CoveredAddsNothing(xs, front);
      assert (xs + ys)[..|xs + ys| - 1] == xs + front;
      KeyOfKey(y);
    }
  }

  /** Merging spellings of keys already there changes nothing. */
  lemma MergeAbsorbs(xs: seq<string>, ys: seq<string>)
    requires Canonical(xs) && Covered(ys, xs)
    ensures MergeAliases(xs, ys) == xs
  {
    CoveredAddsNothing(xs, ys);
    StringOrder();
    SortOfAscending(xs, StrLess);
  }

  lemma CanonicalIsFixed(xs: seq<string>)
    requires Canonical(xs)
    ensures UniqueNonEmptyOf(xs) == xs
  {
    assert xs + [] == xs;
    MergeAbsorbs(xs, []);
  }

  lemma MergeKeepsKeys(a: seq<string>, b: seq<string>)
    ensures forall k :: HasKey(MergeAliases(a, b), k) <==> k != "" && (HasKey(a, k) || HasKey(b, k))
  {
    UniqueNonEmptyFacts(a + b);
    forall k ensures HasKey(a + b, k) <==> HasKey(a, k) || HasKey(b, k) {
      HasKeyMonotone(a, a + b, k);
      HasKeyMonotone(b, a + b, k);
      if HasKey(a + b, k) {
        var i :| 0 <= i < |a + b| && Key((a + b)[i]) == k;
        if i < |a| { assert Key(a[i]) == k; } else { assert Key(b[i - |a|]) == k; }
      }
    }
  }
}
