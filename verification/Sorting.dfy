/**
  `sort.Slice` and `sort.Strings` on elements that a strict order tells apart, which is how the program
  uses them: the sorted order is then the only ascending listing of the elements, so neither the
  instability of the library sort nor the order the elements arrive in can show.
 */
module Sorting {

  /** The next key a `range` over a Go map yields: any key not yet visited. */
  method NextKey<T(==)>(unvisited: set<T>) returns (key: T)
    requires unvisited != {}
    ensures key in unvisited
  {
    key :| key in unvisited;
  }

  ghost predicate StrictOrder<T(!new)>(less: (T, T) -> bool) {
    (forall x :: !less(x, x)) && (forall x, y, z :: less(x, y) && less(y, z) ==> less(x, z))
  }

  ghost predicate Ascending<T(!new)>(s: seq<T>, less: (T, T) -> bool) {
    forall i, j :: 0 <= i < j < |s| ==> less(s[i], s[j])
  }

  ghost predicate Comparable<T(!new)>(s: seq<T>, less: (T, T) -> bool) {
    forall i, j :: 0 <= i < j < |s| ==> less(s[i], s[j]) || less(s[j], s[i])
  }

  function Insert<T(!new)>(x: T, s: seq<T>, less: (T, T) -> bool): (r: seq<T>)
    ensures forall y :: y in r <==> y == x || y in s
    ensures |r| == |s| + 1
  {
    if s == [] then [x]
    else if less(x, s[0]) then [x] + s
    else
      var r := Insert(x, s[1..], less);
      assert forall y :: y in s <==> y == s[0] || y in s[1..];
      [s[0]] + r
  }

  function Sort<T(!new)>(s: seq<T>, less: (T, T) -> bool): (r: seq<T>)
    ensures forall y :: y in r <==> y in s
    ensures |r| == |s|
  {
    if s == [] then []
    else
      assert forall y :: y in s <==> y == s[0] || y in s[1..];
      Insert(s[0], Sort(s[1..], less), less)
  }

  lemma {:induction false} InsertAscends<T(!new)>(x: T, s: seq<T>, less: (T, T) -> bool)
    requires StrictOrder(less) && Ascending(s, less)
    requires forall y :: y in s ==> less(x, y) || less(y, x)
    ensures Ascending(Insert(x, s, less), less)
  {
    if s != [] && !less(x, s[0]) {
      var r := Insert(x, s[1..], less);
      assert forall y :: y in s[1..] ==> y in s;
      InsertAscends(x, s[1..], less);
      assert less(s[0], x);
      forall y | y in r ensures less(s[0], y) {
        if y != x {
          var k :| 0 <= k < |s[1..]| && s[1..][k] == y;
          assert s[k + 1] == y;
        }
      }
      assert forall j :: 0 <= j < |r| ==> less(s[0], r[j]);
    } else if s != [] {
      forall j | 0 <= j < |s| ensures less(x, s[j]) {
        assert j > 0 ==> less(s[0], s[j]);
      }
    }
  }

  /** Sorting pairwise comparable elements yields an ascending listing. */
  lemma {:induction false} SortAscends<T(!new)>(s: seq<T>, less: (T, T) -> bool)
    requires StrictOrder(less) && Comparable(s, less)
    ensures Ascending(Sort(s, less), less)
  {
    if s != [] {
      var rest := Sort(s[1..], less);
      SortAscends(s[1..], less);
      forall y | y in rest ensures less(s[0], y) || less(y, s[0]) {
        assert y in s[1..];
        var k :| 0 <= k < |s[1..]| && s[1..][k] == y;
        assert s[k + 1] == y;
      }
      InsertAscends(s[0], rest, less);
    }
  }

  /** Elements have at most one ascending listing. */
  lemma {:induction false} ListingUnique<T(!new)>(s: seq<T>, t: seq<T>, less: (T, T) -> bool)
    requires StrictOrder(less) && Ascending(s, less) && Ascending(t, less)
    requires forall x :: x in s <==> x in t
    ensures s == t
    decreases |s|
  {
    assert t != [] ==> t[0] in t;
    if s != [] {
      assert s[0] in s;
      SameLeast(s, t, less);
      forall x ensures x in s[1..] <==> x in t[1..] {
        TailMembers(s, less, x);
        TailMembers(t, less, x);
      }
      ListingUnique(s[1..], t[1..], less);
      assert s == [s[0]] + s[1..] && t == [t[0]] + t[1..];
    }
  }

  lemma SameLeast<T(!new)>(s: seq<T>, t: seq<T>, less: (T, T) -> bool)
    requires StrictOrder(less) && Ascending(s, less) && Ascending(t, less)
    requires s != [] && t != [] && s[0] in t && t[0] in s
    ensures s[0] == t[0]
  {
    assert forall x :: x in s ==> x == s[0] || less(s[0], x);
    assert forall x :: x in t ==> x == t[0] || less(t[0], x);
  }

  lemma TailMembers<T(!new)>(s: seq<T>, less: (T, T) -> bool, x: T)
    requires StrictOrder(less) && Ascending(s, less) && s != []
    ensures x in s[1..] <==> x in s && x != s[0]
  {
    if x in s[1..] {
      var k :| 0 <= k < |s[1..]| && s[1..][k] == x;
      assert s[k + 1] == x && less(s[0], s[k + 1]);
    }
    if x in s && x != s[0] {
      var k :| 0 <= k < |s| && s[k] == x;
      assert s[1..][k - 1] == x;
    }
  }

  /** An ascending listing has no repeats. */
  lemma AscendingOnce<T(!new)>(s: seq<T>, less: (T, T) -> bool)
    requires StrictOrder(less) && Ascending(s, less)
    ensures forall i, j :: 0 <= i < j < |s| ==> s[i] != s[j]
  {
    forall i, j | 0 <= i < j < |s| ensures s[i] != s[j] {
      assert less(s[i], s[j]) && !less(s[i], s[i]);
    }
  }

  lemma SortOfAscending<T(!new)>(s: seq<T>, less: (T, T) -> bool)
    requires StrictOrder(less) && Ascending(s, less)
    ensures Sort(s, less) == s
  {
    SortAscends(s, less);
    ListingUnique(Sort(s, less), s, less);
  }
}
