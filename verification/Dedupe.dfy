/**
  Article deduplication (internal/ingest/dedupe.go): the first article of every key, in order.
 */
module Dedupe {
  import opened Text
  import opened Relevance

  type Keyed = Article -> string

  function DedupeKey(a: Article): string {
    if Trim(a.canonicalHash) != "" then Trim(a.canonicalHash) else Lower(Trim(a.url + "|" + a.title))
  }

  predicate SeenKey(articles: seq<Article>, keyOf: Keyed, key: string) {
    exists i :: 0 <= i < |articles| && keyOf(articles[i]) == key
  }

  function FirstPerKey(articles: seq<Article>, keyOf: Keyed, n: nat): seq<Article>
    requires n <= |articles|
  {
    if n == 0 then []
    else
      var before, a := FirstPerKey(articles, keyOf, n - 1), articles[n - 1];
      if SeenKey(before, keyOf, keyOf(a)) then before else before + [a]
  }

  function Deduped(articles: seq<Article>): seq<Article> {
    FirstPerKey(articles, DedupeKey, |articles|)
  }

  lemma SeenKeyAppend(articles: seq<Article>, keyOf: Keyed, a: Article, key: string)
    ensures SeenKey(articles + [a], keyOf, key) <==> SeenKey(articles, keyOf, key) || key == keyOf(a)
  {
    if SeenKey(articles, keyOf, key) {
      var i :| 0 <= i < |articles| && keyOf(articles[i]) == key;
      assert (articles + [a])[i] == articles[i];
    }
    assert (articles + [a])[|articles|] == a;
  }

  method Filter(articles: seq<Article>) returns (result: seq<Article>)
    ensures result == Deduped(articles)
  {
    var seen: set<string> := {};
    result := [];
    for i := 0 to |articles|
      invariant result == FirstPerKey(articles, DedupeKey, i)
      invariant forall key :: key in seen <==> SeenKey(result, DedupeKey, key)
    {
      var article := articles[i];
      var key := Trim(article.canonicalHash);
      if key == "" {
        key := Lower(Trim(article.url + "|" + article.title));
      }
      if key in seen {
        continue;
      }
      forall k ensures SeenKey(result + [article], DedupeKey, k) <==> SeenKey(result, DedupeKey, k) || k == key {
        SeenKeyAppend(result, DedupeKey, article, k);
      }
      seen := seen + {key};
      result := result + [article];
    }
  }

  ghost predicate FirstOfKey(articles: seq<Article>, keyOf: Keyed, i: nat) {
    i < |articles| && forall j :: 0 <= j < i ==> keyOf(articles[j]) != keyOf(articles[i])
  }

  lemma SeenStep(articles: seq<Article>, keyOf: Keyed, n: nat, key: string)
    requires 0 < n <= |articles|
    ensures SeenKey(FirstPerKey(articles, keyOf, n), keyOf, key) <==>
              SeenKey(FirstPerKey(articles, keyOf, n - 1), keyOf, key) || key == keyOf(articles[n - 1])
  {
    SeenKeyAppend(FirstPerKey(articles, keyOf, n - 1), keyOf, articles[n - 1], key);
  }

  lemma {:induction false} KeyKept(articles: seq<Article>, keyOf: Keyed, n: nat, i: nat)
    requires i < n <= |articles|
    ensures SeenKey(FirstPerKey(articles, keyOf, n), keyOf, keyOf(articles[i]))
  {
    SeenStep(articles, keyOf, n, keyOf(articles[i]));
    if i < n - 1 { KeyKept(articles, keyOf, n - 1, i); }
  }

  lemma {:induction false} KeyOrigin(articles: seq<Article>, keyOf: Keyed, n: nat, key: string) returns (i: nat)
    requires n <= |articles| && SeenKey(FirstPerKey(articles, keyOf, n), keyOf, key)
    ensures i < n && keyOf(articles[i]) == key
  {
    SeenStep(articles, keyOf, n, key);
    if key == keyOf(articles[n - 1]) { i := n - 1; } else { i := KeyOrigin(articles, keyOf, n - 1, key); }
  }

  /** Every kept article is the first of its key, and those kept before it come from before it. */
  lemma {:induction false} KeptIsFirst(articles: seq<Article>, keyOf: Keyed, n: nat, k: nat) returns (i: nat)
    requires n <= |articles| && k < |FirstPerKey(articles, keyOf, n)|
    ensures i < n && FirstPerKey(articles, keyOf, n)[k] == articles[i] && FirstOfKey(articles, keyOf, i)
    ensures |FirstPerKey(articles, keyOf, i)| == k
  {
    if k < |FirstPerKey(articles, keyOf, n - 1)| {
      i := KeptIsFirst(articles, keyOf, n - 1, k);
    } else {
      i := n - 1;
      forall j | 0 <= j < i ensures keyOf(articles[j]) != keyOf(articles[i]) {
        KeyKept(articles, keyOf, n - 1, j);
      }
    }
  }

  /** Every first article is kept. */
  lemma {:induction false} FirstIsKept(articles: seq<Article>, keyOf: Keyed, n: nat, i: nat)
    requires i < n <= |articles| && FirstOfKey(articles, keyOf, i)
    ensures articles[i] in FirstPerKey(articles, keyOf, n)
  {
    if i < n - 1 {
      FirstIsKept(articles, keyOf, n - 1, i);
    } else if SeenKey(FirstPerKey(articles, keyOf, i), keyOf, keyOf(articles[i])) {
      var j := KeyOrigin(articles, keyOf, i, keyOf(articles[i]));
    }
  }

  /** Filtering twice is filtering once. */
  lemma FilterIdempotent(articles: seq<Article>)
    ensures Deduped(Deduped(articles)) == Deduped(articles)
  {
    var kept := Deduped(articles);
    forall i, j | 0 <= i < j < |kept| ensures DedupeKey(kept[i]) != DedupeKey(kept[j]) {
      var a := KeptIsFirst(articles, DedupeKey, |articles|, i);
      var b := KeptIsFirst(articles, DedupeKey, |articles|, j);
      assert a != b;
    }
    DistinctKept(kept, DedupeKey, |kept|);
    assert kept[..|kept|] == kept;
  }

  lemma {:induction false} DistinctKept(articles: seq<Article>, keyOf: Keyed, n: nat)
    requires n <= |articles| && forall i, j :: 0 <= i < j < |articles| ==> keyOf(articles[i]) != keyOf(articles[j])
    ensures FirstPerKey(articles, keyOf, n) == articles[..n]
  {
    if n > 0 {
      DistinctKept(articles, keyOf, n - 1);
      assert articles[..n] == articles[..n - 1] + [articles[n - 1]];
    }
  }
}
