/**
  Term matching by space-padded substring search (internal/entitymatch/matcher.go), proved to be
  exactly contiguous-sublist matching over alphanumeric tokens.
 */
module Matcher {
  import opened Text
  import opened Entities

  // ----- What the code computes

  /** `nonWordRe.ReplaceAllString(s, " ")`: each maximal run outside `[a-z0-9]` becomes one space. */
  function CollapseNonWord(s: string): string
    decreases |s|
  {
    if s == [] then []
    else if IsWord(s[0]) then [s[0]] + CollapseNonWord(s[1..])
    else " " + CollapseNonWord(DropNonWord(s))
  }

  function DropNonWord(s: string): (r: string)
    ensures |r| <= |s|
    ensures s != [] && !IsWord(s[0]) ==> |r| < |s|
  {
    if s != [] && !IsWord(s[0]) then DropNonWord(s[1..]) else s
  }

  /** The maximal runs of characters accepted by `keep`, left to right. */
  function Runs(s: string, keep: char -> bool): seq<string>
    decreases |s|
  {
    if s == [] then []
    else if keep(s[0]) then
      var n := RunLength(s, keep);
      [s[..n]] + Runs(s[n..], keep)
    else Runs(s[1..], keep)
  }

  function RunLength(s: string, keep: char -> bool): (n: nat)
    ensures n <= |s| && forall i :: 0 <= i < n ==> keep(s[i])
    ensures n == |s| || !keep(s[n])
  {
    if s == [] || !keep(s[0]) then 0 else 1 + RunLength(s[1..], keep)
  }

  /** `strings.Fields`. */
  function Fields(s: string): seq<string> {
    Runs(s, c => !IsSpace(c))
  }

  function NormalizeText(raw: string): string {
    Join(Fields(CollapseNonWord(Lower(raw))), " ")
  }

  predicate ContainsTerm(text: string, needle: string) {
    var n := NormalizeText(needle);
    if n == "" then false
    else
      var normText := NormalizeText(text);
      if normText == "" then false
      else Contains(" " + normText + " ", " " + n + " ")
  }

  // ----- What it means

  /** The alphanumeric tokens of a text, case folded. */
  function Tokens(text: string): seq<string> {
    Words(Lower(text))
  }

  function Words(s: string): seq<string> {
    Runs(s, IsWord)
  }

  predicate SublistAt(ts: seq<string>, ns: seq<string>, i: nat) {
    i + |ns| <= |ts| && ts[i..i + |ns|] == ns
  }

  predicate Sublist(ts: seq<string>, ns: seq<string>) {
    exists i: nat :: i <= |ts| && SublistAt(ts, ns, i)
  }

  predicate Word(t: string) {
    t != [] && forall i :: 0 <= i < |t| ==> IsWord(t[i])
  }

  predicate AllWords(ts: seq<string>) {
    forall i :: 0 <= i < |ts| ==> Word(ts[i])
  }

  // ----- Runs

  lemma {:induction false} RunsAreWords(s: string)
    ensures AllWords(Words(s))
    decreases |s|
  {
    if s != [] {
      if IsWord(s[0]) { RunsAreWords(s[RunLength(s, IsWord)..]); } else { RunsAreWords(s[1..]); }
    }
  }

  lemma {:induction false} RunLengthIs(s: string, keep: char -> bool, n: nat)
    requires n <= |s| && (forall i :: 0 <= i < n ==> keep(s[i])) && (n == |s| || !keep(s[n]))
    ensures RunLength(s, keep) == n
  {
    if n > 0 { RunLengthIs(s[1..], keep, n - 1); }
  }

  /** Splitting commutes with concatenation wherever a separator stands at the seam. */
  lemma {:induction false} RunsConcat(a: string, b: string, keep: char -> bool)
    requires a == [] || b == [] || !keep(a[|a| - 1]) || !keep(b[0])
    ensures Runs(a + b, keep) == Runs(a, keep) + Runs(b, keep)
    decreases |a|
  {
    if a == [] {
      assert a + b == b;
    } else if keep(a[0]) {
      var n := RunLength(a, keep);
      RunLengthIs(a + b, keep, n);
      assert (a + b)[..n] == a[..n] && (a + b)[n..] == a[n..] + b;
      RunsConcat(a[n..], b, keep);
    } else {
      assert (a + b)[1..] == a[1..] + b;
      RunsConcat(a[1..], b, keep);
    }
  }

  lemma {:induction false} RunsCong(s: string, p: char -> bool, q: char -> bool)
    requires forall i :: 0 <= i < |s| ==> p(s[i]) == q(s[i])
    ensures Runs(s, p) == Runs(s, q)
    decreases |s|
  {
    if s != [] {
      if p(s[0]) {
        var n := RunLength(s, p);
        RunLengthIs(s, q, n);
        RunsCong(s[n..], p, q);
      } else {
        RunsCong(s[1..], p, q);
      }
    }
  }

  lemma {:induction false} RunsOfDropped(s: string)
    ensures Words(DropNonWord(s)) == Words(s)
  {
    if s != [] && !IsWord(s[0]) { RunsOfDropped(s[1..]); }
  }

  lemma {:induction false} CollapseAlphabet(s: string)
    ensures forall i :: 0 <= i < |CollapseNonWord(s)| ==>
              IsWord(CollapseNonWord(s)[i]) || CollapseNonWord(s)[i] == ' '
    decreases |s|
  {
    if s != [] {
      if IsWord(s[0]) { CollapseAlphabet(s[1..]); } else { CollapseAlphabet(DropNonWord(s)); }
    }
  }

  lemma {:induction false} CollapseKeepsWords(s: string)
    ensures Words(CollapseNonWord(s)) == Words(s)
    decreases |s|
  {
    if s != [] {
      if IsWord(s[0]) {
        var n := RunLength(s, IsWord);
        CollapseOfRun(s[..n], s[n..]);
        assert s == s[..n] + s[n..];
        CollapseKeepsWords(s[n..]);
        var c := CollapseNonWord(s);
        RunLengthIs(c, IsWord, n);
        assert c[..n] == s[..n] && c[n..] == CollapseNonWord(s[n..]);
      } else {
        var rest := DropNonWord(s);
        CollapseKeepsWords(rest);
        RunsOfDropped(s);
        assert (" " + CollapseNonWord(rest))[1..] == CollapseNonWord(rest);
      }
    }
  }

  lemma {:induction false} CollapseOfRun(a: string, b: string)
    requires forall i :: 0 <= i < |a| ==> IsWord(a[i])
    ensures CollapseNonWord(a + b) == a + CollapseNonWord(b)
  {
    if a == [] {
      assert a + b == b;
    } else {
      var front, c := a[..|a| - 1], a[|a| - 1];
      CollapseOfRun(front, [c] + b);
      assert a + b == front + ([c] + b);
      assert ([c] + b)[1..] == b;
      assert CollapseNonWord([c] + b) == [c] + CollapseNonWord(b);
    }
  }

  /** `normalizeText` is the tokens joined by single spaces. */
  lemma NormalizeIsJoinedTokens(text: string)
    ensures NormalizeText(text) == Join(Tokens(text), " ")
  {
    var c := CollapseNonWord(Lower(text));
    CollapseAlphabet(Lower(text));
    RunsCong(c, ch => !IsSpace(ch), IsWord);
    CollapseKeepsWords(Lower(text));
  }

  // ----- Padded token lists

  /** `" " + Join(ts, " ") + " "` for a non-empty `ts`, and a single space for the empty list. */
  function Padded(ts: seq<string>): string {
    if ts == [] then " " else " " + ts[0] + Padded(ts[1..])
  }

  lemma {:induction false} PaddedIsJoin(ts: seq<string>)
    requires ts != []
    ensures Padded(ts) == " " + Join(ts, " ") + " "
  {
    if |ts| == 1 {
      assert Padded(ts[1..]) == " ";
    } else {
      PaddedIsJoin(ts[1..]);
      calc {
        Padded(ts);
        " " + ts[0] + (" " + Join(ts[1..], " ") + " ");
        " " + (ts[0] + " " + Join(ts[1..], " ")) + " ";
      }
    }
  }

  lemma {:induction false} PaddedConcat(a: seq<string>, b: seq<string>)
    ensures exists pre: string :: Padded(a + b) == pre + Padded(b)
    ensures Padded(a) <= Padded(a + b)
  {
    if a == [] {
      assert a + b == b;
      assert Padded(a + b) == [] + Padded(b);
    } else {
      PaddedConcat(a[1..], b);
      assert (a + b)[1..] == a[1..] + b;
      var pre: string :| Padded(a[1..] + b) == pre + Padded(b);
      assert Padded(a + b) == (" " + a[0] + pre) + Padded(b);
    }
  }

  lemma {:induction false} PaddedPrefix(ts: seq<string>, ns: seq<string>)
    requires AllWords(ts) && AllWords(ns)
    requires Padded(ns) <= Padded(ts)
    ensures ns <= ts
  {
    if ns != [] {
      var pt, pn := Padded(ts), Padded(ns);
      assert pn[1] == ns[0][0];
      assert |pn| > 1;
      var t, n := ts[0], ns[0];
      var pt', pn' := Padded(ts[1..]), Padded(ns[1..]);
      assert pt == " " + t + pt' && pn == " " + n + pn';
      assert pt[1 + |t|] == ' ' && pn[1 + |n|] == ' ';
      assert forall i :: 0 <= i < |t| ==> pt[1 + i] == t[i];
      assert forall i :: 0 <= i < |n| ==> pn[1 + i] == n[i];
      assert pt[1 + |n|] == ' ';
      assert 1 + |t| < |pn| ==> pn[1 + |t|] == ' ';
      assert |t| == |n|;
      assert t == n by {
        forall i | 0 <= i < |t| ensures t[i] == n[i] { assert pt[1 + i] == pn[1 + i]; }
      }
      assert pt' == pt[1 + |t|..] && pn' == pn[1 + |t|..];
      PaddedPrefix(ts[1..], ns[1..]);
    }
  }

  lemma {:induction false} PaddedOccurrence(ts: seq<string>, ns: seq<string>, i: nat)
    requires AllWords(ts) && AllWords(ns) && ns != []
    requires OccursAt(Padded(ts), Padded(ns), i)
    ensures Sublist(ts, ns)
  {
    var pt, pn := Padded(ts), Padded(ns);
    assert |pn| > 1;
    if ts == [] {
      assert false;
    } else if i == 0 {
      PaddedPrefix(ts, ns);
      assert SublistAt(ts, ns, 0);
    } else {
      var t := ts[0];
      assert pt == " " + t + Padded(ts[1..]);
      assert pt[i] == pn[0] == ' ';
      assert forall k :: 1 <= k <= |t| ==> pt[k] == t[k - 1];
      var j := i - 1 - |t|;
      assert Padded(ts[1..]) == pt[1 + |t|..];
      assert Padded(ts[1..])[j..j + |pn|] == pt[i..i + |pn|];
      PaddedOccurrence(ts[1..], ns, j);
      var k: nat :| k <= |ts[1..]| && SublistAt(ts[1..], ns, k);
      assert ts[k + 1..k + 1 + |ns|] == ts[1..][k..k + |ns|];
      assert SublistAt(ts, ns, k + 1);
    }
  }

  lemma SublistGivesOccurrence(ts: seq<string>, ns: seq<string>, i: nat)
    requires ns != [] && SublistAt(ts, ns, i)
    ensures Contains(Padded(ts), Padded(ns))
  {
    var tail := ts[i..];
    assert ts == ts[..i] + tail && tail == ns + ts[i + |ns|..];
    PaddedConcat(ts[..i], tail);
    PaddedConcat(ns, ts[i + |ns|..]);
    var pre: string :| Padded(ts) == pre + Padded(tail);
    OccursAfter(pre, Padded(tail), Padded(ns));
  }

  lemma OccursAfter(pre: string, text: string, needle: string)
    requires needle <= text
    ensures Contains(pre + text, needle)
  {
    assert OccursAt(pre + text, needle, |pre|);
  }

  lemma JoinOfWords(ts: seq<string>)
    requires AllWords(ts)
    ensures Join(ts, " ") == "" <==> ts == []
  {
    if ts != [] { assert ts[0] != []; }
  }

  // ----- Main results

  /**
    Padded substring search is token matching: the needle is found exactly when its tokens are
    non-empty and form a contiguous sublist of the tokens of the text.
   */
  lemma ContainsTermIsTokenMatch(text: string, needle: string)
    ensures ContainsTerm(text, needle) <==> Tokens(needle) != [] && Sublist(Tokens(text), Tokens(needle))
  {
    var ts, ns := Tokens(text), Tokens(needle);
    NormalizeIsJoinedTokens(text);
    NormalizeIsJoinedTokens(needle);
    RunsAreWords(Lower(text));
    RunsAreWords(Lower(needle));
    JoinOfWords(ts);
    JoinOfWords(ns);
    if ns != [] && ts != [] {
      PaddedIsJoin(ts);
      PaddedIsJoin(ns);
      if Sublist(ts, ns) {
        var i: nat :| i <= |ts| && SublistAt(ts, ns, i);
        SublistGivesOccurrence(ts, ns, i);
      }
      if Contains(Padded(ts), Padded(ns)) {
        var i: nat :| i <= |Padded(ts)| && OccursAt(Padded(ts), Padded(ns), i);
        PaddedOccurrence(ts, ns, i);
      }
    }
  }

  lemma WordsOfWord(t: string)
    requires Word(t)
    ensures Words(t) == [t]
  {
    RunLengthIs(t, IsWord, |t|);
    assert t[..|t|] == t && t[|t|..] == [];
    assert Words(t) == [t[..|t|]] + Words(t[|t|..]);
  }

  lemma {:induction false} WordsOfJoin(ts: seq<string>, sep: char)
    requires AllWords(ts) && !IsWord(sep)
    ensures Words(Join(ts, [sep])) == ts
  {
    if |ts| == 1 {
      WordsOfWord(ts[0]);
      assert ts == [ts[0]];
    } else if |ts| > 1 {
      var t, rest := ts[0], Join(ts[1..], [sep]);
      WordsOfJoin(ts[1..], sep);
      WordsOfWord(t);
      assert Join(ts, [sep]) == t + ([sep] + rest);
      RunsConcat(t, [sep] + rest, IsWord);
      assert ([sep] + rest)[1..] == rest;
    }
  }

  lemma {:induction false} LowerOfJoin(ts: seq<string>)
    requires AllWords(ts)
    ensures Lower(Join(ts, " ")) == Join(ts, " ")
  {
    if |ts| > 1 {
      LowerOfJoin(ts[1..]);
      assert Lower(Join(ts, " ")) == Lower(ts[0]) + " " + Lower(Join(ts[1..], " "));
    }
  }

  /** Normalising twice is normalising once. */
  lemma NormalizeIdempotent(text: string)
    ensures NormalizeText(NormalizeText(text)) == NormalizeText(text)
  {
    NormalizeIsJoinedTokens(text);
    RunsAreWords(Lower(text));
    NormalizeIsJoinedTokens(NormalizeText(text));
    LowerOfJoin(Tokens(text));
    WordsOfJoin(Tokens(text), ' ');
  }

  // ----- MatchEntity

  datatype EntityHit = Miss | Hit(confidence: real, how: string)

  const KEYWORD := "keyword_match"

  predicate AnyAlias(text: string, aliases: seq<string>) {
    exists i :: 0 <= i < |aliases| && ContainsTerm(text, aliases[i])
  }

  function MatchEntity(text: string, e: Entity): EntityHit {
    if !e.enabled then Miss
    else if ContainsTerm(text, e.name) then Hit(0.95, KEYWORD)
    else if ContainsTerm(text, e.symbol) then Hit(0.9, KEYWORD)
    else if AnyAlias(text, e.aliases) then Hit(0.85, KEYWORD)
    else Miss
  }

  /** Some name of the entity has tokens, and they stand together in the text. */
  ghost predicate Mentions(text: string, term: string) {
    Tokens(term) != [] && Sublist(Tokens(text), Tokens(term))
  }

  /**
    An entity is matched exactly when it is enabled and one of its names is mentioned token for
    token; what names the match decides the confidence, which is never below 0.85.
   */
  lemma MatchEntityMeaning(text: string, e: Entity)
    ensures MatchEntity(text, e).Hit? <==>
              e.enabled && (exists term :: term in [e.name, e.symbol] + e.aliases && Mentions(text, term))
    ensures MatchEntity(text, e).Hit? ==>
              MatchEntity(text, e).confidence ==
              if Mentions(text, e.name) then 0.95 else if Mentions(text, e.symbol) then 0.9 else 0.85
  {
    forall term ensures ContainsTerm(text, term) <==> Mentions(text, term) {
      ContainsTermIsTokenMatch(text, term);
    }
    var terms := [e.name, e.symbol] + e.aliases;
    assert terms[0] == e.name && terms[1] == e.symbol;
    assert forall i :: 0 <= i < |e.aliases| ==> terms[2 + i] == e.aliases[i];
    assert AnyAlias(text, e.aliases) <==> exists term :: term in e.aliases && Mentions(text, term);
  }
}
