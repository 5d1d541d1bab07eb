/**
  ASCII text as the Go string functions used by the program see it: `strings.ToLower`,
  `strings.ToUpper`, `strings.TrimSpace`, `strings.Contains`, `strings.Join` and the byte order
  behind `sort.Strings`.
 */
module Text {

  datatype Option<+T> = None | Some(value: T)

  predicate IsSpace(c: char) {
    c == ' ' || '\t' <= c <= '\r'
  }

  /** The class `[a-z0-9]` of both term matchers. */
  predicate IsWord(c: char) {
    'a' <= c <= 'z' || '0' <= c <= '9'
  }

  function LowerChar(c: char): (r: char)
    ensures IsSpace(r) == IsSpace(c)
    ensures IsWord(c) ==> r == c
  {
    if 'A' <= c <= 'Z' then (c as int + 32) as char else c
  }

  function UpperChar(c: char): (r: char)
    ensures IsSpace(r) == IsSpace(c)
  {
    if 'a' <= c <= 'z' then (c as int - 32) as char else c
  }

  function Lower(s: string): (r: string)
    ensures |r| == |s| && forall i {:trigger r[i]} :: 0 <= i < |s| ==> r[i] == LowerChar(s[i])
  {
    seq(|s|, i requires 0 <= i < |s| => LowerChar(s[i]))
  }

  function Upper(s: string): (r: string)
    ensures |r| == |s| && forall i {:trigger r[i]} :: 0 <= i < |s| ==> r[i] == UpperChar(s[i])
  {
    seq(|s|, i requires 0 <= i < |s| => UpperChar(s[i]))
  }

  lemma LowerIdempotent(s: string)
    ensures Lower(Lower(s)) == Lower(s)
  {}

  lemma UpperIdempotent(s: string)
    ensures Upper(Upper(s)) == Upper(s)
  {}

  // ----- TrimSpace

  predicate Trimmed(s: string) {
    s == [] || (!IsSpace(s[0]) && !IsSpace(s[|s| - 1]))
  }

  /** First position from `i` on that holds no space. */
  function TrimStart(s: string, i: nat): (lo: nat)
    requires i <= |s|
    ensures i <= lo <= |s| && (lo < |s| ==> !IsSpace(s[lo]))
    decreases |s| - i
  {
    if i < |s| && IsSpace(s[i]) then TrimStart(s, i + 1) else i
  }

  /** Where the text ends once trailing spaces above `lo` are dropped. */
  function TrimEnd(s: string, lo: nat, n: nat): (hi: nat)
    requires lo <= n <= |s|
    ensures lo <= hi <= n && (lo < hi ==> !IsSpace(s[hi - 1]))
  {
    if lo < n && IsSpace(s[n - 1]) then TrimEnd(s, lo, n - 1) else n
  }

  function Trim(s: string): (r: string)
    ensures Trimmed(r)
  {
    var lo := TrimStart(s, 0);
    var hi := TrimEnd(s, lo, |s|);
    assert lo < hi ==> s[lo..hi][0] == s[lo] && s[lo..hi][hi - lo - 1] == s[hi - 1];
    s[lo..hi]
  }

  predicate Blank(s: string) {
    Trim(s) == []
  }

  lemma TrimOfTrimmed(s: string)
    requires Trimmed(s)
    ensures Trim(s) == s
  {
    assert TrimStart(s, 0) == 0 && TrimEnd(s, 0, |s|) == |s|;
    assert s[0..|s|] == s;
  }

  /** What trimming drops are spaces only. */
  lemma {:induction false} TrimStartSpaces(s: string, i: nat)
    requires i <= |s|
    ensures forall j :: i <= j < TrimStart(s, i) ==> IsSpace(s[j])
    decreases |s| - i
  {
    if i < |s| && IsSpace(s[i]) { TrimStartSpaces(s, i + 1); }
  }

  lemma {:induction false} TrimEndSpaces(s: string, lo: nat, n: nat)
    requires lo <= n <= |s|
    ensures forall j :: TrimEnd(s, lo, n) <= j < n ==> IsSpace(s[j])
  {
    if lo < n && IsSpace(s[n - 1]) { TrimEndSpaces(s, lo, n - 1); }
  }

  lemma {:induction false} UpperTrimStart(s: string, i: nat)
    requires i <= |s|
    ensures TrimStart(Upper(s), i) == TrimStart(s, i)
    decreases |s| - i
  {
    if i < |s| && IsSpace(s[i]) { UpperTrimStart(s, i + 1); }
  }

  lemma {:induction false} UpperTrimEnd(s: string, lo: nat, n: nat)
    requires lo <= n <= |s|
    ensures TrimEnd(Upper(s), lo, n) == TrimEnd(s, lo, n)
  {
    if lo < n && IsSpace(s[n - 1]) { UpperTrimEnd(s, lo, n - 1); }
  }

  // ----- The key under which symbols, names and aliases are compared

  /** `strings.ToUpper(strings.TrimSpace(s))`. */
  function Key(s: string): string {
    Upper(Trim(s))
  }

  lemma KeyOfKey(s: string)
    ensures Key(Key(s)) == Key(s) && Key(Trim(s)) == Key(s)
  {
    TrimOfTrimmed(Trim(s));
    TrimOfTrimmed(Key(s));
    UpperIdempotent(Trim(s));
  }

  lemma KeyOfUpper(s: string)
    ensures Trim(Upper(s)) == Key(s)
  {
    UpperTrimStart(s, 0);
    UpperTrimEnd(s, TrimStart(s, 0), |s|);
  }

  // ----- Substrings and joins

  predicate OccursAt(s: string, sub: string, i: nat) {
    i + |sub| <= |s| && s[i..i + |sub|] == sub
  }

  predicate Contains(s: string, sub: string) {
    exists i: nat :: i <= |s| && OccursAt(s, sub, i)
  }

  function Join(parts: seq<string>, sep: string): string {
    if parts == [] then ""
    else if |parts| == 1 then parts[0]
    else parts[0] + sep + Join(parts[1..], sep)
  }

  // ----- Byte order

  predicate StrLess(a: string, b: string) {
    b != [] && (a == [] || a[0] < b[0] || (a[0] == b[0] && StrLess(a[1..], b[1..])))
  }

  lemma {:induction false} StrLessTrans(a: string, b: string, c: string)
    requires StrLess(a, b) && StrLess(b, c)
    ensures StrLess(a, c)
  {
    if a != [] && a[0] == b[0] && b[0] == c[0] {
      StrLessTrans(a[1..], b[1..], c[1..]);
    }
  }

  lemma {:induction false} StrLessIrreflexive(a: string)
    ensures !StrLess(a, a)
  {
    if a != [] {
      StrLessIrreflexive(a[1..]);
    }
  }

  lemma {:induction false} StrLessTotal(a: string, b: string)
    ensures a == b || StrLess(a, b) || StrLess(b, a)
  {
    if a != [] && b != [] && a[0] == b[0] {
      StrLessTotal(a[1..], b[1..]);
      assert a == [a[0]] + a[1..] && b == [b[0]] + b[1..];
    }
  }
}
