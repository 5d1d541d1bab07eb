/**
  Factor tags (internal/enrich/enricher.go): the keyword rules and the merge with what a provider
  returned.
 */
module Tags {
  import opened Text
  import opened Entities
  import opened Providers

  // ----- Merging

  /** Where the last tag of that factor stands among the first `n`, or -1. */
  function LastOf(tags: seq<FactorTag>, id: string, n: nat): (i: int)
    requires n <= |tags|
    ensures -1 <= i < n
    ensures i >= 0 ==> tags[i].factorID == id
    ensures forall k :: i < k < n ==> tags[k].factorID != id
  {
    if n == 0 then -1 else if tags[n - 1].factorID == id then n - 1 else LastOf(tags, id, n - 1)
  }

  function MergeOne(tags: seq<FactorTag>, tag: FactorTag): seq<FactorTag> {
    var i := LastOf(tags, tag.factorID, |tags|);
    if i < 0 then tags + [tag]
    else if tag.score > tags[i].score then tags[i := tag]
    else tags
  }

  function Merged(base: seq<FactorTag>, add: seq<FactorTag>, n: nat): seq<FactorTag>
    requires n <= |add|
  {
    if n == 0 then base else MergeOne(Merged(base, add, n - 1), add[n - 1])
  }

  /** The index map is in step with the slice. */
  ghost predicate InStep(seen: map<string, int>, tags: seq<FactorTag>) {
    forall id :: (id in seen <==> LastOf(tags, id, |tags|) >= 0) && (id in seen ==> seen[id] == LastOf(tags, id, |tags|))
  }

  lemma LastOfAppend(tags: seq<FactorTag>, tag: FactorTag, id: string)
    ensures LastOf(tags + [tag], id, |tags| + 1) == if tag.factorID == id then |tags| else LastOf(tags, id, |tags|)
  {
    LastOfPrefix(tags, tags + [tag], id, |tags|);
  }

  lemma {:induction false} LastOfPrefix(a: seq<FactorTag>, b: seq<FactorTag>, id: string, n: nat)
    requires n <= |a| && n <= |b| && forall k :: 0 <= k < n ==> a[k].factorID == b[k].factorID
    ensures LastOf(a, id, n) == LastOf(b, id, n)
  {
    if n > 0 { LastOfPrefix(a, b, id, n - 1); }
  }

  lemma InStepAppend(seen: map<string, int>, tags: seq<FactorTag>, tag: FactorTag)
    requires InStep(seen, tags)
    ensures InStep(seen[tag.factorID := |tags|], tags + [tag])
  {
    forall id ensures LastOf(tags + [tag], id, |tags| + 1) == if tag.factorID == id then |tags| else LastOf(tags, id, |tags|) {
      LastOfAppend(tags, tag, id);
    }
  }

  lemma InStepReplace(seen: map<string, int>, tags: seq<FactorTag>, i: nat, tag: FactorTag)
    requires InStep(seen, tags) && i < |tags| && tags[i].factorID == tag.factorID
    ensures InStep(seen, tags[i := tag])
  {
    forall id ensures LastOf(tags[i := tag], id, |tags|) == LastOf(tags, id, |tags|) {
      LastOfPrefix(tags, tags[i := tag], id, |tags|);
    }
  }

  method MergeFactorTags(base: seq<FactorTag>, add: seq<FactorTag>) returns (merged: seq<FactorTag>)
    ensures merged == Merged(base, add, |add|)
  {
    var seen;
    merged, seen := TakeBase(base);
    for n := 0 to |add|
      invariant merged == Merged(base, add, n) && InStep(seen, merged)
    {
      var tag := add[n];
      if tag.factorID in seen {
        var idx := seen[tag.factorID];
        if tag.score > merged[idx].score {
          InStepReplace(seen, merged, idx, tag);
          merged := merged[idx := tag];
        }
        continue;
      }
      InStepAppend(seen, merged, tag);
      seen := seen[tag.factorID := |merged|];
      merged := merged + [tag];
    }
  }

  method TakeBase(base: seq<FactorTag>) returns (merged: seq<FactorTag>, seen: map<string, int>)
    ensures merged == base && InStep(seen, merged)
  {
    merged, seen := [], map[];
    for n := 0 to |base|
      invariant merged == base[..n] && InStep(seen, merged)
    {
      InStepAppend(seen, merged, base[n]);
      seen := seen[base[n].factorID := |merged|];
      merged := merged + [base[n]];
    }
  }

  // ----- What merging means

  predicate OncePerFactor(tags: seq<FactorTag>) {
    forall i, j :: 0 <= i < j < |tags| ==> tags[i].factorID != tags[j].factorID
  }

  predicate Has(tags: seq<FactorTag>, id: string) {
    exists i :: 0 <= i < |tags| && tags[i].factorID == id
  }

  function IDs(tags: seq<FactorTag>): seq<string> {
    seq(|tags|, i requires 0 <= i < |tags| => tags[i].factorID)
  }

  /** The factors the first `n` additions bring in, in the order they first appear. */
  function NewIDs(base: seq<FactorTag>, add: seq<FactorTag>, n: nat): seq<string>
    requires n <= |add|
  {
    if n == 0 then []
    else
      var before, id := NewIDs(base, add, n - 1), add[n - 1].factorID;
      if id in IDs(base) || id in before then before else before + [id]
  }

  /** Base order first, then the new factors in order of appearance. */
  lemma {:induction false} MergedIDs(base: seq<FactorTag>, add: seq<FactorTag>, n: nat)
    requires n <= |add|
    ensures IDs(Merged(base, add, n)) == IDs(base) + NewIDs(base, add, n)
  {
    if n > 0 {
      MergedIDs(base, add, n - 1);
      MergeOneIDs(Merged(base, add, n - 1), add[n - 1]);
    }
  }

  lemma MergeOneIDs(tags: seq<FactorTag>, tag: FactorTag)
    ensures IDs(MergeOne(tags, tag)) == if tag.factorID in IDs(tags) then IDs(tags) else IDs(tags) + [tag.factorID]
  {
    var i := LastOf(tags, tag.factorID, |tags|);
    assert i >= 0 ==> IDs(tags)[i] == tag.factorID;
    if tag.factorID in IDs(tags) {
      var k :| 0 <= k < |tags| && IDs(tags)[k] == tag.factorID;
      assert i >= k;
      assert IDs(tags[i := tag]) == IDs(tags);
    } else {
      assert i < 0;
      assert IDs(tags + [tag]) == IDs(tags) + [tag.factorID];
    }
  }

  lemma {:induction false} NewIDsOnce(base: seq<FactorTag>, add: seq<FactorTag>, n: nat)
    requires n <= |add|
    ensures forall i :: 0 <= i < |NewIDs(base, add, n)| ==> NewIDs(base, add, n)[i] !in IDs(base)
    ensures forall i, j :: 0 <= i < j < |NewIDs(base, add, n)| ==> NewIDs(base, add, n)[i] != NewIDs(base, add, n)[j]
  {
    if n > 0 { NewIDsOnce(base, add, n - 1); }
  }

  /** Each factor stands once in the merge exactly when each stood once in the base. */
  lemma MergeOnceIff(base: seq<FactorTag>, add: seq<FactorTag>, n: nat)
    requires n <= |add|
    ensures OncePerFactor(Merged(base, add, n)) <==> OncePerFactor(base)
  {
    var m, news := Merged(base, add, n), NewIDs(base, add, n);
    MergedIDs(base, add, n);
    NewIDsOnce(base, add, n);
    assert |m| == |IDs(m)| == |base| + |news|;
    assert forall i :: 0 <= i < |m| ==> m[i].factorID == IDs(m)[i];
    forall i | 0 <= i < |m| ensures m[i].factorID == if i < |base| then base[i].factorID else news[i - |base|] {
      assert i < |base| ==> IDs(base)[i] == base[i].factorID;
    }
    assert forall i :: 0 <= i < |base| ==> IDs(base)[i] == base[i].factorID;
  }

  /** `tag` beats every addition of its factor before `j` and is matched by none of the first `n`. */
  predicate FirstBest(add: seq<FactorTag>, n: nat, j: int, tag: FactorTag)
    requires n <= |add|
  {
    && (forall k :: 0 <= k < n && add[k].factorID == tag.factorID ==> add[k].score <= tag.score)
    && (forall k :: 0 <= k < j && k < n && add[k].factorID == tag.factorID ==> add[k].score < tag.score)
  }

  /** Where the tag of factor `id` came from: the base (-1) or an addition. */
  predicate CameFrom(base: seq<FactorTag>, add: seq<FactorTag>, n: nat, i: nat, tag: FactorTag, j: int)
    requires n <= |add|
  {
    && -1 <= j < n
    && (j == -1 ==> i < |base| && tag == base[i])
    && (j >= 0 ==> tag == add[j] && (i < |base| ==> base[i].factorID == tag.factorID && base[i].score < tag.score))
    && FirstBest(add, n, j, tag)
  }

  /**
    The tag a factor ends up with is the first of highest score among the base tag and the additions:
    on a tie the base, and then the earlier addition, stays.
   */
  lemma {:induction false} MergeKeepsFirstBest(base: seq<FactorTag>, add: seq<FactorTag>, n: nat, i: nat) returns (j: int)
    requires OncePerFactor(base) && n <= |add| && i < |Merged(base, add, n)|
    ensures CameFrom(base, add, n, i, Merged(base, add, n)[i], j)
  {
    if n == 0 {
      j := -1;
    } else {
      var before := Merged(base, add, n - 1);
      MergeOnceIff(base, add, n - 1);
      if i < |before| {
        j := MergeKeepsFirstBest(base, add, n - 1, i);
        j := OriginStep(base, add, n, i, before, j);
      } else {
        j := n - 1;
        NewOrigin(base, add, n, before);
      }
    }
  }

  /** An addition to tags each standing once changes the origin of the tag at `i` if it beats it. */
  lemma OriginStep(base: seq<FactorTag>, add: seq<FactorTag>, n: nat, i: nat, before: seq<FactorTag>, was: int) returns (j: int)
    requires 0 < n <= |add| && i < |before| && OncePerFactor(before) && CameFrom(base, add, n - 1, i, before[i], was)
    ensures CameFrom(base, add, n, i, MergeOne(before, add[n - 1])[i], j)
  {
    var tag := add[n - 1];
    var last := LastOf(before, tag.factorID, |before|);
    if i == last && tag.score > before[i].score {
      assert MergeOne(before, tag)[i] == tag;
      j := n - 1;
    } else {
      assert MergeOne(before, tag)[i] == before[i];
      j := was;
    }
  }

  lemma MergeOneGrows(tags: seq<FactorTag>, tag: FactorTag)
    requires |MergeOne(tags, tag)| > |tags|
    ensures !Has(tags, tag.factorID) && MergeOne(tags, tag) == tags + [tag]
  {}

  /** A tag appended by an addition came from there. */
  lemma NewOrigin(base: seq<FactorTag>, add: seq<FactorTag>, n: nat, before: seq<FactorTag>)
    requires 0 < n <= |add| && before == Merged(base, add, n - 1) && |MergeOne(before, add[n - 1])| > |before|
    ensures MergeOne(before, add[n - 1]) == before + [add[n - 1]]
    ensures CameFrom(base, add, n, |before|, add[n - 1], n - 1)
  {
    MergeOneGrows(before, add[n - 1]);
    MergedKeepsBase(base, add, n - 1);
    NotAddedBefore(base, add, n - 1, add[n - 1].factorID);
    FirstOfItsFactor(base, add, n, |before|);
  }

  lemma FirstOfItsFactor(base: seq<FactorTag>, add: seq<FactorTag>, n: nat, i: nat)
    requires 0 < n <= |add| && |base| <= i
    requires forall k :: 0 <= k < n - 1 ==> add[k].factorID != add[n - 1].factorID
    ensures CameFrom(base, add, n, i, add[n - 1], n - 1)
  {}

  lemma MergedKeepsBase(base: seq<FactorTag>, add: seq<FactorTag>, n: nat)
    requires n <= |add|
    ensures |base| <= |Merged(base, add, n)|
  {
    MergedIDs(base, add, n);
    assert |IDs(Merged(base, add, n))| >= |IDs(base)|;
  }

  lemma {:induction false} NotAddedBefore(base: seq<FactorTag>, add: seq<FactorTag>, n: nat, id: string)
    requires n <= |add| && !Has(Merged(base, add, n), id)
    ensures forall k :: 0 <= k < n ==> add[k].factorID != id
    ensures forall k :: 0 <= k < |base| ==> base[k].factorID != id
  {
    if n > 0 {
      var before, tag := Merged(base, add, n - 1), add[n - 1];
      MergeOneHas(before, tag);
      NotAddedBefore(base, add, n - 1, id);
    }
  }

  lemma MergeOneHas(tags: seq<FactorTag>, tag: FactorTag)
    ensures forall id :: Has(MergeOne(tags, tag), id) <==> Has(tags, id) || id == tag.factorID
  {
    MergeOneIDs(tags, tag);
    forall id ensures Has(MergeOne(tags, tag), id) <==> Has(tags, id) || id == tag.factorID {
      HasIsIn(MergeOne(tags, tag), id);
      HasIsIn(tags, id);
    }
  }

  lemma HasIsIn(tags: seq<FactorTag>, id: string)
    ensures Has(tags, id) <==> id in IDs(tags)
  {
    if Has(tags, id) {
      var i :| 0 <= i < |tags| && tags[i].factorID == id;
      assert IDs(tags)[i] == id;
    }
  }

  // ----- Merging again

  /** The additions can change nothing: every factor is there with at least that score. */
  predicate Dominates(tags: seq<FactorTag>, tag: FactorTag) {
    var i := LastOf(tags, tag.factorID, |tags|);
    i >= 0 && tags[i].score >= tag.score
  }

  lemma MergeOneDominates(tags: seq<FactorTag>, tag: FactorTag, other: FactorTag)
    ensures Dominates(MergeOne(tags, tag), tag)
    ensures Dominates(tags, other) ==> Dominates(MergeOne(tags, tag), other)
  {
    var i := LastOf(tags, tag.factorID, |tags|);
    if i < 0 {
      LastOfAppend(tags, tag, tag.factorID);
      LastOfAppend(tags, tag, other.factorID);
    } else if tag.score > tags[i].score {
      LastOfPrefix(tags, tags[i := tag], tag.factorID, |tags|);
      LastOfPrefix(tags, tags[i := tag], other.factorID, |tags|);
    }
  }

  lemma {:induction false} MergedDominates(base: seq<FactorTag>, add: seq<FactorTag>, n: nat, k: nat)
    requires k < n <= |add|
    ensures Dominates(Merged(base, add, n), add[k])
  {
    MergeOneDominates(Merged(base, add, n - 1), add[n - 1], add[k]);
    if k < n - 1 { MergedDominates(base, add, n - 1, k); }
  }

  lemma {:induction false} DominatedAddsNothing(tags: seq<FactorTag>, add: seq<FactorTag>, n: nat)
    requires n <= |add| && forall k :: 0 <= k < n ==> Dominates(tags, add[k])
    ensures Merged(tags, add, n) == tags
  {
    if n > 0 { DominatedAddsNothing(tags, add, n - 1); }
  }

  /** Merging the same additions a second time changes nothing, whatever the base. */
  lemma MergeAgain(base: seq<FactorTag>, add: seq<FactorTag>)
    ensures var once := Merged(base, add, |add|); Merged(once, add, |add|) == once
  {
    forall k | 0 <= k < |add| ensures Dominates(Merged(base, add, |add|), add[k]) {
      MergedDominates(base, add, |add|, k);
    }
    DominatedAddsNothing(Merged(base, add, |add|), add, |add|);
  }

  // ----- Keyword rules

  function KeywordsFound(text: string, keywords: seq<string>, n: nat): (hits: nat)
    requires n <= |keywords|
    ensures hits <= n
  {
    if n == 0 then 0
    else
      KeywordsFound(text, keywords, n - 1)
      + if keywords[n - 1] != "" && Contains(text, Lower(keywords[n - 1])) then 1 else 0
  }

  function RuleTag(f: Factor, hits: int): FactorTag
    requires f.keywords != []
  {
    FactorTag(f.id, f.name, f.category, hits as real / |f.keywords| as real * f.weight, "rule_keyword", false)
  }

  function FactorFound(text: string, f: Factor): nat {
    KeywordsFound(text, f.keywords, |f.keywords|)
  }

  function RuleTags(text: string, factors: seq<Factor>, n: nat): seq<FactorTag>
    requires n <= |factors|
  {
    if n == 0 then []
    else
      var before, f := RuleTags(text, factors, n - 1), factors[n - 1];
      if FactorFound(text, f) == 0 then before else before + [RuleTag(f, FactorFound(text, f))]
  }

  method DeterministicFactorTags(text: string, factors: seq<Factor>) returns (out: seq<FactorTag>)
    ensures out == RuleTags(Lower(text), factors, |factors|)
  {
    var lower := Lower(text);
    out := [];
    for i := 0 to |factors|
      invariant out == RuleTags(lower, factors, i)
    {
      var factor := factors[i];
      var hits := CountKeywords(lower, factor.keywords);
      if hits == 0 {
        continue;
      }
      var tag := MakeRuleTag(factor, hits);
      out := out + [tag];
    }
  }

  method MakeRuleTag(factor: Factor, hits: int) returns (tag: FactorTag)
    requires 0 < hits <= |factor.keywords|
    ensures tag == RuleTag(factor, hits)
  {
    var score := hits as real / |factor.keywords| as real;
    ShareOfKeywords(hits, |factor.keywords|);
    if score > 1.0 {
      score := 1.0;
    }
    tag := FactorTag(factor.id, factor.name, factor.category, score * factor.weight, "rule_keyword", false);
  }

  method CountKeywords(lower: string, keywords: seq<string>) returns (hits: int)
    ensures hits == KeywordsFound(lower, keywords, |keywords|)
  {
    hits := 0;
    for j := 0 to |keywords|
      invariant hits == KeywordsFound(lower, keywords, j)
    {
      if keywords[j] != "" && Contains(lower, Lower(keywords[j])) {
        hits := hits + 1;
      }
    }
  }

  lemma ShareOfKeywords(hits: int, total: int)
    requires 0 < hits <= total
    ensures 0.0 < hits as real / total as real <= 1.0
  {}

  lemma RuleTagScore(f: Factor, hits: int)
    requires 0 < hits <= |f.keywords|
    ensures f.weight > 0.0 ==> 0.0 < RuleTag(f, hits).score <= f.weight
  {
    var share := hits as real / |f.keywords| as real;
    ShareOfKeywords(hits, |f.keywords|);
    ScaledShare(share, f.weight);
    assert RuleTag(f, hits).score == share * f.weight;
  }

  /** Each rule tag belongs to a factor some keyword of which stands in the text, at most its full weight. */
  lemma {:induction false} RuleTagsSound(text: string, factors: seq<Factor>, n: nat, i: nat) returns (f: nat)
    requires n <= |factors| && i < |RuleTags(text, factors, n)|
    ensures f < n && FactorFound(text, factors[f]) > 0 && RuleTags(text, factors, n)[i].factorID == factors[f].id
    ensures factors[f].weight > 0.0 ==> 0.0 < RuleTags(text, factors, n)[i].score <= factors[f].weight
  {
    var before := RuleTags(text, factors, n - 1);
    if i < |before| {
      f := RuleTagsSound(text, factors, n - 1, i);
    } else {
      f := n - 1;
      RuleTagScore(factors[f], FactorFound(text, factors[f]));
    }
  }

  lemma ScaledShare(share: real, weight: real)
    requires 0.0 < share <= 1.0
    ensures weight > 0.0 ==> 0.0 < share * weight <= weight
  {}

  /** With distinct factors the rules give each factor at most once, so the merge does too. */
  lemma {:induction false} RuleTagsOnce(text: string, factors: seq<Factor>, n: nat)
    requires n <= |factors| && forall i, j :: 0 <= i < j < |factors| ==> factors[i].id != factors[j].id
    ensures OncePerFactor(RuleTags(text, factors, n))
  {
    if n > 0 {
      RuleTagsOnce(text, factors, n - 1);
      var before := RuleTags(text, factors, n - 1);
      forall i | 0 <= i < |before| ensures before[i].factorID != factors[n - 1].id {
        var f := RuleTagsSound(text, factors, n - 1, i);
      }
    }
  }
}
