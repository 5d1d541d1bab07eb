/**
  What the rows of a run in impact mode are about: for every event exactly its due pairs, each once and
  in order (internal/engine/impact_rows.go, internal/engine/service.go).
 */
module RowLaws {
  import opened Text
  import opened Sorting
  import opened Relevance
  import opened Providers
  import opened Ledger
  import opened EntityMap
  import opened Router
  import opened Session
  import opened Selection
  import opened Enricher
  import opened Pairs
  import opened PairLaws
  import opened ImpactRows
  import opened ImpactLaws
  import opened Service
  import opened ServiceLaws

  /** The parent and child entity a row names. */
  datatype Column = Column(parent: string, child: string)

  function ColumnOf(row: FeatureRow): Column {
    Column(row.parentEntity, row.childEntity)
  }

  function Columns(rows: seq<FeatureRow>): seq<Column> {
    seq(|rows|, i requires 0 <= i < |rows| => ColumnOf(rows[i]))
  }

  function PairColumn(pair: Pair): Column {
    Column(pair.parent.symbol, if pair.child.Some? then pair.child.value.symbol else "N/A")
  }

  /** By upper-cased parent, then by upper-cased child. */
  predicate ColumnLess(a: Column, b: Column) {
    StrLess(Upper(a.parent), Upper(b.parent)) || (a.parent == b.parent && StrLess(Upper(a.child), Upper(b.child)))
  }

  /** The columns are those of a pair due for these matches. */
  ghost predicate DueColumn(impact: Impact, matches: seq<EntityMatch>, c: Column) {
    exists pair :: DuePair(impact, matches, pair) && PairColumn(pair) == c
  }

  /** The rows name exactly the due pairs of the event, each once, in order. */
  ghost predicate ExactRows(impact: Impact, e: EnrichedEvent, rows: seq<FeatureRow>) {
    && (forall c :: c in Columns(rows) <==> DueColumn(impact, e.matches, c))
    && (forall i, j :: 0 <= i < j < |rows| ==> ColumnLess(Columns(rows)[i], Columns(rows)[j]) && Columns(rows)[i] != Columns(rows)[j])
  }

  // ----- The rows of one event

  lemma RowColumn(e: EnrichedEvent, session: MarketSession, pairs: seq<Pair>, results: seq<PairSentiment>, i: nat)
    requires i < |pairs| == |results|
    ensures var rows := PairRows(e, session, pairs, results);
            |rows| == |pairs| && Columns(rows)[i] == PairColumn(pairs[i])
  {
    RowSays(e, session, pairs, results, i);
  }

  lemma PairLessColumns(a: Pair, b: Pair)
    requires PairLess(a, b)
    ensures ColumnLess(PairColumn(a), PairColumn(b)) && PairColumn(a) != PairColumn(b)
  {
    StrLessIrreflexive(Upper(a.parent.symbol));
    if a.child.Some? { StrLessIrreflexive(Upper(a.child.value.symbol)); }
  }

  lemma ColumnsInOrder(columns: seq<Column>, pairs: seq<Pair>)
    requires |columns| == |pairs| && Ascending(pairs, PairLess)
    requires forall i :: 0 <= i < |pairs| ==> columns[i] == PairColumn(pairs[i])
    ensures forall i, j :: 0 <= i < j < |columns| ==> ColumnLess(columns[i], columns[j]) && columns[i] != columns[j]
  {
    forall i, j | 0 <= i < j < |columns| ensures ColumnLess(columns[i], columns[j]) && columns[i] != columns[j] {
      PairLessColumns(pairs[i], pairs[j]);
    }
  }

  lemma ColumnsOfDue(impact: Impact, matches: seq<EntityMatch>, columns: seq<Column>, pairs: seq<Pair>, c: Column)
    requires |columns| == |pairs| && forall i :: 0 <= i < |pairs| ==> columns[i] == PairColumn(pairs[i])
    requires forall pair :: pair in pairs <==> DuePair(impact, matches, pair)
    ensures c in columns <==> DueColumn(impact, matches, c)
  {
    if c in columns {
      var i :| 0 <= i < |columns| && columns[i] == c;
      assert pairs[i] in pairs;
    }
    if DueColumn(impact, matches, c) {
      var pair :| DuePair(impact, matches, pair) && PairColumn(pair) == c;
      assert pair in pairs;
      var i :| 0 <= i < |pairs| && pairs[i] == pair;
      assert columns[i] == c;
    }
  }

  /** With distinct symbols the rows of an event name exactly its due pairs, each once, in order. */
  lemma EventRowsExact(e: EnrichedEvent, session: MarketSession, impact: Impact, results: seq<PairSentiment>)
    requires DistinctMatches(e.matches) && |results| == |PairsOf(impact, e.matches)|
    ensures ExactRows(impact, e, PairRows(e, session, PairsOf(impact, e.matches), results))
  {
    var pairs := PairsOf(impact, e.matches);
    var rows := PairRows(e, session, pairs, results);
    ExactPairs(impact, e.matches);
    forall i | 0 <= i < |pairs| ensures Columns(rows)[i] == PairColumn(pairs[i]) {
      RowColumn(e, session, pairs, results, i);
    }
    ColumnsInOrder(Columns(rows), pairs);
    forall c ensures c in Columns(rows) <==> DueColumn(impact, e.matches, c) {
      ColumnsOfDue(impact, e.matches, Columns(rows), pairs, c);
    }
  }

  // ----- The rows of a run

  /** The rows from `lo` up to `hi` are exactly those due for the event. */
  ghost predicate Stretch(impact: Impact, a: AlignedEvent, rows: seq<FeatureRow>, lo: nat, hi: nat) {
    lo <= hi <= |rows| && ExactRows(impact, a.event, rows[lo..hi])
  }

  /** The rows fall into one stretch for each event, in order. */
  ghost predicate RowsByEvent(impact: Impact, events: seq<AlignedEvent>, rows: seq<FeatureRow>, cuts: seq<nat>) {
    && |cuts| == |events| + 1 && cuts[0] == 0 && cuts[|events|] == |rows|
    && forall i :: 0 <= i < |events| ==> Stretch(impact, events[i], rows, cuts[i], cuts[i + 1])
  }

  ghost predicate ExactRun(impact: Impact, p: Progress) {
    exists cuts :: RowsByEvent(impact, p.events, p.rows, cuts)
  }

  lemma StretchStays(impact: Impact, a: AlignedEvent, rows: seq<FeatureRow>, more: seq<FeatureRow>, lo: nat, hi: nat)
    requires Stretch(impact, a, rows, lo, hi)
    ensures Stretch(impact, a, rows + more, lo, hi)
  {
    assert (rows + more)[lo..hi] == rows[lo..hi];
  }

  lemma NewStretch(impact: Impact, a: AlignedEvent, rows: seq<FeatureRow>, more: seq<FeatureRow>)
    requires ExactRows(impact, a.event, more)
    ensures Stretch(impact, a, rows + more, |rows|, |rows + more|)
  {
    assert (rows + more)[|rows|..|rows + more|] == more;
  }

  lemma MoreRowsByEvent(impact: Impact, events: seq<AlignedEvent>, rows: seq<FeatureRow>, cuts: seq<nat>,
                        a: AlignedEvent, more: seq<FeatureRow>)
    requires RowsByEvent(impact, events, rows, cuts) && ExactRows(impact, a.event, more)
    ensures RowsByEvent(impact, events + [a], rows + more, cuts + [|rows + more|])
  {
    var events', cuts' := events + [a], cuts + [|rows + more|];
    forall i | 0 <= i < |events'| ensures Stretch(impact, events'[i], rows + more, cuts'[i], cuts'[i + 1]) {
      if i < |events| {
        StretchStays(impact, events[i], rows, more, cuts[i], cuts[i + 1]);
      } else {
        NewStretch(impact, a, rows, more);
      }
    }
  }

  lemma TakenExact(env: Env, s: Scope, p: Progress, draft: EnrichedEvent)
    requires s.impact.enabled && ExactRun(s.impact, p) && DistinctMatches(draft.matches)
    ensures ExactRun(s.impact, Taken(env, s, p, draft))
  {
    var e := Enrich(env, p.log, p.calls, draft);
    var pairs := PairsOf(s.impact, e.event.matches);
    var r := RowsFor(env, e.log, e.calls, e.event, Aligned(e.event).session, s.impact);
    assert e.event.matches == draft.matches;
    EventRowsExact(e.event, Aligned(e.event).session, s.impact, Judge(env, e.log, e.calls, e.event.article, pairs).results);
    var cuts :| RowsByEvent(s.impact, p.events, p.rows, cuts);
    MoreRowsByEvent(s.impact, p.events, p.rows, cuts, Aligned(e.event), r.rows);
  }

  /** The rows of a run in impact mode name, event by event, exactly the due pairs, each once, in order. */
  lemma RunRowsExact(env: Env, s: Scope, log: History, calls: int, articles: seq<Article>)
    requires s.impact.enabled && DistinctSymbols(s.universe)
    ensures ExactRun(s.impact, RunAll(env, s, log, calls, articles))
  {
    var inv := (p: Progress) => ExactRun(s.impact, p);
    assert RowsByEvent(s.impact, [], [], [0]);
    assert inv(Progress([], [], log, calls));
    forall p, a | inv(p) ensures inv(StepOf(env, s)(p, a)) {
      MatchesDistinct(a, s.universe);
      TakenExact(env, s, p, DraftOf(s, a));
    }
    RunKeeps(StepOf(env, s), inv, Progress([], [], log, calls), articles, |articles|);
  }
}
