/**
  The rows of a run as a training set: whatever was ingested, walk-forward folds over them with an
  embargo keep every training label out of the test window (internal/engine/service.go,
  internal/market/session.go and internal/eval/eval.go together).
 */
module DatasetLaws {
  import opened Relevance
  import opened Ledger
  import opened Router
  import opened Session
  import opened Selection
  import opened Enricher
  import opened Pairs
  import opened ImpactRows
  import opened Service
  import opened ServiceLaws
  import opened WalkForward

  /** The row was written for this event. */
  predicate WrittenFor(row: FeatureRow, a: AlignedEvent) {
    && row.articleID == a.event.article.id && row.sessionDate == a.session.sessionDate
    && a == Aligned(a.event)
  }

  ghost predicate AllWrittenFor(rows: seq<FeatureRow>, a: AlignedEvent) {
    forall k :: 0 <= k < |rows| ==> WrittenFor(rows[k], a)
  }

  ghost predicate HasEvent(events: seq<AlignedEvent>, row: FeatureRow) {
    exists e :: 0 <= e < |events| && WrittenFor(row, events[e])
  }

  ghost predicate RowsHaveEvents(p: Progress) {
    forall k :: 0 <= k < |p.rows| ==> HasEvent(p.events, p.rows[k])
  }

  lemma {:induction false} EntityRowsWritten(e: EnrichedEvent, n: nat)
    requires n <= |e.matches|
    ensures AllWrittenFor(EntityRows(e, Aligned(e).session, n), Aligned(e))
  {
    if n > 0 { EntityRowsWritten(e, n - 1); }
  }

  lemma RowsWritten(env: Env, log: History, calls: int, e: EnrichedEvent, impact: Impact)
    ensures AllWrittenFor(RowsFor(env, log, calls, e, Aligned(e).session, impact).rows, Aligned(e))
  {
    if !impact.enabled {
      EntityRowsWritten(e, |e.matches|);
    } else {
      var pairs := PairsOf(impact, e.matches);
      PairRowsWritten(e, pairs, Judge(env, log, calls, e.article, pairs).results);
    }
  }

  lemma PairRowsWritten(e: EnrichedEvent, pairs: seq<Pair>, results: seq<PairSentiment>)
    requires |pairs| == |results|
    ensures AllWrittenFor(PairRows(e, Aligned(e).session, pairs, results), Aligned(e))
  {}

  lemma MoreRows(p: Progress, a: AlignedEvent, rows: seq<FeatureRow>, log: History, calls: int)
    requires RowsHaveEvents(p) && AllWrittenFor(rows, a)
    ensures RowsHaveEvents(Progress(p.events + [a], p.rows + rows, log, calls))
  {
    var events, all := p.events + [a], p.rows + rows;
    forall k | 0 <= k < |all| ensures HasEvent(events, all[k]) {
      if k < |p.rows| {
        assert HasEvent(p.events, p.rows[k]);
        var e :| 0 <= e < |p.events| && WrittenFor(p.rows[k], p.events[e]);
        assert events[e] == p.events[e];
      } else {
        assert all[k] == rows[k - |p.rows|] && events[|p.events|] == a;
      }
    }
  }

  lemma StepHasEvents(env: Env, s: Scope, p: Progress, a: Article)
    requires RowsHaveEvents(p)
    ensures RowsHaveEvents(StepOf(env, s)(p, a))
  {
    var e := Enrich(env, p.log, p.calls, DraftOf(s, a));
    RowsWritten(env, e.log, e.calls, e.event, s.impact);
    var r := RowsFor(env, e.log, e.calls, e.event, Aligned(e.event).session, s.impact);
    MoreRows(p, Aligned(e.event), r.rows, r.log, r.calls);
  }

  /** Every row of a run was written for one of its events. */
  lemma RunRowsHaveEvents(env: Env, s: Scope, log: History, calls: int, articles: seq<Article>)
    ensures RowsHaveEvents(RunAll(env, s, log, calls, articles))
  {
    var inv := (p: Progress) => RowsHaveEvents(p);
    forall p, a | inv(p) ensures inv(StepOf(env, s)(p, a)) {
      StepHasEvents(env, s, p, a);
    }
    RunKeeps(StepOf(env, s), inv, Progress([], [], log, calls), articles, |articles|);
  }

  // ----- Leakage

  function RowDates(rows: seq<FeatureRow>): seq<int> {
    seq(|rows|, k requires 0 <= k < |rows| => rows[k].sessionDate)
  }

  /** Publication times behind the rows. */
  lemma RowTimes(events: seq<AlignedEvent>, rows: seq<FeatureRow>) returns (times: seq<int>)
    requires forall k :: 0 <= k < |rows| ==> HasEvent(events, rows[k])
    ensures |times| == |rows| && SessionDates(times) == RowDates(rows)
  {
    times := [];
    for n := 0 to |rows|
      invariant |times| == n && forall k :: 0 <= k < n ==> AlignToNSESession(times[k]).sessionDate == rows[k].sessionDate
    {
      assert HasEvent(events, rows[n]);
      var e :| 0 <= e < |events| && WrittenFor(rows[n], events[e]);
      times := times + [events[e].event.article.publishedAt];
    }
  }

  /**
    In walk-forward folds over the rows of a run, with an embargo of at least one date, the label
    window of an event whose row falls in the training range ends before the test window starts.
   */
  lemma RunNeverLeaks(env: Env, s: Scope, log: History, calls: int, articles: seq<Article>,
                      folds: seq<Fold>, dates: seq<int>, train: int, test: int, embargo: int, i: nat, k: nat, e: nat)
    requires train > 0 && test > 0 && embargo >= 1
    requires var p := RunAll(env, s, log, calls, articles);
             && IsDatesOf(dates, RowDates(p.rows)) && k < |p.rows| && e < |p.events|
             && WrittenFor(p.rows[k], p.events[e])
    requires AreFoldsOf(folds, dates, train, test, embargo) && i < |folds|
    ensures var p := RunAll(env, s, log, calls, articles);
            folds[i].trainStart <= p.rows[k].sessionDate <= folds[i].trainEnd ==> p.events[e].labelWindowTo < folds[i].testStart
  {
    var p := RunAll(env, s, log, calls, articles);
    RunRowsHaveEvents(env, s, log, calls, articles);
    var times := RowTimes(p.events, p.rows);
    NoLeakAt(p.events[e], p.rows, k, times, folds, dates, train, test, embargo, i);
  }

  lemma NoLeakAt(a: AlignedEvent, rows: seq<FeatureRow>, k: nat, rowTimes: seq<int>,
                 folds: seq<Fold>, dates: seq<int>, train: int, test: int, embargo: int, i: nat)
    requires train > 0 && test > 0 && embargo >= 1 && k < |rows| && WrittenFor(rows[k], a)
    requires SessionDates(rowTimes) == RowDates(rows) && IsDatesOf(dates, RowDates(rows))
    requires AreFoldsOf(folds, dates, train, test, embargo) && i < |folds|
    ensures folds[i].trainStart <= rows[k].sessionDate <= folds[i].trainEnd ==> a.labelWindowTo < folds[i].testStart
  {
    var at := a.event.article.publishedAt;
    assert |rowTimes| == |SessionDates(rowTimes)| == |rows|;
    var times := rowTimes[k := at];
    assert SessionDates(times) == RowDates(rows) by {
      assert forall j :: 0 <= j < |rows| ==> SessionDates(rowTimes)[j] == RowDates(rows)[j];
    }
    NoLabelLeakage(times, folds, dates, train, test, embargo, i);
    assert SessionDates(times)[k] == rows[k].sessionDate && LabelWindowEnd(times[k]) == a.labelWindowTo;
  }
}
