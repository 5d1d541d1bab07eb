/**
  Purged walk-forward folds (internal/eval/eval.go) and, with the label windows of
  internal/market/session.go, when training labels stay out of the test window.
 */
module WalkForward {
  import opened Session
  import opened Sorting

  datatype Fold = Fold(trainStart: int, trainEnd: int, testStart: int, testEnd: int)

  predicate Earlier(a: int, b: int) {
    a < b
  }

  // ----- Distinct dates

  /** For each UTC day the date of the last row on it. */
  function LastOfDay(rows: seq<int>): map<int, int> {
    if rows == [] then map[]
    else
      var d := rows[|rows| - 1];
      LastOfDay(rows[..|rows| - 1])[UtcDay(d) := d]
  }

  ghost predicate IsDatesOf(dates: seq<int>, rows: seq<int>) {
    && Ascending(dates, Earlier)
    && forall d :: d in dates <==> IsLatest(rows, d)
  }

  /** `d` is the date of the last row on its own UTC day. */
  ghost predicate IsLatest(rows: seq<int>, d: int) {
    UtcDay(d) in LastOfDay(rows) && LastOfDay(rows)[UtcDay(d)] == d
  }

  lemma {:induction false} LastOfDayFacts(rows: seq<int>)
    ensures forall day :: day in LastOfDay(rows) ==>
              UtcDay(LastOfDay(rows)[day]) == day && LastOfDay(rows)[day] in rows
    ensures forall d :: d in rows ==> UtcDay(d) in LastOfDay(rows)
  {
    if rows != [] {
      var front, d := rows[..|rows| - 1], rows[|rows| - 1];
      LastOfDayFacts(front);
      assert rows == front + [d];
    }
  }

  /** The date of a day is that of the last row on it. */
  lemma {:induction false} LastOfDayIs(rows: seq<int>, i: nat)
    requires i < |rows| && forall j :: i < j < |rows| ==> UtcDay(rows[j]) != UtcDay(rows[i])
    ensures UtcDay(rows[i]) in LastOfDay(rows) && LastOfDay(rows)[UtcDay(rows[i])] == rows[i]
  {
    if i < |rows| - 1 {
      var front := rows[..|rows| - 1];
      assert forall j :: 0 <= j < |front| ==> front[j] == rows[j];
      LastOfDayIs(front, i);
    }
  }

  lemma DatesUnique(a: seq<int>, b: seq<int>, rows: seq<int>)
    requires IsDatesOf(a, rows) && IsDatesOf(b, rows)
    ensures a == b
  {
    forall d: int ensures d in a <==> d in b {
      assert d in a <==> IsLatest(rows, d);
    }
    ListingUnique(a, b, Earlier);
  }

  /** The map of days is ranged over in an arbitrary order; sorting makes the result unique. */
  method UniqueDates(rows: seq<int>) returns (dates: seq<int>)
    ensures IsDatesOf(dates, rows)
  {
    var byDay: map<int, int> := map[];
    for i := 0 to |rows|
      invariant byDay == LastOfDay(rows[..i])
    {
      byDay := byDay[UtcDay(rows[i]) := rows[i]];
      assert rows[..i + 1][..i] == rows[..i];
    }
    assert rows[..|rows|] == rows;
    LastOfDayFacts(rows);
    dates := [];
    var days: set<int> := byDay.Keys;
    while days != {}
      invariant days <= byDay.Keys
      invariant forall d :: d in dates <==> IsLatest(rows, d) && UtcDay(d) !in days
      invariant Comparable(dates, Earlier)
    {
      var day := NextKey(days);
      var d := byDay[day];
      assert d !in dates;
      ghost var before := dates;
      dates := dates + [d];
      assert forall x :: x in dates <==> x in before || x == d;
      days := days - {day};
    }
    SortAscends(dates, Earlier);
    dates := Sort(dates, Earlier);
  }

  // ----- Folds

  function FoldAt(dates: seq<int>, start: nat, train: int, test: int, embargo: int): Fold
    requires InRange(|dates|, start, train, test, embargo)
  {
    Fold(dates[start], dates[start + train - 1], dates[start + train + embargo],
         dates[start + train + embargo + test - 1])
  }

  predicate InRange(n: nat, start: nat, train: int, test: int, embargo: int) {
    && start < n && 0 <= start + train - 1 < n
    && 0 <= start + train + embargo < n && 0 <= start + train + embargo + test - 1 < n
  }

  /** The loop's exit test. */
  predicate Exits(n: nat, start: nat, train: int, test: int, embargo: int) {
    start + train + embargo + test - 1 >= n
  }

  /** How many folds `n` distinct days yield. */
  function FoldCount(n: nat, train: int, test: int, embargo: int): nat {
    if n < train + test || n - train - embargo - test + 1 < 0 then 0
    else n - train - embargo - test + 1
  }

  /** The embargoes for which the loop never indexes outside the dates, whatever their number. */
  predicate SafeEmbargo(train: int, test: int, embargo: int) {
    -train <= embargo && -test <= embargo
  }

  ghost predicate AreFoldsOf(folds: seq<Fold>, dates: seq<int>, train: int, test: int, embargo: int) {
    && |folds| == FoldCount(|dates|, train, test, embargo)
    && forall i :: 0 <= i < |folds| ==>
         InRange(|dates|, i, train, test, embargo) && folds[i] == FoldAt(dates, i, train, test, embargo)
  }

  lemma OneLarger(s: set<int>, x: int)
    requires x !in s
    ensures |s + {x}| == |s| + 1
  {}

  function DayOf(dates: seq<int>): set<int> {
    set i | 0 <= i < |dates| :: UtcDay(dates[i])
  }

  lemma {:induction false} DaysDistinct(dates: seq<int>, n: nat)
    requires n <= |dates| && forall i, j :: 0 <= i < j < |dates| ==> UtcDay(dates[i]) != UtcDay(dates[j])
    ensures |DayOf(dates[..n])| == n
  {
    if n > 0 {
      DaysDistinct(dates, n - 1);
      var front, day := dates[..n - 1], UtcDay(dates[n - 1]);
      assert dates[..n] == front + [dates[n - 1]];
      DayAppend(front, dates[n - 1]);
      OneLarger(DayOf(front), day);
    }
  }

  lemma DayAppend(dates: seq<int>, d: int)
    ensures DayOf(dates + [d]) == DayOf(dates) + {UtcDay(d)}
  {
    var more := dates + [d];
    assert forall i :: 0 <= i < |dates| ==> more[i] == dates[i];
    forall day ensures day in DayOf(more) <==> day in DayOf(dates) || day == UtcDay(d) {
      if day == UtcDay(d) { assert UtcDay(more[|dates|]) == day; }
      if day in DayOf(dates) {
        var i :| 0 <= i < |dates| && UtcDay(dates[i]) == day;
        assert UtcDay(more[i]) == day;
      }
    }
  }

  /** There are as many dates as there are days with a row. */
  lemma DateCount(dates: seq<int>, rows: seq<int>)
    requires IsDatesOf(dates, rows)
    ensures |dates| == |LastOfDay(rows)|
  {
    LastOfDayFacts(rows);
    forall i, j | 0 <= i < j < |dates| ensures UtcDay(dates[i]) != UtcDay(dates[j]) {
      assert Earlier(dates[i], dates[j]) && dates[i] in dates && dates[j] in dates;
    }
    DaysDistinct(dates, |dates|);
    assert dates[..|dates|] == dates;
    forall day ensures day in DayOf(dates) <==> day in LastOfDay(rows) {
      if day in LastOfDay(rows) {
        var d := LastOfDay(rows)[day];
        assert IsLatest(rows, d);
        var i :| 0 <= i < |dates| && dates[i] == d;
      }
      if day in DayOf(dates) {
        var i :| 0 <= i < |dates| && UtcDay(dates[i]) == day;
        assert dates[i] in dates;
      }
    }
    assert DayOf(dates) == LastOfDay(rows).Keys;
  }

  method BuildPurgedWalkForward(rows: seq<int>, train: int, test: int, embargo: int)
    returns (folds: seq<Fold>, ghost dates: seq<int>)
    requires train > 0 && test > 0 && |LastOfDay(rows)| >= train + test ==> SafeEmbargo(train, test, embargo)
    ensures IsDatesOf(dates, rows) && |dates| == |LastOfDay(rows)|
    ensures train <= 0 || test <= 0 ==> folds == []
    ensures train > 0 && test > 0 ==> AreFoldsOf(folds, dates, train, test, embargo)
  {
    if |rows| == 0 || train <= 0 || test <= 0 {
      var ds := UniqueDates(rows);
      LastOfDayFacts(rows);
      assert rows == [] && ds != [] ==> IsLatest(rows, ds[0]);
      DateCount(ds, rows);
      return [], ds;
    }
    var ds := UniqueDates(rows);
    dates := ds;
    DateCount(ds, rows);
    if |ds| < train + test {
      return [], dates;
    }
    folds := [];
    var start := 0;
    while true
      invariant 0 <= start == |folds| <= FoldCount(|ds|, train, test, embargo)
      invariant forall i :: 0 <= i < start ==>
                  InRange(|ds|, i, train, test, embargo) && folds[i] == FoldAt(ds, i, train, test, embargo)
      decreases |ds| + train + test - start
    {
      var trainStart := start;
      var trainEnd := trainStart + train - 1;
      var testStart := trainEnd + 1 + embargo;
      var testEnd := testStart + test - 1;
      if testEnd >= |ds| {
        break;
      }
      folds := folds + [Fold(ds[trainStart], ds[trainEnd], ds[testStart], ds[testEnd])];
      start := start + 1;
    }
  }

  /**
    Outside the safe embargoes the loop does go wrong: with enough dates there is a start up to which
    the exit test never fires, and at which some index is out of range.
   */
  lemma UnsafeEmbargoPanics(n: nat, train: int, test: int, embargo: int) returns (start: nat)
    requires train > 0 && test > 0 && !SafeEmbargo(train, test, embargo) && n >= train + test
    ensures forall earlier: nat :: earlier <= start ==> !Exits(n, earlier, train, test, embargo)
    ensures !InRange(n, start, train, test, embargo)
  {
    if embargo < -train {
      start := 0;
    } else {
      start := n - train + 1;
    }
  }

  // ----- Fold geometry

  /** The dates strictly between two given ones. */
  ghost function Between(dates: seq<int>, lo: int, hi: int): set<int> {
    set d | d in dates && lo < d < hi
  }

  ghost function Slice(dates: seq<int>, lo: nat, hi: nat): set<int>
    requires lo <= hi <= |dates|
  {
    set d | d in dates[lo..hi]
  }

  lemma SliceGrows(dates: seq<int>, lo: nat, hi: nat)
    requires Ascending(dates, Earlier) && lo < hi <= |dates|
    ensures Slice(dates, lo, hi) == Slice(dates, lo, hi - 1) + {dates[hi - 1]}
    ensures dates[hi - 1] !in Slice(dates, lo, hi - 1)
  {
    var front := dates[lo..hi - 1];
    assert dates[lo..hi] == front + [dates[hi - 1]];
    forall k | 0 <= k < |front| ensures front[k] < dates[hi - 1] {
      assert Earlier(dates[lo + k], dates[hi - 1]);
    }
  }

  lemma NoSlice(dates: seq<int>, lo: nat)
    requires lo <= |dates|
    ensures Slice(dates, lo, lo) == {}
  {}

  lemma SliceTurn(dates: seq<int>, lo: nat, hi: nat)
    requires Ascending(dates, Earlier) && lo < hi <= |dates|
    ensures |Slice(dates, lo, hi)| == |Slice(dates, lo, hi - 1)| + 1
  {
    SliceGrows(dates, lo, hi);
    OneLarger(Slice(dates, lo, hi - 1), dates[hi - 1]);
  }

  ghost function SliceSizes(dates: seq<int>, lo: nat): int -> int {
    (hi: int) => if lo <= hi <= |dates| then |Slice(dates, lo, hi)| else 0
  }

  lemma {:induction false} CountsUp(f: int -> int, lo: int, hi: int)
    requires lo <= hi && f(lo) == 0 && forall i :: lo < i <= hi ==> f(i) == f(i - 1) + 1
    ensures f(hi) == hi - lo
    decreases hi - lo
  {
    if lo < hi { CountsUp(f, lo, hi - 1); }
  }

  lemma SliceSize(dates: seq<int>, lo: nat, hi: nat)
    requires Ascending(dates, Earlier) && lo <= hi <= |dates|
    ensures |Slice(dates, lo, hi)| == hi - lo
  {
    var f := SliceSizes(dates, lo);
    NoSlice(dates, lo);
    forall i | lo < i <= hi ensures f(i) == f(i - 1) + 1 {
      SliceTurn(dates, lo, i);
    }
    CountsUp(f, lo, hi);
  }

  /** Between the dates at two positions lie exactly the dates at the positions between. */
  lemma BetweenIsSlice(dates: seq<int>, i: nat, j: nat)
    requires Ascending(dates, Earlier) && i < j < |dates|
    ensures Between(dates, dates[i], dates[j]) == Slice(dates, i + 1, j)
  {
    forall d ensures d in Between(dates, dates[i], dates[j]) <==> d in Slice(dates, i + 1, j) {
      if d in Between(dates, dates[i], dates[j]) {
        var k :| 0 <= k < |dates| && dates[k] == d;
        assert i < k < j by {
          assert k <= i ==> k == i || Earlier(dates[k], dates[i]);
          assert j <= k ==> k == j || Earlier(dates[j], dates[k]);
        }
        assert dates[i + 1..j][k - i - 1] == d;
      }
      if d in Slice(dates, i + 1, j) {
        var k :| 0 <= k < |dates[i + 1..j]| && dates[i + 1..j][k] == d;
        assert dates[i + 1 + k] == d;
        assert Earlier(dates[i], dates[i + 1 + k]) && Earlier(dates[i + 1 + k], dates[j]);
      }
    }
  }

  /**
    With an embargo of `embargo >= 0` dates: training ends before testing starts, exactly `embargo`
    dates lie strictly between, training spans `train` dates and testing `test` dates, and the next
    fold is this one shifted by a single date.
   */
  lemma FoldGeometry(folds: seq<Fold>, dates: seq<int>, train: int, test: int, embargo: int, i: nat)
    requires train > 0 && test > 0 && embargo >= 0
    requires Ascending(dates, Earlier) && AreFoldsOf(folds, dates, train, test, embargo) && i < |folds|
    ensures var f := folds[i];
            && f.trainStart <= f.trainEnd < f.testStart <= f.testEnd
            && |Between(dates, f.trainEnd, f.testStart)| == embargo
            && (train > 1 ==> |Between(dates, f.trainStart, f.trainEnd)| == train - 2)
            && (test > 1 ==> |Between(dates, f.testStart, f.testEnd)| == test - 2)
            && (i + 1 < |folds| ==>
                  && f.trainStart < folds[i + 1].trainStart
                  && |Between(dates, f.trainStart, folds[i + 1].trainStart)| == 0
                  && f.testEnd < folds[i + 1].testEnd
                  && |Between(dates, f.testEnd, folds[i + 1].testEnd)| == 0)
  {
    FoldGap(folds, dates, train, test, embargo, i);
    FoldWindows(folds, dates, train, test, embargo, i);
    if i + 1 < |folds| { FoldShift(folds, dates, train, test, embargo, i); }
  }

  lemma FoldGap(folds: seq<Fold>, dates: seq<int>, train: int, test: int, embargo: int, i: nat)
    requires train > 0 && test > 0 && embargo >= 0
    requires Ascending(dates, Earlier) && AreFoldsOf(folds, dates, train, test, embargo) && i < |folds|
    ensures var f := folds[i];
            f.trainEnd < f.testStart && |Between(dates, f.trainEnd, f.testStart)| == embargo
  {
    IndexGap(dates, i + train - 1, i + train + embargo);
  }

  lemma FoldWindows(folds: seq<Fold>, dates: seq<int>, train: int, test: int, embargo: int, i: nat)
    requires train > 0 && test > 0 && embargo >= 0
    requires Ascending(dates, Earlier) && AreFoldsOf(folds, dates, train, test, embargo) && i < |folds|
    ensures var f := folds[i];
            && f.trainStart <= f.trainEnd && f.testStart <= f.testEnd
            && (train > 1 ==> |Between(dates, f.trainStart, f.trainEnd)| == train - 2)
            && (test > 1 ==> |Between(dates, f.testStart, f.testEnd)| == test - 2)
  {
    if train > 1 { IndexGap(dates, i, i + train - 1); }
    if test > 1 { IndexGap(dates, i + train + embargo, i + train + embargo + test - 1); }
  }

  lemma FoldShift(folds: seq<Fold>, dates: seq<int>, train: int, test: int, embargo: int, i: nat)
    requires train > 0 && test > 0 && embargo >= 0
    requires Ascending(dates, Earlier) && AreFoldsOf(folds, dates, train, test, embargo) && i + 1 < |folds|
    ensures var f, next := folds[i], folds[i + 1];
            && f.trainStart < next.trainStart && |Between(dates, f.trainStart, next.trainStart)| == 0
            && f.testEnd < next.testEnd && |Between(dates, f.testEnd, next.testEnd)| == 0
  {
    IndexGap(dates, i, i + 1);
    IndexGap(dates, i + train + embargo + test - 1, i + train + embargo + test);
  }

  lemma IndexGap(dates: seq<int>, i: nat, j: nat)
    requires Ascending(dates, Earlier) && i < j < |dates|
    ensures dates[i] < dates[j] && |Between(dates, dates[i], dates[j])| == j - i - 1
  {
    assert Earlier(dates[i], dates[j]);
    BetweenIsSlice(dates, i, j);
    SliceSize(dates, i + 1, j);
  }

  /** Training ends before testing starts in every fold exactly when the embargo is not negative. */
  lemma TrainBeforeTestIff(folds: seq<Fold>, dates: seq<int>, train: int, test: int, embargo: int)
    requires train > 0 && test > 0 && SafeEmbargo(train, test, embargo)
    requires Ascending(dates, Earlier) && AreFoldsOf(folds, dates, train, test, embargo) && folds != []
    ensures (forall i :: 0 <= i < |folds| ==> folds[i].trainEnd < folds[i].testStart) <==> embargo >= 0
  {
    if embargo >= 0 {
      forall i | 0 <= i < |folds| ensures folds[i].trainEnd < folds[i].testStart {
        FoldGeometry(folds, dates, train, test, embargo, i);
      }
    } else if embargo < -1 {
      assert Earlier(dates[train + embargo], dates[train - 1]);
      assert folds[0].testStart < folds[0].trainEnd;
    } else {
      assert folds[0].testStart == folds[0].trainEnd;
    }
  }

  // ----- Label leakage

  /** The session dates of the rows of these articles. */
  function SessionDates(articles: seq<int>): seq<int> {
    seq(|articles|, i requires 0 <= i < |articles| => AlignToNSESession(articles[i]).sessionDate)
  }

  /** Some article dated in the training range has a label window reaching into the test window. */
  ghost predicate Leaks(articles: seq<int>, f: Fold) {
    exists i :: 0 <= i < |articles|
                && f.trainStart <= SessionDates(articles)[i] <= f.trainEnd
                && f.testStart <= LabelWindowEnd(articles[i])
  }

  /** Every distinct date is the session date of some article. */
  lemma DatesComeFromArticles(articles: seq<int>, dates: seq<int>, d: int)
    requires IsDatesOf(dates, SessionDates(articles)) && d in dates
    ensures IsSessionDate(d) && exists i :: 0 <= i < |articles| && SessionDates(articles)[i] == d
  {
    var rows := SessionDates(articles);
    LastOfDayFacts(rows);
    assert d in rows;
    var i :| 0 <= i < |rows| && rows[i] == d;
    SessionDateBounds(articles[i]);
  }

  /**
    A fold leaks exactly when its test window starts no later than the day right after its training
    range ends, whatever the embargo; when the embargo is not negative, exactly when it starts that day.
   */
  lemma LeaksIffAdjacent(articles: seq<int>, folds: seq<Fold>, dates: seq<int>, train: int, test: int, embargo: int, i: nat)
    requires train > 0 && test > 0
    requires IsDatesOf(dates, SessionDates(articles))
    requires AreFoldsOf(folds, dates, train, test, embargo) && i < |folds|
    ensures Leaks(articles, folds[i]) <==> folds[i].testStart <= folds[i].trainEnd + DAY
    ensures embargo >= 0 ==> (Leaks(articles, folds[i]) <==> folds[i].testStart == folds[i].trainEnd + DAY)
  {
    var f := folds[i];
    DatesComeFromArticles(articles, dates, f.trainEnd);
    DatesComeFromArticles(articles, dates, f.testStart);
    assert f.trainStart <= f.trainEnd by {
      if train > 1 { assert Earlier(dates[i], dates[i + train - 1]); }
    }
    if f.testStart <= f.trainEnd + DAY { EarlyTestLeaks(articles, f); } else { LateTestDoesNotLeak(articles, f); }
    if embargo >= 0 {
      FoldGap(folds, dates, train, test, embargo, i);
      DayKeysFaithful(f.trainEnd, f.testStart);
    }
  }

  lemma EarlyTestLeaks(articles: seq<int>, f: Fold)
    requires f.trainStart <= f.trainEnd && f.testStart <= f.trainEnd + DAY
    requires exists k :: 0 <= k < |articles| && SessionDates(articles)[k] == f.trainEnd
    ensures Leaks(articles, f)
  {
    var k :| 0 <= k < |articles| && SessionDates(articles)[k] == f.trainEnd;
    LabelWindowBounds(articles[k]);
  }

  lemma LateTestDoesNotLeak(articles: seq<int>, f: Fold)
    requires IsSessionDate(f.trainEnd) && IsSessionDate(f.testStart) && f.testStart > f.trainEnd + DAY
    ensures !Leaks(articles, f)
  {
    DayKeysFaithful(f.trainEnd + DAY, f.testStart);
    forall k | 0 <= k < |articles| && SessionDates(articles)[k] <= f.trainEnd
      ensures LabelWindowEnd(articles[k]) < f.testStart
    {
      LabelWindowBounds(articles[k]);
    }
  }

  /** An embargo of at least one date rules leakage out, in every fold of every data set. */
  lemma NoLabelLeakage(articles: seq<int>, folds: seq<Fold>, dates: seq<int>, train: int, test: int, embargo: int, i: nat)
    requires train > 0 && test > 0 && embargo >= 1
    requires IsDatesOf(dates, SessionDates(articles))
    requires AreFoldsOf(folds, dates, train, test, embargo) && i < |folds|
    ensures !Leaks(articles, folds[i])
  {
    LeaksIffAdjacent(articles, folds, dates, train, test, embargo, i);
    var a, m, b := dates[i + train - 1], dates[i + train], dates[i + train + embargo];
    assert Earlier(a, m) && Earlier(m, b);
    DatesComeFromArticles(articles, dates, a);
    DatesComeFromArticles(articles, dates, m);
    DatesComeFromArticles(articles, dates, b);
    DayKeysFaithful(a, m);
    DayKeysFaithful(m, b);
  }

  ghost predicate NeverLeaks(train: int, test: int, embargo: int) {
    forall articles, folds, dates, i: nat ::
      IsDatesOf(dates, SessionDates(articles)) && AreFoldsOf(folds, dates, train, test, embargo) && i < |folds|
      ==> !Leaks(articles, folds[i])
  }

  /** Articles on `n` consecutive days, each at its session midnight. */
  function Daily(n: nat): seq<int> {
    seq(n, i => i * DAY - IST)
  }

  lemma DailyDates(n: nat)
    ensures SessionDates(Daily(n)) == Daily(n) && IsDatesOf(Daily(n), Daily(n))
  {
    var days := Daily(n);
    forall i, j | 0 <= i < j < n ensures Earlier(days[i], days[j]) {
      assert i * DAY < j * DAY;
    }
    forall i | 0 <= i < n ensures IsSessionDate(days[i]) && AlignToNSESession(days[i]).sessionDate == days[i] {
      assert (i * DAY) / DAY == i;
    }
    LastOfDayFacts(days);
    forall d ensures d in days <==> IsLatest(days, d) {
      if d in days {
        var got := LastOfDay(days)[UtcDay(d)];
        assert got in days && UtcDay(got) == UtcDay(d);
        DayKeysFaithful(d, got);
      }
    }
  }

  /** The folds over consecutive days. */
  lemma DailyFolds(days: seq<int>, train: int, test: int, embargo: int) returns (folds: seq<Fold>)
    requires train > 0 && test > 0 && SafeEmbargo(train, test, embargo) && embargo <= 0 && |days| == train + test
    ensures AreFoldsOf(folds, days, train, test, embargo) && |folds| > 0
  {
    var n := FoldCount(|days|, train, test, embargo);
    assert forall i :: 0 <= i < n ==> InRange(|days|, i, train, test, embargo);
    folds := seq(n, i requires 0 <= i < n => FoldAt(days, i, train, test, embargo));
  }

  /** Without an embargo, or with an overlap instead of one, articles on consecutive days leak. */
  lemma ConsecutiveDaysLeak(train: int, test: int, embargo: int)
    requires train > 0 && test > 0 && SafeEmbargo(train, test, embargo) && embargo <= 0
    ensures !NeverLeaks(train, test, embargo)
  {
    var days := Daily(train + test);
    DailyDates(train + test);
    var folds := DailyFolds(days, train, test, embargo);
    var last := days[train - 1];
    LabelWindowBounds(last);
    assert SessionDates(days)[train - 1] == last;
    assert folds[0] == FoldAt(days, 0, train, test, embargo);
    assert folds[0].testStart <= last + DAY;
    assert Leaks(days, folds[0]);
  }

  /** For given positive window lengths, no data set leaks exactly when the embargo is at least one. */
  lemma NeverLeaksIff(train: int, test: int, embargo: int)
    requires train > 0 && test > 0 && SafeEmbargo(train, test, embargo)
    ensures NeverLeaks(train, test, embargo) <==> embargo >= 1
  {
    if embargo >= 1 {
      forall articles, folds, dates, i: nat |
        IsDatesOf(dates, SessionDates(articles)) && AreFoldsOf(folds, dates, train, test, embargo) && i < |folds|
        ensures !Leaks(articles, folds[i])
      {
        NoLabelLeakage(articles, folds, dates, train, test, embargo, i);
      }
    } else {
      ConsecutiveDaysLeak(train, test, embargo);
    }
  }
}
