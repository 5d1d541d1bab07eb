/**
  When the breaker's rate limit holds under concurrency: with one caller, without a waiting time, or
  when no key of the chain has a client; and in no other case.
 */
module RateLimit {
  import opened Providers
  import opened Ledger
  import opened Breaker
  import opened Concurrency
  import opened Tightness

  /** If the history ends in a failure, that failure came as late as the rate limit asks. */
  ghost predicate InTime(s: Settings, h: History) {
    h.Then? && h.last.Failed? ==>
      FailCount(h, h.last.key) > 0 &&
      h.last.at - FirstFailAt(h, h.last.key) >= s.breakerSeconds * ((FailCount(h, h.last.key) - 1) / Threshold(s))
  }

  /** Every reachable history whose clock never runs backwards keeps to the rate limit. */
  ghost predicate RateLimited(u: Setup, k: nat) {
    forall s :: Reachable(u, k, s) && ClockMonotone(s.history) ==> InTime(u.settings, s.history)
  }

  predicate SomeKnown(u: Setup) {
    exists i :: 0 <= i < |u.chain| && u.chain[i] in u.known
  }

  // ----- One caller

  /** What one caller keeps: its history is sequential, and while it calls it was the last admitted. */
  ghost predicate Alone(u: Setup, s: System) {
    && |s.callers| <= 1
    && s.books == Replay(u.settings, s.history)
    && Sequential(u.settings, s.history)
    && (|s.callers| == 1 && s.callers[0].Calling? ==>
          s.callers[0].i < |u.chain| && AskedJustBefore(s.history, u.chain[s.callers[0].i]))
  }

  lemma {:induction false} LeadsAlone(u: Setup, s: System, steps: seq<Step>, s': System)
    requires Alone(u, s) && Leads(u, s, steps, s')
    ensures Alone(u, s')
    decreases |steps|
  {
    if steps != [] { LeadsAlone(u, Next(u, s, steps[0]), steps[1..], s'); }
  }

  /** With at most one caller every reachable history is sequential. */
  lemma OneCallerSequential(u: Setup, k: nat, s: System)
    requires k <= 1 && Reachable(u, k, s)
    ensures Sequential(u.settings, s.history)
  {
    var steps: seq<Step> :| Leads(u, Init(k), steps, s);
    LeadsAlone(u, Init(k), steps, s);
  }

  // ----- No client, no failure

  predicate NoFailure(h: History) {
    h.Then? ==> NoFailure(h.past) && !h.last.Failed?
  }

  lemma {:induction false} LeadsNoFailure(u: Setup, s: System, steps: seq<Step>, s': System)
    requires !SomeKnown(u) && NoFailure(s.history) && Leads(u, s, steps, s')
    ensures NoFailure(s'.history)
    decreases |steps|
  {
    if steps != [] { LeadsNoFailure(u, Next(u, s, steps[0]), steps[1..], s'); }
  }

  // ----- Histories at one instant

  /** Admissions and failures only, all at time 0. */
  predicate AtZero(h: History) {
    h.Then? ==> AtZero(h.past) && Timed(h.last) && h.last.at == 0
  }

  lemma {:induction false} AtZeroFacts(s: Settings, h: History, key: string)
    requires AtZero(h)
    ensures NoneAfter(h, 0) && ClockMonotone(h)
    ensures Replay(s, h).usage == map[]
    ensures FailCount(h, key) > 0 ==> FirstFailAt(h, key) == 0
  {
    if h.Then? { AtZeroFacts(s, h.past, key); }
  }

  /** At that instant a key is admitted as long as its breaker has not tripped. */
  lemma AdmittedAtZero(s: Settings, h: History, key: string)
    requires AtZero(h) && FailCount(h, key) < Threshold(s)
    ensures Allowed(s, Replay(s, h), key, 0)
  {
    AtZeroFacts(s, h, key);
    BreakerRefinesHistory(s, h, key);
  }

  // ----- Driving callers

  /** A reachable state whose history is at time 0 and whose books follow from it. */
  ghost predicate Staged(u: Setup, k: nat, s: System) {
    Reachable(u, k, s) && AtZero(s.history) && |s.callers| == k && s.books == Replay(u.settings, s.history)
  }

  lemma ReachNext(u: Setup, k: nat, s: System, step: Step)
    requires Reachable(u, k, s) && Enabled(u, s, step)
    ensures Reachable(u, k, Next(u, s, step))
  {
    var steps: seq<Step> :| Leads(u, Init(k), steps, s);
    var more := Extend(u, Init(k), steps, s, step);
  }

  lemma StageInit(u: Setup, k: nat)
    ensures Staged(u, k, Init(k))
  {
    assert Leads(u, Init(k), [], Init(k));
  }

  ghost predicate SameFailures(h: History, h': History) {
    forall key :: FailCount(h', key) == FailCount(h, key)
  }

  /** One turn of the loop that leaves no failure: the caller is calling, or goes on to the next key. */
  lemma AskNext(u: Setup, k: nat, s: System, c: nat) returns (s': System)
    requires Staged(u, k, s) && c < k && s.callers[c].Asking? && s.callers[c].i < |u.chain|
    ensures Staged(u, k, s') && SameFailures(s.history, s'.history)
    ensures var i := s.callers[c].i;
            if Allowed(u.settings, s.books, u.chain[i], 0) then s'.callers == s.callers[c := Calling(i)]
            else s'.callers == s.callers[c := Asking(i + 1)]
  {
    ReachNext(u, k, s, Ask(c, 0));
    s' := Next(u, s, Ask(c, 0));
  }

  lemma PassOver(u: Setup, k: nat, s: System, c: nat) returns (s': System)
    requires Staged(u, k, s) && c < k && s.callers[c].Asking? && s.callers[c].i < |u.chain|
    requires u.chain[s.callers[c].i] !in u.known
    ensures Staged(u, k, s') && SameFailures(s.history, s'.history)
    ensures s'.callers == s.callers[c := Asking(s.callers[c].i + 1)]
  {
    s' := AskNext(u, k, s, c);
    if s'.callers[c].Calling? {
      ReachNext(u, k, s', NoClient(c));
      s' := Next(u, s', NoClient(c));
      assert s'.callers == s.callers[c := Asking(s.callers[c].i + 1)];
    }
  }

  /** Any caller between keys can be brought home without a failure. */
  lemma {:induction false} GoHome(u: Setup, k: nat, s: System, c: nat) returns (s': System)
    requires Staged(u, k, s) && c < k && s.callers[c].Asking? && s.callers[c].i <= |u.chain|
    ensures Staged(u, k, s') && SameFailures(s.history, s'.history)
    ensures s'.callers == s.callers[c := Idle]
    decreases |u.chain| - s.callers[c].i
  {
    var i := s.callers[c].i;
    if i == |u.chain| {
      ReachNext(u, k, s, GiveUp(c));
      s' := Next(u, s, GiveUp(c));
    } else if u.chain[i] !in u.known {
      var s1 := PassOver(u, k, s, c);
      s' := GoHome(u, k, s1, c);
      assert s'.callers == s.callers[c := Idle];
    } else {
      var s1 := AskNext(u, k, s, c);
      if s1.callers[c].Calling? {
        ReachNext(u, k, s1, FatalFail(c));
        s' := Next(u, s1, FatalFail(c));
      } else {
        s' := GoHome(u, k, s1, c);
      }
      assert s'.callers == s.callers[c := Idle];
    }
  }

  /** The first position of the chain whose key has a client. */
  predicate FirstKnown(u: Setup, j: nat) {
    && j < |u.chain| && u.chain[j] in u.known
    && forall i :: 0 <= i < j ==> u.chain[i] !in u.known
  }

  lemma {:induction false} FindKnown(u: Setup, i: nat) returns (j: nat)
    requires i < |u.chain| && u.chain[i] in u.known
    ensures FirstKnown(u, j)
  {
    if m :| 0 <= m < i && u.chain[m] in u.known { j := FindKnown(u, m); } else { j := i; }
  }

  /** A caller before position `j` gets to call the key there while its breaker is closed. */
  lemma {:induction false} WalkTo(u: Setup, k: nat, s: System, c: nat, j: nat) returns (s': System)
    requires Staged(u, k, s) && FirstKnown(u, j) && c < k && s.callers[c].Asking? && s.callers[c].i <= j
    requires FailCount(s.history, u.chain[j]) < Threshold(u.settings)
    ensures Staged(u, k, s') && SameFailures(s.history, s'.history)
    ensures s'.callers == s.callers[c := Calling(j)]
    decreases j - s.callers[c].i
  {
    if s.callers[c].i == j {
      AdmittedAtZero(u.settings, s.history, u.chain[j]);
      s' := AskNext(u, k, s, c);
    } else {
      var s1 := PassOver(u, k, s, c);
      s' := WalkTo(u, k, s1, c, j);
      assert s'.callers == s.callers[c := Calling(j)];
    }
  }

  lemma Admit(u: Setup, k: nat, s: System, c: nat, j: nat) returns (s': System)
    requires Staged(u, k, s) && FirstKnown(u, j) && c < k && s.callers[c].Idle?
    requires FailCount(s.history, u.chain[j]) < Threshold(u.settings)
    ensures Staged(u, k, s') && SameFailures(s.history, s'.history)
    ensures s'.callers == s.callers[c := Calling(j)]
  {
    ReachNext(u, k, s, Begin(c));
    var s1 := Next(u, s, Begin(c));
    s' := WalkTo(u, k, s1, c, j);
    assert s'.callers == s.callers[c := Calling(j)];
  }

  lemma Fail(u: Setup, k: nat, s: System, c: nat, j: nat) returns (s': System)
    requires Staged(u, k, s) && FirstKnown(u, j) && c < k && s.callers[c] == Calling(j)
    ensures Staged(u, k, s') && s'.history == Then(s.history, Failed(u.chain[j], 0))
    ensures s'.callers == s.callers[c := Asking(j + 1)]
  {
    ReachNext(u, k, s, SoftFail(c, 0));
    s' := Next(u, s, SoftFail(c, 0));
  }

  /** While caller 1 is calling, caller 0 fails the key `f` times in a row. */
  lemma {:induction false} FailTimes(u: Setup, k: nat, j: nat, f: nat) returns (s: System)
    requires k >= 2 && FirstKnown(u, j) && f <= Threshold(u.settings)
    ensures Staged(u, k, s) && FailCount(s.history, u.chain[j]) == f
    ensures s.callers[0].Idle? && s.callers[1] == Calling(j)
  {
    if f == 0 {
      StageInit(u, k);
      s := Admit(u, k, Init(k), 1, j);
    } else {
      s := FailTimes(u, k, j, f - 1);
      s := Admit(u, k, s, 0, j);
      s := Fail(u, k, s, 0, j);
      s := GoHome(u, k, s, 0);
    }
  }

  /** With two callers, a waiting time and a client the limit is broken, whatever the threshold. */
  lemma TwoCallersOutrunBreaker(u: Setup, k: nat) returns (s: System)
    requires k >= 2 && u.settings.breakerSeconds > 0 && SomeKnown(u)
    ensures Reachable(u, k, s) && ClockMonotone(s.history) && !InTime(u.settings, s.history)
    ensures FailCount(s.history, s.history.last.key) == Threshold(u.settings) + 1
  {
    var i :| 0 <= i < |u.chain| && u.chain[i] in u.known;
    var j := FindKnown(u, i);
    var t, key := Threshold(u.settings), u.chain[j];
    s := FailTimes(u, k, j, t);
    s := Fail(u, k, s, 1, j);
    AtZeroFacts(u.settings, s.history, key);
    DivModUnique(t, t, 1, 0);
  }

  /**
    The rate limit holds of every run of k callers exactly when k is at most one, the breaker waits no
    time, or no key of the chain has a client.
   */
  lemma RateLimitIff(u: Setup, k: nat)
    ensures RateLimited(u, k) <==> k <= 1 || u.settings.breakerSeconds <= 0 || !SomeKnown(u)
  {
    if k <= 1 || u.settings.breakerSeconds <= 0 || !SomeKnown(u) {
      forall s | Reachable(u, k, s) && ClockMonotone(s.history) ensures InTime(u.settings, s.history) {
        KeepsLimit(u, k, s);
      }
    } else {
      var s := TwoCallersOutrunBreaker(u, k);
    }
  }

  lemma KeepsLimit(u: Setup, k: nat, s: System)
    requires Reachable(u, k, s) && ClockMonotone(s.history)
    requires k <= 1 || u.settings.breakerSeconds <= 0 || !SomeKnown(u)
    ensures InTime(u.settings, s.history)
  {
    var h := s.history;
    if !SomeKnown(u) {
      var steps: seq<Step> :| Leads(u, Init(k), steps, s);
      LeadsNoFailure(u, Init(k), steps, s);
    } else if h.Then? && h.last.Failed? {
      var key := h.last.key;
      if k <= 1 {
        OneCallerSequential(u, k, s);
        BreakerRateLimit(u.settings, h, key, FailCount(h, key));
      } else {
        if FailCount(h.past, key) > 0 { FirstFailIsPast(h.past, key, h.last.at); }
        NotPositive(u.settings.breakerSeconds, (FailCount(h, key) - 1) / Threshold(u.settings));
      }
    }
  }

  lemma NotPositive(s: int, n: nat)
    requires s <= 0
    ensures s * n <= 0
  {}
}
