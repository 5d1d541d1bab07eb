/**
  The circuit breaker seen through its history: what the two maps say about the failures so far, and
  how fast one caller at a time can fail.
 */
module Breaker {
  import opened Providers
  import opened Ledger

  /** A threshold below one trips on every failure, just as a threshold of one does. */
  function Threshold(s: Settings): (t: int)
    ensures t >= 1
  {
    if s.breakerFailures >= 1 then s.breakerFailures else 1
  }

  /** Failures of `key` since it last succeeded. */
  function FailCount(h: History, key: string): nat {
    match h
    case Start => 0
    case Then(past, e) =>
      if e.key != key then FailCount(past, key)
      else if e.Restored? then 0
      else if e.Failed? then FailCount(past, key) + 1
      else FailCount(past, key)
  }

  lemma DivModUnique(c: int, t: int, q: int, r: int)
    requires 0 <= r < t && c == q * t + r
    ensures c / t == q && c % t == r
  {
    var q', r' := c / t, c % t;
    assert c == q' * t + r';
    assert (q - q') * t == r' - r;
    if q > q' { MulAtLeast(q - q', t); }
    if q < q' { MulAtLeast(q' - q, t); }
  }

  lemma MulAtLeast(k: int, t: int)
    requires k >= 1 && t >= 1
    ensures k * t >= t
  {}

  lemma CountStep(c: nat, t: int)
    requires t >= 1
    ensures c % t + 1 < t ==> (c + 1) % t == c % t + 1 && (c + 1) / t == c / t
    ensures c % t + 1 >= t ==> (c + 1) % t == 0 && (c + 1) / t == c / t + 1
    ensures c >= t <==> c / t >= 1
  {
    var q, r := c / t, c % t;
    assert c == q * t + r;
    if r + 1 < t {
      DivModUnique(c + 1, t, q, r + 1);
    } else {
      assert (q + 1) * t == q * t + t;
      DivModUnique(c + 1, t, q + 1, 0);
    }
    if q >= 1 { MulAtLeast(q, t); }
  }

  /**
    Over any interleaving of the critical sections the two breaker maps are a function of the failure
    count: the counter is the count modulo the threshold, and the key has an opening time exactly
    when the count has reached the threshold since the last success.
   */
  lemma {:induction false} BreakerRefinesHistory(s: Settings, h: History, key: string)
    ensures FailuresOf(Replay(s, h), key) == FailCount(h, key) % Threshold(s)
    ensures key in Replay(s, h).openUntil <==> FailCount(h, key) >= Threshold(s)
  {
    if h.Then? {
      BreakerRefinesHistory(s, h.past, key);
      if h.last.Failed? && h.last.key == key {
        FailureStep(s, Replay(s, h.past), key, h.last.at);
        CountStep(FailCount(h.past, key), Threshold(s));
      }
    } else {
      DivModUnique(0, Threshold(s), 0, 0);
    }
  }

  lemma FailureStep(s: Settings, b: Books, key: string, at: int)
    requires FailuresOf(b, key) >= 0
    ensures var n, b' := FailuresOf(b, key) + 1, RecordFailure(s, b, key, at);
            && FailuresOf(b', key) == (if n >= Threshold(s) then 0 else n)
            && (key in b'.openUntil <==> n >= Threshold(s) || key in b.openUntil)
  {}

  /**
    A failure that completes a threshold shuts the key out for exactly the configured seconds, whoever
    else fails or succeeds before that; any other failure changes no opening time.
   */
  lemma FailureOpens(s: Settings, h: History, key: string, at: int, now: int)
    ensures var was, b := Replay(s, h), Replay(s, Then(h, Failed(key, at)));
            if (FailCount(h, key) + 1) % Threshold(s) == 0 then
              && key in b.openUntil && b.openUntil == was.openUntil[key := b.openUntil[key]]
              && (BreakerClosed(b, key, now) <==> now >= at + s.breakerSeconds)
            else b.openUntil == was.openUntil
  {
    BreakerRefinesHistory(s, h, key);
    CountStep(FailCount(h, key), Threshold(s));
  }

  // ----- One caller at a time

  predicate AskedJustBefore(h: History, key: string) {
    h.Then? && h.last.Admitted? && h.last.key == key
  }

  /**
    Histories one caller at a time can write: keys are only admitted while the admission test holds,
    and a failure is recorded by the call that was just admitted.
   */
  ghost predicate Sequential(s: Settings, h: History) {
    h.Then? ==>
      && Sequential(s, h.past)
      && (h.last.Admitted? ==> Allowed(s, Replay(s, h.past), h.last.key, h.last.at))
      && (h.last.Failed? ==> AskedJustBefore(h.past, h.last.key))
  }

  predicate Timed(e: Event) {
    e.Admitted? || e.Failed?
  }

  /** No event of the history carries a time after `t`. */
  predicate NoneAfter(h: History, t: int) {
    h.Then? ==> NoneAfter(h.past, t) && (Timed(h.last) ==> h.last.at <= t)
  }

  predicate ClockMonotone(h: History) {
    h.Then? ==> ClockMonotone(h.past) && (Timed(h.last) ==> NoneAfter(h.past, h.last.at))
  }

  /** When the first failure of the current losing streak of `key` was recorded. */
  function FirstFailAt(h: History, key: string): (at: int)
    requires FailCount(h, key) > 0
  {
    if h.last.Failed? && h.last.key == key && FailCount(h.past, key) == 0 then h.last.at
    else FirstFailAt(h.past, key)
  }

  lemma {:induction false} FirstFailIsPast(h: History, key: string, t: int)
    requires FailCount(h, key) > 0 && NoneAfter(h, t)
    ensures FirstFailAt(h, key) <= t
  {
    if !(h.last.Failed? && h.last.key == key && FailCount(h.past, key) == 0) {
      FirstFailIsPast(h.past, key, t);
    }
  }

  lemma {:induction false} OpeningTime(s: Settings, h: History, key: string)
    requires Sequential(s, h) && ClockMonotone(h) && FailCount(h, key) >= Threshold(s)
    ensures key in Replay(s, h).openUntil
    ensures Replay(s, h).openUntil[key]
            >= FirstFailAt(h, key) + s.breakerSeconds * (FailCount(h, key) / Threshold(s))
  {
    BreakerRefinesHistory(s, h, key);
    BreakerRefinesHistory(s, h.past, key);
    var c, t := FailCount(h.past, key), Threshold(s);
    if h.last.key == key && h.last.Failed? {
      CountStep(c, t);
      BreakerRateLimit(s, h, key, c + 1);
      if (c + 1) % t == 0 {
        assert Replay(s, h).openUntil[key] == h.last.at + s.breakerSeconds;
        calc {
          s.breakerSeconds * ((c + 1) / t);
          s.breakerSeconds * (c / t + 1);
          s.breakerSeconds * (c / t) + s.breakerSeconds;
        }
      } else {
        OpeningTime(s, h.past, key);
      }
    } else {
      OpeningTime(s, h.past, key);
    }
  }

  /**
    Rate limit. With one caller at a time and a clock that never runs backwards, the n-th consecutive
    failure of a key comes at least `breakerSeconds * ((n - 1) / threshold)` after the first.
   */
  lemma {:induction false} BreakerRateLimit(s: Settings, h: History, key: string, n: nat)
    requires Sequential(s, h) && ClockMonotone(h) && h.Then?
    requires h.last.Failed? && h.last.key == key && n == FailCount(h, key)
    ensures h.last.at - FirstFailAt(h, key) >= s.breakerSeconds * ((n - 1) / Threshold(s))
  {
    var c, asked := n - 1, h.past.last;
    CountStep(c, Threshold(s));
    assert asked.at <= h.last.at;
    if c >= Threshold(s) {
      OpeningTime(s, h.past.past, key);
      assert BreakerClosed(Replay(s, h.past.past), key, asked.at);
      assert FailCount(h.past.past, key) == c;
    } else {
      assert c / Threshold(s) == 0;
      if c > 0 { FirstFailIsPast(h.past, key, h.last.at); }
    }
  }
}
