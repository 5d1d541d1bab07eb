/**
  NSE market sessions (internal/market/session.go). Instants are nanoseconds since the Unix epoch, and
  Indian Standard Time is a fixed offset of 19800 seconds, so calendar days are day numbers.
 */
module Session {
  const SECOND := 1_000_000_000
  const MINUTE := 60 * SECOND
  const HOUR := 60 * MINUTE
  const DAY := 24 * HOUR
  const IST := 5 * HOUR + 30 * MINUTE

  datatype MarketSession = MarketSession(
    sessionDate: int,
    sessionLabel: string,
    preOpen: bool,
    duringSession: bool,
    postClose: bool)

  /** Midnight of the Indian calendar day of `t`, as an instant. */
  function IstMidnight(t: int): int {
    (t + IST) / DAY * DAY - IST
  }

  /** The day number behind `t.UTC().Format("2006-01-02")`. */
  function UtcDay(t: int): int {
    t / DAY
  }

  function AlignToNSESession(t: int): MarketSession {
    var midnight := IstMidnight(t);
    var open, close := midnight + 9 * HOUR + 15 * MINUTE, midnight + 15 * HOUR + 30 * MINUTE;
    if t < open then MarketSession(midnight, "pre_open", true, false, false)
    else if open <= t < close then MarketSession(midnight, "during_session", false, true, false)
    else MarketSession(midnight, "post_close", false, false, true)
  }

  /** Close of the trading day after the one of `t`. */
  function LabelWindowEnd(t: int): int {
    IstMidnight(AlignToNSESession(t).sessionDate) + 15 * HOUR + 30 * MINUTE + 24 * HOUR
  }

  predicate IsSessionDate(d: int) {
    IstMidnight(d) == d
  }

  /** The session date is the midnight that starts the article's own Indian day. */
  lemma SessionDateBounds(t: int)
    ensures var d := AlignToNSESession(t).sessionDate;
            IsSessionDate(d) && d <= t < d + DAY
  {}

  /** Session dates are the midnights of a clock that runs five and a half hours ahead, in nanoseconds. */
  lemma SessionDateMeaning(d: int)
    ensures IsSessionDate(d) <==> (d + 19_800 * 1_000_000_000) % (86_400 * 1_000_000_000) == 0
  {}

  /**
    The label window of an article closes at 15:30 on the Indian day after its own: always after the
    article, and always before the second midnight that follows.
   */
  lemma LabelWindowBounds(t: int)
    ensures var d := AlignToNSESession(t).sessionDate;
            && LabelWindowEnd(t) == d + DAY + 15 * HOUR + 30 * MINUTE
            && d + DAY < LabelWindowEnd(t) < d + 2 * DAY
            && t + 15 * HOUR + 30 * MINUTE < LabelWindowEnd(t)
  {
    SessionDateBounds(t);
  }

  /** Session dates and their UTC day keys are in bijection, and in the same order. */
  lemma DayKeysFaithful(a: int, b: int)
    requires IsSessionDate(a) && IsSessionDate(b)
    ensures a == b <==> UtcDay(a) == UtcDay(b)
    ensures a < b <==> UtcDay(a) < UtcDay(b)
    ensures a < b ==> a + DAY <= b
  {}

  /** The three labels partition the day at 09:15 and 15:30, and exactly one flag is set. */
  lemma SessionPartition(t: int)
    ensures var s, sinceMidnight := AlignToNSESession(t), t - IstMidnight(t);
            && (s.preOpen <==> sinceMidnight < 9 * HOUR + 15 * MINUTE)
            && (s.postClose <==> 15 * HOUR + 30 * MINUTE <= sinceMidnight)
            && (s.duringSession <==> !s.preOpen && !s.postClose)
            && (s.preOpen ==> s.sessionLabel == "pre_open")
            && (s.duringSession ==> s.sessionLabel == "during_session")
            && (s.postClose ==> s.sessionLabel == "post_close")
  {}
}
