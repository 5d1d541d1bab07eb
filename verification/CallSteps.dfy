/**
  What a call leaves in the history, told by what the clients answered: a call of the router is a run of
  the concurrent model with a single caller, each reply being the step of its kind
  (internal/enrich/router.go).
 */
module CallSteps {
  import opened Text
  import opened Providers
  import opened Ledger
  import opened Breaker
  import opened Router
  import opened RouterLaws
  import opened Concurrency
  import opened Tightness

  // ----- Replies as steps

  /** What an answered try charges: the sum of the replies' tokens, a failed third call having none, and their price. */
  function BillFor(r: Registry, key: string, a: Attempt): Usage
    requires !SoftReply(a) && !FatalReply(a)
  {
    var s, f := a.sentiment.value, a.factors.value;
    var e := if a.entities.Answer? then a.entities.value else EntityReply([], 0, 0);
    Usage(s.input + f.input + e.input, s.output + f.output + e.output,
          r.rate(key, s.input + f.input + e.input, s.output + f.output + e.output))
  }

  /** The step a caller at `pc` takes next, given what the clients answer at each position. */
  function NextStep(u: Setup, r: Registry, tries: nat -> Attempt, pc: Pc): Step {
    match pc
    case Idle => Begin(0)
    case Asking(i) => if i < |u.chain| then Ask(0, tries(i).askedAt) else GiveUp(0)
    case Calling(i) =>
      if i >= |u.chain| || u.chain[i] !in u.known then NoClient(0)
      else if SoftReply(tries(i)) then SoftFail(0, tries(i).failedAt)
      else if FatalReply(tries(i)) then FatalFail(0)
      else Reply(0, BillFor(r, u.chain[i], tries(i)))
    case Restoring(_, _) => Restore(0)
    case Charging(_, _) => Charge(0)
  }

  /** Taking these steps, each the one the answers call for, leads from `s` to `s'`. */
  ghost predicate Plays(u: Setup, r: Registry, tries: nat -> Attempt, s: System, steps: seq<Step>, s': System)
    decreases |steps|
  {
    if steps == [] then s == s'
    else
      && |s.callers| == 1 && steps[0] == NextStep(u, r, tries, s.callers[0])
      && Enabled(u, s, steps[0]) && Plays(u, r, tries, Next(u, s, steps[0]), steps[1..], s')
  }

  lemma {:induction false} PlaysLeads(u: Setup, r: Registry, tries: nat -> Attempt, s: System, steps: seq<Step>, s': System)
    requires Plays(u, r, tries, s, steps, s')
    ensures Leads(u, s, steps, s')
    decreases |steps|
  {
    if steps != [] { PlaysLeads(u, r, tries, Next(u, s, steps[0]), steps[1..], s'); }
  }

  lemma Prepend(u: Setup, r: Registry, tries: nat -> Attempt, s: System, step: Step, s1: System, rest: seq<Step>, s': System)
    requires |s.callers| == 1 && step == NextStep(u, r, tries, s.callers[0]) && Enabled(u, s, step)
    requires s1 == Next(u, s, step) && Plays(u, r, tries, s1, rest, s')
    ensures Plays(u, r, tries, s, [step] + rest, s')
  {
    assert ([step] + rest)[0] == step && ([step] + rest)[1..] == rest;
  }

  // ----- One caller alone

  /** The router after a history, with one caller at `pc`. */
  ghost function At(u: Setup, log: History, pc: Pc): System {
    System(Replay(u.settings, log), log, [pc])
  }

  /** The concurrent model of this router and chain, its bounds covering what the clients answer. */
  ghost predicate Models(u: Setup, r: Registry, chain: seq<string>, tries: nat -> Attempt) {
    && u.settings == r.settings && u.chain == chain && u.known == r.clients.Keys
    && forall i: nat :: i < |chain| && !SoftReply(tries(i)) && !FatalReply(tries(i)) ==> BillBounded(u, BillFor(r, chain[i], tries(i)))
  }

  lemma StepTo(u: Setup, r: Registry, tries: nat -> Attempt, log: History, pc: Pc, log': History, pc': Pc, rest: seq<Step>, s': System)
    returns (steps: seq<Step>)
    requires var step := NextStep(u, r, tries, pc);
             Enabled(u, At(u, log, pc), step) && Next(u, At(u, log, pc), step) == At(u, log', pc')
    requires Plays(u, r, tries, At(u, log', pc'), rest, s')
    ensures Plays(u, r, tries, At(u, log, pc), steps, s')
  {
    var step := NextStep(u, r, tries, pc);
    Prepend(u, r, tries, At(u, log, pc), step, At(u, log', pc'), rest, s');
    steps := [step] + rest;
  }

  /** The steps after admission at position `i`, when the clients answered. */
  lemma AnswerSteps(u: Setup, r: Registry, chain: seq<string>, tries: nat -> Attempt, log: History, i: nat)
    returns (steps: seq<Step>)
    requires Models(u, r, chain, tries) && i < |chain| && chain[i] in r.clients
    requires !SoftReply(tries(i)) && !FatalReply(tries(i))
    ensures var done := Then(Then(log, Restored(chain[i])), Charged(chain[i], BillFor(r, chain[i], tries(i))));
            Plays(u, r, tries, At(u, log, Calling(i)), steps, At(u, done, Idle))
  {
    var key, bill := chain[i], BillFor(r, chain[i], tries(i));
    var restored := Then(log, Restored(key));
    var done := Then(restored, Charged(key, bill));
    steps := StepTo(u, r, tries, restored, Charging(i, bill), done, Idle, [], At(u, done, Idle));
    steps := StepTo(u, r, tries, log, Restoring(i, bill), restored, Charging(i, bill), steps, At(u, done, Idle));
    steps := StepTo(u, r, tries, log, Calling(i), log, Restoring(i, bill), steps, At(u, done, Idle));
  }

  lemma RefusedStep(u: Setup, r: Registry, chain: seq<string>, tries: nat -> Attempt, log: History, i: nat,
                    rest: seq<Step>, s': System) returns (steps: seq<Step>)
    requires Models(u, r, chain, tries) && i < |chain| && !Allowed(r.settings, Replay(r.settings, log), chain[i], tries(i).askedAt)
    requires Plays(u, r, tries, At(u, log, Asking(i + 1)), rest, s')
    ensures Plays(u, r, tries, At(u, log, Asking(i)), steps, s')
  {
    steps := StepTo(u, r, tries, log, Asking(i), log, Asking(i + 1), rest, s');
  }

  lemma AdmittedStep(u: Setup, r: Registry, chain: seq<string>, tries: nat -> Attempt, log: History, i: nat,
                     rest: seq<Step>, s': System) returns (steps: seq<Step>)
    requires Models(u, r, chain, tries) && i < |chain| && Allowed(r.settings, Replay(r.settings, log), chain[i], tries(i).askedAt)
    requires Plays(u, r, tries, At(u, Then(log, Admitted(chain[i], tries(i).askedAt)), Calling(i)), rest, s')
    ensures Plays(u, r, tries, At(u, log, Asking(i)), steps, s')
  {
    steps := StepTo(u, r, tries, log, Asking(i), Then(log, Admitted(chain[i], tries(i).askedAt)), Calling(i), rest, s');
  }

  /** What an admitted key leaves that does not decide the call: a failure, or nothing if it has no client. */
  ghost function PassedLog(r: Registry, chain: seq<string>, tries: nat -> Attempt, asked: History, i: nat): History
    requires i < |chain|
  {
    if chain[i] in r.clients then Then(asked, Failed(chain[i], tries(i).failedAt)) else asked
  }

  lemma PassedStep(u: Setup, r: Registry, chain: seq<string>, tries: nat -> Attempt, asked: History, i: nat,
                   rest: seq<Step>, s': System) returns (steps: seq<Step>)
    requires Models(u, r, chain, tries) && i < |chain| && (chain[i] in r.clients ==> SoftReply(tries(i)))
    requires Plays(u, r, tries, At(u, PassedLog(r, chain, tries, asked, i), Asking(i + 1)), rest, s')
    ensures Plays(u, r, tries, At(u, asked, Calling(i)), steps, s')
  {
    steps := StepTo(u, r, tries, asked, Calling(i), PassedLog(r, chain, tries, asked, i), Asking(i + 1), rest, s');
  }

  /** From position `i` on, the chain is walked by the steps its replies call for. */
  lemma {:induction false} ChainSteps(u: Setup, r: Registry, chain: seq<string>, tries: nat -> Attempt, log: History, i: nat,
                                      last: Option<string>)
    returns (steps: seq<Step>)
    requires Models(u, r, chain, tries) && i <= |chain|
    ensures Plays(u, r, tries, At(u, log, Asking(i)), steps, At(u, RouteFrom(r, log, chain, tries, i, last).log, Idle))
    decreases |chain| - i
  {
    if i == |chain| {
      steps := StepTo(u, r, tries, log, Asking(i), log, Idle, [], At(u, log, Idle));
      return;
    }
    var key, a := chain[i], tries(i);
    var end := At(u, RouteFrom(r, log, chain, tries, i, last).log, Idle);
    if !Allowed(r.settings, Replay(r.settings, log), key, a.askedAt) {
      RouteStep(r, log, chain, tries, i, last);
      steps := ChainSteps(u, r, chain, tries, log, i + 1, last);
      steps := RefusedStep(u, r, chain, tries, log, i, steps, end);
      return;
    }
    if key in r.clients && !SoftReply(a) {
      steps := DecisiveSteps(u, r, chain, tries, log, i, last);
    } else {
      var asked := Then(log, Admitted(key, a.askedAt));
      var log' := PassedLog(r, chain, tries, asked, i);
      var last' := if key in r.clients then Some(ErrorText(a)) else last;
      PassedOver(r, chain, tries, log, i, last, log', last');
      steps := ChainSteps(u, r, chain, tries, log', i + 1, last');
      steps := PassedStep(u, r, chain, tries, asked, i, steps, end);
    }
    steps := AdmittedStep(u, r, chain, tries, log, i, steps, end);
  }

  /** An admitted key without a client, or with a soft reply, is passed over. */
  lemma PassedOver(r: Registry, chain: seq<string>, tries: nat -> Attempt, log: History, i: nat, last: Option<string>,
                   log': History, last': Option<string>)
    requires i < |chain| && Allowed(r.settings, Replay(r.settings, log), chain[i], tries(i).askedAt)
    requires chain[i] in r.clients ==> SoftReply(tries(i)) && last' == Some(ErrorText(tries(i)))
    requires chain[i] !in r.clients ==> last' == last
    requires log' == PassedLog(r, chain, tries, Then(log, Admitted(chain[i], tries(i).askedAt)), i)
    ensures RouteFrom(r, log, chain, tries, i, last) == RouteFrom(r, log', chain, tries, i + 1, last')
  {
    RouteStep(r, log, chain, tries, i, last);
    VerdictMeaning(r, log, chain[i], tries(i));
  }

  /** The steps after admission at a position that decides the call. */
  lemma DecisiveSteps(u: Setup, r: Registry, chain: seq<string>, tries: nat -> Attempt, log: History, i: nat, last: Option<string>)
    returns (steps: seq<Step>)
    requires Models(u, r, chain, tries) && i < |chain| && Consulted(r, log, chain[i], tries(i)) && !SoftReply(tries(i))
    ensures Plays(u, r, tries, At(u, Then(log, Admitted(chain[i], tries(i).askedAt)), Calling(i)), steps,
                  At(u, RouteFrom(r, log, chain, tries, i, last).log, Idle))
  {
    var asked := Then(log, Admitted(chain[i], tries(i).askedAt));
    RouteStep(r, log, chain, tries, i, last);
    VerdictMeaning(r, log, chain[i], tries(i));
    if FatalReply(tries(i)) {
      steps := StepTo(u, r, tries, asked, Calling(i), asked, Idle, [], At(u, asked, Idle));
    } else {
      steps := AnswerSteps(u, r, chain, tries, asked, i);
    }
  }

  /**
    The history a call leaves is reached by the steps its replies call for: an admission for every key
    asked, a failure for every soft reply, nothing for a fatal one, restoration and charge for a success.
   */
  lemma CallIsRun(u: Setup, r: Registry, chain: seq<string>, tries: nat -> Attempt, log: History) returns (steps: seq<Step>)
    requires Models(u, r, chain, tries) && chain != []
    ensures Plays(u, r, tries, At(u, log, Idle), steps, At(u, Route(r, log, chain, tries).log, Idle))
  {
    steps := ChainSteps(u, r, chain, tries, log, 0, None);
    steps := StepTo(u, r, tries, log, Idle, log, Asking(0), steps, At(u, Route(r, log, chain, tries).log, Idle));
  }

  /** So a router used by one call after the other only ever has histories the concurrent model reaches with one caller. */
  lemma CallKeepsReachable(u: Setup, r: Registry, chain: seq<string>, tries: nat -> Attempt, log: History)
    requires Models(u, r, chain, tries) && chain != [] && Reachable(u, 1, At(u, log, Idle))
    ensures Reachable(u, 1, At(u, Route(r, log, chain, tries).log, Idle))
  {
    var before: seq<Step> :| Leads(u, Init(1), before, At(u, log, Idle));
    var steps := CallIsRun(u, r, chain, tries, log);
    PlaysLeads(u, r, tries, At(u, log, Idle), steps, At(u, Route(r, log, chain, tries).log, Idle));
    LeadsConcat(u, Init(1), before, At(u, log, Idle), steps, At(u, Route(r, log, chain, tries).log, Idle));
  }

  lemma UnusedIsReachable(u: Setup)
    ensures Reachable(u, 1, At(u, Start, Idle))
  {
    assert Init(1).callers == [Idle];
    assert Leads(u, Init(1), [], At(u, Start, Idle));
  }

  // ----- Marks

  /** `h'` continues `h`. */
  predicate Extends(h: History, h': History) {
    h == h' || (h'.Then? && Extends(h, h'.past))
  }

  lemma {:induction false} ExtendsTransitive(a: History, b: History, c: History)
    requires Extends(a, b) && Extends(b, c)
    ensures Extends(a, c)
    decreases c
  {
    if b != c { ExtendsTransitive(a, b, c.past); }
  }

  lemma TryAppends(r: Registry, log: History, key: string, a: Attempt)
    ensures Extends(log, LogAfter(r, log, key, a))
    ensures forall other :: other != key ==> FailCount(LogAfter(r, log, key, a), other) == FailCount(log, other)
    ensures Consulted(r, log, key, a) && SoftReply(a) ==>
              LogAfter(r, log, key, a) == Then(Then(log, Admitted(key, a.askedAt)), Failed(key, a.failedAt))
  {
    VerdictMeaning(r, log, key, a);
    var asked, v := Then(log, Admitted(key, a.askedAt)), TryKey(r, log, key, a);
    Appended(log, log, Admitted(key, a.askedAt), key);
    if v.Soft? { Appended(log, asked, Failed(key, a.failedAt), key); }
    if v.Done? {
      Appended(log, asked, Restored(key), key);
      Appended(log, Then(asked, Restored(key)), Charged(key, Bill(v.result)), key);
    }
  }

  /** One more event of the key. */
  lemma Appended(log: History, h: History, e: Event, key: string)
    requires Extends(log, h) && e.key == key && forall other :: other != key ==> FailCount(h, other) == FailCount(log, other)
    ensures Extends(log, Then(h, e)) && forall other :: other != key ==> FailCount(Then(h, e), other) == FailCount(log, other)
  {}

  lemma {:induction false} RestAppends(r: Registry, log: History, chain: seq<string>, tries: nat -> Attempt, i: nat,
                                       last: Option<string>, key: string)
    requires i <= |chain| && forall j :: i <= j < |chain| ==> chain[j] != key
    ensures Extends(log, RouteFrom(r, log, chain, tries, i, last).log)
    ensures FailCount(RouteFrom(r, log, chain, tries, i, last).log, key) == FailCount(log, key)
    decreases |chain| - i
  {
    if i < |chain| {
      RouteStep(r, log, chain, tries, i, last);
      TryAppends(r, log, chain[i], tries(i));
      var v, log' := TryKey(r, log, chain[i], tries(i)), LogAfter(r, log, chain[i], tries(i));
      if !Decisive(v) {
        var last' := if v.Soft? then Some(v.message) else last;
        RestAppends(r, log', chain, tries, i + 1, last', key);
        ExtendsTransitive(log, log', RouteFrom(r, log', chain, tries, i + 1, last').log);
      }
    }
  }

  lemma {:induction false} EarlierAppends(r: Registry, log: History, chain: seq<string>, tries: nat -> Attempt, i: nat, key: string)
    requires i <= |chain| && forall j :: 0 <= j < i ==> chain[j] != key
    ensures Extends(log, LogAt(r, log, chain, tries, i))
    ensures FailCount(LogAt(r, log, chain, tries, i), key) == FailCount(log, key)
  {
    if i > 0 {
      var before := LogAt(r, log, chain, tries, i - 1);
      EarlierAppends(r, log, chain, tries, i - 1, key);
      TryAppends(r, before, chain[i - 1], tries(i - 1));
      ExtendsTransitive(log, before, LogAt(r, log, chain, tries, i));
    }
  }

  /** The history holds this admission and this failure of the key, one right after the other, somewhere after `log`. */
  ghost predicate Marked(log: History, after: History, key: string, a: Attempt) {
    exists h :: Extends(log, h) && Extends(Then(Then(h, Admitted(key, a.askedAt)), Failed(key, a.failedAt)), after)
  }

  /** No position before `j` decides the call, going by the router's state before it. */
  ghost predicate Undecided(r: Registry, log: History, chain: seq<string>, tries: nat -> Attempt, j: nat) {
    && j < |chain| && (forall a, b :: 0 <= a < b < |chain| ==> chain[a] != chain[b])
    && forall i: nat :: i < j ==> !Eligible(r, log, chain[i], tries(i)) && !Poisoned(r, log, chain[i], tries(i))
  }

  /**
    On a chain without repeats, every key consulted before the call is decided whose client fails softly
    is marked: its admission and its failure stand in the history, and its count goes up by one.
   */
  lemma SoftFailureMarks(r: Registry, log: History, chain: seq<string>, tries: nat -> Attempt, j: nat)
    requires Undecided(r, log, chain, tries, j) && Consulted(r, log, chain[j], tries(j)) && SoftReply(tries(j))
    ensures var after := Route(r, log, chain, tries).log;
            FailCount(after, chain[j]) == FailCount(log, chain[j]) + 1 && Marked(log, after, chain[j], tries(j))
  {
    forall i: nat | i < j ensures !Decisive(TryKey(r, log, chain[i], tries(i))) {
      VerdictMeaning(r, log, chain[i], tries(i));
    }
    NothingBefore(r, log, chain, tries, j);
    PassingOverKeepsOthers(r, log, chain, tries, j, chain[j]);
    MarkAt(r, log, chain, tries, j);
  }

  lemma MarkAt(r: Registry, log: History, chain: seq<string>, tries: nat -> Attempt, j: nat)
    requires j < |chain| && NoneDecisive(r, log, chain, tries, j)
    requires forall i :: 0 <= i < |chain| && i != j ==> chain[i] != chain[j]
    requires Consulted(r, LogAt(r, log, chain, tries, j), chain[j], tries(j)) && SoftReply(tries(j))
    ensures var after := Route(r, log, chain, tries).log;
            FailCount(after, chain[j]) == FailCount(log, chain[j]) + 1 && Marked(log, after, chain[j], tries(j))
  {
    var key, here := chain[j], LogAt(r, log, chain, tries, j);
    RoutePassesOver(r, log, chain, tries, j);
    EarlierAppends(r, log, chain, tries, j, key);
    TryAppends(r, here, key, tries(j));
    VerdictMeaning(r, here, key, tries(j));
    RouteStep(r, here, chain, tries, j, LastSoft(r, log, chain, tries, j));
    RestAppends(r, LogAfter(r, here, key, tries(j)), chain, tries, j + 1, Some(ErrorText(tries(j))), key);
  }

  /** A key that is not asked, has no client, or answers fatally keeps its count; a success sets it to zero. */
  lemma OtherwiseUnmarked(r: Registry, log: History, chain: seq<string>, tries: nat -> Attempt, j: nat)
    requires Undecided(r, log, chain, tries, j) && !(Consulted(r, log, chain[j], tries(j)) && SoftReply(tries(j)))
    ensures FailCount(Route(r, log, chain, tries).log, chain[j])
            == if Eligible(r, log, chain[j], tries(j)) then 0 else FailCount(log, chain[j])
  {
    var key, here := chain[j], LogAt(r, log, chain, tries, j);
    forall i: nat | i < j ensures !Decisive(TryKey(r, log, chain[i], tries(i))) {
      VerdictMeaning(r, log, chain[i], tries(i));
    }
    NothingBefore(r, log, chain, tries, j);
    VerdictIgnoresEarlierKeys(r, log, chain, tries, j);
    RoutePassesOver(r, log, chain, tries, j);
    EarlierAppends(r, log, chain, tries, j, key);
    PassingOverKeepsOthers(r, log, chain, tries, j, key);
    UnmarkedAt(r, here, chain, tries, j, LastSoft(r, log, chain, tries, j));
  }

  lemma UnmarkedAt(r: Registry, here: History, chain: seq<string>, tries: nat -> Attempt, j: nat, last: Option<string>)
    requires j < |chain| && forall i :: j < i < |chain| ==> chain[i] != chain[j]
    requires !(Consulted(r, here, chain[j], tries(j)) && SoftReply(tries(j)))
    ensures FailCount(RouteFrom(r, here, chain, tries, j, last).log, chain[j])
            == if Eligible(r, here, chain[j], tries(j)) then 0 else FailCount(here, chain[j])
  {
    var key, a := chain[j], tries(j);
    RouteStep(r, here, chain, tries, j, last);
    VerdictMeaning(r, here, key, a);
    if !Decisive(TryKey(r, here, key, a)) { RestAppends(r, LogAfter(r, here, key, a), chain, tries, j + 1, last, key); }
  }

  // ----- Errors

  /** The last of the first `n` positions whose client failed softly, going by the router's state before the call. */
  ghost predicate LastSoftAt(r: Registry, log: History, chain: seq<string>, tries: nat -> Attempt, n: nat, j: nat) {
    && j < n <= |chain| && SoftAt(r, log, chain, tries, j)
    && forall i: nat :: j < i < n ==> !SoftAt(r, log, chain, tries, i)
  }

  /** Nothing before position `n` decides the call. */
  ghost predicate AllUndecided(r: Registry, log: History, chain: seq<string>, tries: nat -> Attempt, n: nat) {
    && n <= |chain| && (forall a, b :: 0 <= a < b < |chain| ==> chain[a] != chain[b])
    && forall i: nat :: i < n ==> !Eligible(r, log, chain[i], tries(i)) && !Poisoned(r, log, chain[i], tries(i))
  }

  lemma UndecidedIsPassed(r: Registry, log: History, chain: seq<string>, tries: nat -> Attempt, n: nat)
    requires AllUndecided(r, log, chain, tries, n)
    ensures NoneDecisive(r, log, chain, tries, n)
  {
    forall i: nat | i < n ensures !Decisive(TryKey(r, log, chain[i], tries(i))) {
      VerdictMeaning(r, log, chain[i], tries(i));
    }
    NothingBefore(r, log, chain, tries, n);
  }

  ghost predicate SoftAt(r: Registry, log: History, chain: seq<string>, tries: nat -> Attempt, i: nat) {
    i < |chain| && Consulted(r, log, chain[i], tries(i)) && SoftReply(tries(i))
  }

  lemma LastSoftTurn(r: Registry, log: History, chain: seq<string>, tries: nat -> Attempt, n: nat)
    requires n > 0 && AllUndecided(r, log, chain, tries, n)
    ensures LastSoft(r, log, chain, tries, n)
            == if SoftAt(r, log, chain, tries, n - 1) then Some(ErrorText(tries(n - 1))) else LastSoft(r, log, chain, tries, n - 1)
  {
    UndecidedIsPassed(r, log, chain, tries, n - 1);
    VerdictIgnoresEarlierKeys(r, log, chain, tries, n - 1);
    VerdictMeaning(r, log, chain[n - 1], tries(n - 1));
  }

  lemma {:induction false} LastSoftIs(r: Registry, log: History, chain: seq<string>, tries: nat -> Attempt, n: nat) returns (j: int)
    requires AllUndecided(r, log, chain, tries, n)
    ensures j >= 0 ==> LastSoftAt(r, log, chain, tries, n, j) && LastSoft(r, log, chain, tries, n) == Some(ErrorText(tries(j)))
    ensures j < 0 ==> LastSoft(r, log, chain, tries, n) == None && forall i: nat :: i < n ==> !SoftAt(r, log, chain, tries, i)
  {
    if n == 0 {
      j := -1;
    } else {
      LastSoftTurn(r, log, chain, tries, n);
      j := LastSoftIs(r, log, chain, tries, n - 1);
      if SoftAt(r, log, chain, tries, n - 1) { j := n - 1; }
    }
  }

  /**
    A call nothing decides ends with the words of the last client that failed softly, or finds no
    provider available if none did.
   */
  lemma UndecidedError(r: Registry, log: History, chain: seq<string>, tries: nat -> Attempt) returns (j: int)
    requires chain != [] && AllUndecided(r, log, chain, tries, |chain|)
    ensures j >= 0 ==> LastSoftAt(r, log, chain, tries, |chain|, j)
                       && Route(r, log, chain, tries).outcome == Failure(ClientSaid(ErrorText(tries(j)), false))
    ensures j < 0 ==> Route(r, log, chain, tries).outcome == Failure(Unavailable)
                      && forall i: nat :: i < |chain| ==> !SoftAt(r, log, chain, tries, i)
  {
    UndecidedIsPassed(r, log, chain, tries, |chain|);
    RouteExhausted(r, log, chain, tries);
    j := LastSoftIs(r, log, chain, tries, |chain|);
  }

  /** The first client to fail fatally, nothing before it deciding the call, is quoted; without a chain there is nobody to ask. */
  lemma FatalIsQuoted(r: Registry, log: History, chain: seq<string>, tries: nat -> Attempt, j: nat)
    requires chain == [] || (j < |chain| && AllUndecided(r, log, chain, tries, j) && Poisoned(r, log, chain[j], tries(j)))
    ensures Route(r, log, chain, tries).outcome == Failure(if chain == [] then NoProviders else ClientSaid(ErrorText(tries(j)), true))
  {
    if chain != [] {
      UndecidedIsPassed(r, log, chain, tries, j);
      VerdictIgnoresEarlierKeys(r, log, chain, tries, j);
      VerdictMeaning(r, log, chain[j], tries(j));
      RouteTakesFirstDecisive(r, log, chain, tries, j);
    }
  }
}
