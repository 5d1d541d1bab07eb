/**
  The concurrent budget bound is attained, for the run budget and for a key's own, by exhibiting runs.
 */
module Tightness {
  import opened Ledger
  import opened Concurrency

  lemma {:induction false} LeadsConcat(u: Setup, s: System, a: seq<Step>, s1: System, b: seq<Step>, s2: System)
    requires Leads(u, s, a, s1) && Leads(u, s1, b, s2)
    ensures Leads(u, s, a + b, s2)
    decreases |a|
  {
    if a == [] {
      assert a + b == b;
    } else {
      LeadsConcat(u, Next(u, s, a[0]), a[1..], s1, b, s2);
      assert (a + b)[1..] == a[1..] + b;
    }
  }

  lemma LeadsOne(u: Setup, s: System, step: Step)
    requires Enabled(u, s, step)
    ensures Leads(u, s, [step], Next(u, s, step))
  {
    assert [step][1..] == [];
  }

  lemma Extend(u: Setup, s: System, steps: seq<Step>, s1: System, step: Step) returns (more: seq<Step>)
    requires Leads(u, s, steps, s1) && Enabled(u, s1, step)
    ensures Leads(u, s, more, Next(u, s1, step))
  {
    more := steps + [step];
    LeadsOne(u, s1, step);
    LeadsConcat(u, s, steps, s1, [step], Next(u, s1, step));
  }

  /** The budget of the scope is the only one set, and the first key of the chain, which it covers, has a client. */
  predicate OnlyBudget(u: Setup, scope: Scope) {
    && u.settings.runCost <= 0.0 && u.settings.providerCost <= 0.0
    && u.chain != [] && u.chain[0] in u.known && InScope(scope, u.chain[0])
    && Limit(u.settings, scope) > 0
    && (if scope.None? then u.settings.providerTokens else u.settings.runTokens) <= 0
  }

  ghost predicate Quiet(u: Setup, s: System) {
    s.books == Replay(u.settings, s.history) && s.books.openUntil == map[]
  }

  lemma AskAdmits(u: Setup, scope: Scope, s: System, c: nat)
    requires OnlyBudget(u, scope) && Quiet(u, s) && c < |s.callers| && s.callers[c] == Asking(0)
    requires TokensOf(s.history, scope) < Limit(u.settings, scope)
    ensures var s' := Next(u, s, Ask(c, 0));
            && Quiet(u, s') && s'.callers == s.callers[c := Calling(0)] && TokensOf(s'.history, scope) == TokensOf(s.history, scope)
            && s'.history == Then(s.history, Admitted(u.chain[0], 0))
  {
    LedgerIsSumOfCharges(u.settings, s.history);
    SpentStep(s.history, Admitted(u.chain[0], 0), scope);
    assert Allowed(u.settings, s.books, u.chain[0], 0);
  }

  /** A caller at work on the first key can always be brought to charge `n` tokens. */
  lemma Finish(u: Setup, scope: Scope, s0: System, steps: seq<Step>, s: System, c: nat, n: nat)
    returns (more: seq<Step>, s': System)
    requires Leads(u, s0, steps, s)
    requires OnlyBudget(u, scope) && Quiet(u, s) && c < |s.callers| && s.callers[c] == Calling(0) && n <= u.most
    ensures Leads(u, s0, more, s') && Quiet(u, s')
    ensures s'.callers == s.callers[c := Idle] && TokensOf(s'.history, scope) == TokensOf(s.history, scope) + n
  {
    var bill := Usage(n, 0, 0.0);
    var s1 := Next(u, s, Reply(c, bill));
    more := Extend(u, s0, steps, s, Reply(c, bill));
    var s2 := Next(u, s1, Restore(c));
    more := Extend(u, s0, more, s1, Restore(c));
    assert s2.books.openUntil == map[];
    SpentStep(s.history, s2.history.last, scope);
    s' := Next(u, s2, Charge(c));
    more := Extend(u, s0, more, s2, Charge(c));
    SpentStep(s2.history, s'.history.last, scope);
    assert s'.callers == s.callers[c := Idle];
  }

  lemma Admit(u: Setup, scope: Scope, s0: System, steps: seq<Step>, s: System, c: nat)
    returns (more: seq<Step>, s': System)
    requires Leads(u, s0, steps, s)
    requires OnlyBudget(u, scope) && Quiet(u, s) && c < |s.callers| && s.callers[c].Idle?
    requires TokensOf(s.history, scope) < Limit(u.settings, scope)
    ensures Leads(u, s0, more, s') && Quiet(u, s')
    ensures s'.callers == s.callers[c := Calling(0)] && TokensOf(s'.history, scope) == TokensOf(s.history, scope)
    ensures s'.history == Then(s.history, Admitted(u.chain[0], 0))
  {
    var s1 := Next(u, s, Begin(c));
    more := Extend(u, s0, steps, s, Begin(c));
    AskAdmits(u, scope, s1, c);
    s' := Next(u, s1, Ask(c, 0));
    more := Extend(u, s0, more, s1, Ask(c, 0));
  }

  /** One caller alone spends the budget down to its last token. */
  lemma {:induction false} SpendAlone(u: Setup, scope: Scope, k: nat, n: nat) returns (steps: seq<Step>, s: System)
    requires OnlyBudget(u, scope) && k >= 1 && u.most >= 1 && n < Limit(u.settings, scope)
    ensures Leads(u, Init(k), steps, s) && Quiet(u, s) && s.callers == Init(k).callers && TokensOf(s.history, scope) == n
  {
    if n == 0 {
      steps, s := [], Init(k);
    } else {
      steps, s := SpendAlone(u, scope, k, n - 1);
      steps, s := Admit(u, scope, Init(k), steps, s, 0);
      steps, s := Finish(u, scope, Init(k), steps, s, 0, 1);
    }
  }

  /** The first `j` callers are admitted one after another, before any of them charges. */
  lemma {:induction false} AdmitFirst(u: Setup, scope: Scope, k: nat, j: nat) returns (steps: seq<Step>, s: System)
    requires OnlyBudget(u, scope) && k >= 1 && u.most >= 1 && j <= k
    ensures Leads(u, Init(k), steps, s) && Quiet(u, s) && |s.callers| == k
    ensures forall c :: 0 <= c < k ==> s.callers[c] == if c < j then Calling(0) else Idle
    ensures TokensOf(s.history, scope) == Limit(u.settings, scope) - 1
  {
    if j == 0 {
      steps, s := SpendAlone(u, scope, k, Limit(u.settings, scope) - 1);
    } else {
      steps, s := AdmitFirst(u, scope, k, j - 1);
      steps, s := Admit(u, scope, Init(k), steps, s, j - 1);
    }
  }

  /** Then the first `j` of the k admitted callers charge as much as a call may. */
  lemma {:induction false} ChargeFirst(u: Setup, scope: Scope, k: nat, j: nat) returns (steps: seq<Step>, s: System)
    requires OnlyBudget(u, scope) && k >= 1 && u.most >= 1 && j <= k
    ensures Leads(u, Init(k), steps, s) && Quiet(u, s) && |s.callers| == k
    ensures forall c :: j <= c < k ==> s.callers[c] == Calling(0)
    ensures TokensOf(s.history, scope) == Limit(u.settings, scope) - 1 + j * u.most
  {
    if j == 0 {
      steps, s := AdmitFirst(u, scope, k, k);
    } else {
      steps, s := ChargeFirst(u, scope, k, j - 1);
      steps, s := Finish(u, scope, Init(k), steps, s, j - 1, u.most);
      assert j * u.most == (j - 1) * u.most + u.most;
    }
  }

  /**
    For every number of callers, budget and call size, some run overshoots by exactly the bound, be it
    the run budget or a key's own.
   */
  lemma ConcurrentBudgetTight(u: Setup, scope: Scope, k: nat)
    requires OnlyBudget(u, scope) && k >= 1 && u.most >= 1
    ensures exists s :: Reachable(u, k, s) && TokensOf(s.history, scope) == Limit(u.settings, scope) - 1 + k * u.most
  {
    var steps, s := ChargeFirst(u, scope, k, k);
    assert Reachable(u, k, s);
  }
}
