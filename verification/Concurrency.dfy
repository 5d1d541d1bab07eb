/**
  k callers of one router, interleaving at the lock boundaries of internal/enrich/router.go: the
  admission test, the failure mark, the restoration and the charge are four separate critical
  sections, so a whole call is not atomic.
 */
module Concurrency {
  import opened Text
  import opened Providers
  import opened Ledger
  import opened Breaker

  /** Where a caller stands; `i` is its position in the fallback chain. */
  datatype Pc =
    | Idle
    | Asking(i: nat)
    | Calling(i: nat)
    | Restoring(i: nat, bill: Usage)
    | Charging(i: nat, bill: Usage)

  datatype System = System(books: Books, history: History, callers: seq<Pc>)

  type Price = x: real | 0.0 <= x

  /** The router, its chain, the keys with a client, and the most tokens and the highest cost one success can charge. */
  datatype Setup = Setup(settings: Settings, chain: seq<string>, known: set<string>, most: nat, mostCost: Price)

  datatype Step =
    | Begin(c: nat)
    | Ask(c: nat, now: int)
    | NoClient(c: nat)
    | SoftFail(c: nat, at: int)
    | FatalFail(c: nat)
    | Reply(c: nat, bill: Usage)
    | Restore(c: nat)
    | Charge(c: nat)
    | GiveUp(c: nat)

  function Init(k: nat): System {
    System(EmptyBooks, Start, seq(k, _ => Idle))
  }

  /** The bill is not negative and within the most a success can charge. */
  predicate BillBounded(u: Setup, bill: Usage) {
    bill.input >= 0 && bill.output >= 0 && bill.input + bill.output <= u.most && 0.0 <= bill.cost <= u.mostCost
  }

  predicate Enabled(u: Setup, s: System, step: Step) {
    step.c < |s.callers| &&
    var pc := s.callers[step.c];
    match step
    case Begin(_) => pc.Idle?
    case Ask(_, _) => pc.Asking? && pc.i < |u.chain|
    case NoClient(_) => pc.Calling? && pc.i < |u.chain| && u.chain[pc.i] !in u.known
    case SoftFail(_, _) => pc.Calling? && pc.i < |u.chain| && u.chain[pc.i] in u.known
    case FatalFail(_) => pc.Calling? && pc.i < |u.chain| && u.chain[pc.i] in u.known
    case Reply(_, bill) =>
      && pc.Calling? && pc.i < |u.chain| && u.chain[pc.i] in u.known
      && BillBounded(u, bill)
    case Restore(_) => pc.Restoring? && pc.i < |u.chain|
    case Charge(_) => pc.Charging? && pc.i < |u.chain|
    case GiveUp(_) => pc.Asking? && pc.i >= |u.chain|
  }

  ghost function Next(u: Setup, s: System, step: Step): System
    requires Enabled(u, s, step)
  {
    var c, pc := step.c, s.callers[step.c];
    match step
    case Begin(_) => s.(callers := s.callers[c := Asking(0)])
    case Ask(_, now) =>
      if Allowed(u.settings, s.books, u.chain[pc.i], now) then
        System(s.books, Then(s.history, Admitted(u.chain[pc.i], now)), s.callers[c := Calling(pc.i)])
      else s.(callers := s.callers[c := Asking(pc.i + 1)])
    case NoClient(_) => s.(callers := s.callers[c := Asking(pc.i + 1)])
    case SoftFail(_, at) =>
      System(RecordFailure(u.settings, s.books, u.chain[pc.i], at),
             Then(s.history, Failed(u.chain[pc.i], at)),
             s.callers[c := Asking(pc.i + 1)])
    case FatalFail(_) => s.(callers := s.callers[c := Idle])
    case Reply(_, bill) => s.(callers := s.callers[c := Restoring(pc.i, bill)])
    case Restore(_) =>
      System(ResetFailure(s.books, u.chain[pc.i]),
             Then(s.history, Restored(u.chain[pc.i])),
             s.callers[c := Charging(pc.i, pc.bill)])
    case Charge(_) =>
      System(RecordUsage(s.books, u.chain[pc.i], pc.bill),
             Then(s.history, Charged(u.chain[pc.i], pc.bill)),
             s.callers[c := Idle])
    case GiveUp(_) => s.(callers := s.callers[c := Idle])
  }

  /** `s'` is where the steps, each enabled in its turn, lead from `s`. */
  ghost predicate Leads(u: Setup, s: System, steps: seq<Step>, s': System)
    decreases |steps|
  {
    if steps == [] then s == s'
    else Enabled(u, s, steps[0]) && Leads(u, Next(u, s, steps[0]), steps[1..], s')
  }

  ghost predicate Reachable(u: Setup, k: nat, s: System) {
    exists steps: seq<Step> :: Leads(u, Init(k), steps, s)
  }

  // ----- The maps refine the history, for every interleaving

  lemma {:induction false} BooksReplayHistory(u: Setup, s: System, steps: seq<Step>, s': System)
    requires Leads(u, s, steps, s') && s.books == Replay(u.settings, s.history)
    ensures s'.books == Replay(u.settings, s'.history)
    decreases |steps|
  {
    if steps != [] { BooksReplayHistory(u, Next(u, s, steps[0]), steps[1..], s'); }
  }

  /**
    In every reachable state: the breaker maps are a function of the failures recorded since the last
    success, and the usage map holds exactly the charges, in total and key by key.
   */
  lemma ReachableRefinesHistory(u: Setup, k: nat, s: System, key: string)
    requires Reachable(u, k, s)
    ensures FailuresOf(s.books, key) == FailCount(s.history, key) % Threshold(u.settings)
    ensures key in s.books.openUntil <==> FailCount(s.history, key) >= Threshold(u.settings)
    ensures Sum(s.books.usage) == SpentIn(s.history)
    ensures UsageOf(s.books.usage, key) == SpentBy(s.history, key)
  {
    var steps: seq<Step> :| Leads(u, Init(k), steps, s);
    BooksReplayHistory(u, Init(k), steps, s);
    BreakerRefinesHistory(u.settings, s.history, key);
    LedgerIsSumOfCharges(u.settings, s.history);
  }

  // ----- The budget bound

  /** Whose budget: the whole router's (`None`) or one key's. */
  type Scope = Option<string>

  /** What the budget counts. */
  datatype Kind = Tokens | Cost

  function Limit(s: Settings, scope: Scope): int {
    if scope.None? then s.runTokens else s.providerTokens
  }

  function Cap(s: Settings, scope: Scope, kind: Kind): real {
    match kind
    case Tokens => Limit(s, scope) as real
    case Cost => if scope.None? then s.runCost else s.providerCost
  }

  function Amount(b: Usage, kind: Kind): real {
    if kind.Tokens? then (b.input + b.output) as real else b.cost
  }

  /** The most one success can charge. */
  function Most(u: Setup, kind: Kind): (m: real)
    ensures m >= 0.0
  {
    if kind.Tokens? then u.most as real else u.mostCost
  }

  /** Everything charged within the scope. */
  ghost function Spent(h: History, scope: Scope): Usage {
    match scope
    case None => SpentIn(h)
    case Some(key) => SpentBy(h, key)
  }

  ghost function TokensOf(h: History, scope: Scope): int {
    Spent(h, scope).input + Spent(h, scope).output
  }

  ghost function AmountOf(h: History, scope: Scope, kind: Kind): real {
    Amount(Spent(h, scope), kind)
  }

  predicate InScope(scope: Scope, key: string) {
    scope.None? || scope.value == key
  }

  lemma SpentStep(h: History, e: Event, scope: Scope)
    ensures e.Charged? && InScope(scope, e.key) ==> Adds(Spent(h, scope), e.spent, Spent(Then(h, e), scope))
    ensures !(e.Charged? && InScope(scope, e.key)) ==> Spent(Then(h, e), scope) == Spent(h, scope)
  {}

  lemma AmountStep(h: History, e: Event, scope: Scope, kind: Kind)
    ensures AmountOf(Then(h, e), scope, kind)
            == AmountOf(h, scope, kind) + if e.Charged? && InScope(scope, e.key) then Amount(e.spent, kind) else 0.0
  {
    SpentStep(h, e, scope);
  }

  /** Admitted within the scope and not yet charged or given up. */
  predicate InFlight(u: Setup, pc: Pc, scope: Scope) {
    (pc.Calling? || pc.Restoring? || pc.Charging?)
    && pc.i < |u.chain| && InScope(scope, u.chain[pc.i])
  }

  function CountInFlight(u: Setup, callers: seq<Pc>, scope: Scope): (n: nat)
    ensures n <= |callers|
  {
    if callers == [] then 0
    else (if InFlight(u, callers[0], scope) then 1 else 0) + CountInFlight(u, callers[1..], scope)
  }

  lemma {:induction false} CountUpdate(u: Setup, callers: seq<Pc>, scope: Scope, c: nat, pc: Pc)
    requires c < |callers|
    ensures CountInFlight(u, callers[c := pc], scope)
            == CountInFlight(u, callers, scope)
               - (if InFlight(u, callers[c], scope) then 1 else 0)
               + (if InFlight(u, pc, scope) then 1 else 0)
  {
    if c == 0 {
      assert callers[0 := pc][1..] == callers[1..];
    } else {
      assert callers[c := pc][1..] == callers[1..][c - 1 := pc];
      CountUpdate(u, callers[1..], scope, c - 1, pc);
    }
  }

  /** Bills in transit respect the per-call maximum. */
  ghost predicate BillsBounded(u: Setup, callers: seq<Pc>) {
    forall c :: 0 <= c < |callers| && (callers[c].Restoring? || callers[c].Charging?) ==> BillBounded(u, callers[c].bill)
  }

  /** What `n` callers in flight may still add. */
  function Load(m: real, n: nat): real {
    if n == 0 then 0.0 else Load(m, n - 1) + m
  }

  lemma {:induction false} LoadGrows(m: real, a: nat, b: nat)
    requires m >= 0.0 && a <= b
    ensures 0.0 <= Load(m, a) <= Load(m, b)
  {
    if a < b { LoadGrows(m, a, b - 1); } else if a > 0 { LoadGrows(m, a - 1, a - 1); }
  }

  lemma {:induction false} LoadIsProduct(m: real, n: nat)
    ensures Load(m, n) == n as real * m
  {
    if n > 0 { LoadIsProduct(m, n - 1); }
  }

  lemma {:induction false} LoadOfTokens(m: nat, n: nat)
    ensures Load(m as real, n) == (n * m) as real
  {
    if n > 0 {
      LoadOfTokens(m, n - 1);
      assert n * m == (n - 1) * m + m;
    }
  }

  ghost predicate Inv(u: Setup, k: nat, s: System, scope: Scope, kind: Kind) {
    && |s.callers| == k
    && s.books == Replay(u.settings, s.history)
    && BillsBounded(u, s.callers)
    && (Cap(u.settings, scope, kind) > 0.0 ==>
          AmountOf(s.history, scope, kind) + Load(Most(u, kind), CountInFlight(u, s.callers, scope))
          < Cap(u.settings, scope, kind) + Load(Most(u, kind), k))
  }

  lemma InitInv(u: Setup, k: nat, scope: Scope, kind: Kind)
    ensures Inv(u, k, Init(k), scope, kind)
  {
    NoneInFlight(u, Init(k).callers, scope);
    LoadGrows(Most(u, kind), 0, k);
    NothingSpent(scope, kind);
  }

  lemma NothingSpent(scope: Scope, kind: Kind)
    ensures AmountOf(Start, scope, kind) == 0.0
  {}

  lemma {:induction false} NoneInFlight(u: Setup, callers: seq<Pc>, scope: Scope)
    requires forall c :: 0 <= c < |callers| ==> callers[c].Idle?
    ensures CountInFlight(u, callers, scope) == 0
  {
    if callers != [] { NoneInFlight(u, callers[1..], scope); }
  }

  /** Admission within a positive budget means the tally is still below it. */
  lemma AdmittedBelowLimit(u: Setup, h: History, key: string, now: int, scope: Scope, kind: Kind)
    requires Allowed(u.settings, Replay(u.settings, h), key, now)
    requires InScope(scope, key)
    ensures Cap(u.settings, scope, kind) > 0.0 ==> AmountOf(h, scope, kind) < Cap(u.settings, scope, kind)
  {
    LedgerIsSumOfCharges(u.settings, h);
  }

  /** What a caller at `pc` may still add to the tally of the scope. */
  function Exposure(u: Setup, pc: Pc, scope: Scope, kind: Kind): real {
    if InFlight(u, pc, scope) then Most(u, kind) else 0.0
  }

  lemma ExposureUpdate(u: Setup, callers: seq<Pc>, scope: Scope, kind: Kind, c: nat, pc: Pc)
    requires c < |callers|
    ensures Load(Most(u, kind), CountInFlight(u, callers[c := pc], scope))
            == Load(Most(u, kind), CountInFlight(u, callers, scope)) - Exposure(u, callers[c], scope, kind) + Exposure(u, pc, scope, kind)
  {
    CountUpdate(u, callers, scope, c, pc);
    var n, n' := CountInFlight(u, callers, scope), CountInFlight(u, callers[c := pc], scope);
    if n' == n + 1 { assert Load(Most(u, kind), n') == Load(Most(u, kind), n) + Most(u, kind); }
    if n == n' + 1 { assert Load(Most(u, kind), n) == Load(Most(u, kind), n') + Most(u, kind); }
  }

  lemma StepShape(u: Setup, s: System, step: Step)
    requires Enabled(u, s, step) && s.books == Replay(u.settings, s.history) && BillsBounded(u, s.callers)
    ensures var s' := Next(u, s, step);
            && |s'.callers| == |s.callers| && s'.callers == s.callers[step.c := s'.callers[step.c]]
            && s'.books == Replay(u.settings, s'.history)
            && BillsBounded(u, s'.callers)
  {
    var s' := Next(u, s, step);
    assert s'.callers == s.callers[step.c := s'.callers[step.c]];
    assert forall c :: 0 <= c < |s.callers| && c != step.c ==> s'.callers[c] == s.callers[c];
  }

  /** No step raises tally plus exposure, except an admission, which happens below the limit. */
  lemma StepTally(u: Setup, s: System, step: Step, scope: Scope, kind: Kind)
    requires Enabled(u, s, step) && s.books == Replay(u.settings, s.history) && BillsBounded(u, s.callers)
    ensures var s' := Next(u, s, step);
            var pc, pc' := s.callers[step.c], s'.callers[step.c];
            || AmountOf(s'.history, scope, kind) + Exposure(u, pc', scope, kind)
               <= AmountOf(s.history, scope, kind) + Exposure(u, pc, scope, kind)
            || (&& AmountOf(s'.history, scope, kind) == AmountOf(s.history, scope, kind)
                && (Cap(u.settings, scope, kind) > 0.0 ==> AmountOf(s.history, scope, kind) < Cap(u.settings, scope, kind)))
  {
    var pc, s' := s.callers[step.c], Next(u, s, step);
    if s'.history.Then? { AmountStep(s.history, s'.history.last, scope, kind); }
    if step.Ask? {
      if Allowed(u.settings, s.books, u.chain[pc.i], step.now) && InScope(scope, u.chain[pc.i]) {
        AdmittedBelowLimit(u, s.history, u.chain[pc.i], step.now, scope, kind);
      }
    }
  }

  lemma StepKeepsInv(u: Setup, k: nat, s: System, step: Step, scope: Scope, kind: Kind)
    requires Inv(u, k, s, scope, kind) && Enabled(u, s, step)
    ensures Inv(u, k, Next(u, s, step), scope, kind)
  {
    StepShape(u, s, step);
    StepTally(u, s, step, scope, kind);
    var s' := Next(u, s, step);
    ExposureUpdate(u, s.callers, scope, kind, step.c, s'.callers[step.c]);
    LoadGrows(Most(u, kind), CountInFlight(u, s'.callers, scope), k);
  }

  lemma {:induction false} LeadsKeepsInv(u: Setup, k: nat, s: System, steps: seq<Step>, s': System, scope: Scope, kind: Kind)
    requires Inv(u, k, s, scope, kind) && Leads(u, s, steps, s')
    ensures Inv(u, k, s', scope, kind)
    decreases |steps|
  {
    if steps != [] {
      StepKeepsInv(u, k, s, steps[0], scope, kind);
      LeadsKeepsInv(u, k, Next(u, s, steps[0]), steps[1..], s', scope, kind);
    }
  }

  /**
    However k callers interleave, what is recorded against a positive budget stays below the budget
    and k successful calls together: of tokens or of cost, for the run and for every key's own.
   */
  lemma ConcurrentOvershoot(u: Setup, k: nat, s: System, scope: Scope, kind: Kind)
    requires Reachable(u, k, s) && Cap(u.settings, scope, kind) > 0.0
    ensures AmountOf(s.history, scope, kind) < Cap(u.settings, scope, kind) + Load(Most(u, kind), k)
  {
    var steps: seq<Step> :| Leads(u, Init(k), steps, s);
    InitInv(u, k, scope, kind);
    LeadsKeepsInv(u, k, Init(k), steps, s, scope, kind);
    LoadGrows(Most(u, kind), 0, CountInFlight(u, s.callers, scope));
  }

  /** In tokens: a budget is never exceeded by more than k successful calls, less one token. */
  lemma ConcurrentBudgetBound(u: Setup, k: nat, s: System, scope: Scope)
    requires Reachable(u, k, s) && Limit(u.settings, scope) > 0
    ensures TokensOf(s.history, scope) <= Limit(u.settings, scope) - 1 + k * u.most
  {
    ConcurrentOvershoot(u, k, s, scope, Tokens);
    LoadOfTokens(u.most, k);
  }

  lemma TimesAtMost(x: real, y: real, a: real, b: real)
    requires 0.0 <= x <= y && 0.0 <= a <= b
    ensures 0.0 <= x * a <= y * b
  {
    assert y * b - x * a == (y - x) * b + x * (b - a);
  }

  lemma SumOfTimes(x: real, y: real, a: real)
    ensures x * a + y * a == (x + y) * a
  {}

  lemma Chained(xa: real, xb: real, ya: real, yb: real, sum: real, top: real)
    requires 0.0 <= xa <= xb && 0.0 <= ya <= yb && xb + yb == sum && sum <= top
    ensures 0.0 <= xa + ya <= top
  {}

  lemma PricedAtMost(x: real, y: real, most: real, a: real, b: real, price: real)
    requires 0.0 <= x && 0.0 <= y && x + y <= most && 0.0 <= a <= price && 0.0 <= b <= price
    ensures 0.0 <= x * a + y * b <= most * price
  {
    TimesAtMost(x, x, a, price);
    TimesAtMost(y, y, b, price);
    SumOfTimes(x, y, price);
    TimesAtMost(x + y, most, price, price);
    Chained(x * a, x * price, y * b, y * price, (x + y) * price, most * price);
  }

  /** Prices bound what a call of so many tokens can cost. */
  lemma CostWithinPrices(p: Provider, input: int, output: int, most: nat, price: real)
    requires input >= 0 && output >= 0 && input + output <= most
    requires 0.0 <= p.priceIn <= price && 0.0 <= p.priceOut <= price
    ensures 0.0 <= EstimateCost(p, input, output) <= (most as real / 1000.0) * price
  {
    PricedAtMost(input as real / 1000.0, output as real / 1000.0, most as real / 1000.0, p.priceIn, p.priceOut, price);
  }

  /** In cost: recorded cost stays below the budget and the cost of k calls. */
  lemma ConcurrentCostBound(u: Setup, k: nat, s: System, scope: Scope)
    requires Reachable(u, k, s) && Cap(u.settings, scope, Cost) > 0.0
    ensures Spent(s.history, scope).cost < Cap(u.settings, scope, Cost) + k as real * u.mostCost
  {
    ConcurrentOvershoot(u, k, s, scope, Cost);
    LoadIsProduct(u.mostCost, k);
  }

  // ----- No admission once the budget is used up

  function Admissions(h: History, scope: Scope): nat {
    match h
    case Start => 0
    case Then(past, e) =>
      Admissions(past, scope) + if e.Admitted? && InScope(scope, e.key) then 1 else 0
  }

  /** The budget is set and used up. */
  ghost predicate UsedUp(u: Setup, h: History, scope: Scope, kind: Kind) {
    0.0 < Cap(u.settings, scope, kind) <= AmountOf(h, scope, kind)
  }

  lemma StepAfterLimit(u: Setup, k: nat, s: System, step: Step, scope: Scope, kind: Kind)
    requires Inv(u, k, s, scope, kind) && Enabled(u, s, step) && UsedUp(u, s.history, scope, kind)
    ensures Admissions(Next(u, s, step).history, scope) == Admissions(s.history, scope)
    ensures AmountOf(Next(u, s, step).history, scope, kind) >= AmountOf(s.history, scope, kind)
  {
    var pc := s.callers[step.c];
    if step.Ask? && InScope(scope, u.chain[pc.i]) && Allowed(u.settings, s.books, u.chain[pc.i], step.now) {
      AdmittedBelowLimit(u, s.history, u.chain[pc.i], step.now, scope, kind);
      assert false;
    }
    if Next(u, s, step).history.Then? { AmountStep(s.history, Next(u, s, step).history.last, scope, kind); }
  }

  lemma {:induction false} StaysClosedFrom(u: Setup, k: nat, s: System, steps: seq<Step>, s': System, scope: Scope, kind: Kind)
    requires Inv(u, k, s, scope, kind) && Leads(u, s, steps, s') && UsedUp(u, s.history, scope, kind)
    ensures Admissions(s'.history, scope) == Admissions(s.history, scope)
    ensures AmountOf(s'.history, scope, kind) >= AmountOf(s.history, scope, kind)
    decreases |steps|
  {
    if steps != [] {
      StepAfterLimit(u, k, s, steps[0], scope, kind);
      StepKeepsInv(u, k, s, steps[0], scope, kind);
      StaysClosedFrom(u, k, Next(u, s, steps[0]), steps[1..], s', scope, kind);
    }
  }

  /** Once what is recorded reaches a positive budget, of tokens or of cost, no later step admits anyone under it. */
  lemma BudgetStaysClosed(u: Setup, k: nat, s: System, steps: seq<Step>, s': System, scope: Scope, kind: Kind)
    requires Reachable(u, k, s) && Leads(u, s, steps, s') && UsedUp(u, s.history, scope, kind)
    ensures Admissions(s'.history, scope) == Admissions(s.history, scope)
    ensures AmountOf(s'.history, scope, kind) >= AmountOf(s.history, scope, kind)
  {
    var before: seq<Step> :| Leads(u, Init(k), before, s);
    InitInv(u, k, scope, kind);
    LeadsKeepsInv(u, k, Init(k), before, s, scope, kind);
    StaysClosedFrom(u, k, s, steps, s', scope, kind);
  }
}
