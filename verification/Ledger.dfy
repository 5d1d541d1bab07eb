/**
  The router's three maps as one value, the critical sections that change them, and their history:
  the maps are always the replay of the log of sections executed so far.
 */
module Ledger {
  import opened Providers

  datatype Usage = Usage(input: int, output: int, cost: real)

  function NoUsage(): Usage {
    Usage(0, 0, 0.0)
  }

  /** `c` is `a` and `b` together. */
  predicate Adds(a: Usage, b: Usage, c: Usage) {
    c.input == a.input + b.input && c.output == a.output + b.output && c.cost == a.cost + b.cost
  }

  datatype Books = Books(failures: map<string, int>, openUntil: map<string, int>, usage: map<string, Usage>)

  const EmptyBooks := Books(map[], map[], map[])

  ghost function UsageOf(m: map<string, Usage>, key: string): Usage {
    if key in m then m[key] else NoUsage()
  }

  function FailuresOf(b: Books, key: string): int {
    if key in b.failures then b.failures[key] else 0
  }

  ghost function AnyKey(m: map<string, Usage>): (k: string)
    requires m != map[]
    ensures k in m
  {
    var k :| k in m; k
  }

  /** What all keys together were charged. */
  ghost function Sum(m: map<string, Usage>): Usage
    decreases |m|
  {
    if m == map[] then NoUsage()
    else
      var k := AnyKey(m);
      assert (m - {k}).Keys == m.Keys - {k};
      var u, rest := m[k], Sum(m - {k});
      Usage(u.input + rest.input, u.output + rest.output, u.cost + rest.cost)
  }

  lemma {:induction false} SumRemove(m: map<string, Usage>, k: string)
    requires k in m
    ensures Adds(m[k], Sum(m - {k}), Sum(m))
    decreases |m|
  {
    var k0 := AnyKey(m);
    if k != k0 {
      var m0, m1 := m - {k0}, m - {k};
      assert m0.Keys == m.Keys - {k0} && m1.Keys == m.Keys - {k};
      assert m0[k] == m[k] && m1[k0] == m[k0];
      assert m0 - {k} == m1 - {k0};
      SumRemove(m0, k);
      SumRemove(m1, k0);
    }
  }

  ghost function Charge(m: map<string, Usage>, key: string, u: Usage): map<string, Usage> {
    var was := UsageOf(m, key);
    m[key := Usage(was.input + u.input, was.output + u.output, was.cost + u.cost)]
  }

  lemma SumCharge(m: map<string, Usage>, key: string, u: Usage)
    ensures Adds(Sum(m), u, Sum(Charge(m, key, u)))
  {
    var m' := Charge(m, key, u);
    SumRemove(m', key);
    if key in m {
      SumRemove(m, key);
      assert m' - {key} == m - {key};
    } else {
      assert m' - {key} == m;
    }
  }

  // ----- The critical sections

  predicate BreakerClosed(b: Books, key: string, now: int) {
    key !in b.openUntil || b.openUntil[key] <= now
  }

  ghost predicate WithinBudget(s: Settings, m: map<string, Usage>, key: string) {
    && !(s.providerTokens > 0 && UsageOf(m, key).input + UsageOf(m, key).output >= s.providerTokens)
    && !(s.providerCost > 0.0 && UsageOf(m, key).cost >= s.providerCost)
    && !(s.runTokens > 0 && Sum(m).input + Sum(m).output >= s.runTokens)
    && !(s.runCost > 0.0 && Sum(m).cost >= s.runCost)
  }

  ghost predicate Allowed(s: Settings, b: Books, key: string, now: int) {
    BreakerClosed(b, key, now) && WithinBudget(s, b.usage, key)
  }

  function RecordFailure(s: Settings, b: Books, key: string, now: int): Books {
    var n := FailuresOf(b, key) + 1;
    if n >= s.breakerFailures then
      b.(openUntil := b.openUntil[key := now + s.breakerSeconds], failures := b.failures[key := 0])
    else b.(failures := b.failures[key := n])
  }

  function ResetFailure(b: Books, key: string): Books {
    b.(failures := b.failures[key := 0], openUntil := b.openUntil - {key})
  }

  ghost function RecordUsage(b: Books, key: string, u: Usage): Books {
    b.(usage := Charge(b.usage, key, u))
  }

  // ----- History

  datatype Event =
    | Admitted(key: string, at: int)
    | Failed(key: string, at: int)
    | Restored(key: string)
    | Charged(key: string, spent: Usage)

  /** Critical sections in the order they were entered, the latest outermost. */
  datatype History = Start | Then(past: History, last: Event)

  ghost function Apply(s: Settings, b: Books, e: Event): Books {
    match e
    case Admitted(_, _) => b
    case Failed(key, at) => RecordFailure(s, b, key, at)
    case Restored(key) => ResetFailure(b, key)
    case Charged(key, spent) => RecordUsage(b, key, spent)
  }

  ghost function Replay(s: Settings, h: History): Books {
    match h
    case Start => EmptyBooks
    case Then(past, e) => Apply(s, Replay(s, past), e)
  }

  /** Everything charged in a history. */
  ghost function SpentIn(h: History): Usage {
    match h
    case Start => NoUsage()
    case Then(past, e) =>
      var was := SpentIn(past);
      if e.Charged? then Usage(was.input + e.spent.input, was.output + e.spent.output, was.cost + e.spent.cost) else was
  }

  ghost function SpentBy(h: History, key: string): Usage {
    match h
    case Start => NoUsage()
    case Then(past, e) =>
      var was := SpentBy(past, key);
      if e.Charged? && e.key == key then
        Usage(was.input + e.spent.input, was.output + e.spent.output, was.cost + e.spent.cost)
      else was
  }

  /** The usage map holds exactly what the history charged, in total and by key, whatever the interleaving. */
  lemma {:induction false} LedgerIsSumOfCharges(s: Settings, h: History)
    ensures Sum(Replay(s, h).usage) == SpentIn(h)
    ensures forall key :: UsageOf(Replay(s, h).usage, key) == SpentBy(h, key)
  {
    if h.Then? {
      LedgerIsSumOfCharges(s, h.past);
      if h.last.Charged? { SumCharge(Replay(s, h.past).usage, h.last.key, h.last.spent); }
    }
  }
}
