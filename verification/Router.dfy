/**
  The provider router (internal/enrich/router.go): fallback chain, circuit breaker and budgets.
 */
module Router {
  import opened Text
  import opened Providers
  import opened Ledger
  import opened Breaker

  datatype RouterResult = RouterResult(
    provider: string,
    model: string,
    sentiment: Sentiment,
    factors: FactorReply,
    entities: EntityReply,
    input: int,
    output: int,
    cost: real)

  datatype Failure = NoProviders | Unavailable | ClientSaid(message: string, fatal: bool)

  datatype Outcome = Success(key: string, result: RouterResult) | Failure(error: Failure)

  /** Price of so many input and output tokens of a key. */
  type Rate = (string, int, int) -> real

  datatype Registry = Registry(settings: Settings, clients: map<string, Client>, rate: Rate)

  function RateOf(prices: map<string, Provider>): Rate {
    (key: string, input: int, output: int) =>
      if key in prices then EstimateCost(prices[key], input, output) else 0.0
  }

  // ----- One position of the chain

  datatype Verdict = Skip | Soft(message: string) | Fatal(message: string) | Done(result: RouterResult)

  /** What the three client calls amount to. */
  function Consult(c: Client, key: string, rate: Rate, a: Attempt): Verdict {
    match a.sentiment
    case FatalError(m) => Fatal(m)
    case SoftError(m) => Soft(m)
    case Answer(sentiment) =>
      match a.factors
      case FatalError(m) => Fatal(m)
      case SoftError(m) => Soft(m)
      case Answer(factors) =>
        match a.entities
        case FatalError(m) => Fatal(m)
        case SoftError(_) => Done(Assemble(c, key, rate, sentiment, factors, EntityReply([], 0, 0)))
        case Answer(entities) => Done(Assemble(c, key, rate, sentiment, factors, entities))
  }

  function Assemble(c: Client, key: string, rate: Rate, s: Sentiment, f: FactorReply, e: EntityReply): RouterResult {
    var input, output := s.input + f.input + e.input, s.output + f.output + e.output;
    RouterResult(c.name, c.model, s, f, e, input, output, rate(key, input, output))
  }

  /** What trying `key` after the history `log` comes to. */
  ghost function TryKey(r: Registry, log: History, key: string, a: Attempt): Verdict {
    if !Allowed(r.settings, Replay(r.settings, log), key, a.askedAt) then Skip
    else if key !in r.clients then Skip
    else Consult(r.clients[key], key, r.rate, a)
  }

  /** The history once `key` was tried: what each critical section entered appends to it. */
  ghost function LogAfter(r: Registry, log: History, key: string, a: Attempt): History {
    if !Allowed(r.settings, Replay(r.settings, log), key, a.askedAt) then log
    else Settled(Then(log, Admitted(key, a.askedAt)), key, a.failedAt, TryKey(r, log, key, a))
  }

  function Settled(log: History, key: string, failedAt: int, v: Verdict): History {
    match v
    case Skip => log
    case Fatal(_) => log
    case Soft(_) => Then(log, Failed(key, failedAt))
    case Done(result) => Then(Then(log, Restored(key)), Charged(key, Bill(result)))
  }

  function Bill(res: RouterResult): Usage {
    Usage(res.input, res.output, res.cost)
  }

  // ----- The whole chain

  datatype Routed = Routed(outcome: Outcome, log: History)

  function Exhausted(last: Option<string>): Outcome {
    Failure(if last.Some? then ClientSaid(last.value, false) else Unavailable)
  }

  /** The chain from position `i` on, with `last` the most recent soft error. */
  ghost function RouteFrom(r: Registry, log: History, chain: seq<string>, tries: nat -> Attempt, i: nat,
                           last: Option<string>): Routed
    decreases |chain| - i
  {
    if i >= |chain| then Routed(Exhausted(last), log)
    else
      var log' := LogAfter(r, log, chain[i], tries(i));
      match TryKey(r, log, chain[i], tries(i))
      case Done(result) => Routed(Success(chain[i], result), log')
      case Fatal(m) => Routed(Failure(ClientSaid(m, true)), log')
      case Soft(m) => RouteFrom(r, log', chain, tries, i + 1, Some(m))
      case Skip => RouteFrom(r, log', chain, tries, i + 1, last)
  }

  ghost function Route(r: Registry, log: History, chain: seq<string>, tries: nat -> Attempt): Routed {
    if chain == [] then Routed(Failure(NoProviders), log) else RouteFrom(r, log, chain, tries, 0, None)
  }

  /** The answers call number `call` will get, position by position of the chain. */
  function Tries(world: World, call: int, text: string, chain: seq<string>): nat -> Attempt {
    (i: nat) => world(call, text, i, if i < |chain| then chain[i] else "")
  }

  /** The keys to try: the configured chain or, without one, the client map in the order it yields them. */
  function ChainOf(s: Settings, rangeOrder: seq<string>): seq<string> {
    if s.fallbackChain == [] then rangeOrder else s.fallbackChain
  }

  /** Everything a call depends on besides the history and its own number. */
  datatype Env = Env(reg: Registry, world: World, order: Order)

  /** Call number `call` of a router whose history is `log`. */
  ghost function RouteCall(env: Env, log: History, call: int, text: string): Routed {
    var chain := ChainOf(env.reg.settings, env.order(call));
    Route(env.reg, log, chain, Tries(env.world, call, text, chain))
  }

  // ----- The class

  class ProviderRouter {
    const settings: Settings
    const clients: map<string, Client>
    const prices: map<string, Provider>
    var failures: map<string, int>
    var openUntil: map<string, int>
    var usage: map<string, Usage>
    /** Number of calls so far: which answers of the `World` come next. */
    var calls: int
    ghost var log: History

    ghost predicate Valid()
      reads this
    {
      && CurrentBooks() == Replay(settings, log)
      && Sequential(settings, log)
      && clients.Keys == prices.Keys
    }

    ghost function CurrentBooks(): Books
      reads this
    {
      Books(failures, openUntil, usage)
    }

    ghost function Reg(): Registry
    {
      Registry(settings, clients, RateOf(prices))
    }

    constructor (s: Settings, mimoModel: string)
      ensures Valid() && settings == s && log == Start && calls == 0
      ensures CurrentBooks() == EmptyBooks
      ensures prices == PriceMap(s.providers)
      ensures forall key :: key in clients ==> clients[key] == BuildClient(prices[key], mimoModel)
    {
      var cs: map<string, Client>, ps: map<string, Provider> := map[], map[];
      for i := 0 to |s.providers|
        invariant ps == PriceMap(s.providers[..i]) && cs.Keys == ps.Keys
        invariant forall key :: key in cs ==> cs[key] == BuildClient(ps[key], mimoModel)
      {
        var p := s.providers[i];
        assert s.providers[..i + 1][..i] == s.providers[..i];
        if p.enabled {
          cs := cs[ProviderKey(p) := BuildClient(p, mimoModel)];
          ps := ps[ProviderKey(p) := p];
        }
      }
      assert s.providers[..|s.providers|] == s.providers;
      settings, clients, prices := s, cs, ps;
      failures, openUntil, usage := map[], map[], map[];
      calls, log := 0, Start;
    }

    /** Sums the usage map in whatever order the map is ranged over. */
    method Totals() returns (total: Usage)
      ensures total == Sum(usage)
    {
      total := Usage(0, 0, 0.0);
      var rest := usage;
      while rest != map[]
        invariant Adds(total, Sum(rest), Sum(usage))
        decreases |rest|
      {
        var k :| k in rest;
        SumRemove(rest, k);
        assert (rest - {k}).Keys == rest.Keys - {k};
        var u := rest[k];
        total := Usage(total.input + u.input, total.output + u.output, total.cost + u.cost);
        rest := rest - {k};
      }
    }

    method IsAllowed(key: string, now: int) returns (ok: bool)
      requires Valid()
      modifies `log
      ensures Valid()
      ensures ok == Allowed(settings, old(CurrentBooks()), key, now)
      ensures log == if ok then Then(old(log), Admitted(key, now)) else old(log)
    {
      if key in openUntil && now < openUntil[key] {
        return false;
      }
      var u := if key in usage then usage[key] else Usage(0, 0, 0.0);
      if settings.providerTokens > 0 && u.input + u.output >= settings.providerTokens {
        return false;
      }
      if settings.providerCost > 0.0 && u.cost >= settings.providerCost {
        return false;
      }
      var total := Totals();
      if settings.runTokens > 0 && total.input + total.output >= settings.runTokens {
        return false;
      }
      if settings.runCost > 0.0 && total.cost >= settings.runCost {
        return false;
      }
      log := Then(log, Admitted(key, now));
      return true;
    }

    method NoteFailure(key: string, now: int)
      requires Valid() && AskedJustBefore(log, key)
      modifies `failures, `openUntil, `log
      ensures Valid() && log == Then(old(log), Failed(key, now))
      ensures CurrentBooks() == RecordFailure(settings, old(CurrentBooks()), key, now)
    {
      log := Then(log, Failed(key, now));
      failures := failures[key := (if key in failures then failures[key] else 0) + 1];
      if failures[key] >= settings.breakerFailures {
        openUntil := openUntil[key := now + settings.breakerSeconds];
        failures := failures[key := 0];
      }
    }

    method NoteSuccess(key: string)
      requires Valid()
      modifies `failures, `openUntil, `log
      ensures Valid() && log == Then(old(log), Restored(key))
      ensures CurrentBooks() == ResetFailure(old(CurrentBooks()), key)
    {
      log := Then(log, Restored(key));
      failures := failures[key := 0];
      openUntil := openUntil - {key};
    }

    method NoteUsage(key: string, input: int, output: int, cost: real)
      requires Valid()
      modifies `usage, `log
      ensures Valid() && log == Then(old(log), Charged(key, Usage(input, output, cost)))
      ensures CurrentBooks() == RecordUsage(old(CurrentBooks()), key, Usage(input, output, cost))
    {
      log := Then(log, Charged(key, Usage(input, output, cost)));
      var u := if key in usage then usage[key] else Usage(0, 0, 0.0);
      usage := usage[key := Usage(u.input + input, u.output + output, u.cost + cost)];
    }

    /** The success path: clear the breaker, price the tokens, charge them, build the result. */
    method Settle(key: string, s: Sentiment, f: FactorReply, e: EntityReply) returns (result: RouterResult)
      requires Valid() && key in clients
      modifies `failures, `openUntil, `usage, `log
      ensures Valid()
      ensures result == Assemble(clients[key], key, RateOf(prices), s, f, e)
      ensures log == Then(Then(old(log), Restored(key)), Charged(key, Bill(result)))
    {
      NoteSuccess(key);
      var input := s.input + f.input + e.input;
      var output := s.output + f.output + e.output;
      var cost := EstimateCost(prices[key], input, output);
      NoteUsage(key, input, output, cost);
      result := RouterResult(clients[key].name, clients[key].model, s, f, e, input, output, cost);
    }

    /** The three client calls of an admitted key and their bookkeeping. */
    method Ask(key: string, a: Attempt) returns (v: Verdict)
      requires Valid() && key in clients && AskedJustBefore(log, key)
      modifies `failures, `openUntil, `usage, `log
      ensures Valid()
      ensures v == Consult(clients[key], key, RateOf(prices), a)
      ensures log == Settled(old(log), key, a.failedAt, v)
    {
      match a.sentiment {
        case FatalError(m) => return Fatal(m);
        case SoftError(m) =>
          NoteFailure(key, a.failedAt);
          return Soft(m);
        case Answer(_) =>
      }
      match a.factors {
        case FatalError(m) => return Fatal(m);
        case SoftError(m) =>
          NoteFailure(key, a.failedAt);
          return Soft(m);
        case Answer(_) =>
      }
      var entities := EntityReply([], 0, 0);
      match a.entities {
        case FatalError(m) => return Fatal(m);
        case SoftError(_) =>
        case Answer(found) => entities := found;
      }
      var result := Settle(key, a.sentiment.value, a.factors.value, entities);
      return Done(result);
    }

    /** One turn of the loop over the chain: admission, then the clients. */
    method TryOne(key: string, a: Attempt) returns (v: Verdict)
      requires Valid()
      modifies `failures, `openUntil, `usage, `log
      ensures Valid()
      ensures v == TryKey(Reg(), old(log), key, a)
      ensures log == LogAfter(Reg(), old(log), key, a)
    {
      var ok := IsAllowed(key, a.askedAt);
      if !ok || key !in clients {
        return Skip;
      }
      v := Ask(key, a);
    }

    /** The router's one operation. */
    method Enrich(text: string, world: World, order: Order) returns (outcome: Outcome)
      requires Valid()
      modifies this
      ensures Valid() && calls == old(calls) + 1
      ensures Routed(outcome, log) == RouteCall(Env(Reg(), world, order), old(log), old(calls), text)
    {
      var call := calls;
      calls := calls + 1;
      var keys := settings.fallbackChain;
      if keys == [] {
        keys := order(call);
      }
      if keys == [] {
        return Failure(NoProviders);
      }
      outcome := Walk(keys, call, text, world);
    }

    /** The loop over the chain. */
    method Walk(chain: seq<string>, call: int, text: string, world: World) returns (outcome: Outcome)
      requires Valid()
      modifies `failures, `openUntil, `usage, `log
      ensures Valid()
      ensures Routed(outcome, log) == RouteFrom(Reg(), old(log), chain, Tries(world, call, text, chain), 0, None)
    {
      var last: Option<string> := None;
      ghost var r, tries := Reg(), Tries(world, call, text, chain);
      ghost var whole := RouteFrom(r, log, chain, tries, 0, None);
      var i := 0;
      while i < |chain|
        invariant 0 <= i <= |chain| && Valid()
        invariant whole == RouteFrom(r, log, chain, tries, i, last)
      {
        var v := TryOne(chain[i], world(call, text, i, chain[i]));
        match v {
          case Skip =>
          case Soft(m) => last := Some(m);
          case Fatal(m) => return Failure(ClientSaid(m, true));
          case Done(result) => return Success(chain[i], result);
        }
        i := i + 1;
      }
      outcome := Exhausted(last);
    }
  }

  // ----- What a call does

  /** The history when position `i` is reached, all earlier positions having been passed over. */
  ghost function LogAt(r: Registry, log: History, chain: seq<string>, tries: nat -> Attempt, i: nat): History
    requires i <= |chain|
  {
    if i == 0 then log else LogAfter(r, LogAt(r, log, chain, tries, i - 1), chain[i - 1], tries(i - 1))
  }

  ghost function VerdictAt(r: Registry, log: History, chain: seq<string>, tries: nat -> Attempt, i: nat): Verdict
    requires i < |chain|
  {
    TryKey(r, LogAt(r, log, chain, tries, i), chain[i], tries(i))
  }
}
