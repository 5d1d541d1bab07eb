/**
  What a call of the router does: it settles on the first decisive position of the chain, charges
  exactly the result it returns, and stops without a mark on a fatal error.
 */
module RouterLaws {
  import opened Text
  import opened Providers
  import opened Ledger
  import opened Router

  // ----- First decisive position

  /** A client gave a result or a fatal error; anything else lets the chain go on. */
  predicate Decisive(v: Verdict) {
    v.Done? || v.Fatal?
  }

  ghost predicate FirstDecisive(r: Registry, log: History, chain: seq<string>, tries: nat -> Attempt, i: nat) {
    && i < |chain|
    && Decisive(VerdictAt(r, log, chain, tries, i))
    && forall j: nat :: j < i ==> !Decisive(VerdictAt(r, log, chain, tries, j))
  }

  ghost predicate NoneDecisive(r: Registry, log: History, chain: seq<string>, tries: nat -> Attempt, n: nat) {
    && n <= |chain|
    && forall j: nat :: j < n ==> !Decisive(VerdictAt(r, log, chain, tries, j))
  }

  /** The message of the last soft error before position `i`. */
  ghost function LastSoft(r: Registry, log: History, chain: seq<string>, tries: nat -> Attempt, i: nat): Option<string>
    requires i <= |chain|
  {
    if i == 0 then None
    else
      var v := VerdictAt(r, log, chain, tries, i - 1);
      if v.Soft? then Some(v.message) else LastSoft(r, log, chain, tries, i - 1)
  }

  lemma {:induction false} RoutePassesOver(r: Registry, log: History, chain: seq<string>, tries: nat -> Attempt, i: nat)
    requires NoneDecisive(r, log, chain, tries, i)
    ensures RouteFrom(r, log, chain, tries, 0, None)
            == RouteFrom(r, LogAt(r, log, chain, tries, i), chain, tries, i, LastSoft(r, log, chain, tries, i))
  {
    if i > 0 {
      RoutePassesOver(r, log, chain, tries, i - 1);
      assert !Decisive(VerdictAt(r, log, chain, tries, i - 1));
    }
  }

  /**
    The call is decided by the first position, in chain order, whose client gives a result or a fatal
    error: a result is returned with its key, a fatal error is returned at once.
   */
  lemma RouteTakesFirstDecisive(r: Registry, log: History, chain: seq<string>, tries: nat -> Attempt, i: nat)
    requires FirstDecisive(r, log, chain, tries, i)
    ensures var v, routed := VerdictAt(r, log, chain, tries, i), Route(r, log, chain, tries);
            && routed.log == LogAfter(r, LogAt(r, log, chain, tries, i), chain[i], tries(i))
            && (v.Done? ==> routed.outcome == Success(chain[i], v.result))
            && (v.Fatal? ==> routed.outcome == Failure(ClientSaid(v.message, true)))
  {
    RoutePassesOver(r, log, chain, tries, i);
  }

  /** A call fails for want of providers exactly when no position is decisive. */
  lemma RouteExhausted(r: Registry, log: History, chain: seq<string>, tries: nat -> Attempt)
    requires chain != []
    ensures NoneDecisive(r, log, chain, tries, |chain|) <==>
              var o := Route(r, log, chain, tries).outcome;
              o.Failure? && (o.error == Unavailable || (o.error.ClientSaid? && !o.error.fatal))
    ensures NoneDecisive(r, log, chain, tries, |chain|) ==>
              Route(r, log, chain, tries) == Routed(Exhausted(LastSoft(r, log, chain, tries, |chain|)),
                                                    LogAt(r, log, chain, tries, |chain|))
  {
    if NoneDecisive(r, log, chain, tries, |chain|) {
      RoutePassesOver(r, log, chain, tries, |chain|);
    } else {
      var i := LeastDecisive(r, log, chain, tries, |chain|);
      RouteTakesFirstDecisive(r, log, chain, tries, i);
    }
  }

  lemma {:induction false} LeastDecisive(r: Registry, log: History, chain: seq<string>, tries: nat -> Attempt, n: nat)
    returns (i: nat)
    requires n <= |chain| && !NoneDecisive(r, log, chain, tries, n)
    ensures i < n && FirstDecisive(r, log, chain, tries, i)
  {
    if NoneDecisive(r, log, chain, tries, n - 1) {
      i := n - 1;
    } else {
      i := LeastDecisive(r, log, chain, tries, n - 1);
    }
  }

  // ----- What a success and a fatal error are

  /** The first call of the three to fail did so softly, and it was not the third. */
  predicate SoftReply(a: Attempt) {
    a.sentiment.SoftError? || (a.sentiment.Answer? && a.factors.SoftError?)
  }

  /** The first call of the three to fail, but for a soft error of the third, did so fatally. */
  predicate FatalReply(a: Attempt) {
    || a.sentiment.FatalError?
    || (a.sentiment.Answer? && a.factors.FatalError?)
    || (a.sentiment.Answer? && a.factors.Answer? && a.entities.FatalError?)
  }

  /** What that call said. */
  function ErrorText(a: Attempt): string
    requires SoftReply(a) || FatalReply(a)
  {
    if a.sentiment.SoftError? || a.sentiment.FatalError? then a.sentiment.message
    else if a.factors.SoftError? || a.factors.FatalError? then a.factors.message
    else a.entities.message
  }

  /** The key is admitted and has a client. */
  ghost predicate Consulted(r: Registry, log: History, key: string, a: Attempt) {
    Allowed(r.settings, Replay(r.settings, log), key, a.askedAt) && key in r.clients
  }

  /** The key may be tried, is known, and its clients answered: only the third may have failed, and not fatally. */
  ghost predicate Eligible(r: Registry, log: History, key: string, a: Attempt) {
    && Consulted(r, log, key, a)
    && a.sentiment.Answer? && a.factors.Answer? && !a.entities.FatalError?
  }

  /** The key may be tried, is known, and the first of its clients to fail decisively did so fatally. */
  ghost predicate Poisoned(r: Registry, log: History, key: string, a: Attempt) {
    Consulted(r, log, key, a) && FatalReply(a)
  }

  /** A try succeeds, fails fatally or fails softly as its replies say, with the words of the call that failed. */
  lemma VerdictMeaning(r: Registry, log: History, key: string, a: Attempt)
    ensures TryKey(r, log, key, a).Done? <==> Eligible(r, log, key, a)
    ensures TryKey(r, log, key, a).Fatal? <==> Poisoned(r, log, key, a)
    ensures TryKey(r, log, key, a).Soft? <==> Consulted(r, log, key, a) && SoftReply(a)
    ensures Poisoned(r, log, key, a) ==> TryKey(r, log, key, a).message == ErrorText(a)
    ensures Consulted(r, log, key, a) && SoftReply(a) ==> TryKey(r, log, key, a).message == ErrorText(a)
  {}

  /** The result is what the clients of `key` answered, its tokens their sum, its cost the price of those tokens. */
  predicate Reports(result: RouterResult, r: Registry, key: string, a: Attempt) {
    && key in r.clients && result.provider == r.clients[key].name && result.model == r.clients[key].model
    && a.sentiment == Answer(result.sentiment) && a.factors == Answer(result.factors)
    && (a.entities.Answer? ==> a.entities.value == result.entities)
    && (!a.entities.Answer? ==> result.entities == EntityReply([], 0, 0))
    && result.input == result.sentiment.input + result.factors.input + result.entities.input
    && result.output == result.sentiment.output + result.factors.output + result.entities.output
    && result.cost == r.rate(key, result.input, result.output)
  }

  /**
    A success comes from the first eligible position, none before it being eligible or poisoned, and
    reports what the clients of that key answered.
   */
  lemma SuccessReports(r: Registry, log: History, chain: seq<string>, tries: nat -> Attempt) returns (i: nat)
    requires Route(r, log, chain, tries).outcome.Success?
    ensures i < |chain| && Eligible(r, LogAt(r, log, chain, tries, i), chain[i], tries(i))
    ensures forall j: nat :: j < i ==>
              !Eligible(r, LogAt(r, log, chain, tries, j), chain[j], tries(j))
              && !Poisoned(r, LogAt(r, log, chain, tries, j), chain[j], tries(j))
    ensures var o := Route(r, log, chain, tries).outcome;
            o.key == chain[i] && Reports(o.result, r, chain[i], tries(i))
  {
    RouteExhausted(r, log, chain, tries);
    i := LeastDecisive(r, log, chain, tries, |chain|);
    RouteTakesFirstDecisive(r, log, chain, tries, i);
    VerdictMeaning(r, LogAt(r, log, chain, tries, i), chain[i], tries(i));
    DoneReports(r, LogAt(r, log, chain, tries, i), chain[i], tries(i));
    forall j: nat | j < i
      ensures !Eligible(r, LogAt(r, log, chain, tries, j), chain[j], tries(j))
              && !Poisoned(r, LogAt(r, log, chain, tries, j), chain[j], tries(j))
    {
      VerdictMeaning(r, LogAt(r, log, chain, tries, j), chain[j], tries(j));
      assert !Decisive(VerdictAt(r, log, chain, tries, j));
    }
  }

  lemma DoneReports(r: Registry, log: History, key: string, a: Attempt)
    requires TryKey(r, log, key, a).Done?
    ensures Reports(TryKey(r, log, key, a).result, r, key, a)
  {}

  // ----- Prices and clients

  /** A thousand tokens cost their own price, and costs add up. */
  lemma PriceMeaning(p: Provider, input: int, output: int, input': int, output': int)
    ensures EstimateCost(p, 1000, 0) == p.priceIn && EstimateCost(p, 0, 1000) == p.priceOut
    ensures EstimateCost(p, input + input', output + output') == EstimateCost(p, input, output) + EstimateCost(p, input', output')
  {
    ThousandthsAdd(input, input', p.priceIn);
    ThousandthsAdd(output, output', p.priceOut);
  }

  lemma ThousandthsAdd(a: int, b: int, price: real)
    ensures ((a + b) as real / 1000.0) * price == (a as real / 1000.0) * price + (b as real / 1000.0) * price
  {
    assert (a + b) as real / 1000.0 == a as real / 1000.0 + b as real / 1000.0;
  }

  /** A key is charged at its own provider's prices. */
  lemma RateMeaning(prices: map<string, Provider>, key: string, input: int, output: int)
    ensures RateOf(prices)(key, input, output) == if key in prices then EstimateCost(prices[key], input, output) else 0.0
  {}

  /** Provider `i` is the last enabled one with this name and model. */
  predicate LastEnabled(ps: seq<Provider>, i: nat, key: string) {
    && i < |ps| && ps[i].enabled && ps[i].name + ":" + ps[i].model == key
    && forall j :: i < j < |ps| && ps[j].enabled ==> ps[j].name + ":" + ps[j].model != key
  }

  /** A key is priced exactly if some enabled provider has it, by the last one that does. */
  lemma {:induction false} PricedIff(ps: seq<Provider>, key: string)
    ensures key in PriceMap(ps) <==> exists i: nat :: LastEnabled(ps, i, key)
    ensures forall i: nat :: LastEnabled(ps, i, key) ==> PriceMap(ps)[key] == ps[i]
  {
    if ps != [] {
      var n := |ps| - 1;
      var front := ps[..n];
      PricedIff(front, key);
      LastEnabledFront(ps, key);
      if ps[n].enabled && ProviderKey(ps[n]) == key { assert LastEnabled(ps, n, key); }
      if i: nat :| LastEnabled(front, i, key) { assert LastEnabled(ps, i, key) <==> !(ps[n].enabled && ProviderKey(ps[n]) == key); }
    }
  }

  lemma LastEnabledFront(ps: seq<Provider>, key: string)
    requires ps != []
    ensures var n := |ps| - 1;
            forall i: nat :: i < n ==> (LastEnabled(ps, i, key) <==> LastEnabled(ps[..n], i, key) && !(ps[n].enabled && ProviderKey(ps[n]) == key))
  {
    var n := |ps| - 1;
    assert forall j :: 0 <= j < n ==> ps[..n][j] == ps[j];
  }

  /** A client goes by its provider's name and model; only mimo takes its model from the environment, where one is set. */
  lemma ClientMeaning(p: Provider, mimoModel: string)
    ensures BuildClient(p, mimoModel).name == p.name
    ensures p.name != "mimo" || Blank(mimoModel) ==> BuildClient(p, mimoModel).model == p.model
    ensures p.name == "mimo" && !Blank(mimoModel) ==> BuildClient(p, mimoModel).model == Trim(mimoModel)
  {}

  // ----- Positions do not interfere

  ghost predicate SameForKey(b: Books, b': Books, key: string) {
    b.usage == b'.usage && (key in b.openUntil <==> key in b'.openUntil)
    && (key in b.openUntil ==> b.openUntil[key] == b'.openUntil[key])
  }

  lemma SoftStepKeepsOthers(r: Registry, log: History, key: string, a: Attempt, other: string)
    requires !Decisive(TryKey(r, log, key, a)) && other != key
    ensures SameForKey(Replay(r.settings, log), Replay(r.settings, LogAfter(r, log, key, a)), other)
  {
  }

  lemma {:induction false} PassingOverKeepsOthers(r: Registry, log: History, chain: seq<string>,
                                                  tries: nat -> Attempt, i: nat, other: string)
    requires NoneDecisive(r, log, chain, tries, i) && other !in chain[..i]
    ensures SameForKey(Replay(r.settings, log), Replay(r.settings, LogAt(r, log, chain, tries, i)), other)
  {
    if i > 0 {
      PassingOverKeepsOthers(r, log, chain, tries, i - 1, other);
      assert chain[i - 1] in chain[..i] && !Decisive(VerdictAt(r, log, chain, tries, i - 1));
      SoftStepKeepsOthers(r, LogAt(r, log, chain, tries, i - 1), chain[i - 1], tries(i - 1), other);
    }
  }

  /**
    A key that did not already stand earlier in the chain is judged as if it had been tried first:
    failures of other providers in the same call change neither its breaker nor any budget.
   */
  lemma VerdictIgnoresEarlierKeys(r: Registry, log: History, chain: seq<string>, tries: nat -> Attempt, i: nat)
    requires i < |chain| && NoneDecisive(r, log, chain, tries, i) && chain[i] !in chain[..i]
    ensures VerdictAt(r, log, chain, tries, i) == TryKey(r, log, chain[i], tries(i))
  {
    PassingOverKeepsOthers(r, log, chain, tries, i, chain[i]);
  }

  /** For a chain without repeats the winner is read off the state the call started in. */
  lemma FirstEligibleWins(r: Registry, log: History, chain: seq<string>, tries: nat -> Attempt, i: nat)
    requires forall j, k :: 0 <= j < k < |chain| ==> chain[j] != chain[k]
    requires i < |chain| && TryKey(r, log, chain[i], tries(i)).Done?
    requires forall j: nat :: j < i ==> !Decisive(TryKey(r, log, chain[j], tries(j)))
    ensures Route(r, log, chain, tries).outcome == Success(chain[i], TryKey(r, log, chain[i], tries(i)).result)
  {
    NothingBefore(r, log, chain, tries, i);
    VerdictIgnoresEarlierKeys(r, log, chain, tries, i);
    RouteTakesFirstDecisive(r, log, chain, tries, i);
  }

  lemma {:induction false} NothingBefore(r: Registry, log: History, chain: seq<string>, tries: nat -> Attempt, i: nat)
    requires forall j, k :: 0 <= j < k < |chain| ==> chain[j] != chain[k]
    requires i <= |chain| && forall j: nat :: j < i ==> !Decisive(TryKey(r, log, chain[j], tries(j)))
    ensures NoneDecisive(r, log, chain, tries, i)
  {
    if i > 0 {
      var k := i - 1;
      NothingBefore(r, log, chain, tries, k);
      assert chain[k] !in chain[..k];
      VerdictIgnoresEarlierKeys(r, log, chain, tries, k);
      assert !Decisive(TryKey(r, log, chain[k], tries(k)));
      assert !Decisive(VerdictAt(r, log, chain, tries, k));
    }
  }

  // ----- The ledger

  lemma KeyCharges(r: Registry, log: History, key: string, a: Attempt)
    ensures var v, log' := TryKey(r, log, key, a), LogAfter(r, log, key, a);
            && (v.Done? ==> Adds(SpentIn(log), Bill(v.result), SpentIn(log')))
            && (!v.Done? ==> SpentIn(log') == SpentIn(log))
  {
    var asked, v := Then(log, Admitted(key, a.askedAt)), TryKey(r, log, key, a);
    assert SpentIn(asked) == SpentIn(log);
    assert SpentIn(Then(asked, Restored(key))) == SpentIn(log);
  }

  lemma RouteStep(r: Registry, log: History, chain: seq<string>, tries: nat -> Attempt, i: nat,
                                     last: Option<string>)
    requires i < |chain|
    ensures var v, log' := TryKey(r, log, chain[i], tries(i)), LogAfter(r, log, chain[i], tries(i));
            var routed := RouteFrom(r, log, chain, tries, i, last);
            && (v.Done? ==> routed == Routed(Success(chain[i], v.result), log'))
            && (v.Fatal? ==> routed == Routed(Failure(ClientSaid(v.message, true)), log'))
            && (!Decisive(v) ==>
                  routed == RouteFrom(r, log', chain, tries, i + 1, if v.Soft? then Some(v.message) else last))
  {}

  lemma {:induction false} RouteFromCharges(r: Registry, log: History, chain: seq<string>, tries: nat -> Attempt,
                                            i: nat, last: Option<string>)
    ensures var routed := RouteFrom(r, log, chain, tries, i, last);
            && (routed.outcome.Success? ==> Adds(SpentIn(log), Bill(routed.outcome.result), SpentIn(routed.log)))
            && (routed.outcome.Failure? ==> SpentIn(routed.log) == SpentIn(log))
    decreases |chain| - i
  {
    if i < |chain| {
      KeyCharges(r, log, chain[i], tries(i));
      RouteStep(r, log, chain, tries, i, last);
      var v, log' := TryKey(r, log, chain[i], tries(i)), LogAfter(r, log, chain[i], tries(i));
      if !Decisive(v) {
        RouteFromCharges(r, log', chain, tries, i + 1, if v.Soft? then Some(v.message) else last);
      }
    }
  }

  /** Exactly what a call returns is added to the usage map; a failed call costs nothing. */
  lemma RouteCharges(r: Registry, log: History, chain: seq<string>, tries: nat -> Attempt)
    ensures var routed := Route(r, log, chain, tries);
            var before, after := Sum(Replay(r.settings, log).usage), Sum(Replay(r.settings, routed.log).usage);
            && before == SpentIn(log) && after == SpentIn(routed.log)
            && (routed.outcome.Success? ==> Adds(before, Bill(routed.outcome.result), after))
            && (routed.outcome.Failure? ==> after == before)
  {
    if chain != [] { RouteFromCharges(r, log, chain, tries, 0, None); }
    LedgerIsSumOfCharges(r.settings, log);
    LedgerIsSumOfCharges(r.settings, Route(r, log, chain, tries).log);
  }

  /** After a success the winner's breaker is fully restored. */
  lemma SuccessRestoresKey(r: Registry, log: History, chain: seq<string>, tries: nat -> Attempt)
    requires Route(r, log, chain, tries).outcome.Success?
    ensures var routed := Route(r, log, chain, tries);
            var b := Replay(r.settings, routed.log);
            FailuresOf(b, routed.outcome.key) == 0 && routed.outcome.key !in b.openUntil
  {
    RouteExhausted(r, log, chain, tries);
    var i := LeastDecisive(r, log, chain, tries, |chain|);
    RouteTakesFirstDecisive(r, log, chain, tries, i);
  }

  /**
    A fatal error stops the call where it happened: that key is neither charged nor marked, its only
    trace is the admission.
   */
  lemma FatalLeavesNoMark(r: Registry, log: History, chain: seq<string>, tries: nat -> Attempt, i: nat)
    requires FirstDecisive(r, log, chain, tries, i) && VerdictAt(r, log, chain, tries, i).Fatal?
    ensures var before := LogAt(r, log, chain, tries, i);
            && Route(r, log, chain, tries).log == Then(before, Admitted(chain[i], tries(i).askedAt))
            && Replay(r.settings, Then(before, Admitted(chain[i], tries(i).askedAt))) == Replay(r.settings, before)
  {
    RouteTakesFirstDecisive(r, log, chain, tries, i);
    assert Allowed(r.settings, Replay(r.settings, LogAt(r, log, chain, tries, i)), chain[i], tries(i).askedAt);
  }
}
