/**
  Without a fallback chain the router tries its clients in the order a range over the map yields them
  (internal/enrich/router.go): when that order shows, and when it cannot.
 */
module OrderLaws {
  import opened Text
  import opened Providers
  import opened Ledger
  import opened Router
  import opened RouterLaws
  import opened Exactness

  /** The keys of the set, each once, in some order. */
  ghost predicate Lists(keys: seq<string>, s: set<string>) {
    && (forall k :: k in keys <==> k in s)
    && (forall i, j :: 0 <= i < j < |keys| ==> keys[i] != keys[j])
  }

  /** Ranging over the client map yields every client once. */
  ghost predicate RangesOnce(r: Registry, order: Order) {
    forall call :: Lists(order(call), r.clients.Keys)
  }

  /** What a client answers does not depend on when in a call it is asked. */
  ghost predicate AnswersByKey(world: World) {
    forall call, text, i, j, key :: world(call, text, i, key) == world(call, text, j, key)
  }

  /** No two runs of a call after `log` that differ in the order of ranging only come out differently. */
  ghost predicate OrderHidden(r: Registry, log: History) {
    forall world, a: Order, b: Order, call, text :: AnswersByKey(world) && RangesOnce(r, a) && RangesOnce(r, b) ==>
      RouteCall(Env(r, world, a), log, call, text) == RouteCall(Env(r, world, b), log, call, text)
  }

  /** A client with room in every budget. */
  ghost predicate Rich(r: Registry, log: History, key: string) {
    key in r.clients && WithinBudget(r.settings, Replay(r.settings, log).usage, key)
  }

  ghost predicate TwoRich(r: Registry, log: History) {
    exists x, y :: x != y && Rich(r, log, x) && Rich(r, log, y)
  }

  predicate TwoClients(r: Registry) {
    exists x, y :: x in r.clients && y in r.clients && x != y
  }

  // ----- One client at most

  lemma ListsFacts(keys: seq<string>, s: set<string>)
    requires Lists(keys, s)
    ensures keys == [] <==> s == {}
    ensures forall i :: 0 <= i < |keys| ==> keys[i] in s
  {
    assert forall i :: 0 <= i < |keys| ==> keys[i] in keys;
    assert keys != [] ==> keys[0] in s;
    if k :| k in s { assert k in keys; }
  }

  lemma ManyMeansTwo(r: Registry, keys: seq<string>)
    requires Lists(keys, r.clients.Keys) && |keys| > 1
    ensures TwoClients(r)
  {
    ListsFacts(keys, r.clients.Keys);
    assert keys[0] != keys[1];
  }

  /** Of a single client there is only one listing. */
  lemma SameListing(r: Registry, a: seq<string>, b: seq<string>)
    requires !TwoClients(r) && Lists(a, r.clients.Keys) && Lists(b, r.clients.Keys)
    ensures a == b
  {
    ListsFacts(a, r.clients.Keys);
    ListsFacts(b, r.clients.Keys);
    if |a| > 1 { ManyMeansTwo(r, a); }
    if |b| > 1 { ManyMeansTwo(r, b); }
  }

  // ----- One client with room at most

  lemma {:induction false} PoorPassedOver(r: Registry, log: History, chain: seq<string>, tries: nat -> Attempt, i: nat, last: Option<string>)
    requires i <= |chain| && forall j :: i <= j < |chain| ==> !Rich(r, log, chain[j]) && chain[j] in r.clients
    ensures RouteFrom(r, log, chain, tries, i, last) == Routed(Exhausted(last), log)
    decreases |chain| - i
  {
    if i < |chain| {
      RouteStep(r, log, chain, tries, i, last);
      assert TryKey(r, log, chain[i], tries(i)).Skip? && LogAfter(r, log, chain[i], tries(i)) == log;
      PoorPassedOver(r, log, chain, tries, i + 1, last);
    }
  }

  /** How a call comes out that only has `key` to try. */
  ghost function Alone(r: Registry, log: History, key: string, a: Attempt, last: Option<string>): Routed {
    var log' := LogAfter(r, log, key, a);
    match TryKey(r, log, key, a)
    case Done(result) => Routed(Success(key, result), log')
    case Fatal(m) => Routed(Failure(ClientSaid(m, true)), log')
    case Soft(m) => Routed(Exhausted(Some(m)), log')
    case Skip => Routed(Exhausted(last), log')
  }

  lemma SameUsageAfter(r: Registry, log: History, key: string, a: Attempt)
    requires !TryKey(r, log, key, a).Done?
    ensures SameUsage(r, log, LogAfter(r, log, key, a))
  {}

  lemma {:induction false} OnlyRichTried(r: Registry, log: History, chain: seq<string>, tries: nat -> Attempt, i: nat, m: nat, last: Option<string>)
    requires i <= m < |chain| && forall j :: i <= j < |chain| ==> chain[j] in r.clients
    requires forall j :: i <= j < |chain| && j != m ==> !Rich(r, log, chain[j])
    ensures RouteFrom(r, log, chain, tries, i, last) == Alone(r, log, chain[m], tries(m), last)
    decreases m - i
  {
    RouteStep(r, log, chain, tries, i, last);
    var v, log' := TryKey(r, log, chain[i], tries(i)), LogAfter(r, log, chain[i], tries(i));
    if i < m {
      assert v.Skip? && log' == log;
      OnlyRichTried(r, log, chain, tries, i + 1, m, last);
    } else if !Decisive(v) {
      SameUsageAfter(r, log, chain[i], tries(i));
      PoorPassedOver(r, log', chain, tries, i + 1, if v.Soft? then Some(v.message) else last);
    }
  }

  lemma PlaceOf(keys: seq<string>, s: set<string>, key: string) returns (m: nat)
    requires Lists(keys, s) && key in s
    ensures m < |keys| && keys[m] == key && forall j :: 0 <= j < |keys| && j != m ==> keys[j] != key
  {
    assert key in keys;
    m :| m < |keys| && keys[m] == key;
  }

  /** With one key in question at most, the call comes out the same for every listing. */
  lemma RouteOfListing(r: Registry, log: History, chain: seq<string>, world: World, call: int, text: string, key: string)
    requires Lists(chain, r.clients.Keys) && AnswersByKey(world) && chain != []
    requires forall k :: Rich(r, log, k) ==> k == key
    ensures Route(r, log, chain, Tries(world, call, text, chain))
            == if key in r.clients then Alone(r, log, key, world(call, text, 0, key), None) else Routed(Exhausted(None), log)
  {
    var tries := Tries(world, call, text, chain);
    assert forall j :: 0 <= j < |chain| ==> chain[j] in chain;
    if key in r.clients {
      var m := PlaceOf(chain, r.clients.Keys, key);
      OnlyRichTried(r, log, chain, tries, 0, m, None);
      assert tries(m) == world(call, text, m, key) == world(call, text, 0, key);
    } else {
      PoorPassedOver(r, log, chain, tries, 0, None);
    }
  }

  lemma HiddenIfOneRich(r: Registry, log: History, world: World, a: Order, b: Order, call: int, text: string)
    requires r.settings.fallbackChain == [] && !TwoRich(r, log)
    requires AnswersByKey(world) && RangesOnce(r, a) && RangesOnce(r, b)
    ensures RouteCall(Env(r, world, a), log, call, text) == RouteCall(Env(r, world, b), log, call, text)
  {
    var ka, kb := a(call), b(call);
    assert Lists(ka, r.clients.Keys) && Lists(kb, r.clients.Keys);
    ListsFacts(ka, r.clients.Keys);
    ListsFacts(kb, r.clients.Keys);
    if ka != [] && kb != [] {
      var key := ka[0];
      if k :| Rich(r, log, k) { key := k; }
      forall k | Rich(r, log, k) ensures k == key {}
      RouteOfListing(r, log, ka, world, call, text, key);
      RouteOfListing(r, log, kb, world, call, text, key);
    }
  }

  // ----- Two clients with room

  lemma ListAll(s: set<string>) returns (keys: seq<string>)
    ensures Lists(keys, s)
    decreases s
  {
    if s == {} {
      keys := [];
    } else {
      var k :| k in s;
      var rest := ListAll(s - {k});
      keys := [k] + rest;
      assert forall i :: 0 <= i < |rest| ==> rest[i] in rest;
    }
  }

  lemma ListFrom(s: set<string>, first: string) returns (keys: seq<string>)
    requires first in s
    ensures Lists(keys, s) && keys != [] && keys[0] == first
  {
    var rest := ListAll(s - {first});
    keys := [first] + rest;
    assert forall i :: 0 <= i < |rest| ==> rest[i] in rest;
  }

  lemma FirstRichWins(r: Registry, log: History, chain: seq<string>, tries: nat -> Attempt, t: int)
    requires chain != [] && Rich(r, log, chain[0]) && tries(0) == Bargain(t)
    requires forall key :: BreakerClosed(Replay(r.settings, log), key, t)
    ensures var o := Route(r, log, chain, tries).outcome; o.Success? && o.key == chain[0]
  {
    RouteStep(r, log, chain, tries, 0, None);
    assert TryKey(r, log, chain[0], tries(0)).Done?;
  }

  lemma ShowsIfTwoRich(r: Registry, log: History)
    requires r.settings.fallbackChain == [] && TwoRich(r, log)
    ensures !OrderHidden(r, log)
  {
    var x, y :| x != y && Rich(r, log, x) && Rich(r, log, y);
    var t := Latest(Replay(r.settings, log).openUntil);
    var world: World := (call: int, text: string, i: nat, key: string) => Bargain(t);
    var ka := ListFrom(r.clients.Keys, x);
    var kb := ListFrom(r.clients.Keys, y);
    var a: Order, b: Order := (call: int) => ka, (call: int) => kb;
    FirstRichWins(r, log, ka, Tries(world, 0, "", ka), t);
    FirstRichWins(r, log, kb, Tries(world, 0, "", kb), t);
    assert AnswersByKey(world) && RangesOnce(r, a) && RangesOnce(r, b);
    assert RouteCall(Env(r, world, a), log, 0, "") != RouteCall(Env(r, world, b), log, 0, "");
  }

  /**
    The order of ranging over the clients cannot show in a call exactly when a fallback chain is
    configured or at most one client has room in its budgets.
   */
  lemma OrderHiddenIff(r: Registry, log: History)
    ensures OrderHidden(r, log) <==> r.settings.fallbackChain != [] || !TwoRich(r, log)
  {
    if r.settings.fallbackChain == [] {
      if TwoRich(r, log) {
        ShowsIfTwoRich(r, log);
      } else {
        forall world, a: Order, b: Order, call, text | AnswersByKey(world) && RangesOnce(r, a) && RangesOnce(r, b)
          ensures RouteCall(Env(r, world, a), log, call, text) == RouteCall(Env(r, world, b), log, call, text)
        {
          HiddenIfOneRich(r, log, world, a, b, call, text);
        }
      }
    }
  }

  lemma FreshIsRich(r: Registry, key: string)
    ensures Rich(r, Start, key) <==> key in r.clients
  {}

  /** For a router that has not been used: exactly when a chain is configured or there is at most one client. */
  lemma FreshOrderHiddenIff(r: Registry)
    ensures OrderHidden(r, Start) <==> r.settings.fallbackChain != [] || !TwoClients(r)
  {
    OrderHiddenIff(r, Start);
    forall key ensures Rich(r, Start, key) <==> key in r.clients {
      FreshIsRich(r, key);
    }
  }
}
