/**
  What the provider router is configured with and what it can observe of the outside world
  (internal/enrich/providers, internal/config/types.go). Clients, the clock and the environment are
  parameters: an `Attempt` is everything they answer while one position of the fallback chain is tried.
 */
module Providers {
  import opened Text

  datatype Provider = Provider(name: string, model: string, enabled: bool, priceIn: real, priceOut: real)

  datatype Settings = Settings(
    providers: seq<Provider>,
    fallbackChain: seq<string>,
    breakerFailures: int,
    breakerSeconds: int,
    runTokens: int,
    providerTokens: int,
    runCost: real,
    providerCost: real)

  datatype Client = Client(name: string, model: string)

  datatype Sentiment = Sentiment(labelText: string, score: real, input: int, output: int)

  datatype FactorTag = FactorTag(
    factorID: string, name: string, category: string, score: real, matchedBy: string, llmRefined: bool)

  datatype FactorReply = FactorReply(tags: seq<FactorTag>, input: int, output: int)

  datatype EntityMatch = EntityMatch(entityID: string, symbol: string, name: string, confidence: real, how: string)

  datatype EntityReply = EntityReply(matches: seq<EntityMatch>, input: int, output: int)

  datatype Reply<+T> = Answer(value: T) | SoftError(message: string) | FatalError(message: string)

  datatype Attempt = Attempt(
    askedAt: int,
    failedAt: int,
    sentiment: Reply<Sentiment>,
    factors: Reply<FactorReply>,
    entities: Reply<EntityReply>)

  /** Clients report token counts that are not negative. */
  predicate Honest(a: Attempt) {
    && (a.sentiment.Answer? ==> a.sentiment.value.input >= 0 && a.sentiment.value.output >= 0)
    && (a.factors.Answer? ==> a.factors.value.input >= 0 && a.factors.value.output >= 0)
    && (a.entities.Answer? ==> a.entities.value.input >= 0 && a.entities.value.output >= 0)
  }

  /** Answers of clients and clock, by number of the router call, request text, chain position and key. */
  type World = (int, string, nat, string) -> Attempt

  /** In which order a `range` over the client map would yield its keys, by number of the router call. */
  type Order = int -> seq<string>

  function ProviderKey(p: Provider): string {
    p.name + ":" + p.model
  }

  /** `mimo` may take its model from the environment; every other client reports its configuration. */
  function BuildClient(p: Provider, mimoModel: string): Client {
    if p.name == "mimo" && !Blank(mimoModel) then Client(p.name, Trim(mimoModel))
    else Client(p.name, p.model)
  }

  function EstimateCost(p: Provider, input: int, output: int): real {
    (input as real / 1000.0) * p.priceIn + (output as real / 1000.0) * p.priceOut
  }

  /** The enabled providers by key; a later entry replaces an earlier one. */
  function PriceMap(ps: seq<Provider>): map<string, Provider> {
    if ps == [] then map[]
    else
      var m, p := PriceMap(ps[..|ps| - 1]), ps[|ps| - 1];
      if p.enabled then m[ProviderKey(p) := p] else m
  }
}
