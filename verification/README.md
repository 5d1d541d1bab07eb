# News impact engine: a verified model

This project models the deterministic core of the news impact engine in Dafny and proves properties of
it. The engine ingests articles, scores them against a universe of NSE entities, enriches the ambiguous
ones through a chain of LLM providers, writes feature rows (one per parent/child pair in impact mode) and
evaluates models on walk-forward folds over those rows.

Verify with `dafny verify dfyconfig.toml`.

## How it is modelled

- **Router** (`Providers`, `Ledger`, `Breaker`, `Router`, `RouterLaws`, `CallSteps`, `OrderLaws`). `ProviderRouter` is a class with
  the source's three maps and a ghost log of the critical sections entered so far; its invariant is that
  the maps are the replay of the log. Clients and the clock are a parameter, `World`: what they answer to
  call number n, for a text, at a chain position, for a key. The order in which a range over the client map
  yields its keys is a parameter too, `Order`; it only matters without a fallback chain.
- **Concurrent callers** (`Concurrency`, `Tightness`, `RateLimit`). The same critical sections as a step
  relation over k callers that interleave at every lock boundary.
- **Matching and scoring** (`Text`, `Matcher`, `Relevance`, `RelevanceLaws`). Both term matchers are written as the source
  runs them (padded substring search; a regular expression with boundary classes) and related to token
  sublists and to each other.
- **Universe** (`Entities`, `EntityMap`, `Aliases`, `Bhavcopy`, `SyncLaws`, `SyncFields`, `Config`, `Reload`): sync
  from a bhavcopy, effective entities, group validation, and what a sync does to the configuration it reloads.
- **Runs** (`Selection`, `Requests`, `SelectionLaws`, `Tags`, `Enricher`, `EnrichLaws`, `Pairs`, `PairLaws`,
  `ImpactRows`, `ImpactLaws`, `RowFields`, `Dedupe`, `Service`, `ServiceLaws`, `Exactness`, `OrdinaryLaws`,
  `UnmatchedLaws`, `EventLaws`, `Engine`, `RunLaws`, `RowLaws`). `Engine.Run` is the operation; its result is a function
  of the inputs, the answers and the router's history, on which the laws of whole runs are proved.
- **Evaluation** (`Session`, `WalkForward`, `DatasetLaws`): NSE sessions, label windows and purged folds.
- **Instances** (`Witnesses`, `Misreports`) of the results below that need whole configurations.

Conventions: token counts are integers, costs, scores and weights are reals, text is ASCII, instants are
nanoseconds with Indian Standard Time at a fixed offset, calendar days are day numbers. Go map iteration
takes the keys in an arbitrary order (`Sorting.NextKey`), and results are proved independent of it; the one
exception is the order in which providers are tried when no fallback chain is configured and more than one
client has room in its budgets (`OrderLaws.OrderHiddenIff`).

## What the proofs found

- **A sync can break the configuration it reloads.** An equity row rebuilds its entity without a role, so
  one EQ row for a group member that the custom file does not disable (a parent that only the default file
  lists, say) makes the reload fail group validation. `Reload.ReloadAfterSyncIff` gives the exact
  condition, `SyncLaws.SyncKeepsRoleIff` its cause and `Witnesses.SyncBreaksReload` an instance. The
  project's own documentation only promises that aliases are preserved, which they are
  (`SyncLaws.SyncKeepsEntity`).
- **Ordinary mode reports usage once per row.** `OrdinaryLaws.OrdinaryExactIff`: tokens and cost are exact
  whatever the clients answer exactly when no article that is relevant enough and in the ambiguous band
  matches two or more entities, or no provider that would be tried has a client and room in its budgets.
  `Misreports.OrdinaryOvercounts` is an instance where they are not.
- **Impact mode leaves usage unreported.** It conserves tokens and cost (`ServiceLaws.RunConserves`), but an
  event that matched no parent has no row to carry its own. `UnmatchedLaws.ImpactExactIff`: the report is
  exact whatever the clients answer exactly when every article the router is asked about matches a parent,
  or no provider that would be tried has a client and room in its budgets. `Misreports.ImpactFallsShort` is
  an instance where it is not.
- **An embargo of zero leaks.** `WalkForward.NeverLeaksIff`: labels stay out of every test window exactly
  when the embargo is at least one date; whatever the embargo, a fold leaks exactly when its test window
  starts no later than the day right after its training range (`WalkForward.LeaksIffAdjacent`).
- **The breaker's rate limit needs a single caller.** `RateLimit.RateLimitIff`: it holds of every run of k
  callers exactly when k is at most one, the waiting time is not positive, or no key of the chain has a
  client. Otherwise two callers can fail once more than the threshold at one instant.
- **The concurrent overshoot of a budget is tight.** `Tightness.ConcurrentBudgetTight` reaches the bound of
  `Concurrency.ConcurrentBudgetBound` for any number of callers, for the run budget and for a key's own.
  Budgets in cost obey the same kind of bound (`Concurrency.ConcurrentCostBound`).
- **The order of a map can decide which provider answers.** `OrderLaws.OrderHiddenIff`: without a fallback
  chain, exactly when two clients have room in their budgets.
- **A negative embargo can index out of range** (`WalkForward.UnsafeEmbargoPanics`); the range of embargoes
  that cannot is `WalkForward.SafeEmbargo`, wider than the non-negative ones.
- **The two matchers disagree on some text for every term that is not purely alphanumeric**
  (`Relevance.MatchersAgreeIff`).
- **An alias can shadow a symbol.** A requested name resolves to the last entity that goes by it, even if
  an earlier one has it as its symbol. `SelectionLaws.SymbolKeptIff` says when a symbol keeps its entity;
  `Witnesses.AliasTakesSymbol` is an instance where it does not.
- **A requested parent can be dropped.** Selected entities are told apart by symbol, or by name where there
  is none. A request that first names an entity without symbol whose name is a parent's symbol loses that
  parent without being refused. `SelectionLaws.RequestedParentIff` gives the exact condition,
  `Requests.AllSelectedIff` that for whole requests, `Witnesses.ShadowedParentDropped` an instance.
- The design notes for impact mode describe older formulas (weights from parent confidence alone, a plain
  mean as confidence, row cost as a share of the event's cost). The model follows the code.

## Model

| member | source | states |
|---|---|---|
| Matcher.NormalizeIsJoinedTokens | internal/entitymatch/matcher.go:12-16 | lower-casing, replacing and re-joining leaves exactly the alphanumeric tokens of the text, one space apart |
| Matcher.NormalizeIdempotent | internal/entitymatch/matcher.go:12-16 | normalising twice is normalising once |
| Matcher.ContainsTermIsTokenMatch | internal/entitymatch/matcher.go:18-30 | the padded substring search accepts exactly when the needle has tokens and they are a contiguous sublist of the text's tokens |
| Matcher.MatchEntityMeaning | internal/entitymatch/matcher.go:32-50 | an entity is matched iff it is enabled and some name of it is mentioned token for token; which name decides between 0.95, 0.9 and 0.85 |
| Relevance.RegexImpliesToken | internal/ingest/relevance.go:68-76 | on lower-cased text the regular expression implies the token match for every term with an alphanumeric character |
| Relevance.AlnumTermsAgree | internal/ingest/relevance.go:68-76 | for a purely alphanumeric term the two matchers agree on every lower-cased text |
| Relevance.Disagreement | internal/ingest/relevance.go:68-76 | for every other term, a text on which they differ |
| Relevance.MatchersAgreeIff | internal/ingest/relevance.go:68-76 | the matchers agree on all lower-cased texts iff the trimmed term is purely alphanumeric |
| Relevance.ScoreBreakdown | internal/ingest/relevance.go:28-66 | the nested counting loops compute the two shares and their weighted sum, including the empty-text and zero-total cases |
| RelevanceLaws.ScoreCounts | internal/ingest/relevance.go:34-60 | the two components are the shares of keyword places and of entities found in the lower-cased article, zero where there are none to find |
| RelevanceLaws.ScoreSlope | internal/ingest/relevance.go:61-65 | relevance moves by 0.65 for each unit of the keyword share and by 0.35 for each unit of the entity share |
| RelevanceLaws.ScoreCorners | internal/ingest/relevance.go:61-65 | all keywords and no entity score 0.65, all entities and no keyword 0.35, nothing 0 |
| Relevance.ScoreIgnoresEntityOrder | internal/ingest/relevance.go:45-65 | permuting the entities cannot change an article's score |
| Relevance.ScoreRange | internal/ingest/relevance.go:52-65 | all components lie in [0, 1]; a full score means every keyword and every entity hit, and there are some of each |
| Ledger.LedgerIsSumOfCharges | internal/enrich/router.go:211-219 | after any sequence of critical sections the usage map holds exactly what was charged, in total and for each key |
| Breaker.BreakerRefinesHistory | internal/enrich/router.go:194-209 | after any interleaving a key's counter is its failures since the last success modulo the threshold, and it is open iff they reached the threshold |
| Breaker.OpeningTime | internal/enrich/router.go:194-202 | with one caller, the opening time grows by the configured seconds for every threshold of failures |
| Breaker.BreakerRateLimit | internal/enrich/router.go:162-209 | with one caller and a monotone clock the n-th consecutive failure comes at least seconds times floor((n-1)/threshold) after the first |
| Breaker.FailureOpens | internal/enrich/router.go:162-202 | a failure that completes a threshold shuts the key out for exactly the configured seconds; any other changes no opening time |
| Router.ProviderRouter.constructor | internal/enrich/router.go:41-63 | every enabled provider is priced and has a client, a later duplicate replacing an earlier one; the books start empty |
| Router.ProviderRouter.Totals | internal/enrich/router.go:179-184 | the sum over the usage map, in whatever order it is ranged over |
| Router.ProviderRouter.IsAllowed | internal/enrich/router.go:162-192 | admits exactly when the breaker is closed and all four budgets have room, and changes no map |
| Router.ProviderRouter.NoteFailure | internal/enrich/router.go:194-202 | the counter and, at the threshold, the opening time of that key; nothing else changes |
| Router.ProviderRouter.NoteSuccess | internal/enrich/router.go:204-209 | resets that key's counter and opening time; nothing else changes |
| Router.ProviderRouter.NoteUsage | internal/enrich/router.go:211-219 | adds exactly these tokens and this cost to that key; nothing else changes |
| Router.ProviderRouter.Settle | internal/enrich/router.go:133-149 | clears the breaker, then charges the priced sum of the three replies, and returns it |
| Router.ProviderRouter.Ask | internal/enrich/router.go:104-149 | the verdict of the three client calls and which critical sections follow it, in order |
| Router.ProviderRouter.TryOne | internal/enrich/router.go:95-149 | one turn of the loop: admission, client lookup, client calls |
| Router.ProviderRouter.Walk | internal/enrich/router.go:94-156 | the loop over the chain refines the recursion over its positions |
| Router.ProviderRouter.Enrich | internal/enrich/router.go:82-156 | outcome and log are those of routing the chain (the ranged keys if none is configured) from the old log |
| RouterLaws.VerdictMeaning | internal/enrich/router.go:95-131 | a try gives a result, a fatal or a soft failure exactly as the replies of the admitted, known key say, with the words of the call that failed |
| RouterLaws.SuccessReports | internal/enrich/router.go:95-149 | a success comes from the first eligible position, none before it eligible or fatal, and reports that key's replies, their token sum and its price |
| RouterLaws.RouteTakesFirstDecisive | internal/enrich/router.go:94-156 | the first position that succeeds or fails fatally decides the call and its log |
| RouterLaws.RouteExhausted | internal/enrich/router.go:152-155 | a call ends without a decision iff no position is decisive, and then returns the last soft error |
| RouterLaws.VerdictIgnoresEarlierKeys | internal/enrich/router.go:94-131 | soft failures of other keys in the same call change neither a key's admission nor its verdict |
| RouterLaws.FirstEligibleWins | internal/enrich/router.go:94-149 | on a chain without repeats the winner can be read off the state the call started in |
| RouterLaws.RouteCharges | internal/enrich/router.go:133-149 | total usage grows by exactly the returned result, and a failed call costs nothing |
| RouterLaws.SuccessRestoresKey | internal/enrich/router.go:133-133 | after a success the winner has no failures and no opening time |
| RouterLaws.FatalLeavesNoMark | internal/enrich/router.go:106-108 | a fatal error returns at once and leaves the books as they were |
| RouterLaws.PriceMeaning | internal/enrich/router.go:158-160 | a thousand input tokens cost the input price, a thousand output tokens the output price, and costs add up |
| RouterLaws.PricedIff | internal/enrich/router.go:41-63 | a key is priced iff an enabled provider has that name and model, by the last one that does |
| RouterLaws.ClientMeaning | internal/enrich/router.go:65-80 | a client goes by its provider's name and model; only mimo takes its model from the environment |
| CallSteps.CallIsRun | internal/enrich/router.go:82-156 | the history a call leaves is that of a one-caller run of the concurrent model whose steps are its replies: every soft reply records a failure, every success restores and charges, a fatal one leaves nothing |
| CallSteps.CallKeepsReachable | internal/enrich/router.go:82-156 | a router used by one call after the other only has histories the concurrent model reaches with one caller |
| CallSteps.SoftFailureMarks | internal/enrich/router.go:104-123 | on a chain without repeats a consulted key whose client fails softly before the call is decided is admitted and marked, and its failure count rises by one |
| CallSteps.OtherwiseUnmarked | internal/enrich/router.go:95-149 | any other key keeps its failure count, but for the winner's, which becomes zero |
| CallSteps.UndecidedError | internal/enrich/router.go:152-155 | an undecided call quotes the last client that failed softly, or reports no provider available if none did |
| CallSteps.FatalIsQuoted | internal/enrich/router.go:90-108 | a fatal failure is quoted, and an empty chain reported as such |
| Concurrency.ReachableRefinesHistory | internal/enrich/router.go:162-219 | in every reachable state of k callers the three maps are determined by the log of failures, successes and charges |
| Concurrency.ConcurrentBudgetBound | internal/enrich/router.go:162-219 | recorded tokens never exceed budget - 1 + k times the largest call, for the run budget and each key's budget |
| Concurrency.ConcurrentCostBound | internal/enrich/router.go:162-219 | recorded cost stays below budget + k times the dearest call, for the run budget and each key's budget |
| Concurrency.CostWithinPrices | internal/enrich/router.go:158-160 | a call of at most so many tokens costs at most their number in thousands times the higher price |
| Concurrency.BudgetStaysClosed | internal/enrich/router.go:171-190 | once a budget of tokens or of cost is reached no later step of any caller is admitted under it, and usage never shrinks |
| OrderLaws.OrderHiddenIff | internal/enrich/router.go:82-95 | the order of ranging over the clients shows in no call, whatever each client answers, iff a fallback chain is configured or at most one client has room in its budgets |
| OrderLaws.FreshOrderHiddenIff | internal/enrich/router.go:82-95 | for an unused router, iff a chain is configured or there is at most one client |
| Tightness.ConcurrentBudgetTight | internal/enrich/router.go:162-219 | for every number of callers, limit and call size some interleaving reaches that bound exactly, for the run budget and for a key's own |
| RateLimit.OneCallerSequential | internal/enrich/router.go:94-209 | every history that at most one caller can reach is sequential |
| RateLimit.TwoCallersOutrunBreaker | internal/enrich/router.go:162-209 | for any threshold, positive waiting time and chain with a known key, a reachable run of two or more callers fails once more than the threshold at one instant |
| RateLimit.RateLimitIff | internal/enrich/router.go:162-209 | every run of k callers with a monotone clock keeps the rate limit iff k is at most one, the waiting time is not positive, or no key of the chain has a client |
| Session.SessionDateBounds | internal/market/session.go:11-21 | the session date is the Indian midnight that starts the event's own day |
| Session.SessionDateMeaning | internal/market/session.go:9-13 | session dates are the midnights of a clock five and a half hours ahead, in nanoseconds |
| Session.SessionPartition | internal/market/session.go:23-33 | the labels split the day at 09:15 and 15:30 and exactly one flag is set |
| Session.LabelWindowBounds | internal/market/session.go:38-42 | the label window closes at 15:30 on the next Indian day, after the article, before the midnight after that |
| Session.DayKeysFaithful | internal/eval/eval.go:50-53 | session dates and the UTC day keys used to deduplicate them are in bijection and in the same order |
| WalkForward.UniqueDates | internal/eval/eval.go:48-60 | the dates are strictly increasing and hold the last row's date of every UTC day |
| WalkForward.DatesUnique | internal/eval/eval.go:55-58 | that listing is unique, so map order does not show |
| WalkForward.LastOfDayIs | internal/eval/eval.go:50-53 | the date of a UTC day is that of the last row on it |
| WalkForward.BuildPurgedWalkForward | internal/eval/eval.go:17-46 | terminates in bounds with exactly max(0, n - train - embargo - test + 1) folds at the stated indices; none, whatever the embargo, with fewer than train + test dates |
| WalkForward.UnsafeEmbargoPanics | internal/eval/eval.go:29-42 | outside the safe embargoes, with enough dates, the exit test fails at every start up to one that indexes out of range |
| WalkForward.FoldGeometry | internal/eval/eval.go:29-44 | training ends before testing, exactly embargo dates lie strictly between, window sizes are as asked, the next fold is shifted by one date |
| WalkForward.TrainBeforeTestIff | internal/eval/eval.go:30-33 | training ends before testing in every fold iff the embargo is not negative |
| WalkForward.LeaksIffAdjacent | internal/eval/eval.go:29-44 | whatever the embargo, a fold leaks labels iff testing starts no later than the day right after training ends; with one that is not negative, iff it starts that day |
| WalkForward.NoLabelLeakage | internal/eval/eval.go:29-44 | with an embargo of at least one date no article dated in training has its label window reach the test window |
| WalkForward.NeverLeaksIff | internal/eval/eval.go:29-44 | for every embargo under which the loop cannot index out of range, negative ones included: no data set leaks iff the embargo is at least one |
| Aliases.UniqueNonEmpty | internal/nse/bhavcopy.go:336-353 | the loop keeps the first trimmed spelling of every key and sorts them |
| Aliases.UniqueNonEmptyFacts | internal/nse/bhavcopy.go:336-353 | the result is trimmed, blank-free, strictly sorted, one spelling per key, and has exactly the input's keys |
| Aliases.FirstSpellingStays | internal/nse/bhavcopy.go:336-353 | of several spellings of a key exactly the first stays, trimmed |
| Aliases.MergeKeepsKeys | internal/nse/bhavcopy.go:328-334 | a merge has exactly the keys of both lists |
| Aliases.MergeAbsorbs | internal/nse/bhavcopy.go:328-334 | merging into a canonical list names it already covers changes nothing |
| SyncLaws.IndexAbsorbed | internal/nse/bhavcopy.go:290-308 | an enabled index with every field set and all the names of the fallback entry is left as it is |
| Bhavcopy.LoadByKey | internal/nse/bhavcopy.go:212-224 | existing entities by upper-cased symbol, blanks dropped, the last of a key kept, types normalised |
| SyncLaws.RowsEffect | internal/nse/bhavcopy.go:226-259 | rows add exactly the symbols they name, leave every other entity alone, clear the role of the ones they name, and keep their aliases and enabled flag |
| SyncFields.CountsMeaning | internal/nse/bhavcopy.go:226-234 | a row counts iff its symbol is not blank and its series is EQ in any case and with any outer spaces |
| SyncLaws.RowAbsorbed | internal/nse/bhavcopy.go:249-257 | an entity that has every field set, no role and the names a row adds is left as it is by that row |
| Bhavcopy.UpsertRows | internal/nse/bhavcopy.go:226-259 | the rows applied in order |
| SyncLaws.FinishedTwice | internal/nse/bhavcopy.go:264-281 | a finished entity is left as it is by finishing or loading it again, and its aliases are in canonical form |
| Bhavcopy.ListEntities | internal/nse/bhavcopy.go:264-287 | every finished entity once, strictly increasing by symbol, whatever order the map yields |
| Bhavcopy.NormalizeBhavcopyRows | internal/nse/bhavcopy.go:211-288 | the result lists the synced universe |
| Bhavcopy.SyncUnique | internal/nse/bhavcopy.go:264-287 | the result of a sync is determined by its inputs |
| SyncLaws.SyncIdempotent | internal/nse/bhavcopy.go:211-308 | syncing the result with the same rows again gives the same result, for all rows and entities |
| SyncLaws.SyncCoversSymbols | internal/nse/bhavcopy.go:211-308 | the symbols are exactly those known before, those of EQ rows and the two indexes, each once, strictly increasing |
| SyncLaws.SyncKeepsEntity | internal/nse/bhavcopy.go:249-257 | every entity keeps its aliases up to case, gains the symbol and the non-blank name of every equity row for it, and only an index is ever switched on |
| SyncFields.NamedTexts | internal/nse/bhavcopy.go:226-259 | an entity a row names has its old id, name, exchange and sector or, where blank or new, the built id, the first row's trimmed name (the symbol where blank), NSE and Unknown |
| SyncFields.IndexEntryTexts | internal/nse/bhavcopy.go:290-308 | an index no row names has its old texts or, where blank or new, those of its entry |
| SyncFields.OtherTexts | internal/nse/bhavcopy.go:264-281 | any other entity keeps its texts unchanged, but for a blank id, name or exchange |
| SyncFields.SyncAliasesIff | internal/nse/bhavcopy.go:211-308 | up to case the aliases are exactly the old ones, symbol and name of every row for it, and those of its index entry |
| SyncFields.NewType | internal/nse/bhavcopy.go:226-308 | an entity not known before is an equity, or an index if it is one of the two |
| SyncFields.BuiltIDIsReplaced | internal/nse/bhavcopy.go:310-316 | one pass over the symbol does the three replacements |
| SyncFields.SyncOfNothing | internal/nse/bhavcopy.go:261-262 | a sync of nothing holds exactly the two indexes as the program words them |
| SyncLaws.SyncKeepsTexts | internal/nse/bhavcopy.go:211-308 | every known entity keeps its non-blank id, name, exchange and sector up to outer spaces, and its normal type unless it is one of the two indexes |
| SyncLaws.SyncKeepsRoleIff | internal/nse/bhavcopy.go:239-258 | an entity keeps its role iff it had none or no equity row names it |
| Config.EffectiveEntities | internal/config/types.go:176-211 | the last enabled entry of every key, normalised, strictly increasing by key |
| Config.EffectiveMeaning | internal/config/types.go:176-211 | an entity is in the universe iff it is the last enabled entry of its key, with its type in normal form |
| Entities.LoadedTypeMeaning | internal/config/types.go:176-211 | a type is index if it says so in any case or, where blank, if the symbol starts with NIFT; equity otherwise |
| Entities.RoleMeaning | internal/config/loader.go:125-145 | a role is parent or child if it says so in any case, and blank otherwise |
| Config.EffectiveUnique | internal/config/types.go:200-211 | that universe is determined by the two lists |
| Config.EffectiveDistinctSymbols | internal/config/types.go:181-199 | its entities are enabled and share no symbol |
| Config.ValidateGroup | internal/config/loader.go:188-205 | accepts a group iff its parent and all its children are filed with those roles |
| Config.ValidateGroups | internal/config/loader.go:179-206 | accepts iff every group is valid over the enabled entities |
| Config.ValidateChain | internal/config/loader.go:217-225 | accepts iff every fallback entry is the key of an enabled provider |
| Reload.NormalizeEntityTypes | internal/config/loader.go:125-145 | the in-place pass leaves every entity with normal type and role |
| Reload.RoleInEffective | internal/config/loader.go:179-195 | a role check against the effective universe asks for the last enabled entry of that key and its role |
| Reload.GroupsValidIff | internal/config/loader.go:187-206 | groups are valid iff every declared member is filed with its declared role |
| Reload.SyncedRole | cmd/entities-sync/main.go:65-81 | what a synced and reloaded file says about a symbol's presence and role |
| Reload.ReloadAfterSyncIff | cmd/entities-sync/main.go:65-83 | after a sync the groups stay valid iff every declared member's role survives: no counting row names it, or the file disables it and the defaults supply the role |
| Reload.EquityRowBreaksReload | cmd/entities-sync/main.go:65-83 | an EQ row for a group member not disabled in the custom file makes the reload fail |
| Witnesses.SyncBreaksReload | cmd/entities-sync/main.go:65-83 | an instance: one default parent, an empty custom file, one group and one EQ row; validation accepts before the sync and refuses after it |
| Selection.DeclaredChildren | internal/engine/impact_rows.go:24-47 | the children each parent of the impact group declares, over repeated and malformed groups |
| Selection.FindParents | internal/engine/impact_rows.go:49-60 | the requested symbols that are group parents |
| Selection.CollectChildren | internal/engine/impact_rows.go:65-84 | the union and the per-parent sets, whatever order the maps yield |
| Selection.NewImpactMode | internal/engine/impact_rows.go:23-85 | the parent/child mode of a request |
| Selection.BuildLookup | internal/engine/service.go:208-226 | every symbol, name and alias, later entities taking over shared keys |
| Selection.Resolve | internal/engine/service.go:228-250 | the selected entities without repeats, and the unresolved items |
| Selection.ListParents | internal/engine/service.go:264-276 | the requested parents once each, in request order |
| Selection.ListChildren | internal/engine/service.go:278-290 | the children of the parents that are known and not parents, once each, in some order |
| Selection.SelectEntities | internal/engine/service.go:202-293 | the selection of a request, up to the order of children, with its two ways to fail |
| SelectionLaws.LookupTakesLast | internal/engine/service.go:208-226 | a key resolves to the last entity that goes by it |
| SelectionLaws.SymbolKeptIff | internal/engine/service.go:208-226 | over distinct symbols, a symbol resolves to its own entity iff no later entity goes by it |
| Witnesses.AliasTakesSymbol | internal/engine/service.go:208-226 | an instance: in a universe of two a later entity's alias takes over an earlier one's symbol |
| SelectionLaws.ResolvesIff | internal/engine/service.go:231-240 | an item resolves iff some entity has it as symbol, name or alias, up to case and spaces |
| SelectionLaws.RefusedIff | internal/engine/service.go:252-257 | a non-empty request is refused iff some non-blank item resolves to nothing or all items are blank |
| SelectionLaws.RefusalNames | internal/engine/service.go:231-257 | a refusal names exactly the unresolved items, trimmed, or says that no entity matched |
| SelectionLaws.PlainSelection | internal/engine/service.go:202-262 | without a request the whole universe is selected; outside impact mode the entities of the items first of their key, each once |
| Requests.SelectedMeaning | internal/engine/service.go:228-250 | selected are exactly the entities named by an item that is the first of its entity key |
| Requests.AllSelectedIff | internal/engine/service.go:228-250 | every requested item's entity is selected iff no two different entities the items name share an entity key |
| Requests.SelectedSymbolIff | internal/engine/service.go:228-250 | a symbol is selected iff an item names an entity with it and no earlier item names an entity without symbol that has it as its name |
| SelectionLaws.ImpactMeaning | internal/engine/impact_rows.go:23-85 | parents are the selected declared parents, children all they declare, and the mode is on iff there is a parent |
| SelectionLaws.AllowedMeaning | internal/engine/impact_rows.go:65-84 | the children allowed a symbol are those its groups declare, if it is one of the parents |
| SelectionLaws.ListedSymbols | internal/engine/service.go:264-290 | which symbols an impact selection lists, each once, before any validation |
| SelectionLaws.ImpactSelectionComplete | internal/engine/service.go:202-293 | under a validated configuration the mode is on iff the request names an unshadowed declared parent, and then exactly those parents and all their declared children are listed, each once, no symbol both |
| SelectionLaws.RequestedParentIff | internal/engine/service.go:228-276 | a declared parent that the request names takes part iff it is not shadowed |
| SelectionLaws.NoShadow | internal/engine/service.go:228-250 | nothing is shadowed where every entity has a symbol |
| Witnesses.ShadowedParentDropped | internal/engine/service.go:228-276 | an instance: a universe, a valid group and a request naming its parent whose every selection leaves the parent out |
| SelectionLaws.SelectionIgnoresMapOrder | internal/engine/service.go:278-290 | two runs of the selection agree on verdict and mode, and on entities up to order |
| Tags.MergeFactorTags | internal/enrich/enricher.go:200-220 | the index map stays in step with the slice through both loops |
| Tags.MergedIDs | internal/enrich/enricher.go:204-218 | base order first, then the new factors in order of first appearance |
| Tags.MergeOnceIff | internal/enrich/enricher.go:200-220 | each factor stands once iff it did in the base |
| Tags.MergeKeepsFirstBest | internal/enrich/enricher.go:209-215 | each factor keeps the first tag of highest score, the base winning ties |
| Tags.MergeAgain | internal/enrich/enricher.go:200-220 | merging the same additions again changes nothing, whatever the base |
| Tags.DeterministicFactorTags | internal/enrich/enricher.go:154-183 | one tag per factor with a keyword in the text, weighted by its share of keywords |
| Tags.RuleTagsSound | internal/enrich/enricher.go:158-180 | every rule tag belongs to a factor with a hit and scores above zero and at most its weight |
| Tags.RuleTagsOnce | internal/enrich/enricher.go:158-180 | with distinct factors the rules give each at most once |
| EnrichLaws.RuleTagOrigin | internal/enrich/enricher.go:154-183 | each rule tag is that of a factor with a keyword in the text, scored by its weight times the share of its keywords found, in factor order |
| EnrichLaws.RuleTagPlace | internal/enrich/enricher.go:154-183 | every factor with a keyword in the text has its tag at its place, and no other factor has one |
| Enricher.DeterministicSentiment | internal/enrich/enricher.go:129-152 | the label says which kind of word prevails; one word is always enough to pass the threshold |
| EnrichLaws.BalanceSays | internal/enrich/enricher.go:129-152 | the mood is that of the side with more words of the two lists in the lower-cased text, at fifteen hundredths for each word it is ahead |
| Enricher.MapEntities | internal/enrich/entity_mapper.go:18-42 | one match per entity id, in universe order |
| Enricher.MatchOrigin | internal/enrich/entity_mapper.go:23-39 | each match is that of the first mentioned entity with its id, at its place in that order |
| Enricher.HitIsMatched | internal/enrich/entity_mapper.go:23-39 | no mentioned id is left out |
| Enricher.MatchesDistinct | internal/enrich/entity_mapper.go:23-39 | over an effective universe the matches have distinct symbols |
| EventLaws.MatchIsOf | internal/enrich/entity_mapper.go:23-39 | each match carries the id, symbol and name of the first mentioned entity with its id, as sure as the name the text mentions |
| Enricher.EnrichArticle | internal/enrich/enricher.go:38-80 | the rules' event, refined by the router's answer exactly in the ambiguous band; router log and call count accordingly |
| EnrichLaws.RulesEvent | internal/enrich/enricher.go:38-47 | what the rules alone say of an article, and that it is referred to the router iff its relevance lies from the ambiguity to below the novelty threshold |
| EnrichLaws.AnsweredEvent | internal/enrich/enricher.go:49-61 | after a successful call mood, score, tokens and cost are the reply's; the factors are the rules' and then the reply's, each with the first of its tags of highest score among both |
| EnrichLaws.UnansweredEvent | internal/enrich/enricher.go:49-61 | without a call, or after a failed one, the event is the rules' |
| Enricher.ClassifyPairSentiment | internal/enrich/enricher.go:82-110 | one router call for the pair, its answer or the rules' |
| EnrichLaws.JudgedIs | internal/enrich/enricher.go:82-110 | a pair's sentiment is the reply's, or the rules' at no cost if the call failed |
| RowFields.PairTextIs | internal/enrich/enricher.go:112-127 | the text asked about a pair, line by line |
| Pairs.SplitMatches | internal/engine/impact_rows.go:168-183 | parents in order, children by symbol, parents taking precedence |
| Pairs.MatchedChildren | internal/engine/impact_rows.go:207-222 | the matched allowed children once each, in order, whatever order the map yields |
| Pairs.ListsMatchedUnique | internal/engine/impact_rows.go:207-222 | that listing is unique |
| Pairs.PairsOfParent | internal/engine/impact_rows.go:199-226 | a parent with each of its matched children, or alone |
| Pairs.PairSpecs | internal/engine/impact_rows.go:167-231 | the pairs of an event as a function of its matches and the mode |
| PairLaws.ExactPairs | internal/engine/impact_rows.go:167-231 | with distinct symbols: exactly the due pairs, each once, strictly ordered by parent then child |
| PairLaws.NoPairsIff | internal/engine/impact_rows.go:185-187 | no pairs iff no parent was matched, distinct symbols or not |
| ImpactRows.BuildFeatureRows | internal/engine/impact_rows.go:87-160 | rows, router log and call count in both modes |
| ImpactRows.JudgePairs | internal/engine/impact_rows.go:239-250 | pairs are judged in order, one router call each, and the raw weights summed |
| ImpactRows.WriteRows | internal/engine/impact_rows.go:258-327 | one row per pair, in order |
| ImpactRows.BuildImpactFeatureRows | internal/engine/impact_rows.go:167-328 | rows, router log and call count of an event in impact mode |
| RowFields.ImpactRowsSay | internal/engine/impact_rows.go:233-327 | one row for each pair in order; each carries its event's article, session, relevance, factors and summary, its pair's names, sentiment, damped mean confidence and agreed provider, and weights are in proportion to importance |
| RowFields.WeightsInProportion | internal/engine/impact_rows.go:389-410 | the weights of an event's rows are in proportion to parent confidence plus half the child's plus a tenth of the strength of the row's sentiment |
| RowFields.ConfidenceIs | internal/engine/impact_rows.go:412-425 | a row's confidence is the mean confidence of parent and child less three tenths of it for missing strength of sentiment, within 0 and 1 |
| RowFields.PairJudged | internal/engine/impact_rows.go:239-250 | pairs are asked one after the other under consecutive call numbers, each sentiment being the answer about its pair or the rules' finding |
| RowFields.PlainRowsSay | internal/engine/impact_rows.go:96-159 | ordinary mode writes one row for each match in order, with the event's own sentiment, tokens and cost, and one for an unknown entity where there is no match |
| ImpactLaws.AllocationExact | internal/engine/impact_rows.go:427-437 | the integer shares add up to the total |
| ImpactLaws.AllocationFair | internal/engine/impact_rows.go:427-437 | shares differ by at most one, larger first, none negative |
| ImpactLaws.RowSays | internal/engine/impact_rows.go:299-324 | each row names its pair, has its weight, and a confidence in [0, 1] |
| ImpactLaws.RowsConserve | internal/engine/impact_rows.go:258-325 | an event's rows add up to its own usage plus that of its pairs |
| ImpactLaws.PairsCharge | internal/engine/impact_rows.go:241-250 | judging pairs charges the router exactly what their sentiments report |
| ImpactLaws.EnrichCharges | internal/enrich/enricher.go:49-61 | enriching charges the router exactly what the event's metadata report |
| ImpactLaws.WeightsFormDistribution | internal/engine/impact_rows.go:239-256 | weights are in (0, 1], below 1 with two or more rows, sum to 1, and the equal-weight reset is never reached |
| ImpactLaws.ConfidenceDamped | internal/engine/impact_rows.go:412-425 | sentiment lowers a confidence by at most three tenths of it and never raises it |
| Dedupe.Filter | internal/ingest/dedupe.go:15-31 | the first article of every key, in order |
| Dedupe.KeptIsFirst | internal/ingest/dedupe.go:19-29 | every kept article is the first of its key, at its place in input order |
| Dedupe.FirstIsKept | internal/ingest/dedupe.go:19-29 | the first article of a key is always kept |
| Dedupe.FilterIdempotent | internal/ingest/dedupe.go:15-31 | filtering twice is filtering once |
| EventLaws.DuplicateIff | internal/ingest/dedupe.go:19-26 | articles are duplicates iff their trimmed hashes agree or, where they have none, url and title do up to case |
| Service.TakeArticle | internal/engine/service.go:75-94 | one turn of the run loop: events, rows, router log and call count |
| Service.RunArticles | internal/engine/service.go:75-94 | the whole loop |
| Service.AddUp | internal/engine/service.go:108-112 | the totals over all rows |
| ServiceLaws.EventConserves | internal/engine/impact_rows.go:167-328 | an event's rows add up to what they take over from it plus what the router was charged for its pairs |
| ServiceLaws.RunConserves | internal/engine/service.go:75-112 | in impact mode the router is charged exactly the reported rows plus the own usage of events without a matched parent, in tokens and cost |
| UnmatchedLaws.ImpactExactIff | internal/engine/impact_rows.go:167-328 | in impact mode tokens and cost are reported exactly in every honest world iff every article the router is asked about matches a parent, or no provider that would be tried has a client and room in its budgets |
| Misreports.ImpactFallsShort | internal/engine/impact_rows.go:185-187 | an instance: a run about one parent and an article that names another company |
| Engine.Run | internal/engine/service.go:47-118 | the run's report and the router's log, or the refusal with nothing changed; in impact mode the usage map grows by the reported totals plus the unmatched events |
| RunLaws.RunIgnoresMapOrder | internal/engine/service.go:67-118 | with a fallback chain or at most one client, any orders of map iteration give the same events, rows, totals and ledger |
| RunLaws.RunEventsDistinct | internal/engine/service.go:75-94 | every event of a run matches distinct symbols, so its pairs are exact |
| EventLaws.RunEventsAre | internal/engine/service.go:75-94 | the events of a run are those of its articles whose relevance reaches the minimum, in order, each with its article's session and label window |
| RunLaws.RunOfEvents | internal/engine/service.go:67-94 | the events of a whole run are those of its relevant articles with duplicates left out, in order |
| RowLaws.EventRowsExact | internal/engine/impact_rows.go:299-324 | the parent and child columns of an event's rows are exactly those of its due pairs, each once, by parent and then child |
| RowLaws.RunRowsExact | internal/engine/service.go:75-94 | the rows of a run in impact mode fall into one stretch for each event, which names exactly the event's due pairs, each once, in order |
| RunLaws.EventTagsOnce | internal/enrich/enricher.go:38-80 | with distinct factors every event carries each factor once, refined or not |
| OrdinaryLaws.OrdinaryReport | internal/engine/impact_rows.go:96-159 | in any one run ordinary mode reports at least the tokens charged, input and output alike, and exactly those iff no event charged such tokens matched two or more entities |
| OrdinaryLaws.OrdinaryExactIff | internal/engine/impact_rows.go:96-159 | tokens and cost are reported exactly in every honest world iff no relevant article in the ambiguous band matches two or more entities, or no provider that would be tried has a client and room in its budgets |
| Misreports.OrdinaryOvercounts | internal/engine/impact_rows.go:129-159 | an instance: two listings of one company and an article that names it |
| DatasetLaws.RunRowsHaveEvents | internal/engine/service.go:86-93 | every row of a run was written for one of its events, with that event's session date |
| DatasetLaws.RunNeverLeaks | internal/engine/service.go:86-93 | over the rows of any run, folds with an embargo keep the label window of every training row's event before the test window |

## Left out

- I/O and presentation: HTTP handlers, frontend, fetchers, stores, exporters, YAML and archive parsing, T+2 check, run ids, timestamps. Writing a file and loading it again is taken to give back its entities.
- Provider clients: arbitrary answers with non-negative token counts (`Providers.Honest`, required only where counts are split); how they pick their model beyond `Providers.BuildClient` is not modelled.
- Floating point: costs, scores, weights and confidences are reals, so rounding is not modelled.
- Unicode: text is ASCII; case folding and white space outside it are not modelled. Go compares and sorts by bytes, which agrees on ASCII.
- Civil calendar: days are day numbers at a fixed offset; date formatting is a bijection on them.
- Displayed sentiment: rows carry the cleaned label; the formatted score next to it is left out, as are row fields copied unchanged from run, profile and source.
- `validate` beyond groups and fallback chain: source, factor and profile checks, which nothing here relies on.
- Nil routers and stores: the service always has both, so the fallbacks for their absence are left out.
- Sorting by a library routine: `Sorting.Sort` stands for it. Where the sorted elements are pairwise distinct, which is everywhere but for repeated parent symbols outside a run, any correct sort gives the same result.
- WalkForward.BuildPurgedWalkForward: with at least train + test dates it requires an embargo for which the loop cannot index out of range; WalkForward.UnsafeEmbargoPanics shows that it can for all others.
- Concurrency.ConcurrentBudgetBound: all callers walk one fallback chain, and a reply carries at most the given number of tokens; Concurrency.CostWithinPrices gives the bound on its cost that the budgets in cost need.
- PairLaws.ExactPairs: requires distinct symbols among the matches; RunLaws.RunEventsDistinct shows that every event of a run has them.
- ServiceLaws.RunConserves: one run with sole use of the router; concurrent runs share its usage map.
