# coderouter, verified

A Dafny model of the parts of coderouter where a mistake would be hard to see: the routing planner and
its failover chain, the translators between four message formats in batch and streaming form, and the
small state machines beside them (login throttle, probe sweeps, semantic cache, reliability arithmetic,
event stream reader). `dafny verify dfyconfig.toml` checks all of it.

Code that changes state is a class with the same fields, or a method with the same loops, proved against
functions of values; the lemmas then say what those functions mean, down to the event kinds, names and
numbers they turn on, read from the inputs and outputs alone. Times are integers on one monotone
clock; prices and scores are reals; a mutex-guarded method is one atomic step.

## How it is laid out

- `Sequences`, `StableSort`, `Text`: filters, stable sorting as the one arrangement that keeps ties in
  order, white space.
- `Models`, `Discovery`, `Catalogue`, `ModelLists`, `Scoring`, `Ordering`: what routing knows and which answer
  of which provider it knows it from. `Catalogue` walks its map in an arbitrary order.
- `RoundRobin`, `Picking`, `Probing`, `Planner`, `Sentinels`: from a requested name to a chain, what the names
  that ask the gateway to choose do in it, and from a catalogue to a probe sweep.
- `History`, `Gateway`: breaker, bench and calls in flight as refinements of a ghost history of everything
  that happened.
- `Interference`, `Allowance`, `Chain`, `SpentPool`: the failover walk against an arbitrary upstream, with
  arbitrary steps of other requests wherever the walk holds no lock and a catalogue that may change between
  its readings, what a refusal benches, and what that means for later plans.
- `Responses`, `Streaming`: what a Responses stream owes its client, read off the fragments, and the class
  that produces it.
- `Tallies`, `Anthropic`, `AnthropicWire`, `Google`, `EndToEnd`: the two native streams, renumbered, read off
  the wire and compared with the batch form, up to the items the client is left with.
- `Chat`, `ResponsesInput`, `NativeRequests`, `NativeBodies`: requests on the way out, and what the finished
  bodies say.
- `Throttle`, `SemanticCaching` (in SemanticCache.dfy), `EventStreams`: the rest.

## Promises that fail, and exactly when they hold

- An order of streamed Anthropic events gives the items of the whole answer, whatever the words of its text
  fragments, if and only if it takes the text blocks one after the other and every tool block has some
  non-empty argument fragment (`Anthropic.OrderDecides`). A tool called with an empty object and no fragments
  ends with `""` on one path and `{}` on the other (`Anthropic.SilentToolDiffers`); two text blocks told
  alternately cannot be put back (`Anthropic.InterleavedTextDiffers`).
- A tool-calling message can follow an assistant message after the Responses input is flattened. It does if
  and only if, among the messages the items produce, an assistant message without calls stands directly
  between another assistant message or call and a call (`ResponsesInput.ClashesExactly`,
  `ResponsesInput.ClashOccurs`).
- All calls of a chat request reach Anthropic if and only if only assistant messages carry any
  (`NativeRequests.ChatReachesAnthropic`); one on a user's message is not sent (`NativeRequests.UserCallIsLost`).
  The split into turns alone keeps them all if and only if no system message carries one
  (`Chat.TurnsKeepTraffic`).
- The tool_result ids that reach Anthropic are those of the result items if and only if no message item claims
  the role `tool`: such an item becomes a result with an empty id (`NativeRequests.ItemsReachAnthropic`,
  `NativeRequests.ToolRoleAnswersNothing`).
- Google function responses carry the names of the calls they answer if and only if calls that share an id
  share a name (`NativeRequests.ResultNamesItsCall`). The name used is always that of the last call with the
  id, even one made after the result (`NativeRequests.ResultTakesLastName`, `NativeRequests.RepeatedIdMisnames`).
- The reader gives back exactly what the event writers sent if and only if each payload is trimmed,
  non-empty and not `[DONE]` (`EventStreams.RoundTripExactly`); a leading space is lost
  (`EventStreams.LeadingSpaceIsLost`).
- Every model planned in free-only mode is itself listed free if and only if the caller named none whose free
  listing is spelled in another letter case (`Planner.FreeByItsOwnName`). With "M" priced and "m" free at one
  provider, asking for "M" plans the priced one (`Planner.PricedSpellingPlanned`).
- File keys `provider/model` tell the models of a set of providers apart if and only if no provider's name
  followed by a slash begins another's (`Models.FilingUnambiguous`). Provider names come from configuration,
  where slashes are allowed (internal/config/config.go:332-346).

Where comments and code differ the code is modelled: tags that miss the pool lift the restriction
(internal/routing/smart.go:597-606); a finished stream lists text before calls whatever opened first
(internal/api/responses_stream.go:218-254); `Resolve` sorts by cost first (internal/routing/smart.go:454-474);
`scanSSE` reads on after `[DONE]` (internal/provider/provider.go:49-51); after its cooldown a breaker admits
every request, not one (internal/gateway/gateway.go:927-936); free-only mode refuses a named priced model
instead of substituting for it (README.md:261-266 against internal/gateway/gateway.go:499-507).

## Model

| member | source | states |
|---|---|---|
| Discovery.ListModels | internal/provider/discovery.go:181-262 | priced rows with an id, then Google's entries that can chat, prefix trimmed and unpriced; every model is one row of the answer, in order, under the asking provider |
| Discovery.OfferCounts | internal/provider/discovery.go:238-262 | an entry counts exactly if something is left of its name after models/ and it declares a chat method or none at all |
| Discovery.RowsFirst | internal/provider/discovery.go:219-246 | rows with an id come first, none lost |
| Discovery.TokenPrices | internal/provider/discovery.go:148-154 | prompt and completion prices are per token, a million times that per million, unless the unit is a million |
| Discovery.StatedPrices | internal/provider/discovery.go:133-146 | input and output prices win, count as stated per million or per token, and mean nothing without a unit |
| Discovery.NoPrice | internal/provider/discovery.go:121-157 | another currency, a negative price or half a price is no price |
| Discovery.FreeOnlyWhenPublishedZero | internal/provider/discovery.go:121-157 | a listed model is free if and only if both of its prices are published as zero, in dollars, at a known scale |
| Models.FileKeyTells | internal/gateway/gateway.go:1208-1210 | models at providers whose names do not clash share a key only if they are the same |
| Models.FilingUnambiguous | internal/gateway/gateway.go:1208-1210 | for any set of providers keys are unambiguous if and only if no name followed by a slash begins another |
| Catalogue.Catalog.SetDiscovered | internal/routing/smart.go:387-409 | one provider's list is replaced, the others stay; lists remain filed under their own provider and remain, row by row, the providers' last answers |
| Catalogue.AnsweredMeans | internal/provider/discovery.go:211-247 | every listed model is free if and only if its own row of its provider's last answer publishes two zeroes |
| Catalogue.Catalog.ObserveReliability | internal/routing/smart.go:259-287 | every entry measured, curated or discovered, takes its measurement, no other changes, and the lists remain the providers' answers |
| Catalogue.MeasureSays | internal/routing/smart.go:266-275 | a measurement replaces reliability and, where positive, latency of the entry filed under its key, and nothing else |
| ModelLists.RefreshOne | internal/gateway/discovery.go:71-84 | a usable answer replaces that provider's list and becomes the answer it is traced to; none or an empty one changes nothing |
| ModelLists.RefreshProvider | internal/gateway/discovery.go:115-140 | without a key the list and its answer go, otherwise it is refreshed |
| Catalogue.Catalog.ForgetDiscovered | internal/routing/smart.go:412-416 | exactly that provider's list is dropped, and its answer with it |
| Catalogue.Catalog.SetConfirmed | internal/routing/smart.go:628-645 | confirmed are exactly the keys reported working; every reported key counts as probed now |
| Catalogue.Catalog.MarkProbed | internal/routing/smart.go:650-661 | the keys count as probed now, all others keep their time, none is confirmed |
| Catalogue.Catalog.Discovered | internal/routing/smart.go:419-429 | whatever order the map is walked in, the listing is the same one |
| Catalogue.Catalog.FreeModels | internal/routing/smart.go:479-499 | exactly the known free models, in an order that no map walk changes |
| Catalogue.Catalog.Resolve | internal/routing/smart.go:445-475 | exactly the known models of that name, cheapest first, ties in the order they were gathered |
| Catalogue.ListingIgnoresMapOrder | internal/routing/smart.go:511-518 | for any two enumerations of the discovered map a sorted listing is identical |
| Catalogue.ListedInOrder | internal/routing/smart.go:511-518 | listings run by provider name, then by model name |
| Catalogue.BeforeReads | internal/routing/smart.go:511-518 | names compare by the first letter in which they differ, a proper prefix first |
| Catalogue.ResolvedCheapestFirst | internal/routing/smart.go:454-474 | matches come in ascending cost, three tokens read for one written |
| StableSort.SortIsStable | internal/gateway/gateway.go:692-695 | insertion gives a sorted arrangement that keeps tied elements in their order |
| StableSort.StableSortUnique | internal/gateway/gateway.go:692-695 | there is only one such arrangement, so any stable sort is this one |
| StableSort.SortOfPart | internal/routing/smart.go:454-474 | sorting stably and then picking is picking and then sorting |
| StableSort.TwoPasses | internal/gateway/gateway.go:684-703 | sorting by a minor and then by a major order is one sort by the pair |
| Ordering.GeneralPasses | internal/gateway/probe.go:197-205 | score, then general-purpose first, is one lexicographic stable sort |
| Ordering.ThreePasses | internal/gateway/gateway.go:684-703 | score, then general-purpose, then confirmed is one sort by the triple, with or without confirmations |
| Ordering.PreferAfterOnly | internal/gateway/gateway.go:619-624 | preferring confirmed models moves nothing once only confirmed ones are left |
| Ordering.BestFirstMeans | internal/gateway/gateway.go:684-703 | confirmed before unconfirmed, then general before specialised, then the lower rating |
| Ordering.ConfirmedOnlyMeans | internal/routing/smart.go:748-760 | everything while nothing is confirmed, then exactly the confirmed models |
| Ordering.RestrictMeans | internal/routing/smart.go:589-607 | models marked for the task if the pool has any, else all |
| Scoring.EvidenceOnlyPenalises | internal/routing/scoring.go:84-105 | the rating lies between the plain score and 20 above it, and equals it exactly for a stated or irrelevant price, a clean record and a strong fit |
| Scoring.EvidenceAdds | internal/routing/scoring.go:54-105 | an unstated price adds 2, a record of nothing but failures 12, a middling fit 1.5 and a poor one 6 |
| Scoring.FitnessExactly | internal/routing/suitability.go:55-114 | exactly which models are strong and which poor for a task, by declared tasks or by name |
| Scoring.PenaltyIsFailureShare | internal/routing/scoring.go:22-52 | the penalty is failures over max(attempts, 8) and lies in [0, 1] |
| Scoring.PenaltyFollowsEvidence | internal/routing/scoring.go:22-52 | one more failure never lowers it, one more success never raises it |
| Scoring.FailureIsDecisive | internal/routing/scoring.go:84-105 | penalty 1 loses to penalty 0 unless the base score is at least 4 better |
| Scoring.FailingRanksBehind | internal/routing/smart.go:291-299 | hence any ranked pool lists the sound model first, for every task and objective |
| RoundRobin.PicksArePrefix | internal/gateway/gateway.go:763-772 | in every cut of the interleaving each provider has given the first of its queue |
| RoundRobin.Fair | internal/gateway/gateway.go:763-772 | in every cut two queues differ by one unless the shorter is exhausted |
| RoundRobin.FairInOrder | internal/gateway/gateway.go:763-772 | in every cut an earlier queue has given at least as many as a later one unless exhausted |
| RoundRobin.FirstsInOrder | internal/gateway/gateway.go:734-745 | queues come in the order of their first elements |
| RoundRobin.InterleavePermutes | internal/api/dashboard.go:655-685 | interleaving rearranges the pool and keeps every key's own order |
| Picking.CollectUsable | internal/gateway/gateway.go:734-745 | per provider the first usable models up to the depth, providers in order of first appearance |
| Picking.PickOnePerProvider | internal/gateway/gateway.go:725-774 | the chain is the capped interleaving of the depth-limited queues of usable models |
| Picking.ChainLength | internal/gateway/gateway.go:725-774 | length is the lesser of the cap and the sum over providers of min(depth, usable) |
| Picking.ChainLengthIs | internal/gateway/gateway.go:725-774 | in the configured numbers: min(maxAttempts, sum of min(attempts, usable)); one each when the cap is below the number of providers or attempts below one |
| Picking.ChainContent | internal/gateway/gateway.go:725-774 | where the cap does not bind each provider's picks are its first usable models, as many as configured |
| Picking.TwoModels | internal/gateway/gateway.go:729-762 | one provider with two usable models under the shipped and other numbers |
| Picking.CapSparesProviders | internal/gateway/gateway.go:747-760 | three providers under a cap of two each get their attempt |
| Picking.EligibleAre | internal/gateway/gateway.go:734-740 | usable are exactly the pool's unbenched models at providers with a key |
| Picking.EveryProviderFirst | internal/gateway/gateway.go:747-760 | the first slots hold each provider's best usable model once, even past the cap |
| Picking.ChainTakesHeads | internal/gateway/gateway.go:725-774 | in every prefix of the chain a provider's picks are the head of its usable list |
| Picking.ChainIsFair | internal/gateway/gateway.go:725-774 | in every prefix two providers differ by at most one pick unless the one behind has run out |
| Picking.ChainInOrder | internal/gateway/gateway.go:763-772 | in every prefix a provider that comes first in the pool has had at least as many attempts unless it has run out |
| Picking.ChainFromEligible | internal/gateway/gateway.go:734-740 | only keyed, unbenched models of the pool are in the chain |
| Picking.ShareAcrossProviders | internal/api/dashboard.go:655-685 | the listing is a cut of the same interleaving over whole queues |
| Picking.ListingPermutes | internal/api/dashboard.go:655-685 | below the cap it is a permutation of its input that keeps each provider's order |
| Picking.ListingLength | internal/api/dashboard.go:655-685 | a listing is as long as its limit and its pool allow |
| Picking.DepthIsQueueCut | internal/gateway/gateway.go:725-774 | limiting the depth is taking that many rounds of the unlimited interleaving |
| Planner.TaggedFor | internal/routing/smart.go:589-607 | the tagged part of the pool, or nothing exactly when no tagged model is in it |
| Planner.RestrictToTagged | internal/gateway/gateway.go:633-639 | the tagged part, or the whole pool when that is empty |
| Planner.DiscoveredCandidates | internal/gateway/gateway.go:684-703 | the capped round robin of the pool sorted by (unconfirmed, specialised, evidence), whatever the map order |
| Planner.FreeCandidates | internal/gateway/gateway.go:619-624 | the capped round robin of the confirmed free pool by evidence; every candidate keyed, available and free there |
| Planner.NarrowToConfirmed | internal/routing/smart.go:748-760 | the confirmed part of the pool, or all of it while nothing is confirmed |
| Planner.RoutedIsProbed | internal/gateway/probe.go:197-239 | whatever free routing can return is in every free sweep |
| Planner.BenchedStaysOut | internal/gateway/gateway.go:481-530 | a benched model is in no free-only, curated or discovered plan; only a caller who names it gets it |
| Planner.Placements | internal/gateway/gateway.go:840-867 | the pinned place, else every listing cheapest first, else the vendor's naming convention |
| Planner.PlacementsMember | internal/gateway/gateway.go:840-867 | which places those are does not depend on the map order, and each is the named model |
| Planner.PinMeans | internal/gateway/gateway.go:840-858 | provider:model, cut at the first colon, pins a configured provider and that model |
| Planner.VendorNames | internal/gateway/gateway.go:873-885 | gpt-, chatgpt, o1, o3, o4, claude and gemini names go to their vendors |
| Planner.FreeNamed | internal/gateway/gateway.go:565-580 | exactly the placements that are keyed, available and free at that provider, in placement order |
| Planner.NamedFreeHonoured | internal/gateway/gateway.go:484-499 | in free-only mode a named model that is free and answering somewhere gives exactly its free and answering places |
| Planner.Usable | internal/gateway/gateway.go:539-553 | exactly the candidates that are keyed, unbenched and still listed, in order |
| Planner.ServiceableMeans | internal/gateway/gateway.go:539-553 | keyed, not benched, and listed by its provider under that name if the provider lists anything |
| Planner.NamedCandidates | internal/gateway/gateway.go:807-833 | the keyed placements of the caller's model, then usable fallbacks in configured order, nothing twice |
| Planner.NamedChainMeans | internal/gateway/gateway.go:807-833 | as sets: own places need only a key, fallbacks are exactly the usable ones, no duplicates, own first |
| Planner.UniquesInOrder | internal/gateway/gateway.go:807-833 | what is kept without repeats keeps the order of first appearances |
| Planner.NoModelIsDefault | internal/gateway/gateway.go:807-812 | a request without a model is planned as one for the default model |
| Planner.Rank | internal/routing/smart.go:333-350 | the models claiming the task, or all of them, by score and stably |
| Planner.RankedCandidates | internal/gateway/gateway.go:658-676 | the first ranked model of each provider |
| Planner.BestOfEachIsBest | internal/gateway/gateway.go:658-676 | those are each provider's best, providers in the order of their best |
| Planner.PlanCandidates | internal/gateway/gateway.go:481-530 | the chain and the task in each of the free-only, smart and named cases; free-only candidates are available and have a free listing of their name, letter case aside, at their provider |
| Planner.Plan | internal/gateway/gateway.go:464-479 | that chain without the models whose key is blacklisted, order kept |
| Sentinels.SmartMode | internal/gateway/gateway.go:642-655 | the gateway chooses always, never, or for no name, its router's name or one of the sentinels |
| Sentinels.FreeMode | internal/gateway/gateway.go:558-560 | free-only is on for the deployment's flag or the request auto:free |
| Sentinels.NamedMode | internal/gateway/gateway.go:499-509 | no sentinel counts as naming a model, every other name does |
| Sentinels.TaskFixed | internal/gateway/gateway.go:433-455 | auto:code and auto:chat fix the task, otherwise the prompt decides |
| Sentinels.CheapByCost | internal/gateway/gateway.go:449-451 | auto:cheap plans by cost whatever the deployment's objective |
| Sentinels.FastByLatency | internal/gateway/gateway.go:447-448 | auto:fast plans by latency |
| Sentinels.TasksBalanced | internal/gateway/gateway.go:441-446 | auto:code and auto:chat weigh a second against a dollar |
| Sentinels.AutoByDefault | internal/gateway/gateway.go:706-711 | auto and no name plan by the deployment's objective |
| Sentinels.CuratedAscends | internal/gateway/gateway.go:658-676 | of two curated candidates the one tried first measures no worse |
| Sentinels.SentinelGetsFreePool | internal/gateway/gateway.go:484-509 | in free-only mode a sentinel gets the free pool, never an empty plan for being a name |
| Planner.FreeOnlyIsSafe | internal/gateway/gateway.go:464-509 | free-only: keyed, not blacklisted, not benched, confirmed once anything is, free at that provider (letter case aside) by a curated entry or by a row of its last answer with the listing's id and two published zeroes; a named model is never replaced |
| Planner.FreeByItsOwnName | internal/gateway/gateway.go:565-580 | every planned model has a free listing under exactly its own place if and only if no available placement of the named model is free only in another letter case |
| Planner.PricedSpellingPlanned | internal/gateway/gateway.go:565-580 | the catalogue that shows it can fail |
| Probing.SplitByProbeState | internal/gateway/probe.go:245-257 | confirmed, never probed and failed models, each in pool order |
| Probing.SplitIsStableSort | internal/gateway/probe.go:245-257 | joined again they are the pool stably sorted by probe state |
| Probing.GroupingIsStableSort | internal/gateway/probe.go:207-228 | grouping by sorted provider and splitting each is one stable sort by (provider, state) |
| Probing.FreeProbeTargets | internal/gateway/probe.go:197-239 | the keyed free pool in that order, then marked models not yet listed |
| Probing.SweepCoversFreePool | internal/gateway/probe.go:197-239 | a permutation of the ranked pool that reaches every known free model at a keyed provider |
| Probing.SweepInOrder | internal/gateway/probe.go:207-228 | by provider name, and within a provider by probe state |
| Probing.StateMeans | internal/gateway/probe.go:245-257 | confirmed first, never tried next, tried and refused last |
| Probing.SweepRanksAsChat | internal/gateway/probe.go:197-205 | within one provider and state general models first, then by rating for conversation |
| Probing.ExtrasAre | internal/gateway/probe.go:230-241 | behind the sweep exactly the marked models of keyed providers not in it, each once |
| History.RefusedMeans | internal/gateway/gateway.go:927-965 | refused exactly when the latest trip or success is a trip within the cooldown |
| History.CounterMeans | internal/gateway/gateway.go:938-955 | the breaker's counter is the number of failures since its latest trip or success, and below the trip count |
| History.TripsExactly | internal/gateway/gateway.go:938-955 | a failure trips exactly when it makes the configured number in a row since the latest trip or success |
| History.LatestReset | internal/gateway/gateway.go:938-965 | there is always such a latest trip or success to count from, or the beginning |
| History.OnBenchMeans | internal/gateway/gateway.go:1215-1228 | on the bench exactly when the latest step that touches the model is a benching within the hour |
| History.BenchLasts | internal/gateway/gateway.go:1215-1228 | a benched model stays benched for the hour through any later steps short of a release |
| Gateway.Gateway.Allow | internal/gateway/gateway.go:927-936 | admits exactly when the history does not refuse |
| Gateway.Gateway.RecordFailure | internal/gateway/gateway.go:938-955 | one failure more in the history, and the breaker still agrees with it: the counter of History.CounterMeans, the trip time the last trip's |
| Gateway.Gateway.RecordSuccess | internal/gateway/gateway.go:957-965 | a success closes the breaker and clears the count, and touches nothing else |
| Gateway.Gateway.IsBenched | internal/gateway/gateway.go:1215-1228 | benched exactly when the latest bench or release is a bench within the hour; dropping an expired entry changes no answer |
| Gateway.Gateway.BenchOne | internal/gateway/gateway.go:1268-1277 | the model is benched from now, every other model as before |
| Gateway.Gateway.Unbench | internal/gateway/probe.go:269-273 | the model is released, every other as before |
| Gateway.Gateway.ClearBench | internal/gateway/gateway.go:1353-1357 | nothing is benched any more |
| Gateway.Gateway.Begin | internal/gateway/live.go:77-91 | the call goes in flight under a new id |
| Gateway.Gateway.End | internal/gateway/live.go:94-114 | exactly that call leaves the table and becomes the last one reported |
| Catalogue.ResolvedAtProvider | internal/routing/smart.go:445-475 | the matches at one provider come in one order, its curated entries then its own list by cost, whatever order the map is walked in |
| Catalogue.ServedFreeMeans | internal/gateway/gateway.go:1280-1287 | with no negative prices, that is when the provider's first zero-cost entry of that name, curated ones first, publishes its zero |
| Allowance.IsFreeAt | internal/gateway/gateway.go:1280-1287 | true if and only if the first of those matches is free |
| Allowance.BenchIfAccessDenied | internal/gateway/gateway.go:1237-1277 | benches nothing, the refused model, or the model and then the provider's other free models in listing order, as the error calls for, each at its own time with others in between |
| Allowance.WhatIsOwed | internal/gateway/gateway.go:1237-1265 | a refusal or a wrong kind of model costs the model alone, a spent allowance on a free model its pool, anything else nothing |
| Allowance.OwedMember | internal/gateway/gateway.go:1237-1265 | after a spent allowance the owed keys are the refused model's and those of the provider's free listings; where names do not clash, no other model has one of them |
| Allowance.SpentAllowance | internal/gateway/gateway.go:1237-1287 | each free model there was benched at its own moment and is out for the hour after it short of a release, in every history that contains the owed steps |
| Allowance.OthersAsBefore | internal/gateway/gateway.go:1237-1277 | any other model, at a provider whose name does not clash, is on or off the bench as before unless others touch it |
| Chain.OneSource | internal/gateway/gateway.go:290-294 | chunks come from the last candidate visited and no other |
| Chain.ClientHears | internal/gateway/gateway.go:251-264 | what the client gets is every chunk of the last candidate tried, as it came, and nothing when not streaming |
| Chain.ExhaustedTells | internal/gateway/gateway.go:235-294 | the error of an exhausted walk names each candidate and its own reason |
| Chain.CallUpstream | internal/gateway/gateway.go:267-296 | the call is in flight while others step in, then gone and the last one reported |
| Chain.Report | internal/gateway/gateway.go:271-297 | a success, a failure, or the benchings a refusal owes and no verdict; others, and the catalogue, may change before each |
| Chain.AttemptLeaves | internal/gateway/gateway.go:271-297 | a success leaves one success, an ordinary error one failure of the provider, a refusal only benchings |
| Chain.VisitOne | internal/gateway/gateway.go:235-306 | one candidate: skipped without a trace for a missing key or a breaker that refuses when asked, else tried, with exactly the steps owed |
| Chain.AttemptChain | internal/gateway/gateway.go:225-310 | for every upstream, every interleaving between locked steps and every change of the catalogue between readings: never two sources, one failure per candidate in order, this request's steps exactly those its visits owe and in their order, nothing left in flight |
| Chain.WalkBenchesPool | internal/gateway/gateway.go:1237-1265 | a walk that meets a spent allowance leaves every free model of that provider out for the hour short of a release |
| SpentPool.SpentStaysOut | internal/gateway/gateway.go:1212-1228 | from its own benching until an hour after it, short of a release since, none of them is in any plan unless a caller names it |
| Responses.FinishedIsWellFormed | internal/api/responses_stream.go:82-258 | every finished run: opening pair once, items announced 0..k-1 in order, each a complete life whose done payloads join its own deltas, completed last |
| Responses.FailedIsWellFormed | internal/api/responses_stream.go:113-265 | a run cut short keeps the same promises up to the failed event |
| Responses.AnnouncedAs | internal/api/responses_stream.go:170-195 | a call is announced under the id, or a minted one, and the name its first fragment carries |
| Responses.LastIdCounts | internal/api/responses_stream.go:196-200 | its final id is the last non-empty one |
| Responses.LastNameCounts | internal/api/responses_stream.go:198-200 | its final name is the last non-empty one |
| Responses.ClosesAs | internal/api/responses_stream.go:236-254 | it closes as the very item the output lists, under its final id, name and arguments |
| Streaming.ResponsesStream.Send | internal/api/responses_stream.go:269-280 | events are numbered without a gap |
| Streaming.ResponsesStream.Begin | internal/api/responses_stream.go:113-132 | the opening pair goes out once, with the first chunk's model |
| Streaming.ResponsesStream.AppendText | internal/api/responses_stream.go:134-160 | the message opens once, under the next index, and every piece is a delta of it |
| Streaming.ResponsesStream.AppendToolCall | internal/api/responses_stream.go:164-210 | the call opens once under the next index; later ids and names replace, arguments add up |
| Streaming.FoldAgrees | internal/api/responses_stream.go:23-50 | the running fields are, after any fragments, exactly what the whole fragment list determines |
| Streaming.ResponsesStream.Consume | internal/api/responses_stream.go:82-110 | a chunk adds the fragments of its choices in order, and its usage replaces the last one |
| Streaming.ChunksSay | internal/api/responses_stream.go:82-110 | a stream says what the deltas of all choices say, chunk by chunk |
| Streaming.CallsNumbered | internal/api/responses_stream.go:162-168 | a call fragment counts under its own index, or its place in the delta when it has none |
| Streaming.DeltaSays | internal/api/responses_stream.go:88-104 | a delta says its text, unless empty, and then its calls |
| Streaming.FirstModelCounts | internal/api/responses_stream.go:113-122 | the model reported is the first chunk's, or else the one asked for |
| Streaming.LastUsageCounts | internal/api/responses_stream.go:82-110 | the usage reported is the last any chunk reports |
| Streaming.ResponsesStream.Finish | internal/api/responses_stream.go:213-258 | the log is the finished log of the fragments, and the body's output theirs |
| Streaming.ResponsesStream.Fail | internal/api/responses_stream.go:261-265 | the log ends in the failure with nothing closed |
| Streaming.StreamResponses | internal/api/responses_stream.go:52-79 | a whole call: a plain error before the first chunk, else a failed or a finished log, numbered 0..n-1 |
| Streaming.StreamedIsWellFormed | internal/api/responses_stream.go:52-79 | whatever the chunks and however the call ends, the log is well formed |
| Tallies.ResponsesFromChat | internal/api/responses.go:415-448 | a whole answer's items: its text unless empty, then its calls, ids minted where missing |
| Tallies.TallyIsOutput | internal/api/responses_stream.go:213-258 | fragments that add up to a text and calls numbered in order finish as exactly those items |
| Anthropic.DecodeResponse | internal/provider/anthropic.go:232-271 | texts joined, tool blocks in order, an empty input read as {} |
| Anthropic.DecodeStream | internal/provider/anthropic.go:299-376 | delivers the renumbered fragments of every event before the first that breaks the stream, and the role exactly once if there are any |
| AnthropicWire.ReadUntilBroken | internal/provider/anthropic.go:328-372 | the stream is read exactly up to the first error or malformed event |
| AnthropicWire.StreamOnTheWire | internal/provider/anthropic.go:328-366 | the client is left with every text_delta joined and a call per tool_use block in opening order whose arguments are its input_json_delta pieces joined |
| AnthropicWire.CallOnTheWire | internal/provider/anthropic.go:336-356 | one block told in any pieces among any other events ends as one call with the pieces joined |
| AnthropicWire.TellsIsOnTheWire | internal/provider/anthropic.go:328-366 | what counts as telling an answer's blocks is decided by the events' own kinds, numbers and pieces |
| Anthropic.TableCounts | internal/provider/anthropic.go:304-347 | with distinct block numbers the table maps each tool block to its place among tool blocks |
| Anthropic.StreamTallies | internal/provider/anthropic.go:299-376 | however fragments are cut and blocks interleave, the stream adds up to its text and each block's arguments |
| Anthropic.StreamMatchesBatch | internal/provider/anthropic.go:232-376 | a telling gives the items of the whole answer exactly when its text, as it arrives, reads as the whole one's and no tool block is silent |
| Anthropic.OrderDecides | internal/provider/anthropic.go:232-376 | an order of events does so whatever the words exactly when it takes text blocks one after the other and no tool block is silent |
| Anthropic.OrderedTextAgrees | internal/provider/anthropic.go:348-361 | text blocks told one after another read as the whole answer's text |
| Anthropic.OrderedStreamMatchesBatch | internal/provider/anthropic.go:232-376 | for streams in block order the two paths agree if and only if every tool block has a non-empty fragment |
| Anthropic.DecodedMatchesBatch | internal/provider/anthropic.go:299-376 | the same for the chunks that reach the client |
| Anthropic.SilentToolDiffers | internal/provider/anthropic.go:244-248 | a tool block without fragments finishes with different arguments on the two paths |
| Anthropic.InterleavedTextDiffers | internal/provider/anthropic.go:357-363 | alternating text blocks finish with a different text |
| Google.ToolCalls | internal/provider/google.go:263-285 | each call whole and in order, never without id or arguments |
| Google.DecodeResponse | internal/provider/google.go:305-328 | the first candidate's text and calls, an error without candidates |
| Google.DecodeStream | internal/provider/google.go:330-383 | per chunk its text and its calls under the next running numbers, up to a malformed chunk, and the role exactly once |
| Google.StreamTold | internal/provider/google.go:330-383 | the client is left with every part's text joined and every part's call in order |
| Google.CallsTold | internal/provider/google.go:263-285 | the k-th call has its own id or the k-th minted one, its name, and its arguments or an empty object |
| Google.PartsTold | internal/provider/google.go:340-352 | the stream's parts are those of all its chunks in order |
| Google.ReadUntilMalformed | internal/provider/google.go:330-383 | the stream is read exactly up to the first malformed chunk |
| Google.StreamMatchesBatch | internal/provider/google.go:305-383 | for given minted ids stream and whole answer give the same items exactly when their joined texts and their calls are the same |
| Google.ContentDecides | internal/provider/google.go:305-383 | whatever ids are minted, exactly when they carry the same text and state the same calls: cuts, chunks and interleaving do not matter |
| EndToEnd.AnthropicBothWays | internal/provider/anthropic.go:232-376 | decoder and event writer run against whole decoder and renderer: the client is left with the same items exactly when Anthropic.StreamMatchesBatch says, in block order exactly when no tool block is silent |
| EndToEnd.GoogleBothWays | internal/provider/google.go:305-383 | both ways leave the client with the same items exactly when text and calls are the same, however they were cut and spread |
| Chat.SystemAndTurns | internal/provider/types.go:142-165 | trimmed system texts joined; turns as the merging fold |
| Chat.SystemTextsAre | internal/provider/types.go:146-151 | the prompt is made of the trimmed, non-blank contents of system and developer messages in order |
| Text.TrimStrips | internal/provider/types.go:147 | trimming takes tabs, line ends and blanks off both ends and nothing else |
| Chat.JoinedApart | internal/provider/types.go:164 | joined texts stand apart by a blank line |
| Chat.NeighboursDiffer | internal/provider/types.go:152-162 | neighbouring turns of one role remain only where one carries a call or a result |
| Chat.NobodyElseLeftOut | internal/provider/types.go:146-162 | only system and developer messages are kept out of the turns |
| Chat.TurnsIdempotent | internal/provider/types.go:142-165 | splitting the turns again changes nothing |
| Chat.TurnsKeepAll | internal/provider/types.go:142-165 | the turns stand for consecutive runs of the non-system messages, contents joined, nothing lost |
| Chat.TurnsKeepTraffic | internal/provider/types.go:142-165 | for any messages: every result and every call not on a system message is kept in order, so no call is lost exactly when system messages carry none |
| ResponsesInput.MessageFromItem | internal/api/responses.go:229-272 | calls sit on assistant messages, results on tool messages with a non-empty id |
| ResponsesInput.MessageItemSays | internal/api/responses.go:235-244 | a message item says its text in its role, the user's if it names none |
| ResponsesInput.ToolItemsSay | internal/api/responses.go:246-271 | a call item is the assistant's call with its name and arguments, a result item the tool's output |
| ResponsesInput.OtherItems | internal/api/responses.go:229-272 | exactly which items are refused and which are passed over |
| ResponsesInput.ResponsesMessages | internal/api/responses.go:181-224 | instructions, then the bare text or the folded items; an error exactly when some item is refused |
| ResponsesInput.StartSays | internal/api/responses.go:181-190 | instructions open the transcript, trimmed, as the system's; blank ones not at all |
| ResponsesInput.FoldKeepsTraffic | internal/api/responses.go:199-221 | joining calls keeps the sequences of call and result ids |
| ResponsesInput.FoldKeepsTexts | internal/api/responses.go:199-221 | and every text with who says it |
| ResponsesInput.FoldKeepsCalls | internal/api/responses.go:199-221 | and every call whole |
| ResponsesInput.ClashesExactly | internal/api/responses.go:208-219 | a tool-calling message follows an assistant message if and only if, of three produced messages in a row, an assistant message or call is followed by an assistant text and that by a call |
| ResponsesInput.ClashOccurs | internal/api/responses.go:208-219 | the input that shows it |
| ResponsesInput.RunStaysTogether | internal/api/responses.go:208-221 | a run of calls followed by its results becomes one message and exactly those results next |
| NativeRequests.MergedAlternates | internal/provider/anthropic.go:150-161 | merged messages alternate roles and start with the first turn's |
| NativeRequests.MergedSays | internal/provider/anthropic.go:150-161 | merging keeps every block, its speaker and its place |
| NativeRequests.BuildAnthropic | internal/provider/anthropic.go:147-168 | the merged renderings behind an opener where needed; an error without turns |
| NativeRequests.AnthropicBodyFaithful | internal/provider/anthropic.go:147-168 | roles alternate, the user opens, every block is there in order after at most one synthetic opener |
| NativeBodies.AnthropicBodySays | internal/provider/anthropic.go:92-168 | read off the body: every text, every assistant call with id, name and arguments, every result with its id, each from the right side and in order, besides the opener nothing |
| NativeRequests.AnthropicTurnReads | internal/provider/anthropic.go:92-116 | a turn says its text before any call, and an empty text block stands alone or not at all |
| NativeRequests.TurnIds | internal/provider/anthropic.go:92-116 | for any message: the tool_use ids are its calls' if it is the assistant's and none otherwise; a tool message, with or without an id, is exactly one tool_result under that id |
| NativeRequests.ChatReachesAnthropic | internal/provider/anthropic.go:92-168 | for any chat request: all calls arrive, in order, exactly when only the assistant makes any; results arrive as sent, with empty ids besides exactly when some tool message has none |
| NativeRequests.UserCallIsLost | internal/provider/anthropic.go:108-114 | the request that shows a call can be lost |
| NativeRequests.ItemsReachAnthropic | internal/api/responses.go:181-272 | from items to the Anthropic body the tool_use ids are those of the call items; the tool_result ids are those of the result items, in order, if and only if no message item claims the tool role |
| NativeRequests.ToolRoleAnswersNothing | internal/api/responses.go:239-244 | the item that shows it can fail |
| NativeRequests.RunStaysInNeighbouringTurns | internal/provider/anthropic.go:147-168 | a call run with its results is the end of one assistant message and the start of the next user message |
| NativeRequests.CollectNames | internal/provider/google.go:102-107 | for each id the name of the last call that has it |
| NativeRequests.BuildGoogle | internal/provider/google.go:97-122 | the merged renderings; an error without turns |
| NativeRequests.GoogleBodyFaithful | internal/provider/google.go:97-122 | contents alternate roles and keep every part in order |
| NativeBodies.GoogleBodySays | internal/provider/google.go:97-192 | read off the body: every text, every assistant call with name and arguments, every result under its id's name; the assistant is model, all others user |
| NativeBodies.GoogleTurnReads | internal/provider/google.go:174-190 | inside a turn the text comes before the calls |
| NativeRequests.ResultTakesLastName | internal/provider/google.go:102-107 | a function response carries the name of the last call with its id in the whole conversation, or none |
| NativeRequests.ResultNamesItsCall | internal/provider/google.go:164-170 | every call's results carry its name if and only if calls that share an id share a name |
| NativeRequests.RepeatedIdMisnames | internal/provider/google.go:102-107 | the conversation that shows it can fail |
| Throttle.LoginThrottle.Sweep | internal/api/auth.go:92-103 | exactly the records that no longer matter go, at most once a window |
| Throttle.LoginThrottle.Locked | internal/api/auth.go:51-62 | answers as a throttle that never sweeps |
| Throttle.LoginThrottle.Fail | internal/api/auth.go:65-82 | the sweeping table keeps covering the one that never sweeps |
| Throttle.LoginThrottle.Succeed | internal/api/auth.go:85-89 | the identity starts from a clean slate |
| Throttle.ReplaySound | internal/api/auth.go:65-82 | every record: until <= first + lockout, fewer than five counted failures, and a lock backed by five real ones |
| Throttle.LockedMeansFiveFailures | internal/api/auth.go:51-82 | a lock implies five failures since the last success within one window of it |
| Throttle.FailureNeverShortens | internal/api/auth.go:65-82 | no failure shortens a live lockout |
| Throttle.FiveFailuresLock | internal/api/auth.go:65-82 | five failures within a window lock, not one sooner, for exactly the lockout duration |
| Throttle.LateFailureStartsOver | internal/api/auth.go:65-82 | a failure more than fifteen minutes after the first counts as the first again |
| Throttle.SuccessStartsOver | internal/api/auth.go:85-89 | a success forgets that identity and no other |
| Throttle.WaitIsExact | internal/api/auth.go:51-62 | the wait announced is exact to the second |
| Throttle.SweepKeeps | internal/api/auth.go:92-103 | a sweep keeps exactly the records that still bar or still count |
| SemanticCaching.SemanticCache.constructor | internal/cache/semantic.go:81-104 | enabled exactly with an embedder, a table and a threshold in (0, 1] |
| SemanticCaching.SemanticCache.Lookup | internal/cache/semantic.go:129-180 | answers from all rows ever stored as if none had been pruned; one counter moves per outcome |
| SemanticCaching.SemanticCache.Store | internal/cache/semantic.go:184-219 | stores exactly non-blank embedded completions with their expiry |
| SemanticCaching.SemanticCache.MaybePrune | internal/cache/semantic.go:232-245 | exactly the expired rows go, at most once an interval |
| SemanticCaching.HitsExactly | internal/cache/semantic.go:147-179 | a hit exactly when a live row of the model reaches the threshold, and then from a most similar one |
| EventStreams.ScanSSE | internal/provider/provider.go:39-57 | hands over the payloads in order up to the first refused |
| EventStreams.LinesRead | internal/provider/provider.go:43-55 | data lines are read with or without a space and a carriage return, other lines not at all |
| EventStreams.WireIs | internal/api/responses_stream.go:269-280 | what the two writers put on the wire, byte for byte |
| EventStreams.ReaderUndoesWriters | internal/api/responses_stream.go:269-280 | reading what was written gives every payload in order, trimmed, save empty ones and [DONE] |
| EventStreams.RoundTripExactly | internal/api/handler.go:148-163 | exactly the payloads sent if and only if each is trimmed, non-empty and not [DONE] |
| EventStreams.LeadingSpaceIsLost | internal/provider/provider.go:48 | the payload that shows it can fail |
| EventStreams.DoneIsSkipped | internal/provider/provider.go:49-51 | a [DONE] is never delivered and reading goes on after it |

## Left out

- HTTP handlers, headers, JSON encoding and decoding, PostgreSQL, encryption, sessions, config, dashboard
  data and pages: plumbing around decoded records. `send` is taken never to fail to encode.
- Model lists kept in the database: a list loaded at startup is traced to the answer it was saved from. Latencies
  recorded by model name alone (`ObserveLatencies`) are not used by the running gateway.
- Upstream calls, embeddings and similarity: arbitrary functions. Minted ids: abstract, compared up to renaming.
- Keyword and marker lists, case folding and trimming of model names: uninterpreted functions, the same ones
  everywhere in a plan.
- Usage rows, error texts, finish reasons, tool declarations and tool choice, Google's thought signatures, stored-in-cache side effects of a
  chain: presentation or easy members.
- The bounded probe sample outside free-only mode, `servedFromCache` and `snapshot`: they would add only easy
  members.
- Planner.Plan: bench and catalogue are read once for the whole plan, where the source takes their locks again for
  each question; the chain's exact order is stated for catalogues whose lists are filed under their own provider,
  which SetDiscovered keeps.
- Planner.PlanCandidates: as Planner.Plan.
- Planner.DiscoveredCandidates: the order is stated for catalogues whose lists are filed under their own provider.
- Planner.FreeCandidates: as Planner.DiscoveredCandidates; that every candidate is free and available needs no such
  condition.
- Probing.FreeProbeTargets: as Planner.DiscoveredCandidates.
- Catalogue.Catalog.Discovered: as Planner.DiscoveredCandidates.
- Chain.AttemptChain: lists are filed under their own provider at every reading of the catalogue, and a cancelled
  context is one more upstream error.
- Chain.VisitOne: as Chain.AttemptChain.
- Chain.Report: as Chain.AttemptChain.
- Allowance.IsFreeAt: for catalogues whose lists are filed under their own provider, which SetDiscovered keeps.
- Allowance.BenchIfAccessDenied: as Allowance.IsFreeAt.
- Anthropic.DecodeStream: usage totals and a consumer that refuses a chunk are not modelled.
- Google.DecodeStream: usage totals and a consumer that refuses a chunk are not modelled.
- Throttle.LoginThrottle.Locked: one clock reading a call, where the source reads the clock several times.
- SemanticCaching.SemanticCache.Lookup: equally similar rows are taken in table order, the database clock is the
  process clock, and hit counters of rows are not kept.
- EventStreams.ScanSSE: the 4 MB line limit and read errors are not modelled.
