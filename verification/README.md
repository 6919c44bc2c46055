# Sirius gateway: a verified model

Sirius is an LLM gateway: it takes OpenAI-style requests, routes each to a
provider that can serve it, retries and falls back when an upstream fails, and
translates what upstreams stream into one event vocabulary and then into OpenAI
chunks. This project models that behaviour in Dafny and proves what the
gateway's callers rely on. `dafny verify dfyconfig.toml` checks all of it.

Five parts, each with its files:

1. **Retry, circuit breaker, fallback.** `Breaker` is the circuit map as
   functions, judged against the log of everything recorded on it.
   `Protocol` is the whole service as a step system: any number of requests in
   flight over one shared circuit map, streaming and not, with upstream events,
   throws, timers, client aborts, consumer breaks and abandoned policy runs as
   steps in any order. `ProtocolInvariant` holds what every reachable state
   satisfies, `ProtocolSafety` and `ProtocolBreaker` the theorems over whole
   histories. `Policy` and `Gateway` are the service classes in their own
   imperative form, run by one caller at a time - who may abort or break off at
   any moment - against scripted upstreams, and `Fallback` proves from which
   attempt a client is served. Both views share the decisions in `PolicyRules`
   and the breaker, and `ProtocolSimulation` proves them equal: close the
   service off around one request and its history has one end, that of the
   sequential gateway.
2. **Stream parsers and translation.** `Lines` is the read loop the three
   parsers share, with text chunks cut anywhere; `AnthropicStream`,
   `OllamaStream` and `OpenAiStream` are their line functions; `OpenAiCompat`
   prints chunks and reassembles them as a client would; `AnthropicAgreement`
   proves that streaming and non-streaming answers agree. The SSE subset read
   is that of the WHATWG HTML Living Standard, sections 9.2.5 and 9.2.6: data
   lines and comments.
3. **Registry, discovery, routing, chain.** `ModelRegistry`, `ModelDiscovery`,
   `Sorting`, `Strategies`, `Routing` and the chain half of `Gateway`.
4. **Responses input.** `ResponsesInput`: items become messages.
5. **Two small state machines.** `Reload` (provider file reconciliation) and
   `Llamactl` (stream termination, and the observation map under interleaving).

Found to be false, or true only under a condition, and stated so exactly:

- The registry's maps give what a scan of all registrations gives exactly if no
  provider name is another one followed by a colon (`RefinesUnlessNamesClash`;
  `ClashCollides` gives the input).
- Resolution is monotone under later registrations under the same condition
  (`MonotoneResolution`; `ClashDropsResolution` gives the input). Discovered
  models need no condition: a declared alias cannot be lost.
- The gateway is transparent for OpenAI streams exactly if the last finish
  reason is one it knows (`GatewayIsTransparent`); `function_call` becomes
  `stop` (`FunctionCallIsLost`).
- A fallback string is read back as written exactly for non-empty, slash-free
  names and ids (`DecodeInvertsEncode`, `ChainFidelity`).
- A llamactl stream has its one terminal event last exactly if closing the
  upstream at a `done` does not throw (`StreamTerminates`): the catch block
  would otherwise add an error after `done` (`DoneThenError`).
- A previously owned provider is left registered and unowned by a reload
  exactly if the file still names it and cannot build it (`Orphaned`; an input
  is in `OrphanExists`).
- An observation outlives its call exactly through a callback that fires
  outside its call (`LeaksOnlyLate`; an input is in `LateCallbackIsCarried`).
- The client's reassembled text, tool list and finish reason agree with the
  non-streaming ones, each under an exact condition on the message
  (`StreamAgreesWithResponse`).

Where documentation and code differ the code is followed: README.md line 116 of
the repository calls the default strategy round-robin over healthy providers,
while the code's default is `pinned`, and the gateway never names another one. So
on the code as it stands a routed chain has one provider at most
(`DefaultHasNoFallback`); the theorems about fallback hold for every chain.

Conventions. Time is a natural number that steps or gaps advance. `Trip` is the
failure count that opens a breaker: the threshold, or one if the threshold is
lower, since only a recorded failure opens it. Upstreams are scripts: events
with gaps, then an end, a throw or silence. A gap equal to a time limit counts
as a timeout. Costs, latencies and scores are reals. JSON parsing and printing
and id minting are function parameters.

## Model

| member | source | states |
|---|---|---|
| ProtocolSafety.OneSource | apps/sirius-api/src/gateway.service.ts:126-208 | In every reachable state of every history, what a client holds is a prefix of the events of one single upstream attempt, then at most one gateway error and that only once the request is over: no replay, no splice |
| ProtocolSafety.NoAttemptAfterOutput | libs/sirius-policy/src/policy.service.ts:135-139 | Once a client has an upstream event, at every later point no further provider was tried for its request, its output only grew, its current run has no further attempt, an abandoned run of it at most one (out of its backoff), and every attempt with an unaborted signal is one the current run already had |
| ProtocolSafety.AtMostOneLive | libs/sirius-policy/src/policy.service.ts:107-148 | At every moment at most one attempt of a request has an unaborted signal, across retries, fallbacks and abandoned runs; none once the request is over |
| ProtocolSafety.AbortNeutrality | libs/sirius-policy/src/policy.service.ts:55-89 | Once a run's caller is gone the run starts at most one more operation, only out of a backoff, and records no failure; once the client is gone no further provider is opened |
| ProtocolSafety.BreakerTrace | libs/sirius-policy/src/policy.service.ts:163-202 | Under any interleaving a provider's failure count is its recorded failures since its last success or timed reset, and it is open exactly when that count reaches the threshold |
| ProtocolSafety.AdmissionOverHistories | libs/sirius-policy/src/policy.service.ts:163-179 | In every history, a run opened while the log has its provider at the threshold and the reset time has not passed since its last failure never has an attempt; any other run opened for a caller who is there starts with one |
| ProtocolSafety.ThrowIsRecorded | libs/sirius-policy/src/policy.service.ts:124-147 | Under any interleaving a throw of a run whose caller is there is recorded, output or not, and ends the run if something was yielded or no retry is left; a throw after the caller has gone leaves the breaker alone |
| ProtocolBreaker.Overshoot | libs/sirius-policy/src/policy.service.ts:46-91 | From its opening until its next closing a breaker's failures stay within threshold - 1 + k * (maxRetries + 1), k calls to the provider being in flight when it opened |
| ProtocolBreaker.ExposureWhileOpen | libs/sirius-policy/src/policy.service.ts:98-149 | While a breaker is open, failures plus what calls in flight may still record never grow |
| ProtocolBreaker.BudgetBound | libs/sirius-policy/src/policy.service.ts:55-90 | What calls in flight may still record is at most (maxRetries + 1) each |
| ProtocolInvariant.StepKeeps | apps/sirius-api/src/gateway.service.ts:126-203 | Every step of the service keeps the invariant on runs, requests, outputs and the breaker log |
| ProtocolInvariant.AlwaysInvariant | apps/sirius-api/src/gateway.service.ts:107-209 | The invariant holds in every state of every history from the start |
| ProtocolInvariant.ThrowsKeeps | libs/sirius-policy/src/policy.service.ts:124-147 | A thrown attempt - recorded, retried or given up - keeps the invariant |
| ProtocolInvariant.NextProviderKeeps | apps/sirius-api/src/gateway.service.ts:126-147 | Opening the next provider's run, or reporting that none is left, keeps the invariant |
| ProtocolSimulation.StreamIsTheHistory | apps/sirius-api/src/gateway.service.ts:107-209 | From every state of the service: the history of a new streaming request whose upstreams follow their scripts, whose timers fire on time and whose caller aborts or breaks off as planned has exactly one end, and there the client's output and the breaker state are those of the sequential gateway |
| ProtocolSimulation.ResponseIsTheHistory | apps/sirius-api/src/gateway.service.ts:52-105 | The same for a non-streaming request: the one end has the sequential answer - provider, model, fallback flag and the text of the last attempt - and breaker state |
| ProtocolSimulation.OneEnd | apps/sirius-api/src/gateway.service.ts:107-209 | Two ended histories on time from one moment end in the same moment |
| ProtocolSimulation.StepsAreHistory | apps/sirius-api/src/gateway.service.ts:107-209 | A history on time is a history of the interleaved service, so its safety theorems hold along it |
| ProtocolSimulation.SimulatePull | libs/sirius-policy/src/policy.service.ts:106-149 | One pull of the streaming generator - retries, backoffs, the idle timer and a caller abort included - is the next part of the history, with the same result, time and breaker state |
| ProtocolSimulation.SimulatePump | apps/sirius-api/src/gateway.service.ts:156-203 | The pump over one provider is the next part of the history, to the request's end or to the same world facing the next provider |
| ProtocolSimulation.SimulateExecute | libs/sirius-policy/src/policy.service.ts:54-91 | The non-streaming retry loop is the next part of the history, with the same answer, time and breaker state |
| Breaker.CheckKeepsLog | libs/sirius-policy/src/policy.service.ts:163-179 | A check, with its timed reset, leaves every circuit what the log says it is |
| Breaker.SuccessKeepsLog | libs/sirius-policy/src/policy.service.ts:181-187 | So does a success, and the circuit is closed after it |
| Breaker.FailureKeepsLog | libs/sirius-policy/src/policy.service.ts:189-202 | So does a failure |
| Breaker.AdmittedByLog | libs/sirius-policy/src/policy.service.ts:163-179 | A provider is admitted unless its logged failures since its last success or reset have reached the threshold and the reset time has not passed since the last of them; letting it through closes an open circuit, logs that, and touches nothing else |
| Policy.PolicyService.CheckCircuitBreaker | libs/sirius-policy/src/policy.service.ts:163-179 | Admits exactly closed circuits and those whose reset time has passed; the latter are reset, nothing else changes |
| Policy.PolicyService.RecordSuccess | libs/sirius-policy/src/policy.service.ts:181-187 | Closes the circuit if there is one, and creates none |
| Policy.PolicyService.RecordFailure | libs/sirius-policy/src/policy.service.ts:189-202 | Counts one failure at this time and opens at the threshold |
| Policy.PolicyService.Catch | libs/sirius-policy/src/policy.service.ts:71-86 | The catch block records a failure exactly if the caller is still there, and retries exactly if nothing was yielded and a retry is left |
| Policy.PolicyService.ExecuteWithPolicy | libs/sirius-policy/src/policy.service.ts:41-91 | For every time at which the caller may abort, the retry loop gives the answer, the time and the whole breaker state of its specification |
| Policy.PolicyStream.Next | libs/sirius-policy/src/policy.service.ts:93-150 | One pull of the streaming generator, under a caller abort at any time, gives the result, the generator state, the time and the breaker state of its specification |
| Policy.CallAdmission | libs/sirius-policy/src/policy.service.ts:41-54 | By log and clock: a call that is turned away ends at once with the open-breaker message, no attempt and the breaker state it met; any other call of a caller who is there is attempt 0 and what follows |
| Policy.StreamAdmission | libs/sirius-policy/src/policy.service.ts:93-107 | The same for the first pull of a stream |
| Policy.OneAttempt | libs/sirius-policy/src/policy.service.ts:55-90 | One attempt in gaps: it answers exactly if it resolves before the timeout; else its failure is logged when it ended or timed out, unless the caller has gone, and the next attempt starts baseDelay * 2^attempt later |
| Policy.CallInGaps | libs/sirius-policy/src/policy.service.ts:54-91 | A whole call in gaps: it is answered exactly if some attempt resolves before the timeout, with the text of the first to do so; it is refused with the last complaint - the rejection if it came before the timeout, else the timeout - after min(gap, timeout) of every attempt and baseDelay * (2^maxRetries - 1) |
| Policy.OneThrow | libs/sirius-policy/src/policy.service.ts:124-147 | A throw out of a stream: unrecorded if the caller has gone, else recorded; fatal after output or without a retry left, else the next attempt follows after the backoff if the idle limit allows |
| Policy.AnsweredByFirstInTime | libs/sirius-policy/src/policy.service.ts:54-91 | A call whose caller stays is answered by the first attempt that resolves in time; the old log is kept and gains one failure of this provider, at its time, for each attempt before, then the success |
| Policy.RefusedWhenNoneInTime | libs/sirius-policy/src/policy.service.ts:71-90 | With no attempt in time the call fails with the last error, and the log gains one failure for each of the maxRetries + 1 attempts |
| Policy.NothingRecordedOnceGone | libs/sirius-policy/src/policy.service.ts:75-80 | Whatever the upstream does, no failure is recorded at or after the caller's abort |
| Fallback.PullAdvances | libs/sirius-policy/src/policy.service.ts:115-123 | A pull that yields consumes exactly one event of the attempt being read |
| Fallback.HeardIsPrefix | apps/sirius-api/src/gateway.service.ts:156-200 | What is relayed of an attempt is all its events if it flows to a normal end, else a prefix and one error |
| Fallback.PumpExact | apps/sirius-api/src/gateway.service.ts:139-189 | One provider serves the client exactly if its breaker admits it and one of its attempts yields or ends before the idle limit, backoffs included; then the client hears that attempt |
| Fallback.PumpAdmission | apps/sirius-api/src/gateway.service.ts:139-147 | By log and clock: a provider that is turned away ends its turn at once with the open-breaker message, no event, and time and breaker state as they were |
| Fallback.LeadClosed | libs/sirius-policy/src/policy.service.ts:141-145 | Attempt a of a stream starts after the gaps of the attempts before it and baseDelay * (2^a - 1) |
| Fallback.StallForfeitsRetries | apps/sirius-api/src/gateway.service.ts:156-189 | A provider that stalls from the start ends its turn at the idle limit: no retry, no recorded failure |
| Fallback.ExactSource | apps/sirius-api/src/gateway.service.ts:123-208 | While the caller stays, the stream is that of the first attempt, in provider and retry order, that yields or ends normally; throws before output pass to the next retry, stalls and open breakers to the next provider |
| Fallback.ServedWhole | apps/sirius-api/src/gateway.service.ts:157-179 | If that attempt flows to its end the client gets all of its events, else a prefix and one error |
| Fallback.NoSource | apps/sirius-api/src/gateway.service.ts:205-208 | If no attempt qualifies the client gets exactly one error event, which says that all providers failed and gives the last provider's error |
| Fallback.BreakCutsStream | apps/sirius-api/src/gateway.service.ts:157-203 | A client that breaks off at its k-th event holds exactly the first k events of what it would have got |
| Fallback.PumpFrame | libs/sirius-policy/src/policy.service.ts:163-202 | Serving one provider leaves every other provider's circuit as it was |
| Fallback.AdmissionUndisturbed | apps/sirius-api/src/gateway.service.ts:126-147 | Along a chain without repeats each provider is admitted on the circuit it had when the request began |
| Fallback.FirstAnswerWins | apps/sirius-api/src/gateway.service.ts:66-105 | createResponse returns what the first qualifying attempt resolved to, labelled with its provider, model and whether it was a fallback; it fails exactly if no attempt qualifies |
| Fallback.RefusalText | apps/sirius-api/src/gateway.service.ts:92-104 | A createResponse call that fails reports that all providers failed and the last provider's error |
| Gateway.GatewayService.Relay | apps/sirius-api/src/gateway.service.ts:154-189 | The pump with its idle timer, under any caller abort and consumer break, relays what its specification says and leaves that breaker state |
| Gateway.GatewayService.StreamChain | apps/sirius-api/src/gateway.service.ts:126-208 | The provider loop of streamResponse, under any caller abort and consumer break, gives the events and the breaker state of its specification |
| Gateway.GatewayService.RespondChain | apps/sirius-api/src/gateway.service.ts:66-105 | The provider loop of createResponse, under any caller abort, gives the result and the breaker state of its specification |
| Gateway.GatewayService.StreamResponse | apps/sirius-api/src/gateway.service.ts:107-209 | Without a route it throws the reason and touches no breaker; else it streams the routed chain |
| Gateway.GatewayService.CreateResponse | apps/sirius-api/src/gateway.service.ts:52-105 | The same for the non-streaming path |
| Gateway.GatewayService.BuildProviderChain | apps/sirius-api/src/gateway.service.ts:282-302 | The loop builds the selected leg, then every fallback that decodes, is registered and is not the selected provider, in order |
| Gateway.OneFallback | apps/sirius-api/src/gateway.service.ts:292-299 | A fallback string adds the leg it names if its provider is registered and not the selected one, and nothing otherwise |
| Gateway.DecodeNames | apps/sirius-api/src/gateway.service.ts:293-294 | A decoded string starts with the two non-empty slash-free parts it is decoded to |
| Gateway.NamesDecode | apps/sirius-api/src/gateway.service.ts:293-294 | Every such string is decoded to them; what follows a second slash is dropped |
| Gateway.DecodeInvertsEncode | apps/sirius-api/src/gateway.service.ts:293-294 | A `provider/model` string is read back as written if and only if both parts are non-empty and slash-free |
| Gateway.FallbackFidelity | apps/sirius-api/src/gateway.service.ts:292-299 | The encoded fallbacks decode to the ranked legs if and only if all of them are encodable; otherwise at most as many legs come out |
| Gateway.ChainFidelity | apps/sirius-api/src/gateway.service.ts:282-302 | route then buildProviderChain gives the ranked candidates in order if and only if every fallback is encodable; the selected one may be anything |
| Gateway.RoutedChain | libs/sirius-routing/src/routing.service.ts:59-124 | For every strategy: no provider twice, all registered, every model the resolved one with all required capabilities, and the chain is the ranking exactly for encodable fallbacks |
| Gateway.DefaultHasNoFallback | libs/sirius-routing/src/routing.service.ts:143-145 | Under the default strategy, which is the only one the gateway uses, the fallback chain is empty and the provider chain is the first eligible model's provider alone |
| Routing.RoutingService.Route | libs/sirius-routing/src/routing.service.ts:59-124 | The decision is that of the registries as they stand, error reasons included |
| Routing.RoutingService.DeriveCapabilities | libs/sirius-routing/src/routing.service.ts:149-167 | The pushed list is the required capabilities of the request |
| Routing.RoutingService.BuildCandidates | libs/sirius-routing/src/routing.service.ts:169-204 | The loop collects exactly the eligible registered models in registry order |
| Routing.CandidatesAreEligible | libs/sirius-routing/src/routing.service.ts:175-200 | The candidates are the offers of exactly the listed models of that id with a registered provider and all required capabilities |
| Routing.OffersSuit | libs/sirius-routing/src/routing.service.ts:149-204 | The candidates are exactly the listed models of the id with a registered provider that can embed if the request embeds and chat if not, stream if it streams and call tools if it has any; each healthy, at the average latency of its provider or 0 |
| Routing.CandidatesInOrder | libs/sirius-routing/src/routing.service.ts:169-204 | Candidates keep the order in which their models were registered |
| Routing.GetStrategy | libs/sirius-routing/src/routing.service.ts:129-138 | A strategy name gives the strategy of that name, and pinned exactly for pinned and unknown names |
| Routing.StrategiesByName | libs/sirius-routing/src/routing.service.ts:129-138 | The six names, and that every other name is pinned |
| Routing.SelectedIsFirst | libs/sirius-routing/src/routing.service.ts:99-124 | The first in rank is selected and the others, written provider/model in order, are the fallbacks |
| Routing.NoCandidateReason | libs/sirius-routing/src/routing.service.ts:82-95 | Without candidates no provider is selected, and the reason lists the providers of the model, if it has any |
| Routing.CandidatesDistinct | libs/sirius-routing/src/routing.service.ts:169-204 | No provider is a candidate twice |
| Routing.ListedModelsAreDistinct | libs/sirius-model-registry/src/model-registry.service.ts:72-74 | The registry lists one model per key |
| Routing.RankedIsSound | libs/sirius-routing/src/routing.service.ts:73-108 | What a route ranks has distinct registered providers, the resolved model id and all required capabilities |
| Strategies.RankIsDrawnFromUp | libs/sirius-routing/src/routing.service.ts:106-108 | Each of the six strategies ranks only candidates that are not down, none more often than offered |
| Strategies.WhatIsUp | libs/sirius-routing/src/strategies/fastest.strategy.ts:28-29 | The candidates that are healthy or degraded, in their order, and no other |
| Strategies.PinnedTakesOne | libs/sirius-routing/src/strategies/pinned.strategy.ts:16-36 | Pinned takes the first candidate with the requested id, or else the first that is up, and gives no fallback |
| Strategies.FastestFirst | libs/sirius-routing/src/strategies/fastest.strategy.ts:27-31 | All that is up by latency, an unknown one last, equals in their old order |
| Strategies.CheapestFirst | libs/sirius-routing/src/strategies/cheapest.strategy.ts:26-40 | All that is up by input plus output price, a model with neither last, equals in their old order |
| Strategies.LocalBeforeCloud | libs/sirius-routing/src/strategies/local-first.strategy.ts:29-47 | Local-first is all that is up: what runs on ollama by latency, then everything else by latency, equals in their old order |
| Strategies.PrivacyKeepsLocal | libs/sirius-routing/src/strategies/privacy-first.strategy.ts:28-47 | Privacy-first is by latency, equals in their old order: exactly what is up and runs on ollama if there is any, all that is up otherwise |
| Strategies.BalancedRanking | libs/sirius-routing/src/strategies/balanced.strategy.ts:26-47 | The ranking is the stable sort by score of what is up, scores lie in [0,1], and a candidate no worse in cost and latency ranks after another only on an equal score |
| Strategies.ScoreBounds | libs/sirius-routing/src/strategies/balanced.strategy.ts:32-45 | Non-negative costs and latencies give scores in [0,1], missing values counting as worst |
| Strategies.ScoreIs | libs/sirius-routing/src/strategies/balanced.strategy.ts:39-54 | A score is the mean of cost and latency, each divided by its scale, a missing value counting 1 |
| Strategies.MaxIsScale | libs/sirius-routing/src/strategies/balanced.strategy.ts:36-37 | A scale is the largest finite value among what is up, or 1 if that is more |
| Sorting.SortIsStable | libs/sirius-routing/src/strategies/balanced.strategy.ts:46 | The sort is sorted, a permutation, and keeps equal keys in order |
| Sorting.StableSortIsUnique | libs/sirius-routing/src/strategies/balanced.strategy.ts:46 | Any stable sort gives the same result, so the runtime's choice does not matter |
| ModelRegistry.ModelRegistryService.constructor | libs/sirius-model-registry/src/model-registry.service.ts:10-14 | The catalog is registered in order |
| ModelRegistry.ModelRegistryService.AddModel | libs/sirius-model-registry/src/model-registry.service.ts:105-115 | Updating both maps in place keeps them what the longer registration log says they are |
| ModelRegistry.ModelRegistryService.DeclareAliases | libs/sirius-model-registry/src/model-registry.service.ts:108-114 | Each declared alias gains the key once, at the end; no other alias changes |
| ModelRegistry.ModelRegistryService.ResolveModel | libs/sirius-model-registry/src/model-registry.service.ts:20-48 | The three lookups give what the specification over the log gives |
| ModelRegistry.ModelRegistryService.GetCapabilities | libs/sirius-model-registry/src/model-registry.service.ts:53-67 | Likewise for capabilities, with and without a provider |
| ModelRegistry.ResolveRefinesLog | libs/sirius-model-registry/src/model-registry.service.ts:20-48 | Resolution through key map and alias index is one scan of the whole log: key match, else first registered id match, else first declarer of the alias |
| ModelRegistry.RefinesUnlessNamesClash | libs/sirius-model-registry/src/model-registry.service.ts:105-107 | That holds for all logs over a set of providers if and only if no name of the set is another one followed by a colon; colon-free names are safe |
| ModelRegistry.ClashCollides | libs/sirius-model-registry/src/model-registry.service.ts:106-107 | For clashing names, two registrations after which the first model's id no longer resolves |
| ModelRegistry.CapabilitiesAreLast | libs/sirius-model-registry/src/model-registry.service.ts:53-67 | getCapabilities gives the last registration of the pair asked for, and without a provider that of the first provider to register the id |
| ModelRegistry.MonotoneResolution | libs/sirius-model-registry/src/model-registry.service.ts:20-48 | For all that a set of providers can register, first and later: a resolved string stays resolved, its rank never drops and at the same rank the answer never changes - if and only if no two of their names clash |
| ModelRegistry.ClashDropsResolution | libs/sirius-model-registry/src/model-registry.service.ts:105-107 | For clashing names, a later registration after which an id that resolved no longer does |
| ModelRegistry.DeclaredResolves | libs/sirius-model-registry/src/model-registry.service.ts:38-45 | A declared alias resolves, whatever else is registered and whatever the providers are called |
| ModelDiscovery.StripsExactlyOnePrefix | libs/sirius-model-registry/src/model-discovery.service.ts:215-238 | A prefix is stripped exactly from ids of the form prefix/tail, both non-empty and with no further slash; all others pass unchanged |
| ModelDiscovery.MatrixIs | libs/sirius-model-registry/src/model-discovery.service.ts:171-202 | What a listed model is registered as: canonical id, provider, the raw id as a further alias only if it had a prefix, and an embedding model exactly if its canonical id contains "embed" in any case, else one that chats and streams |
| ModelDiscovery.RegisterModels | libs/sirius-model-registry/src/model-discovery.service.ts:142-160 | Every listed model is registered in order and counted |
| ModelDiscovery.DiscoveredStaysResolvable | libs/sirius-model-registry/src/model-discovery.service.ts:171-202 | Whatever is registered before or later, and whatever the providers are called, raw and canonical id of a discovered model resolve |
| Providers.ProviderRegistry.Register | libs/sirius-core/src/provider-registry.ts:8-10 | Sets the provider under its own name and keeps a known name's place in the order |
| Providers.ProviderRegistry.Unregister | libs/sirius-core/src/provider-registry.ts:18-20 | Removes the name and says whether it was there |
| Providers.WithoutKeepsOrder | libs/sirius-core/src/provider-registry.ts:18-20 | The other names keep their order |
| Providers.ProviderRegistry.Get | libs/sirius-core/src/provider-registry.ts:22-24 | Gives a provider exactly for registered names, and one of that name |
| Lines.ReadLines | libs/provider-anthropic/src/anthropic.stream-parser.ts:43-59 | However a text is cut into chunks, the events and the final state are those of the line function folded over the lines of the whole text, an unterminated last line included |
| Lines.ProcessLines | libs/provider-anthropic/src/anthropic.stream-parser.ts:52-54 | Processing the whole lines of a chunk is the fold over them |
| Lines.ReadAnother | libs/provider-anthropic/src/anthropic.stream-parser.ts:48-54 | One round of the loop: the kept buffer and the processed lines stay those of all text read so far |
| Lines.JoinInvertsSplit | libs/provider-anthropic/src/anthropic.stream-parser.ts:49-50 | Splitting loses nothing and leaves no line break in a line |
| Lines.SplitAppend | libs/provider-anthropic/src/anthropic.stream-parser.ts:48-50 | Splitting the rest together with the next chunk gives the lines of the whole |
| Lines.TrimIs | libs/provider-anthropic/src/anthropic.stream-parser.ts:70 | Trimming takes white space off both ends, and all of it |
| Lines.TrimIgnores | libs/provider-anthropic/src/anthropic.stream-parser.ts:70 | A blank, tab, carriage return or line feed at either end makes no difference, so lines that end in a carriage return read like those that do not |
| Lines.PayloadIs | libs/provider-anthropic/src/anthropic.stream-parser.ts:70-78 | A line has a payload exactly if, trimmed, it is the data field followed by that payload |
| AnthropicStream.ParseAnthropicStream | libs/provider-anthropic/src/anthropic.stream-parser.ts:24-63 | The events depend on the concatenated text alone; a missing body is one error |
| AnthropicStream.LineBrings | libs/provider-anthropic/src/anthropic.stream-parser.ts:65-87 | A line brings an event exactly if it is a data line whose payload parses |
| AnthropicStream.LinesThenEvents | libs/provider-anthropic/src/anthropic.stream-parser.ts:65-173 | Parsing line by line is decoding all data lines and then processing the events |
| OllamaStream.ParseOllamaStream | libs/provider-ollama/src/ollama.stream-parser.ts:13-56 | The events depend on the concatenated text alone, carried flag and ids included |
| OllamaStream.StreamTells | libs/provider-ollama/src/ollama.stream-parser.ts:58-121 | After any text a client has the chunks' contents in order and the usage of the last final chunk that counted; it was told of every call with its place, name and arguments; the finish reason is tool_calls if any call came, else length on a length stop, else stop |
| OllamaStream.StateSummarisesStream | libs/provider-ollama/src/ollama.stream-parser.ts:58-121 | The seen-tool flag is set exactly if a tool call went out, and calls of one index always carry one id |
| OllamaStream.ChunkKeepsSummary | libs/provider-ollama/src/ollama.stream-parser.ts:73-120 | One chunk keeps that, and a final chunk ends with the finish reason the flag demands |
| OpenAiStream.ParseOpenAiStream | libs/provider-openai/src/openai.stream-parser.ts:13-47 | The events depend on the concatenated text alone |
| OpenAiStream.LineBrings | libs/provider-openai/src/openai.stream-parser.ts:49-70 | A line brings a chunk exactly if it is a data line whose payload parses and is not the end-of-stream sentinel |
| OpenAiStream.ChunkIsTransparent | libs/provider-openai/src/openai.stream-parser.ts:72-111 | A chunk parsed and printed again tells a client what the upstream's own chunk would have, if and only if its finish reason is missing, empty or one of stop, length, tool_calls and content_filter |
| OpenAiStream.GatewayIsTransparent | libs/provider-openai/src/openai.stream-parser.ts:49-124 | For every stream text, a client behind the gateway has the text, tool calls and usage of a client of the upstream, and the finish reason too if and only if the last one in the stream is known to the gateway |
| OpenAiStream.FunctionCallIsLost | libs/provider-openai/src/openai.mapper.ts:106-109 | The finish reason function_call reaches the client as stop |
| OpenAiCompat.FormatChatCompletionResponse | libs/sirius-compat-openai/src/openai-compat.service.ts:320-372 | The loop gives all text parts joined (null if empty) and all tool calls in order |
| OpenAiCompat.ToolChunk | libs/sirius-compat-openai/src/openai-compat.service.ts:419-444 | A tool chunk names the call's index, id, name and arguments, empty ones left out, and says it is a function exactly if it carries id or name |
| AnthropicAgreement.FromAnthropicResponse | libs/provider-anthropic/src/anthropic.mapper.ts:160-199 | The loop gives the content parts in order, the mapped reason and usage that adds up |
| AnthropicAgreement.ToolPiped | libs/provider-anthropic/src/anthropic.stream-parser.ts:105-139 | A tool block, whatever its content-block index, becomes the client's next tool call with its fragments joined |
| AnthropicAgreement.BlocksPiped | libs/provider-anthropic/src/anthropic.stream-parser.ts:105-143 | After any blocks the client has their text and one call per tool block, by ordinal |
| AnthropicAgreement.PipeIgnoresNoise | libs/provider-anthropic/src/anthropic.stream-parser.ts:141-172 | Stops, pings and unknown blocks or deltas reach neither state nor client |
| AnthropicAgreement.AccumulatedText | libs/provider-anthropic/src/anthropic.mapper.ts:165-170 | The accumulated text is the streamed text if and only if no text block starts with text |
| AnthropicAgreement.AccumulatedCalls | libs/provider-anthropic/src/anthropic.mapper.ts:167-182 | The response's calls are the tool blocks in order, each with its reprinted input |
| AnthropicAgreement.ClientOfStream | libs/sirius-compat-openai/src/openai-compat.service.ts:393-479 | What a client holds after any stream of a message: its text, its calls, its finish reason, and usage with the input count carried from the start |
| AnthropicAgreement.StreamAgreesWithResponse | libs/provider-anthropic/src/anthropic.stream-parser.ts:105-166 | Text, ordered (id, name) list and finish reason are those of the non-streaming answer, each if and only if its condition on the message holds; every arguments string is the joined fragments |
| AnthropicAgreement.TextAgreesWithResponse | libs/provider-anthropic/src/anthropic.stream-parser.ts:43-173 | The same agreement, with its exact conditions and the arguments strings, from the network text on, however it was cut |
| ResponsesInput.ParseInput | libs/sirius-compat-openai/src/openai-compat.service.ts:251-277 | Items are accepted exactly if none is malformed and else rejected at the first that is; the messages are the instructions, one message for each item that is no call, saying what it says, and one for each run of calls without an assistant message to join; the calls across them are the function_call items in order |
| ResponsesInput.ItemsRelayed | libs/sirius-compat-openai/src/openai-compat.service.ts:687-747 | In order, a tool output becomes a tool message with that output and call id, and a message item one with its role (developer as system) and its text or text parts; every other message stands for calls alone |
| ResponsesInput.Conveyed | libs/sirius-compat-openai/src/openai-compat.service.ts:251-277 | The accepted messages are the instructions, if there are any, and then the relayed items |
| ResponsesInput.TurnsConserveItems | libs/sirius-compat-openai/src/openai-compat.service.ts:251-277 | Grouping items into turns loses, adds and reorders nothing, and calls stand alone only where no assistant message precedes |
| ResponsesInput.TurnsAreUnique | libs/sirius-compat-openai/src/openai-compat.service.ts:722-747 | There is only one such grouping, so each run of calls joins the assistant message right before it or one fresh one |
| ResponsesInput.PushIsExtend | libs/sirius-compat-openai/src/openai-compat.service.ts:687-747 | One item pushed or joined by the parser is one item added to the grouping |
| ResponsesInput.InputConserved | libs/sirius-compat-openai/src/openai-compat.service.ts:251-277 | The pushed messages are one per turn, after the instructions, which no call joins |
| ResponsesInput.CallsConserved | libs/sirius-compat-openai/src/openai-compat.service.ts:730-747 | Calls across one-message-per-turn are the calls among the turns' items, in order |
| Reload.Reconcile | libs/provider-fromfile/src/fromfile-provider.module.ts:402-450 | Report, registry and owned names are those of the specification, with presence asked at each entry's own moment |
| Reload.RemoveDropped | libs/provider-fromfile/src/fromfile-provider.module.ts:415-422 | Exactly the owned names the file no longer mentions are unregistered, in order |
| Reload.FromFileReloadService.Reload | libs/provider-fromfile/src/fromfile-provider.module.ts:485-493 | A reload moves registry and owned names on; a file that does not load changes nothing |
| Reload.FatesPartition | libs/provider-fromfile/src/fromfile-provider.module.ts:424-445 | Every entry lands in exactly one of added, kept and skipped |
| Reload.ReloadPerName | libs/provider-fromfile/src/fromfile-provider.module.ts:412-445 | Per name: buildable ones are registered, dropped owned ones are gone, all others keep their adapter or stay absent |
| Reload.ReportMeans | libs/provider-fromfile/src/fromfile-provider.module.ts:412-445 | Per name and entry: kept is what can be built, was owned and is held when its turn comes; added is everything else that can be built; skipped is what cannot; removed is what was owned and is nowhere in the file |
| Reload.LastBuilt | libs/provider-fromfile/src/fromfile-provider.module.ts:424-440 | Of several entries with one name the last that can be built is registered |
| Reload.Orphaned | libs/provider-fromfile/src/fromfile-provider.module.ts:426-444 | An owned name ends up registered but unowned if and only if the file mentions it and cannot build it |
| Reload.OrphanExists | libs/provider-fromfile/src/fromfile-provider.module.ts:426-444 | A one-entry file for which that happens |
| Reload.OwnedIsRegistered | libs/provider-fromfile/src/fromfile-provider.module.ts:485-493 | Over any run of reloads the owned names are what the last loaded file can build, all registered |
| Reload.StrangersUntouched | libs/provider-fromfile/src/fromfile-provider.module.ts:402-450 | Over any run of reloads a name neither owned nor buildable from a file is untouched |
| Reload.ReloadIsIdempotent | libs/provider-fromfile/src/fromfile-provider.module.ts:485-493 | Reloading an unchanged file adds, removes and changes nothing and keeps every buildable entry |
| LlamactlStream.StreamResponse | libs/provider-llamactl/src/llamactl.adapter.ts:84-135 | The loop gives the translated content up to the first terminal event, then the closing events of its specification |
| LlamactlStream.Deltas | libs/provider-llamactl/src/llamactl.adapter.ts:311-318 | Translated content never holds a terminal event |
| LlamactlStream.DeltasSay | libs/provider-llamactl/src/llamactl.adapter.ts:311-318 | The content is the upstream's text, in deltas none of which is empty |
| LlamactlStream.TerminalSays | libs/provider-llamactl/src/llamactl.adapter.ts:84-135 | What the first terminal event says: done with the upstream's finish reason exactly if the upstream signalled it itself, else the error, the throw or the early end |
| LlamactlStream.StreamTerminates | libs/provider-llamactl/src/llamactl.adapter.ts:84-135 | Exactly one terminal event, in last position, if and only if closing the upstream at a done does not throw; done if and only if the first upstream terminal event is a done it signalled itself |
| LlamactlStream.DoneThenError | libs/provider-llamactl/src/llamactl.adapter.ts:107-134 | An upstream run for which an error follows done |
| LlamactlObservations.ObservationIsolation | libs/provider-llamactl/src/llamactl.adapter.ts:63-82 | At every moment of every run, what a call in flight would carry away is what was last reported for that call since it began, or nothing |
| LlamactlObservations.OnlyInFlight | libs/provider-llamactl/src/llamactl.adapter.ts:79-81 | The map's keys are attempts in flight; it is empty when nothing is |
| LlamactlObservations.LeaksOnlyLate | libs/provider-llamactl/src/llamactl.adapter.ts:54-60 | A step leaves an entry behind if and only if it is a callback outside its own call |
| LlamactlObservations.LateCallbackIsCarried | libs/provider-llamactl/src/llamactl.adapter.ts:54-76 | A run in which a late callback leaves an entry that a later call of the same id would carry away |
| LlamactlObservations.LlamactlAdapter.OnUsageObservation | libs/provider-llamactl/src/llamactl.adapter.ts:54-60 | Keeps an observation only under a non-empty attempt id |
| LlamactlObservations.LlamactlAdapter.Resolved | libs/provider-llamactl/src/llamactl.adapter.ts:74-81 | Carries the call's own entry and deletes it |
| LlamactlObservations.LlamactlAdapter.Rejected | libs/provider-llamactl/src/llamactl.adapter.ts:174-176 | A failed call deletes its entry too |

## Left out

- Policy.PolicyStream.Next: drops an abandoned generator at the idle timeout; what such a run still does is in `Protocol`.
- Policy.PolicyService.ExecuteWithPolicy: the reason of an aborted signal stands as one constant message.
- Gateway.GatewayService.CreateResponse: the answer carries provider, model and fallback flag; strategy, token count and latency of the response metadata are not modelled.
- ResponsesInput.ParseInput: takes a list of items; an input that is one plain string becomes one user message and is not modelled.
- ProtocolSimulation.StreamIsTheHistory: follows the history on time of one request while everything else in flight rests; interleaved requests are covered by the safety theorems, and what abandoned runs do after the request is over is not followed.
- Protocol does not mention routing or response texts: a request begins with its provider chain, and a successful non-streaming request has no output events there.
- Closing an upstream iterator early takes no step of its own in `Protocol`, and throws from a closing policy generator are not modelled there.
- The messages of timeouts and open breakers are modelled without their millisecond counts.
- Retry count, delays and timeouts are natural numbers; fractional or negative settings are not modelled.
- The read loop of the three parsers is modelled once and used with each parser's line function; `done` of the reader, UTF-8 decoding and the released lock are not modelled.
- JSON payloads are taken to have the shape their types declare; the TypeErrors other shapes would raise are not modelled.
- OpenAiStream.GatewayIsTransparent: the upstream's client is taken to pass over empty ids, names and finish reasons and to give a tool call without an index the index 0, as the gateway does.
- Finish and stop reasons that name a member every JavaScript object inherits (such as `constructor`) are mapped like unknown ones.
- Lower-casing in the embedding-model heuristic is ASCII only.
- Ollama tool indices are not claimed to be unique across chunks, and OpenAI usage may follow `done`.
- Chunk and completion ids, timestamps, model names and constant fields are not in the chunk types.
- Model fields that no modelled code reads (context window, output limit) are not in `Model`.
- A tool's JSON input printed by the non-streaming path is the function `reprint` of the streamed text.
- The reload theorems speak of names and adapters, not of the order of names in the registry.
- A synchronous throw of the llamactl client before its stream exists, and the embeddings result mapping, are not modelled; both calls share `Resolved` and `Rejected`.
- createEmbeddings of the gateway, listModels, getProviderHealth, the latency tracker's window, health probes and the streaming observer: easy members.
- HTTP, controllers, the MCP server, authentication, logging, configuration and YAML loading: plumbing.
- The Nova schemas and the usage recorder rest on a library that is not part of this model.
- Field-by-field request mappers, embeddings mappers, tool choice and response formats: easy members.
