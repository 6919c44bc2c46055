/** `RoutingService`: resolve the model, collect candidates, run a strategy. */
module Routing {
  import opened Unified
  import opened Providers
  import opened ModelRegistry
  import opened Strategies

  datatype RouteRequest = RouteRequest(model: string, stream: bool, tools: bool, embeddings: bool)

  datatype Decision = Decision(selectedProvider: string, selectedModel: string, strategy: string, reason: string,
                               fallbackChain: seq<string>, attemptNumber: nat)

  const NO_PROVIDER := "No eligible provider found"

  function UnknownModel(model: string): string {
    "The model '" + model + "' does not exist or you do not have access to it."
  }

  function Join(parts: seq<string>, sep: string): string {
    if parts == [] then "" else if |parts| == 1 then parts[0] else parts[0] + sep + Join(parts[1..], sep)
  }

  function NoCandidates(model: string, providers: seq<string>): string {
    if providers == [] then "No eligible candidates for model=" + model
    else "The model '" + model + "' requires provider(s) '" + Join(providers, ", ")
         + "' which are not configured or are unhealthy."
  }

  function StrategyName(s: Strategy): string {
    match s
    case Pinned => "pinned"
    case Fastest => "fastest"
    case Cheapest => "cheapest"
    case Balanced => "balanced"
    case LocalFirst => "local-first"
    case PrivacyFirst => "privacy-first"
  }

  /** The strategy map of the constructor; an unknown name falls back to pinned. */
  function GetStrategy(name: string): (s: Strategy)
    ensures StrategyName(s) == name || (s == Pinned && forall t :: StrategyName(t) != name)
  {
    if name == "fastest" then Fastest
    else if name == "cheapest" then Cheapest
    else if name == "balanced" then Balanced
    else if name == "local-first" then LocalFirst
    else if name == "privacy-first" then PrivacyFirst
    else Pinned
  }

  const DEFAULT_STRATEGY := "pinned"

  function Required(request: RouteRequest): seq<Capability> {
    [if request.embeddings then Embeddings else Chat]
    + (if request.stream then [Streaming] else [])
    + (if request.tools then [Tools] else [])
  }

  predicate Meets(m: Model, required: seq<Capability>) {
    forall cap :: cap in required ==> cap in m.capabilities
  }

  predicate Eligible(m: Model, modelId: string, registered: set<string>, required: seq<Capability>) {
    m.modelId == modelId && m.provider in registered && Meets(m, required)
  }

  /** A candidate with the default health record: healthy, average latency or 0. */
  function Offer(m: Model, latencies: map<string, real>): Candidate {
    Candidate(m, Healthy, Some(if m.provider in latencies then latencies[m.provider] else 0.0))
  }

  function Candidates(models: seq<Model>, modelId: string, registered: set<string>, required: seq<Capability>,
                      latencies: map<string, real>): seq<Candidate>
  {
    if models == [] then [] else
      (if Eligible(models[0], modelId, registered, required) then [Offer(models[0], latencies)] else [])
      + Candidates(models[1..], modelId, registered, required, latencies)
  }

  /** The candidates are the offers of the eligible models, no more and no fewer. */
  lemma {:induction false} CandidatesAreEligible(models: seq<Model>, modelId: string, registered: set<string>,
                                                 required: seq<Capability>, latencies: map<string, real>, c: Candidate)
    ensures c in Candidates(models, modelId, registered, required, latencies)
       <==> c.model in models && Eligible(c.model, modelId, registered, required) && c == Offer(c.model, latencies)
  {
    if models != [] {
      assert models == [models[0]] + models[1..];
      CandidatesAreEligible(models[1..], modelId, registered, required, latencies, c);
    }
  }

  /** Candidates keep the order in which their models were registered. */
  lemma {:induction false} CandidatesInOrder(earlier: seq<Model>, later: seq<Model>, modelId: string,
                                             registered: set<string>, required: seq<Capability>,
                                             latencies: map<string, real>)
    ensures Candidates(earlier + later, modelId, registered, required, latencies)
         == Candidates(earlier, modelId, registered, required, latencies)
            + Candidates(later, modelId, registered, required, latencies)
  {
    if earlier == [] {
      assert earlier + later == later;
    } else {
      assert (earlier + later)[1..] == earlier[1..] + later;
      CandidatesInOrder(earlier[1..], later, modelId, registered, required, latencies);
    }
  }

  lemma CandidatesUnfold(models: seq<Model>, i: nat, modelId: string, registered: set<string>,
                         required: seq<Capability>, latencies: map<string, real>)
    requires i < |models|
    ensures Candidates(models[i..], modelId, registered, required, latencies)
         == (if Eligible(models[i], modelId, registered, required) then [Offer(models[i], latencies)] else [])
            + Candidates(models[i + 1..], modelId, registered, required, latencies)
  {
    assert models[i..][1..] == models[i + 1..];
  }

  function ProvidersFor(models: seq<Model>, modelId: string): seq<string> {
    if models == [] then [] else
      (if models[0].modelId == modelId then [models[0].provider] else []) + ProvidersFor(models[1..], modelId)
  }

  function Encode(c: Candidate): string {
    c.model.provider + "/" + c.model.modelId
  }

  function EncodeAll(cs: seq<Candidate>): (r: seq<string>)
    ensures |r| == |cs| && forall i :: 0 <= i < |cs| ==> r[i] == Encode(cs[i])
  {
    seq(|cs|, i requires 0 <= i < |cs| => Encode(cs[i]))
  }

  function NoRoute(model: string, strategy: string, reason: string): Decision {
    Decision("", model, strategy, reason, [], 0)
  }

  /** `route` once the model is resolved and the candidates are known. */
  function Decide(modelId: string, strategyName: string, models: seq<Model>, candidates: seq<Candidate>): Decision {
    if candidates == [] then
      NoRoute(modelId, strategyName, NoCandidates(modelId, ProvidersFor(models, modelId)))
    else
      var s := GetStrategy(strategyName);
      var selected := Select(s, modelId, candidates);
      if selected.None? then NoRoute(modelId, strategyName, NO_PROVIDER)
      else Decision(selected.value.model.provider, selected.value.model.modelId, StrategyName(s),
                    "Selected by " + StrategyName(s) + " strategy",
                    EncodeAll(FallbackChain(s, modelId, candidates)), 1)
  }

  /** The candidates of a request for model `modelId`. */
  function OfferedFor(models: seq<Model>, modelId: string, registered: set<string>, latencies: map<string, real>,
                      request: RouteRequest): seq<Candidate>
  {
    Candidates(models, modelId, registered, Required(request), latencies)
  }

  /** What `route` ranks for a request, in order; empty when there is no route. */
  function RankedFor(log: seq<Model>, models: seq<Model>, registered: set<string>, latencies: map<string, real>,
                     request: RouteRequest, strategyName: string): seq<Candidate> {
    var resolved := Resolve(log, request.model);
    if resolved.None? then [] else
      Rank(GetStrategy(strategyName), resolved.value.modelId,
           OfferedFor(models, resolved.value.modelId, registered, latencies, request))
  }

  class RoutingService {
    const modelRegistry: ModelRegistryService
    const providerRegistry: ProviderRegistry
    /** The latency tracker's current averages. */
    var latencies: map<string, real>

    constructor (modelRegistry: ModelRegistryService, providerRegistry: ProviderRegistry)
      ensures this.modelRegistry == modelRegistry && this.providerRegistry == providerRegistry
    {
      this.modelRegistry, this.providerRegistry, latencies := modelRegistry, providerRegistry, map[];
    }

    ghost predicate Valid()
      reads this, modelRegistry, providerRegistry
    {
      modelRegistry.Valid() && providerRegistry.Valid()
    }

    /** The decision for a request on the registries as they stand. */
    ghost function Routed(request: RouteRequest, preferred: Option<string>): Decision
      requires Valid()
      reads this, modelRegistry, providerRegistry
    {
      var name := if preferred.Some? then preferred.value else DEFAULT_STRATEGY;
      var resolved := Resolve(modelRegistry.log, request.model);
      if resolved.None? then NoRoute(request.model, name, UnknownModel(request.model)) else
        var models := modelRegistry.ListModels();
        Decide(resolved.value.modelId, name, models,
               OfferedFor(models, resolved.value.modelId, providerRegistry.providers.Keys, latencies, request))
    }

    method DeriveCapabilities(request: RouteRequest) returns (caps: seq<Capability>)
      ensures caps == Required(request)
    {
      caps := [];
      if request.embeddings {
        caps := caps + [Embeddings];
      } else {
        caps := caps + [Chat];
      }
      if request.stream {
        caps := caps + [Streaming];
      }
      if request.tools {
        caps := caps + [Tools];
      }
    }

    method BuildCandidates(models: seq<Model>, modelId: string, required: seq<Capability>)
      returns (candidates: seq<Candidate>)
      requires Valid()
      ensures candidates == Candidates(models, modelId, providerRegistry.providers.Keys, required, latencies)
    {
      candidates := [];
      ghost var registered := providerRegistry.providers.Keys;
      ghost var all := Candidates(models, modelId, registered, required, latencies);
      assert models[0..] == models;
      for i := 0 to |models|
        invariant all == candidates + Candidates(models[i..], modelId, registered, required, latencies)
      {
        var model := models[i];
        CandidatesUnfold(models, i, modelId, registered, required, latencies);
        if model.modelId == modelId && model.provider in providerRegistry.providers && Meets(model, required) {
          candidates := candidates + [Offer(model, latencies)];
        }
      }
    }

    method Route(request: RouteRequest, preferred: Option<string>) returns (d: Decision)
      requires Valid()
      ensures d == Routed(request, preferred)
    {
      var strategyName := if preferred.Some? then preferred.value else DEFAULT_STRATEGY;
      var resolved := modelRegistry.ResolveModel(request.model);
      if resolved.None? {
        return NoRoute(request.model, strategyName, UnknownModel(request.model));
      }
      var modelId := resolved.value.modelId;
      var required := DeriveCapabilities(request);
      var models := modelRegistry.ListModels();
      var candidates := BuildCandidates(models, modelId, required);
      d := Decide(modelId, strategyName, models, candidates);
    }
  }

  ghost predicate DistinctProviders(cs: seq<Candidate>) {
    forall i, j :: 0 <= i < j < |cs| ==> cs[i].model.provider != cs[j].model.provider
  }

  /** The models of a registry: one per key. */
  ghost predicate DistinctKeys(models: seq<Model>) {
    forall i, j :: 0 <= i < j < |models| ==> Key(models[i]) != Key(models[j])
  }

  lemma ListedModelsAreDistinct(log: seq<Model>, models: seq<Model>)
    requires |models| == |Keys(log)| && forall i :: 0 <= i < |models| ==> LastOf(log, Keys(log)[i]) == Some(models[i])
    ensures DistinctKeys(models)
  {
    KeysAre(log);
    assert forall i :: 0 <= i < |models| ==> Key(models[i]) == Keys(log)[i];
  }

  lemma {:induction false} CandidatesDistinct(models: seq<Model>, modelId: string, registered: set<string>,
                                              required: seq<Capability>, latencies: map<string, real>)
    requires DistinctKeys(models)
    ensures DistinctProviders(Candidates(models, modelId, registered, required, latencies))
  {
    if models != [] {
      var rest := Candidates(models[1..], modelId, registered, required, latencies);
      CandidatesDistinct(models[1..], modelId, registered, required, latencies);
      if Eligible(models[0], modelId, registered, required) {
        forall j | 0 <= j < |rest| ensures rest[j].model.provider != models[0].provider {
          var m := rest[j].model;
          assert rest[j] in rest;
          CandidatesAreEligible(models[1..], modelId, registered, required, latencies, rest[j]);
          var k :| 0 <= k < |models[1..]| && models[1..][k] == m;
          assert models[k + 1] == m && Key(models[0]) != Key(models[k + 1]);
        }
      }
    }
  }

  lemma {:induction false} TwiceMeansTwoPlaces(cs: seq<Candidate>, c: Candidate)
    requires multiset(cs)[c] >= 2
    ensures exists i, j :: 0 <= i < j < |cs| && cs[i] == c && cs[j] == c
  {
    assert cs == [cs[0]] + cs[1..];
    if cs[0] == c {
      assert multiset(cs[1..])[c] >= 1;
      var k :| 0 <= k < |cs[1..]| && cs[1..][k] == c;
      assert cs[0] == c && cs[k + 1] == c;
    } else {
      TwiceMeansTwoPlaces(cs[1..], c);
      var i, j :| 0 <= i < j < |cs[1..]| && cs[1..][i] == c && cs[1..][j] == c;
      assert cs[i + 1] == c && cs[j + 1] == c;
    }
  }

  /** Drawing from candidates with distinct providers repeats no provider. */
  lemma DrawnDistinct(drawn: seq<Candidate>, cs: seq<Candidate>)
    requires multiset(drawn) <= multiset(cs) && DistinctProviders(cs)
    ensures DistinctProviders(drawn)
  {
    forall i, j | 0 <= i < j < |drawn| ensures drawn[i].model.provider != drawn[j].model.provider {
      var a, b := drawn[i], drawn[j];
      assert a in multiset(drawn) && b in multiset(drawn);
      assert a in cs && b in cs;
      if a == b {
        assert drawn == drawn[..j] + [drawn[j]] + drawn[j + 1..];
        assert drawn[..j][i] == a;
        assert multiset(drawn)[a] >= 2;
        TwiceMeansTwoPlaces(cs, a);
        assert false;
      }
    }
  }

  /** What a request asks of a model. */
  predicate Suits(request: RouteRequest, m: Model) {
    && (if request.embeddings then Embeddings in m.capabilities else Chat in m.capabilities)
    && (request.stream ==> Streaming in m.capabilities)
    && (request.tools ==> Tools in m.capabilities)
  }

  /** The candidates of a request are exactly the listed models of the id that have
      a registered provider and suit the request, each taken for healthy and with
      its provider's average latency, or 0 if there is none. */
  lemma OffersSuit(models: seq<Model>, modelId: string, registered: set<string>, latencies: map<string, real>,
                   request: RouteRequest, c: Candidate)
    ensures c in OfferedFor(models, modelId, registered, latencies, request) <==>
              && c.model in models && c.model.modelId == modelId && c.model.provider in registered
              && Suits(request, c.model) && c.status == Healthy
              && c.latencyMs == Some(if c.model.provider in latencies then latencies[c.model.provider] else 0.0)
  {
    CandidatesAreEligible(models, modelId, registered, Required(request), latencies, c);
    RequiredSuits(request, c.model);
  }

  lemma RequiredSuits(request: RouteRequest, m: Model)
    ensures Meets(m, Required(request)) <==> Suits(request, m)
  {
    var caps := Required(request);
    assert caps[0] in caps;
    if request.stream {
      assert caps[1] in caps;
    }
    if request.tools {
      assert caps[|caps| - 1] in caps;
    }
  }

  /** What a route ranks has no provider twice, is all registered, serves the
      resolved model and suits the request. */
  lemma RankedIsSound(log: seq<Model>, models: seq<Model>, registered: set<string>, latencies: map<string, real>,
                      request: RouteRequest, strategyName: string)
    requires DistinctKeys(models)
    ensures var ranked := RankedFor(log, models, registered, latencies, request, strategyName);
            && DistinctProviders(ranked)
            && forall c :: c in ranked ==>
                 && c.model in models && c.model.provider in registered
                 && Resolve(log, request.model).Some? && c.model.modelId == Resolve(log, request.model).value.modelId
                 && Suits(request, c.model)
  {
    var resolved := Resolve(log, request.model);
    if resolved.Some? {
      var id := resolved.value.modelId;
      var cs := OfferedFor(models, id, registered, latencies, request);
      CandidatesDistinct(models, id, registered, Required(request), latencies);
      RankIsDrawnFromUp(GetStrategy(strategyName), id, cs);
      DrawnDistinct(Rank(GetStrategy(strategyName), id, cs), cs);
      forall c | c in cs
        ensures c.model in models && c.model.provider in registered && c.model.modelId == id && Suits(request, c.model)
      {
        OffersSuit(models, id, registered, latencies, request, c);
      }
    }
  }

  // ---- Names and reasons ----

  /** The six strategies by name; any other name is pinned. */
  lemma StrategiesByName(name: string)
    ensures GetStrategy("pinned") == Pinned && GetStrategy("fastest") == Fastest && GetStrategy("cheapest") == Cheapest
    ensures GetStrategy("balanced") == Balanced && GetStrategy("local-first") == LocalFirst
    ensures GetStrategy("privacy-first") == PrivacyFirst
    ensures name !in {"fastest", "cheapest", "balanced", "local-first", "privacy-first"} ==> GetStrategy(name) == Pinned
    ensures name in {"pinned", "fastest", "cheapest", "balanced", "local-first", "privacy-first"} ==>
              StrategyName(GetStrategy(name)) == name
  {
  }

  lemma {:induction false} ProvidersAre(models: seq<Model>, modelId: string, provider: string)
    ensures provider in ProvidersFor(models, modelId)
       <==> exists i :: 0 <= i < |models| && models[i].modelId == modelId && models[i].provider == provider
  {
    if models != [] {
      ProvidersAre(models[1..], modelId, provider);
      if i :| 0 <= i < |models| && models[i].modelId == modelId && models[i].provider == provider {
        assert i > 0 ==> models[1..][i - 1] == models[i];
      }
      if i :| 0 <= i < |models[1..]| && models[1..][i].modelId == modelId && models[1..][i].provider == provider {
        assert models[i + 1].modelId == modelId && models[i + 1].provider == provider;
      }
    }
  }

  /** `providers` joined by commas. */
  ghost predicate IsList(text: string, providers: seq<string>)
    decreases |providers|
  {
    if providers == [] then false
    else if |providers| == 1 then text == providers[0]
    else exists rest :: text == providers[0] + ", " + rest && IsList(rest, providers[1..])
  }

  lemma {:induction false} JoinLists(providers: seq<string>)
    requires providers != []
    ensures IsList(Join(providers, ", "), providers)
  {
    if |providers| > 1 {
      JoinLists(providers[1..]);
      assert Join(providers, ", ") == providers[0] + ", " + Join(providers[1..], ", ");
    }
  }

  /** Without candidates there is no provider, and the reason names the providers
      that list the model, if any. */
  lemma NoCandidateReason(modelId: string, strategyName: string, models: seq<Model>)
    ensures var d, providers := Decide(modelId, strategyName, models, []), ProvidersFor(models, modelId);
            && d.selectedProvider == "" && d.fallbackChain == [] && d.attemptNumber == 0 && d.strategy == strategyName
            && if providers == [] then d.reason == "No eligible candidates for model=" + modelId
               else (exists list :: IsList(list, providers)
                       && d.reason == "The model '" + modelId + "' requires provider(s) '" + list
                                      + "' which are not configured or are unhealthy.")
  {
    var providers := ProvidersFor(models, modelId);
    if providers != [] {
      JoinLists(providers);
      var list := Join(providers, ", ");
      assert IsList(list, providers)
          && Decide(modelId, strategyName, models, []).reason
             == "The model '" + modelId + "' requires provider(s) '" + list
                + "' which are not configured or are unhealthy.";
    }
  }

  /** With candidates of which one is up, the first in rank is selected. */
  lemma SelectedIsFirst(modelId: string, strategyName: string, models: seq<Model>, cs: seq<Candidate>)
    requires Rank(GetStrategy(strategyName), modelId, cs) != []
    ensures var d, ranked := Decide(modelId, strategyName, models, cs), Rank(GetStrategy(strategyName), modelId, cs);
            && d.selectedProvider == ranked[0].model.provider && d.selectedModel == ranked[0].model.modelId
            && d.attemptNumber == 1 && d.strategy == StrategyName(GetStrategy(strategyName))
            && d.reason == "Selected by " + d.strategy + " strategy"
            && |d.fallbackChain| == |ranked| - 1
            && forall i :: 1 <= i < |ranked| ==>
                 d.fallbackChain[i - 1] == ranked[i].model.provider + "/" + ranked[i].model.modelId
  {
    var s := GetStrategy(strategyName);
    RankIsDrawnFromUp(s, modelId, cs);
    assert Rank(s, modelId, cs)[0] in Rank(s, modelId, cs);
  }
}
