/** `GatewayService`: a routing decision is decoded into a provider chain, and
    the chain is walked. */
module Gateway {
  import opened Unified
  import opened Breaker
  import opened PolicyRules
  import opened Providers
  import opened Policy
  import opened Fallback
  import opened ModelRegistry
  import opened ModelDiscovery
  import opened Strategies
  import opened Routing

  /** The first two segments between slashes; None when either is empty or
      missing. */
  function Decode(fallback: string): Option<(string, string)> {
    var first := IndexOf(fallback, '/', 0);
    if first < 0 then None else
      var second := IndexOf(fallback, '/', first + 1);
      var provider := fallback[..first];
      var modelId := fallback[first + 1..if second < 0 then |fallback| else second];
      if provider == "" || modelId == "" then None else Some((provider, modelId))
  }

  function FallbackLegs(fallbacks: seq<string>, selected: string, providers: map<string, AiProvider>): seq<Leg> {
    if fallbacks == [] then [] else
      var rest := FallbackLegs(fallbacks[1..], selected, providers);
      var d := Decode(fallbacks[0]);
      if d.Some? && d.value.0 in providers && providers[d.value.0].name != selected then
        [Leg(providers[d.value.0], d.value.1)] + rest
      else
        rest
  }

  function ChainOf(d: Decision, providers: map<string, AiProvider>): seq<Leg> {
    (if d.selectedProvider in providers then [Leg(providers[d.selectedProvider], d.selectedModel)] else [])
    + FallbackLegs(d.fallbackChain, d.selectedProvider, providers)
  }

  datatype Streamed = Stream(events: seq<StreamEvent>) | NoStream(error: string)

  class GatewayService {
    const providerRegistry: ProviderRegistry
    const routing: RoutingService
    const policy: PolicyService

    constructor (routing: RoutingService, policy: PolicyService)
      ensures this.routing == routing && this.policy == policy
      ensures this.providerRegistry == routing.providerRegistry
    {
      this.routing, this.policy, this.providerRegistry := routing, policy, routing.providerRegistry;
    }

    ghost predicate Valid()
      reads this, routing, routing.modelRegistry, providerRegistry, policy
    {
      providerRegistry == routing.providerRegistry && routing.Valid() && policy.Valid()
    }

    method BuildProviderChain(d: Decision) returns (chain: seq<Leg>)
      requires providerRegistry.Valid()
      ensures chain == ChainOf(d, providerRegistry.providers)
    {
      chain := [];
      var primary := providerRegistry.Get(d.selectedProvider);
      if primary.Some? {
        chain := chain + [Leg(primary.value, d.selectedModel)];
      }
      for i := 0 to |d.fallbackChain|
        invariant chain + FallbackLegs(d.fallbackChain[i..], d.selectedProvider, providerRegistry.providers)
               == ChainOf(d, providerRegistry.providers)
      {
        var decoded := Decode(d.fallbackChain[i]);
        assert d.fallbackChain[i..][1..] == d.fallbackChain[i + 1..];
        if decoded.Some? {
          var provider := providerRegistry.Get(decoded.value.0);
          if provider.Some? && provider.value.name != d.selectedProvider {
            chain := chain + [Leg(provider.value, decoded.value.1)];
          }
        }
      }
    }

    /** The pump over one provider: events are relayed as they come, each pull
        raced against the idle timer. */
    method Relay(provider: AiProvider, start: nat, caller: Caller)
      returns (events: seq<StreamEvent>, end: PumpEnd, now: nat)
      requires policy.Valid()
      modifies policy
      ensures policy.Valid()
      ensures Pumped(events, end, policy.Contents(), now)
           == Pump(policy.cfg, caller, provider, Unopened, old(policy.Contents()), start)
    {
      ghost var cfg, all := policy.cfg, Pump(policy.cfg, caller, provider, Unopened, policy.Contents(), start);
      var stream := new PolicyStream(policy, provider, caller.abort);
      events, now := [], start;
      var who := caller;
      while true
        invariant who.abort == caller.abort
        invariant policy.Valid()
        invariant stream.service == policy && stream.provider == provider && stream.abort == caller.abort
        invariant var rest := Pump(cfg, who, provider, stream.gen, policy.Contents(), now);
                  all == rest.(events := events + rest.events)
        decreases if stream.gen.Unopened? then 1 else 0, if stream.gen.Reading? then stream.gen.rest else Silent
      {
        PullAdvances(cfg, caller.abort, provider, stream.gen, cfg.idleMs, policy.Contents(), now);
        var result;
        result, now := stream.Next(policy.cfg.idleMs, now);
        match result {
          case Value(event) =>
            events := events + [event];
            if who.breaksAt == Some(0) {
              return events, Left, now;
            }
            who := who.After();
          case Ended => return events, Completed, now;
          case Thrown(error) => return events, Broken(error), now;
          case Pending => return events, Broken(IDLE_TIMEOUT), now;
        }
      }
    }

    /** `streamResponse` over the providers of `chain`, whose
        caller may abort or break off. */
    method StreamChain(model: string, chain: seq<Leg>, start: nat, caller: Caller)
      returns (out: seq<StreamEvent>)
      requires policy.Valid()
      modifies policy
      ensures policy.Valid()
      ensures (out, policy.Contents())
           == StreamFrom(policy.cfg, caller, model, chain, None, old(policy.Contents()), start)
    {
      ghost var want := StreamFrom(policy.cfg, caller, model, chain, None, policy.Contents(), start);
      out := [];
      var now, lastError := start, None;
      for i := 0 to |chain|
        invariant policy.Valid()
        invariant want == StreamFrom(policy.cfg, caller, model, chain[i..], lastError, policy.Contents(), now)
      {
        assert chain[i..][0] == chain[i] && chain[i..][1..] == chain[i + 1..];
        var end;
        out, end, now := Relay(chain[i].provider, now, caller);
        if !end.Broken? {
          return;
        }
        lastError := Some(end.error);
        if Gone(caller.abort, now) {
          return;
        }
        if out != [] {
          out := out + [ErrorEvent(end.error)];
          return;
        }
      }
      out := [ErrorEvent(AllFailedMessage(lastError, model))];
    }

    method RespondChain(model: string, chain: seq<Leg>, start: nat, abort: Option<nat>)
      returns (r: Reported)
      requires policy.Valid()
      modifies policy
      ensures policy.Valid()
      ensures (r, policy.Contents())
           == RespondFrom(policy.cfg, abort, model, chain, 0, None, old(policy.Contents()), start)
    {
      ghost var want := RespondFrom(policy.cfg, abort, model, chain, 0, None, policy.Contents(), start);
      var now, lastError := start, None;
      for i := 0 to |chain|
        invariant policy.Valid()
        invariant want == RespondFrom(policy.cfg, abort, model, chain, i, lastError, policy.Contents(), now)
      {
        var answer;
        answer, now := policy.ExecuteWithPolicy(chain[i].provider, now, abort);
        match answer {
          case Answered(text) =>
            return Ok(Response(text, chain[i].provider.name, chain[i].modelId, i > 0));
          case Refused(error) =>
            if Gone(abort, now) {
              return Err(error);
            }
            lastError := Some(error);
        }
      }
      return Err(AllFailedMessage(lastError, model));
    }

    /** The chain the gateway walks for a request; it never names a strategy. */
    ghost function RoutedChainFor(request: RouteRequest): seq<Leg>
      requires Valid()
      reads this, routing, routing.modelRegistry, providerRegistry, policy
    {
      ChainOf(routing.Routed(request, None), providerRegistry.providers)
    }

    method StreamResponse(request: RouteRequest, start: nat, caller: Caller) returns (r: Streamed)
      requires Valid() && request.stream && !request.embeddings
      modifies policy
      ensures Valid()
      ensures var d := routing.Routed(request, None);
              if d.selectedProvider == "" then
                r == NoStream(d.reason) && policy.Contents() == old(policy.Contents())
              else
                r.Stream? && (r.events, policy.Contents())
                  == StreamFrom(policy.cfg, caller, request.model, RoutedChainFor(request), None,
                                old(policy.Contents()), start)
    {
      var d := routing.Route(request, None);
      if d.selectedProvider == "" {
        return NoStream(d.reason);
      }
      var chain := BuildProviderChain(d);
      var events := StreamChain(request.model, chain, start, caller);
      return Stream(events);
    }

    method CreateResponse(request: RouteRequest, start: nat, abort: Option<nat>) returns (r: Reported)
      requires Valid() && !request.stream && !request.embeddings
      modifies policy
      ensures Valid()
      ensures var d := routing.Routed(request, None);
              if d.selectedProvider == "" then
                r == Err(d.reason) && policy.Contents() == old(policy.Contents())
              else
                (r, policy.Contents())
                  == RespondFrom(policy.cfg, abort, request.model, RoutedChainFor(request), 0, None,
                                 old(policy.Contents()), start)
    {
      var d := routing.Route(request, None);
      if d.selectedProvider == "" {
        return Err(d.reason);
      }
      var chain := BuildProviderChain(d);
      r := RespondChain(request.model, chain, start, abort);
    }
  }

  // ---- Chain fidelity ----

  predicate Encodable(provider: string, modelId: string) {
    provider != "" && modelId != "" && '/' !in provider && '/' !in modelId
  }

  lemma FirstSlash(provider: string, modelId: string)
    ensures var first := IndexOf(provider + "/" + modelId, '/', 0);
            0 <= first <= |provider| && (first == |provider| <==> '/' !in provider)
  {
    var s := provider + "/" + modelId;
    assert s[|provider|] == '/';
    assert forall j :: 0 <= j < |provider| ==> s[j] == provider[j];
  }

  lemma SecondSlash(provider: string, modelId: string)
    ensures var second := IndexOf(provider + "/" + modelId, '/', |provider| + 1);
            second == -1 <==> '/' !in modelId
  {
    var s := provider + "/" + modelId;
    assert forall j :: |provider| < j < |s| ==> s[j] == modelId[j - |provider| - 1];
    assert forall k :: 0 <= k < |modelId| ==> modelId[k] == s[|provider| + 1 + k];
  }

  /** The string form of a fallback is read back as written exactly for names
      and ids that are not empty and hold no slash. */
  lemma DecodeInvertsEncode(provider: string, modelId: string)
    ensures Decode(provider + "/" + modelId) == Some((provider, modelId)) <==> Encodable(provider, modelId)
  {
    var s := provider + "/" + modelId;
    FirstSlash(provider, modelId);
    var first := IndexOf(s, '/', 0);
    if first < |provider| {
      assert |s[..first]| < |provider|;
    } else {
      SecondSlash(provider, modelId);
      var second := IndexOf(s, '/', first + 1);
      assert s[..first] == provider;
      if second == -1 {
        assert s[first + 1..|s|] == modelId;
      } else {
        assert |s[first + 1..second]| < |modelId|;
      }
    }
  }

  /** The legs a ranking stands for. */
  function LegsOf(ranked: seq<Candidate>, providers: map<string, AiProvider>): seq<Leg>
    requires forall c :: c in ranked ==> c.model.provider in providers
  {
    if ranked == [] then [] else
      assert ranked[0] in ranked;
      [Leg(providers[ranked[0].model.provider], ranked[0].model.modelId)] + LegsOf(ranked[1..], providers)
  }

  lemma {:induction false} FallbackFidelity(fallbacks: seq<Candidate>, selected: string,
                                            providers: map<string, AiProvider>)
    requires forall n :: n in providers ==> providers[n].name == n
    requires forall c :: c in fallbacks ==> c.model.provider in providers && c.model.provider != selected
    ensures |FallbackLegs(EncodeAll(fallbacks), selected, providers)| <= |fallbacks| == |LegsOf(fallbacks, providers)|
    ensures FallbackLegs(EncodeAll(fallbacks), selected, providers) == LegsOf(fallbacks, providers)
       <==> forall c :: c in fallbacks ==> Encodable(c.model.provider, c.model.modelId)
  {
    if fallbacks != [] {
      var c, rest := fallbacks[0], fallbacks[1..];
      var legs := FallbackLegs(EncodeAll(fallbacks), selected, providers);
      var restLegs := FallbackLegs(EncodeAll(rest), selected, providers);
      assert EncodeAll(fallbacks)[1..] == EncodeAll(rest);
      assert c in fallbacks && fallbacks == [c] + rest;
      FallbackFidelity(rest, selected, providers);
      DecodeInvertsEncode(c.model.provider, c.model.modelId);
      if legs != restLegs {
        assert legs[1..] == restLegs && LegsOf(fallbacks, providers)[1..] == LegsOf(rest, providers);
      }
    }
  }

  /** `route` then `buildProviderChain` gives the ranked candidates in order -
      the selected one, then the fallbacks - exactly if every fallback's
      provider name and model id are non-empty and slash-free. The selected one
      is never encoded, so it may be anything. */
  lemma {:induction false} ChainFidelity(ranked: seq<Candidate>, providers: map<string, AiProvider>, d: Decision)
    requires forall n :: n in providers ==> providers[n].name == n
    requires ranked != [] && DistinctProviders(ranked) && forall c :: c in ranked ==> c.model.provider in providers
    requires d.selectedProvider == ranked[0].model.provider && d.selectedModel == ranked[0].model.modelId
    requires d.fallbackChain == EncodeAll(ranked[1..])
    ensures ChainOf(d, providers) == LegsOf(ranked, providers)
       <==> forall c :: c in ranked[1..] ==> Encodable(c.model.provider, c.model.modelId)
  {
    var rest := ranked[1..];
    assert ranked[0] in ranked;
    forall c | c in rest ensures c.model.provider in providers && c.model.provider != d.selectedProvider {
      var k :| 0 <= k < |rest| && rest[k] == c;
      assert ranked[k + 1] == c;
    }
    FallbackFidelity(rest, d.selectedProvider, providers);
    var legs := ChainOf(d, providers);
    assert legs[1..] == FallbackLegs(d.fallbackChain, d.selectedProvider, providers);
    assert LegsOf(ranked, providers)[1..] == LegsOf(rest, providers);
  }

  /** From the registries to the chain: for every strategy the chain is what
      was ranked, no provider twice, each registered, each model the resolved
      one and holding every required capability. */
  lemma RoutedChain(log: seq<Model>, models: seq<Model>, providers: map<string, AiProvider>,
                    latencies: map<string, real>, request: RouteRequest, strategyName: string)
    requires DistinctKeys(models) && forall n :: n in providers ==> providers[n].name == n
    requires Resolve(log, request.model).Some?
    ensures var modelId := Resolve(log, request.model).value.modelId;
            var d := Decide(modelId, strategyName, models,
                            OfferedFor(models, modelId, providers.Keys, latencies, request));
            var ranked := RankedFor(log, models, providers.Keys, latencies, request, strategyName);
            && (ranked == [] ==> d.selectedProvider == "" && d.attemptNumber == 0)
            && (ranked != [] ==>
                  && (forall c :: c in ranked ==> c.model.provider in providers)
                  && DistinctProviders(ranked)
                  && (forall c :: c in ranked ==> c.model.modelId == modelId && Suits(request, c.model))
                  && (ChainOf(d, providers) == LegsOf(ranked, providers)
                      <==> forall c :: c in ranked[1..] ==> Encodable(c.model.provider, c.model.modelId)))
  {
    var modelId := Resolve(log, request.model).value.modelId;
    var candidates := OfferedFor(models, modelId, providers.Keys, latencies, request);
    var ranked := RankedFor(log, models, providers.Keys, latencies, request, strategyName);
    RankedIsSound(log, models, providers.Keys, latencies, request, strategyName);
    RankIsDrawnFromUp(GetStrategy(strategyName), modelId, candidates);
    if ranked != [] {
      assert ranked[0] in ranked && ranked[0] in candidates;
      ChainFidelity(ranked, providers, Decide(modelId, strategyName, models, candidates));
    }
  }

  // ---- Any decision ----

  /** The string starts with provider and model between slashes, both non-empty;
      what comes after a second slash is dropped. */
  ghost predicate Names(fallback: string, provider: string, modelId: string) {
    && provider != "" && modelId != "" && '/' !in provider && '/' !in modelId
    && exists rest :: fallback == provider + "/" + modelId + rest && (rest != "" ==> rest[0] == '/')
  }

  lemma DecodeNames(fallback: string)
    requires Decode(fallback).Some?
    ensures Names(fallback, Decode(fallback).value.0, Decode(fallback).value.1)
  {
    var first := IndexOf(fallback, '/', 0);
    var second := IndexOf(fallback, '/', first + 1);
    var rest := if second < 0 then "" else fallback[second..];
    var (p, m) := Decode(fallback).value;
    assert fallback == p + "/" + m + rest;
  }

  lemma NamesDecode(fallback: string, provider: string, modelId: string)
    requires Names(fallback, provider, modelId)
    ensures Decode(fallback) == Some((provider, modelId))
  {
    var rest :| fallback == provider + "/" + modelId + rest && (rest != "" ==> rest[0] == '/');
    assert fallback[|provider|] == '/';
    assert forall j :: 0 <= j < |provider| ==> fallback[j] == provider[j];
    assert IndexOf(fallback, '/', 0) == |provider|;
    assert fallback[..|provider|] == provider;
    var end := |provider| + 1 + |modelId|;
    assert forall j :: |provider| < j < end ==> fallback[j] == modelId[j - |provider| - 1];
    assert end < |fallback| ==> fallback[end] == rest[0];
    assert fallback[|provider| + 1..end] == modelId;
  }

  /** The string names a registered provider other than the selected one. */
  ghost predicate Usable(fallback: string, provider: string, modelId: string, selected: string,
                         providers: map<string, AiProvider>)
  {
    Names(fallback, provider, modelId) && provider in providers && provider != selected
  }

  /** One fallback string gives one leg if it is usable and none if it is not. */
  lemma OneFallback(fallback: string, fallbacks: seq<string>, selected: string, providers: map<string, AiProvider>)
    requires forall n :: n in providers ==> providers[n].name == n
    ensures var rest, legs := FallbackLegs(fallbacks, selected, providers),
                              FallbackLegs([fallback] + fallbacks, selected, providers);
            && (forall p, m :: Usable(fallback, p, m, selected, providers) ==> legs == [Leg(providers[p], m)] + rest)
            && ((forall p, m :: !Usable(fallback, p, m, selected, providers)) ==> legs == rest)
  {
    assert ([fallback] + fallbacks)[1..] == fallbacks;
    forall p, m | Usable(fallback, p, m, selected, providers) ensures Decode(fallback) == Some((p, m)) {
      NamesDecode(fallback, p, m);
    }
    if Decode(fallback).Some? {
      var (p, m) := Decode(fallback).value;
      DecodeNames(fallback);
      assert p in providers && p != selected ==> Usable(fallback, p, m, selected, providers);
    }
  }

  // ---- The default strategy ----

  lemma {:induction false} FilterAll(cs: seq<Candidate>, keep: Candidate -> bool)
    requires forall c :: c in cs ==> keep(c)
    ensures Filter(cs, keep) == cs
  {
    if cs != [] {
      FilterAll(cs[1..], keep);
    }
  }

  lemma PinsFirst(modelId: string, cs: seq<Candidate>)
    requires forall c :: c in cs ==> IsUp(c) && c.model.modelId == modelId
    ensures Rank(Pinned, modelId, cs) == if cs == [] then [] else [cs[0]]
  {
    FilterAll(cs, IsUp);
    FilterAll(cs, (c: Candidate) => c.model.modelId == modelId);
  }

  /** The gateway always routes by the default strategy, and so never falls back:
      its chain is the first eligible model's provider, in registry order. */
  lemma DefaultHasNoFallback(models: seq<Model>, modelId: string, providers: map<string, AiProvider>,
                             required: seq<Capability>, latencies: map<string, real>)
    ensures var cs := Candidates(models, modelId, providers.Keys, required, latencies);
            var d := Decide(modelId, DEFAULT_STRATEGY, models, cs);
            && d.fallbackChain == []
            && |ChainOf(d, providers)| <= 1
            && (cs != [] ==> cs[0].model.provider in providers
                             && ChainOf(d, providers) == [Leg(providers[cs[0].model.provider], modelId)])
  {
    var cs := Candidates(models, modelId, providers.Keys, required, latencies);
    forall c | c in cs ensures IsUp(c) && c.model.modelId == modelId && c.model.provider in providers {
      CandidatesAreEligible(models, modelId, providers.Keys, required, latencies, c);
    }
    PinsFirst(modelId, cs);
    if cs != [] {
      assert cs[0] in cs;
    }
  }
}
