/** The six routing strategies: which candidate goes first, and which follow. */
module Strategies {
  import opened Unified
  import opened ModelRegistry
  import opened Sorting

  datatype Status = Healthy | Degraded | Down

  datatype Candidate = Candidate(model: Model, status: Status, latencyMs: Option<real>)

  datatype Strategy = Pinned | Fastest | Cheapest | Balanced | LocalFirst | PrivacyFirst

  const LOCAL_PROVIDERS := {"ollama"}

  function Filter(cs: seq<Candidate>, keep: Candidate -> bool): (r: seq<Candidate>)
    ensures forall c :: c in r ==> c in cs && keep(c)
  {
    if cs == [] then [] else (if keep(cs[0]) then [cs[0]] else []) + Filter(cs[1..], keep)
  }

  predicate IsUp(c: Candidate) {
    !c.status.Down?
  }

  predicate IsLocal(c: Candidate): (local: bool)
    ensures local <==> c.model.provider == "ollama"
  {
    c.model.provider in LOCAL_PROVIDERS
  }

  predicate IsCloud(c: Candidate) {
    !IsLocal(c)
  }

  function Latency(c: Candidate): Ext {
    if c.latencyMs.Some? then Fin(c.latencyMs.value) else Inf
  }

  function TotalCost(c: Candidate): Ext {
    if c.model.costPer1kInput.None? && c.model.costPer1kOutput.None? then Inf
    else Fin((if c.model.costPer1kInput.Some? then c.model.costPer1kInput.value else 0.0)
             + (if c.model.costPer1kOutput.Some? then c.model.costPer1kOutput.value else 0.0))
  }

  /** `Math.max(...finite values, 1)`. */
  function MaxFinite(cs: seq<Candidate>, value: Candidate -> Ext): (m: real)
    ensures m >= 1.0
    ensures forall c :: c in cs && value(c).Fin? ==> value(c).r <= m
  {
    if cs == [] then 1.0 else
      var rest := MaxFinite(cs[1..], value);
      if value(cs[0]).Fin? && value(cs[0]).r > rest then value(cs[0]).r else rest
  }

  function Norm(v: Ext, max: real): real
    requires max >= 1.0
  {
    if v.Fin? then v.r / max else 1.0
  }

  function Score(c: Candidate, maxCost: real, maxLatency: real): real
    requires maxCost >= 1.0 && maxLatency >= 1.0
  {
    0.5 * Norm(TotalCost(c), maxCost) + 0.5 * Norm(Latency(c), maxLatency)
  }

  /** A candidate's score among the candidates that are up. */
  function ScoreAmong(up: seq<Candidate>): Candidate -> Ext {
    (c: Candidate) => Fin(Score(c, MaxFinite(up, TotalCost), MaxFinite(up, Latency)))
  }

  function LocalThenCloud(up: seq<Candidate>): seq<Candidate> {
    StableSort(Filter(up, IsLocal), Latency) + StableSort(Filter(up, IsCloud), Latency)
  }

  function LocalElseCloud(up: seq<Candidate>): seq<Candidate> {
    var local := StableSort(Filter(up, IsLocal), Latency);
    if |local| > 0 then local else StableSort(up, Latency)
  }

  function Rank(s: Strategy, requested: string, cs: seq<Candidate>): seq<Candidate> {
    var up := Filter(cs, IsUp);
    match s
    case Pinned => Pin(requested, up)
    case Fastest => StableSort(up, Latency)
    case Cheapest => StableSort(up, TotalCost)
    case Balanced => StableSort(up, ScoreAmong(up))
    case LocalFirst => LocalThenCloud(up)
    case PrivacyFirst => LocalElseCloud(up)
  }

  function Pin(requested: string, up: seq<Candidate>): seq<Candidate> {
    if |up| <= 1 then up else
      var exact := Filter(up, (c: Candidate) => c.model.modelId == requested);
      if exact != [] then exact[..1] else up[..1]
  }

  function Select(s: Strategy, requested: string, cs: seq<Candidate>): Option<Candidate> {
    var ranked := Rank(s, requested, cs);
    if ranked == [] then None else Some(ranked[0])
  }

  function FallbackChain(s: Strategy, requested: string, cs: seq<Candidate>): seq<Candidate> {
    var ranked := Rank(s, requested, cs);
    if ranked == [] then [] else ranked[1..]
  }

  lemma {:induction false} FilterShrinks(cs: seq<Candidate>, keep: Candidate -> bool)
    ensures multiset(Filter(cs, keep)) <= multiset(cs)
  {
    if cs != [] {
      FilterShrinks(cs[1..], keep);
      assert cs == [cs[0]] + cs[1..];
    }
  }

  lemma {:induction false} FilterSplits(cs: seq<Candidate>)
    ensures multiset(cs) == multiset(Filter(cs, IsLocal)) + multiset(Filter(cs, IsCloud))
  {
    if cs != [] {
      FilterSplits(cs[1..]);
      assert cs == [cs[0]] + cs[1..];
    }
  }

  lemma PinIsDrawn(requested: string, up: seq<Candidate>)
    ensures multiset(Pin(requested, up)) <= multiset(up)
  {
    var keep := (c: Candidate) => c.model.modelId == requested;
    FilterShrinks(up, keep);
    if |up| > 1 {
      assert up == up[..1] + up[1..];
      var exact := Filter(up, keep);
      if exact != [] { assert exact == exact[..1] + exact[1..]; }
    }
  }

  lemma RankIsSubMultiset(s: Strategy, requested: string, cs: seq<Candidate>)
    ensures multiset(Rank(s, requested, cs)) <= multiset(Filter(cs, IsUp))
  {
    var up := Filter(cs, IsUp);
    match s
    case Pinned => PinIsDrawn(requested, up);
    case Fastest => SortIsStable(up, Latency);
    case Cheapest => SortIsStable(up, TotalCost);
    case Balanced => SortIsStable(up, ScoreAmong(up));
    case LocalFirst =>
      FilterSplits(up);
      SortIsStable(Filter(up, IsLocal), Latency);
      SortIsStable(Filter(up, IsCloud), Latency);
    case PrivacyFirst =>
      FilterShrinks(up, IsLocal);
      SortIsStable(Filter(up, IsLocal), Latency);
      SortIsStable(up, Latency);
  }

  /** Every strategy ranks candidates that are up, each at most as often as it
      was offered. */
  lemma RankIsDrawnFromUp(s: Strategy, requested: string, cs: seq<Candidate>)
    ensures multiset(Rank(s, requested, cs)) <= multiset(cs)
    ensures forall c :: c in Rank(s, requested, cs) ==> c in cs && IsUp(c)
  {
    var ranked := Rank(s, requested, cs);
    FilterShrinks(cs, IsUp);
    RankIsSubMultiset(s, requested, cs);
    forall c | c in ranked ensures c in cs && IsUp(c) {
      assert c in multiset(ranked);
      assert c in multiset(Filter(cs, IsUp));
    }
  }

  // ---- What each ranking means, in a candidate's own fields ----

  lemma {:induction false} FilterAppend(a: seq<Candidate>, b: seq<Candidate>, keep: Candidate -> bool)
    ensures Filter(a + b, keep) == Filter(a, keep) + Filter(b, keep)
  {
    if a == [] {
      assert a + b == b;
    } else {
      assert (a + b)[0] == a[0] && (a + b)[1..] == a[1..] + b;
      FilterAppend(a[1..], b, keep);
    }
  }

  /** What is up are the candidates that are healthy or degraded, in their order:
      taken one by one, the others are left out. */
  lemma WhatIsUp(before: seq<Candidate>, c: Candidate)
    ensures Filter([], IsUp) == []
    ensures Filter(before + [c], IsUp)
         == Filter(before, IsUp) + if c.status == Healthy || c.status == Degraded then [c] else []
  {
    FilterAppend(before, [c], IsUp);
    assert Filter([c], IsUp) == if IsUp(c) then [c] else [];
  }

  /** No slower: an unknown latency is slower than any known one. */
  ghost predicate NoSlower(a: Candidate, b: Candidate) {
    match b.latencyMs
    case None => true
    case Some(theirs) => a.latencyMs.Some? && a.latencyMs.value <= theirs
  }

  ghost predicate ByLatency(r: seq<Candidate>) {
    forall i, j :: 0 <= i < j < |r| ==> NoSlower(r[i], r[j])
  }

  /** `cost` is what a model's two prices come to, a missing one counting nothing. */
  ghost predicate Costs(m: Model, cost: real) {
    match (m.costPer1kInput, m.costPer1kOutput)
    case (None, None) => false
    case (Some(i), None) => cost == i
    case (None, Some(o)) => cost == o
    case (Some(i), Some(o)) => cost == i + o
  }

  /** No dearer: a model with neither price is dearer than any other. */
  ghost predicate NoDearer(a: Candidate, b: Candidate) {
    forall theirs :: Costs(b.model, theirs) ==> exists ours :: Costs(a.model, ours) && ours <= theirs
  }

  lemma LatencyIs(a: Candidate, b: Candidate)
    ensures Leq(Latency(a), Latency(b)) <==> NoSlower(a, b)
  {
  }

  lemma CostIs(c: Candidate)
    ensures TotalCost(c).Fin? ==> Costs(c.model, TotalCost(c).r)
    ensures forall cost :: Costs(c.model, cost) ==> TotalCost(c) == Fin(cost)
  {
  }

  lemma CheaperIs(a: Candidate, b: Candidate)
    ensures Leq(TotalCost(a), TotalCost(b)) <==> NoDearer(a, b)
  {
    CostIs(a);
    CostIs(b);
    if NoDearer(a, b) && TotalCost(b).Fin? {
      assert Costs(b.model, TotalCost(b).r);
    }
  }

  lemma SortedByLatency(r: seq<Candidate>)
    requires Sorted(r, Latency)
    ensures ByLatency(r)
  {
    forall i, j | 0 <= i < j < |r| ensures NoSlower(r[i], r[j]) {
      LatencyIs(r[i], r[j]);
    }
  }

  /** Fastest ranks all that is up by latency, equals in their old order. */
  lemma FastestFirst(requested: string, cs: seq<Candidate>)
    ensures var up, r := Filter(cs, IsUp), Rank(Fastest, requested, cs);
            InLatencyOrder(up, r)
  {
    LatencyOrder(Filter(cs, IsUp));
  }

  /** Cheapest ranks all that is up by price, equals in their old order. */
  lemma CheapestFirst(requested: string, cs: seq<Candidate>)
    ensures var up, r := Filter(cs, IsUp), Rank(Cheapest, requested, cs);
            IsStableSort(up, r, TotalCost) && forall i, j :: 0 <= i < j < |r| ==> NoDearer(r[i], r[j])
  {
    var r := Rank(Cheapest, requested, cs);
    SortIsStable(Filter(cs, IsUp), TotalCost);
    forall i, j | 0 <= i < j < |r| ensures NoDearer(r[i], r[j]) {
      CheaperIs(r[i], r[j]);
    }
  }

  ghost predicate NoneOf(up: seq<Candidate>, requested: string) {
    forall c :: c in up ==> c.model.modelId != requested
  }

  ghost predicate IsFirstOf(up: seq<Candidate>, requested: string, i: nat) {
    i < |up| && up[i].model.modelId == requested && NoneOf(up[..i], requested)
  }

  lemma {:induction false} FirstKept(up: seq<Candidate>, requested: string)
    ensures var exact := Filter(up, (c: Candidate) => c.model.modelId == requested);
            if exact == [] then NoneOf(up, requested)
            else exists i: nat :: IsFirstOf(up, requested, i) && up[i] == exact[0]
  {
    var keep := (c: Candidate) => c.model.modelId == requested;
    if up != [] {
      FirstKept(up[1..], requested);
      if keep(up[0]) {
        assert IsFirstOf(up, requested, 0);
      } else if Filter(up[1..], keep) != [] {
        var i: nat :| IsFirstOf(up[1..], requested, i) && up[1..][i] == Filter(up[1..], keep)[0];
        FirstMovesOn(up, requested, i);
      }
    }
  }

  lemma FirstMovesOn(up: seq<Candidate>, requested: string, i: nat)
    requires up != [] && up[0].model.modelId != requested && IsFirstOf(up[1..], requested, i)
    ensures IsFirstOf(up, requested, i + 1)
  {
    forall c | c in up[..i + 1] ensures c.model.modelId != requested {
      var k :| 0 <= k < i + 1 && up[k] == c;
      if k > 0 {
        assert up[1..][..i][k - 1] == c;
      }
    }
  }

  /** Pinned takes one candidate that is up and no fallback: the first one with the
      requested id, or the first of all if none has it. */
  lemma PinnedTakesOne(requested: string, cs: seq<Candidate>)
    ensures var up, r := Filter(cs, IsUp), Rank(Pinned, requested, cs);
            if up == [] then r == []
            else |r| == 1
                 && if NoneOf(up, requested) then r[0] == up[0]
                    else exists i: nat :: IsFirstOf(up, requested, i) && up[i] == r[0]
  {
    var up := Filter(cs, IsUp);
    FirstKept(up, requested);
    if |up| == 1 && !NoneOf(up, requested) {
      assert IsFirstOf(up, requested, 0);
    }
  }

  lemma LocalParts(up: seq<Candidate>)
    ensures var r, n := LocalThenCloud(up), |Filter(up, IsLocal)|;
            && multiset(r) == multiset(up) && n <= |r|
            && (forall i :: 0 <= i < |r| ==> (IsLocal(r[i]) <==> i < n))
            && r[..n] == StableSort(Filter(up, IsLocal), Latency)
            && r[n..] == StableSort(Filter(up, IsCloud), Latency)
  {
    var local, cloud := StableSort(Filter(up, IsLocal), Latency), StableSort(Filter(up, IsCloud), Latency);
    FilterSplits(up);
    SortFiltered(up, IsLocal);
    SortFiltered(up, IsCloud);
    assert |multiset(local)| == |local| == |Filter(up, IsLocal)|;
    Halves(local, cloud);
  }

  /** `r` is `cs` by latency, equals in their old order. */
  ghost predicate InLatencyOrder(cs: seq<Candidate>, r: seq<Candidate>) {
    IsStableSort(cs, r, Latency) && ByLatency(r)
  }

  lemma LatencyOrder(up: seq<Candidate>)
    ensures InLatencyOrder(up, StableSort(up, Latency))
  {
    SortIsStable(up, Latency);
    SortedByLatency(StableSort(up, Latency));
  }

  /** Everything that is up, what runs on ollama before everything else, both parts
      by latency with equals in their old order. */
  ghost predicate OllamaFirst(up: seq<Candidate>, r: seq<Candidate>, n: nat) {
    && multiset(r) == multiset(up) && n <= |r|
    && (forall i :: 0 <= i < |r| ==> (r[i].model.provider == "ollama" <==> i < n))
    && InLatencyOrder(Filter(up, IsLocal), r[..n])
    && InLatencyOrder(Filter(up, IsCloud), r[n..])
  }

  lemma LocalFirstOrder(up: seq<Candidate>, r: seq<Candidate>, n: nat)
    requires r == LocalThenCloud(up) && n == |Filter(up, IsLocal)|
    ensures OllamaFirst(up, r, n)
  {
    LocalParts(up);
    LatencyOrder(Filter(up, IsLocal));
    LatencyOrder(Filter(up, IsCloud));
  }

  /** What local-first ranks of the candidates that are up. */
  lemma LocalBeforeCloud(requested: string, cs: seq<Candidate>)
    ensures var up := Filter(cs, IsUp);
            OllamaFirst(up, Rank(LocalFirst, requested, cs), |Filter(up, IsLocal)|)
  {
    var up := Filter(cs, IsUp);
    LocalFirstOrder(up, Rank(LocalFirst, requested, cs), |Filter(up, IsLocal)|);
  }

  lemma SortFiltered(up: seq<Candidate>, keep: Candidate -> bool)
    ensures var r := StableSort(Filter(up, keep), Latency);
            Sorted(r, Latency) && multiset(r) == multiset(Filter(up, keep)) && forall c :: c in r ==> keep(c)
  {
    var r := StableSort(Filter(up, keep), Latency);
    SortIsStable(Filter(up, keep), Latency);
    forall c | c in r ensures keep(c) { assert c in multiset(r); }
  }

  lemma Halves(local: seq<Candidate>, cloud: seq<Candidate>)
    requires forall c :: c in local ==> IsLocal(c)
    requires forall c :: c in cloud ==> !IsLocal(c)
    ensures var r := local + cloud;
            && (forall i :: 0 <= i < |r| ==> (IsLocal(r[i]) <==> i < |local|))
            && r[..|local|] == local && r[|local|..] == cloud
  {
  }

  lemma LocalIfAny(up: seq<Candidate>)
    ensures var r, local := LocalElseCloud(up), Filter(up, IsLocal);
            && (local == [] <==> !exists c :: c in up && IsLocal(c))
            && r == (if local == [] then StableSort(up, Latency) else StableSort(local, Latency))
            && (local != [] ==> forall c :: c in r <==> c in up && IsLocal(c))
  {
    var local := Filter(up, IsLocal);
    var sorted := StableSort(local, Latency);
    SortFiltered(up, IsLocal);
    assert |sorted| == |multiset(sorted)| == |local|;
    forall c | c in up && IsLocal(c) ensures c in local && c in sorted {
      FilterKeeps(up, IsLocal, c);
      assert c in multiset(sorted);
    }
    forall c | c in sorted ensures c in up && IsLocal(c) {
      assert c in multiset(local);
    }
    if local != [] {
      assert local[0] in local;
    }
  }

  ghost predicate AnyOnOllama(up: seq<Candidate>) {
    exists c :: c in up && c.model.provider == "ollama"
  }

  /** What is up by latency, equals in their old order: all that runs on ollama and
      nothing else while there is any of it, all otherwise. */
  ghost predicate OllamaOnly(up: seq<Candidate>, r: seq<Candidate>) {
    if AnyOnOllama(up) then
      InLatencyOrder(Filter(up, IsLocal), r) && forall c :: c in r <==> c in up && c.model.provider == "ollama"
    else InLatencyOrder(up, r)
  }

  lemma PrivacyFirstOrder(up: seq<Candidate>)
    ensures OllamaOnly(up, LocalElseCloud(up))
  {
    LocalIfAny(up);
    LatencyOrder(Filter(up, IsLocal));
    LatencyOrder(up);
    assert AnyOnOllama(up) <==> exists c :: c in up && IsLocal(c);
  }

  /** What privacy-first ranks of the candidates that are up. */
  lemma PrivacyKeepsLocal(requested: string, cs: seq<Candidate>)
    ensures OllamaOnly(Filter(cs, IsUp), Rank(PrivacyFirst, requested, cs))
  {
    PrivacyFirstOrder(Filter(cs, IsUp));
  }

  lemma {:induction false} FilterKeeps(cs: seq<Candidate>, keep: Candidate -> bool, c: Candidate)
    requires c in cs && keep(c)
    ensures c in Filter(cs, keep)
  {
    if cs[0] != c {
      FilterKeeps(cs[1..], keep, c);
    }
  }

  // ---- Balanced ----

  predicate NonNegative(v: Ext) {
    v.Fin? ==> v.r >= 0.0
  }

  lemma NormBounds(v: Ext, max: real)
    requires max >= 1.0 && NonNegative(v) && (v.Fin? ==> v.r <= max)
    ensures 0.0 <= Norm(v, max) <= 1.0
  {
    if v.Fin? {
      assert v.r == Norm(v, max) * max;
    }
  }

  lemma NormMonotone(a: Ext, b: Ext, max: real)
    requires max >= 1.0 && Leq(a, b) && NonNegative(a) && (a.Fin? ==> a.r <= max)
    ensures Norm(a, max) <= Norm(b, max)
  {
    NormBounds(a, max);
    if a.Fin? && b.Fin? {
      var x, y := Norm(a, max), Norm(b, max);
      assert a.r == x * max && b.r == y * max;
      if x > y { assert x * max > y * max; }
    }
  }

  /** A scale is 1 or the largest finite value, whichever is more. */
  lemma {:induction false} MaxIsScale(cs: seq<Candidate>, value: Candidate -> Ext)
    ensures var m := MaxFinite(cs, value);
            && m >= 1.0 && (forall c :: c in cs && value(c).Fin? ==> value(c).r <= m)
            && (m == 1.0 || exists c :: c in cs && value(c) == Fin(m))
  {
    if cs != [] {
      MaxIsScale(cs[1..], value);
    }
  }

  /** `share` is the cost as a part of `scale`; a whole one for a model without prices. */
  ghost predicate IsCostShare(m: Model, share: real, scale: real)
    requires scale >= 1.0
  {
    if m.costPer1kInput.None? && m.costPer1kOutput.None? then share == 1.0
    else exists whole :: Costs(m, whole) && share == whole / scale
  }

  ghost predicate IsLatencyShare(c: Candidate, share: real, scale: real)
    requires scale >= 1.0
  {
    if c.latencyMs.None? then share == 1.0 else share == c.latencyMs.value / scale
  }

  lemma CostShare(c: Candidate, scale: real)
    requires scale >= 1.0
    ensures IsCostShare(c.model, Norm(TotalCost(c), scale), scale)
  {
    CostIs(c);
  }

  lemma LatencyShare(c: Candidate, scale: real)
    requires scale >= 1.0
    ensures IsLatencyShare(c, Norm(Latency(c), scale), scale)
  {
  }

  lemma ScoreIsMean(c: Candidate, dearest: real, slowest: real)
    requires dearest >= 1.0 && slowest >= 1.0
    ensures 2.0 * Score(c, dearest, slowest) == Norm(TotalCost(c), dearest) + Norm(Latency(c), slowest)
  {
  }

  /** A score is the mean of cost and latency, each as a share of its scale. */
  lemma ScoreIs(c: Candidate, dearest: real, slowest: real) returns (cost: real, latency: real)
    requires dearest >= 1.0 && slowest >= 1.0
    ensures 2.0 * Score(c, dearest, slowest) == cost + latency
    ensures IsCostShare(c.model, cost, dearest) && IsLatencyShare(c, latency, slowest)
  {
    cost, latency := Norm(TotalCost(c), dearest), Norm(Latency(c), slowest);
    ScoreIsMean(c, dearest, slowest);
    CostShare(c, dearest);
    LatencyShare(c, slowest);
  }

  /** The balanced key of a candidate is its score on the scales of what is up. */
  lemma ScoreAmongIs(up: seq<Candidate>, c: Candidate)
    ensures ScoreAmong(up)(c) == Fin(Score(c, MaxFinite(up, TotalCost), MaxFinite(up, Latency)))
  {
  }

  /** Scores lie in [0, 1]. */
  lemma ScoreBounds(up: seq<Candidate>, c: Candidate)
    requires c in up && NonNegative(TotalCost(c)) && NonNegative(Latency(c))
    ensures ScoreAmong(up)(c).Fin? && 0.0 <= ScoreAmong(up)(c).r <= 1.0
  {
    NormBounds(TotalCost(c), MaxFinite(up, TotalCost));
    NormBounds(Latency(c), MaxFinite(up, Latency));
  }

  /** The balanced ranking is the stable sort by score of what is up, and a
      candidate no worse in cost and in latency - a missing value being worst -
      never ranks after the other except on an equal score. */
  lemma BalancedRanking(requested: string, cs: seq<Candidate>)
    requires forall c :: c in cs ==> NonNegative(TotalCost(c)) && NonNegative(Latency(c))
    ensures var up := Filter(cs, IsUp);
            var r := Rank(Balanced, requested, cs);
            && IsStableSort(up, r, ScoreAmong(up))
            && (forall c :: c in up ==> 0.0 <= ScoreAmong(up)(c).r <= 1.0)
            && forall i, j ::
                 0 <= i < j < |r| && Leq(TotalCost(r[j]), TotalCost(r[i])) && Leq(Latency(r[j]), Latency(r[i])) ==>
                 ScoreAmong(up)(r[i]) == ScoreAmong(up)(r[j])
  {
    var up := Filter(cs, IsUp);
    var r := Rank(Balanced, requested, cs);
    SortIsStable(up, ScoreAmong(up));
    forall c | c in up ensures 0.0 <= ScoreAmong(up)(c).r <= 1.0 {
      ScoreBounds(up, c);
    }
    forall i, j | 0 <= i < j < |r| && Leq(TotalCost(r[j]), TotalCost(r[i])) && Leq(Latency(r[j]), Latency(r[i]))
      ensures ScoreAmong(up)(r[i]) == ScoreAmong(up)(r[j])
    {
      assert r[j] in multiset(r) && r[j] in up;
      NormMonotone(TotalCost(r[j]), TotalCost(r[i]), MaxFinite(up, TotalCost));
      NormMonotone(Latency(r[j]), Latency(r[i]), MaxFinite(up, Latency));
    }
  }
}
