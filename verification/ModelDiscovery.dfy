/** Registering what upstreams list: raw ids are normalised, and both the raw
    and the canonical id stay resolvable. */
module ModelDiscovery {
  import opened Unified
  import opened ModelRegistry

  /** `s.indexOf(c, from)`, or -1. */
  function IndexOf(s: string, c: char, from: nat): (i: int)
    requires from <= |s|
    ensures i == -1 ==> forall j :: from <= j < |s| ==> s[j] != c
    ensures i != -1 ==> from <= i < |s| && s[i] == c && forall j :: from <= j < i ==> s[j] != c
    decreases |s| - from
  {
    if from == |s| then -1 else if s[from] == c then from else IndexOf(s, c, from + 1)
  }

  datatype Normalized = Normalized(canonical: string, original: string, hadPrefix: bool)

  function NormalizeModelId(rawId: string): Normalized {
    var first := IndexOf(rawId, '/', 0);
    if first < 0 then Normalized(rawId, rawId, false)
    else if IndexOf(rawId, '/', first + 1) >= 0 then Normalized(rawId, rawId, false)
    else
      var tail := rawId[first + 1..];
      if |tail| == 0 || first == 0 then Normalized(rawId, rawId, false)
      else Normalized(tail, rawId, true)
  }

  /** A prefix is stripped exactly from ids of the form `prefix/tail` with both
      parts non-empty and no further slash. */
  lemma StripsExactlyOnePrefix(rawId: string, prefix: string, tail: string)
    requires prefix != "" && tail != "" && '/' !in prefix && '/' !in tail
    ensures NormalizeModelId(prefix + "/" + tail) == Normalized(tail, prefix + "/" + tail, true)
    ensures NormalizeModelId(rawId).hadPrefix ==>
              var n := NormalizeModelId(rawId);
              && n.canonical != "" && '/' !in n.canonical
              && exists p :: p != "" && '/' !in p && rawId == p + "/" + n.canonical
    ensures !NormalizeModelId(rawId).hadPrefix ==> NormalizeModelId(rawId).canonical == rawId
  {
    var s := prefix + "/" + tail;
    assert s[|prefix|] == '/';
    assert forall j :: 0 <= j < |prefix| ==> s[j] == prefix[j];
    assert forall j :: |prefix| + 1 <= j < |s| ==> s[j] == tail[j - |prefix| - 1];
    assert IndexOf(s, '/', 0) == |prefix|;
    assert s[|prefix| + 1..] == tail;
    var n := NormalizeModelId(rawId);
    if n.hadPrefix {
      var f := IndexOf(rawId, '/', 0);
      var p := rawId[..f];
      assert rawId == p + "/" + n.canonical;
      assert IndexOf(rawId, '/', f + 1) == -1;
    }
  }

  /** ASCII case folding stands in for `toLowerCase`. */
  function Lower(s: string): string {
    seq(|s|, i requires 0 <= i < |s| => if 'A' <= s[i] <= 'Z' then s[i] - 'A' + 'a' else s[i])
  }

  predicate Includes(s: string, part: string) {
    part <= s || (s != "" && Includes(s[1..], part))
  }

  predicate StartsWith(s: string, part: string) {
    part <= s
  }

  predicate EndsWith(s: string, part: string) {
    |part| <= |s| && s[|s| - |part|..] == part
  }

  predicate LooksLikeEmbeddingModel(id: string) {
    var lower := Lower(id);
    || Includes(lower, "embed")
    || StartsWith(lower, "text-embedding")
    || EndsWith(lower, "-embed")
    || Includes(lower, "-embedding-")
  }

  function ToCapabilityMatrix(rawId: string, provider: string): Model {
    var n := NormalizeModelId(rawId);
    var embeddings := LooksLikeEmbeddingModel(n.canonical);
    Model(n.canonical, provider,
          if n.hadPrefix then [n.canonical, n.original] else [n.canonical],
          if embeddings then {Embeddings} else {Chat, Streaming},
          None, None)
  }

  /** The character in lower case, ASCII letters only. */
  function LowerChar(c: char): char {
    if 'A' <= c <= 'Z' then (c as int + 32) as char else c
  }

  lemma LowerIs(s: string)
    ensures |Lower(s)| == |s| && forall i :: 0 <= i < |s| ==> Lower(s)[i] == LowerChar(s[i])
  {
  }

  predicate At(s: string, part: string, i: nat) {
    i + |part| <= |s| && s[i..i + |part|] == part
  }

  ghost predicate Contains(s: string, part: string) {
    exists i: nat :: At(s, part, i)
  }

  lemma {:induction false} IncludesIs(s: string, part: string)
    ensures Includes(s, part) <==> Contains(s, part)
  {
    if part <= s {
      assert At(s, part, 0);
    } else if s != "" {
      IncludesIs(s[1..], part);
      if i: nat :| At(s[1..], part, i) {
        assert At(s, part, i + 1);
      }
      if i: nat :| At(s, part, i) {
        if i > 0 {
          assert At(s[1..], part, i - 1);
        }
      }
    } else {
      assert !exists i: nat :: At(s, part, i);
    }
  }

  lemma PartOfPart(s: string, i: nat, whole: string, k: nat, part: string)
    requires At(s, whole, i) && At(whole, part, k)
    ensures At(s, part, i + k)
  {
    forall n | 0 <= n < |part| ensures s[i + k + n] == part[n] {
      assert s[i..i + |whole|][k + n] == whole[k..k + |part|][n];
    }
  }

  lemma AroundEmbed(s: string, whole: string, k: nat)
    requires Contains(s, whole) && At(whole, "embed", k)
    ensures Contains(s, "embed")
  {
    var i: nat :| At(s, whole, i);
    PartOfPart(s, i, whole, k, "embed");
  }

  /** The other three patterns add nothing: each has "embed" in it. */
  lemma EmbedIs(id: string)
    ensures LooksLikeEmbeddingModel(id) <==> Contains(Lower(id), "embed")
  {
    var lower := Lower(id);
    IncludesIs(lower, "embed");
    IncludesIs(lower, "-embedding-");
    OthersHaveEmbed(lower);
  }

  lemma OthersHaveEmbed(s: string)
    ensures StartsWith(s, "text-embedding") || EndsWith(s, "-embed") || Contains(s, "-embedding-") ==>
              Contains(s, "embed")
  {
    if Contains(s, "-embedding-") {
      assert At("-embedding-", "embed", 1);
      AroundEmbed(s, "-embedding-", 1);
    } else if StartsWith(s, "text-embedding") {
      assert At(s, "text-embedding", 0) && At("text-embedding", "embed", 5);
      AroundEmbed(s, "text-embedding", 5);
    } else if EndsWith(s, "-embed") {
      assert At(s, "-embed", |s| - 6) && At("-embed", "embed", 1);
      AroundEmbed(s, "-embed", 1);
    }
  }

  lemma NormalizedIs(rawId: string)
    ensures var n := NormalizeModelId(rawId);
            n.original == rawId && if n.hadPrefix then |n.canonical| < |rawId| else n.canonical == rawId
  {
  }

  /** What a listed model is registered as: its canonical id, its provider, the raw
      id as an alias only if it had a prefix, and an embedding model exactly if its
      canonical id contains "embed" in any case. */
  lemma MatrixIs(rawId: string, provider: string)
    ensures var m, n := ToCapabilityMatrix(rawId, provider), NormalizeModelId(rawId);
            && m.modelId == n.canonical && m.provider == provider
            && m.aliases == (if n.canonical == rawId then [rawId] else [n.canonical, rawId])
            && m.capabilities == (if Contains(Lower(n.canonical), "embed") then {Embeddings} else {Chat, Streaming})
            && m.costPer1kInput == None && m.costPer1kOutput == None
  {
    var n := NormalizeModelId(rawId);
    EmbedIs(n.canonical);
    NormalizedIs(rawId);
  }

  function Discovered(provider: string, ids: seq<string>): (ms: seq<Model>)
    ensures |ms| == |ids| && forall i :: 0 <= i < |ids| ==> ms[i] == ToCapabilityMatrix(ids[i], provider)
  {
    seq(|ids|, i requires 0 <= i < |ids| => ToCapabilityMatrix(ids[i], provider))
  }

  lemma OneMore<T>(before: seq<T>, all: seq<T>, i: nat)
    requires i < |all|
    ensures before + all[..i] + [all[i]] == before + all[..i + 1]
  {
  }

  method RegisterModels(registry: ModelRegistryService, provider: string, ids: seq<string>) returns (added: nat)
    requires registry.Valid()
    modifies registry
    ensures registry.Valid() && added == |ids|
    ensures registry.log == old(registry.log) + Discovered(provider, ids)
  {
    added := 0;
    ghost var all, before := Discovered(provider, ids), registry.log;
    for i := 0 to |ids|
      invariant registry.Valid() && added == i && registry.log == before + all[..i]
    {
      var matrix := ToCapabilityMatrix(ids[i], provider);
      OneMore(before, all, i);
      registry.AddModel(matrix);
      added := added + 1;
    }
    assert all[..|ids|] == all;
  }

  lemma BothIdsAreAliases(rawId: string, provider: string)
    ensures var aliases := ToCapabilityMatrix(rawId, provider).aliases;
            rawId in aliases && NormalizeModelId(rawId).canonical in aliases
  {
    var n, aliases := NormalizeModelId(rawId), ToCapabilityMatrix(rawId, provider).aliases;
    assert aliases[0] == n.canonical;
    assert if n.hadPrefix then aliases[1] == rawId else n.canonical == rawId;
  }

  /** Whatever is registered before a discovery or after it, and whatever the
      providers are called, both the id an upstream listed and its canonical form
      resolve: unlike an id, a declared alias cannot be lost. */
  lemma DiscoveredStaysResolvable(log: seq<Model>, more: seq<Model>, provider: string, ids: seq<string>, i: nat)
    requires i < |ids|
    ensures var all := log + Discovered(provider, ids) + more;
            Resolve(all, ids[i]).Some? && Resolve(all, NormalizeModelId(ids[i]).canonical).Some?
  {
    var all, found := log + Discovered(provider, ids) + more, Discovered(provider, ids);
    BothIdsAreAliases(ids[i], provider);
    assert all[|log| + i] == found[i] == ToCapabilityMatrix(ids[i], provider);
    DeclaredResolves(all, |log| + i, NormalizeModelId(ids[i]).canonical);
    DeclaredResolves(all, |log| + i, ids[i]);
  }
}
