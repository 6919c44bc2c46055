/** The model registry: an insertion-ordered map of models by
    "provider:modelId" and an alias index, both updated in place. */
module ModelRegistry {
  import opened Unified

  datatype Capability = Chat | Streaming | Tools | Embeddings | Vision | JsonMode

  datatype Model = Model(modelId: string, provider: string, aliases: seq<string>, capabilities: set<Capability>,
                         costPer1kInput: Option<real>, costPer1kOutput: Option<real>)

  /** Which of the three lookups of `resolveModel` matched, weakest first. */
  datatype MatchRank = ByAlias | ById | ByKey

  datatype Resolution = Resolution(rank: MatchRank, modelId: string, provider: string)

  function MakeKey(provider: string, modelId: string): string {
    provider + ":" + modelId
  }

  function Key(m: Model): string {
    MakeKey(m.provider, m.modelId)
  }

  // ---- The maps, read off the registration log ----

  /** Keys in the order they were first registered. */
  function Keys(log: seq<Model>): seq<string> {
    if log == [] then [] else
      var before := Keys(log[..|log| - 1]);
      var k := Key(log[|log| - 1]);
      if k in before then before else before + [k]
  }

  /** The last registration under a key. */
  function LastOf(log: seq<Model>, key: string): (m: Option<Model>)
    ensures m.Some? ==> Key(m.value) == key && m.value in log
  {
    if log == [] then None
    else if Key(log[|log| - 1]) == key then Some(log[|log| - 1])
    else LastOf(log[..|log| - 1], key)
  }

  lemma {:induction false} RegisteredIsKnown(log: seq<Model>, key: string)
    ensures LastOf(log, key).None? ==> forall x :: x in log ==> Key(x) != key
  {
    if log != [] && Key(log[|log| - 1]) != key {
      RegisteredIsKnown(log[..|log| - 1], key);
      assert log == log[..|log| - 1] + [log[|log| - 1]];
    }
  }

  function AddOnce(keys: seq<string>, key: string): seq<string> {
    if key in keys then keys else keys + [key]
  }

  /** Keys that declared an alias, in the order they first did. */
  function Declarers(log: seq<Model>, alias: string): seq<string> {
    if log == [] then [] else
      var before := Declarers(log[..|log| - 1], alias);
      var m := log[|log| - 1];
      if alias in m.aliases then AddOnce(before, Key(m)) else before
  }

  lemma {:induction false} KeysAre(log: seq<Model>)
    ensures forall k :: k in Keys(log) <==> LastOf(log, k).Some?
    ensures forall i, j :: 0 <= i < j < |Keys(log)| ==> Keys(log)[i] != Keys(log)[j]
  {
    if log != [] {
      KeysAre(log[..|log| - 1]);
    }
  }

  lemma {:induction false} DeclarersAreKeys(log: seq<Model>, alias: string)
    ensures forall k :: k in Declarers(log, alias) ==> LastOf(log, k).Some?
  {
    if log != [] {
      DeclarersAreKeys(log[..|log| - 1], alias);
    }
  }

  /** The first key whose current model has the given id. */
  function FirstWithId(keys: seq<string>, log: seq<Model>, id: string): (k: Option<string>)
    ensures k.Some? ==> k.value in keys && LastOf(log, k.value).Some? && LastOf(log, k.value).value.modelId == id
  {
    if keys == [] then None
    else
      var m := LastOf(log, keys[0]);
      if m.Some? && m.value.modelId == id then Some(keys[0]) else FirstWithId(keys[1..], log, id)
  }

  /** `resolveModel` over the maps. */
  function Resolve(log: seq<Model>, s: string): Option<Resolution> {
    var exact := LastOf(log, s);
    if ':' in s && exact.Some? then
      Some(Resolution(ByKey, exact.value.modelId, exact.value.provider))
    else
      var k := FirstWithId(Keys(log), log, s);
      if k.Some? then
        Some(Resolution(ById, s, LastOf(log, k.value).value.provider))
      else
        var d := Declarers(log, s);
        if d == [] then None else
          var m := LastOf(log, d[0]);
          if m.Some? then Some(Resolution(ByAlias, m.value.modelId, m.value.provider)) else None
  }

  function Capabilities(log: seq<Model>, modelId: string, provider: Option<string>): Option<Model> {
    if provider.Some? && provider.value != "" then
      LastOf(log, MakeKey(provider.value, modelId))
    else
      var k := FirstWithId(Keys(log), log, modelId);
      if k.Some? then LastOf(log, k.value) else None
  }

  function Declared(aliasMap: map<string, seq<string>>, alias: string): seq<string> {
    if alias in aliasMap then aliasMap[alias] else []
  }

  /** Key order and models are what the log says. */
  ghost predicate ModelsAre(keys: seq<string>, models: map<string, Model>, log: seq<Model>) {
    && keys == Keys(log)
    && (forall k :: k in keys <==> k in models)
    && (forall k :: k in models ==> LastOf(log, k) == Some(models[k]))
    && (forall k :: k !in models ==> LastOf(log, k).None?)
  }

  /** So is the alias index. */
  ghost predicate AliasesAre(aliasMap: map<string, seq<string>>, log: seq<Model>) {
    forall a :: Declared(aliasMap, a) == Declarers(log, a)
  }

  lemma OneMoreModel(keys: seq<string>, models: map<string, Model>, log: seq<Model>, m: Model)
    requires ModelsAre(keys, models, log)
    ensures ModelsAre(AddOnce(keys, Key(m)), models[Key(m) := m], log + [m])
  {
    assert (log + [m])[..|log|] == log;
  }

  lemma OneMoreDeclarer(log: seq<Model>, m: Model, alias: string)
    ensures Declarers(log + [m], alias)
         == if alias in m.aliases then AddOnce(Declarers(log, alias), Key(m)) else Declarers(log, alias)
  {
    assert (log + [m])[..|log|] == log;
  }

  class ModelRegistryService {
    var keys: seq<string>
    var models: map<string, Model>
    var aliasMap: map<string, seq<string>>
    /** Every registration so far. */
    ghost var log: seq<Model>

    ghost predicate Valid()
      reads this
    {
      ModelsAre(keys, models, log) && AliasesAre(aliasMap, log)
    }

    constructor (catalog: seq<Model>)
      ensures Valid() && log == catalog
    {
      keys, models, aliasMap, log := [], map[], map[], [];
      new;
      for i := 0 to |catalog|
        invariant Valid() && log == catalog[..i]
      {
        AddModel(catalog[i]);
      }
      assert catalog[..|catalog|] == catalog;
    }

    method AddModel(model: Model)
      requires Valid()
      modifies this
      ensures Valid() && log == old(log) + [model]
    {
      var key := Key(model);
      OneMoreModel(keys, models, log, model);
      if key !in models {
        keys := keys + [key];
      }
      models := models[key := model];
      DeclareAliases(model.aliases, key);
      forall a ensures Declared(aliasMap, a) == Declarers(log + [model], a) {
        OneMoreDeclarer(log, model, a);
      }
      log := log + [model];
    }

    method DeclareAliases(aliases: seq<string>, key: string)
      modifies this`aliasMap
      ensures forall a :: Declared(aliasMap, a)
                == if a in aliases then AddOnce(Declared(old(aliasMap), a), key) else Declared(old(aliasMap), a)
    {
      for i := 0 to |aliases|
        invariant forall a :: Declared(aliasMap, a)
                    == if a in aliases[..i] then AddOnce(Declared(old(aliasMap), a), key)
                       else Declared(old(aliasMap), a)
      {
        var existing := Declared(aliasMap, aliases[i]);
        assert forall a :: a in aliases[..i + 1] <==> a in aliases[..i] || a == aliases[i];
        if key !in existing {
          aliasMap := aliasMap[aliases[i] := existing + [key]];
        }
      }
      assert aliases[..|aliases|] == aliases;
    }

    method ResolveModel(s: string) returns (r: Option<Resolution>)
      requires Valid()
      ensures r == Resolve(log, s)
    {
      if ':' in s && s in models {
        return Some(Resolution(ByKey, models[s].modelId, models[s].provider));
      }
      for i := 0 to |keys|
        invariant FirstWithId(keys, log, s) == FirstWithId(keys[i..], log, s)
      {
        assert keys[i] in models;
        var model := models[keys[i]];
        if model.modelId == s {
          return Some(Resolution(ById, model.modelId, model.provider));
        }
      }
      DeclarersAreKeys(log, s);
      if s in aliasMap && |aliasMap[s]| > 0 {
        var canonicalIds := aliasMap[s];
        assert canonicalIds[0] in Declarers(log, s);
        if canonicalIds[0] in models {
          var model := models[canonicalIds[0]];
          return Some(Resolution(ByAlias, model.modelId, model.provider));
        }
      }
      return None;
    }

    method GetCapabilities(modelId: string, provider: Option<string>) returns (m: Option<Model>)
      requires Valid()
      ensures m == Capabilities(log, modelId, provider)
    {
      if provider.Some? && provider.value != "" {
        var key := MakeKey(provider.value, modelId);
        return if key in models then Some(models[key]) else None;
      }
      for i := 0 to |keys|
        invariant FirstWithId(keys, log, modelId) == FirstWithId(keys[i..], log, modelId)
      {
        assert keys[i] in models;
        if models[keys[i]].modelId == modelId {
          return Some(models[keys[i]]);
        }
      }
      return None;
    }

    /** All models, in the order their keys were first registered. */
    function ListModels(): (ms: seq<Model>)
      requires Valid()
      reads this
      ensures |ms| == |keys| && forall i :: 0 <= i < |ms| ==> LastOf(log, keys[i]) == Some(ms[i])
    {
      seq(|keys|, i requires 0 <= i < |keys| && keys[i] in models reads this => models[keys[i]])
    }
  }

  // ---- A plain scan of the log ----

  /** The index of the first registration with a property, |log| if none. */
  function First(log: seq<Model>, p: Model -> bool): (i: nat)
    ensures i <= |log| && (i < |log| ==> p(log[i]))
    ensures forall j :: 0 <= j < i ==> !p(log[j])
  {
    if log == [] then 0 else if p(log[0]) then 0 else 1 + First(log[1..], p)
  }

  function HasKey(key: string): Model -> bool {
    (m: Model) => Key(m) == key
  }

  function HasId(id: string): Model -> bool {
    (m: Model) => m.modelId == id
  }

  function HasAlias(alias: string): Model -> bool {
    (m: Model) => alias in m.aliases
  }

  function Scan(log: seq<Model>, s: string): Option<Resolution> {
    var k, i, a := First(log, HasKey(s)), First(log, HasId(s)), First(log, HasAlias(s));
    if k < |log| then Some(Resolution(ByKey, log[k].modelId, log[k].provider))
    else if i < |log| then Some(Resolution(ById, log[i].modelId, log[i].provider))
    else if a < |log| then Some(Resolution(ByAlias, log[a].modelId, log[a].provider))
    else None
  }

  /** No two different models share a key. */
  ghost predicate KeysFaithful(log: seq<Model>) {
    forall m, n :: m in log && n in log && Key(m) == Key(n) ==> m.modelId == n.modelId && m.provider == n.provider
  }

  /** One provider name is another one followed by a colon and more. */
  predicate Clash(p: string, q: string) {
    p + ":" <= q
  }

  predicate ClashFree(names: set<string>) {
    forall p, q :: p in names && q in names ==> !Clash(p, q)
  }

  ghost predicate DrawnFrom(log: seq<Model>, names: set<string>) {
    forall m :: m in log ==> m.provider in names
  }

  lemma SameKeyOrClash(p: string, i: string, q: string, j: string)
    requires |p| <= |q| && MakeKey(p, i) == MakeKey(q, j)
    ensures (p == q && i == j) || Clash(p, q)
  {
    var k := MakeKey(p, i);
    assert p == k[..|p|] && q == k[..|q|];
    assert i == k[|p| + 1..] && j == k[|q| + 1..];
    if |p| < |q| {
      assert q[..|p| + 1] == k[..|p| + 1] == p + ":";
    }
  }

  lemma ClashFreeIsFaithful(log: seq<Model>, names: set<string>)
    requires DrawnFrom(log, names) && ClashFree(names)
    ensures KeysFaithful(log)
  {
    forall m, n | m in log && n in log && Key(m) == Key(n) ensures m.modelId == n.modelId && m.provider == n.provider {
      if |m.provider| <= |n.provider| {
        SameKeyOrClash(m.provider, m.modelId, n.provider, n.modelId);
      } else {
        SameKeyOrClash(n.provider, n.modelId, m.provider, m.modelId);
      }
    }
  }

  function Plain(provider: string, modelId: string): Model {
    Model(modelId, provider, [], {}, None, None)
  }

  /** Two providers whose names clash can share a key, and the registry then
      forgets the first model: its id no longer resolves. For the names "a" and
      "a:b" the ids are "b:m" and "m". */
  lemma ClashCollides(p: string, q: string)
    requires Clash(p, q)
    ensures var lost := q[|p| + 1..] + ":m";
            var log := [Plain(p, lost), Plain(q, "m")];
            Scan(log, lost) == Some(Resolution(ById, lost, p)) && Resolve(log, lost) == None
  {
    var lost := q[|p| + 1..] + ":m";
    var m, n := Plain(p, lost), Plain(q, "m");
    var log := [m, n];
    var key := Key(m);
    assert q == p + ":" + q[|p| + 1..];
    assert Key(n) == key && |key| > |lost| > 1;
    assert log[..1] == [m] && [m][..0] == [];
    assert Keys([m]) == [key] && Keys(log) == [key];
    assert LastOf(log, key) == Some(n) && LastOf(log, lost) == None;
    assert FirstWithId([key], log, lost) == None;
    assert Declarers([m], lost) == [] && Declarers(log, lost) == Declarers(log[..1], lost);
    assert First(log, HasKey(lost)) == 2 && First(log, HasId(lost)) == 0;
  }

  lemma {:induction false} IdMatchIsFirst(log: seq<Model>, id: string)
    requires KeysFaithful(log)
    ensures var i := First(log, HasId(id));
            FirstWithId(Keys(log), log, id) == if i < |log| then Some(Key(log[i])) else None
  {
    if log != [] {
      var before, m := log[..|log| - 1], log[|log| - 1];
      assert log == before + [m];
      IdMatchIsFirst(before, id);
      KeysAre(before);
      SameIds(Keys(before), before, log, id);
      FirstAppend(before, m, HasId(id));
      if Key(m) !in Keys(before) {
        FirstWithIdAppend(Keys(before), Key(m), log, id);
      } else {
        var k := LastOf(before, Key(m)).value;
        assert k in before && k.modelId == m.modelId;
        if k.modelId == id {
          assert exists j :: 0 <= j < |before| && before[j] == k;
        }
      }
    }
  }

  lemma FirstIs(log: seq<Model>, p: Model -> bool, i: nat)
    requires i <= |log| && (i < |log| ==> p(log[i]))
    requires forall j :: 0 <= j < i ==> !p(log[j])
    ensures First(log, p) == i
  {
  }

  lemma {:induction false} FirstAppend(log: seq<Model>, m: Model, p: Model -> bool)
    ensures First(log + [m], p) == if First(log, p) < |log| then First(log, p) else if p(m) then |log| else |log| + 1
  {
    var i := First(log, p);
    FirstIs(log + [m], p, if i < |log| then i else if p(m) then |log| else |log| + 1);
  }

  lemma {:induction false} FirstWithIdAppend(keys: seq<string>, key: string, log: seq<Model>, id: string)
    ensures var m := LastOf(log, key);
            var k := FirstWithId(keys, log, id);
            FirstWithId(keys + [key], log, id) ==
            if k.Some? then k else if m.Some? && m.value.modelId == id then Some(key) else None
  {
    if keys == [] {
      assert keys + [key] == [key] && [key][1..] == [];
    } else {
      assert (keys + [key])[1..] == keys[1..] + [key];
      FirstWithIdAppend(keys[1..], key, log, id);
    }
  }

  /** A later registration under a known key does not change the key's id. */
  lemma {:induction false} SameIds(keys: seq<string>, before: seq<Model>, log: seq<Model>, id: string)
    requires KeysFaithful(log) && |log| > 0 && before == log[..|log| - 1]
    requires forall k :: k in keys ==> LastOf(before, k).Some?
    ensures FirstWithId(keys, log, id) == FirstWithId(keys, before, id)
  {
    if keys != [] {
      assert keys[0] in keys;
      var m := LastOf(before, keys[0]).value;
      assert m in log;
      SameIds(keys[1..], before, log, id);
    }
  }

  lemma {:induction false} DeclarersStartWithFirst(log: seq<Model>, alias: string)
    ensures var a := First(log, HasAlias(alias));
            if a < |log| then Declarers(log, alias) != [] && Declarers(log, alias)[0] == Key(log[a])
            else Declarers(log, alias) == []
  {
    if log != [] {
      DeclarersStartWithFirst(log[..|log| - 1], alias);
      assert log == log[..|log| - 1] + [log[|log| - 1]];
      FirstAppend(log[..|log| - 1], log[|log| - 1], HasAlias(alias));
    }
  }

  lemma {:induction false} LastIsRegistered(log: seq<Model>, key: string)
    ensures LastOf(log, key).Some? <==> First(log, HasKey(key)) < |log|
  {
    RegisteredIsKnown(log, key);
    if LastOf(log, key).Some? {
      var m := LastOf(log, key).value;
      assert exists j :: 0 <= j < |log| && log[j] == m;
    }
  }

  lemma KeyHasColon(m: Model)
    ensures ':' in Key(m)
  {
    assert Key(m)[|m.provider|] == ':';
  }

  lemma AliasFound(log: seq<Model>, s: string)
    ensures var a, d := First(log, HasAlias(s)), Declarers(log, s);
            if a < |log| then d != [] && d[0] == Key(log[a]) && LastOf(log, d[0]).Some? else d == []
  {
    DeclarersStartWithFirst(log, s);
    DeclarersAreKeys(log, s);
    if First(log, HasAlias(s)) < |log| {
      assert Declarers(log, s)[0] in Declarers(log, s);
    }
  }

  /** The registry's three lookups through its maps give what one scan of the
      whole registration log gives. */
  lemma {:induction false} ResolveRefinesLog(log: seq<Model>, s: string)
    requires KeysFaithful(log)
    ensures Resolve(log, s) == Scan(log, s)
  {
    var k, i := First(log, HasKey(s)), First(log, HasId(s));
    LastIsRegistered(log, s);
    IdMatchIsFirst(log, s);
    AliasFound(log, s);
    if k < |log| {
      KeyHasColon(log[k]);
    } else if i < |log| {
      RegisteredIsKnown(log, Key(log[i]));
    }
  }

  ghost predicate Refines(log: seq<Model>) {
    forall s :: Resolve(log, s) == Scan(log, s)
  }

  /** The registry refines its log for everything a set of providers can
      register exactly if no two of their names clash; names without a colon
      never do. */
  lemma RefinesUnlessNamesClash(names: set<string>)
    ensures (forall log :: DrawnFrom(log, names) ==> Refines(log)) <==> ClashFree(names)
    ensures (forall p :: p in names ==> ':' !in p) ==> ClashFree(names)
  {
    if ClashFree(names) {
      forall log, s | DrawnFrom(log, names) ensures Resolve(log, s) == Scan(log, s) {
        ClashFreeIsFaithful(log, names);
        ResolveRefinesLog(log, s);
      }
    } else {
      var p, q :| p in names && q in names && Clash(p, q);
      var lost := q[|p| + 1..] + ":m";
      var log := [Plain(p, lost), Plain(q, "m")];
      ClashCollides(p, q);
      assert DrawnFrom(log, names) && !Refines(log);
      assert q[|p|] == ':';
    }
  }

  /** The last registration of a provider and model id, read off the log. */
  function LastPair(log: seq<Model>, provider: string, modelId: string): Option<Model> {
    if log == [] then None else
      var m := log[|log| - 1];
      if m.provider == provider && m.modelId == modelId then Some(m) else LastPair(log[..|log| - 1], provider, modelId)
  }

  lemma {:induction false} LastOfIsLastPair(log: seq<Model>, names: set<string>, provider: string, modelId: string)
    requires DrawnFrom(log, names) && provider in names && ClashFree(names)
    ensures LastOf(log, MakeKey(provider, modelId)) == LastPair(log, provider, modelId)
  {
    if log != [] {
      var m := log[|log| - 1];
      assert m in log;
      LastOfIsLastPair(log[..|log| - 1], names, provider, modelId);
      if Key(m) == MakeKey(provider, modelId) {
        if |m.provider| <= |provider| {
          SameKeyOrClash(m.provider, m.modelId, provider, modelId);
        } else {
          SameKeyOrClash(provider, modelId, m.provider, m.modelId);
        }
      }
    }
  }

  /** `getCapabilities` gives the last registration of the pair asked for; without
      a provider, that of the provider that registered the id first. */
  lemma {:induction false} CapabilitiesAreLast(log: seq<Model>, names: set<string>, provider: string, modelId: string)
    requires DrawnFrom(log, names) && provider in names && provider != "" && ClashFree(names)
    ensures Capabilities(log, modelId, Some(provider)) == LastPair(log, provider, modelId)
    ensures Capabilities(log, modelId, Some("")) == Capabilities(log, modelId, None)
    ensures var i := First(log, HasId(modelId));
            Capabilities(log, modelId, None) == if i < |log| then LastPair(log, log[i].provider, modelId) else None
  {
    LastOfIsLastPair(log, names, provider, modelId);
    ClashFreeIsFaithful(log, names);
    IdMatchIsFirst(log, modelId);
    var i := First(log, HasId(modelId));
    if i < |log| {
      assert log[i] in log;
      LastOfIsLastPair(log, names, log[i].provider, modelId);
    }
  }

  function RankOf(r: MatchRank): nat {
    match r case ByAlias => 0 case ById => 1 case ByKey => 2
  }

  lemma FirstStays(log: seq<Model>, more: seq<Model>, p: Model -> bool)
    ensures First(log, p) < |log| ==> First(log + more, p) == First(log, p)
  {
    if First(log, p) < |log| {
      FirstIs(log + more, p, First(log, p));
    }
  }

  ghost predicate NeverWorse(before: Option<Resolution>, after: Option<Resolution>) {
    before.Some? ==>
      && after.Some?
      && RankOf(before.value.rank) <= RankOf(after.value.rank)
      && (before.value.rank == after.value.rank ==> before == after)
  }

  lemma ScanNeverWorse(log: seq<Model>, more: seq<Model>, s: string)
    ensures NeverWorse(Scan(log, s), Scan(log + more, s))
  {
    FirstStays(log, more, HasKey(s));
    FirstStays(log, more, HasId(s));
    FirstStays(log, more, HasAlias(s));
  }

  lemma KeysFaithfulBefore(log: seq<Model>, more: seq<Model>)
    requires KeysFaithful(log + more)
    ensures KeysFaithful(log)
  {
    assert forall m :: m in log ==> m in log + more;
  }

  lemma FaithfulIsMonotone(log: seq<Model>, more: seq<Model>, s: string)
    requires KeysFaithful(log + more)
    ensures NeverWorse(Resolve(log, s), Resolve(log + more, s))
  {
    KeysFaithfulBefore(log, more);
    ResolveRefinesLog(log, s);
    ResolveRefinesLog(log + more, s);
    ScanNeverWorse(log, more, s);
  }

  ghost predicate Monotone(log: seq<Model>, more: seq<Model>) {
    forall s :: NeverWorse(Resolve(log, s), Resolve(log + more, s))
  }

  /** Once a model string resolves it stays resolvable under any later
      registrations, its rank never drops, and at the same rank the answer
      never changes: for all that a set of providers can register this holds
      exactly if no two of their names clash. */
  lemma MonotoneResolution(names: set<string>)
    ensures (forall log, more :: DrawnFrom(log, names) && DrawnFrom(more, names) ==> Monotone(log, more))
       <==> ClashFree(names)
  {
    if ClashFree(names) {
      forall log, more, s | DrawnFrom(log, names) && DrawnFrom(more, names)
        ensures NeverWorse(Resolve(log, s), Resolve(log + more, s))
      {
        ClashFreeIsFaithful(log + more, names);
        FaithfulIsMonotone(log, more, s);
      }
    } else {
      var p, q :| p in names && q in names && Clash(p, q);
      ClashDropsResolution(p, q);
      var lost := q[|p| + 1..] + ":m";
      assert DrawnFrom([Plain(p, lost)], names) && DrawnFrom([Plain(q, "m")], names);
      assert !Monotone([Plain(p, lost)], [Plain(q, "m")]);
    }
  }

  /** For clashing names, a registration after which an id no longer resolves
      that resolved before it. */
  lemma ClashDropsResolution(p: string, q: string)
    requires Clash(p, q)
    ensures var lost := q[|p| + 1..] + ":m";
            && Resolve([Plain(p, lost)], lost) == Some(Resolution(ById, lost, p))
            && Resolve([Plain(p, lost)] + [Plain(q, "m")], lost) == None
  {
    var lost := q[|p| + 1..] + ":m";
    var m := Plain(p, lost);
    ClashCollides(p, q);
    assert [m] + [Plain(q, "m")] == [m, Plain(q, "m")];
    assert [m][..0] == [] && Keys([m]) == [Key(m)];
    assert LastOf([m], lost) == None && LastOf([m], Key(m)) == Some(m);
    assert FirstWithId([Key(m)], [m], lost) == Some(Key(m));
  }

  /** A declared alias resolves, whatever else is registered and whatever the
      providers are called. */
  lemma DeclaredResolves(log: seq<Model>, i: nat, s: string)
    requires i < |log| && s in log[i].aliases
    ensures Resolve(log, s).Some?
  {
    DeclarersStartWithFirst(log, s);
    DeclarersAreKeys(log, s);
    assert HasAlias(s)(log[i]);
    assert Declarers(log, s)[0] in Declarers(log, s);
  }
}
