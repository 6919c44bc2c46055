/** Upstream providers as the gateway sees them, and the registry that holds
    them (libs/sirius-core/src/provider-registry.ts). */
module Providers {
  import opened Unified

  /** What an upstream does with one streaming attempt. A gap is the time that
      passes before the item. */
  datatype Script =
    | Emit(gap: nat, event: StreamEvent, rest: Script)
    | Finish(gap: nat)
    | Fail(gap: nat, error: string)
    | Silent

  /** What an upstream does with one non-streaming attempt. */
  datatype Reply =
    | Resolves(gap: nat, response: string)
    | Rejects(gap: nat, error: string)
    | Hangs

  /** A provider: its name, and what it does on each attempt of a request. */
  datatype AiProvider = AiProvider(name: string, streams: nat -> Script, replies: nat -> Reply)

  /** The keys of an insertion-ordered map without one of them. */
  function Without(names: seq<string>, name: string): (rest: seq<string>)
    ensures forall n :: n in rest <==> n in names && n != name
  {
    if names == [] then []
    else if names[0] == name then Without(names[1..], name)
    else [names[0]] + Without(names[1..], name)
  }

  /** The other keys keep their order. */
  lemma {:induction false} WithoutKeepsOrder(before: seq<string>, name: string, after: seq<string>)
    requires name !in before && name !in after
    ensures Without(before + [name] + after, name) == before + after
    decreases |before|
  {
    var all := before + [name] + after;
    if before == [] {
      assert all[1..] == after && before + after == after;
      WithoutNothing(after, name);
    } else {
      assert all[0] == before[0] && all[1..] == before[1..] + [name] + after;
      WithoutKeepsOrder(before[1..], name, after);
      assert [before[0]] + (before[1..] + after) == before + after;
    }
  }

  lemma {:induction false} WithoutNothing(names: seq<string>, name: string)
    requires name !in names
    ensures Without(names, name) == names
  {
    if names != [] {
      WithoutNothing(names[1..], name);
    }
  }

  /** A JavaScript Map: the keys in insertion order, the values apart. */
  class ProviderRegistry {
    var names: seq<string>
    var providers: map<string, AiProvider>

    ghost predicate Valid()
      reads this
    {
      && (forall n :: n in names <==> n in providers)
      && (forall n :: n in providers ==> providers[n].name == n)
    }

    constructor ()
      ensures Valid() && providers == map[] && names == []
    {
      names, providers := [], map[];
    }

    method Register(provider: AiProvider)
      requires Valid()
      modifies this
      ensures Valid()
      ensures providers == old(providers)[provider.name := provider]
      ensures names == if provider.name in old(providers) then old(names) else old(names) + [provider.name]
    {
      if provider.name !in providers {
        names := names + [provider.name];
      }
      providers := providers[provider.name := provider];
    }

    method Unregister(name: string) returns (present: bool)
      requires Valid()
      modifies this
      ensures Valid()
      ensures present == (name in old(providers))
      ensures providers == old(providers) - {name} && names == Without(old(names), name)
    {
      present := name in providers;
      names, providers := Without(names, name), providers - {name};
    }

    function Get(name: string): (provider: Option<AiProvider>)
      requires Valid()
      reads this
      ensures provider.Some? <==> name in names
      ensures provider.Some? ==> provider.value.name == name
    {
      if name in providers then Some(providers[name]) else None
    }
  }
}
