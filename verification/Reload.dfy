/** Reloading the providers file
    (libs/provider-fromfile/src/fromfile-provider.module.ts): the registry is
    reconciled with the file, and the service remembers which names it owns. */
module Reload {
  import opened Unified
  import opened Providers

  /** An entry of the file: its adapter can be built, or building it throws. */
  datatype Entry = Buildable(adapter: AiProvider) | Broken(title: string) {
    function Name(): string {
      if Buildable? then adapter.name else title
    }
  }

  datatype Report = Report(added: seq<string>, removed: seq<string>, kept: seq<string>, skipped: seq<string>)

  // ---- What a reload should do, entry by entry ----

  predicate Mentions(entries: seq<Entry>, name: string) {
    exists i :: 0 <= i < |entries| && entries[i].Name() == name
  }

  /** The names of the entries that can be built, in file order. */
  function Built(entries: seq<Entry>): seq<string> {
    if entries == [] then [] else
      var last := entries[|entries| - 1];
      Built(entries[..|entries| - 1]) + if last.Buildable? then [last.adapter.name] else []
  }

  /** A JavaScript Set made from an array: each name once, first places kept. */
  function Distinct(names: seq<string>): (once: seq<string>)
    ensures forall n :: n in once <==> n in names
    ensures forall i, j :: 0 <= i < j < |once| ==> once[i] != once[j]
  {
    if names == [] then [] else
      var before := Distinct(names[..|names| - 1]);
      assert names == names[..|names| - 1] + [names[|names| - 1]];
      if names[|names| - 1] in before then before else before + [names[|names| - 1]]
  }

  /** The names the file no longer mentions, in order. */
  function Dropped(names: seq<string>, entries: seq<Entry>): seq<string> {
    if names == [] then [] else
      var last := names[|names| - 1];
      Dropped(names[..|names| - 1], entries) + if Mentions(entries, last) then [] else [last]
  }

  /** Unregistering names one after the other. */
  function Uninstall(providers: map<string, AiProvider>, names: seq<string>): map<string, AiProvider> {
    if names == [] then providers else Uninstall(providers, names[..|names| - 1]) - {names[|names| - 1]}
  }

  /** Registering every entry that can be built, in file order. */
  function Install(providers: map<string, AiProvider>, entries: seq<Entry>): map<string, AiProvider> {
    if entries == [] then providers else
      var last := entries[|entries| - 1];
      var before := Install(providers, entries[..|entries| - 1]);
      if last.Buildable? then before[last.adapter.name := last.adapter] else before
  }

  lemma {:induction false} BuiltIsMentioned(entries: seq<Entry>, n: string)
    ensures n in Built(entries) ==> Mentions(entries, n)
  {
    if entries != [] {
      var before, last := entries[..|entries| - 1], entries[|entries| - 1];
      BuiltIsMentioned(before, n);
      if Mentions(before, n) {
        var i :| 0 <= i < |before| && before[i].Name() == n;
        assert entries[i].Name() == n;
      }
      assert last.Name() == n ==> Mentions(entries, n);
    }
  }

  lemma {:induction false} DroppedMeans(names: seq<string>, entries: seq<Entry>, n: string)
    ensures n in Dropped(names, entries) <==> n in names && !Mentions(entries, n)
  {
    if names != [] {
      assert names == names[..|names| - 1] + [names[|names| - 1]];
      DroppedMeans(names[..|names| - 1], entries, n);
    }
  }

  lemma {:induction false} NothingDropped(names: seq<string>, entries: seq<Entry>)
    requires forall n :: n in names ==> Mentions(entries, n)
    ensures Dropped(names, entries) == []
  {
    if names != [] {
      NothingDropped(names[..|names| - 1], entries);
    }
  }

  lemma {:induction false} UninstallKeys(providers: map<string, AiProvider>, names: seq<string>)
    ensures forall n :: n in Uninstall(providers, names) <==> n in providers && n !in names
    ensures forall n :: n in Uninstall(providers, names) ==> Uninstall(providers, names)[n] == providers[n]
  {
    if names != [] {
      assert names == names[..|names| - 1] + [names[|names| - 1]];
      UninstallKeys(providers, names[..|names| - 1]);
    }
  }

  datatype Fate = Added | Kept | Skipped

  /** An entry that can be built is kept if the loader owned its name and the
      registry (or an earlier entry) still has it. */
  function FateOf(entries: seq<Entry>, i: nat, previous: seq<string>, present: set<string>): Fate
    requires i < |entries|
  {
    var e := entries[i];
    if e.Broken? then Skipped
    else if e.Name() in previous && (e.Name() in present || e.Name() in Built(entries[..i])) then Kept
    else Added
  }

  /** The names of the first n entries with one fate, in file order. */
  function Having(entries: seq<Entry>, n: nat, previous: seq<string>, present: set<string>, fate: Fate): seq<string>
    requires n <= |entries|
  {
    if n == 0 then [] else
      Having(entries, n - 1, previous, present, fate)
      + if FateOf(entries, n - 1, previous, present) == fate then [entries[n - 1].Name()] else []
  }

  /** The names with one fate, when names and fates are given side by side. */
  function Pick(names: seq<string>, fates: seq<Fate>, fate: Fate): seq<string>
    requires |names| == |fates|
  {
    if names == [] then [] else
      var n := |names| - 1;
      Pick(names[..n], fates[..n], fate) + if fates[n] == fate then [names[n]] else []
  }

  function Count(names: seq<string>, x: string): nat {
    if names == [] then 0 else Count(names[..|names| - 1], x) + if names[|names| - 1] == x then 1 else 0
  }

  lemma {:induction false} CountIsMultiplicity(names: seq<string>, x: string)
    ensures multiset(names)[x] == Count(names, x)
  {
    if names != [] {
      CountIsMultiplicity(names[..|names| - 1], x);
      assert names == names[..|names| - 1] + [names[|names| - 1]];
    }
  }

  lemma PickCount(names: seq<string>, fates: seq<Fate>, fate: Fate, x: string)
    requires |names| == |fates| && names != []
    ensures var n := |names| - 1;
            Count(Pick(names, fates, fate), x)
            == Count(Pick(names[..n], fates[..n], fate), x) + if fates[n] == fate && names[n] == x then 1 else 0
  {
    var n := |names| - 1;
    var before := Pick(names[..n], fates[..n], fate);
    assert (before + [names[n]])[..|before|] == before;
    assert before + [] == before;
  }

  lemma {:induction false} PickShares(names: seq<string>, fates: seq<Fate>, x: string)
    requires |names| == |fates|
    ensures Count(Pick(names, fates, Added), x) + Count(Pick(names, fates, Kept), x)
            + Count(Pick(names, fates, Skipped), x) == Count(names, x)
  {
    if names != [] {
      var n := |names| - 1;
      PickShares(names[..n], fates[..n], x);
      PickCount(names, fates, Added, x);
      PickCount(names, fates, Kept, x);
      PickCount(names, fates, Skipped, x);
    }
  }

  function Fates(entries: seq<Entry>, n: nat, previous: seq<string>, present: set<string>): seq<Fate>
    requires n <= |entries|
  {
    seq(n, i requires 0 <= i < n => FateOf(entries, i, previous, present))
  }

  lemma {:induction false} HavingIsPick(entries: seq<Entry>, n: nat, previous: seq<string>, present: set<string>,
                                        fate: Fate)
    requires n <= |entries|
    ensures |Names(entries[..n])| == n
    ensures Having(entries, n, previous, present, fate)
         == Pick(Names(entries[..n]), Fates(entries, n, previous, present), fate)
  {
    if n > 0 {
      HavingIsPick(entries, n - 1, previous, present, fate);
      assert entries[..n][..n - 1] == entries[..n - 1];
      assert Names(entries[..n]) == Names(entries[..n - 1]) + [entries[n - 1].Name()];
      assert Fates(entries, n, previous, present)[..n - 1] == Fates(entries, n - 1, previous, present);
    }
  }

  /** `added`, `kept` and `skipped` share the file's entries out: every entry is
      in exactly one of them. */
  lemma FatesPartition(entries: seq<Entry>, previous: seq<string>, present: set<string>)
    ensures multiset(Having(entries, |entries|, previous, present, Added))
            + multiset(Having(entries, |entries|, previous, present, Kept))
            + multiset(Having(entries, |entries|, previous, present, Skipped)) == multiset(Names(entries))
  {
    var n := |entries|;
    assert entries[..n] == entries;
    HavingIsPick(entries, n, previous, present, Added);
    HavingIsPick(entries, n, previous, present, Kept);
    HavingIsPick(entries, n, previous, present, Skipped);
    PicksPartition(Names(entries), Fates(entries, n, previous, present));
  }

  lemma PicksPartition(names: seq<string>, fates: seq<Fate>)
    requires |names| == |fates|
    ensures multiset(Pick(names, fates, Added)) + multiset(Pick(names, fates, Kept))
            + multiset(Pick(names, fates, Skipped)) == multiset(names)
  {
    var a, k, s := Pick(names, fates, Added), Pick(names, fates, Kept), Pick(names, fates, Skipped);
    forall x ensures multiset(a)[x] + multiset(k)[x] + multiset(s)[x] == multiset(names)[x] {
      PickShares(names, fates, x);
      CountIsMultiplicity(a, x);
      CountIsMultiplicity(k, x);
      CountIsMultiplicity(s, x);
      CountIsMultiplicity(names, x);
    }
  }

  function Names(entries: seq<Entry>): seq<string> {
    if entries == [] then [] else Names(entries[..|entries| - 1]) + [entries[|entries| - 1].Name()]
  }

  // ---- The reconciliation ----

  lemma {:induction false} InstallKeys(providers: map<string, AiProvider>, entries: seq<Entry>)
    ensures forall n :: n in Install(providers, entries) <==> n in providers || n in Built(entries)
    ensures forall n :: n in providers && n !in Built(entries) ==> Install(providers, entries)[n] == providers[n]
  {
    if entries != [] {
      InstallKeys(providers, entries[..|entries| - 1]);
    }
  }

  /** The kept/added branch asks the registry as it is at that moment. */
  lemma BranchIsFate(entries: seq<Entry>, i: nat, previous: seq<string>, present: map<string, AiProvider>)
    requires i < |entries| && entries[i].Buildable?
    ensures var n, gone := entries[i].Name(), Dropped(Distinct(previous), entries);
            FateOf(entries, i, previous, present.Keys)
            == if n in Install(Uninstall(present, gone), entries[..i]) && n in previous then Kept else Added
  {
    var n, gone := entries[i].Name(), Dropped(Distinct(previous), entries);
    assert Mentions(entries, n);
    DroppedMeans(Distinct(previous), entries, n);
    UninstallKeys(present, gone);
    InstallKeys(Uninstall(present, gone), entries[..i]);
  }

  /** How the specification unfolds at one more entry. */
  lemma AnotherEntry(entries: seq<Entry>, i: nat, base: map<string, AiProvider>)
    requires i < |entries|
    ensures var e := entries[i];
            && Built(entries[..i + 1]) == Built(entries[..i]) + (if e.Buildable? then [e.adapter.name] else [])
            && Install(base, entries[..i + 1])
               == if e.Buildable? then Install(base, entries[..i])[e.adapter.name := e.adapter]
                  else Install(base, entries[..i])
  {
    assert entries[..i + 1][..i] == entries[..i];
  }

  /** Registers an adapter and says whether its name was registered before. */
  method Replace(registry: ProviderRegistry, adapter: AiProvider) returns (wasPresent: bool)
    requires registry.Valid()
    modifies registry
    ensures registry.Valid() && wasPresent == (adapter.name in old(registry.providers))
    ensures registry.providers == old(registry.providers)[adapter.name := adapter]
  {
    wasPresent := registry.Get(adapter.name).Some?;
    registry.Register(adapter);
  }

  method Reconcile(registry: ProviderRegistry, entries: seq<Entry>, previouslyOwned: seq<string>)
    returns (report: Report, ownedAfter: seq<string>)
    requires registry.Valid()
    modifies registry
    ensures registry.Valid()
    ensures ownedAfter == Built(entries)
    ensures report.removed == Dropped(Distinct(previouslyOwned), entries)
    ensures registry.providers == Install(Uninstall(old(registry.providers), report.removed), entries)
    ensures report.added == Having(entries, |entries|, previouslyOwned, old(registry.providers).Keys, Added)
    ensures report.kept == Having(entries, |entries|, previouslyOwned, old(registry.providers).Keys, Kept)
    ensures report.skipped == Having(entries, |entries|, previouslyOwned, old(registry.providers).Keys, Skipped)
  {
    var prev := Distinct(previouslyOwned);
    var removed := RemoveDropped(registry, entries, prev);
    ghost var present := old(registry.providers);
    var added, kept, skipped := [], [], [];
    ownedAfter := [];
    ghost var base := registry.providers;
    for i := 0 to |entries|
      invariant registry.Valid()
      invariant ownedAfter == Built(entries[..i]) && registry.providers == Install(base, entries[..i])
      invariant added == Having(entries, i, previouslyOwned, present.Keys, Added)
      invariant kept == Having(entries, i, previouslyOwned, present.Keys, Kept)
      invariant skipped == Having(entries, i, previouslyOwned, present.Keys, Skipped)
    {
      AnotherEntry(entries, i, base);
      var entry := entries[i];
      if entry.Buildable? {
        BranchIsFate(entries, i, previouslyOwned, present);
        var name := entry.adapter.name;
        var wasPresent := Replace(registry, entry.adapter);
        ownedAfter := ownedAfter + [name];
        if wasPresent && name in prev {
          kept := kept + [name];
        } else {
          added := added + [name];
        }
      } else {
        skipped := skipped + [entry.title];
      }
    }
    assert entries[..|entries|] == entries;
    report := Report(added, removed, kept, skipped);
  }

  /** The first loop: unregister what the file no longer names. */
  method RemoveDropped(registry: ProviderRegistry, entries: seq<Entry>, prev: seq<string>)
    returns (removed: seq<string>)
    requires registry.Valid()
    modifies registry
    ensures registry.Valid()
    ensures removed == Dropped(prev, entries)
    ensures registry.providers == Uninstall(old(registry.providers), removed)
  {
    removed := [];
    for i := 0 to |prev|
      invariant registry.Valid()
      invariant removed == Dropped(prev[..i], entries)
      invariant registry.providers == Uninstall(old(registry.providers), removed)
    {
      assert prev[..i + 1][..i] == prev[..i];
      if !Mentions(entries, prev[i]) {
        var _ := registry.Unregister(prev[i]);
        assert (removed + [prev[i]])[..|removed|] == removed;
        removed := removed + [prev[i]];
      }
    }
    assert prev[..|prev|] == prev;
  }

  // ---- Runs of reloads ----

  /** What the service and the registry hold. */
  datatype State = State(providers: map<string, AiProvider>, owned: seq<string>)

  /** A file that cannot be loaded (`None`) makes the reload throw before it
      changes anything. */
  ghost function After(s: State, file: Option<seq<Entry>>): State {
    match file
    case None => s
    case Some(entries) =>
      State(Install(Uninstall(s.providers, Dropped(Distinct(s.owned), entries)), entries), Built(entries))
  }

  ghost function AfterAll(s: State, files: seq<Option<seq<Entry>>>): State {
    if files == [] then s else After(AfterAll(s, files[..|files| - 1]), files[|files| - 1])
  }

  class FromFileReloadService {
    const registry: ProviderRegistry
    var owned: seq<string>

    ghost function Held(): State
      reads this, registry
    {
      State(registry.providers, owned)
    }

    constructor (registry: ProviderRegistry)
      ensures this.registry == registry && owned == []
    {
      this.registry, owned := registry, [];
    }

    method SetOwned(names: seq<string>)
      modifies this
      ensures owned == names
    {
      owned := names;
    }

    method Reload(file: Option<seq<Entry>>) returns (report: Option<Report>)
      requires registry.Valid()
      modifies this, registry
      ensures registry.Valid()
      ensures Held() == After(old(Held()), file)
      ensures report.Some? <==> file.Some?
      ensures report.Some? ==> report.value == ReportOf(old(Held()), file.value)
    {
      if file.None? {
        return None;
      }
      var result, ownedAfter := Reconcile(registry, file.value, owned);
      owned := ownedAfter;
      return Some(result);
    }
  }

  ghost function ReportOf(s: State, entries: seq<Entry>): Report {
    Report(Having(entries, |entries|, s.owned, s.providers.Keys, Added), Dropped(Distinct(s.owned), entries),
           Having(entries, |entries|, s.owned, s.providers.Keys, Kept),
           Having(entries, |entries|, s.owned, s.providers.Keys, Skipped))
  }

  /** One reload of a file that loads, for every name: a name the file can build
      is registered; an owned name the file dropped is gone; every other name
      keeps its adapter, or stays absent. */
  lemma ReloadPerName(s: State, entries: seq<Entry>, n: string)
    ensures var t := After(s, Some(entries));
            && (n in t.owned <==> n in Built(entries))
            && (n in Built(entries) ==> n in t.providers)
            && (n in s.owned && !Mentions(entries, n) ==> n !in t.providers)
            && (n !in Built(entries) && (n !in s.owned || Mentions(entries, n)) ==>
                  (n in t.providers <==> n in s.providers)
                  && (n in s.providers ==> t.providers[n] == s.providers[n]))
  {
    var gone := Dropped(Distinct(s.owned), entries);
    DroppedMeans(Distinct(s.owned), entries, n);
    BuiltIsMentioned(entries, n);
    UninstallKeys(s.providers, gone);
    InstallKeys(Uninstall(s.providers, gone), entries);
  }

  // ---- What a reload reports, in the file's own entries ----

  /** Entry `i` gives a provider called `n`. */
  predicate Builds(entries: seq<Entry>, i: nat, n: string) {
    i < |entries| && entries[i].Buildable? && entries[i].adapter.name == n
  }

  /** Entry `i` is one called `n` that cannot be built. */
  predicate Breaks(entries: seq<Entry>, i: nat, n: string) {
    i < |entries| && entries[i] == Broken(n)
  }

  /** The registry holds `n` when the loader comes to entry `i`. */
  ghost predicate HeldBefore(entries: seq<Entry>, i: nat, n: string, present: set<string>) {
    n in present || exists j: nat :: j < i && Builds(entries, j, n)
  }

  lemma {:induction false} BuiltIs(entries: seq<Entry>, i: nat, n: string)
    requires i <= |entries|
    ensures n in Built(entries[..i]) <==> exists j: nat :: j < i && Builds(entries, j, n)
  {
    if i > 0 {
      BuiltIs(entries, i - 1, n);
      assert entries[..i][..i - 1] == entries[..i - 1];
      if j: nat :| j < i && Builds(entries, j, n) {
        assert j == i - 1 || j < i - 1;
      }
      assert Builds(entries, i - 1, n) ==> n in Built(entries[..i]);
    }
  }

  /** Entry `i` can be built, and its name was owned and is held when its turn comes. */
  ghost predicate Keeps(entries: seq<Entry>, i: nat, n: string, owned: seq<string>, present: set<string>) {
    Builds(entries, i, n) && n in owned && HeldBefore(entries, i, n, present)
  }

  ghost predicate Adds(entries: seq<Entry>, i: nat, n: string, owned: seq<string>, present: set<string>) {
    Builds(entries, i, n) && !(n in owned && HeldBefore(entries, i, n, present))
  }

  ghost predicate Meets(entries: seq<Entry>, i: nat, n: string, owned: seq<string>, present: set<string>, fate: Fate) {
    match fate
    case Skipped => Breaks(entries, i, n)
    case Kept => Keeps(entries, i, n, owned, present)
    case Added => Adds(entries, i, n, owned, present)
  }

  lemma FateIs(entries: seq<Entry>, i: nat, n: string, owned: seq<string>, present: set<string>, fate: Fate)
    requires i < |entries|
    ensures entries[i].Name() == n && FateOf(entries, i, owned, present) == fate
       <==> Meets(entries, i, n, owned, present, fate)
  {
    BuiltIs(entries, i, entries[i].Name());
  }

  lemma {:induction false} HavingMeets(entries: seq<Entry>, m: nat, n: string, owned: seq<string>,
                                       present: set<string>, fate: Fate)
    requires m <= |entries|
    ensures n in Having(entries, m, owned, present, fate)
       <==> exists i: nat :: i < m && Meets(entries, i, n, owned, present, fate)
  {
    if m > 0 {
      HavingMeets(entries, m - 1, n, owned, present, fate);
      FateIs(entries, m - 1, n, owned, present, fate);
      if i: nat :| i < m && Meets(entries, i, n, owned, present, fate) {
        assert i == m - 1 || i < m - 1;
      }
    }
  }

  ghost predicate NamedAnywhere(entries: seq<Entry>, n: string) {
    exists i: nat :: Builds(entries, i, n) || Breaks(entries, i, n)
  }

  lemma MentionsIs(entries: seq<Entry>, n: string)
    ensures Mentions(entries, n) <==> NamedAnywhere(entries, n)
  {
    if Mentions(entries, n) {
      var i :| 0 <= i < |entries| && entries[i].Name() == n;
      assert Builds(entries, i, n) || Breaks(entries, i, n);
    }
    if i: nat :| Builds(entries, i, n) || Breaks(entries, i, n) {
      assert entries[i].Name() == n;
    }
  }

  /** Which names the four lists of a report hold. */
  lemma ReportMeans(s: State, entries: seq<Entry>, n: string)
    ensures var report, held := ReportOf(s, entries), s.providers.Keys;
            && (n in report.added <==> exists i: nat :: Adds(entries, i, n, s.owned, held))
            && (n in report.kept <==> exists i: nat :: Keeps(entries, i, n, s.owned, held))
            && (n in report.skipped <==> exists i: nat :: Breaks(entries, i, n))
            && (n in report.removed <==> n in s.owned && !NamedAnywhere(entries, n))
  {
    var held := s.providers.Keys;
    AddedMeans(entries, n, s.owned, held);
    KeptMeans(entries, n, s.owned, held);
    SkippedMeans(entries, n, s.owned, held);
    DroppedMeans(Distinct(s.owned), entries, n);
    MentionsIs(entries, n);
  }

  lemma AddedMeans(entries: seq<Entry>, n: string, owned: seq<string>, held: set<string>)
    ensures n in Having(entries, |entries|, owned, held, Added) <==> exists i: nat :: Adds(entries, i, n, owned, held)
  {
    HavingMeets(entries, |entries|, n, owned, held, Added);
    if i: nat :| Adds(entries, i, n, owned, held) {
      assert Meets(entries, i, n, owned, held, Added);
    }
  }

  lemma KeptMeans(entries: seq<Entry>, n: string, owned: seq<string>, held: set<string>)
    ensures n in Having(entries, |entries|, owned, held, Kept) <==> exists i: nat :: Keeps(entries, i, n, owned, held)
  {
    HavingMeets(entries, |entries|, n, owned, held, Kept);
    if i: nat :| Keeps(entries, i, n, owned, held) {
      assert Meets(entries, i, n, owned, held, Kept);
    }
  }

  lemma SkippedMeans(entries: seq<Entry>, n: string, owned: seq<string>, held: set<string>)
    ensures n in Having(entries, |entries|, owned, held, Skipped) <==> exists i: nat :: Breaks(entries, i, n)
  {
    HavingMeets(entries, |entries|, n, owned, held, Skipped);
    if i: nat :| Breaks(entries, i, n) {
      assert Meets(entries, i, n, owned, held, Skipped);
    }
  }

  /** Of several entries with one name the last that can be built is registered. */
  lemma {:induction false} LastBuilt(p: map<string, AiProvider>, entries: seq<Entry>, i: nat, n: string)
    requires Builds(entries, i, n) && forall j: nat :: i < j ==> !Builds(entries, j, n)
    ensures n in Install(p, entries) && Install(p, entries)[n] == entries[i].adapter
  {
    var before := entries[..|entries| - 1];
    if i < |entries| - 1 {
      assert Builds(before, i, n);
      forall j: nat | i < j ensures !Builds(before, j, n) {
        assert !Builds(entries, j, n);
      }
      LastBuilt(p, before, i, n);
      assert !Builds(entries, |entries| - 1, n);
    }
  }

  /** The exact leak: an owned name is left registered but no longer owned if
      and only if the file still mentions it and no entry of that name can be
      built. */
  lemma Orphaned(s: State, entries: seq<Entry>, n: string)
    requires n in s.owned && n in s.providers
    ensures var t := After(s, Some(entries));
            n in t.providers && n !in t.owned <==> Mentions(entries, n) && n !in Built(entries)
  {
    ReloadPerName(s, entries, n);
  }

  /** A file whose only entry can no longer be built leaves its provider behind. */
  lemma OrphanExists(adapter: AiProvider)
    ensures var n := adapter.name;
            var t := After(State(map[n := adapter], [n]), Some([Broken(n)]));
            n in t.providers && t.owned == []
  {
    var n := adapter.name;
    var broken: seq<Entry> := [Broken(n)];
    assert broken[0].Name() == n;
    assert broken[..|broken| - 1] == [];
    assert Built(broken) == [];
    Orphaned(State(map[n := adapter], [n]), broken, n);
  }

  /** The file the last successful load saw; no entries before the first. */
  ghost function LastLoaded(files: seq<Option<seq<Entry>>>): Option<seq<Entry>> {
    if files == [] then None
    else if files[|files| - 1].Some? then files[|files| - 1] else LastLoaded(files[..|files| - 1])
  }

  /** Over any run of reloads, what is owned is what the last loaded file can
      build, and all of it is registered. */
  lemma {:induction false} OwnedIsRegistered(s: State, files: seq<Option<seq<Entry>>>)
    requires s.owned == []
    ensures var t := AfterAll(s, files);
            && t.owned == (if LastLoaded(files).Some? then Built(LastLoaded(files).value) else [])
            && forall n :: n in t.owned ==> n in t.providers
  {
    if files != [] {
      OwnedIsRegistered(s, files[..|files| - 1]);
      var last := files[|files| - 1];
      if last.Some? {
        var before := AfterAll(s, files[..|files| - 1]);
        forall n | n in Built(last.value)
          ensures n in After(before, last).providers
        {
          ReloadPerName(before, last.value, n);
        }
      }
    }
  }

  ghost predicate NeverBuilt(files: seq<Option<seq<Entry>>>, n: string) {
    forall i :: 0 <= i < |files| && files[i].Some? ==> n !in Built(files[i].value)
  }

  /** Over any run of reloads, a name that was not owned and that no file can
      build is never touched. */
  lemma {:induction false} StrangersUntouched(s: State, files: seq<Option<seq<Entry>>>, n: string)
    requires n !in s.owned && NeverBuilt(files, n)
    ensures var t := AfterAll(s, files);
            && n !in t.owned
            && (n in t.providers <==> n in s.providers)
            && (n in s.providers ==> t.providers[n] == s.providers[n])
  {
    if files != [] {
      StrangersUntouched(s, files[..|files| - 1], n);
      if files[|files| - 1].Some? {
        ReloadPerName(AfterAll(s, files[..|files| - 1]), files[|files| - 1].value, n);
      }
    }
  }

  // ---- Reloading an unchanged file ----

  lemma {:induction false} InstallTwice(p: map<string, AiProvider>, q: map<string, AiProvider>, entries: seq<Entry>,
                                        n: string)
    requires n in Built(entries)
    ensures n in Install(p, entries) && n in Install(q, entries) && Install(p, entries)[n] == Install(q, entries)[n]
  {
    var before, last := entries[..|entries| - 1], entries[|entries| - 1];
    InstallKeys(p, entries);
    InstallKeys(q, entries);
    if !(last.Buildable? && last.adapter.name == n) {
      InstallTwice(p, q, before, n);
    }
  }

  lemma {:induction false} AllKept(entries: seq<Entry>, n: nat, present: set<string>)
    requires n <= |entries| && forall name :: name in Built(entries) ==> name in present
    ensures Having(entries, n, Built(entries), present, Added) == []
    ensures Having(entries, n, Built(entries), present, Kept) == Built(entries[..n])
  {
    if n > 0 {
      AllKept(entries, n - 1, present);
      assert entries[..n][..n - 1] == entries[..n - 1];
      if entries[n - 1].Buildable? {
        BuiltAt(entries, n - 1);
      }
    }
  }

  lemma {:induction false} BuiltAt(entries: seq<Entry>, i: nat)
    requires i < |entries| && entries[i].Buildable?
    ensures entries[i].Name() in Built(entries)
  {
    if i < |entries| - 1 {
      BuiltAt(entries[..|entries| - 1], i);
    }
  }

  lemma InstallIdempotent(p: map<string, AiProvider>, entries: seq<Entry>)
    ensures Install(Install(p, entries), entries) == Install(p, entries)
  {
    var once := Install(p, entries);
    InstallKeys(p, entries);
    InstallKeys(once, entries);
    forall n | n in Built(entries)
      ensures Install(once, entries)[n] == once[n]
    {
      InstallTwice(p, once, entries, n);
    }
  }

  /** Reloading an unchanged file adds and removes nothing and changes nothing:
      every entry that can be built is kept. */
  lemma ReloadIsIdempotent(s: State, entries: seq<Entry>)
    ensures var once := After(s, Some(entries));
            && After(once, Some(entries)) == once
            && ReportOf(once, entries).added == [] && ReportOf(once, entries).removed == []
            && ReportOf(once, entries).kept == Built(entries)
  {
    var base := Uninstall(s.providers, Dropped(Distinct(s.owned), entries));
    var once := Install(base, entries);
    forall n | n in Distinct(Built(entries))
      ensures Mentions(entries, n)
    {
      BuiltIsMentioned(entries, n);
    }
    NothingDropped(Distinct(Built(entries)), entries);
    InstallIdempotent(base, entries);
    InstallKeys(base, entries);
    AllKept(entries, |entries|, once.Keys);
    assert entries[..|entries|] == entries;
  }
}
