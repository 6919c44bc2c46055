/** The stable sort the ranking strategies get from their runtime. */
module Sorting {

  /** A number that may be Infinity. */
  datatype Ext = Fin(r: real) | Inf

  /** `a - b <= 0`, with two infinities comparing equal. */
  predicate Leq(a: Ext, b: Ext) {
    b.Inf? || (a.Fin? && a.r <= b.r)
  }

  function Insert<T>(x: T, ys: seq<T>, key: T -> Ext): seq<T> {
    if ys == [] || Leq(key(x), key(ys[0])) then [x] + ys else [ys[0]] + Insert(x, ys[1..], key)
  }

  function StableSort<T>(xs: seq<T>, key: T -> Ext): seq<T> {
    if xs == [] then [] else Insert(xs[0], StableSort(xs[1..], key), key)
  }

  ghost predicate Sorted<T>(xs: seq<T>, key: T -> Ext) {
    forall i, j :: 0 <= i < j < |xs| ==> Leq(key(xs[i]), key(xs[j]))
  }

  /** The elements with a given key, in order. */
  function WithKey<T>(xs: seq<T>, key: T -> Ext, k: Ext): seq<T> {
    if xs == [] then [] else (if key(xs[0]) == k then [xs[0]] else []) + WithKey(xs[1..], key, k)
  }

  /** `ys` is `xs` sorted by key, equal keys in their old order. */
  ghost predicate IsStableSort<T>(xs: seq<T>, ys: seq<T>, key: T -> Ext) {
    Sorted(ys, key) && multiset(ys) == multiset(xs) && forall k :: WithKey(ys, key, k) == WithKey(xs, key, k)
  }

  lemma {:induction false} InsertKeepsAll<T>(x: T, ys: seq<T>, key: T -> Ext)
    ensures multiset(Insert(x, ys, key)) == multiset{x} + multiset(ys)
  {
    if ys != [] && !Leq(key(x), key(ys[0])) {
      InsertKeepsAll(x, ys[1..], key);
      assert ys == [ys[0]] + ys[1..];
    }
  }

  lemma {:induction false} InsertGoesFirst<T>(x: T, ys: seq<T>, key: T -> Ext, k: Ext)
    ensures WithKey(Insert(x, ys, key), key, k) == (if key(x) == k then [x] else []) + WithKey(ys, key, k)
  {
    var r := Insert(x, ys, key);
    if ys == [] || Leq(key(x), key(ys[0])) {
      assert r[1..] == ys;
    } else {
      InsertGoesFirst(x, ys[1..], key, k);
      assert r[1..] == Insert(x, ys[1..], key);
    }
  }

  lemma {:induction false} InsertSorts<T>(x: T, ys: seq<T>, key: T -> Ext)
    requires Sorted(ys, key)
    ensures Sorted(Insert(x, ys, key), key)
  {
    if ys != [] && !Leq(key(x), key(ys[0])) {
      InsertSorts(x, ys[1..], key);
      InsertKeepsAll(x, ys[1..], key);
      var rest := Insert(x, ys[1..], key);
      forall j | 0 <= j < |rest| ensures Leq(key(ys[0]), key(rest[j])) {
        assert rest[j] in multiset(rest);
        assert rest[j] == x || rest[j] in ys[1..];
      }
    }
  }

  lemma {:induction false} SortIsStable<T>(xs: seq<T>, key: T -> Ext)
    ensures IsStableSort(xs, StableSort(xs, key), key)
  {
    if xs != [] {
      SortIsStable(xs[1..], key);
      InsertSorts(xs[0], StableSort(xs[1..], key), key);
      InsertKeepsAll(xs[0], StableSort(xs[1..], key), key);
      forall k ensures WithKey(StableSort(xs, key), key, k) == WithKey(xs, key, k) {
        InsertGoesFirst(xs[0], StableSort(xs[1..], key), key, k);
      }
      assert xs == [xs[0]] + xs[1..];
    }
  }

  lemma {:induction false} WithKeyHas<T>(xs: seq<T>, key: T -> Ext, i: nat)
    requires i < |xs|
    ensures WithKey(xs, key, key(xs[i])) != []
  {
    if i > 0 {
      WithKeyHas(xs[1..], key, i - 1);
    }
  }

  lemma SomeKey<T>(xs: seq<T>, key: T -> Ext)
    ensures xs != [] ==> exists k :: WithKey(xs, key, k) != []
  {
    if xs != [] { WithKeyHas(xs, key, 0); }
  }

  lemma {:induction false} WithKeyFrom<T>(xs: seq<T>, key: T -> Ext, k: Ext) returns (i: nat)
    requires WithKey(xs, key, k) != []
    ensures i < |xs| && key(xs[i]) == k
  {
    if key(xs[0]) == k {
      i := 0;
    } else {
      i := WithKeyFrom(xs[1..], key, k);
      i := i + 1;
    }
  }

  /** Being sorted and keeping equal keys in order leaves one possible result,
      so it does not matter which stable sort the runtime uses. */
  lemma {:induction false} StableSortIsUnique<T>(a: seq<T>, b: seq<T>, key: T -> Ext)
    requires Sorted(a, key) && Sorted(b, key)
    requires forall k :: WithKey(a, key, k) == WithKey(b, key, k)
    ensures a == b
  {
    SomeKey(b, key);
    if a != [] {
      SomeKey(a, key);
      WithKeyHas(a, key, 0);
      var j := WithKeyFrom(b, key, key(a[0]));
      WithKeyHas(b, key, 0);
      var i := WithKeyFrom(a, key, key(b[0]));
      assert key(a[0]) == key(b[0]);
      assert WithKey(a, key, key(a[0]))[0] == a[0] && WithKey(b, key, key(b[0]))[0] == b[0];
      forall k ensures WithKey(a[1..], key, k) == WithKey(b[1..], key, k) {
        var n := if key(a[0]) == k then 1 else 0;
        assert WithKey(a, key, k) == WithKey(b, key, k);
        assert WithKey(a[1..], key, k) == WithKey(a, key, k)[n..];
        assert WithKey(b[1..], key, k) == WithKey(b, key, k)[n..];
      }
      StableSortIsUnique(a[1..], b[1..], key);
    }
  }
}
