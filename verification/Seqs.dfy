/** Order-preserving selection over sequences, with the counting facts that the joins rest on. */
module Seqs {

  function Min(a: nat, b: nat): nat {
    if a < b then a else b
  }

  /** The elements of `xs` that satisfy `p`, in order. */
  function Filter<T>(xs: seq<T>, p: T -> bool): seq<T> {
    if xs == [] then [] else (if p(xs[0]) then [xs[0]] else []) + Filter(xs[1..], p)
  }

  function Map<T, U>(xs: seq<T>, f: T -> U): (r: seq<U>)
    ensures |r| == |xs| && forall i :: 0 <= i < |xs| ==> r[i] == f(xs[i])
  {
    seq(|xs|, i requires 0 <= i < |xs| => f(xs[i]))
  }

  /** Concatenation of the pieces that `f` makes of each element. */
  function FlatMap<T, U>(xs: seq<T>, f: T -> seq<U>): seq<U> {
    if xs == [] then [] else f(xs[0]) + FlatMap(xs[1..], f)
  }

  ghost predicate NoDup<T>(xs: seq<T>) {
    forall i, j :: 0 <= i < j < |xs| ==> xs[i] != xs[j]
  }

  /** No two positions of `xs` carry the same key. */
  ghost predicate DistinctBy<T, K>(xs: seq<T>, key: T -> K) {
    forall i, j :: 0 <= i < j < |xs| ==> key(xs[i]) != key(xs[j])
  }

  lemma TakeSnoc<T>(xs: seq<T>, i: nat)
    requires i < |xs|
    ensures xs[..i + 1] == xs[..i] + [xs[i]]
  {
  }

  lemma TakeAll<T>(xs: seq<T>)
    ensures xs[..|xs|] == xs
  {
  }

  lemma HeadTail<T>(xs: seq<T>)
    requires xs != []
    ensures xs == [xs[0]] + xs[1..]
  {
  }

  lemma FrontLast<T>(xs: seq<T>)
    requires xs != []
    ensures xs == xs[..|xs| - 1] + [xs[|xs| - 1]]
  {
  }

  lemma Assoc<T>(a: seq<T>, b: seq<T>, c: seq<T>)
    ensures a + b + c == a + (b + c)
  {
  }

  lemma EmptyLeft<T>(a: seq<T>, b: seq<T>)
    requires a == []
    ensures a + b == b
  {
  }

  lemma AppendTail<T>(a: seq<T>, b: seq<T>)
    requires a != []
    ensures (a + b)[0] == a[0] && (a + b)[1..] == a[1..] + b
  {
  }

  lemma SliceJoin<T>(xs: seq<T>, a: nat, b: nat, c: nat)
    requires a <= b <= c <= |xs|
    ensures xs[a..b] + xs[b..c] == xs[a..c]
  {
  }

  lemma PrefixSlice<T>(xs: seq<T>, ys: seq<T>, a: nat, b: nat)
    requires xs <= ys && a <= b <= |xs|
    ensures ys[a..b] == xs[a..b]
  {
  }

  lemma SliceLast<T>(xs: seq<T>, lo: nat, hi: nat)
    requires lo < hi <= |xs|
    ensures xs[lo..hi][hi - lo - 1] == xs[hi - 1]
  {
  }

  lemma SplitInThree<T>(xs: seq<T>, a: nat, b: nat)
    requires a <= b <= |xs|
    ensures xs == xs[..a] + xs[a..b] + xs[b..]
  {
  }

  lemma TakeAppend<T>(a: seq<T>, b: seq<T>, k: nat)
    requires k <= |b|
    ensures (a + b)[..|a| + k] == a + b[..k]
  {
  }

  lemma SliceSlice<T>(xs: seq<T>, lo: nat, hi: nat, a: nat, b: nat)
    requires lo <= a <= b <= hi <= |xs|
    ensures xs[lo..hi][a - lo..b - lo] == xs[a..b]
  {
    var part := xs[lo..hi][a - lo..b - lo];
    assert forall i :: 0 <= i < b - a ==> part[i] == xs[a + i];
  }

  lemma {:induction false} FilterMember<T>(xs: seq<T>, p: T -> bool, x: T)
    ensures x in Filter(xs, p) <==> x in xs && p(x)
  {
    if xs != [] {
      FilterMember(xs[1..], p, x);
      assert x in xs <==> x == xs[0] || x in xs[1..];
    }
  }

  lemma {:induction false} FilterAppend<T>(xs: seq<T>, ys: seq<T>, p: T -> bool)
    ensures Filter(xs + ys, p) == Filter(xs, p) + Filter(ys, p)
  {
    if xs == [] {
      EmptyLeft(xs, ys);
    } else {
      AppendTail(xs, ys);
      FilterAppend(xs[1..], ys, p);
      Assoc(if p(xs[0]) then [xs[0]] else [], Filter(xs[1..], p), Filter(ys, p));
    }
  }

  lemma {:induction false} FilterAll<T>(xs: seq<T>, p: T -> bool)
    requires forall x :: x in xs ==> p(x)
    ensures Filter(xs, p) == xs
  {
    if xs != [] { FilterAll(xs[1..], p); }
  }

  lemma {:induction false} FilterNone<T>(xs: seq<T>, p: T -> bool)
    requires forall x :: x in xs ==> !p(x)
    ensures Filter(xs, p) == []
  {
    if xs != [] { FilterNone(xs[1..], p); }
  }

  /** `ys` are the elements of `xs` at these positions, in order. */
  ghost predicate StandAt<T>(ys: seq<T>, xs: seq<T>, at: seq<nat>) {
    && |ys| == |at| && (forall k :: 0 <= k < |at| ==> at[k] < |xs| && ys[k] == xs[at[k]])
    && (forall j, k :: 0 <= j < k < |at| ==> at[j] < at[k])
  }

  /** Filtering selects exactly the positions that satisfy `p`, in order. */
  lemma {:induction false} FilterPositions<T>(xs: seq<T>, p: T -> bool) returns (at: seq<nat>)
    ensures StandAt(Filter(xs, p), xs, at)
    ensures forall i: nat :: i < |xs| ==> (i in at <==> p(xs[i]))
  {
    if xs == [] {
      at := [];
    } else {
      var front, last := xs[..|xs| - 1], xs[|xs| - 1];
      at := FilterPositions(front, p);
      FrontLast(xs);
      FilterAppend(front, [last], p);
      assert [last][1..] == [];
      StandAtSnoc(Filter(front, p), front, at, last);
      if p(last) { at := at + [|front|]; }
    }
  }

  lemma StandAtSnoc<T>(ys: seq<T>, xs: seq<T>, at: seq<nat>, x: T)
    requires StandAt(ys, xs, at)
    ensures StandAt(ys + [], xs + [x], at) && StandAt(ys + [x], xs + [x], at + [|xs|])
  {
    assert ys + [] == ys;
  }

  /** If exactly the positions a..b satisfy `p`, filtering is slicing. */
  lemma FilterSlice<T>(xs: seq<T>, p: T -> bool, a: nat, b: nat)
    requires a <= b <= |xs|
    requires forall i :: 0 <= i < |xs| ==> (p(xs[i]) <==> a <= i < b)
    ensures Filter(xs, p) == xs[a..b]
  {
    SplitInThree(xs, a, b);
    FilterAppend(xs[..a] + xs[a..b], xs[b..], p);
    FilterAppend(xs[..a], xs[a..b], p);
    FilterNone(xs[..a], p);
    FilterAll(xs[a..b], p);
    FilterNone(xs[b..], p);
  }

  /** The same on a run lo..hi of a longer sequence, in the longer sequence's positions. */
  lemma FilterRun<T>(xs: seq<T>, p: T -> bool, lo: nat, a: nat, b: nat, hi: nat)
    requires lo <= a <= b <= hi <= |xs|
    requires forall i :: lo <= i < hi ==> (p(xs[i]) <==> a <= i < b)
    ensures Filter(xs[lo..hi], p) == xs[a..b]
  {
    var run := xs[lo..hi];
    forall i | 0 <= i < |run| ensures p(run[i]) <==> a - lo <= i < b - lo {
      assert run[i] == xs[lo + i];
    }
    FilterSlice(run, p, a - lo, b - lo);
    SliceSlice(xs, lo, hi, a, b);
  }

  lemma {:induction false} FilterFilter<T>(xs: seq<T>, p: T -> bool, q: T -> bool, r: T -> bool)
    requires forall x :: x in xs ==> r(x) == (p(x) && q(x))
    ensures Filter(Filter(xs, p), q) == Filter(xs, r)
  {
    if xs != [] {
      FilterFilter(xs[1..], p, q, r);
      FilterAppend(if p(xs[0]) then [xs[0]] else [], Filter(xs[1..], p), q);
    }
  }

  /** Filtering keeps every occurrence of an accepted element and drops every other one. */
  lemma {:induction false} FilterCount<T>(xs: seq<T>, p: T -> bool, x: T)
    ensures multiset(Filter(xs, p))[x] == if p(x) then multiset(xs)[x] else 0
  {
    if xs != [] {
      assert xs == [xs[0]] + xs[1..];
      FilterCount(xs[1..], p, x);
    }
  }

  lemma {:induction false} FlatMapAppend<T, U>(xs: seq<T>, ys: seq<T>, f: T -> seq<U>)
    ensures FlatMap(xs + ys, f) == FlatMap(xs, f) + FlatMap(ys, f)
  {
    if xs == [] {
      EmptyLeft(xs, ys);
    } else {
      AppendTail(xs, ys);
      FlatMapAppend(xs[1..], ys, f);
      Assoc(f(xs[0]), FlatMap(xs[1..], f), FlatMap(ys, f));
    }
  }

  lemma {:induction false} FlatMapMember<T, U>(xs: seq<T>, f: T -> seq<U>, u: U)
    ensures u in FlatMap(xs, f) <==> exists x :: x in xs && u in f(x)
  {
    if xs != [] {
      FlatMapMember(xs[1..], f, u);
      assert forall x :: x in xs <==> x == xs[0] || x in xs[1..];
    }
  }

  lemma NoDupCount<T>(xs: seq<T>, x: T)
    requires NoDup(xs)
    ensures multiset(xs)[x] <= 1
  {
    if xs != [] {
      assert xs == [xs[0]] + xs[1..];
      NoDupCount(xs[1..], x);
      if x == xs[0] { assert x !in multiset(xs[1..]); }
    }
  }

  lemma RepeatCount<T>(xs: seq<T>, i: nat, j: nat)
    requires i < j < |xs| && xs[i] == xs[j]
    ensures multiset(xs)[xs[i]] >= 2
  {
    assert xs == xs[..j] + [xs[j]] + xs[j + 1..];
    assert xs[i] == xs[..j][i];
    assert xs[i] in multiset(xs[..j]);
  }

  /** A part of a key-distinct collection is key-distinct. */
  lemma DistinctPart<T, K>(part: seq<T>, xs: seq<T>, key: T -> K)
    requires DistinctBy(xs, key)
    requires multiset(part) <= multiset(xs)
    ensures DistinctBy(part, key)
  {
    forall i, j | 0 <= i < j < |part| ensures key(part[i]) != key(part[j]) {
      assert part[i] in multiset(part) && part[j] in multiset(part);
      assert part[i] in xs && part[j] in xs;
      if part[i] == part[j] {
        RepeatCount(part, i, j);
        NoDupCount(xs, part[i]);
      }
    }
  }

  /** The selector "filed under `k`". */
  function Under<K(==), E>(key: E -> K, k: K): E -> bool {
    e => key(e) == k
  }

  /** The join loop of the ledger assembly: for each key in turn, the items filed under it. */
  function Join<K(==), E>(keys: seq<K>, items: seq<E>, key: E -> K): seq<E> {
    if keys == [] then [] else Filter(items, Under(key, keys[0])) + Join(keys[1..], items, key)
  }

  /**
   * Conservation through a join: with distinct keys, an item filed under a listed key comes out as often
   * as it went in, and any other item not at all.
   */
  lemma {:induction false} JoinConserves<K, E>(keys: seq<K>, items: seq<E>, key: E -> K, e: E)
    requires NoDup(keys)
    ensures multiset(Join(keys, items, key))[e] == if key(e) in keys then multiset(items)[e] else 0
  {
    if keys != [] {
      var here := Filter(items, Under(key, keys[0]));
      FilterCount(items, Under(key, keys[0]), e);
      JoinConserves(keys[1..], items, key, e);
      assert key(e) in keys <==> key(e) == keys[0] || key(e) in keys[1..];
      assert keys[0] !in keys[1..];
      assert Join(keys, items, key) == here + Join(keys[1..], items, key);
    }
  }

  lemma {:induction false} JoinAppend<K, E>(k1: seq<K>, k2: seq<K>, items: seq<E>, key: E -> K)
    ensures Join(k1 + k2, items, key) == Join(k1, items, key) + Join(k2, items, key)
  {
    if k1 == [] {
      EmptyLeft(k1, k2);
    } else {
      AppendTail(k1, k2);
      JoinAppend(k1[1..], k2, items, key);
      Assoc(Filter(items, Under(key, k1[0])), Join(k1[1..], items, key), Join(k2, items, key));
    }
  }
}
