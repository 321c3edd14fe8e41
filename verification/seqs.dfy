/**
 Sequence and map helpers: element-wise mapping, last-writer-wins merging of
 maps, and enumerations, which stand for Go's unspecified map iteration order.
 */
module Seqs {

  /** Applies `f` to every element, keeping order and length. */
  function Map<A, B>(f: A -> B, xs: seq<A>): (r: seq<B>)
    ensures |r| == |xs|
    ensures forall i :: 0 <= i < |xs| ==> r[i] == f(xs[i])
  {
    seq(|xs|, i requires 0 <= i < |xs| => f(xs[i]))
  }

  lemma {:induction false} MapAppend<A, B>(f: A -> B, xs: seq<A>, ys: seq<A>)
    ensures Map(f, xs + ys) == Map(f, xs) + Map(f, ys)
  {
    assert forall i :: 0 <= i < |xs + ys| ==> Map(f, xs + ys)[i] == (Map(f, xs) + Map(f, ys))[i];
  }

  /** Dropping the element at `k` removes one copy of it. */
  lemma {:induction false} RemoveAt<T>(ys: seq<T>, k: nat)
    requires k < |ys|
    ensures multiset(ys[..k] + ys[k + 1..]) == multiset(ys) - multiset{ys[k]}
  {
    assert ys == ys[..k] + [ys[k]] + ys[k + 1..];
  }

  /** Dropping the element at `k` before mapping removes one copy of its image. */
  lemma {:induction false} MapRemoveAt<A, B>(f: A -> B, ys: seq<A>, k: nat)
    requires k < |ys|
    ensures multiset(Map(f, ys)) == multiset(Map(f, ys[..k] + ys[k + 1..])) + multiset{f(ys[k])}
  {
    var m := Map(f, ys);
    assert Map(f, ys[..k] + ys[k + 1..]) == m[..k] + m[k + 1..];
    RemoveAt(m, k);
    assert m[k] in multiset(m);
  }

  lemma {:induction false} MapRemoveFirst<A, B>(f: A -> B, xs: seq<A>)
    requires xs != []
    ensures multiset(Map(f, xs)) == multiset(Map(f, xs[1..])) + multiset{f(xs[0])}
  {
    var m := Map(f, xs);
    assert m == [m[0]] + Map(f, xs[1..]);
  }

  /** Matching first elements, with images of the rests equal as multisets, give equal image multisets. */
  lemma {:induction false} MapMultisetStep<A, B>(f: A -> B, xs: seq<A>, ys: seq<A>, k: nat)
    requires xs != [] && k < |ys| && ys[k] == xs[0]
    requires multiset(Map(f, xs[1..])) == multiset(Map(f, ys[..k] + ys[k + 1..]))
    ensures multiset(Map(f, xs)) == multiset(Map(f, ys))
  {
    var image := multiset(Map(f, xs[1..]));
    var y := f(xs[0]);
    MapRemoveFirst(f, xs);
    MapRemoveAt(f, ys, k);
    assert multiset(Map(f, xs)) == image + multiset{y};
    assert multiset(Map(f, ys)) == image + multiset{y};
  }

  /** Mapping respects multiset equality: the mapped multiset depends only on the input multiset. */
  lemma {:induction false} MapMultiset<A, B>(f: A -> B, xs: seq<A>, ys: seq<A>)
    requires multiset(xs) == multiset(ys)
    ensures multiset(Map(f, xs)) == multiset(Map(f, ys))
    decreases |xs|
  {
    if xs == [] {
      assert |ys| == |multiset(ys)| == 0;
    } else {
      assert xs[0] in multiset(ys);
      var k :| 0 <= k < |ys| && ys[k] == xs[0];
      assert xs == [xs[0]] + xs[1..];
      RemoveAt(ys, k);
      MapMultiset(f, xs[1..], ys[..k] + ys[k + 1..]);
      MapMultisetStep(f, xs, ys, k);
    }
  }

  /** `xs` lists every element of `s` exactly once, in some order. */
  predicate Enumerates<T>(xs: seq<T>, s: set<T>) {
    multiset(xs) == multiset(s)
  }

  lemma {:induction false} EnumeratesMembers<T>(xs: seq<T>, s: set<T>)
    requires Enumerates(xs, s)
    ensures |xs| == |s|
    ensures forall x :: x in xs <==> x in s
  {
    assert |multiset(xs)| == |xs|;
    assert forall x :: x in xs <==> x in multiset(xs);
  }

  /** Two enumerations of one set are permutations of each other. */
  lemma {:induction false} EnumerationsArePermutations<T>(xs: seq<T>, ys: seq<T>, s: set<T>)
    requires Enumerates(xs, s) && Enumerates(ys, s)
    ensures multiset(xs) == multiset(ys)
  {
  }

  /** Concatenation of a list of strings, in order. */
  function Concat(xs: seq<string>): (r: string)
    ensures xs == [] ==> r == ""
    ensures (forall i :: 0 <= i < |xs| ==> xs[i] == "") <==> r == ""
  {
    if xs == [] then "" else xs[0] + Concat(xs[1..])
  }

  /**
   Merges maps left to right; a key present in several maps takes its value
   from the last of them (Go's repeated `m[k] = v`).
   */
  function MergeAll<K(!new), V>(ms: seq<map<K, V>>): (r: map<K, V>)
    ensures forall k :: k in r <==> exists i :: 0 <= i < |ms| && k in ms[i]
    decreases |ms|
  {
    if ms == [] then map[]
    else
      MergeAll(ms[..|ms| - 1]) + ms[|ms| - 1]
  }

  /** The value of a merged key comes from the last map that holds it. */
  lemma {:induction false} MergeAllLastWins<K(!new), V>(ms: seq<map<K, V>>, i: nat, k: K)
    requires i < |ms| && k in ms[i]
    requires forall j :: i < j < |ms| ==> k !in ms[j]
    ensures k in MergeAll(ms) && MergeAll(ms)[k] == ms[i][k]
    decreases |ms|
  {
    if i < |ms| - 1 {
      var front := ms[..|ms| - 1];
      assert k !in ms[|ms| - 1];
      MergeAllLastWins(front, i, k);
    }
  }

  /** A key held by some map of the list is held by a last one. */
  lemma {:induction false} LastHolding<K, V>(ms: seq<map<K, V>>, k: K, i: nat) returns (r: nat)
    requires i < |ms| && k in ms[i]
    ensures i <= r < |ms| && k in ms[r]
    ensures forall j :: r < j < |ms| ==> k !in ms[j]
    decreases |ms| - i
  {
    if j :| i < j < |ms| && k in ms[j] {
      r := LastHolding(ms, k, j);
    } else {
      r := i;
    }
  }

  /** A merged key takes its value from the last map holding it, and there is such a map. */
  lemma {:induction false} LastMerged<K(!new), V>(ms: seq<map<K, V>>, k: K) returns (r: nat)
    requires k in MergeAll(ms)
    ensures r < |ms| && k in ms[r]
    ensures forall j :: r < j < |ms| ==> k !in ms[j]
    ensures MergeAll(ms)[k] == ms[r][k]
  {
    var i :| 0 <= i < |ms| && k in ms[i];
    r := LastHolding(ms, k, i);
    MergeAllLastWins(ms, r, k);
  }

  /**
   Two lists that agree from `n` on, where a key is held at or after `n`,
   have their last holder of that key in the same place.
   */
  lemma {:induction false} LastHolderInSharedTail<K, V>(s1: seq<map<K, V>>, s2: seq<map<K, V>>, n: nat, k: K, j: nat, r1: nat, r2: nat)
    requires |s1| == |s2| && n <= j < |s1|
    requires forall i :: n <= i < |s1| ==> s1[i] == s2[i]
    requires k in s1[j]
    requires r1 < |s1| && k in s1[r1] && forall i :: r1 < i < |s1| ==> k !in s1[i]
    requires r2 < |s2| && k in s2[r2] && forall i :: r2 < i < |s2| ==> k !in s2[i]
    ensures r1 == r2
  {
    assert n <= r1 && n <= r2 by {
      assert s1[j] == s2[j];
    }
    assert s1[r1] == s2[r1] && s1[r2] == s2[r2];
  }
}
