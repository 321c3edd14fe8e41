/**
 Lexicographic order on strings and a functional insertion sort over it.
 Go's `sort.Strings` compares the UTF-8 bytes of two strings; UTF-8 preserves
 code-point order, so comparing characters one by one gives the same order.
 */
module Sorting {
  import opened Seqs

  /** `a` sorts no later than `b`: a prefix of `b`, or smaller at the first difference. */
  predicate LessEq(a: string, b: string)
    decreases |a|
  {
    if |a| == 0 then true
    else if |b| == 0 then false
    else if a[0] != b[0] then a[0] < b[0]
    else LessEq(a[1..], b[1..])
  }

  lemma {:induction false} LessEqReflexive(a: string)
    ensures LessEq(a, a)
    decreases |a|
  {
    if |a| > 0 {
      LessEqReflexive(a[1..]);
    }
  }

  lemma {:induction false} LessEqTotal(a: string, b: string)
    ensures LessEq(a, b) || LessEq(b, a)
    decreases |a|
  {
    if |a| > 0 && |b| > 0 && a[0] == b[0] {
      LessEqTotal(a[1..], b[1..]);
    }
  }

  lemma {:induction false} LessEqAntisymmetric(a: string, b: string)
    requires LessEq(a, b) && LessEq(b, a)
    ensures a == b
    decreases |a|
  {
    if |a| > 0 {
      LessEqAntisymmetric(a[1..], b[1..]);
      assert a == [a[0]] + a[1..];
      assert b == [b[0]] + b[1..];
    }
  }

  lemma {:induction false} LessEqTransitive(a: string, b: string, c: string)
    requires LessEq(a, b) && LessEq(b, c)
    ensures LessEq(a, c)
    decreases |a|
  {
    if |a| > 0 && a[0] == b[0] && b[0] == c[0] {
      LessEqTransitive(a[1..], b[1..], c[1..]);
    }
  }

  predicate Sorted(xs: seq<string>) {
    forall i, j :: 0 <= i < j < |xs| ==> LessEq(xs[i], xs[j])
  }

  /** Inserts `x` into a sorted list before the first element it does not follow. */
  function Insert(x: string, xs: seq<string>): (r: seq<string>)
    requires Sorted(xs)
    ensures Sorted(r)
    ensures multiset(r) == multiset(xs) + multiset{x}
    decreases |xs|
  {
    if xs == [] then [x]
    else if LessEq(x, xs[0]) then
      InsertFrontSorted(x, xs);
      [x] + xs
    else
      var tail := Insert(x, xs[1..]);
      LessEqTotal(x, xs[0]);
      assert xs == [xs[0]] + xs[1..];
      HeadBelowTail(xs[0], x, xs[1..], tail);
      [xs[0]] + tail
  }

  lemma {:induction false} InsertFrontSorted(x: string, xs: seq<string>)
    requires Sorted(xs) && xs != [] && LessEq(x, xs[0])
    ensures Sorted([x] + xs)
  {
    forall j | 0 < j < |[x] + xs|
      ensures LessEq(x, ([x] + xs)[j])
    {
      if j > 1 {
        LessEqTransitive(x, xs[0], xs[j - 1]);
      }
    }
  }

  lemma {:induction false} HeadBelowTail(h: string, x: string, rest: seq<string>, tail: seq<string>)
    requires Sorted([h] + rest) && Sorted(tail) && LessEq(h, x)
    requires multiset(tail) == multiset(rest) + multiset{x}
    ensures Sorted([h] + tail)
  {
    forall j | 0 <= j < |tail|
      ensures LessEq(h, tail[j])
    {
      assert tail[j] in multiset(tail);
      if tail[j] != x {
        assert tail[j] in multiset(rest);
        var k :| 0 <= k < |rest| && rest[k] == tail[j];
        assert ([h] + rest)[k + 1] == rest[k];
        assert LessEq(([h] + rest)[0], ([h] + rest)[k + 1]);
      }
    }
  }

  /** Sorts a list of strings; the result is an ordered permutation of the input. */
  function Sort(xs: seq<string>): (r: seq<string>)
    ensures Sorted(r)
    ensures multiset(r) == multiset(xs)
    decreases |xs|
  {
    if xs == [] then []
    else
      assert xs == [xs[0]] + xs[1..];
      Insert(xs[0], Sort(xs[1..]))
  }

  /** The first element of a sorted list sorts no later than any of its elements. */
  lemma {:induction false} SortedHeadLeast(a: seq<string>, x: string)
    requires Sorted(a) && x in a
    ensures LessEq(a[0], x)
  {
    var j :| 0 <= j < |a| && a[j] == x;
    if j > 0 {
      assert LessEq(a[0], a[j]);
    } else {
      LessEqReflexive(a[0]);
    }
  }

  lemma {:induction false} SortedTail(a: seq<string>)
    requires Sorted(a) && a != []
    ensures Sorted(a[1..])
  {
    forall i, j | 0 <= i < j < |a[1..]|
      ensures LessEq(a[1..][i], a[1..][j])
    {
      assert a[1..][i] == a[i + 1] && a[1..][j] == a[j + 1];
    }
  }

  lemma {:induction false} MultisetSplit(a: seq<string>)
    requires a != []
    ensures multiset(a[1..]) == multiset(a) - multiset{a[0]}
  {
    assert a == [a[0]] + a[1..];
  }

  /** There is only one sorted arrangement of a multiset of strings. */
  lemma {:induction false} SortedUnique(a: seq<string>, b: seq<string>)
    requires Sorted(a) && Sorted(b)
    requires multiset(a) == multiset(b)
    ensures a == b
    decreases |a|
  {
    if a == [] {
      assert |b| == |multiset(b)| == 0;
    } else {
      assert a[0] in multiset(a);
      assert b != [] && a[0] in b;
      assert b[0] in multiset(b);
      SortedHeadLeast(b, a[0]);
      SortedHeadLeast(a, b[0]);
      LessEqAntisymmetric(a[0], b[0]);
      MultisetSplit(a);
      MultisetSplit(b);
      SortedTail(a);
      SortedTail(b);
      SortedUnique(a[1..], b[1..]);
      assert a == [a[0]] + a[1..];
      assert b == [b[0]] + b[1..];
    }
  }

  /** Sorting forgets the input order: permutations sort to the same list. */
  lemma {:induction false} SortIgnoresOrder(xs: seq<string>, ys: seq<string>)
    requires multiset(xs) == multiset(ys)
    ensures Sort(xs) == Sort(ys)
  {
    SortedUnique(Sort(xs), Sort(ys));
  }

  /**
   The images under `f` of an enumeration of `s`, sorted: one line per
   element of `s`, whatever order the enumeration visits `s` in.
   */
  function SortedImage<T>(f: T -> string, xs: seq<T>, s: set<T>): (r: seq<string>)
    requires Enumerates(xs, s)
    ensures Sorted(r)
    ensures |r| == |s|
  {
    var lines := Map(f, xs);
    var r := Sort(lines);
    EnumeratesMembers(xs, s);
    assert |r| == |multiset(r)| == |multiset(lines)| == |lines|;
    r
  }

  /** The image of every element of `s` is in the sorted image. */
  lemma {:induction false} SortedImageCovers<T>(f: T -> string, xs: seq<T>, s: set<T>, x: T)
    requires Enumerates(xs, s)
    requires x in s
    ensures f(x) in SortedImage(f, xs, s)
  {
    var lines := Map(f, xs);
    EnumeratesMembers(xs, s);
    var i :| 0 <= i < |xs| && xs[i] == x;
    assert lines[i] in multiset(Sort(lines));
  }

  /** Nothing but images of elements of `s` is in the sorted image. */
  lemma {:induction false} SortedImageOnly<T>(f: T -> string, xs: seq<T>, s: set<T>, line: string)
    requires Enumerates(xs, s)
    requires line in SortedImage(f, xs, s)
    ensures exists x :: x in s && line == f(x)
  {
    var lines := Map(f, xs);
    EnumeratesMembers(xs, s);
    assert line in multiset(Sort(lines));
    var i :| 0 <= i < |lines| && lines[i] == line;
    assert xs[i] in s;
  }

  /** The sorted image does not depend on the enumeration. */
  lemma {:induction false} SortedImageOrderFree<T>(f: T -> string, xs: seq<T>, ys: seq<T>, s: set<T>)
    requires Enumerates(xs, s) && Enumerates(ys, s)
    ensures SortedImage(f, xs, s) == SortedImage(f, ys, s)
  {
    MapMultiset(f, xs, ys);
    SortIgnoresOrder(Map(f, xs), Map(f, ys));
  }
}
