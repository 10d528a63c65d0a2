/** Helpers shared by the components: an optional value, integer minimum
    and maximum, the order-preserving `Array.prototype.filter`, the
    subsequence relation, and the stable sort `Array.prototype.sort`
    performs with a comparator. */
module Seqs {

  /** A value that may be absent (`undefined` / `null` in the components). */
  datatype Option<T> = None | Some(value: T) {
    function GetOr(default: T): T {
      if Some? then value else default
    }
  }

  /** The values of the present entries, in order: what
      `.filter(x => x !== undefined)` leaves of a looked-up list. */
  function Present<T(==,!new)>(xs: seq<Option<T>>): (r: seq<T>)
    ensures |r| <= |xs|
    ensures forall x :: x in r <==> Some(x) in xs
    ensures (forall i :: 0 <= i < |xs| ==> xs[i].Some?) ==>
      |r| == |xs| && forall i :: 0 <= i < |xs| ==> r[i] == xs[i].value
    decreases |xs|
  {
    if |xs| == 0 then []
    else
      var rest := Present(xs[1..]);
      assert forall i :: 1 <= i < |xs| ==> xs[i] == xs[1..][i - 1];
      assert forall x :: Some(x) in xs <==> Some(x) == xs[0] || Some(x) in xs[1..];
      if xs[0].Some? then [xs[0].value] + rest else rest
  }

  /** `Present` of a list with one more entry in front. */
  lemma PresentCons<T(!new)>(x: Option<T>, xs: seq<Option<T>>)
    ensures Present([x] + xs) == (if x.Some? then [x.value] else []) + Present(xs)
  {
    assert ([x] + xs)[1..] == xs;
  }

  /** `Math.min` and `Math.max` on integers. */
  function Min(a: int, b: int): int {
    if a <= b then a else b
  }

  function Max(a: int, b: int): int {
    if a >= b then a else b
  }

  /** `a` can be obtained from `b` by deleting elements, keeping order. */
  predicate IsSubsequence<T(==)>(a: seq<T>, b: seq<T>)
    decreases |b|
  {
    |a| == 0 || (|b| > 0 && if a[0] == b[0] then IsSubsequence(a[1..], b[1..]) else IsSubsequence(a, b[1..]))
  }

  lemma {:induction false} SubsequenceLength<T>(a: seq<T>, b: seq<T>)
    requires IsSubsequence(a, b)
    ensures |a| <= |b|
    decreases |b|
  {
    if |a| > 0 {
      if a[0] == b[0] {
        SubsequenceLength(a[1..], b[1..]);
      } else {
        SubsequenceLength(a, b[1..]);
      }
    }
  }

  lemma {:induction false} SubsequenceMembers<T>(a: seq<T>, b: seq<T>)
    requires IsSubsequence(a, b)
    ensures forall x :: x in a ==> x in b
    decreases |b|
  {
    if |a| > 0 {
      if a[0] == b[0] {
        SubsequenceMembers(a[1..], b[1..]);
        assert forall x :: x in a ==> x == a[0] || x in a[1..];
      } else {
        SubsequenceMembers(a, b[1..]);
      }
    }
  }

  lemma {:induction false} SubsequenceRefl<T>(a: seq<T>)
    ensures IsSubsequence(a, a)
    decreases |a|
  {
    if |a| > 0 {
      SubsequenceRefl(a[1..]);
    }
  }

  /** `xs.filter(keep)`: the elements satisfying `keep`, in their original order. */
  function Filter<T(==,!new)>(xs: seq<T>, keep: T -> bool): (r: seq<T>)
    ensures forall x :: x in r <==> x in xs && keep(x)
    ensures IsSubsequence(r, xs)
    decreases |xs|
  {
    if |xs| == 0 then []
    else if keep(xs[0]) then [xs[0]] + Filter(xs[1..], keep)
    else Filter(xs[1..], keep)
  }

  /** `filter` keeps every passing element as often as it occurs and drops
      every failing one: the result's multiset is the input's restricted to
      `keep`. */
  lemma {:induction false} FilterMultiplicity<T(!new)>(xs: seq<T>, keep: T -> bool)
    ensures forall x :: multiset(Filter(xs, keep))[x] == if keep(x) then multiset(xs)[x] else 0
    decreases |xs|
  {
    if |xs| > 0 {
      FilterMultiplicity(xs[1..], keep);
      assert xs == [xs[0]] + xs[1..];
      assert multiset(xs) == multiset{xs[0]} + multiset(xs[1..]);
      if keep(xs[0]) {
        assert multiset(Filter(xs, keep)) == multiset{xs[0]} + multiset(Filter(xs[1..], keep));
      }
    }
  }

  /** Filtering with a predicate every element satisfies changes nothing. */
  lemma {:induction false} FilterAll<T(!new)>(xs: seq<T>, keep: T -> bool)
    requires forall x :: x in xs ==> keep(x)
    ensures Filter(xs, keep) == xs
    decreases |xs|
  {
    if |xs| > 0 {
      FilterAll(xs[1..], keep);
    }
  }

  /** Filtering with a predicate no element satisfies leaves nothing. */
  lemma {:induction false} FilterNone<T(!new)>(xs: seq<T>, keep: T -> bool)
    requires forall x :: x in xs ==> !keep(x)
    ensures Filter(xs, keep) == []
    decreases |xs|
  {
    if |xs| > 0 {
      FilterNone(xs[1..], keep);
    }
  }

  /** Two filters in a row are one filter by the conjunction. */
  lemma {:induction false} FilterFilter<T(!new)>(xs: seq<T>, f: T -> bool, g: T -> bool, both: T -> bool)
    requires forall x :: both(x) == (f(x) && g(x))
    ensures Filter(Filter(xs, f), g) == Filter(xs, both)
    decreases |xs|
  {
    if |xs| > 0 {
      FilterFilter(xs[1..], f, g, both);
    }
  }

  /** Filters that agree on every element give the same result. */
  lemma {:induction false} FilterExt<T(!new)>(xs: seq<T>, f: T -> bool, g: T -> bool)
    requires forall x :: x in xs ==> f(x) == g(x)
    ensures Filter(xs, f) == Filter(xs, g)
    decreases |xs|
  {
    if |xs| > 0 {
      FilterExt(xs[1..], f, g);
    }
  }

  /** A stronger filter keeps a subsequence of what a weaker one keeps. */
  lemma {:induction false} FilterMonotone<T(!new)>(xs: seq<T>, f: T -> bool, g: T -> bool)
    requires forall x :: f(x) ==> g(x)
    ensures IsSubsequence(Filter(xs, f), Filter(xs, g))
    decreases |xs|
  {
    if |xs| > 0 {
      FilterMonotone(xs[1..], f, g);
      var a, b := Filter(xs[1..], f), Filter(xs[1..], g);
      if f(xs[0]) {
        assert Filter(xs, f) == [xs[0]] + a && Filter(xs, g) == [xs[0]] + b;
        assert ([xs[0]] + a)[1..] == a;
        assert ([xs[0]] + b)[1..] == b;
      } else if g(xs[0]) {
        assert Filter(xs, g) == [xs[0]] + b;
        assert ([xs[0]] + b)[1..] == b;
        if |a| > 0 {
          assert a[0] in a;
        }
      }
    }
  }

  lemma {:induction false} FilterAppend<T(!new)>(xs: seq<T>, ys: seq<T>, keep: T -> bool)
    ensures Filter(xs + ys, keep) == Filter(xs, keep) + Filter(ys, keep)
    decreases |xs|
  {
    if |xs| > 0 {
      assert (xs + ys)[0] == xs[0];
      assert (xs + ys)[1..] == xs[1..] + ys;
      FilterAppend(xs[1..], ys, keep);
    } else {
      assert xs + ys == ys;
    }
  }

  /** Two filters that never both accept, and together accept exactly what
      a third accepts, split the third's result between them. */
  lemma {:induction false} FilterSplitCount<T(!new)>(xs: seq<T>, f: T -> bool, g: T -> bool, h: T -> bool)
    requires forall x :: h(x) == (f(x) || g(x))
    requires forall x :: !(f(x) && g(x))
    ensures |Filter(xs, f)| + |Filter(xs, g)| == |Filter(xs, h)|
    decreases |xs|
  {
    if |xs| > 0 {
      FilterSplitCount(xs[1..], f, g, h);
    }
  }

  /** When every element but the one at `k` passes the filter, the filter
      either keeps everything or drops exactly that element. */
  lemma {:induction false} FilterAllBut<T(!new)>(xs: seq<T>, k: int, keep: T -> bool)
    requires 0 <= k < |xs|
    requires forall i :: 0 <= i < |xs| && i != k ==> keep(xs[i])
    ensures Filter(xs, keep) == if keep(xs[k]) then xs else xs[..k] + xs[k + 1..]
  {
    if keep(xs[k]) {
      FilterAll(xs, keep);
    } else {
      FilterDropsOne(xs, k, keep);
    }
  }

  /** The filter drops the one element at `k` that fails it. */
  lemma FilterDropsOne<T(!new)>(xs: seq<T>, k: int, keep: T -> bool)
    requires 0 <= k < |xs| && !keep(xs[k])
    requires forall i :: 0 <= i < |xs| && i != k ==> keep(xs[i])
    ensures Filter(xs, keep) == xs[..k] + xs[k + 1..]
  {
    var front, back := xs[..k], xs[k + 1..];
    SplitAround(xs, k);
    forall i | 0 <= i < |front|
      ensures keep(front[i])
    {
      assert front[i] == xs[i];
    }
    forall i | 0 <= i < |back|
      ensures keep(back[i])
    {
      assert back[i] == xs[k + 1 + i];
    }
    FilterMiddle(front, xs[k], back, keep);
  }

  lemma SplitAround<T>(xs: seq<T>, k: int)
    requires 0 <= k < |xs|
    ensures xs == xs[..k] + [xs[k]] + xs[k + 1..]
  {
  }

  /** A filter that keeps everything around one failing element drops just
      that element. */
  lemma {:induction false} FilterMiddle<T(!new)>(front: seq<T>, x: T, back: seq<T>, keep: T -> bool)
    requires forall i :: 0 <= i < |front| ==> keep(front[i])
    requires forall i :: 0 <= i < |back| ==> keep(back[i])
    requires !keep(x)
    ensures Filter(front + [x] + back, keep) == front + back
    decreases |front|
  {
    var all := front + [x] + back;
    if |front| == 0 {
      assert all[0] == x && all[1..] == back;
      FilterKeepsEach(back, keep);
    } else {
      var rest := front[1..];
      assert all[0] == front[0] && all[1..] == rest + [x] + back;
      assert forall i :: 0 <= i < |rest| ==> rest[i] == front[i + 1];
      assert keep(all[0]);
      assert Filter(all, keep) == [all[0]] + Filter(all[1..], keep);
      FilterMiddle(rest, x, back, keep);
      ConsAppend(front, back);
    }
  }

  lemma ConsAppend<T>(s: seq<T>, t: seq<T>)
    requires |s| > 0
    ensures s + t == [s[0]] + (s[1..] + t)
  {
    assert s == [s[0]] + s[1..];
  }

  /** Index form of `FilterAll`. */
  lemma {:induction false} FilterKeepsEach<T(!new)>(xs: seq<T>, keep: T -> bool)
    requires forall i :: 0 <= i < |xs| ==> keep(xs[i])
    ensures Filter(xs, keep) == xs
    decreases |xs|
  {
    if |xs| > 0 {
      assert forall i :: 0 <= i < |xs| - 1 ==> xs[1..][i] == xs[i + 1];
      FilterKeepsEach(xs[1..], keep);
    }
  }

  /** Neighbouring elements are in order. */
  predicate AdjacentSorted<T>(le: (T, T) -> bool, xs: seq<T>) {
    forall i :: 0 < i < |xs| ==> le(xs[i - 1], xs[i])
  }

  /** Every earlier element is in order with every later one. */
  predicate Sorted<T>(le: (T, T) -> bool, xs: seq<T>) {
    forall i, j :: 0 <= i < j < |xs| ==> le(xs[i], xs[j])
  }

  /** Puts `x` in front of the first element it may precede. */
  function Insert<T>(x: T, ys: seq<T>, le: (T, T) -> bool): seq<T>
    decreases |ys|
  {
    if |ys| == 0 then [x]
    else if le(x, ys[0]) then [x] + ys
    else [ys[0]] + Insert(x, ys[1..], le)
  }

  /** Inserting adds exactly the one element. */
  lemma {:induction false} InsertPermutes<T>(x: T, ys: seq<T>, le: (T, T) -> bool)
    ensures multiset(Insert(x, ys, le)) == multiset(ys) + multiset{x}
    decreases |ys|
  {
    if |ys| > 0 && !le(x, ys[0]) {
      InsertPermutes(x, ys[1..], le);
      assert ys == [ys[0]] + ys[1..];
    }
  }

  /** The result of `[...xs].sort(cmp)`, where `le(a, b)` means `cmp(a, b) <= 0`.
      Elements are inserted from the back, so an element that ties with a
      later one stays in front of it: the sort is stable, as the language
      requires of `Array.prototype.sort`. */
  function Sort<T>(xs: seq<T>, le: (T, T) -> bool): (r: seq<T>)
    ensures multiset(r) == multiset(xs)
    decreases |xs|
  {
    if |xs| == 0 then []
    else
      assert xs == [xs[0]] + xs[1..];
      InsertPermutes(xs[0], Sort(xs[1..], le), le);
      Insert(xs[0], Sort(xs[1..], le), le)
  }

  lemma {:induction false} InsertAdjacentSorted<T>(x: T, ys: seq<T>, le: (T, T) -> bool)
    requires forall a, b :: le(a, b) || le(b, a)
    requires AdjacentSorted(le, ys)
    ensures AdjacentSorted(le, Insert(x, ys, le))
    ensures |ys| > 0 ==> Insert(x, ys, le)[0] == x || Insert(x, ys, le)[0] == ys[0]
    decreases |ys|
  {
    if |ys| > 0 && !le(x, ys[0]) {
      var rest := Insert(x, ys[1..], le);
      InsertAdjacentSorted(x, ys[1..], le);
      if |ys| > 1 {
        assert le(ys[0], ys[1]);
      }
      assert le(ys[0], x);
      var r := [ys[0]] + rest;
      forall i | 0 < i < |r|
        ensures le(r[i - 1], r[i])
      {
        if i > 1 {
          assert r[i - 1] == rest[i - 2] && r[i] == rest[i - 1];
        }
      }
    }
  }

  /** With a comparator that relates every pair, the sort leaves
      neighbours in order. */
  lemma {:induction false} SortAdjacentSorted<T>(xs: seq<T>, le: (T, T) -> bool)
    requires forall a, b :: le(a, b) || le(b, a)
    ensures AdjacentSorted(le, Sort(xs, le))
    decreases |xs|
  {
    if |xs| > 0 {
      SortAdjacentSorted(xs[1..], le);
      InsertAdjacentSorted(xs[0], Sort(xs[1..], le), le);
    }
  }

  /** For a transitive relation, neighbours in order means all pairs in order. */
  lemma AdjacentSortedIsSorted<T>(xs: seq<T>, le: (T, T) -> bool)
    requires forall a, b, c :: le(a, b) && le(b, c) ==> le(a, c)
    requires AdjacentSorted(le, xs)
    ensures Sorted(le, xs)
  {
    forall i, j | 0 <= i < j < |xs|
      ensures le(xs[i], xs[j])
    {
      var k := i + 1;
      while k < j
        invariant i < k <= j
        invariant le(xs[i], xs[k])
      {
        k := k + 1;
      }
    }
  }

  /** Inserting an element of the second kind into a sequence that has all
      elements of the first kind before those of the second puts it at the
      front of the second block. */
  lemma InsertIntoPartition<T>(x: T, a: seq<T>, b: seq<T>, le: (T, T) -> bool, first: T -> bool)
    requires forall u, v :: le(u, v) == (first(u) || !first(v))
    requires forall u :: u in a ==> first(u)
    requires forall u :: u in b ==> !first(u)
    ensures first(x) ==> Insert(x, a + b, le) == [x] + a + b
    ensures !first(x) ==> Insert(x, a + b, le) == a + [x] + b
  {
    if first(x) {
      if |a + b| > 0 {
        assert le(x, (a + b)[0]);
      }
      InsertInFront(x, a + b, le);
    } else {
      if |b| > 0 {
        assert !first(b[0]) && le(x, b[0]);
      }
      assert forall i :: 0 <= i < |a| ==> !le(x, a[i]) by {
        forall i | 0 <= i < |a|
          ensures !le(x, a[i])
        {
          assert a[i] in a;
        }
      }
      InsertPast(x, a, b, le);
    }
  }

  /** An element that goes before the head is put in front. */
  lemma InsertInFront<T>(x: T, ys: seq<T>, le: (T, T) -> bool)
    requires |ys| == 0 || le(x, ys[0])
    ensures Insert(x, ys, le) == [x] + ys
  {
  }

  /** An element that goes after every element of `a` and before the head
      of `b` lands between them. */
  lemma {:induction false} InsertPast<T>(x: T, a: seq<T>, b: seq<T>, le: (T, T) -> bool)
    requires forall i :: 0 <= i < |a| ==> !le(x, a[i])
    requires |b| == 0 || le(x, b[0])
    ensures Insert(x, a + b, le) == a + [x] + b
    decreases |a|
  {
    if |a| == 0 {
      assert a + b == b;
      InsertInFront(x, b, le);
    } else {
      InsertStepsPast(x, a, b, le);
      AllAfterTail(x, a, le);
      InsertPast(x, a[1..], b, le);
      ConsMiddle(a, x, b);
    }
  }

  lemma AllAfterTail<T>(x: T, a: seq<T>, le: (T, T) -> bool)
    requires |a| > 0 && forall i :: 0 <= i < |a| ==> !le(x, a[i])
    ensures forall i :: 0 <= i < |a[1..]| ==> !le(x, a[1..][i])
  {
    forall i | 0 <= i < |a[1..]|
      ensures !le(x, a[1..][i])
    {
      assert a[1..][i] == a[i + 1];
    }
  }

  lemma ConsMiddle<T>(a: seq<T>, x: T, b: seq<T>)
    requires |a| > 0
    ensures [a[0]] + (a[1..] + [x] + b) == a + [x] + b
  {
    assert a == [a[0]] + a[1..];
  }

  /** An element that does not go before the head of `a + b` is inserted
      into the rest. */
  lemma InsertStepsPast<T>(x: T, a: seq<T>, b: seq<T>, le: (T, T) -> bool)
    requires |a| > 0 && !le(x, a[0])
    ensures Insert(x, a + b, le) == [a[0]] + Insert(x, a[1..] + b, le)
  {
    assert (a + b)[0] == a[0];
    assert (a + b)[1..] == a[1..] + b;
  }

  /** Sorting by "kind one before kind two" is the same as listing the first
      kind and then the second, each in its original order: the sort keeps
      ties in their relative order. */
  lemma {:induction false} SortPartition<T(!new)>(xs: seq<T>, le: (T, T) -> bool, first: T -> bool, second: T -> bool)
    requires forall u, v :: le(u, v) == (first(u) || !first(v))
    requires forall u :: second(u) == !first(u)
    ensures Sort(xs, le) == Filter(xs, first) + Filter(xs, second)
    decreases |xs|
  {
    if |xs| > 0 {
      SortPartition(xs[1..], le, first, second);
      InsertIntoPartition(xs[0], Filter(xs[1..], first), Filter(xs[1..], second), le, first);
    }
  }
}
