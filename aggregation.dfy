/**
 * Block aggregation: the integers obtained from one block of sensor bytes
 * (`map(ord, ...)`) are reduced to their median, as `numpy.median` does:
 * sort, then take the middle element of an odd-length block or the mean of
 * the two middle elements of an even-length one.
 */
module Aggregation {

  /** One sensor reading: what `ord` gives for one character read from the port. */
  type Byte = x: int | 0 <= x < 256

  predicate Sorted(s: seq<int>)
  {
    forall i, j :: 0 <= i < j < |s| ==> s[i] <= s[j]
  }

  /** The smallest element of a non-empty sequence. */
  function Min(s: seq<int>): (m: int)
    requires |s| > 0
    ensures m in s
    ensures forall i :: 0 <= i < |s| ==> m <= s[i]
  {
    if |s| == 1 then s[0]
    else
      var rest := Min(s[1..]);
      if s[0] <= rest then s[0] else rest
  }

  /** The largest element of a non-empty sequence. */
  function Max(s: seq<int>): (m: int)
    requires |s| > 0
    ensures m in s
    ensures forall i :: 0 <= i < |s| ==> s[i] <= m
  {
    if |s| == 1 then s[0]
    else
      var rest := Max(s[1..]);
      if rest <= s[0] then s[0] else rest
  }

  /** Inserts x into a sorted sequence, keeping it sorted. */
  function Insert(x: int, s: seq<int>): (r: seq<int>)
    requires Sorted(s)
    ensures Sorted(r) && |r| == |s| + 1
    ensures multiset(r) == multiset(s) + multiset{x}
  {
    if s == [] || x <= s[0] then
      [x] + s
    else
      var tail := Insert(x, s[1..]);
      assert s == [s[0]] + s[1..];
      LowerBoundOfPermutation(s[0], tail, s[1..] + [x]);
      SortedCons(s[0], tail);
      [s[0]] + tail
  }

  /** A lower bound of a sorted sequence can be put in front of it. */
  lemma SortedCons(x: int, t: seq<int>)
    requires Sorted(t)
    requires forall k :: 0 <= k < |t| ==> x <= t[k]
    ensures Sorted([x] + t)
  {
  }

  /** A bound on every element of a sequence is a bound on every element of its permutations. */
  lemma LowerBoundOfPermutation(lo: int, u: seq<int>, w: seq<int>)
    requires multiset(u) == multiset(w)
    requires forall k :: 0 <= k < |w| ==> lo <= w[k]
    ensures forall k :: 0 <= k < |u| ==> lo <= u[k]
  {
    forall k | 0 <= k < |u|
      ensures lo <= u[k]
    {
      assert u[k] in multiset(w);
    }
  }

  lemma UpperBoundOfPermutation(hi: int, u: seq<int>, w: seq<int>)
    requires multiset(u) == multiset(w)
    requires forall k :: 0 <= k < |w| ==> w[k] <= hi
    ensures forall k :: 0 <= k < |u| ==> u[k] <= hi
  {
    forall k | 0 <= k < |u|
      ensures u[k] <= hi
    {
      assert u[k] in multiset(w);
    }
  }

  /** The sorted permutation of a block (insertion sort). */
  function Sort(s: seq<int>): (r: seq<int>)
    ensures Sorted(r) && |r| == |s|
    ensures multiset(r) == multiset(s)
  {
    if s == [] then []
    else
      assert s == [s[0]] + s[1..];
      Insert(s[0], Sort(s[1..]))
  }

  /** Note that |multiset(s)| == |s|, so a permutation has the input's length. */
  lemma PermutationLength(a: seq<int>, b: seq<int>)
    requires multiset(a) == multiset(b)
    ensures |a| == |b|
  {
    assert |multiset(a)| == |a| && |multiset(b)| == |b|;
  }

  /** A sorted sequence is determined by its elements. */
  lemma {:induction false} SortedUnique(a: seq<int>, b: seq<int>)
    requires Sorted(a) && Sorted(b)
    requires multiset(a) == multiset(b)
    ensures a == b
  {
    PermutationLength(a, b);
    if a != [] {
      assert a[0] in multiset(b) && b[0] in multiset(a);
      assert a[0] == b[0];
      assert a == [a[0]] + a[1..];
      assert b == [b[0]] + b[1..];
      assert multiset(a[1..]) == multiset(a) - multiset{a[0]};
      assert multiset(b[1..]) == multiset(b) - multiset{b[0]};
      SortedUnique(a[1..], b[1..]);
    }
  }

  /** numpy.median of a non-empty block. */
  function Median(block: seq<int>): (median: real)
    requires |block| > 0
  {
    var sorted, n := Sort(block), |block|;
    if n % 2 == 1 then sorted[n / 2] as real
    else (sorted[n / 2 - 1] + sorted[n / 2]) as real / 2.0
  }

  /**
   * The median is the middle element of the block's sorted order: the middle
   * element for odd length, the mean of the two middle elements for even
   * length. For a block that already is sorted, that is read off directly.
   */
  lemma MedianOfSorted(block: seq<int>)
    requires |block| > 0 && Sorted(block)
    ensures |block| % 2 == 1 ==> Median(block) == block[|block| / 2] as real
    ensures |block| % 2 == 0 ==>
      Median(block) == (block[|block| / 2 - 1] + block[|block| / 2]) as real / 2.0
  {
    SortedUnique(Sort(block), block);
  }

  /** The median does not depend on the order in which the bytes arrived. */
  lemma MedianIgnoresOrder(a: seq<int>, b: seq<int>)
    requires |a| > 0
    requires multiset(a) == multiset(b)
    ensures |b| > 0 && Median(a) == Median(b)
  {
    PermutationLength(a, b);
    SortedUnique(Sort(a), Sort(b));
  }

  /** The median of a permutation is the middle of any sorted arrangement of it. */
  lemma MedianOfAnySortedArrangement(block: seq<int>, sorted: seq<int>)
    requires |block| > 0
    requires Sorted(sorted) && multiset(sorted) == multiset(block)
    ensures |sorted| == |block|
    ensures |block| % 2 == 1 ==> Median(block) == sorted[|block| / 2] as real
    ensures |block| % 2 == 0 ==>
      Median(block) == (sorted[|block| / 2 - 1] + sorted[|block| / 2]) as real / 2.0
  {
    PermutationLength(sorted, block);
    SortedUnique(Sort(block), sorted);
  }

  /** The median lies between the smallest and the largest element of the block. */
  lemma MedianBetweenMinAndMax(block: seq<int>)
    requires |block| > 0
    ensures Min(block) as real <= Median(block) <= Max(block) as real
  {
    var sorted := Sort(block);
    PermutationLength(sorted, block);
    LowerBoundOfPermutation(Min(block), sorted, block);
    UpperBoundOfPermutation(Max(block), sorted, block);
    var n := |sorted|;
    if n % 2 == 1 {
      assert Median(block) == sorted[n / 2] as real;
    } else {
      assert Median(block) == (sorted[n / 2 - 1] + sorted[n / 2]) as real / 2.0;
    }
  }

  /** The number of occurrences of v in s is at most |s|. */
  lemma {:induction false} CountAtMostLength(s: seq<int>, v: int)
    ensures multiset(s)[v] <= |s|
  {
    if s != [] {
      assert s == [s[0]] + s[1..];
      CountAtMostLength(s[1..], v);
    }
  }

  /**
   * In a sorted sequence, position i holds v when v occurs more than i times
   * and at least |t| - i times.
   */
  lemma SortedPositionHolds(t: seq<int>, v: int, i: nat)
    requires Sorted(t) && i < |t|
    requires multiset(t)[v] > i && multiset(t)[v] >= |t| - i
    ensures t[i] == v
  {
    assert t == t[..i + 1] + t[i + 1..];
    assert t == t[..i] + t[i..];
    CountAtMostLength(t[i + 1..], v);
    CountAtMostLength(t[..i], v);
    if t[i] < v {
      assert false;
    } else if t[i] > v {
      assert false;
    }
  }

  /**
   * Outlier rejection: when strictly more than half of the block has the
   * value v, the median is v, whatever the other readings are.
   */
  lemma MedianOfMajority(block: seq<int>, v: int)
    requires 2 * multiset(block)[v] > |block|
    ensures |block| > 0 && Median(block) == v as real
  {
    var sorted := Sort(block);
    PermutationLength(sorted, block);
    var n := |sorted|;
    SortedPositionHolds(sorted, v, n / 2);
    if n % 2 == 0 {
      SortedPositionHolds(sorted, v, n / 2 - 1);
    }
  }

  /** n copies of v. */
  function Repeat(v: int, n: nat): (r: seq<int>)
    ensures |r| == n
    ensures forall i :: 0 <= i < n ==> r[i] == v
  {
    if n == 0 then [] else [v] + Repeat(v, n - 1)
  }

  lemma {:induction false} RepeatCount(v: int, n: nat)
    ensures multiset(Repeat(v, n))[v] == n
  {
    if n > 0 {
      RepeatCount(v, n - 1);
    }
  }
}
