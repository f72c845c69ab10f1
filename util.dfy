/** The minimum excludant used to allocate test ids. */
module Util {

  /** `r` is the least integer at or above `start` that is not in `taken`. */
  ghost predicate IsMexFrom(start: int, taken: set<int>, r: int) {
    start <= r && r !in taken && forall k :: start <= k < r ==> k in taken
  }

  /** How many elements of `used` are at least `start`. */
  function CountFrom(used: seq<int>, start: int): nat {
    if used == [] then 0
    else (if used[0] >= start then 1 else 0) + CountFrom(used[1..], start)
  }

  lemma {:induction false} CountFromShrinks(used: seq<int>, start: int)
    ensures CountFrom(used, start + 1) <= CountFrom(used, start)
    ensures start in used ==> CountFrom(used, start + 1) < CountFrom(used, start)
  {
    if used != [] {
      CountFromShrinks(used[1..], start);
    }
  }

  /** `crate::util::mex(start, used)`: the smallest value at or above
      `start` that does not occur in `used`. */
  function Mex(start: int, used: seq<int>): (r: int)
    ensures IsMexFrom(start, (set x | x in used), r)
    decreases CountFrom(used, start)
  {
    if start in used then
      CountFromShrinks(used, start);
      Mex(start + 1, used)
    else start
  }

  /** At most one value is the minimum excludant of a set. */
  lemma MexUnique(start: int, taken: set<int>, r1: int, r2: int)
    requires IsMexFrom(start, taken, r1) && IsMexFrom(start, taken, r2)
    ensures r1 == r2
  {
  }

  /** The integers in [lo, hi). */
  function Range(lo: int, hi: int): (s: set<int>)
    ensures forall k :: k in s <==> lo <= k < hi
    decreases hi - lo
  {
    if lo >= hi then {} else Range(lo, hi - 1) + {hi - 1}
  }

  lemma {:induction false} RangeSize(lo: int, hi: int)
    requires lo <= hi
    ensures |Range(lo, hi)| == hi - lo
    decreases hi - lo
  {
    if lo < hi {
      RangeSize(lo, hi - 1);
    }
  }

  lemma SubsetSize(a: set<int>, b: set<int>)
    requires a <= b
    ensures |a| <= |b|
  {
    assert b == a + (b - a);
    assert a * (b - a) == {};
  }

  /** A set holding every integer of [1, n) has at least n - 1 elements. */
  lemma PrefixBound(taken: set<int>, n: int)
    requires 1 <= n
    requires forall k :: 1 <= k < n ==> k in taken
    ensures n - 1 <= |taken|
  {
    RangeSize(1, n);
    SubsetSize(Range(1, n), taken);
  }

  /** The minimum excludant from 1 is at most one more than the number of
      taken values, so the search for it ends. */
  lemma MexBound(taken: set<int>, r: int)
    requires IsMexFrom(1, taken, r)
    ensures r <= |taken| + 1
  {
    PrefixBound(taken, r);
  }
}
