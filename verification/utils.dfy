/**
 * The numeric helpers of utils.js: `clamp`, `median` and `relativeDelta`,
 * over exact reals (floating-point rounding and NaN are not modelled).
 */
module Utils {
  import opened Wrappers

  function Min(a: real, b: real): real { if a <= b then a else b }
  function Max(a: real, b: real): real { if a >= b then a else b }

  /** `clamp(v, min, max)` = `Math.max(min, Math.min(max, v))`. */
  function Clamp(v: real, lo: real, hi: real): (r: real)
    ensures lo <= r
    ensures lo <= hi ==> r <= hi
    ensures lo <= v <= hi ==> r == v
    ensures v < lo ==> r == lo
    ensures lo <= hi < v ==> r == hi
    ensures hi < lo ==> r == lo
  {
    Max(lo, Min(hi, v))
  }

  /** Ascending order, as `(a, b) => a - b` sorts numbers. */
  ghost predicate Sorted(s: seq<real>) {
    forall i, j :: 0 <= i < j < |s| ==> s[i] <= s[j]
  }

  /** Inserts x before the first element not smaller than it. */
  function Insert(x: real, s: seq<real>): seq<real>
    decreases |s|
  {
    if s == [] || x <= s[0] then [x] + s else [s[0]] + Insert(x, s[1..])
  }

  /** Inserting into a sorted sequence keeps it sorted and adds exactly x. */
  lemma {:induction false} InsertKeepsOrder(x: real, s: seq<real>)
    requires Sorted(s)
    ensures Sorted(Insert(x, s))
    ensures multiset(Insert(x, s)) == multiset(s) + multiset{x}
    decreases |s|
  {
    InsertAddsX(x, s);
    if s != [] && s[0] < x {
      InsertKeepsOrder(x, s[1..]);
      InsertAboveBound(x, s[1..], s[0]);
      SortedCons(s[0], Insert(x, s[1..]));
    }
  }

  /** A sorted sequence stays sorted behind a head no larger than its elements. */
  lemma SortedCons(h: real, t: seq<real>)
    requires Sorted(t) && forall k :: 0 <= k < |t| ==> h <= t[k]
    ensures Sorted([h] + t)
  {
    var r := [h] + t;
    forall i, j | 0 <= i < j < |r| ensures r[i] <= r[j] {
      assert r[j] == t[j - 1];
      if i > 0 {
        assert r[i] == t[i - 1];
      }
    }
  }

  /** Insertion adds exactly x. */
  lemma {:induction false} InsertAddsX(x: real, s: seq<real>)
    ensures multiset(Insert(x, s)) == multiset(s) + multiset{x}
    decreases |s|
  {
    if s != [] && s[0] < x {
      InsertAddsX(x, s[1..]);
      assert s == [s[0]] + s[1..];
    }
  }

  /** Inserting a value no smaller than lo into elements no smaller than lo
      gives elements no smaller than lo. */
  lemma {:induction false} InsertAboveBound(x: real, s: seq<real>, lo: real)
    requires lo <= x && forall k :: 0 <= k < |s| ==> lo <= s[k]
    ensures forall k :: 0 <= k < |Insert(x, s)| ==> lo <= Insert(x, s)[k]
    decreases |s|
  {
    if s != [] && s[0] < x {
      InsertAboveBound(x, s[1..], lo);
      var r := Insert(x, s);
      assert r == [s[0]] + Insert(x, s[1..]);
      forall k | 0 < k < |r| ensures lo <= r[k] {
        assert r[k] == Insert(x, s[1..])[k - 1];
      }
    }
  }

  /** The sorted copy `[...arr].sort((a, b) => a - b)`. */
  function SortedCopy(s: seq<real>): (r: seq<real>)
    ensures Sorted(r)
    ensures multiset(r) == multiset(s)
    decreases |s|
  {
    if s == [] then []
    else
      assert s == [s[0]] + s[1..];
      InsertKeepsOrder(s[0], SortedCopy(s[1..]));
      Insert(s[0], SortedCopy(s[1..]))
  }

  /** The first element of a non-empty sorted sequence is its least element. */
  lemma SortedHeadIsLeast(s: seq<real>, x: real)
    requires Sorted(s) && x in multiset(s)
    ensures s[0] <= x
  {
    var i :| 0 <= i < |s| && s[i] == x;
  }

  /** Two sorted sequences with the same elements are equal, so the sorted copy
      does not depend on the sorting algorithm JavaScript's `sort` uses. */
  lemma {:induction false} SortedIsUnique(a: seq<real>, b: seq<real>)
    requires Sorted(a) && Sorted(b) && multiset(a) == multiset(b)
    ensures a == b
    decreases |a|
  {
    assert |a| == |multiset(a)| == |multiset(b)| == |b|;
    if a != [] {
      assert a[0] in multiset(b) && b[0] in multiset(a);
      SortedHeadIsLeast(b, a[0]);
      SortedHeadIsLeast(a, b[0]);
      assert a[0] == b[0];
      assert a == [a[0]] + a[1..] && b == [b[0]] + b[1..];
      assert multiset(a) == multiset{a[0]} + multiset(a[1..]);
      assert multiset(b) == multiset{b[0]} + multiset(b[1..]);
      assert multiset(a[1..]) == multiset(a) - multiset{a[0]};
      assert multiset(b[1..]) == multiset(b) - multiset{b[0]};
      SortedIsUnique(a[1..], b[1..]);
    }
  }

  /** `median(arr)`: null for an empty array, otherwise the element at index
      `floor(n / 2)` of the sorted copy; the input itself is left unchanged. */
  function Median(arr: seq<real>): (r: Option<real>)
    ensures r.None? <==> |arr| == 0
    ensures r.Some? ==> r.value in multiset(arr)
    ensures r.Some? ==> forall s :: Sorted(s) && multiset(s) == multiset(arr) ==> r.value == s[|arr| / 2]
  {
    if |arr| == 0 then None
    else
      var s := SortedCopy(arr);
      assert |s| == |multiset(s)| == |arr|;
      assert s[|arr| / 2] in multiset(arr) by {
        assert s[|arr| / 2] in multiset(s);
      }
      assert forall t :: Sorted(t) && multiset(t) == multiset(arr) ==> s[|arr| / 2] == t[|arr| / 2] by {
        forall t | Sorted(t) && multiset(t) == multiset(arr) ensures s[|arr| / 2] == t[|arr| / 2] {
          SortedIsUnique(s, t);
        }
      }
      Some(s[|arr| / 2])
  }

  /** At most half of the elements lie below the median and at most half above it. */
  lemma MedianSplitsSorted(s: seq<real>)
    requires Sorted(s) && 0 < |s|
    ensures forall i :: 0 <= i < |s| && s[i] < s[|s| / 2] ==> i < |s| / 2
    ensures forall i :: 0 <= i < |s| && s[|s| / 2] < s[i] ==> |s| / 2 < i
  {
  }

  /** `relativeDelta(value, baseline)`: the relative improvement of value over
      baseline, `(baseline - value) / baseline`, clamped to [-1, 1]; 0 when
      baseline is 0. */
  function RelativeDelta(value: real, baseline: real): (r: real)
    ensures -1.0 <= r <= 1.0
    ensures baseline == 0.0 ==> r == 0.0
    ensures baseline != 0.0 && value == baseline ==> r == 0.0
    ensures baseline != 0.0 && -1.0 <= (baseline - value) / baseline <= 1.0 ==> r == (baseline - value) / baseline
    ensures baseline > 0.0 && value <= 0.0 ==> r == 1.0
  {
    if baseline == 0.0 then 0.0
    else
      assert baseline > 0.0 && value <= 0.0 ==> (baseline - value) / baseline >= 1.0 by {
        if baseline > 0.0 && value <= 0.0 {
          assert baseline - value >= baseline;
          assert (baseline - value) / baseline >= baseline / baseline;
        }
      }
      Clamp((baseline - value) / baseline, -1.0, 1.0)
  }
}
