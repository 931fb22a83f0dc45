/** Median and median absolute deviation of a window of samples, over the reals. */
module Statistics {
  import opened Prelude

  function Insert(x: real, sorted: seq<real>): seq<real> {
    if sorted == [] || x <= sorted[0] then [x] + sorted else [sorted[0]] + Insert(x, sorted[1..])
  }

  function Sort(xs: seq<real>): seq<real> {
    if xs == [] then [] else Insert(xs[0], Sort(xs[1..]))
  }

  predicate Sorted(xs: seq<real>) {
    forall i, j :: 0 <= i < j < |xs| ==> xs[i] <= xs[j]
  }

  predicate AllAtLeast(xs: seq<real>, lo: real) {
    forall i :: 0 <= i < |xs| ==> lo <= xs[i]
  }

  lemma {:induction false} InsertAtLeast(x: real, sorted: seq<real>, lo: real)
    requires AllAtLeast(sorted, lo) && lo <= x
    ensures AllAtLeast(Insert(x, sorted), lo)
  {
    if sorted != [] && x > sorted[0] {
      InsertAtLeast(x, sorted[1..], lo);
    }
  }

  lemma {:induction false} InsertSorts(x: real, sorted: seq<real>)
    requires Sorted(sorted)
    ensures Sorted(Insert(x, sorted))
  {
    if sorted != [] && x > sorted[0] {
      InsertSorts(x, sorted[1..]);
      InsertAtLeast(x, sorted[1..], sorted[0]);
    }
  }

  lemma {:induction false} InsertAdds(x: real, sorted: seq<real>)
    ensures multiset(Insert(x, sorted)) == multiset(sorted) + multiset{x}
    ensures |Insert(x, sorted)| == |sorted| + 1
  {
    if sorted != [] && x > sorted[0] {
      InsertAdds(x, sorted[1..]);
      assert sorted == [sorted[0]] + sorted[1..];
    }
  }

  lemma {:induction false} SortSorts(xs: seq<real>)
    ensures Sorted(Sort(xs)) && multiset(Sort(xs)) == multiset(xs) && |Sort(xs)| == |xs|
  {
    if xs != [] {
      SortSorts(xs[1..]);
      InsertSorts(xs[0], Sort(xs[1..]));
      InsertAdds(xs[0], Sort(xs[1..]));
      assert xs == [xs[0]] + xs[1..];
    }
  }

  /** The middle value, or the mean of the two middle ones. */
  function Median(xs: seq<real>): real
    requires xs != []
  {
    SortSorts(xs);
    var s, n := Sort(xs), |xs|;
    if n % 2 == 1 then s[n / 2] else (s[n / 2 - 1] + s[n / 2]) / 2.0
  }

  function Deviations(xs: seq<real>, center: real): seq<real> {
    seq(|xs|, i requires 0 <= i < |xs| => AbsReal(xs[i] - center))
  }

  function Mad(xs: seq<real>): real
    requires xs != []
  {
    Median(Deviations(xs, Median(xs)))
  }

  lemma FirstIsLeast(s: seq<real>, x: real)
    requires Sorted(s) && x in multiset(s)
    ensures s != [] && s[0] <= x
  {
    assert x in s;
  }

  lemma RestAlike(s: seq<real>, t: seq<real>)
    requires s != [] && t != [] && s[0] == t[0] && multiset(s) == multiset(t)
    ensures multiset(s[1..]) == multiset(t[1..])
  {
    assert s == [s[0]] + s[1..] && t == [t[0]] + t[1..];
    assert multiset(s) - multiset{s[0]} == multiset(s[1..]);
    assert multiset(t) - multiset{t[0]} == multiset(t[1..]);
  }

  lemma SameFirst(s: seq<real>, t: seq<real>)
    requires Sorted(s) && Sorted(t) && multiset(s) == multiset(t) && s != []
    ensures t != [] && s[0] == t[0] && Sorted(s[1..]) && Sorted(t[1..])
  {
    assert s[0] in multiset(s);
    FirstIsLeast(t, s[0]);
    assert t[0] in multiset(t);
    FirstIsLeast(s, t[0]);
  }

  lemma {:induction false} SortedIsUnique(s: seq<real>, t: seq<real>)
    requires Sorted(s) && Sorted(t) && multiset(s) == multiset(t)
    ensures s == t
  {
    if s == [] {
      assert |multiset(t)| == 0;
    } else {
      SameFirst(s, t);
      RestAlike(s, t);
      SortedIsUnique(s[1..], t[1..]);
      assert s == [s[0]] + s[1..] && t == [t[0]] + t[1..];
    }
  }

  /** `m` is the middle of the samples once they are laid out in order, or half way between the two middle ones. */
  ghost predicate IsMiddle(xs: seq<real>, m: real) {
    forall s: seq<real> :: Sorted(s) && multiset(s) == multiset(xs) ==>
      |s| == |xs| > 0 && 2.0 * m == s[(|s| - 1) / 2] + s[|s| / 2]
  }

  /** Median and MAD, told without the sorting. */
  lemma MedianIsMiddle(xs: seq<real>)
    requires xs != []
    ensures IsMiddle(xs, Median(xs))
    ensures IsMiddle(seq(|xs|, i requires 0 <= i < |xs| => AbsReal(xs[i] - Median(xs))), Mad(xs))
  {
    OneIsMiddle(xs);
    OneIsMiddle(Deviations(xs, Median(xs)));
    assert Deviations(xs, Median(xs)) == seq(|xs|, i requires 0 <= i < |xs| => AbsReal(xs[i] - Median(xs)));
  }

  lemma SortedHasTheMedian(xs: seq<real>, s: seq<real>)
    requires xs != [] && Sorted(s) && multiset(s) == multiset(xs)
    ensures |s| == |xs| && 2.0 * Median(xs) == s[(|s| - 1) / 2] + s[|s| / 2]
  {
    SortSorts(xs);
    SortedIsUnique(s, Sort(xs));
  }

  lemma OneIsMiddle(xs: seq<real>)
    requires xs != []
    ensures IsMiddle(xs, Median(xs))
  {
    forall s: seq<real> | Sorted(s) && multiset(s) == multiset(xs)
      ensures |s| == |xs| && 2.0 * Median(xs) == s[(|s| - 1) / 2] + s[|s| / 2]
    {
      SortedHasTheMedian(xs, s);
    }
  }

  // ---------------------------------------------------------------- majorities

  function CountWithin(xs: seq<real>, a: real, b: real): nat {
    if xs == [] then 0 else (if a <= xs[0] <= b then 1 else 0) + CountWithin(xs[1..], a, b)
  }

  /** More than half of the samples lie between `a` and `b`. */
  predicate MajorityWithin(xs: seq<real>, a: real, b: real) {
    2 * CountWithin(xs, a, b) > |xs|
  }

  lemma {:induction false} CountAfterInsert(x: real, sorted: seq<real>, a: real, b: real)
    ensures CountWithin(Insert(x, sorted), a, b) == CountWithin(sorted, a, b) + if a <= x <= b then 1 else 0
  {
    if sorted != [] && x > sorted[0] {
      CountAfterInsert(x, sorted[1..], a, b);
      assert Insert(x, sorted)[1..] == Insert(x, sorted[1..]);
    } else {
      assert ([x] + sorted)[1..] == sorted;
    }
  }

  lemma {:induction false} CountAfterSort(xs: seq<real>, a: real, b: real)
    ensures CountWithin(Sort(xs), a, b) == CountWithin(xs, a, b)
  {
    if xs != [] {
      CountAfterSort(xs[1..], a, b);
      CountAfterInsert(xs[0], Sort(xs[1..]), a, b);
    }
  }

  lemma {:induction false} CountAtMost(xs: seq<real>, a: real, b: real)
    ensures CountWithin(xs, a, b) <= |xs|
  {
    if xs != [] {
      CountAtMost(xs[1..], a, b);
    }
  }

  /** If the element at `k` lies below `a`, so do all before it: at most the rest can be within. */
  lemma {:induction false} CountFromAbove(s: seq<real>, k: nat, a: real, b: real)
    requires Sorted(s) && k < |s| && s[k] < a
    ensures CountWithin(s, a, b) <= |s| - k - 1
  {
    assert s[0] < a;
    if k > 0 {
      CountFromAbove(s[1..], k - 1, a, b);
    } else {
      CountAtMost(s[1..], a, b);
    }
  }

  /** If the element at `k` lies above `b`, so do all after it. */
  lemma {:induction false} CountFromBelow(s: seq<real>, k: nat, a: real, b: real)
    requires Sorted(s) && k < |s| && s[k] > b
    ensures CountWithin(s, a, b) <= k
  {
    if k > 0 {
      CountFromBelow(s[1..], k - 1, a, b);
    } else if |s| > 1 {
      assert s[1] > b;
      CountFromBelow(s[1..], 0, a, b);
    }
  }

  /** The median of a window lies where more than half of its samples lie, whatever the others are. */
  lemma MedianFollowsMajority(xs: seq<real>, a: real, b: real)
    requires MajorityWithin(xs, a, b)
    ensures xs != [] && a <= Median(xs) <= b
  {
    CountAtMost(xs, a, b);
    SortSorts(xs);
    CountAfterSort(xs, a, b);
    var s, n := Sort(xs), |xs|;
    var lo, hi := if n % 2 == 1 then n / 2 else n / 2 - 1, n / 2;
    if s[lo] < a {
      CountFromAbove(s, lo, a, b);
    }
    if s[hi] > b {
      CountFromBelow(s, hi, a, b);
    }
    assert lo < hi ==> s[lo] <= s[hi];
  }

  lemma {:induction false} DeviationsOfMajority(xs: seq<real>, center: real, a: real, b: real)
    requires a <= center <= b
    ensures CountWithin(Deviations(xs, center), 0.0, b - a) >= CountWithin(xs, a, b)
  {
    if xs != [] {
      DeviationsOfMajority(xs[1..], center, a, b);
      assert Deviations(xs, center)[1..] == Deviations(xs[1..], center);
    }
  }

  /** And their median distance from it is at most the spread of that majority. */
  lemma MadFollowsMajority(xs: seq<real>, a: real, b: real)
    requires MajorityWithin(xs, a, b)
    ensures xs != [] && 0.0 <= Mad(xs) <= b - a
  {
    MedianFollowsMajority(xs, a, b);
    DeviationsOfMajority(xs, Median(xs), a, b);
    MedianFollowsMajority(Deviations(xs, Median(xs)), 0.0, b - a);
  }

  lemma {:induction false} SortAtLeast(xs: seq<real>, lo: real)
    requires AllAtLeast(xs, lo)
    ensures AllAtLeast(Sort(xs), lo)
  {
    if xs != [] {
      SortAtLeast(xs[1..], lo);
      InsertAtLeast(xs[0], Sort(xs[1..]), lo);
    }
  }

  lemma MedianAtLeast(xs: seq<real>, lo: real)
    requires xs != [] && AllAtLeast(xs, lo)
    ensures Median(xs) >= lo
  {
    SortSorts(xs);
    SortAtLeast(xs, lo);
  }

  lemma MadNonNegative(xs: seq<real>)
    requires xs != []
    ensures Mad(xs) >= 0.0
  {
    MedianAtLeast(Deviations(xs, Median(xs)), 0.0);
  }
}
