/** The baseline of the spike detector: the median of a window, by sorting
    (internal/stats/spikes.go). Costs and token counts are real numbers. */
module Medians {

  // --- Sorting ---

  predicate Ascending(s: seq<real>) {
    forall i, j :: 0 <= i < j < |s| ==> s[i] <= s[j]
  }

  function InsertSorted(x: real, s: seq<real>): (r: seq<real>)
    ensures |r| == |s| + 1
  {
    if s == [] || x <= s[0] then [x] + s else [s[0]] + InsertSorted(x, s[1..])
  }

  function Sorted(s: seq<real>): (r: seq<real>)
    ensures |r| == |s|
  {
    if s == [] then [] else InsertSorted(s[|s| - 1], Sorted(s[..|s| - 1]))
  }

  lemma {:induction false} InsertAscending(x: real, s: seq<real>)
    requires Ascending(s)
    ensures Ascending(InsertSorted(x, s))
    ensures InsertSorted(x, s)[0] == x || (s != [] && InsertSorted(x, s)[0] == s[0])
    decreases |s|
  {
    if s != [] && x > s[0] {
      InsertAscending(x, s[1..]);
      var rest := InsertSorted(x, s[1..]);
      assert s[0] <= rest[0];
      assert forall k :: 0 <= k < |rest| ==> rest[0] <= rest[k];
    }
  }

  lemma {:induction false} SortedAscending(s: seq<real>)
    ensures Ascending(Sorted(s))
    decreases |s|
  {
    if s != [] {
      SortedAscending(s[..|s| - 1]);
      InsertAscending(s[|s| - 1], Sorted(s[..|s| - 1]));
    }
  }

  lemma {:induction false} InsertPermutes(x: real, s: seq<real>)
    ensures multiset(InsertSorted(x, s)) == multiset(s) + multiset{x}
    decreases |s|
  {
    if s != [] && x > s[0] {
      InsertPermutes(x, s[1..]);
      assert s == [s[0]] + s[1..];
    }
  }

  /** `Sorted` is sorting: the values, each as often as before, in ascending order. */
  lemma {:induction false} SortedSorts(s: seq<real>)
    ensures Ascending(Sorted(s)) && multiset(Sorted(s)) == multiset(s)
    decreases |s|
  {
    SortedAscending(s);
    if s != [] {
      SortedSorts(s[..|s| - 1]);
      InsertPermutes(s[|s| - 1], Sorted(s[..|s| - 1]));
      assert s == s[..|s| - 1] + [s[|s| - 1]];
    }
  }

  /** `sort.Float64s`, in place. */
  method SortFloat64s(a: array<real>)
    modifies a
    ensures a[..] == Sorted(old(a[..]))
  {
    ghost var was := a[..];
    var s := Sorted(a[..]);
    for i := 0 to a.Length
      invariant |s| == a.Length && s == Sorted(was) && a[..i] == s[..i]
    {
      a[i] := s[i];
    }
    assert a[..] == a[..a.Length] && s[..a.Length] == s;
  }

  // --- The median ---

  function Median(values: seq<real>): real {
    var n, s := |values|, Sorted(values);
    if n == 0 then 0.0
    else if n % 2 == 1 then s[n / 2]
    else (s[n / 2 - 1] + s[n / 2]) / 2.0
  }

  method MedianFloat(values: seq<real>) returns (m: real)
    ensures m == Median(values)
  {
    if |values| == 0 {
      return 0.0;
    }
    var sorted := new real[|values|](i requires 0 <= i < |values| => values[i]);
    assert sorted[..] == values;
    SortFloat64s(sorted);
    var n := sorted.Length;
    if n % 2 == 1 {
      return sorted[n / 2];
    }
    return (sorted[n / 2 - 1] + sorted[n / 2]) / 2.0;
  }

  // --- Order statistics by counting ---

  function AtMost(s: seq<real>, x: real): nat {
    if s == [] then 0 else AtMost(s[..|s| - 1], x) + (if s[|s| - 1] <= x then 1 else 0)
  }

  function AtLeast(s: seq<real>, x: real): nat {
    if s == [] then 0 else AtLeast(s[..|s| - 1], x) + (if s[|s| - 1] >= x then 1 else 0)
  }

  lemma {:induction false} CountsConcat(s: seq<real>, t: seq<real>, x: real)
    ensures AtMost(s + t, x) == AtMost(s, x) + AtMost(t, x)
    ensures AtLeast(s + t, x) == AtLeast(s, x) + AtLeast(t, x)
    decreases |t|
  {
    if t == [] {
      assert s + t == s;
    } else {
      CountsConcat(s, t[..|t| - 1], x);
      assert (s + t)[..|s + t| - 1] == s + t[..|t| - 1];
    }
  }

  lemma CountsOne(y: real, x: real)
    ensures AtMost([y], x) == (if y <= x then 1 else 0)
    ensures AtLeast([y], x) == (if y >= x then 1 else 0)
  {
    assert [y][..0] == [];
  }

  lemma {:induction false} InsertCounts(y: real, s: seq<real>, x: real)
    ensures AtMost(InsertSorted(y, s), x) == AtMost(s, x) + AtMost([y], x)
    ensures AtLeast(InsertSorted(y, s), x) == AtLeast(s, x) + AtLeast([y], x)
    decreases |s|
  {
    if s == [] || y <= s[0] {
      CountsConcat([y], s, x);
    } else {
      InsertCounts(y, s[1..], x);
      CountsConcat([s[0]], InsertSorted(y, s[1..]), x);
      CountsConcat([s[0]], s[1..], x);
      assert s == [s[0]] + s[1..];
    }
  }

  /** Sorting changes no count. */
  lemma {:induction false} SortedCounts(s: seq<real>, x: real)
    ensures AtMost(Sorted(s), x) == AtMost(s, x)
    ensures AtLeast(Sorted(s), x) == AtLeast(s, x)
    decreases |s|
  {
    if s != [] {
      var init, last := s[..|s| - 1], s[|s| - 1];
      SortedCounts(init, x);
      InsertCounts(last, Sorted(init), x);
      CountsOne(last, x);
    }
  }

  lemma {:induction false} AllAtMost(s: seq<real>, x: real)
    requires forall i :: 0 <= i < |s| ==> s[i] <= x
    ensures AtMost(s, x) == |s|
    decreases |s|
  {
    if s != [] {
      AllAtMost(s[..|s| - 1], x);
    }
  }

  lemma {:induction false} AllAtLeast(s: seq<real>, x: real)
    requires forall i :: 0 <= i < |s| ==> s[i] >= x
    ensures AtLeast(s, x) == |s|
    decreases |s|
  {
    if s != [] {
      AllAtLeast(s[..|s| - 1], x);
    }
  }

  lemma {:induction false} NoneAtMost(s: seq<real>, x: real)
    requires forall i :: 0 <= i < |s| ==> s[i] > x
    ensures AtMost(s, x) == 0
    decreases |s|
  {
    if s != [] {
      NoneAtMost(s[..|s| - 1], x);
    }
  }

  lemma {:induction false} CountBounded(s: seq<real>, x: real)
    ensures AtMost(s, x) <= |s|
    decreases |s|
  {
    if s != [] {
      CountBounded(s[..|s| - 1], x);
    }
  }

  lemma SplitCounts(t: seq<real>, k: nat, x: real)
    requires k <= |t|
    ensures AtMost(t, x) == AtMost(t[..k], x) + AtMost(t[k..], x)
    ensures AtLeast(t, x) == AtLeast(t[..k], x) + AtLeast(t[k..], x)
  {
    assert t == t[..k] + t[k..];
    CountsConcat(t[..k], t[k..], x);
  }

  /** In ascending order the k-th value settles how many are at most x. */
  lemma AscendingCount(t: seq<real>, k: nat, x: real)
    requires Ascending(t) && k < |t|
    ensures t[k] <= x ==> AtMost(t, x) >= k + 1
    ensures t[k] > x ==> AtMost(t, x) <= k
    ensures t[k] >= x ==> AtLeast(t, x) >= |t| - k
  {
    if t[k] <= x {
      SplitCounts(t, k + 1, x);
      AllAtMost(t[..k + 1], x);
    } else {
      SplitCounts(t, k, x);
      NoneAtMost(t[k..], x);
      CountBounded(t[..k], x);
    }
    if t[k] >= x {
      SplitCounts(t, k, x);
      AllAtLeast(t[k..], x);
    }
  }

  /** At least k + 1 values are at most the k-th smallest, at least n - k are at least it. */
  lemma RankCounts(s: seq<real>, k: nat)
    requires k < |s|
    ensures AtMost(s, Sorted(s)[k]) >= k + 1
    ensures AtLeast(s, Sorted(s)[k]) >= |s| - k
  {
    SortedAscending(s);
    AscendingCount(Sorted(s), k, Sorted(s)[k]);
    SortedCounts(s, Sorted(s)[k]);
  }

  /** The k-th smallest is at most x exactly if more than k values are. */
  lemma RankAtMost(s: seq<real>, k: nat, x: real)
    requires k < |s|
    ensures Sorted(s)[k] <= x <==> AtMost(s, x) >= k + 1
  {
    SortedAscending(s);
    AscendingCount(Sorted(s), k, x);
    SortedCounts(s, x);
  }

  /** There is one way to sort: any ascending arrangement of the values is it. */
  lemma SortedUnique(s: seq<real>, t: seq<real>)
    requires Ascending(t) && multiset(t) == multiset(s)
    ensures Sorted(s) == t
  {
    SortedSorts(s);
    AscendingUnique(Sorted(s), t);
  }

  /** The last of ascending values is the largest. */
  lemma LargestLast(s: seq<real>, x: real)
    requires Ascending(s) && x in multiset(s)
    ensures s != [] && x <= s[|s| - 1]
  {
    var i :| 0 <= i < |s| && s[i] == x;
  }

  lemma MultisetTail(s: seq<real>)
    requires s != []
    ensures s[|s| - 1] in multiset(s) && multiset(s[..|s| - 1]) == multiset(s) - multiset{s[|s| - 1]}
  {
    assert s == s[..|s| - 1] + [s[|s| - 1]];
  }

  lemma SameLast(s: seq<real>, t: seq<real>)
    requires Ascending(s) && Ascending(t) && multiset(s) == multiset(t) && s != []
    ensures |t| == |s| && t[|s| - 1] == s[|s| - 1]
    ensures multiset(s[..|s| - 1]) == multiset(t[..|s| - 1])
  {
    SameLength(s, t);
    MultisetTail(s);
    MultisetTail(t);
    LargestLast(s, t[|t| - 1]);
    LargestLast(t, s[|s| - 1]);
  }

  lemma {:induction false} AscendingUnique(s: seq<real>, t: seq<real>)
    requires Ascending(s) && Ascending(t) && multiset(s) == multiset(t)
    ensures s == t
    decreases |s|
  {
    if s == [] {
      SameLength(s, t);
    } else {
      var n := |s| - 1;
      SameLast(s, t);
      AscendingUnique(s[..n], t[..n]);
      assert s == s[..n] + [s[n]] && t == t[..n] + [t[n]];
    }
  }

  lemma SameLength(s: seq<real>, t: seq<real>)
    requires multiset(s) == multiset(t)
    ensures |s| == |t|
  {
    assert |multiset(s)| == |s| && |multiset(t)| == |t|;
  }

  /** The median is the middle value of the values in ascending order, or the mean of the two
      middle ones; 0 if there are none. */
  lemma MedianIsMiddle(values: seq<real>, t: seq<real>)
    requires Ascending(t) && multiset(t) == multiset(values)
    ensures |t| == 0 ==> Median(values) == 0.0
    ensures forall k: nat :: |t| == 2 * k + 1 ==> Median(values) == t[k]
    ensures forall k: nat :: |t| == 2 * k + 2 ==> Median(values) == (t[k] + t[k + 1]) / 2.0
  {
    SortedUnique(values, t);
    SameLength(values, t);
  }

  // --- Monotonicity ---

  predicate Below(s: seq<real>, t: seq<real>) {
    |s| == |t| && forall i :: 0 <= i < |s| ==> s[i] <= t[i]
  }

  lemma {:induction false} CountsFall(s: seq<real>, t: seq<real>, x: real)
    requires Below(s, t)
    ensures AtMost(t, x) <= AtMost(s, x)
    decreases |s|
  {
    if s != [] {
      CountsFall(s[..|s| - 1], t[..|t| - 1], x);
    }
  }

  lemma RankMonotone(s: seq<real>, t: seq<real>, k: nat)
    requires Below(s, t) && k < |s|
    ensures Sorted(s)[k] <= Sorted(t)[k]
  {
    var x := Sorted(t)[k];
    RankAtMost(t, k, x);
    CountsFall(s, t, x);
    RankAtMost(s, k, x);
  }

  /** Raising values never lowers the median. */
  lemma MedianMonotone(s: seq<real>, t: seq<real>)
    requires Below(s, t)
    ensures Median(s) <= Median(t)
  {
    var n := |s|;
    if n > 0 {
      RankMonotone(s, t, n / 2);
      if n % 2 == 0 {
        RankMonotone(s, t, n / 2 - 1);
      }
    }
  }

  // --- Robustness ---

  /** How many values differ. */
  function Changed(s: seq<real>, t: seq<real>): nat
    requires |s| == |t|
  {
    if s == [] then 0 else
      Changed(s[..|s| - 1], t[..|t| - 1]) + (if s[|s| - 1] != t[|t| - 1] then 1 else 0)
  }

  /** `lo` and `hi` bound the values that were left alone. */
  predicate BoundsKept(s: seq<real>, t: seq<real>, lo: real, hi: real) {
    |s| == |t| && forall i :: 0 <= i < |s| && s[i] == t[i] ==> lo <= t[i] <= hi
  }

  /** Values below all the kept ones, or above them, are among the changed ones. */
  lemma {:induction false} OutliersChanged(s: seq<real>, t: seq<real>, lo: real, hi: real, x: real)
    requires BoundsKept(s, t, lo, hi)
    ensures x < lo ==> AtMost(t, x) <= Changed(s, t)
    ensures x > hi ==> AtLeast(t, x) <= Changed(s, t)
    decreases |s|
  {
    if s != [] {
      OutliersChanged(s[..|s| - 1], t[..|t| - 1], lo, hi, x);
    }
  }

  /** Replacing strictly fewer than half of a window's values, by anything, leaves the median
      within the bounds of those left alone, whether the window is odd or even. */
  lemma MedianRobust(s: seq<real>, t: seq<real>, lo: real, hi: real)
    requires BoundsKept(s, t, lo, hi) && 2 * Changed(s, t) < |s|
    ensures lo <= Median(t) <= hi
  {
    var n := |t|;
    var k := n / 2;
    var low := if n % 2 == 1 then k else k - 1;
    var a, b := Sorted(t)[low], Sorted(t)[k];
    RankCounts(t, low);
    RankCounts(t, k);
    OutliersChanged(s, t, lo, hi, a);
    OutliersChanged(s, t, lo, hi, b);
    SortedAscending(t);
    assert lo <= a <= b <= hi;
  }

  function Same(n: nat, x: real): (s: seq<real>)
    ensures |s| == n && forall i :: 0 <= i < n ==> s[i] == x
  {
    seq(n, _ => x)
  }

  lemma SameCount(n: nat, x: real, y: real)
    ensures AtMost(Same(n, x), y) == if x <= y then n else 0
  {
    if x <= y {
      AllAtMost(Same(n, x), y);
    } else {
      NoneAtMost(Same(n, x), y);
    }
  }

  /** `t` consists of `a` values `u` and `b` values `w`. */
  ghost predicate TwoValued(t: seq<real>, a: nat, u: real, b: nat, w: real) {
    && |t| == a + b
    && forall y :: AtMost(t, y) == (if u <= y then a else 0) + (if w <= y then b else 0)
  }

  lemma TwoRuns(a: nat, u: real, b: nat, w: real)
    ensures TwoValued(Same(a, u) + Same(b, w), a, u, b, w)
    ensures TwoValued(Same(a, u) + Same(b, w), b, w, a, u)
  {
    forall y
      ensures AtMost(Same(a, u) + Same(b, w), y) == (if u <= y then a else 0) + (if w <= y then b else 0)
    {
      CountsConcat(Same(a, u), Same(b, w), y);
      SameCount(a, u, y);
      SameCount(b, w, y);
    }
  }

  lemma TwoValuedRank(t: seq<real>, a: nat, u: real, b: nat, w: real, k: nat)
    requires TwoValued(t, a, u, b, w) && u <= w && k < |t|
    ensures Sorted(t)[k] == if k < a then u else w
  {
    RankAtMost(t, k, u);
    RankAtMost(t, k, w);
    RankAtMost(t, k, Sorted(t)[k]);
  }

  lemma {:induction false} ChangedUpTo(s: seq<real>, t: seq<real>, c: nat)
    requires |s| == |t| && forall i :: c <= i < |s| ==> s[i] == t[i]
    ensures Changed(s, t) <= c
    decreases |s|
  {
    if |s| > c {
      ChangedUpTo(s[..|s| - 1], t[..|t| - 1], c);
    } else if s != [] {
      ChangedUpTo(s[..|s| - 1], t[..|t| - 1], |s| - 1);
    }
  }

  /** Half is too many: in a window of any size, changing half of equal values takes the median
      anywhere. */
  lemma HalfIsTooMany(n: nat, k: nat, x: real, m: real) returns (t: seq<real>)
    requires n > 0 && 2 * k >= n
    ensures |t| == n && Changed(Same(n, x), t) <= k && Median(t) == m
  {
    var c := (n + 1) / 2;
    var v := if n % 2 == 1 then m else 2.0 * m - x;
    t := Same(c, v) + Same(n - c, x);
    ChangedUpTo(Same(n, x), t, c);
    TwoRuns(c, v, n - c, x);
    forall i | 0 <= i < n
      ensures Sorted(t)[i] == if v <= x then (if i < c then v else x) else (if i < n - c then x else v)
    {
      if v <= x {
        TwoValuedRank(t, c, v, n - c, x, i);
      } else {
        TwoValuedRank(t, n - c, x, c, v, i);
      }
    }
  }

  /** At most `k` changed values never take the median of `n` out of the bounds of the others. */
  ghost predicate Withstands(n: nat, k: nat) {
    forall s, t, lo, hi :: |s| == n && BoundsKept(s, t, lo, hi) && Changed(s, t) <= k ==> lo <= Median(t) <= hi
  }

  /** The median withstands exactly the changes of fewer than half of the values. */
  lemma RobustExactly(n: nat, k: nat)
    requires n > 0
    ensures Withstands(n, k) <==> 2 * k < n
  {
    if 2 * k < n {
      forall s, t, lo, hi | |s| == n && BoundsKept(s, t, lo, hi) && Changed(s, t) <= k
        ensures lo <= Median(t) <= hi
      {
        MedianRobust(s, t, lo, hi);
      }
    } else {
      var t := HalfIsTooMany(n, k, 0.0, 1.0);
      assert BoundsKept(Same(n, 0.0), t, 0.0, 0.0);
      assert !(0.0 <= Median(t) <= 0.0);
    }
  }

  // --- Scaling ---

  function Times(c: real, x: real): real {
    c * x
  }

  function Scaled(c: real, s: seq<real>): (r: seq<real>)
    ensures |r| == |s| && forall i :: 0 <= i < |s| ==> r[i] == Times(c, s[i])
  {
    seq(|s|, i requires 0 <= i < |s| => Times(c, s[i]))
  }

  lemma ScaleOrder(c: real, x: real, y: real)
    requires c > 0.0
    ensures x <= y <==> Times(c, x) <= Times(c, y)
  {
    if x <= y {
      assert c * (y - x) >= 0.0;
    } else {
      assert c * (x - y) > 0.0;
    }
  }

  lemma {:induction false} InsertScaled(c: real, x: real, s: seq<real>)
    requires c > 0.0
    ensures InsertSorted(Times(c, x), Scaled(c, s)) == Scaled(c, InsertSorted(x, s))
    decreases |s|
  {
    if s != [] {
      ScaleOrder(c, x, s[0]);
      InsertScaled(c, x, s[1..]);
      assert Scaled(c, s)[1..] == Scaled(c, s[1..]);
    }
  }

  lemma {:induction false} SortedScaled(c: real, s: seq<real>)
    requires c > 0.0
    ensures Sorted(Scaled(c, s)) == Scaled(c, Sorted(s))
    decreases |s|
  {
    if s != [] {
      var init := s[..|s| - 1];
      SortedScaled(c, init);
      assert Scaled(c, s)[..|s| - 1] == Scaled(c, init);
      InsertScaled(c, s[|s| - 1], Sorted(init));
    }
  }

  lemma Halve(c: real, x: real, y: real)
    ensures (Times(c, x) + Times(c, y)) / 2.0 == Times(c, (x + y) / 2.0)
  {
  }

  /** The median scales with the values. */
  lemma MedianScaled(c: real, s: seq<real>)
    requires c > 0.0
    ensures Median(Scaled(c, s)) == Times(c, Median(s))
  {
    SortedScaled(c, s);
    var n, t := |s|, Sorted(s);
    if n > 0 && n % 2 == 0 {
      Halve(c, t[n / 2 - 1], t[n / 2]);
    }
  }

  // --- One value raised ---

  function Shifted(c: real, s: seq<real>): (r: seq<real>)
    ensures |r| == |s| && forall i :: 0 <= i < |s| ==> r[i] == s[i] + c
  {
    seq(|s|, i requires 0 <= i < |s| => s[i] + c)
  }

  lemma {:induction false} CountsShifted(c: real, s: seq<real>, x: real)
    ensures AtMost(Shifted(c, s), x + c) == AtMost(s, x)
    decreases |s|
  {
    if s != [] {
      CountsShifted(c, s[..|s| - 1], x);
      assert Shifted(c, s)[..|s| - 1] == Shifted(c, s[..|s| - 1]);
    }
  }

  lemma EqualCounts(s: seq<real>, t: seq<real>, k: nat, x: real, y: real)
    requires k < |s| == |t| && AtMost(s, x) == AtMost(t, y)
    ensures Sorted(s)[k] <= x <==> Sorted(t)[k] <= y
  {
    RankAtMost(s, k, x);
    RankAtMost(t, k, y);
  }

  lemma RankShifted(c: real, s: seq<real>, t: seq<real>, k: nat)
    requires k < |s| && t == Shifted(c, s)
    ensures Sorted(t)[k] == Sorted(s)[k] + c
  {
    var x, y := Sorted(s)[k], Sorted(t)[k];
    CountsShifted(c, s, x);
    EqualCounts(s, t, k, x, x + c);
    CountsShifted(c, s, y - c);
    EqualCounts(s, t, k, y - c, y);
  }

  lemma MedianShifted(c: real, s: seq<real>)
    requires s != []
    ensures Median(Shifted(c, s)) == Median(s) + c
  {
    var n := |s|;
    RankShifted(c, s, Shifted(c, s), n / 2);
    if n % 2 == 0 {
      RankShifted(c, s, Shifted(c, s), n / 2 - 1);
    }
  }

  /** Raising one value raises the median by no more. */
  lemma MedianFollows(s: seq<real>, j: nat, v: real, c: real)
    requires j < |s| && c >= 0.0
    ensures Median(s[j := v + c]) <= Median(s[j := v]) + c
  {
    MedianMonotone(s[j := v + c], Shifted(c, s[j := v]));
    MedianShifted(c, s[j := v]);
  }

  function Magnitude(x: real): real {
    if x < 0.0 then -x else x
  }

  /** A number above the magnitudes of all the values. */
  function Above(s: seq<real>): (r: real)
    ensures r > 0.0
    ensures forall i :: 0 <= i < |s| ==> Magnitude(s[i]) < r
  {
    if s == [] then 1.0 else Above(s[..|s| - 1]) + Magnitude(s[|s| - 1])
  }

  lemma CountsReplaced(s: seq<real>, j: nat, v: real, x: real)
    requires j < |s|
    ensures AtMost(s[j := v], x) == AtMost(s[..j], x) + AtMost(s[j + 1..], x) + if v <= x then 1 else 0
  {
    assert s[j := v] == s[..j] + [v] + s[j + 1..];
    CountsConcat(s[..j] + [v], s[j + 1..], x);
    CountsConcat(s[..j], [v], x);
    CountsOne(v, x);
  }

  lemma CountBeyond(s: seq<real>, j: nat, top: real, v: real, x: real)
    requires j < |s| && top <= v && forall i :: 0 <= i < |s| ==> s[i] < top
    ensures x < top ==> AtMost(s[j := v], x) == AtMost(s[j := top], x)
    ensures x >= top ==> AtMost(s[j := v], x) >= |s| - 1
  {
    CountsReplaced(s, j, v, x);
    if x < top {
      CountsReplaced(s, j, top, x);
    } else {
      AllAtMost(s[..j], x);
      AllAtMost(s[j + 1..], x);
    }
  }

  /** Above all the others, how high the one value stands matters to no rank but the last. */
  lemma RankBeyond(s: seq<real>, j: nat, top: real, v: real, k: nat)
    requires j < |s| && top <= v && forall i :: 0 <= i < |s| ==> s[i] < top
    requires k < |s| - 1
    ensures Sorted(s[j := v])[k] <= Sorted(s[j := top])[k]
  {
    var x := Sorted(s[j := top])[k];
    RankAtMost(s[j := top], k, x);
    CountBeyond(s, j, top, v, x);
    RankAtMost(s[j := v], k, x);
  }

  lemma MedianBeyond(s: seq<real>, j: nat, top: real, v: real)
    requires j < |s| && top <= v && forall i :: 0 <= i < |s| ==> s[i] < top
    requires |s| >= 3
    ensures Median(s[j := v]) <= Median(s[j := top])
  {
    RankBeyond(s, j, top, v, |s| / 2);
    RankBeyond(s, j, top, v, |s| / 2 - 1);
  }

  lemma SingleMedian(x: real)
    ensures Median([x]) == x && Sorted([x]) == [x]
  {
    assert [x][..0] == [];
    assert Sorted([x]) == [x];
  }

  lemma PairMedian(x: real, y: real)
    ensures Median([x, y]) == (x + y) / 2.0
  {
    SingleMedian(x);
    assert [x, y][..1] == [x];
    assert Sorted([x, y]) == InsertSorted(y, [x]);
    assert InsertSorted(y, [x]) == [x, y] || InsertSorted(y, [x]) == [y, x];
  }

  lemma HigherOfTwo(s: seq<real>, j: nat, top: real)
    requires |s| == 2 && j < 2 && Magnitude(s[1 - j]) < top
    ensures Median(s[j := top]) > 0.0
  {
    if j == 0 {
      assert s[0 := top] == [top, s[1]];
      PairMedian(top, s[1]);
    } else {
      assert s[1 := top] == [s[0], top];
      PairMedian(s[0], top);
    }
  }

  lemma RaisedPast(s: seq<real>, j: nat, top: real, v: real)
    requires j < |s| && top <= v && Median(s[j := v]) > 0.0
    requires forall i :: 0 <= i < |s| ==> Magnitude(s[i]) < top
    ensures Median(s[j := top]) > 0.0
  {
    if |s| == 1 {
      assert s[j := top] == [top];
      SingleMedian(top);
      assert Magnitude(s[0]) < top;
    } else if |s| == 2 {
      HigherOfTwo(s, j, top);
    } else {
      MedianBeyond(s, j, top, v);
    }
  }

  /** If any raise of one value makes the median positive, raising it above all others does. */
  lemma HighestRaise(s: seq<real>, j: nat, v: real)
    requires j < |s| && Median(s[j := v]) > 0.0
    ensures Median(s[j := Above(s)]) > 0.0
  {
    var top := Above(s);
    if v <= top {
      MedianMonotone(s[j := v], s[j := top]);
    } else {
      RaisedPast(s, j, top, v);
    }
  }

  /** Raising in steps of `c` passes zero by at most `c`. */
  lemma {:induction false} StepPastZero(s: seq<real>, j: nat, top: real, v: real, c: real, steps: nat)
    returns (w: real)
    requires j < |s| && c > 0.0 && v + c * steps as real >= top
    requires Median(s[j := v]) <= 0.0 < Median(s[j := top])
    ensures w >= v && 0.0 < Median(s[j := w]) <= c
    decreases steps
  {
    if steps == 0 {
      MedianMonotone(s[j := top], s[j := v]);
      assert false;
    } else {
      MedianFollows(s, j, v, c);
      w := v + c;
      if Median(s[j := w]) <= 0.0 {
        assert c * steps as real == c + c * (steps - 1) as real;
        w := StepPastZero(s, j, top, w, c, steps - 1);
      }
    }
  }

  lemma EnoughSteps(d: real, c: real) returns (steps: nat)
    requires c > 0.0
    ensures c * steps as real >= d
  {
    if d <= 0.0 {
      steps := 0;
    } else {
      var q := d / c;
      assert c * q == d;
      steps := q.Floor + 1;
      LargerFactor(c, q, steps as real);
    }
  }

  lemma LargerFactor(c: real, q: real, r: real)
    requires c > 0.0 && q <= r
    ensures c * q <= c * r
  {
    assert c * (r - q) >= 0.0;
  }

  /** If a value can be raised so far that the median is positive, it can be raised so that the
      median is positive and as small as one likes. */
  lemma SmallRaise(s: seq<real>, j: nat, top: real, c: real) returns (w: real)
    requires j < |s| && c > 0.0 && Median(s) <= 0.0 < Median(s[j := top])
    ensures w >= s[j] && 0.0 < Median(s[j := w]) <= c
  {
    var steps := EnoughSteps(top - s[j], c);
    assert s[j := s[j]] == s;
    w := StepPastZero(s, j, top, s[j], c, steps);
  }
}
