/** Order statistics and spread of real samples, and the aggregation methods built on them. */
module Statistics {

  // ---- sums --------------------------------------------------------------------------

  function Total(s: seq<real>): real {
    if s == [] then 0.0 else s[0] + Total(s[1..])
  }

  function Mean(s: seq<real>): real
    requires s != []
  {
    Total(s) / |s| as real
  }

  lemma {:induction false} TotalBounds(s: seq<real>, a: real, b: real)
    requires forall i :: 0 <= i < |s| ==> a <= s[i] <= b
    ensures a * |s| as real <= Total(s) <= b * |s| as real
  {
    if s != [] {
      TotalBounds(s[1..], a, b);
    }
  }

  lemma {:induction false} TotalMonotone(s: seq<real>, t: seq<real>)
    requires |s| == |t| && forall i :: 0 <= i < |s| ==> s[i] <= t[i]
    ensures Total(s) <= Total(t)
  {
    if s != [] {
      TotalMonotone(s[1..], t[1..]);
    }
  }

  lemma MeanBounds(s: seq<real>, a: real, b: real)
    requires s != [] && forall i :: 0 <= i < |s| ==> a <= s[i] <= b
    ensures a <= Mean(s) <= b
  {
    TotalBounds(s, a, b);
    Scale(a, Total(s), |s| as real);
    Scale(Total(s), b, |s| as real);
  }

  lemma Cancel(x: real, y: real, n: real)
    requires n > 0.0 && x * n <= y * n
    ensures x <= y
  {
  }

  /** Clearing a positive denominator in the two shapes used here. */
  lemma Scale(x: real, y: real, n: real)
    requires n > 0.0
    ensures x * n <= y ==> x <= y / n
    ensures x <= y * n ==> x / n <= y
  {
    assert (y / n) * n == y && (x / n) * n == x;
    if x * n <= y {
      Cancel(x, y / n, n);
    }
    if x <= y * n {
      Cancel(x / n, y, n);
    }
  }

  lemma MeanMonotone(s: seq<real>, t: seq<real>)
    requires s != [] && |s| == |t| && forall i :: 0 <= i < |s| ==> s[i] <= t[i]
    ensures Mean(s) <= Mean(t)
  {
    TotalMonotone(s, t);
    var n := |s| as real;
    assert (Total(s) / n) * n == Total(s);
    Scale(Total(s) / n, Total(t), n);
  }

  // ---- sorting -----------------------------------------------------------------------

  ghost predicate Ascending(s: seq<real>) {
    forall i, j :: 0 <= i < j < |s| ==> s[i] <= s[j]
  }

  function Insert(x: real, s: seq<real>): (r: seq<real>)
    ensures |r| == |s| + 1
  {
    if s == [] then [x]
    else if x <= s[0] then [x] + s
    else [s[0]] + Insert(x, s[1..])
  }

  lemma {:induction false} InsertContents(x: real, s: seq<real>)
    ensures multiset(Insert(x, s)) == multiset(s) + multiset{x}
    ensures Total(Insert(x, s)) == Total(s) + x
  {
    if s == [] {
    } else if x <= s[0] {
      assert ([x] + s)[1..] == s;
    } else {
      InsertContents(x, s[1..]);
      assert s == [s[0]] + s[1..] && ([s[0]] + Insert(x, s[1..]))[1..] == Insert(x, s[1..]);
    }
  }

  lemma {:induction false} InsertLowerBound(x: real, s: seq<real>, y: real)
    requires y <= x && forall i :: 0 <= i < |s| ==> y <= s[i]
    ensures forall i :: 0 <= i < |s| + 1 ==> y <= Insert(x, s)[i]
  {
    if s != [] && s[0] < x {
      InsertLowerBound(x, s[1..], y);
    }
  }

  lemma {:induction false} InsertAscending(x: real, s: seq<real>)
    requires Ascending(s)
    ensures Ascending(Insert(x, s))
  {
    if s != [] && s[0] < x {
      InsertAscending(x, s[1..]);
      InsertLowerBound(x, s[1..], s[0]);
    }
  }

  /** Python's `sorted` on numbers. */
  function Sorted(s: seq<real>): (r: seq<real>)
    ensures |r| == |s| && Ascending(r)
  {
    if s == [] then []
    else
      InsertAscending(s[0], Sorted(s[1..]));
      Insert(s[0], Sorted(s[1..]))
  }

  lemma {:induction false} SortedContents(s: seq<real>)
    ensures multiset(Sorted(s)) == multiset(s)
    ensures Total(Sorted(s)) == Total(s)
  {
    if s != [] {
      SortedContents(s[1..]);
      InsertContents(s[0], Sorted(s[1..]));
      assert s == [s[0]] + s[1..];
    }
  }

  /** An ascending list is determined by its multiset of elements. */
  lemma {:induction false} AscendingUnique(s: seq<real>, t: seq<real>)
    requires Ascending(s) && Ascending(t) && multiset(s) == multiset(t)
    ensures s == t
  {
    assert |s| == |multiset(s)| == |multiset(t)| == |t|;
    if s != [] {
      assert s[0] in multiset(t) && t[0] in multiset(s);
      var i :| 0 <= i < |t| && t[i] == s[0];
      var j :| 0 <= j < |s| && s[j] == t[0];
      assert s[0] == t[0];
      assert s == [s[0]] + s[1..] && t == [s[0]] + t[1..];
      assert multiset(s) == multiset{s[0]} + multiset(s[1..]);
      assert multiset(t) == multiset{s[0]} + multiset(t[1..]);
      SameTail(multiset{s[0]}, multiset(s[1..]), multiset(t[1..]));
      AscendingUnique(s[1..], t[1..]);
    }
  }

  lemma SameTail<T>(h: multiset<T>, a: multiset<T>, b: multiset<T>)
    requires h + a == h + b
    ensures a == b
  {
    assert a == (h + a) - h && b == (h + b) - h;
  }

  lemma SortedPermutation(s: seq<real>, t: seq<real>)
    requires multiset(s) == multiset(t)
    ensures Sorted(s) == Sorted(t)
  {
    SortedContents(s);
    SortedContents(t);
    AscendingUnique(Sorted(s), Sorted(t));
  }

  // ---- counting and order statistics -------------------------------------------------

  function Count(s: seq<real>, p: real -> bool): (n: nat)
    ensures n <= |s|
  {
    if s == [] then 0 else (if p(s[0]) then 1 else 0) + Count(s[1..], p)
  }

  function Below(a: real): real -> bool { x => x < a }
  function AtMost(b: real): real -> bool { x => x <= b }
  function Above(b: real): real -> bool { x => x > b }
  function AtLeast(a: real): real -> bool { x => x >= a }

  ghost predicate DownwardClosed(p: real -> bool) {
    forall x, y :: x <= y && p(y) ==> p(x)
  }

  lemma {:induction false} CountInsert(x: real, s: seq<real>, p: real -> bool)
    ensures Count(Insert(x, s), p) == Count(s, p) + if p(x) then 1 else 0
  {
    if s == [] {
    } else if x <= s[0] {
      assert ([x] + s)[1..] == s;
    } else {
      CountInsert(x, s[1..], p);
      assert ([s[0]] + Insert(x, s[1..]))[1..] == Insert(x, s[1..]);
    }
  }

  lemma {:induction false} CountSorted(s: seq<real>, p: real -> bool)
    ensures Count(Sorted(s), p) == Count(s, p)
  {
    if s != [] {
      CountSorted(s[1..], p);
      CountInsert(s[0], Sorted(s[1..]), p);
    }
  }

  lemma {:induction false} CountComplement(s: seq<real>, p: real -> bool, q: real -> bool)
    requires forall x :: p(x) <==> !q(x)
    ensures Count(s, p) + Count(s, q) == |s|
  {
    if s != [] {
      CountComplement(s[1..], p, q);
    }
  }

  lemma {:induction false} CountDominated(s: seq<real>, t: seq<real>, p: real -> bool)
    requires |s| == |t| && DownwardClosed(p)
    requires forall i :: 0 <= i < |s| ==> s[i] <= t[i]
    ensures Count(t, p) <= Count(s, p)
  {
    if s != [] {
      CountDominated(s[1..], t[1..], p);
    }
  }

  lemma {:induction false} CountNone(s: seq<real>, p: real -> bool)
    requires forall i :: 0 <= i < |s| ==> !p(s[i])
    ensures Count(s, p) == 0
  {
    if s != [] {
      CountNone(s[1..], p);
    }
  }

  /** In an ascending list a downward-closed property holds of exactly the first elements. */
  lemma {:induction false} PrefixProperty(s: seq<real>, p: real -> bool, k: nat)
    requires Ascending(s) && DownwardClosed(p) && k < |s|
    ensures p(s[k]) <==> k < Count(s, p)
  {
    if !p(s[0]) {
      CountNone(s, p);
    } else if k > 0 {
      PrefixProperty(s[1..], p, k - 1);
    }
  }

  /** The k-th smallest element has a downward-closed property exactly when more than
      k elements have it. */
  lemma OrderStatistic(s: seq<real>, p: real -> bool, k: nat)
    requires DownwardClosed(p) && k < |s|
    ensures p(Sorted(s)[k]) <==> k < Count(s, p)
  {
    PrefixProperty(Sorted(s), p, k);
    CountSorted(s, p);
  }

  /** Pointwise dominance survives sorting. */
  lemma SortedMonotone(s: seq<real>, t: seq<real>, k: nat)
    requires |s| == |t| && k < |s|
    requires forall i :: 0 <= i < |s| ==> s[i] <= t[i]
    ensures Sorted(s)[k] <= Sorted(t)[k]
  {
    var p := AtMost(Sorted(t)[k]);
    OrderStatistic(t, p, k);
    CountDominated(s, t, p);
    OrderStatistic(s, p, k);
  }

  // ---- aggregation methods -----------------------------------------------------------

  /** Middle element of the sorted sample, or the average of the two middle ones. */
  function Median(s: seq<real>): real
    requires s != []
  {
    Middle(Sorted(s))
  }

  function Middle(t: seq<real>): real
    requires t != []
  {
    var h := |t| / 2;
    if |t| % 2 == 1 then t[h] else (t[h - 1] + t[h]) / 2.0
  }

  /** `int(n * 0.1)`, at least one, once there are more than two values. */
  function TrimCount(n: nat): (k: nat)
    ensures n > 0 ==> 2 * k < n
  {
    if n > 2 then (if n / 10 < 1 then 1 else n / 10) else 0
  }

  datatype Method = MeanOf | TrimmedMean | InterquartileMean | MedianOf

  /** Unknown method names fall through to the median. */
  function MethodNamed(name: string): Method {
    if name == "mean" then MeanOf
    else if name == "trimmed_mean" then TrimmedMean
    else if name == "interquartile_mean" then InterquartileMean
    else MedianOf
  }

  function AggregateValues(values: seq<real>, how: Method): real {
    if values == [] then 0.0
    else match how
      case MeanOf => Mean(values)
      case TrimmedMean => Mean(Trimmed(values))
      case InterquartileMean => Mean(Interquartile(values))
      case MedianOf => Median(values)
  }

  function Trimmed(values: seq<real>): (kept: seq<real>)
    ensures values != [] ==> kept != []
  {
    var t, k := Sorted(values), TrimCount(|values|);
    var trimmed := if k != 0 then t[k..|t| - k] else t;
    if trimmed != [] then trimmed else values
  }

  function Interquartile(values: seq<real>): (kept: seq<real>)
    ensures values != [] ==> kept != []
  {
    if |values| < 4 then values
    else
      var t := Sorted(values);
      var middle := t[|t| / 4..3 * |t| / 4 + 1];
      if middle != [] then middle else values
  }

  /** The half-open range of sorted positions a method averages. */
  datatype Window = Window(lo: nat, hi: nat)

  function KeptWindow(n: nat, how: Method): (w: Window)
    requires n > 0
    ensures w.lo < w.hi <= n
  {
    match how
    case MeanOf => Window(0, n)
    case TrimmedMean => Window(TrimCount(n), n - TrimCount(n))
    case InterquartileMean => if n < 4 then Window(0, n) else Window(n / 4, 3 * n / 4 + 1)
    case MedianOf => Window((n - 1) / 2, n / 2 + 1)
  }

  /** From four values on, the interquartile mean drops n/4 low values and one fewer than
      n/4 rounded up high ones, so the two ends are treated alike exactly when 4 does not
      divide n. With four values no high value is dropped at all. */
  lemma InterquartileWindow(n: nat)
    requires n >= 4
    ensures var w := KeptWindow(n, InterquartileMean);
      && w.lo == n / 4 && n - w.hi == (n + 3) / 4 - 1
      && (w.lo == n - w.hi <==> n % 4 != 0)
  {
  }

  lemma MeanOfOne(a: real)
    ensures Mean([a]) == a
  {
    assert [a][1..] == [];
    assert Total([a]) == a + Total([a][1..]);
  }

  lemma MeanOfTwo(a: real, b: real)
    ensures Mean([a, b]) == (a + b) / 2.0
  {
    assert [a, b][1..] == [b] && [b][1..] == [];
    assert Total([a, b]) == a + Total([b]) && Total([b]) == b + Total([]);
  }

  /** The mean of the sorted values inside a window. */
  function WindowMean(values: seq<real>, w: Window): real
    requires w.lo < w.hi <= |values|
  {
    Mean(Sorted(values)[w.lo..w.hi])
  }

  lemma MedianIsWindow(values: seq<real>)
    requires values != []
    ensures Median(values) == WindowMean(values, KeptWindow(|values|, MedianOf))
  {
    var t, h := Sorted(values), |values| / 2;
    if |t| % 2 == 1 {
      assert t[h..h + 1] == [t[h]];
      MeanOfOne(t[h]);
    } else {
      assert t[h - 1..h + 1] == [t[h - 1], t[h]];
      MeanOfTwo(t[h - 1], t[h]);
    }
  }

  lemma MeanIsWindow(values: seq<real>)
    requires values != []
    ensures Mean(values) == WindowMean(values, Window(0, |values|))
  {
    SortedContents(values);
    assert Sorted(values)[0..|values|] == Sorted(values);
  }

  lemma TrimmedIsWindow(values: seq<real>)
    requires values != []
    ensures Mean(Trimmed(values)) == WindowMean(values, KeptWindow(|values|, TrimmedMean))
  {
    var t, k := Sorted(values), TrimCount(|values|);
    if k == 0 {
      assert t[0..|t|] == t;
    } else {
      assert |t[k..|t| - k]| == |t| - 2 * k;
    }
  }

  lemma InterquartileIsWindow(values: seq<real>)
    requires values != []
    ensures Mean(Interquartile(values)) == WindowMean(values, KeptWindow(|values|, InterquartileMean))
  {
    hide Mean, Sorted;
    var n := |values|;
    if n < 4 {
      MeanIsWindow(values);
    } else {
      assert |Sorted(values)[n / 4..3 * n / 4 + 1]| == 3 * n / 4 + 1 - n / 4;
    }
  }

  /** Every method is the mean of one non-empty slice of the sorted values. */
  lemma AggregateIsWindowMean(values: seq<real>, how: Method)
    requires values != []
    ensures AggregateValues(values, how) == WindowMean(values, KeptWindow(|values|, how))
  {
    match how
    case MedianOf => MedianIsWindow(values);
    case MeanOf => MeanIsWindow(values);
    case TrimmedMean => TrimmedIsWindow(values);
    case InterquartileMean => InterquartileIsWindow(values);
  }

  /** Raising any values never lowers the aggregate, whichever the method. */
  /** A tenth of n, rounded down, but at least one once n exceeds two. */
  ghost predicate TenthOf(k: nat, n: nat) {
    if n <= 2 then k == 0 else k >= 1 && (10 * k <= n || k == 1) && n < 10 * (k + 1)
  }

  lemma TrimIsTenth(n: nat)
    ensures TenthOf(TrimCount(n), n)
  {
  }

  /** The mean of what is left without a tenth at each end. */
  ghost predicate TrimsTo(values: seq<real>, k: nat, v: real)
    requires values != []
  {
    TenthOf(k, |values|) && 2 * k < |values| && v == Mean(Sorted(values)[k..|values| - k])
  }

  /** What the name of a method stands for: the mean, the mean without the lowest and the
      highest tenth, the mean of the middle half from four values on, or the median, which is
      also what any other name means. */
  lemma MethodsByName(values: seq<real>, name: string)
    requires values != []
    ensures var n, t, v := |values|, Sorted(values), AggregateValues(values, MethodNamed(name));
      && (name == "mean" ==> v == Mean(values))
      && (name == "trimmed_mean" ==> exists k: nat :: TrimsTo(values, k, v))
      && (name == "interquartile_mean" ==> v == if n < 4 then Mean(values) else Mean(t[n / 4..3 * n / 4 + 1]))
      && (name !in {"mean", "trimmed_mean", "interquartile_mean"} ==>
           v == if n % 2 == 1 then t[n / 2] else (t[n / 2 - 1] + t[n / 2]) / 2.0)
  {
    hide *;
    Named(name);
    MeanByName(values);
    TrimmedByName(values);
    InterquartileByName(values);
    MedianByName(values);
  }

  lemma Named(name: string)
    ensures name == "mean" ==> MethodNamed(name) == MeanOf
    ensures name == "trimmed_mean" ==> MethodNamed(name) == TrimmedMean
    ensures name == "interquartile_mean" ==> MethodNamed(name) == InterquartileMean
    ensures name !in {"mean", "trimmed_mean", "interquartile_mean"} ==> MethodNamed(name) == MedianOf
  {
  }

  lemma MeanByName(values: seq<real>)
    requires values != []
    ensures AggregateValues(values, MeanOf) == Mean(values)
  {
    hide Mean;
  }

  lemma TrimmedByName(values: seq<real>)
    requires values != []
    ensures exists k: nat :: TrimsTo(values, k, AggregateValues(values, TrimmedMean))
  {
    hide Mean, Sorted, TenthOf, TrimCount, AggregateValues;
    TrimIsTenth(|values|);
    TrimmedSlice(values);
    assert TrimsTo(values, TrimCount(|values|), AggregateValues(values, TrimmedMean));
  }

  lemma TrimmedSlice(values: seq<real>)
    requires values != []
    ensures var n, k := |values|, TrimCount(|values|);
      AggregateValues(values, TrimmedMean) == Mean(Sorted(values)[k..n - k])
  {
    hide Mean, Sorted, Trimmed, TrimCount;
    TrimmedIsWindow(values);
  }

  lemma InterquartileByName(values: seq<real>)
    requires values != []
    ensures var n, t := |values|, Sorted(values);
      AggregateValues(values, InterquartileMean) == if n < 4 then Mean(values) else Mean(t[n / 4..3 * n / 4 + 1])
  {
    InterquartileIsWindow(values);
    MeanIsWindow(values);
    hide Mean, Sorted, Interquartile;
  }

  lemma MedianByName(values: seq<real>)
    requires values != []
    ensures var n, t := |values|, Sorted(values);
      AggregateValues(values, MedianOf) == if n % 2 == 1 then t[n / 2] else (t[n / 2 - 1] + t[n / 2]) / 2.0
  {
    hide Mean, Sorted;
  }

  lemma AggregateMonotone(s: seq<real>, t: seq<real>, how: Method)
    requires |s| == |t| && forall i :: 0 <= i < |s| ==> s[i] <= t[i]
    ensures AggregateValues(s, how) <= AggregateValues(t, how)
  {
    if s != [] {
      AggregateIsWindowMean(s, how);
      AggregateIsWindowMean(t, how);
      var w := KeptWindow(|s|, how);
      forall k | w.lo <= k < w.hi ensures Sorted(s)[k] <= Sorted(t)[k] {
        SortedMonotone(s, t, k);
      }
      MeanMonotone(Sorted(s)[w.lo..w.hi], Sorted(t)[w.lo..w.hi]);
    }
  }

  /** The order in which values were collected does not matter. */
  lemma AggregatePermutation(s: seq<real>, t: seq<real>, how: Method)
    requires multiset(s) == multiset(t)
    ensures AggregateValues(s, how) == AggregateValues(t, how)
  {
    assert |s| == |multiset(s)| == |multiset(t)| == |t|;
    SortedPermutation(s, t);
    if s != [] {
      AggregateIsWindowMean(s, how);
      AggregateIsWindowMean(t, how);
    }
  }

  /** Values below a and above b cannot pull the aggregate out of [a, b] as long as the
      window drops at least as many positions at that end. */
  lemma AggregateRobust(values: seq<real>, how: Method, a: real, b: real)
    requires values != []
    requires Count(values, Below(a)) <= KeptWindow(|values|, how).lo
    requires Count(values, Above(b)) <= |values| - KeptWindow(|values|, how).hi
    ensures a <= AggregateValues(values, how) <= b
  {
    AggregateIsWindowMean(values, how);
    var w := KeptWindow(|values|, how);
    WindowRobust(values, w.lo, w.hi, a, b);
  }

  lemma WindowRobust(values: seq<real>, lo: nat, hi: nat, a: real, b: real)
    requires lo < hi <= |values|
    requires Count(values, Below(a)) <= lo
    requires Count(values, Above(b)) <= |values| - hi
    ensures a <= WindowMean(values, Window(lo, hi)) <= b
  {
    var t := Sorted(values);
    CountComplement(values, AtMost(b), Above(b));
    forall k | lo <= k < hi ensures a <= t[k] <= b {
      OrderStatistic(values, Below(a), k);
      OrderStatistic(values, AtMost(b), k);
    }
    MeanBounds(t[lo..hi], a, b);
  }

  function Within(a: real, b: real): real -> bool { x => a <= x <= b }

  lemma {:induction false} CountThreeWays(s: seq<real>, a: real, b: real)
    requires a <= b
    ensures Count(s, Below(a)) + Count(s, Within(a, b)) + Count(s, Above(b)) == |s|
  {
    if s != [] {
      CountThreeWays(s[1..], a, b);
    }
  }

  /** If more than half of the values lie in [a, b], so does the median. */
  lemma MedianFollowsMajority(values: seq<real>, a: real, b: real)
    requires a <= b && 2 * Count(values, Within(a, b)) > |values|
    ensures values != [] && a <= Median(values) <= b
  {
    CountThreeWays(values, a, b);
    AggregateRobust(values, MedianOf, a, b);
  }

  /** The budgets of AggregateRobust are exact: one more low outlier than the window
      drops can pull the aggregate below every other value. */
  lemma AggregateBreaksBelow(n: nat, how: Method) returns (s: seq<real>)
    requires n > 0
    ensures |s| == n && Count(s, Below(0.0)) == KeptWindow(n, how).lo + 1
    ensures AggregateValues(s, how) < 0.0
  {
    hide Sorted, Count, AggregateValues, KeptWindow;
    var w := KeptWindow(n, how);
    s := StepSample(n, w.lo + 1, -1.0, 0.0);
    StepSampleCount(n, w.lo + 1, -1.0, 0.0, Below(0.0));
    StepSampleSorted(n, w.lo + 1, -1.0, 0.0);
    AggregateIsWindowMean(s, how);
    MeanNegative(s[w.lo..w.hi]);
  }

  /** The same at the upper end. */
  lemma AggregateBreaksAbove(n: nat, how: Method) returns (s: seq<real>)
    requires n > 0
    ensures |s| == n && Count(s, Above(0.0)) == n - KeptWindow(n, how).hi + 1
    ensures AggregateValues(s, how) > 0.0
  {
    hide Sorted, Count, AggregateValues, KeptWindow;
    var w := KeptWindow(n, how);
    s := StepSample(n, w.hi - 1, 0.0, 1.0);
    StepSampleCount(n, w.hi - 1, 0.0, 1.0, AtMost(0.0));
    CountComplement(s, AtMost(0.0), Above(0.0));
    StepSampleSorted(n, w.hi - 1, 0.0, 1.0);
    AggregateIsWindowMean(s, how);
    MeanPositive(s[w.lo..w.hi]);
  }

  /** k copies of a followed by copies of b, n values in all. */
  function StepSample(n: nat, k: nat, a: real, b: real): (s: seq<real>)
    ensures |s| == n
    ensures forall i :: 0 <= i < n ==> s[i] == if i < k then a else b
  {
    seq(n, i => if i < k then a else b)
  }

  lemma {:induction false} StepSampleCount(n: nat, k: nat, a: real, b: real, p: real -> bool)
    requires k <= n && p(a) && !p(b)
    ensures Count(StepSample(n, k, a, b), p) == k
    decreases n
  {
    if n > 0 {
      var k' := if k == 0 then 0 else k - 1;
      assert StepSample(n, k, a, b)[1..] == StepSample(n - 1, k', a, b);
      StepSampleCount(n - 1, k', a, b, p);
    }
  }

  lemma StepSampleSorted(n: nat, k: nat, a: real, b: real)
    requires a <= b
    ensures Sorted(StepSample(n, k, a, b)) == StepSample(n, k, a, b)
  {
    SortedContents(StepSample(n, k, a, b));
    AscendingUnique(Sorted(StepSample(n, k, a, b)), StepSample(n, k, a, b));
  }

  lemma MeanNegative(s: seq<real>)
    requires s != [] && s[0] < 0.0 && forall i :: 0 <= i < |s| ==> s[i] <= 0.0
    ensures Mean(s) < 0.0
  {
    TotalMonotone(s[1..], seq(|s| - 1, i => 0.0));
    TotalBounds(seq(|s| - 1, i => 0.0), 0.0, 0.0);
  }

  lemma {:induction false} TotalPositive(s: seq<real>)
    requires s != [] && s[|s| - 1] > 0.0 && forall i :: 0 <= i < |s| ==> s[i] >= 0.0
    ensures Total(s) > 0.0
  {
    if |s| > 1 {
      TotalPositive(s[1..]);
    }
  }

  lemma MeanPositive(s: seq<real>)
    requires s != [] && s[|s| - 1] > 0.0 && forall i :: 0 <= i < |s| ==> s[i] >= 0.0
    ensures Mean(s) > 0.0
  {
    TotalPositive(s);
  }
}
