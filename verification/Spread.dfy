/** The variance reported beside a score, and how far the score can be from the mean. */
module Spread {
  import opened Statistics

  // ---- polynomial facts, one at a time -------------------------------------------------

  function Square(x: real): real {
    x * x
  }

  lemma PositiveProduct(x: real, y: real, p: real)
    requires x > 0.0 && y > 0.0 && p == x * y
    ensures p > 0.0
  {
  }

  lemma SquareSign(x: real)
    ensures Square(x) >= 0.0
    ensures x != 0.0 ==> Square(x) > 0.0
  {
    if x > 0.0 {
      PositiveProduct(x, x, Square(x));
    } else if x < 0.0 {
      PositiveProduct(-x, -x, Square(x));
    }
  }

  lemma Product(x: real, y: real)
    requires x >= 0.0 && y >= 0.0
    ensures x * y >= 0.0
  {
  }

  lemma SquareGrows(x: real, y: real)
    requires x >= y >= 0.0
    ensures x * x >= y * y
  {
    Product(x - y, x + y);
  }

  lemma ExpandSquare(x: real, c: real, q: real, t: real, n: real, rest: real, q': real, t': real, n': real)
    requires rest == q - 2.0 * c * t + c * c * n
    requires q' == Square(x) + q && t' == x + t && n' == n + 1.0
    ensures Square(x - c) + rest == q' - 2.0 * c * t' + c * c * n'
  {
  }

  lemma DivideBack(t: real, n: real)
    requires n > 0.0
    ensures t / n * n == t
  {
  }

  lemma Recentre(q: real, m: real, d: real, t: real, n: real, atMean: real, shifted: real)
    requires t == m * n
    requires atMean == q - 2.0 * m * t + m * m * n
    requires shifted == q - 2.0 * (m + d) * t + (m + d) * (m + d) * n
    ensures shifted == atMean + d * d * n
  {
  }

  /** What the squares of n values between a and b with total t can add up to at most. */
  function RangeBound(a: real, b: real, t: real, n: real): real {
    (a + b) * t - a * b * n
  }

  lemma BetweenRoots(x: real, a: real, b: real)
    requires a <= x <= b
    ensures Square(x) <= RangeBound(a, b, x, 1.0)
  {
    Product(x - a, b - x);
  }

  // ---- deviation from a centre ---------------------------------------------------------

  /** Sum of squared deviations from c. */
  function Deviation(s: seq<real>, c: real): real {
    if s == [] then 0.0 else Square(s[0] - c) + Deviation(s[1..], c)
  }

  function Squares(s: seq<real>): real {
    if s == [] then 0.0 else Square(s[0]) + Squares(s[1..])
  }

  /** `statistics.pvariance`. */
  function PVariance(s: seq<real>): real
    requires s != []
  {
    Deviation(s, Mean(s)) / |s| as real
  }

  lemma {:induction false} DeviationExpanded(s: seq<real>, c: real)
    ensures Deviation(s, c) == Squares(s) - 2.0 * c * Total(s) + c * c * |s| as real
  {
    hide Square;
    if s != [] {
      var r := s[1..];
      DeviationExpanded(r, c);
      ExpandSquare(s[0], c, Squares(r), Total(r), |r| as real, Deviation(r, c), Squares(s), Total(s), |s| as real);
    }
  }

  lemma MeanTimesCount(s: seq<real>)
    requires s != []
    ensures Mean(s) * |s| as real == Total(s)
  {
    DivideBack(Total(s), |s| as real);
  }

  lemma VarianceTimesCount(s: seq<real>)
    requires s != []
    ensures PVariance(s) * |s| as real == Deviation(s, Mean(s))
  {
    hide Deviation, Mean;
    DivideBack(Deviation(s, Mean(s)), |s| as real);
  }

  /** The mean is the best centre, and leaving it by d costs exactly n d^2. */
  lemma DeviationFromMean(s: seq<real>, d: real)
    requires s != []
    ensures Deviation(s, Mean(s) + d) == Deviation(s, Mean(s)) + d * d * |s| as real
  {
    hide *;
    var m := Mean(s);
    MeanTimesCount(s);
    DeviationExpanded(s, m);
    DeviationExpanded(s, m + d);
    Recentre(Squares(s), m, d, Total(s), |s| as real, Deviation(s, m), Deviation(s, m + d));
  }

  lemma {:induction false} DeviationSign(s: seq<real>, c: real)
    ensures Deviation(s, c) >= 0.0
    ensures Deviation(s, c) == 0.0 ==> forall i :: 0 <= i < |s| ==> s[i] == c
  {
    if s != [] {
      DeviationSign(s[1..], c);
      SquareSign(s[0] - c);
      assert forall i :: 0 < i < |s| ==> s[i] == s[1..][i - 1];
    }
  }

  lemma {:induction false} DeviationOfConstant(s: seq<real>, c: real)
    requires forall i :: 0 <= i < |s| ==> s[i] == c
    ensures Deviation(s, c) == 0.0
  {
    if s != [] {
      DeviationOfConstant(s[1..], c);
    }
  }

  /** The variance is never negative, and is zero exactly when all values are equal. */
  lemma VarianceZero(s: seq<real>)
    requires s != []
    ensures PVariance(s) >= 0.0
    ensures PVariance(s) == 0.0 <==> forall i, j :: 0 <= i < j < |s| ==> s[i] == s[j]
  {
    var n, m := |s| as real, Mean(s);
    VarianceTimesCount(s);
    DeviationSign(s, m);
    Scale(0.0, Deviation(s, m), n);
    if forall i, j :: 0 <= i < j < |s| ==> s[i] == s[j] {
      MeanBounds(s, s[0], s[0]);
      DeviationOfConstant(s, m);
    }
  }

  // ---- upper bounds ----------------------------------------------------------------------

  lemma RangeBoundAdds(a: real, b: real, x: real, t: real, n: real)
    ensures RangeBound(a, b, x, 1.0) + RangeBound(a, b, t, n) == RangeBound(a, b, x + t, 1.0 + n)
    ensures RangeBound(a, b, 0.0, 0.0) == 0.0
  {
  }

  lemma {:induction false} SquaresInRange(s: seq<real>, a: real, b: real)
    requires forall i :: 0 <= i < |s| ==> a <= s[i] <= b
    ensures Squares(s) <= RangeBound(a, b, Total(s), |s| as real)
  {
    hide RangeBound, Square;
    if s == [] {
      RangeBoundAdds(a, b, 0.0, 0.0, 0.0);
    } else {
      BetweenRoots(s[0], a, b);
      SquaresInRange(s[1..], a, b);
      RangeBoundAdds(a, b, s[0], Total(s[1..]), |s[1..]| as real);
    }
  }

  lemma ExpandFactors(a: real, b: real, m: real, n: real)
    ensures (b - m) * (m - a) * n == (a + b) * (m * n) - a * b * n - m * m * n
  {
    assert (b - m) * (m - a) == (a + b) * m - a * b - m * m;
  }

  lemma FactorBound(q: real, v: real, m: real, a: real, b: real, t: real, n: real, dev: real)
    requires n > 0.0 && t == m * n
    requires q <= RangeBound(a, b, t, n)
    requires v * n == dev
    requires dev == q - 2.0 * m * t + m * m * n
    ensures v <= (b - m) * (m - a)
  {
    ExpandFactors(a, b, m, n);
    assert 2.0 * m * t == 2.0 * (m * m * n);
    assert dev == q - m * m * n;
    Cancel(v, (b - m) * (m - a), n);
  }

  lemma VarianceByMean(s: seq<real>, a: real, b: real)
    requires s != [] && forall i :: 0 <= i < |s| ==> a <= s[i] <= b
    ensures PVariance(s) <= (b - Mean(s)) * (Mean(s) - a)
  {
    hide *;
    var m := Mean(s);
    MeanTimesCount(s);
    VarianceTimesCount(s);
    SquaresInRange(s, a, b);
    DeviationExpanded(s, m);
    FactorBound(Squares(s), PVariance(s), m, a, b, Total(s), |s| as real, Deviation(s, m));
  }

  lemma ProductByHalfSum(p: real, q: real)
    ensures p * q <= (p + q) * (p + q) / 4.0
  {
    SquareSign(p - q);
    assert (p + q) * (p + q) == (p - q) * (p - q) + 4.0 * (p * q);
  }

  /** The variance of values in [a, b] is at most a quarter of the squared range. */
  lemma VarianceByRange(s: seq<real>, a: real, b: real)
    requires s != [] && forall i :: 0 <= i < |s| ==> a <= s[i] <= b
    ensures PVariance(s) <= (b - a) * (b - a) / 4.0
  {
    VarianceByMean(s, a, b);
    ProductByHalfSum(b - Mean(s), Mean(s) - a);
  }

  // ---- the score against the mean ----------------------------------------------------------

  /** Every value with property p lies at least the root of e away from c. */
  lemma {:induction false} DeviationFarSide(s: seq<real>, c: real, e: real, p: real -> bool)
    requires forall x :: p(x) ==> (x - c) * (x - c) >= e
    ensures Deviation(s, c) >= e * Count(s, p) as real
  {
    if s != [] {
      DeviationFarSide(s[1..], c, e, p);
      SquareSign(s[0] - c);
      var k := Count(s[1..], p) as real;
      assert e * (k + 1.0) == e * k + e;
    }
  }

  /** At least half of the values are on each side of the median. */
  lemma MedianSplits(s: seq<real>)
    requires s != []
    ensures 2 * Count(s, AtMost(Median(s))) >= |s|
    ensures 2 * Count(s, AtLeast(Median(s))) >= |s|
  {
    var m, h := Median(s), |s| / 2;
    var l := if |s| % 2 == 1 then h else h - 1;
    assert Sorted(s)[l] <= m <= Sorted(s)[h];
    CountComplement(s, AtLeast(m), Below(m));
    OrderStatistic(s, Below(m), h);
    OrderStatistic(s, AtMost(m), l);
  }

  /** Values at or beyond the median, seen from the mean mirrored in it. */
  lemma FarFromMirror(m: real, d: real, p: real -> bool)
    requires p == if d >= 0.0 then AtMost(m) else AtLeast(m)
    ensures forall x :: p(x) ==> (x - (m + 2.0 * d)) * (x - (m + 2.0 * d)) >= 4.0 * (d * d)
  {
    forall x | p(x) ensures (x - (m + 2.0 * d)) * (x - (m + 2.0 * d)) >= 4.0 * (d * d) {
      var y := x - (m + 2.0 * d);
      if d >= 0.0 {
        SquareGrows(-y, 2.0 * d);
      } else {
        SquareGrows(y, -2.0 * d);
      }
    }
  }

  lemma HalfTheMass(v: real, d: real, k: real, n: real, atMean: real, mirrored: real, e: real)
    requires n > 0.0 && 2.0 * k >= n
    requires v * n == atMean && mirrored == atMean + d * d * n
    requires e == 4.0 * (d * d) && mirrored >= e * k
    ensures d * d <= v
  {
    SquareSign(d);
    Product(d * d, 2.0 * k - n);
    Cancel(d * d, v, n);
  }

  /** The final score (a median) is within one standard deviation of the mean. */
  lemma MedianNearMean(s: seq<real>)
    requires s != []
    ensures (Mean(s) - Median(s)) * (Mean(s) - Median(s)) <= PVariance(s)
  {
    hide *;
    var m, u, d := Median(s), Mean(s), Mean(s) - Median(s);
    var p := if d >= 0.0 then AtMost(m) else AtLeast(m);
    MedianSplits(s);
    VarianceTimesCount(s);
    DeviationFromMean(s, d);
    FarFromMirror(m, d, p);
    var c, e := m + 2.0 * d, 4.0 * (d * d);
    assert c == u + d;
    DeviationFarSide(s, c, e, p);
    HalfTheMass(PVariance(s), d, Count(s, p) as real, |s| as real, Deviation(s, u), Deviation(s, c), e);
  }
}
