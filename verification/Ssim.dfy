/**
 The structural similarity of two frames, channel by channel, in exact arithmetic. Gaussian blur is any
 weighted average with positive weights over a window that contains the centre pixel.
 */
module Ssim {

  /** One channel of a frame. */
  type Plane = seq<real>

  const C1: real := 6.5025
  const C2: real := 58.5225

  /** One weight of the blur, and the pixel it applies to. */
  datatype Tap = Tap(pixel: nat, weight: real)

  function Weight(taps: seq<Tap>): real {
    if taps == [] then 0.0 else taps[0].weight + Weight(taps[1..])
  }

  predicate InPlane(taps: seq<Tap>, n: nat) {
    forall k | 0 <= k < |taps| :: taps[k].pixel < n && taps[k].weight > 0.0
  }

  predicate Covers(taps: seq<Tap>, pixel: nat) {
    exists k :: 0 <= k < |taps| && taps[k].pixel == pixel
  }

  /** The window of each pixel of a plane of n pixels: at a border a pixel may occur in it several times. */
  ghost predicate Blurring(windows: seq<seq<Tap>>, n: nat) {
    && |windows| == n > 0
    && forall i | 0 <= i < n :: InPlane(windows[i], n) && Weight(windows[i]) == 1.0 && Covers(windows[i], i)
  }

  function Times(w: real, v: real): real {
    w * v
  }

  /** The blurred value: the weighted average over a window. */
  function Blur(taps: seq<Tap>, x: Plane): real
    requires InPlane(taps, |x|)
  {
    if taps == [] then 0.0 else Times(taps[0].weight, x[taps[0].pixel]) + Blur(taps[1..], x)
  }

  function Mul(x: Plane, y: Plane): (z: Plane)
    requires |x| == |y|
    ensures |z| == |x| && forall i | 0 <= i < |z| :: z[i] == x[i] * y[i]
  {
    seq(|x|, i requires 0 <= i < |x| => x[i] * y[i])
  }

  // ----- Signs of products -----

  lemma ProductPositive(x: real, y: real, p: real)
    requires p == x * y && x > 0.0 && y > 0.0
    ensures p > 0.0
  {
  }

  lemma SquareSign(d: real, s: real)
    requires s == d * d
    ensures s >= 0.0
    ensures s == 0.0 <==> d == 0.0
  {
    if d > 0.0 {
      ProductPositive(d, d, s);
    } else if d < 0.0 {
      ProductPositive(-d, -d, s);
    }
  }

  function Sq(d: real): (s: real)
    ensures s >= 0.0
    ensures s == 0.0 <==> d == 0.0
  {
    SquareSign(d, d * d);
    d * d
  }

  // ----- Weighted variance -----

  function Variance(taps: seq<Tap>, x: Plane): real
    requires InPlane(taps, |x|)
  {
    Blur(taps, Mul(x, x)) - Sq(Blur(taps, x))
  }

  function Covariance(taps: seq<Tap>, x: Plane, y: Plane): real
    requires |x| == |y| && InPlane(taps, |x|)
  {
    Blur(taps, Mul(x, y)) - Times(Blur(taps, x), Blur(taps, y))
  }

  function Plus(x: Plane, y: Plane): (z: Plane)
    requires |x| == |y|
    ensures |z| == |x| && forall i | 0 <= i < |z| :: z[i] == x[i] + y[i]
  {
    seq(|x|, i requires 0 <= i < |x| => x[i] + y[i])
  }

  function Minus(x: Plane, y: Plane): (z: Plane)
    requires |x| == |y|
    ensures |z| == |x| && forall i | 0 <= i < |z| :: z[i] == x[i] - y[i]
  {
    seq(|x|, i requires 0 <= i < |x| => x[i] - y[i])
  }

  /** The weighted sum of squared distances to m. */
  function Spread(taps: seq<Tap>, x: Plane, m: real): real
    requires InPlane(taps, |x|)
  {
    if taps == [] then 0.0 else Times(taps[0].weight, Sq(x[taps[0].pixel] - m)) + Spread(taps[1..], x, m)
  }

  /** The spread about m in terms of the blurred square, the mean and the total weight. */
  function Expansion(square: real, m: real, mean: real, weight: real): real {
    square - 2.0 * m * mean + m * m * weight
  }

  lemma WeightedSquare(w: real, x: real, m: real)
    ensures Times(w, Sq(x - m)) == Expansion(Times(w, Sq(x)), m, Times(w, x), w)
  {
    assert Sq(x - m) == x * x - 2.0 * (x * m) + m * m;
  }

  lemma ExpansionAdds(a: real, square: real, m: real, b: real, mean: real, w: real, weight: real)
    ensures Expansion(a, m, b, w) + Expansion(square, m, mean, weight)
            == Expansion(a + square, m, b + mean, w + weight)
  {
  }

  lemma ExpandTap(w: real, x: real, m: real, square: real, mean: real, weight: real)
    ensures Times(w, Sq(x - m)) + Expansion(square, m, mean, weight)
            == Expansion(Times(w, Sq(x)) + square, m, Times(w, x) + mean, w + weight)
  {
    WeightedSquare(w, x, m);
    ExpansionAdds(Times(w, Sq(x)), square, m, Times(w, x), mean, w, weight);
  }

  lemma {:induction false} SpreadExpands(taps: seq<Tap>, x: Plane, m: real)
    requires InPlane(taps, |x|)
    ensures Spread(taps, x, m) == Expansion(Blur(taps, Mul(x, x)), m, Blur(taps, x), Weight(taps))
  {
    if taps == [] {
    } else {
      var t, p := taps[1..], taps[0].pixel;
      SpreadExpands(t, x, m);
      assert Mul(x, x)[p] == Sq(x[p]);
      ExpandTap(taps[0].weight, x[p], m, Blur(t, Mul(x, x)), Blur(t, x), Weight(t));
    }
  }

  lemma WeightedSign(w: real, s: real, p: real)
    requires p == w * s && w > 0.0 && s >= 0.0
    ensures p >= 0.0
    ensures p == 0.0 <==> s == 0.0
  {
    if s > 0.0 {
      ProductPositive(w, s, p);
    }
  }

  lemma {:induction false} SpreadZeroIff(taps: seq<Tap>, x: Plane, m: real)
    requires InPlane(taps, |x|)
    ensures Spread(taps, x, m) >= 0.0
    ensures Spread(taps, x, m) == 0.0 <==> forall k | 0 <= k < |taps| :: x[taps[k].pixel] == m
  {
    if taps == [] {
    } else {
      SpreadZeroIff(taps[1..], x, m);
      var s := Sq(x[taps[0].pixel] - m);
      WeightedSign(taps[0].weight, s, Times(taps[0].weight, s));
      assert forall k | 0 < k < |taps| :: taps[k] == taps[1..][k - 1];
      assert forall k | 0 <= k < |taps| - 1 :: taps[1..][k] == taps[k + 1];
    }
  }

  lemma AboutMean(square: real, b: real)
    ensures Expansion(square, b, b, 1.0) == square - Sq(b)
  {
  }

  lemma SpreadAboutMean(taps: seq<Tap>, x: Plane, b: real)
    requires InPlane(taps, |x|) && Weight(taps) == 1.0 && b == Blur(taps, x)
    ensures Spread(taps, x, b) == Blur(taps, Mul(x, x)) - Sq(b)
  {
    SpreadExpands(taps, x, b);
    AboutMean(Blur(taps, Mul(x, x)), b);
  }

  /** The weighted variance is nonnegative, and zero only for a plane that is constant on the window. */
  lemma VarianceZeroIff(taps: seq<Tap>, x: Plane)
    requires InPlane(taps, |x|) && Weight(taps) == 1.0
    ensures Variance(taps, x) >= 0.0
    ensures Variance(taps, x) == 0.0 <==> forall k | 0 <= k < |taps| :: x[taps[k].pixel] == Blur(taps, x)
  {
    SpreadAboutMean(taps, x, Blur(taps, x));
    SpreadZeroIff(taps, x, Blur(taps, x));
  }

  // ----- Covariance against variance -----

  lemma TimesSum(w: real, a: real, b: real)
    ensures Times(w, a + b) == Times(w, a) + Times(w, b)
    ensures Times(w, a - b) == Times(w, a) - Times(w, b)
  {
  }

  lemma {:induction false} BlurLinear(taps: seq<Tap>, x: Plane, y: Plane)
    requires |x| == |y| && InPlane(taps, |x|)
    ensures Blur(taps, Plus(x, y)) == Blur(taps, x) + Blur(taps, y)
    ensures Blur(taps, Minus(x, y)) == Blur(taps, x) - Blur(taps, y)
  {
    if taps == [] {
    } else {
      BlurLinear(taps[1..], x, y);
      TimesSum(taps[0].weight, x[taps[0].pixel], y[taps[0].pixel]);
    }
  }

  lemma SquaredPixel(a: real, b: real, sum: real, difference: real)
    requires sum == a + b && difference == a - b
    ensures sum * sum == (a * a + b * b) + (a * b + a * b)
    ensures difference * difference == (a * a + b * b) - (a * b + a * b)
  {
  }

  lemma SquaredPlanes(x: Plane, y: Plane)
    requires |x| == |y|
    ensures Mul(Plus(x, y), Plus(x, y)) == Plus(Plus(Mul(x, x), Mul(y, y)), Plus(Mul(x, y), Mul(x, y)))
    ensures Mul(Minus(x, y), Minus(x, y)) == Minus(Plus(Mul(x, x), Mul(y, y)), Plus(Mul(x, y), Mul(x, y)))
  {
    var sum, difference := Plus(x, y), Minus(x, y);
    forall i | 0 <= i < |x|
      ensures Mul(sum, sum)[i] == Plus(Plus(Mul(x, x), Mul(y, y)), Plus(Mul(x, y), Mul(x, y)))[i]
      ensures Mul(difference, difference)[i] == Minus(Plus(Mul(x, x), Mul(y, y)), Plus(Mul(x, y), Mul(x, y)))[i]
    {
      SquaredPixel(x[i], y[i], sum[i], difference[i]);
    }
  }

  /** E[(x + y)^2] and E[(x - y)^2]. */
  lemma BlurSquares(taps: seq<Tap>, x: Plane, y: Plane)
    requires |x| == |y| && InPlane(taps, |x|)
    ensures Blur(taps, Mul(Plus(x, y), Plus(x, y)))
            == Blur(taps, Mul(x, x)) + Blur(taps, Mul(y, y)) + 2.0 * Blur(taps, Mul(x, y))
    ensures Blur(taps, Mul(Minus(x, y), Minus(x, y)))
            == Blur(taps, Mul(x, x)) + Blur(taps, Mul(y, y)) - 2.0 * Blur(taps, Mul(x, y))
  {
    SquaredPlanes(x, y);
    BlurLinear(taps, Mul(x, x), Mul(y, y));
    BlurLinear(taps, Mul(x, y), Mul(x, y));
    BlurLinear(taps, Plus(Mul(x, x), Mul(y, y)), Plus(Mul(x, y), Mul(x, y)));
  }

  lemma SquareOfSum(a: real, b: real)
    ensures Sq(a + b) == Sq(a) + Sq(b) + 2.0 * Times(a, b)
    ensures Sq(a - b) == Sq(a) + Sq(b) - 2.0 * Times(a, b)
  {
  }

  /** The variances of the sum and the difference of two planes. */
  lemma VarianceOfSum(taps: seq<Tap>, x: Plane, y: Plane)
    requires |x| == |y| && InPlane(taps, |x|)
    ensures Variance(taps, Plus(x, y)) == Variance(taps, x) + Variance(taps, y) + 2.0 * Covariance(taps, x, y)
    ensures Variance(taps, Minus(x, y)) == Variance(taps, x) + Variance(taps, y) - 2.0 * Covariance(taps, x, y)
  {
    BlurLinear(taps, x, y);
    BlurSquares(taps, x, y);
    SquareOfSum(Blur(taps, x), Blur(taps, y));
  }

  /** Twice the covariance never exceeds the sum of the variances, and equals it only when the planes differ by
      a constant on the window. */
  lemma CovarianceBounds(taps: seq<Tap>, x: Plane, y: Plane)
    requires |x| == |y| && InPlane(taps, |x|) && Weight(taps) == 1.0
    ensures 2.0 * Covariance(taps, x, y) <= Variance(taps, x) + Variance(taps, y)
    ensures -2.0 * Covariance(taps, x, y) <= Variance(taps, x) + Variance(taps, y)
    ensures 2.0 * Covariance(taps, x, y) == Variance(taps, x) + Variance(taps, y) <==>
            forall k | 0 <= k < |taps| :: Minus(x, y)[taps[k].pixel] == Blur(taps, Minus(x, y))
  {
    VarianceOfSum(taps, x, y);
    VarianceZeroIff(taps, Plus(x, y));
    VarianceZeroIff(taps, Minus(x, y));
  }

  // ----- One entry of the map -----

  function Ratio(p: real, pMax: real, q: real, qMax: real): real
    requires pMax > 0.0 && qMax > 0.0
  {
    ProductPositive(pMax, qMax, pMax * qMax);
    (p * q) / (pMax * qMax)
  }

  /** (2 mu1 mu2 + C1)(2 sigma12 + C2) / ((mu1^2 + mu2^2 + C1)(sigma1^2 + sigma2^2 + C2)) */
  function Index(mu1: real, mu2: real, var1: real, var2: real, cov: real): real
    requires var1 >= 0.0 && var2 >= 0.0
  {
    Ratio(2.0 * Times(mu1, mu2) + C1, Sq(mu1) + Sq(mu2) + C1, 2.0 * cov + C2, var1 + var2 + C2)
  }

  /** An entry of ssim_map. */
  function Entry(taps: seq<Tap>, x: Plane, y: Plane): real
    requires |x| == |y| && InPlane(taps, |x|) && Weight(taps) == 1.0
  {
    VarianceZeroIff(taps, x);
    VarianceZeroIff(taps, y);
    Index(Blur(taps, x), Blur(taps, y), Variance(taps, x), Variance(taps, y), Covariance(taps, x, y))
  }

  lemma MeansBound(a: real, b: real)
    ensures -(Sq(a) + Sq(b)) <= 2.0 * Times(a, b) <= Sq(a) + Sq(b)
    ensures 2.0 * Times(a, b) == Sq(a) + Sq(b) <==> a == b
  {
    SquareOfSum(a, b);
  }

  lemma Expand(p: real, pMax: real, q: real, qMax: real)
    ensures (pMax - p) * (qMax + q) == pMax * qMax + pMax * q - p * qMax - p * q
    ensures (pMax + p) * (qMax - q) == pMax * qMax - pMax * q + p * qMax - p * q
    ensures (pMax + p) * (qMax + q) == pMax * qMax + pMax * q + p * qMax + p * q
  {
  }

  lemma ProductAbove(p: real, pMax: real, q: real, qMax: real)
    requires -pMax < p <= pMax && -qMax < q <= qMax
    ensures -(pMax * qMax) < p * q
  {
    // pMax * qMax + p * q is half of (pMax + p) * (qMax + q) + (pMax - p) * (qMax - q).
    var c, d := (pMax + p) * (qMax + q), (pMax - p) * (qMax - q);
    ProductPositive(pMax + p, qMax + q, c);
    if pMax - p > 0.0 {
      WeightedSign(pMax - p, qMax - q, d);
    }
    assert c + d == 2.0 * (pMax * qMax) + 2.0 * (p * q);
  }

  /** A product of two factors, each within its positive bound from above and strictly from below. */
  lemma FactorsBound(p: real, pMax: real, q: real, qMax: real)
    requires -pMax < p <= pMax && -qMax < q <= qMax
    ensures -(pMax * qMax) < p * q <= pMax * qMax
    ensures p * q == pMax * qMax <==> p == pMax && q == qMax
  {
    var a, b, c := (pMax - p) * (qMax + q), (pMax + p) * (qMax - q), (pMax + p) * (qMax + q);
    Expand(p, pMax, q, qMax);
    WeightedSign(qMax + q, pMax - p, a);
    WeightedSign(pMax + p, qMax - q, b);
    ProductPositive(pMax + p, qMax + q, c);
    ProductAbove(p, pMax, q, qMax);
  }

  lemma QuotientBound(n: real, d: real)
    requires d > 0.0 && -d < n <= d
    ensures -1.0 < n / d <= 1.0
    ensures n / d == 1.0 <==> n == d
  {
    var r := n / d;
    assert r * d == n;
  }

  lemma RatioBound(p: real, pMax: real, q: real, qMax: real)
    requires -pMax < p <= pMax && -qMax < q <= qMax
    ensures -1.0 < Ratio(p, pMax, q, qMax) <= 1.0
    ensures Ratio(p, pMax, q, qMax) == 1.0 <==> p == pMax && q == qMax
  {
    FactorsBound(p, pMax, q, qMax);
    ProductPositive(pMax, qMax, pMax * qMax);
    QuotientBound(p * q, pMax * qMax);
  }

  lemma IndexBound(mu1: real, mu2: real, var1: real, var2: real, cov: real)
    requires var1 >= 0.0 && var2 >= 0.0 && -(var1 + var2) <= 2.0 * cov <= var1 + var2
    ensures -1.0 < Index(mu1, mu2, var1, var2, cov) <= 1.0
    ensures Index(mu1, mu2, var1, var2, cov) == 1.0 <==> mu1 == mu2 && 2.0 * cov == var1 + var2
  {
    MeansBound(mu1, mu2);
    RatioBound(2.0 * Times(mu1, mu2) + C1, Sq(mu1) + Sq(mu2) + C1, 2.0 * cov + C2, var1 + var2 + C2);
  }

  /** Every entry of the map lies above -1 and at most at 1; it is 1 exactly when the means agree and the planes
      differ by a constant on the window. */
  lemma EntryBound(taps: seq<Tap>, x: Plane, y: Plane)
    requires |x| == |y| && InPlane(taps, |x|) && Weight(taps) == 1.0
    ensures -1.0 < Entry(taps, x, y) <= 1.0
    ensures Entry(taps, x, y) == 1.0 <==>
            && Blur(taps, x) == Blur(taps, y)
            && forall k | 0 <= k < |taps| :: Minus(x, y)[taps[k].pixel] == Blur(taps, Minus(x, y))
  {
    CovarianceBounds(taps, x, y);
    VarianceZeroIff(taps, x);
    VarianceZeroIff(taps, y);
    IndexBound(Blur(taps, x), Blur(taps, y), Variance(taps, x), Variance(taps, y), Covariance(taps, x, y));
  }

  lemma {:induction false} BlurAgrees(taps: seq<Tap>, x: Plane, y: Plane)
    requires |x| == |y| && InPlane(taps, |x|)
    requires forall k | 0 <= k < |taps| :: x[taps[k].pixel] == y[taps[k].pixel]
    ensures Blur(taps, x) == Blur(taps, y)
  {
    if taps == [] {
    } else {
      BlurAgrees(taps[1..], x, y);
    }
  }

  /** An entry is 1 exactly when the planes agree on the whole window. */
  lemma EntryOneIff(taps: seq<Tap>, x: Plane, y: Plane)
    requires |x| == |y| && InPlane(taps, |x|) && Weight(taps) == 1.0
    ensures Entry(taps, x, y) == 1.0 <==> forall k | 0 <= k < |taps| :: x[taps[k].pixel] == y[taps[k].pixel]
  {
    EntryBound(taps, x, y);
    BlurLinear(taps, x, y);
    if forall k | 0 <= k < |taps| :: x[taps[k].pixel] == y[taps[k].pixel] {
      BlurAgrees(taps, x, y);
    }
  }

  // ----- The value of an entry -----

  /** The plane of n pixels of value v. */
  function Flat(v: real, n: nat): (x: Plane)
    ensures |x| == n && forall i | 0 <= i < n :: x[i] == v
  {
    seq(n, _ => v)
  }

  /** Both planes are constant on the window. */
  predicate ConstantOn(taps: seq<Tap>, x: Plane, v: real)
    requires InPlane(taps, |x|)
  {
    forall k | 0 <= k < |taps| :: x[taps[k].pixel] == v
  }

  lemma {:induction false} BlurConstant(taps: seq<Tap>, x: Plane, v: real)
    requires InPlane(taps, |x|) && ConstantOn(taps, x, v)
    ensures Blur(taps, x) == Times(Weight(taps), v)
  {
    if taps == [] {
    } else {
      assert forall k | 0 <= k < |taps| - 1 :: taps[1..][k] == taps[k + 1];
      BlurConstant(taps[1..], x, v);
      assert Times(taps[0].weight + Weight(taps[1..]), v)
             == Times(taps[0].weight, v) + Times(Weight(taps[1..]), v);
    }
  }

  lemma ScaledTap(w: real, x: real, v: real, rest: real)
    ensures Times(w, x * v) + Times(rest, v) == Times(Times(w, x) + rest, v)
  {
  }

  lemma {:induction false} BlurScaled(taps: seq<Tap>, x: Plane, y: Plane, v: real)
    requires |x| == |y| && InPlane(taps, |x|) && ConstantOn(taps, y, v)
    ensures Blur(taps, Mul(x, y)) == Times(Blur(taps, x), v)
  {
    if taps == [] {
    } else {
      assert forall k | 0 <= k < |taps| - 1 :: taps[1..][k] == taps[k + 1];
      BlurScaled(taps[1..], x, y, v);
      ScaledTap(taps[0].weight, x[taps[0].pixel], v, Blur(taps[1..], x));
    }
  }

  lemma BlurOfConstant(taps: seq<Tap>, y: Plane, v: real)
    requires InPlane(taps, |y|) && Weight(taps) == 1.0 && ConstantOn(taps, y, v)
    ensures Blur(taps, y) == v
  {
    BlurConstant(taps, y, v);
  }

  lemma NoDifference(e: real, b: real, c: real, v: real)
    requires e == Times(b, v) && c == v
    ensures e - Times(b, c) == 0.0
    ensures b == c ==> e - Sq(b) == 0.0
  {
  }

  /** A plane constant on the window has no variance there, and nothing covaries with it. */
  lemma ConstantStatistics(taps: seq<Tap>, x: Plane, y: Plane, v: real)
    requires |x| == |y| && InPlane(taps, |x|) && Weight(taps) == 1.0 && ConstantOn(taps, y, v)
    ensures Blur(taps, y) == v && Variance(taps, y) == 0.0 && Covariance(taps, x, y) == 0.0
  {
    BlurOfConstant(taps, y, v);
    BlurScaled(taps, y, y, v);
    BlurScaled(taps, x, y, v);
    NoDifference(Blur(taps, Mul(y, y)), Blur(taps, y), Blur(taps, y), v);
    NoDifference(Blur(taps, Mul(x, y)), Blur(taps, x), Blur(taps, y), v);
  }

  lemma Cancels(p: real, pMax: real, q: real)
    requires pMax > 0.0 && q > 0.0
    ensures Ratio(p, pMax, q, q) * pMax == p
    ensures Ratio(q, q, p, pMax) * pMax == p
  {
    ProductPositive(pMax, q, pMax * q);
    var r := (p * q) / (pMax * q);
    assert r * (pMax * q) == p * q;
    assert (r * pMax - p) * q == 0.0;
    assert Ratio(q, q, p, pMax) == r;
  }

  /** The index of two means, without any variance. */
  lemma IndexOfMeans(a: real, b: real, r: real)
    requires r == Index(a, b, 0.0, 0.0, 0.0)
    ensures r * (a * a + b * b + 6.5025) == 2.0 * (a * b) + 6.5025
  {
    Cancels(2.0 * Times(a, b) + C1, Sq(a) + Sq(b) + C1, C2);
  }

  /** The index of two variances and a covariance about mean 0. */
  lemma IndexOfVariances(var1: real, var2: real, cov: real, r: real)
    requires var1 >= 0.0 && var2 >= 0.0 && r == Index(0.0, 0.0, var1, var2, cov)
    ensures r * (var1 + var2 + 58.5225) == 2.0 * cov + 58.5225
  {
    Cancels(2.0 * cov + C2, var1 + var2 + C2, C1);
  }

  /** For planes of values a and b on the window: how the two brightnesses compare. */
  lemma EntryOfConstants(taps: seq<Tap>, x: Plane, y: Plane, a: real, b: real)
    requires |x| == |y| && InPlane(taps, |x|) && Weight(taps) == 1.0
    requires ConstantOn(taps, x, a) && ConstantOn(taps, y, b)
    ensures Entry(taps, x, y) == Index(a, b, 0.0, 0.0, 0.0)
    ensures Entry(taps, x, y) * (a * a + b * b + 6.5025) == 2.0 * (a * b) + 6.5025
  {
    ConstantStatistics(taps, y, x, a);
    ConstantStatistics(taps, x, y, b);
    IndexOfMeans(a, b, Entry(taps, x, y));
  }

  lemma MomentsAboutZero(taps: seq<Tap>, x: Plane, y: Plane)
    requires |x| == |y| && InPlane(taps, |x|) && Blur(taps, x) == 0.0 && Blur(taps, y) == 0.0
    ensures Variance(taps, x) == Blur(taps, Mul(x, x)) && Variance(taps, y) == Blur(taps, Mul(y, y))
    ensures Covariance(taps, x, y) == Blur(taps, Mul(x, y))
  {
  }

  lemma CentredIndex(taps: seq<Tap>, x: Plane, y: Plane)
    requires |x| == |y| && InPlane(taps, |x|) && Weight(taps) == 1.0
    requires Blur(taps, x) == 0.0 && Blur(taps, y) == 0.0
    ensures Blur(taps, Mul(x, x)) >= 0.0 && Blur(taps, Mul(y, y)) >= 0.0
    ensures Entry(taps, x, y)
            == Index(0.0, 0.0, Blur(taps, Mul(x, x)), Blur(taps, Mul(y, y)), Blur(taps, Mul(x, y)))
  {
    VarianceZeroIff(taps, x);
    VarianceZeroIff(taps, y);
    MomentsAboutZero(taps, x, y);
  }

  /** The entry e of planes of mean 0 on the window, of blurred squares xx and yy and blurred product xy: how the
      two textures compare. */
  lemma EntryOfCentred(taps: seq<Tap>, x: Plane, y: Plane, e: real, xx: real, yy: real, xy: real)
    requires |x| == |y| && InPlane(taps, |x|) && Weight(taps) == 1.0
    requires Blur(taps, x) == 0.0 && Blur(taps, y) == 0.0
    requires xx == Blur(taps, Mul(x, x)) && yy == Blur(taps, Mul(y, y)) && xy == Blur(taps, Mul(x, y))
    requires e == Entry(taps, x, y)
    ensures e * (xx + yy + 58.5225) == 2.0 * xy + 58.5225
  {
    CentredIndex(taps, x, y);
    IndexOfVariances(xx, yy, xy, e);
  }

  lemma VarianceShifted(taps: seq<Tap>, x: Plane, m: real)
    requires InPlane(taps, |x|) && Weight(taps) == 1.0
    ensures Variance(taps, Minus(x, Flat(m, |x|))) == Variance(taps, x)
    ensures Blur(taps, Minus(x, Flat(m, |x|))) == Blur(taps, x) - m
  {
    ConstantStatistics(taps, x, Flat(m, |x|), m);
    VarianceOfSum(taps, x, Flat(m, |x|));
    BlurLinear(taps, x, Flat(m, |x|));
  }

  lemma CovarianceShifted(taps: seq<Tap>, x: Plane, y: Plane, m: real, n: real)
    requires |x| == |y| && InPlane(taps, |x|) && Weight(taps) == 1.0
    ensures Covariance(taps, Minus(x, Flat(m, |x|)), Minus(y, Flat(n, |y|))) == Covariance(taps, x, y)
  {
    var x', y' := Minus(x, Flat(m, |x|)), Minus(y, Flat(n, |y|));
    assert Plus(x', y') == Minus(Plus(x, y), Flat(m + n, |x|));
    VarianceOfSum(taps, x, y);
    VarianceOfSum(taps, x', y');
    VarianceShifted(taps, x, m);
    VarianceShifted(taps, y, n);
    VarianceShifted(taps, Plus(x, y), m + n);
  }

  lemma ProductOfQuotients(r: real, pMax: real, p: real, s: real, qMax: real, q: real, both: real)
    requires r * pMax == p && s * qMax == q && pMax * qMax > 0.0 && both * (pMax * qMax) == p * q
    ensures both == r * s
  {
    assert (r * s) * (pMax * qMax) == (r * pMax) * (s * qMax);
    assert (both - r * s) * (pMax * qMax) == 0.0;
  }

  lemma RatioSplits(p: real, pMax: real, q: real, qMax: real, c: real, d: real)
    requires pMax > 0.0 && qMax > 0.0 && c > 0.0 && d > 0.0
    ensures Ratio(p, pMax, q, qMax) == Ratio(p, pMax, c, c) * Ratio(d, d, q, qMax)
  {
    Cancels(p, pMax, c);
    Cancels(q, qMax, d);
    ProductPositive(pMax, qMax, pMax * qMax);
    ProductOfQuotients(Ratio(p, pMax, c, c), pMax, p, Ratio(d, d, q, qMax), qMax, q, Ratio(p, pMax, q, qMax));
  }

  lemma IndexFactors(a: real, b: real, var1: real, var2: real, cov: real, r: real, t: real)
    requires var1 >= 0.0 && var2 >= 0.0
    requires r == Index(a, b, 0.0, 0.0, 0.0) && t == Index(0.0, 0.0, var1, var2, cov)
    ensures Index(a, b, var1, var2, cov) == r * t
  {
    RatioSplits(2.0 * Times(a, b) + C1, Sq(a) + Sq(b) + C1, 2.0 * cov + C2, var1 + var2 + C2, C2, C1);
  }

  lemma EntryOfShifted(taps: seq<Tap>, x: Plane, y: Plane)
    requires |x| == |y| && InPlane(taps, |x|) && Weight(taps) == 1.0
    ensures Variance(taps, x) >= 0.0 && Variance(taps, y) >= 0.0
    ensures Entry(taps, Minus(x, Flat(Blur(taps, x), |x|)), Minus(y, Flat(Blur(taps, y), |y|)))
            == Index(0.0, 0.0, Variance(taps, x), Variance(taps, y), Covariance(taps, x, y))
  {
    VarianceZeroIff(taps, x);
    VarianceZeroIff(taps, y);
    VarianceShifted(taps, x, Blur(taps, x));
    VarianceShifted(taps, y, Blur(taps, y));
    CovarianceShifted(taps, x, y, Blur(taps, x), Blur(taps, y));
  }

  lemma EntryIsIndex(taps: seq<Tap>, x: Plane, y: Plane)
    requires |x| == |y| && InPlane(taps, |x|) && Weight(taps) == 1.0
    ensures Variance(taps, x) >= 0.0 && Variance(taps, y) >= 0.0
    ensures Entry(taps, x, y) == Index(Blur(taps, x), Blur(taps, y), Variance(taps, x), Variance(taps, y),
                                       Covariance(taps, x, y))
  {
    VarianceZeroIff(taps, x);
    VarianceZeroIff(taps, y);
  }

  /** Every entry is the product of the two comparisons: the entry of the planes mu1 and mu2 of the means, and
      that of what the planes show about their means. */
  lemma EntryFactors(taps: seq<Tap>, x: Plane, y: Plane, mu1: Plane, mu2: Plane, means: real, textures: real)
    requires |x| == |y| && InPlane(taps, |x|) && Weight(taps) == 1.0
    requires mu1 == Flat(Blur(taps, x), |x|) && mu2 == Flat(Blur(taps, y), |y|)
    requires means == Entry(taps, mu1, mu2) && textures == Entry(taps, Minus(x, mu1), Minus(y, mu2))
    ensures Entry(taps, x, y) == means * textures
  {
    EntryIsIndex(taps, x, y);
    EntryOfConstants(taps, mu1, mu2, Blur(taps, x), Blur(taps, y));
    EntryOfShifted(taps, x, y);
    IndexFactors(Blur(taps, x), Blur(taps, y), Variance(taps, x), Variance(taps, y), Covariance(taps, x, y),
                 means, textures);
  }

  // ----- The mean of the map -----

  function SumMap(windows: seq<seq<Tap>>, x: Plane, y: Plane): real
    requires |x| == |y| && forall i | 0 <= i < |windows| :: InPlane(windows[i], |x|) && Weight(windows[i]) == 1.0
  {
    if windows == [] then 0.0 else Entry(windows[0], x, y) + SumMap(windows[1..], x, y)
  }

  /** The MSSIM of one channel. */
  ghost function Mssim(windows: seq<seq<Tap>>, x: Plane, y: Plane): real
    requires |x| == |y| && Blurring(windows, |x|)
  {
    SumMap(windows, x, y) / |x| as real
  }

  lemma {:induction false} SumBound(windows: seq<seq<Tap>>, x: Plane, y: Plane)
    requires |x| == |y| && forall i | 0 <= i < |windows| :: InPlane(windows[i], |x|) && Weight(windows[i]) == 1.0
    ensures -(|windows| as real) <= SumMap(windows, x, y) <= |windows| as real
    ensures windows != [] ==> -(|windows| as real) < SumMap(windows, x, y)
    ensures SumMap(windows, x, y) == |windows| as real <==>
            forall i | 0 <= i < |windows| :: Entry(windows[i], x, y) == 1.0
  {
    if windows == [] {
    } else {
      SumBound(windows[1..], x, y);
      EntryBound(windows[0], x, y);
      assert forall i | 0 < i < |windows| :: windows[i] == windows[1..][i - 1];
      assert forall i | 0 <= i < |windows| - 1 :: windows[1..][i] == windows[i + 1];
    }
  }

  /** For any two planes, the MSSIM lies above -1 and at most at 1. */
  lemma MssimBound(windows: seq<seq<Tap>>, x: Plane, y: Plane)
    requires |x| == |y| && Blurring(windows, |x|)
    ensures -1.0 < Mssim(windows, x, y) <= 1.0
  {
    SumBound(windows, x, y);
    QuotientBound(SumMap(windows, x, y), |x| as real);
  }

  /** The MSSIM of a channel is exactly 1 if and only if the two frames are equal in that channel. */
  lemma MssimOneIffEqual(windows: seq<seq<Tap>>, x: Plane, y: Plane)
    requires |x| == |y| && Blurring(windows, |x|)
    ensures Mssim(windows, x, y) == 1.0 <==> x == y
  {
    SumBound(windows, x, y);
    QuotientBound(SumMap(windows, x, y), |x| as real);
    forall i | 0 <= i < |windows|
      ensures Entry(windows[i], x, y) == 1.0 ==> x[i] == y[i]
      ensures x == y ==> Entry(windows[i], x, y) == 1.0
    {
      EntryOneIff(windows[i], x, y);
      assert Covers(windows[i], i);
    }
  }

  lemma {:induction false} SumMoves(windows: seq<seq<Tap>>, i: nat, w: seq<Tap>, x: Plane, y: Plane)
    requires |x| == |y| && forall j | 0 <= j < |windows| :: InPlane(windows[j], |x|) && Weight(windows[j]) == 1.0
    requires i < |windows| && InPlane(w, |x|) && Weight(w) == 1.0
    ensures SumMap(windows[i := w], x, y) - SumMap(windows, x, y) == Entry(w, x, y) - Entry(windows[i], x, y)
  {
    if i == 0 {
      assert windows[0 := w][1..] == windows[1..];
    } else {
      assert windows[i := w][1..] == windows[1..][i - 1 := w];
      SumMoves(windows[1..], i - 1, w, x, y);
    }
  }

  lemma DividedDifference(a: real, b: real, d: real, n: real)
    requires n > 0.0 && a - b == d
    ensures a / n - b / n == d / n
  {
  }

  /** Every entry has the same share in the mean: if one entry changes, the MSSIM changes by that, divided by the
      number of pixels. */
  lemma EntryMovesMean(windows: seq<seq<Tap>>, i: nat, w: seq<Tap>, x: Plane, y: Plane)
    requires |x| == |y| && Blurring(windows, |x|) && i < |windows| && Blurring(windows[i := w], |x|)
    ensures InPlane(w, |x|) && Weight(w) == 1.0
    ensures Mssim(windows[i := w], x, y) - Mssim(windows, x, y)
            == (Entry(w, x, y) - Entry(windows[i], x, y)) / |x| as real
  {
    assert windows[i := w][i] == w;
    SumMoves(windows, i, w, x, y);
    DividedDifference(SumMap(windows[i := w], x, y), SumMap(windows, x, y), Entry(w, x, y) - Entry(windows[i], x, y),
                      |x| as real);
  }

  lemma IndexSymmetric(mu1: real, mu2: real, var1: real, var2: real, cov: real)
    requires var1 >= 0.0 && var2 >= 0.0
    ensures Index(mu1, mu2, var1, var2, cov) == Index(mu2, mu1, var2, var1, cov)
  {
    assert Times(mu1, mu2) == Times(mu2, mu1);
  }

  lemma EntrySymmetric(taps: seq<Tap>, x: Plane, y: Plane)
    requires |x| == |y| && InPlane(taps, |x|) && Weight(taps) == 1.0
    ensures Entry(taps, x, y) == Entry(taps, y, x)
  {
    assert Mul(x, y) == Mul(y, x);
    VarianceZeroIff(taps, x);
    VarianceZeroIff(taps, y);
    IndexSymmetric(Blur(taps, x), Blur(taps, y), Variance(taps, x), Variance(taps, y), Covariance(taps, x, y));
  }

  lemma {:induction false} SumSymmetric(windows: seq<seq<Tap>>, x: Plane, y: Plane)
    requires |x| == |y| && forall i | 0 <= i < |windows| :: InPlane(windows[i], |x|) && Weight(windows[i]) == 1.0
    ensures SumMap(windows, x, y) == SumMap(windows, y, x)
  {
    if windows == [] {
    } else {
      EntrySymmetric(windows[0], x, y);
      SumSymmetric(windows[1..], x, y);
    }
  }

  /** The order of the frames does not matter. */
  lemma MssimSymmetric(windows: seq<seq<Tap>>, x: Plane, y: Plane)
    requires |x| == |y| && Blurring(windows, |x|)
    ensures Mssim(windows, x, y) == Mssim(windows, y, x)
  {
    SumSymmetric(windows, x, y);
  }

  // ----- All channels -----

  /** A frame: one to four channels of equally many pixels. */
  type Frame = seq<Plane>

  predicate Comparable(i1: Frame, i2: Frame) {
    && 1 <= |i1| == |i2| <= 4
    && forall c | 0 <= c < |i1| :: |i1[c]| == |i2[c]| == |i1[0]|
  }

  /** getMSSIM: OpenCV's Scalar has four entries; channels that the frames lack are 0. */
  ghost function GetMssim(windows: seq<seq<Tap>>, i1: Frame, i2: Frame): (r: seq<real>)
    requires Comparable(i1, i2) && Blurring(windows, |i1[0]|)
    ensures |r| == 4
  {
    seq(4, c requires 0 <= c < 4 => if c < |i1| then Mssim(windows, i1[c], i2[c]) else 0.0)
  }

  /** The value for a channel is that of the channel alone. */
  lemma ChannelAlone(windows: seq<seq<Tap>>, i1: Frame, i2: Frame, c: nat)
    requires Comparable(i1, i2) && Blurring(windows, |i1[0]|) && c < |i1|
    ensures GetMssim(windows, i1, i2)[c] == GetMssim(windows, [i1[c]], [i2[c]])[0]
    ensures GetMssim(windows, i1, i2)[c] == 1.0 <==> i1[c] == i2[c]
  {
    MssimOneIffEqual(windows, i1[c], i2[c]);
  }

  /** Two frames are equal exactly when the MSSIM of each of their channels is 1. */
  lemma FramesEqualIff(windows: seq<seq<Tap>>, i1: Frame, i2: Frame)
    requires Comparable(i1, i2) && Blurring(windows, |i1[0]|)
    ensures i1 == i2 <==> forall c | 0 <= c < |i1| :: GetMssim(windows, i1, i2)[c] == 1.0
    ensures forall c | 0 <= c < 4 :: -1.0 < GetMssim(windows, i1, i2)[c] <= 1.0
    ensures GetMssim(windows, i1, i2) == GetMssim(windows, i2, i1)
  {
    forall c | 0 <= c < |i1|
      ensures -1.0 < GetMssim(windows, i1, i2)[c] <= 1.0
      ensures GetMssim(windows, i1, i2)[c] == 1.0 <==> i1[c] == i2[c]
      ensures GetMssim(windows, i1, i2)[c] == GetMssim(windows, i2, i1)[c]
    {
      MssimBound(windows, i1[c], i2[c]);
      MssimOneIffEqual(windows, i1[c], i2[c]);
      MssimSymmetric(windows, i1[c], i2[c]);
    }
  }
}
