/** The peak signal-to-noise ratio of two 8-bit frames. */
module Psnr {

  type Sample = x: nat | x <= 255

  /** A frame: one to four channels of equally many samples. */
  type Frame = seq<seq<Sample>>

  predicate Comparable(i1: Frame, i2: Frame) {
    && 1 <= |i1| == |i2| <= 4
    && |i1[0]| > 0
    && (forall c | 0 <= c < |i1| :: |i1[c]| == |i2[c]| == |i1[0]|)
  }

  function AbsDiff(a: Sample, b: Sample): Sample {
    if a < b then b - a else a - b
  }

  /** The sum of one channel of the squared difference image. */
  function ChannelError(a: seq<Sample>, b: seq<Sample>): nat
    requires |a| == |b|
  {
    if a == [] then 0 else AbsDiff(a[0], b[0]) * AbsDiff(a[0], b[0]) + ChannelError(a[1..], b[1..])
  }

  /** OpenCV's Scalar has four entries; channels that the frame lacks are 0. */
  function Entry(i1: Frame, i2: Frame, c: nat): nat
    requires Comparable(i1, i2)
  {
    if c < |i1| then ChannelError(i1[c], i2[c]) else 0
  }

  /** Only the first three channels are summed. */
  function Sse(i1: Frame, i2: Frame): nat
    requires Comparable(i1, i2)
  {
    Entry(i1, i2, 0) + Entry(i1, i2, 1) + Entry(i1, i2, 2)
  }

  /** A strictly increasing function that is 0 at 1 and grows by 1 for a factor of ten, as the decimal logarithm
      does. */
  ghost predicate IsLog(log10: real -> real) {
    && log10(1.0) == 0.0
    && (forall x | 0.0 < x :: log10(10.0 * x) == log10(x) + 1.0)
    && forall x, y | 0.0 < x < y :: log10(x) < log10(y)
  }

  function Mse(i1: Frame, i2: Frame): real
    requires Comparable(i1, i2)
  {
    Sse(i1, i2) as real / (|i1| * |i1[0]|) as real
  }

  function Psnr(log10: real -> real, i1: Frame, i2: Frame): real
    requires Comparable(i1, i2)
  {
    if Sse(i1, i2) as real <= 0.0000000001 then 0.0
    else 10.0 * log10(65025.0 / Mse(i1, i2))
  }

  /** The first three channels agree. */
  predicate SameColours(i1: Frame, i2: Frame)
    requires Comparable(i1, i2)
  {
    forall c | 0 <= c < |i1| && c < 3 :: i1[c] == i2[c]
  }

  /** Every sample of the channel is 0 in one frame and 255 in the other. */
  predicate Opposite(a: seq<Sample>, b: seq<Sample>)
    requires |a| == |b|
  {
    forall k | 0 <= k < |a| :: AbsDiff(a[k], b[k]) == 255
  }

  lemma SquareRange(d: Sample)
    ensures 0 <= d * d <= 65025
    ensures d * d == 0 <==> d == 0
    ensures d * d == 65025 <==> d == 255
  {
    if d < 255 {
      assert d * d <= 254 * d <= 254 * 254;
    }
  }

  lemma OppositeUnfold(a: seq<Sample>, b: seq<Sample>)
    requires |a| == |b| > 0
    ensures Opposite(a, b) <==> AbsDiff(a[0], b[0]) == 255 && Opposite(a[1..], b[1..])
  {
    if AbsDiff(a[0], b[0]) == 255 && Opposite(a[1..], b[1..]) {
      forall k | 0 <= k < |a|
        ensures AbsDiff(a[k], b[k]) == 255
      {
        if k > 0 {
          assert AbsDiff(a[1..][k - 1], b[1..][k - 1]) == 255;
        }
      }
    }
  }

  lemma {:induction false} ChannelErrorRange(a: seq<Sample>, b: seq<Sample>)
    requires |a| == |b|
    ensures ChannelError(a, b) <= 65025 * |a|
    ensures ChannelError(a, b) == 0 <==> a == b
    ensures ChannelError(a, b) == 65025 * |a| <==> Opposite(a, b)
  {
    if a == [] {
    } else {
      ChannelErrorRange(a[1..], b[1..]);
      SquareRange(AbsDiff(a[0], b[0]));
      OppositeUnfold(a, b);
      assert a == [a[0]] + a[1..] && b == [b[0]] + b[1..];
    }
  }

  lemma {:induction false} ChannelErrorSymmetric(a: seq<Sample>, b: seq<Sample>)
    requires |a| == |b|
    ensures ChannelError(a, b) == ChannelError(b, a)
  {
    if a == [] {
    } else {
      ChannelErrorSymmetric(a[1..], b[1..]);
    }
  }

  /** The order of the frames does not matter. */
  lemma PsnrSymmetric(log10: real -> real, i1: Frame, i2: Frame)
    requires Comparable(i1, i2)
    ensures Psnr(log10, i1, i2) == Psnr(log10, i2, i1)
  {
    forall c | 0 <= c < |i1| {
      ChannelErrorSymmetric(i1[c], i2[c]);
    }
  }

  lemma EntryRange(i1: Frame, i2: Frame, c: nat)
    requires Comparable(i1, i2) && c < |i1|
    ensures Entry(i1, i2, c) <= 65025 * |i1[0]|
    ensures Entry(i1, i2, c) == 0 <==> i1[c] == i2[c]
    ensures Entry(i1, i2, c) == 65025 * |i1[0]| <==> Opposite(i1[c], i2[c])
  {
    ChannelErrorRange(i1[c], i2[c]);
  }

  lemma SseRange(i1: Frame, i2: Frame)
    requires Comparable(i1, i2)
    ensures Sse(i1, i2) <= 65025 * |i1| * |i1[0]|
    ensures Sse(i1, i2) == 0 <==> SameColours(i1, i2)
    ensures Sse(i1, i2) == 65025 * |i1| * |i1[0]| <==> |i1| <= 3 && forall c | 0 <= c < |i1| :: Opposite(i1[c], i2[c])
  {
    EntryRange(i1, i2, 0);
    if |i1| > 1 {
      EntryRange(i1, i2, 1);
    }
    if |i1| > 2 {
      EntryRange(i1, i2, 2);
    }
  }

  /** The early return is taken exactly when the frames agree in their first three channels. */
  lemma EarlyReturnIffEqual(i1: Frame, i2: Frame)
    requires Comparable(i1, i2)
    ensures Sse(i1, i2) as real <= 0.0000000001 <==> SameColours(i1, i2)
  {
    SseRange(i1, i2);
  }

  lemma QuotientOfMse(sse: nat, samples: nat)
    requires 0 < sse <= 65025 * samples
    ensures samples > 0
    ensures 65025.0 / (sse as real / samples as real) >= 1.0
    ensures 65025.0 / (sse as real / samples as real) == 1.0 <==> sse == 65025 * samples
  {
    var mse := sse as real / samples as real;
    assert mse * samples as real == sse as real;
    assert mse <= 65025.0;
    var q := 65025.0 / mse;
    assert q * mse == 65025.0;
  }

  /** The ratio is never negative. It is 0 for frames that agree, and otherwise exactly for frames of at most
      three channels that differ as much as possible in every sample. */
  lemma PsnrZeroIff(log10: real -> real, i1: Frame, i2: Frame)
    requires Comparable(i1, i2) && IsLog(log10)
    ensures Psnr(log10, i1, i2) >= 0.0
    ensures Psnr(log10, i1, i2) == 0.0 <==>
            SameColours(i1, i2) || (|i1| <= 3 && forall c | 0 <= c < |i1| :: Opposite(i1[c], i2[c]))
  {
    SseRange(i1, i2);
    EarlyReturnIffEqual(i1, i2);
    if !SameColours(i1, i2) {
      QuotientOfMse(Sse(i1, i2), |i1| * |i1[0]|);
    }
  }

  lemma SmallerFactor(x: real, y: real, a: real)
    requires a > 0.0 && x * a < y * a
    ensures x < y
  {
  }

  lemma QuotientDecreases(x: real, y: real, n: real)
    requires 0.0 < x < y && n > 0.0
    ensures 0.0 < 65025.0 / (y / n) < 65025.0 / (x / n)
  {
    var a, b := x / n, y / n;
    assert a * n == x && b * n == y;
    assert a < b;
    var p, q := 65025.0 / a, 65025.0 / b;
    assert p * a == 65025.0 == q * b;
    assert q > 0.0;
    assert q * a < q * b;
    SmallerFactor(q, p, a);
  }

  /** Of two frames compared with the same reference, the one with the larger squared error has the smaller
      ratio, as long as neither equals the reference. */
  lemma PsnrDecreases(log10: real -> real, reference: Frame, i1: Frame, i2: Frame)
    requires IsLog(log10) && Comparable(reference, i1) && Comparable(reference, i2)
    requires 0 < Sse(reference, i1) < Sse(reference, i2)
    ensures Psnr(log10, reference, i1) > Psnr(log10, reference, i2)
  {
    var n := |reference| * |reference[0]|;
    QuotientDecreases(Sse(reference, i1) as real, Sse(reference, i2) as real, n as real);
  }

  lemma TenthOfError(x: real, n: real)
    requires x > 0.0 && n > 0.0
    ensures 65025.0 / (x / n) > 0.0
    ensures 65025.0 / (x / n) == 10.0 * (65025.0 / (10.0 * x / n))
  {
    var a, b := x / n, 10.0 * x / n;
    assert a * n == x && b * n == 10.0 * x;
    assert b == 10.0 * a;
    var p, q := 65025.0 / a, 65025.0 / b;
    assert p * a == 65025.0 && q * b == 65025.0;
    assert (p - 10.0 * q) * a == 0.0;
  }

  /** A tenth of the squared error is worth ten decibels. */
  lemma PsnrTenth(log10: real -> real, reference: Frame, i1: Frame, i2: Frame)
    requires IsLog(log10) && Comparable(reference, i1) && Comparable(reference, i2)
    requires Sse(reference, i2) == 10 * Sse(reference, i1) > 0
    ensures Psnr(log10, reference, i1) == Psnr(log10, reference, i2) + 10.0
  {
    TenthOfError(Sse(reference, i1) as real, (|reference| * |reference[0]|) as real);
  }

  /** The squared error of a channel is that of its parts. */
  lemma {:induction false} ChannelErrorConcat(a: seq<Sample>, b: seq<Sample>, c: seq<Sample>, d: seq<Sample>)
    requires |a| == |b| && |c| == |d|
    ensures ChannelError(a + c, b + d) == ChannelError(a, b) + ChannelError(c, d)
  {
    if a == [] {
      assert a + c == c && b + d == d;
    } else {
      assert (a + c)[1..] == a[1..] + c && (b + d)[1..] == b[1..] + d;
      ChannelErrorConcat(a[1..], b[1..], c, d);
    }
  }

  /** Every sample of the channel differs by d. */
  predicate DiffersBy(a: seq<Sample>, b: seq<Sample>, d: Sample)
    requires |a| == |b|
  {
    forall k | 0 <= k < |a| :: a[k] == b[k] + d || b[k] == a[k] + d
  }

  lemma OneMore(e: nat, n: nat)
    ensures e * (n + 1) == e + e * n
  {
  }

  lemma {:induction false} UniformError(a: seq<Sample>, b: seq<Sample>, d: Sample)
    requires |a| == |b| && DiffersBy(a, b, d)
    ensures ChannelError(a, b) == d * d * |a|
  {
    if a == [] {
    } else {
      assert forall k | 0 <= k < |a| - 1 :: a[1..][k] == a[k + 1] && b[1..][k] == b[k + 1];
      UniformError(a[1..], b[1..], d);
      assert AbsDiff(a[0], b[0]) == d;
      OneMore(d * d, |a| - 1);
    }
  }

  lemma MseOfUniform(sse: nat, summed: nat, channels: nat, n: nat)
    requires channels > 0 && n > 0 && sse == summed * n
    ensures channels * n > 0 && sse as real / (channels * n) as real == summed as real / channels as real
  {
    var q := summed as real / channels as real;
    assert q * channels as real == summed as real;
    assert q * (channels * n) as real == summed as real * n as real;
  }

  lemma Multiples(e: nat, n: nat)
    ensures 2 * e * n == e * n + e * n
    ensures 3 * e * n == e * n + e * n + e * n
  {
  }

  /** How many of a frame's channels are summed. */
  function Summed(channels: nat): nat {
    if channels > 3 then 3 else channels
  }

  lemma SseOfUniform(i1: Frame, i2: Frame, d: Sample)
    requires Comparable(i1, i2) && forall c | 0 <= c < |i1| :: DiffersBy(i1[c], i2[c], d)
    ensures Sse(i1, i2) == Summed(|i1|) * (d * d) * |i1[0]|
  {
    forall c | 0 <= c < |i1| {
      UniformError(i1[c], i2[c], d);
    }
    Multiples(d * d, |i1[0]|);
  }

  /** The ratio of frames that differ by d in every sample; the mean is over all channels, the sum over three. */
  lemma PsnrOfUniform(log10: real -> real, i1: Frame, i2: Frame, d: Sample)
    requires Comparable(i1, i2) && d > 0 && forall c | 0 <= c < |i1| :: DiffersBy(i1[c], i2[c], d)
    ensures (Summed(|i1|) * (d * d)) as real / |i1| as real > 0.0
    ensures Psnr(log10, i1, i2)
            == 10.0 * log10((255 * 255) as real / ((Summed(|i1|) * (d * d)) as real / |i1| as real))
  {
    SquareRange(d);
    var summed := Summed(|i1|) * (d * d);
    SseOfUniform(i1, i2, d);
    assert summed > 0 && Sse(i1, i2) > 0 by {
      EarlyReturnIffEqual(i1, i2);
      assert i1[0][0] != i2[0][0];
    }
    MseOfUniform(Sse(i1, i2), summed, |i1|, |i1[0]|);
  }
}
