/** Histogram density estimation: equidistant break points around the data
    range, bin "midpoints", counts of sorted samples in half-open bins, and the
    counts normalised to a density. */
module HistogramDensity {
  import opened Wrappers

  /** The exceptions the estimator throws. */
  datatype HistogramError =
    | NonPositiveBinWidth
    | BinWidthNotSet
    | TooManyBins
    | CountSumMismatch
    | EndpointBinsNotEmpty
    | CountsTooLong

  /** The parameter object; only a bin width is used, and it may be unset. */
  datatype DensityEstimationParameters = DensityEstimationParameters(binWidth: Option<real>)

  /** The points the density curve is interpolated through. */
  datatype Histogram = Histogram(midpoints: seq<real>, density: seq<real>)

  /** Largest number of bins handed to the spline interpolation. */
  const MaxBinNumber: int := 25000

  /** Every pair in order: the form std::sort promises and the counting relies on for samples. */
  predicate Sorted(s: seq<real>) {
    forall p, q :: 0 <= p < q < |s| ==> s[p] <= s[q]
  }

  /**
   * Every neighbouring pair in order: the form equidistant breaks satisfy
   * directly, cheaper to establish than Sorted and equivalent to it.
   */
  predicate NonDecreasing(s: seq<real>) {
    forall k :: 0 <= k < |s| - 1 ==> s[k] <= s[k + 1]
  }

  /** The neighbour-wise and the pair-wise order are the same property. */
  lemma {:induction false} NonDecreasingIffSorted(s: seq<real>)
    ensures NonDecreasing(s) <==> Sorted(s)
  {
    if NonDecreasing(s) && |s| > 1 {
      NonDecreasingIffSorted(s[1..]);
      assert NonDecreasing(s[1..]) by {
        forall k | 0 <= k < |s| - 2 ensures s[1..][k] <= s[1..][k + 1] {
          assert s[1..][k] == s[k + 1] && s[1..][k + 1] == s[k + 2];
        }
      }
      forall p, q | 0 <= p < q < |s| ensures s[p] <= s[q] {
        if p > 0 {
          assert s[1..][p - 1] <= s[1..][q - 1];
        } else {
          assert s[1..][0] <= s[1..][q - 1];
        }
      }
    }
  }

  /*
   * Break points.
   */

  /** The k-th break point of a range starting at lo, for bin width w. */
  function BreakAt(lo: real, w: real, k: nat): real {
    lo - 1.5 * w + (k as real) * w
  }

  /** The defining properties of the break points of [lo, hi] for bin width w. */
  predicate IsBreaks(b: seq<real>, lo: real, hi: real, w: real) {
    && |b| >= 1
    && b[0] == lo - 1.5 * w
    && (forall k :: 0 <= k < |b| - 1 ==> b[k + 1] == b[k] + w)
    && (forall k :: 0 <= k < |b| - 1 ==> b[k] <= hi + 1.5 * w)
    && b[|b| - 1] > hi + 1.5 * w
  }

  /** The number of steps until a break point lies above hi + 1.5 w. */
  function BreakSteps(lo: real, hi: real, w: real): nat
    requires w > 0.0
  {
    var q := (hi - lo) / w + 3.0;
    if q < 0.0 then 0 else q.Floor + 1
  }

  /** The break points in closed form. */
  function Breaks(lo: real, hi: real, w: real): seq<real>
    requires w > 0.0
  {
    seq(BreakSteps(lo, hi, w) + 1, k requires 0 <= k => BreakAt(lo, w, k))
  }

  /** A break point at or below hi + 1.5 w comes before the last step. */
  lemma BelowBoundBeforeLastStep(lo: real, hi: real, w: real, k: nat)
    requires w > 0.0
    requires BreakAt(lo, w, k) <= hi + 1.5 * w
    ensures k < BreakSteps(lo, hi, w)
  {
    var q := (hi - lo) / w + 3.0;
    assert (k as real) * w <= q * w;
    assert (k as real) <= q;
    assert k <= q.Floor;
  }

  /** The break point after the last step lies above hi + 1.5 w. */
  lemma LastStepAboveBound(lo: real, hi: real, w: real)
    requires w > 0.0
    ensures BreakAt(lo, w, BreakSteps(lo, hi, w)) > hi + 1.5 * w
  {
    var q := (hi - lo) / w + 3.0;
    var n := BreakSteps(lo, hi, w);
    assert (n as real) > q;
    assert (n as real) * w > q * w;
  }

  /** The closed form has the defining properties. */
  lemma BreaksAreBreaks(lo: real, hi: real, w: real)
    requires w > 0.0
    ensures IsBreaks(Breaks(lo, hi, w), lo, hi, w)
  {
    var b := Breaks(lo, hi, w);
    var n := BreakSteps(lo, hi, w);
    LastStepAboveBound(lo, hi, w);
    BelowOrAbove(lo, hi, w);
    forall k | 0 <= k < |b| - 1 ensures b[k + 1] == b[k] + w {
      BreakAtStep(lo, w, k);
    }
    forall k | 0 <= k < |b| - 1 ensures b[k] <= hi + 1.5 * w {
      BreakAtMonotone(lo, w, k, n - 1);
    }
  }

  lemma BreakAtStep(lo: real, w: real, k: nat)
    ensures BreakAt(lo, w, k + 1) == BreakAt(lo, w, k) + w
  {
    assert ((k + 1) as real) * w == (k as real) * w + w;
  }

  lemma BreakAtMonotone(lo: real, w: real, j: nat, k: nat)
    requires w > 0.0 && j <= k
    ensures BreakAt(lo, w, j) <= BreakAt(lo, w, k)
  {
    assert (j as real) * w <= (k as real) * w;
  }

  /** The break point one step before the last is at or below hi + 1.5 w. */
  lemma BelowOrAbove(lo: real, hi: real, w: real)
    requires w > 0.0
    ensures BreakSteps(lo, hi, w) > 0 ==> BreakAt(lo, w, BreakSteps(lo, hi, w) - 1) <= hi + 1.5 * w
  {
    var q := (hi - lo) / w + 3.0;
    var n := BreakSteps(lo, hi, w);
    if n > 0 {
      assert ((n - 1) as real) <= q;
      assert ((n - 1) as real) * w <= q * w;
    }
  }

  /** The defining properties determine the break points: they are the closed form. */
  lemma {:induction false} BreaksUnique(b: seq<real>, lo: real, hi: real, w: real)
    requires w > 0.0
    requires IsBreaks(b, lo, hi, w)
    ensures b == Breaks(lo, hi, w)
  {
    BreaksFollowBreakAt(b, lo, w, |b| - 1);
    var n := BreakSteps(lo, hi, w);
    if |b| - 1 < n {
      BelowOrAbove(lo, hi, w);
      BreakAtMonotone(lo, w, |b| - 1, n - 1);
    } else if |b| - 1 > n {
      BreaksFollowBreakAt(b, lo, w, n);
      LastStepAboveBound(lo, hi, w);
    }
    forall k | 0 <= k < |b| ensures b[k] == Breaks(lo, hi, w)[k] {
      BreaksFollowBreakAt(b, lo, w, k);
    }
  }

  lemma {:induction false} BreaksFollowBreakAt(b: seq<real>, lo: real, w: real, k: nat)
    requires |b| >= 1 && b[0] == lo - 1.5 * w
    requires forall j :: 0 <= j < |b| - 1 ==> b[j + 1] == b[j] + w
    requires k < |b|
    ensures b[k] == BreakAt(lo, w, k)
  {
    if k > 0 {
      BreaksFollowBreakAt(b, lo, w, k - 1);
    }
  }

  /** The "midpoints": each break point shifted up by one bin width. */
  function Midpoints(breaks: seq<real>, w: real): seq<real>
    requires |breaks| >= 1
  {
    seq(|breaks| - 1, i requires 0 <= i < |breaks| - 1 => breaks[i] + w)
  }

  /**
   * For equidistant breaks the "midpoint" of bin i is its upper break point,
   * half a bin width above the bin's centre.
   */
  lemma MidpointsAreUpperBreaks(b: seq<real>, lo: real, hi: real, w: real)
    requires IsBreaks(b, lo, hi, w)
    ensures |Midpoints(b, w)| == |b| - 1
    ensures forall i :: 0 <= i < |b| - 1 ==> Midpoints(b, w)[i] == b[i + 1]
    ensures forall i :: 0 <= i < |b| - 1 ==> Midpoints(b, w)[i] == (b[i] + b[i + 1]) / 2.0 + w / 2.0
  {
  }

  /*
   * Counting.
   */

  /** First position at or after `from` whose sample exceeds v (std::upper_bound on sorted data). */
  function UpperBound(s: seq<real>, from: nat, v: real): (r: nat)
    requires from <= |s|
    ensures from <= r <= |s|
    ensures forall j :: from <= j < r ==> s[j] <= v
    ensures r < |s| ==> s[r] > v
    decreases |s| - from
  {
    if from == |s| then from
    else if s[from] > v then from
    else UpperBound(s, from + 1, v)
  }

  /**
   * The counts of the counting loop: each bin's lower bound is searched from
   * the previous bin's lower bound, its upper bound from its own lower bound.
   */
  function ScanCounts(s: seq<real>, breaks: seq<real>, from: nat): (c: seq<int>)
    requires from <= |s|
    ensures |breaks| >= 1 ==> |c| == |breaks| - 1
    decreases |breaks|
  {
    if |breaks| < 2 then []
    else
      var lo := UpperBound(s, from, breaks[0]);
      var hi := UpperBound(s, lo, breaks[1]);
      [hi - lo] + ScanCounts(s, breaks[1..], lo)
  }

  /** Number of samples x with a < x <= b. */
  function CountIn(s: seq<real>, a: real, b: real): nat {
    if s == [] then 0
    else (if a < s[0] <= b then 1 else 0) + CountIn(s[1..], a, b)
  }

  /** Number of samples x with x <= v. */
  function CountAtMost(s: seq<real>, v: real): nat {
    if s == [] then 0
    else (if s[0] <= v then 1 else 0) + CountAtMost(s[1..], v)
  }

  function Sum(c: seq<int>): int {
    if c == [] then 0 else c[0] + Sum(c[1..])
  }

  function RealSum(d: seq<real>): real {
    if d == [] then 0.0 else d[0] + RealSum(d[1..])
  }

  /** Each count divided by the number of samples. */
  function Normalise(counts: seq<int>, n: nat): seq<real>
    requires n > 0
  {
    seq(|counts|, i requires 0 <= i < |counts| => counts[i] as real / n as real)
  }

  /** Each value multiplied by a factor. */
  function Scale(d: seq<real>, f: real): seq<real> {
    seq(|d|, i requires 0 <= i < |d| => d[i] * f)
  }

  /** The histogram the estimator builds for sorted samples. */
  function HistogramOf(s: seq<real>, w: real): Histogram
    requires |s| > 0 && w > 0.0
  {
    var breaks := Breaks(s[0], s[|s| - 1], w);
    Histogram(Midpoints(breaks, w), Scale(Normalise(ScanCounts(s, breaks, 0), |s|), 1.0 / w))
  }

  /** The upper bound searched from anywhere before it is the upper bound searched from the start. */
  lemma UpperBoundFrom(s: seq<real>, from: nat, v: real)
    requires from <= UpperBound(s, 0, v)
    ensures UpperBound(s, from, v) == UpperBound(s, 0, v)
  {
  }

  /** The upper bound grows with the value. */
  lemma UpperBoundMonotone(s: seq<real>, v1: real, v2: real)
    requires v1 <= v2
    ensures UpperBound(s, 0, v1) <= UpperBound(s, 0, v2)
  {
  }

  /**
   * For non-decreasing breaks, the counting loop's searches agree with
   * searches from the start, so bin i counts the samples between the upper
   * bounds of its two break points.
   */
  lemma {:induction false} ScanCountsDifferences(s: seq<real>, breaks: seq<real>, from: nat)
    requires |breaks| >= 2 && NonDecreasing(breaks)
    requires from <= UpperBound(s, 0, breaks[0])
    ensures forall i :: 0 <= i < |breaks| - 1 ==>
              ScanCounts(s, breaks, from)[i] == UpperBound(s, 0, breaks[i + 1]) - UpperBound(s, 0, breaks[i])
    ensures Sum(ScanCounts(s, breaks, from)) == UpperBound(s, 0, breaks[|breaks| - 1]) - UpperBound(s, 0, breaks[0])
    decreases |breaks|
  {
    forall i | 0 <= i < |breaks| - 1
      ensures ScanCounts(s, breaks, from)[i] == UpperBound(s, 0, breaks[i + 1]) - UpperBound(s, 0, breaks[i])
    {
      ScanCountsAt(s, breaks, from, i);
    }
    ScanCountsSum(s, breaks, from);
  }

  /** Bin i of the scan counts the samples between the upper bounds of its two break points. */
  lemma {:induction false} ScanCountsAt(s: seq<real>, breaks: seq<real>, from: nat, i: nat)
    requires |breaks| >= 2 && NonDecreasing(breaks)
    requires from <= UpperBound(s, 0, breaks[0])
    requires i < |breaks| - 1
    ensures ScanCounts(s, breaks, from)[i] == UpperBound(s, 0, breaks[i + 1]) - UpperBound(s, 0, breaks[i])
    decreases i
  {
    ScanCountsHead(s, breaks, from);
    if i > 0 {
      var tail := breaks[1..];
      NonDecreasingTail(breaks);
      ScanCountsAt(s, tail, UpperBound(s, 0, breaks[0]), i - 1);
      assert tail[i - 1] == breaks[i] && tail[i] == breaks[i + 1];
    }
  }

  /** The scan counts add up to the samples between the first and the last break point. */
  lemma {:induction false} ScanCountsSum(s: seq<real>, breaks: seq<real>, from: nat)
    requires |breaks| >= 2 && NonDecreasing(breaks)
    requires from <= UpperBound(s, 0, breaks[0])
    ensures Sum(ScanCounts(s, breaks, from)) == UpperBound(s, 0, breaks[|breaks| - 1]) - UpperBound(s, 0, breaks[0])
    decreases |breaks|
  {
    ScanCountsHead(s, breaks, from);
    var c := ScanCounts(s, breaks, from);
    var rest := ScanCounts(s, breaks[1..], UpperBound(s, 0, breaks[0]));
    assert c[1..] == rest;
    if |breaks| > 2 {
      var tail := breaks[1..];
      NonDecreasingTail(breaks);
      ScanCountsSum(s, tail, UpperBound(s, 0, breaks[0]));
      assert tail[0] == breaks[1] && tail[|tail| - 1] == breaks[|breaks| - 1];
    }
  }

  lemma NonDecreasingTail(b: seq<real>)
    requires |b| >= 1 && NonDecreasing(b)
    ensures NonDecreasing(b[1..])
  {
    forall k | 0 <= k < |b| - 2 ensures b[1..][k] <= b[1..][k + 1] {
      assert b[1..][k] == b[k + 1] && b[1..][k + 1] == b[k + 2];
    }
  }

  /** The first step of the scan: its lower bound is the one searched from the start. */
  lemma ScanCountsHead(s: seq<real>, breaks: seq<real>, from: nat)
    requires |breaks| >= 2 && breaks[0] <= breaks[1]
    requires from <= UpperBound(s, 0, breaks[0])
    ensures UpperBound(s, from, breaks[0]) == UpperBound(s, 0, breaks[0]) <= UpperBound(s, 0, breaks[1])
    ensures ScanCounts(s, breaks, from)
         == [UpperBound(s, 0, breaks[1]) - UpperBound(s, 0, breaks[0])]
            + ScanCounts(s, breaks[1..], UpperBound(s, 0, breaks[0]))
  {
    UpperBoundFrom(s, from, breaks[0]);
    var lo := UpperBound(s, from, breaks[0]);
    UpperBoundMonotone(s, breaks[0], breaks[1]);
    UpperBoundFrom(s, lo, breaks[1]);
  }

  /** For sorted samples the upper bound of v is the number of samples at most v. */
  lemma {:induction false} UpperBoundCounts(s: seq<real>, v: real)
    requires Sorted(s)
    ensures UpperBound(s, 0, v) == CountAtMost(s, v)
  {
    var g := UpperBound(s, 0, v);
    forall j | g <= j < |s| ensures s[j] > v {
      assert s[g] <= s[j];
    }
    CountAtMostSplit(s, v, g);
  }

  lemma {:induction false} CountAtMostSplit(s: seq<real>, v: real, g: nat)
    requires g <= |s|
    requires forall j :: 0 <= j < g ==> s[j] <= v
    requires forall j :: g <= j < |s| ==> s[j] > v
    ensures CountAtMost(s, v) == g
  {
    if s != [] {
      if g == 0 {
        CountAtMostSplit(s[1..], v, 0);
      } else {
        CountAtMostSplit(s[1..], v, g - 1);
      }
    }
  }

  /** With a <= b, the samples in (a, b] are those at most b less those at most a. */
  lemma {:induction false} CountInDifference(s: seq<real>, a: real, b: real)
    requires a <= b
    ensures CountIn(s, a, b) == CountAtMost(s, b) - CountAtMost(s, a)
    ensures CountAtMost(s, a) <= CountAtMost(s, b)
  {
    if s != [] {
      CountInDifference(s[1..], a, b);
    }
  }

  /**
   * For sorted samples and non-decreasing breaks, count i of the counting loop
   * is the number of samples x with breaks[i] < x <= breaks[i + 1].
   */
  lemma ScanCountsAreBinCounts(s: seq<real>, breaks: seq<real>)
    requires Sorted(s) && NonDecreasing(breaks) && |breaks| >= 2
    ensures forall i :: 0 <= i < |breaks| - 1 ==> ScanCounts(s, breaks, 0)[i] == CountIn(s, breaks[i], breaks[i + 1])
  {
    ScanCountsDifferences(s, breaks, 0);
    forall i | 0 <= i < |breaks| - 1 ensures ScanCounts(s, breaks, 0)[i] == CountIn(s, breaks[i], breaks[i + 1]) {
      UpperBoundCounts(s, breaks[i]);
      UpperBoundCounts(s, breaks[i + 1]);
      CountInDifference(s, breaks[i], breaks[i + 1]);
    }
  }

  /** For a positive width the break points are in non-decreasing order. */
  lemma BreaksNonDecreasing(b: seq<real>, lo: real, hi: real, w: real)
    requires w > 0.0 && IsBreaks(b, lo, hi, w)
    ensures NonDecreasing(b)
  {
  }

  /**
   * When the breaks span the minimum and maximum of non-empty sorted samples,
   * the counts add up to the number of samples and both end bins are empty:
   * the two sanity checks of the counting step never fire.
   */
  lemma {:induction false} CountsOfDataBreaks(s: seq<real>, w: real)
    requires |s| > 0 && Sorted(s) && w > 0.0
    ensures var breaks := Breaks(s[0], s[|s| - 1], w);
            var c := ScanCounts(s, breaks, 0);
            && |breaks| >= 3
            && Sum(c) == |s|
            && c[0] == 0
            && c[|c| - 1] == 0
  {
    var lo, hi := s[0], s[|s| - 1];
    var b := Breaks(lo, hi, w);
    BreaksAreBreaks(lo, hi, w);
    assert lo <= hi;
    assert b[1] == b[0] + w;
    var m := |b| - 1;
    assert b[1] <= hi + 1.5 * w;
    assert m >= 2;
    ScanCountsDifferences(s, b, 0);
    // no sample lies at or below the first two break points
    assert UpperBound(s, 0, b[0]) == 0 by { assert s[0] > b[0]; }
    assert UpperBound(s, 0, b[1]) == 0 by { assert s[0] > b[1]; }
    // every sample lies at or below the last two break points
    assert b[m - 1] == b[m] - w;
    forall j | 0 <= j < |s| ensures s[j] <= b[m - 1] {
      assert s[j] <= s[|s| - 1];
    }
    assert UpperBound(s, 0, b[m - 1]) == |s|;
    assert UpperBound(s, 0, b[m]) == |s|;
  }

  lemma {:induction false} RealSumNormalise(counts: seq<int>, n: nat)
    requires n > 0
    ensures RealSum(Normalise(counts, n)) == Sum(counts) as real / n as real
  {
    if counts != [] {
      RealSumNormalise(counts[1..], n);
      assert Normalise(counts, n)[1..] == Normalise(counts[1..], n);
    }
  }

  lemma {:induction false} RealSumScale(d: seq<real>, f: real)
    ensures RealSum(Scale(d, f)) == RealSum(d) * f
  {
    if d != [] {
      ScaleTail(d, f);
      RealSumScale(d[1..], f);
      Distribute(d[0], RealSum(d[1..]), f);
    }
  }

  lemma ScaleTail(d: seq<real>, f: real)
    requires d != []
    ensures Scale(d, f)[1..] == Scale(d[1..], f)
  {
    forall i | 0 <= i < |d| - 1 ensures Scale(d, f)[1..][i] == Scale(d[1..], f)[i] {
      assert Scale(d, f)[1..][i] == d[i + 1] * f;
    }
  }

  lemma Distribute(x: real, y: real, f: real)
    ensures x * f + y * f == (x + y) * f
  {
  }

  /** The histogram has one density value per midpoint, one per bin. */
  lemma HistogramShape(s: seq<real>, w: real)
    requires |s| > 0 && w > 0.0
    ensures var h := HistogramOf(s, w);
            |h.midpoints| == |h.density| == |Breaks(s[0], s[|s| - 1], w)| - 1
  {
  }

  /**
   * The density of bin i is the share of samples x with
   * breaks[i] < x <= breaks[i + 1], divided by the bin width.
   */
  lemma HistogramBinDensity(s: seq<real>, w: real, i: nat)
    requires |s| > 0 && Sorted(s) && w > 0.0
    requires i < |Breaks(s[0], s[|s| - 1], w)| - 1
    ensures var h := HistogramOf(s, w);
            var breaks := Breaks(s[0], s[|s| - 1], w);
            i < |h.density| &&
            h.density[i] == (CountIn(s, breaks[i], breaks[i + 1]) as real / |s| as real) * (1.0 / w)
  {
    var breaks := Breaks(s[0], s[|s| - 1], w);
    BreaksOrdered(s[0], s[|s| - 1], w);
    ScanCountsAreBinCounts(s, breaks);
    DensityAt(ScanCounts(s, breaks, 0), |s|, w, i);
  }

  /** For a positive width the break points are in non-decreasing order. */
  lemma BreaksOrdered(lo: real, hi: real, w: real)
    requires w > 0.0
    ensures NonDecreasing(Breaks(lo, hi, w))
  {
    BreaksAreBreaks(lo, hi, w);
    BreaksNonDecreasing(Breaks(lo, hi, w), lo, hi, w);
  }

  /** Entry i of the scaled, normalised counts. */
  lemma DensityAt(c: seq<int>, n: nat, w: real, i: nat)
    requires n > 0 && w > 0.0 && i < |c|
    ensures Scale(Normalise(c, n), 1.0 / w)[i] == (c[i] as real / n as real) * (1.0 / w)
  {
    assert Normalise(c, n)[i] == c[i] as real / n as real;
  }

  /** Both end bins of the histogram are empty. */
  lemma HistogramEndsEmpty(s: seq<real>, w: real)
    requires |s| > 0 && Sorted(s) && w > 0.0
    ensures var h := HistogramOf(s, w);
            |h.density| >= 2 && h.density[0] == 0.0 && h.density[|h.density| - 1] == 0.0
  {
    CountsOfDataBreaks(s, w);
  }

  /** The densities times the bin width add up to one: the histogram integrates to one. */
  lemma HistogramIntegratesToOne(s: seq<real>, w: real)
    requires |s| > 0 && Sorted(s) && w > 0.0
    ensures RealSum(HistogramOf(s, w).density) * w == 1.0
  {
    var breaks := Breaks(s[0], s[|s| - 1], w);
    var c := ScanCounts(s, breaks, 0);
    CountsOfDataBreaks(s, w);
    DensitySumFromCounts(c, |s|, w);
  }

  lemma DensitySumFromCounts(c: seq<int>, n: nat, w: real)
    requires n > 0 && Sum(c) == n && w > 0.0
    ensures RealSum(Scale(Normalise(c, n), 1.0 / w)) * w == 1.0
  {
    RealSumNormalise(c, n);
    UnitSumScaled(Normalise(c, n), w);
  }

  lemma UnitSumScaled(d: seq<real>, w: real)
    requires RealSum(d) == 1.0 && w > 0.0
    ensures RealSum(Scale(d, 1.0 / w)) * w == 1.0
  {
    RealSumScale(d, 1.0 / w);
    assert RealSum(Scale(d, 1.0 / w)) == 1.0 / w;
  }

  /** Exchanges two elements of an array. */
  method Swap(a: array<real>, i: int, j: int)
    requires 0 <= i < a.Length && 0 <= j < a.Length
    modifies a
    ensures a[i] == old(a[j]) && a[j] == old(a[i])
    ensures forall k :: 0 <= k < a.Length && k != i && k != j ==> a[k] == old(a[k])
    ensures multiset(a[..]) == multiset(old(a[..]))
  {
    a[i], a[j] := a[j], a[i];
  }

  /** Sorts the samples in place (insertion sort standing in for std::sort). */
  method SortSamples(a: array<real>)
    modifies a
    ensures Sorted(a[..])
    ensures multiset(a[..]) == multiset(old(a[..]))
  {
    if a.Length == 0 {
      return;
    }
    var i := 1;
    while i < a.Length
      invariant 1 <= i <= a.Length
      invariant forall p, q :: 0 <= p < q < i ==> a[p] <= a[q]
      invariant multiset(a[..]) == multiset(old(a[..]))
    {
      var j := i;
      while j > 0 && a[j - 1] > a[j]
        invariant 0 <= j <= i < a.Length
        invariant forall p, q :: 0 <= p < q <= i && p != j && q != j ==> a[p] <= a[q]
        invariant forall q :: j < q <= i ==> a[j] < a[q]
        invariant multiset(a[..]) == multiset(old(a[..]))
      {
        Swap(a, j - 1, j);
        j := j - 1;
      }
      i := i + 1;
    }
  }

  class HistogramDensityEstimator {
    var binWidth: real

    /** A fresh estimator has bin width zero, so it cannot estimate until one is set. */
    constructor ()
      ensures binWidth == 0.0
    {
      binWidth := 0.0;
    }

    method SetBinWidth(w: real) returns (r: Outcome<HistogramError>)
      modifies this
      ensures w <= 0.0 ==> r == Fail(NonPositiveBinWidth) && binWidth == old(binWidth)
      ensures w > 0.0 ==> r == Pass && binWidth == w
    {
      if w <= 0.0 {
        return Fail(NonPositiveBinWidth);
      }
      binWidth := w;
      r := Pass;
    }

    method SetParameters(params: DensityEstimationParameters) returns (r: Outcome<HistogramError>)
      modifies this
      ensures params.binWidth.None? ==> r == Fail(BinWidthNotSet) && binWidth == old(binWidth)
      ensures params.binWidth.Some? && params.binWidth.value <= 0.0 ==>
                r == Fail(NonPositiveBinWidth) && binWidth == old(binWidth)
      ensures params.binWidth.Some? && params.binWidth.value > 0.0 ==>
                r == Pass && binWidth == params.binWidth.value
    {
      if params.binWidth.Some? {
        r := SetBinWidth(params.binWidth.value);
      } else {
        r := Fail(BinWidthNotSet);
      }
    }

    /** Break points from 1.5 bin widths below lo until one lies above hi + 1.5 bin widths. */
    method CreateBreaks(lo: real, hi: real) returns (breaks: seq<real>)
      requires binWidth > 0.0
      ensures IsBreaks(breaks, lo, hi, binWidth)
    {
      var halfBinWidth := 0.5 * binWidth;
      var breaksLo := lo - 3.0 * halfBinWidth;
      breaks := [breaksLo];
      while breaks[|breaks| - 1] <= hi + 3.0 * halfBinWidth
        invariant |breaks| >= 1 && breaks[0] == lo - 1.5 * binWidth
        invariant forall k :: 0 <= k < |breaks| - 1 ==> breaks[k + 1] == breaks[k] + binWidth
        invariant forall k :: 0 <= k < |breaks| - 1 ==> breaks[k] <= hi + 1.5 * binWidth
        invariant breaks[|breaks| - 1] == BreakAt(lo, binWidth, |breaks| - 1)
        invariant |breaks| - 1 <= BreakSteps(lo, hi, binWidth)
        decreases BreakSteps(lo, hi, binWidth) - (|breaks| - 1)
      {
        BelowBoundBeforeLastStep(lo, hi, binWidth, |breaks| - 1);
        BreakAtStep(lo, binWidth, |breaks| - 1);
        breaks := breaks + [breaks[|breaks| - 1] + binWidth];
      }
    }

    /**
     * The counting loop: each bin's lower bound is searched from the previous
     * lower bound, its upper bound from its own lower bound.
     */
    static method CountPerBin(samples: seq<real>, breaks: seq<real>) returns (counts: seq<int>)
      requires |breaks| >= 1
      ensures counts == ScanCounts(samples, breaks, 0)
    {
      counts := [];
      var boundLo := 0;
      var boundHi := |samples|;
      var i := 0;
      while i < |breaks| - 1
        invariant 0 <= i <= |breaks| - 1
        invariant 0 <= boundLo <= |samples|
        invariant counts + ScanCounts(samples, breaks[i..], boundLo) == ScanCounts(samples, breaks, 0)
      {
        ghost var rest := ScanCounts(samples, breaks[i..], boundLo);
        assert breaks[i..][0] == breaks[i] && breaks[i..][1] == breaks[i + 1];
        assert breaks[i..][1..] == breaks[i + 1..];
        boundLo := UpperBound(samples, boundLo, breaks[i]);
        boundHi := UpperBound(samples, boundLo, breaks[i + 1]);
        assert rest == [boundHi - boundLo] + ScanCounts(samples, breaks[i + 1..], boundLo);
        counts := counts + [boundHi - boundLo];
        i := i + 1;
      }
    }

    /**
     * Counts the sorted samples per bin and divides by the number of samples;
     * fails when there are no breaks (the count vector's reservation of
     * size - 1 wraps around), when the counts do not add up to the number of
     * samples or when an end bin is not empty.
     */
    static method CalculateDensity(samples: seq<real>, breaks: seq<real>) returns (r: Result<seq<real>, HistogramError>)
      requires Sorted(samples) && |samples| > 0
      ensures |breaks| == 0 ==> r == Failure(CountsTooLong)
      ensures |breaks| >= 1 ==>
              var c := ScanCounts(samples, breaks, 0);
              && (Sum(c) != |samples| ==> r == Failure(CountSumMismatch))
              && (Sum(c) == |samples| && (c[0] != 0 || c[|c| - 1] != 0) ==> r == Failure(EndpointBinsNotEmpty))
              && (Sum(c) == |samples| && c[0] == 0 && c[|c| - 1] == 0 ==> r == Success(Normalise(c, |samples|)))
    {
      if |breaks| == 0 {
        return Failure(CountsTooLong);
      }
      var counts := CountPerBin(samples, breaks);
      var sum := Sum(counts);
      if sum != |samples| {
        return Failure(CountSumMismatch);
      }
      if counts[0] != 0 || counts[|counts| - 1] != 0 {
        return Failure(EndpointBinsNotEmpty);
      }
      var density := seq(|counts|, k requires 0 <= k < |counts| => counts[k] as real / sum as real);
      r := Success(density);
    }

    /**
     * Sorts the samples in place and builds the histogram: its midpoints and
     * its density scaled by the inverse bin width. Fails on a non-positive bin
     * width (before sorting) and when there would be too many bins.
     */
    method Estimate(samples: array<real>) returns (r: Result<Histogram, HistogramError>)
      requires binWidth > 0.0 ==> samples.Length > 0
      modifies samples
      ensures binWidth <= 0.0 ==> r == Failure(NonPositiveBinWidth) && samples[..] == old(samples[..])
      ensures binWidth > 0.0 ==> Sorted(samples[..]) && multiset(samples[..]) == multiset(old(samples[..]))
      ensures binWidth > 0.0 ==>
                var s := samples[..];
                var breaks := Breaks(s[0], s[|s| - 1], binWidth);
                && (|breaks| - 1 > MaxBinNumber ==> r == Failure(TooManyBins))
                && (|breaks| - 1 <= MaxBinNumber ==> r == Success(HistogramOf(s, binWidth)))
    {
      if binWidth <= 0.0 {
        return Failure(NonPositiveBinWidth);
      }
      var w := binWidth;
      SortSamples(samples);
      var s := samples[..];
      var breaks := CreateBreaks(samples[0], samples[samples.Length - 1]);
      BreaksUnique(breaks, s[0], s[|s| - 1], w);
      var midpoints := Midpoints(breaks, w);
      if |midpoints| > MaxBinNumber {
        return Failure(TooManyBins);
      }
      CountsOfDataBreaks(s, w);
      var density := CalculateDensity(s, breaks);
      assert density == Success(Normalise(ScanCounts(s, breaks, 0), |s|));
      assert |density.value| == |midpoints|;
      var scaled := Scale(density.value, 1.0 / w);
      assert Histogram(midpoints, scaled) == HistogramOf(s, w);
      r := Success(Histogram(midpoints, scaled));
    }
  }
}
