/**
 * Sample buffers as the analyser node fills them, the sum/slice arithmetic the
 * styles use on them (`slice().reduce()`), the fixed bass/mid/treble band split and
 * the per-orb frequency slices.
 */
module Samples {
  import opened Options
  import opened Maths

  /** One entry of a `Uint8Array` filled by the analyser. */
  type Byte = x: int | 0 <= x < 256

  /** `analyser.fftSize` is set to 2048; an analyser exposes half as many bins. */
  const FftSize: nat := 2048
  const BinCount: nat := FftSize / 2

  /** Number of orbs, and therefore of orb frequency slices. */
  const OrbCount: nat := 12

  /** `reduce((a, b) => a + b, 0)` over a slice of bytes. */
  function Sum(s: seq<Byte>): (r: int)
    ensures 0 <= r <= 255 * |s|
  {
    if s == [] then 0 else Sum(s[..|s| - 1]) + s[|s| - 1]
  }

  lemma {:induction false} SumConcat(a: seq<Byte>, b: seq<Byte>)
    ensures Sum(a + b) == Sum(a) + Sum(b)
  {
    if b == [] {
      assert a + b == a;
    } else {
      assert (a + b)[..|a + b| - 1] == a + b[..|b| - 1];
      SumConcat(a, b[..|b| - 1]);
    }
  }

  /**
   * `Array.prototype.slice(lo, hi)` for non-negative bounds: both ends are cut
   * down to the length, and an empty array results when the end is not past the start.
   */
  function Slice(s: seq<Byte>, lo: nat, hi: nat): (r: seq<Byte>)
    ensures hi <= |s| && lo <= hi ==> r == s[lo..hi]
    ensures lo <= |s| <= hi ==> r == s[lo..]
    ensures |s| <= lo ==> r == []
    ensures |r| <= if hi <= lo then 0 else hi - lo
  {
    var a := Min(lo, |s|);
    var b := Min(hi, |s|);
    if b <= a then [] else s[a..b]
  }

  /** Bass intensity: the first ten bins summed, divided by ten and by 255. */
  function Bass(s: seq<Byte>): (r: real)
    ensures 0.0 <= r <= 1.0
    ensures r * 2550.0 == Sum(Slice(s, 0, 10)) as real
  {
    var part := Slice(s, 0, 10);
    assert Sum(part) <= 2550;
    Sum(part) as real / 10.0 / 255.0
  }

  /** Mid intensity: bins 10 to 99 summed, divided by ninety and by 255. */
  function Mid(s: seq<Byte>): (r: real)
    ensures 0.0 <= r <= 1.0
    ensures r * 22950.0 == Sum(Slice(s, 10, 100)) as real
  {
    var part := Slice(s, 10, 100);
    assert Sum(part) <= 255 * 90;
    Sum(part) as real / 90.0 / 255.0
  }

  /**
   * Treble intensity: the bins from 100 on, divided by `length - 100` and by 255.
   * With exactly 100 bins that is 0 / 0, NaN in the source, here `None`; with fewer
   * the slice is empty and the quotient is zero.
   */
  function Treble(s: seq<Byte>): (r: Option<real>)
    ensures r.None? <==> |s| == 100
    ensures |s| < 100 ==> r == Some(0.0)
    ensures |s| > 100 ==> r.Some? && 0.0 <= r.value <= 1.0
    ensures |s| > 100 ==> r.value * (255 * (|s| - 100)) as real == Sum(s[100..]) as real
  {
    var part := Slice(s, 100, |s|);
    if |s| == 100 then None
    else if |s| < 100 then
      assert part == [];
      Some(Sum(part) as real / (|s| - 100) as real / 255.0)
    else
      assert part == s[100..];
      Some(MeanOver255(Sum(part), |s| - 100))
  }

  /** `total / count / 255`: a mean of bytes scaled to [0, 1]. */
  function MeanOver255(total: int, count: int): (r: real)
    requires 0 < count && 0 <= total <= 255 * count
    ensures 0.0 <= r <= 1.0
    ensures r * (255 * count) as real == total as real
  {
    var mean := total as real / count as real;
    assert mean * count as real == total as real;
    var slack := 255.0 - mean;
    assert slack * count as real == (255 * count - total) as real;
    assert 0.0 <= slack;
    assert (mean / 255.0) * (255 * count) as real == mean * count as real;
    mean / 255.0
  }

  /**
   * The three bands are consecutive, do not overlap and together give back the whole
   * buffer once it has at least 100 bins; so the three sums add up to the total.
   */
  lemma {:induction false} BandsPartition(s: seq<Byte>)
    requires |s| >= 100
    ensures Slice(s, 0, 10) + Slice(s, 10, 100) + Slice(s, 100, |s|) == s
    ensures |Slice(s, 0, 10)| == 10 && |Slice(s, 10, 100)| == 90
    ensures |Slice(s, 100, |s|)| == |s| - 100
    ensures Sum(s) == Sum(Slice(s, 0, 10)) + Sum(Slice(s, 10, 100)) + Sum(Slice(s, 100, |s|))
  {
    var b, m, t := s[0..10], s[10..100], s[100..];
    assert b + m + t == s;
    SumConcat(b, m);
    SumConcat(b + m, t);
  }

  // ----- Per-orb frequency slices -----

  /**
   * `Math.floor((index / orbs.length) * dataArray.length)`: the largest `r` with
   * `12 r <= i n`; the first orb's slice starts at 0 and no slice starts past the end.
   */
  function OrbSliceStart(i: nat, n: nat): (r: nat)
    ensures OrbCount * r <= i * n < OrbCount * r + OrbCount
    ensures i == 0 ==> r == 0
    ensures i <= OrbCount ==> r <= n
  {
    var r := (i * n) / OrbCount;
    DivBounds(i * n, OrbCount, r, OrbCount * r);
    if i <= OrbCount then
      MulMonotone(n, i, OrbCount, i * n, OrbCount * n);
      DivMonotone(i * n, OrbCount * n, OrbCount, r, (OrbCount * n) / OrbCount);
      DivCancel(OrbCount, n, OrbCount * n);
      r
    else r
  }

  /**
   * `Math.floor(((index + 1) / orbs.length) * dataArray.length)`: the next orb's
   * start, never before this orb's start; the last orb's slice ends at the end.
   */
  function OrbSliceEnd(i: nat, n: nat): (r: nat)
    ensures r == OrbSliceStart(i + 1, n)
    ensures OrbSliceStart(i, n) <= r
    ensures i < OrbCount ==> r <= n
    ensures i == OrbCount - 1 ==> r == n
  {
    var lo := OrbSliceStart(i, n);
    var r := OrbSliceStart(i + 1, n);
    assert (i + 1) * n == i * n + n;
    DivMonotone(i * n, (i + 1) * n, OrbCount, lo, r);
    if i == OrbCount - 1 then
      DivCancel(OrbCount, n, OrbCount * n);
      r
    else r
  }

  /** Slice boundaries never decrease and stay within the buffer. */
  lemma OrbSliceBounds(i: nat, n: nat)
    requires i < OrbCount
    ensures OrbSliceStart(0, n) == 0 && OrbSliceEnd(OrbCount - 1, n) == n
    ensures OrbSliceStart(i, n) <= OrbSliceEnd(i, n) <= n
    ensures n >= OrbCount ==> OrbSliceStart(i, n) < OrbSliceEnd(i, n)
  {
    var lo, hi := OrbSliceStart(i, n), OrbSliceEnd(i, n);
    assert (i + 1) * n == i * n + n;
    DivMonotone(i * n, (i + 1) * n, OrbCount, lo, hi);
    MulMonotone(n, i + 1, OrbCount, (i + 1) * n, OrbCount * n);
    DivCancel(OrbCount, n, OrbCount * n);
    DivMonotone((i + 1) * n, OrbCount * n, OrbCount, hi, n);
    DivStep(i * n, OrbCount, lo);
    DivMonotone(i * n + OrbCount, (i + 1) * n, OrbCount, lo + 1, hi);
  }

  /** The first `k` orb slices laid end to end. */
  function OrbSlices(s: seq<Byte>, k: nat): seq<Byte>
    requires k <= OrbCount
  {
    if k == 0 then [] else OrbSlices(s, k - 1) + Slice(s, OrbSliceStart(k - 1, |s|), OrbSliceEnd(k - 1, |s|))
  }

  /** The twelve orb slices laid end to end are exactly the buffer: they cover it without overlap. */
  lemma {:induction false} OrbSlicesCover(s: seq<Byte>)
    ensures OrbSlices(s, OrbCount) == s
  {
    OrbSlicesPrefix(s, OrbCount);
    OrbSliceBounds(0, |s|);
  }

  lemma {:induction false} OrbSlicesPrefix(s: seq<Byte>, k: nat)
    requires k <= OrbCount
    ensures OrbSlices(s, k) == s[..OrbSliceStart(k, |s|)]
  {
    if k == 0 {
      OrbSliceBounds(0, |s|);
    } else {
      OrbSlicesPrefix(s, k - 1);
      OrbSliceBounds(k - 1, |s|);
      PrefixExtend(s, OrbSliceStart(k - 1, |s|), OrbSliceEnd(k - 1, |s|));
    }
  }

  /** A prefix followed by the slice that starts where it ends is the longer prefix. */
  lemma PrefixExtend(s: seq<Byte>, lo: nat, hi: nat)
    requires lo <= hi <= |s|
    ensures s[..lo] + Slice(s, lo, hi) == s[..hi]
  {
    assert s[..lo] + s[lo..hi] == s[..hi];
  }

  /**
   * `orbFreqs.reduce(...) / orbFreqs.length / 255`: the mean of an orb's slice,
   * scaled to [0, 1]. An empty slice divides 0 by 0 (NaN), here `None`; that
   * happens only when there are fewer bins than orbs.
   */
  function OrbIntensity(s: seq<Byte>, i: nat): (r: Option<real>)
    requires i < OrbCount
    ensures r.None? <==> OrbSliceStart(i, |s|) == OrbSliceEnd(i, |s|)
    ensures |s| >= OrbCount ==> r.Some?
    ensures r.Some? ==> 0.0 <= r.value <= 1.0
    ensures r.Some? ==> var lo, hi := OrbSliceStart(i, |s|), OrbSliceEnd(i, |s|);
      lo < hi <= |s| && IsScaledMean(r.value, s[lo..hi])
  {
    var lo, hi := OrbSliceStart(i, |s|), OrbSliceEnd(i, |s|);
    OrbSliceBounds(i, |s|);
    if lo == hi then None
    else
      var part := Slice(s, lo, hi);
      assert part == s[lo..hi];
      Some(SliceMean(part))
  }

  /** `r` is the mean of the non-empty `part`, divided by 255. */
  predicate IsScaledMean(r: real, part: seq<Byte>)
  {
    0 < |part| && r * (255 * |part|) as real == Sum(part) as real
  }

  /** The mean of a non-empty slice of bytes divided by 255: a value in [0, 1]. */
  function SliceMean(part: seq<Byte>): (r: real)
    requires 0 < |part|
    ensures 0.0 <= r <= 1.0 && IsScaledMean(r, part)
  {
    MeanOver255(Sum(part), |part|)
  }
}
