/**
 * Index arithmetic behind the styles' nearest-sample lookups. Every lookup in the
 * source has the shape `Math.floor((i / count) * length)`; over exact numbers that
 * is the integer quotient `(i * length) / count`, which `FloorOfProgress` proves.
 */
module Indices {
  import opened Options
  import opened Maths

  /** Bars drawn by the bars style, points of a helix, bars of the circular spectrum. */
  const BarCount: nat := 64
  const HelixPoints: nat := 50
  const SpectrumBars: nat := 180

  /** `Math.floor((i / count) * n)` in integers. */
  function ScaledIndex(i: nat, count: nat, n: nat): (r: nat)
    requires 0 < count
    ensures i < count && 0 < n ==> r < n
    ensures i <= count ==> r <= n
  {
    Scaled(i, count, n);
    (i * n) / count
  }

  lemma Scaled(i: nat, count: nat, n: nat)
    requires 0 < count
    ensures i < count && 0 < n ==> (i * n) / count < n
    ensures i <= count ==> (i * n) / count <= n
  {
    var q := (i * n) / count;
    DivBounds(i * n, count, q, count * q);
    MulMonotone(n, i, count, i * n, count * n);
    MulMonotone(n, i + 1, count, i * n + n, count * n);
    MulCancel(count, q, n, count * q, count * n);
  }

  /** Over exact reals the floored progress equals the integer quotient. */
  lemma FloorOfProgress(i: nat, count: nat, n: nat)
    requires 0 < count
    ensures ((i as real / count as real) * n as real).Floor == ScaledIndex(i, count, n)
  {
    var q, rem := (i * n) / count, (i * n) % count;
    assert i * n == count * q + rem;
    var x := (i as real / count as real) * n as real;
    assert x == (i * n) as real / count as real;
    assert (i * n) as real == count as real * q as real + rem as real;
    assert x == q as real + rem as real / count as real;
    assert 0.0 <= rem as real / count as real < 1.0;
  }

  /** `drawWaveform`: sample index of column `i` of a canvas `width` wide. */
  function WaveformIndex(i: nat, width: nat, n: nat): (r: nat)
    requires i < width
    ensures 0 < n ==> r < n
  {
    ScaledIndex(i, width, n)
  }

  /** `drawCircularSpectrum`: sample index of bar `i` of 180. */
  function SpectrumIndex(i: nat, n: nat): (r: nat)
    requires i < SpectrumBars
    ensures 0 < n ==> r < n
  {
    ScaledIndex(i, SpectrumBars, n)
  }

  /** `drawDNA` and `drawDNAHelix`: sample index of point `i` of 50. */
  function HelixIndex(i: nat, n: nat): (r: nat)
    requires i < HelixPoints
    ensures 0 < n ==> r < n
  {
    ScaledIndex(i, HelixPoints, n)
  }

  /**
   * `drawArcticWaves` samples the buffer at x = 0, 2, 4, ... while `x <= width`.
   * On a zero-width canvas its one point has progress `0 / 0`, NaN, and so no
   * index (`None`). Otherwise the index reaches the length exactly at the right
   * edge, where the source reads past the end of the buffer.
   */
  function ArcticIndex(x: nat, width: nat, n: nat): (r: Option<nat>)
    requires x <= width
    ensures r.None? <==> width == 0
    ensures r.Some? ==> r.value <= n
    ensures r.Some? && 0 < n ==> (r.value == n <==> x == width)
  {
    if width == 0 then None
    else if x == width then
      DivCancel(width, n, width * n);
      Some(ScaledIndex(x, width, n))
    else Some(ScaledIndex(x, width, n))
  }

  /** Points generated for one arctic wave: one for every even x in [0, width]. */
  function ArcticPointCount(width: nat): nat
  {
    width / 2 + 1
  }

  /** `dataArray[index]`: `undefined` past the end. */
  function SampleAt(data: seq<int>, index: nat): (r: Option<int>)
    ensures r.Some? <==> index < |data|
    ensures r.Some? ==> r.value == data[index]
  {
    if index < |data| then Some(data[index]) else None
  }

  /**
   * The sample an arctic point at `x` reads: `dataArray[index]`, `undefined` when
   * the index is NaN (zero width) or past the end.
   */
  function ArcticSample(data: seq<int>, x: nat, width: nat): (r: Option<int>)
    requires x <= width
    ensures r.Some? <==> 0 < width && ScaledIndex(x, width, |data|) < |data|
    ensures r.Some? ==> r.value == data[ScaledIndex(x, width, |data|)]
  {
    match ArcticIndex(x, width, |data|)
    case None => None
    case Some(index) => SampleAt(data, index)
  }

  /**
   * The wave-point loop of `drawArcticWaves` (its `x += 2` loop), returning the
   * sample every point it generates reads. On a non-empty buffer a point reads a
   * sample exactly when it lies left of the right edge: the point at `x == width`
   * reads past the end, and the single point of a zero-width canvas reads at NaN.
   */
  method ArcticSamples(data: seq<int>, width: nat) returns (samples: seq<Option<int>>)
    ensures |samples| == ArcticPointCount(width)
    ensures forall j :: 0 <= j < |samples| ==> 2 * j <= width && samples[j] == ArcticSample(data, 2 * j, width)
    ensures 0 < |data| ==> forall j :: 0 <= j < |samples| ==> (samples[j].Some? <==> 2 * j < width)
  {
    samples := [];
    var x := 0;
    while x <= width
      invariant x == 2 * |samples| && x <= width + 2
      invariant forall j :: 0 <= j < |samples| ==> 2 * j <= width && samples[j] == ArcticSample(data, 2 * j, width)
      decreases width + 2 - x
    {
      var index := ArcticIndex(x, width, |data|);
      var sample := if index.None? then None else SampleAt(data, index.value);
      samples := samples + [sample];
      x := x + 2;
    }
    if 0 < |data| {
      forall j | 0 <= j < |samples|
        ensures samples[j].Some? <==> 2 * j < width
      {
        ArcticReadsInside(2 * j, width, |data|);
      }
    }
  }

  /** On a non-empty buffer a point reads inside it exactly when it lies left of the right edge. */
  lemma ArcticReadsInside(x: nat, width: nat, n: nat)
    requires x <= width && 0 < n
    ensures (0 < width && ScaledIndex(x, width, n) < n) <==> x < width
  {
    if 0 < width {
      assert ArcticIndex(x, width, n) == Some(ScaledIndex(x, width, n));
    }
  }

  /**
   * Only an even width produces a point at `x == width`, and that point is the last
   * one. On a positive width it is neither point 0, which `moveTo` reads, nor one
   * of the points up to `length - 2`, which the curve loop reads as `points[j]` and
   * `points[j + 1]` for `1 <= j < length - 2`. On a zero width it is point 0.
   */
  lemma OutOfRangePointIsLast(width: nat, j: nat)
    requires j < ArcticPointCount(width)
    ensures 2 * j == width <==> (width % 2 == 0 && j == ArcticPointCount(width) - 1)
    ensures 2 * j == width && 0 < width ==> j != 0 && j > ArcticPointCount(width) - 2
  {
  }

  /**
   * `points[Math.floor(sparkleX / 2)]` with `sparkleX = Math.random() * width`: a
   * valid point, left of the right edge on a canvas of positive width, and point
   * 0 on a zero-width one.
   */
  function SparkleIndex(rnd: real, width: nat): (r: int)
    requires 0.0 <= rnd < 1.0
    ensures 0 <= r < ArcticPointCount(width)
    ensures 0 < width ==> 2 * r < width
    ensures width == 0 ==> r == 0
  {
    var sparkleX := rnd * width as real;
    UnitScale(rnd, width as real, sparkleX);
    var k := (sparkleX / 2.0).Floor;
    assert 0 <= k && k as real <= sparkleX / 2.0;
    assert 0 < width ==> 2 * k < width;
    assert width == 2 * (width / 2) + width % 2;
    k
  }

  /**
   * On a canvas of positive width and a non-empty buffer, a sparkle never looks up
   * the point whose sample index ran past the buffer.
   */
  lemma SparkleReadsInRangeSample(rnd: real, width: nat, n: nat)
    requires 0.0 <= rnd < 1.0 && 0 < width && 0 < n
    ensures ArcticIndex(2 * SparkleIndex(rnd, width), width, n).Some?
    ensures ArcticIndex(2 * SparkleIndex(rnd, width), width, n).value < n
  {
  }

  /** On a zero-width canvas every sparkle looks up the one point, whose index is NaN. */
  lemma ZeroWidthSparkleReadsNaN(rnd: real, n: nat)
    requires 0.0 <= rnd < 1.0
    ensures SparkleIndex(rnd, 0) == 0 && ArcticIndex(2 * SparkleIndex(rnd, 0), 0, n).None?
  {
  }

  /**
   * The bars style picks bin `floor(pow(i / 64, 1.5) * length)`. Knowing only that
   * `pow(x, 1.5)` lies in [0, x] on [0, 1], every bar reads inside the buffer.
   */
  function BarIndex(i: nat, n: nat, m: MathLib): (r: int)
    requires i < BarCount && PowLaw(m)
    ensures 0 < n ==> 0 <= r < n
  {
    var p := m.pow15(i as real / BarCount as real);
    assert 0.0 <= p < 1.0;
    assert 0.0 <= p * n as real;
    assert 0 < n ==> p * n as real < n as real;
    (p * n as real).Floor
  }

  /** Width of a bar plus its gap. */
  function BarPitch(width: real): real { width / BarCount as real * 0.8 + width / BarCount as real * 0.2 }

  /**
   * `totalWidth = barCount * (barWidth + barGap)` is the whole canvas width, so the
   * centring offset `startX` is zero and bar `i` starts at `i * width / 64`.
   */
  function BarX(i: nat, width: real): (r: real)
    ensures BarCount as real * BarPitch(width) == width
    ensures (width - BarCount as real * BarPitch(width)) / 2.0 == 0.0
    ensures r == i as real * width / BarCount as real
  {
    var startX := (width - BarCount as real * BarPitch(width)) / 2.0;
    startX + i as real * BarPitch(width)
  }
}
