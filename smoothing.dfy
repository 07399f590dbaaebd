/**
 * The arithmetic of `smoothData`, one buffer index at a time: a noise gate around
 * the midpoint 128, a lag towards the gated value at rate 0.4, and a 0.6/0.4 blend
 * into the smoothed value. The imperative loops over the three buffers are in
 * `Visualizer.MusicVisualizer.SmoothData`; this module states what each index
 * undergoes and proves how repeated frames behave.
 */
module Smoothing {
  import opened Maths

  const Centre: int := 128
  const NoiseThreshold: int := 2
  const TransitionSpeed: real := 0.4
  const SmoothingFactor: real := 0.6
  /** The lag rate `drawBars` applies to the same `lastValues` buffer. */
  const BarsRate: real := 0.2

  /**
   * The noise gate: a sample within the threshold of the midpoint (127, 128 or 129)
   * becomes exactly 128; every other sample passes unchanged.
   */
  function Gate(v: int): (r: int)
    ensures 127 <= v <= 129 ==> r == Centre
    ensures !(127 <= v <= 129) ==> r == v
    ensures 0 <= v <= 255 ==> 0 <= r <= 255
  {
    if Abs(v - Centre) < NoiseThreshold then Centre else v
  }

  /**
   * `last += (target - last) * rate`: the distance to the target shrinks by the
   * factor `1 - rate` and the new value lies between the old one and the target.
   */
  function Lag(prev: real, target: real, rate: real): (r: real)
    requires 0.0 <= rate <= 1.0
    ensures target - r == (1.0 - rate) * (target - prev)
    ensures prev <= target ==> prev <= r <= target
    ensures target <= prev ==> target <= r <= prev
  {
    var d := target - prev;
    var step := d * rate;
    ScaleWithin(d, rate, step);
    assert target - (prev + step) == d - step;
    prev + step
  }

  /** `step` names `d * rate`. */
  lemma ScaleWithin(d: real, rate: real, step: real)
    requires 0.0 <= rate <= 1.0 && step == d * rate
    ensures 0.0 <= d ==> 0.0 <= step <= d
    ensures d <= 0.0 ==> d <= step <= 0.0
    ensures d - step == (1.0 - rate) * d
  {
    assert d - step == (1.0 - rate) * d;
  }

  /** `smoothed * 0.6 + last * (1 - 0.6)`: a convex combination of the two. */
  function Blend(smoothed: real, last: real): (r: real)
    ensures smoothed <= last ==> smoothed <= r <= last
    ensures last <= smoothed ==> last <= r <= smoothed
    ensures last - r == SmoothingFactor * (last - smoothed)
  {
    smoothed * SmoothingFactor + last * (1.0 - SmoothingFactor)
  }

  /** The lag and smoothed values held at one buffer index. */
  datatype Cell = Cell(last: real, smoothed: real)

  /**
   * One frame of `smoothData` at one index whose gated sample is `target`: the lag
   * value keeps 0.6 of its distance to the target, without passing it, and the
   * smoothed value keeps 0.6 of its distance to the new lag value.
   */
  function Step(c: Cell, target: real): (r: Cell)
    ensures target - r.last == 0.6 * (target - c.last)
    ensures c.last <= target ==> c.last <= r.last <= target
    ensures target <= c.last ==> target <= r.last <= c.last
    ensures r.last - r.smoothed == 0.6 * (r.last - c.smoothed)
  {
    var last := Lag(c.last, target, TransitionSpeed);
    Cell(last, Blend(c.smoothed, last))
  }

  /** The two errors after a frame, as multiples of the errors before it. */
  lemma StepErrors(c: Cell, k: real)
    ensures k - Step(c, k).last == 0.6 * (k - c.last)
    ensures k - Step(c, k).smoothed == 0.4 * (k - Step(c, k).last) + 0.6 * (k - c.smoothed)
  {
    var last := Lag(c.last, k, TransitionSpeed);
    assert k - last == (1.0 - 0.4) * (k - c.last);
    var sm := Blend(c.smoothed, last);
    assert last - sm == 0.6 * (last - c.smoothed);
  }

  predicate InByteRange(x: real) { 0.0 <= x <= 255.0 }

  /** If the buffers and the sample lie in [0, 255], so do the buffers after a frame. */
  lemma StepStaysInByteRange(c: Cell, v: int)
    requires InByteRange(c.last) && InByteRange(c.smoothed) && 0 <= v <= 255
    ensures InByteRange(Step(c, Gate(v) as real).last) && InByteRange(Step(c, Gate(v) as real).smoothed)
  {
  }

  /** `n` frames with the same gated sample `k` at this index. */
  function Frames(c: Cell, k: real, n: nat): Cell
  {
    if n == 0 then c else Step(Frames(c, k, n - 1), k)
  }

  /**
   * The smoothed value trails the lag value, which trails the target: both are on
   * the same side of the target, the smoothed value farther away.
   */
  predicate Toward(c: Cell, k: real)
  {
    (c.smoothed <= c.last <= k) || (k <= c.last <= c.smoothed)
  }

  /** One frame keeps that order and moves both values towards the target. */
  lemma StepMovesToward(c: Cell, k: real)
    requires Toward(c, k)
    ensures Toward(Step(c, k), k)
    ensures c.smoothed <= c.last <= k ==> c.last <= Step(c, k).last && c.smoothed <= Step(c, k).smoothed
    ensures k <= c.last <= c.smoothed ==> Step(c, k).last <= c.last && Step(c, k).smoothed <= c.smoothed
    ensures Dist(Step(c, k).last, k) <= Dist(c.last, k)
    ensures Dist(Step(c, k).smoothed, k) <= Dist(c.smoothed, k)
  {
  }

  /**
   * Under a constant input, from a cell whose values trail towards the target
   * (every index starts with both at 128, which qualifies), the lag and smoothed
   * values move monotonically towards the gated input, frame after frame, and
   * never overshoot it. From a cell where they do not trail that way the smoothed
   * value can move away first: see `SmoothedCanMoveAway`.
   */
  lemma {:induction false} ConstantInputMonotone(c: Cell, k: real, n: nat)
    requires Toward(c, k)
    ensures Toward(Frames(c, k, n), k)
    ensures c.smoothed <= c.last <= k ==> Frames(c, k, n).smoothed <= Frames(c, k, n + 1).smoothed <= k
    ensures k <= c.last <= c.smoothed ==> k <= Frames(c, k, n + 1).smoothed <= Frames(c, k, n).smoothed
    ensures c.smoothed <= c.last <= k ==> Frames(c, k, n).last <= Frames(c, k, n + 1).last <= k
    ensures k <= c.last <= c.smoothed ==> k <= Frames(c, k, n + 1).last <= Frames(c, k, n).last
    ensures c.smoothed <= c.last <= k ==> Frames(c, k, n).smoothed <= Frames(c, k, n).last <= k
    ensures k <= c.last <= c.smoothed ==> k <= Frames(c, k, n).last <= Frames(c, k, n).smoothed
  {
    if n > 0 {
      ConstantInputMonotone(c, k, n - 1);
    }
    var f := Frames(c, k, n);
    StepMovesToward(f, k);
    assert Frames(c, k, n + 1) == Step(f, k);
  }

  /** A raw sample of 127 or 129 is gated to the midpoint 128. */
  lemma NearCentreGatedToCentre()
    ensures Gate(127) == Centre && Gate(129) == Centre
  {
  }

  /**
   * A cell resting at its target stays there. With the gated input 128, a constant
   * raw input of 127 or 129 leaves the buffers at 128, one away from it.
   */
  lemma RestingCellStays(v: real)
    ensures Step(Cell(v, v), v) == Cell(v, v)
  {
    var r := Step(Cell(v, v), v);
    assert v - r.last == 0.6 * (v - v);
    assert r.last - r.smoothed == 0.6 * (r.last - v);
  }

  /**
   * Without the trailing order monotonicity can fail: with the lag value at 200,
   * the smoothed value at 10 and the input at 10, one frame pulls the smoothed
   * value away.
   */
  lemma SmoothedCanMoveAway()
    ensures !Toward(Cell(200.0, 10.0), 10.0)
    ensures Step(Cell(200.0, 10.0), 10.0).smoothed == 55.6
    ensures Dist(Step(Cell(200.0, 10.0), 10.0).smoothed, 10.0) > Dist(10.0, 10.0)
  {
  }

  function Pow(b: real, n: nat): real
  {
    if n == 0 then 1.0 else b * Pow(b, n - 1)
  }

  /** The lag error after `n` frames from an initial error `e`: it shrinks by 0.6 a frame. */
  function LastError(e: real, n: nat): real
  {
    if n == 0 then e else 0.6 * LastError(e, n - 1)
  }

  /**
   * The smoothed error after `n` frames from a lag error `eLast` and a smoothed
   * error `eSmoothed`: 0.6 of its previous value plus 0.4 of the new lag error.
   */
  function SmoothedError(eLast: real, eSmoothed: real, n: nat): real
  {
    if n == 0 then eSmoothed else 0.4 * LastError(eLast, n) + 0.6 * SmoothedError(eLast, eSmoothed, n - 1)
  }

  /** The errors of `n` frames under a constant input follow those two recurrences. */
  lemma {:induction false} ConstantInputErrors(c: Cell, k: real, n: nat)
    ensures k - Frames(c, k, n).last == LastError(k - c.last, n)
    ensures k - Frames(c, k, n).smoothed == SmoothedError(k - c.last, k - c.smoothed, n)
  {
    if n > 0 {
      ConstantInputErrors(c, k, n - 1);
      StepErrors(Frames(c, k, n - 1), k);
    }
  }

  /** The recurrences solved: `0.6^n eLast` and `0.6^n (eSmoothed + 0.4 n eLast)`. */
  lemma {:induction false} ErrorClosedForm(eLast: real, eSmoothed: real, n: nat)
    ensures LastError(eLast, n) == Pow(0.6, n) * eLast
    ensures SmoothedError(eLast, eSmoothed, n) == Pow(0.6, n) * (eSmoothed + 0.4 * n as real * eLast)
  {
    if n > 0 {
      ErrorClosedForm(eLast, eSmoothed, n - 1);
      ClosedFormAlgebra(Pow(0.6, n - 1), eLast, eSmoothed, n);
    }
  }

  lemma ClosedFormAlgebra(p: real, eLast: real, eSmoothed: real, n: nat)
    requires 0 < n
    ensures 0.6 * (p * eLast) == (0.6 * p) * eLast
    ensures 0.4 * ((0.6 * p) * eLast) + 0.6 * (p * (eSmoothed + 0.4 * (n - 1) as real * eLast))
      == (0.6 * p) * (eSmoothed + 0.4 * n as real * eLast)
  {
  }

  /**
   * Closed form of `n` frames under a constant gated input `k` from any cell: the
   * lag error is `0.6^n (k - last)` and the smoothed error
   * `0.6^n ((k - smoothed) + 0.4 n (k - last))`.
   */
  lemma ConstantInputClosedForm(c: Cell, k: real, n: nat)
    ensures k - Frames(c, k, n).last == Pow(0.6, n) * (k - c.last)
    ensures k - Frames(c, k, n).smoothed == Pow(0.6, n) * ((k - c.smoothed) + 0.4 * n as real * (k - c.last))
  {
    ConstantInputErrors(c, k, n);
    ErrorsClosed(k - c.last, k - c.smoothed, n, k - Frames(c, k, n).last, k - Frames(c, k, n).smoothed);
  }

  /** Errors `dLast` and `dSmoothed` that follow the recurrences have the closed forms. */
  lemma ErrorsClosed(eLast: real, eSmoothed: real, n: nat, dLast: real, dSmoothed: real)
    requires dLast == LastError(eLast, n) && dSmoothed == SmoothedError(eLast, eSmoothed, n)
    ensures dLast == Pow(0.6, n) * eLast
    ensures dSmoothed == Pow(0.6, n) * (eSmoothed + 0.4 * n as real * eLast)
  {
    ErrorClosedForm(eLast, eSmoothed, n);
  }

  lemma {:induction false} PowAdd(b: real, m: nat, n: nat)
    ensures Pow(b, m + n) == Pow(b, m) * Pow(b, n)
  {
    if m > 0 {
      PowAdd(b, m - 1, n);
      assert Pow(b, m + n) == b * Pow(b, m - 1 + n);
    }
  }

  lemma {:induction false} PowNonNegative(b: real, n: nat)
    requires 0.0 <= b
    ensures 0.0 <= Pow(b, n)
  {
    if n > 0 {
      PowNonNegative(b, n - 1);
    }
  }

  /** `0.6^60` is below `10^-12`. */
  lemma PowSixtyBound()
    ensures 0.0 <= Pow(0.6, 60) <= 0.000000000001
  {
    var p10 := Pow(0.6, 10);
    assert p10 < 0.01;
    PowNonNegative(0.6, 10);
    PowAdd(0.6, 10, 10);
    PowAdd(0.6, 20, 20);
    PowAdd(0.6, 40, 20);
    var p20, p40, p60 := Pow(0.6, 20), Pow(0.6, 40), Pow(0.6, 60);
    assert 0.0 <= p20 <= 0.0001 by { assert p20 == p10 * p10; }
    assert 0.0 <= p40 <= 0.00000001 by { assert p40 == p20 * p20; }
    assert p60 == p40 * p20;
  }

  /** Once `0.6^n` is below `10^-12`, `n <= 60` frames settle within 0.01, from any byte-ranged cell. */
  lemma SettlesOnceSmall(c: Cell, k: real, n: nat)
    requires InByteRange(c.last) && InByteRange(c.smoothed) && InByteRange(k)
    requires n <= 60 && 0.0 <= Pow(0.6, n) <= 0.000000000001
    ensures Dist(Frames(c, k, n).smoothed, k) < 0.01
  {
    ConstantInputClosedForm(c, k, n);
    var x := Frames(c, k, n).smoothed;
    var g := ErrorFactor(k - c.last, k - c.smoothed, n);
    SmallError(x, k, Pow(0.6, n), g);
  }

  /** An error `p g` with `p` below `10^-12` and `g` at most 6375 in size leaves `x` within 0.01 of `k`. */
  lemma SmallError(x: real, k: real, p: real, g: real)
    requires 0.0 <= p <= 0.000000000001 && -6375.0 <= g <= 6375.0 && k - x == p * g
    ensures Dist(x, k) < 0.01
  {
    ErrorBound(p, g, k - x);
    DistBound(x, k, k - x);
  }

  /** `eSmoothed + 0.4 n eLast` for errors of at most 255 in size and `n <= 60` is at most 6375 in size. */
  function ErrorFactor(eLast: real, eSmoothed: real, n: nat): (g: real)
    requires -255.0 <= eLast <= 255.0 && -255.0 <= eSmoothed <= 255.0 && n <= 60
    ensures g == eSmoothed + 0.4 * n as real * eLast
    ensures -6375.0 <= g <= 6375.0
  {
    var q := 0.4 * n as real;
    var t := q * eLast;
    MulWithin(q, eLast, 255.0, t);
    eSmoothed + t
  }

  lemma DistBound(x: real, k: real, err: real)
    requires k - x == err && -0.01 < err < 0.01
    ensures Dist(x, k) < 0.01
  {
  }

  /** A factor below `10^-12` times at most 6375 in size stays below 0.01 in size. */
  lemma ErrorBound(p: real, g: real, t: real)
    requires 0.0 <= p <= 0.000000000001 && -6375.0 <= g <= 6375.0
    requires t == p * g
    ensures -0.01 < t < 0.01
  {
    MulWithin(p, g, 6375.0, t);
  }

  /**
   * Sixty frames of a constant input bring the smoothed value within 0.01 of the
   * gated input, from any lag and smoothed values in [0, 255] and any input in
   * [0, 255]: in particular after the bars style has moved the lag values.
   */
  lemma SettlesWithinSixtyFrames(c: Cell, k: real)
    requires InByteRange(c.last) && InByteRange(c.smoothed) && InByteRange(k)
    ensures Dist(Frames(c, k, 60).smoothed, k) < 0.01
  {
    PowSixtyBound();
    SettlesOnceSmall(c, k, 60);
  }
}
