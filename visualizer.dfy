/**
 * The `MusicVisualizer` object: the state its methods update in place (the three
 * smoothing buffers, the phase, the orbs, the style and its cross-fade) and the
 * methods that update it once per animation frame, per shuffle tick and per fade tick.
 */
module Visualizer {
  import opened Options
  import opened Samples
  import opened Maths
  import opened Indices
  import opened Smoothing
  import opened Styles
  import opened Transitions
  import opened OrbPhysics

  /**
   * The position of the first draw that falls on a style other than `current`:
   * every draw before it falls on `current`.
   */
  function FirstMiss(current: int, draws: seq<real>): (r: nat)
    requires UnitDraws(draws)
    requires 0 < |draws| && DrawIndex(draws[|draws| - 1]) != current
    ensures r < |draws| && DrawIndex(draws[r]) != current
    ensures forall k :: 0 <= k < r ==> DrawIndex(draws[k]) == current
    decreases |draws|
  {
    if DrawIndex(draws[0]) != current then 0
    else
      var rest := draws[1..];
      assert rest[|rest| - 1] == draws[|draws| - 1];
      var r := FirstMiss(current, rest);
      assert forall k :: 1 <= k < r + 1 ==> draws[k] == rest[k - 1];
      r + 1
  }

  /**
   * The shuffle's `do { ... } while (nextIndex === currentIndex)`: draws are taken in
   * order until one falls on a style other than the current one. `used` is the
   * position of the accepted draw; every earlier draw fell on the current style.
   * The last draw is one that misses the current style, so the loop stops in time.
   */
  method PickShuffleIndex(current: int, draws: seq<real>) returns (next: nat, used: nat)
    requires UnitDraws(draws)
    requires 0 < |draws| && DrawIndex(draws[|draws| - 1]) != current
    ensures used < |draws| && next == DrawIndex(draws[used])
    ensures next < |VisualizationTypes| && next != current
    ensures forall k :: 0 <= k < used ==> DrawIndex(draws[k]) == current
    ensures used == FirstMiss(current, draws)
  {
    used := 0;
    next := DrawIndex(draws[0]);
    while next == current
      invariant used < |draws| && next == DrawIndex(draws[used])
      invariant forall k :: 0 <= k < used ==> DrawIndex(draws[k]) == current
      decreases |draws| - used
    {
      used := used + 1;
      next := DrawIndex(draws[used]);
    }
  }

  /**
   * `smoothData(data)` took place on the buffers: the first `|data|` entries are
   * gated, lagged and blended from their previous values, and all later entries
   * are unchanged.
   */
  twostate predicate SmoothedFrom(target: array<real>, last: array<real>, smoothed: array<real>, data: seq<Byte>)
    reads target, last, smoothed
  {
    && (forall i :: 0 <= i < |data| && i < target.Length ==> target[i] == Gate(data[i]) as real)
    && (forall i :: 0 <= i < |data| && i < last.Length && i < smoothed.Length ==>
          Cell(last[i], smoothed[i]) == Step(Cell(old(last[i]), old(smoothed[i])), Gate(data[i]) as real))
    && (forall i :: |data| <= i < target.Length ==> target[i] == old(target[i]))
    && (forall i :: |data| <= i < last.Length ==> last[i] == old(last[i]))
    && (forall i :: |data| <= i < smoothed.Length ==> smoothed[i] == old(smoothed[i]))
  }

  /**
   * The bars' own lag took place: bar `i` targets its logarithmically chosen bin
   * and moves a fifth of the way there; entries past the 64 bars are unchanged.
   */
  twostate predicate BarsLaggedFrom(target: array<real>, last: array<real>, data: seq<Byte>, m: MathLib)
    requires PowLaw(m)
    reads target, last
  {
    && (forall i :: 0 <= i < BarCount && i < target.Length && i < last.Length ==>
          var bin := BarIndex(i, |data|, m);
          && 0 <= bin < |data|
          && target[i] == data[bin] as real
          && last[i] == Lag(old(last[i]), data[bin] as real, BarsRate))
    && (forall i :: BarCount <= i < target.Length ==> target[i] == old(target[i]))
    && (forall i :: BarCount <= i < last.Length ==> last[i] == old(last[i]))
  }

  /**
   * Orb `i` after one frame of the orbs style, driven by its slice of `freq`, whose
   * intensity is defined because there are at least as many bins as orbs: it keeps
   * its radius and hue, its speed is capped, and a fitting orb stays inside.
   */
  function OrbFrame(o: Orb, i: nat, freq: seq<Byte>, env: Env, m: MathLib): (r: Orb)
    requires i < OrbCount && OrbCount <= |freq| && SqrtLaw(m) && 0.0 <= env.bass
    ensures r.radius == o.radius && r.baseHue == o.baseHue
    ensures SpeedCapped(r, env.bass)
    ensures 2.0 * o.radius <= env.width && 2.0 * o.radius <= env.height ==> Inside(r, env.width, env.height)
  {
    OrbStep(o, i, OrbIntensity(freq, i).value, env, m)
  }

  /**
   * What one frame of style `s` did to the buffers and the orbs: the waveform and
   * the helix smoothed the buffers; the bars lagged their 64 entries and left the
   * smoothed buffer alone; every other style left all three buffers as they were;
   * the orbs style stepped every orb and every other style left them in place.
   */
  twostate predicate Rendered(s: Style, target: array<real>, last: array<real>, smoothed: array<real>,
                              orbs: seq<Orb>, before: seq<Orb>, data: seq<Byte>, env: Env, m: MathLib)
    requires PowLaw(m) && SqrtLaw(m) && OrbCount <= |data| && 0.0 <= env.bass
    reads target, last, smoothed
  {
    && (RouteOf(s).smoothed ==> SmoothedFrom(target, last, smoothed, data))
    && (s == Bars ==> BarsLaggedFrom(target, last, data, m))
    && (!RouteOf(s).smoothed ==> smoothed[..] == old(smoothed[..]))
    && (!RouteOf(s).smoothed && s != Bars ==> target[..] == old(target[..]) && last[..] == old(last[..]))
    && (s != Orbs ==> orbs == before)
    && (s == Orbs ==> |orbs| == |before| == OrbCount
                      && forall i :: 0 <= i < OrbCount ==> orbs[i] == OrbFrame(before[i], i, data, env, m))
  }

  class MusicVisualizer {
    /** The canvas size in pixels. */
    var width: nat
    var height: nat
    var isInitialized: bool
    var currentVisualization: string
    var phase: real
    var targetValues: array<real>
    var lastValues: array<real>
    var smoothedArray: array<real>
    var isTransitioning: bool
    /** The live fade interval and the canvas opacity, in steps of 0.05. */
    var fade: Fade
    var opacity: int
    var orbs: seq<Orb>

    /** The cross-fade state held by the fields. */
    function TransitionState(): Transition
      reads this
    {
      Transition(isTransitioning, currentVisualization, fade, opacity)
    }

    /**
     * Three separate buffers of one length, which is the analyser's bin count once
     * audio is set up; twelve orbs; a cross-fade the interval callbacks can reach.
     */
    ghost predicate Valid()
      reads this
    {
      && targetValues != lastValues && lastValues != smoothedArray && targetValues != smoothedArray
      && targetValues.Length == lastValues.Length == smoothedArray.Length
      && (isInitialized ==> targetValues.Length == BinCount)
      && |orbs| == OrbCount
      && WellFormed(TransitionState())
    }

    /** Every buffer entry is a byte value: what the smoothing keeps. */
    ghost predicate BuffersInByteRange()
      reads this, targetValues, lastValues, smoothedArray
    {
      && (forall i :: 0 <= i < targetValues.Length ==> InByteRange(targetValues[i]))
      && (forall i :: 0 <= i < lastValues.Length ==> InByteRange(lastValues[i]))
      && (forall i :: 0 <= i < smoothedArray.Length ==> InByteRange(smoothedArray[i]))
    }

    /**
     * The constructor: the waveform style, empty buffers, phase zero, no fade, and
     * twelve orbs drawn for the canvas size before the first `resizeCanvas`, which
     * then sets the displayed size.
     */
    constructor (initialWidth: nat, initialHeight: nat, displayWidth: nat, displayHeight: nat, draws: seq<real>)
      requires OrbDraws(draws)
      ensures Valid() && !isInitialized && phase == 0.0
      ensures TransitionState() == Initial()
      ensures width == displayWidth && height == displayHeight
      ensures targetValues.Length == 0
      ensures forall i :: 0 <= i < OrbCount ==> Spawned(orbs[i], i, initialWidth as real, initialHeight as real)
    {
      var spawned := InitOrbs(initialWidth as real, initialHeight as real, draws);
      isInitialized := false;
      currentVisualization := "waveform";
      phase := 0.0;
      smoothedArray := new real[0];
      lastValues := new real[0];
      targetValues := new real[0];
      isTransitioning := false;
      fade := Idle;
      opacity := FullOpacity;
      orbs := spawned;
      width := displayWidth;
      height := displayHeight;
    }

    /**
     * The end of audio setup: three fresh buffers of one entry per analyser bin,
     * each filled with the midpoint 128, and the initialisation flag raised.
     */
    method AudioReady()
      requires Valid()
      modifies this
      ensures Valid() && isInitialized && BuffersInByteRange()
      ensures fresh(targetValues) && fresh(lastValues) && fresh(smoothedArray)
      ensures targetValues.Length == BinCount
      ensures forall i :: 0 <= i < BinCount ==>
        targetValues[i] == 128.0 && lastValues[i] == 128.0 && smoothedArray[i] == 128.0
      ensures width == old(width) && height == old(height) && phase == old(phase) && orbs == old(orbs)
      ensures TransitionState() == old(TransitionState())
    {
      smoothedArray := new real[BinCount](_ => 128.0);
      lastValues := new real[BinCount](_ => 128.0);
      targetValues := new real[BinCount](_ => 128.0);
      isInitialized := true;
    }

    /**
     * `smoothData(data)`: gate every sample into the targets, then lag and blend
     * every entry; returns the smoothed buffer itself. Byte-ranged buffers stay so.
     */
    method SmoothData(data: seq<Byte>) returns (smoothed: array<real>)
      requires Valid() && |data| <= targetValues.Length
      modifies targetValues, lastValues, smoothedArray
      ensures smoothed == smoothedArray
      ensures SmoothedFrom(targetValues, lastValues, smoothedArray, data)
      ensures old(BuffersInByteRange()) ==> BuffersInByteRange()
    {
      var i := 0;
      while i < |data|
        invariant 0 <= i <= |data|
        invariant forall k :: 0 <= k < i ==> targetValues[k] == Gate(data[k]) as real
        invariant forall k :: i <= k < targetValues.Length ==> targetValues[k] == old(targetValues[k])
        invariant lastValues[..] == old(lastValues[..]) && smoothedArray[..] == old(smoothedArray[..])
      {
        targetValues[i] := Gate(data[i]) as real;
        i := i + 1;
      }
      i := 0;
      while i < |data|
        invariant 0 <= i <= |data|
        invariant forall k :: 0 <= k < |data| ==> targetValues[k] == Gate(data[k]) as real
        invariant forall k :: |data| <= k < targetValues.Length ==> targetValues[k] == old(targetValues[k])
        invariant forall k :: 0 <= k < i ==>
          Cell(lastValues[k], smoothedArray[k])
          == Step(Cell(old(lastValues[k]), old(smoothedArray[k])), targetValues[k])
        invariant forall k :: i <= k < lastValues.Length ==> lastValues[k] == old(lastValues[k])
        invariant forall k :: i <= k < smoothedArray.Length ==> smoothedArray[k] == old(smoothedArray[k])
      {
        lastValues[i] := lastValues[i] + (targetValues[i] - lastValues[i]) * TransitionSpeed;
        smoothedArray[i] := smoothedArray[i] * SmoothingFactor + lastValues[i] * (1.0 - SmoothingFactor);
        i := i + 1;
      }
      smoothed := smoothedArray;
      if old(BuffersInByteRange()) {
        forall k | 0 <= k < |data|
          ensures InByteRange(targetValues[k]) && InByteRange(lastValues[k]) && InByteRange(smoothedArray[k])
        {
          StepStaysInByteRange(Cell(old(lastValues[k]), old(smoothedArray[k])), data[k]);
        }
      }
    }

    /**
     * The bars style's buffer update: for each of the 64 bars the target becomes
     * its bin's sample and the lag moves a fifth of the way to it. The smoothed
     * buffer and the entries past the bars are untouched.
     */
    method BarsLag(data: seq<Byte>, m: MathLib)
      requires Valid() && BarCount <= targetValues.Length && 0 < |data| && PowLaw(m)
      modifies targetValues, lastValues
      ensures BarsLaggedFrom(targetValues, lastValues, data, m)
      ensures old(BuffersInByteRange()) ==> BuffersInByteRange()
    {
      var i := 0;
      while i < BarCount
        invariant 0 <= i <= BarCount
        invariant forall k :: 0 <= k < i ==>
          var bin := BarIndex(k, |data|, m);
          && 0 <= bin < |data|
          && targetValues[k] == data[bin] as real
          && lastValues[k] == Lag(old(lastValues[k]), data[bin] as real, BarsRate)
        invariant forall k :: i <= k < targetValues.Length ==> targetValues[k] == old(targetValues[k])
        invariant forall k :: i <= k < lastValues.Length ==> lastValues[k] == old(lastValues[k])
      {
        var freqIndex := BarIndex(i, |data|, m);
        targetValues[i] := data[freqIndex] as real;
        lastValues[i] := lastValues[i] + (targetValues[i] - lastValues[i]) * BarsRate;
        i := i + 1;
      }
    }

    /** The environment one orbs frame sees, from the frequency buffer and the mouse. */
    function OrbEnv(freq: seq<Byte>, mouseX: real, mouseY: real): Env
      reads this
    {
      Env(mouseX, mouseY, width as real, height as real, Bass(freq), phase)
    }

    /**
     * The `forEach` of `drawFloatingOrbs`: every orb takes one step driven by its
     * own frequency slice. An orb that fits the canvas ends inside it.
     */
    method StepOrbs(freq: seq<Byte>, mouseX: real, mouseY: real, m: MathLib)
      requires Valid() && OrbCount <= |freq| && SqrtLaw(m)
      modifies this`orbs
      ensures Valid()
      ensures forall i :: 0 <= i < OrbCount ==> orbs[i] == OrbFrame(old(orbs[i]), i, freq, OrbEnv(freq, mouseX, mouseY), m)
      ensures forall i :: 0 <= i < OrbCount && 2.0 * old(orbs[i]).radius <= width as real
                            && 2.0 * old(orbs[i]).radius <= height as real ==>
        Inside(orbs[i], width as real, height as real)
    {
      var env := OrbEnv(freq, mouseX, mouseY);
      ghost var before := orbs;
      var i := 0;
      while i < OrbCount
        invariant 0 <= i <= OrbCount && |orbs| == OrbCount
        invariant forall k :: 0 <= k < i ==> orbs[k] == OrbFrame(before[k], k, freq, env, m)
        invariant forall k :: i <= k < OrbCount ==> orbs[k] == before[k]
      {
        orbs := orbs[i := OrbFrame(orbs[i], i, freq, env, m)];
        i := i + 1;
      }
    }

    /** The style a frame draws: none before audio is set up or for an unknown name. */
    function FrameStyle(): Option<Style>
      reads this
    {
      if isInitialized then LiveDispatch(currentVisualization) else None
    }

    /**
     * The state a style's draw routine updates, apart from the phase: the waveform
     * and the helix smooth their buffer, the bars run their own lag, the orbs move.
     */
    method Render(s: Style, data: seq<Byte>, mouseX: real, mouseY: real, m: MathLib)
      requires Valid() && isInitialized && Lawful(m) && |data| == BinCount
      modifies this`orbs, targetValues, lastValues, smoothedArray
      ensures Valid()
      ensures Rendered(s, targetValues, lastValues, smoothedArray, orbs, old(orbs), data, OrbEnv(data, mouseX, mouseY), m)
      ensures old(BuffersInByteRange()) ==> BuffersInByteRange()
    {
      match s
      case Waveform | DnaHelix =>
        var _ := SmoothData(data);
      case Bars =>
        BarsLag(data, m);
      case Orbs =>
        StepOrbs(data, mouseX, mouseY, m);
      case _ =>
    }

    /**
     * One animation frame of `draw`: the buffer the style reads, then the state it
     * updates, then its phase step. A frame before audio setup or for an unknown
     * style name changes nothing.
     */
    method Frame(freq: seq<Byte>, time: seq<Byte>, mouseX: real, mouseY: real, m: MathLib)
      requires Valid() && Lawful(m) && |freq| == BinCount && |time| == BinCount
      modifies this`phase, this`orbs, targetValues, lastValues, smoothedArray
      ensures Valid()
      ensures FrameStyle().None? ==>
        && phase == old(phase) && orbs == old(orbs)
        && targetValues[..] == old(targetValues[..]) && lastValues[..] == old(lastValues[..])
        && smoothedArray[..] == old(smoothedArray[..])
      ensures FrameStyle().Some? ==>
        var s := FrameStyle().value;
        var data := if RouteOf(s).buffer == TimeDomain then time else freq;
        && phase == old(phase) + StepSize(RouteOf(s).phaseStep, Bass(data))
        && old(phase) + 0.01 <= phase <= old(phase) + 0.05
        && Rendered(s, targetValues, lastValues, smoothedArray, orbs, old(orbs), data, old(OrbEnv(data, mouseX, mouseY)), m)
      ensures old(BuffersInByteRange()) ==> BuffersInByteRange()
    {
      if !isInitialized {
        return;
      }
      var style := LiveDispatch(currentVisualization);
      if style.None? {
        return;
      }
      var s := style.value;
      var route := RouteOf(s);
      var data := if route.buffer == TimeDomain then time else freq;
      Render(s, data, mouseX, mouseY, m);
      var step := StepSize(route.phaseStep, Bass(data));
      assert 0.01 <= step <= 0.05;
      phase := phase + step;
    }

    /** `transitionToVisualization(name)`: the cross-fade's request. */
    method TransitionTo(name: string)
      requires Valid()
      modifies this`isTransitioning, this`fade, this`opacity
      ensures Valid()
      ensures TransitionState() == Request(old(TransitionState()), name)
    {
      if isTransitioning {
        return;
      }
      isTransitioning := true;
      fade := FadingOut(name);
      opacity := FullOpacity;
    }

    /** One 20 ms tick of the live fade interval. */
    method FadeTick()
      requires Valid()
      modifies this`isTransitioning, this`fade, this`opacity, this`currentVisualization
      ensures Valid()
      ensures TransitionState() == Tick(old(TransitionState()))
    {
      match fade
      case Idle =>
      case FadingOut(pending) =>
        opacity := opacity - 1;
        if opacity <= 0 {
          currentVisualization := pending;
          fade := FadingIn;
          opacity := 0;
        }
      case FadingIn =>
        opacity := opacity + 1;
        if opacity >= FullOpacity {
          fade := Idle;
          isTransitioning := false;
        }
    }

    /**
     * One 8-second shuffle tick: skipped while a fade runs; otherwise it picks, by
     * `PickShuffleIndex`, a listed style other than the current one and requests it.
     */
    method ShuffleTick(draws: seq<real>)
      requires Valid() && UnitDraws(draws)
      requires 0 < |draws| && DrawIndex(draws[|draws| - 1]) != IndexOf(VisualizationTypes, currentVisualization)
      modifies this`isTransitioning, this`fade, this`opacity
      ensures Valid()
      ensures old(isTransitioning) ==> TransitionState() == old(TransitionState())
      ensures !old(isTransitioning) ==>
        && fade.FadingOut?
        && fade.pending in VisualizationTypes && fade.pending != currentVisualization
        && TransitionState() == Request(old(TransitionState()), fade.pending)
        && fade.pending == VisualizationTypes[DrawIndex(draws[FirstMiss(old(IndexOf(VisualizationTypes, currentVisualization)), draws)])]
    {
      if isTransitioning {
        return;
      }
      var currentIndex := IndexOf(VisualizationTypes, currentVisualization);
      var nextIndex, _ := PickShuffleIndex(currentIndex, draws);
      var newVisualization := VisualizationTypes[nextIndex];
      if 0 <= currentIndex {
        NamesDistinct(nextIndex, currentIndex);
      }
      TransitionTo(newVisualization);
    }

    /** A window resize: the canvas takes its new size and the orbs are drawn afresh for it. */
    method Resize(newWidth: nat, newHeight: nat, draws: seq<real>)
      requires Valid() && OrbDraws(draws)
      modifies this`width, this`height, this`orbs
      ensures Valid() && width == newWidth && height == newHeight
      ensures forall i :: 0 <= i < OrbCount ==> Spawned(orbs[i], i, newWidth as real, newHeight as real)
    {
      width := newWidth;
      height := newHeight;
      orbs := InitOrbs(width as real, height as real, draws);
    }
  }
}
