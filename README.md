# Music visualizer core, modelled in Dafny

`app.js` is a browser music visualizer: a single class, `MusicVisualizer`, that
reads an analyser node's byte buffers once per animation frame and draws one of
eleven styles on a canvas. Beneath the drawing calls sits a small amount of
stateful logic, and this project models it:

- **Smoothing.** Three persistent buffers (`targetValues`, `lastValues`,
  `smoothedArray`) are filled with 128 when audio is set up. `smoothData` runs
  over them every frame in three stages:
  - a noise gate around 128;
  - a lag of rate 0.4;
  - a 0.6 / 0.4 blend.
- **The bars' own lag.** It shares the first 64 entries of `targetValues` and
  `lastValues` with the smoother, at rate 0.2.
- **Index and partition arithmetic.** This covers the nearest-sample lookups
  `Math.floor((i / count) * length)`, the bass / mid / treble bands and the
  twelve per-orb frequency slices.
- **The orb physics step.** Every orb goes through:
  - repulsion from the pointer;
  - movement scaled by the music;
  - the orbit nudge;
  - the edge bounce with clamping;
  - drag and the speed cap.

  `initOrbs` draws fresh orbs.
- **The per-frame dispatch.** It determines which buffer each style reads,
  whether the buffer is smoothed first, and how far the style advances the
  shared phase.
- **The style cross-fade and the shuffle.** The cross-fade is a state machine
  of fade-out and fade-in ticks that drops requests while a fade runs. The
  shuffle retries random draws until one differs from the current style.

The files follow that structure:

| file | module | contents |
|---|---|---|
| `options.dfy` | `Options` | `Option` |
| `maths.dfy` | `Maths` | the abstract maths library (`sqrt`, `atan2`, `cos`, `sin`, `pow(·, 1.5)`) passed as a value; small arithmetic lemmas |
| `samples.dfy` | `Samples` | bytes, `slice`/`reduce`, the band split, the orb slices |
| `indices.dfy` | `Indices` | the sample index arithmetic of the styles |
| `smoothing.dfy` | `Smoothing` | one buffer index of `smoothData`, and what repeated frames do to it |
| `styles.dfy` | `Styles` | style names, the live and the unused dispatch switch, the routing table |
| `transitions.dfy` | `Transitions` | the cross-fade as a state machine |
| `orb_physics.dfy` | `OrbPhysics` | one orb's update, stage by stage; `initOrbs` |
| `visualizer.dfy` | `Visualizer` | the `MusicVisualizer` class: its fields, and methods that update them in place |

Modelling choices:

- **Exact reals and integer lookups.** Arithmetic is over exact `real`s. Every
  lookup `Math.floor((i / count) * n)` is the integer quotient `(i * n) / count`.
  `Indices.FloorOfProgress` proves the two agree.
- **Abstract maths.** The square root, the trigonometry and `Math.pow(x, 1.5)`
  are fields of a `MathLib` value. Two predicates state the only facts used:
  - `SqrtLaw`: the square root is non-negative and squares back.
  - `PowLaw`: `pow(x, 1.5)` lies in `[0, x]` on `[0, 1]`.
- **Random draws.** `Math.random()` becomes an explicit sequence of draws in `[0, 1)`.
- **Opacity.** The canvas opacity is counted in steps of 0.05, so 20 stands for 1.0.
- **Timers.** The two `setInterval` callbacks of the cross-fade become one
  `FadeTick`.
- **Frames.** One `requestAnimationFrame` callback becomes one `Frame`.
- **Orbs.** They are a sequence of immutable records. Each orb step reassigns
  the field `orbs`.

Points where the code does something other than its comments, its names or a
first reading suggest; the model follows the code:

- The live per-frame `switch` (app.js:352-395) has no default arm, so an
  unknown style name draws nothing. The waveform fallback is found only in the
  `draw()` method (app.js:1481-1515), which is never called and which also
  lacks a `'particles'` arm. The model keeps both switches, `LiveDispatch` and
  `LegacyDispatch`, and proves exactly where they differ.
- The band means divide by the fixed counts 10, 90 and `length - 100`, not by
  the size of the slice. So with exactly 100 bins the treble mean is `0 / 0`,
  which the model writes as `None`.
- `dnaHelix` smooths the *frequency* buffer, so the smoother's noise gate
  around 128 is applied to frequency magnitudes as well.
- The constructor draws the first orbs for the canvas size the constructor
  itself finds. `resizeCanvas` only sets the displayed size afterwards, so the
  constructor takes both sizes.
- `drawArcticWaves` samples `x = 0, 2, …` while `x <= width`. For a positive
  even width this reaches `x == width` and reads `dataArray[length]`, which is
  `undefined`. On a positive width that point is never drawn: the curve loop
  stops before it, `moveTo` reads point 0, and a sparkle never looks it up
  (`OutOfRangePointIsLast`, `SparkleReadsInRangeSample`). A zero-width canvas
  is different. Its single point has progress `0 / 0` and reads
  `dataArray[NaN]`. `moveTo` draws that point, and every sparkle looks it up
  (`ArcticIndex` returns `None` there; `ZeroWidthSparkleReadsNaN`).
- The smoothing settles on the gated sample, not on the raw one. A constant raw
  input of 127 or 129 is gated to 128, so the buffers settle at 128, one away
  from the raw input (`NearCentreGatedToCentre`, `RestingCellStays`).
- The smoothed value approaches a constant input monotonically whenever it
  trails the lag value on the same side of the input; that holds from the
  initial state, where both are 128. Without that order it can first move
  away (`SmoothedCanMoveAway`), for instance after the bars style has moved
  the lag values alone. The 60-frame settling bound holds from every state
  in byte range all the same.

## Model

| member | source | states |
|---|---|---|
| Samples.Sum | app.js:763-765 | the `reduce` sum of a byte slice lies in `[0, 255 * length]` |
| Samples.SumConcat | app.js:763-765 | the sum of a concatenation is the sum of its two parts |
| Samples.Slice | app.js:1080 | `slice(lo, hi)` is `s[lo..hi]` when in bounds, `s[lo..]` when only the end is past the length, empty when the start is at or past the end, never longer than `hi - lo` |
| Samples.Bass | app.js:763-767 | the bass intensity lies in `[0, 1]` and at every buffer length is the sum of `slice(0, 10)` over 2550, the sum of bins 0 to 9 once there are ten |
| Samples.Mid | app.js:764-768 | the mid intensity lies in `[0, 1]` and at every buffer length is the sum of `slice(10, 100)` over 90 · 255, the sum of bins 10 to 99 once there are a hundred |
| Samples.Treble | app.js:765-769 | the treble mean is undefined exactly when there are 100 bins, zero below that, and with more bins lies in `[0, 1]` and is the sum of bins 100 onwards over `255 (length - 100)` |
| Samples.MeanOver255 | app.js:765-769 | a total of `count` bytes divided by `count` and by 255 lies in `[0, 1]` and times `255 count` gives the total back |
| Samples.BandsPartition | app.js:763-765 | from 100 bins on, the three band slices have lengths 10, 90 and `length - 100`, lie end to end, give back the whole buffer, and their sums add up to the total |
| Samples.OrbSliceStart | app.js:1078 | `floor(i / 12 · n)` is the largest `r` with `12 r <= i n`; it is 0 for the first orb and at most `n` for `i <= 12` |
| Samples.OrbSliceEnd | app.js:1079 | an orb's slice ends where the next orb's slice starts, never before its own start, at most at `n`, and exactly at `n` for the last orb |
| Samples.OrbSliceBounds | app.js:1078-1079 | orb slice boundaries start at 0, end at the length, never decrease, stay within the buffer, and each slice is non-empty once there are at least 12 bins |
| Samples.OrbSlicesPrefix | app.js:1078-1080 | the first `k` orb slices laid end to end are the prefix up to slice `k`'s start |
| Samples.OrbSlicesCover | app.js:1078-1080 | the twelve orb slices laid end to end are exactly the buffer: contiguous, disjoint, covering |
| Samples.OrbIntensity | app.js:1078-1081 | an orb's intensity is undefined (0 / 0) exactly when its slice is empty, which cannot happen with at least 12 bins; a defined one lies in `[0, 1]` and is its own non-empty slice's mean over 255 |
| Samples.SliceMean | app.js:1081 | the mean of a non-empty slice over 255 lies in `[0, 1]` and is the slice's scaled mean |
| Indices.ScaledIndex | app.js:420 | `floor(i / count * n)` is below `n` for `i < count` and at most `n` for `i <= count` |
| Indices.FloorOfProgress | app.js:419-420 | over exact reals, the floor of `(i / count) * n` equals the integer quotient `(i * n) / count` |
| Indices.WaveformIndex | app.js:417-420 | each canvas column of the waveform reads a sample inside the buffer |
| Indices.SpectrumIndex | app.js:896-897 | each of the 180 spectrum bars reads a sample inside the buffer |
| Indices.HelixIndex | app.js:963-964 | each of the 50 helix points (`drawDNAHelix`, and identically `drawDNA` at app.js:1010) reads a sample inside the buffer |
| Indices.ArcticIndex | app.js:681-684 | an arctic point on a zero-width canvas has no index (NaN progress); otherwise its index is at most the length and equals it exactly at `x == width` |
| Indices.SampleAt | app.js:684 | reading the buffer gives `data[index]` exactly when the index is below the length, and `undefined` otherwise |
| Indices.ArcticSample | app.js:682-684 | the sample an arctic point reads is defined exactly when the width is positive and the index is below the length, and is then `data[(x * n) / width]` |
| Indices.ArcticSamples | app.js:681-690 | the `x += 2` loop produces `width / 2 + 1` points, point `j` at `x = 2j` reading `ArcticSample(2j)`; on a non-empty buffer a point reads a sample exactly when `2j < width` |
| Indices.ArcticReadsInside | app.js:681-684 | on a non-empty buffer an arctic point reads inside it exactly when the width is positive and the point lies left of the right edge |
| Indices.OutOfRangePointIsLast | app.js:697-704 | the point at `x == width` exists only for an even width and is the last point; on a positive width it is neither point 0 (`moveTo`) nor a point the curve loop reads |
| Indices.SparkleIndex | app.js:740-741 | `floor(sparkleX / 2)` for a draw in `[0, 1)` is a valid point index, left of the right edge on a positive width, and point 0 on a zero width |
| Indices.SparkleReadsInRangeSample | app.js:740-741 | on a positive width and a non-empty buffer a sparkle's point always has an index inside the buffer |
| Indices.ZeroWidthSparkleReadsNaN | app.js:740-741 | on a zero-width canvas every sparkle looks up point 0, whose index is NaN |
| Indices.BarIndex | app.js:481 | every bar's logarithmic bin `floor(pow(i / 64, 1.5) * n)` lies inside the buffer |
| Indices.BarX | app.js:459-477 | 64 bar pitches fill the canvas width exactly, so `startX` is 0 and bar `i` starts at `i * width / 64` |
| Smoothing.Gate | app.js:318-326 | samples 127, 128 and 129 become exactly 128 and all others pass unchanged; bytes stay bytes |
| Smoothing.Lag | app.js:330-331 | the lag leaves `(1 - rate)` of the distance to the target and lands between the old value and the target |
| Smoothing.Blend | app.js:332-333 | the blend lies between the smoothed and the lag value and leaves 0.6 of their gap |
| Smoothing.Step | app.js:329-334 | one frame at one index: the lag value keeps 0.6 of its distance to the target without passing it, and the smoothed value keeps 0.6 of its distance to the new lag value |
| Smoothing.StepErrors | app.js:329-334 | after one frame the lag error is 0.6 of the old one and the smoothed error is `0.4` of the new lag error plus `0.6` of the old smoothed error |
| Smoothing.StepStaysInByteRange | app.js:329-334 | buffers and input in `[0, 255]` stay in `[0, 255]` after a frame |
| Smoothing.StepMovesToward | app.js:329-334 | when the smoothed value trails the lag value towards the target, one frame keeps that order and moves both towards the target without overshoot |
| Smoothing.ConstantInputMonotone | app.js:329-334 | under a constant gated input (128 for raw inputs 127–129), from any cell whose smoothed value trails its lag value towards it (the initial state included), both values move monotonically towards it, keep that order and never pass it |
| Smoothing.SmoothedCanMoveAway | app.js:329-334 | without that order monotonicity can fail: from lag 200, smoothed 10 and input 10 the smoothed value moves to 55.6 |
| Smoothing.NearCentreGatedToCentre | app.js:318-324 | raw samples 127 and 129 are gated to 128 |
| Smoothing.RestingCellStays | app.js:329-334 | a cell whose lag and smoothed values equal the target stays there, so under the gated input 128 the buffers rest at 128 |
| Smoothing.ConstantInputErrors | app.js:329-334 | under a constant input, from any cell, the two errors follow the recurrences `LastError` and `SmoothedError` |
| Smoothing.ErrorClosedForm | app.js:329-334 | those recurrences solve to `0.6^n eLast` and `0.6^n (eSmoothed + 0.4 n eLast)` |
| Smoothing.ConstantInputClosedForm | app.js:329-334 | under a constant input `k`, after `n` frames from any cell the lag error is `0.6^n (k - last)` and the smoothed error `0.6^n ((k - smoothed) + 0.4 n (k - last))` |
| Smoothing.SettlesOnceSmall | app.js:329-334 | once `0.6^n` is below `1e-12` (with `n <= 60`), the smoothed value is within 0.01 of the gated input (128 for raw inputs 127–129), from any lag and smoothed values in byte range |
| Smoothing.ErrorFactor | app.js:329-334 | the factor `eSmoothed + 0.4 n eLast` stays within 6375 in size for byte-sized errors and `n <= 60` |
| Smoothing.SettlesWithinSixtyFrames | app.js:329-334 | sixty frames of a constant gated byte input (128 for raw inputs 127–129) bring the smoothed value within 0.01 of it from every state whose lag and smoothed values lie in `[0, 255]`, also the ones the bars style leaves behind |
| Styles.LiveDispatch | app.js:352-395 | the live switch selects a style exactly for the eleven listed names, namely the style of that name, and nothing for any other name |
| Styles.DispatchName | app.js:16-19 | every style's name is listed and selects that style |
| Styles.LegacyDiffersOnlyOnParticlesAndUnknown | app.js:1481-1515 | the unused `draw()` switch agrees with the live one on every listed name except `'particles'`, and draws the waveform for `'particles'` and for every unknown name |
| Styles.LegacyDispatch | app.js:1481-1515 | the unused `draw()` switch never selects particles, selects the waveform for every name it lacks, and selects its own style for every other listed name |
| Styles.StepSize | app.js:865 | a fixed step is used as is; a bass-scaled step is `base (1 + bass / 2)`, between the base and one and a half times it for a bass in `[0, 1]` |
| Styles.RouteOf | app.js:344-396 | time-domain data exactly for waveform and arctic, smoothing exactly for waveform and dnaHelix, a bass-scaled step exactly for particles, auroraWaves and orbs, each style's step constant, every step within `[0.01, 0.05]` |
| Styles.PhaseAdvancesLinearly | app.js:453 | over `t` frames of one style with a steady bass the phase advances by exactly `t` steps, between `0.01 t` and `0.05 t` |
| Styles.DrawIndex | app.js:135 | `floor(random * 11)` is a valid style index |
| Styles.NamesDistinct | app.js:16-19 | distinct positions of the style list hold distinct names |
| Styles.IndexOf | app.js:132 | `indexOf` gives -1 exactly for an absent name, and otherwise the first position holding the name |
| Transitions.Initial | app.js:8-15 | the initial state is the waveform style, not transitioning, and well formed |
| Transitions.Request | app.js:33-38 | a request during a fade changes nothing; otherwise it raises the flag and starts the fade-out towards the name, keeping the current style |
| Transitions.Tick | app.js:39-58 | fade-out strictly lowers the opacity and fade-in strictly raises it; the style changes only at the end of the fade-out, to the pending name, with opacity 0; the flag drops only at the end of the fade-in, with opacity full; idle ticks change nothing |
| Transitions.AcceptedRequestTimeline | app.js:33-60 | an accepted request fades out for 20 ticks, switches the style exactly at tick 20, fades in for 20 more, and is idle and fully opaque at tick 40 |
| Transitions.RequestsDuringFadeIgnored | app.js:34 | any sequence of requests during a fade leaves the state unchanged |
| OrbPhysics.MaxSpeed | app.js:1115 | the speed cap `3 + 4 bass` is at least 3 and, for a bass at most 1, at most 7 |
| OrbPhysics.DistToMouse | app.js:1063-1065 | the distance to the pointer is non-negative and its square is `dx² + dy²` |
| OrbPhysics.Repel | app.js:1066-1075 | repulsion only changes the speed, and only within 150 px of the pointer |
| OrbPhysics.SpeedMultiplier | app.js:1084 | the music multiplier lies in `[1, 5.5]` for intensities in `[0, 1]` |
| OrbPhysics.Advance | app.js:1085-1086 | the position moves by speed times the multiplier; the speed is untouched |
| OrbPhysics.Orbit | app.js:1089-1093 | the orbit nudge only changes the speed, and only farther than 300 px from the pointer |
| OrbPhysics.Bounce | app.js:1096-1110 | an orb past an edge is clamped onto it with its speed turned inwards and scaled by `1 + bass`; one inside is untouched; when the canvas fits the orb it ends inside |
| OrbPhysics.BounceEdges | app.js:1096-1110 | the bounce keeps radius and hue |
| OrbPhysics.Dragged | app.js:1113-1114 | the drag scales both speed components by the one factor 0.98, so the direction is kept; position, radius and hue are kept |
| OrbPhysics.DraggedIsSlower | app.js:1113-1114 | the drag never increases the squared speed |
| OrbPhysics.Damp | app.js:1112-1121 | the dragged speed `0.98 v` is kept when within `3 + 4 bass` and otherwise scaled to exactly that size; the new speed is the old one times one factor in `(0, 0.98]`, so no component flips sign; the position is untouched and the speed ends within the cap |
| OrbPhysics.CapBound | app.js:1116-1120 | a speed is within the cap exactly when its square is; above it, the scale `maxSpeed / currentSpeed` lies in `(0, 1)` and gives exactly the cap as the new size |
| OrbPhysics.PreBounce | app.js:1061-1093 | repulsion, movement and the orbit nudge keep the radius and hue |
| OrbPhysics.OrbStep | app.js:1061-1121 | one orb's frame keeps its radius and hue, ends with its squared speed at most `(3 + 4 bass)^2`, and leaves an orb that fits the canvas at least its radius from every edge |
| OrbPhysics.StepBouncesInward | app.js:1096-1121 | after a left or top bounce the speed component is non-negative, after a right or bottom bounce non-positive |
| OrbPhysics.Scale | app.js:1183-1184 | `random * extent` lies in `[0, extent)` (or is 0 for an empty extent) |
| OrbPhysics.InitOrbs | app.js:1177-1192 | twelve orbs, orb `i` with position on the canvas, radius in `[10, 25)`, hue `30 i`, speeds in `[-0.75, 0.75)` |
| Visualizer.OrbFrame | app.js:1061-1121 | an orb's frame driven by its own slice keeps its radius and hue, caps its speed at `3 + 4 bass`, and keeps an orb that fits the canvas inside it |
| Visualizer.FirstMiss | app.js:133-136 | the first draw that falls on a style other than the current one: it misses the current style and every earlier draw hits it |
| Visualizer.PickShuffleIndex | app.js:133-136 | the retry loop accepts the first draw whose index differs from the current one (`FirstMiss`): a valid index, different from it, with every earlier draw equal to it |
| Visualizer.MusicVisualizer.constructor | app.js:2-31 | waveform style, not initialised, phase 0, no fade, empty buffers, twelve orbs spawned for the initial canvas, then the displayed size |
| Visualizer.MusicVisualizer.AudioReady | app.js:233-239 | three fresh buffers of 1024 entries each filled with 128, the flag raised, everything else unchanged |
| Visualizer.MusicVisualizer.SmoothData | app.js:312-337 | returns the smoothed buffer itself; every entry below the input length gated, lagged and blended from its old value, every later entry unchanged; byte-ranged buffers stay byte-ranged |
| Visualizer.MusicVisualizer.BarsLag | app.js:470-496 | the 64 bars take their bins' samples as targets and lag a fifth of the way there; the smoothed buffer and entries from 64 on are untouched; byte range is kept |
| Visualizer.MusicVisualizer.StepOrbs | app.js:1061-1121 | every orb takes one step driven by its slice, the bass and the phase; every orb that fits the canvas ends inside it |
| Visualizer.MusicVisualizer.Render | app.js:344-396 | the state a style's frame updates: smoothing for waveform and helix, the bars' lag, the orb step, and nothing else for every other style |
| Visualizer.MusicVisualizer.Frame | app.js:339-396 | no change before audio setup or for an unknown name; otherwise the style's buffer and state update, and the phase advances by the style's step, between 0.01 and 0.05 |
| Visualizer.MusicVisualizer.TransitionTo | app.js:33-38 | the cross-fade state becomes `Request` of the old one |
| Visualizer.MusicVisualizer.FadeTick | app.js:39-58 | the cross-fade state becomes `Tick` of the old one |
| Visualizer.MusicVisualizer.ShuffleTick | app.js:129-141 | nothing while a fade runs; otherwise a fade-out starts towards the style of the first draw that misses the current one, a listed style whose name differs from the current one, exactly as `Request` would |
| Visualizer.MusicVisualizer.Resize | app.js:27-30 | the canvas takes the new size and twelve fresh orbs are spawned for it |

## Left out

- Canvas drawing is not modelled: gradients, colour strings, shadows, composite modes, paths and arcs, and the `clearCanvas(0.1)` argument, which is ignored. They are output only.
- Audio device setup and its error messages are not modelled, because they are browser I/O. `AudioReady` stands for the point where the buffers are created. Reading the analyser's buffers is an input to `Frame`.
- DOM event wiring is not modelled: buttons, the select box, the mouse, fullscreen and visibility. The select box update in the shuffle tick is left out too, and so is restarting the animation loop.
- Timer behaviour is not modelled. `requestAnimationFrame` and `setInterval` are modelled only as discrete calls.
- Floating-point drift is not modelled. Repeated ±0.05 opacity steps may take 21 ticks instead of 20 in floating point; the integer count of steps ignores this.
- Trigonometry and square roots stay abstract, so the direction of the mouse repulsion and of the orbit nudge is not modelled.
- Indices.BarIndex: `Math.pow(x, 1.5)` is modelled only by its bounds on `[0, 1]`, so the exact bin is not computed.
- The bar height `pow(normalizedValue, 1.5)` is not modelled.
- `null` mouse coordinates counting as 0, and the truthiness test on the mouse position in the particle styles, are JavaScript coercion details. They are not modelled.
- `drawArctic` is not modelled because it is never dispatched.
- `initParticles` is not modelled because it is an empty stub.
- The particle, aurora, circular and fractal-tree styles are modelled only through their buffer and their phase step. They keep no other state between frames.
- The bars' `if (!this.targetValues.length)` reset is not modelled. It cannot fire once audio is set up, since the buffers then hold 1024 entries.
- Indices.WaveformIndex: a zero-width canvas, where `i / width` is NaN, is excluded. With no column there is no lookup.
- Indices.SparkleReadsInRangeSample: stated for a positive width only, because on a zero-width canvas every sparkle reads the point whose index is NaN (`ZeroWidthSparkleReadsNaN` states that case).
- Samples.OrbIntensity: with fewer than 12 bins a slice can be empty and the source divides 0 by 0. The model returns `None` there. `Frame` is only given buffers of 1024 bins.
- Whole-buffer averages such as `dataArray.reduce((a, b) => a + b) / length` feed drawing only, and are left out. The source's `reduce` without a start value throws on an empty array, which cannot happen with 1024 bins.
- Visualizer.PickShuffleIndex: the draws handed to it must end with one that lands on another style. `Math.random` gives no such guarantee, so the `do … while` loop terminates only with probability 1; a finite list of draws ending in a miss stands for every run that stops.
- The orbs are immutable records in a sequence that each orb step reassigns. The source mutates each orb object in place, and it has no aliasing between orbs to lose.
