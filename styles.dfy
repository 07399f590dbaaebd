/**
 * The eleven visual styles, their names, and the two dispatch switches of the
 * source: the live per-frame switch inside `startVisualization` and the unused
 * `draw()` method. Each style declares which analyser buffer it reads, whether
 * the buffer goes through `smoothData`, and how far it advances the phase.
 */
module Styles {
  import opened Options

  datatype Style =
    | AuroraWaves | Waveform | Bars | Circular | Arctic | Particles
    | Spectrum | Dna | Orbs | DnaHelix | FractalTree

  /** `visualizationTypes`, in the source's order (the shuffle draws indices into it). */
  const VisualizationTypes: seq<string> :=
    ["auroraWaves", "waveform", "bars", "circular", "arctic",
     "particles", "spectrum", "dna", "orbs", "dnaHelix", "fractalTree"]

  function Name(s: Style): string
  {
    match s
    case AuroraWaves => "auroraWaves"
    case Waveform => "waveform"
    case Bars => "bars"
    case Circular => "circular"
    case Arctic => "arctic"
    case Particles => "particles"
    case Spectrum => "spectrum"
    case Dna => "dna"
    case Orbs => "orbs"
    case DnaHelix => "dnaHelix"
    case FractalTree => "fractalTree"
  }

  /**
   * The live per-frame switch: a name selects its style, and a name outside the
   * list selects nothing (the switch has no default arm, so nothing is drawn).
   */
  function LiveDispatch(name: string): (r: Option<Style>)
    ensures r.Some? <==> name in VisualizationTypes
    ensures r.Some? ==> Name(r.value) == name
  {
    if name == "auroraWaves" then Some(AuroraWaves)
    else if name == "waveform" then Some(Waveform)
    else if name == "bars" then Some(Bars)
    else if name == "circular" then Some(Circular)
    else if name == "arctic" then Some(Arctic)
    else if name == "particles" then Some(Particles)
    else if name == "spectrum" then Some(Spectrum)
    else if name == "dna" then Some(Dna)
    else if name == "orbs" then Some(Orbs)
    else if name == "dnaHelix" then Some(DnaHelix)
    else if name == "fractalTree" then Some(FractalTree)
    else None
  }

  /** Every style's name selects that style again. */
  lemma DispatchName(s: Style)
    ensures LiveDispatch(Name(s)) == Some(s)
    ensures Name(s) in VisualizationTypes
  {
  }

  /**
   * The `switch` of the unused `draw()` method: it has no `'particles'` arm and
   * falls back to the waveform for every name it does not list. Every other
   * listed name selects its own style.
   */
  function LegacyDispatch(name: string): (r: Style)
    ensures r != Particles
    ensures r != Waveform ==> Name(r) == name
    ensures name in VisualizationTypes && name != "particles" ==> Name(r) == name
  {
    if name == "waveform" then Waveform
    else if name == "bars" then Bars
    else if name == "circular" then Circular
    else if name == "arctic" then Arctic
    else if name == "auroraWaves" then AuroraWaves
    else if name == "spectrum" then Spectrum
    else if name == "dna" then Dna
    else if name == "orbs" then Orbs
    else if name == "dnaHelix" then DnaHelix
    else if name == "fractalTree" then FractalTree
    else Waveform
  }

  /**
   * The two switches agree on every listed name except `'particles'`, which the
   * unused one draws as a waveform; an unknown name draws nothing live and a
   * waveform in the unused switch.
   */
  lemma LegacyDiffersOnlyOnParticlesAndUnknown(name: string)
    ensures LiveDispatch(name).Some? && LiveDispatch(name).value != Particles ==>
      LegacyDispatch(name) == LiveDispatch(name).value
    ensures LiveDispatch(name) == Some(Particles) ==> LegacyDispatch(name) == Waveform
    ensures LiveDispatch(name).None? ==> LegacyDispatch(name) == Waveform
  {
  }

  datatype Buffer = TimeDomain | Frequency

  /** How far a style advances the phase: a fixed step, or one scaled by the bass. */
  datatype PhaseStep = Fixed(step: real) | BassScaled(base: real)

  /**
   * `base * (1 + bassIntensity * 0.5)` for the bass-scaled styles: for a bass in
   * [0, 1] between the base step and one and a half times it.
   */
  function StepSize(p: PhaseStep, bass: real): (r: real)
    ensures p.Fixed? ==> r == p.step
    ensures p.BassScaled? ==> r == p.base * (1.0 + bass * 0.5)
    ensures p.BassScaled? && 0.0 <= p.base && 0.0 <= bass ==> p.base <= r
    ensures p.BassScaled? && 0.0 <= p.base && bass <= 1.0 ==> r <= 1.5 * p.base
  {
    match p
    case Fixed(d) => d
    case BassScaled(b) => b * (1.0 + bass * 0.5)
  }

  /** What one frame of a style needs: its buffer, whether it is smoothed first, its phase step. */
  datatype Route = Route(buffer: Buffer, smoothed: bool, phaseStep: PhaseStep)

  /**
   * The per-frame dispatch table: time-domain data for the waveform and arctic
   * styles and frequency data for the rest; `smoothData` for the waveform and the
   * helix; and the `this.phase += ...` of each draw routine.
   */
  function RouteOf(s: Style): (r: Route)
    ensures r.buffer == TimeDomain <==> s == Waveform || s == Arctic
    ensures r.smoothed <==> s == Waveform || s == DnaHelix
    ensures r.phaseStep.BassScaled? <==> s in {Particles, AuroraWaves, Orbs}
    ensures forall bass :: 0.0 <= bass <= 1.0 ==> 0.01 <= StepSize(r.phaseStep, bass) <= 0.05
    ensures s in {Particles, AuroraWaves} ==> r.phaseStep == BassScaled(0.01)
    ensures s == Orbs ==> r.phaseStep == BassScaled(0.02)
    ensures s in {Waveform, Dna, DnaHelix} ==> r.phaseStep == Fixed(0.05)
    ensures s == Bars ==> r.phaseStep == Fixed(0.03)
    ensures s == Circular ==> r.phaseStep == Fixed(0.025)
    ensures s in {Arctic, Spectrum, FractalTree} ==> r.phaseStep == Fixed(0.02)
  {
    match s
    case AuroraWaves => Route(Frequency, false, BassScaled(0.01))
    case Waveform => Route(TimeDomain, true, Fixed(0.05))
    case Bars => Route(Frequency, false, Fixed(0.03))
    case Circular => Route(Frequency, false, Fixed(0.025))
    case Arctic => Route(TimeDomain, false, Fixed(0.02))
    case Particles => Route(Frequency, false, BassScaled(0.01))
    case Spectrum => Route(Frequency, false, Fixed(0.02))
    case Dna => Route(Frequency, false, Fixed(0.05))
    case Orbs => Route(Frequency, false, BassScaled(0.02))
    case DnaHelix => Route(Frequency, true, Fixed(0.05))
    case FractalTree => Route(Frequency, false, Fixed(0.02))
  }

  /**
   * Over `t` frames of one style with a steady bass the phase advances by exactly
   * `t` steps: it moves once per rendered frame and never depends on elapsed time.
   */
  function PhaseAfter(phase: real, s: Style, bass: real, t: nat): real
  {
    if t == 0 then phase else PhaseAfter(phase, s, bass, t - 1) + StepSize(RouteOf(s).phaseStep, bass)
  }

  lemma {:induction false} PhaseAdvancesLinearly(phase: real, s: Style, bass: real, t: nat)
    requires 0.0 <= bass <= 1.0
    ensures PhaseAfter(phase, s, bass, t) == phase + t as real * StepSize(RouteOf(s).phaseStep, bass)
    ensures phase + 0.01 * t as real <= PhaseAfter(phase, s, bass, t) <= phase + 0.05 * t as real
  {
    if t > 0 {
      PhaseAdvancesLinearly(phase, s, bass, t - 1);
    }
  }

  /** The number of styles and the shuffle's draw: `Math.floor(Math.random() * 11)`. */
  function DrawIndex(rnd: real): (r: int)
    requires 0.0 <= rnd < 1.0
    ensures 0 <= r < |VisualizationTypes|
  {
    var x := rnd * |VisualizationTypes| as real;
    assert x < |VisualizationTypes| as real;
    x.Floor
  }

  /** The style names are distinct, so a position names one style only. */
  lemma NamesDistinct(i: nat, j: nat)
    requires i < |VisualizationTypes| && j < |VisualizationTypes| && i != j
    ensures VisualizationTypes[i] != VisualizationTypes[j]
  {
  }

  /** `Array.prototype.indexOf`: the first position of `name`, or -1. */
  function IndexOf(names: seq<string>, name: string): (r: int)
    ensures -1 <= r < |names|
    ensures r == -1 <==> name !in names
    ensures 0 <= r ==> names[r] == name && forall j :: 0 <= j < r ==> names[j] != name
  {
    if names == [] then -1
    else if names[0] == name then 0
    else
      var k := IndexOf(names[1..], name);
      if k == -1 then -1 else k + 1
  }
}
