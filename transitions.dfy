/**
 * The cross-fade of `transitionToVisualization` as a state machine. Its two
 * `setInterval` callbacks (fade-out, then fade-in, each every 20 ms) become one
 * `Tick`; the canvas opacity is counted in steps of 0.05, so 20 stands for 1.0.
 */
module Transitions {
  const FullOpacity: int := 20

  /** Which interval is live, and the style the fade-out will switch to. */
  datatype Fade = Idle | FadingOut(pending: string) | FadingIn

  datatype Transition = Transition(transitioning: bool, current: string, fade: Fade, opacity: int)

  /**
   * The states the callbacks can reach: the flag is set exactly while a fade runs,
   * a fade-out has opacity left to lose, a fade-in has opacity left to gain, and an
   * idle canvas is fully opaque.
   */
  predicate WellFormed(t: Transition)
  {
    && (t.transitioning <==> !t.fade.Idle?)
    && (t.fade.FadingOut? ==> 0 < t.opacity <= FullOpacity)
    && (t.fade.FadingIn? ==> 0 <= t.opacity < FullOpacity)
    && (t.fade.Idle? ==> t.opacity == FullOpacity)
  }

  /** The state before any request: the waveform style, fully opaque. */
  function Initial(): (t: Transition)
    ensures WellFormed(t) && !t.transitioning && t.current == "waveform"
  {
    Transition(false, "waveform", Idle, FullOpacity)
  }

  /**
   * `transitionToVisualization(name)`: dropped while a transition is in flight;
   * otherwise it raises the flag and starts the fade-out from full opacity.
   */
  function Request(t: Transition, name: string): (r: Transition)
    requires WellFormed(t)
    ensures WellFormed(r)
    ensures t.transitioning ==> r == t
    ensures !t.transitioning ==> r.transitioning && r.fade == FadingOut(name) && r.current == t.current
  {
    if t.transitioning then t
    else t.(transitioning := true, fade := FadingOut(name), opacity := FullOpacity)
  }

  /**
   * One 20 ms tick of whichever interval is live. The fade-out lowers the opacity,
   * and when it reaches zero switches the style and starts the fade-in; the
   * fade-in raises the opacity and, once it is full again, lowers the flag.
   */
  function Tick(t: Transition): (r: Transition)
    requires WellFormed(t)
    ensures WellFormed(r)
    ensures t.fade.FadingOut? ==> r.opacity < t.opacity
    ensures t.fade.FadingIn? ==> r.opacity > t.opacity
    ensures r.current != t.current ==> t.fade == FadingOut(r.current) && r.fade == FadingIn && r.opacity == 0
    ensures t.transitioning && !r.transitioning ==> t.fade.FadingIn? && r.opacity >= FullOpacity
    ensures t.fade.Idle? ==> r == t
  {
    match t.fade
    case Idle => t
    case FadingOut(pending) =>
      var o := t.opacity - 1;
      if o <= 0 then t.(current := pending, fade := FadingIn, opacity := 0)
      else t.(opacity := o)
    case FadingIn =>
      var o := t.opacity + 1;
      if o >= FullOpacity then t.(transitioning := false, fade := Idle, opacity := o)
      else t.(opacity := o)
  }

  function Ticks(t: Transition, n: nat): (r: Transition)
    requires WellFormed(t)
    ensures WellFormed(r)
  {
    if n == 0 then t else Tick(Ticks(t, n - 1))
  }

  /**
   * The timeline of an accepted request: for 20 ticks the old style fades out,
   * one step per tick; at the 20th the style becomes the requested one (its only
   * change); 20 more ticks fade it in; after 40 ticks the controller is idle
   * again and accepts requests. Requests in between are dropped by `Request`.
   */
  lemma {:induction false} AcceptedRequestTimeline(t: Transition, name: string, k: nat)
    requires WellFormed(t) && !t.transitioning && k <= 2 * FullOpacity
    ensures var u := Ticks(Request(t, name), k);
      && (k < FullOpacity ==> u.current == t.current && u.fade == FadingOut(name) && u.opacity == FullOpacity - k)
      && (FullOpacity <= k < 2 * FullOpacity ==> u.current == name && u.fade == FadingIn && u.opacity == k - FullOpacity)
      && (k == 2 * FullOpacity ==> u.current == name && u.fade == Idle && !u.transitioning && u.opacity == FullOpacity)
      && (k < 2 * FullOpacity ==> u.transitioning)
  {
    if k > 0 {
      AcceptedRequestTimeline(t, name, k - 1);
    }
  }

  /** While a fade runs, any number of requests in between leave the state as it was. */
  lemma {:induction false} RequestsDuringFadeIgnored(t: Transition, names: seq<string>)
    requires WellFormed(t) && t.transitioning
    ensures RequestAll(t, names) == t
    decreases |names|
  {
    if names != [] {
      RequestsDuringFadeIgnored(t, names[1..]);
    }
  }

  function RequestAll(t: Transition, names: seq<string>): (r: Transition)
    requires WellFormed(t)
    ensures WellFormed(r)
    decreases |names|
  {
    if names == [] then t else RequestAll(Request(t, names[0]), names[1..])
  }
}
