/**
 * The update half of `drawFloatingOrbs` for one orb, stage by stage, in the
 * source's order: pointer repulsion, movement by speed times the music multiplier,
 * the orbit nudge, the edge bounce with clamping, then drag and the speed cap.
 * Also the ranges `initOrbs` draws a fresh orb from.
 */
module OrbPhysics {
  import opened Maths
  import opened Samples

  /** One entry of `this.orbs`. */
  datatype Orb = Orb(x: real, y: real, radius: real, baseHue: real, speedX: real, speedY: real)

  /** What one frame gives every orb alike: the pointer, the canvas, the bass, the phase. */
  datatype Env = Env(mouseX: real, mouseY: real, width: real, height: real, bass: real, phase: real)

  const MouseRadius: real := 150.0
  const MaxForce: real := 5.0
  const OrbitForce: real := 0.1
  const Drag: real := 0.98

  /** `3 + bassIntensity * 4`: at least 3, and at most 7 for a bass within [0, 1]. */
  function MaxSpeed(bass: real): (r: real)
    ensures 0.0 <= bass ==> 3.0 <= r
    ensures bass <= 1.0 ==> r <= 7.0
  {
    3.0 + bass * 4.0
  }

  /** The squared speed is within the squared cap. */
  predicate SpeedCapped(o: Orb, bass: real)
  {
    o.speedX * o.speedX + o.speedY * o.speedY <= MaxSpeed(bass) * MaxSpeed(bass)
  }

  /** `Math.sqrt(dx * dx + dy * dy)` from the orb to the pointer. */
  function DistToMouse(o: Orb, env: Env, m: MathLib): (r: real)
    ensures SqrtLaw(m) ==> 0.0 <= r
    ensures SqrtLaw(m) ==>
      r * r == (env.mouseX - o.x) * (env.mouseX - o.x) + (env.mouseY - o.y) * (env.mouseY - o.y)
  {
    var dx, dy := env.mouseX - o.x, env.mouseY - o.y;
    assert 0.0 <= dx * dx && 0.0 <= dy * dy;
    m.sqrt(dx * dx + dy * dy)
  }

  /** Within 150 px of the pointer the orb is pushed away, harder the closer it is. */
  function Repel(o: Orb, env: Env, dist: real, m: MathLib): (r: Orb)
    ensures r.x == o.x && r.y == o.y && r.radius == o.radius && r.baseHue == o.baseHue
    ensures MouseRadius <= dist ==> r == o
  {
    if dist < MouseRadius then
      var force := (1.0 - dist / MouseRadius) * MaxForce;
      var angle := m.atan2(env.mouseY - o.y, env.mouseX - o.x);
      o.(speedX := o.speedX - m.cos(angle) * force * 0.1,
         speedY := o.speedY - m.sin(angle) * force * 0.1)
    else o
  }

  /** `1 + (bassIntensity * 2 + orbIntensity) * 1.5`: at least 1 for non-negative intensities. */
  function SpeedMultiplier(bass: real, orbIntensity: real): (r: real)
    ensures 0.0 <= bass && 0.0 <= orbIntensity ==> 1.0 <= r
    ensures bass <= 1.0 && orbIntensity <= 1.0 ==> r <= 5.5
  {
    1.0 + (bass * 2.0 + orbIntensity) * 1.5
  }

  function Advance(o: Orb, multiplier: real): (r: Orb)
    ensures r.speedX == o.speedX && r.speedY == o.speedY && r.radius == o.radius
    ensures r.x - o.x == o.speedX * multiplier && r.y - o.y == o.speedY * multiplier
  {
    o.(x := o.x + o.speedX * multiplier, y := o.y + o.speedY * multiplier)
  }

  /** Farther than 300 px from the pointer the orb's speed is nudged along the phase. */
  function Orbit(o: Orb, dist: real, index: nat, orbIntensity: real, env: Env, m: MathLib): (r: Orb)
    ensures r.x == o.x && r.y == o.y && r.radius == o.radius && r.baseHue == o.baseHue
    ensures dist <= 2.0 * MouseRadius ==> r == o
  {
    if dist > 2.0 * MouseRadius then
      o.(speedX := o.speedX + m.cos(env.phase + index as real) * OrbitForce * orbIntensity,
         speedY := o.speedY + m.sin(env.phase + index as real) * OrbitForce * orbIntensity)
    else o
  }

  /** Position and speed along one axis. */
  datatype Axis = Axis(pos: real, speed: real)

  /**
   * The bounce along one axis of extent `extent`: an orb past an edge is put back
   * on it and its speed turned inwards, scaled by `1 + bass`; one inside is left
   * alone. When the canvas fits the orb, the orb ends inside.
   */
  function Bounce(a: Axis, radius: real, extent: real, bass: real): (r: Axis)
    requires 0.0 <= bass
    ensures 2.0 * radius <= extent ==> radius <= r.pos <= extent - radius
    ensures a.pos < radius ==> r.pos == radius && 0.0 <= r.speed
    ensures !(a.pos < radius) && a.pos > extent - radius ==> r.pos == extent - radius && r.speed <= 0.0
    ensures r != a ==> RealAbs(r.speed) == RealAbs(a.speed) * (1.0 + bass)
    ensures radius <= a.pos <= extent - radius ==> r == a
  {
    if a.pos < radius then Axis(radius, RealAbs(a.speed) * (1.0 + bass))
    else if a.pos > extent - radius then Axis(extent - radius, -RealAbs(a.speed) * (1.0 + bass))
    else a
  }

  function BounceEdges(o: Orb, env: Env): (r: Orb)
    requires 0.0 <= env.bass
    ensures r.radius == o.radius && r.baseHue == o.baseHue
  {
    var alongX := Bounce(Axis(o.x, o.speedX), o.radius, env.width, env.bass);
    var alongY := Bounce(Axis(o.y, o.speedY), o.radius, env.height, env.bass);
    o.(x := alongX.pos, speedX := alongX.speed, y := alongY.pos, speedY := alongY.speed)
  }

  /** The orb with its speed after the 0.98 drag: the same direction, and nothing else changed. */
  function Dragged(o: Orb): (r: Orb)
    ensures r.x == o.x && r.y == o.y && r.radius == o.radius && r.baseHue == o.baseHue
    ensures ScaledSpeed(r, o, Drag)
  {
    o.(speedX := o.speedX * Drag, speedY := o.speedY * Drag)
  }

  /** The drag never makes an orb faster. */
  lemma DraggedIsSlower(o: Orb)
    ensures var r := Dragged(o);
      r.speedX * r.speedX + r.speedY * r.speedY <= o.speedX * o.speedX + o.speedY * o.speedY
  {
    DragSlows(o.speedX, o.speedX * Drag);
    DragSlows(o.speedY, o.speedY * Drag);
  }

  /** The 0.98 drag does not make a component larger; `t` names the dragged value. */
  lemma DragSlows(v: real, t: real)
    requires t == v * Drag
    ensures t * t <= v * v
  {
    assert t * t == (Drag * Drag) * (v * v);
    MulBetween(Drag * Drag, v * v, 1.0, t * t);
  }

  /** The squared speed is exactly the squared cap. */
  predicate AtCap(o: Orb, bass: real)
  {
    o.speedX * o.speedX + o.speedY * o.speedY == MaxSpeed(bass) * MaxSpeed(bass)
  }

  /** `r`'s speed is `o`'s speed scaled by the common factor `f`. */
  predicate ScaledSpeed(r: Orb, o: Orb, f: real)
  {
    r.speedX == f * o.speedX && r.speedY == f * o.speedY
  }

  /**
   * Drag by 0.98, then the cap: a dragged speed within `3 + 4 * bass` is kept, a
   * larger one is scaled down to exactly that size. Either way the new speed is
   * the old one times a single factor in (0, 0.98], so no component turns
   * around, and afterwards the speed is within the cap.
   */
  function Damp(o: Orb, bass: real, m: MathLib): (r: Orb)
    requires SqrtLaw(m) && 0.0 <= bass
    ensures r.x == o.x && r.y == o.y && r.radius == o.radius && r.baseHue == o.baseHue
    ensures SpeedCapped(Dragged(o), bass) ==> r == Dragged(o)
    ensures !SpeedCapped(Dragged(o), bass) ==> AtCap(r, bass)
    ensures exists f :: 0.0 < f <= Drag && ScaledSpeed(r, o, f)
    ensures 0.0 <= o.speedX ==> 0.0 <= r.speedX
    ensures o.speedX <= 0.0 ==> r.speedX <= 0.0
    ensures 0.0 <= o.speedY ==> 0.0 <= r.speedY
    ensures o.speedY <= 0.0 ==> r.speedY <= 0.0
    ensures SpeedCapped(r, bass)
  {
    var d := Dragged(o);
    var q := d.speedX * d.speedX + d.speedY * d.speedY;
    assert 0.0 <= d.speedX * d.speedX && 0.0 <= d.speedY * d.speedY;
    var maxSpeed := MaxSpeed(bass);
    var currentSpeed := m.sqrt(q);
    CapBound(d.speedX, d.speedY, maxSpeed, currentSpeed);
    if currentSpeed > maxSpeed then
      var scale := maxSpeed / currentSpeed;
      var r := d.(speedX := d.speedX * scale, speedY := d.speedY * scale);
      CappedDamp(o, r, bass, scale);
      assert !SpeedCapped(d, bass) && AtCap(r, bass);
      r
    else
      KeepsSigns(d, o, Drag);
      assert SpeedCapped(d, bass);
      d
  }

  /** A speed scaled by a positive factor keeps the sign of each component. */
  lemma KeepsSigns(r: Orb, o: Orb, f: real)
    requires 0.0 < f && ScaledSpeed(r, o, f)
    ensures 0.0 <= o.speedX ==> 0.0 <= r.speedX
    ensures o.speedX <= 0.0 ==> r.speedX <= 0.0
    ensures 0.0 <= o.speedY ==> 0.0 <= r.speedY
    ensures o.speedY <= 0.0 ==> r.speedY <= 0.0
  {
    MulSign(f, o.speedX, r.speedX);
    MulSign(f, o.speedY, r.speedY);
  }

  /** A positive factor keeps the sign; `t` names the product. */
  lemma MulSign(f: real, v: real, t: real)
    requires 0.0 < f && t == f * v
    ensures 0.0 <= v ==> 0.0 <= t
    ensures v <= 0.0 ==> t <= 0.0
  {
    if v < 0.0 {
      assert f * (-v) == -t;
    }
  }

  /**
   * The capped branch of `Damp`: the dragged speed scaled by `scale` in (0, 1) is
   * the original speed scaled by `0.98 scale`, a factor in (0, 0.98].
   */
  lemma CappedDamp(o: Orb, r: Orb, bass: real, scale: real)
    requires 0.0 < scale < 1.0 && ScaledSpeed(r, Dragged(o), scale)
    ensures 0.0 < Drag * scale <= Drag && ScaledSpeed(r, o, Drag * scale)
    ensures 0.0 <= o.speedX ==> 0.0 <= r.speedX
    ensures o.speedX <= 0.0 ==> r.speedX <= 0.0
    ensures 0.0 <= o.speedY ==> 0.0 <= r.speedY
    ensures o.speedY <= 0.0 ==> r.speedY <= 0.0
  {
    var f := Drag * scale;
    MulBetween(scale, Drag, 1.0, scale * Drag);
    assert 0.0 < f;
    assert r.speedX == (o.speedX * Drag) * scale == f * o.speedX;
    assert r.speedY == (o.speedY * Drag) * scale == f * o.speedY;
    KeepsSigns(r, o, f);
  }

  /**
   * The cap's arithmetic: `cs` is the size of the dragged speed. It is within the
   * cap exactly when the squared speed is; above it, the scale `maxSpeed / cs`
   * lies in (0, 1) and brings the speed to exactly the cap.
   */
  lemma CapBound(sx: real, sy: real, maxSpeed: real, cs: real)
    requires 0.0 < maxSpeed && 0.0 <= cs && cs * cs == sx * sx + sy * sy
    ensures cs <= maxSpeed <==> sx * sx + sy * sy <= maxSpeed * maxSpeed
    ensures maxSpeed < cs ==> var scale := maxSpeed / cs;
      0.0 < scale < 1.0 && (sx * scale) * (sx * scale) + (sy * scale) * (sy * scale) == maxSpeed * maxSpeed
  {
    FactorSign(cs - maxSpeed, cs + maxSpeed, cs * cs - maxSpeed * maxSpeed);
    if maxSpeed < cs {
      var scale := maxSpeed / cs;
      assert scale * cs == maxSpeed;
      FactorSign(1.0 - scale, cs, cs - maxSpeed);
      calc {
        (sx * scale) * (sx * scale) + (sy * scale) * (sy * scale);
        (sx * sx + sy * sy) * (scale * scale);
        (cs * cs) * (scale * scale);
        (scale * cs) * (scale * cs);
      }
    }
  }

  /** Repulsion, movement and the orbit nudge: the orb just before the bounce, its radius and hue kept. */
  function PreBounce(o: Orb, index: nat, orbIntensity: real, env: Env, m: MathLib): (r: Orb)
    ensures r.radius == o.radius && r.baseHue == o.baseHue
  {
    var dist := DistToMouse(o, env, m);
    var repelled := Repel(o, env, dist, m);
    var moved := Advance(repelled, SpeedMultiplier(env.bass, orbIntensity));
    Orbit(moved, dist, index, orbIntensity, env, m)
  }

  /**
   * One frame's update of orb `index` of `drawFloatingOrbs`: its radius and hue
   * are kept, its speed ends within the cap, and an orb that fits the canvas ends
   * inside it.
   */
  function OrbStep(o: Orb, index: nat, orbIntensity: real, env: Env, m: MathLib): (r: Orb)
    requires SqrtLaw(m) && 0.0 <= env.bass
    ensures r.radius == o.radius && r.baseHue == o.baseHue
    ensures SpeedCapped(r, env.bass)
    ensures 2.0 * o.radius <= env.width && 2.0 * o.radius <= env.height ==> Inside(r, env.width, env.height)
  {
    Damp(BounceEdges(PreBounce(o, index, orbIntensity, env, m), env), env.bass, m)
  }

  /** The orb lies at least its radius from every edge of a `width` by `height` canvas. */
  predicate Inside(o: Orb, width: real, height: real)
  {
    o.radius <= o.x <= width - o.radius && o.radius <= o.y <= height - o.radius
  }

  /**
   * An orb that crossed the left or top edge leaves the frame moving inwards
   * (speed non-negative), one that crossed the right or bottom edge moving
   * inwards the other way; drag and capping do not undo that.
   */
  lemma StepBouncesInward(o: Orb, index: nat, orbIntensity: real, env: Env, m: MathLib)
    requires SqrtLaw(m) && 0.0 <= env.bass
    ensures var p, r := PreBounce(o, index, orbIntensity, env, m), OrbStep(o, index, orbIntensity, env, m);
      && (p.x < p.radius ==> 0.0 <= r.speedX)
      && (!(p.x < p.radius) && p.x > env.width - p.radius ==> r.speedX <= 0.0)
      && (p.y < p.radius ==> 0.0 <= r.speedY)
      && (!(p.y < p.radius) && p.y > env.height - p.radius ==> r.speedY <= 0.0)
  {
  }

  // ----- initOrbs -----

  /** Random draws `initOrbs` takes per orb: x, y, radius, speedX, speedY. */
  const DrawsPerOrb: nat := 5

  /** The draws one call of `initOrbs` consumes: five per orb, each in [0, 1). */
  ghost predicate OrbDraws(draws: seq<real>)
  {
    |draws| == DrawsPerOrb * OrbCount && UnitDraws(draws)
  }

  /** The ranges `initOrbs` draws orb `i` from on a `width` by `height` canvas. */
  predicate Spawned(o: Orb, i: nat, width: real, height: real)
  {
    && 0.0 <= o.x <= width && 0.0 <= o.y <= height
    && (0.0 < width ==> o.x < width) && (0.0 < height ==> o.y < height)
    && 10.0 <= o.radius < 25.0
    && o.baseHue == 30.0 * i as real
    && -0.75 <= o.speedX < 0.75 && -0.75 <= o.speedY < 0.75
  }

  /** `Math.random() * width` for a draw in [0, 1). */
  function Scale(rnd: real, extent: real): (r: real)
    requires 0.0 <= rnd < 1.0 && 0.0 <= extent
    ensures 0.0 <= r <= extent && (0.0 < extent ==> r < extent)
  {
    var r := rnd * extent;
    UnitScale(rnd, extent, r);
    r
  }

  /**
   * `initOrbs`: twelve orbs, each drawn from its ranges. `draws` stands for the
   * successive values of `Math.random()`.
   */
  method InitOrbs(width: real, height: real, draws: seq<real>) returns (orbs: seq<Orb>)
    requires 0.0 <= width && 0.0 <= height
    requires OrbDraws(draws)
    ensures |orbs| == OrbCount
    ensures forall i :: 0 <= i < OrbCount ==> Spawned(orbs[i], i, width, height)
  {
    orbs := [];
    var i := 0;
    while i < OrbCount
      invariant 0 <= i <= OrbCount && |orbs| == i
      invariant forall k :: 0 <= k < i ==> Spawned(orbs[k], k, width, height)
    {
      var d := draws[DrawsPerOrb * i..DrawsPerOrb * i + DrawsPerOrb];
      var orb := Orb(
        x := Scale(d[0], width),
        y := Scale(d[1], height),
        radius := d[2] * 15.0 + 10.0,
        baseHue := (360.0 / OrbCount as real) * i as real,
        speedX := (d[3] - 0.5) * 1.5,
        speedY := (d[4] - 0.5) * 1.5);
      assert 360.0 / OrbCount as real == 30.0;
      assert Spawned(orb, i, width, height);
      orbs := orbs + [orb];
      i := i + 1;
    }
  }
}
