/**
 * The non-algebraic functions the source calls (`Math.sqrt`, `Math.atan2`,
 * `Math.cos`, `Math.sin` and `x => Math.pow(x, 1.5)`) are passed around as one
 * value; only the facts the proofs need are assumed of them.
 */
module Maths {
  datatype MathLib = MathLib(
    sqrt: real -> real,
    atan2: (real, real) -> real,
    cos: real -> real,
    sin: real -> real,
    pow15: real -> real)

  /** `Math.sqrt` returns the non-negative root of a non-negative number. */
  ghost predicate SqrtLaw(m: MathLib)
  {
    forall x: real :: 0.0 <= x ==> 0.0 <= m.sqrt(x) && m.sqrt(x) * m.sqrt(x) == x
  }

  /** `Math.pow(x, 1.5)` on [0, 1] is non-negative and at most `x`. */
  ghost predicate PowLaw(m: MathLib)
  {
    forall x: real :: 0.0 <= x <= 1.0 ==> 0.0 <= m.pow15(x) <= x
  }

  ghost predicate Lawful(m: MathLib)
  {
    SqrtLaw(m) && PowLaw(m)
  }

  /** Successive values of `Math.random()`, each in [0, 1). */
  ghost predicate UnitDraws(draws: seq<real>)
  {
    forall j :: 0 <= j < |draws| ==> 0.0 <= draws[j] < 1.0
  }

  // ----- Small helpers, for integers and for reals -----

  function Min(a: int, b: int): int { if a <= b then a else b }

  function Abs(x: int): nat { if x < 0 then -x else x }

  function RealAbs(x: real): real { if x < 0.0 then -x else x }

  /** The distance between two reals. */
  function Dist(a: real, b: real): real { RealAbs(a - b) }

  /** A draw in [0, 1) scaled by a positive extent lands in [0, extent); `t` names the product. */
  lemma UnitScale(rnd: real, extent: real, t: real)
    requires 0.0 <= rnd < 1.0 && 0.0 <= extent && t == rnd * extent
    ensures 0.0 <= t <= extent
    ensures 0.0 < extent ==> t < extent
  {
    assert extent - rnd * extent == (1.0 - rnd) * extent;
    assert 0.0 <= (1.0 - rnd) * extent && 0.0 <= rnd * extent;
    assert 0.0 < extent ==> 0.0 < (1.0 - rnd) * extent;
  }

  /** `0 <= x <= c` and `0 <= y` give `0 <= x * y <= c * y`; `t` names the product. */
  lemma MulBetween(x: real, y: real, c: real, t: real)
    requires 0.0 <= x <= c && 0.0 <= y && t == x * y
    ensures 0.0 <= t <= c * y
  {
    assert (c - x) * y == c * y - x * y;
    assert 0.0 <= (c - x) * y;
  }

  /** With `0 < b`, the product `t = a * b` has the sign of `a`. */
  lemma FactorSign(a: real, b: real, t: real)
    requires 0.0 < b && t == a * b
    ensures 0.0 < t <==> 0.0 < a
  {
    if 0.0 < a {
      assert 0.0 < a * b;
    } else {
      assert (-a) * b == -(a * b);
      assert 0.0 <= (-a) * b;
    }
  }

  /** `0 <= q` and `-c <= e <= c` give `-c q <= q e <= c q`; `t` names the product. */
  lemma MulWithin(q: real, e: real, c: real, t: real)
    requires 0.0 <= q && -c <= e <= c && t == q * e
    ensures -(c * q) <= t <= c * q
  {
    assert (c - e) * q == c * q - q * e;
    assert (c + e) * q == c * q + q * e;
    assert 0.0 <= (c - e) * q && 0.0 <= (c + e) * q;
  }

  // Integer products and quotients. Each lemma names the products it speaks of
  // (`dx == d * x`), so that a caller states its facts about exactly those terms.

  /** Multiplying by a non-negative `d` keeps the order. */
  lemma MulMonotone(d: int, x: int, y: int, dx: int, dy: int)
    requires 0 <= d && dx == d * x && dy == d * y
    ensures x <= y ==> dx <= dy
  {
    assert dy - dx == d * (y - x);
    assert x <= y ==> 0 <= d * (y - x);
  }

  /** A positive factor can be cancelled from both sides of a comparison. */
  lemma MulCancel(c: int, x: int, y: int, cx: int, cy: int)
    requires 0 < c && cx == c * x && cy == c * y
    ensures cx <= cy ==> x <= y
    ensures cx < cy ==> x < y
  {
    MulMonotone(c, y + 1, x, cy + c, cx);
    MulMonotone(c, y, x, cy, cx);
  }

  /** The quotient `q` of `a` by a positive `d` is the largest `q` with `d q <= a`. */
  lemma DivBounds(a: int, d: int, q: int, dq: int)
    requires 0 < d && q == a / d && dq == d * q
    ensures dq <= a < dq + d
  {
  }

  /** Division by a positive number keeps the order. */
  lemma DivMonotone(a: int, b: int, d: int, qa: int, qb: int)
    requires 0 < d && qa == a / d && qb == b / d
    ensures a <= b ==> qa <= qb
  {
    DivBounds(a, d, qa, d * qa);
    DivBounds(b, d, qb, d * qb);
    MulMonotone(d, qb + 1, qa, d * qb + d, d * qa);
  }

  /** `(w * n) / w == n` for a positive `w`; `wn` names the product. */
  lemma DivCancel(w: int, n: int, wn: int)
    requires 0 < w && wn == w * n
    ensures wn / w == n
  {
    var q := wn / w;
    DivBounds(wn, w, q, w * q);
    MulCancel(w, q, n, w * q, wn);
    MulMonotone(w, q + 1, n, w * q + w, wn);
  }

  /** Adding the divisor adds one to the quotient. */
  lemma DivStep(a: int, d: int, q: int)
    requires 0 < d && q == a / d
    ensures (a + d) / d == q + 1
  {
    var q2 := (a + d) / d;
    DivBounds(a, d, q, d * q);
    DivBounds(a + d, d, q2, d * q2);
    MulMonotone(d, q2, q, d * q2, d * q);
    MulMonotone(d, q + 2, q2, d * q + 2 * d, d * q2);
  }
}
