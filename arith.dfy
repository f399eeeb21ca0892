/** Facts about products of reals that the solver does not find unaided. */
module Arith {

  lemma MulNonneg(a: real, b: real)
    requires a >= 0.0 && b >= 0.0
    ensures a * b >= 0.0
  {
  }

  /** Scaling by a factor in [0, 1] stays between 0 and the scaled value. */
  lemma MulUnit(a: real, b: real)
    requires a >= 0.0 && 0.0 <= b <= 1.0
    ensures 0.0 <= a * b <= a
  {
    MulNonneg(a, b);
    MulNonneg(a, 1.0 - b);
    assert a * (1.0 - b) == a - a * b;
  }

  /** The point a fraction u of the way from p to q. */
  function Lerp(p: real, q: real, u: real): real {
    p + (q - p) * u
  }

  /** Interpolating from p toward q by a fraction in [0, 1] stays between them. */
  lemma Interpolate(p: real, q: real, u: real)
    requires p <= q && 0.0 <= u <= 1.0
    ensures p <= Lerp(p, q, u) <= q
  {
    MulNonneg(q - p, u);
    MulNonneg(q - p, 1.0 - u);
    assert (q - p) * (1.0 - u) == (q - p) - (q - p) * u;
  }

  lemma {:induction false} MulLe(a: nat, b: nat, w: nat)
    requires a <= b
    ensures a * w <= b * w
    decreases b - a
  {
    if a < b {
      MulLe(a, b - 1, w);
      assert b * w == (b - 1) * w + w;
    }
  }

  lemma MulLtCancel(a: nat, b: nat, w: nat)
    requires a * w < b * w
    ensures a < b
  {
    if b <= a {
      MulLe(b, a, w);
      assert false;
    }
  }
}
