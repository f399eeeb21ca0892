/** The escape-time evaluator: iterate z := z^2 + c from z = 0 while |z|^2 <= 4
    and fewer than maxIter steps have been taken. */
module Escape {
  import opened Views
  import opened Arith

  function Mag2(z: Complex): real {
    z.re * z.re + z.im * z.im
  }

  /** One step of the quadratic map. */
  function Step(z: Complex, c: Complex): Complex {
    Complex(z.re * z.re - z.im * z.im + c.re, 2.0 * z.re * z.im + c.im)
  }

  /** The k-th point of the orbit of 0 under z := z^2 + c. */
  function Orbit(c: Complex, k: nat): Complex {
    if k == 0 then Complex(0.0, 0.0) else Step(Orbit(c, k - 1), c)
  }

  /** The largest count the loop can reach: maxIter, or 0 when maxIter is not positive. */
  function Budget(maxIter: int): nat {
    if maxIter > 0 then maxIter else 0
  }

  /** The escape loop continued from point z after iter steps. */
  function EscapeFrom(z: Complex, c: Complex, iter: int, maxIter: int): int
    decreases maxIter - iter
  {
    if Mag2(z) <= 4.0 && iter < maxIter then EscapeFrom(Step(z, c), c, iter + 1, maxIter) else iter
  }

  /** The count the escape loop returns for c. */
  function EscapeCount(c: Complex, maxIter: int): int {
    EscapeFrom(Complex(0.0, 0.0), c, 0, maxIter)
  }

  /** r is the index of the first orbit point outside the radius-2 disc, or the
      budget when the first Budget(maxIter) points all stay inside. */
  ghost predicate IsFirstEscape(c: Complex, maxIter: int, r: int) {
    && 0 <= r <= Budget(maxIter)
    && (forall k :: 0 <= k < r ==> Mag2(Orbit(c, k)) <= 4.0)
    && (r < maxIter ==> Mag2(Orbit(c, r)) > 4.0)
  }

  lemma {:induction false} EscapeFromOrbit(c: Complex, maxIter: int, i: nat)
    requires i <= Budget(maxIter)
    requires forall k :: 0 <= k < i ==> Mag2(Orbit(c, k)) <= 4.0
    ensures IsFirstEscape(c, maxIter, EscapeFrom(Orbit(c, i), c, i, maxIter))
    decreases maxIter - i
  {
    if Mag2(Orbit(c, i)) <= 4.0 && i < maxIter {
      assert Orbit(c, i + 1) == Step(Orbit(c, i), c);
      EscapeFromOrbit(c, maxIter, i + 1);
    }
  }

  /** The loop's count is exactly the first escape index (capped by the budget). */
  lemma EscapeCountIsFirstEscape(c: Complex, maxIter: int)
    ensures IsFirstEscape(c, maxIter, EscapeCount(c, maxIter))
  {
    EscapeFromOrbit(c, maxIter, 0);
  }

  /** The first-escape characterisation determines the count. */
  lemma FirstEscapeUnique(c: Complex, maxIter: int, r1: int, r2: int)
    requires IsFirstEscape(c, maxIter, r1) && IsFirstEscape(c, maxIter, r2)
    ensures r1 == r2
  {
  }

  /** The escape loop of the renderer, on the pixel's point c. */
  method EscapeTime(c: Complex, maxIter: int) returns (iter: int)
    ensures iter == EscapeCount(c, maxIter)
    ensures 0 <= iter <= Budget(maxIter)
    ensures IsFirstEscape(c, maxIter, iter)
  {
    var zx, zy := 0.0, 0.0;
    iter := 0;
    while Mag2(Complex(zx, zy)) <= 4.0 && iter < maxIter
      invariant 0 <= iter <= Budget(maxIter)
      invariant EscapeFrom(Complex(zx, zy), c, iter, maxIter) == EscapeCount(c, maxIter)
      decreases maxIter - iter
    {
      var z := Step(Complex(zx, zy), c);
      zx, zy := z.re, z.im;
      iter := iter + 1;
    }
    EscapeCountIsFirstEscape(c, maxIter);
  }

  /** The orbit of -0.5 stays on the real segment [-0.5, 0]. */
  lemma SquareBelowQuarter(x: real)
    requires -0.5 <= x <= 0.0
    ensures 0.0 <= x * x <= 0.25
  {
    MulNonneg(-x, x + 0.5);
    MulNonneg(-x, -x);
    assert (-x) * (x + 0.5) == -(x * x) - 0.5 * x;
  }

  lemma {:induction false} MinusHalfStaysInside(z: Complex, iter: int, maxIter: int)
    requires z.im == 0.0 && -0.5 <= z.re <= 0.0
    requires iter <= maxIter
    ensures EscapeFrom(z, Complex(-0.5, 0.0), iter, maxIter) == maxIter
    decreases maxIter - iter
  {
    SquareBelowQuarter(z.re);
    if iter < maxIter {
      MinusHalfStaysInside(Step(z, Complex(-0.5, 0.0)), iter + 1, maxIter);
    }
  }

  /** -0.5 + 0i lies in the set: it never escapes, whatever the budget. */
  lemma MinusHalfIsInterior(maxIter: int)
    ensures EscapeCount(Complex(-0.5, 0.0), maxIter) == Budget(maxIter)
  {
    if maxIter >= 0 {
      MinusHalfStaysInside(Complex(0.0, 0.0), 0, maxIter);
    }
  }
}
