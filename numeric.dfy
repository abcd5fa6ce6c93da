/** The three numeric primitives all three scripts lean on: Math.random(),
    Math.abs() and the Math.sqrt() distance test, stated over reals. */
module Numeric {

  /** A value Math.random() can return. */
  predicate IsDraw(r: real) {
    0.0 <= r < 1.0
  }

  /** `Math.random() * span`. */
  function Scale(r: real, span: real): real {
    r * span
  }

  lemma ScaledDraw(r: real, span: real)
    requires IsDraw(r) && 0.0 < span
    ensures 0.0 <= Scale(r, span) < span
  {
  }

  /** `Math.floor(Math.random() * n)` picks an index below n. */
  function Pick(r: real, n: nat): (k: int)
    requires IsDraw(r) && n > 0
    ensures 0 <= k < n
  {
    ScaledDraw(r, n as real);
    Scale(r, n as real).Floor
  }

  function Abs(r: real): real {
    if r < 0.0 then -r else r
  }

  /** `Math.sqrt(dx * dx + dy * dy) < reach`, without the square root: a square
      root is never negative, so it is below `reach` exactly when `reach` is
      positive and the squared distance is below its square. */
  predicate WithinReach(dx: real, dy: real, reach: real) {
    0.0 < reach && dx * dx + dy * dy < reach * reach
  }
}
