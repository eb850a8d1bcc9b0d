/** Integer facts about multiplication and floor division used by the models'
    proration and progress arithmetic. */
module Arith {
  lemma {:induction false} MulMonotone(n: nat, x: nat, y: nat)
    requires x <= y
    ensures n * x <= n * y
    decreases n
  {
    if n > 0 { MulMonotone(n - 1, x, y); }
  }

  /** Multiplication by the same factor can be cancelled from a strict comparison. */
  lemma MulCancel(n: nat, x: nat, y: nat)
    requires n * x < n * y
    ensures x < y
  {
    if y <= x {
      MulMonotone(n, y, x);
      assert false;
    }
  }

  lemma DivMonotone(a: nat, b: nat, n: nat)
    requires a <= b && n > 0
    ensures a / n <= b / n
  {
    var qa, qb := a / n, b / n;
    assert n * qa <= a by { assert a == n * qa + a % n; }
    assert b < n * (qb + 1) by { assert b == n * qb + b % n; assert n * (qb + 1) == n * qb + n; }
    MulCancel(n, qa, qb + 1);
  }

  /** `a / n < w` whenever `a < w * n`. */
  lemma DivBelow(a: nat, n: nat, w: nat)
    requires n > 0 && a < w * n
    ensures a / n < w
  {
    var q := a / n;
    assert a == n * q + a % n;
    assert w * n == n * w;
  }

  lemma MulDiv(w: nat, n: nat)
    requires n > 0
    ensures (w * n) / n == w
  {
    var a := w * n;
    var q := a / n;
    assert a == n * q + a % n;
    assert w * n == n * w;
    if q < w {
      assert n * (q + 1) == n * q + n;
      MulMonotone(n, q + 1, w);
    } else if q > w {
      assert n * (w + 1) == n * w + n;
      MulMonotone(n, w + 1, q);
    }
  }

  /** `a / d <= q` whenever `a <= q * d`. */
  lemma DivBound(a: nat, d: nat, q: nat)
    requires d > 0 && a <= q * d
    ensures a / d <= q
  {
    DivMonotone(a, q * d, d);
    MulDiv(q, d);
  }
}
