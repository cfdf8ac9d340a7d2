/**
 * Single-step facts about real multiplication and division. The geometry lemmas chain these
 * instead of handing the solver a whole nonlinear goal at once.
 */
module RealArith {

  lemma NonzeroQuotient(a: real, b: real)
    requires a != 0.0 && b != 0.0
    ensures a / b != 0.0
  {
  }

  lemma NonzeroFactor(s: real, c: real, w: real)
    requires c != 0.0 && s / c * w != 0.0
    ensures w != 0.0
  {
  }

  lemma Regroup(s: real, c: real, w: real)
    requires c != 0.0
    ensures s / c * w == s * (w / c)
  {
  }

  lemma CancelFactor(x: real, s: real, k: real)
    requires s != 0.0 && k != 0.0
    ensures x / (s * k) * s == x / k
  {
  }

  lemma MulOfQuotient(c: real, w: real)
    requires c != 0.0
    ensures c * (w / c) == w
  {
  }

  lemma DivMulCancel(x: real, k: real)
    requires k != 0.0
    ensures x / k * k == x
  {
  }

  lemma QuotientOfProduct(w: real, h: real, k: real)
    requires w == h * k && h != 0.0
    ensures w / h == k
  {
  }

  lemma KeepsRatio(w: real, h: real, k: real)
    requires w == h * k
    ensures h != 0.0 ==> w / h == k
  {
    if h != 0.0 {
      QuotientOfProduct(w, h, k);
    }
  }

  lemma Distribute(o: real, a: real, b: real, k: real)
    ensures (o - a + b) * k == o * k - a * k + b * k
    ensures (o + a) * k == o * k + a * k
  {
  }

  /** A size in (0, max] scaled by s / max lands in (0, s]. */
  lemma ScaledFraction(w: real, max: real, s: real)
    requires 0.0 < w <= max && s > 0.0
    ensures 0.0 < w / max * s <= s
  {
    assert 0.0 < w / max <= 1.0;
  }

  /** Scaling by s / max with both positive keeps a strict order. */
  lemma ScaleStrict(a: real, b: real, max: real, s: real)
    requires a < b && max > 0.0 && s > 0.0
    ensures a / max * s < b / max * s
  {
    assert a / max < b / max;
  }
}
