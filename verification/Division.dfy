/** The little integer division that bucketing and wrapping need. */
module Division {
  lemma QuotientBounds(a: nat, d: nat)
    requires d > 0
    ensures a / d * d <= a < a / d * d + d
  {
  }

  lemma Times(a: nat, b: nat, c: nat)
    requires a <= b
    ensures a * c <= b * c
  {
  }

  lemma QuotientIs(a: nat, d: nat, q: nat)
    requires d > 0 && q * d <= a < q * d + d
    ensures a / d == q
  {
    QuotientBounds(a, d);
    if a / d < q {
      Times(a / d + 1, q, d);
    } else if q < a / d {
      Times(q + 1, a / d, d);
    }
  }

  lemma OneMoreTurn(a: nat, d: nat)
    requires d > 0
    ensures (a + d) / d == a / d + 1
  {
    QuotientBounds(a, d);
    QuotientIs(a + d, d, a / d + 1);
  }

  /** i steps of w / d each, rounded down. */
  function Scaled(i: nat, w: nat, d: nat): nat
    requires d > 0
  {
    i * w / d
  }

  lemma ScaledMonotone(i: nat, j: nat, w: nat, d: nat)
    requires d > 0 && i <= j
    ensures Scaled(i, w, d) <= Scaled(j, w, d)
  {
    Times(i, j, w);
    QuotientBounds(i * w, d);
    QuotientBounds(j * w, d);
    if Scaled(j, w, d) < Scaled(i, w, d) {
      Times(Scaled(j, w, d) + 1, Scaled(i, w, d), d);
    }
  }

  lemma ScaledEnds(w: nat, d: nat)
    requires d > 0
    ensures Scaled(0, w, d) == 0 && Scaled(d, w, d) == w
  {
    QuotientIs(0, d, 0);
    assert d * w == w * d;
    QuotientIs(d * w, d, w);
  }

  /** Steps of at least 1 never stand still. */
  lemma ScaledInjective(i: nat, j: nat, w: nat, d: nat)
    requires 0 < d <= w && i < j
    ensures Scaled(i, w, d) < Scaled(j, w, d)
  {
    ScaledMonotone(i + 1, j, w, d);
    assert (i + 1) * w == i * w + w;
    QuotientBounds(i * w, d);
    QuotientBounds(i * w + w, d);
    if Scaled(i + 1, w, d) <= Scaled(i, w, d) {
      Times(Scaled(i + 1, w, d), Scaled(i, w, d), d);
    }
  }

  /** Steps of at most 1 leave nothing out. */
  lemma ScaledOnto(p: nat, w: nat, d: nat) returns (i: nat)
    requires 0 < w <= d && p <= w
    ensures i <= d && Scaled(i, w, d) == p
  {
    // The least i with i * w >= p * d.
    i := (p * d + w - 1) / w;
    QuotientBounds(p * d + w - 1, w);
    assert p * d <= i * w < p * d + w;
    QuotientIs(i * w, d, p);
    Times(p, w, d);
    assert (d + 1) * w == w * d + w;
    if i > d {
      Times(d + 1, i, w);
    }
  }
}
