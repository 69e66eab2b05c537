/** Euclidean division facts shared by the ring arithmetic of delay~ and the masked
    indices of the interpolating reader. */
module Modular {

  lemma MulAtLeast(k: int, m: int)
    requires k >= 1 && m > 0
    ensures k * m >= m
  {
    if k > 1 {
      MulAtLeast(k - 1, m);
      assert k * m == (k - 1) * m + m;
    }
  }

  /** Euclidean division is determined by its quotient and remainder. */
  lemma ModUnique(x: int, m: int, q: int, r: int)
    requires m > 0 && 0 <= r < m && x == q * m + r
    ensures x / m == q && x % m == r
  {
    var q', r' := x / m, x % m;
    assert x == q' * m + r' && 0 <= r' < m;
    if q > q' {
      assert (q - q') * m == q * m - q' * m;
      MulAtLeast(q - q', m);
    } else if q < q' {
      assert (q' - q) * m == q' * m - q * m;
      MulAtLeast(q' - q, m);
    }
  }

  /** Halving: the remainder modulo `2p` is twice the half's remainder modulo `p`, plus
      the low bit. */
  lemma HalveMod(a: int, p: int)
    requires p >= 1
    ensures a % (2 * p) == 2 * ((a / 2) % p) + a % 2
  {
    var h, e := a / 2, a % 2;
    var q, r := h / p, h % p;
    assert h == q * p + r;
    assert q * (2 * p) == 2 * (q * p);
    ModUnique(a, 2 * p, q, 2 * r + e);
  }

  /** Reducing modulo a multiple `p * e` of `p` first does not change the remainder
      modulo `p`. */
  lemma ModOfMod(x: int, p: int, e: int)
    requires p >= 1 && e >= 1
    ensures (x % (p * e)) % p == x % p
  {
    MulAtLeast(e, p);
    var m := p * e;
    var bq, u := x / m, x % m;
    var q, r := u / p, u % p;
    assert x == bq * m + u && u == q * p + r;
    assert bq * m == (bq * e) * p;
    ModUnique(x, p, bq * e + q, r);
  }
}
