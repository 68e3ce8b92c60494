/** Sums over all photon numbers: power series with real terms, and what the decoy estimators
    need to know about their limits. */
module Series {

  function Pow(x: real, n: nat): real {
    if n == 0 then 1.0 else x * Pow(x, n - 1)
  }

  function Fact(n: nat): (f: real)
    ensures f >= 1.0
  {
    if n == 0 then 1.0 else Bigger(n as real, Fact(n - 1))
  }

  function Bigger(a: real, b: real): (p: real)
    requires a >= 1.0 && b >= 1.0
    ensures p == a * b && p >= 1.0
  {
    assert (a - 1.0) * b >= 0.0;
    a * b
  }

  /** The term of `coeff` at intensity `x`: coeff(n) x^n / n!. */
  function Term(coeff: nat -> real, x: real, n: nat): real {
    coeff(n) * Pow(x, n) / Fact(n)
  }

  /** The sum of the first `n` terms. */
  function Partial(coeff: nat -> real, x: real, n: nat): real {
    if n == 0 then 0.0 else Partial(coeff, x, n - 1) + Term(coeff, x, n - 1)
  }

  ghost predicate Within(coeff: nat -> real, x: real, n: nat, s: real, eps: real) {
    -eps < Partial(coeff, x, n) - s < eps
  }

  /** From `from` on, the partial sums stay within `eps` of `s`. */
  ghost predicate Settled(coeff: nat -> real, x: real, s: real, eps: real, from: nat) {
    forall n: nat :: n >= from ==> Within(coeff, x, n, s, eps)
  }

  ghost predicate Settles(coeff: nat -> real, x: real, s: real, eps: real) {
    exists from: nat :: Settled(coeff, x, s, eps, from)
  }

  /** The series converges to `s`. */
  ghost predicate SumsTo(coeff: nat -> real, x: real, s: real) {
    forall eps: real :: eps > 0.0 ==> Settles(coeff, x, s, eps)
  }

  /** A bound on a weighted difference of partial sums passes to the limit. */
  lemma LimitAtMost(f: nat -> real, g: nat -> real, h: nat -> real, x: real, y: real, z: real,
                    s: real, t: real, u: real, w: real, bound: real, start: nat)
    requires SumsTo(f, x, s) && SumsTo(g, y, t) && SumsTo(h, z, u) && w >= 0.0
    requires forall n: nat :: n >= start ==> Partial(f, x, n) - Partial(g, y, n) - w * Partial(h, z, n) <= bound
    ensures s - t - w * u <= bound
  {
    var d := s - t - w * u - bound;
    if d > 0.0 {
      var eps := d / (3.0 + w);
      assert eps > 0.0 && eps * (3.0 + w) == d;
      assert Settles(f, x, s, eps) && Settles(g, y, t, eps) && Settles(h, z, u, eps);
      var a: nat :| Settled(f, x, s, eps, a);
      var b: nat :| Settled(g, y, t, eps, b);
      var c: nat :| Settled(h, z, u, eps, c);
      var n := a + b + c + start;
      assert Within(f, x, n, s, eps) && Within(g, y, n, t, eps) && Within(h, z, n, u, eps);
      Slack(Partial(f, x, n), Partial(g, y, n), Partial(h, z, n), s, t, u, w, eps);
    }
  }

  lemma Slack(p: real, q: real, r: real, s: real, t: real, u: real, w: real, eps: real)
    requires p > s - eps && q < t + eps && r < u + eps && w >= 0.0 && eps > 0.0
    ensures p - q - w * r > s - t - w * u - eps * (3.0 + w)
  {
    Scaled(w, r, u + eps);
  }

  lemma NonNegative(x: real, y: real, xy: real)
    requires x >= 0.0 && y >= 0.0 && xy == x * y
    ensures xy >= 0.0
  {
  }

  lemma Scaled(w: real, a: real, b: real)
    requires w >= 0.0 && a <= b
    ensures w * a <= w * b
  {
    assert w * (b - a) >= 0.0;
  }

  // ------------------------------------------------------------ powers

  lemma PowNonNegative(x: real, n: nat)
    requires x >= 0.0
    ensures Pow(x, n) >= 0.0
  {
  }

  lemma PowPositive(x: real, n: nat)
    requires x > 0.0
    ensures Pow(x, n) > 0.0
  {
    if n > 0 {
      PowPositive(x, n - 1);
      Positive(x, Pow(x, n - 1), Pow(x, n));
    }
  }

  lemma {:induction false} PowOfProduct(x: real, y: real, n: nat)
    ensures Pow(x * y, n) == Pow(x, n) * Pow(y, n)
  {
    if n > 0 {
      PowOfProduct(x, y, n - 1);
      Rearrange(x, y, Pow(x, n - 1), Pow(y, n - 1));
    }
  }

  lemma Rearrange(x: real, y: real, p: real, q: real)
    ensures (x * y) * (p * q) == (x * p) * (y * q)
  {
  }

  lemma {:induction false} PowMonotone(a: real, b: real, n: nat)
    requires 0.0 <= b <= a
    ensures Pow(b, n) <= Pow(a, n)
  {
    if n > 0 {
      PowMonotone(a, b, n - 1);
      PowNonNegative(b, n - 1);
      Scaled(a, Pow(b, n - 1), Pow(a, n - 1));
      Scaled(Pow(b, n - 1), b, a);
    }
  }

  lemma {:induction false} PowBelowOne(x: real, n: nat)
    requires 0.0 <= x <= 1.0
    ensures 0.0 <= Pow(x, n) <= 1.0
  {
    if n > 0 {
      PowBelowOne(x, n - 1);
      Fraction(x, Pow(x, n - 1), Pow(x, n));
    }
  }

  lemma Fraction(x: real, y: real, xy: real)
    requires 0.0 <= x <= 1.0 && 0.0 <= y <= 1.0 && xy == x * y
    ensures 0.0 <= xy <= 1.0
  {
    var rest := 1.0 - x;
    NonNegative(x, y, xy);
    NonNegative(rest, y, rest * y);
    assert rest * y == y - xy;
  }

  /** Two weaker intensities that together stay below the signal: their n-photon terms differ by
      at most what the two-photon terms allow. */
  lemma {:induction false} PowerGap(mu: real, a: real, b: real, c: real, n: nat)
    requires 0.0 <= b < a && a + b < mu && n >= 2
    requires c * (mu * mu) == a * a - b * b
    ensures Pow(a, n) - Pow(b, n) <= c * Pow(mu, n)
  {
    if n == 2 {
      Square(a);
      Square(b);
      Square(mu);
    } else {
      PowerGap(mu, a, b, c, n - 1);
      var gap, before := Pow(a, n - 1) - Pow(b, n - 1), Pow(a, n - 2) - Pow(b, n - 2);
      PowMonotone(a, b, n - 1);
      PowMonotone(a, b, n - 2);
      GapStep(a, b, Pow(a, n - 2), Pow(b, n - 2));
      assert Pow(a, n) - Pow(b, n) == (a + b) * gap - a * b * before;
      assert a * b * before >= 0.0;
      Scaled(gap, a + b, mu);
      Scaled(mu, gap, c * Pow(mu, n - 1));
      assert mu * (c * Pow(mu, n - 1)) == c * (mu * Pow(mu, n - 1));
    }
  }

  lemma Square(x: real)
    ensures Pow(x, 2) == x * x
  {
    assert Pow(x, 1) == x * Pow(x, 0) == x;
  }

  lemma Positive(x: real, y: real, xy: real)
    requires x > 0.0 && y > 0.0 && xy == x * y
    ensures xy > 0.0
  {
  }

  lemma DivMul(x: real, y: real)
    requires y != 0.0
    ensures x / y * y == x
  {
  }

  lemma GapStep(a: real, b: real, p: real, q: real)
    ensures a * (a * p) - b * (b * q) == (a + b) * (a * p - b * q) - a * b * (p - q)
  {
  }
}
