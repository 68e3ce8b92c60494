/** The finite-key estimates of Lim, Curty, Walenta, Xu and Zbinden (Phys. Rev. A 89, 022307),
    Eqs. (1)-(4), as services/bb84-kme/app/backends/_skr.py computes them, over exact reals.

    That the true counts lie within the deviation of the observed ones is the hypothesis. */
module FiniteKey {
  import opened Series
  import opened Decoy

  /** Intensities mu > nu1 > nu2 are the paper's mu1, mu2, mu3; `p` are their probabilities. */
  datatype Probabilities = Probabilities(p1: real, p2: real, p3: real)

  datatype Counts = Counts(n1: real, n2: real, n3: real)

  predicate Likely(p: Probabilities) { p.p1 > 0.0 && p.p2 > 0.0 && p.p3 > 0.0 }

  function Total(n: Counts): real { n.n1 + n.n2 + n.n3 }

  function Clipped(x: real, high: real): real { NoMore(NoLess(x, 0.0), high) }

  /** `photon_number_tau`: the probability of an n-photon pulse. */
  function Tau(s: Setting, p: Probabilities, exp: real -> real, n: nat): real {
    Mixture(Emitted(exp, s.mu, p.p1), Pow(s.mu, n), Emitted(exp, s.nu1, p.p2), Pow(s.nu1, n),
            Emitted(exp, s.nu2, p.p3), Pow(s.nu2, n), Fact(n))
  }

  /** The chance of choosing intensity `k`, and of an empty pulse then. */
  function Emitted(exp: real -> real, k: real, p: real): real { p * exp(-k) }

  function Mixture(a: real, x: real, b: real, y: real, d: real, z: real, f: real): real
    requires f != 0.0
  {
    (a * x + b * y + d * z) / f
  }

  /** What a count at intensity `k`, chosen with probability `p`, is multiplied by. */
  function ScaleUp(exp: real -> real, k: real, p: real): real
    requires p > 0.0
  {
    exp(k) / p
  }

  function Upscaled(exp: real -> real, k: real, p: real, c: real): real
    requires p > 0.0
  {
    ScaleUp(exp, k, p) * c
  }

  /** `_bracketed`, above and below. */
  function High(exp: real -> real, n: real, total: real, k: real, p: real, dev: real): real
    requires p > 0.0
  {
    Upscaled(exp, k, p, Clipped(n + dev, total))
  }

  function Low(exp: real -> real, n: real, total: real, k: real, p: real, dev: real): real
    requires p > 0.0
  {
    Upscaled(exp, k, p, Clipped(n - dev, total))
  }

  /** Eq. (2), from the bracketed counts at the two weaker intensities `a` > `b`. */
  function VacuumFormula(a: real, b: real, low3: real, high2: real, tau: real, total: real): real
    requires a != b
  {
    Clipped(tau * (a * low3 - b * high2) / (a - b), total)
  }

  /** Eq. (3), from the bracketed counts: the sum `x` of Eq. (18), scaled to a count. */
  function Rescaled(mu: real, den: real, x: real, tau: real, total: real): real
    requires den > 0.0
  {
    Clipped(tau * mu * x / den, total)
  }

  function SingleFormula(s: Setting, low2: real, high3: real, high1: real, y0: real, tau: real, total: real): real
    requires s.mu > 0.0
  {
    if Denominator(s) <= 0.0 then 0.0
    else Rescaled(s.mu, Denominator(s), YieldSum(Weight(s), low2, high3, high1, y0), tau, total)
  }

  /** Eq. (4) */
  function ErrorFormula(a: real, b: real, high2: real, low3: real, tau: real): real
    requires a != b
  {
    NoLess(tau * (high2 - low3) / (a - b), 0.0)
  }

  /** `_s0_s1`: both bounds of one basis. */
  function VacuumLower(s: Setting, p: Probabilities, exp: real -> real, n: Counts, dev: real, tau0: real): real
    requires Likely(p) && s.nu1 != s.nu2
  {
    VacuumFormula(s.nu1, s.nu2, Low(exp, n.n3, Total(n), s.nu2, p.p3, dev), High(exp, n.n2, Total(n), s.nu1, p.p2, dev),
                  tau0, Total(n))
  }

  function SingleLower(s: Setting, p: Probabilities, exp: real -> real, n: Counts, dev: real, tau0: real,
                       tau1: real): real
    requires Likely(p) && s.nu1 != s.nu2 && s.mu > 0.0 && tau0 != 0.0
  {
    SingleFormula(s, Low(exp, n.n2, Total(n), s.nu1, p.p2, dev), High(exp, n.n3, Total(n), s.nu2, p.p3, dev),
                  High(exp, n.n1, Total(n), s.mu, p.p1, dev), VacuumLower(s, p, exp, n, dev, tau0) / tau0,
                  tau1, Total(n))
  }

  /** `_v1` */
  function ErrorsUpper(s: Setting, p: Probabilities, exp: real -> real, m: Counts, dev: real, tau1: real): real
    requires Likely(p) && s.nu1 != s.nu2
  {
    ErrorFormula(s.nu1, s.nu2, High(exp, m.n2, Total(m), s.nu1, p.p2, dev),
                 Low(exp, m.n3, Total(m), s.nu2, p.p3, dev), tau1)
  }

  // ------------------------------------------------------------ the true counts

  ghost predicate ExpLike(exp: real -> real) {
    forall x :: Inverse(exp, x)
  }

  ghost predicate Inverse(exp: real -> real, x: real) { exp(x) > 0.0 && exp(-x) * exp(x) == 1.0 }

  /** Detections of n-photon pulses per unit of their probability. */
  function PerPulse(s: Setting, p: Probabilities, exp: real -> real, photons: nat -> real): nat -> real
    requires forall n: nat :: Tau(s, p, exp, n) > 0.0
  {
    (n: nat) => photons(n) / Tau(s, p, exp, n)
  }

  /** Which part of the n-photon detections had intensity `k`, by Bayes: p e^-k k^n / (n! tau_n). */
  function Portion(y: nat -> real, a: real): nat -> real { (n: nat) => a * y(n) }

  /** `photons(n)` pulses of n photons were detected; `c` are the resulting expectations per intensity. */
  ghost predicate Expected(s: Setting, p: Probabilities, exp: real -> real, y: nat -> real, c: Counts) {
    && SumsTo(Portion(y, Emitted(exp, s.mu, p.p1)), s.mu, c.n1)
    && SumsTo(Portion(y, Emitted(exp, s.nu1, p.p2)), s.nu1, c.n2)
    && SumsTo(Portion(y, Emitted(exp, s.nu2, p.p3)), s.nu2, c.n3)
  }

  predicate Near(n: real, c: real, total: real, dev: real) {
    n - dev <= c <= n + dev && 0.0 <= c <= total
  }

  /** The expectations lie within `dev` of what was observed, and in range. */
  predicate Bracketed(n: Counts, c: Counts, dev: real) {
    Near(n.n1, c.n1, Total(n), dev) && Near(n.n2, c.n2, Total(n), dev) && Near(n.n3, c.n3, Total(n), dev)
  }

  // ------------------------------------------------------------ scaling a series

  lemma {:induction false} PortionPartial(y: nat -> real, a: real, x: real, n: nat)
    ensures Partial(Portion(y, a), x, n) == a * Partial(y, x, n)
  {
    if n > 0 {
      PortionPartial(y, a, x, n - 1);
      PortionTerm(a, y(n - 1), Pow(x, n - 1), Fact(n - 1));
      Distribute(a, Partial(y, x, n - 1), Term(y, x, n - 1));
    }
  }

  lemma PortionTerm(a: real, y: real, p: real, f: real)
    requires f != 0.0
    ensures a * y * p / f == a * (y * p / f)
  {
    var t := y * p / f;
    DivMul(y * p, f);
    SameTimes(t * f, y * p, a);
    assert a * y * p == a * t * f;
    DivMul(a * t, f);
    Cancels(a * t, f);
  }

  lemma Cancels(x: real, f: real)
    requires f != 0.0
    ensures x * f / f == x
  {
  }

  lemma Unportioned(y: nat -> real, a: real, b: real, x: real, c: real, total: real)
    requires a > 0.0 && b * a == 1.0 && SumsTo(Portion(y, a), x, c) && total == b * c
    ensures SumsTo(y, x, total)
  {
    forall eps: real | eps > 0.0 ensures Settles(y, x, total, eps) {
      var e := a * eps;
      Positive(a, eps, e);
      assert Settles(Portion(y, a), x, c, e);
      var from: nat :| Settled(Portion(y, a), x, c, e, from);
      forall n: nat | n >= from ensures Within(y, x, n, total, eps) {
        assert Within(Portion(y, a), x, n, c, e);
        PortionPartial(y, a, x, n);
        Unscale(a, b, Partial(y, x, n), c, eps);
      }
      assert Settled(y, x, total, eps, from);
    }
  }

  lemma Unscale(a: real, b: real, p: real, c: real, eps: real)
    requires a > 0.0 && b * a == 1.0 && -(a * eps) < a * p - c < a * eps
    ensures -eps < p - b * c < eps
  {
    SameTimes(b * a, 1.0, c);
    var d := p - b * c;
    assert a * d == a * p - c * (b * a);
    var up, down := eps - d, eps + d;
    assert a * up == a * eps - a * d && a * down == a * eps + a * d;
    SignOfProduct(a, up, a * up);
    SignOfProduct(a, down, a * down);
  }

  // ------------------------------------------------------------ brackets

  lemma ClipKeepsOrder(x: real, c: real, y: real, total: real)
    requires x <= c <= y && 0.0 <= c <= total
    ensures Clipped(x, total) <= c <= Clipped(y, total)
  {
  }

  lemma ScaleIsPositive(exp: real -> real, k: real, p: real)
    requires ExpLike(exp) && p > 0.0
    ensures ScaleUp(exp, k, p) > 0.0
  {
    assert Inverse(exp, k);
    var e := exp(k);
    DivMul(e, p);
    SignOfProduct(e / p, p, e);
  }

  lemma BracketHolds(exp: real -> real, n: real, c: real, total: real, k: real, p: real, dev: real)
    requires ExpLike(exp) && p > 0.0 && Near(n, c, total, dev)
    ensures Low(exp, n, total, k, p, dev) <= Upscaled(exp, k, p, c) <= High(exp, n, total, k, p, dev)
  {
    ScaleIsPositive(exp, k, p);
    ClipKeepsOrder(n - dev, c, n + dev, total);
    Scaled(ScaleUp(exp, k, p), Clipped(n - dev, total), c);
    Scaled(ScaleUp(exp, k, p), c, Clipped(n + dev, total));
  }

  /** The count at one intensity, scaled back, is the sum of the per-pulse series. */
  lemma CountSums(exp: real -> real, y: nat -> real, k: real, p: real, c: real)
    requires ExpLike(exp) && p > 0.0 && SumsTo(Portion(y, Emitted(exp, k, p)), k, c)
    ensures SumsTo(y, k, Upscaled(exp, k, p, c))
  {
    var a, b := Emitted(exp, k, p), ScaleUp(exp, k, p);
    EmittedInverse(exp, k, p);
    Unportioned(y, a, b, k, c, Upscaled(exp, k, p, c));
  }

  lemma EmittedInverse(exp: real -> real, k: real, p: real)
    requires ExpLike(exp) && p > 0.0
    ensures Emitted(exp, k, p) > 0.0 && ScaleUp(exp, k, p) * Emitted(exp, k, p) == 1.0
  {
    assert Inverse(exp, k);
    var e, f, b := exp(k), exp(-k), ScaleUp(exp, k, p);
    SignOfProduct(f, e, 1.0);
    Positive(p, f, p * f);
    DivMul(e, p);
    assert b * (p * f) == b * p * f;
    SameTimes(b * p, e, f);
  }

  // ------------------------------------------------------------ Eq. (2)

  function Zeros(): nat -> real { (n: nat) => 0.0 }

  lemma {:induction false} ZerosPartial(n: nat)
    ensures Partial(Zeros(), 0.0, n) == 0.0
  {
    if n > 0 { ZerosPartial(n - 1); TermAsRatio(Zeros(), 0.0, n - 1); }
  }

  lemma ZerosSum()
    ensures SumsTo(Zeros(), 0.0, 0.0)
  {
    forall eps: real | eps > 0.0 ensures Settles(Zeros(), 0.0, 0.0, eps) {
      forall n: nat | n >= 0 ensures Within(Zeros(), 0.0, n, 0.0, eps) {
        ZerosPartial(n);
      }
      assert Settled(Zeros(), 0.0, 0.0, eps, 0);
    }
  }

  lemma VacuumFirst(a: real, b: real, r: real, y: nat -> real)
    ensures Partial(y, b, 1) - r * Partial(y, a, 1) == y(0) * (1.0 - r)
  {
    FirstTerms(y, a);
    FirstTerms(y, b);
    assert Partial(y, a, 1) == Partial(y, a, 0) + Term(y, a, 0) == y(0);
    assert Partial(y, b, 1) == Partial(y, b, 0) + Term(y, b, 0) == y(0);
  }

  /** A term from one photon on: less than `r` times its counterpart is left at the weaker intensity. */
  lemma VacuumNext(a: real, b: real, r: real, y: nat -> real, k: nat)
    requires 0.0 <= b < a && b == r * a && NonNegativeTerms(y) && k >= 1
    ensures Term(y, b, k) <= r * Term(y, a, k)
  {
    var u, q := y(k) / Fact(k), Pow(a, k - 1);
    TermAsRatio(y, a, k);
    TermAsRatio(y, b, k);
    PowMonotone(a, b, k - 1);
    Scaled(b, Pow(b, k - 1), q);
    Scaled(u, Pow(b, k), b * q);
    VacuumTerm(a, b, r, u, q);
  }

  /** With r = b/a the ratio of two intensities, the weaker one's excess comes from the vacuum alone. */
  lemma {:induction false} VacuumPartial(a: real, b: real, r: real, y: nat -> real, n: nat)
    requires 0.0 <= b < a && b == r * a && 0.0 <= r && NonNegativeTerms(y) && n >= 1
    ensures Partial(y, b, n) - r * Partial(y, a, n) <= y(0) * (1.0 - r)
  {
    if n == 1 {
      VacuumFirst(a, b, r, y);
    } else {
      VacuumPartial(a, b, r, y, n - 1);
      VacuumNext(a, b, r, y, n - 1);
      LessLeft(r, Partial(y, a, n - 1), Term(y, a, n - 1), Partial(y, b, n - 1), Term(y, b, n - 1), y(0) * (1.0 - r));
    }
  }

  lemma LessLeft(r: real, p: real, t: real, p': real, t': real, most: real)
    requires p' - r * p <= most && t' <= r * t
    ensures p' + t' - r * (p + t) <= most
  {
    Distribute(r, p, t);
  }

  lemma VacuumTerm(a: real, b: real, r: real, u: real, q: real)
    requires b == r * a
    ensures u * (b * q) == r * (u * (a * q))
  {
    SameTimes(b, r * a, u * q);
  }

  lemma VacuumRatio(a: real, b: real, r: real, y: nat -> real, atA: real, atB: real)
    requires 0.0 <= b < a && b == r * a && 0.0 <= r && NonNegativeTerms(y) && SumsTo(y, a, atA) && SumsTo(y, b, atB)
    ensures atB - r * atA <= y(0) * (1.0 - r)
  {
    var most := y(0) * (1.0 - r);
    forall n: nat | n >= 1
      ensures Partial(y, b, n) - Partial(Zeros(), 0.0, n) - r * Partial(y, a, n) <= most
    {
      VacuumPartial(a, b, r, y, n);
      ZerosPartial(n);
    }
    ZerosSum();
    LimitAtMost(y, Zeros(), y, b, 0.0, a, atB, 0.0, atA, r, most, 1);
  }

  lemma VacuumBound(a: real, b: real, y: nat -> real, atA: real, atB: real)
    requires 0.0 <= b < a && NonNegativeTerms(y) && SumsTo(y, a, atA) && SumsTo(y, b, atB)
    ensures a * atB - b * atA <= y(0) * (a - b)
  {
    var r := b / a;
    DivMul(b, a);
    QuotientSign(b, a);
    VacuumRatio(a, b, r, y, atA, atB);
    Scaled(a, atB - r * atA, y(0) * (1.0 - r));
    TimesRatio(a, b, r, atA, atB, y(0));
  }

  lemma TimesRatio(a: real, b: real, r: real, atA: real, atB: real, y0: real)
    requires b == r * a && a * (atB - r * atA) <= a * (y0 * (1.0 - r))
    ensures a * atB - b * atA <= y0 * (a - b)
  {
    SameTimes(b, r * a, atA);
    SameTimes(b, r * a, y0);
    assert a * (atB - r * atA) == a * atB - atA * (r * a);
    assert a * (y0 * (1.0 - r)) == y0 * a - y0 * (r * a);
  }

  /** What the hypotheses say of one intensity. */
  lemma CountFacts(exp: real -> real, y: nat -> real, k: real, p: real, n: real, c: real, total: real, dev: real)
    requires ExpLike(exp) && p > 0.0 && SumsTo(Portion(y, Emitted(exp, k, p)), k, c) && Near(n, c, total, dev)
    ensures SumsTo(y, k, Upscaled(exp, k, p, c))
    ensures Low(exp, n, total, k, p, dev) <= Upscaled(exp, k, p, c) <= High(exp, n, total, k, p, dev)
  {
    CountSums(exp, y, k, p, c);
    BracketHolds(exp, n, c, total, k, p, dev);
  }

  lemma VacuumArithmetic(a: real, b: real, low3: real, at3: real, high2: real, at2: real, tau: real, y0: real,
                         total: real)
    requires 0.0 <= b < a && low3 <= at3 && at2 <= high2 && tau > 0.0 && y0 >= 0.0 && a * at3 - b * at2 <= y0 * (a - b)
    ensures VacuumFormula(a, b, low3, high2, tau, total) <= tau * y0
  {
    var x, gap, most := a * low3 - b * high2, a - b, y0 * (a - b);
    Scaled(a, low3, at3);
    Scaled(b, at2, high2);
    Scaled(tau, x, most);
    NonNegative(tau, y0, tau * y0);
    assert tau * most == tau * y0 * gap;
    AtMostQuotient(tau * x, gap, tau * y0);
  }

  lemma VacuumAt(s: Setting, p: Probabilities, exp: real -> real, n: Counts, dev: real, tau0: real, y: nat -> real,
                 at2: real, at3: real)
    requires Ordered(s) && Likely(p) && NonNegativeTerms(y) && tau0 > 0.0
    requires SumsTo(y, s.nu1, at2) && SumsTo(y, s.nu2, at3)
    requires Low(exp, n.n3, Total(n), s.nu2, p.p3, dev) <= at3 && at2 <= High(exp, n.n2, Total(n), s.nu1, p.p2, dev)
    ensures VacuumLower(s, p, exp, n, dev, tau0) <= tau0 * y(0)
  {
    VacuumBound(s.nu1, s.nu2, y, at2, at3);
    VacuumArithmetic(s.nu1, s.nu2, Low(exp, n.n3, Total(n), s.nu2, p.p3, dev), at3,
                     High(exp, n.n2, Total(n), s.nu1, p.p2, dev), at2, tau0, y(0), Total(n));
  }

  lemma VacuumIsLower(s: Setting, p: Probabilities, exp: real -> real, n: Counts, dev: real, tau0: real,
                      y: nat -> real, c: Counts,
                      photons: real)
    requires Ordered(s) && Likely(p) && ExpLike(exp) && NonNegativeTerms(y) && tau0 > 0.0
    requires Expected(s, p, exp, y, c) && Bracketed(n, c, dev) && tau0 * y(0) == photons
    ensures VacuumLower(s, p, exp, n, dev, tau0) <= photons
  {
    CountFacts(exp, y, s.nu1, p.p2, n.n2, c.n2, Total(n), dev);
    CountFacts(exp, y, s.nu2, p.p3, n.n3, c.n3, Total(n), dev);
    VacuumAt(s, p, exp, n, dev, tau0, y, Upscaled(exp, s.nu1, p.p2, c.n2), Upscaled(exp, s.nu2, p.p3, c.n3));
  }

  // ------------------------------------------------------------ Eq. (3)

  lemma YieldSumMonotone(w: real, a1: real, a2: real, aMu: real, y0: real, b1: real, b2: real, bMu: real, z0: real)
    requires w >= 0.0 && a1 <= b1 && a2 >= b2 && aMu >= bMu && y0 <= z0
    ensures YieldSum(w, a1, a2, aMu, y0) <= YieldSum(w, b1, b2, bMu, z0)
  {
    Scaled(w, bMu - z0, aMu - y0);
    LessTaken(a1 - a2, b1 - b2, w * (aMu - y0), w * (bMu - z0));
  }

  lemma LessTaken(a: real, b: real, x: real, y: real)
    requires a <= b && x >= y
    ensures a - x <= b - y
  {
  }

  lemma SingleArithmetic(mu: real, den: real, w: real, low2: real, high3: real, high1: real, v: real,
                         at2: real, at3: real, at1: real, y0: real, tau: real, y1: real, total: real)
    requires mu > 0.0 && den > 0.0 && w >= 0.0 && low2 <= at2 && high3 >= at3 && high1 >= at1 && v <= y0
    requires tau > 0.0 && y1 >= 0.0 && mu / den * YieldSum(w, at2, at3, at1, y0) <= y1
    ensures Rescaled(mu, den, YieldSum(w, low2, high3, high1, v), tau, total) <= tau * y1
  {
    YieldSumMonotone(w, low2, high3, high1, v, at2, at3, at1, y0);
    ClippedSingle(mu, den, tau, YieldSum(w, low2, high3, high1, v), YieldSum(w, at2, at3, at1, y0), y1, total);
  }

  lemma ClippedSingle(mu: real, den: real, tau: real, x: real, z: real, y: real, total: real)
    requires mu > 0.0 && den > 0.0 && tau > 0.0 && y >= 0.0 && x <= z && mu / den * z <= y
    ensures Rescaled(mu, den, x, tau, total) <= tau * y
  {
    NonNegative(tau, y, tau * y);
    ScaledSingle(mu, den, tau, x, z, y);
  }

  lemma WeightSign(s: Setting)
    requires Ordered(s)
    ensures Weight(s) >= 0.0
  {
    WeightIsNonNegative(s);
  }

  lemma SingleFrom(s: Setting, y: nat -> real, low2: real, high3: real, high1: real, v: real,
                   at1: real, at2: real, at3: real, tau: real, total: real)
    requires Ordered(s) && NonNegativeTerms(y) && tau > 0.0
    requires SumsTo(y, s.mu, at1) && SumsTo(y, s.nu1, at2) && SumsTo(y, s.nu2, at3)
    requires v <= y(0) && low2 <= at2 && at3 <= high3 && at1 <= high1
    ensures SingleFormula(s, low2, high3, high1, v, tau, total) <= tau * y(1)
  {
    YieldBound(s, y, at2, at3, at1);
    WeightSign(s);
    SingleArithmetic(s.mu, Denominator(s), Weight(s), low2, high3, high1, v, at2, at3, at1, y(0), tau, y(1), total);
  }

  lemma PerPulseVacuum(v: real, tau: real, y0: real)
    requires tau > 0.0 && v <= tau * y0
    ensures v / tau <= y0
  {
    AtMostQuotient(v, tau, y0);
  }

  lemma SingleAt(s: Setting, p: Probabilities, exp: real -> real, n: Counts, dev: real, tau0: real, tau1: real,
                 y: nat -> real,
                 at1: real, at2: real, at3: real)
    requires Ordered(s) && Likely(p) && NonNegativeTerms(y) && tau0 > 0.0 && tau1 > 0.0
    requires SumsTo(y, s.mu, at1) && SumsTo(y, s.nu1, at2) && SumsTo(y, s.nu2, at3)
    requires VacuumLower(s, p, exp, n, dev, tau0) <= tau0 * y(0)
    requires Low(exp, n.n2, Total(n), s.nu1, p.p2, dev) <= at2 && at3 <= High(exp, n.n3, Total(n), s.nu2, p.p3, dev)
    requires at1 <= High(exp, n.n1, Total(n), s.mu, p.p1, dev)
    ensures SingleLower(s, p, exp, n, dev, tau0, tau1) <= tau1 * y(1)
  {
    PerPulseVacuum(VacuumLower(s, p, exp, n, dev, tau0), tau0, y(0));
    SingleFrom(s, y, Low(exp, n.n2, Total(n), s.nu1, p.p2, dev), High(exp, n.n3, Total(n), s.nu2, p.p3, dev),
               High(exp, n.n1, Total(n), s.mu, p.p1, dev), VacuumLower(s, p, exp, n, dev, tau0) / tau0,
               at1, at2, at3, tau1, Total(n));
  }

  /** Eq. (3) uses the lower vacuum bound of Eq. (2), and stays a lower bound. */
  lemma SingleIsLower(s: Setting, p: Probabilities, exp: real -> real, n: Counts, dev: real, tau0: real, tau1: real,
                      y: nat -> real, c: Counts, photons: real)
    requires Ordered(s) && Likely(p) && ExpLike(exp) && NonNegativeTerms(y) && tau0 > 0.0 && tau1 > 0.0
    requires Expected(s, p, exp, y, c) && Bracketed(n, c, dev) && tau1 * y(1) == photons
    ensures SingleLower(s, p, exp, n, dev, tau0, tau1) <= photons
  {
    CountFacts(exp, y, s.mu, p.p1, n.n1, c.n1, Total(n), dev);
    CountFacts(exp, y, s.nu1, p.p2, n.n2, c.n2, Total(n), dev);
    CountFacts(exp, y, s.nu2, p.p3, n.n3, c.n3, Total(n), dev);
    VacuumIsLower(s, p, exp, n, dev, tau0, y, c, tau0 * y(0));
    SingleAt(s, p, exp, n, dev, tau0, tau1, y, Upscaled(exp, s.mu, p.p1, c.n1), Upscaled(exp, s.nu1, p.p2, c.n2),
             Upscaled(exp, s.nu2, p.p3, c.n3));
  }

  lemma ScaledSingle(mu: real, den: real, tau: real, x: real, z: real, y: real)
    requires mu > 0.0 && den > 0.0 && tau > 0.0 && x <= z && mu / den * z <= y
    ensures tau * mu * x / den <= tau * y
  {
    var scale := mu / den;
    assert scale > 0.0;
    Scaled(scale, x, z);
    Scaled(tau, scale * x, y);
    Reassociate(tau, mu, x, den);
  }

  lemma Reassociate(tau: real, m: real, x: real, den: real)
    requires den != 0.0
    ensures tau * m * x / den == tau * (m / den * x)
  {
    var q := m / den;
    DivMul(m, den);
    SameTimes(m, q * den, tau * x);
    assert tau * m * x == tau * (q * x) * den;
    Cancels(tau * (q * x), den);
  }

  // ------------------------------------------------------------ Eq. (4)

  lemma ErrorsArithmetic(a: real, b: real, high2: real, at2: real, low3: real, at3: real, tau: real, w1: real)
    requires b < a && at2 <= high2 && low3 <= at3 && tau > 0.0 && w1 * (a - b) <= at2 - at3
    ensures ErrorFormula(a, b, high2, low3, tau) >= tau * w1
  {
    var gap := a - b;
    Scaled(tau, w1 * gap, high2 - low3);
    assert tau * (w1 * gap) == tau * w1 * gap;
    AtLeastQuotient(tau * (high2 - low3), gap, tau * w1);
  }

  lemma ErrorsAreUpper(s: Setting, p: Probabilities, exp: real -> real, m: Counts, dev: real, tau1: real,
                       w: nat -> real, c: Counts,
                       errors: real)
    requires Ordered(s) && Likely(p) && ExpLike(exp) && NonNegativeTerms(w) && tau1 > 0.0
    requires Expected(s, p, exp, w, c) && Bracketed(m, c, dev) && tau1 * w(1) == errors
    ensures ErrorsUpper(s, p, exp, m, dev, tau1) >= errors
  {
    CountFacts(exp, w, s.nu1, p.p2, m.n2, c.n2, Total(m), dev);
    CountFacts(exp, w, s.nu2, p.p3, m.n3, c.n3, Total(m), dev);
    var at2, at3 := Upscaled(exp, s.nu1, p.p2, c.n2), Upscaled(exp, s.nu2, p.p3, c.n3);
    ErrorBound(s, w, at2, at3);
    ErrorsArithmetic(s.nu1, s.nu2, High(exp, m.n2, Total(m), s.nu1, p.p2, dev), at2,
                     Low(exp, m.n3, Total(m), s.nu2, p.p3, dev), at3, tau1, w(1));
  }

  // ------------------------------------------------------------ in terms of photon-number counts

  /** Every photon number has a positive probability, so the last but one condition of `Observed`
      excludes nothing. */
  lemma TauIsPositive(s: Setting, p: Probabilities, exp: real -> real)
    requires Ordered(s) && Likely(p) && ExpLike(exp)
    ensures forall n: nat :: Tau(s, p, exp, n) > 0.0
  {
    forall n: nat ensures Tau(s, p, exp, n) > 0.0 {
      EmittedInverse(exp, s.mu, p.p1);
      EmittedInverse(exp, s.nu1, p.p2);
      EmittedInverse(exp, s.nu2, p.p3);
      PowPositive(s.mu, n);
      PowNonNegative(s.nu1, n);
      PowNonNegative(s.nu2, n);
      MixtureIsPositive(Emitted(exp, s.mu, p.p1), Pow(s.mu, n), Emitted(exp, s.nu1, p.p2), Pow(s.nu1, n),
                        Emitted(exp, s.nu2, p.p3), Pow(s.nu2, n), Fact(n));
    }
  }

  lemma MixtureIsPositive(a: real, x: real, b: real, y: real, d: real, z: real, f: real)
    requires a > 0.0 && b > 0.0 && d > 0.0 && x > 0.0 && y >= 0.0 && z >= 0.0 && f > 0.0
    ensures Mixture(a, x, b, y, d, z, f) > 0.0
  {
    Positive(a, x, a * x);
    NonNegative(b, y, b * y);
    NonNegative(d, z, d * z);
    var sum := a * x + b * y + d * z;
    DivMul(sum, f);
    SignOfProduct(sum / f, f, sum);
  }

  lemma PerPulseIsNonNegative(s: Setting, p: Probabilities, exp: real -> real, photons: nat -> real)
    requires NonNegativeTerms(photons) && forall n: nat :: Tau(s, p, exp, n) > 0.0
    ensures NonNegativeTerms(PerPulse(s, p, exp, photons))
  {
    forall n: nat ensures PerPulse(s, p, exp, photons)(n) >= 0.0 {
      QuotientSign(photons(n), Tau(s, p, exp, n));
    }
  }

  lemma PulsesTimesTau(s: Setting, p: Probabilities, exp: real -> real, photons: nat -> real, n: nat)
    requires forall k: nat :: Tau(s, p, exp, k) > 0.0
    ensures Tau(s, p, exp, n) * PerPulse(s, p, exp, photons)(n) == photons(n)
  {
    DivMul(photons(n), Tau(s, p, exp, n));
  }

  lemma QuotientSign(x: real, t: real)
    requires x >= 0.0 && t > 0.0
    ensures x / t >= 0.0
  {
    DivMul(x, t);
  }

  /** `photons(n)` detections came from n-photon pulses, `c` per intensity are expected of them, and
      the observed counts are within `dev` of that. */
  ghost predicate Observed(s: Setting, p: Probabilities, exp: real -> real, n: Counts, dev: real, photons: nat -> real,
                           c: Counts)
  {
    && Ordered(s) && Likely(p) && ExpLike(exp) && NonNegativeTerms(photons) && Bracketed(n, c, dev)
    && (forall k: nat :: Tau(s, p, exp, k) > 0.0)
    && Expected(s, p, exp, PerPulse(s, p, exp, photons), c)
  }

  /** The estimates as `lim_key_length` makes them. */
  function VacuumEstimate(s: Setting, p: Probabilities, exp: real -> real, n: Counts, dev: real): real
    requires Likely(p) && s.nu1 != s.nu2
  {
    VacuumLower(s, p, exp, n, dev, Tau(s, p, exp, 0))
  }

  function SingleEstimate(s: Setting, p: Probabilities, exp: real -> real, n: Counts, dev: real): real
    requires Likely(p) && s.nu1 != s.nu2 && s.mu > 0.0 && Tau(s, p, exp, 0) != 0.0
  {
    SingleLower(s, p, exp, n, dev, Tau(s, p, exp, 0), Tau(s, p, exp, 1))
  }

  function ErrorEstimate(s: Setting, p: Probabilities, exp: real -> real, m: Counts, dev: real): real
    requires Likely(p) && s.nu1 != s.nu2
  {
    ErrorsUpper(s, p, exp, m, dev, Tau(s, p, exp, 1))
  }

  /** The vacuum and single-photon estimates are lower bounds, after every clip. */
  lemma VacuumIsSound(s: Setting, p: Probabilities, exp: real -> real, n: Counts, dev: real, photons: nat -> real,
                      c: Counts)
    requires Observed(s, p, exp, n, dev, photons, c)
    ensures VacuumEstimate(s, p, exp, n, dev) <= photons(0)
  {
    PerPulseIsNonNegative(s, p, exp, photons);
    PulsesTimesTau(s, p, exp, photons, 0);
    VacuumIsLower(s, p, exp, n, dev, Tau(s, p, exp, 0), PerPulse(s, p, exp, photons), c, photons(0));
  }

  lemma SingleIsSound(s: Setting, p: Probabilities, exp: real -> real, n: Counts, dev: real, photons: nat -> real,
                      c: Counts)
    requires Observed(s, p, exp, n, dev, photons, c)
    ensures SingleEstimate(s, p, exp, n, dev) <= photons(1)
  {
    PerPulseIsNonNegative(s, p, exp, photons);
    PulsesTimesTau(s, p, exp, photons, 1);
    SingleIsLower(s, p, exp, n, dev, Tau(s, p, exp, 0), Tau(s, p, exp, 1), PerPulse(s, p, exp, photons), c, photons(1));
  }

  /** The single-photon error estimate is an upper bound. */
  lemma ErrorsAreSound(s: Setting, p: Probabilities, exp: real -> real, m: Counts, dev: real, errors: nat -> real,
                       c: Counts)
    requires Observed(s, p, exp, m, dev, errors, c)
    ensures ErrorEstimate(s, p, exp, m, dev) >= errors(1)
  {
    PerPulseIsNonNegative(s, p, exp, errors);
    PulsesTimesTau(s, p, exp, errors, 1);
    ErrorsAreUpper(s, p, exp, m, dev, Tau(s, p, exp, 1), PerPulse(s, p, exp, errors), c, errors(1));
  }

  // ------------------------------------------------------------ Eq. (1)

  /** The phase error rate the key length is computed with; `gamma` is the sampling term. */
  function PhaseError(v: real, sZ: real, sX: real, gamma: (real, real, real) -> real): real {
    if sZ <= 0.0 || sX <= 0.0 then 0.5
    else NoMore(NoMore(v, sZ) / sZ + gamma(NoMore(v, sZ) / sZ, sZ, sX), 0.5)
  }

  function KeyLength(vacuum: real, single: real, phase: real, h: real -> real, cost: real): real {
    NoLess(vacuum + single * (1.0 - h(phase)) - cost, 0.0)
  }

  /** `lim_key_length`; `cost` is the error-correction leak and the epsilon penalty. */
  function Length(s: Setting, p: Probabilities, exp: real -> real, h: real -> real, gamma: (real, real, real) -> real,
                  nX: Counts, devX: real, nZ: Counts, devZ: real, mZ: Counts, devM: real, cost: real): real
    requires Likely(p) && s.nu1 != s.nu2 && s.mu > 0.0 && Tau(s, p, exp, 0) != 0.0
  {
    var sX, sZ := SingleEstimate(s, p, exp, nX, devX), SingleEstimate(s, p, exp, nZ, devZ);
    KeyLength(VacuumEstimate(s, p, exp, nX, devX), sX, PhaseError(ErrorEstimate(s, p, exp, mZ, devM), sZ, sX, gamma),
              h, cost)
  }

  /** The estimated bit error ratio bounds the true one, also when it had to be capped. */
  lemma ErrorRatio(v: real, sZ: real, errors: real, photons: real)
    requires 0.0 < sZ <= photons && 0.0 <= errors <= v && errors <= photons
    ensures errors / photons <= NoMore(v, sZ) / sZ <= 1.0
  {
    var capped := NoMore(v, sZ);
    var b := capped / sZ;
    DivMul(capped, sZ);
    QuotientSign(capped, sZ);
    AtMostQuotient(capped, sZ, 1.0);
    if v <= sZ {
      Scaled(b, sZ, photons);
    } else {
      assert b == 1.0 by { AtLeastQuotient(capped, sZ, 1.0); }
    }
    AtMostQuotient(errors, photons, b);
  }

  /** `bound(b, z, x)` bounds the error rate in `x` unobserved bits that were sampled without replacement
      together with `z` observed ones of error rate `b`: it grows with the rate and falls with either
      number. The code's `b + gamma` is nowhere below it (at `b == 0`, where the code's term is one half,
      it is far above). */
  ghost predicate SamplingLike(bound: (real, real, real) -> real, gamma: (real, real, real) -> real) {
    && (forall b, z, x :: 0.0 <= b <= 1.0 && 0.0 < z && 0.0 < x ==>
          Capped(bound(b, z, x)) <= Capped(b + gamma(b, z, x)))
    && (forall b, z, x, b', z', x' :: 0.0 <= b <= b' <= 1.0 && 0.0 < z' <= z && 0.0 < x' <= x ==>
          Capped(bound(b, z, x)) <= Capped(bound(b', z', x')))
  }

  function Capped(x: real): real { NoMore(x, 0.5) }

  /** The sampling theorem at the true counts. */
  ghost predicate Sampled(phase: real, errors: real, z: real, x: real, bound: (real, real, real) -> real) {
    0.0 <= phase && (0.0 < z && 0.0 < x ==> Capped(phase) <= Capped(bound(errors / z, z, x)))
  }

  /** The phase error rate that the length is computed with is at least the true one: it takes too many
      errors, among too few bits, for too few bits. */
  lemma PhaseIsSound(v: real, sZ: real, sX: real, errors: real, z: real, x: real, phase: real,
                     bound: (real, real, real) -> real, gamma: (real, real, real) -> real)
    requires SamplingLike(bound, gamma) && Sampled(phase, errors, z, x, bound)
    requires 0.0 <= errors <= v && errors <= z && sZ <= z && sX <= x
    ensures Capped(phase) <= PhaseError(v, sZ, sX, gamma)
  {
    if 0.0 < sZ && 0.0 < sX {
      ErrorRatio(v, sZ, errors, z);
      QuotientSign(errors, z);
      var rate, most := errors / z, NoMore(v, sZ) / sZ;
      assert Capped(bound(rate, z, x)) <= Capped(bound(most, sZ, sX));
    }
  }

  /** The computed length is at most what the true counts and the true phase error rate give, if that rate
      obeys the sampling theorem at the true counts. `errorsZ(n)` of the `photonsZ(n)` n-photon detections
      in Z are bit errors. */
  lemma LengthIsSound(s: Setting, p: Probabilities, exp: real -> real, h: real -> real,
                      bound: (real, real, real) -> real, gamma: (real, real, real) -> real,
                      nX: Counts, devX: real, nZ: Counts, devZ: real, mZ: Counts, devM: real, cost: real,
                      photonsX: nat -> real, cX: Counts, photonsZ: nat -> real, cZ: Counts,
                      errorsZ: nat -> real, cM: Counts, phase: real)
    requires EntropyLike(h) && SamplingLike(bound, gamma)
    requires Observed(s, p, exp, nX, devX, photonsX, cX) && Observed(s, p, exp, nZ, devZ, photonsZ, cZ)
    requires Observed(s, p, exp, mZ, devM, errorsZ, cM) && errorsZ(1) <= photonsZ(1)
    requires Sampled(phase, errorsZ(1), photonsZ(1), photonsX(1), bound)
    ensures Covered(Length(s, p, exp, h, gamma, nX, devX, nZ, devZ, mZ, devM, cost), cost,
                    photonsX(0), photonsX(1), phase, h)
  {
    VacuumIsSound(s, p, exp, nX, devX, photonsX, cX);
    SingleIsSound(s, p, exp, nX, devX, photonsX, cX);
    SingleIsSound(s, p, exp, nZ, devZ, photonsZ, cZ);
    ErrorsAreSound(s, p, exp, mZ, devM, errorsZ, cM);
    var sX, sZ := SingleEstimate(s, p, exp, nX, devX), SingleEstimate(s, p, exp, nZ, devZ);
    var v := ErrorEstimate(s, p, exp, mZ, devM);
    PhaseIsSound(v, sZ, sX, errorsZ(1), photonsZ(1), photonsX(1), phase, bound, gamma);
    LongerKey(VacuumEstimate(s, p, exp, nX, devX), sX, PhaseError(v, sZ, sX, gamma),
              photonsX(0), photonsX(1), phase, h, cost);
  }

  /** A key and its cost fit into what the detections are worth; none comes out where they are not
      worth the cost. */
  ghost predicate Covered(length: real, cost: real, vacuum: real, single: real, phase: real, h: real -> real) {
    && 0.0 <= length
    && (length == 0.0 || length + cost <= vacuum + single * (1.0 - h(phase)))
    && (0.0 <= h(phase) && vacuum + single <= cost ==> length == 0.0)
  }

  lemma LongerKey(v: real, s1: real, e: real, v': real, s1': real, phase: real, h: real -> real, cost: real)
    requires EntropyLike(h) && v <= v' && s1 <= s1' && 0.0 <= s1' && e <= 0.5 && 0.0 <= phase && NoMore(phase, 0.5) <= e
    ensures Covered(KeyLength(v, s1, e, h, cost), cost, v', s1', phase, h)
  {
    assert h(phase) <= h(e) by { assert e == 0.5 || phase <= e; }
    assert h(e) <= 1.0;
    KeyGrows(v, s1, 1.0 - h(e), v', s1', 1.0 - h(phase));
    if 0.0 <= h(phase) {
      Scaled(s1', 1.0 - h(phase), 1.0);
    }
  }

  lemma KeyGrows(v: real, s: real, a: real, v': real, s': real, b: real)
    requires v <= v' && s <= s' && 0.0 <= s' && 0.0 <= a <= b
    ensures v + s * a <= v' + s' * b
  {
    Scaled(a, s, s');
    Scaled(s', a, b);
  }
}
