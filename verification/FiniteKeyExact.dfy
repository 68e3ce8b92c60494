/** What the estimates of `FiniteKey` compute exactly: the equations they satisfy on all counts, and the
    pulses on which they are the true numbers. */
module FiniteKeyExact {
  import opened Series
  import opened Decoy
  import opened Channel
  import opened DecoyExact
  import opened FiniteKey

  // ------------------------------------------------------------ on all counts

  lemma ClippedMeans(x: real, high: real)
    requires 0.0 <= high
    ensures 0.0 <= Clipped(x, high) <= high
    ensures 0.0 <= x <= high ==> Clipped(x, high) == x
    ensures (x <= 0.0 ==> Clipped(x, high) == 0.0) && (high <= x ==> Clipped(x, high) == high)
  {
  }

  /** A bracket is the count moved by the deviation, kept in range, times e^k / p. */
  lemma BracketEquations(exp: real -> real, n: real, total: real, k: real, p: real, dev: real)
    requires p > 0.0
    ensures High(exp, n, total, k, p, dev) * p == exp(k) * Clipped(n + dev, total)
    ensures Low(exp, n, total, k, p, dev) * p == exp(k) * Clipped(n - dev, total)
  {
    DivMul(exp(k), p);
    Reordered(ScaleUp(exp, k, p), p, Clipped(n + dev, total));
    Reordered(ScaleUp(exp, k, p), p, Clipped(n - dev, total));
  }

  lemma Reordered(a: real, b: real, c: real)
    ensures a * c * b == a * b * c
  {
  }

  /** Eq. (2) cleared of its denominator: `v` vacuum detections, out of these scaled counts. */
  predicate VacuumEquation(a: real, b: real, low3: real, high2: real, tau: real, v: real) {
    v * (a - b) == tau * (a * low3 - b * high2)
  }

  lemma VacuumEquations(s: Setting, p: Probabilities, exp: real -> real, n: Counts, dev: real) returns (x: real)
    requires Likely(p) && s.nu1 != s.nu2
    ensures VacuumEstimate(s, p, exp, n, dev) == Clipped(x, Total(n))
    ensures VacuumEquation(s.nu1, s.nu2, Low(exp, n.n3, Total(n), s.nu2, p.p3, dev),
                           High(exp, n.n2, Total(n), s.nu1, p.p2, dev), Tau(s, p, exp, 0), x)
  {
    x := VacuumSolves(s.nu1, s.nu2, Low(exp, n.n3, Total(n), s.nu2, p.p3, dev),
                      High(exp, n.n2, Total(n), s.nu1, p.p2, dev), Tau(s, p, exp, 0), Total(n));
  }

  lemma VacuumSolves(a: real, b: real, low3: real, high2: real, tau: real, total: real) returns (x: real)
    requires a != b
    ensures VacuumFormula(a, b, low3, high2, tau, total) == Clipped(x, total)
    ensures VacuumEquation(a, b, low3, high2, tau, x)
  {
    x := tau * (a * low3 - b * high2) / (a - b);
    DivMul(tau * (a * low3 - b * high2), a - b);
  }

  /** Eq. (3) cleared of its denominators: `v` single photons, out of these scaled counts. */
  predicate SingleEquation(s: Setting, low2: real, high3: real, high1: real, vacuum: real, tau: real, v: real) {
    v * (s.mu * (s.mu * s.nu1 - s.mu * s.nu2 - s.nu1 * s.nu1 + s.nu2 * s.nu2))
    == tau * (s.mu * s.mu * (low2 - high3) - (s.nu1 * s.nu1 - s.nu2 * s.nu2) * (high1 - vacuum))
  }

  lemma RescaledSolves(s: Setting, low2: real, high3: real, high1: real, vacuum: real, tau: real, total: real)
    returns (x: real)
    requires s.mu > 0.0 && Denominator(s) > 0.0
    ensures SingleEquation(s, low2, high3, high1, vacuum, tau, x)
    ensures SingleFormula(s, low2, high3, high1, vacuum, tau, total) == Clipped(x, total)
  {
    x := Cleared(tau, s.mu, YieldSum(Weight(s), low2, high3, high1, vacuum), Denominator(s), total);
    SumCleared(s, low2, high3, high1, vacuum);
  }

  lemma Cleared(tau: real, m: real, sum: real, den: real, total: real) returns (x: real)
    requires den > 0.0
    ensures x * (m * den) == tau * (m * m * sum) && Rescaled(m, den, sum, tau, total) == Clipped(x, total)
  {
    x := tau * m * sum / den;
    DivMul(tau * m * sum, den);
    assert x * (m * den) == x * den * m;
    assert tau * m * sum * m == tau * (m * m * sum);
  }

  lemma SingleEquations(s: Setting, p: Probabilities, exp: real -> real, n: Counts, dev: real) returns (x: real)
    requires Likely(p) && s.nu1 != s.nu2 && s.mu > 0.0 && Tau(s, p, exp, 0) != 0.0
    ensures Denominator(s) <= 0.0 ==> SingleEstimate(s, p, exp, n, dev) == 0.0
    ensures Denominator(s) > 0.0 ==>
              && SingleEstimate(s, p, exp, n, dev) == Clipped(x, Total(n))
              && SingleEquation(s, Low(exp, n.n2, Total(n), s.nu1, p.p2, dev),
                                High(exp, n.n3, Total(n), s.nu2, p.p3, dev),
                                High(exp, n.n1, Total(n), s.mu, p.p1, dev),
                                VacuumEstimate(s, p, exp, n, dev) / Tau(s, p, exp, 0), Tau(s, p, exp, 1), x)
  {
    x := 0.0;
    if Denominator(s) > 0.0 {
      x := RescaledSolves(s, Low(exp, n.n2, Total(n), s.nu1, p.p2, dev), High(exp, n.n3, Total(n), s.nu2, p.p3, dev),
                          High(exp, n.n1, Total(n), s.mu, p.p1, dev),
                          VacuumEstimate(s, p, exp, n, dev) / Tau(s, p, exp, 0), Tau(s, p, exp, 1), Total(n));
    }
  }

  /** Eq. (4) cleared of its denominator: `v` wrong single photons, out of these scaled counts. */
  predicate ErrorsEquation(a: real, b: real, high2: real, low3: real, tau: real, v: real) {
    v * (a - b) == tau * (high2 - low3)
  }

  lemma ErrorsEquations(s: Setting, p: Probabilities, exp: real -> real, m: Counts, dev: real) returns (x: real)
    requires Likely(p) && s.nu1 != s.nu2
    ensures ErrorEstimate(s, p, exp, m, dev) == if x < 0.0 then 0.0 else x
    ensures ErrorsEquation(s.nu1, s.nu2, High(exp, m.n2, Total(m), s.nu1, p.p2, dev),
                           Low(exp, m.n3, Total(m), s.nu2, p.p3, dev), Tau(s, p, exp, 1), x)
  {
    x := ErrorsSolve(s.nu1, s.nu2, High(exp, m.n2, Total(m), s.nu1, p.p2, dev),
                     Low(exp, m.n3, Total(m), s.nu2, p.p3, dev), Tau(s, p, exp, 1));
  }

  lemma ErrorsSolve(a: real, b: real, high2: real, low3: real, tau: real) returns (x: real)
    requires a != b
    ensures ErrorFormula(a, b, high2, low3, tau) == if x < 0.0 then 0.0 else x
    ensures ErrorsEquation(a, b, high2, low3, tau, x)
  {
    x := tau * (high2 - low3) / (a - b);
    DivMul(tau * (high2 - low3), a - b);
  }

  /** The phase error rate: the ratio of the errors, capped at one, and the sampling term; at most one half. */
  lemma PhaseEquation(v: real, sZ: real, sX: real, gamma: (real, real, real) -> real) returns (b: real)
    ensures sZ <= 0.0 || sX <= 0.0 ==> PhaseError(v, sZ, sX, gamma) == 0.5
    ensures sZ > 0.0 && sX > 0.0 ==>
              && b * sZ == (if v > sZ then sZ else v)
              && PhaseError(v, sZ, sX, gamma) == if b + gamma(b, sZ, sX) > 0.5 then 0.5 else b + gamma(b, sZ, sX)
  {
    b := 0.0;
    if sZ > 0.0 {
      b := NoMore(v, sZ) / sZ;
      DivMul(NoMore(v, sZ), sZ);
    }
  }

  /** A key comes out exactly when the estimates exceed the cost, and then it is what they exceed it by. */
  lemma LengthEquation(s: Setting, p: Probabilities, exp: real -> real, h: real -> real,
                       gamma: (real, real, real) -> real,
                       nX: Counts, devX: real, nZ: Counts, devZ: real, mZ: Counts, devM: real, cost: real)
    requires Likely(p) && s.nu1 != s.nu2 && s.mu > 0.0 && Tau(s, p, exp, 0) != 0.0
    ensures var sX, sZ := SingleEstimate(s, p, exp, nX, devX), SingleEstimate(s, p, exp, nZ, devZ);
            Keeps(Length(s, p, exp, h, gamma, nX, devX, nZ, devZ, mZ, devM, cost), cost,
                  VacuumEstimate(s, p, exp, nX, devX), sX,
                  PhaseError(ErrorEstimate(s, p, exp, mZ, devM), sZ, sX, gamma), h)
  {
    var sX, sZ := SingleEstimate(s, p, exp, nX, devX), SingleEstimate(s, p, exp, nZ, devZ);
    KeyKeeps(VacuumEstimate(s, p, exp, nX, devX), sX,
             PhaseError(ErrorEstimate(s, p, exp, mZ, devM), sZ, sX, gamma), h, cost);
  }

  lemma KeyKeeps(vacuum: real, single: real, phase: real, h: real -> real, cost: real)
    ensures Keeps(KeyLength(vacuum, single, phase, h, cost), cost, vacuum, single, phase, h)
  {
  }

  /** Vacuum and single photons are worth this much key; what exceeds the cost is kept. */
  ghost predicate Keeps(length: real, cost: real, vacuum: real, single: real, phase: real, h: real -> real) {
    var worth := vacuum + single * (1.0 - h(phase));
    if worth <= cost then length == 0.0 else length + cost == worth
  }

  // ------------------------------------------------------------ what the counts are counts of

  /** The part of the n-photon detections that had intensity `k`. */
  function Share(s: Setting, p: Probabilities, exp: real -> real, photons: nat -> real, k: real, q: real, n: nat): real
    requires forall n: nat :: Tau(s, p, exp, n) > 0.0
  {
    Term(Portion(PerPulse(s, p, exp, photons), Emitted(exp, k, q)), k, n)
  }

  /** The probability of an n-photon pulse of intensity `k`, chosen with probability `q`. */
  function Part(a: real, x: real, f: real): real
    requires f != 0.0
  {
    a * x / f
  }

  lemma TermOfPortion(y: nat -> real, a: real, x: real, n: nat)
    ensures Term(Portion(y, a), x, n) == y(n) * Part(a, Pow(x, n), Fact(n))
  {
    var ay, p, f := Portion(y, a)(n), Pow(x, n), Fact(n);
    assert ay == a * y(n);
    assert Term(Portion(y, a), x, n) == ay * p / f;
    OneShare(a, y(n), ay, p, f);
  }

  lemma OneShare(a: real, y: real, ay: real, x: real, f: real)
    requires f != 0.0 && ay == a * y
    ensures ay * x / f == y * Part(a, x, f)
  {
    var part := Part(a, x, f);
    DivMul(a * x, f);
    assert ay * x == y * (part * f);
    Divided(y * part, f, ay * x);
  }

  lemma TauIsSum(s: Setting, p: Probabilities, exp: real -> real, n: nat)
    ensures Tau(s, p, exp, n)
            == Part(Emitted(exp, s.mu, p.p1), Pow(s.mu, n), Fact(n))
               + Part(Emitted(exp, s.nu1, p.p2), Pow(s.nu1, n), Fact(n))
               + Part(Emitted(exp, s.nu2, p.p3), Pow(s.nu2, n), Fact(n))
  {
    PartsAddUp(Emitted(exp, s.mu, p.p1), Pow(s.mu, n), Emitted(exp, s.nu1, p.p2), Pow(s.nu1, n),
               Emitted(exp, s.nu2, p.p3), Pow(s.nu2, n), Fact(n));
  }

  lemma PartsAddUp(a: real, x: real, b: real, y: real, d: real, z: real, f: real)
    requires f != 0.0
    ensures Mixture(a, x, b, y, d, z, f) == Part(a, x, f) + Part(b, y, f) + Part(d, z, f)
  {
    var i, j, k := Part(a, x, f), Part(b, y, f), Part(d, z, f);
    DivMul(a * x, f);
    DivMul(b * y, f);
    DivMul(d * z, f);
    Divided(i + j + k, f, a * x + b * y + d * z);
  }

  /** Every n-photon detection had one of the three intensities. */
  lemma SharesAddUp(s: Setting, p: Probabilities, exp: real -> real, photons: nat -> real, n: nat)
    requires forall n: nat :: Tau(s, p, exp, n) > 0.0
    ensures Share(s, p, exp, photons, s.mu, p.p1, n) + Share(s, p, exp, photons, s.nu1, p.p2, n)
            + Share(s, p, exp, photons, s.nu2, p.p3, n) == photons(n)
  {
    var y, f := PerPulse(s, p, exp, photons), Fact(n);
    TermOfPortion(y, Emitted(exp, s.mu, p.p1), s.mu, n);
    TermOfPortion(y, Emitted(exp, s.nu1, p.p2), s.nu1, n);
    TermOfPortion(y, Emitted(exp, s.nu2, p.p3), s.nu2, n);
    TauIsSum(s, p, exp, n);
    PulsesTimesTau(s, p, exp, photons, n);
    Collects(y(n), Part(Emitted(exp, s.mu, p.p1), Pow(s.mu, n), f), Part(Emitted(exp, s.nu1, p.p2), Pow(s.nu1, n), f),
             Part(Emitted(exp, s.nu2, p.p3), Pow(s.nu2, n), f));
  }

  lemma Collects(y: real, a: real, b: real, d: real)
    ensures y * a + y * b + y * d == (a + b + d) * y
  {
  }

  // ------------------------------------------------------------ where nothing is lost

  function Line(y0: real, y1: real, k: real): real { y0 + y1 * k }

  /** Scaled back, the counts of pulses of at most one photon lie on a line. */
  lemma OnALine(exp: real -> real, y: nat -> real, k: real, p: real, c: real)
    requires ExpLike(exp) && p > 0.0 && SumsTo(Portion(y, Emitted(exp, k, p)), k, c) && NoneFrom(y, 2)
    ensures Upscaled(exp, k, p, c) == Line(y(0), y(1), k)
  {
    CountSums(exp, y, k, p, c);
    SumEnds(y, k, 2, Upscaled(exp, k, p, c));
    FirstTerms(y, k);
  }

  /** Without deviation the two brackets are the count itself. */
  lemma NoDeviation(exp: real -> real, y: nat -> real, k: real, p: real, n: real, c: real, total: real)
    requires ExpLike(exp) && p > 0.0 && SumsTo(Portion(y, Emitted(exp, k, p)), k, c) && NoneFrom(y, 2)
    requires Near(n, c, total, 0.0)
    ensures Low(exp, n, total, k, p, 0.0) == Line(y(0), y(1), k) == High(exp, n, total, k, p, 0.0)
  {
    OnALine(exp, y, k, p, c);
    ClippedMeans(n, total);
  }

  lemma TauIsShare(s: Setting, p: Probabilities, exp: real -> real, photons: nat -> real, n: nat)
    requires forall k: nat :: Tau(s, p, exp, k) > 0.0
    ensures IsShare(Tau(s, p, exp, n), PerPulse(s, p, exp, photons)(n), photons(n))
  {
    PulsesTimesTau(s, p, exp, photons, n);
  }

  lemma FewPerPulse(s: Setting, p: Probabilities, exp: real -> real, n: Counts, photons: nat -> real, c: Counts)
    requires Observed(s, p, exp, n, 0.0, photons, c) && NoneFrom(photons, 2)
    ensures NoneFrom(PerPulse(s, p, exp, photons), 2)
  {
    forall k: nat | k >= 2 ensures PerPulse(s, p, exp, photons)(k) == 0.0 {
      Divided(0.0, Tau(s, p, exp, k), photons(k));
    }
  }

  lemma CountIsTwoTerms(y: nat -> real, a: real, k: real, c: real)
    requires SumsTo(Portion(y, a), k, c) && NoneFrom(y, 2)
    ensures c == Term(Portion(y, a), k, 0) + Term(Portion(y, a), k, 1)
  {
    forall n: nat | n >= 2 ensures Portion(y, a)(n) == 0.0 {
    }
    SumEnds(Portion(y, a), k, 2, c);
    FirstTerms(Portion(y, a), k);
  }

  lemma TotalIsPhotons(s: Setting, p: Probabilities, exp: real -> real, n: Counts, photons: nat -> real, c: Counts)
    requires Observed(s, p, exp, n, 0.0, photons, c) && NoneFrom(photons, 2)
    ensures Total(n) == photons(0) + photons(1)
  {
    var y := PerPulse(s, p, exp, photons);
    FewPerPulse(s, p, exp, n, photons, c);
    CountIsTwoTerms(y, Emitted(exp, s.mu, p.p1), s.mu, c.n1);
    CountIsTwoTerms(y, Emitted(exp, s.nu1, p.p2), s.nu1, c.n2);
    CountIsTwoTerms(y, Emitted(exp, s.nu2, p.p3), s.nu2, c.n3);
    SharesAddUp(s, p, exp, photons, 0);
    SharesAddUp(s, p, exp, photons, 1);
  }

  predicate IsShare(share: real, whole: real, part: real) { share * whole == part }

  lemma LineVacuum(a: real, b: real, y0: real, y1: real, low3: real, high2: real, tau: real, total: real, v: real)
    requires a != b && low3 == Line(y0, y1, b) && high2 == Line(y0, y1, a) && IsShare(tau, y0, v)
    ensures VacuumFormula(a, b, low3, high2, tau, total) == Clipped(v, total)
  {
    var x := VacuumSolves(a, b, low3, high2, tau, total);
    Crosses(a, b, y0, y1);
    assert tau * ((a - b) * y0) == tau * y0 * (a - b);
    Divided(x, a - b, tau * y0 * (a - b));
    Divided(tau * y0, a - b, tau * y0 * (a - b));
  }

  lemma Crosses(a: real, b: real, y0: real, y1: real)
    ensures a * Line(y0, y1, b) - b * Line(y0, y1, a) == (a - b) * y0
  {
  }

  lemma LineSingle(s: Setting, y0: real, y1: real, low2: real, high3: real, high1: real, tau: real, total: real,
                   v: real)
    requires s.mu > 0.0 && Denominator(s) > 0.0 && IsShare(tau, y1, v)
    requires low2 == Line(y0, y1, s.nu1) && high3 == Line(y0, y1, s.nu2) && high1 == Line(y0, y1, s.mu)
    ensures SingleFormula(s, low2, high3, high1, y0, tau, total) == Clipped(v, total)
  {
    var x := RescaledSolves(s, low2, high3, high1, y0, tau, total);
    SolvedByLine(s, y0, y1, low2, high3, high1, tau, x);
  }

  lemma SolvedByLine(s: Setting, y0: real, y1: real, low2: real, high3: real, high1: real, tau: real, x: real)
    requires s.mu > 0.0 && Denominator(s) > 0.0
    requires low2 == Line(y0, y1, s.nu1) && high3 == Line(y0, y1, s.nu2) && high1 == Line(y0, y1, s.mu)
    requires SingleEquation(s, low2, high3, high1, y0, tau, x)
    ensures x == tau * y1
  {
    var den := s.mu * Denominator(s);
    Positive(s.mu, Denominator(s), den);
    DecoyExact.Cancels(s.mu, s.nu1, s.nu2, y0, y1, 0.0);
    assert x * den == tau * (den * y1) == tau * y1 * den;
    Divided(x, den, tau * y1 * den);
    Divided(tau * y1, den, tau * y1 * den);
  }

  /** From `b` to `a` the line rises by this much. */
  predicate Rises(y1: real, a: real, b: real, atA: real, atB: real) { atA - atB == y1 * (a - b) }

  lemma LineRises(y0: real, y1: real, a: real, b: real, atA: real, atB: real)
    requires atA == Line(y0, y1, a) && atB == Line(y0, y1, b)
    ensures Rises(y1, a, b, atA, atB)
  {
  }

  lemma LineErrors(a: real, b: real, high2: real, low3: real, tau: real, w1: real, v: real)
    requires b < a && Rises(w1, a, b, high2, low3) && IsShare(tau, w1, v) && 0.0 <= v
    ensures ErrorFormula(a, b, high2, low3, tau) == v
  {
    var gap := a - b;
    assert tau * (w1 * gap) == tau * w1 * gap;
    Divided(v, gap, tau * (high2 - low3));
  }

  lemma VacuumOnLine(s: Setting, p: Probabilities, exp: real -> real, n: Counts, y: nat -> real, c: Counts, tau: real,
                     v: real)
    requires Likely(p) && ExpLike(exp) && s.nu1 != s.nu2 && NoneFrom(y, 2) && IsShare(tau, y(0), v)
    requires Expected(s, p, exp, y, c) && Bracketed(n, c, 0.0)
    ensures VacuumLower(s, p, exp, n, 0.0, tau) == Clipped(v, Total(n))
  {
    NoDeviation(exp, y, s.nu1, p.p2, n.n2, c.n2, Total(n));
    NoDeviation(exp, y, s.nu2, p.p3, n.n3, c.n3, Total(n));
    LineVacuum(s.nu1, s.nu2, y(0), y(1), Low(exp, n.n3, Total(n), s.nu2, p.p3, 0.0),
               High(exp, n.n2, Total(n), s.nu1, p.p2, 0.0), tau, Total(n), v);
  }

  lemma CountsRise(s: Setting, p: Probabilities, exp: real -> real, y: nat -> real, m: Counts, c: Counts)
    requires Likely(p) && ExpLike(exp) && NoneFrom(y, 2) && Expected(s, p, exp, y, c) && Bracketed(m, c, 0.0)
    ensures Rises(y(1), s.nu1, s.nu2, High(exp, m.n2, Total(m), s.nu1, p.p2, 0.0),
                  Low(exp, m.n3, Total(m), s.nu2, p.p3, 0.0))
  {
    NoDeviation(exp, y, s.nu1, p.p2, m.n2, c.n2, Total(m));
    NoDeviation(exp, y, s.nu2, p.p3, m.n3, c.n3, Total(m));
    LineRises(y(0), y(1), s.nu1, s.nu2, High(exp, m.n2, Total(m), s.nu1, p.p2, 0.0),
              Low(exp, m.n3, Total(m), s.nu2, p.p3, 0.0));
  }

  lemma ErrorsOnLine(s: Setting, p: Probabilities, exp: real -> real, m: Counts, tau: real, w1: real, v: real)
    requires Likely(p) && s.nu2 < s.nu1 && IsShare(tau, w1, v) && 0.0 <= v
    requires Rises(w1, s.nu1, s.nu2, High(exp, m.n2, Total(m), s.nu1, p.p2, 0.0),
                   Low(exp, m.n3, Total(m), s.nu2, p.p3, 0.0))
    ensures ErrorsUpper(s, p, exp, m, 0.0, tau) == v
  {
    LineErrors(s.nu1, s.nu2, High(exp, m.n2, Total(m), s.nu1, p.p2, 0.0), Low(exp, m.n3, Total(m), s.nu2, p.p3, 0.0),
               tau, w1, v);
  }

  /** No pulse of two photons or more and no deviation: the estimates are the true numbers. */
  lemma VacuumIsExact(s: Setting, p: Probabilities, exp: real -> real, n: Counts, photons: nat -> real, c: Counts)
    requires Observed(s, p, exp, n, 0.0, photons, c) && NoneFrom(photons, 2)
    ensures VacuumEstimate(s, p, exp, n, 0.0) == photons(0)
  {
    FewPerPulse(s, p, exp, n, photons, c);
    TauIsShare(s, p, exp, photons, 0);
    VacuumOnLine(s, p, exp, n, PerPulse(s, p, exp, photons), c, Tau(s, p, exp, 0), photons(0));
    TotalIsPhotons(s, p, exp, n, photons, c);
    ClippedMeans(photons(0), Total(n));
  }

  lemma SingleIsExact(s: Setting, p: Probabilities, exp: real -> real, n: Counts, photons: nat -> real, c: Counts)
    requires Observed(s, p, exp, n, 0.0, photons, c) && NoneFrom(photons, 2)
    ensures SingleEstimate(s, p, exp, n, 0.0) == photons(1)
  {
    var y := PerPulse(s, p, exp, photons);
    FewPerPulse(s, p, exp, n, photons, c);
    NoDeviation(exp, y, s.mu, p.p1, n.n1, c.n1, Total(n));
    NoDeviation(exp, y, s.nu1, p.p2, n.n2, c.n2, Total(n));
    NoDeviation(exp, y, s.nu2, p.p3, n.n3, c.n3, Total(n));
    VacuumIsExact(s, p, exp, n, photons, c);
    PositiveDenominator(s);
    TauIsShare(s, p, exp, photons, 1);
    LineSingle(s, y(0), y(1), Low(exp, n.n2, Total(n), s.nu1, p.p2, 0.0), High(exp, n.n3, Total(n), s.nu2, p.p3, 0.0),
               High(exp, n.n1, Total(n), s.mu, p.p1, 0.0), Tau(s, p, exp, 1), Total(n), photons(1));
    TotalIsPhotons(s, p, exp, n, photons, c);
    ClippedMeans(photons(1), Total(n));
  }

  lemma ErrorsAreExact(s: Setting, p: Probabilities, exp: real -> real, m: Counts, errors: nat -> real, c: Counts)
    requires Observed(s, p, exp, m, 0.0, errors, c) && NoneFrom(errors, 2)
    ensures ErrorEstimate(s, p, exp, m, 0.0) == errors(1)
  {
    FewPerPulse(s, p, exp, m, errors, c);
    TauIsShare(s, p, exp, errors, 1);
    CountsRise(s, p, exp, PerPulse(s, p, exp, errors), m, c);
    ErrorsOnLine(s, p, exp, m, Tau(s, p, exp, 1), PerPulse(s, p, exp, errors)(1), errors(1));
  }

  lemma LengthFrom(s: Setting, p: Probabilities, exp: real -> real, h: real -> real,
                   gamma: (real, real, real) -> real, nX: Counts, nZ: Counts, mZ: Counts, cost: real,
                   vacuum: real, sX: real, sZ: real, v: real)
    requires Likely(p) && s.nu1 != s.nu2 && s.mu > 0.0 && Tau(s, p, exp, 0) != 0.0
    requires VacuumEstimate(s, p, exp, nX, 0.0) == vacuum && SingleEstimate(s, p, exp, nX, 0.0) == sX
    requires SingleEstimate(s, p, exp, nZ, 0.0) == sZ && ErrorEstimate(s, p, exp, mZ, 0.0) == v
    ensures Length(s, p, exp, h, gamma, nX, 0.0, nZ, 0.0, mZ, 0.0, cost)
            == KeyLength(vacuum, sX, PhaseError(v, sZ, sX, gamma), h, cost)
  {
  }

  lemma PhaseWorth(vacuum: real, sX: real, sZ: real, v: real, h: real -> real, gamma: (real, real, real) -> real,
                   cost: real) returns (b: real)
    requires 0.0 < sX && 0.0 < sZ && v <= sZ
    ensures IsShare(b, sZ, v)
    ensures Keeps(KeyLength(vacuum, sX, PhaseError(v, sZ, sX, gamma), h, cost), cost, vacuum, sX,
                  Capped(b + gamma(b, sZ, sX)), h)
  {
    b := PhaseEquation(v, sZ, sX, gamma);
    KeyKeeps(vacuum, sX, PhaseError(v, sZ, sX, gamma), h, cost);
  }

  lemma LengthIsKey(s: Setting, p: Probabilities, exp: real -> real, h: real -> real,
                    gamma: (real, real, real) -> real, nX: Counts, nZ: Counts, mZ: Counts, cost: real,
                    photonsX: nat -> real, cX: Counts, photonsZ: nat -> real, cZ: Counts,
                    errorsZ: nat -> real, cM: Counts)
    requires Observed(s, p, exp, nX, 0.0, photonsX, cX) && NoneFrom(photonsX, 2)
    requires Observed(s, p, exp, nZ, 0.0, photonsZ, cZ) && NoneFrom(photonsZ, 2)
    requires Observed(s, p, exp, mZ, 0.0, errorsZ, cM) && NoneFrom(errorsZ, 2)
    ensures Length(s, p, exp, h, gamma, nX, 0.0, nZ, 0.0, mZ, 0.0, cost)
            == KeyLength(photonsX(0), photonsX(1), PhaseError(errorsZ(1), photonsZ(1), photonsX(1), gamma), h, cost)
  {
    VacuumIsExact(s, p, exp, nX, photonsX, cX);
    SingleIsExact(s, p, exp, nX, photonsX, cX);
    SingleIsExact(s, p, exp, nZ, photonsZ, cZ);
    ErrorsAreExact(s, p, exp, mZ, errorsZ, cM);
    LengthFrom(s, p, exp, h, gamma, nX, nZ, mZ, cost, photonsX(0), photonsX(1), photonsZ(1), errorsZ(1));
  }

  /** On such detections the length is what vacuum and single photons are worth, less the cost. */
  lemma LengthIsExact(s: Setting, p: Probabilities, exp: real -> real, h: real -> real,
                      gamma: (real, real, real) -> real, nX: Counts, nZ: Counts, mZ: Counts, cost: real,
                      photonsX: nat -> real, cX: Counts, photonsZ: nat -> real, cZ: Counts,
                      errorsZ: nat -> real, cM: Counts) returns (b: real)
    requires Observed(s, p, exp, nX, 0.0, photonsX, cX) && NoneFrom(photonsX, 2) && 0.0 < photonsX(1)
    requires Observed(s, p, exp, nZ, 0.0, photonsZ, cZ) && NoneFrom(photonsZ, 2) && 0.0 < photonsZ(1)
    requires Observed(s, p, exp, mZ, 0.0, errorsZ, cM) && NoneFrom(errorsZ, 2) && errorsZ(1) <= photonsZ(1)
    ensures IsShare(b, photonsZ(1), errorsZ(1))
    ensures Keeps(Length(s, p, exp, h, gamma, nX, 0.0, nZ, 0.0, mZ, 0.0, cost), cost, photonsX(0), photonsX(1),
                  Capped(b + gamma(b, photonsZ(1), photonsX(1))), h)
  {
    LengthIsKey(s, p, exp, h, gamma, nX, nZ, mZ, cost, photonsX, cX, photonsZ, cZ, errorsZ, cM);
    b := PhaseWorth(photonsX(0), photonsX(1), photonsZ(1), errorsZ(1), h, gamma, cost);
  }
}
