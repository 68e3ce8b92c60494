/** The two-decoy bounds of Ma, Qi, Zhao and Lo (Phys. Rev. A 72, 012326), Eqs. (13), (18) and (22),
    as services/bb84-kme/app/backends/_skr.py computes them, over exact reals.

    Yields are any non-negative numbers; a gain times e^intensity is the sum of the yields' power
    series. `exp` and the binary entropy are parameters: only what is stated of them is used. */
module Decoy {
  import opened Series

  datatype Setting = Setting(mu: real, nu1: real, nu2: real)

  /** Eq. (13): the condition under which Eq. (18) is a bound. */
  predicate Ordered(s: Setting) {
    0.0 <= s.nu2 < s.nu1 && s.nu1 + s.nu2 < s.mu
  }

  function Denominator(s: Setting): real {
    s.mu * s.nu1 - s.mu * s.nu2 - s.nu1 * s.nu1 + s.nu2 * s.nu2
  }

  /** (nu1^2 - nu2^2) / mu^2 */
  function Weight(s: Setting): real
    requires s.mu > 0.0
  {
    var m := s.mu * s.mu;
    Positive(s.mu, s.mu, m);
    (s.nu1 * s.nu1 - s.nu2 * s.nu2) / m
  }

  function YieldSum(w: real, a1: real, a2: real, aMu: real, y0: real): real { a1 - a2 - w * (aMu - y0) }

  /** Eq. (18) on `a1`, `a2`, `aMu`: the gains at nu1, nu2 and mu, each times e^intensity. */
  function YieldFormula(s: Setting, a1: real, a2: real, aMu: real, y0: real): real
    requires s.mu > 0.0 && Denominator(s) != 0.0
  {
    s.mu / Denominator(s) * YieldSum(Weight(s), a1, a2, aMu, y0)
  }

  // ------------------------------------------------------------ the validity condition

  lemma DenominatorFactors(s: Setting)
    ensures Denominator(s) == (s.nu1 - s.nu2) * (s.mu - s.nu1 - s.nu2)
  {
  }

  /** A positive denominator means that both parts of Eq. (13) hold, or that both fail. */
  lemma PositiveDenominator(s: Setting)
    ensures Denominator(s) > 0.0 <==>
              (s.nu2 < s.nu1 && s.nu1 + s.nu2 < s.mu) || (s.nu2 > s.nu1 && s.nu1 + s.nu2 > s.mu)
  {
    DenominatorFactors(s);
    SignOfProduct(s.nu1 - s.nu2, s.mu - s.nu1 - s.nu2, Denominator(s));
  }

  lemma SignOfProduct(x: real, y: real, xy: real)
    requires xy == x * y
    ensures xy > 0.0 <==> (x > 0.0 && y > 0.0) || (x < 0.0 && y < 0.0)
  {
    var nx, ny := -x, -y;
    assert nx * ny == xy && x * ny == -xy && nx * y == -xy;
    if x >= 0.0 && y >= 0.0 { NonNegative(x, y, xy); }
    if x >= 0.0 && y <= 0.0 { NonNegative(x, ny, -xy); }
    if x <= 0.0 && y >= 0.0 { NonNegative(nx, y, -xy); }
    if x > 0.0 && y > 0.0 { Positive(x, y, xy); }
    if x < 0.0 && y < 0.0 { Positive(nx, ny, xy); }
  }

  // ------------------------------------------------------------ Eq. (18)

  ghost predicate NonNegativeTerms(y: nat -> real) {
    forall n: nat :: y(n) >= 0.0
  }

  lemma WeightIsNonNegative(s: Setting)
    requires Ordered(s)
    ensures Weight(s) >= 0.0 && Weight(s) * (s.mu * s.mu) == s.nu1 * s.nu1 - s.nu2 * s.nu2
  {
    var m, d := s.mu * s.mu, s.nu1 * s.nu1 - s.nu2 * s.nu2;
    Positive(s.mu, s.mu, m);
    NonNegative(s.nu1 - s.nu2, s.nu1 + s.nu2, d);
    DivMul(d, m);
    assert d / m >= 0.0;
  }

  lemma TermAsRatio(y: nat -> real, x: real, n: nat)
    ensures Term(y, x, n) == y(n) / Fact(n) * Pow(x, n)
  {
    var c, p, f := y(n), Pow(x, n), Fact(n);
    Swap(c, p, f);
  }

  lemma Swap(a: real, b: real, c: real)
    requires c != 0.0
    ensures a * b / c == a / c * b
  {
    var q := a / c;
    DivMul(a, c);
    assert q * b * c == a * b;
    Divided(q * b, c, a * b);
  }

  lemma Divided(q: real, c: real, x: real)
    requires c != 0.0 && q * c == x
    ensures x / c == q
  {
  }

  lemma TermGap(s: Setting, y: nat -> real, n: nat)
    requires Ordered(s) && NonNegativeTerms(y) && n >= 2
    ensures Term(y, s.nu1, n) - Term(y, s.nu2, n) - Weight(s) * Term(y, s.mu, n) <= 0.0
  {
    var r, p1, p2, pMu := y(n) / Fact(n), Pow(s.nu1, n), Pow(s.nu2, n), Pow(s.mu, n);
    TermAsRatio(y, s.nu1, n);
    TermAsRatio(y, s.nu2, n);
    TermAsRatio(y, s.mu, n);
    WeightIsNonNegative(s);
    PowerGap(s.mu, s.nu1, s.nu2, Weight(s), n);
    Scaled(r, p1 - p2, Weight(s) * pMu);
    assert r * (p1 - p2) == r * p1 - r * p2;
    Exchange(r, Weight(s), pMu);
  }

  lemma Exchange(a: real, b: real, c: real)
    ensures a * (b * c) == b * (a * c)
  {
  }

  lemma FirstTerms(y: nat -> real, x: real)
    ensures Term(y, x, 0) == y(0) && Term(y, x, 1) == y(1) * x && Partial(y, x, 2) == y(0) + y(1) * x
  {
    assert Pow(x, 1) == x * Pow(x, 0) == x;
    assert Fact(1) == 1.0;
    assert Partial(y, x, 2) == Partial(y, x, 1) + Term(y, x, 1);
    assert Partial(y, x, 1) == Partial(y, x, 0) + Term(y, x, 0);
  }

  /** What is left of Eq. (18) when all terms from two photons on are dropped. */
  function Leading(s: Setting, y: nat -> real): real
    requires s.mu > 0.0
  {
    y(1) * (s.nu1 - s.nu2 - Weight(s) * s.mu) - Weight(s) * y(0)
  }

  /** The gap between the first `n` terms at the three intensities. */
  function Gap(s: Setting, y: nat -> real, n: nat): real
    requires s.mu > 0.0
  {
    Partial(y, s.nu1, n) - Partial(y, s.nu2, n) - Weight(s) * Partial(y, s.mu, n)
  }

  lemma FirstGap(s: Setting, y: nat -> real)
    requires s.mu > 0.0
    ensures Gap(s, y, 2) == Leading(s, y)
  {
    FirstTerms(y, s.nu1);
    FirstTerms(y, s.nu2);
    FirstTerms(y, s.mu);
    SecondPartial(y(0), y(1), s.nu1, s.nu2, s.mu, Weight(s));
  }

  lemma NextGap(s: Setting, y: nat -> real, n: nat, bound: real)
    requires Ordered(s) && NonNegativeTerms(y) && n >= 2 && Gap(s, y, n) <= bound
    ensures Gap(s, y, n + 1) <= bound
  {
    TermGap(s, y, n);
    AddGap(Partial(y, s.nu1, n), Term(y, s.nu1, n), Partial(y, s.nu2, n), Term(y, s.nu2, n),
           Partial(y, s.mu, n), Term(y, s.mu, n), Weight(s), bound);
  }

  lemma {:induction false} PartialGap(s: Setting, y: nat -> real, n: nat)
    requires Ordered(s) && NonNegativeTerms(y) && n >= 2
    ensures Gap(s, y, n) <= Leading(s, y)
    decreases n
  {
    if n == 2 {
      FirstGap(s, y);
    } else {
      PartialGap(s, y, n - 1);
      NextGap(s, y, n - 1, Leading(s, y));
    }
  }

  lemma AddGap(p1: real, t1: real, p2: real, t2: real, pm: real, tm: real, w: real, bound: real)
    requires p1 - p2 - w * pm <= bound && t1 - t2 - w * tm <= 0.0
    ensures p1 + t1 - (p2 + t2) - w * (pm + tm) <= bound
  {
    Distribute(w, pm, tm);
  }

  lemma SecondPartial(y0: real, y1: real, a: real, b: real, m: real, w: real)
    ensures (y0 + y1 * a) - (y0 + y1 * b) - w * (y0 + y1 * m) == y1 * (a - b - w * m) - w * y0
  {
  }

  lemma Distribute(w: real, a: real, b: real)
    ensures w * (a + b) == w * a + w * b
  {
  }

  /** Eq. (18) is a lower bound on the single-photon yield. */
  lemma YieldBound(s: Setting, y: nat -> real, a1: real, a2: real, aMu: real)
    requires Ordered(s) && NonNegativeTerms(y)
    requires SumsTo(y, s.nu1, a1) && SumsTo(y, s.nu2, a2) && SumsTo(y, s.mu, aMu)
    ensures Denominator(s) > 0.0
    ensures YieldFormula(s, a1, a2, aMu, y(0)) <= y(1)
  {
    PositiveDenominator(s);
    LimitGap(s, y, a1, a2, aMu);
    FormulaFromGap(s, y, a1, a2, aMu);
  }

  lemma FormulaFromGap(s: Setting, y: nat -> real, a1: real, a2: real, aMu: real)
    requires Ordered(s) && Denominator(s) > 0.0 && GapAtMost(s, a1, a2, aMu, Leading(s, y))
    ensures YieldFormula(s, a1, a2, aMu, y(0)) <= y(1)
  {
    ScaledYield(s, a1 - a2, aMu, y(0), y(1));
  }

  predicate GapAtMost(s: Setting, a1: real, a2: real, aMu: real, most: real)
    requires s.mu > 0.0
  {
    a1 - a2 - Weight(s) * aMu <= most
  }

  /** The gap in the limit. */
  lemma LimitGap(s: Setting, y: nat -> real, a1: real, a2: real, aMu: real)
    requires Ordered(s) && NonNegativeTerms(y)
    requires SumsTo(y, s.nu1, a1) && SumsTo(y, s.nu2, a2) && SumsTo(y, s.mu, aMu)
    ensures GapAtMost(s, a1, a2, aMu, Leading(s, y))
  {
    WeightIsNonNegative(s);
    forall n: nat | n >= 2
      ensures Partial(y, s.nu1, n) - Partial(y, s.nu2, n) - Weight(s) * Partial(y, s.mu, n) <= Leading(s, y)
    {
      PartialGap(s, y, n);
    }
    LimitAtMost(y, y, y, s.nu1, s.nu2, s.mu, a1, a2, aMu, Weight(s), Leading(s, y), 2);
  }

  lemma ScaledYield(s: Setting, d: real, aMu: real, y0: real, y1: real)
    requires Ordered(s) && Denominator(s) > 0.0
    requires d - Weight(s) * aMu <= y1 * (s.nu1 - s.nu2 - Weight(s) * s.mu) - Weight(s) * y0
    ensures s.mu / Denominator(s) * (d - Weight(s) * (aMu - y0)) <= y1
  {
    Expand(s.mu, s.nu1, s.nu2, Weight(s));
    ScaledGap(s.mu, s.nu1 - s.nu2 - Weight(s) * s.mu, Denominator(s), Weight(s), d, aMu, y0, y1);
  }

  lemma ScaledGap(mu: real, k: real, den: real, w: real, d: real, aMu: real, y0: real, y1: real)
    requires mu > 0.0 && den > 0.0 && mu * k == den && d - w * aMu <= y1 * k - w * y0
    ensures mu / den * (d - w * (aMu - y0)) <= y1
  {
    Distribute(w, aMu - y0, y0);
    OverDenominator(mu, k, den, d - w * (aMu - y0), y1);
  }

  lemma OverDenominator(mu: real, k: real, den: real, x: real, y: real)
    requires mu > 0.0 && den > 0.0 && mu * k == den && x <= y * k
    ensures mu / den * x <= y
  {
    Scaled(mu, x, y * k);
    Exchange(mu, y, k);
    SameTimes(mu * k, den, y);
    Swap(mu, x, den);
    AtMostQuotient(mu * x, den, y);
  }

  lemma Expand(m: real, a: real, b: real, w: real)
    ensures m * (a - b - w * m) == m * a - m * b - w * (m * m)
  {
  }

  lemma SameTimes(a: real, b: real, c: real)
    requires a == b
    ensures c * a == c * b
  {
  }

  lemma AtMostQuotient(x: real, den: real, y: real)
    requires den > 0.0 && x <= y * den
    ensures x / den <= y
  {
    var gap := x / den - y;
    DivMul(x, den);
    assert gap * den == x / den * den - y * den;
    if gap > 0.0 {
      Positive(gap, den, gap * den);
    }
  }

  // ------------------------------------------------------------ Eq. (22)

  lemma {:induction false} ErrorPartial(s: Setting, w: nat -> real, n: nat)
    requires 0.0 <= s.nu2 < s.nu1 && NonNegativeTerms(w) && n >= 2
    ensures Partial(w, s.nu1, n) - Partial(w, s.nu2, n) >= w(1) * (s.nu1 - s.nu2)
  {
    if n == 2 {
      FirstTerms(w, s.nu1);
      FirstTerms(w, s.nu2);
    } else {
      ErrorPartial(s, w, n - 1);
      var r := w(n - 1) / Fact(n - 1);
      TermAsRatio(w, s.nu1, n - 1);
      TermAsRatio(w, s.nu2, n - 1);
      PowMonotone(s.nu1, s.nu2, n - 1);
      Scaled(r, Pow(s.nu2, n - 1), Pow(s.nu1, n - 1));
    }
  }

  /** The difference of the error gains bounds the single-photon errors from above. */
  lemma ErrorBound(s: Setting, w: nat -> real, b1: real, b2: real)
    requires 0.0 <= s.nu2 < s.nu1 && NonNegativeTerms(w)
    requires SumsTo(w, s.nu1, b1) && SumsTo(w, s.nu2, b2)
    ensures w(1) * (s.nu1 - s.nu2) <= b1 - b2
  {
    forall n: nat | n >= 2
      ensures Partial(w, s.nu2, n) - Partial(w, s.nu1, n) - 0.0 * Partial(w, s.nu1, n) <= -(w(1) * (s.nu1 - s.nu2))
    {
      ErrorPartial(s, w, n);
    }
    LimitAtMost(w, w, w, s.nu2, s.nu1, s.nu1, b2, b1, b1, 0.0, -(w(1) * (s.nu1 - s.nu2)), 2);
  }

  // ------------------------------------------------------------ the estimator

  /** Gains and error rates measured at the three intensities, and the vacuum yield. */
  datatype Gains = Gains(y0: real, qMu: real, eMu: real, q1: real, e1: real, q2: real, e2: real)

  function NoLess(x: real, low: real): real { if x < low then low else x }

  function NoMore(x: real, high: real): real { if x > high then high else x }

  /** A gain, or an error gain, times e^intensity: the sum of its power series. */
  function Clicks(q: real, exp: real -> real, x: real): real { q * exp(x) }

  function Errors(e: real, q: real, exp: real -> real, x: real): real { e * q * exp(x) }

  function YieldLower(s: Setting, g: Gains, exp: real -> real): real
    requires s.mu > 0.0 && Denominator(s) != 0.0
  {
    NoLess(YieldFormula(s, Clicks(g.q1, exp, s.nu1), Clicks(g.q2, exp, s.nu2), Clicks(g.qMu, exp, s.mu), g.y0), 0.0)
  }

  function WeakErrors(s: Setting, g: Gains, exp: real -> real): real {
    if s.nu2 > 0.0 then Errors(g.e2, g.q2, exp, s.nu2) else 0.5 * g.y0
  }

  function ErrorNumerator(s: Setting, g: Gains, exp: real -> real): real {
    Errors(g.e1, g.q1, exp, s.nu1) - WeakErrors(s, g, exp)
  }

  function ErrorUpper(s: Setting, g: Gains, exp: real -> real, y1: real): real
    requires 0.0 <= s.nu2 < s.nu1 && y1 > 0.0
  {
    NoLess(NoMore(Ratio(ErrorNumerator(s, g, exp), s.nu1 - s.nu2, y1), 0.5), 0.0)
  }

  function Ratio(num: real, gap: real, y: real): real
    requires gap > 0.0 && y > 0.0
  {
    var den := gap * y;
    Positive(gap, y, den);
    num / den
  }

  /** Eq. (1) with a single-photon yield and error rate, never negative. */
  function GllpRate(s: Setting, g: Gains, fEC: real, exp: real -> real, h: real -> real, y1: real, e1: real): real {
    NoLess(0.5 * (-g.qMu * fEC * h(g.eMu) + s.mu * exp(-s.mu) * y1 * (1.0 - h(e1))), 0.0)
  }

  /** `asymptotic_skr_per_pulse`, from the gains on. */
  function Rate(s: Setting, g: Gains, fEC: real, exp: real -> real, h: real -> real): real {
    if s.nu1 <= 0.0 || s.mu - s.nu1 <= 0.0 then 0.0
    else if !Ordered(s) then 0.0
    else if Denominator(s) <= 0.0 then 0.0
    else
      var y1 := YieldLower(s, g, exp);
      if y1 <= 0.0 then 0.0 else GllpRate(s, g, fEC, exp, h, y1, ErrorUpper(s, g, exp, y1))
  }

  /** The gains come from yields `y` and error yields `w`; without a second decoy, a vacuum click is
      wrong half the time. */
  ghost predicate Explained(s: Setting, g: Gains, exp: real -> real, y: nat -> real, w: nat -> real) {
    && NonNegativeTerms(y) && NonNegativeTerms(w) && y(0) == g.y0
    && SumsTo(y, s.nu1, Clicks(g.q1, exp, s.nu1)) && SumsTo(y, s.nu2, Clicks(g.q2, exp, s.nu2))
    && SumsTo(y, s.mu, Clicks(g.qMu, exp, s.mu))
    && SumsTo(w, s.nu1, Errors(g.e1, g.q1, exp, s.nu1)) && SumsTo(w, s.nu2, WeakErrors(s, g, exp))
  }

  /** What is used of the binary entropy. */
  ghost predicate EntropyLike(h: real -> real) {
    && (forall x, y :: 0.0 <= x <= y <= 0.5 ==> h(x) <= h(y))
    && (forall x :: h(x) <= h(0.5) && h(x) <= 1.0)
  }

  lemma YieldLowerIsLower(s: Setting, g: Gains, exp: real -> real, y: nat -> real, w: nat -> real)
    requires Ordered(s) && Explained(s, g, exp, y, w)
    ensures Denominator(s) > 0.0 && YieldLower(s, g, exp) <= y(1)
  {
    YieldBound(s, y, Clicks(g.q1, exp, s.nu1), Clicks(g.q2, exp, s.nu2), Clicks(g.qMu, exp, s.mu));
  }

  /** With or without a second decoy, the estimate is at least the single-photon error rate, or one
      half if that is exceeded. */
  lemma ErrorUpperIsUpper(s: Setting, g: Gains, exp: real -> real, y: nat -> real, w: nat -> real, y1: real, e1: real)
    requires Ordered(s) && Explained(s, g, exp, y, w)
    requires 0.0 < y1 <= y(1) && 0.0 <= e1 && w(1) == e1 * y(1)
    ensures NoMore(e1, 0.5) <= ErrorUpper(s, g, exp, y1) <= 0.5
  {
    var num := ErrorNumerator(s, g, exp);
    ErrorBound(s, w, Errors(g.e1, g.q1, exp, s.nu1), WeakErrors(s, g, exp));
    Scaled(e1, y1, y(1));
    Scaled(s.nu1 - s.nu2, e1 * y1, w(1));
    RatioAtLeast(num, s.nu1 - s.nu2, y1, e1);
  }

  lemma RatioAtLeast(num: real, gap: real, y: real, e: real)
    requires gap > 0.0 && y > 0.0 && num >= gap * (e * y)
    ensures Ratio(num, gap, y) >= e
  {
    var den := gap * y;
    Positive(gap, y, den);
    Exchange(gap, e, y);
    AtLeastQuotient(num, den, e);
  }

  lemma AtLeastQuotient(x: real, den: real, y: real)
    requires den > 0.0 && x >= y * den
    ensures x / den >= y
  {
    var gap := y - x / den;
    DivMul(x, den);
    assert gap * den == y * den - x / den * den;
    if gap > 0.0 {
      Positive(gap, den, gap * den);
    }
  }

  /** Eq. (1): what single photons bring at this yield and error rate, less what correcting costs. */
  predicate RateWithin(s: Setting, g: Gains, fEC: real, exp: real -> real, h: real -> real, y1: real, e1: real,
                       r: real)
  {
    var key := 0.5 * (-g.qMu * fEC * h(g.eMu) + s.mu * exp(-s.mu) * y1 * (1.0 - h(e1)));
    r <= if key < 0.0 then 0.0 else key
  }

  /** The computed rate never exceeds the rate that the true yield and error rate give. */
  lemma RateIsSound(s: Setting, g: Gains, fEC: real, exp: real -> real, h: real -> real,
                    y: nat -> real, w: nat -> real, e1: real)
    requires Explained(s, g, exp, y, w) && EntropyLike(h) && exp(-s.mu) >= 0.0
    requires 0.0 <= e1 && w(1) == e1 * y(1)
    ensures 0.0 <= Rate(s, g, fEC, exp, h)
    ensures RateWithin(s, g, fEC, exp, h, y(1), e1, Rate(s, g, fEC, exp, h))
  {
    assert RateWithin(s, g, fEC, exp, h, y(1), e1, GllpRate(s, g, fEC, exp, h, y(1), e1));
    if s.nu1 > 0.0 && Ordered(s) {
      YieldLowerIsLower(s, g, exp, y, w);
      var y1 := YieldLower(s, g, exp);
      if y1 > 0.0 {
        ErrorUpperIsUpper(s, g, exp, y, w, y1, e1);
        var e := ErrorUpper(s, g, exp, y1);
        assert h(e1) <= h(e) <= 1.0 by { assert e == 0.5 || e1 <= e; }
        LessRate(s, g, fEC, exp, h, y1, e, y(1), e1);
      }
    }
  }

  lemma LessRate(s: Setting, g: Gains, fEC: real, exp: real -> real, h: real -> real, y1: real, e: real, y: real,
                 e1: real)
    requires s.mu >= 0.0 && exp(-s.mu) >= 0.0 && 0.0 <= y1 <= y && h(e1) <= h(e) <= 1.0
    ensures GllpRate(s, g, fEC, exp, h, y1, e) <= GllpRate(s, g, fEC, exp, h, y, e1)
  {
    var k, cost, p, q := s.mu * exp(-s.mu), -g.qMu * fEC * h(g.eMu), 1.0 - h(e), 1.0 - h(e1);
    NonNegative(s.mu, exp(-s.mu), k);
    LessKey(k, y1, y, p, q);
    assert GllpRate(s, g, fEC, exp, h, y1, e) == NoLess(0.5 * (cost + k * y1 * p), 0.0);
    assert GllpRate(s, g, fEC, exp, h, y, e1) == NoLess(0.5 * (cost + k * y * q), 0.0);
  }

  lemma LessKey(k: real, a: real, b: real, p: real, q: real)
    requires k >= 0.0 && 0.0 <= a <= b && 0.0 <= p <= q
    ensures k * a * p <= k * b * q
  {
    Scaled(k, a, b);
    var ka, kb := k * a, k * b;
    NonNegative(k, b, kb);
    Scaled(p, ka, kb);
    Scaled(kb, p, q);
  }
}
