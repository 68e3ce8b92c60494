/** What the estimators of `Decoy` and `Channel` compute exactly: the equations their results satisfy, and
    the photon statistics on which nothing is lost. */
module DecoyExact {
  import opened Series
  import opened Decoy
  import opened Channel

  /** No pulse of `k` or more photons. */
  ghost predicate NoneFrom(coeff: nat -> real, k: nat) {
    forall n: nat :: n >= k ==> coeff(n) == 0.0
  }

  lemma {:induction false} PartialEnds(coeff: nat -> real, x: real, k: nat, n: nat)
    requires NoneFrom(coeff, k) && n >= k
    ensures Partial(coeff, x, n) == Partial(coeff, x, k)
    decreases n
  {
    if n > k {
      PartialEnds(coeff, x, k, n - 1);
      assert Term(coeff, x, n - 1) == 0.0 by { TermAsRatio(coeff, x, n - 1); }
    }
  }

  lemma SumEnds(coeff: nat -> real, x: real, k: nat, s: real)
    requires NoneFrom(coeff, k) && SumsTo(coeff, x, s)
    ensures s == Partial(coeff, x, k)
  {
    var d := if s < Partial(coeff, x, k) then Partial(coeff, x, k) - s else s - Partial(coeff, x, k);
    if d > 0.0 {
      assert Settles(coeff, x, s, d);
      var from: nat :| Settled(coeff, x, s, d, from);
      assert Within(coeff, x, from + k, s, d);
      PartialEnds(coeff, x, k, from + k);
    }
  }

  function Quadratic(y0: real, y1: real, y2: real, x: real): real { y0 + y1 * x + y2 * (x * x) }

  lemma ThreeTerms(y: nat -> real, x: real)
    ensures Partial(y, x, 3) == Quadratic(y(0), y(1), y(2) / 2.0, x)
  {
    FirstTerms(y, x);
    Square(x);
    TermAsRatio(y, x, 2);
    assert Fact(2) == 2.0;
    assert Partial(y, x, 3) == Partial(y, x, 2) + Term(y, x, 2);
  }

  // ------------------------------------------------------------ Eq. (18)

  /** Eq. (18) cleared of its denominators. */
  predicate YieldEquation(s: Setting, a1: real, a2: real, aMu: real, y0: real, y: real) {
    s.mu * (s.mu * s.nu1 - s.mu * s.nu2 - s.nu1 * s.nu1 + s.nu2 * s.nu2) * y
    == s.mu * s.mu * (a1 - a2) - (s.nu1 * s.nu1 - s.nu2 * s.nu2) * (aMu - y0)
  }

  lemma YieldSolves(s: Setting, a1: real, a2: real, aMu: real, y0: real, y: real)
    requires s.mu > 0.0 && Denominator(s) > 0.0
    ensures YieldEquation(s, a1, a2, aMu, y0, y) <==> y == YieldFormula(s, a1, a2, aMu, y0)
  {
    SumCleared(s, a1, a2, aMu, y0);
    Solves(s.mu, Denominator(s), YieldSum(Weight(s), a1, a2, aMu, y0), y);
  }

  lemma SumCleared(s: Setting, a1: real, a2: real, aMu: real, y0: real)
    requires s.mu > 0.0
    ensures s.mu * s.mu * YieldSum(Weight(s), a1, a2, aMu, y0)
            == s.mu * s.mu * (a1 - a2) - (s.nu1 * s.nu1 - s.nu2 * s.nu2) * (aMu - y0)
  {
    var m, k := s.mu * s.mu, s.nu1 * s.nu1 - s.nu2 * s.nu2;
    Positive(s.mu, s.mu, m);
    DivMul(k, m);
    CrossMultiplied(m, Weight(s), k, a1 - a2, aMu - y0);
  }

  lemma CrossMultiplied(m: real, w: real, k: real, x: real, z: real)
    requires w * m == k
    ensures m * (x - w * z) == m * x - k * z
  {
    assert m * (w * z) == w * m * z;
    Distribute(m, x, -(w * z));
  }

  lemma Solves(mu: real, d: real, sum: real, y: real)
    requires mu > 0.0 && d > 0.0
    ensures mu * d * y == mu * mu * sum <==> y == mu / d * sum
  {
    var q := mu / d * sum;
    DivMul(mu, d);
    assert q * d == mu / d * d * sum;
    var gap := y - q;
    var total := mu * d * gap;
    assert mu * d * y - mu * mu * sum == total;
    Positive(mu, d, mu * d);
    if gap > 0.0 { Positive(mu * d, gap, total); }
    if gap < 0.0 { Positive(mu * d, -gap, -total); }
  }

  /** Without pulses of three or more photons Eq. (18) is the single-photon yield itself. */
  lemma YieldIsExact(s: Setting, g: Gains, exp: real -> real, y: nat -> real, w: nat -> real)
    requires Ordered(s) && Explained(s, g, exp, y, w) && NoneFrom(y, 3)
    ensures Denominator(s) > 0.0 && YieldLower(s, g, exp) == y(1)
  {
    PositiveDenominator(s);
    var a1, a2, aMu := Clicks(g.q1, exp, s.nu1), Clicks(g.q2, exp, s.nu2), Clicks(g.qMu, exp, s.mu);
    SumEnds(y, s.nu1, 3, a1);
    SumEnds(y, s.nu2, 3, a2);
    SumEnds(y, s.mu, 3, aMu);
    ThreeTerms(y, s.nu1);
    ThreeTerms(y, s.nu2);
    ThreeTerms(y, s.mu);
    CancelsIn(s, a1, a2, aMu, y(0), y(1), y(2) / 2.0);
    YieldSolves(s, a1, a2, aMu, y(0), y(1));
  }

  lemma CancelsIn(s: Setting, a1: real, a2: real, aMu: real, y0: real, y1: real, y2: real)
    requires a1 == Quadratic(y0, y1, y2, s.nu1) && a2 == Quadratic(y0, y1, y2, s.nu2)
    requires aMu == Quadratic(y0, y1, y2, s.mu)
    ensures YieldEquation(s, a1, a2, aMu, y0, y1)
  {
    Cancels(s.mu, s.nu1, s.nu2, y0, y1, y2);
  }

  /** Two-photon pulses cancel. */
  lemma Cancels(m: real, a: real, b: real, y0: real, y1: real, y2: real)
    ensures m * (m * a - m * b - a * a + b * b) * y1
            == m * m * (y0 + y1 * a + y2 * (a * a) - (y0 + y1 * b + y2 * (b * b)))
               - (a * a - b * b) * (y0 + y1 * m + y2 * (m * m) - y0)
  {
    var k, mm := a * a - b * b, m * m;
    assert mm * (y1 * a - y1 * b + y2 * k) == mm * (y1 * (a - b)) + mm * (y2 * k);
    assert k * (y1 * m + y2 * mm) == k * (y1 * m) + k * (y2 * mm);
    assert mm * (y2 * k) == k * (y2 * mm);
    assert mm * (y1 * (a - b)) - k * (y1 * m) == m * (m * (a - b) - k) * y1;
  }

  // ------------------------------------------------------------ Eq. (22)

  /** Eq. (22) cleared of its denominator. */
  predicate ErrorEquation(s: Setting, b1: real, b2: real, y1: real, e: real) {
    e * ((s.nu1 - s.nu2) * y1) == b1 - b2
  }

  lemma RatioSolves(num: real, gap: real, y: real, e: real)
    requires gap > 0.0 && y > 0.0
    ensures e * (gap * y) == num <==> e == Ratio(num, gap, y)
  {
    var den := gap * y;
    Positive(gap, y, den);
    DivMul(num, den);
    var d := e - num / den;
    assert d * den == e * den - num;
    if d > 0.0 { Positive(d, den, d * den); }
    if d < 0.0 { Positive(-d, den, -d * den); }
  }

  /** Without wrong clicks from two or more photons Eq. (22) is the wrong share of the single-photon
      clicks, with or without a second decoy. */
  lemma ErrorIsExact(s: Setting, g: Gains, exp: real -> real, y: nat -> real, w: nat -> real, y1: real)
    requires Ordered(s) && Explained(s, g, exp, y, w) && NoneFrom(w, 2) && y1 > 0.0
    ensures ErrorUpper(s, g, exp, y1) == NoMore(w(1) / y1, 0.5)
  {
    WrongClicks(s, g, exp, y, w);
    Share(ErrorNumerator(s, g, exp), s.nu1 - s.nu2, y1, w(1));
    AtLeastQuotient(w(1), y1, 0.0);
  }

  lemma WrongClicks(s: Setting, g: Gains, exp: real -> real, y: nat -> real, w: nat -> real)
    requires Ordered(s) && Explained(s, g, exp, y, w) && NoneFrom(w, 2)
    ensures ErrorNumerator(s, g, exp) == w(1) * (s.nu1 - s.nu2)
  {
    SumEnds(w, s.nu1, 2, Errors(g.e1, g.q1, exp, s.nu1));
    SumEnds(w, s.nu2, 2, WeakErrors(s, g, exp));
    FirstTerms(w, s.nu1);
    FirstTerms(w, s.nu2);
    Distribute(w(1), s.nu1, -s.nu2);
  }

  lemma Share(num: real, gap: real, y1: real, w1: real)
    requires gap > 0.0 && y1 > 0.0 && num == w1 * gap
    ensures Ratio(num, gap, y1) == w1 / y1
  {
    var e := w1 / y1;
    DivMul(w1, y1);
    assert e * (gap * y1) == e * y1 * gap;
    RatioSolves(num, gap, y1, e);
  }

  // ------------------------------------------------------------ the rate

  /** The rate that a yield and an error rate of the single photons stand for. */
  predicate IsRate(s: Setting, g: Gains, fEC: real, exp: real -> real, h: real -> real, y1: real, e1: real, r: real) {
    var key := s.mu * exp(-s.mu) * y1 * (1.0 - h(e1)) - g.qMu * fEC * h(g.eMu);
    2.0 * r == if key < 0.0 then 0.0 else key
  }

  lemma GllpIsRate(s: Setting, g: Gains, fEC: real, exp: real -> real, h: real -> real, y1: real, e1: real)
    ensures IsRate(s, g, fEC, exp, h, y1, e1, GllpRate(s, g, fEC, exp, h, y1, e1))
  {
    assert -g.qMu * fEC * h(g.eMu) == -(g.qMu * fEC * h(g.eMu));
  }

  function Cut(e: real): real { if e < 0.0 then 0.0 else if e > 0.5 then 0.5 else e }

  /** `y` solves Eq. (18) on the measured gains. */
  predicate IsYield(s: Setting, g: Gains, exp: real -> real, y: real) {
    YieldEquation(s, g.q1 * exp(s.nu1), g.q2 * exp(s.nu2), g.qMu * exp(s.mu), g.y0, y)
  }

  /** `e` solves Eq. (22); without a second decoy half of the vacuum clicks are wrong. */
  predicate IsError(s: Setting, g: Gains, exp: real -> real, y: real, e: real) {
    ErrorEquation(s, g.e1 * g.q1 * exp(s.nu1), if s.nu2 > 0.0 then g.e2 * g.q2 * exp(s.nu2) else 0.5 * g.y0, y, e)
  }

  lemma YieldFound(s: Setting, g: Gains, exp: real -> real) returns (y: real)
    requires Ordered(s)
    ensures IsYield(s, g, exp, y) && Denominator(s) > 0.0 && YieldLower(s, g, exp) == if y < 0.0 then 0.0 else y
  {
    PositiveDenominator(s);
    y := YieldFormula(s, Clicks(g.q1, exp, s.nu1), Clicks(g.q2, exp, s.nu2), Clicks(g.qMu, exp, s.mu), g.y0);
    YieldSolves(s, Clicks(g.q1, exp, s.nu1), Clicks(g.q2, exp, s.nu2), Clicks(g.qMu, exp, s.mu), g.y0, y);
  }

  lemma ErrorFound(s: Setting, g: Gains, exp: real -> real, y: real) returns (e: real)
    requires 0.0 <= s.nu2 < s.nu1 && y > 0.0
    ensures IsError(s, g, exp, y, e) && ErrorUpper(s, g, exp, y) == Cut(e)
  {
    e := Ratio(ErrorNumerator(s, g, exp), s.nu1 - s.nu2, y);
    RatioSolves(ErrorNumerator(s, g, exp), s.nu1 - s.nu2, y, e);
  }

  /** On any gains the rate comes from the solutions of Eqs. (18) and (22): nothing without a positive
      yield, and an error rate cut to [0, 1/2]. */
  lemma RateEquations(s: Setting, g: Gains, fEC: real, exp: real -> real, h: real -> real) returns (y: real, e: real)
    requires Ordered(s)
    ensures IsYield(s, g, exp, y)
    ensures y <= 0.0 ==> Rate(s, g, fEC, exp, h) == 0.0
    ensures y > 0.0 ==> IsError(s, g, exp, y, e) && IsRate(s, g, fEC, exp, h, y, Cut(e), Rate(s, g, fEC, exp, h))
  {
    y := YieldFound(s, g, exp);
    e := 0.0;
    if y > 0.0 {
      e := ErrorFound(s, g, exp, y);
      GllpIsRate(s, g, fEC, exp, h, y, Cut(e));
    }
  }

  /** Settings outside Eq. (13) give no key. */
  lemma UnorderedGivesNothing(s: Setting, g: Gains, fEC: real, exp: real -> real, h: real -> real)
    requires !Ordered(s)
    ensures Rate(s, g, fEC, exp, h) == 0.0
  {
  }

  /** Nothing is lost on such statistics: the rate is that of the true yield and error rate. */
  lemma RateIsExact(s: Setting, g: Gains, fEC: real, exp: real -> real, h: real -> real, y: nat -> real, w: nat -> real)
    requires Ordered(s) && Explained(s, g, exp, y, w) && NoneFrom(y, 3) && NoneFrom(w, 2) && y(1) > 0.0
    ensures IsRate(s, g, fEC, exp, h, y(1), NoMore(w(1) / y(1), 0.5), Rate(s, g, fEC, exp, h))
  {
    YieldIsExact(s, g, exp, y, w);
    ErrorIsExact(s, g, exp, y, w, y(1));
    GllpIsRate(s, g, fEC, exp, h, y(1), NoMore(w(1) / y(1), 0.5));
  }

  // ------------------------------------------------------------ on the channel

  /** Clicks per pulse of intensity `x`: dark counts, and pulses that do not lose every photon. */
  function Clicked(ch: Channel, exp: real -> real, x: real): real { ch.y0 + (1.0 - Lost(exp, ch.eta, x)) }

  /** Wrong clicks: half of the dark counts, and `eD` of the photons that arrive. */
  function Wrong(ch: Channel, exp: real -> real, x: real): real { ch.y0 / 2.0 + ch.eD * (1.0 - Lost(exp, ch.eta, x)) }

  lemma WrongShare(ch: Channel, exp: real -> real, x: real)
    requires IsExp(exp) && Physical(ch) && x >= 0.0
    ensures Qber(ch, exp, x) * Clicked(ch, exp, x) == Wrong(ch, exp, x)
  {
    ErrorGain(ch, exp, x);
    assert Gain(ch, exp, x) == Clicked(ch, exp, x);
    Distribute(ch.eD, 1.0, -Lost(exp, ch.eta, x));
  }

  /** What the channel shows at the three intensities; without a second decoy, only the dark counts. */
  ghost predicate Measured(ch: Channel, exp: real -> real, s: Setting, g: Gains) {
    && g.y0 == ch.y0 && g.qMu == Clicked(ch, exp, s.mu) && g.q1 == Clicked(ch, exp, s.nu1)
    && g.q2 == (if s.nu2 > 0.0 then Clicked(ch, exp, s.nu2) else ch.y0)
    && g.eMu * g.qMu == Wrong(ch, exp, s.mu) && g.e1 * g.q1 == Wrong(ch, exp, s.nu1)
    && (s.nu2 > 0.0 ==> g.e2 * g.q2 == Wrong(ch, exp, s.nu2))
  }

  lemma GainsAreMeasured(ch: Channel, exp: real -> real, s: Setting)
    requires Ordered(s) && IsExp(exp) && Physical(ch)
    ensures Measured(ch, exp, s, GainsOf(ch, exp, s))
  {
    WrongShare(ch, exp, s.mu);
    WrongShare(ch, exp, s.nu1);
    WrongShare(ch, exp, s.nu2);
  }

  /** `asymptotic_skr_per_pulse`: the rate is that of what the channel shows. */
  lemma SkrEquations(ch: Channel, s: Setting, fEC: real, exp: real -> real, h: real -> real)
    returns (y: real, e: real, g: Gains)
    requires Ordered(s) && IsExp(exp) && Physical(ch)
    ensures Measured(ch, exp, s, g) && IsYield(s, g, exp, y)
    ensures y <= 0.0 ==> SkrPerPulse(ch, s, fEC, exp, h) == 0.0
    ensures y > 0.0 ==>
              IsError(s, g, exp, y, e) && IsRate(s, g, fEC, exp, h, y, Cut(e), SkrPerPulse(ch, s, fEC, exp, h))
  {
    g := GainsOf(ch, exp, s);
    GainsAreMeasured(ch, exp, s);
    y, e := RateEquations(s, g, fEC, exp, h);
  }
}
