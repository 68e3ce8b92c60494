/** The channel model of services/bb84-kme/app/backends/_skr.py (Ma et al., Eqs. (10) and (11)) feeds
    the estimator of `Decoy`; here are the photon-number yields behind it. */
module Channel {
  import opened Series
  import opened Decoy

  datatype Channel = Channel(y0: real, eta: real, eD: real)

  /** What is used of the exponential: its power series and the law of exponents. */
  ghost predicate IsExp(exp: real -> real) {
    (forall x :: SeriesAt(exp, x)) && (forall a, b :: Multiplies(exp, a, b))
  }

  ghost predicate SeriesAt(exp: real -> real, x: real) { exp(x) > 0.0 && SumsTo(Ones(), x, exp(x)) }

  ghost predicate Multiplies(exp: real -> real, a: real, b: real) { exp(a) * exp(b) == exp(a + b) }

  function Ones(): nat -> real { (n: nat) => 1.0 }

  /** The chance that all photons of a pulse of intensity `x` are lost. */
  function Lost(exp: real -> real, eta: real, x: real): real { exp(-(eta * x)) }

  function Gain(ch: Channel, exp: real -> real, x: real): real { ch.y0 + 1.0 - Lost(exp, ch.eta, x) }

  function Qber(ch: Channel, exp: real -> real, x: real): real {
    if Gain(ch, exp, x) <= 0.0 then 0.5
    else (ch.y0 / 2.0 + ch.eD * (1.0 - Lost(exp, ch.eta, x))) / Gain(ch, exp, x)
  }

  function GainsOf(ch: Channel, exp: real -> real, s: Setting): Gains {
    Gains(ch.y0, Gain(ch, exp, s.mu), Qber(ch, exp, s.mu), Gain(ch, exp, s.nu1), Qber(ch, exp, s.nu1),
          if s.nu2 > 0.0 then Gain(ch, exp, s.nu2) else ch.y0, Qber(ch, exp, s.nu2))
  }

  /** `asymptotic_skr_per_pulse` */
  function SkrPerPulse(ch: Channel, s: Setting, fEC: real, exp: real -> real, h: real -> real): real {
    Rate(s, GainsOf(ch, exp, s), fEC, exp, h)
  }

  /** An n-photon pulse clicks unless every photon is lost and there is no dark count. */
  function Yields(ch: Channel): nat -> real { Mixed(ch.y0 + 1.0, 1.0, 1.0 - ch.eta) }

  function ErrorYields(ch: Channel): nat -> real { Mixed(ch.y0 / 2.0 + ch.eD, ch.eD, 1.0 - ch.eta) }

  function Mixed(a: real, b: real, q: real): nat -> real { (n: nat) => a - b * Pow(q, n) }

  // ------------------------------------------------------------ the series behind the gains

  /** `m` is `a` times `u` less `b` times `v`. */
  predicate Mixes(a: real, b: real, m: real, u: real, v: real) { m == a * u - b * v }

  lemma MixedTerm(a: real, b: real, q: real, x: real, n: nat)
    ensures Mixes(a, b, Term(Mixed(a, b, q), x, n), Term(Ones(), x, n), Term(Ones(), q * x, n))
  {
    var f, p, r := Fact(n), Pow(x, n), Pow(q, n);
    PowOfProduct(q, x, n);
    TermAsRatio(Mixed(a, b, q), x, n);
    TermAsRatio(Ones(), x, n);
    TermAsRatio(Ones(), q * x, n);
    var u := 1.0 / f;
    DivMul(1.0, f);
    OverAll(a - b * r, f, u);
    Spread(a, b, r, u, p);
  }

  lemma OverAll(x: real, f: real, u: real)
    requires f != 0.0 && u * f == 1.0
    ensures x / f == x * u
  {
    DivMul(x, f);
    SameTimes(u * f, 1.0, x / f);
    assert x / f * (u * f) == x / f * f * u;
  }

  lemma Spread(a: real, b: real, r: real, u: real, p: real)
    ensures (a - b * r) * u * p == a * (u * p) - b * (u * (r * p))
  {
  }

  lemma {:induction false} MixedPartial(a: real, b: real, q: real, x: real, n: nat)
    ensures Mixes(a, b, Partial(Mixed(a, b, q), x, n), Partial(Ones(), x, n), Partial(Ones(), q * x, n))
  {
    if n > 0 {
      MixedPartial(a, b, q, x, n - 1);
      MixedTerm(a, b, q, x, n - 1);
      AddMixed(a, b, Partial(Mixed(a, b, q), x, n - 1), Term(Mixed(a, b, q), x, n - 1),
               Partial(Ones(), x, n - 1), Term(Ones(), x, n - 1),
               Partial(Ones(), q * x, n - 1), Term(Ones(), q * x, n - 1));
    }
  }

  lemma AddMixed(a: real, b: real, m: real, dm: real, u: real, du: real, v: real, dv: real)
    requires Mixes(a, b, m, u, v) && Mixes(a, b, dm, du, dv)
    ensures Mixes(a, b, m + dm, u + du, v + dv)
  {
    Distribute(a, u, du);
    Distribute(b, v, dv);
  }

  lemma MixedSum(a: real, b: real, q: real, x: real, s: real, t: real, total: real)
    requires a >= 0.0 && b >= 0.0 && SumsTo(Ones(), x, s) && SumsTo(Ones(), q * x, t)
    requires total == a * s - b * t
    ensures SumsTo(Mixed(a, b, q), x, total)
  {
    forall eps: real | eps > 0.0 ensures Settles(Mixed(a, b, q), x, total, eps) {
      var e := eps / (1.0 + a + b);
      DivMul(eps, 1.0 + a + b);
      assert Settles(Ones(), x, s, e) && Settles(Ones(), q * x, t, e);
      var i: nat :| Settled(Ones(), x, s, e, i);
      var j: nat :| Settled(Ones(), q * x, t, e, j);
      forall n: nat | n >= i + j ensures Within(Mixed(a, b, q), x, n, total, eps) {
        assert Within(Ones(), x, n, s, e) && Within(Ones(), q * x, n, t, e);
        MixedWithin(a, b, q, x, s, t, e, eps, n, total);
      }
      assert Settled(Mixed(a, b, q), x, total, eps, i + j);
    }
  }

  lemma MixedWithin(a: real, b: real, q: real, x: real, s: real, t: real, e: real, eps: real, n: nat, total: real)
    requires a >= 0.0 && b >= 0.0 && Within(Ones(), x, n, s, e) && Within(Ones(), q * x, n, t, e)
    requires eps == e * (1.0 + a + b) && total == a * s - b * t
    ensures Within(Mixed(a, b, q), x, n, total, eps)
  {
    MixedPartial(a, b, q, x, n);
    Spreads(a, b, Partial(Ones(), x, n), s, Partial(Ones(), q * x, n), t, e, eps);
  }

  lemma Spreads(a: real, b: real, p: real, s: real, r: real, t: real, e: real, eps: real)
    requires a >= 0.0 && b >= 0.0 && -e < p - s < e && -e < r - t < e && eps == e * (1.0 + a + b)
    ensures -eps < a * p - b * r - (a * s - b * t) < eps
  {
    var d, g := p - s, r - t;
    Scaled(a, -e, d);
    Scaled(a, d, e);
    Scaled(b, -e, g);
    Scaled(b, g, e);
    assert a * d == a * p - a * s && b * g == b * r - b * t;
  }

  // ------------------------------------------------------------ the estimator on this channel

  ghost predicate Physical(ch: Channel) {
    0.0 <= ch.y0 && 0.0 <= ch.eta <= 1.0 && 0.0 <= ch.eD
  }

  lemma ExpAtZero(exp: real -> real)
    requires IsExp(exp)
    ensures exp(0.0) == 1.0
  {
    var u := exp(0.0);
    assert SeriesAt(exp, 0.0) && Multiplies(exp, 0.0, 0.0);
    var v := u - 1.0;
    assert u * v == 0.0;
    SignOfProduct(u, v, 0.0);
    SignOfProduct(u, -v, 0.0);
  }

  lemma ExpSum(exp: real -> real, a: real, b: real, c: real)
    requires IsExp(exp) && c == a + b
    ensures exp(a) * exp(b) == exp(c)
  {
    assert Multiplies(exp, a, b);
  }

  lemma MixedAt(exp: real -> real, a: real, b: real, eta: real, x: real, total: real)
    requires IsExp(exp) && a >= 0.0 && b >= 0.0 && total == (a - b * Lost(exp, eta, x)) * exp(x)
    ensures SumsTo(Mixed(a, b, 1.0 - eta), x, total)
  {
    var q := 1.0 - eta;
    assert SeriesAt(exp, x) && SeriesAt(exp, q * x);
    ExpSum(exp, -(eta * x), x, q * x);
    Apart(a, b, Lost(exp, eta, x), exp(x));
    SameTimes(Lost(exp, eta, x) * exp(x), exp(q * x), b);
    MixedSum(a, b, q, x, exp(x), exp(q * x), total);
  }

  lemma Apart(a: real, b: real, p: real, e: real)
    ensures (a - b * p) * e == a * e - b * (p * e)
  {
  }

  lemma GainsSum(ch: Channel, exp: real -> real, x: real)
    requires IsExp(exp) && Physical(ch) && x >= 0.0
    ensures SumsTo(Yields(ch), x, Clicks(Gain(ch, exp, x), exp, x))
    ensures SumsTo(ErrorYields(ch), x, Errors(Qber(ch, exp, x), Gain(ch, exp, x), exp, x))
  {
    MixedAt(exp, ch.y0 + 1.0, 1.0, ch.eta, x, Clicks(Gain(ch, exp, x), exp, x));
    ErrorGain(ch, exp, x);
    var rate := Qber(ch, exp, x) * Gain(ch, exp, x);
    assert rate * exp(x) == (ch.y0 / 2.0 + ch.eD - ch.eD * Lost(exp, ch.eta, x)) * exp(x);
    MixedAt(exp, ch.y0 / 2.0 + ch.eD, ch.eD, ch.eta, x, Errors(Qber(ch, exp, x), Gain(ch, exp, x), exp, x));
  }

  /** Without a second decoy only the vacuum is left. */
  lemma VacuumSum(ch: Channel, exp: real -> real)
    requires IsExp(exp) && Physical(ch)
    ensures SumsTo(Yields(ch), 0.0, Clicks(ch.y0, exp, 0.0)) && SumsTo(ErrorYields(ch), 0.0, 0.5 * ch.y0)
  {
    ExpAtZero(exp);
    ErrorGain(ch, exp, 0.0);
    assert ch.eta * 0.0 == 0.0;
    MixedAt(exp, ch.y0 + 1.0, 1.0, ch.eta, 0.0, Clicks(ch.y0, exp, 0.0));
    MixedAt(exp, ch.y0 / 2.0 + ch.eD, ch.eD, ch.eta, 0.0, 0.5 * ch.y0);
  }

  lemma ExpBelowOne(exp: real -> real, x: real)
    requires IsExp(exp) && x >= 0.0
    ensures exp(-x) <= 1.0
  {
    ExpAtZero(exp);
    assert SeriesAt(exp, x) && SeriesAt(exp, -x) && SeriesAt(exp, 0.0) && Multiplies(exp, -x, x);
    assert -x + x == 0.0;
    forall n: nat | n >= 1
      ensures Partial(Ones(), 0.0, n) - Partial(Ones(), x, n) - 0.0 * Partial(Ones(), 0.0, n) <= 0.0
    {
      AboveOne(x, n);
      AtZero(n);
    }
    LimitAtMost(Ones(), Ones(), Ones(), 0.0, x, 0.0, exp(0.0), exp(x), exp(0.0), 0.0, 0.0, 1);
    Scaled(exp(-x), 1.0, exp(x));
  }

  lemma {:induction false} AboveOne(x: real, n: nat)
    requires x >= 0.0 && n >= 1
    ensures Partial(Ones(), x, n) >= 1.0
  {
    if n == 1 {
      FirstTerms(Ones(), x);
      assert Partial(Ones(), x, 1) == Partial(Ones(), x, 0) + Term(Ones(), x, 0);
    } else {
      AboveOne(x, n - 1);
      TermAsRatio(Ones(), x, n - 1);
      PowNonNegative(x, n - 1);
      var r := 1.0 / Fact(n - 1);
      NonNegative(r, Pow(x, n - 1), r * Pow(x, n - 1));
    }
  }

  lemma {:induction false} AtZero(n: nat)
    requires n >= 1
    ensures Partial(Ones(), 0.0, n) == 1.0
  {
    if n == 1 {
      FirstTerms(Ones(), 0.0);
      assert Partial(Ones(), 0.0, 1) == Partial(Ones(), 0.0, 0) + Term(Ones(), 0.0, 0);
    } else {
      AtZero(n - 1);
      TermAsRatio(Ones(), 0.0, n - 1);
      assert Pow(0.0, n - 1) == 0.0;
    }
  }

  /** The error rate times the gain is the error gain, also when nothing is ever detected. */
  lemma ErrorGain(ch: Channel, exp: real -> real, x: real)
    requires IsExp(exp) && Physical(ch) && x >= 0.0
    ensures Qber(ch, exp, x) * Gain(ch, exp, x) == ch.y0 / 2.0 + ch.eD - ch.eD * Lost(exp, ch.eta, x)
  {
    NonNegative(ch.eta, x, ch.eta * x);
    ExpBelowOne(exp, ch.eta * x);
    var d := 1.0 - Lost(exp, ch.eta, x);
    var num := ch.y0 / 2.0 + ch.eD * d;
    assert ch.eD * d == ch.eD - ch.eD * Lost(exp, ch.eta, x);
    if Gain(ch, exp, x) <= 0.0 {
      assert d == 0.0 && ch.y0 == 0.0;
      assert ch.eD * d == 0.0;
    } else {
      DivMul(num, Gain(ch, exp, x));
    }
  }

  lemma YieldsAreNonNegative(ch: Channel)
    requires Physical(ch)
    ensures NonNegativeTerms(Yields(ch)) && NonNegativeTerms(ErrorYields(ch))
  {
    forall n: nat ensures Yields(ch)(n) >= 0.0 && ErrorYields(ch)(n) >= 0.0 {
      PowBelowOne(1.0 - ch.eta, n);
      YieldSigns(ch.y0, ch.eD, Pow(1.0 - ch.eta, n));
    }
  }

  lemma YieldSigns(y0: real, eD: real, p: real)
    requires 0.0 <= y0 && 0.0 <= eD && p <= 1.0
    ensures y0 + 1.0 - p >= 0.0 && y0 / 2.0 + eD - eD * p >= 0.0
  {
    Scaled(eD, p, 1.0);
  }

  lemma ChannelExplains(ch: Channel, s: Setting, exp: real -> real)
    requires IsExp(exp) && Physical(ch) && Ordered(s)
    ensures Explained(s, GainsOf(ch, exp, s), exp, Yields(ch), ErrorYields(ch))
  {
    YieldsAreNonNegative(ch);
    GainsSum(ch, exp, s.nu1);
    GainsSum(ch, exp, s.mu);
    if s.nu2 > 0.0 {
      GainsSum(ch, exp, s.nu2);
    } else {
      VacuumSum(ch, exp);
    }
    assert Pow(1.0 - ch.eta, 0) == 1.0;
  }

  lemma SinglePhotons(ch: Channel)
    ensures Yields(ch)(1) == ch.y0 + ch.eta && ErrorYields(ch)(1) == ch.y0 / 2.0 + ch.eD * ch.eta
  {
    var q := 1.0 - ch.eta;
    assert Pow(q, 1) == q * Pow(q, 0) == q;
    assert ch.eD - ch.eD * q == ch.eD * ch.eta;
  }

  /** On the channel the code computes with, its rate is at most the rate of the channel's true
      single-photon yield `y0 + eta` and error rate `e1`. */
  lemma SkrIsSound(ch: Channel, s: Setting, fEC: real, exp: real -> real, h: real -> real, e1: real)
    requires IsExp(exp) && EntropyLike(h) && Physical(ch)
    requires 0.0 <= e1 && ch.y0 / 2.0 + ch.eD * ch.eta == e1 * (ch.y0 + ch.eta)
    ensures 0.0 <= SkrPerPulse(ch, s, fEC, exp, h)
    ensures RateWithin(s, GainsOf(ch, exp, s), fEC, exp, h, ch.y0 + ch.eta, e1, SkrPerPulse(ch, s, fEC, exp, h))
  {
    if Ordered(s) {
      ChannelExplains(ch, s, exp);
      SinglePhotons(ch);
      assert SeriesAt(exp, -s.mu);
      RateIsSound(s, GainsOf(ch, exp, s), fEC, exp, h, Yields(ch), ErrorYields(ch), e1);
    }
  }

  // ------------------------------------------------------------ without the ordering

  function ThreePhotons(): nat -> real { (n: nat) => if n == 3 then 1.0 else 0.0 }

  lemma {:induction false} ThreePhotonPartial(x: real, n: nat)
    requires n >= 4
    ensures Partial(ThreePhotons(), x, n) == x * x * x / 6.0
  {
    if n == 4 {
      Pows(x);
      FirstTerms(ThreePhotons(), x);
      assert Term(ThreePhotons(), x, 2) == 0.0;
      assert Fact(3) == 3.0 * Fact(2) == 6.0;
      assert Partial(ThreePhotons(), x, 3) == Partial(ThreePhotons(), x, 2) + Term(ThreePhotons(), x, 2);
      assert Partial(ThreePhotons(), x, 4) == Partial(ThreePhotons(), x, 3) + Term(ThreePhotons(), x, 3);
    } else {
      ThreePhotonPartial(x, n - 1);
    }
  }

  lemma Pows(x: real)
    ensures Pow(x, 3) == x * x * x
  {
    Square(x);
    assert Pow(x, 3) == x * Pow(x, 2);
  }

  lemma ThreePhotonSum(x: real)
    ensures SumsTo(ThreePhotons(), x, x * x * x / 6.0)
  {
    var total := x * x * x / 6.0;
    forall eps: real | eps > 0.0 ensures Settles(ThreePhotons(), x, total, eps) {
      forall n: nat | n >= 4 ensures Within(ThreePhotons(), x, n, total, eps) {
        ThreePhotonPartial(x, n);
      }
      assert Settled(ThreePhotons(), x, total, eps, 4);
    }
  }

  /** A positive denominator alone is not enough: at mu = 0.5, nu1 = 0.1, nu2 = 0.45, pulses of three
      photons pass for single photons. */
  lemma DenominatorIsNotEnough()
    ensures exists s: Setting, y: nat -> real, a1: real, a2: real, aMu: real ::
              && s.mu > 0.0 && Denominator(s) > 0.0 && NonNegativeTerms(y)
              && SumsTo(y, s.nu1, a1) && SumsTo(y, s.nu2, a2) && SumsTo(y, s.mu, aMu)
              && YieldFormula(s, a1, a2, aMu, y(0)) > y(1)
  {
    var s, y := Setting(0.5, 0.1, 0.45), ThreePhotons();
    var a1, a2, aMu := 0.1 * 0.1 * 0.1 / 6.0, 0.45 * 0.45 * 0.45 / 6.0, 0.5 * 0.5 * 0.5 / 6.0;
    ThreePhotonSum(0.1);
    ThreePhotonSum(0.45);
    ThreePhotonSum(0.5);
    assert SumsTo(y, s.nu1, a1) && SumsTo(y, s.nu2, a2) && SumsTo(y, s.mu, aMu);
    assert YieldFormula(s, a1, a2, aMu, y(0)) > y(1);
  }
}
