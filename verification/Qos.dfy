/** QoS negotiation of OPEN_CONNECT (services/bb84-kme/app/etsi004_engine.py, `_negotiate`) and the
    capacity check of `limits()` (services/bb84-kme/app/etsi004.py). */
module Qos {
  import opened KeyPools
  import opened SharedPool

  /** The numbers a negotiation depends on. `measured` is the production rate, if any round was
      accepted; `reserved` is what open streams were promised. */
  datatype Env = Env(
    keyBytes: nat, capKeys: nat,
    defaultTimeout: nat, maxTimeout: nat, defaultTtl: nat, maxTtl: nat, mimetype: string,
    measured: Option<real>, reserved: real)

  /** A request or an answer; absent fields are None. */
  datatype Request = Request(
    size: Option<nat>, maxBps: Option<nat>, minBps: Option<nat>, jitter: Option<nat>, priority: Option<nat>,
    timeout: Option<nat>, ttl: Option<nat>, mimetype: Option<string>)

  datatype Reason = WholeKeys | TooLarge | TooFast | NoRate | Mimetype

  datatype Answer = Answer(qos: Request, why: Option<Reason>)

  predicate EnvOk(e: Env) {
    0 < e.keyBytes && (e.measured.Some? ==> e.measured.value > 0.0) && e.reserved >= 0.0
  }

  function Or(x: Option<nat>, d: nat): nat {
    if x.None? || x.value == 0 then d else x.value
  }

  function Min(a: nat, b: nat): nat { if b < a then b else a }

  function Capped(x: Option<nat>, d: nat, max: nat): nat {
    if x.None? || x.value == 0 then d else Min(x.value, max)
  }

  function First(a: Option<Reason>, b: Option<Reason>): Option<Reason> {
    if a.Some? then a else b
  }

  function CapBytes(e: Env): nat { e.capKeys * e.keyBytes }

  /** The multiple of `k` nearest to `size`, halves up, at least one key. */
  function Rounded(size: nat, k: nat): nat
    requires 0 < k
  {
    var r := (2 * size + k) / (2 * k) * k;
    if r < k then k else r
  }

  function Size(e: Env, q: Request): (nat, Option<Reason>)
    requires EnvOk(e)
  {
    var size := Or(q.size, e.keyBytes);
    if size % e.keyBytes != 0 then (Rounded(size, e.keyBytes), Some(WholeKeys))
    else if size > CapBytes(e) then (CapBytes(e), Some(TooLarge))
    else (size, None)
  }

  function Available(e: Env): (a: real)
    ensures a >= 0.0
  {
    if e.measured.None? || e.measured.value < e.reserved then 0.0 else e.measured.value - e.reserved
  }

  function Rate(e: Env, minBps: Option<nat>): (Option<nat>, Option<Reason>) {
    if minBps.Some? && minBps.value as real > Available(e) then
      (Some(Available(e).Floor), Some(if e.measured.Some? then TooFast else NoRate))
    else (minBps, None)
  }

  function Peak(e: Env, maxBps: Option<nat>): Option<nat>
    requires EnvOk(e)
  {
    if maxBps.Some? && e.measured.Some? then Some(Min(maxBps.value, e.measured.value.Floor)) else maxBps
  }

  function Type(e: Env, mimetype: Option<string>): (Option<string>, Option<Reason>) {
    if mimetype.None? || mimetype.value == "" then (None, None)
    else if mimetype.value != e.mimetype then (Some(e.mimetype), Some(Mimetype))
    else (mimetype, None)
  }

  function Negotiate(e: Env, q: Request): Answer
    requires EnvOk(e)
  {
    var (size, why1) := Size(e, q);
    var (minBps, why2) := Rate(e, q.minBps);
    var (mimetype, why3) := Type(e, q.mimetype);
    Answer(
      Request(Some(size), Peak(e, q.maxBps), minBps, q.jitter, q.priority,
              Some(Capped(q.timeout, e.defaultTimeout, e.maxTimeout)), Some(Capped(q.ttl, e.defaultTtl, e.maxTtl)),
              mimetype),
      First(why1, First(why2, why3)))
  }

  predicate Accepted(e: Env, q: Request)
    requires EnvOk(e)
  {
    Negotiate(e, q).why.None?
  }

  // ------------------------------------------------------------ what acceptance means

  /** An accepted stream gets whole keys within its share, and rates the production can carry. */
  lemma AcceptedPromises(e: Env, q: Request)
    requires EnvOk(e) && Accepted(e, q)
    ensures var r := Negotiate(e, q).qos;
            && 0 < r.size.value && r.size.value % e.keyBytes == 0 && 1 <= r.size.value / e.keyBytes <= e.capKeys
            && (r.minBps.Some? && r.minBps.value > 0 ==>
                  e.measured.Some? && e.reserved + r.minBps.value as real <= e.measured.value)
            && (r.maxBps.Some? && e.measured.Some? ==> r.maxBps.value as real <= e.measured.value)
  {
    var size := Or(q.size, e.keyBytes);
    Quotient(size, e.keyBytes);
    if size / e.keyBytes > e.capKeys {
      MulGrows(e.capKeys + 1, size / e.keyBytes, e.keyBytes);
    }
  }

  lemma Quotient(size: nat, k: nat)
    requires 0 < k && 0 < size && size % k == 0
    ensures size / k * k == size && 1 <= size / k
  {
  }

  lemma MulGrows(a: nat, b: nat, k: nat)
    requires a <= b
    ensures a * k <= b * k
  {
  }

  // ------------------------------------------------------------ what is accepted, and what is offered

  /** `size` is `n` whole keys, of which a stream may hold that many. */
  predicate Holds(e: Env, size: nat, n: nat) { 1 <= n <= e.capKeys && size == n * e.keyBytes }

  lemma WholeWithin(size: nat, k: nat, cap: nat)
    requires 0 < k && 0 < size
    ensures size % k == 0 && size <= cap * k <==> exists n: nat :: 1 <= n <= cap && size == n * k
  {
    if size % k == 0 && size <= cap * k {
      Quotient(size, k);
      if size / k > cap { MulGrows(cap + 1, size / k, k); }
    }
    if n: nat :| 1 <= n <= cap && size == n * k {
      MultipleIsWhole(n, k);
      MulGrows(n, cap, k);
    }
  }

  /** A request is accepted exactly when it asks for whole keys within the share, for no faster a rate than
      is left, and for the one mimetype; an absent or zero size means one key. */
  lemma AcceptedExactly(e: Env, q: Request)
    requires EnvOk(e)
    ensures var size := if q.size.Some? && q.size.value > 0 then q.size.value else e.keyBytes;
            Accepted(e, q) <==>
              && (exists n: nat :: Holds(e, size, n))
              && (q.minBps.Some? && q.minBps.value > 0 ==>
                    e.measured.Some? && e.reserved + q.minBps.value as real <= e.measured.value)
              && (q.mimetype.Some? ==> q.mimetype.value in {"", e.mimetype})
  {
    var size := if q.size.Some? && q.size.value > 0 then q.size.value else e.keyBytes;
    WholeWithin(size, e.keyBytes, e.capKeys);
    if n: nat :| 1 <= n <= e.capKeys && size == n * e.keyBytes {
      assert Holds(e, size, n);
    }
    if n: nat :| Holds(e, size, n) {
    }
  }

  /** An accepted request comes back as it was, with defaults for what is missing or zero and the timeouts
      cut to their maxima; the peak rate is cut to whatever production was measured. */
  lemma AcceptedComesBack(e: Env, q: Request)
    requires EnvOk(e) && Accepted(e, q)
    ensures var r := Negotiate(e, q).qos;
            && r.size == Some(if q.size.Some? && q.size.value > 0 then q.size.value else e.keyBytes)
            && r.minBps == q.minBps && r.jitter == q.jitter && r.priority == q.priority
            && r.mimetype == (if q.mimetype == Some("") then None else q.mimetype)
            && r.timeout == Some(if q.timeout.None? || q.timeout.value == 0 then e.defaultTimeout
                                 else if q.timeout.value <= e.maxTimeout then q.timeout.value else e.maxTimeout)
            && r.ttl == Some(if q.ttl.None? || q.ttl.value == 0 then e.defaultTtl
                             else if q.ttl.value <= e.maxTtl then q.ttl.value else e.maxTtl)
            && (q.maxBps.Some? <==> r.maxBps.Some?)
            && (r.maxBps.Some? ==> r.maxBps.value <= q.maxBps.value)
            && (r.maxBps.Some? && r.maxBps != q.maxBps ==>
                  e.measured.Some? && r.maxBps.value as real <= e.measured.value < r.maxBps.value as real + 1.0)
  {
  }

  /** Of all whole numbers of keys, `r` is one of the nearest to `size`; halves go up. */
  predicate Nearest(size: nat, k: nat, r: nat) { 2 * (r - size) <= k && 2 * (size - r) < k }

  lemma RoundedIsNearest(size: nat, k: nat)
    requires 0 < k
    ensures if 2 * size < k then Rounded(size, k) == k else Nearest(size, k, Rounded(size, k))
  {
    var d := 2 * k;
    var n := (2 * size + k) / d;
    assert 2 * size + k == n * d + (2 * size + k) % d;
    assert n * d == 2 * (n * k);
    if n == 0 { assert n * k == 0; } else { MulGrows(1, n, k); }
  }

  /** What a refused size is answered with: the nearest whole number of keys, or the most that fits; what a
      refused rate is answered with: the largest whole number that is left; and the reasons. */
  lemma CounterOffer(e: Env, q: Request)
    requires EnvOk(e)
    ensures var size := if q.size.Some? && q.size.value > 0 then q.size.value else e.keyBytes;
            var a := Negotiate(e, q);
            && (size % e.keyBytes != 0 ==>
                  a.why == Some(WholeKeys) && a.qos.size.value % e.keyBytes == 0 && 0 < a.qos.size.value
                  && (Nearest(size, e.keyBytes, a.qos.size.value)
                      || (2 * size < e.keyBytes && a.qos.size.value == e.keyBytes)))
            && (size % e.keyBytes == 0 && size > e.capKeys * e.keyBytes ==>
                  a.why == Some(TooLarge) && a.qos.size == Some(e.capKeys * e.keyBytes))
            && (size % e.keyBytes == 0 && size <= e.capKeys * e.keyBytes && a.qos.minBps != q.minBps ==>
                  a.why == Some(if e.measured.Some? then TooFast else NoRate))
            && (q.mimetype.Some? && q.mimetype.value !in {"", e.mimetype} ==>
                  a.why.Some? && a.qos.mimetype == Some(e.mimetype))
            && (q.minBps.Some? && a.qos.minBps != q.minBps ==>
                  var left := if e.measured.Some?
                  && e.reserved <= e.measured.value then e.measured.value - e.reserved else 0.0;
                  && left < q.minBps.value as real
                  && a.qos.minBps.Some? && a.qos.minBps.value as real <= left < a.qos.minBps.value as real + 1.0)
  {
    var size := if q.size.Some? && q.size.value > 0 then q.size.value else e.keyBytes;
    RoundedIsNearest(size, e.keyBytes);
    RoundedIsWhole(size, e.keyBytes);
  }

  // ------------------------------------------------------------ fixed points

  ghost predicate AcceptedAreFixed(e: Env)
    requires EnvOk(e)
  {
    forall q :: Accepted(e, q) ==> Negotiate(e, Negotiate(e, q).qos) == Answer(Negotiate(e, q).qos, None)
  }

  lemma AcceptedIsFixed(e: Env, q: Request)
    requires EnvOk(e) && Accepted(e, q) && e.defaultTimeout <= e.maxTimeout && e.defaultTtl <= e.maxTtl
    ensures Negotiate(e, Negotiate(e, q).qos) == Answer(Negotiate(e, q).qos, None)
  {
  }

  /** The empty request is accepted, and its defaults are cut when it comes back. */
  lemma DefaultsAreCut(e: Env)
    requires EnvOk(e) && 0 < e.capKeys && !(e.defaultTimeout <= e.maxTimeout && e.defaultTtl <= e.maxTtl)
    ensures !AcceptedAreFixed(e)
  {
    var q := Request(None, None, None, None, None, None, None, None);
    MulGrows(1, e.capKeys, e.keyBytes);
    assert Accepted(e, q);
  }

  /** Registering what was accepted changes nothing, exactly when the default timeouts respect the
      maxima (or nothing can be accepted at all). */
  lemma FixedPointCondition(e: Env)
    requires EnvOk(e)
    ensures AcceptedAreFixed(e) <==> (e.defaultTimeout <= e.maxTimeout && e.defaultTtl <= e.maxTtl) || e.capKeys == 0
  {
    if e.capKeys == 0 {
      forall q ensures !Accepted(e, q) { NothingFits(e, q); }
    } else if e.defaultTimeout <= e.maxTimeout && e.defaultTtl <= e.maxTtl {
      forall q | Accepted(e, q) ensures Negotiate(e, Negotiate(e, q).qos) == Answer(Negotiate(e, q).qos, None) {
        AcceptedIsFixed(e, q);
      }
    } else {
      DefaultsAreCut(e);
    }
  }

  lemma NothingFits(e: Env, q: Request)
    requires EnvOk(e) && e.capKeys == 0
    ensures !Accepted(e, q)
  {
  }

  // ------------------------------------------------------------ convergence

  lemma RoundedIsWhole(size: nat, k: nat)
    requires 0 < k
    ensures Rounded(size, k) % k == 0 && 0 < Rounded(size, k)
  {
    MultipleIsWhole((2 * size + k) / (2 * k), k);
  }

  lemma MultipleIsWhole(n: nat, k: nat)
    requires 0 < k
    ensures n * k % k == 0
  {
    var d, m := n * k / k, n * k % k;
    assert n * k == d * k + m && (n - d) * k == m;
    if d < n {
      MulGrows(1, n - d, k);
    } else {
      MulGrows(n, d, k);
    }
  }

  /** Sending every counter-offer back is accepted on the third submission at the latest, exactly
      when at least one key may be held; otherwise nothing is ever accepted. */
  lemma ThirdSubmission(e: Env, q: Request)
    requires EnvOk(e)
    ensures var second := Negotiate(e, q).qos;
            var third := Negotiate(e, second).qos;
            (Accepted(e, q) || Accepted(e, second) || Accepted(e, third)) <==> 0 < e.capKeys
    ensures 0 < e.capKeys ==> Accepted(e, Negotiate(e, Negotiate(e, q).qos).qos)
  {
    var second := Negotiate(e, q).qos;
    var third := Negotiate(e, second).qos;
    if e.capKeys == 0 {
      NothingFits(e, q);
      NothingFits(e, second);
      NothingFits(e, third);
    } else {
      RoundedIsWhole(Or(q.size, e.keyBytes), e.keyBytes);
      MultipleIsWhole(e.capKeys, e.keyBytes);
      MulGrows(1, e.capKeys, e.keyBytes);
    }
  }

  /** Two submissions are not always enough. */
  lemma SecondSubmissionCanFail()
    ensures exists e, q :: EnvOk(e) && 0 < e.capKeys && !Accepted(e, q) && !Accepted(e, Negotiate(e, q).qos)
  {
    var e := Env(32, 1, 1, 1, 1, 1, "application/json", None, 0.0);
    var q := Request(Some(50), None, None, None, None, None, None, None);
    assert Negotiate(e, q).qos.size == Some(64);
    assert EnvOk(e) && !Accepted(e, q) && !Accepted(e, Negotiate(e, q).qos);
  }

  // ------------------------------------------------------------ the pool behind it

  function ShareKeys(share: real, capacity: nat): (n: int) { (share * capacity as real).Floor }

  /** The check of `limits()`; a violation raises and nothing is negotiated. */
  predicate LimitsOk(share: real, capacity: nat, low: nat) {
    0.0 < share < 1.0 && 2 * low + ShareKeys(share, capacity) <= capacity
  }

  /** End to end: once an allocation of any accepted stream asked for its keys, a producer that
      sleeps before `release_extra` has them above the 014 floor. */
  lemma AcceptedNeverStarve(e: Env, q: Request, share: real, capacity: nat, low: nat, g: Gated, ops: seq<PoolOp>)
    requires EnvOk(e) && Accepted(e, q) && 0 < capacity
    requires LimitsOk(share, capacity, low) && e.capKeys == ShareKeys(share, capacity)
    ensures var m := Negotiate(e, q).qos.size.value / e.keyBytes;
            var end := ApplyAll(capacity, low, g, [Requested(m)] + ops);
            Rests(end.pool, low, end.extra) ==>
              TakeLocal(end.pool, low, m).1.Some? && |Locals(TakeLocal(end.pool, low, m).0.buf)| >= low
  {
    AcceptedPromises(e, q);
    NoSilentStarvation(capacity, low, e.capKeys, Negotiate(e, q).qos.size.value / e.keyBytes, g, ops);
  }
}
