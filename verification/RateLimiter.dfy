/** The per-IP token bucket of services/webui-backend/app/main.py (`demo_rate_limit`), over exact reals. */
module RateLimiter {
  import opened Series

  type Ip = string

  datatype Bucket = Bucket(tokens: real, last: real)

  /** DEMO_RATE_MAX tokens per DEMO_RATE_WINDOW_S seconds. */
  datatype Limit = Limit(max: nat, window: real)

  predicate LimitOk(l: Limit) { l.window > 0.0 }

  function Rate(l: Limit): (r: real)
    requires LimitOk(l)
    ensures r >= 0.0
  {
    l.max as real / l.window
  }

  /** Tokens that `rate` brings from `from` to `to`. */
  function Earned(rate: real, from: real, to: real): real { (to - from) * rate }

  function Refilled(max: real, rate: real, b: Bucket, now: real): real {
    var tokens := b.tokens + Earned(rate, b.last, now);
    if max < tokens then max else tokens
  }

  /** One mutating request of one client: its new bucket and whether it is let through. */
  function Serve(max: real, rate: real, b: Bucket, now: real): (Bucket, bool) {
    var tokens := Refilled(max, rate, b, now);
    if tokens < 1.0 then (Bucket(tokens, now), false) else (Bucket(tokens - 1.0, now), true)
  }

  /** A client not seen before has a full bucket. */
  function BucketOf(max: real, state: map<Ip, Bucket>, ip: Ip, now: real): Bucket {
    if ip in state then state[ip] else Bucket(max, now)
  }

  class Limiter {
    const limit: Limit
    var state: map<Ip, Bucket>

    constructor (limit: Limit)
      ensures this.limit == limit && state == map[]
    {
      this.limit, state := limit, map[];
    }

    method Admit(ip: Ip, now: real, mutating: bool) returns (passed: bool)
      requires LimitOk(limit)
      modifies this
      ensures !mutating ==> passed && state == old(state)
      ensures mutating ==>
                var (b, ok) :=
                  Serve(limit.max as real, Rate(limit), BucketOf(limit.max as real, old(state), ip, now), now);
                passed == ok && state == old(state)[ip := b]
      ensures forall other :: other != ip ==>
                (other in state <==> other in old(state)) && (other in state ==> state[other] == old(state)[other])
    {
      if !mutating {
        return true;
      }
      var max, rate := limit.max as real, Rate(limit);
      var b := if ip in state then state[ip] else Bucket(max, now);
      var tokens := b.tokens + Earned(rate, b.last, now);
      if max < tokens {
        tokens := max;
      }
      if tokens < 1.0 {
        state := state[ip := Bucket(tokens, now)];
        return false;
      }
      state := state[ip := Bucket(tokens - 1.0, now)];
      passed := true;
    }
  }

  // ------------------------------------------------------------ one client over time

  predicate Rising(from: real, times: seq<real>) {
    && (forall i :: 0 <= i < |times| ==> from <= times[i])
    && (forall i, j :: 0 <= i < j < |times| ==> times[i] <= times[j])
  }

  /** The bucket after requests at all `times`. */
  function After(max: real, rate: real, b: Bucket, times: seq<real>): Bucket {
    if times == [] then b else Serve(max, rate, After(max, rate, b, times[..|times| - 1]), times[|times| - 1]).0
  }

  /** How many of them were let through. */
  function Passed(max: real, rate: real, b: Bucket, times: seq<real>): nat {
    if times == [] then 0
    else
      var n := |times| - 1;
      Passed(max, rate, b, times[..n]) + if Serve(max, rate, After(max, rate, b, times[..n]), times[n]).1 then 1 else 0
  }

  predicate Sane(max: real, b: Bucket) { 0.0 <= b.tokens <= max }

  lemma EarnedAdds(rate: real, a: real, b: real, c: real)
    ensures Earned(rate, a, c) == Earned(rate, a, b) + Earned(rate, b, c)
    ensures rate >= 0.0 && a <= b ==> Earned(rate, a, b) >= 0.0
  {
    if rate >= 0.0 && a <= b { NonNegative(b - a, rate, Earned(rate, a, b)); }
  }

  /** One request: what it spends and leaves is covered by what was there and what time brought. */
  lemma ServeConserves(max: real, rate: real, b: Bucket, now: real)
    requires rate >= 0.0 && Sane(max, b) && b.last <= now
    ensures var (c, ok) := Serve(max, rate, b, now);
            && Sane(max, c) && c.last == now
            && (if ok then 1.0 else 0.0) + c.tokens <= b.tokens + Earned(rate, b.last, now)
  {
    EarnedAdds(rate, b.last, now, now);
  }

  lemma {:induction false} Conservation(max: real, rate: real, b: Bucket, times: seq<real>)
    requires rate >= 0.0 && Sane(max, b) && Rising(b.last, times)
    ensures var c := After(max, rate, b, times);
            && Sane(max, c) && c.last == (if times == [] then b.last else times[|times| - 1])
            && Passed(max, rate, b, times) as real + c.tokens <= b.tokens + Earned(rate, b.last, c.last)
  {
    if times == [] {
      assert Earned(rate, b.last, b.last) == 0.0;
    } else {
      var n := |times| - 1;
      Conservation(max, rate, b, times[..n]);
      var c := After(max, rate, b, times[..n]);
      assert c.last <= times[n];
      ServeConserves(max, rate, c, times[n]);
      EarnedAdds(rate, b.last, c.last, times[n]);
    }
  }

  lemma {:induction false} Split(max: real, rate: real, b: Bucket, before: seq<real>, times: seq<real>)
    ensures After(max, rate, b, before + times) == After(max, rate, After(max, rate, b, before), times)
    ensures Passed(max, rate, b, before + times)
            == Passed(max, rate, b, before) + Passed(max, rate, After(max, rate, b, before), times)
  {
    if times == [] {
      assert before + times == before;
    } else {
      var n := |times| - 1;
      Split(max, rate, b, before, times[..n]);
      assert (before + times)[..|before| + n] == before + times[..n];
    }
  }

  /** Counting may start at the first request of a window: the refill before it is capped. */
  lemma {:induction false} SameAsRefilled(max: real, rate: real, c: Bucket, window: seq<real>)
    requires window != [] && c.tokens <= max
    ensures var full := Bucket(Refilled(max, rate, c, window[0]), window[0]);
            After(max, rate, c, window) == After(max, rate, full, window)
            && Passed(max, rate, c, window) == Passed(max, rate, full, window)
  {
    var n := |window| - 1;
    if n == 0 {
      assert window[..0] == [];
      assert Earned(rate, window[0], window[0]) == 0.0;
    } else {
      SameAsRefilled(max, rate, c, window[..n]);
      assert window[..n][0] == window[0];
    }
  }

  lemma WindowFrom(max: real, rate: real, c: Bucket, window: seq<real>)
    requires rate >= 0.0 && Sane(max, c) && Rising(c.last, window) && window != []
    ensures Passed(max, rate, c, window) as real <= max + Earned(rate, window[0], window[|window| - 1])
  {
    var full := Bucket(Refilled(max, rate, c, window[0]), window[0]);
    EarnedAdds(rate, c.last, window[0], window[0]);
    SameAsRefilled(max, rate, c, window);
    Conservation(max, rate, full, window);
  }

  predicate Earnable(max: real, rate: real, passed: real, from: real, to: real) {
    passed <= max + Earned(rate, from, to)
  }

  /** How many requests of the window were let through. */
  function InWindow(max: real, rate: real, b: Bucket, before: seq<real>, window: seq<real>): real {
    (Passed(max, rate, b, before + window) - Passed(max, rate, b, before)) as real
  }

  lemma WindowIn(max: real, rate: real, b: Bucket, before: seq<real>, window: seq<real>)
    requires rate >= 0.0 && Sane(max, b) && Rising(b.last, before + window) && window != []
    ensures Earnable(max, rate, InWindow(max, rate, b, before, window), window[0], window[|window| - 1])
  {
    var all := before + window;
    Split(max, rate, b, before, window);
    assert forall i :: 0 <= i < |before| ==> all[i] == before[i];
    assert forall i :: 0 <= i < |window| ==> all[|before| + i] == window[i];
    Conservation(max, rate, b, before);
    var c := After(max, rate, b, before);
    forall i | 0 <= i < |window| ensures c.last <= window[i] {
      assert before != [] ==> all[|before| - 1] <= all[|before| + i];
    }
    WindowFrom(max, rate, c, window);
  }

  /** At most MAX requests, and those that `time` earns at MAX/WINDOW. */
  predicate Allowed(l: Limit, passed: real, time: real) {
    (passed - l.max as real) * l.window <= l.max as real * time
  }

  lemma AllowedAtRate(l: Limit, passed: real, from: real, to: real)
    requires LimitOk(l) && Earnable(l.max as real, Rate(l), passed, from, to)
    ensures Allowed(l, passed, to - from)
  {
    DivMul(l.max as real, l.window);
    TimesWindow(passed - l.max as real, to - from, Rate(l), l.window, l.max as real);
  }

  lemma TimesWindow(over: real, time: real, rate: real, window: real, max: real)
    requires over <= time * rate && rate * window == max && window > 0.0
    ensures over * window <= max * time
  {
    Scaled(window, over, time * rate);
    assert time * rate * window == time * (rate * window);
  }

  /** In any window of any history no more is let through than that. */
  lemma WindowBound(l: Limit, b: Bucket, before: seq<real>, window: seq<real>)
    requires LimitOk(l) && Sane(l.max as real, b) && Rising(b.last, before + window) && window != []
    ensures Allowed(l, InWindow(l.max as real, Rate(l), b, before, window), window[|window| - 1] - window[0])
  {
    WindowIn(l.max as real, Rate(l), b, before, window);
    AllowedAtRate(l, InWindow(l.max as real, Rate(l), b, before, window), window[0], window[|window| - 1]);
  }

  /** Each request comes at least WINDOW/MAX after the one before. */
  predicate Spaced(step: real, from: real, times: seq<real>) {
    forall i :: 0 <= i < |times| ==> step <= times[i] - Previous(from, times, i)
  }

  function Previous(from: real, times: seq<real>, i: nat): real
    requires i <= |times|
  {
    if i == 0 then from else times[i - 1]
  }

  lemma {:induction false} SpacedAllPass(max: real, rate: real, step: real, b: Bucket, times: seq<real>)
    requires max >= 1.0 && Sane(max, b) && Spaced(step, b.last, times) && step * rate == 1.0 && rate >= 0.0
    ensures Passed(max, rate, b, times) == |times|
    ensures Sane(max, After(max, rate, b, times)) && After(max, rate, b, times).last == Previous(b.last, times, |times|)
  {
    if times != [] {
      var n := |times| - 1;
      assert forall i :: 0 <= i < n ==>
               times[..n][i] == times[i] && Previous(b.last, times[..n], i) == Previous(b.last, times, i);
      SpacedAllPass(max, rate, step, b, times[..n]);
      var c := After(max, rate, b, times[..n]);
      EnoughEarned(rate, step, c.last, times[n]);
    }
  }

  lemma EnoughEarned(rate: real, step: real, from: real, to: real)
    requires step <= to - from && step * rate == 1.0 && rate >= 0.0
    ensures Earned(rate, from, to) >= 1.0
  {
    var spare := to - from - step;
    NonNegative(spare, rate, spare * rate);
    assert spare * rate == Earned(rate, from, to) - step * rate;
  }

  lemma StepTimesRate(m: real, w: real)
    requires m > 0.0 && w > 0.0
    ensures w / m * (m / w) == 1.0
  {
    var step := w / m;
    assert step * m == w;
    TimesQuotient(step, m, w);
  }

  lemma TimesQuotient(x: real, m: real, w: real)
    requires w != 0.0
    ensures x * (m / w) == x * m / w
  {
    assert m / w * w == m;
  }

  /** A client that spaces its requests WINDOW/MAX apart is never refused, whatever its bucket held. */
  lemma SpacedNeverRefused(l: Limit, b: Bucket, times: seq<real>)
    requires LimitOk(l) && l.max >= 1 && Sane(l.max as real, b) && Spaced(l.window / l.max as real, b.last, times)
    ensures Passed(l.max as real, Rate(l), b, times) == |times|
  {
    StepTimesRate(l.max as real, l.window);
    SpacedAllPass(l.max as real, Rate(l), l.window / l.max as real, b, times);
  }

  /** A new client's first request is served, exactly when MAX allows any. */
  lemma FirstRequest(l: Limit, ip: Ip, state: map<Ip, Bucket>, now: real)
    requires LimitOk(l) && ip !in state
    ensures var b := BucketOf(l.max as real, state, ip, now);
            Sane(l.max as real, b) && (Serve(l.max as real, Rate(l), b, now).1 <==> l.max >= 1)
  {
    assert Earned(Rate(l), now, now) == 0.0;
  }

  // ------------------------------------------------------------ exactly what passes

  /** Requests let through from the `k`-th on, before the `n`-th. */
  function Since(max: real, rate: real, b: Bucket, times: seq<real>, k: nat, n: nat): int
    requires k <= n <= |times|
  {
    Passed(max, rate, b, times[..n]) - Passed(max, rate, b, times[..k])
  }

  /** What a bucket that was full at request `k` could still hold at request `n`. */
  function Room(max: real, rate: real, b: Bucket, times: seq<real>, k: nat, n: nat): real
    requires k <= n < |times|
  {
    max + Earned(rate, times[k], times[n]) - Since(max, rate, b, times, k, n) as real
  }

  /** What the first bucket could still hold if it never overflowed. */
  function Left(max: real, rate: real, b: Bucket, times: seq<real>, n: nat): real
    requires n < |times|
  {
    b.tokens + Earned(rate, b.last, times[n]) - Passed(max, rate, b, times[..n]) as real
  }

  /** The tokens there are for request `n`. */
  function Level(max: real, rate: real, b: Bucket, times: seq<real>, n: nat): real
    requires n < |times|
  {
    Refilled(max, rate, After(max, rate, b, times[..n]), times[n])
  }

  /** `x` is the least of what the bounds allow. */
  ghost predicate IsLeast(max: real, rate: real, b: Bucket, times: seq<real>, n: nat, x: real)
    requires n < |times|
  {
    && x <= Left(max, rate, b, times, n)
    && (forall k: nat :: k <= n ==> x <= Room(max, rate, b, times, k, n))
    && (x == Left(max, rate, b, times, n) || exists k: nat :: k <= n && x == Room(max, rate, b, times, k, n))
  }

  lemma FirstLevel(max: real, rate: real, b: Bucket, times: seq<real>)
    requires times != []
    ensures IsLeast(max, rate, b, times, 0, Level(max, rate, b, times, 0))
  {
    assert times[..0] == [];
    assert Earned(rate, times[0], times[0]) == 0.0;
    assert Room(max, rate, b, times, 0, 0) == max;
  }

  /** From one request to the next: what passed is gone, what was earned is added, up to MAX. */
  lemma NextLevel(max: real, rate: real, b: Bucket, times: seq<real>, n: nat)
    requires n + 1 < |times|
    ensures var spent := (Passed(max, rate, b, times[..n + 1]) - Passed(max, rate, b, times[..n])) as real;
            var tokens := Level(max, rate, b, times, n) - spent + Earned(rate, times[n], times[n + 1]);
            Level(max, rate, b, times, n + 1) == if max < tokens then max else tokens
  {
    assert times[..n + 1][..n] == times[..n];
  }

  lemma NextRoom(max: real, rate: real, b: Bucket, times: seq<real>, k: nat, n: nat)
    requires k <= n && n + 1 < |times|
    ensures Room(max, rate, b, times, k, n + 1)
            == Room(max, rate, b, times, k, n) + Earned(rate, times[n], times[n + 1])
               - (Passed(max, rate, b, times[..n + 1]) - Passed(max, rate, b, times[..n])) as real
  {
    EarnedAdds(rate, times[k], times[n], times[n + 1]);
  }

  lemma NextLeft(max: real, rate: real, b: Bucket, times: seq<real>, n: nat)
    requires n + 1 < |times|
    ensures Left(max, rate, b, times, n + 1)
            == Left(max, rate, b, times, n) + Earned(rate, times[n], times[n + 1])
               - (Passed(max, rate, b, times[..n + 1]) - Passed(max, rate, b, times[..n])) as real
  {
    EarnedAdds(rate, b.last, times[n], times[n + 1]);
  }

  lemma FullRoom(max: real, rate: real, b: Bucket, times: seq<real>, n: nat)
    requires n < |times|
    ensures Room(max, rate, b, times, n, n) == max
  {
    assert Earned(rate, times[n], times[n]) == 0.0;
  }

  lemma {:induction false} LevelIsLeast(max: real, rate: real, b: Bucket, times: seq<real>, n: nat)
    requires n < |times|
    ensures IsLeast(max, rate, b, times, n, Level(max, rate, b, times, n))
    decreases n
  {
    if n == 0 {
      FirstLevel(max, rate, b, times);
    } else {
      LevelIsLeast(max, rate, b, times, n - 1);
      StaysLeast(max, rate, b, times, n - 1);
    }
  }

  lemma StaysLeast(max: real, rate: real, b: Bucket, times: seq<real>, n: nat)
    requires n + 1 < |times| && IsLeast(max, rate, b, times, n, Level(max, rate, b, times, n))
    ensures IsLeast(max, rate, b, times, n + 1, Level(max, rate, b, times, n + 1))
  {
    var m, x := n + 1, Level(max, rate, b, times, n + 1);
    NextLevel(max, rate, b, times, n);
    NextLeft(max, rate, b, times, n);
    FullRoom(max, rate, b, times, n + 1);
    forall k: nat | k <= m ensures x <= Room(max, rate, b, times, k, m) {
      if k <= n { NextRoom(max, rate, b, times, k, n); }
    }
    if x != max && x != Left(max, rate, b, times, n + 1) {
      var k: nat :| k <= n && Level(max, rate, b, times, n) == Room(max, rate, b, times, k, n);
      NextRoom(max, rate, b, times, k, n);
      assert x == Room(max, rate, b, times, k, n + 1);
    }
  }

  /** A request passes exactly when it fits, together with the ones that passed before it, into what the
      first bucket held and what time earned; and, from each earlier request on, into MAX and what time
      earned since. */
  lemma PassesExactly(l: Limit, b: Bucket, times: seq<real>, n: nat)
    requires LimitOk(l) && n < |times|
    ensures var max, rate := l.max as real, Rate(l);
            Serve(max, rate, After(max, rate, b, times[..n]), times[n]).1 <==>
              && Passed(max, rate, b, times[..n]) as real + 1.0 <= b.tokens + Earned(rate, b.last, times[n])
              && forall k: nat :: k <= n ==>
                   Since(max, rate, b, times, k, n) as real + 1.0 <= max + Earned(rate, times[k], times[n])
  {
    var max, rate := l.max as real, Rate(l);
    LevelIsLeast(max, rate, b, times, n);
    assert forall k: nat :: k <= n ==>
      Room(max, rate, b, times, k, n)
      == max + Earned(rate, times[k], times[n]) - Since(max, rate, b, times, k, n) as real;
  }

  lemma {:induction false} PassedGrows(max: real, rate: real, b: Bucket, times: seq<real>, k: nat, n: nat)
    requires k <= n <= |times|
    ensures 0 <= Since(max, rate, b, times, k, n) <= n - k
    decreases n
  {
    if k < n {
      PassedGrows(max, rate, b, times, k, n - 1);
      assert times[..n][..n - 1] == times[..n - 1];
    }
  }

  /** From a full bucket a burst of MAX requests passes, however close together. */
  lemma {:induction false} BurstPasses(l: Limit, from: real, times: seq<real>)
    requires LimitOk(l) && |times| <= l.max && Rising(from, times)
    ensures Passed(l.max as real, Rate(l), Bucket(l.max as real, from), times) == |times|
    decreases times
  {
    if times != [] {
      var n, max, rate, b := |times| - 1, l.max as real, Rate(l), Bucket(l.max as real, from);
      BurstPasses(l, from, times[..n]);
      PassesExactly(l, b, times, n);
      EarnedAdds(rate, from, times[n], times[n]);
      forall k: nat | k <= n
        ensures Since(max, rate, b, times, k, n) as real + 1.0 <= max + Earned(rate, times[k], times[n])
      {
        PassedGrows(max, rate, b, times, k, n);
        EarnedAdds(rate, times[k], times[n], times[n]);
      }
    }
  }
}
