/** `reconcile` of services/bb84-kme/app/bb84/reconciliation.py around the Toeplitz hash: the disclosed
    sample, the leak accounting and the decision. The sample positions, the random vector and the
    binary entropy are parameters. */
module Reconciliation {
  import opened PrivacyAmplification
  import KeyPools

  type byte = KeyPools.byte

  datatype Outcome = Outcome(accepted: bool, qber: real, key: seq<byte>, used: nat, leak: int)

  datatype Answer = Unequal | Done(outcome: Outcome)

  const MIN_SAMPLE := 16
  const MARGIN := 64

  function SampleSize(n: nat): nat { if n / 10 < MIN_SAMPLE then MIN_SAMPLE else n / 10 }

  /** A tenth of the block is disclosed, but never fewer than 16 bits; so a block of 16 bits or fewer is
      refused. */
  lemma TenthIsDisclosed(n: nat)
    ensures 16 <= SampleSize(n) && n < 10 * SampleSize(n) + 10
    ensures n >= 160 ==> 10 * SampleSize(n) <= n
    ensures SampleSize(n) < n <==> n > 16
  {
  }

  /** What `rng.choice(n, size, replace=False)` promises. */
  predicate Sample(sample: seq<nat>, n: nat) {
    && |sample| == SampleSize(n)
    && (forall i :: 0 <= i < |sample| ==> sample[i] < n)
    && (forall i, j :: 0 <= i < j < |sample| ==> sample[i] != sample[j])
  }

  function Mismatches(a: Bits, b: Bits, sample: seq<nat>): nat
    requires |a| == |b| && forall i :: 0 <= i < |sample| ==> sample[i] < |a|
  {
    if sample == [] then 0
    else
      var last := sample[|sample| - 1];
      Mismatches(a, b, sample[..|sample| - 1]) + if Xor(a[last], b[last]) then 1 else 0
  }

  /** The sampled positions at which the two sides differ. */
  function Wrong(a: Bits, b: Bits, sample: seq<nat>): set<nat>
    requires |a| == |b| && forall i :: 0 <= i < |sample| ==> sample[i] < |a|
  {
    set k: nat | k < |sample| && a[sample[k]] != b[sample[k]]
  }

  lemma {:induction false} MismatchesAreWrong(a: Bits, b: Bits, sample: seq<nat>)
    requires |a| == |b| && forall i :: 0 <= i < |sample| ==> sample[i] < |a|
    ensures Mismatches(a, b, sample) == |Wrong(a, b, sample)|
    decreases sample
  {
    if sample == [] {
      assert Wrong(a, b, sample) == {};
    } else {
      var n := |sample| - 1;
      MismatchesAreWrong(a, b, sample[..n]);
      assert Wrong(a, b, sample) == Wrong(a, b, sample[..n]) + if a[sample[n]] != b[sample[n]] then {n} else {};
    }
  }

  /** The bits that were not disclosed, in order. */
  function Undisclosed(a: Bits, sample: seq<nat>): Bits {
    if a == [] then []
    else
      var n := |a| - 1;
      Undisclosed(a[..n], sample) + if n in sample then [] else [a[n]]
  }

  function Ceil(x: real): int { -((-x).Floor) }

  ghost predicate EntropyNonNegative(h: real -> real) { forall x :: h(x) >= 0.0 }

  function Leak(qber: real, n: nat, h: real -> real): int {
    Ceil((if 0.0 < qber < 1.0 then h(qber) else 0.0) * n as real)
  }

  /** What the leak would be without rounding. */
  function RawLeak(qber: real, n: nat, h: real -> real): real {
    (if 0.0 < qber < 1.0 then h(qber) else 0.0) * n as real
  }

  lemma LeakIsRoundedUp(qber: real, n: nat, h: real -> real)
    ensures RawLeak(qber, n, h) <= Leak(qber, n, h) as real < RawLeak(qber, n, h) + 1.0
  {
  }

  lemma LeakIsNonNegative(qber: real, n: nat, h: real -> real)
    requires EntropyNonNegative(h)
    ensures Leak(qber, n, h) >= 0
  {
    var x, y := if 0.0 < qber < 1.0 then h(qber) else 0.0, n as real;
    assert x >= 0.0 && y >= 0.0;
    assert x * y >= 0.0;
  }

  function Qber(a: Bits, b: Bits, sample: seq<nat>): real
    requires |a| == |b| && sample != [] && forall i :: 0 <= i < |sample| ==> sample[i] < |a|
  {
    Mismatches(a, b, sample) as real / |sample| as real
  }

  // ------------------------------------------------------------ bits and bytes

  /** The number that bits stand for, most significant first. */
  function Value(bits: Bits): (v: nat)
    ensures v < Pow2(|bits|)
  {
    if bits == [] then 0
    else 2 * Value(bits[..|bits| - 1]) + if bits[|bits| - 1] then 1 else 0
  }

  function BitsOf(x: nat, n: nat): (bits: Bits)
    ensures |bits| == n
  {
    if n == 0 then [] else BitsOf(x / 2, n - 1) + [x % 2 == 1]
  }

  /** Eight bits, with zeros for what is missing. */
  function Filled(bits: Bits): (r: Bits)
    requires |bits| <= 8
    ensures |r| == 8
  {
    bits + seq(8 - |bits|, _ => false)
  }

  function ByteOf(bits: Bits): byte
    requires |bits| <= 8
  {
    assert Pow2(8) == 256;
    Value(Filled(bits))
  }

  /** `np.packbits(bits, bitorder="big")` */
  function Packed(bits: Bits): seq<byte> {
    if |bits| <= 8 then if bits == [] then [] else [ByteOf(bits)]
    else [ByteOf(bits[..8])] + Packed(bits[8..])
  }

  function Unpacked(bytes: seq<byte>): Bits {
    if bytes == [] then [] else BitsOf(bytes[0], 8) + Unpacked(bytes[1..])
  }

  /** The sample array is turned into a mask, and the masked bits are dropped. */
  method DropSample(a: Bits, sample: seq<nat>) returns (rest: Bits)
    requires forall i :: 0 <= i < |sample| ==> sample[i] < |a|
    ensures rest == Undisclosed(a, sample)
  {
    var mask := new bool[|a|](i => true);
    for k := 0 to |sample|
      invariant forall i :: 0 <= i < |a| ==> (mask[i] <==> i !in sample[..k])
    {
      mask[sample[k]] := false;
      assert sample[..k + 1] == sample[..k] + [sample[k]];
    }
    assert sample[..|sample|] == sample;
    rest := [];
    for i := 0 to |a|
      invariant rest == Undisclosed(a[..i], sample)
    {
      assert a[..i + 1][..i] == a[..i];
      if mask[i] {
        rest := rest + [a[i]];
      }
    }
    assert a[..|a|] == a;
  }

  method CountMismatches(a: Bits, b: Bits, sample: seq<nat>) returns (n: nat)
    requires |a| == |b| && forall i :: 0 <= i < |sample| ==> sample[i] < |a|
    ensures n == Mismatches(a, b, sample) == |Wrong(a, b, sample)|
  {
    MismatchesAreWrong(a, b, sample);
    n := 0;
    for k := 0 to |sample|
      invariant n == Mismatches(a, b, sample[..k])
    {
      assert sample[..k + 1][..k] == sample[..k];
      if Xor(a[sample[k]], b[sample[k]]) {
        n := n + 1;
      }
    }
    assert sample[..|sample|] == sample;
  }

  method Reconcile(a: Bits, b: Bits, threshold: real, outBits: nat, sample: seq<nat>, rnd: nat -> Bits, h: real -> real)
    returns (answer: Answer)
    requires SampleSize(|a|) < |a| ==> Sample(sample, |a|)
    requires (forall k :: |rnd(k)| == k) && EntropyNonNegative(h)
    ensures answer == if |a| != |b| then Unequal else Done(Decision(a, b, threshold, outBits, sample, rnd, h))
  {
    if |a| != |b| {
      return Unequal;
    }
    if SampleSize(|a|) >= |a| {
      return Done(Outcome(false, 1.0, [], |a|, 0));
    }
    var wrong := CountMismatches(a, b, sample);
    var qber := wrong as real / |sample| as real;
    if qber > threshold {
      return Done(Outcome(false, qber, [], |a|, 0));
    }
    var rest := DropSample(a, sample);
    var leak := Leak(qber, |rest|, h);
    LeakIsNonNegative(qber, |rest|, h);
    if |rest| < outBits + leak + MARGIN {
      return Done(Outcome(false, qber, [], |a|, leak));
    }
    var hashed := ToeplitzHash(rest, outBits, rnd(|rest| + outBits - 1));
    answer := Done(Outcome(true, qber, Packed(hashed[..]), |a|, leak));
  }

  ghost function Decision(a: Bits, b: Bits, threshold: real, outBits: nat, sample: seq<nat>, rnd: nat -> Bits,
                          h: real -> real): Outcome
    requires |a| == |b| && (SampleSize(|a|) < |a| ==> Sample(sample, |a|))
    requires (forall k :: |rnd(k)| == k) && EntropyNonNegative(h)
  {
    if SampleSize(|a|) >= |a| then Outcome(false, 1.0, [], |a|, 0)
    else
      var qber := Qber(a, b, sample);
      var rest := Undisclosed(a, sample);
      var leak := Leak(qber, |rest|, h);
      LeakIsNonNegative(qber, |rest|, h);
      if qber > threshold then Outcome(false, qber, [], |a|, 0)
      else if |rest| < outBits + leak + MARGIN then Outcome(false, qber, [], |a|, leak)
      else Outcome(true, qber, Packed(Hash(rest, outBits, rnd(|rest| + outBits - 1))), |a|, leak)
  }

  // ------------------------------------------------------------ packing loses nothing

  lemma {:induction false} BitsOfValue(bits: Bits)
    ensures BitsOf(Value(bits), |bits|) == bits
  {
    if bits != [] {
      BitsOfValue(bits[..|bits| - 1]);
    }
  }

  /** Unpacking gives the bits back, filled up with zeros to whole bytes. */
  lemma {:induction false} PackingRoundTrip(bits: Bits)
    ensures |Packed(bits)| == (|bits| + 7) / 8 && |Unpacked(Packed(bits))| == 8 * |Packed(bits)|
    ensures Unpacked(Packed(bits))[..|bits|] == bits
    ensures forall i :: |bits| <= i < |Unpacked(Packed(bits))| ==> !Unpacked(Packed(bits))[i]
    decreases |bits|
  {
    if bits == [] {
    } else if |bits| <= 8 {
      BitsOfValue(Filled(bits));
      assert Unpacked(Packed(bits)) == Filled(bits) + Unpacked([]);
    } else {
      var first, rest := bits[..8], bits[8..];
      BitsOfValue(Filled(first));
      PackingRoundTrip(rest);
      assert Packed(bits)[1..] == Packed(rest) && Filled(first) == first;
      assert Unpacked(Packed(bits)) == first + Unpacked(Packed(rest));
      assert bits == first + rest;
    }
  }

  /** Bit `i` of `bytes`, counted from the most significant bit of the first byte. */
  predicate BitAt(bytes: seq<byte>, i: nat)
    requires i < 8 * |bytes|
  {
    bytes[i / 8] / Pow2(7 - i % 8) % 2 == 1
  }

  lemma {:induction false} BitOfNumber(x: nat, n: nat, k: nat)
    requires k < n
    ensures BitsOf(x, n)[k] <==> x / Pow2(n - 1 - k) % 2 == 1
    decreases n
  {
    if k < n - 1 {
      BitOfNumber(x / 2, n - 1, k);
      HalfFirst(x, Pow2(n - 2 - k));
    }
  }

  lemma HalfFirst(x: nat, d: nat)
    requires d > 0
    ensures x / 2 / d == x / (2 * d)
  {
    var q, r := x / 2 / d, x / 2 % d;
    assert x / 2 == d * q + r;
    var s := 2 * r + x % 2;
    assert x == 2 * d * q + s && 0 <= s < 2 * d;
    QuotientIs(x, 2 * d, q, s);
  }

  lemma QuotientIs(x: nat, d: nat, q: nat, r: nat)
    requires x == d * q + r && r < d
    ensures x / d == q
  {
    var p := x / d - q;
    assert d * p == r - x % d;
    assert -(d as int) < d * p < d;
  }

  lemma {:induction false} UnpackedAt(bytes: seq<byte>, i: nat)
    requires i < 8 * |bytes|
    ensures |Unpacked(bytes)| == 8 * |bytes| && Unpacked(bytes)[i] == BitsOf(bytes[i / 8], 8)[i % 8]
    decreases bytes
  {
    UnpackedLength(bytes);
    var first, rest := BitsOf(bytes[0], 8), Unpacked(bytes[1..]);
    assert Unpacked(bytes) == first + rest;
    BytePosition(i);
    if i >= 8 {
      UnpackedAt(bytes[1..], i - 8);
      assert (first + rest)[i] == rest[i - 8];
    }
  }

  lemma BytePosition(i: nat)
    ensures if i < 8 then i / 8 == 0 && i % 8 == i else i / 8 == (i - 8) / 8 + 1 && i % 8 == (i - 8) % 8
  {
  }

  lemma {:induction false} UnpackedLength(bytes: seq<byte>)
    ensures |Unpacked(bytes)| == 8 * |bytes|
    decreases bytes
  {
    if bytes != [] { UnpackedLength(bytes[1..]); }
  }

  lemma PackedBit(bits: Bits, i: nat)
    requires i < |bits|
    ensures |Packed(bits)| == (|bits| + 7) / 8 && (BitAt(Packed(bits), i) <==> bits[i])
  {
    PackingRoundTrip(bits);
    UnpackedAt(Packed(bits), i);
    BitOfNumber(Packed(bits)[i / 8], 8, i % 8);
    assert Unpacked(Packed(bits))[..|bits|][i] == bits[i];
  }

  // ------------------------------------------------------------ accounting

  function Within(sample: seq<nat>, n: nat): set<nat> { set i | i in sample && i < n }

  lemma {:induction false} UndisclosedLength(a: Bits, sample: seq<nat>)
    ensures |Undisclosed(a, sample)| + |Within(sample, |a|)| == |a|
  {
    var here := Within(sample, |a|);
    if a == [] {
      assert here == {};
    } else {
      var n := |a| - 1;
      UndisclosedLength(a[..n], sample);
      var before := Within(sample, n);
      if n in sample { assert here == before + {n}; } else { assert here == before; }
    }
  }

  lemma {:induction false} DistinctSize(sample: seq<nat>, bound: nat)
    requires forall i :: 0 <= i < |sample| ==> sample[i] < bound
    requires forall i, j :: 0 <= i < j < |sample| ==> sample[i] != sample[j]
    ensures |Within(sample, bound)| == |sample|
  {
    if sample != [] {
      var last := sample[|sample| - 1];
      var rest := sample[..|sample| - 1];
      DistinctSize(rest, bound);
      assert sample == rest + [last];
      assert Within(sample, bound) == Within(rest, bound) + {last};
      assert last !in rest;
    }
  }

  /** The hash of the bits that were not disclosed. */
  function KeyBits(a: Bits, outBits: nat, sample: seq<nat>, rnd: nat -> Bits): Bits
    requires forall k :: |rnd(k)| == k
  {
    var rest := Undisclosed(a, sample);
    if |rest| + outBits == 0 then [] else Hash(rest, outBits, rnd(|rest| + outBits - 1))
  }

  /** The outcome in terms of the `wrong` sampled positions, of `n` bits with `sample` of them disclosed. */
  ghost predicate Accounted(r: Outcome, n: nat, sample: nat, wrong: nat, threshold: real, outBits: nat,
                            h: real -> real)
  {
    && r.used == n
    && (sample >= n ==> !r.accepted && r.qber == 1.0 && r.leak == 0)
    && (sample < n ==>
          && r.qber * sample as real == wrong as real
          && (r.accepted <==>
                r.qber <= threshold
                && (outBits + 64 + sample) as real + RawLeak(r.qber, n - sample, h) <= n as real)
          && (r.qber > threshold ==> r.leak == 0)
          && (r.qber <= threshold ==>
                RawLeak(r.qber, n - sample, h) <= r.leak as real < RawLeak(r.qber, n - sample, h) + 1.0))
  }

  /** The error rate of every outcome is the share of sampled positions that differ; a block is accepted
      exactly when that is low enough and, after the leak and a margin, enough undisclosed bits remain. */
  lemma LeakAccounting(a: Bits, b: Bits, threshold: real, outBits: nat, sample: seq<nat>, rnd: nat -> Bits,
                       h: real -> real)
    requires |a| == |b| && (SampleSize(|a|) < |a| ==> Sample(sample, |a|)) && (forall k :: |rnd(k)| == k)
             && EntropyNonNegative(h)
    ensures Accounted(Decision(a, b, threshold, outBits, sample, rnd, h), |a|, SampleSize(|a|),
                      if SampleSize(|a|) < |a| then |Wrong(a, b, sample)| else 0, threshold, outBits, h)
  {
    if SampleSize(|a|) < |a| {
      UndisclosedLength(a, sample);
      DistinctSize(sample, |a|);
      QberIsShare(a, b, sample);
      AccountedAt(Decision(a, b, threshold, outBits, sample, rnd, h), |a|, SampleSize(|a|), |Wrong(a, b, sample)|,
                  threshold, outBits, h, Qber(a, b, sample));
    }
  }

  lemma AccountedAt(r: Outcome, n: nat, sample: nat, wrong: nat, threshold: real, outBits: nat, h: real -> real,
                    qber: real)
    requires sample < n && qber * sample as real == wrong as real
    requires r.used == n && r.qber == qber
    requires r.accepted <==> qber <= threshold && n - sample >= outBits + Leak(qber, n - sample, h) + MARGIN
    requires r.leak == if qber > threshold then 0 else Leak(qber, n - sample, h)
    ensures Accounted(r, n, sample, wrong, threshold, outBits, h)
  {
    LeakIsRoundedUp(qber, n - sample, h);
    Fits(outBits, Leak(qber, n - sample, h), n, sample, RawLeak(qber, n - sample, h));
  }

  lemma QberIsShare(a: Bits, b: Bits, sample: seq<nat>)
    requires |a| == |b| && sample != [] && forall i :: 0 <= i < |sample| ==> sample[i] < |a|
    ensures Qber(a, b, sample) * |sample| as real == |Wrong(a, b, sample)| as real
  {
    MismatchesAreWrong(a, b, sample);
  }

  lemma Fits(outBits: nat, leak: int, n: nat, sample: nat, raw: real)
    requires raw <= leak as real < raw + 1.0
    ensures n - sample >= outBits + leak + MARGIN <==> (outBits + MARGIN + sample) as real + raw <= n as real
  {
  }

  lemma AcceptedKey(a: Bits, b: Bits, threshold: real, outBits: nat, sample: seq<nat>, rnd: nat -> Bits,
                    h: real -> real)
    requires |a| == |b| && (SampleSize(|a|) < |a| ==> Sample(sample, |a|)) && (forall k :: |rnd(k)| == k)
             && EntropyNonNegative(h)
    ensures var r := Decision(a, b, threshold, outBits, sample, rnd, h);
            var bits := KeyBits(a, outBits, sample, rnd);
            if r.accepted then r.key == Packed(bits) && |bits| == outBits else r.key == []
  {
  }

  /** Bit `i` of an accepted key, counted from the most significant bit of its first byte, is set when an
      odd number of undisclosed bits coincide with set bits of the random vector from `i` on. */
  lemma KeyBitMeans(a: Bits, b: Bits, threshold: real, outBits: nat, sample: seq<nat>, rnd: nat -> Bits,
                    h: real -> real, i: nat)
    requires |a| == |b| && (SampleSize(|a|) < |a| ==> Sample(sample, |a|)) && (forall k :: |rnd(k)| == k)
             && EntropyNonNegative(h) && i < outBits
    ensures var r := Decision(a, b, threshold, outBits, sample, rnd, h);
            var rest := Undisclosed(a, sample);
            r.accepted ==>
              && |r.key| == (outBits + 7) / 8
              && (BitAt(r.key, i) <==>
                    |set k: nat | k < |rest| && rnd(|rest| + outBits - 1)[i + k] && rest[k]| % 2 == 1)
  {
    var r := Decision(a, b, threshold, outBits, sample, rnd, h);
    if r.accepted {
      AcceptedKey(a, b, threshold, outBits, sample, rnd, h);
      var rest := Undisclosed(a, sample);
      PackedBit(KeyBits(a, outBits, sample, rnd), i);
      HashBit(rest, outBits, rnd(|rest| + outBits - 1), i);
    }
  }

  /** Where an undisclosed bit goes: the disclosed ones before it are left out. */
  lemma {:induction false} UndisclosedAt(a: Bits, sample: seq<nat>, i: nat)
    requires i < |a| && i !in sample
    ensures var at := i - |Within(sample, i)|;
            0 <= at < |Undisclosed(a, sample)| && Undisclosed(a, sample)[at] == a[i]
    decreases a
  {
    var n := |a| - 1;
    UndisclosedLength(a[..n], sample);
    if i < n {
      UndisclosedAt(a[..n], sample, i);
    }
  }

  /** `a'` is `a` with other values at disclosed positions. */
  predicate AgreeUndisclosed(a: Bits, a': Bits, sample: seq<nat>) {
    |a| == |a'| && forall i :: 0 <= i < |a| && i !in sample ==> a[i] == a'[i]
  }

  lemma {:induction false} SameUndisclosed(a: Bits, a': Bits, sample: seq<nat>)
    requires AgreeUndisclosed(a, a', sample)
    ensures Undisclosed(a, sample) == Undisclosed(a', sample)
  {
    if a != [] {
      var n := |a| - 1;
      SameUndisclosed(a[..n], a'[..n], sample);
    }
  }

  /** The key says nothing of the disclosed bits: whatever they and the other side's bits are, two
      accepted blocks with the same undisclosed bits get the same key. */
  lemma KeyIgnoresDisclosed(a: Bits, b: Bits, a': Bits, b': Bits, threshold: real, outBits: nat, sample: seq<nat>,
                            rnd: nat -> Bits, h: real -> real)
    requires |a| == |b| && |a'| == |b'| && AgreeUndisclosed(a, a', sample)
    requires (SampleSize(|a|) < |a| ==> Sample(sample, |a|)) && (forall k :: |rnd(k)| == k) && EntropyNonNegative(h)
    ensures var r := Decision(a, b, threshold, outBits, sample, rnd, h);
            var r' := Decision(a', b', threshold, outBits, sample, rnd, h);
            r.accepted && r'.accepted ==> r.key == r'.key
  {
    SameUndisclosed(a, a', sample);
  }
}
