/** The Toeplitz hash of services/bb84-kme/app/bb84/reconciliation.py: the loop that computes it, that
    it is linear over GF(2), and that it is exactly universal. The random vector is a parameter. */
module PrivacyAmplification {

  type Bits = seq<bool>

  function Xor(a: bool, b: bool): bool { a != b }

  /** `bitwise_xor.reduce(row & bits)` */
  function Parity(row: Bits, bits: Bits): bool
    requires |row| == |bits|
  {
    if bits == [] then false
    else Xor(Parity(row[..|row| - 1], bits[..|bits| - 1]), row[|row| - 1] && bits[|bits| - 1])
  }

  /** Row `i` of the Toeplitz matrix is the random vector from position `i` on. */
  function Hash(bits: Bits, outLen: nat, rnd: Bits): (out: Bits)
    requires |rnd| + 1 == |bits| + outLen
    ensures |out| == outLen
  {
    seq(outLen, i requires 0 <= i < outLen => Parity(rnd[i..i + |bits|], bits))
  }

  method ToeplitzHash(bits: Bits, outLen: nat, rnd: Bits) returns (out: array<bool>)
    requires |rnd| + 1 == |bits| + outLen
    ensures fresh(out) && out[..] == Hash(bits, outLen, rnd)
  {
    out := new bool[outLen];
    for i := 0 to outLen
      invariant forall k :: 0 <= k < i ==> out[k] == Parity(rnd[k..k + |bits|], bits)
    {
      var row := rnd[i..i + |bits|];
      var parity := false;
      for k := 0 to |bits|
        invariant parity == Parity(row[..k], bits[..k])
      {
        assert row[..k + 1][..k] == row[..k] && bits[..k + 1][..k] == bits[..k];
        parity := Xor(parity, row[k] && bits[k]);
      }
      assert row[..|bits|] == row && bits[..|bits|] == bits;
      out[i] := parity;
    }
  }

  /** The positions below `n` at which both are set. */
  function Both(row: Bits, bits: Bits, n: nat): set<nat>
    requires n <= |row| && n <= |bits|
  {
    set k: nat | k < n && row[k] && bits[k]
  }

  lemma {:induction false} ParityIsOdd(row: Bits, bits: Bits, n: nat)
    requires n <= |row| && n <= |bits|
    ensures Parity(row[..n], bits[..n]) <==> |Both(row, bits, n)| % 2 == 1
    decreases n
  {
    if n == 0 {
      assert Both(row, bits, n) == {};
    } else {
      var m := n - 1;
      ParityIsOdd(row, bits, m);
      assert row[..n][..m] == row[..m] && bits[..n][..m] == bits[..m];
      if row[m] && bits[m] {
        assert Both(row, bits, n) == Both(row, bits, m) + {m};
      } else {
        assert Both(row, bits, n) == Both(row, bits, m);
      }
    }
  }

  /** An output bit is set when an odd number of input bits meet set bits of the random vector. */
  lemma HashBit(bits: Bits, outLen: nat, rnd: Bits, i: nat)
    requires |rnd| + 1 == |bits| + outLen && i < outLen
    ensures Hash(bits, outLen, rnd)[i] <==> |set k: nat | k < |bits| && rnd[i + k] && bits[k]| % 2 == 1
  {
    var row := rnd[i..i + |bits|];
    ParityIsOdd(row, bits, |bits|);
    assert row[..|bits|] == row && bits[..|bits|] == bits;
    assert Both(row, bits, |bits|) == set k: nat | k < |bits| && rnd[i + k] && bits[k];
  }

  // ------------------------------------------------------------ linearity

  function Sum(a: Bits, b: Bits): (c: Bits)
    requires |a| == |b|
    ensures |c| == |a|
  {
    seq(|a|, i requires 0 <= i < |a| => Xor(a[i], b[i]))
  }

  lemma {:induction false} ParityOfSum(row: Bits, a: Bits, b: Bits)
    requires |row| == |a| == |b|
    ensures Parity(row, Sum(a, b)) == Xor(Parity(row, a), Parity(row, b))
    decreases |a|
  {
    if a != [] {
      var n := |a| - 1;
      assert Sum(a, b)[..n] == Sum(a[..n], b[..n]);
      ParityOfSum(row[..n], a[..n], b[..n]);
    }
  }

  /** The hash of a sum is the sum of the hashes. */
  lemma HashIsLinear(a: Bits, b: Bits, outLen: nat, rnd: Bits)
    requires |a| == |b| && |rnd| + 1 == |a| + outLen
    ensures Hash(Sum(a, b), outLen, rnd) == Sum(Hash(a, outLen, rnd), Hash(b, outLen, rnd))
  {
    forall i | 0 <= i < outLen
      ensures Hash(Sum(a, b), outLen, rnd)[i] == Xor(Hash(a, outLen, rnd)[i], Hash(b, outLen, rnd)[i])
    {
      ParityOfSum(rnd[i..i + |a|], a, b);
    }
  }

  // ------------------------------------------------------------ all random vectors

  function Pow2(n: nat): (p: nat)
    ensures p > 0
  {
    if n == 0 then 1 else 2 * Pow2(n - 1)
  }

  /** Each vector of `s` made longer by the bit that `last` picks for it. */
  function Longer(s: set<Bits>, last: Bits -> bool): set<Bits> {
    set v | v in s :: v + [last(v)]
  }

  function Always(b: bool): Bits -> bool { (v: Bits) => b }

  function Vectors(n: nat): set<Bits> {
    if n == 0 then {[]} else Longer(Vectors(n - 1), Always(false)) + Longer(Vectors(n - 1), Always(true))
  }

  lemma {:induction false} VectorsHaveLength(n: nat, v: Bits)
    requires v in Vectors(n)
    ensures |v| == n
  {
    if n > 0 {
      var w :| w in Vectors(n - 1) && |v| == |w| + 1;
      VectorsHaveLength(n - 1, w);
    }
  }

  lemma {:induction false} EveryVector(v: Bits)
    ensures v in Vectors(|v|)
    decreases |v|
  {
    if v != [] {
      var n := |v| - 1;
      var w, b := v[..n], v[n];
      EveryVector(w);
      assert v == w + [Always(b)(w)];
      assert v in Longer(Vectors(n), Always(b));
    }
  }

  lemma VectorsAreAll(n: nat, v: Bits)
    ensures v in Vectors(n) <==> |v| == n
  {
    EveryVector(v);
    if v in Vectors(n) { VectorsHaveLength(n, v); }
  }

  lemma {:induction false} LongerSize(s: set<Bits>, last: Bits -> bool)
    ensures |Longer(s, last)| == |s|
    decreases |s|
  {
    if s != {} {
      var v :| v in s;
      var rest := s - {v};
      LongerSize(rest, last);
      assert Longer(s, last) == Longer(rest, last) + {v + [last(v)]};
      forall w | w in rest ensures w + [last(w)] != v + [last(v)] {
        DifferentStart(v, w, last(v), last(w));
      }
    }
  }

  lemma DifferentStart(v: Bits, w: Bits, a: bool, b: bool)
    requires v != w
    ensures v + [a] != w + [b]
  {
    assert (v + [a])[..|v|] == v && (w + [b])[..|w|] == w;
  }

  lemma TwiceLonger(s: set<Bits>)
    ensures |Longer(s, Always(false)) + Longer(s, Always(true))| == 2 * |s|
  {
    LongerSize(s, Always(false));
    LongerSize(s, Always(true));
    forall v | v in Longer(s, Always(false)) ensures v !in Longer(s, Always(true)) {
      assert v[|v| - 1] == false;
    }
  }

  lemma {:induction false} VectorsCount(n: nat)
    ensures |Vectors(n)| == Pow2(n)
  {
    if n > 0 {
      VectorsCount(n - 1);
      TwiceLonger(Vectors(n - 1));
    }
  }

  // ------------------------------------------------------------ exact universality

  predicate Hashes(bits: Bits, out: Bits, rnd: Bits) {
    |rnd| + 1 == |bits| + |out| && Hash(bits, |out|, rnd) == out
  }

  /** The random vectors under which `bits` hashes to `out`. */
  function Solutions(bits: Bits, out: Bits): set<Bits>
    requires bits != []
  {
    set r | r in Vectors(|bits| + |out| - 1) && Hashes(bits, out, r)
  }

  lemma SolutionsAre(bits: Bits, out: Bits, r: Bits)
    requires bits != []
    ensures r in Solutions(bits, out) <==> Hashes(bits, out, r)
  {
    VectorsAreAll(|bits| + |out| - 1, r);
  }

  lemma SameWindow(v: Bits, b: bool, i: nat, n: nat)
    requires i + n <= |v|
    ensures (v + [b])[i..i + n] == v[i..i + n]
  {
  }

  /** The earlier outputs do not look at the last random bit. */
  lemma HashPrefix(bits: Bits, outLen: nat, v: Bits, b: bool)
    requires bits != [] && |v| + 1 == |bits| + outLen
    ensures Hash(bits, outLen + 1, v + [b])[..outLen] == Hash(bits, outLen, v)
  {
    forall i | 0 <= i < outLen ensures Hash(bits, outLen + 1, v + [b])[i] == Hash(bits, outLen, v)[i] {
      SameWindow(v, b, i, |bits|);
    }
  }

  /** When the last input bit is set, the last output bit flips with the last random bit. */
  predicate Fitting(bits: Bits, want: bool, v: Bits)
    requires bits != []
  {
    |v| + 1 >= |bits| && Xor(Parity(v[|v| + 1 - |bits|..], bits[..|bits| - 1]), want)
  }

  function LastBit(bits: Bits, want: bool): Bits -> bool
    requires bits != []
  {
    (v: Bits) => Fitting(bits, want, v)
  }

  /** The last output, in terms of the vector without its last bit. */
  lemma LastParity(bits: Bits, m: nat, v: Bits, b: bool)
    requires bits != [] && bits[|bits| - 1] && |v| + 1 == |bits| + m
    ensures Parity((v + [b])[m..m + |bits|], bits) == Xor(Parity(v[m..], bits[..|bits| - 1]), b)
  {
    var row, n := (v + [b])[m..m + |bits|], |bits| - 1;
    LastRow(v, b, m, n);
  }

  lemma LastOutput(bits: Bits, m: nat, v: Bits, b: bool, want: bool)
    requires bits != [] && bits[|bits| - 1] && |v| + 1 == |bits| + m
    ensures Hash(bits, m + 1, v + [b])[m] == want <==> b == Fitting(bits, want, v)
  {
    LastParity(bits, m, v, b);
    assert |v| + 1 - |bits| == m;
  }

  lemma LastRow(v: Bits, b: bool, m: nat, n: nat)
    requires |v| == m + n
    ensures (v + [b])[m..m + n + 1][..n] == v[m..] && (v + [b])[m..m + n + 1][n] == b
  {
  }

  /** A solution for one output more is a solution for the earlier outputs with one fitting bit. */
  lemma OneMoreBit(bits: Bits, before: Bits, want: bool, v: Bits, b: bool)
    requires bits != [] && bits[|bits| - 1]
    ensures Hashes(bits, before + [want], v + [b]) <==> Hashes(bits, before, v) && b == LastBit(bits, want)(v)
  {
    var m := |before|;
    if |v| + 1 == |bits| + m {
      HashPrefix(bits, m, v, b);
      LastOutput(bits, m, v, b, want);
      SplitLast(Hash(bits, m + 1, v + [b]), before, want);
    }
  }

  lemma SplitLast(h: Bits, before: Bits, want: bool)
    requires |h| == |before| + 1
    ensures h == before + [want] <==> h[..|before|] == before && h[|before|] == want
  {
    assert h == h[..|before|] + [h[|before|]];
  }

  lemma LongerMember(s: set<Bits>, last: Bits -> bool, v: Bits, b: bool)
    ensures v + [b] in Longer(s, last) <==> v in s && b == last(v)
  {
    forall w | w in s && w + [last(w)] == v + [b] ensures w == v {
      if w != v { DifferentStart(w, v, last(w), b); }
    }
    if v + [b] in Longer(s, last) {
      var w :| w in s && v + [b] == w + [last(w)];
      assert (v + [b])[|v|] == b && (w + [last(w)])[|w|] == last(w);
    }
  }

  lemma OneMoreSolution(bits: Bits, before: Bits, want: bool, r: Bits)
    requires bits != [] && bits[|bits| - 1]
    ensures r in Solutions(bits, before + [want]) <==> r in Longer(Solutions(bits, before), LastBit(bits, want))
  {
    SolutionsAre(bits, before + [want], r);
    if r != [] {
      var v, b := r[..|r| - 1], r[|r| - 1];
      assert r == v + [b];
      SolutionsAre(bits, before, v);
      OneMoreBit(bits, before, want, v, b);
      LongerMember(Solutions(bits, before), LastBit(bits, want), v, b);
    }
  }

  /** Each solution for fewer outputs extends to exactly one solution. */
  lemma OneMoreOutput(bits: Bits, before: Bits, want: bool)
    requires bits != [] && bits[|bits| - 1]
    ensures |Solutions(bits, before + [want])| == |Solutions(bits, before)|
  {
    var more, longer := Solutions(bits, before + [want]), Longer(Solutions(bits, before), LastBit(bits, want));
    forall r: Bits ensures r in more <==> r in longer {
      OneMoreSolution(bits, before, want, r);
    }
    assert more == longer;
    LongerSize(Solutions(bits, before), LastBit(bits, want));
  }

  lemma ZeroBitIgnored(bits: Bits, outLen: nat, v: Bits, b: bool)
    requires |bits| >= 2 && !bits[|bits| - 1] && |v| + 2 == |bits| + outLen
    ensures Hash(bits, outLen, v + [b]) == Hash(bits[..|bits| - 1], outLen, v)
  {
    var r, n := v + [b], |bits| - 1;
    forall i | 0 <= i < outLen ensures Hash(bits, outLen, r)[i] == Hash(bits[..n], outLen, v)[i] {
      SameWindow(v, b, i, n);
      assert r[i..i + |bits|][..n] == r[i..i + n];
    }
  }

  lemma TrailingZeroSolution(bits: Bits, out: Bits, r: Bits)
    requires |bits| >= 2 && !bits[|bits| - 1]
    ensures var s := Solutions(bits[..|bits| - 1], out);
            r in Solutions(bits, out) <==> r in Longer(s, Always(false)) || r in Longer(s, Always(true))
  {
    var short := bits[..|bits| - 1];
    SolutionsAre(bits, out, r);
    if r != [] {
      var v, b := r[..|r| - 1], r[|r| - 1];
      assert r == v + [b];
      SolutionsAre(short, out, v);
      if |r| + 1 == |bits| + |out| { ZeroBitIgnored(bits, |out|, v, b); }
      LongerMember(Solutions(short, out), Always(false), v, b);
      LongerMember(Solutions(short, out), Always(true), v, b);
    }
  }

  /** A trailing zero bit makes one random bit irrelevant. */
  lemma TrailingZero(bits: Bits, out: Bits)
    requires |bits| >= 2 && !bits[|bits| - 1]
    ensures |Solutions(bits, out)| == 2 * |Solutions(bits[..|bits| - 1], out)|
  {
    var s := Solutions(bits[..|bits| - 1], out);
    var all, both := Solutions(bits, out), Longer(s, Always(false)) + Longer(s, Always(true));
    forall r: Bits ensures r in all <==> r in both {
      TrailingZeroSolution(bits, out, r);
    }
    assert all == both;
    TwiceLonger(s);
  }

  lemma NoOutputSolution(bits: Bits, r: Bits)
    requires bits != []
    ensures r in Solutions(bits, []) <==> |r| + 1 == |bits|
  {
    SolutionsAre(bits, [], r);
    HashesNothing(bits, r);
  }

  lemma HashesNothing(bits: Bits, r: Bits)
    ensures Hashes(bits, [], r) <==> |r| + 1 == |bits|
  {
    if |r| + 1 == |bits| { assert Hash(bits, 0, r) == []; }
  }

  /** No output asked for: every vector will do. */
  lemma NoOutput(bits: Bits)
    requires bits != []
    ensures |Solutions(bits, [])| == Pow2(|bits| - 1)
  {
    var n := |bits| - 1;
    SameSets(Solutions(bits, []), Vectors(n)) by {
      forall r: Bits ensures r in Solutions(bits, []) <==> r in Vectors(n) {
        NoOutputSolution(bits, r);
        VectorsAreAll(n, r);
      }
    }
    VectorsCount(n);
  }

  lemma SameSets(a: set<Bits>, b: set<Bits>)
    requires forall r: Bits :: r in a <==> r in b
    ensures a == b
  {
  }

  /** Exact universality: a non-zero input of n bits is hashed to any given output by exactly 2^(n-1)
      of the 2^(n + outLen - 1) random vectors (`VectorsCount`). */
  lemma {:induction false} ExactlyUniversal(bits: Bits, out: Bits)
    requires true in bits
    ensures |Solutions(bits, out)| == Pow2(|bits| - 1)
    decreases |bits| + |out|
  {
    var n := |bits| - 1;
    if !bits[n] {
      assert bits == bits[..n] + [bits[n]];
      ExactlyUniversal(bits[..n], out);
      TrailingZero(bits, out);
    } else if out == [] {
      NoOutput(bits);
    } else {
      var m := |out| - 1;
      assert out == out[..m] + [out[m]];
      ExactlyUniversal(bits, out[..m]);
      OneMoreOutput(bits, out[..m], out[m]);
    }
  }

  /** The random vectors under which the hashes of `a` and `b` differ by `diff`. */
  function Shifting(a: Bits, b: Bits, diff: Bits): set<Bits>
    requires |a| == |b| && a != []
  {
    set r | r in Vectors(|a| + |diff| - 1) && Differ(a, b, diff, r)
  }

  predicate Differ(a: Bits, b: Bits, diff: Bits, r: Bits)
    requires |a| == |b|
  {
    |r| + 1 == |a| + |diff| && Sum(Hash(a, |diff|, r), Hash(b, |diff|, r)) == diff
  }

  lemma ShiftSolves(a: Bits, b: Bits, diff: Bits, r: Bits)
    requires |a| == |b| && a != []
    ensures r in Shifting(a, b, diff) <==> r in Solutions(Sum(a, b), diff)
  {
    SolutionsAre(Sum(a, b), diff, r);
    EveryVector(r);
    if |r| + 1 == |a| + |diff| { HashIsLinear(a, b, |diff|, r); }
  }

  /** Two different inputs differ after hashing by any given amount, zero included, with the same
      number of random vectors: the family is xor-universal. */
  lemma XorUniversal(a: Bits, b: Bits, diff: Bits)
    requires |a| == |b| && a != b
    ensures |Shifting(a, b, diff)| == Pow2(|a| - 1)
  {
    var i :| 0 <= i < |a| && a[i] != b[i];
    assert Sum(a, b)[i];
    ExactlyUniversal(Sum(a, b), diff);
    forall r: Bits ensures r in Shifting(a, b, diff) <==> r in Solutions(Sum(a, b), diff) {
      ShiftSolves(a, b, diff, r);
    }
    assert Shifting(a, b, diff) == Solutions(Sum(a, b), diff);
  }
}
