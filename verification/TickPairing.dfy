/** Pairing of interval boundaries in scripts/ppk_race_report.py: `_nearest` and `pair_ticks`. */
module TickPairing {

  const TICK_PAIRING_FRACTION := 0.5

  predicate Sorted(times: seq<int>) {
    forall i, j :: 0 <= i < j < |times| ==> times[i] <= times[j]
  }

  function Distance(x: int, y: int): nat { if x < y then y - x else x - y }

  /** `bisect.bisect_left`: how many entries of a sorted list are before `t`. */
  function Bisect(times: seq<int>, t: int): (k: nat)
    ensures k <= |times|
  {
    if times == [] || times[|times| - 1] < t then |times| else Bisect(times[..|times| - 1], t)
  }

  lemma {:induction false} BisectSplits(times: seq<int>, t: int)
    requires Sorted(times)
    ensures forall i :: 0 <= i < |times| ==> (times[i] < t <==> i < Bisect(times, t))
  {
    if times != [] && times[|times| - 1] >= t {
      var rest := times[..|times| - 1];
      BisectSplits(rest, t);
      assert forall i :: 0 <= i < |rest| ==> times[i] == rest[i];
    }
  }

  /** Two candidates, the earlier one on a tie; |times| when the list is empty. */
  function Nearest(times: seq<int>, t: int): (i: nat)
    ensures times != [] ==> i < |times|
    ensures times == [] ==> i == 0
  {
    var k := Bisect(times, t);
    if k == 0 then 0
    else if k == |times| then k - 1
    else if Distance(times[k - 1], t) <= Distance(times[k], t) then k - 1 else k
  }

  predicate IsNearest(times: seq<int>, t: int, i: nat) {
    i < |times| && forall k :: 0 <= k < |times| ==> Distance(times[i], t) <= Distance(times[k], t)
  }

  /** Looking at two candidates finds a nearest entry of the whole list, and the first such entry
      unless the list repeats it. */
  lemma NearestIsNearest(times: seq<int>, t: int)
    requires Sorted(times) && times != []
    ensures IsNearest(times, t, Nearest(times, t))
    ensures forall i: nat :: IsNearest(times, t, i) ==> Nearest(times, t) <= i || times[i] == times[Nearest(times, t)]
  {
    BisectSplits(times, t);
    var k, n := Bisect(times, t), Nearest(times, t);
    forall i | 0 <= i < |times| ensures Distance(times[n], t) <= Distance(times[i], t) {
      if i < k { assert times[i] <= times[k - 1] < t; } else { assert times[k] <= times[i]; }
    }
    forall i: nat | IsNearest(times, t, i) ensures n <= i || times[i] == times[n] {
      if i < n {
        assert times[i] <= times[n];
      }
    }
  }

  lemma NearestIsMonotone(times: seq<int>, t: int, u: int)
    requires Sorted(times) && times != [] && t <= u
    ensures Nearest(times, t) <= Nearest(times, u)
  {
    BisectSplits(times, t);
    BisectSplits(times, u);
    var k, l := Bisect(times, t), Bisect(times, u);
    assert l < |times| ==> times[l] >= u;
  }

  // ------------------------------------------------------------ pairs

  datatype Tick = Tick(alice: nat, bob: nat)

  /** The two entries are each other's nearest. */
  predicate Mutual(a: seq<int>, b: seq<int>, i: nat, j: nat) {
    i < |a| && j < |b| && Nearest(b, a[i]) == j && Nearest(a, b[j]) == i
  }

  predicate Close(a: seq<int>, b: seq<int>, spacing: real, i: nat, j: nat) {
    i < |a| && j < |b| && Distance(b[j], a[i]) as real < TICK_PAIRING_FRACTION * spacing
  }

  method PairTicks(a: seq<int>, b: seq<int>, spacing: real) returns (ticks: seq<Tick>)
    requires Sorted(a) && Sorted(b)
    ensures forall i: nat, j: nat :: Tick(i, j) in ticks <==> Mutual(a, b, i, j) && Close(a, b, spacing, i, j)
    ensures forall k, l :: 0 <= k < l < |ticks| ==> ticks[k].alice < ticks[l].alice && ticks[k].bob < ticks[l].bob
  {
    ticks := [];
    if b == [] {
      return;
    }
    for i := 0 to |a|
      invariant forall x: nat, j: nat :: Tick(x, j) in ticks <==>
                  x < i && Mutual(a, b, x, j) && Close(a, b, spacing, x, j)
      invariant forall k :: 0 <= k < |ticks| ==> Mutual(a, b, ticks[k].alice, ticks[k].bob) && ticks[k].alice < i
      invariant forall k, l :: 0 <= k < l < |ticks| ==> ticks[k].alice < ticks[l].alice && ticks[k].bob < ticks[l].bob
    {
      var j := Nearest(b, a[i]);
      if Distance(b[j], a[i]) as real >= TICK_PAIRING_FRACTION * spacing || Nearest(a, b[j]) != i {
        continue;
      }
      forall k | 0 <= k < |ticks| ensures ticks[k].bob < j {
        InOrder(a, b, ticks[k].alice, ticks[k].bob, i, j);
      }
      ticks := ticks + [Tick(i, j)];
    }
  }

  /** Mutual nearest pairs do not cross and share no entry. */
  lemma InOrder(a: seq<int>, b: seq<int>, i: nat, j: nat, i': nat, j': nat)
    requires Sorted(a) && Sorted(b) && Mutual(a, b, i, j) && Mutual(a, b, i', j') && i < i'
    ensures j < j'
  {
    NearestIsMonotone(b, a[i], a[i']);
  }

  /** Two entries strictly nearer to each other than to anything else are paired, whatever else the
      logs contain. */
  lemma StrictlyNearestArePaired(a: seq<int>, b: seq<int>, i: nat, j: nat)
    requires Sorted(a) && Sorted(b) && i < |a| && j < |b|
    requires forall l :: 0 <= l < |b| && l != j ==> Distance(b[j], a[i]) < Distance(b[l], a[i])
    requires forall k :: 0 <= k < |a| && k != i ==> Distance(a[i], b[j]) < Distance(a[k], b[j])
    ensures Mutual(a, b, i, j)
  {
    NearestIsNearest(b, a[i]);
    NearestIsNearest(a, b[j]);
  }
}
