/** Which credentials a restarted key writer adopts and which it unloads: the loop of `reconcile`,
    and the choice of `newestSAID`, in services/arnika-vici/repositories/swanvici/vici.go. */
module Adoption {
  import opened Numerals

  /** The id of generation `n`. */
  function Id(prefix: string, n: nat): string { prefix + "-" + Format(n) }

  predicate StartsWith(s: string, p: string) { p <= s }

  /** The generation an id stands for, if this adapter could have created it. */
  function GenOf(prefix: string, id: string): (r: Parsed)
    ensures r.Number? ==> 0 <= r.n < UINT64
  {
    var p := prefix + "-";
    if StartsWith(id, p) then ParseUint(id[|p|..]) else Bad
  }

  predicate Owned(prefix: string, id: string) { GenOf(prefix, id).Number? }

  /** The ids of this adapter: the prefix, a dash and a number of 64 bits. */
  lemma OwnedMeans(prefix: string, id: string)
    ensures Owned(prefix, id) <==>
              exists digits: string :: id == prefix + "-" + digits && Digits(digits) && Value(digits) < UINT64
  {
    var p := prefix + "-";
    if Owned(prefix, id) {
      assert id == p + id[|p|..];
    }
    if digits: string :| id == p + digits && Digits(digits) && Value(digits) < UINT64 {
      assert id[|p|..] == digits;
    }
  }

  lemma GenOfId(prefix: string, n: nat)
    requires n < UINT64
    ensures GenOf(prefix, Id(prefix, n)) == Number(n)
  {
    var p := prefix + "-";
    FormatRoundTrip(n);
    assert Id(prefix, n)[..|p|] == p && Id(prefix, n)[|p|..] == Format(n);
  }

  type Uint64 = n: int | 0 <= n < UINT64

  datatype Choice = Choice(newest: string, gen: Uint64, stale: seq<string>)

  /** The loop of `reconcile` over the ids charon lists. */
  function Sort(prefix: string, ids: seq<string>): (c: Choice) {
    if ids == [] then Choice("", 0, [])
    else
      var c, id := Sort(prefix, ids[..|ids| - 1]), ids[|ids| - 1];
      match GenOf(prefix, id)
      case Bad => c
      case Number(gen) =>
        if gen > c.gen then Choice(id, gen, if c.newest != "" then c.stale + [c.newest] else c.stale)
        else c.(stale := c.stale + [id])
  }

  method Reconcile(prefix: string, ids: seq<string>) returns (newest: string, newestGen: Uint64, stale: seq<string>)
    ensures Choice(newest, newestGen, stale) == Sort(prefix, ids)
  {
    newest, newestGen, stale := "", 0, [];
    for i := 0 to |ids|
      invariant Choice(newest, newestGen, stale) == Sort(prefix, ids[..i])
    {
      assert ids[..i + 1][..i] == ids[..i];
      match GenOf(prefix, ids[i]) {
        case Bad =>
        case Number(gen) =>
          if gen > newestGen {
            if newest != "" {
              stale := stale + [newest];
            }
            newest, newestGen := ids[i], gen;
          } else {
            stale := stale + [ids[i]];
          }
      }
    }
    assert ids[..|ids|] == ids;
  }

  /** The owned ids of a list, in order. */
  function OwnedOf(prefix: string, ids: seq<string>): seq<string> {
    if ids == [] then []
    else OwnedOf(prefix, ids[..|ids| - 1]) + if Owned(prefix, ids[|ids| - 1]) then [ids[|ids| - 1]] else []
  }

  /** The adopted credential has the largest generation of all; only generation 0 is never adopted. */
  lemma {:induction false} AdoptsLargest(prefix: string, ids: seq<string>)
    ensures var c := Sort(prefix, ids);
            && (c.newest == "" <==> forall id :: id in ids && Owned(prefix, id) ==> GenOf(prefix, id).n == 0)
            && (c.newest == "" ==> c.gen == 0)
            && (c.newest != "" ==> c.newest in ids && GenOf(prefix, c.newest) == Number(c.gen) && c.gen >= 1)
            && (forall id :: id in ids && Owned(prefix, id) ==> GenOf(prefix, id).n <= c.gen)
  {
    if ids != [] {
      var rest, id := ids[..|ids| - 1], ids[|ids| - 1];
      AdoptsLargest(prefix, rest);
      assert ids == rest + [id];
      EmptyIsNotOwned(prefix);
    }
  }

  /** Every other owned id is in the list to unload exactly as often as charon listed it, and
      nothing else is. */
  lemma {:induction false} UnloadsTheRest(prefix: string, ids: seq<string>)
    ensures var c := Sort(prefix, ids);
            multiset(c.stale) + (if c.newest != "" then multiset{c.newest} else multiset{})
            == multiset(OwnedOf(prefix, ids))
  {
    if ids != [] {
      var rest, id := ids[..|ids| - 1], ids[|ids| - 1];
      UnloadsTheRest(prefix, rest);
      AdoptsLargest(prefix, rest);
      EmptyIsNotOwned(prefix);
    }
  }

  lemma {:induction false} StaleIsOwned(prefix: string, ids: seq<string>)
    ensures var c := Sort(prefix, ids);
            (c.newest != "" ==> Owned(prefix, c.newest)) && forall x :: x in c.stale ==> Owned(prefix, x)
  {
    if ids != [] {
      StaleIsOwned(prefix, ids[..|ids| - 1]);
    }
  }

  lemma EmptyIsNotOwned(prefix: string)
    ensures !Owned(prefix, "")
  {
  }

  /** The id formed next is not the adopted one, wrap-around included. */
  lemma NextIsNew(prefix: string, ids: seq<string>)
    ensures var c := Sort(prefix, ids); c.newest != "" ==> Id(prefix, Successor(c.gen)) != c.newest
  {
    AdoptsLargest(prefix, ids);
    GenOfId(prefix, Successor(Sort(prefix, ids).gen));
  }

  // ------------------------------------------------------------ the newest SA

  /** The largest number among the ids; the first id if none is a number from 0 on. */
  ghost predicate Newest(ids: seq<string>, best: string)
    requires ids != []
  {
    && best in ids
    && ((forall id :: id in ids && Atoi(id).Number? ==> Atoi(id).n < 0) ==> best == ids[0])
    && ((exists id :: id in ids && Atoi(id).Number? && Atoi(id).n >= 0) ==>
          Atoi(best).Number? && forall id :: id in ids && Atoi(id).Number? ==> Atoi(id).n <= Atoi(best).n)
  }

  /** Of ids that are plain numbers the choice is the largest. */
  lemma NewestOfNumbers(numbers: seq<nat>, ids: seq<string>, best: string) returns (k: nat)
    requires |numbers| == |ids| > 0 && Newest(ids, best)
    requires forall i :: 0 <= i < |ids| ==> numbers[i] < INT64 && ids[i] == Format(numbers[i])
    ensures k < |ids| && best == Format(numbers[k]) && forall i :: 0 <= i < |ids| ==> numbers[i] <= numbers[k]
  {
    forall i | 0 <= i < |ids| ensures Atoi(ids[i]) == Number(numbers[i]) {
      ParsedNumerals(numbers[i]);
    }
    assert ids[0] in ids && Atoi(ids[0]).n >= 0;
    k :| 0 <= k < |ids| && ids[k] == best;
    forall i | 0 <= i < |ids| ensures numbers[i] <= numbers[k] {
      assert ids[i] in ids;
    }
  }

  method NewestSAID(ids: seq<string>) returns (best: string)
    requires ids != []
    ensures Newest(ids, best)
  {
    best := ids[0];
    var bestN := -1;
    for i := 0 to |ids|
      invariant best in ids && bestN >= -1
      invariant bestN == -1 ==> best == ids[0]
      invariant bestN >= 0 ==> Atoi(best) == Number(bestN)
      invariant forall k :: 0 <= k < i && Atoi(ids[k]).Number? ==> Atoi(ids[k]).n <= bestN
    {
      match Atoi(ids[i]) {
        case Bad =>
        case Number(n) =>
          if n > bestN {
            best, bestN := ids[i], n;
          }
      }
    }
  }
}
