/** The order in which a key pool gives its keys away, over any sequence of its operations. */
module PoolOrder {
  import opened KeyPools

  // ------------------------------------------------------------ the ring buffer

  function AdmitAll(p: Pool, capacity: nat, keys: seq<StoredKey>): Pool
    requires 0 < capacity
    decreases keys
  {
    if keys == [] then p else AdmitAll(Admit(p, capacity, keys[0]), capacity, keys[1..])
  }

  /** The last `n` entries. */
  function Last(keys: seq<StoredKey>, n: nat): seq<StoredKey> {
    if |keys| <= n then keys else keys[|keys| - n..]
  }

  lemma AdmitKeepsLast(p: Pool, capacity: nat, k: StoredKey)
    requires 0 < capacity && |p.buf| <= capacity
    ensures Admit(p, capacity, k).buf == Last(p.buf + [k], capacity)
  {
  }

  lemma LastOfLast(a: seq<StoredKey>, b: seq<StoredKey>, n: nat)
    ensures Last(Last(a, n) + b, n) == Last(a + b, n)
  {
    if |a| > n {
      var cut := |a| - n;
      assert a + b == a[..cut] + (a[cut..] + b);
    }
  }

  /** The buffer holds the newest `capacity` keys, oldest first. */
  lemma {:induction false} KeepsNewest(p: Pool, capacity: nat, keys: seq<StoredKey>)
    requires 0 < capacity && |p.buf| <= capacity
    ensures AdmitAll(p, capacity, keys).buf == Last(p.buf + keys, capacity)
    decreases keys
  {
    if keys == [] {
      assert p.buf + keys == p.buf;
    } else {
      AdmitKeepsLast(p, capacity, keys[0]);
      KeepsNewest(Admit(p, capacity, keys[0]), capacity, keys[1..]);
      LastOfLast(p.buf + [keys[0]], keys[1..], capacity);
      Assoc(p.buf, [keys[0]], keys[1..]);
      assert keys == [keys[0]] + keys[1..];
    }
  }

  // ------------------------------------------------------------ local keys and replicas

  function Replicas(buf: seq<StoredKey>): seq<StoredKey> {
    if buf == [] then []
    else (if buf[0].replicated then [buf[0]] else []) + Replicas(buf[1..])
  }

  function Own(k: StoredKey): seq<StoredKey> { if k.replicated then [] else [k] }

  lemma LocalsFrom(buf: seq<StoredKey>)
    requires buf != []
    ensures Locals(buf) == Own(buf[0]) + Locals(buf[1..])
  {
  }

  lemma Assoc(a: seq<StoredKey>, b: seq<StoredKey>, d: seq<StoredKey>)
    ensures a + b + d == a + (b + d)
  {
  }

  lemma {:induction false} LocalsOfConcat(a: seq<StoredKey>, b: seq<StoredKey>)
    ensures Locals(a + b) == Locals(a) + Locals(b)
    decreases a
  {
    if a == [] {
      assert a + b == b;
    } else {
      LocalsOfConcat(a[1..], b);
      assert (a + b)[1..] == a[1..] + b;
      LocalsFrom(a);
      LocalsFrom(a + b);
      Assoc(Own(a[0]), Locals(a[1..]), Locals(b));
    }
  }

  lemma LocalsOfOne(k: StoredKey)
    ensures Locals([k]) == Own(k)
  {
    assert [k][1..] == [];
  }

  /** Where the first local key stands: everything older is a replica. */
  lemma {:induction false} FirstLocalAt(buf: seq<StoredKey>) returns (i: nat)
    requires Locals(buf) != []
    ensures i < |buf| && buf[i] == Locals(buf)[0] && !buf[i].replicated
    ensures forall j :: 0 <= j < i ==> buf[j].replicated
    ensures Without(buf, buf[i]) == buf[..i] + buf[i + 1..]
    decreases buf
  {
    if buf[0].replicated {
      var k := FirstLocalAt(buf[1..]);
      i := k + 1;
      assert Without(buf, buf[i]) == [buf[0]] + Without(buf[1..], buf[i]);
    } else {
      i := 0;
    }
  }

  /** enc_keys hands out the oldest key that is not a replica and leaves the others where they are. */
  lemma PopsOldest(p: Pool) returns (i: nat)
    ensures PopForEnc(p).1.None? <==> forall k :: k in p.buf ==> k.replicated
    ensures PopForEnc(p).1.None? ==> PopForEnc(p).0 == p
    ensures var (q, got) := PopForEnc(p);
            got.Some? ==>
              && i < |p.buf| && got.value == p.buf[i] && !p.buf[i].replicated
              && (forall j :: 0 <= j < i ==> p.buf[j].replicated)
              && q == p.(buf := p.buf[..i] + p.buf[i + 1..])
  {
    i := 0;
    LocalsMembers(p.buf);
    if Locals(p.buf) != [] {
      i := FirstLocalAt(p.buf);
      assert Locals(p.buf)[0] in p.buf;
    } else {
      assert forall k :: k in p.buf && !k.replicated ==> k in Locals(p.buf);
    }
  }

  lemma {:induction false} ReplicasStay(buf: seq<StoredKey>, k: StoredKey)
    requires !k.replicated
    ensures Replicas(Without(buf, k)) == Replicas(buf)
    decreases buf
  {
    if buf != [] && buf[0] != k {
      ReplicasStay(buf[1..], k);
      assert Without(buf, k)[1..] == Without(buf[1..], k);
    }
  }

  lemma {:induction false} ReplicasStayAll(p: Pool, keys: seq<StoredKey>)
    requires forall k :: k in keys ==> !k.replicated
    ensures Replicas(RemoveKeys(p, keys).buf) == Replicas(p.buf)
    decreases keys
  {
    if keys != [] {
      assert keys[0] in keys;
      ReplicasStay(p.buf, keys[0]);
      var p1 := p.(buf := Without(p.buf, keys[0]), byId := p.byId - {keys[0].id});
      ReplicasStayAll(p1, keys[1..]);
    }
  }

  /** A stream takes the oldest `n` local keys; the other local keys and all replicas stay, in order. */
  lemma TakesOldest(p: Pool, low: nat, n: nat)
    ensures var (q, got) := TakeLocal(p, low, n);
            var locals := Locals(p.buf);
            && (got.Some? <==> 0 < n && n + low <= |locals|)
            && (got.None? ==> q == p)
            && (got.Some? ==>
                  got.value == locals[..n] && Locals(q.buf) == locals[n..] && Replicas(q.buf) == Replicas(p.buf))
  {
    var locals := Locals(p.buf);
    if 0 < n && n + low <= |locals| {
      LocalsMembers(p.buf);
      assert forall k :: k in locals[..n] ==> k in locals;
      LocalsAfterRemoval(p, n);
      ReplicasStayAll(p, locals[..n]);
    }
  }

  // ------------------------------------------------------------ whole runs

  datatype Op =
    | Produced(id: KeyId, bytes: seq<byte>)
    | Synced(id: KeyId, bytes: seq<byte>)
    | Issue
    | Grant(low: nat, n: nat)
    | Withdraw(ids: seq<KeyId>)

  /** The pool, the local keys given away, and the local keys that arrived. */
  datatype Trace = Trace(pool: Pool, out: seq<StoredKey>, made: seq<StoredKey>)

  function Issued(p: Pool): seq<StoredKey> {
    var (q, got) := PopForEnc(p);
    if got.Some? then [got.value] else []
  }

  function Granted(p: Pool, low: nat, n: nat): seq<StoredKey> {
    var (q, got) := TakeLocal(p, low, n);
    if got.Some? then got.value else []
  }

  function Perform(p: Pool, capacity: nat, op: Op): Trace
    requires 0 < capacity
  {
    match op
    case Produced(id, bytes) =>
      Trace(Admit(p, capacity, StoredKey(id, bytes, false)), [], [StoredKey(id, bytes, false)])
    case Synced(id, bytes) => Trace(ReceiveSynced(p, capacity, id, bytes), [], [])
    case Issue => Trace(PopForEnc(p).0, Issued(p), [])
    case Grant(low, n) => Trace(TakeLocal(p, low, n).0, Granted(p, low, n), [])
    case Withdraw(ids) => Trace(DropReplicas(p, capacity, ids), [], [])
  }

  function PerformAll(p: Pool, capacity: nat, ops: seq<Op>): Trace
    requires 0 < capacity
    decreases ops
  {
    if ops == [] then Trace(p, [], [])
    else
      var a := Perform(p, capacity, ops[0]);
      var b := PerformAll(a.pool, capacity, ops[1..]);
      Trace(b.pool, a.out + b.out, a.made + b.made)
  }

  lemma AdmitKeepsOrder(p: Pool, capacity: nat, k: StoredKey)
    requires 0 < capacity
    ensures var old_, new_ := Locals(p.buf), Locals(Admit(p, capacity, k).buf);
            new_ == old_ + Own(k) || (|p.buf| == capacity && old_ != [] && new_ == old_[1..] + Own(k))
  {
    LocalsOfOne(k);
    LocalsOfConcat(p.buf, [k]);
    if |p.buf| == capacity {
      LocalsOfConcat(p.buf[1..], [k]);
    }
  }

  /** With room in the buffer and nothing withdrawn the local keys form a queue: what is given away and
      what is left are exactly what was there and what came, in that order. */
  lemma {:induction false} IsQueue(p: Pool, capacity: nat, ops: seq<Op>)
    requires 0 < capacity && |p.buf| + |ops| <= capacity && forall o :: o in ops ==> !o.Withdraw?
    ensures var t := PerformAll(p, capacity, ops);
            t.out + Locals(t.pool.buf) == Locals(p.buf) + t.made
    decreases ops
  {
    if ops != [] {
      var a := Perform(p, capacity, ops[0]);
      assert ops[0] in ops;
      OneQueues(p, capacity, ops[0]);
      IsQueue(a.pool, capacity, ops[1..]);
      var b := PerformAll(a.pool, capacity, ops[1..]);
      QueuesJoin(Locals(p.buf), a.out, Locals(a.pool.buf), a.made, b.out, Locals(b.pool.buf), b.made);
    }
  }

  lemma QueuesJoin(before: seq<StoredKey>, out: seq<StoredKey>, mid: seq<StoredKey>, made: seq<StoredKey>,
                   out': seq<StoredKey>, end: seq<StoredKey>, made': seq<StoredKey>)
    requires out + mid == before + made && out' + end == mid + made'
    ensures out + out' + end == before + (made + made')
  {
    calc {
      out + out' + end;
      out + (out' + end);
      out + mid + made';
      before + (made + made');
    }
  }

  lemma OneQueues(p: Pool, capacity: nat, op: Op)
    requires 0 < capacity && |p.buf| < capacity && !op.Withdraw?
    ensures var t := Perform(p, capacity, op);
            t.out + Locals(t.pool.buf) == Locals(p.buf) + t.made && |t.pool.buf| <= |p.buf| + 1
  {
    NothingAfter(Locals(p.buf));
    match op
    case Produced(id, bytes) => AdmitQueues(p, capacity, StoredKey(id, bytes, false));
    case Synced(id, bytes) =>
      AdmitQueues(p, capacity, StoredKey(id, bytes, true));
      NothingBefore(Locals(p.buf));
    case Issue => IssueQueues(p);
    case Grant(low, n) =>
      GrantSplits(p, low, n);
      if 0 < n && n + low <= |Locals(p.buf)| {
        RemoveShrinks(p, Locals(p.buf)[..n]);
      }
  }

  lemma AdmitQueues(p: Pool, capacity: nat, k: StoredKey)
    requires 0 < capacity && |p.buf| < capacity
    ensures [] + Locals(Admit(p, capacity, k).buf) == Locals(p.buf) + Own(k)
  {
    AdmitKeepsOrder(p, capacity, k);
    NothingBefore(Locals(Admit(p, capacity, k).buf));
  }

  lemma IssueQueues(p: Pool)
    ensures Issued(p) + Locals(PopForEnc(p).0.buf) == Locals(p.buf)
    ensures |PopForEnc(p).0.buf| <= |p.buf|
  {
    var locals := Locals(p.buf);
    if locals == [] {
      NothingBefore(locals);
    } else {
      LocalsWithoutFirst(p.buf);
      WithoutShrinks(p.buf, locals[0]);
      SplitAt(locals, 1);
      assert locals[..1] == [locals[0]];
    }
  }

  lemma NothingAfter(a: seq<StoredKey>)
    ensures a + [] == a
  {
  }

  lemma SplitAt(a: seq<StoredKey>, n: nat)
    requires n <= |a|
    ensures a[..n] + a[n..] == a
  {
  }

  lemma NothingBefore(a: seq<StoredKey>)
    ensures [] + a == a
  {
  }

  lemma GrantSplits(p: Pool, low: nat, n: nat)
    ensures Granted(p, low, n) + Locals(TakeLocal(p, low, n).0.buf) == Locals(p.buf)
  {
    TakesOldest(p, low, n);
    var locals := Locals(p.buf);
    if 0 < n && n + low <= |locals| {
      SplitAt(locals, n);
    } else {
      NothingBefore(locals);
    }
  }

  lemma WithoutShrinks(buf: seq<StoredKey>, k: StoredKey)
    ensures |Without(buf, k)| <= |buf|
  {
  }

  lemma RemoveShrinks(p: Pool, keys: seq<StoredKey>)
    ensures |RemoveKeys(p, keys).buf| <= |p.buf|
    decreases keys
  {
    if keys != [] {
      WithoutShrinks(p.buf, keys[0]);
      RemoveShrinks(p.(buf := Without(p.buf, keys[0]), byId := p.byId - {keys[0].id}), keys[1..]);
    }
  }

  /** `a` is `b` with some entries left out. */
  predicate Within(a: seq<StoredKey>, b: seq<StoredKey>)
    decreases b
  {
    a == [] || (b != [] && ((a[0] == b[0] && Within(a[1..], b[1..])) || Within(a, b[1..])))
  }

  lemma {:induction false} WithinSelf(a: seq<StoredKey>)
    ensures Within(a, a)
    decreases a
  {
    if a != [] { WithinSelf(a[1..]); }
  }

  lemma {:induction false} WithinExtends(a: seq<StoredKey>, b: seq<StoredKey>, x: seq<StoredKey>)
    requires Within(a, b)
    ensures Within(a + x, b + x)
    decreases b
  {
    if b == [] {
      assert a + x == x && b + x == x;
      WithinSelf(x);
    } else {
      assert (b + x)[1..] == b[1..] + x;
      if a != [] && a[0] == b[0] && Within(a[1..], b[1..]) {
        assert (a + x)[1..] == a[1..] + x;
        WithinExtends(a[1..], b[1..], x);
      } else {
        WithinExtends(a, b[1..], x);
        WithinMore(a + x, b[1..] + x, b[0]);
        assert b + x == [b[0]] + (b[1..] + x);
      }
    }
  }

  lemma WithinMore(a: seq<StoredKey>, b: seq<StoredKey>, k: StoredKey)
    requires Within(a, b)
    ensures Within(a, [k] + b)
  {
    assert ([k] + b)[1..] == b;
  }

  lemma {:induction false} WithinFollows(x: seq<StoredKey>, a: seq<StoredKey>, b: seq<StoredKey>)
    requires Within(a, b)
    ensures Within(x + a, x + b)
    decreases x
  {
    if x == [] {
      assert x + a == a && x + b == b;
    } else {
      WithinFollows(x[1..], a, b);
      assert (x + a)[1..] == x[1..] + a && (x + b)[1..] == x[1..] + b;
    }
  }

  lemma {:induction false} WithinChains(a: seq<StoredKey>, b: seq<StoredKey>, d: seq<StoredKey>)
    requires Within(a, b) && Within(b, d)
    ensures Within(a, d)
    decreases d
  {
    if a != [] {
      if b[0] == d[0] && Within(b[1..], d[1..]) {
        if a[0] == b[0] && Within(a[1..], b[1..]) {
          WithinChains(a[1..], b[1..], d[1..]);
        } else {
          WithinChains(a, b[1..], d[1..]);
        }
      } else {
        WithinChains(a, b, d[1..]);
      }
    }
  }

  lemma {:induction false} WithoutIsWithin(buf: seq<StoredKey>, k: StoredKey)
    ensures Within(Locals(Without(buf, k)), Locals(buf))
    decreases buf
  {
    if buf != [] {
      var rest := Locals(buf[1..]);
      LocalsFrom(buf);
      if buf[0] == k {
        WithinSelf(rest);
        OwnMore(k, rest);
      } else {
        WithoutIsWithin(buf[1..], k);
        LocalsFrom(Without(buf, k));
        assert Without(buf, k)[1..] == Without(buf[1..], k);
        WithinFollows(Own(buf[0]), Locals(Without(buf[1..], k)), rest);
      }
    }
  }

  lemma OwnMore(k: StoredKey, b: seq<StoredKey>)
    ensures Within(b, Own(k) + b)
  {
    WithinSelf(b);
    if k.replicated {
      assert Own(k) + b == b;
    } else {
      WithinMore(b, b, k);
    }
  }

  lemma {:induction false} DropIsWithin(p: Pool, ids: seq<KeyId>)
    ensures Within(Locals(DropEach(p, ids).buf), Locals(p.buf))
    decreases ids
  {
    if ids == [] {
      WithinSelf(Locals(p.buf));
    } else {
      var q := DropOne(p, ids[0]);
      if ids[0] in p.byId && p.byId[ids[0]] in p.buf {
        WithoutIsWithin(p.buf, p.byId[ids[0]]);
      } else {
        WithinSelf(Locals(p.buf));
      }
      DropIsWithin(q, ids[1..]);
      WithinChains(Locals(DropEach(q, ids[1..]).buf), Locals(q.buf), Locals(p.buf));
    }
  }

  lemma OneKeepsOrder(p: Pool, capacity: nat, op: Op)
    requires 0 < capacity
    ensures var t := Perform(p, capacity, op); Within(t.out + Locals(t.pool.buf), Locals(p.buf) + t.made)
  {
    match op
    case Produced(id, bytes) => ArrivalKeepsOrder(p, capacity, StoredKey(id, bytes, false));
    case Synced(id, bytes) => SyncKeepsOrder(p, capacity, id, bytes);
    case Issue => IssueKeepsOrder(p);
    case Grant(low, n) => GrantKeepsOrder(p, low, n);
    case Withdraw(ids) =>
      DropIsWithin(p, ids);
      NothingAdded(Locals(DropReplicas(p, capacity, ids).buf), Locals(p.buf));
  }

  lemma NothingAdded(a: seq<StoredKey>, b: seq<StoredKey>)
    requires Within(a, b)
    ensures Within([] + a, b + [])
  {
    assert [] + a == a && b + [] == b;
  }

  lemma WholeKept(out: seq<StoredKey>, after: seq<StoredKey>, before: seq<StoredKey>)
    requires out + after == before
    ensures Within(out + after, before + [])
  {
    WithinSelf(before);
    assert before + [] == before;
  }

  lemma IssueKeepsOrder(p: Pool)
    ensures Within(Issued(p) + Locals(PopForEnc(p).0.buf), Locals(p.buf) + [])
  {
    IssueQueues(p);
    WholeKept(Issued(p), Locals(PopForEnc(p).0.buf), Locals(p.buf));
  }

  lemma GrantKeepsOrder(p: Pool, low: nat, n: nat)
    ensures Within(Granted(p, low, n) + Locals(TakeLocal(p, low, n).0.buf), Locals(p.buf) + [])
  {
    GrantSplits(p, low, n);
    WholeKept(Granted(p, low, n), Locals(TakeLocal(p, low, n).0.buf), Locals(p.buf));
  }

  lemma SyncKeepsOrder(p: Pool, capacity: nat, id: KeyId, bytes: seq<byte>)
    requires 0 < capacity
    ensures Within([] + Locals(ReceiveSynced(p, capacity, id, bytes).buf), Locals(p.buf) + [])
  {
    WholeKept([], Locals(p.buf), Locals(p.buf));
    if id !in p.byId && id !in p.withdrawn {
      ArrivalKeepsOrder(p, capacity, StoredKey(id, bytes, true));
    }
  }

  lemma ArrivalKeepsOrder(p: Pool, capacity: nat, k: StoredKey)
    requires 0 < capacity
    ensures Within([] + Locals(Admit(p, capacity, k).buf), Locals(p.buf) + Own(k))
  {
    var before, after := Locals(p.buf), Locals(Admit(p, capacity, k).buf);
    AdmitKeepsOrder(p, capacity, k);
    assert [] + after == after;
    WithinSelf(before + Own(k));
    if after != before + Own(k) {
      WithinSelf(before[1..] + Own(k));
      WithinMore(before[1..] + Own(k), before[1..] + Own(k), before[0]);
      Assoc([before[0]], before[1..], Own(k));
      assert [before[0]] + before[1..] == before;
    }
  }

  /** Over any operations: keys are given away in the order in which they were produced, and those still
      held are newer than all of them. */
  lemma {:induction false} OldestFirst(p: Pool, capacity: nat, ops: seq<Op>)
    requires 0 < capacity
    ensures var t := PerformAll(p, capacity, ops); Within(t.out + Locals(t.pool.buf), Locals(p.buf) + t.made)
    decreases ops
  {
    if ops == [] {
      WithinSelf(Locals(p.buf));
      assert [] + Locals(p.buf) == Locals(p.buf) && Locals(p.buf) + [] == Locals(p.buf);
    } else {
      var a := Perform(p, capacity, ops[0]);
      var b := PerformAll(a.pool, capacity, ops[1..]);
      OneKeepsOrder(p, capacity, ops[0]);
      OldestFirst(a.pool, capacity, ops[1..]);
      OrdersJoin(Locals(p.buf), a.out, Locals(a.pool.buf), a.made, b.out, Locals(b.pool.buf), b.made);
    }
  }

  lemma OrdersJoin(before: seq<StoredKey>, out: seq<StoredKey>, mid: seq<StoredKey>, made: seq<StoredKey>,
                   out': seq<StoredKey>, end: seq<StoredKey>, made': seq<StoredKey>)
    requires Within(out + mid, before + made) && Within(out' + end, mid + made')
    ensures Within(out + out' + end, before + (made + made'))
  {
    WithinFollows(out, out' + end, mid + made');
    WithinExtends(out + mid, before + made, made');
    Assoc(out, mid, made');
    Assoc(out, out', end);
    Assoc(before, made, made');
    WithinChains(out + (out' + end), out + mid + made', before + made + made');
  }
}
