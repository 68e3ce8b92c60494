/** Delivery, sizes and key separation in every reachable state of the two KMEs. */
module Guarantees {
  import opened KeyPools
  import opened KeyStreams
  import opened Protocol
  import opened ProtocolInvariant
  import opened Creation
  import opened Agreement

  // ------------------------------------------------------------ delivery

  /** As long as copies agree, the allocator hands out an index of a Key_stream_ID at most once over
      all records it ever kept, holds nothing that it has handed out, and hands out only what the
      other side has stored, byte for byte. */
  lemma DeliveryDiscipline(c: Config, s: Sys)
    requires ConfigOk(c) && Reachable(c, s) && Agreed(s)
    ensures forall j, k :: 0 <= j < k < |s.lo.log| ==>
              s.lo.log[j].key.ksid != s.lo.log[k].key.ksid || s.lo.log[j].key.index != s.lo.log[k].key.index
    ensures forall r, i :: r in s.lo.objs && i in s.lo.objs[r].chunks ==> i !in s.lo.objs[r].delivered
    ensures forall d :: d in s.lo.log ==> d.key in s.stored
  {
    ReachableInv(c, s);
    AgreedIffSingle(c, s);
    assert OncePerRecord(s.lo.log) && StoresApart(s.lo.objs);
    var log := s.lo.log;
    forall j, k | 0 <= j < k < |log|
      ensures log[j].key.ksid != log[k].key.ksid || log[j].key.index != log[k].key.index
    {
      assert log[j] in log && log[k] in log;
      assert OwnedBy(log[j].key, s.allocs, log[j].ref) && OwnedBy(log[k].key, s.allocs, log[k].ref);
    }
  }

  /** The other side's store keeps that discipline whatever the allocator did. */
  lemma HigherDeliversOnce(c: Config, s: Sys)
    requires ConfigOk(c) && Reachable(c, s)
    ensures OncePerRecord(s.hi.log) && StoresApart(s.hi.objs)
    ensures forall d :: d in s.hi.log ==> d.key in s.stored
  {
    ReachableInv(c, s);
  }

  lemma {:induction false} DataLength(c: Config, ids: seq<KeyId>, produced: map<KeyId, Origin>)
    requires AllSized(c, produced) && forall x :: x in ids ==> x in produced
    ensures |DataOf(ids, produced)| == |ids| * c.keyBytes
  {
    if ids != [] {
      assert ids[0] in ids;
      DataLength(c, ids[1..], produced);
      OneMore(|ids[1..]|, c.keyBytes);
    }
  }

  lemma OneMore(n: nat, k: nat)
    ensures (n + 1) * k == k + n * k
  {
  }

  /** Every copy of a chunk, anywhere, is made of exactly Key_chunk_size bytes of distinct keys of
      the allocator, at an index its record has passed. */
  lemma ChunkShape(c: Config, s: Sys, a: Alloc)
    requires ConfigOk(c) && Reachable(c, s) && IsCopy(s, a)
    ensures exists r :: r in s.lo.objs && s.lo.objs[r].ksid == a.ksid
                        && a.index < s.lo.objs[r].nextAlloc && |a.data| == s.lo.objs[r].size
    ensures NoDup(a.ids) && forall x :: x in a.ids ==> x in s.produced && s.produced[x].side == Lower
    ensures a.data == DataOf(a.ids, s.produced)
  {
    ReachableInv(c, s);
    CopiesAreAllocs(c, s, a);
    assert MadeOf(a, s.produced);
    DataLength(c, a.ids, s.produced);
    var r := s.allocs[a];
    var size := s.lo.objs[r].size;
    WholeKeys(size, c.keyBytes);
    assert r in s.lo.objs && s.lo.objs[r].ksid == a.ksid && a.index < s.lo.objs[r].nextAlloc;
  }

  lemma WholeKeys(size: nat, keyBytes: nat)
    requires 0 < keyBytes && size % keyBytes == 0
    ensures size / keyBytes * keyBytes == size
  {
  }

  // ------------------------------------------------------------ 004 and 014 apart

  ghost predicate DropWaiting(hi: Node, a: Alloc) {
    exists t :: t in hi.tasks && t.AwaitDrop? && t.push == a
  }

  /** No key is in two chunks, in a chunk and handed out by enc_keys on either side, or in a chunk
      and resolvable on the allocator. */
  lemma KeysServeOnePurpose(c: Config, s: Sys, a: Alloc, x: KeyId)
    requires ConfigOk(c) && Reachable(c, s) && a in s.allocs && x in a.ids
    ensures x !in s.lo.issued && x !in s.hi.issued && x !in s.lo.pool.byId
    ensures forall b :: b in s.allocs && x in b.ids ==> b == a
  {
    ReachableInv(c, s);
    assert MadeOf(a, s.produced);
  }

  /** On the other side the keys of a stored chunk are resolvable through dec_keys only while the
      withdrawal still waits for the pool lock, or after `capacity` newer ids were withdrawn;
      whether the replica came before or after the chunk. */
  lemma StoredKeysWithdrawn(c: Config, s: Sys, a: Alloc, x: KeyId)
    requires ConfigOk(c) && Reachable(c, s) && a in s.stored && x in a.ids
    ensures x in s.hi.pool.byId ==>
              DropWaiting(s.hi, a) || exists i: nat :: i + c.capacity < |s.hi.history| && s.hi.history[i] == x
    ensures var h := s.hi.history;
            forall i, j :: 0 <= i < j < |h| && |h| <= i + c.capacity ==> h[i] != h[j]
  {
    ReachableInv(c, s);
    assert Withdrawing(s.hi.history, s.hi.tasks, a);
    LastDiffer(s.hi.history, c.capacity);
    if x in s.hi.history && x !in Newest(s.hi.history, c.capacity) {
      FollowedBy(s.hi.history, c.capacity, x);
    }
  }

  lemma LastDiffer(h: seq<KeyId>, capacity: nat)
    requires NoDup(Newest(h, capacity))
    ensures forall i, j :: 0 <= i < j < |h| && |h| <= i + capacity ==> h[i] != h[j]
  {
    var last := Newest(h, capacity);
    forall i, j | 0 <= i < j < |h| && |h| <= i + capacity ensures h[i] != h[j] {
      assert h[i] == last[i - (|h| - |last|)] && h[j] == last[j - (|h| - |last|)];
    }
  }

  lemma FollowedBy(h: seq<KeyId>, capacity: nat, x: KeyId)
    requires x in h && x !in Newest(h, capacity)
    ensures exists i: nat :: i + capacity < |h| && h[i] == x
  {
    var i: nat :| i < |h| && h[i] == x;
  }

  /** An acknowledged push was stored, so `StoredKeysWithdrawn` speaks of it. */
  lemma AcknowledgedIsStored(c: Config, s: Sys, tag: nat, push: Alloc)
    requires ConfigOk(c) && Reachable(c, s) && Agreed(s) && PushAck(tag, push) in s.sent
    ensures push in s.stored
  {
    ReachableInv(c, s);
    AgreedIffSingle(c, s);
  }

  /** enc_keys hands out a key id at most once over both KMEs, and only on its producer;
      dec_keys on either KME answers with the bytes the key was produced with, or not at all. */
  lemma SingleMaster(c: Config, s: Sys)
    requires ConfigOk(c) && Reachable(c, s)
    ensures NoDup(s.lo.issued + s.hi.issued)
    ensures forall side, x :: x in At(s, side).issued ==> x in s.produced && s.produced[x].side == side
    ensures forall side, x :: x in At(s, side).pool.byId ==>
              x in s.produced && At(s, side).pool.byId[x].id == x
              && At(s, side).pool.byId[x].bytes == s.produced[x].bytes
  {
    ReachableInv(c, s);
    forall i, j | 0 <= i < |s.lo.issued| <= j < |s.lo.issued| + |s.hi.issued|
      ensures (s.lo.issued + s.hi.issued)[i] != (s.lo.issued + s.hi.issued)[j]
    {
      assert s.lo.issued[i] in s.lo.issued && s.hi.issued[j - |s.lo.issued|] in s.hi.issued;
    }
  }

  /** The id index holds the buffered keys and every key enc_keys ever handed out: it grows with
      use, whatever the capacity of the ring buffer. */
  lemma IndexSize(c: Config, s: Sys, side: Side)
    requires ConfigOk(c) && Reachable(c, s)
    ensures |At(s, side).pool.byId| == |At(s, side).pool.buf| + |At(s, side).issued|
    ensures |At(s, side).pool.buf| <= c.capacity
  {
    ReachableInv(c, s);
    var n := At(s, side);
    IndexAccounting(n.pool, c.capacity, Outstanding(n.issued));
    DistinctCount(n.issued);
  }

  lemma DistinctCount(ids: seq<KeyId>)
    requires NoDup(ids)
    ensures |Outstanding(ids)| == |ids|
  {
    if ids != [] {
      var rest := ids[1..];
      assert ids == [ids[0]] + rest;
      DistinctCount(rest);
      assert Outstanding(ids) == {ids[0]} + Outstanding(rest);
      forall j | 0 <= j < |rest| ensures rest[j] != ids[0] {
        assert rest[j] == ids[j + 1];
      }
    }
  }
}
