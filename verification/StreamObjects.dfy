/** `Chunk` and `Stream` of services/bb84-kme/app/etsi004_engine.py as the objects they are.

    Each method is proved to do to the record what the functions of `KeyStreams` do to its value,
    and to leave every buffer that drops out of the record zeroed. */
module StreamObjects {
  import opened KeyPools
  import V = KeyStreams

  class Chunk {
    const ids: seq<KeyId>
    const data: array<byte>
    const createdAt: int
    var confirmed: bool

    constructor (ids: seq<KeyId>, bytes: seq<byte>, createdAt: int, confirmed: bool)
      ensures fresh(data) && Value() == V.Chunk(ids, bytes, confirmed, createdAt)
    {
      this.ids, this.createdAt, this.confirmed := ids, createdAt, confirmed;
      data := new byte[|bytes|](k requires 0 <= k < |bytes| => bytes[k]);
      new;
      assert data[..] == bytes;
    }

    ghost function Value(): V.Chunk
      reads this, data
    {
      V.Chunk(ids, data[..], confirmed, createdAt)
    }

    ghost predicate Wiped()
      reads data
    {
      forall k :: 0 <= k < data.Length ==> data[k] == 0
    }

    method Erase()
      modifies data
      ensures Wiped()
    {
      for i := 0 to data.Length
        invariant forall k :: 0 <= k < i ==> data[k] == 0
      {
        data[i] := 0;
      }
    }
  }

  /** No two entries share a buffer, so none share a chunk. */
  ghost predicate Separate(chunks: map<nat, Chunk>) {
    forall i, j :: i in chunks && j in chunks && chunks[i].data == chunks[j].data ==> i == j
  }

  ghost function Buffers(chunks: map<nat, Chunk>): set<object> {
    set i | i in chunks :: chunks[i].data
  }

  ghost function Owned(chunks: map<nat, Chunk>): set<object> {
    (set i | i in chunks :: chunks[i]) + Buffers(chunks)
  }

  class Stream {
    const ksid: V.Ksid
    const apps: V.Apps
    const size: nat
    const ttl: int
    var localOpen: bool
    var peerOpen: bool
    var localClosed: bool
    var peerClosed: bool
    var state: V.StreamState
    var chunks: map<nat, Chunk>
    var delivered: set<nat>
    var nextAlloc: nat
    var lastActivity: int
    var closedAt: Option<int>

    ghost predicate Valid()
      reads this
    {
      Separate(chunks)
    }

    ghost function Chunks(): map<nat, V.Chunk>
      reads this, Owned(chunks)
    {
      map i | i in chunks :: chunks[i].Value()
    }

    ghost function Value(): V.Stream
      reads this, Owned(chunks)
    {
      V.Stream(ksid, apps, size, ttl, localOpen, peerOpen, localClosed, peerClosed, state,
               Chunks(), delivered, nextAlloc, lastActivity, closedAt)
    }

    constructor (ksid: V.Ksid, apps: V.Apps, size: nat, ttl: int, here: bool, now: int)
      ensures Valid() && chunks == map[] && Value() == V.NewStream(ksid, apps, size, ttl, here, now)
    {
      this.ksid, this.apps, this.size, this.ttl := ksid, apps, size, ttl;
      localOpen, peerOpen, localClosed, peerClosed := here, !here, false, false;
      state, chunks, delivered, nextAlloc := V.PendingPeer, map[], {}, 0;
      lastActivity, closedAt := now, None;
    }

    /** `_next_undelivered`: counts up past the delivered indices. */
    method NextUndelivered() returns (i: nat)
      ensures i == V.NextUndelivered(delivered)
    {
      i := 0;
      ghost var ahead := delivered;
      while i in delivered
        invariant ahead <= delivered
        invariant forall j: nat :: j < i ==> j in delivered
        invariant forall j: nat :: j >= i && j in delivered ==> j in ahead
        decreases |ahead|
      {
        ahead := ahead - {i};
        i := i + 1;
      }
    }

    /** `c.erase(); del chunks[i]` */
    method Discard(i: nat)
      requires Valid() && i in chunks
      modifies this`chunks, chunks[i].data
      ensures Valid() && chunks == old(chunks) - {i}
      ensures Value() == old(Value()).(chunks := old(Chunks()) - {i})
      ensures old(chunks[i]).Wiped()
    {
      chunks[i].Erase();
      chunks := chunks - {i};
      assert Chunks() == old(Chunks()) - {i};
    }

    /** The end of get_key: the bytes go out, the buffer is zeroed, the index is spent. */
    method Deliver(i: nat) returns (key: seq<byte>)
      requires Valid() && i in chunks
      modifies this`chunks, this`delivered, chunks[i].data
      ensures Valid() && chunks == old(chunks) - {i} && Value() == V.Deliver(old(Value()), i)
      ensures key == old(chunks[i].data[..]) && old(chunks[i]).Wiped()
    {
      key := chunks[i].data[..];
      Discard(i);
      delivered := delivered + {i};
    }

    /** `wipe`: every buffer is zeroed, then the store is cleared. */
    method Wipe()
      requires Valid()
      modifies this`chunks, Buffers(chunks)
      ensures chunks == map[] && forall i :: i in old(chunks) ==> old(chunks)[i].Wiped()
    {
      var left := chunks.Keys;
      while left != {}
        invariant left <= chunks.Keys && chunks == old(chunks)
        invariant forall i :: i in chunks && i !in left ==> chunks[i].Wiped()
      {
        var i :| i in left;
        chunks[i].Erase();
        left := left - {i};
      }
      chunks := map[];
    }

    method ToClosed(now: int)
      requires Valid()
      modifies this`chunks, this`state, this`closedAt, Buffers(chunks)
      ensures Valid() && chunks == map[] && Value() == V.ToClosed(old(Value()), now)
      ensures forall i :: i in old(chunks) ==> old(chunks)[i].Wiped()
    {
      Wipe();
      state := V.Closed;
      closedAt := Some(now);
    }

    method DropIfOld(i: nat, now: int)
      requires Valid() && i in chunks
      modifies this`chunks, chunks[i].data
      ensures now - old(chunks[i]).createdAt >= ttl ==> chunks == old(chunks) - {i} && old(chunks[i]).Wiped()
      ensures now - old(chunks[i]).createdAt < ttl ==> chunks == old(chunks) && unchanged(old(chunks[i].data))
    {
      if now - chunks[i].createdAt >= ttl {
        chunks[i].Erase();
        chunks := chunks - {i};
      }
    }

    /** The inner loop of sweep: deletes from the store while walking a copy of its items. */
    method Expire(now: int)
      requires Valid()
      modifies this`chunks, Buffers(chunks)
      ensures Valid() && Value() == V.ExpireChunks(old(Value()), now)
      ensures ClearedTo(old(chunks), chunks)
    {
      DropOld(now);
      OnlyYoungLeft(now);
    }

    twostate lemma OnlyYoungLeft(now: int)
      requires KeptSome(old(chunks), chunks)
      requires forall i :: i in chunks ==> unchanged(chunks[i].data) && unchanged(chunks[i])
      requires forall i :: i in old(chunks) ==> (i in chunks <==> now - old(chunks)[i].createdAt < ttl)
      ensures Chunks() == V.ExpireChunks(old(Value()), now).chunks
    {
      assert forall i :: i in chunks ==> chunks[i].Value() == old(chunks[i].Value());
    }

    method DropOld(now: int)
      requires Valid()
      modifies this`chunks, Buffers(chunks)
      ensures KeptSome(old(chunks), chunks)
      ensures forall i :: i in chunks ==> unchanged(chunks[i].data)
      ensures forall i :: i in old(chunks) ==> (i in chunks <==> now - old(chunks)[i].createdAt < ttl)
      ensures forall i :: i in old(chunks) && i !in chunks ==> old(chunks)[i].Wiped()
    {
      var left := chunks.Keys;
      while left != {}
        invariant left <= chunks.Keys && KeptSome(old(chunks), chunks)
        invariant forall i :: i in chunks ==> unchanged(chunks[i].data)
        invariant forall i :: i in old(chunks) ==> (i in chunks <==> i in left || now - old(chunks)[i].createdAt < ttl)
        invariant forall i :: i in old(chunks) && i !in chunks ==> old(chunks)[i].Wiped()
      {
        var i :| i in left;
        left := left - {i};
        DropIfOld(i, now);
      }
    }

    method Touch(now: int)
      requires Valid()
      modifies this`lastActivity
      ensures Value() == old(Value()).(lastActivity := now)
    {
      lastActivity := now;
    }

    /** get_key up to its first wait. */
    method BeginGetKey(allocator: bool, index: Option<nat>, now: int) returns (start: V.GetKeyStart)
      requires Valid()
      modifies this`lastActivity
      ensures Valid() && start == V.StartGetKey(old(Value()), allocator, index)
      ensures Value() == if start.NotFound? then old(Value()) else old(Value()).(lastActivity := now)
    {
      if state == V.Closed || localClosed {
        return V.NotFound;
      }
      Touch(now);
      start := ChooseIndex(allocator, index);
    }

    method ChooseIndex(allocator: bool, index: Option<nat>) returns (start: V.GetKeyStart)
      requires Valid() && state != V.Closed && !localClosed
      ensures start == V.StartGetKey(Value(), allocator, index) && !start.NotFound?
    {
      if state == V.PendingPeer {
        return V.NotConnected;
      }
      var want: nat;
      if index.Some? { want := index.value; } else { want := NextUndelivered(); }
      if want in delivered {
        return V.Spent(want);
      }
      if want in chunks && (!allocator || chunks[want].confirmed) {
        return V.Ready(want);
      }
      start := if peerClosed then V.PeerGone(want) else V.MustObtain(want);
    }

    method Establish(now: int)
      requires Valid()
      modifies this`peerOpen, this`state, this`lastActivity
      ensures Value() == V.Establishes(old(Value()), now)
    {
      peerOpen, state, lastActivity := true, V.Established, now;
    }

    method Announce()
      requires Valid()
      modifies this`peerOpen, this`state
      ensures Value() == V.Announces(old(Value()))
    {
      peerOpen := true;
      if localOpen {
        state := V.Established;
      }
    }

    /** The peer's application closed this stream. */
    method PeerClosed(now: int)
      requires Valid()
      modifies this, Buffers(chunks)
      ensures Valid() && ClearedTo(old(chunks), chunks) && Value() == V.PeerCloses(old(Value()), now)
    {
      peerClosed := true;
      assert Value() == old(Value()).(peerClosed := true);
      if localClosed || !localOpen {
        ToClosed(now);
      }
    }

    /** What the sweep does to a stream that is not closed. */
    method Sweep(now: int)
      requires Valid() && state != V.Closed
      modifies this, Buffers(chunks)
      ensures Valid() && ClearedTo(old(chunks), chunks) && Value() == V.SweepStream(old(Value()), now)
    {
      if now - lastActivity >= ttl {
        ToClosed(now);
      } else {
        Expire(now);
      }
    }

    method Insert(i: nat, c: Chunk)
      requires Valid() && c.data !in Buffers(chunks)
      modifies this`chunks
      ensures Valid() && chunks == old(chunks)[i := c]
      ensures Value() == old(Value()).(chunks := old(Chunks())[i := c.Value()])
    {
      chunks := chunks[i := c];
      assert Chunks() == old(Chunks())[i := c.Value()];
    }

    method Put(i: nat, ids: seq<KeyId>, bytes: seq<byte>, now: int, confirmed: bool)
      requires Valid()
      modifies this`chunks
      ensures Valid() && Adds(old(chunks), i, chunks)
      ensures Value() == old(Value()).(chunks := old(Chunks())[i := V.Chunk(ids, bytes, confirmed, now)])
    {
      var c := new Chunk(ids, bytes, now, confirmed);
      assert Value() == old(Value());
      Insert(i, c);
    }

    /** A chunk created by the allocator: the bytes of the keys it took, joined. */
    method Allocate(i: nat, keys: seq<StoredKey>, data: seq<byte>, now: int)
      requires Valid() && data == V.Concat(keys)
      modifies this`chunks, this`nextAlloc
      ensures Valid() && Adds(old(chunks), i, chunks)
      ensures Value() == V.Allocated(old(Value()), i, keys, now)
    {
      Put(i, IdsOf(keys), data, now, false);
      nextAlloc := nextAlloc + 1;
    }

    /** A chunk pushed by the peer. */
    method Store(i: nat, ids: seq<KeyId>, bytes: seq<byte>, now: int)
      requires Valid()
      modifies this`chunks
      ensures Valid() && Adds(old(chunks), i, chunks)
      ensures Value() == V.Stored(old(Value()), i, ids, bytes, now)
    {
      Put(i, ids, bytes, now, true);
    }

    method Confirm(i: nat)
      requires Valid() && i in chunks
      modifies chunks[i]
      ensures Valid() && Value() == V.Confirmed(old(Value()), i)
    {
      chunks[i].confirmed := true;
      assert forall j :: j in chunks && j != i ==> chunks[j] != chunks[i];
      assert Chunks() == V.Confirmed(old(Value()), i).chunks;
    }

    /** `held_keys`: the keys of every chunk in the store, in whatever order they come. */
    method HeldKeys() returns (n: nat)
      requires Valid()
      ensures n == V.KeysIn(Chunks())
    {
      n := 0;
      var left := chunks;
      ghost var rest := Chunks();
      while left != map[]
        invariant rest.Keys == left.Keys && forall i :: i in left ==> left[i].ids == rest[i].ids
        invariant n + V.KeysIn(rest) == V.KeysIn(Chunks())
        decreases |left.Keys|
      {
        var i :| i in left;
        V.KeysInSplit(rest, i);
        n, left, rest := n + |left[i].ids|, left - {i}, rest - {i};
      }
    }
  }

  ghost predicate KeptSome(before: map<nat, Chunk>, after: map<nat, Chunk>) {
    forall i :: i in after ==> i in before && after[i] == before[i]
  }

  /** What is no longer in the store was zeroed. */
  ghost predicate ClearedTo(before: map<nat, Chunk>, after: map<nat, Chunk>)
    reads Buffers(before)
  {
    KeptSome(before, after) && forall i :: i in before && i !in after ==> before[i].Wiped()
  }

  /** `after` is `before` with a new chunk, in a buffer of its own, at `i`. */
  twostate predicate Adds(before: map<nat, Chunk>, i: nat, new after: map<nat, Chunk>)
  {
    i in after && after == before[i := after[i]] && fresh(after[i]) && fresh(after[i].data)
  }

  method Joined(keys: seq<StoredKey>) returns (data: seq<byte>)
    ensures data == V.Concat(keys)
  {
    data := [];
    var k := 0;
    while k < |keys|
      invariant 0 <= k <= |keys|
      invariant data + V.Concat(keys[k..]) == V.Concat(keys)
    {
      NextKey(data, keys, k);
      data := data + keys[k].bytes;
      k := k + 1;
    }
  }

  lemma NextKey(data: seq<byte>, keys: seq<StoredKey>, k: nat)
    requires k < |keys|
    ensures data + V.Concat(keys[k..]) == data + keys[k].bytes + V.Concat(keys[k + 1..])
  {
    assert keys[k..][1..] == keys[k + 1..];
  }
}
