/** The registry of `Etsi004Engine` (services/bb84-kme/app/etsi004_engine.py) and what its handlers do
    between two waits: what the peer calls, the beginning and the end of get_key, an allocation that
    gets the pool at once, and the sweep.

    The methods work on the records in place; `View` is what the registry amounts to as a value,
    and `Protocol` gives each handler the same effect on it (see `EngineInProtocol`). */
module EngineObject {
  import opened KeyPools
  import V = KeyStreams
  import opened SharedPool
  import opened StreamObjects

  /** How the allocator's `_obtain` goes on. */
  datatype Grant = Present | OutOfOrder | ShareFull | NoKeys | Created

  datatype Obtained = Obtained(grant: Grant, view: map<V.Ksid, V.Stream>, pool: Pool, extra: nat)

  /** The limits an allocation depends on. */
  datatype Share = Share(capacity: nat, low: nat, keyBytes: nat, capKeys: nat)

  /** The allocator's `_obtain` up to the push, when the pool is free at once. */
  function Obtain(l: Share, v: map<V.Ksid, V.Stream>, pool: Pool, extra: nat, ksid: V.Ksid, index: nat,
                  now: int): Obtained
    requires 0 < l.keyBytes && ksid in v
  {
    var st := v[ksid];
    if index in st.chunks then Obtained(Present, v, pool, extra)
    else if index != st.nextAlloc then Obtained(OutOfOrder, v, pool, extra)
    else ObtainNew(l, v, pool, extra, ksid, index, st.size / l.keyBytes, now)
  }

  /** A chunk of `m` keys at the next index, within the share and above the floor. */
  function ObtainNew(l: Share, v: map<V.Ksid, V.Stream>, pool: Pool, extra: nat, ksid: V.Ksid, index: nat, m: nat,
                     now: int): Obtained
    requires ksid in v
  {
    if V.HeldTotal(v) + m > l.capKeys then Obtained(ShareFull, v, pool, extra)
    else
      var (pool', got) := TakeLocal(pool, l.low, m);
      if got.None? then Obtained(NoKeys, v, pool, Raised(l.capacity, l.low, extra, m))
      else Obtained(Created, v[ksid := V.Allocated(v[ksid], index, got.value, now)], pool', 0)
  }

  /** What an allocation keeps: the share is respected after a grant, the 014 floor is left, and a
      refusal for lack of keys asks for production that would serve it. */
  lemma ObtainKeepsShare(l: Share, v: map<V.Ksid, V.Stream>, pool: Pool, extra: nat, ksid: V.Ksid, index: nat, now: int)
    requires 0 < l.keyBytes && ksid in v
    ensures var o := Obtain(l, v, pool, extra, ksid, index, now);
            var m := v[ksid].size / l.keyBytes;
            && (o.grant.Created? ==>
                  V.HeldTotal(o.view) == V.HeldTotal(v) + m <= l.capKeys && |Locals(o.pool.buf)| >= l.low)
            && (o.grant.NoKeys? && 0 < m && 2 * l.low + l.capKeys <= l.capacity ==>
                  forall q: Pool :: Rests(q, l.low, o.extra) ==> TakeLocal(q, l.low, m).1.Some?)
  {
    var m := v[ksid].size / l.keyBytes;
    var got := TakeLocal(pool, l.low, m).1;
    if Obtain(l, v, pool, extra, ksid, index, now).grant.Created? {
      V.HeldTotalGrows(v, ksid, index, got.value, now);
      LocalsAfterRemoval(pool, m);
    }
  }

  /** No two chunks share a buffer. */
  ghost predicate Apart(stores: map<V.Ksid, map<nat, Chunk>>) {
    forall k, l, i, j ::
      k in stores && l in stores && i in stores[k] && j in stores[l] && stores[k][i].data == stores[l][j].data ==>
        k == l && i == j
  }

  /** The buffers of the chunks in `before` that the stores in `after` no longer have. */
  ghost function Gone(before: map<V.Ksid, map<nat, Chunk>>, after: map<V.Ksid, map<nat, Chunk>>): set<array<byte>> {
    set k, i | k in after && k in before && i in before[k] && i !in after[k] :: before[k][i].data
  }

  ghost predicate Blank(a: array<byte>)
    reads a
  {
    forall k :: 0 <= k < a.Length ==> a[k] == 0
  }

  ghost function AllBuffers(stores: map<V.Ksid, map<nat, Chunk>>): set<object> {
    set k, i | k in stores && i in stores[k] :: stores[k][i].data
  }

  /** A pushed chunk in the store of an active record. */
  function Accepted(st: V.Stream, index: nat, ids: seq<KeyId>, data: seq<byte>, now: int): V.Stream {
    V.Stored(st, index, ids, data, now).(lastActivity := now)
  }

  /** The keys, or a request for more; keys obtained end the request. */
  method TakeOrAsk(keys: KeyPool, m: nat) returns (taken: Option<seq<StoredKey>>)
    modifies keys
    ensures (keys.State(), taken) == TakeLocal(old(keys.State()), keys.low, m)
    ensures keys.extraTarget == if taken.Some? then 0 else Raised(keys.capacity, keys.low, old(keys.extraTarget), m)
  {
    taken := keys.TakeLocalForStream(m);
    if taken.None? {
      keys.RequestExtra(m);
    } else {
      keys.ReleaseExtra();
    }
  }

  /** The store before the wait for the pool, which is over at once, and the rest. */
  method Accept(s: Stream, index: nat, ids: seq<KeyId>, data: seq<byte>, keys: KeyPool, now: int)
    requires s.Valid()
    modifies s`chunks, s`lastActivity, keys`buf, keys`byId, keys`withdrawn
    ensures s.Valid() && Adds(old(s.chunks), index, s.chunks)
    ensures s.Value() == Accepted(old(s.Value()), index, ids, data, now)
    ensures keys.State() == DropReplicas(old(keys.State()), keys.capacity, ids)
  {
    s.Store(index, ids, data, now);
    ghost var stored := s.Chunks();
    keys.DropReplicas(ids);
    assert s.Chunks() == stored;
    s.Touch(now);
  }

  class Engine {
    const maxTtl: int
    var streams: map<V.Ksid, Stream>

    constructor (maxTtl: int)
      ensures Valid() && View() == map[] && this.maxTtl == maxTtl
    {
      this.maxTtl := maxTtl;
      streams := map[];
    }

    /** Records are filed under their id, and no two chunks share a buffer. */
    ghost predicate Valid()
      reads this, Records()
    {
      && (forall k :: k in streams ==> streams[k].ksid == k && streams[k].Valid())
      && (forall k, l, i, j ::
            k in streams && l in streams && i in streams[k].chunks && j in streams[l].chunks && k != l ==>
              streams[k].chunks[i].data != streams[l].chunks[j].data)
    }

    ghost function Records(): set<object>
      reads this
    {
      set k | k in streams :: streams[k]
    }

    ghost function Parts(): set<object>
      reads this, Records()
    {
      set k, o | k in streams && o in Owned(streams[k].chunks) :: o
    }

    ghost function View(): map<V.Ksid, V.Stream>
      reads this, Records(), Parts()
    {
      map k | k in streams :: streams[k].Value()
    }

    ghost function Footprint(): set<object>
      reads this, Records()
    {
      Records() + Parts()
    }

    /** What a handler of stream `ksid` may write to. */
    ghost function Writable(ksid: V.Ksid): set<object>
      reads this, Records()
    {
      if ksid in streams then {streams[ksid]} + Buffers(streams[ksid].chunks) else {}
    }

    twostate predicate Kept(s: Stream)
      reads s, Owned(s.chunks)
    {
      unchanged(s) && forall i :: i in s.chunks ==> unchanged(s.chunks[i]) && unchanged(s.chunks[i].data)
    }

    twostate predicate OwnBuffers(s: Stream)
      reads s
    {
      forall i :: i in s.chunks ==> s.chunks[i].data in old(Buffers(s.chunks)) || fresh(s.chunks[i].data)
    }

    /** The records but that of `ksid` are the same, and so are their chunks. */
    twostate predicate OthersKept(ksid: V.Ksid)
      reads this, Records(), Parts()
    {
      forall k :: k in streams && k != ksid ==>
        k in old(streams) && streams[k] == old(streams)[k] && Kept(streams[k])
    }

    twostate lemma KeptValues(ksid: V.Ksid)
      requires OthersKept(ksid)
      ensures forall k :: k in streams && k != ksid ==> streams[k].Value() == old(streams[k].Value())
    {
      forall k | k in streams && k != ksid ensures streams[k].Value() == old(streams[k].Value()) {
        assert Kept(streams[k]);
        assert streams[k].Chunks() == old(streams[k].Chunks());
      }
    }

    twostate lemma StillValid(ksid: V.Ksid)
      requires old(Valid()) && ksid in streams && streams[ksid].ksid == ksid && streams[ksid].Valid()
      requires if ksid in old(streams) then streams[ksid] == old(streams)[ksid] && OwnBuffers(streams[ksid])
               else streams[ksid].chunks == map[]
      requires forall k :: k in streams && k != ksid ==>
                 k in old(streams) && streams[k] == old(streams)[k] && streams[k].chunks == old(streams[k].chunks)
      ensures Valid()
    {
    }

    /** A handler that keeps to its record changes the view at that id alone. */
    twostate lemma OneRecord(ksid: V.Ksid)
      requires old(Valid()) && unchanged(this) && ksid in streams
      requires streams[ksid].Valid() && OwnBuffers(streams[ksid])
      requires forall k :: k in streams && k != ksid ==> Kept(streams[k])
      ensures Valid() && View() == old(View())[ksid := streams[ksid].Value()]
    {
      StillValid(ksid);
      KeptValues(ksid);
    }

    /** Its record's store is the only one that may have lost something. */
    twostate lemma OneStore(ksid: V.Ksid)
      requires forall k :: k in streams ==> k in old(streams) && streams[k] == old(streams)[k]
      requires forall k :: k in streams && k != ksid ==> streams[k].chunks == old(streams[k].chunks)
      requires ksid in streams ==> ClearedTo(old(streams[ksid].chunks), streams[ksid].chunks)
      ensures Cleared(old(Stores()))
    {
    }

    twostate lemma Untouched()
      requires old(Valid()) && unchanged(this) && forall k :: k in streams ==> Kept(streams[k])
      ensures Valid() && View() == old(View())
    {
      forall k | k in streams ensures streams[k].Value() == old(streams[k].Value()) {
        assert streams[k].Chunks() == old(streams[k].Chunks());
      }
    }

    /** The stores of all records. */
    ghost function Stores(): map<V.Ksid, map<nat, Chunk>>
      reads this, Records()
    {
      map k | k in streams :: streams[k].chunks
    }

    /** Each store is what is left of the one before, and what is no longer there was zeroed. */
    ghost predicate Cleared(before: map<V.Ksid, map<nat, Chunk>>)
      reads this, Records(), AllBuffers(before)
    {
      forall k :: k in streams ==> k in before && ClearedTo(before[k], streams[k].chunks)
    }

    method OnClose(ksid: V.Ksid, now: int) returns (known: bool)
      requires Valid()
      modifies Writable(ksid)
      ensures Valid() && streams == old(streams) && Cleared(old(Stores()))
      ensures known <==> ksid in streams
      ensures View() == if known then old(View())[ksid := V.PeerCloses(old(View())[ksid], now)] else old(View())
    {
      if ksid !in streams {
        return false;
      }
      streams[ksid].PeerClosed(now);
      known := true;
      OneRecord(ksid);
      OneStore(ksid);
    }

    /** False is the HTTP 404 of an unknown or closed stream. */
    method OnEstablish(ksid: V.Ksid, now: int) returns (joined: bool)
      requires Valid()
      modifies Writable(ksid)
      ensures Valid() && streams == old(streams)
      ensures joined <==> ksid in streams && V.Joinable(old(View())[ksid])
      ensures View() == if joined then old(View())[ksid := V.Establishes(old(View())[ksid], now)] else old(View())
    {
      if ksid !in streams || streams[ksid].state == V.Closed || streams[ksid].localClosed {
        return false;
      }
      streams[ksid].Establish(now);
      joined := true;
      OneRecord(ksid);
    }

    method OnWithdraw(ksid: V.Ksid)
      requires Valid()
      modifies this`streams
      ensures Valid()
      ensures var v := old(View());
              View() == if ksid in v && !v[ksid].localOpen then v - {ksid} else v
    {
      if ksid in streams && !streams[ksid].localOpen {
        Forget(ksid);
      }
    }

    /** A new record without chunks. */
    twostate lemma OneMore(ksid: V.Ksid)
      requires old(Valid()) && ksid !in old(streams) && streams.Keys == old(streams).Keys + {ksid}
      requires streams[ksid].ksid == ksid && streams[ksid].chunks == map[] && OthersKept(ksid)
      ensures Valid() && View() == old(View())[ksid := streams[ksid].Value()]
    {
      KeptValues(ksid);
      StillValid(ksid);
    }

    method Forget(ksid: V.Ksid)
      requires Valid()
      modifies this`streams
      ensures Valid() && streams == old(streams) - {ksid} && View() == old(View()) - {ksid}
    {
      streams := streams - {ksid};
      KeptValues(ksid);
    }

    method Register(s: Stream)
      requires Valid() && s.ksid !in streams && s.chunks == map[]
      modifies this`streams
      ensures Valid() && View() == old(View())[s.ksid := s.Value()]
    {
      streams := streams[s.ksid := s];
      OneMore(s.ksid);
    }

    /** False is the HTTP 409 of an id held for another application pair, or closed. */
    method OnAnnounce(ksid: V.Ksid, apps: V.Apps, size: nat, ttl: int, now: int) returns (accepted: bool)
      requires Valid()
      modifies this`streams, Writable(ksid)
      ensures Valid()
      ensures accepted <==> ksid in old(View()) ==> V.Announceable(old(View())[ksid], apps)
      ensures View() ==
                if !accepted then old(View())
                else old(View())[ksid := if ksid in old(View()) then V.Announces(old(View())[ksid])
                                         else V.NewStream(ksid, apps, size, ttl, false, now)]
    {
      if ksid in streams {
        var s := streams[ksid];
        if s.state == V.Closed || !V.SameApps(s.apps, apps) {
          return false;
        }
        s.Announce();
        OneRecord(ksid);
      } else {
        var s := new Stream(ksid, apps, size, ttl, false, now);
        Untouched();
        Register(s);
      }
      accepted := true;
    }

    /** The verdict on a pushed chunk, its way into the store, and the end of its keys' replicas, when the
        pool is free at once. */
    method OnChunk(ksid: V.Ksid, index: nat, ids: seq<KeyId>, data: seq<byte>, keys: KeyPool, now: int)
      returns (verdict: V.Verdict)
      requires Valid()
      modifies Writable(ksid), keys`buf, keys`byId, keys`withdrawn
      ensures Valid() && streams == old(streams)
      ensures verdict == if ksid in streams then V.Judge(old(View())[ksid], index, data) else V.Unknown
      ensures View() == if verdict.Store? then old(View())[ksid := Accepted(old(View())[ksid], index, ids, data, now)]
                        else old(View())
      ensures keys.State() == if verdict.Store? then DropReplicas(old(keys.State()), keys.capacity, ids)
                              else old(keys.State())
    {
      if ksid !in streams || streams[ksid].state == V.Closed {
        return V.Unknown;
      }
      var s := streams[ksid];
      if index in s.chunks {
        return if s.chunks[index].data[..] != data then V.Conflict else V.Repeat;
      }
      if index in s.delivered {
        return V.Repeat;
      }
      AcceptChunk(ksid, index, ids, data, keys, now);
      verdict := V.Store;
    }

    ghost predicate Shows(all: map<V.Ksid, V.Stream>)
      reads this, Records(), Parts()
    {
      Valid() && View() == all
    }

    method AcceptChunk(ksid: V.Ksid, index: nat, ids: seq<KeyId>, data: seq<byte>, keys: KeyPool, now: int)
      requires Valid() && ksid in streams
      modifies Writable(ksid), keys`buf, keys`byId, keys`withdrawn
      ensures Valid() && streams == old(streams)
      ensures View() == old(View())[ksid := Accepted(old(View())[ksid], index, ids, data, now)]
      ensures keys.State() == DropReplicas(old(keys.State()), keys.capacity, ids)
    {
      Accept(streams[ksid], index, ids, data, keys, now);
      OneRecord(ksid);
    }

    /** The end of get_key. */
    method HandOver(ksid: V.Ksid, index: nat) returns (key: seq<byte>)
      requires Valid() && ksid in streams && index in streams[ksid].chunks
      modifies Writable(ksid)
      ensures Valid() && streams == old(streams)
      ensures key == old(View())[ksid].chunks[index].data
      ensures View() == old(View())[ksid := V.Deliver(old(View())[ksid], index)]
      ensures old(streams[ksid].chunks[index]).Wiped()
    {
      key := streams[ksid].Deliver(index);
      OneRecord(ksid);
    }

    /** get_key up to its first wait: the record is looked up and touched, and the index chosen. */
    method BeginGetKey(ksid: V.Ksid, allocator: bool, index: Option<nat>, now: int) returns (start: V.GetKeyStart)
      requires Valid()
      modifies Writable(ksid)
      ensures Valid() && streams == old(streams)
      ensures start == if ksid in streams then V.StartGetKey(old(View())[ksid], allocator, index) else V.NotFound
      ensures View() == if start.NotFound? then old(View())
                        else old(View())[ksid := old(View())[ksid].(lastActivity := now)]
    {
      if ksid !in streams {
        return V.NotFound;
      }
      start := streams[ksid].BeginGetKey(allocator, index, now);
      OneRecord(ksid);
    }

    method HeldBy(ksid: V.Ksid, ghost all: map<V.Ksid, V.Stream>) returns (n: nat)
      requires Shows(all) && ksid in streams
      ensures Shows(all) && ksid in all && n == V.KeysIn(all[ksid].chunks)
    {
      n := streams[ksid].HeldKeys();
      Untouched();
    }

    /** The keys held by all streams, added up in any order. */
    method Held() returns (n: nat)
      requires Valid()
      ensures Valid() && View() == old(View()) && n == V.HeldTotal(View())
    {
      n := HeldEach(View());
    }

    method HeldEach(ghost all: map<V.Ksid, V.Stream>) returns (n: nat)
      requires Shows(all)
      ensures Shows(all) && n == V.HeldTotal(all)
    {
      n := 0;
      var left := streams.Keys;
      assert left == all.Keys;
      V.HeldEnds(all);
      ghost var total := V.HeldTotal(all);
      while left != {}
        invariant left <= streams.Keys && Shows(all)
        invariant n + V.HeldTotal(V.Part(all, left)) == total
      {
        var k :| k in left;
        var here := HeldBy(k, all);
        V.HeldPart(all, left, k);
        n, left := n + here, left - {k};
      }
    }

    method ObtainChunk(ksid: V.Ksid, index: nat, keys: KeyPool, keyBytes: nat, capKeys: nat, now: int)
      returns (grant: Grant)
      requires Valid() && ksid in streams && 0 < keyBytes
      modifies Writable(ksid), keys
      ensures Valid() && streams == old(streams)
      ensures Obtained(grant, View(), keys.State(), keys.extraTarget)
              == Obtain(Share(keys.capacity, keys.low, keyBytes, capKeys),
                        old(View()), old(keys.State()), old(keys.extraTarget), ksid, index, now)
    {
      var s := streams[ksid];
      if index in s.chunks {
        return Present;
      }
      if index != s.nextAlloc {
        return OutOfOrder;
      }
      grant := ObtainNext(ksid, index, keys, Share(keys.capacity, keys.low, keyBytes, capKeys), s.size / keyBytes, now);
    }

    method ObtainNext(ksid: V.Ksid, index: nat, keys: KeyPool, l: Share, m: nat, now: int) returns (grant: Grant)
      requires Valid() && ksid in streams && l.capacity == keys.capacity && l.low == keys.low
      modifies Writable(ksid), keys
      ensures Valid() && streams == old(streams)
      ensures Obtained(grant, View(), keys.State(), keys.extraTarget)
              == ObtainNew(l, old(View()), old(keys.State()), old(keys.extraTarget), ksid, index, m, now)
    {
      var held := Held();
      if held + m > l.capKeys {
        return ShareFull;
      }
      grant := Take(ksid, index, keys, m, now);
    }

    /** Nothing in the registry is the pool's. */
    method TakeKeys(keys: KeyPool, m: nat, ghost all: map<V.Ksid, V.Stream>) returns (taken: Option<seq<StoredKey>>)
      requires Shows(all)
      modifies keys
      ensures Shows(all) && (keys.State(), taken) == TakeLocal(old(keys.State()), keys.low, m)
      ensures keys.extraTarget
              == if taken.Some? then 0 else Raised(keys.capacity, keys.low, old(keys.extraTarget), m)
    {
      taken := TakeOrAsk(keys, m);
      Untouched();
    }

    method Take(ksid: V.Ksid, index: nat, keys: KeyPool, m: nat, now: int) returns (grant: Grant)
      requires Valid() && ksid in streams
      modifies Writable(ksid), keys
      ensures Valid() && streams == old(streams)
      ensures var (pool, got) := TakeLocal(old(keys.State()), keys.low, m);
              if got.None? then
                grant.NoKeys? && View() == old(View()) && keys.State() == old(keys.State())
                && keys.extraTarget == Raised(keys.capacity, keys.low, old(keys.extraTarget), m)
              else
                grant.Created? && keys.State() == pool && keys.extraTarget == 0
                && View() == old(View())[ksid := V.Allocated(old(View())[ksid], index, got.value, now)]
    {
      var taken := TakeKeys(keys, m, View());
      if taken.None? {
        return NoKeys;
      }
      Fill(ksid, index, taken.value, now);
      grant := Created;
    }

    method Fill(ksid: V.Ksid, index: nat, taken: seq<StoredKey>, now: int)
      requires Valid() && ksid in streams
      modifies Writable(ksid)
      ensures Valid() && streams == old(streams)
      ensures View() == old(View())[ksid := V.Allocated(old(View())[ksid], index, taken, now)]
    {
      var data := Joined(taken);
      Untouched();
      streams[ksid].Allocate(index, taken, data, now);
      OneRecord(ksid);
    }

    /** One turn of the sweep: a closed record is forgotten when it is old enough; an idle stream
        is closed; otherwise its old chunks go. */
    method SweepRecord(ksid: V.Ksid, now: int)
      requires Valid() && ksid in streams
      modifies this`streams, Writable(ksid)
      ensures Valid()
      ensures streams == old(streams) || streams == old(streams) - {ksid}
      ensures Cleared(old(Stores()))
      ensures View() == V.SweepAt(old(View()), ksid, now, maxTtl)
    {
      var s := streams[ksid];
      if s.state == V.Closed {
        if s.closedAt.Some? && now - s.closedAt.value >= maxTtl {
          Forget(ksid);
        }
      } else {
        s.Sweep(now);
        OneRecord(ksid);
      }
      OneStore(ksid);
    }

    /** The sweep has been through the records in `done`, starting from `all`. */
    ghost predicate Swept(all: map<V.Ksid, V.Stream>, done: set<V.Ksid>, now: int)
      reads this, Records(), Parts()
    {
      Valid() && View() == V.SweepSome(all, done, now, maxTtl)
    }

    /** What left a store in earlier turns is not written to in this one. */
    lemma LeftAlone(before: map<V.Ksid, map<nat, Chunk>>, ksid: V.Ksid)
      requires Cleared(before) && Apart(before) && ksid in streams
      ensures forall a :: a in Gone(before, Stores()) ==> Blank(a) && a !in Writable(ksid)
      ensures forall k :: k in streams ==> k in before && KeptSome(before[k], streams[k].chunks)
    {
    }

    lemma ClearedTwice(before: map<V.Ksid, map<nat, Chunk>>, mid: map<V.Ksid, map<nat, Chunk>>)
      requires Cleared(mid) && forall a :: a in Gone(before, mid) ==> Blank(a)
      requires forall k :: k in mid ==> k in before && KeptSome(before[k], mid[k])
      ensures Cleared(before)
    {
      forall k, i | k in streams && i in before[k] && i !in streams[k].chunks ensures before[k][i].Wiped() {
        if i !in mid[k] { assert before[k][i].data in Gone(before, mid); }
      }
    }

    method SweepTurn(ksid: V.Ksid, now: int, ghost before: map<V.Ksid, map<nat, Chunk>>)
      requires Valid() && ksid in streams && Cleared(before) && Apart(before)
      modifies this`streams, Writable(ksid)
      ensures Valid() && Cleared(before)
      ensures streams == old(streams) || streams == old(streams) - {ksid}
      ensures View() == V.SweepAt(old(View()), ksid, now, maxTtl)
    {
      ghost var mid := Stores();
      LeftAlone(before, ksid);
      SweepRecord(ksid, now);
      ClearedTwice(before, mid);
    }

    method SweepNext(ksid: V.Ksid, now: int, ghost all: map<V.Ksid, V.Stream>, ghost done: set<V.Ksid>,
                     ghost before: map<V.Ksid, map<nat, Chunk>>)
      requires Swept(all, done, now) && ksid in streams && ksid !in done
      requires Cleared(before) && Apart(before)
      modifies this`streams, Writable(ksid)
      ensures Swept(all, done + {ksid}, now)
      ensures streams == old(streams) || streams == old(streams) - {ksid}
      ensures Cleared(before)
    {
      assert ksid in View();
      V.SweepOneMore(all, done, ksid, now, maxTtl);
      SweepTurn(ksid, now, before);
    }

    /** The records and buffers that were in the registry when the sweep began. */
    ghost function Frame(records: map<V.Ksid, Stream>, before: map<V.Ksid, map<nat, Chunk>>): set<object> {
      (set k | k in records :: records[k]) + AllBuffers(before)
    }

    lemma InFrame(ksid: V.Ksid, records: map<V.Ksid, Stream>, before: map<V.Ksid, map<nat, Chunk>>)
      requires Cleared(before) && ksid in streams && ksid in records && streams[ksid] == records[ksid]
      ensures Writable(ksid) <= Frame(records, before)
    {
    }

    lemma NothingLeft()
      requires Valid()
      ensures Cleared(Stores()) && Apart(Stores()) && Frame(streams, Stores()) <= Footprint()
    {
      forall o | o in AllBuffers(Stores()) ensures o in Footprint() {
        var k, i :| k in streams && i in streams[k].chunks && o == streams[k].chunks[i].data;
        assert o in Owned(streams[k].chunks);
      }
    }

    /** `sweep` walks a copy of the registry and deletes from the registry on the way. What leaves a store
        is zeroed; a record that is forgotten is not looked into. */
    method Sweep(now: int)
      requires Valid()
      modifies this`streams, Footprint()
      ensures Valid() && View() == V.SweepAll(old(View()), now, maxTtl) && Cleared(old(Stores()))
    {
      V.SweepEnds(View(), now, maxTtl);
      NothingLeft();
      SweepEach(now, View(), streams, Stores());
    }

    method SweepEach(now: int, ghost all: map<V.Ksid, V.Stream>,
                     ghost records: map<V.Ksid, Stream>, ghost before: map<V.Ksid, map<nat, Chunk>>)
      requires Swept(all, {}, now) && all.Keys == streams.Keys
      requires records == streams && Cleared(before) && Apart(before)
      modifies this`streams, Frame(records, before)
      ensures Swept(all, all.Keys, now) && Cleared(before)
    {
      var left := streams.Keys;
      ghost var done := {};
      while left != {}
        invariant left <= streams.Keys && left !! done && all.Keys == left + done
        invariant forall k :: k in streams ==> k in records && streams[k] == records[k]
        invariant Swept(all, done, now) && Cleared(before)
      {
        var k :| k in left;
        InFrame(k, records, before);
        SweepNext(k, now, all, done, before);
        left, done := left - {k}, done + {k};
      }
      assert done == all.Keys;
    }
  }
}
