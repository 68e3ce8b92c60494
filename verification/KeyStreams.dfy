/** Key-stream records of one KME (services/bb84-kme/app/etsi004_engine.py, `Chunk` and `Stream`)
    as values, with what each in-place update does to them. */
module KeyStreams {
  import opened KeyPools

  type Ksid = nat

  datatype StreamState = PendingPeer | Established | Closing | Closed

  datatype Chunk = Chunk(ids: seq<KeyId>, data: seq<byte>, confirmed: bool, createdAt: int)

  datatype Apps = Apps(source: string, destination: string)

  /** `size` is the registered Key_chunk_size in bytes, `ttl` the registered TTL. */
  datatype Stream = Stream(
    ksid: Ksid, apps: Apps, size: nat, ttl: int,
    localOpen: bool, peerOpen: bool, localClosed: bool, peerClosed: bool, state: StreamState,
    chunks: map<nat, Chunk>, delivered: set<nat>, nextAlloc: nat,
    lastActivity: int, closedAt: Option<int>)

  predicate SameApps(a: Apps, b: Apps) {
    a == b || (a.source == b.destination && a.destination == b.source)
  }

  function NewStream(ksid: Ksid, apps: Apps, size: nat, ttl: int, here: bool, now: int): Stream {
    Stream(ksid, apps, size, ttl, here, !here, false, false, PendingPeer, map[], {}, 0, now, None)
  }

  /** The least index this side has not delivered. */
  function NextUndelivered(delivered: set<nat>): (i: nat)
    ensures i !in delivered
    ensures forall j: nat :: j < i ==> j in delivered
  {
    NextFrom(delivered, delivered, 0)
  }

  function NextFrom(delivered: set<nat>, ahead: set<nat>, i: nat): (r: nat)
    requires ahead <= delivered
    requires forall j: nat :: j < i ==> j in delivered
    requires forall j: nat :: j >= i && j in delivered ==> j in ahead
    ensures r !in delivered
    ensures forall j: nat :: j < r ==> j in delivered
    decreases |ahead|
  {
    if i !in delivered then i else NextFrom(delivered, ahead - {i}, i + 1)
  }

  function Wanted(s: Stream, index: Option<nat>): nat {
    if index.Some? then index.value else NextUndelivered(s.delivered)
  }

  /** How get_key goes on after its first look at the record. */
  datatype GetKeyStart =
    | NotFound | NotConnected
    | Spent(index: nat) | Ready(index: nat) | PeerGone(index: nat) | MustObtain(index: nat)

  function StartGetKey(s: Stream, allocator: bool, index: Option<nat>): GetKeyStart {
    if s.state == Closed || s.localClosed then NotFound
    else if s.state == PendingPeer then NotConnected
    else
      var want := Wanted(s, index);
      if want in s.delivered then Spent(want)
      else if want in s.chunks && (!allocator || s.chunks[want].confirmed) then Ready(want)
      else if s.peerClosed then PeerGone(want)
      else MustObtain(want)
  }

  function Deliver(s: Stream, i: nat): Stream {
    s.(chunks := s.chunks - {i}, delivered := s.delivered + {i})
  }

  /** The allocator puts the bytes of `keys` under index `i`. */
  function Allocated(s: Stream, i: nat, keys: seq<StoredKey>, now: int): Stream {
    s.(chunks := s.chunks[i := Chunk(IdsOf(keys), Concat(keys), false, now)], nextAlloc := s.nextAlloc + 1)
  }

  /** A pushed chunk enters the other side's store. */
  function Stored(s: Stream, i: nat, ids: seq<KeyId>, data: seq<byte>, now: int): Stream {
    s.(chunks := s.chunks[i := Chunk(ids, data, true, now)])
  }

  function Confirmed(s: Stream, i: nat): Stream
    requires i in s.chunks
  {
    s.(chunks := s.chunks[i := s.chunks[i].(confirmed := true)])
  }

  function ToClosed(s: Stream, now: int): Stream {
    s.(chunks := map[], state := Closed, closedAt := Some(now))
  }

  /** The peer's application closed; nobody is left here once this one closed or never opened. */
  function PeerCloses(s: Stream, now: int): Stream {
    var t := s.(peerClosed := true);
    if t.localClosed || !t.localOpen then ToClosed(t, now) else t
  }

  predicate Joinable(s: Stream) { s.state != Closed && !s.localClosed }

  function Establishes(s: Stream, now: int): Stream {
    s.(peerOpen := true, state := Established, lastActivity := now)
  }

  predicate Announceable(s: Stream, apps: Apps) { s.state != Closed && SameApps(s.apps, apps) }

  /** The same predefined id was opened on the other side too. */
  function Announces(s: Stream): Stream {
    s.(peerOpen := true, state := if s.localOpen then Established else s.state)
  }

  /** What becomes of a pushed chunk. `Conflict` is the HTTP 409 answer. */
  datatype Verdict = Unknown | Conflict | Repeat | Store

  function Judge(s: Stream, index: nat, data: seq<byte>): Verdict {
    if s.state == Closed then Unknown
    else if index in s.chunks then if s.chunks[index].data != data then Conflict else Repeat
    else if index in s.delivered then Repeat
    else Store
  }

  function ExpireChunks(s: Stream, now: int): Stream {
    s.(chunks := map i | i in s.chunks && now - s.chunks[i].createdAt < s.ttl :: s.chunks[i])
  }

  /** What one sweep does to a record that stays registered. */
  function SweepStream(s: Stream, now: int): Stream {
    if s.state == Closed then s
    else if now - s.lastActivity >= s.ttl then ToClosed(s, now)
    else ExpireChunks(s, now)
  }

  predicate Forgettable(s: Stream, now: int, maxTtl: int) {
    s.state == Closed && s.closedAt.Some? && now - s.closedAt.value >= maxTtl
  }

  /** The sweep of one registered record, of the records in `done`, and of the whole registry. */
  function SweepAt(v: map<Ksid, Stream>, k: Ksid, now: int, maxTtl: int): map<Ksid, Stream>
    requires k in v
  {
    if Forgettable(v[k], now, maxTtl) then v - {k} else v[k := SweepStream(v[k], now)]
  }

  function SweepSome(v: map<Ksid, Stream>, done: set<Ksid>, now: int, maxTtl: int): map<Ksid, Stream> {
    map k | k in v && (k in done ==> !Forgettable(v[k], now, maxTtl)) ::
      if k in done then SweepStream(v[k], now) else v[k]
  }

  function SweepAll(v: map<Ksid, Stream>, now: int, maxTtl: int): map<Ksid, Stream> {
    map k | k in v && !Forgettable(v[k], now, maxTtl) :: SweepStream(v[k], now)
  }

  lemma SweepOneMore(v: map<Ksid, Stream>, done: set<Ksid>, k: Ksid, now: int, maxTtl: int)
    requires k in v && k !in done
    ensures SweepAt(SweepSome(v, done, now, maxTtl), k, now, maxTtl) == SweepSome(v, done + {k}, now, maxTtl)
  {
  }

  lemma SweepEnds(v: map<Ksid, Stream>, now: int, maxTtl: int)
    ensures SweepSome(v, {}, now, maxTtl) == v && SweepSome(v, v.Keys, now, maxTtl) == SweepAll(v, now, maxTtl)
  {
  }

  function Concat(keys: seq<StoredKey>): seq<byte> {
    if keys == [] then [] else keys[0].bytes + Concat(keys[1..])
  }

  /** Of keys of `k` bytes each, byte `j` of key `i` stands at `i * k + j`. */
  lemma {:induction false} ConcatByte(keys: seq<StoredKey>, k: nat, i: nat, j: nat)
    requires (forall x :: x in keys ==> |x.bytes| == k) && i < |keys| && j < k
    ensures |Concat(keys)| == |keys| * k && i * k + j < |Concat(keys)|
    ensures Concat(keys)[i * k + j] == keys[i].bytes[j]
    decreases keys
  {
    assert keys[0] in keys;
    ConcatLength(keys, k);
    if i > 0 {
      ConcatByte(keys[1..], k, i - 1, j);
      OneMore(i, k);
    } else {
      ConcatLength(keys[1..], k);
      assert i * k == 0;
    }
  }

  lemma {:induction false} ConcatLength(keys: seq<StoredKey>, k: nat)
    requires forall x :: x in keys ==> |x.bytes| == k
    ensures |Concat(keys)| == |keys| * k
    decreases keys
  {
    if keys != [] {
      assert keys[0] in keys;
      ConcatLength(keys[1..], k);
      OneMore(|keys|, k);
    } else {
      assert |keys| * k == 0;
    }
  }

  lemma OneMore(n: nat, k: nat)
    requires n > 0
    ensures (n - 1) * k + k == n * k
  {
  }

  // ------------------------------------------------------------ keys held

  function Least(xs: set<nat>): (m: nat)
    requires xs != {}
    ensures m in xs && forall x :: x in xs ==> m <= x
  {
    var a :| a in xs;
    LeastExists(xs, a);
    var m :| m in xs && forall x :: x in xs ==> m <= x;
    m
  }

  lemma LeastExists(xs: set<nat>, a: nat)
    requires a in xs
    ensures exists m :: m in xs && forall x :: x in xs ==> m <= x
    decreases a
  {
    if b :| b in xs && b < a {
      LeastExists(xs, b);
    }
  }

  lemma LeastUnique(xs: set<nat>, m: nat)
    requires m in xs && forall x :: x in xs ==> m <= x
    ensures Least(xs) == m
  {
  }

  /** The keys of all chunks in a store. */
  function KeysIn(chunks: map<nat, Chunk>): nat {
    if chunks == map[] then 0
    else
      var i := Least(chunks.Keys);
      |chunks[i].ids| + KeysIn(chunks - {i})
  }

  lemma SmallerMap(chunks: map<nat, Chunk>, i: nat)
    requires i in chunks
    ensures |chunks - {i}| < |chunks|
  {
    assert (chunks - {i}).Keys == chunks.Keys - {i};
    assert |chunks.Keys - {i}| < |chunks.Keys|;
  }

  /** The sum does not depend on the order. */
  lemma {:induction false} KeysInSplit(chunks: map<nat, Chunk>, i: nat)
    requires i in chunks
    ensures KeysIn(chunks) == |chunks[i].ids| + KeysIn(chunks - {i})
    decreases |chunks|
  {
    var m := Least(chunks.Keys);
    if m != i {
      var a, b := chunks - {m}, chunks - {i};
      SmallerMap(chunks, m);
      KeysInSplit(a, i);
      LeastUnique(b.Keys, m);
      assert a - {i} == b - {m};
    }
  }

  /** The keys in the stores of all records. */
  function HeldTotal(v: map<Ksid, Stream>): nat {
    if v == map[] then 0
    else
      var k := Least(v.Keys);
      KeysIn(v[k].chunks) + HeldTotal(v - {k})
  }

  lemma FewerRecords(v: map<Ksid, Stream>, k: Ksid)
    requires k in v
    ensures |v - {k}| < |v|
  {
    assert (v - {k}).Keys == v.Keys - {k};
    assert |v.Keys - {k}| < |v.Keys|;
  }

  lemma {:induction false} HeldTotalSplit(v: map<Ksid, Stream>, k: Ksid)
    requires k in v
    ensures HeldTotal(v) == KeysIn(v[k].chunks) + HeldTotal(v - {k})
    decreases |v|
  {
    var m := Least(v.Keys);
    if m != k {
      var a, b := v - {m}, v - {k};
      FewerRecords(v, m);
      HeldTotalSplit(a, k);
      LeastUnique(b.Keys, m);
      assert a - {k} == b - {m};
    }
  }

  /** The registry cut down to the ids in `ks`. */
  function Part(v: map<Ksid, Stream>, ks: set<Ksid>): map<Ksid, Stream> {
    map k | k in v && k in ks :: v[k]
  }

  lemma HeldPart(v: map<Ksid, Stream>, ks: set<Ksid>, k: Ksid)
    requires k in ks && k in v
    ensures HeldTotal(Part(v, ks)) == KeysIn(v[k].chunks) + HeldTotal(Part(v, ks - {k}))
  {
    HeldTotalSplit(Part(v, ks), k);
    assert Part(v, ks) - {k} == Part(v, ks - {k});
  }

  lemma HeldEnds(v: map<Ksid, Stream>)
    ensures HeldTotal(Part(v, v.Keys)) == HeldTotal(v) && HeldTotal(Part(v, {})) == 0
  {
    assert Part(v, v.Keys) == v;
  }

  /** A new chunk adds its keys to the total. */
  lemma HeldTotalGrows(v: map<Ksid, Stream>, k: Ksid, i: nat, keys: seq<StoredKey>, now: int)
    requires k in v && i !in v[k].chunks
    ensures HeldTotal(v[k := Allocated(v[k], i, keys, now)]) == HeldTotal(v) + |keys|
  {
    var st := Allocated(v[k], i, keys, now);
    var w := v[k := st];
    HeldTotalSplit(v, k);
    HeldTotalSplit(w, k);
    assert w - {k} == v - {k};
    KeysInSplit(st.chunks, i);
    assert st.chunks - {i} == v[k].chunks;
  }
}
