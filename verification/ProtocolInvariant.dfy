/** The invariant of the two-KME system, and that every step keeps it.

    It has a part that always holds (`Base`) and a part that holds as long as no index of a
    Key_stream_ID was given two chunks (`Full`). Each conjunct speaks of as few components of
    the state as possible; the lemmas follow the small updates that the handlers are made of. */
module ProtocolInvariant {
  import opened KeyPools
  import opened KeyStreams
  import opened Protocol

  // ------------------------------------------------------------ the invariant, by component

  /** Every index entry is a key produced somewhere; replicas are exactly the other side's. */
  ghost predicate Genuine(side: Side, byId: map<KeyId, StoredKey>, produced: map<KeyId, Origin>) {
    forall x :: x in byId ==>
      x in produced && produced[x].bytes == byId[x].bytes && (byId[x].replicated <==> produced[x].side != side)
  }

  function Outstanding(issued: seq<KeyId>): set<KeyId> { set x | x in issued }

  /** enc_keys hands out an id once, and only on the side that produced it. */
  ghost predicate IssuedOk(side: Side, issued: seq<KeyId>, produced: map<KeyId, Origin>) {
    NoDup(issued) && forall x :: x in issued ==> x in produced && produced[x].side == side
  }

  ghost predicate PoolInv(c: Config, side: Side, pool: Pool, issued: seq<KeyId>, history: seq<KeyId>,
                          produced: map<KeyId, Origin>)
  {
    && PoolOk(pool, c.capacity, Outstanding(issued))
    && Genuine(side, pool.byId, produced)
    && IssuedOk(side, issued, produced)
    && Remembers(history, pool, c.capacity)
    && AllProduced(history, produced)
  }

  ghost predicate AllProduced(ids: seq<KeyId>, produced: map<KeyId, Origin>) {
    forall x :: x in ids ==> x in produced
  }

  function DataOf(ids: seq<KeyId>, produced: map<KeyId, Origin>): seq<byte>
    requires forall x :: x in ids ==> x in produced
  {
    if ids == [] then [] else produced[ids[0]].bytes + DataOf(ids[1..], produced)
  }

  /** A chunk holds the bytes of at least one key, each produced by the allocator, in order. */
  ghost predicate MadeOf(a: Alloc, produced: map<KeyId, Origin>) {
    && NoDup(a.ids) && |a.ids| > 0
    && (forall x :: x in a.ids ==> x in produced && produced[x].side == Lower)
    && a.data == DataOf(a.ids, produced)
  }

  ghost predicate AllMade(known: set<Alloc>, produced: map<KeyId, Origin>) {
    forall a :: a in known ==> MadeOf(a, produced)
  }

  /** No key of a chunk is in the allocator's 014 index or was handed out by its enc_keys. */
  ghost predicate Withheld(known: set<Alloc>, byId: map<KeyId, StoredKey>, issued: seq<KeyId>) {
    forall a, x :: a in known && x in a.ids ==> x !in byId && x !in issued
  }

  ghost predicate KeysApart(known: set<Alloc>) {
    forall a, b, x :: a in known && b in known && x in a.ids && x in b.ids ==> a == b
  }

  /** Each chunk was created by a record of its Key_stream_ID, at an index that record has passed. */
  ghost predicate Owned(c: Config, allocs: map<Alloc, Ref>, objs: map<Ref, Stream>)
    requires ConfigOk(c)
  {
    forall a :: a in allocs ==>
      && allocs[a] in objs && objs[allocs[a]].ksid == a.ksid
      && a.index < objs[allocs[a]].nextAlloc
      && |a.ids| == objs[allocs[a]].size / c.keyBytes
  }

  /** Every chunk in a store is a known one, under its record's id and index. */
  ghost predicate CopiesIn(objs: map<Ref, Stream>, known: set<Alloc>) {
    forall r, i :: r in objs && i in objs[r].chunks ==> AsAlloc(objs[r].ksid, i, objs[r].chunks[i]) in known
  }

  /** A chunk is kept, and handed out, only by the record that created it. */
  ghost predicate CopiesOwned(objs: map<Ref, Stream>, allocs: map<Alloc, Ref>) {
    forall r, i :: r in objs && i in objs[r].chunks ==> OwnedBy(AsAlloc(objs[r].ksid, i, objs[r].chunks[i]), allocs, r)
  }

  ghost predicate OwnedBy(a: Alloc, allocs: map<Alloc, Ref>, r: Ref) {
    a in allocs && allocs[a] == r
  }

  ghost predicate LogOwned(log: seq<Delivery>, allocs: map<Alloc, Ref>) {
    forall d :: d in log ==> OwnedBy(d.key, allocs, d.ref)
  }

  ghost predicate SizesOk(c: Config, objs: map<Ref, Stream>)
    requires ConfigOk(c)
  {
    forall r :: r in objs ==> 0 < objs[r].size && objs[r].size % c.keyBytes == 0
  }

  /** The allocator's chunks have the number of keys that their record is registered with. */
  ghost predicate StoreSized(c: Config, objs: map<Ref, Stream>)
    requires ConfigOk(c)
  {
    forall r, i :: r in objs && i in objs[r].chunks ==> |objs[r].chunks[i].ids| == objs[r].size / c.keyBytes
  }

  ghost predicate LoggedIn(log: seq<Delivery>, known: set<Alloc>) {
    forall d :: d in log ==> d.key in known
  }

  ghost predicate Logged(log: seq<Delivery>, r: Ref, i: nat) {
    exists d :: d in log && d.ref == r && d.key.index == i
  }

  /** Records are marked delivered exactly where the log says so. */
  ghost predicate LogMatches(log: seq<Delivery>, objs: map<Ref, Stream>) {
    && (forall d :: d in log ==>
          d.ref in objs && objs[d.ref].ksid == d.key.ksid && d.key.index in objs[d.ref].delivered)
    && (forall r, i :: r in objs && i in objs[r].delivered ==> Logged(log, r, i))
  }

  ghost predicate PushesIn(tasks: set<Task>, known: set<Alloc>) {
    forall t :: t in tasks && t.AwaitPush? ==> t.push in known
  }

  /** A waiting allocation asked for a whole chunk, at an index its record had reached; a
      waiting push carries a chunk of its record. */
  ghost predicate WaitsOk(c: Config, tasks: set<Task>, objs: map<Ref, Stream>)
    requires ConfigOk(c)
  {
    && (forall t :: t in tasks && t.AwaitTake? ==>
          t.ref in objs && t.index <= objs[t.ref].nextAlloc && t.n == objs[t.ref].size / c.keyBytes)
    && (forall t :: t in tasks && t.AwaitPush? ==> t.ref in objs && objs[t.ref].ksid == t.push.ksid)
  }

  ghost predicate DropsIn(tasks: set<Task>, known: set<Alloc>) {
    forall t :: t in tasks && t.AwaitDrop? ==> t.push in known
  }

  ghost predicate MsgOk(c: Config, m: Msg, known: set<Alloc>, produced: map<KeyId, Origin>)
    requires ConfigOk(c)
  {
    match m
    case SyncReq(to, id, bytes) => id in produced && produced[id] == Origin(Other(to), bytes)
    case PushReq(_, push) => push in known
    case PushAck(_, push) => push in known
    case AnnounceReq(_, _, _, _, size, _) => 0 < size && size % c.keyBytes == 0
    case _ => true
  }

  ghost predicate SentInv(c: Config, sent: set<Msg>, known: set<Alloc>, produced: map<KeyId, Origin>)
    requires ConfigOk(c)
  {
    forall m :: m in sent ==> MsgOk(c, m, known, produced)
  }

  /** Ids of a stored chunk are withdrawn from 014, or a task is about to withdraw them. */
  ghost predicate Withdrawing(history: seq<KeyId>, tasks: set<Task>, a: Alloc) {
    || (forall x :: x in a.ids ==> x in history)
    || (exists t :: t in tasks && t.AwaitDrop? && t.push == a)
  }

  ghost predicate AllWithdrawing(stored: set<Alloc>, history: seq<KeyId>, tasks: set<Task>) {
    forall a :: a in stored ==> Withdrawing(history, tasks, a)
  }

  ghost predicate LowerInv(c: Config, lo: Node, allocs: map<Alloc, Ref>, produced: map<KeyId, Origin>)
    requires ConfigOk(c)
  {
    && PoolInv(c, Lower, lo.pool, lo.issued, lo.history, produced)
    && Withheld(allocs.Keys, lo.pool.byId, lo.issued)
    && Owned(c, allocs, lo.objs)
    && CopiesIn(lo.objs, allocs.Keys) && CopiesOwned(lo.objs, allocs) && LogOwned(lo.log, allocs)
    && SizesOk(c, lo.objs) && StoreSized(c, lo.objs)
    && LoggedIn(lo.log, allocs.Keys) && LogMatches(lo.log, lo.objs)
    && PushesIn(lo.tasks, allocs.Keys) && WaitsOk(c, lo.tasks, lo.objs)
  }

  ghost predicate HigherInv(c: Config, hi: Node, stored: set<Alloc>, produced: map<KeyId, Origin>)
    requires ConfigOk(c)
  {
    && PoolInv(c, Higher, hi.pool, hi.issued, hi.history, produced)
    && CopiesIn(hi.objs, stored)
    && SizesOk(c, hi.objs)
    && LoggedIn(hi.log, stored) && LogMatches(hi.log, hi.objs)
    && DropsIn(hi.tasks, stored)
    && AllWithdrawing(stored, hi.history, hi.tasks)
    && StoresApart(hi.objs) && OncePerRecord(hi.log)
  }

  ghost predicate AllSized(c: Config, produced: map<KeyId, Origin>) {
    forall x :: x in produced ==> |produced[x].bytes| == c.keyBytes
  }

  ghost predicate SharedInv(c: Config, sent: set<Msg>, known: set<Alloc>, stored: set<Alloc>,
                            produced: map<KeyId, Origin>)
    requires ConfigOk(c)
  {
    && AllMade(known, produced) && KeysApart(known)
    && AllSized(c, produced)
    && SentInv(c, sent, known, produced)
    && stored <= known
  }

  ghost predicate Base(c: Config, s: Sys)
    requires ConfigOk(c)
  {
    && WellFormed(s)
    && SharedInv(c, s.sent, s.allocs.Keys, s.stored, s.produced)
    && LowerInv(c, s.lo, s.allocs, s.produced)
    && HigherInv(c, s.hi, s.stored, s.produced)
  }

  /** No index of a Key_stream_ID was ever given two chunks. */
  ghost predicate SingleAlloc(known: set<Alloc>) {
    forall a, b :: a in known && b in known && a.ksid == b.ksid && a.index == b.index ==> a == b
  }

  ghost predicate StoresApart(objs: map<Ref, Stream>) {
    forall r, i :: r in objs && i in objs[r].chunks ==> i !in objs[r].delivered
  }

  ghost predicate OncePerRecord(log: seq<Delivery>) {
    forall j, k :: 0 <= j < k < |log| ==> log[j].ref != log[k].ref || log[j].key.index != log[k].key.index
  }

  ghost predicate AcksIn(sent: set<Msg>, stored: set<Alloc>) {
    forall m :: m in sent && m.PushAck? ==> m.push in stored
  }

  ghost predicate ConfirmedIn(objs: map<Ref, Stream>, stored: set<Alloc>) {
    forall r, i :: r in objs && i in objs[r].chunks && objs[r].chunks[i].confirmed ==>
      AsAlloc(objs[r].ksid, i, objs[r].chunks[i]) in stored
  }

  /** What holds as long as no index was given two chunks. */
  ghost predicate Full(lo: Node, sent: set<Msg>, stored: set<Alloc>) {
    && StoresApart(lo.objs) && OncePerRecord(lo.log)
    && AcksIn(sent, stored)
    && ConfirmedIn(lo.objs, stored)
    && LoggedIn(lo.log, stored)
  }

  ghost predicate Inv(c: Config, s: Sys) {
    ConfigOk(c) && Base(c, s) && (SingleAlloc(s.allocs.Keys) ==> Full(s.lo, s.sent, s.stored))
  }

  lemma InitInv(c: Config)
    requires ConfigOk(c)
    ensures Inv(c, INIT)
  {
  }

  // ------------------------------------------------------------ small updates keep it

  ghost predicate Shrinks(old_: Stream, st: Stream) {
    && st.ksid == old_.ksid && st.size == old_.size
    && st.delivered == old_.delivered && st.nextAlloc == old_.nextAlloc
    && forall i :: i in st.chunks ==> i in old_.chunks && st.chunks[i] == old_.chunks[i]
  }

  lemma ShrinkKeepsLog(objs: map<Ref, Stream>, log: seq<Delivery>, r: Ref, st: Stream)
    requires LogMatches(log, objs) && r in objs && Shrinks(objs[r], st)
    ensures LogMatches(log, objs[r := st])
  {
  }

  lemma ShrinkKeepsCopies(objs: map<Ref, Stream>, known: set<Alloc>, r: Ref, st: Stream)
    requires r in objs && Shrinks(objs[r], st)
    ensures CopiesIn(objs, known) ==> CopiesIn(objs[r := st], known)
    ensures StoresApart(objs) ==> StoresApart(objs[r := st])
    ensures ConfirmedIn(objs, known) ==> ConfirmedIn(objs[r := st], known)
  {
  }

  lemma PutKeepsSized(c: Config, objs: map<Ref, Stream>, r: Ref, st: Stream)
    requires ConfigOk(c) && StoreSized(c, objs)
    requires forall i :: i in st.chunks ==> |st.chunks[i].ids| == st.size / c.keyBytes
    ensures StoreSized(c, objs[r := st])
  {
  }

  lemma PutKeepsOwned(objs: map<Ref, Stream>, allocs: map<Alloc, Ref>, r: Ref, st: Stream)
    requires CopiesOwned(objs, allocs)
    requires forall i :: i in st.chunks ==> OwnedBy(AsAlloc(st.ksid, i, st.chunks[i]), allocs, r)
    ensures CopiesOwned(objs[r := st], allocs)
  {
  }

  ghost predicate SameRecord(old_: Stream, st: Stream) {
    st.ksid == old_.ksid && st.size == old_.size && st.nextAlloc >= old_.nextAlloc
  }

  lemma ShrinkKeepsShape(c: Config, n: Node, next: nat, allocs: map<Alloc, Ref>, r: Ref, st: Stream)
    requires ConfigOk(c) && r in n.objs && SameRecord(n.objs[r], st)
    ensures NodeOk(n, next) ==> NodeOk(n.(objs := n.objs[r := st]), next)
    ensures SizesOk(c, n.objs) ==> SizesOk(c, n.objs[r := st])
    ensures Owned(c, allocs, n.objs) ==> Owned(c, allocs, n.objs[r := st])
    ensures WaitsOk(c, n.tasks, n.objs) ==> WaitsOk(c, n.tasks, n.objs[r := st])
  {
  }

  /** A record may change its flags and lose chunks. */
  lemma PutOk(c: Config, s: Sys, side: Side, r: Ref, st: Stream)
    requires Inv(c, s) && r in At(s, side).objs && Shrinks(At(s, side).objs[r], st)
    ensures Inv(c, PutObj(s, side, r, st))
  {
    if side.Lower? { PutLower(c, s, r, st); } else { PutHigher(c, s, r, st); }
  }

  lemma PutLower(c: Config, s: Sys, r: Ref, st: Stream)
    requires Inv(c, s) && r in s.lo.objs && Shrinks(s.lo.objs[r], st)
    ensures Inv(c, PutObj(s, Lower, r, st))
  {
    ShrinkKeepsShape(c, s.lo, s.next, s.allocs, r, st);
    ShrinkKeepsLog(s.lo.objs, s.lo.log, r, st);
    ShrinkKeepsCopies(s.lo.objs, s.allocs.Keys, r, st);
    PutKeepsSized(c, s.lo.objs, r, st);
    PutKeepsOwned(s.lo.objs, s.allocs, r, st);
    ShrinkKeepsCopies(s.lo.objs, s.stored, r, st);
  }

  lemma PutHigher(c: Config, s: Sys, r: Ref, st: Stream)
    requires Inv(c, s) && r in s.hi.objs && Shrinks(s.hi.objs[r], st)
    ensures Inv(c, PutObj(s, Higher, r, st))
  {
    ShrinkKeepsShape(c, s.hi, s.next, s.allocs, r, st);
    ShrinkKeepsLog(s.hi.objs, s.hi.log, r, st);
    ShrinkKeepsCopies(s.hi.objs, s.stored, r, st);
  }

  lemma SendOk(c: Config, s: Sys, m: Msg)
    requires Inv(c, s) && MsgOk(c, m, s.allocs.Keys, s.produced)
    requires SingleAlloc(s.allocs.Keys) && m.PushAck? ==> m.push in s.stored
    ensures Inv(c, Send(s, m))
  {
  }

  lemma TickOk(c: Config, s: Sys)
    requires Inv(c, s)
    ensures Inv(c, Tick(s))
  {
  }

  ghost predicate TaskOk(c: Config, s: Sys, side: Side, t: Task)
    requires ConfigOk(c)
  {
    && (t.AwaitAnnounce? || t.AwaitOpen? || t.ref in At(s, side).objs)
    && (t.AwaitTake? ==> var st := At(s, side).objs[t.ref]; t.index <= st.nextAlloc && t.n == st.size / c.keyBytes)
    && (t.AwaitPush? ==> t.push in s.allocs && At(s, side).objs[t.ref].ksid == t.push.ksid)
    && (t.AwaitDrop? ==> t.push in s.stored)
  }

  lemma MoreTasks(stored: set<Alloc>, history: seq<KeyId>, tasks: set<Task>, t: Task)
    requires AllWithdrawing(stored, history, tasks)
    ensures AllWithdrawing(stored, history, tasks + {t})
  {
    forall a | a in stored ensures Withdrawing(history, tasks + {t}, a) {
      assert Withdrawing(history, tasks, a);
    }
  }

  lemma FewerTasks(stored: set<Alloc>, history: seq<KeyId>, tasks: set<Task>, t: Task)
    requires AllWithdrawing(stored, history, tasks)
    requires t.AwaitDrop? ==> forall x :: x in t.push.ids ==> x in history
    ensures AllWithdrawing(stored, history, tasks - {t})
  {
    forall a | a in stored ensures Withdrawing(history, tasks - {t}, a) {
      assert Withdrawing(history, tasks, a);
    }
  }

  lemma AddTaskOk(c: Config, s: Sys, side: Side, t: Task)
    requires Inv(c, s) && TaskOk(c, s, side, t)
    ensures Inv(c, AddTask(s, side, t))
  {
    if side.Higher? { MoreTasks(s.stored, s.hi.history, s.hi.tasks, t); }
  }

  lemma DropTaskOk(c: Config, s: Sys, side: Side, t: Task)
    requires Inv(c, s)
    requires side.Higher? && t.AwaitDrop? ==> forall x :: x in t.push.ids ==> x in s.hi.history
    ensures Inv(c, DropTask(s, side, t))
  {
    if side.Higher? { FewerTasks(s.stored, s.hi.history, s.hi.tasks, t); }
  }

  lemma CallPeerOk(c: Config, s: Sys, side: Side, m: Msg, t: Task)
    requires Inv(c, s) && TaskOk(c, s, side, t)
    requires MsgOk(c, m, s.allocs.Keys, s.produced) && !m.PushAck?
    ensures Inv(c, CallPeer(s, side, m, t))
  {
    SendOk(c, s, m);
    AddTaskOk(c, Send(s, m), side, t);
    TickOk(c, AddTask(Send(s, m), side, t));
  }

  lemma FreshKeepsLog(objs: map<Ref, Stream>, log: seq<Delivery>, r: Ref, st: Stream)
    requires LogMatches(log, objs) && r !in objs && st.delivered == {}
    ensures LogMatches(log, objs[r := st])
  {
  }

  lemma FreshKeepsCopies(objs: map<Ref, Stream>, known: set<Alloc>, r: Ref, st: Stream)
    requires r !in objs && st.chunks == map[]
    ensures CopiesIn(objs, known) ==> CopiesIn(objs[r := st], known)
    ensures StoresApart(objs) ==> StoresApart(objs[r := st])
    ensures ConfirmedIn(objs, known) ==> ConfirmedIn(objs[r := st], known)
  {
  }

  lemma FreshKeepsShape(c: Config, n: Node, next: nat, allocs: map<Alloc, Ref>, st: Stream)
    requires ConfigOk(c) && NodeOk(n, next) && 0 < st.size && st.size % c.keyBytes == 0
    ensures NodeOk(n.(reg := n.reg[st.ksid := next], objs := n.objs[next := st]), next + 1)
    ensures SizesOk(c, n.objs) ==> SizesOk(c, n.objs[next := st])
    ensures Owned(c, allocs, n.objs) ==> Owned(c, allocs, n.objs[next := st])
    ensures WaitsOk(c, n.tasks, n.objs) ==> WaitsOk(c, n.tasks, n.objs[next := st])
  {
  }

  lemma NewRecordOk(c: Config, s: Sys, side: Side, st: Stream)
    requires Inv(c, s)
    requires 0 < st.size && st.size % c.keyBytes == 0 && st.chunks == map[] && st.delivered == {}
    ensures Inv(c, NewRecord(s, side, st))
  {
    if side.Lower? { NewLower(c, s, st); } else { NewHigher(c, s, st); }
  }

  lemma NewLower(c: Config, s: Sys, st: Stream)
    requires Inv(c, s)
    requires 0 < st.size && st.size % c.keyBytes == 0 && st.chunks == map[] && st.delivered == {}
    ensures Inv(c, NewRecord(s, Lower, st))
  {
    FreshKeepsShape(c, s.lo, s.next, s.allocs, st);
    FreshKeepsLog(s.lo.objs, s.lo.log, s.next, st);
    PutKeepsSized(c, s.lo.objs, s.next, st);
    PutKeepsOwned(s.lo.objs, s.allocs, s.next, st);
    FreshKeepsCopies(s.lo.objs, s.allocs.Keys, s.next, st);
    FreshKeepsCopies(s.lo.objs, s.stored, s.next, st);
    OneLater(s.hi, s.next);
  }

  lemma NewHigher(c: Config, s: Sys, st: Stream)
    requires Inv(c, s)
    requires 0 < st.size && st.size % c.keyBytes == 0 && st.chunks == map[] && st.delivered == {}
    ensures Inv(c, NewRecord(s, Higher, st))
  {
    FreshKeepsShape(c, s.hi, s.next, s.allocs, st);
    FreshKeepsLog(s.hi.objs, s.hi.log, s.next, st);
    FreshKeepsCopies(s.hi.objs, s.stored, s.next, st);
    OneLater(s.lo, s.next);
  }

  lemma OneLater(n: Node, next: nat)
    requires NodeOk(n, next)
    ensures NodeOk(n, next + 1)
  {
  }

  lemma UnregisterOk(c: Config, s: Sys, side: Side, ksid: Ksid)
    requires Inv(c, s)
    ensures Inv(c, Unregister(s, side, ksid))
  {
  }

  // ------------------------------------------------------------ sweeping

  ghost predicate AllShrink(objs: map<Ref, Stream>, objs': map<Ref, Stream>) {
    objs'.Keys == objs.Keys && forall r :: r in objs ==> Shrinks(objs[r], objs'[r])
  }

  lemma SweepKeepsShape(c: Config, n: Node, n': Node, next: nat, allocs: map<Alloc, Ref>)
    requires ConfigOk(c) && AllShrink(n.objs, n'.objs) && n'.tasks == n.tasks && NodeOk(n, next)
    requires forall k :: k in n'.reg ==> k in n.reg && n'.reg[k] == n.reg[k]
    ensures NodeOk(n', next)
    ensures SizesOk(c, n.objs) ==> SizesOk(c, n'.objs)
    ensures Owned(c, allocs, n.objs) ==> Owned(c, allocs, n'.objs)
    ensures WaitsOk(c, n.tasks, n.objs) ==> WaitsOk(c, n.tasks, n'.objs)
    ensures StoreSized(c, n.objs) ==> StoreSized(c, n'.objs)
  {
  }

  lemma SweepKeepsLog(objs: map<Ref, Stream>, objs': map<Ref, Stream>, log: seq<Delivery>)
    requires AllShrink(objs, objs') && LogMatches(log, objs)
    ensures LogMatches(log, objs')
  {
  }

  lemma SweepKeepsCopies(objs: map<Ref, Stream>, objs': map<Ref, Stream>, known: set<Alloc>)
    requires AllShrink(objs, objs')
    ensures forall allocs :: CopiesOwned(objs, allocs) ==> CopiesOwned(objs', allocs)
    ensures CopiesIn(objs, known) ==> CopiesIn(objs', known)
    ensures StoresApart(objs) ==> StoresApart(objs')
    ensures ConfirmedIn(objs, known) ==> ConfirmedIn(objs', known)
  {
  }

  lemma SweepShrinks(c: Config, s: Sys, side: Side, now: int)
    requires RegOk(At(s, side))
    ensures AllShrink(At(s, side).objs, At(Sweep(c, s, side, now), side).objs)
  {
    var objs := At(s, side).objs;
    forall r | r in objs ensures Shrinks(objs[r], SweepStream(objs[r], now)) {
      SweepStreamShrinks(objs[r], now);
    }
  }

  lemma SweepStreamShrinks(st: Stream, now: int)
    ensures Shrinks(st, st) && Shrinks(st, SweepStream(st, now))
  {
  }

  lemma SweepOk(c: Config, s: Sys, side: Side, now: int)
    requires Inv(c, s)
    ensures Inv(c, Sweep(c, s, side, now))
  {
    if side.Lower? { SweepLower(c, s, now); } else { SweepHigher(c, s, now); }
  }

  lemma SweepLower(c: Config, s: Sys, now: int)
    requires Inv(c, s)
    ensures Inv(c, Sweep(c, s, Lower, now))
  {
    var n' := Sweep(c, s, Lower, now).lo;
    SweepShrinks(c, s, Lower, now);
    SweepKeepsShape(c, s.lo, n', s.next, s.allocs);
    SweepKeepsLog(s.lo.objs, n'.objs, s.lo.log);
    SweepKeepsCopies(s.lo.objs, n'.objs, s.allocs.Keys);
    SweepKeepsCopies(s.lo.objs, n'.objs, s.stored);
  }

  lemma SweepHigher(c: Config, s: Sys, now: int)
    requires Inv(c, s)
    ensures Inv(c, Sweep(c, s, Higher, now))
  {
    var n' := Sweep(c, s, Higher, now).hi;
    SweepShrinks(c, s, Higher, now);
    SweepKeepsShape(c, s.hi, n', s.next, s.allocs);
    SweepKeepsLog(s.hi.objs, n'.objs, s.hi.log);
    SweepKeepsCopies(s.hi.objs, n'.objs, s.stored);
  }

  // ------------------------------------------------------------ the pools

  lemma ProducedGrows(ids: seq<KeyId>, produced: map<KeyId, Origin>, id: KeyId, o: Origin)
    requires (forall x :: x in ids ==> x in produced) && id !in produced
    ensures DataOf(ids, produced[id := o]) == DataOf(ids, produced)
  {
    if ids != [] {
      assert ids[0] in ids;
      ProducedGrows(ids[1..], produced, id, o);
    }
  }

  lemma MadeGrows(known: set<Alloc>, produced: map<KeyId, Origin>, id: KeyId, o: Origin)
    requires AllMade(known, produced) && id !in produced
    ensures AllMade(known, produced[id := o])
    ensures forall a :: a in known ==> id !in a.ids
  {
    forall a | a in known ensures MadeOf(a, produced[id := o]) && id !in a.ids {
      assert MadeOf(a, produced);
      ProducedGrows(a.ids, produced, id, o);
    }
  }

  lemma RememberedOnce(c: Config, side: Side, pool: Pool, issued: seq<KeyId>, history: seq<KeyId>,
                       produced: map<KeyId, Origin>, id: KeyId)
    requires PoolInv(c, side, pool, issued, history, produced) && id !in produced
    ensures id !in pool.byId && id !in pool.withdrawn
  {
    assert forall x :: x in pool.withdrawn ==> x in history;
  }

  lemma AdmitMembers(p: Pool, capacity: nat, k: StoredKey)
    requires 0 < capacity
    ensures forall x :: x in Admit(p, capacity, k).byId ==>
              (x == k.id && Admit(p, capacity, k).byId[x] == k)
              || (x in p.byId && Admit(p, capacity, k).byId[x] == p.byId[x])
    ensures Admit(p, capacity, k).withdrawn == p.withdrawn
  {
  }

  lemma MoreProduced(c: Config, side: Side, pool: Pool, issued: seq<KeyId>, history: seq<KeyId>,
                     produced: map<KeyId, Origin>, id: KeyId, o: Origin)
    requires PoolInv(c, side, pool, issued, history, produced) && id !in produced
    ensures PoolInv(c, side, pool, issued, history, produced[id := o])
  {
  }

  lemma ProduceKeepsPool(c: Config, side: Side, n: Node, produced: map<KeyId, Origin>, id: KeyId, bytes: seq<byte>)
    requires ConfigOk(c) && PoolInv(c, side, n.pool, n.issued, n.history, produced) && id !in produced
    ensures PoolInv(c, side, Admit(n.pool, c.capacity, StoredKey(id, bytes, false)), n.issued, n.history,
                    produced[id := Origin(side, bytes)])
  {
    RememberedOnce(c, side, n.pool, n.issued, n.history, produced, id);
    AdmitOk(n.pool, c.capacity, Outstanding(n.issued), StoredKey(id, bytes, false));
    AdmitMembers(n.pool, c.capacity, StoredKey(id, bytes, false));
  }

  lemma MoreProducedMsgs(c: Config, sent: set<Msg>, known: set<Alloc>, produced: map<KeyId, Origin>, id: KeyId,
                         o: Origin)
    requires ConfigOk(c) && SentInv(c, sent, known, produced) && id !in produced
    ensures SentInv(c, sent, known, produced[id := o])
  {
    forall m | m in sent ensures MsgOk(c, m, known, produced[id := o]) {
      assert MsgOk(c, m, known, produced);
    }
  }

  lemma ProduceOk(c: Config, s: Sys, side: Side, id: KeyId, bytes: seq<byte>)
    requires Inv(c, s) && id !in s.produced && |bytes| == c.keyBytes
    ensures Inv(c, Produce(c, s, side, id, bytes))
  {
    var o := Origin(side, bytes);
    MadeGrows(s.allocs.Keys, s.produced, id, o);
    MoreProducedMsgs(c, s.sent, s.allocs.Keys, s.produced, id, o);
    if side.Lower? {
      ProduceKeepsPool(c, Lower, s.lo, s.produced, id, bytes);
      MoreProduced(c, Higher, s.hi.pool, s.hi.issued, s.hi.history, s.produced, id, o);
      AdmitMembers(s.lo.pool, c.capacity, StoredKey(id, bytes, false));
      StillWithheld(s.allocs.Keys, s.lo.pool.byId, Produce(c, s, side, id, bytes).lo.pool.byId, s.lo.issued, id);
    } else {
      ProduceKeepsPool(c, Higher, s.hi, s.produced, id, bytes);
      MoreProduced(c, Lower, s.lo.pool, s.lo.issued, s.lo.history, s.produced, id, o);
    }
  }

  lemma StillWithheld(known: set<Alloc>, byId: map<KeyId, StoredKey>, byId': map<KeyId, StoredKey>, issued: seq<KeyId>,
                      id: KeyId)
    requires Withheld(known, byId, issued)
    requires forall x :: x in byId' ==> x == id || x in byId
    requires forall a :: a in known ==> id !in a.ids
    ensures Withheld(known, byId', issued)
  {
  }

  lemma SyncKeepsPool(c: Config, side: Side, n: Node, produced: map<KeyId, Origin>, id: KeyId, bytes: seq<byte>)
    requires ConfigOk(c) && PoolInv(c, side, n.pool, n.issued, n.history, produced)
    requires id in produced && produced[id] == Origin(Other(side), bytes)
    ensures PoolInv(c, side, ReceiveSynced(n.pool, c.capacity, id, bytes), n.issued, n.history, produced)
  {
    if id !in n.pool.byId && id !in n.pool.withdrawn {
      AdmitOk(n.pool, c.capacity, Outstanding(n.issued), StoredKey(id, bytes, true));
      AdmitMembers(n.pool, c.capacity, StoredKey(id, bytes, true));
    }
  }

  lemma NotMadeHere(known: set<Alloc>, produced: map<KeyId, Origin>, id: KeyId)
    requires AllMade(known, produced) && id in produced && produced[id].side == Higher
    ensures forall a :: a in known ==> id !in a.ids
  {
    forall a | a in known ensures id !in a.ids {
      assert MadeOf(a, produced);
    }
  }

  lemma RecvSyncOk(c: Config, s: Sys, side: Side, id: KeyId, bytes: seq<byte>)
    requires Inv(c, s) && SyncReq(side, id, bytes) in s.sent
    ensures Inv(c, PutPool(s, side, ReceiveSynced(At(s, side).pool, c.capacity, id, bytes)))
  {
    assert MsgOk(c, SyncReq(side, id, bytes), s.allocs.Keys, s.produced);
    SyncKeepsPool(c, side, At(s, side), s.produced, id, bytes);
    if side.Lower? {
      NotMadeHere(s.allocs.Keys, s.produced, id);
      AdmitMembers(s.lo.pool, c.capacity, StoredKey(id, bytes, true));
      StillWithheld(s.allocs.Keys, s.lo.pool.byId, ReceiveSynced(s.lo.pool, c.capacity, id, bytes).byId, s.lo.issued,
                    id);
    }
  }

  lemma EncKeepsPool(c: Config, side: Side, n: Node, produced: map<KeyId, Origin>, n': Node)
    requires ConfigOk(c) && PoolInv(c, side, n.pool, n.issued, n.history, produced)
    requires var (pool, got) := PopForEnc(n.pool);
             n' == n.(pool := pool, issued := if got.Some? then n.issued + [got.value.id] else n.issued)
    ensures PoolInv(c, side, n'.pool, n'.issued, n'.history, produced)
    ensures n'.pool.byId == n.pool.byId && forall x :: x in n'.issued ==> x in n.issued || x in n.pool.byId
  {
    PopOk(n.pool, c.capacity, Outstanding(n.issued));
    var got := PopForEnc(n.pool).1;
    if got.Some? {
      assert Outstanding(n'.issued) == Outstanding(n.issued) + {got.value.id};
      assert got.value.id in n.pool.byId;
    }
  }

  lemma EncOk(c: Config, s: Sys, side: Side)
    requires Inv(c, s)
    ensures Inv(c, Enc(s, side))
  {
    EncKeepsPool(c, side, At(s, side), s.produced, At(Enc(s, side), side));
    if side.Lower? {
      IssueKeepsWithheld(s.allocs.Keys, s.lo.pool.byId, s.lo.issued, Enc(s, side).lo.issued);
    }
  }

  lemma IssueKeepsWithheld(known: set<Alloc>, byId: map<KeyId, StoredKey>, issued: seq<KeyId>, issued': seq<KeyId>)
    requires Withheld(known, byId, issued) && forall x :: x in issued' ==> x in issued || x in byId
    ensures Withheld(known, byId, issued')
  {
  }

  lemma UnlockOk(c: Config, s: Sys, side: Side)
    requires Inv(c, s)
    ensures Inv(c, With(s, side, At(s, side).(locked := false)))
  {
  }

  /** The producer's gate and its extra target are nothing to the invariant. */
  lemma GateOk(c: Config, s: Sys, side: Side)
    requires Inv(c, s)
    ensures Inv(c, StartRound(s, side)) && Inv(c, AbortRound(s, side))
  {
  }

  lemma AskExtraOk(c: Config, s: Sys, n: nat)
    requires Inv(c, s)
    ensures Inv(c, AskExtra(c, s, n))
  {
  }

  // ------------------------------------------------------------ delivery

  lemma DeliverKeepsLog(objs: map<Ref, Stream>, log: seq<Delivery>, r: Ref, i: nat)
    requires LogMatches(log, objs) && r in objs && i in objs[r].chunks
    ensures LogMatches(log + [Delivery(r, AsAlloc(objs[r].ksid, i, objs[r].chunks[i]))], objs[r := Deliver(objs[r], i)])
  {
    var d := Delivery(r, AsAlloc(objs[r].ksid, i, objs[r].chunks[i]));
    var objs' := objs[r := Deliver(objs[r], i)];
    forall q, j | q in objs' && j in objs'[q].delivered ensures Logged(log + [d], q, j) {
      if q == r && j == i {
        assert d in log + [d];
      } else {
        assert Logged(log, q, j);
        var e :| e in log && e.ref == q && e.key.index == j;
        assert e in log + [d];
      }
    }
  }

  lemma DeliverKeepsCopies(objs: map<Ref, Stream>, known: set<Alloc>, r: Ref, i: nat)
    requires r in objs
    ensures CopiesIn(objs, known) ==> CopiesIn(objs[r := Deliver(objs[r], i)], known)
    ensures StoresApart(objs) ==> StoresApart(objs[r := Deliver(objs[r], i)])
    ensures ConfirmedIn(objs, known) ==> ConfirmedIn(objs[r := Deliver(objs[r], i)], known)
  {
  }

  lemma DeliveredOnce(objs: map<Ref, Stream>, log: seq<Delivery>, d: Delivery)
    requires LogMatches(log, objs) && OncePerRecord(log)
    requires d.ref in objs && d.key.index !in objs[d.ref].delivered
    ensures OncePerRecord(log + [d])
  {
    forall j | 0 <= j < |log| ensures log[j].ref != d.ref || log[j].key.index != d.key.index {
      assert log[j] in log;
    }
  }

  function Handed(n: Node, r: Ref, i: nat): Node
    requires r in n.objs && i in n.objs[r].chunks
  {
    n.(objs := n.objs[r := Deliver(n.objs[r], i)],
       log := n.log + [Delivery(r, AsAlloc(n.objs[r].ksid, i, n.objs[r].chunks[i]))])
  }

  lemma DeliverKeepsLower(c: Config, lo: Node, next: nat, allocs: map<Alloc, Ref>, produced: map<KeyId, Origin>,
                          r: Ref, i: nat)
    requires ConfigOk(c) && NodeOk(lo, next) && LowerInv(c, lo, allocs, produced)
    requires r in lo.objs && i in lo.objs[r].chunks
    ensures NodeOk(Handed(lo, r, i), next) && LowerInv(c, Handed(lo, r, i), allocs, produced)
  {
    ShrinkKeepsShape(c, lo, next, allocs, r, Deliver(lo.objs[r], i));
    DeliverKeepsLog(lo.objs, lo.log, r, i);
    DeliverKeepsCopies(lo.objs, allocs.Keys, r, i);
    PutKeepsSized(c, lo.objs, r, Deliver(lo.objs[r], i));
    PutKeepsOwned(lo.objs, allocs, r, Deliver(lo.objs[r], i));
  }

  lemma DeliverKeepsFull(lo: Node, sent: set<Msg>, stored: set<Alloc>, r: Ref, i: nat)
    requires Full(lo, sent, stored) && LogMatches(lo.log, lo.objs)
    requires r in lo.objs && i in lo.objs[r].chunks && AsAlloc(lo.objs[r].ksid, i, lo.objs[r].chunks[i]) in stored
    ensures Full(Handed(lo, r, i), sent, stored)
  {
    DeliverKeepsCopies(lo.objs, stored, r, i);
    DeliveredOnce(lo.objs, lo.log, Delivery(r, AsAlloc(lo.objs[r].ksid, i, lo.objs[r].chunks[i])));
  }

  lemma DeliverLower(c: Config, s: Sys, r: Ref, i: nat)
    requires Inv(c, s) && r in s.lo.objs && i in s.lo.objs[r].chunks
    requires SingleAlloc(s.allocs.Keys) ==> AsAlloc(s.lo.objs[r].ksid, i, s.lo.objs[r].chunks[i]) in s.stored
    ensures Inv(c, HandOver(s, Lower, r, i, true))
  {
    DeliverKeepsLower(c, s.lo, s.next, s.allocs, s.produced, r, i);
    if SingleAlloc(s.allocs.Keys) {
      DeliverKeepsFull(s.lo, s.sent, s.stored, r, i);
    }
    assert HandOver(s, Lower, r, i, true) == s.(lo := Handed(s.lo, r, i));
  }

  lemma DeliverKeepsHigher(c: Config, hi: Node, next: nat, stored: set<Alloc>, produced: map<KeyId, Origin>, r: Ref,
                           i: nat)
    requires ConfigOk(c) && NodeOk(hi, next) && HigherInv(c, hi, stored, produced)
    requires r in hi.objs && i in hi.objs[r].chunks
    ensures NodeOk(Handed(hi, r, i), next) && HigherInv(c, Handed(hi, r, i), stored, produced)
  {
    ShrinkKeepsShape(c, hi, next, map[], r, Deliver(hi.objs[r], i));
    DeliverKeepsLog(hi.objs, hi.log, r, i);
    DeliverKeepsCopies(hi.objs, stored, r, i);
    DeliveredOnce(hi.objs, hi.log, Delivery(r, AsAlloc(hi.objs[r].ksid, i, hi.objs[r].chunks[i])));
  }

  lemma DeliverHigher(c: Config, s: Sys, r: Ref, i: nat)
    requires Inv(c, s) && r in s.hi.objs && i in s.hi.objs[r].chunks
    ensures Inv(c, HandOver(s, Higher, r, i, true))
  {
    DeliverKeepsHigher(c, s.hi, s.next, s.stored, s.produced, r, i);
    assert HandOver(s, Higher, r, i, true) == s.(hi := Handed(s.hi, r, i));
  }

  lemma HandOverOk(c: Config, s: Sys, side: Side, r: Ref, i: nat, fits: bool)
    requires Inv(c, s) && r in At(s, side).objs
    requires side.Lower? && i in s.lo.objs[r].chunks && SingleAlloc(s.allocs.Keys) ==>
               AsAlloc(s.lo.objs[r].ksid, i, s.lo.objs[r].chunks[i]) in s.stored
    ensures Inv(c, HandOver(s, side, r, i, fits))
  {
    if i in At(s, side).objs[r].chunks && fits {
      if side.Lower? { DeliverLower(c, s, r, i); } else { DeliverHigher(c, s, r, i); }
    }
  }

  // ------------------------------------------------------------ confirmation

  lemma ConfirmKeeps(objs: map<Ref, Stream>, known: set<Alloc>, stored: set<Alloc>, log: seq<Delivery>, r: Ref,
                     push: Alloc, st': Stream)
    requires r in objs && push.index in objs[r].chunks && KeysApart(known) && push in known && push.ids != []
    requires CopiesIn(objs, known) && objs[r].chunks[push.index].ids == push.ids
    requires var st := objs[r];
             st' == st.(chunks := st.chunks[push.index := st.chunks[push.index].(confirmed := true)])
    ensures CopiesIn(objs[r := st'], known)
    ensures LogMatches(log, objs) ==> LogMatches(log, objs[r := st'])
    ensures StoresApart(objs) ==> StoresApart(objs[r := st'])
    ensures push in stored && ConfirmedIn(objs, stored) ==> ConfirmedIn(objs[r := st'], stored)
  {
    var copy := AsAlloc(objs[r].ksid, push.index, objs[r].chunks[push.index]);
    assert copy in known && push.ids[0] in copy.ids && push.ids[0] in push.ids;
    assert copy == push;
    assert AsAlloc(st'.ksid, push.index, st'.chunks[push.index]) == push;
  }

  lemma ConfirmKeepsLower(c: Config, s: Sys, r: Ref, push: Alloc)
    requires ConfigOk(c) && Base(c, s) && r in s.lo.objs && push in s.allocs
    requires push.index in s.lo.objs[r].chunks && s.lo.objs[r].chunks[push.index].ids == push.ids
    ensures Base(c, PutObj(s, Lower, r, Confirmed(s.lo.objs[r], push.index)))
  {
    var st' := Confirmed(s.lo.objs[r], push.index);
    assert MadeOf(push, s.produced);
    ShrinkKeepsShape(c, s.lo, s.next, s.allocs, r, st');
    ConfirmKeeps(s.lo.objs, s.allocs.Keys, s.stored, s.lo.log, r, push, st');
    PutKeepsSized(c, s.lo.objs, r, st');
    PutKeepsOwned(s.lo.objs, s.allocs, r, st');
  }

  lemma ConfirmKeepsFull(c: Config, s: Sys, r: Ref, push: Alloc)
    requires ConfigOk(c) && Base(c, s) && Full(s.lo, s.sent, s.stored) && r in s.lo.objs && push in s.stored
    requires push.index in s.lo.objs[r].chunks && s.lo.objs[r].chunks[push.index].ids == push.ids
    ensures Full(PutObj(s, Lower, r, Confirmed(s.lo.objs[r], push.index)).lo, s.sent, s.stored)
  {
    assert MadeOf(push, s.produced);
    ConfirmKeeps(s.lo.objs, s.allocs.Keys, s.stored, s.lo.log, r, push, Confirmed(s.lo.objs[r], push.index));
  }

  lemma ConfirmOk(c: Config, s: Sys, r: Ref, push: Alloc)
    requires Inv(c, s) && r in s.lo.objs && push in s.allocs
    requires SingleAlloc(s.allocs.Keys) ==> push in s.stored
    ensures Inv(c, Confirm(s, r, push))
  {
    var st := s.lo.objs[r];
    if push.index in st.chunks && st.chunks[push.index].ids == push.ids {
      ConfirmKeepsLower(c, s, r, push);
      if SingleAlloc(s.allocs.Keys) { ConfirmKeepsFull(c, s, r, push); }
    }
  }

  // ------------------------------------------------------------ allocation

  lemma ConcatIsData(keys: seq<StoredKey>, side: Side, byId: map<KeyId, StoredKey>, produced: map<KeyId, Origin>)
    requires Genuine(side, byId, produced)
    requires forall k :: k in keys ==> k.id in byId && byId[k.id] == k
    ensures forall x :: x in IdsOf(keys) ==> x in produced
    ensures Concat(keys) == DataOf(IdsOf(keys), produced)
  {
    if keys != [] {
      assert keys[0] in keys;
      ConcatIsData(keys[1..], side, byId, produced);
      assert IdsOf(keys)[1..] == IdsOf(keys[1..]);
    }
    forall x | x in IdsOf(keys) ensures x in produced {
      var j :| 0 <= j < |keys| && IdsOf(keys)[j] == x;
      assert keys[j] in keys;
    }
  }

  lemma IdsOfMembers(keys: seq<StoredKey>)
    ensures forall x :: x in IdsOf(keys) <==> x in Ids(keys)
    ensures DistinctIds(keys) ==> NoDup(IdsOf(keys))
  {
    forall x | x in IdsOf(keys) ensures x in Ids(keys) {
      var j :| 0 <= j < |keys| && IdsOf(keys)[j] == x;
      assert keys[j] in keys;
    }
    forall x | x in Ids(keys) ensures x in IdsOf(keys) {
      var k :| k in keys && k.id == x;
      var j :| 0 <= j < |keys| && keys[j] == k;
      assert IdsOf(keys)[j] == x;
    }
  }

  /** What taking keys out of the allocator's pool gives a new chunk. */
  lemma TakenKeys(c: Config, pool: Pool, issued: seq<KeyId>, history: seq<KeyId>, known: set<Alloc>,
                  produced: map<KeyId, Origin>, n: nat, a: Alloc)
    requires ConfigOk(c) && PoolInv(c, Lower, pool, issued, history, produced) && Withheld(known, pool.byId, issued)
    requires TakeLocal(pool, c.low, n).1.Some?
    requires var keys := TakeLocal(pool, c.low, n).1.value; a.ids == IdsOf(keys) && a.data == Concat(keys)
    ensures PoolInv(c, Lower, TakeLocal(pool, c.low, n).0, issued, history, produced)
    ensures MadeOf(a, produced) && |a.ids| == n
    ensures forall b, x :: b in known && x in b.ids ==> x !in a.ids
    ensures Withheld(known + {a}, TakeLocal(pool, c.low, n).0.byId, issued)
  {
    var (pool', got) := TakeLocal(pool, c.low, n);
    TakeOk(pool, c.capacity, Outstanding(issued), c.low, n);
    IdsOfMembers(got.value);
    ConcatIsData(got.value, Lower, pool.byId, produced);
    forall x | x in a.ids ensures x in pool.byId && x !in issued && x !in pool'.byId && produced[x].side == Lower {
      var k :| k in got.value && k.id == x;
      assert k in pool.buf;
      assert x in issued ==> x in Outstanding(issued);
    }
  }

  /** A record with a new chunk, its counter moved on. */
  function WithChunk(st: Stream, i: nat, chunk: Chunk): Stream {
    st.(chunks := st.chunks[i := chunk], nextAlloc := st.nextAlloc + 1)
  }

  lemma MoreKnown(c: Config, sent: set<Msg>, known: set<Alloc>, known': set<Alloc>, produced: map<KeyId, Origin>)
    requires ConfigOk(c) && SentInv(c, sent, known, produced) && known <= known'
    ensures SentInv(c, sent, known', produced)
  {
    forall m | m in sent ensures MsgOk(c, m, known', produced) {
      assert MsgOk(c, m, known, produced);
    }
  }

  lemma ChunkKeepsLog(objs: map<Ref, Stream>, log: seq<Delivery>, r: Ref, st': Stream)
    requires LogMatches(log, objs) && r in objs && st'.ksid == objs[r].ksid && st'.delivered == objs[r].delivered
    ensures LogMatches(log, objs[r := st'])
  {
  }

  /** Storing a chunk in a record. */
  lemma ChunkKeepsCopies(objs: map<Ref, Stream>, known: set<Alloc>, stored: set<Alloc>, r: Ref, i: nat, chunk: Chunk,
                         st': Stream)
    requires r in objs && st'.ksid == objs[r].ksid && st'.chunks == objs[r].chunks[i := chunk]
    requires st'.delivered == objs[r].delivered
    requires CopiesIn(objs, known)
    ensures CopiesIn(objs[r := st'], known + {AsAlloc(st'.ksid, i, chunk)})
    ensures ConfirmedIn(objs, stored) && !chunk.confirmed ==> ConfirmedIn(objs[r := st'], stored)
    ensures StoresApart(objs) && i !in st'.delivered ==> StoresApart(objs[r := st'])
  {
  }

  lemma FreshIndexNotDelivered(n: Node, known: set<Alloc>, a: Alloc, r: Ref)
    requires LogMatches(n.log, n.objs) && LoggedIn(n.log, known)
    requires r in n.objs && n.objs[r].ksid == a.ksid
    requires a !in known && SingleAlloc(known + {a})
    ensures a.index !in n.objs[r].delivered
  {
    forall d | d in n.log && d.ref == r ensures d.key.index != a.index {
      assert d.key in known + {a} && a in known + {a};
    }
    assert !Logged(n.log, r, a.index);
  }

  lemma OwnedGrows(c: Config, allocs: map<Alloc, Ref>, objs: map<Ref, Stream>, r: Ref, a: Alloc)
    requires ConfigOk(c) && Owned(c, allocs, objs) && a !in allocs
    requires r in objs && objs[r].ksid == a.ksid && a.index < objs[r].nextAlloc && |a.ids| == objs[r].size / c.keyBytes
    ensures Owned(c, allocs[a := r], objs)
  {
  }

  lemma MadeAndApart(known: set<Alloc>, produced: map<KeyId, Origin>, a: Alloc)
    requires AllMade(known, produced) && KeysApart(known) && MadeOf(a, produced)
    requires forall b, x :: b in known && x in b.ids ==> x !in a.ids
    ensures AllMade(known + {a}, produced) && KeysApart(known + {a})
    ensures a !in known
  {
    assert a.ids[0] in a.ids;
  }

  lemma CreateKeepsOwned(lo: Node, allocs: map<Alloc, Ref>, r: Ref, a: Alloc, chunk: Chunk, st': Stream)
    requires CopiesOwned(lo.objs, allocs) && LogOwned(lo.log, allocs) && a !in allocs
    requires r in lo.objs && a == AsAlloc(st'.ksid, a.index, chunk)
    requires st'.ksid == lo.objs[r].ksid && st'.chunks == lo.objs[r].chunks[a.index := chunk]
    ensures CopiesOwned(lo.objs[r := st'], allocs[a := r]) && LogOwned(lo.log, allocs[a := r])
  {
    forall q, i | q in lo.objs && i in lo.objs[q].chunks
      ensures OwnedBy(AsAlloc(lo.objs[q].ksid, i, lo.objs[q].chunks[i]), allocs[a := r], q)
    {
      assert OwnedBy(AsAlloc(lo.objs[q].ksid, i, lo.objs[q].chunks[i]), allocs, q);
    }
    forall d | d in lo.log ensures OwnedBy(d.key, allocs[a := r], d.ref) {
      assert OwnedBy(d.key, allocs, d.ref);
    }
  }

  /** The allocator's side of a creation. */
  lemma CreateKeepsLower(c: Config, lo: Node, lo': Node, allocs: map<Alloc, Ref>, produced: map<KeyId, Origin>, r: Ref,
                         a: Alloc, n: nat, chunk: Chunk)
    requires ConfigOk(c) && LowerInv(c, lo, allocs, produced) && AllMade(allocs.Keys, produced)
             && KeysApart(allocs.Keys)
    requires r in lo.objs && a.index <= lo.objs[r].nextAlloc && n == lo.objs[r].size / c.keyBytes
    requires TakeLocal(lo.pool, c.low, n).1.Some?
    requires var keys := TakeLocal(lo.pool, c.low, n).1.value;
             a.ids == IdsOf(keys) && a.data == Concat(keys) && a == AsAlloc(lo.objs[r].ksid, a.index, chunk)
    requires var st := lo.objs[r];
             lo' == lo.(pool := TakeLocal(lo.pool, c.low, n).0,
                        objs := lo.objs[r := WithChunk(st, a.index, chunk)],
                        extra := 0)
    ensures LowerInv(c, lo', allocs[a := r], produced)
    ensures a !in allocs && AllMade(allocs.Keys + {a}, produced) && KeysApart(allocs.Keys + {a})
    ensures forall b, x :: b in allocs && x in b.ids ==> x !in a.ids
  {
    var known := allocs.Keys;
    TakenKeys(c, lo.pool, lo.issued, lo.history, known, produced, n, a);
    MadeAndApart(known, produced, a);
    ShrinkKeepsShape(c, lo, 0, allocs, r, lo'.objs[r]);
    OwnedGrows(c, allocs, lo'.objs, r, a);
    ChunkKeepsLog(lo.objs, lo.log, r, lo'.objs[r]);
    ChunkKeepsCopies(lo.objs, known, {}, r, a.index, chunk, lo'.objs[r]);
    PutKeepsSized(c, lo.objs, r, lo'.objs[r]);
    CreateKeepsOwned(lo, allocs, r, a, chunk, lo'.objs[r]);
    assert allocs[a := r].Keys == known + {a};
  }

  lemma CreateKeepsFull(lo: Node, lo': Node, sent: set<Msg>, stored: set<Alloc>, known: set<Alloc>, r: Ref, a: Alloc,
                        chunk: Chunk)
    requires Full(lo, sent, stored) && LogMatches(lo.log, lo.objs) && LoggedIn(lo.log, known)
             && CopiesIn(lo.objs, known)
    requires a !in known && SingleAlloc(known + {a})
    requires r in lo.objs && lo.objs[r].ksid == a.ksid && !chunk.confirmed
    requires var st := lo.objs[r];
             lo'.objs == lo.objs[r := WithChunk(st, a.index, chunk)]
    requires lo'.log == lo.log
    ensures Full(lo', sent, stored)
  {
    FreshIndexNotDelivered(lo, known, a, r);
    ChunkKeepsCopies(lo.objs, known, stored, r, a.index, chunk, lo'.objs[r]);
  }

  lemma SubsetSingle(known: set<Alloc>, a: Alloc)
    requires SingleAlloc(known + {a})
    ensures SingleAlloc(known)
  {
    forall x, y | x in known && y in known && x.ksid == y.ksid && x.index == y.index ensures x == y {
      assert x in known + {a} && y in known + {a};
    }
  }

  lemma CreateShape(c: Config, s: Sys, r: Ref, i: nat, n: nat, now: int)
    requires r in s.lo.objs && TakeLocal(s.lo.pool, c.low, n).1.Some?
    ensures var (pool, got) := TakeLocal(s.lo.pool, c.low, n);
            var st := s.lo.objs[r];
            var chunk := Chunk(IdsOf(got.value), Concat(got.value), false, now);
            Create(s, r, i, pool, got.value, now)
            == s.(lo := s.lo.(pool := pool,
                              objs := s.lo.objs[r := WithChunk(st, i, chunk)],
                              extra := 0),
                  allocs := s.allocs[AsAlloc(st.ksid, i, chunk) := r])
  {
  }

  lemma SharedGrows(c: Config, s: Sys, r: Ref, a: Alloc)
    requires ConfigOk(c) && SharedInv(c, s.sent, s.allocs.Keys, s.stored, s.produced)
    requires AllMade(s.allocs.Keys + {a}, s.produced) && KeysApart(s.allocs.Keys + {a})
    ensures SharedInv(c, s.sent, s.allocs[a := r].Keys, s.stored, s.produced)
  {
    assert s.allocs[a := r].Keys == s.allocs.Keys + {a};
    MoreKnown(c, s.sent, s.allocs.Keys, s.allocs.Keys + {a}, s.produced);
  }

  lemma CreateKeepsBase(c: Config, s: Sys, r: Ref, a: Alloc, n: nat, chunk: Chunk, lo': Node)
    requires ConfigOk(c) && Base(c, s)
    requires r in s.lo.objs && a.index <= s.lo.objs[r].nextAlloc && n == s.lo.objs[r].size / c.keyBytes
    requires TakeLocal(s.lo.pool, c.low, n).1.Some?
    requires var keys := TakeLocal(s.lo.pool, c.low, n).1.value;
             a.ids == IdsOf(keys) && a.data == Concat(keys) && a == AsAlloc(s.lo.objs[r].ksid, a.index, chunk)
    requires var st := s.lo.objs[r];
             lo' == s.lo.(pool := TakeLocal(s.lo.pool, c.low, n).0,
                          objs := s.lo.objs[r := WithChunk(st, a.index, chunk)],
                          extra := 0)
    ensures Base(c, s.(lo := lo', allocs := s.allocs[a := r]))
  {
    CreateKeepsLower(c, s.lo, lo', s.allocs, s.produced, r, a, n, chunk);
    ShrinkKeepsShape(c, s.lo, s.next, s.allocs, r, lo'.objs[r]);
    SharedGrows(c, s, r, a);
  }

  lemma CreateKeepsWhole(c: Config, s: Sys, r: Ref, a: Alloc, chunk: Chunk, lo': Node)
    requires ConfigOk(c) && LowerInv(c, s.lo, s.allocs, s.produced) && !chunk.confirmed
    requires SingleAlloc(s.allocs.Keys) ==> Full(s.lo, s.sent, s.stored)
    requires a !in s.allocs && r in s.lo.objs && s.lo.objs[r].ksid == a.ksid && lo'.log == s.lo.log
    requires var st := s.lo.objs[r];
             lo'.objs == s.lo.objs[r := WithChunk(st, a.index, chunk)]
    ensures SingleAlloc(s.allocs[a := r].Keys) ==> Full(lo', s.sent, s.stored)
  {
    if SingleAlloc(s.allocs[a := r].Keys) {
      assert s.allocs[a := r].Keys == s.allocs.Keys + {a};
      SubsetSingle(s.allocs.Keys, a);
      CreateKeepsFull(s.lo, lo', s.sent, s.stored, s.allocs.Keys, r, a, chunk);
    }
  }

  lemma CreateKeepsInv(c: Config, s: Sys, r: Ref, a: Alloc, n: nat, chunk: Chunk, lo': Node)
    requires Inv(c, s) && !chunk.confirmed
    requires r in s.lo.objs && a.index <= s.lo.objs[r].nextAlloc && n == s.lo.objs[r].size / c.keyBytes
    requires TakeLocal(s.lo.pool, c.low, n).1.Some?
    requires var keys := TakeLocal(s.lo.pool, c.low, n).1.value;
             a.ids == IdsOf(keys) && a.data == Concat(keys) && a == AsAlloc(s.lo.objs[r].ksid, a.index, chunk)
    requires var st := s.lo.objs[r];
             lo' == s.lo.(pool := TakeLocal(s.lo.pool, c.low, n).0,
                          objs := s.lo.objs[r := WithChunk(st, a.index, chunk)],
                          extra := 0)
    ensures Inv(c, s.(lo := lo', allocs := s.allocs[a := r]))
  {
    CreateKeepsBase(c, s, r, a, n, chunk, lo');
    CreateIsNew(c, s, r, a, n);
    CreateKeepsWhole(c, s, r, a, chunk, lo');
  }

  lemma CreateOk(c: Config, s: Sys, r: Ref, i: nat, n: nat, now: int)
    requires Inv(c, s) && r in s.lo.objs
    requires i <= s.lo.objs[r].nextAlloc && n == s.lo.objs[r].size / c.keyBytes
    requires TakeLocal(s.lo.pool, c.low, n).1.Some?
    ensures var (pool, got) := TakeLocal(s.lo.pool, c.low, n);
            Inv(c, Create(s, r, i, pool, got.value, now))
  {
    var (pool, got) := TakeLocal(s.lo.pool, c.low, n);
    var chunk := Chunk(IdsOf(got.value), Concat(got.value), false, now);
    CreateShape(c, s, r, i, n, now);
    CreateKeepsInv(c, s, r, AsAlloc(s.lo.objs[r].ksid, i, chunk), n, chunk, Create(s, r, i, pool, got.value, now).lo);
  }

  /** What an allocation relies on: the pool and the chunks so far, not the records. */
  ghost predicate PoolReady(c: Config, lo: Node, known: set<Alloc>, produced: map<KeyId, Origin>) {
    && PoolInv(c, Lower, lo.pool, lo.issued, lo.history, produced)
    && Withheld(known, lo.pool.byId, lo.issued) && AllMade(known, produced) && KeysApart(known)
  }

  /** The keys of a new chunk were in no chunk before. */
  lemma CreateIsNew(c: Config, s: Sys, r: Ref, a: Alloc, n: nat)
    requires ConfigOk(c) && PoolReady(c, s.lo, s.allocs.Keys, s.produced) && TakeLocal(s.lo.pool, c.low, n).1.Some?
    requires var keys := TakeLocal(s.lo.pool, c.low, n).1.value; a.ids == IdsOf(keys) && a.data == Concat(keys)
    ensures a !in s.allocs
    ensures forall b, x :: b in s.allocs && x in b.ids ==> x !in a.ids
  {
    TakenKeys(c, s.lo.pool, s.lo.issued, s.lo.history, s.allocs.Keys, s.produced, n, a);
    MadeAndApart(s.allocs.Keys, s.produced, a);
  }

  lemma PushOk(c: Config, s: Sys, r: Ref, i: nat, caller: Caller, fits: bool)
    requires Inv(c, s) && r in s.lo.objs && i in s.lo.objs[r].chunks
    ensures Inv(c, Push(s, r, i, caller, fits))
  {
    var st := s.lo.objs[r];
    var push := AsAlloc(st.ksid, i, st.chunks[i]);
    assert push in s.allocs;
    if st.chunks[i].confirmed {
      ObtainedOk(c, s, r, i, caller, fits);
    } else {
      CallPeerOk(c, s, Lower, PushReq(s.next, push), AwaitPush(s.next, r, push, caller));
    }
  }

  lemma ObtainedOk(c: Config, s: Sys, r: Ref, i: nat, caller: Caller, fits: bool)
    requires Inv(c, s) && r in s.lo.objs
    requires i in s.lo.objs[r].chunks && SingleAlloc(s.allocs.Keys) ==>
               AsAlloc(s.lo.objs[r].ksid, i, s.lo.objs[r].chunks[i]) in s.stored
    ensures Inv(c, Obtained(s, r, i, caller, fits))
  {
    match caller
    case GetKeyCall => HandOverOk(c, s, Lower, r, i, fits);
    case AllocateCall(tag) => SendOk(c, s, AllocateOk(tag));
  }

  lemma TakeNowOk(c: Config, s: Sys, r: Ref, i: nat, n: nat, caller: Caller, fits: bool, now: int)
    requires Inv(c, s) && r in s.lo.objs
    requires i <= s.lo.objs[r].nextAlloc && n == s.lo.objs[r].size / c.keyBytes
    ensures Inv(c, TakeNow(c, s, r, i, n, caller, fits, now))
  {
    var (pool, got) := TakeLocal(s.lo.pool, c.low, n);
    if got.Some? {
      CreateOk(c, s, r, i, n, now);
      PushOk(c, Create(s, r, i, pool, got.value, now), r, i, caller, fits);
    } else {
      AskExtraOk(c, s, n);
    }
  }

  lemma ObtainLowerOk(c: Config, s: Sys, r: Ref, i: nat, caller: Caller, fits: bool, now: int)
    requires Inv(c, s) && r in s.lo.objs
    ensures Inv(c, ObtainLower(c, s, r, i, caller, fits, now))
  {
    var st := s.lo.objs[r];
    var n := st.size / c.keyBytes;
    if i in st.chunks {
      PushOk(c, s, r, i, caller, fits);
    } else if i == st.nextAlloc && HeldKeys(s.lo) + n <= c.capKeys {
      if s.lo.locked {
        var t := AwaitTake(s.next, r, i, n, caller);
        AddTaskOk(c, s, Lower, t);
        TickOk(c, AddTask(s, Lower, t));
      } else {
        TakeNowOk(c, s, r, i, n, caller, fits, now);
      }
    }
  }

  // ------------------------------------------------------------ pushes arriving

  lemma WithdrawKeepsPool(c: Config, hi: Node, produced: map<KeyId, Origin>, a: Alloc)
    requires ConfigOk(c) && PoolInv(c, Higher, hi.pool, hi.issued, hi.history, produced) && MadeOf(a, produced)
    ensures PoolInv(c, Higher, DropReplicas(hi.pool, c.capacity, a.ids), hi.issued,
                    hi.history + NewlyWithdrawn(hi.pool, a.ids), produced)
    ensures forall x :: x in a.ids ==> x in hi.history + NewlyWithdrawn(hi.pool, a.ids)
  {
    DropReplicasOk(hi.pool, c.capacity, Outstanding(hi.issued), a.ids);
    DropKeepsHistory(hi.history, hi.pool, c.capacity, Outstanding(hi.issued), a.ids);
    assert Outstanding(hi.issued) - (set x | x in a.ids) == Outstanding(hi.issued);
    DropEachOk(hi.pool, Outstanding(hi.issued), a.ids);
    assert forall x :: x in NewlyWithdrawn(hi.pool, a.ids) ==> x in DropEach(hi.pool, a.ids).withdrawn;
    assert forall x :: x in hi.pool.withdrawn ==> x in hi.history;
  }

  lemma LongerHistory(stored: set<Alloc>, history: seq<KeyId>, more: seq<KeyId>, tasks: set<Task>)
    requires AllWithdrawing(stored, history, tasks)
    ensures AllWithdrawing(stored, history + more, tasks)
  {
    forall a | a in stored ensures Withdrawing(history + more, tasks, a) {
      assert Withdrawing(history, tasks, a);
    }
  }

  lemma WithdrawOk(c: Config, s: Sys, a: Alloc)
    requires Inv(c, s) && a in s.allocs
    ensures Inv(c, WithdrawIds(c, s, a.ids))
    ensures forall x :: x in a.ids ==> x in WithdrawIds(c, s, a.ids).hi.history
  {
    assert MadeOf(a, s.produced);
    WithdrawKeepsPool(c, s.hi, s.produced, a);
    LongerHistory(s.stored, s.hi.history, NewlyWithdrawn(s.hi.pool, a.ids), s.hi.tasks);
  }

  /** A pushed chunk in the store of record `r`. */
  function AfterStore(s: Sys, r: Ref, push: Alloc, now: int, tasks: set<Task>): Sys
    requires r in s.hi.objs
  {
    s.(hi := s.hi.(tasks := tasks, objs := s.hi.objs[r := Stored(s.hi.objs[r], push.index, push.ids, push.data, now)]),
       stored := s.stored + {push})
  }

  /** Storing a pushed chunk, once its ids are withdrawn or a task for that is waiting. */
  lemma StoreOk(c: Config, s: Sys, r: Ref, push: Alloc, now: int, tasks: set<Task>)
    requires Inv(c, s) && push in s.allocs
    requires r in s.hi.objs && s.hi.objs[r].ksid == push.ksid && push.index !in s.hi.objs[r].delivered
    requires s.hi.tasks <= tasks && Withdrawing(s.hi.history, tasks, push)
    requires forall t :: t in tasks && t !in s.hi.tasks ==> t.AwaitDrop? && t.ref == r && t.push == push
    ensures Inv(c, AfterStore(s, r, push, now, tasks))
  {
    var st := s.hi.objs[r];
    var chunk := Chunk(push.ids, push.data, true, now);
    var st' := st.(chunks := st.chunks[push.index := chunk]);
    ShrinkKeepsShape(c, s.hi, s.next, s.allocs, r, st');
    ChunkKeepsLog(s.hi.objs, s.hi.log, r, st');
    ChunkKeepsCopies(s.hi.objs, s.stored, {}, r, push.index, chunk, st');
    MoreStored(s, push, tasks);
  }

  lemma MoreStored(s: Sys, push: Alloc, tasks: set<Task>)
    requires s.hi.tasks <= tasks && Withdrawing(s.hi.history, tasks, push)
    requires AllWithdrawing(s.stored, s.hi.history, s.hi.tasks)
    ensures AllWithdrawing(s.stored + {push}, s.hi.history, tasks)
  {
    forall a | a in s.stored + {push} ensures Withdrawing(s.hi.history, tasks, a) {
      if a != push { assert Withdrawing(s.hi.history, s.hi.tasks, a); }
    }
  }

  lemma AcceptedOk(c: Config, s: Sys, r: Ref, tag: nat, push: Alloc, now: int)
    requires Inv(c, s) && r in s.hi.objs && push in s.stored
    ensures Inv(c, Accepted(s, r, tag, push, now))
  {
    var st := s.hi.objs[r].(lastActivity := now);
    PutOk(c, s, Higher, r, st);
    SendOk(c, PutObj(s, Higher, r, st), PushAck(tag, push));
  }

  /** A repeated push is acknowledged only for a chunk that was stored before. */
  lemma RepeatIsStored(c: Config, s: Sys, push: Alloc)
    requires Inv(c, s) && SingleAlloc(s.allocs.Keys) && push in s.allocs
    requires JudgePush(s.hi, push).Repeat?
    ensures push in s.stored
  {
    var r := s.hi.reg[push.ksid];
    var st := s.hi.objs[r];
    if push.index in st.chunks {
      assert AsAlloc(st.ksid, push.index, st.chunks[push.index]) == push;
    } else {
      assert Logged(s.hi.log, r, push.index);
      var d :| d in s.hi.log && d.ref == r && d.key.index == push.index;
      assert d.key == push;
    }
  }

  lemma StoreLockedShape(c: Config, s: Sys, tag: nat, push: Alloc, now: int)
    requires RegOk(s.hi) && JudgePush(s.hi, push).Store? && s.hi.locked
    ensures var r := s.hi.reg[push.ksid];
            RecvPush(c, s, tag, push, now) == AfterStore(s, r, push, now, s.hi.tasks + {AwaitDrop(tag, r, push)})
  {
  }

  lemma StoreUnlockedShape(c: Config, s: Sys, tag: nat, push: Alloc, now: int)
    requires RegOk(s.hi) && JudgePush(s.hi, push).Store? && !s.hi.locked
    ensures var r := s.hi.reg[push.ksid];
            RecvPush(c, s, tag, push, now)
            == Accepted(AfterStore(WithdrawIds(c, s, push.ids), r, push, now, s.hi.tasks), r, tag, push, now)
  {
  }

  lemma StoreLockedOk(c: Config, s: Sys, tag: nat, push: Alloc, now: int)
    requires Inv(c, s) && push in s.allocs && JudgePush(s.hi, push).Store? && s.hi.locked
    ensures Inv(c, RecvPush(c, s, tag, push, now))
  {
    var r := s.hi.reg[push.ksid];
    var t := AwaitDrop(tag, r, push);
    assert t in s.hi.tasks + {t};
    StoreOk(c, s, r, push, now, s.hi.tasks + {t});
    StoreLockedShape(c, s, tag, push, now);
  }

  lemma StoreUnlockedOk(c: Config, s: Sys, tag: nat, push: Alloc, now: int)
    requires Inv(c, s) && push in s.allocs && JudgePush(s.hi, push).Store? && !s.hi.locked
    ensures Inv(c, RecvPush(c, s, tag, push, now))
  {
    var r := s.hi.reg[push.ksid];
    var s1 := WithdrawIds(c, s, push.ids);
    WithdrawOk(c, s, push);
    StoreOk(c, s1, r, push, now, s1.hi.tasks);
    AcceptedOk(c, AfterStore(s1, r, push, now, s1.hi.tasks), r, tag, push, now);
    StoreUnlockedShape(c, s, tag, push, now);
  }

  lemma RecvPushOk(c: Config, s: Sys, tag: nat, push: Alloc, now: int)
    requires Inv(c, s) && PushReq(tag, push) in s.sent
    ensures Inv(c, RecvPush(c, s, tag, push, now))
  {
    assert MsgOk(c, PushReq(tag, push), s.allocs.Keys, s.produced);
    match JudgePush(s.hi, push)
    case Unknown =>
    case Conflict =>
    case Repeat =>
      if SingleAlloc(s.allocs.Keys) { RepeatIsStored(c, s, push); }
      SendOk(c, s, PushAck(tag, push));
    case Store =>
      if s.hi.locked { StoreLockedOk(c, s, tag, push, now); } else { StoreUnlockedOk(c, s, tag, push, now); }
  }

  lemma ResumeDropOk(c: Config, s: Sys, t: Task, now: int)
    requires Inv(c, s) && t in s.hi.tasks && t.AwaitDrop?
    ensures Inv(c, ResumeDrop(c, s, t, now))
  {
    assert t.push in s.stored;
    var s1 := WithdrawIds(c, s, t.push.ids);
    WithdrawOk(c, s, t.push);
    DropTaskOk(c, s1, Higher, t);
    assert DropTask(s1, Higher, t) == WithdrawIds(c, DropTask(s, Higher, t), t.push.ids);
    AcceptedOk(c, DropTask(s1, Higher, t), t.ref, t.tag, t.push, now);
  }

  // ------------------------------------------------------------ handlers

  lemma FetchOk(c: Config, s: Sys, side: Side, r: Ref, want: nat, fits: bool, now: int)
    requires Inv(c, s) && r in At(s, side).objs
    ensures Inv(c, Fetch(c, s, side, r, want, fits, now))
  {
    var st := At(s, side).objs[r];
    if want in st.chunks && (side.Higher? || st.chunks[want].confirmed) {
      HandOverOk(c, s, side, r, want, fits);
    } else if side.Lower? {
      ObtainLowerOk(c, s, r, want, GetKeyCall, fits, now);
    } else {
      CallPeerOk(c, s, Higher, AllocateReq(s.next, st.ksid, want), AwaitAllocate(s.next, r, want));
    }
  }

  lemma TouchOk(c: Config, s: Sys, side: Side, r: Ref, now: int)
    requires Inv(c, s) && r in At(s, side).objs
    ensures Inv(c, PutObj(s, side, r, At(s, side).objs[r].(lastActivity := now)))
  {
    PutOk(c, s, side, r, At(s, side).objs[r].(lastActivity := now));
  }

  lemma GetKeyOk(c: Config, s: Sys, side: Side, ksid: Ksid, index: Option<nat>, fits: bool, now: int)
    requires Inv(c, s)
    ensures Inv(c, GetKey(c, s, side, ksid, index, fits, now))
  {
    var n := At(s, side);
    if ksid in n.reg && n.objs[n.reg[ksid]].state != Closed && !n.objs[n.reg[ksid]].localClosed {
      var r := n.reg[ksid];
      var st := n.objs[r];
      TouchOk(c, s, side, r, now);
      if st.state != PendingPeer {
        FetchOk(c, PutObj(s, side, r, st.(lastActivity := now)), side, r,
                Wanted(st, index), fits, now);
      }
    }
  }

  lemma OpenNewOk(c: Config, s: Sys, side: Side, ksid: Ksid, apps: Apps, size: nat, ttl: int, predefined: bool,
                  now: int)
    requires Inv(c, s) && 0 < size && size % c.keyBytes == 0
    ensures Inv(c, OpenNew(s, side, ksid, apps, size, ttl, predefined, now))
  {
    var st := NewStream(ksid, apps, size, ttl, true, now);
    NewRecordOk(c, s, side, st);
    var t := NewRecord(s, side, st);
    CallPeerOk(c, t, side, AnnounceReq(Other(side), t.next, ksid, apps, size, ttl),
               AwaitAnnounce(t.next, ksid, predefined));
  }

  lemma JoinOk(c: Config, s: Sys, side: Side, ksid: Ksid, apps: Apps)
    requires Inv(c, s)
    ensures Inv(c, Join(s, side, ksid, apps))
  {
    var n := At(s, side);
    if ksid in n.reg {
      CallPeerOk(c, s, side, EstablishReq(Other(side), s.next, ksid), AwaitEstablish(s.next, n.reg[ksid]));
    }
  }

  lemma CloseOk(c: Config, s: Sys, side: Side, ksid: Ksid)
    requires Inv(c, s)
    ensures Inv(c, Close(s, side, ksid))
  {
    var n := At(s, side);
    if ksid in n.reg && n.objs[n.reg[ksid]].state != Closed {
      var r := n.reg[ksid];
      var st := n.objs[r].(localClosed := true);
      PutOk(c, s, side, r, st);
      CallPeerOk(c, PutObj(s, side, r, st), side, CloseReq(Other(side), ksid), AwaitClose(s.next, r));
    }
  }

  lemma ResumeTakeOk(c: Config, s: Sys, t: Task, fits: bool, now: int)
    requires Inv(c, s) && t in s.lo.tasks && t.AwaitTake?
    ensures Inv(c, ResumeTake(c, s, t, fits, now))
  {
    DropTaskOk(c, s, Lower, t);
    TakeNowOk(c, DropTask(s, Lower, t), t.ref, t.index, t.n, t.caller, fits, now);
  }

  /** A chunk found again after its push was confirmed is one the peer stored. */
  lemma ConfirmedCopyStored(c: Config, s: Sys, r: Ref, push: Alloc)
    requires Inv(c, s) && SingleAlloc(s.allocs.Keys) && push in s.stored
    requires r in s.lo.objs && push.index in s.lo.objs[r].chunks && s.lo.objs[r].ksid == push.ksid
    ensures AsAlloc(push.ksid, push.index, s.lo.objs[r].chunks[push.index]) in s.stored
  {
    var copy := AsAlloc(push.ksid, push.index, s.lo.objs[r].chunks[push.index]);
    assert copy in s.allocs && push in s.allocs;
  }

  lemma PushConfirmedOk(c: Config, s: Sys, t: Task, fits: bool)
    requires Inv(c, s) && t.AwaitPush? && t.push in s.allocs
    requires t.ref in s.lo.objs && s.lo.objs[t.ref].ksid == t.push.ksid
    requires SingleAlloc(s.allocs.Keys) ==> t.push in s.stored
    ensures Inv(c, Obtained(Confirm(s, t.ref, t.push), t.ref, t.push.index, t.caller, fits))
  {
    ConfirmOk(c, s, t.ref, t.push);
    var s2 := Confirm(s, t.ref, t.push);
    if SingleAlloc(s2.allocs.Keys) && t.push.index in s2.lo.objs[t.ref].chunks {
      ConfirmedCopyStored(c, s2, t.ref, t.push);
    }
    ObtainedOk(c, s2, t.ref, t.push.index, t.caller, fits);
  }

  lemma AckedIsStored(c: Config, s: Sys, t: Task)
    requires Inv(c, s) && t in s.lo.tasks && t.AwaitPush?
    ensures t.push in s.allocs && t.ref in s.lo.objs && s.lo.objs[t.ref].ksid == t.push.ksid
    ensures PushAck(t.tag, t.push) in s.sent && SingleAlloc(s.allocs.Keys) ==> t.push in s.stored
  {
  }

  lemma ResumePushOk(c: Config, s: Sys, t: Task, outcome: Outcome, fits: bool, now: int)
    requires Inv(c, s) && t in s.lo.tasks && t.AwaitPush?
    requires outcome.Ok? ==> PushAck(t.tag, t.push) in s.sent
    ensures Inv(c, ResumePush(s, t, outcome, fits, now))
  {
    AckedIsStored(c, s, t);
    DropTaskOk(c, s, Lower, t);
    var s1 := DropTask(s, Lower, t);
    match outcome
    case Ok => PushConfirmedOk(c, s1, t, fits);
    case LostStream => PutOk(c, s1, Lower, t.ref, ToClosed(s1.lo.objs[t.ref], now));
    case Failed =>
  }

  lemma ResumeAllocateOk(c: Config, s: Sys, t: Task, outcome: Outcome, fits: bool, now: int)
    requires Inv(c, s) && t in s.hi.tasks && t.AwaitAllocate?
    ensures Inv(c, ResumeAllocate(s, t, outcome, fits, now))
  {
    DropTaskOk(c, s, Higher, t);
    var s1 := DropTask(s, Higher, t);
    match outcome
    case Ok => HandOverOk(c, s1, Higher, t.ref, t.index, fits);
    case LostStream => PutOk(c, s1, Higher, t.ref, ToClosed(s1.hi.objs[t.ref], now));
    case Failed =>
  }

  lemma ResumeAnnounceOk(c: Config, s: Sys, side: Side, t: Task, ok: bool)
    requires Inv(c, s) && t in At(s, side).tasks && t.AwaitAnnounce?
    ensures Inv(c, ResumeAnnounce(s, side, t, ok))
  {
    DropTaskOk(c, s, side, t);
    var s1 := DropTask(s, side, t);
    if !ok {
      UnregisterOk(c, s1, side, t.ksid);
    } else if t.predefined {
      AddTaskOk(c, s1, side, AwaitOpen(t.tag, t.ksid));
    }
  }

  lemma ResumeOpenOk(c: Config, s: Sys, side: Side, t: Task, established: bool)
    requires Inv(c, s) && t in At(s, side).tasks && t.AwaitOpen?
    ensures Inv(c, ResumeOpen(s, side, t, established))
  {
    DropTaskOk(c, s, side, t);
    var s1 := DropTask(s, side, t);
    if !established {
      UnregisterOk(c, s1, side, t.ksid);
      SendOk(c, Unregister(s1, side, t.ksid), WithdrawReq(Other(side), t.ksid));
    }
  }

  lemma ResumeEstablishOk(c: Config, s: Sys, side: Side, t: Task, ok: bool, now: int)
    requires Inv(c, s) && t in At(s, side).tasks && t.AwaitEstablish?
    ensures Inv(c, ResumeEstablish(s, side, t, ok, now))
  {
    DropTaskOk(c, s, side, t);
    var s1 := DropTask(s, side, t);
    PutOk(c, s1, side, t.ref, At(s1, side).objs[t.ref].(localOpen := true, state := Established, lastActivity := now));
  }

  lemma ResumeCloseOk(c: Config, s: Sys, side: Side, t: Task, now: int)
    requires Inv(c, s) && t in At(s, side).tasks && t.AwaitClose?
    ensures Inv(c, ResumeClose(s, side, t, now))
  {
    DropTaskOk(c, s, side, t);
    var s1 := DropTask(s, side, t);
    var st := At(s1, side).objs[t.ref];
    PutOk(c, s1, side, t.ref, if st.peerClosed then ToClosed(st, now) else st.(state := Closing));
  }

  lemma RecvAllocateOk(c: Config, s: Sys, tag: nat, ksid: Ksid, i: nat, now: int)
    requires Inv(c, s)
    ensures Inv(c, RecvAllocate(c, s, tag, ksid, i, now))
  {
    if ksid in s.lo.reg {
      ObtainLowerOk(c, s, s.lo.reg[ksid], i, AllocateCall(tag), true, now);
    }
  }

  lemma AnnouncedAgainOk(c: Config, s: Sys, side: Side, tag: nat, r: Ref)
    requires Inv(c, s) && r in At(s, side).objs
    ensures var st := At(s, side).objs[r];
            Inv(c, Send(PutObj(s, side, r,
                               st.(peerOpen := true, state := if st.localOpen then Established else st.state)),
                        AnnounceAck(tag)))
  {
    var st := At(s, side).objs[r];
    var st' := st.(peerOpen := true, state := if st.localOpen then Established else st.state);
    PutOk(c, s, side, r, st');
    SendOk(c, PutObj(s, side, r, st'), AnnounceAck(tag));
  }

  lemma RecvAnnounceOk(c: Config, s: Sys, side: Side, tag: nat, ksid: Ksid, apps: Apps, size: nat, ttl: int, now: int)
    requires Inv(c, s) && AnnounceReq(side, tag, ksid, apps, size, ttl) in s.sent
    ensures Inv(c, RecvAnnounce(s, side, tag, ksid, apps, size, ttl, now))
  {
    assert MsgOk(c, AnnounceReq(side, tag, ksid, apps, size, ttl), s.allocs.Keys, s.produced);
    var n := At(s, side);
    if ksid in n.reg {
      AnnouncedAgainOk(c, s, side, tag, n.reg[ksid]);
    } else {
      var st := NewStream(ksid, apps, size, ttl, false, now);
      NewRecordOk(c, s, side, st);
      SendOk(c, NewRecord(s, side, st), AnnounceAck(tag));
    }
  }

  lemma RecvEstablishOk(c: Config, s: Sys, side: Side, tag: nat, ksid: Ksid, now: int)
    requires Inv(c, s)
    ensures Inv(c, RecvEstablish(s, side, tag, ksid, now))
  {
    var n := At(s, side);
    if ksid in n.reg {
      var r := n.reg[ksid];
      var st := n.objs[r].(peerOpen := true, state := Established, lastActivity := now);
      PutOk(c, s, side, r, st);
      SendOk(c, PutObj(s, side, r, st), EstablishAck(tag));
    }
  }

  lemma RecvWithdrawOk(c: Config, s: Sys, side: Side, ksid: Ksid)
    requires Inv(c, s)
    ensures Inv(c, RecvWithdraw(s, side, ksid))
  {
    UnregisterOk(c, s, side, ksid);
  }

  lemma RecvCloseOk(c: Config, s: Sys, side: Side, ksid: Ksid, now: int)
    requires Inv(c, s)
    ensures Inv(c, RecvClose(s, side, ksid, now))
  {
    var n := At(s, side);
    if ksid in n.reg {
      var st := n.objs[n.reg[ksid]].(peerClosed := true);
      PutOk(c, s, side, n.reg[ksid], if st.localClosed || !st.localOpen then ToClosed(st, now) else st);
    }
  }

  lemma PoolStepOk(c: Config, s: Sys, p: PoolStep)
    requires Inv(c, s) && PoolEnabled(c, s, p)
    ensures Inv(c, DoPool(c, s, p))
  {
    match p
    case SStart(side) => GateOk(c, s, side);
    case SAbort(side) => GateOk(c, s, side);
    case SProduce(side, id, bytes) => ProduceOk(c, s, side, id, bytes);
    case SSynced(side) => UnlockOk(c, s, side);
    case SRecvSync(side, id, bytes) => RecvSyncOk(c, s, side, id, bytes);
    case SEnc(side) => EncOk(c, s, side);
  }

  lemma HomeStepOk(c: Config, s: Sys, h: HomeStep)
    requires Inv(c, s) && HomeEnabled(c, s, h)
    ensures Inv(c, DoHome(c, s, h))
  {
    match h
    case SGetKey(side, ksid, want, fits, now) => GetKeyOk(c, s, side, ksid, want, fits, now);
    case SOpenNew(side, ksid, apps, size, ttl, predefined, now) =>
      OpenNewOk(c, s, side, ksid, apps, size, ttl, predefined, now);
    case SJoin(side, ksid, apps) => JoinOk(c, s, side, ksid, apps);
    case SClose(side, ksid) => CloseOk(c, s, side, ksid);
    case SSweep(side, now) => SweepOk(c, s, side, now);
  }

  lemma ResumeStepOk(c: Config, s: Sys, r: ResumeStep)
    requires Inv(c, s) && ResumeEnabled(s, r)
    ensures Inv(c, DoResume(c, s, r))
  {
    match r
    case SResumeTake(t, fits, now) => ResumeTakeOk(c, s, t, fits, now);
    case SResumePush(t, outcome, fits, now) => ResumePushOk(c, s, t, outcome, fits, now);
    case SResumeAllocate(t, outcome, fits, now) => ResumeAllocateOk(c, s, t, outcome, fits, now);
    case SResumeAnnounce(side, t, ok) => ResumeAnnounceOk(c, s, side, t, ok);
    case SResumeOpen(side, t, ok) => ResumeOpenOk(c, s, side, t, ok);
    case SResumeEstablish(side, t, ok, now) => ResumeEstablishOk(c, s, side, t, ok, now);
    case SResumeClose(side, t, now) => ResumeCloseOk(c, s, side, t, now);
    case SResumeDrop(t, now) => ResumeDropOk(c, s, t, now);
  }

  lemma PeerStepOk(c: Config, s: Sys, m: PeerStep)
    requires Inv(c, s) && PeerEnabled(s, m)
    ensures Inv(c, DoPeer(c, s, m))
  {
    match m
    case SRecvPush(tag, push, now) => RecvPushOk(c, s, tag, push, now);
    case SRecvAllocate(tag, ksid, i, now) => RecvAllocateOk(c, s, tag, ksid, i, now);
    case SRecvAnnounce(side, tag, ksid, apps, size, ttl, now) =>
      RecvAnnounceOk(c, s, side, tag, ksid, apps, size, ttl, now);
    case SRecvEstablish(side, tag, ksid, now) => RecvEstablishOk(c, s, side, tag, ksid, now);
    case SRecvWithdraw(side, ksid) => RecvWithdrawOk(c, s, side, ksid);
    case SRecvClose(side, ksid, now) => RecvCloseOk(c, s, side, ksid, now);
  }

  /** Every step of either KME keeps the invariant. */
  lemma StepOk(c: Config, s: Sys, e: Step)
    requires Inv(c, s) && Enabled(c, s, e)
    ensures Inv(c, Do(c, s, e))
  {
    match e
    case InPool(p) => PoolStepOk(c, s, p);
    case AtHome(h) => HomeStepOk(c, s, h);
    case Resumed(r) => ResumeStepOk(c, s, r);
    case FromPeer(m) => PeerStepOk(c, s, m);
  }
}
