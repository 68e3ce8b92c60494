/** Concrete runs in which the key stream breaks a promise: none of the conditions in `Agreement`,
    `PoolShare` and `ClosedStores` can be dropped. The configuration is one that `limits()` accepts, the
    producer keeps to its gate, and waiters get the pool lock in the order in which they came. */
module Counterexamples {
  import opened KeyPools
  import opened KeyStreams
  import opened Protocol
  import opened ProtocolInvariant
  import opened Creation
  import opened Agreement
  import opened PoolShare
  import opened Guarantees
  import Qos

  /** Eight keys, one of them the 014 floor, two of them the share of the streams. */
  const CFG := Config(8, 1, 1, 2, 1)
  const APPS := Apps("a", "b")

  lemma LimitsAccept()
    ensures exists share ::
              Qos.LimitsOk(share, CFG.capacity, CFG.low) && Qos.ShareKeys(share, CFG.capacity) == CFG.capKeys
  {
    assert Qos.ShareKeys(0.25, CFG.capacity) == 2;
    assert Qos.LimitsOk(0.25, CFG.capacity, CFG.low);
  }

  // ------------------------------------------------------------ runs, step by step

  /** Reachable without re-creating a record. */
  ghost predicate Reaches(c: Config, t: Sys)
    requires ConfigOk(c)
  {
    exists steps :: Run(c, INIT, steps, t) && PlainRun(c, INIT, steps)
  }

  ghost predicate Here(c: Config, s: Sys)
    requires ConfigOk(c)
  {
    Reaches(c, s) && WellFormed(s) && OneIncarnation(s)
  }

  lemma Starts(c: Config)
    requires ConfigOk(c)
    ensures Here(c, INIT)
  {
    assert Run(c, INIT, [], INIT) && PlainRun(c, INIT, []);
  }

  lemma Extend(c: Config, s: Sys, e: Step)
    requires ConfigOk(c) && Here(c, s) && Enabled(c, s, e) && OneIncarnation(Do(c, s, e))
    ensures Here(c, Do(c, s, e))
  {
    var t := Do(c, s, e);
    var steps :| Run(c, INIT, steps, s) && PlainRun(c, INIT, steps);
    ExtendRun(c, INIT, steps, s, e);
    assert Reaches(c, t);
    RunsStayWellFormed(c, t);
  }

  lemma {:induction false} ExtendRun(c: Config, s: Sys, steps: seq<Step>, t: Sys, e: Step)
    requires ConfigOk(c) && Run(c, s, steps, t) && PlainRun(c, s, steps) && WellFormed(t) && Enabled(c, t, e)
    requires OneIncarnation(Do(c, t, e))
    ensures Run(c, s, steps + [e], Do(c, t, e)) && PlainRun(c, s, steps + [e])
    decreases steps
  {
    if steps == [] {
      assert Run(c, Do(c, s, e), [], Do(c, t, e));
      assert (steps + [e])[1..] == [];
    } else {
      ExtendRun(c, Do(c, s, steps[0]), steps[1..], t, e);
      assert (steps + [e])[1..] == steps[1..] + [e];
    }
  }

  ghost predicate SamePool(n: Node, m: Node) {
    m.pool == n.pool && m.locked == n.locked && m.round == n.round && m.extra == n.extra
  }

  ghost predicate SameRecords(n: Node, m: Node) {
    m.reg == n.reg && m.objs == n.objs && m.log == n.log
  }

  /** What was sent stays sent, no key was produced and no chunk stored. */
  ghost predicate Later(s: Sys, t: Sys) {
    && s.sent <= t.sent && t.produced == s.produced && t.stored == s.stored
    && s.next <= t.next && s.lo.tasks <= t.lo.tasks
  }

  // ------------------------------------------------------------ a stream open on both KMEs

  function Fresh(ksid: Ksid, size: nat, here: bool): Stream { NewStream(ksid, APPS, size, 1, here, 0) }

  function LowerOpen(ksid: Ksid, size: nat): Stream {
    Fresh(ksid, size, true).(peerOpen := true, state := Established)
  }

  function HigherOpen(ksid: Ksid, size: nat): Stream {
    Fresh(ksid, size, false).(localOpen := true, state := Established)
  }

  ghost predicate Unused(s: Sys, ksid: Ksid) {
    ksid !in s.lo.reg && ksid !in s.hi.reg && forall r :: r in s.lo.objs ==> s.lo.objs[r].ksid != ksid
  }

  lemma StillOne(s: Sys, t: Sys, st: Stream)
    requires OneIncarnation(s) && Unused(s, st.ksid) && t.lo.objs == s.lo.objs[s.next := st]
    ensures OneIncarnation(t)
  {
  }

  lemma LowerOpens(s: Sys, ksid: Ksid, size: nat) returns (t: Sys)
    requires Here(CFG, s) && Unused(s, ksid) && 0 < size
    ensures Here(CFG, t) && Later(s, t) && t.hi == s.hi && SamePool(s.lo, t.lo) && t.lo.log == s.lo.log
    ensures s.next !in s.lo.objs
    ensures t.lo.reg == s.lo.reg[ksid := s.next] && t.lo.objs == s.lo.objs[s.next := Fresh(ksid, size, true)]
    ensures AnnounceReq(Higher, s.next + 1, ksid, APPS, size, 1) in t.sent
  {
    var e := AtHome(SOpenNew(Lower, ksid, APPS, size, 1, false, 0));
    t := Do(CFG, s, e);
    assert t.lo.objs == s.lo.objs[s.next := Fresh(ksid, size, true)];
    StillOne(s, t, Fresh(ksid, size, true));
    Extend(CFG, s, e);
  }

  lemma HigherHears(s: Sys, tag: nat, ksid: Ksid, size: nat) returns (t: Sys)
    requires Here(CFG, s) && ksid !in s.hi.reg && AnnounceReq(Higher, tag, ksid, APPS, size, 1) in s.sent
    ensures Here(CFG, t) && Later(s, t) && t.lo == s.lo
    ensures t.hi == s.hi.(reg := s.hi.reg[ksid := s.next], objs := s.hi.objs[s.next := Fresh(ksid, size, false)])
  {
    var e := FromPeer(SRecvAnnounce(Higher, tag, ksid, APPS, size, 1, 0));
    t := Do(CFG, s, e);
    Extend(CFG, s, e);
  }

  lemma HigherJoins(s: Sys, ksid: Ksid, size: nat) returns (t: Sys)
    requires Here(CFG, s) && ksid in s.hi.reg && s.hi.objs[s.hi.reg[ksid]] == Fresh(ksid, size, false)
    ensures Here(CFG, t) && Later(s, t) && t.lo == s.lo && EstablishReq(Lower, s.next, ksid) in t.sent
    ensures t.hi == s.hi.(tasks := s.hi.tasks + {AwaitEstablish(s.next, s.hi.reg[ksid])})
  {
    var e := AtHome(SJoin(Higher, ksid, APPS));
    t := Do(CFG, s, e);
    Extend(CFG, s, e);
  }

  lemma LowerConfirms(s: Sys, tag: nat, ksid: Ksid, size: nat) returns (t: Sys)
    requires Here(CFG, s) && ksid in s.lo.reg && s.lo.objs[s.lo.reg[ksid]] == Fresh(ksid, size, true)
    requires EstablishReq(Lower, tag, ksid) in s.sent
    ensures Here(CFG, t) && Later(s, t) && t.hi == s.hi && EstablishAck(tag) in t.sent
    ensures t.lo == s.lo.(objs := s.lo.objs[s.lo.reg[ksid] := LowerOpen(ksid, size)])
  {
    var e := FromPeer(SRecvEstablish(Lower, tag, ksid, 0));
    t := Do(CFG, s, e);
    Extend(CFG, s, e);
  }

  lemma HigherIsJoined(s: Sys, tag: nat, q: Ref, ksid: Ksid, size: nat) returns (t: Sys)
    requires Here(CFG, s) && q in s.hi.objs && s.hi.objs[q] == Fresh(ksid, size, false)
    requires AwaitEstablish(tag, q) in s.hi.tasks && EstablishAck(tag) in s.sent
    ensures Here(CFG, t) && Later(s, t) && t.lo == s.lo && SamePool(s.hi, t.hi)
    ensures t.hi.reg == s.hi.reg && t.hi.objs == s.hi.objs[q := HigherOpen(ksid, size)] && t.hi.log == s.hi.log
  {
    var e := Resumed(SResumeEstablish(Higher, AwaitEstablish(tag, q), true, 0));
    t := Do(CFG, s, e);
    Extend(CFG, s, e);
  }

  lemma BothHear(s: Sys, ksid: Ksid, size: nat) returns (t: Sys, r: Ref, q: Ref)
    requires Here(CFG, s) && Unused(s, ksid) && 0 < size
    ensures Here(CFG, t) && Later(s, t) && SamePool(s.lo, t.lo) && SamePool(s.hi, t.hi)
    ensures r !in s.lo.objs && t.lo.log == s.lo.log && t.hi.log == s.hi.log
    ensures t.lo.reg == s.lo.reg[ksid := r] && t.lo.objs == s.lo.objs[r := Fresh(ksid, size, true)]
    ensures t.hi.reg == s.hi.reg[ksid := q] && t.hi.objs == s.hi.objs[q := Fresh(ksid, size, false)]
  {
    var s1 := LowerOpens(s, ksid, size);
    t := HigherHears(s1, s.next + 1, ksid, size);
    r, q := s.next, s1.next;
  }

  lemma Joining(s: Sys, ksid: Ksid, size: nat) returns (t: Sys)
    requires Here(CFG, s) && ksid in s.lo.reg && ksid in s.hi.reg
    requires s.lo.objs[s.lo.reg[ksid]] == Fresh(ksid, size, true)
    requires s.hi.objs[s.hi.reg[ksid]] == Fresh(ksid, size, false)
    ensures Here(CFG, t) && Later(s, t) && SamePool(s.hi, t.hi) && t.hi.reg == s.hi.reg && t.hi.log == s.hi.log
    ensures t.lo == s.lo.(objs := s.lo.objs[s.lo.reg[ksid] := LowerOpen(ksid, size)])
    ensures t.hi.objs == s.hi.objs[s.hi.reg[ksid] := HigherOpen(ksid, size)]
  {
    var s1 := HigherJoins(s, ksid, size);
    var s2 := LowerConfirms(s1, s.next, ksid, size);
    t := HigherIsJoined(s2, s.next, s.hi.reg[ksid], ksid, size);
  }

  lemma Overwrites(objs: map<Ref, Stream>, r: Ref, st: Stream, st': Stream)
    ensures objs[r := st][r := st'] == objs[r := st']
  {
  }

  /** The allocator opens a stream and the other application joins. */
  lemma OpenStream(s: Sys, ksid: Ksid, size: nat) returns (t: Sys, r: Ref, q: Ref)
    requires Here(CFG, s) && Unused(s, ksid) && 0 < size
    ensures Here(CFG, t) && Later(s, t) && SamePool(s.lo, t.lo) && SamePool(s.hi, t.hi)
    ensures r !in s.lo.objs && t.lo.log == s.lo.log && t.hi.log == s.hi.log
    ensures t.lo.reg == s.lo.reg[ksid := r] && t.lo.objs == s.lo.objs[r := LowerOpen(ksid, size)]
    ensures t.hi.reg == s.hi.reg[ksid := q] && t.hi.objs == s.hi.objs[q := HigherOpen(ksid, size)]
  {
    var s1;
    s1, r, q := BothHear(s, ksid, size);
    Overwrites(s.lo.objs, r, Fresh(ksid, size, true), LowerOpen(ksid, size));
    Overwrites(s.hi.objs, q, Fresh(ksid, size, false), HigherOpen(ksid, size));
    t := Joining(s1, ksid, size);
  }

  lemma SameHeldKeys(n: Node, m: Node)
    requires m.reg == n.reg && m.objs == n.objs
    ensures HeldKeys(m) == HeldKeys(n)
  {
    assert Live(m) == Live(n);
  }

  // ------------------------------------------------------------ the producer

  function Key(id: KeyId): StoredKey
    requires id < 256
  {
    StoredKey(id, [id], false)
  }

  ghost predicate AllLocal(buf: seq<StoredKey>) {
    forall k :: k in buf ==> !k.replicated
  }

  lemma LocalsOfLocal(buf: seq<StoredKey>)
    requires AllLocal(buf)
    ensures Locals(buf) == buf
  {
    if buf != [] {
      assert buf == [buf[0]] + buf[1..];
    }
  }

  /** A key that the gate lets the producer make, up to the sync, which holds the lock. */
  lemma MakesKey(s: Sys, id: KeyId) returns (t: Sys)
    requires Here(CFG, s) && !s.lo.round && !s.lo.locked && id !in s.produced && id < 256
    requires AllLocal(s.lo.pool.buf) && |s.lo.pool.buf| < CFG.low + s.lo.extra && |s.lo.pool.buf| < CFG.capacity
    ensures Here(CFG, t) && s.sent <= t.sent && t.produced == s.produced[id := Origin(Lower, [id])] && t.next == s.next
    ensures t.stored == s.stored && t.hi == s.hi && SameRecords(s.lo, t.lo) && t.lo.tasks == s.lo.tasks
    ensures t.lo.pool.buf == s.lo.pool.buf + [Key(id)] && AllLocal(t.lo.pool.buf)
    ensures t.lo.locked && !t.lo.round && t.lo.extra == s.lo.extra
    ensures HeldKeys(t.lo) == HeldKeys(s.lo)
  {
    LocalsOfLocal(s.lo.pool.buf);
    var s1 := Do(CFG, s, InPool(SStart(Lower)));
    Extend(CFG, s, InPool(SStart(Lower)));
    var e := InPool(SProduce(Lower, id, [id]));
    t := Do(CFG, s1, e);
    Extend(CFG, s1, e);
    SameHeldKeys(s.lo, t.lo);
  }

  lemma Unlocks(s: Sys) returns (t: Sys)
    requires Here(CFG, s) && s.lo.locked
    ensures Here(CFG, t) && t == s.(lo := s.lo.(locked := false))
    ensures HeldKeys(t.lo) == HeldKeys(s.lo)
  {
    t := Do(CFG, s, InPool(SSynced(Lower)));
    Extend(CFG, s, InPool(SSynced(Lower)));
    SameHeldKeys(s.lo, t.lo);
  }

  lemma StocksKey(s: Sys, id: KeyId) returns (t: Sys)
    requires Here(CFG, s) && !s.lo.round && !s.lo.locked && id !in s.produced && id < 256
    requires AllLocal(s.lo.pool.buf) && |s.lo.pool.buf| < CFG.low + s.lo.extra && |s.lo.pool.buf| < CFG.capacity
    ensures Here(CFG, t) && s.sent <= t.sent && t.produced == s.produced[id := Origin(Lower, [id])] && t.next == s.next
    ensures t.stored == s.stored && t.hi == s.hi && SameRecords(s.lo, t.lo) && t.lo.tasks == s.lo.tasks
    ensures t.lo.pool.buf == s.lo.pool.buf + [Key(id)] && AllLocal(t.lo.pool.buf)
    ensures !t.lo.locked && !t.lo.round && t.lo.extra == s.lo.extra
    ensures HeldKeys(t.lo) == HeldKeys(s.lo)
  {
    var s1 := MakesKey(s, id);
    t := Unlocks(s1);
  }

  // ------------------------------------------------------------ allocations

  /** The allocator's record of `ksid` is open, idle since 0, and has passed no index but those below `i`. */
  ghost predicate Asking(n: Node, ksid: Ksid, i: nat) {
    && ksid in n.reg && n.reg[ksid] in n.objs
    && var st := n.objs[n.reg[ksid]];
    && st.state == Established && !st.localClosed && !st.peerClosed && st.lastActivity == 0
    && i !in st.delivered && i !in st.chunks && i == st.nextAlloc
  }

  function Get(side: Side, ksid: Ksid, i: nat): Step { AtHome(SGetKey(side, ksid, Some(i), true, 0)) }

  /** Touching a record that was active at the same moment changes nothing. */
  lemma AsksAgain(s: Sys, ksid: Ksid, i: nat)
    requires WellFormed(s) && Asking(s.lo, ksid, i)
    ensures Do(CFG, s, Get(Lower, ksid, i)) == ObtainLower(CFG, s, s.lo.reg[ksid], i, GetKeyCall, true, 0)
  {
    var r := s.lo.reg[ksid];
    assert s.lo.objs[r := s.lo.objs[r].(lastActivity := 0)] == s.lo.objs;
    assert PutObj(s, Lower, r, s.lo.objs[r].(lastActivity := 0)) == s;
  }

  /** get_key while the pool cannot serve it: the producer is asked for more. */
  lemma Refused(s: Sys, ksid: Ksid, i: nat) returns (t: Sys)
    requires Here(CFG, s) && Asking(s.lo, ksid, i) && !s.lo.locked
    requires var n := s.lo.objs[s.lo.reg[ksid]].size;
             HeldKeys(s.lo) + n <= CFG.capKeys && |s.lo.pool.buf| < n + CFG.low && AllLocal(s.lo.pool.buf)
    ensures Here(CFG, t)
    ensures var n := s.lo.objs[s.lo.reg[ksid]].size;
            t == s.(lo := s.lo.(extra := Raised(CFG.capacity, CFG.low, s.lo.extra, n)))
    ensures HeldKeys(t.lo) == HeldKeys(s.lo)
  {
    AsksAgain(s, ksid, i);
    LocalsOfLocal(s.lo.pool.buf);
    t := Do(CFG, s, Get(Lower, ksid, i));
    Extend(CFG, s, Get(Lower, ksid, i));
    SameHeldKeys(s.lo, t.lo);
  }

  /** get_key while the pool is locked. */
  lemma Waits(s: Sys, ksid: Ksid, i: nat) returns (t: Sys, w: Task)
    requires Here(CFG, s) && Asking(s.lo, ksid, i) && s.lo.locked
    requires HeldKeys(s.lo) + s.lo.objs[s.lo.reg[ksid]].size <= CFG.capKeys
    ensures Here(CFG, t) && w == AwaitTake(s.next, s.lo.reg[ksid], i, s.lo.objs[s.lo.reg[ksid]].size, GetKeyCall)
    ensures t == s.(lo := s.lo.(tasks := s.lo.tasks + {w}), next := s.next + 1)
    ensures HeldKeys(t.lo) == HeldKeys(s.lo)
  {
    AsksAgain(s, ksid, i);
    w := AwaitTake(s.next, s.lo.reg[ksid], i, s.lo.objs[s.lo.reg[ksid]].size, GetKeyCall);
    t := Do(CFG, s, Get(Lower, ksid, i));
    Extend(CFG, s, Get(Lower, ksid, i));
    SameHeldKeys(s.lo, t.lo);
  }

  lemma TakesOldest(p: Pool)
    requires |p.buf| >= 1 + CFG.low && AllLocal(p.buf)
    ensures TakeLocal(p, CFG.low, 1) == (Pool(p.buf[1..], p.byId - {p.buf[0].id}, p.withdrawn), Some([p.buf[0]]))
  {
    LocalsOfLocal(p.buf);
    var k := p.buf[0];
    assert p.buf[..1] == [k] && [k][1..] == [];
    assert RemoveKeys(p, [k]) == RemoveKeys(Pool(p.buf[1..], p.byId - {k.id}, p.withdrawn), []);
  }

  function OneKey(k: StoredKey, now: int): Chunk { Chunk([k.id], k.bytes, false, now) }

  lemma OneKeyChunk(k: StoredKey)
    ensures IdsOf([k]) == [k.id] && Concat([k]) == k.bytes
  {
    assert [k][1..] == [] && Concat([k]) == k.bytes + Concat([]);
  }

  /** The record after the grant of one key. */
  function Grown(st: Stream, i: nat, k: StoredKey, now: int): Stream {
    st.(chunks := st.chunks[i := OneKey(k, now)], nextAlloc := st.nextAlloc + 1)
  }

  /** A take of one key that waited gets the oldest one, and the chunk is pushed. */
  lemma GetsLock(s: Sys, w: Task, now: int) returns (t: Sys, p: Task)
    requires Here(CFG, s) && w in s.lo.tasks && w.AwaitTake? && w.n == 1 && w.caller.GetKeyCall? && !s.lo.locked
    requires |s.lo.pool.buf| >= 1 + CFG.low && AllLocal(s.lo.pool.buf) && w.ref in s.lo.objs
    ensures Here(CFG, t) && s.sent <= t.sent && t.produced == s.produced && t.stored == s.stored && t.hi == s.hi
    ensures var k, st := s.lo.pool.buf[0], s.lo.objs[w.ref];
            && p == AwaitPush(s.next, w.ref, Alloc(st.ksid, w.index, [k.id], k.bytes), GetKeyCall)
            && t.lo.objs == s.lo.objs[w.ref := Grown(st, w.index, k, now)]
    ensures PushReq(s.next, p.push) in t.sent && t.lo.tasks == s.lo.tasks - {w} + {p} && t.next == s.next + 1
    ensures t.lo.pool.buf == s.lo.pool.buf[1..] && AllLocal(t.lo.pool.buf)
    ensures t.lo.extra == 0 && !t.lo.locked && t.lo.round == s.lo.round && t.lo.reg == s.lo.reg && t.lo.log == s.lo.log
    ensures HeldKeys(t.lo) == HeldKeys(s.lo) + Gain(s, w)
  {
    var k, st := s.lo.pool.buf[0], s.lo.objs[w.ref];
    TakesOldest(s.lo.pool);
    OneKeyChunk(k);
    var e := Resumed(SResumeTake(w, true, now));
    t := Do(CFG, s, e);
    p := AwaitPush(s.next, w.ref, Alloc(st.ksid, w.index, [k.id], k.bytes), GetKeyCall);
    assert t.lo.objs == s.lo.objs[w.ref := Grown(st, w.index, k, now)];
    Extend(CFG, s, e);
    GainsOf(s, w, now);
  }

  lemma GainsOf(s: Sys, w: Task, now: int)
    requires Here(CFG, s) && w in s.lo.tasks && w.AwaitTake? && KeysFor(CFG, s, w) && w.ref in s.lo.objs
    ensures HeldKeys(ResumeTake(CFG, s, w, true, now).lo) == HeldKeys(s.lo) + Gain(s, w)
  {
    ReachableInv(CFG, s);
    ResumeTakeGains(CFG, s, w, true, now);
  }

  /** One that does not: more keys are asked for. */
  lemma GetsNothing(s: Sys, w: Task) returns (t: Sys)
    requires Here(CFG, s) && w in s.lo.tasks && w.AwaitTake? && !s.lo.locked && w.ref in s.lo.objs
    requires |s.lo.pool.buf| < w.n + CFG.low && AllLocal(s.lo.pool.buf)
    ensures Here(CFG, t)
    ensures t == s.(lo := s.lo.(tasks := s.lo.tasks - {w}, extra := Raised(CFG.capacity, CFG.low, s.lo.extra, w.n)))
    ensures HeldKeys(t.lo) == HeldKeys(s.lo)
  {
    LocalsOfLocal(s.lo.pool.buf);
    var e := Resumed(SResumeTake(w, true, 0));
    t := Do(CFG, s, e);
    Extend(CFG, s, e);
    SameHeldKeys(s.lo, t.lo);
  }

  lemma NothingHeld(n: Node)
    requires forall r :: r in n.objs ==> n.objs[r].chunks == map[]
    ensures HeldKeys(n) == 0
  {
    NothingHeldIn(Live(n), n.objs);
  }

  lemma NothingHeldIn(refs: set<Ref>, objs: map<Ref, Stream>)
    requires refs <= objs.Keys && forall r :: r in objs ==> objs[r].chunks == map[]
    ensures HeldIn(refs, objs) == 0
  {
  }

  // ------------------------------------------------------------ two takes for one index

  const S: Ksid := 7
  const B: Ksid := 8
  const C: Ksid := 9

  /** The higher KME stores a pushed chunk and acknowledges it. */
  lemma PushArrives(s: Sys, tag: nat, push: Alloc) returns (t: Sys)
    requires Here(CFG, s) && PushReq(tag, push) in s.sent && !s.hi.locked
    requires JudgePush(s.hi, push).Store?
    ensures Here(CFG, t) && t.lo == s.lo && s.sent <= t.sent && PushAck(tag, push) in t.sent
    ensures t.stored == s.stored + {push}
    ensures t.hi.reg == s.hi.reg && t.hi.log == s.hi.log && push.ksid in s.hi.reg
    ensures var q, st := s.hi.reg[push.ksid], s.hi.objs[s.hi.reg[push.ksid]];
            t.hi.objs == s.hi.objs[q := Stored(st, push.index, push.ids, push.data, 0).(lastActivity := 0)]
  {
    var e := FromPeer(SRecvPush(tag, push, 0));
    t := Do(CFG, s, e);
    Extend(CFG, s, e);
  }

  /** The allocator is told that `p.push` was stored; it looks the chunk up by its index again. */
  lemma HandsOut(s: Sys, p: Task) returns (t: Sys)
    requires Here(CFG, s) && p in s.lo.tasks && p.AwaitPush? && p.caller.GetKeyCall? && PushAck(p.tag, p.push) in s.sent
    requires p.ref in s.lo.objs && p.push.index in s.lo.objs[p.ref].chunks
    requires s.lo.objs[p.ref].chunks[p.push.index].ids != p.push.ids
    ensures Here(CFG, t) && t.hi == s.hi && t.sent == s.sent && t.stored == s.stored
    ensures var st := s.lo.objs[p.ref];
            t.lo.log == s.lo.log + [Delivery(p.ref, AsAlloc(st.ksid, p.push.index, st.chunks[p.push.index]))]
  {
    var e := Resumed(SResumePush(p, Ok, true, 0));
    t := Do(CFG, s, e);
    Extend(CFG, s, e);
  }

  lemma HigherGets(s: Sys, ksid: Ksid, i: nat) returns (t: Sys)
    requires Here(CFG, s) && ksid in s.hi.reg
    requires var st := s.hi.objs[s.hi.reg[ksid]];
             st.state == Established && !st.localClosed && i !in st.delivered && i in st.chunks
    ensures Here(CFG, t) && t.lo == s.lo && t.stored == s.stored
    ensures var st := s.hi.objs[s.hi.reg[ksid]];
            t.hi.log == s.hi.log + [Delivery(s.hi.reg[ksid], AsAlloc(ksid, i, st.chunks[i]))]
  {
    t := Do(CFG, s, Get(Higher, ksid, i));
    Extend(CFG, s, Get(Higher, ksid, i));
  }

  /** Streams `S` and `B`, of one and of two keys a chunk, and nothing in the pools. */
  lemma TwoStreams() returns (s: Sys, r: Ref, q: Ref)
    ensures Here(CFG, s) && Later(INIT, s) && SamePool(INIT.lo, s.lo) && !s.hi.locked && s.lo.log == s.hi.log == []
    ensures S in s.lo.reg && s.lo.reg[S] == r && Asking(s.lo, S, 0) && s.lo.objs[r] == LowerOpen(S, 1)
    ensures S in s.hi.reg && s.hi.reg[S] == q && q in s.hi.objs && s.hi.objs[q] == HigherOpen(S, 1)
    ensures Asking(s.lo, B, 0) && s.lo.reg[B] != r && s.lo.objs[s.lo.reg[B]] == LowerOpen(B, 2)
    ensures Unused(s, C) && forall x :: x in s.lo.objs ==> s.lo.objs[x].chunks == map[]
  {
    Starts(CFG);
    var s1, rb, qb := OpenStream(INIT, B, 2);
    s, r, q := OpenStream(s1, S, 1);
  }

  /** Three keys, the last with the lock held, after a get_key for two was refused. */
  lemma StocksThree(s: Sys, ksid: Ksid) returns (t: Sys)
    requires Here(CFG, s) && SamePool(INIT.lo, s.lo) && s.produced == map[] && HeldKeys(s.lo) == 0
    requires Asking(s.lo, ksid, 0) && s.lo.objs[s.lo.reg[ksid]].size == 2
    ensures Here(CFG, t) && s.sent <= t.sent && t.stored == s.stored && t.hi == s.hi && SameRecords(s.lo, t.lo)
    ensures t.lo.pool.buf == [Key(1), Key(2), Key(3)] && t.lo.locked && HeldKeys(t.lo) == 0
  {
    var s1 := Refused(s, ksid, 0);
    var s2 := StocksKey(s1, 1);
    var s3 := StocksKey(s2, 2);
    t := MakesKey(s3, 3);
  }

  /** Two keys, the last with the lock held, after a get_key for one was refused. */
  lemma StocksTwo(s: Sys, ksid: Ksid) returns (t: Sys)
    requires Here(CFG, s) && SamePool(INIT.lo, s.lo) && s.produced == map[] && HeldKeys(s.lo) == 0
    requires Asking(s.lo, ksid, 0) && s.lo.objs[s.lo.reg[ksid]].size == 1
    ensures Here(CFG, t) && SameRecords(s.lo, t.lo) && HeldKeys(t.lo) == 0
    ensures t.lo.pool.buf == [Key(1), Key(2)] && t.lo.locked && !t.lo.round && t.produced.Keys == {1, 2}
  {
    var s1 := Refused(s, ksid, 0);
    var s2 := StocksKey(s1, 1);
    t := MakesKey(s2, 2);
  }

  /** The application asks for index 0 of `S` twice. */
  lemma BothWait() returns (s: Sys, r: Ref, q: Ref, w1: Task, w2: Task)
    ensures Here(CFG, s) && w1 in s.lo.tasks && w2 in s.lo.tasks && w1 != w2 && !s.lo.locked
    ensures exists m, n :: w1 == AwaitTake(m, r, 0, 1, GetKeyCall) && w2 == AwaitTake(n, r, 0, 1, GetKeyCall)
    ensures r in s.lo.objs && s.lo.objs[r] == LowerOpen(S, 1) && s.lo.pool.buf == [Key(1), Key(2), Key(3)]
    ensures S in s.hi.reg && s.hi.reg[S] == q && q in s.hi.objs && s.hi.objs[q] == HigherOpen(S, 1) && !s.hi.locked
    ensures s.lo.log == s.hi.log == [] && s.stored == {}
  {
    var s0;
    s0, r, q := TwoStreams();
    NothingHeld(s0.lo);
    var s1 := StocksThree(s0, B);
    var s2;
    s2, w1 := Waits(s1, S, 0);
    var s3;
    s3, w2 := Waits(s2, S, 0);
    s := Unlocks(s3);
  }

  /** Both takes are granted. */
  lemma TakenTwice() returns (s: Sys, q: Ref, p: Task)
    ensures Here(CFG, s) && p in s.lo.tasks && p.AwaitPush? && p.caller.GetKeyCall? && p.push == Alloc(S, 0, [1], [1])
    ensures PushReq(p.tag, p.push) in s.sent && p.ref in s.lo.objs && s.lo.objs[p.ref].ksid == S
    ensures 0 in s.lo.objs[p.ref].chunks && s.lo.objs[p.ref].chunks[0] == OneKey(Key(2), 0)
    ensures S in s.hi.reg && s.hi.reg[S] == q && q in s.hi.objs && s.hi.objs[q] == HigherOpen(S, 1) && !s.hi.locked
    ensures s.lo.log == s.hi.log == [] && s.stored == {}
  {
    var s0, r, w1, w2;
    s0, r, q, w1, w2 := BothWait();
    var s1;
    s1, p := GetsLock(s0, w1, 0);
    var p2;
    s, p2 := GetsLock(s1, w2, 0);
  }

  /** Two get_key calls for one index that both waited for the pool lock: the allocator hands out
      the second chunk on the strength of the first chunk's acknowledgement, a chunk the other side
      never stored, and the other side hands out the first. No record was re-created. */
  lemma DelayedTakesDisagree()
    ensures exists steps, t :: Run(CFG, INIT, steps, t) && PlainRun(CFG, INIT, steps)
              && exists d, e :: d in t.lo.log && e in t.hi.log
                                && d.key.ksid == e.key.ksid && d.key.index == e.key.index && d.key.data != e.key.data
                                && d.key !in t.stored
  {
    var s0, q, p := TakenTwice();
    var s1 := PushArrives(s0, p.tag, p.push);
    var s2 := HandsOut(s1, p);
    var t := HigherGets(s2, S, 0);
    assert Delivery(p.ref, Alloc(S, 0, [2], [2])) in t.lo.log && Delivery(q, Alloc(S, 0, [1], [1])) in t.hi.log;
  }

  // ------------------------------------------------------------ a take that outlives its stream

  /** A sweep one second later, the TTL of the only stream. */
  lemma Expires(s: Sys, r: Ref) returns (t: Sys)
    requires Here(CFG, s) && s.lo.objs == map[r := LowerOpen(S, 1)] && s.lo.reg == map[S := r]
    ensures Here(CFG, t) && t == s.(lo := s.lo.(objs := map[r := ToClosed(LowerOpen(S, 1), 1)]))
  {
    var e := AtHome(SSweep(Lower, 1));
    t := Do(CFG, s, e);
    assert SweepStream(LowerOpen(S, 1), 1) == ToClosed(LowerOpen(S, 1), 1);
    assert t.lo.objs == map[r := ToClosed(LowerOpen(S, 1), 1)] && t.lo.reg == s.lo.reg;
    Extend(CFG, s, e);
  }

  /** One stream, two keys, the second with the lock held, and a take of one that waits. */
  lemma OneWaits() returns (s: Sys, r: Ref, w: Task)
    ensures Here(CFG, s) && s.lo.locked && s.lo.pool.buf == [Key(1), Key(2)]
    ensures s.lo.objs == map[r := LowerOpen(S, 1)] && s.lo.reg == map[S := r]
    ensures w in s.lo.tasks && w.AwaitTake? && w.ref == r && w.index == 0 && w.n == 1 && w.caller.GetKeyCall?
  {
    Starts(CFG);
    var s1, q;
    s1, r, q := OpenStream(INIT, S, 1);
    NothingHeld(s1.lo);
    var s2 := StocksTwo(s1, S);
    s, w := Waits(s2, S, 0);
  }

  /** A stream that expires while an allocation waits for the pool gets a chunk after it was wiped; no
      sweep looks at the chunks of a closed record, and the last one forgets it with the key inside. */
  lemma ForgottenWithKey()
    ensures exists steps, t :: Run(CFG, INIT, steps, t) && PlainRun(CFG, INIT, steps)
              && S in t.lo.reg && t.lo.reg[S] in t.lo.objs
              && t.lo.objs[t.lo.reg[S]].state == Closed && t.lo.objs[t.lo.reg[S]].chunks != map[]
              && RegOk(t.lo) && S !in Sweep(CFG, t, Lower, 2).lo.reg
  {
    var s, r, w := OneWaits();
    var s1 := Expires(s, r);
    var s2 := Unlocks(s1);
    var t, p := GetsLock(s2, w, 1);
    assert 0 in t.lo.objs[r].chunks && Forgettable(t.lo.objs[r], 2, CFG.maxTtl);
  }

  // ------------------------------------------------------------ takes that exceed the share

  lemma ThreeStreams() returns (s: Sys)
    ensures Here(CFG, s) && SamePool(INIT.lo, s.lo) && s.produced == map[] && HeldKeys(s.lo) == 0
    ensures Asking(s.lo, S, 0) && Asking(s.lo, B, 0) && Asking(s.lo, C, 0)
    ensures s.lo.objs[s.lo.reg[S]] == LowerOpen(S, 1) && s.lo.objs[s.lo.reg[B]] == LowerOpen(B, 2)
    ensures s.lo.objs[s.lo.reg[C]] == LowerOpen(C, 1)
  {
    var s0, r, q := TwoStreams();
    var rc, qc;
    s, rc, qc := OpenStream(s0, C, 1);
    NothingHeld(s.lo);
  }

  lemma TwoWait() returns (s: Sys, w1: Task, w2: Task)
    ensures Here(CFG, s) && HeldKeys(s.lo) == 0 && Asking(s.lo, S, 0) && Asking(s.lo, C, 0)
    ensures s.lo.objs[s.lo.reg[S]] == LowerOpen(S, 1) && s.lo.objs[s.lo.reg[C]] == LowerOpen(C, 1)
    ensures !s.lo.round && !s.lo.locked && s.produced.Keys == {1, 2} && s.lo.pool.buf == [Key(1), Key(2)]
    ensures w1 in s.lo.tasks && w1.AwaitTake? && w1.ref == s.lo.reg[S] && w1.index == 0 && w1.n == 1
            && w1.caller.GetKeyCall?
    ensures w2 in s.lo.tasks && w2.AwaitTake? && w2.ref in s.lo.objs && w2.n == 2
  {
    var s0 := ThreeStreams();
    var s1 := StocksTwo(s0, S);
    var s2;
    s2, w1 := Waits(s1, S, 0);
    var s3;
    s3, w2 := Waits(s2, B, 0);
    s := Unlocks(s3);
  }

  /** `S` holds one key, `B` asked in vain for two more. */
  lemma OneHeld() returns (s: Sys)
    ensures Here(CFG, s) && HeldKeys(s.lo) == 1 && Asking(s.lo, S, 1) && Asking(s.lo, C, 0)
    ensures s.lo.objs[s.lo.reg[S]].size == 1 && s.lo.objs[s.lo.reg[C]].size == 1 && s.lo.reg[S] != s.lo.reg[C]
    ensures !s.lo.round && !s.lo.locked && s.lo.extra == 2 && s.produced.Keys == {1, 2} && s.lo.pool.buf == [Key(2)]
  {
    var s0, w1, w2 := TwoWait();
    var s1, p := GetsLock(s0, w1, 0);
    s := GetsNothing(s1, w2);
  }

  /** Two takes of one key each that waited, both within the share when they began to. */
  lemma TwoMoreWait() returns (s: Sys, w1: Task, w2: Task)
    ensures Here(CFG, s) && HeldKeys(s.lo) == 1 && !s.lo.locked && s.lo.pool.buf == [Key(2), Key(3), Key(4)]
    ensures Asking(s.lo, S, 1) && Asking(s.lo, C, 0) && s.lo.reg[S] != s.lo.reg[C]
    ensures w1 in s.lo.tasks && w1.AwaitTake? && w1.ref == s.lo.reg[S] && w1.index == 1 && w1.n == 1
            && w1.caller.GetKeyCall?
    ensures w2 in s.lo.tasks && w2.AwaitTake? && w2.ref == s.lo.reg[C] && w2.index == 0 && w2.n == 1
            && w2.caller.GetKeyCall?
  {
    var s0 := OneHeld();
    var s1 := StocksKey(s0, 3);
    var s2 := MakesKey(s1, 4);
    var s3;
    s3, w1 := Waits(s2, S, 1);
    var s4;
    s4, w2 := Waits(s3, C, 0);
    s := Unlocks(s4);
  }

  /** The first of them is granted. */
  lemma ShareUsedUp() returns (s: Sys, w: Task)
    ensures Here(CFG, s) && HeldKeys(s.lo) == 2 && !s.lo.locked && s.lo.pool.buf == [Key(3), Key(4)]
    ensures w in s.lo.tasks && w.AwaitTake? && w.n == 1 && w.caller.GetKeyCall? && w.ref in s.lo.objs && Gain(s, w) == 1
  {
    var s0, w1, p;
    s0, w1, w := TwoMoreWait();
    s, p := GetsLock(s0, w1, 0);
    assert s.lo.reg[C] in Live(s.lo);
  }

  /** Two allocations that each fit the share of two keys beside the one held, both waiting and both
      granted: three keys are held. */
  lemma ShareExceeded()
    ensures exists steps, t :: Run(CFG, INIT, steps, t) && PlainRun(CFG, INIT, steps) && HeldKeys(t.lo) > CFG.capKeys
  {
    var s, w := ShareUsedUp();
    var t, p := GetsLock(s, w, 0);
    assert HeldKeys(t.lo) == 3;
  }

  // ------------------------------------------------------------ an index without bound

  /** An empty pool lets the producer make a key, which is then synced. */
  lemma FillsEmpty(c: Config, s: Sys, id: KeyId, bytes: seq<byte>) returns (t: Sys)
    requires ConfigOk(c) && 0 < c.low && Here(c, s) && s.lo.pool.buf == [] && id !in s.produced
    requires !s.lo.round && !s.lo.locked && |bytes| == c.keyBytes
    ensures Here(c, t) && t.lo.pool.buf == [StoredKey(id, bytes, false)] && !t.lo.round && !t.lo.locked
    ensures t.lo.issued == s.lo.issued && t.produced.Keys == s.produced.Keys + {id}
  {
    var s1 := Do(c, s, InPool(SStart(Lower)));
    Extend(c, s, InPool(SStart(Lower)));
    var s2 := Do(c, s1, InPool(SProduce(Lower, id, bytes)));
    Extend(c, s1, InPool(SProduce(Lower, id, bytes)));
    t := Do(c, s2, InPool(SSynced(Lower)));
    Extend(c, s2, InPool(SSynced(Lower)));
  }

  /** A key is produced, synced and handed out by enc_keys. */
  lemma IssuesKey(c: Config, s: Sys, id: KeyId) returns (t: Sys)
    requires ConfigOk(c) && 0 < c.low && Here(c, s) && s.lo.pool.buf == [] && id !in s.produced
    requires !s.lo.round && !s.lo.locked
    ensures Here(c, t) && t.lo.pool.buf == [] && !t.lo.round && !t.lo.locked
    ensures t.lo.issued == s.lo.issued + [id] && t.produced.Keys == s.produced.Keys + {id}
  {
    var s1 := FillsEmpty(c, s, id, seq(c.keyBytes, _ => 0));
    LocalsOfLocal(s1.lo.pool.buf);
    t := Do(c, s1, InPool(SEnc(Lower)));
    Extend(c, s1, InPool(SEnc(Lower)));
  }

  lemma {:induction false} IssuesMany(c: Config, n: nat) returns (s: Sys)
    requires ConfigOk(c) && 0 < c.low
    ensures Here(c, s) && s.lo.pool.buf == [] && !s.lo.round && !s.lo.locked
    ensures |s.lo.issued| == n && forall x :: x in s.produced ==> x < n
    decreases n
  {
    if n == 0 {
      Starts(c);
      s := INIT;
    } else {
      var s0 := IssuesMany(c, n - 1);
      s := IssuesKey(c, s0, n - 1);
    }
  }

  /** Whatever the capacity, the id index passes every size. */
  lemma IndexUnbounded(c: Config, n: nat)
    requires ConfigOk(c) && 0 < c.low
    ensures exists s :: Reachable(c, s) && |s.lo.pool.byId| > n
  {
    var s := IssuesMany(c, n + 1);
    IndexSize(c, s, Lower);
    assert Reachable(c, s) && |s.lo.pool.byId| > n;
  }
}
