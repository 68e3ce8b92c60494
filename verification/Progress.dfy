/** What the two KMEs achieve when nothing goes wrong, from every reachable state: the same key reaches
    both applications. What each handler does is said here in terms of the state before it. */
module Progress {
  import opened KeyPools
  import opened KeyStreams
  import opened Protocol
  import opened ProtocolInvariant
  import opened Creation
  import opened Agreement

  // ------------------------------------------------------------ one key handed out

  /** Record `r` hands out index `i`: the application gets the chunk's ids and bytes, the chunk is gone
      and the index spent; nothing else changes. */
  ghost predicate HandsOut(n: Node, n': Node, r: Ref, i: nat) {
    && r in n.objs && i in n.objs[r].chunks
    && var st := n.objs[r];
    && n'.log == n.log + [Delivery(r, Alloc(st.ksid, i, st.chunks[i].ids, st.chunks[i].data))]
    && n'.objs == n.objs[r := st.(chunks := st.chunks - {i}, delivered := st.delivered + {i})]
    && n'.reg == n.reg && n'.pool == n.pool && n'.locked == n.locked
  }

  /** The application asks for index `i`: by its number, or as the least one not spent. */
  ghost predicate Means(st: Stream, want: Option<nat>, i: nat) {
    want == Some(i) || (want.None? && i !in st.delivered && forall j: nat :: j < i ==> j in st.delivered)
  }

  /** A record that its application may ask for index `i`. */
  ghost predicate OpenFor(n: Node, ksid: Ksid, i: nat) {
    && ksid in n.reg && n.reg[ksid] in n.objs
    && var st := n.objs[n.reg[ksid]];
    && st.ksid == ksid && st.state == Established && !st.localClosed && !st.peerClosed && i !in st.delivered
  }

  function Touched(n: Node, r: Ref, now: int): Node
    requires r in n.objs
  {
    n.(objs := n.objs[r := n.objs[r].(lastActivity := now)])
  }

  /** get_key finds the chunk, on the allocator a confirmed one. */
  lemma ReadyIsHandedOut(c: Config, s: Sys, side: Side, ksid: Ksid, want: Option<nat>, i: nat, now: int)
    requires ConfigOk(c) && WellFormed(s) && OpenFor(At(s, side), ksid, i)
    requires var st := At(s, side).objs[At(s, side).reg[ksid]];
             Means(st, want, i) && i in st.chunks && (side.Higher? || st.chunks[i].confirmed)
    ensures var s' := Do(c, s, AtHome(SGetKey(side, ksid, want, true, now)));
            && HandsOut(Touched(At(s, side), At(s, side).reg[ksid], now), At(s', side), At(s, side).reg[ksid], i)
            && At(s', Other(side)) == At(s, Other(side)) && s'.sent == s.sent
  {
  }

  /** The allocation that the other side's get_key waited for. */
  lemma AllocatedIsHandedOut(c: Config, s: Sys, t: Task, now: int)
    requires WellFormed(s) && ResumeEnabled(s, SResumeAllocate(t, Ok, true, now))
    requires t.index in s.hi.objs[t.ref].chunks
    ensures var s' := DoResume(c, s, SResumeAllocate(t, Ok, true, now));
            && HandsOut(s.hi, s'.hi, t.ref, t.index) && s'.lo == s.lo && s'.sent == s.sent
            && s'.hi.tasks == s.hi.tasks - {t}
  {
  }

  /** Confirming a chunk changes its mark alone. */
  lemma ConfirmShows(s: Sys, r: Ref, push: Alloc, x: Stream)
    requires r in s.lo.objs
    ensures var st, s' := s.lo.objs[r], Confirm(s, r, push);
            && s' == s.(lo := s.lo.(objs := s'.lo.objs)) && s'.lo.objs.Keys == s.lo.objs.Keys
            && var st' := s'.lo.objs[r];
            && st' == st.(chunks := st'.chunks) && st'.chunks.Keys == st.chunks.Keys
            && (forall i :: i in st.chunks ==>
                  st'.chunks[i].ids == st.chunks[i].ids && st'.chunks[i].data == st.chunks[i].data)
            && (forall i :: i in st.chunks && i != push.index ==> st'.chunks[i] == st.chunks[i])
            && s'.lo.objs[r := x] == s.lo.objs[r := x]
  {
  }

  /** The push that the allocator's get_key waited for: the chunk found at the index is handed out. */
  lemma PushedIsHandedOut(c: Config, s: Sys, t: Task, now: int)
    requires WellFormed(s) && ResumeEnabled(s, SResumePush(t, Ok, true, now)) && t.caller.GetKeyCall?
    requires t.push.index in s.lo.objs[t.ref].chunks
    ensures var s' := DoResume(c, s, SResumePush(t, Ok, true, now));
            && HandsOut(s.lo, s'.lo, t.ref, t.push.index) && s'.hi == s.hi && s'.sent == s.sent
            && s'.lo.tasks == s.lo.tasks - {t}
  {
    var s1, st, i := DropTask(s, Lower, t), s.lo.objs[t.ref], t.push.index;
    ConfirmShows(s1, t.ref, t.push, Deliver(st, i));
    var st' := Confirm(s1, t.ref, t.push).lo.objs[t.ref];
    assert st'.chunks - {i} == st.chunks - {i};
  }

  /** The push that the peer's allocate call waited for: the chunk is marked, and the peer told. */
  lemma PushedIsReported(c: Config, s: Sys, t: Task, tag: nat, now: int)
    requires WellFormed(s) && ResumeEnabled(s, SResumePush(t, Ok, true, now)) && t.caller == AllocateCall(tag)
    ensures var s' := DoResume(c, s, SResumePush(t, Ok, true, now));
            && s'.sent == s.sent + {AllocateOk(tag)} && s'.hi == s.hi
            && s'.lo.reg == s.lo.reg && s'.lo.log == s.lo.log && s'.lo.pool == s.lo.pool
            && var st, i := s.lo.objs[t.ref], t.push.index;
            && (i in st.chunks && st.chunks[i].ids == t.push.ids ==>
                  s'.lo.objs == s.lo.objs[t.ref := st.(chunks := st.chunks[i := st.chunks[i].(confirmed := true)])])
  {
  }

  /** A call that fails, or finds the stream lost, gives nothing to the application; a lost stream is
      closed and wiped. */
  lemma FailedCallsGiveNothing(c: Config, s: Sys, side: Side, t: Task, outcome: Outcome, fits: bool, now: int)
    requires WellFormed(s) && !outcome.Ok? && t in At(s, side).tasks
    requires if side.Lower? then t.AwaitPush? else t.AwaitAllocate?
    ensures var r := if side.Lower? then SResumePush(t, outcome, fits, now) else SResumeAllocate(t, outcome, fits, now);
            var n, n' := At(s, side), At(DoResume(c, s, r), side);
            && n'.log == n.log && n'.reg == n.reg && n'.pool == n.pool && n'.tasks == n.tasks - {t}
            && At(DoResume(c, s, r), Other(side)) == At(s, Other(side)) && DoResume(c, s, r).sent == s.sent
            && (outcome.Failed? ==> n'.objs == n.objs)
            && (outcome.LostStream? ==>
                  n'.objs == n.objs[t.ref := n.objs[t.ref].(chunks := map[], state := Closed, closedAt := Some(now))])
  {
  }

  /** get_key that may not, or cannot, hand anything out consumes nothing. */
  lemma RefusedGetKey(c: Config, s: Sys, side: Side, ksid: Ksid, want: Option<nat>, i: nat, fits: bool, now: int)
    requires ConfigOk(c) && WellFormed(s)
    ensures var n, s' := At(s, side), Do(c, s, AtHome(SGetKey(side, ksid, want, fits, now)));
            && (ksid !in n.reg || n.objs[n.reg[ksid]].state == Closed || n.objs[n.reg[ksid]].localClosed ==> s' == s)
            && (ksid in n.reg && n.objs[n.reg[ksid]].state == PendingPeer && !n.objs[n.reg[ksid]].localClosed ==>
                  s' == With(s, side, Touched(n, n.reg[ksid], now)))
    ensures var n, s' := At(s, side), Do(c, s, AtHome(SGetKey(side, ksid, Some(i), fits, now)));
            ksid in n.reg && n.objs[n.reg[ksid]].state in {Established, Closing} && !n.objs[n.reg[ksid]].localClosed ==>
              var st := n.objs[n.reg[ksid]];
              i in st.delivered || (st.peerClosed && i !in st.chunks)
              || (i in st.chunks && (side.Higher? || st.chunks[i].confirmed) && !fits) ==>
                s' == With(s, side, Touched(n, n.reg[ksid], now))
  {
  }

  // ------------------------------------------------------------ from one KME to the other

  /** The chunk that the allocator makes of its `n` oldest keys. */
  function NextChunk(s: Sys, ksid: Ksid, i: nat, n: nat): Alloc
    requires n <= |Locals(s.lo.pool.buf)|
  {
    var keys := Locals(s.lo.pool.buf)[..n];
    Alloc(ksid, i, IdsOf(keys), Concat(keys))
  }

  /** The allocator can make chunk `i` of stream `ksid`. */
  ghost predicate Servable(c: Config, s: Sys, ksid: Ksid, i: nat)
    requires ConfigOk(c)
  {
    && OpenFor(s.lo, ksid, i) && !s.lo.locked
    && var st := s.lo.objs[s.lo.reg[ksid]];
    var n := st.size / c.keyBytes;
    && i !in st.chunks && i == st.nextAlloc
    && 0 < n && HeldKeys(s.lo) + n <= c.capKeys && n + c.low <= |Locals(s.lo.pool.buf)|
  }

  /** What the allocator's KME looks like then. */
  ghost predicate Pushes(s: Sys, s': Sys, r: Ref, a: Alloc, n: nat, caller: Caller, now: int) {
    && r in s.lo.objs && n <= |Locals(s.lo.pool.buf)|
    && var st := s.lo.objs[r];
    && s'.lo.objs == s.lo.objs[r := st.(chunks := st.chunks[a.index := Chunk(a.ids, a.data, false, now)],
                                        nextAlloc := st.nextAlloc + 1)]
    && Locals(s'.lo.pool.buf) == Locals(s.lo.pool.buf)[n..] && s'.lo.extra == 0
    && s'.lo.reg == s.lo.reg && s'.lo.log == s.lo.log && s'.lo.locked == s.lo.locked
    && s'.lo.tasks == s.lo.tasks + {AwaitPush(s.next, r, a, caller)}
    && s'.sent == s.sent + {PushReq(s.next, a)} && s'.hi == s.hi
  }

  /** `_obtain` with everything in place: the chunk is created of the oldest keys and pushed. */
  lemma ObtainPushes(c: Config, s: Sys, ksid: Ksid, i: nat, caller: Caller, fits: bool, now: int)
    requires ConfigOk(c) && Servable(c, s, ksid, i)
    ensures var r := s.lo.reg[ksid];
            var n := s.lo.objs[r].size / c.keyBytes;
            Pushes(s, ObtainLower(c, s, r, i, caller, fits, now), r, NextChunk(s, ksid, i, n), n, caller, now)
  {
    LocalsAfterRemoval(s.lo.pool, s.lo.objs[s.lo.reg[ksid]].size / c.keyBytes);
  }

  /** With the pool lock held the allocation waits, and once the lock is free it does the same. */
  lemma LockOnlyDelays(c: Config, s: Sys, ksid: Ksid, i: nat, caller: Caller, fits: bool, now: int)
    requires ConfigOk(c) && Servable(c, s, ksid, i)
    ensures var r := s.lo.reg[ksid];
            var w := AwaitTake(s.next, r, i, s.lo.objs[r].size / c.keyBytes, caller);
            ObtainLower(c, s.(lo := s.lo.(locked := true)), r, i, caller, fits, now)
            == s.(lo := s.lo.(locked := true, tasks := s.lo.tasks + {w}), next := s.next + 1)
    ensures var r := s.lo.reg[ksid];
            var n := s.lo.objs[r].size / c.keyBytes;
            var w := AwaitTake(s.next, r, i, n, caller);
            Pushes(DropTask(s, Lower, w), ResumeTake(c, s, w, fits, now), r, NextChunk(s, ksid, i, n), n, caller, now)
  {
    LocalsAfterRemoval(s.lo.pool, s.lo.objs[s.lo.reg[ksid]].size / c.keyBytes);
  }

  /** A chunk whose push went unanswered is pushed again as it is; a confirmed one is not. */
  lemma UnconfirmedIsPushedAgain(c: Config, s: Sys, r: Ref, i: nat, tag: nat, fits: bool, now: int)
    requires ConfigOk(c) && r in s.lo.objs && i in s.lo.objs[r].chunks
    ensures var st, caller := s.lo.objs[r], AllocateCall(tag);
            var a := Alloc(st.ksid, i, st.chunks[i].ids, st.chunks[i].data);
            ObtainLower(c, s, r, i, caller, fits, now)
            == if st.chunks[i].confirmed then s.(sent := s.sent + {AllocateOk(tag)})
               else s.(lo := s.lo.(tasks := s.lo.tasks + {AwaitPush(s.next, r, a, caller)}),
                       sent := s.sent + {PushReq(s.next, a)}, next := s.next + 1)
  {
  }

  /** The peer's allocate call: a chunk that is there is served even after this side's application closed;
      nothing new is made then, nor for a stream that is closed or unknown. */
  lemma AllocateAnswers(c: Config, s: Sys, tag: nat, ksid: Ksid, i: nat, now: int)
    requires ConfigOk(c) && WellFormed(s)
    ensures var s' := DoPeer(c, s, SRecvAllocate(tag, ksid, i, now));
            if ksid !in s.lo.reg then s' == s
            else
              var r := s.lo.reg[ksid];
              var st := s.lo.objs[r];
              && (st.state == Closed ==> s' == s)
              && (st.localClosed && i !in st.chunks ==> s' == s)
              && (st.state != Closed && i in st.chunks ==>
                    var a := Alloc(ksid, i, st.chunks[i].ids, st.chunks[i].data);
                    s' == if st.chunks[i].confirmed then s.(sent := s.sent + {AllocateOk(tag)})
                          else s.(lo := s.lo.(tasks := s.lo.tasks + {AwaitPush(s.next, r, a, AllocateCall(tag))}),
                                  sent := s.sent + {PushReq(s.next, a)}, next := s.next + 1))
  {
    if ksid in s.lo.reg && i in s.lo.objs[s.lo.reg[ksid]].chunks {
      UnconfirmedIsPushedAgain(c, s, s.lo.reg[ksid], i, tag, true, now);
    }
  }

  /** Nothing is allocated out of turn, above the share, or from keys that the floor needs; in the last
      case the producer is asked for them. */
  lemma RefusedObtain(c: Config, s: Sys, r: Ref, i: nat, caller: Caller, fits: bool, now: int)
    requires ConfigOk(c) && r in s.lo.objs && i !in s.lo.objs[r].chunks
    ensures var st, s' := s.lo.objs[r], ObtainLower(c, s, r, i, caller, fits, now);
            var n := st.size / c.keyBytes;
            && (i != st.nextAlloc || HeldKeys(s.lo) + n > c.capKeys ==> s' == s)
            && (!s.lo.locked && |Locals(s.lo.pool.buf)| < n + c.low ==> s' == s.(lo := s.lo.(extra := s'.lo.extra)))
            && (i == st.nextAlloc && HeldKeys(s.lo) + n <= c.capKeys && !s.lo.locked
                && |Locals(s.lo.pool.buf)| < n + c.low ==>
                  s.lo.extra <= s'.lo.extra && (n + 2 * c.low <= c.capacity ==> n <= s'.lo.extra))
  {
  }

  /** The peer's allocate call arrives. */
  lemma AllocateCallPushes(c: Config, s: Sys, tag: nat, ksid: Ksid, i: nat, now: int)
    requires ConfigOk(c) && WellFormed(s) && Servable(c, s, ksid, i)
    ensures var r := s.lo.reg[ksid];
            var n := s.lo.objs[r].size / c.keyBytes;
            Pushes(s, DoPeer(c, s, SRecvAllocate(tag, ksid, i, now)), r, NextChunk(s, ksid, i, n), n,
                   AllocateCall(tag), now)
  {
    ObtainPushes(c, s, ksid, i, AllocateCall(tag), true, now);
  }

  /** The other side's get_key asks the allocator. */
  lemma HigherAsks(c: Config, s: Sys, ksid: Ksid, want: Option<nat>, i: nat, fits: bool, now: int)
    requires ConfigOk(c) && WellFormed(s) && OpenFor(s.hi, ksid, i)
    requires var st := s.hi.objs[s.hi.reg[ksid]]; Means(st, want, i) && i !in st.chunks
    ensures var s', r := Do(c, s, AtHome(SGetKey(Higher, ksid, want, fits, now))), s.hi.reg[ksid];
            && s'.hi == Touched(s.hi, r, now).(tasks := s.hi.tasks + {AwaitAllocate(s.next, r, i)})
            && s'.sent == s.sent + {AllocateReq(s.next, ksid, i)} && s'.lo == s.lo && s'.next == s.next + 1
  {
  }

  /** A push that finds its index free is stored and acknowledged. */
  lemma PushIsStored(c: Config, s: Sys, tag: nat, push: Alloc, now: int)
    requires ConfigOk(c) && WellFormed(s) && OpenFor(s.hi, push.ksid, push.index) && !s.hi.locked
    requires push.index !in s.hi.objs[s.hi.reg[push.ksid]].chunks
    ensures var s', r := DoPeer(c, s, SRecvPush(tag, push, now)), s.hi.reg[push.ksid];
            var st := s.hi.objs[r];
            && s'.hi.objs == s.hi.objs[r :=
                                         st.(chunks := st.chunks[push.index := Chunk(push.ids, push.data, true, now)],
                                               lastActivity := now)]
            && s'.hi.reg == s.hi.reg && s'.hi.log == s.hi.log && s'.hi.tasks == s.hi.tasks
            && s'.sent == s.sent + {PushAck(tag, push)} && s'.lo == s.lo
  {
  }

  /** With the pool lock held the chunk is stored at once; its keys are withdrawn, and the push
      acknowledged, when the lock is free. */
  lemma LockedStoreWaits(c: Config, s: Sys, tag: nat, push: Alloc, now: int)
    requires ConfigOk(c) && WellFormed(s) && OpenFor(s.hi, push.ksid, push.index) && s.hi.locked
    requires push.index !in s.hi.objs[s.hi.reg[push.ksid]].chunks
    ensures var s', r := DoPeer(c, s, SRecvPush(tag, push, now)), s.hi.reg[push.ksid];
            var st := s.hi.objs[r];
            && s'.hi.objs == s.hi.objs[r :=
                                         st.(chunks := st.chunks[push.index := Chunk(push.ids, push.data, true, now)])]
            && s'.hi.pool == s.hi.pool && s'.hi.tasks == s.hi.tasks + {AwaitDrop(tag, r, push)} && s'.sent == s.sent
  {
  }

  lemma WaitedStoreEnds(c: Config, s: Sys, t: Task, now: int)
    requires ConfigOk(c) && WellFormed(s) && ResumeEnabled(s, SResumeDrop(t, now))
    ensures var s' := DoResume(c, s, SResumeDrop(t, now));
            && s'.hi.objs == s.hi.objs[t.ref := s.hi.objs[t.ref].(lastActivity := now)]
            && s'.hi.tasks == s.hi.tasks - {t} && s'.sent == s.sent + {PushAck(t.tag, t.push)} && s'.lo == s.lo
            && s'.hi.pool.byId == s.hi.pool.byId - (set x | x in t.push.ids)
  {
    DropsIds(s.hi.pool, t.push.ids);
  }

  lemma {:induction false} DropsIds(p: Pool, ids: seq<KeyId>)
    ensures DropEach(p, ids).byId == p.byId - set x | x in ids
    decreases ids
  {
    if ids == [] {
      assert p.byId - (set x | x in ids) == p.byId;
    } else {
      SplitIds(ids, {}, p.byId);
      DropsIds(DropOne(p, ids[0]), ids[1..]);
    }
  }

  /** Any other push changes no store. It is acknowledged if it was stored before, under these bytes or
      already handed out, and refused otherwise. */
  lemma OtherPushes(c: Config, s: Sys, tag: nat, push: Alloc, now: int)
    requires ConfigOk(c) && WellFormed(s)
    ensures var s', known := DoPeer(c, s, SRecvPush(tag, push, now)), push.ksid in s.hi.reg;
            && (!known || s.hi.objs[s.hi.reg[push.ksid]].state == Closed ==> s' == s)
            && (known && s.hi.objs[s.hi.reg[push.ksid]].state != Closed ==>
                  var st, i := s.hi.objs[s.hi.reg[push.ksid]], push.index;
                  && (i in st.chunks && st.chunks[i].data != push.data ==> s' == s)
                  && ((i in st.chunks && st.chunks[i].data == push.data) || (i !in st.chunks && i in st.delivered) ==>
                        s' == s.(sent := s.sent + {PushAck(tag, push)})))
  {
  }

  lemma TouchedServable(c: Config, s: Sys, ksid: Ksid, i: nat, now: int)
    requires ConfigOk(c) && Servable(c, s, ksid, i)
    ensures Servable(c, s.(lo := Touched(s.lo, s.lo.reg[ksid], now)), ksid, i)
  {
    var n := Touched(s.lo, s.lo.reg[ksid], now);
    assert Live(n) == Live(s.lo);
    SameHeld(Live(s.lo), s.lo.objs, n.objs);
  }

  /** The allocator's own get_key. */
  lemma LowerAsks(c: Config, s: Sys, ksid: Ksid, want: Option<nat>, i: nat, now: int)
    requires ConfigOk(c) && WellFormed(s) && Servable(c, s, ksid, i) && Means(s.lo.objs[s.lo.reg[ksid]], want, i)
    ensures var s', r := Do(c, s, AtHome(SGetKey(Lower, ksid, want, true, now))), s.lo.reg[ksid];
            var n := s.lo.objs[r].size / c.keyBytes;
            Pushes(s.(lo := Touched(s.lo, r, now)), s', r, NextChunk(s, ksid, i, n), n, GetKeyCall, now)
  {
    TouchedServable(c, s, ksid, i, now);
    ObtainPushes(c, s.(lo := Touched(s.lo, s.lo.reg[ksid], now)), ksid, i, GetKeyCall, true, now);
  }

  // ------------------------------------------------------------ whole runs

  /** Some run leads from `s` to `t`. */
  ghost predicate Leads(c: Config, s: Sys, t: Sys)
    requires ConfigOk(c)
  {
    exists steps :: Run(c, s, steps, t)
  }

  ghost predicate Here(c: Config, s: Sys)
    requires ConfigOk(c)
  {
    Reachable(c, s) && WellFormed(s)
  }

  lemma {:induction false} Longer(c: Config, s: Sys, steps: seq<Step>, t: Sys, e: Step)
    requires ConfigOk(c) && Run(c, s, steps, t) && WellFormed(t) && Enabled(c, t, e)
    ensures Run(c, s, steps + [e], Do(c, t, e))
    decreases steps
  {
    if steps == [] {
      assert Run(c, Do(c, s, e), [], Do(c, t, e));
      assert (steps + [e])[1..] == [];
    } else {
      Longer(c, Do(c, s, steps[0]), steps[1..], t, e);
      assert (steps + [e])[1..] == steps[1..] + [e];
    }
  }

  lemma Stays(c: Config, s: Sys)
    requires ConfigOk(c)
    ensures Leads(c, s, s)
  {
    assert Run(c, s, [], s);
  }

  lemma Next(c: Config, s0: Sys, s: Sys, e: Step)
    requires ConfigOk(c) && Leads(c, s0, s) && Here(c, s) && Enabled(c, s, e)
    ensures Leads(c, s0, Do(c, s, e)) && Here(c, Do(c, s, e))
  {
    var steps :| Run(c, s0, steps, s);
    Longer(c, s0, steps, s, e);
    var before :| Run(c, INIT, before, s);
    Longer(c, INIT, before, s, e);
    RunsStayWellFormed(c, Do(c, s, e));
  }

  /** The allocator pushed `a` and waits, and the peer's index is free. */
  ghost predicate Underway(s: Sys, r: Ref, q: Ref, w: Task, a: Alloc) {
    && w.AwaitPush? && w in s.lo.tasks && w.ref == r && w.push == a && PushReq(w.tag, a) in s.sent
    && OpenFor(s.lo, a.ksid, a.index) && s.lo.reg[a.ksid] == r && a.index in s.lo.objs[r].chunks
    && s.lo.objs[r].chunks[a.index].ids == a.ids && s.lo.objs[r].chunks[a.index].data == a.data
    && OpenFor(s.hi, a.ksid, a.index) && s.hi.reg[a.ksid] == q && a.index !in s.hi.objs[q].chunks && !s.hi.locked
  }

  /** The push arrives and is answered; the peer keeps its waiting calls. */
  lemma PushArrives(c: Config, s0: Sys, s: Sys, r: Ref, q: Ref, w: Task, a: Alloc, now: int) returns (t: Sys)
    requires ConfigOk(c) && Leads(c, s0, s) && Here(c, s) && Underway(s, r, q, w, a)
    ensures Leads(c, s0, t) && Here(c, t) && t.lo == s.lo && PushAck(w.tag, a) in t.sent
    ensures OpenFor(t.hi, a.ksid, a.index) && t.hi.reg[a.ksid] == q && a.index in t.hi.objs[q].chunks
    ensures t.hi.objs[q].chunks[a.index] == Chunk(a.ids, a.data, true, now)
    ensures t.hi.objs[q].delivered == s.hi.objs[q].delivered && t.hi.log == s.hi.log && t.hi.tasks == s.hi.tasks
  {
    var e := FromPeer(SRecvPush(w.tag, a, now));
    PushIsStored(c, s, w.tag, a, now);
    t := Do(c, s, e);
    Next(c, s0, s, e);
  }

  /** Index `i` of `ksid` can be served to both applications. */
  ghost predicate Ready(c: Config, s: Sys, ksid: Ksid, i: nat)
    requires ConfigOk(c)
  {
    && Servable(c, s, ksid, i)
    && OpenFor(s.hi, ksid, i) && i !in s.hi.objs[s.hi.reg[ksid]].chunks && !s.hi.locked
  }

  /** Record `r` handed `a` out, and holds it no more. */
  ghost predicate Received(n: Node, n': Node, r: Ref, a: Alloc) {
    && n'.log == n.log + [Delivery(r, a)]
    && r in n'.objs && a.index in n'.objs[r].delivered && a.index !in n'.objs[r].chunks
  }

  ghost predicate BothReceive(s: Sys, t: Sys, ksid: Ksid, a: Alloc)
    requires ksid in s.lo.reg && ksid in s.hi.reg
  {
    Received(s.lo, t.lo, s.lo.reg[ksid], a) && Received(s.hi, t.hi, s.hi.reg[ksid], a)
  }

  /** The first half, when the allocator's application asks first. */
  lemma LowerPushes(c: Config, s: Sys, ksid: Ksid, want: Option<nat>, i: nat, now: int) returns (t: Sys, w: Task)
    requires ConfigOk(c) && Here(c, s) && Ready(c, s, ksid, i) && Means(s.lo.objs[s.lo.reg[ksid]], want, i)
    ensures Leads(c, s, t) && Here(c, t) && w.AwaitPush? && w.caller == GetKeyCall
    ensures var n := s.lo.objs[s.lo.reg[ksid]].size / c.keyBytes;
            && Underway(t, s.lo.reg[ksid], s.hi.reg[ksid], w, NextChunk(s, ksid, i, n)) && t.hi == s.hi
            && t.lo.log == s.lo.log && Locals(t.lo.pool.buf) == Locals(s.lo.pool.buf)[n..]
  {
    var e := AtHome(SGetKey(Lower, ksid, want, true, now));
    LowerAsks(c, s, ksid, want, i, now);
    Stays(c, s);
    t := Do(c, s, e);
    Next(c, s, s, e);
    var n := s.lo.objs[s.lo.reg[ksid]].size / c.keyBytes;
    w := AwaitPush(s.next, s.lo.reg[ksid], NextChunk(s, ksid, i, n), GetKeyCall);
  }

  /** From every reachable state in which an index can be served: the allocator's application asks, both
      applications receive, and what they receive are the allocator's oldest keys. */
  lemma LowerFirst(c: Config, s: Sys, ksid: Ksid, want: Option<nat>, i: nat, now: int) returns (t: Sys)
    requires ConfigOk(c) && Here(c, s) && Ready(c, s, ksid, i) && Means(s.lo.objs[s.lo.reg[ksid]], want, i)
    ensures Leads(c, s, t)
    ensures var n := s.lo.objs[s.lo.reg[ksid]].size / c.keyBytes;
            && BothReceive(s, t, ksid, NextChunk(s, ksid, i, n))
            && Locals(t.lo.pool.buf) == Locals(s.lo.pool.buf)[n..]
  {
    var n := s.lo.objs[s.lo.reg[ksid]].size / c.keyBytes;
    var chunk := NextChunk(s, ksid, i, n);
    var s1, w := LowerPushes(c, s, ksid, want, i, now);
    var s2 := PushArrives(c, s, s1, s.lo.reg[ksid], s.hi.reg[ksid], w, chunk, now);
    var s3 := LowerReceives(c, s, s2, w, now);
    t := HigherReceives(c, s, s3, ksid, i, now);
  }

  lemma LowerReceives(c: Config, s0: Sys, s: Sys, w: Task, now: int) returns (t: Sys)
    requires ConfigOk(c) && Leads(c, s0, s) && Here(c, s) && w in s.lo.tasks && w.AwaitPush? && w.caller == GetKeyCall
    requires PushAck(w.tag, w.push) in s.sent && w.push.index in s.lo.objs[w.ref].chunks
    ensures Leads(c, s0, t) && Here(c, t) && HandsOut(s.lo, t.lo, w.ref, w.push.index) && t.hi == s.hi
  {
    var e := Resumed(SResumePush(w, Ok, true, now));
    PushedIsHandedOut(c, s, w, now);
    t := Do(c, s, e);
    Next(c, s0, s, e);
  }

  lemma HigherReceives(c: Config, s0: Sys, s: Sys, ksid: Ksid, i: nat, now: int) returns (t: Sys)
    requires ConfigOk(c) && Leads(c, s0, s) && Here(c, s) && OpenFor(s.hi, ksid, i)
    requires i in s.hi.objs[s.hi.reg[ksid]].chunks
    ensures Leads(c, s0, t) && t.lo == s.lo
    ensures HandsOut(Touched(s.hi, s.hi.reg[ksid], now), t.hi, s.hi.reg[ksid], i)
  {
    var e := AtHome(SGetKey(Higher, ksid, Some(i), true, now));
    ReadyIsHandedOut(c, s, Higher, ksid, Some(i), i, now);
    t := Do(c, s, e);
    Next(c, s0, s, e);
  }

  /** The first half, when the other application asks: its call waits, and the allocator's push for it. */
  lemma HigherCauses(c: Config, s: Sys, ksid: Ksid, want: Option<nat>, i: nat, now: int)
    returns (t: Sys, w: Task, ask: Task)
    requires ConfigOk(c) && Here(c, s) && Ready(c, s, ksid, i) && Means(s.hi.objs[s.hi.reg[ksid]], want, i)
    ensures Leads(c, s, t) && Here(c, t)
    ensures w.AwaitPush? && ask == AwaitAllocate(ask.tag, s.hi.reg[ksid], i) && w.caller == AllocateCall(ask.tag)
    ensures ask in t.hi.tasks && t.hi.log == s.hi.log
    ensures var n := s.lo.objs[s.lo.reg[ksid]].size / c.keyBytes;
            && Underway(t, s.lo.reg[ksid], s.hi.reg[ksid], w, NextChunk(s, ksid, i, n))
            && t.lo.log == s.lo.log && Locals(t.lo.pool.buf) == Locals(s.lo.pool.buf)[n..]
  {
    var e := AtHome(SGetKey(Higher, ksid, want, true, now));
    HigherAsks(c, s, ksid, want, i, true, now);
    Stays(c, s);
    var s1 := Do(c, s, e);
    Next(c, s, s, e);
    ask := AwaitAllocate(s.next, s.hi.reg[ksid], i);
    t, w := AllocateArrives(c, s, s1, ask.tag, ksid, i, now);
  }

  lemma AllocateArrives(c: Config, s0: Sys, s: Sys, tag: nat, ksid: Ksid, i: nat, now: int) returns (t: Sys, w: Task)
    requires ConfigOk(c) && Leads(c, s0, s) && Here(c, s) && AllocateReq(tag, ksid, i) in s.sent && Ready(c, s, ksid, i)
    ensures Leads(c, s0, t) && Here(c, t) && w.AwaitPush? && w.caller == AllocateCall(tag) && t.hi == s.hi
    ensures var n := s.lo.objs[s.lo.reg[ksid]].size / c.keyBytes;
            && Underway(t, s.lo.reg[ksid], s.hi.reg[ksid], w, NextChunk(s, ksid, i, n))
            && t.lo.log == s.lo.log && Locals(t.lo.pool.buf) == Locals(s.lo.pool.buf)[n..]
  {
    var e := FromPeer(SRecvAllocate(tag, ksid, i, now));
    AllocateCallPushes(c, s, tag, ksid, i, now);
    t := Do(c, s, e);
    Next(c, s0, s, e);
    var n := s.lo.objs[s.lo.reg[ksid]].size / c.keyBytes;
    w := AwaitPush(s.next, s.lo.reg[ksid], NextChunk(s, ksid, i, n), AllocateCall(tag));
  }

  /** The allocator learns that its push was stored, and answers the allocate call. */
  lemma AllocateAnswered(c: Config, s0: Sys, s: Sys, w: Task, tag: nat, now: int) returns (t: Sys)
    requires ConfigOk(c) && Leads(c, s0, s) && Here(c, s) && w in s.lo.tasks && w.AwaitPush?
    requires w.caller == AllocateCall(tag) && PushAck(w.tag, w.push) in s.sent
    requires OpenFor(s.lo, w.push.ksid, w.push.index) && s.lo.reg[w.push.ksid] == w.ref
    requires var st := s.lo.objs[w.ref]; w.push.index in st.chunks && st.chunks[w.push.index].ids == w.push.ids
    ensures Leads(c, s0, t) && Here(c, t) && AllocateOk(tag) in t.sent && t.hi == s.hi
    ensures OpenFor(t.lo, w.push.ksid, w.push.index) && t.lo.reg == s.lo.reg && w.push.index in t.lo.objs[w.ref].chunks
    ensures t.lo.objs[w.ref].chunks[w.push.index] == s.lo.objs[w.ref].chunks[w.push.index].(confirmed := true)
    ensures t.lo.log == s.lo.log && t.lo.pool == s.lo.pool
  {
    var e := Resumed(SResumePush(w, Ok, true, now));
    PushedIsReported(c, s, w, tag, now);
    t := Do(c, s, e);
    Next(c, s0, s, e);
  }

  lemma HigherIsAnswered(c: Config, s0: Sys, s: Sys, ask: Task, now: int) returns (t: Sys)
    requires ConfigOk(c) && Leads(c, s0, s) && Here(c, s) && ask in s.hi.tasks && ask.AwaitAllocate?
    requires AllocateOk(ask.tag) in s.sent && ask.index in s.hi.objs[ask.ref].chunks
    ensures Leads(c, s0, t) && Here(c, t) && HandsOut(s.hi, t.hi, ask.ref, ask.index) && t.lo == s.lo
  {
    var e := Resumed(SResumeAllocate(ask, Ok, true, now));
    AllocatedIsHandedOut(c, s, ask, now);
    t := Do(c, s, e);
    Next(c, s0, s, e);
  }

  lemma LowerGets(c: Config, s0: Sys, s: Sys, ksid: Ksid, i: nat, now: int) returns (t: Sys)
    requires ConfigOk(c) && Leads(c, s0, s) && Here(c, s) && OpenFor(s.lo, ksid, i)
    requires var st := s.lo.objs[s.lo.reg[ksid]]; i in st.chunks && st.chunks[i].confirmed
    ensures Leads(c, s0, t) && t.hi == s.hi
    ensures HandsOut(Touched(s.lo, s.lo.reg[ksid], now), t.lo, s.lo.reg[ksid], i)
  {
    var e := AtHome(SGetKey(Lower, ksid, Some(i), true, now));
    ReadyIsHandedOut(c, s, Lower, ksid, Some(i), i, now);
    t := Do(c, s, e);
    Next(c, s0, s, e);
  }

  /** The same when the other application asks first: the allocator makes the chunk on its behalf. */
  lemma HigherFirst(c: Config, s: Sys, ksid: Ksid, want: Option<nat>, i: nat, now: int) returns (t: Sys)
    requires ConfigOk(c) && Here(c, s) && Ready(c, s, ksid, i) && Means(s.hi.objs[s.hi.reg[ksid]], want, i)
    ensures Leads(c, s, t)
    ensures var n := s.lo.objs[s.lo.reg[ksid]].size / c.keyBytes;
            && BothReceive(s, t, ksid, NextChunk(s, ksid, i, n))
            && Locals(t.lo.pool.buf) == Locals(s.lo.pool.buf)[n..]
  {
    var n := s.lo.objs[s.lo.reg[ksid]].size / c.keyBytes;
    var chunk := NextChunk(s, ksid, i, n);
    var s1, w, ask := HigherCauses(c, s, ksid, want, i, now);
    var s2 := PushArrives(c, s, s1, s.lo.reg[ksid], s.hi.reg[ksid], w, chunk, now);
    var s3 := AllocateAnswered(c, s, s2, w, ask.tag, now);
    var s4 := HigherIsAnswered(c, s, s3, ask, now);
    t := LowerGets(c, s, s4, ksid, i, now);
  }
}
