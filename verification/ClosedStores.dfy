/** When a closed stream holds no key: `_to_closed` wipes the store, but nothing wipes what is added
    later, and `sweep` forgets closed records without looking at their chunks. */
module ClosedStores {
  import opened KeyPools
  import opened KeyStreams
  import opened Protocol
  import opened ProtocolInvariant
  import opened Creation
  import opened Agreement

  predicate EmptyIfClosed(st: Stream) { st.state == Closed ==> st.chunks == map[] }

  ghost predicate ClosedEmpty(objs: map<Ref, Stream>) {
    forall r :: r in objs ==> EmptyIfClosed(objs[r])
  }

  /** No closed record on either KME holds a chunk. */
  ghost predicate Wiped(s: Sys) { ClosedEmpty(s.lo.objs) && ClosedEmpty(s.hi.objs) }

  lemma PutKeepsWiped(s: Sys, side: Side, r: Ref, st: Stream)
    requires Wiped(s) && EmptyIfClosed(st)
    ensures Wiped(PutObj(s, side, r, st))
  {
  }

  lemma HandOverKeepsWiped(s: Sys, side: Side, r: Ref, i: nat, fits: bool)
    requires Wiped(s) && r in At(s, side).objs
    ensures Wiped(HandOver(s, side, r, i, fits))
  {
    if i in At(s, side).objs[r].chunks { PutKeepsWiped(s, side, r, Deliver(At(s, side).objs[r], i)); }
  }

  lemma PushKeepsWiped(s: Sys, r: Ref, i: nat, caller: Caller, fits: bool)
    requires Wiped(s) && r in s.lo.objs && i in s.lo.objs[r].chunks
    ensures Wiped(Push(s, r, i, caller, fits))
  {
    HandOverKeepsWiped(s, Lower, r, i, fits);
  }

  /** A granted take fills the record it was asked for, closed or not. */
  lemma TakeNowWiped(c: Config, s: Sys, r: Ref, i: nat, n: nat, caller: Caller, fits: bool, now: int)
    requires Wiped(s) && r in s.lo.objs
    ensures Wiped(TakeNow(c, s, r, i, n, caller, fits, now)) <==>
              !(s.lo.objs[r].state == Closed && TakeLocal(s.lo.pool, c.low, n).1.Some?)
  {
    var (pool, got) := TakeLocal(s.lo.pool, c.low, n);
    if got.Some? {
      var s1 := Create(s, r, i, pool, got.value, now);
      var st := Allocated(s.lo.objs[r], i, got.value, now);
      assert s1.lo.objs == s.lo.objs[r := st] && i in st.chunks;
      if s.lo.objs[r].state != Closed {
        PushKeepsWiped(s1, r, i, caller, fits);
      } else {
        assert !st.chunks[i].confirmed;
        assert TakeNow(c, s, r, i, n, caller, fits, now).lo.objs[r] == st;
      }
    }
  }

  lemma ObtainLowerWiped(c: Config, s: Sys, r: Ref, i: nat, caller: Caller, fits: bool, now: int)
    requires ConfigOk(c) && Wiped(s) && r in s.lo.objs && s.lo.objs[r].state != Closed
    ensures Wiped(ObtainLower(c, s, r, i, caller, fits, now))
  {
    var st := s.lo.objs[r];
    if i in st.chunks {
      PushKeepsWiped(s, r, i, caller, fits);
    } else {
      TakeNowWiped(c, s, r, i, st.size / c.keyBytes, caller, fits, now);
    }
  }

  lemma FetchWiped(c: Config, s: Sys, side: Side, r: Ref, want: nat, fits: bool, now: int)
    requires ConfigOk(c) && Wiped(s) && r in At(s, side).objs && At(s, side).objs[r].state != Closed
    ensures Wiped(Fetch(c, s, side, r, want, fits, now))
  {
    HandOverKeepsWiped(s, side, r, want, fits);
    if side.Lower? { ObtainLowerWiped(c, s, r, want, GetKeyCall, fits, now); }
  }

  lemma GetKeyWiped(c: Config, s: Sys, side: Side, ksid: Ksid, index: Option<nat>, fits: bool, now: int)
    requires ConfigOk(c) && Wiped(s) && RegOk(At(s, side))
    ensures Wiped(GetKey(c, s, side, ksid, index, fits, now))
  {
    var n := At(s, side);
    if ksid in n.reg && n.objs[n.reg[ksid]].state != Closed {
      var st := n.objs[n.reg[ksid]].(lastActivity := now);
      PutKeepsWiped(s, side, n.reg[ksid], st);
      FetchWiped(c, PutObj(s, side, n.reg[ksid], st), side, n.reg[ksid],
                 Wanted(st, index), fits, now);
    }
  }

  lemma JoinAndCloseWiped(s: Sys, side: Side, ksid: Ksid, apps: Apps)
    requires Wiped(s) && RegOk(At(s, side))
    ensures Wiped(Join(s, side, ksid, apps)) && Wiped(Close(s, side, ksid))
  {
  }

  lemma HomeWiped(c: Config, s: Sys, h: HomeStep)
    requires ConfigOk(c) && Wiped(s) && WellFormed(s) && HomeEnabled(c, s, h)
    ensures Wiped(DoHome(c, s, h))
  {
    match h
    case SGetKey(side, ksid, want, fits, now) => GetKeyWiped(c, s, side, ksid, want, fits, now);
    case SOpenNew(side, ksid, apps, size, ttl, predefined, now) =>
      PutKeepsWiped(s, side, s.next, NewStream(ksid, apps, size, ttl, true, now));
    case SJoin(side, ksid, apps) => JoinAndCloseWiped(s, side, ksid, apps);
    case SClose(side, ksid) => JoinAndCloseWiped(s, side, ksid, Apps("", ""));
    case SSweep(side, now) => SweepWiped(c, s, side, now);
  }

  lemma SweepWiped(c: Config, s: Sys, side: Side, now: int)
    requires Wiped(s) && RegOk(At(s, side))
    ensures Wiped(Sweep(c, s, side, now))
  {
  }

  lemma ResumePushWiped(s: Sys, t: Task, outcome: Outcome, fits: bool, now: int)
    requires Wiped(s) && t.AwaitPush? && t.ref in s.lo.objs
    ensures Wiped(ResumePush(s, t, outcome, fits, now))
  {
    var s1 := DropTask(s, Lower, t);
    var s2 := Confirm(s1, t.ref, t.push);
    assert Wiped(s2);
    HandOverKeepsWiped(s2, Lower, t.ref, t.push.index, fits);
    PutKeepsWiped(s1, Lower, t.ref, ToClosed(s1.lo.objs[t.ref], now));
  }

  lemma ResumeAllocateWiped(s: Sys, t: Task, outcome: Outcome, fits: bool, now: int)
    requires Wiped(s) && t.AwaitAllocate? && t.ref in s.hi.objs
    ensures Wiped(ResumeAllocate(s, t, outcome, fits, now))
  {
    var s1 := DropTask(s, Higher, t);
    HandOverKeepsWiped(s1, Higher, t.ref, t.index, fits);
    PutKeepsWiped(s1, Higher, t.ref, ToClosed(s1.hi.objs[t.ref], now));
  }

  lemma ResumeOthersWiped(c: Config, s: Sys, side: Side, t: Task, ok: bool, now: int)
    requires Wiped(s)
    ensures t.AwaitAnnounce? ==> Wiped(ResumeAnnounce(s, side, t, ok))
    ensures t.AwaitOpen? ==> Wiped(ResumeOpen(s, side, t, ok))
    ensures t.AwaitDrop? && t.ref in s.hi.objs ==> Wiped(ResumeDrop(c, s, t, now))
  {
  }

  lemma ResumeStatesWiped(s: Sys, side: Side, t: Task, ok: bool, now: int)
    requires Wiped(s)
    ensures t.AwaitEstablish? && t.ref in At(s, side).objs ==> Wiped(ResumeEstablish(s, side, t, ok, now))
    ensures t.AwaitClose? && t.ref in At(s, side).objs ==> Wiped(ResumeClose(s, side, t, now))
  {
  }

  lemma ResumeWiped(c: Config, s: Sys, r: ResumeStep)
    requires Wiped(s) && WellFormed(s) && ResumeEnabled(s, r) && !r.SResumeTake?
    ensures Wiped(DoResume(c, s, r))
  {
    match r
    case SResumePush(t, outcome, fits, now) => ResumePushWiped(s, t, outcome, fits, now);
    case SResumeAllocate(t, outcome, fits, now) => ResumeAllocateWiped(s, t, outcome, fits, now);
    case SResumeAnnounce(side, t, ok) => ResumeOthersWiped(c, s, side, t, ok, 0);
    case SResumeOpen(side, t, ok) => ResumeOthersWiped(c, s, side, t, ok, 0);
    case SResumeEstablish(side, t, ok, now) => ResumeStatesWiped(s, side, t, ok, now);
    case SResumeClose(side, t, now) => ResumeStatesWiped(s, side, t, true, now);
    case SResumeDrop(t, now) => ResumeOthersWiped(c, s, Higher, t, true, now);
  }

  lemma RecvPushWiped(c: Config, s: Sys, tag: nat, push: Alloc, now: int)
    requires Wiped(s) && RegOk(s.hi)
    ensures Wiped(RecvPush(c, s, tag, push, now))
  {
  }

  lemma RecvOpeningWiped(s: Sys, side: Side, tag: nat, ksid: Ksid, apps: Apps, size: nat, ttl: int, now: int)
    requires Wiped(s) && RegOk(At(s, side))
    ensures Wiped(RecvAnnounce(s, side, tag, ksid, apps, size, ttl, now))
    ensures Wiped(RecvEstablish(s, side, tag, ksid, now))
  {
  }

  lemma RecvClosingWiped(s: Sys, side: Side, ksid: Ksid, now: int)
    requires Wiped(s) && RegOk(At(s, side))
    ensures Wiped(RecvWithdraw(s, side, ksid)) && Wiped(RecvClose(s, side, ksid, now))
  {
    if ksid in At(s, side).reg {
      PutKeepsWiped(s, side, At(s, side).reg[ksid], PeerCloses(At(s, side).objs[At(s, side).reg[ksid]], now));
    }
  }

  lemma PeerWiped(c: Config, s: Sys, m: PeerStep)
    requires ConfigOk(c) && Wiped(s) && WellFormed(s)
    ensures Wiped(DoPeer(c, s, m))
  {
    match m
    case SRecvPush(tag, push, now) => RecvPushWiped(c, s, tag, push, now);
    case SRecvAllocate(tag, ksid, i, now) =>
      if ksid in s.lo.reg && s.lo.objs[s.lo.reg[ksid]].state != Closed {
        ObtainLowerWiped(c, s, s.lo.reg[ksid], i, AllocateCall(tag), true, now);
      }
    case SRecvAnnounce(side, tag, ksid, apps, size, ttl, now) =>
      RecvOpeningWiped(s, side, tag, ksid, apps, size, ttl, now);
    case SRecvEstablish(side, tag, ksid, now) => RecvOpeningWiped(s, side, tag, ksid, Apps("", ""), 0, 0, now);
    case SRecvWithdraw(side, ksid) => RecvClosingWiped(s, side, ksid, 0);
    case SRecvClose(side, ksid, now) => RecvClosingWiped(s, side, ksid, now);
  }

  // ------------------------------------------------------------ the exact condition

  /** A delayed allocation that gets its keys finds its record open. */
  ghost predicate InTime(c: Config, s: Sys, e: Step) {
    DelayedTake(e) && e.r.t.ref in s.lo.objs && KeysFor(c, s, e.r.t) ==>
      s.lo.objs[e.r.t.ref].state != Closed
  }

  lemma ResumeTakeWiped(c: Config, s: Sys, t: Task, fits: bool, now: int)
    requires Wiped(s) && t.AwaitTake? && t.ref in s.lo.objs
    ensures Wiped(ResumeTake(c, s, t, fits, now)) <==> InTime(c, s, Resumed(SResumeTake(t, fits, now)))
  {
    TakeNowWiped(c, DropTask(s, Lower, t), t.ref, t.index, t.n, t.caller, fits, now);
  }

  lemma PoolWiped(c: Config, s: Sys, p: PoolStep)
    requires ConfigOk(c) && Wiped(s)
    ensures Wiped(DoPool(c, s, p))
  {
    assert DoPool(c, s, p).lo.objs == s.lo.objs && DoPool(c, s, p).hi.objs == s.hi.objs;
  }

  lemma StepWiped(c: Config, s: Sys, e: Step)
    requires ConfigOk(c) && WellFormed(s) && Wiped(s) && Enabled(c, s, e)
    ensures Wiped(Do(c, s, e)) <==> InTime(c, s, e)
  {
    match e
    case InPool(p) => PoolWiped(c, s, p);
    case AtHome(h) => HomeWiped(c, s, h);
    case Resumed(r) =>
      if r.SResumeTake? {
        ResumeTakeWiped(c, s, r.t, r.fits, r.now);
      } else {
        ResumeWiped(c, s, r);
      }
    case FromPeer(m) => PeerWiped(c, s, m);
  }

  /** No state of the run has a chunk in a closed record. */
  ghost predicate AlwaysWiped(c: Config, s: Sys, steps: seq<Step>)
    requires ConfigOk(c)
    decreases steps
  {
    Wiped(s) &&
    (steps == [] || (WellFormed(s) && Enabled(c, s, steps[0]) && AlwaysWiped(c, Do(c, s, steps[0]), steps[1..])))
  }

  ghost predicate InTimeRun(c: Config, s: Sys, steps: seq<Step>)
    requires ConfigOk(c)
    decreases steps
  {
    steps == [] ||
    (WellFormed(s) && Enabled(c, s, steps[0]) && InTime(c, s, steps[0]) && InTimeRun(c, Do(c, s, steps[0]), steps[1..]))
  }

  lemma {:induction false} WipedIffInTime(c: Config, s: Sys, steps: seq<Step>, t: Sys)
    requires ConfigOk(c) && Wiped(s) && Run(c, s, steps, t)
    ensures InTimeRun(c, s, steps) <==> AlwaysWiped(c, s, steps)
    decreases steps
  {
    if steps != [] {
      StepWiped(c, s, steps[0]);
      if InTime(c, s, steps[0]) {
        WipedIffInTime(c, Do(c, s, steps[0]), steps[1..], t);
      }
    }
  }

  /** Closed streams hold no key throughout a run exactly when no delayed `take_local_for_stream` is
      granted to a stream that was closed while it waited. */
  lemma WipedCondition(c: Config, steps: seq<Step>, t: Sys)
    requires ConfigOk(c) && Run(c, INIT, steps, t)
    ensures InTimeRun(c, INIT, steps) <==> AlwaysWiped(c, INIT, steps)
  {
    WipedIffInTime(c, INIT, steps, t);
  }

  /** Then no record is forgotten with a chunk inside. */
  lemma ForgottenAreEmpty(c: Config, s: Sys, side: Side, now: int, k: Ksid)
    requires Wiped(s) && RegOk(At(s, side)) && k in At(s, side).reg && k !in At(Sweep(c, s, side, now), side).reg
    ensures At(s, side).objs[At(s, side).reg[k]].chunks == map[]
  {
    assert EmptyIfClosed(At(s, side).objs[At(s, side).reg[k]]);
  }
}
