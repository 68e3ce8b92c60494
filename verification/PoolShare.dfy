/** How much of the allocator's pool undelivered chunks may hold (`_cap_keys` of the engine). */
module PoolShare {
  import opened KeyPools
  import opened KeyStreams
  import opened Protocol
  import opened ProtocolInvariant
  import opened Creation
  import opened Agreement

  // ------------------------------------------------------------ sums

  /** Fewer chunks, of the same keys. */
  ghost predicate FewerChunks(small: map<nat, Chunk>, big: map<nat, Chunk>) {
    forall i :: i in small ==> i in big && small[i].ids == big[i].ids
  }

  lemma {:induction false} FewerKeys(small: map<nat, Chunk>, big: map<nat, Chunk>)
    requires FewerChunks(small, big)
    ensures KeysIn(small) <= KeysIn(big)
    decreases |small|
  {
    if small != map[] {
      var i := Least(small.Keys);
      SmallerMap(small, i);
      FewerKeys(small - {i}, big - {i});
      KeysInSplit(big, i);
    }
  }

  lemma {:induction false} HeldSplit(refs: set<Ref>, objs: map<Ref, Stream>, r: Ref)
    requires refs <= objs.Keys && r in refs
    ensures HeldIn(refs, objs) == KeysIn(objs[r].chunks) + HeldIn(refs - {r}, objs)
    decreases |refs|
  {
    var m := Least(refs);
    if m != r {
      HeldSplit(refs - {m}, objs, r);
      LeastUnique(refs - {r}, m);
      assert refs - {m} - {r} == refs - {r} - {m};
    }
  }

  ghost predicate LessHeld(refs': set<Ref>, objs': map<Ref, Stream>, refs: set<Ref>, objs: map<Ref, Stream>) {
    && refs' <= objs'.Keys && refs <= objs.Keys
    && (forall r :: r in refs' ==>
          || (r in refs && FewerChunks(objs'[r].chunks, objs[r].chunks))
          || objs'[r].chunks == map[])
  }

  lemma {:induction false} HeldShrinks(refs': set<Ref>, objs': map<Ref, Stream>, refs: set<Ref>, objs: map<Ref, Stream>)
    requires LessHeld(refs', objs', refs, objs)
    ensures HeldIn(refs', objs') <= HeldIn(refs, objs)
    decreases |refs'|
  {
    if refs' != {} {
      var r := Least(refs');
      if r in refs && FewerChunks(objs'[r].chunks, objs[r].chunks) {
        HeldShrinks(refs' - {r}, objs', refs - {r}, objs);
        HeldSplit(refs, objs, r);
        FewerKeys(objs'[r].chunks, objs[r].chunks);
      } else {
        HeldShrinks(refs' - {r}, objs', refs, objs);
      }
    }
  }

  /** A store that gains nothing: registered records only lose chunks, new ones are empty. */
  ghost predicate NoGain(n: Node, n': Node) {
    forall k :: k in n'.reg && n'.reg[k] in n'.objs ==>
      || (k in n.reg && n.reg[k] == n'.reg[k] && n.reg[k] in n.objs
          && FewerChunks(n'.objs[n'.reg[k]].chunks, n.objs[n.reg[k]].chunks))
      || n'.objs[n'.reg[k]].chunks == map[]
  }

  lemma NoGainHolds(n: Node, n': Node)
    requires NoGain(n, n')
    ensures HeldKeys(n') <= HeldKeys(n)
  {
    assert LessHeld(Live(n'), n'.objs, Live(n), n.objs);
    HeldShrinks(Live(n'), n'.objs, Live(n), n.objs);
  }

  lemma HeldUpdate(refs: set<Ref>, objs: map<Ref, Stream>, r: Ref, st: Stream)
    requires refs <= objs.Keys && r in objs
    ensures r in refs ==>
              HeldIn(refs, objs[r := st]) == HeldIn(refs, objs) - KeysIn(objs[r].chunks) + KeysIn(st.chunks)
    ensures r !in refs ==> HeldIn(refs, objs[r := st]) == HeldIn(refs, objs)
  {
    var objs' := objs[r := st];
    if r in refs {
      HeldSplit(refs, objs, r);
      HeldSplit(refs, objs', r);
      HeldShrinks(refs - {r}, objs', refs - {r}, objs);
      HeldShrinks(refs - {r}, objs, refs - {r}, objs');
    } else {
      HeldShrinks(refs, objs', refs, objs);
      HeldShrinks(refs, objs, refs, objs');
    }
  }

  // ------------------------------------------------------------ steps

  lemma PutGainsNothing(s: Sys, side: Side, r: Ref, st: Stream)
    requires r in At(s, side).objs && FewerChunks(st.chunks, At(s, side).objs[r].chunks)
    ensures NoGain(s.lo, PutObj(s, side, r, st).lo)
  {
  }

  lemma HandOverGainsNothing(s: Sys, side: Side, r: Ref, i: nat, fits: bool)
    requires r in At(s, side).objs
    ensures NoGain(s.lo, HandOver(s, side, r, i, fits).lo)
  {
  }

  lemma PushGainsNothing(s: Sys, r: Ref, i: nat, caller: Caller, fits: bool)
    requires r in s.lo.objs && i in s.lo.objs[r].chunks
    ensures NoGain(s.lo, Push(s, r, i, caller, fits).lo)
    ensures !s.lo.objs[r].chunks[i].confirmed ==>
              Push(s, r, i, caller, fits).lo.reg == s.lo.reg && Push(s, r, i, caller, fits).lo.objs == s.lo.objs
  {
    if s.lo.objs[r].chunks[i].confirmed && caller.GetKeyCall? { HandOverGainsNothing(s, Lower, r, i, fits); }
  }

  /** A granted take adds one chunk of `n` keys, in place of what the index may have held. */
  lemma TakeNowGains(c: Config, s: Sys, r: Ref, i: nat, n: nat, caller: Caller, fits: bool, now: int)
    requires r in s.lo.objs && RegOk(s.lo)
    ensures var s' := TakeNow(c, s, r, i, n, caller, fits, now);
            var st := s.lo.objs[r];
            if TakeLocal(s.lo.pool, c.low, n).1.Some? && r in Live(s.lo) then
              HeldKeys(s'.lo) == HeldKeys(s.lo) + n - (if i in st.chunks then |st.chunks[i].ids| else 0)
            else HeldKeys(s'.lo) == HeldKeys(s.lo)
  {
    var (pool, got) := TakeLocal(s.lo.pool, c.low, n);
    if got.Some? {
      var st := s.lo.objs[r];
      var s1 := Create(s, r, i, pool, got.value, now);
      PushGainsNothing(s1, r, i, caller, fits);
      var st' := s1.lo.objs[r];
      KeysInSplit(st'.chunks, i);
      assert st'.chunks - {i} == st.chunks - {i};
      if i in st.chunks { KeysInSplit(st.chunks, i); } else { assert st.chunks - {i} == st.chunks; }
      HeldUpdate(Live(s.lo), s.lo.objs, r, st');
      assert Live(s1.lo) == Live(s.lo);
    }
  }

  /** Without waiting, `_obtain` takes keys only within the share. */
  lemma ObtainWithinShare(c: Config, s: Sys, r: Ref, i: nat, caller: Caller, fits: bool, now: int)
    requires ConfigOk(c) && r in s.lo.objs && RegOk(s.lo)
    ensures var held := HeldKeys(s.lo);
            HeldKeys(ObtainLower(c, s, r, i, caller, fits, now).lo) <= if held <= c.capKeys then c.capKeys else held
  {
    var st := s.lo.objs[r];
    if i in st.chunks {
      PushGainsNothing(s, r, i, caller, fits);
      NoGainHolds(s.lo, Push(s, r, i, caller, fits).lo);
    } else {
      TakeNowGains(c, s, r, i, st.size / c.keyBytes, caller, fits, now);
    }
  }

  lemma FetchWithinShare(c: Config, s: Sys, side: Side, r: Ref, want: nat, fits: bool, now: int)
    requires ConfigOk(c) && r in At(s, side).objs && RegOk(s.lo) && HeldKeys(s.lo) <= c.capKeys
    ensures HeldKeys(Fetch(c, s, side, r, want, fits, now).lo) <= c.capKeys
  {
    HandOverGainsNothing(s, side, r, want, fits);
    NoGainHolds(s.lo, HandOver(s, side, r, want, fits).lo);
    if side.Lower? { ObtainWithinShare(c, s, r, want, GetKeyCall, fits, now); }
  }

  lemma GetKeyWithinShare(c: Config, s: Sys, side: Side, ksid: Ksid, index: Option<nat>, fits: bool, now: int)
    requires ConfigOk(c) && WellFormed(s) && HeldKeys(s.lo) <= c.capKeys
    ensures HeldKeys(GetKey(c, s, side, ksid, index, fits, now).lo) <= c.capKeys
  {
    var n := At(s, side);
    if ksid in n.reg {
      var r := n.reg[ksid];
      var st := n.objs[r].(lastActivity := now);
      PutGainsNothing(s, side, r, st);
      NoGainHolds(s.lo, PutObj(s, side, r, st).lo);
      FetchWithinShare(c, PutObj(s, side, r, st), side, r, Wanted(st, index), fits, now);
    }
  }

  lemma PoolStepsGainNothing(c: Config, s: Sys, p: PoolStep)
    requires ConfigOk(c)
    ensures NoGain(s.lo, DoPool(c, s, p).lo)
  {
    var s' := DoPool(c, s, p);
    assert s'.lo.reg == s.lo.reg && s'.lo.objs == s.lo.objs;
  }

  lemma HigherStepsKeepLower(c: Config, s: Sys, t: Task, outcome: Outcome, fits: bool, now: int)
    ensures t.AwaitAllocate? && t.ref in s.hi.objs ==> ResumeAllocate(s, t, outcome, fits, now).lo == s.lo
    ensures t.AwaitDrop? && t.ref in s.hi.objs ==> ResumeDrop(c, s, t, now).lo == s.lo
    ensures NoGain(s.lo, s.lo)
  {
  }

  lemma RecvPushKeepsLower(c: Config, s: Sys, tag: nat, push: Alloc, now: int)
    requires RegOk(s.hi)
    ensures RecvPush(c, s, tag, push, now).lo == s.lo && NoGain(s.lo, s.lo)
  {
  }

  lemma JoinGainsNothing(s: Sys, side: Side, ksid: Ksid, apps: Apps)
    requires RegOk(At(s, side))
    ensures NoGain(s.lo, Join(s, side, ksid, apps).lo)
  {
    assert Join(s, side, ksid, apps).lo.objs == s.lo.objs;
  }

  lemma CloseGainsNothing(s: Sys, side: Side, ksid: Ksid)
    requires RegOk(At(s, side))
    ensures NoGain(s.lo, Close(s, side, ksid).lo)
  {
    if ksid in At(s, side).reg {
      var r := At(s, side).reg[ksid];
      PutGainsNothing(s, side, r, At(s, side).objs[r].(localClosed := true));
    }
  }

  lemma NewRecordGainsNothing(n: Node, next: nat, st: Stream)
    requires NodeOk(n, next) && st.chunks == map[]
    ensures NoGain(n, n.(reg := n.reg[st.ksid := next], objs := n.objs[next := st]))
  {
  }

  lemma OpenNewGainsNothing(s: Sys, side: Side, ksid: Ksid, apps: Apps, size: nat, ttl: int, predefined: bool, now: int)
    requires NodeOk(s.lo, s.next)
    ensures NoGain(s.lo, OpenNew(s, side, ksid, apps, size, ttl, predefined, now).lo)
  {
    NewRecordGainsNothing(s.lo, s.next, NewStream(ksid, apps, size, ttl, true, now));
  }

  lemma RecvAnnounceGainsNothing(s: Sys, side: Side, tag: nat, ksid: Ksid, apps: Apps, size: nat, ttl: int, now: int)
    requires RegOk(At(s, side)) && NodeOk(s.lo, s.next)
    ensures NoGain(s.lo, RecvAnnounce(s, side, tag, ksid, apps, size, ttl, now).lo)
  {
    NewRecordGainsNothing(s.lo, s.next, NewStream(ksid, apps, size, ttl, false, now));
    var n := At(s, side);
    if ksid in n.reg {
      var st := n.objs[n.reg[ksid]];
      PutGainsNothing(s, side, n.reg[ksid],
                      st.(peerOpen := true, state := if st.localOpen then Established else st.state));
    }
  }

  lemma ConfirmGainsNothing(s: Sys, r: Ref, push: Alloc)
    requires r in s.lo.objs
    ensures NoGain(s.lo, Confirm(s, r, push).lo)
  {
  }

  lemma NoGainTrans(a: Node, b: Node, d: Node)
    requires NoGain(a, b) && NoGain(b, d) && RegOk(a) && RegOk(b)
    ensures NoGain(a, d)
  {
  }

  lemma ResumePushGainsNothing(s: Sys, t: Task, outcome: Outcome, fits: bool, now: int)
    requires t.AwaitPush? && t.ref in s.lo.objs && RegOk(s.lo)
    ensures NoGain(s.lo, ResumePush(s, t, outcome, fits, now).lo)
  {
    var s1 := DropTask(s, Lower, t);
    match outcome
    case Ok =>
      var s2 := Confirm(s1, t.ref, t.push);
      ConfirmGainsNothing(s1, t.ref, t.push);
      HandOverGainsNothing(s2, Lower, t.ref, t.push.index, fits);
      NoGainTrans(s.lo, s2.lo, HandOver(s2, Lower, t.ref, t.push.index, fits).lo);
    case LostStream => PutGainsNothing(s1, Lower, t.ref, ToClosed(s1.lo.objs[t.ref], now));
    case Failed =>
  }

  lemma ResumeEstablishGainsNothing(s: Sys, side: Side, t: Task, ok: bool, now: int)
    requires t.AwaitEstablish? && t.ref in At(s, side).objs
    ensures NoGain(s.lo, ResumeEstablish(s, side, t, ok, now).lo)
  {
    var s1 := DropTask(s, side, t);
    PutGainsNothing(s1, side, t.ref,
                    At(s1, side).objs[t.ref].(localOpen := true, state := Established, lastActivity := now));
  }

  lemma ResumeCloseGainsNothing(s: Sys, side: Side, t: Task, now: int)
    requires t.AwaitClose? && t.ref in At(s, side).objs
    ensures NoGain(s.lo, ResumeClose(s, side, t, now).lo)
  {
    var s1 := DropTask(s, side, t);
    var st := At(s1, side).objs[t.ref];
    PutGainsNothing(s1, side, t.ref, if st.peerClosed then ToClosed(st, now) else st.(state := Closing));
  }

  lemma UnregisterGainsNothing(s: Sys, side: Side, ksid: Ksid)
    ensures RegOk(s.lo) ==> NoGain(s.lo, Unregister(s, side, ksid).lo)
  {
  }

  lemma OpeningsGainNothing(s: Sys, side: Side, t: Task, ok: bool)
    requires RegOk(s.lo)
    ensures t.AwaitAnnounce? ==> NoGain(s.lo, ResumeAnnounce(s, side, t, ok).lo)
    ensures t.AwaitOpen? ==> NoGain(s.lo, ResumeOpen(s, side, t, ok).lo)
  {
    if t.AwaitAnnounce? || t.AwaitOpen? { UnregisterGainsNothing(s, side, t.ksid); }
  }

  lemma RecvEstablishGainsNothing(s: Sys, side: Side, tag: nat, ksid: Ksid, now: int)
    requires RegOk(At(s, side))
    ensures NoGain(s.lo, RecvEstablish(s, side, tag, ksid, now).lo)
  {
    if ksid in At(s, side).reg {
      var r := At(s, side).reg[ksid];
      PutGainsNothing(s, side, r, At(s, side).objs[r].(peerOpen := true, state := Established, lastActivity := now));
    }
  }

  lemma RecvCloseGainsNothing(s: Sys, side: Side, ksid: Ksid, now: int)
    requires RegOk(At(s, side))
    ensures NoGain(s.lo, RecvClose(s, side, ksid, now).lo)
  {
    if ksid in At(s, side).reg {
      var st := At(s, side).objs[At(s, side).reg[ksid]].(peerClosed := true);
      PutGainsNothing(s, side, At(s, side).reg[ksid],
                      if st.localClosed || !st.localOpen then ToClosed(st, now) else st);
    }
  }

  lemma SweepGainsNothing(c: Config, s: Sys, side: Side, now: int)
    requires RegOk(At(s, side)) && RegOk(s.lo)
    ensures NoGain(s.lo, Sweep(c, s, side, now).lo)
  {
  }

  // ------------------------------------------------------------ the share

  lemma StoredSize(c: Config, s: Sys, r: Ref, i: nat)
    requires Inv(c, s) && r in s.lo.objs && i in s.lo.objs[r].chunks
    ensures |s.lo.objs[r].chunks[i].ids| == s.lo.objs[r].size / c.keyBytes
  {
    assert StoreSized(c, s.lo.objs);
  }

  /** What a delayed take that is granted adds to the keys held: nothing if it replaces a chunk. */
  function Gain(s: Sys, t: Task): nat
    requires t.AwaitTake? && t.ref in s.lo.objs
  {
    if t.ref in Live(s.lo) && t.index !in s.lo.objs[t.ref].chunks then t.n else 0
  }

  /** A delayed allocation that gets its keys still fits the share. */
  ghost predicate Roomy(c: Config, s: Sys, e: Step) {
    DelayedTake(e) && e.r.t.ref in s.lo.objs && KeysFor(c, s, e.r.t) ==>
      HeldKeys(s.lo) + Gain(s, e.r.t) <= c.capKeys
  }

  lemma ResumeTakeGains(c: Config, s: Sys, t: Task, fits: bool, now: int)
    requires Inv(c, s) && t in s.lo.tasks && t.AwaitTake?
    ensures HeldKeys(ResumeTake(c, s, t, fits, now).lo) == HeldKeys(s.lo) + if KeysFor(c, s, t) then Gain(s, t) else 0
  {
    var s1 := DropTask(s, Lower, t);
    TakeNowGains(c, s1, t.ref, t.index, t.n, t.caller, fits, now);
    assert Live(s1.lo) == Live(s.lo);
    if t.index in s.lo.objs[t.ref].chunks {
      StoredSize(c, s, t.ref, t.index);
    }
  }

  lemma ResumeTakeShare(c: Config, s: Sys, t: Task, fits: bool, now: int)
    requires Inv(c, s) && t in s.lo.tasks && t.AwaitTake? && HeldKeys(s.lo) <= c.capKeys
    ensures HeldKeys(ResumeTake(c, s, t, fits, now).lo) <= c.capKeys <==>
              Roomy(c, s, Resumed(SResumeTake(t, fits, now)))
  {
    ResumeTakeGains(c, s, t, fits, now);
  }

  lemma HomeShare(c: Config, s: Sys, h: HomeStep)
    requires ConfigOk(c) && WellFormed(s) && HomeEnabled(c, s, h) && HeldKeys(s.lo) <= c.capKeys
    ensures HeldKeys(DoHome(c, s, h).lo) <= c.capKeys
  {
    match h
    case SGetKey(side, ksid, want, fits, now) => GetKeyWithinShare(c, s, side, ksid, want, fits, now);
    case SOpenNew(side, ksid, apps, size, ttl, predefined, now) =>
      OpenNewGainsNothing(s, side, ksid, apps, size, ttl, predefined, now);
      NoGainHolds(s.lo, DoHome(c, s, h).lo);
    case SJoin(side, ksid, apps) => JoinGainsNothing(s, side, ksid, apps); NoGainHolds(s.lo, DoHome(c, s, h).lo);
    case SClose(side, ksid) => CloseGainsNothing(s, side, ksid); NoGainHolds(s.lo, DoHome(c, s, h).lo);
    case SSweep(side, now) => SweepGainsNothing(c, s, side, now); NoGainHolds(s.lo, DoHome(c, s, h).lo);
  }

  lemma ResumesGainNothing(c: Config, s: Sys, r: ResumeStep)
    requires WellFormed(s) && ResumeEnabled(s, r) && !r.SResumeTake?
    ensures NoGain(s.lo, DoResume(c, s, r).lo)
  {
    match r
    case SResumePush(t, outcome, fits, now) => ResumePushGainsNothing(s, t, outcome, fits, now);
    case SResumeAllocate(t, outcome, fits, now) => HigherStepsKeepLower(c, s, t, outcome, fits, now);
    case SResumeAnnounce(side, t, ok) => OpeningsGainNothing(s, side, t, ok);
    case SResumeOpen(side, t, ok) => OpeningsGainNothing(s, side, t, ok);
    case SResumeEstablish(side, t, ok, now) => ResumeEstablishGainsNothing(s, side, t, ok, now);
    case SResumeClose(side, t, now) => ResumeCloseGainsNothing(s, side, t, now);
    case SResumeDrop(t, now) => HigherStepsKeepLower(c, s, t, Ok, true, now);
  }

  lemma PeerShare(c: Config, s: Sys, m: PeerStep)
    requires ConfigOk(c) && WellFormed(s) && HeldKeys(s.lo) <= c.capKeys
    ensures HeldKeys(DoPeer(c, s, m).lo) <= c.capKeys
  {
    match m
    case SRecvPush(tag, push, now) => RecvPushKeepsLower(c, s, tag, push, now);
    case SRecvAllocate(tag, ksid, i, now) =>
      if ksid in s.lo.reg { ObtainWithinShare(c, s, s.lo.reg[ksid], i, AllocateCall(tag), true, now); }
    case SRecvAnnounce(side, tag, ksid, apps, size, ttl, now) =>
      RecvAnnounceGainsNothing(s, side, tag, ksid, apps, size, ttl, now);
      NoGainHolds(s.lo, DoPeer(c, s, m).lo);
    case SRecvEstablish(side, tag, ksid, now) =>
      RecvEstablishGainsNothing(s, side, tag, ksid, now);
      NoGainHolds(s.lo, DoPeer(c, s, m).lo);
    case SRecvWithdraw(side, ksid) =>
      UnregisterGainsNothing(s, side, ksid);
      NoGainHolds(s.lo, Unregister(s, side, ksid).lo);
    case SRecvClose(side, ksid, now) =>
      RecvCloseGainsNothing(s, side, ksid, now);
      NoGainHolds(s.lo, DoPeer(c, s, m).lo);
  }

  lemma StepShare(c: Config, s: Sys, e: Step)
    requires Inv(c, s) && Enabled(c, s, e) && HeldKeys(s.lo) <= c.capKeys
    ensures HeldKeys(Do(c, s, e).lo) <= c.capKeys <==> Roomy(c, s, e)
  {
    match e
    case InPool(p) => PoolStepsGainNothing(c, s, p); NoGainHolds(s.lo, DoPool(c, s, p).lo);
    case AtHome(h) => HomeShare(c, s, h);
    case Resumed(r) =>
      if r.SResumeTake? {
        ResumeTakeShare(c, s, r.t, r.fits, r.now);
      } else {
        ResumesGainNothing(c, s, r);
        NoGainHolds(s.lo, DoResume(c, s, r).lo);
      }
    case FromPeer(m) => PeerShare(c, s, m);
  }

  /** Every state of the run keeps undelivered chunks within the share. */
  ghost predicate AlwaysWithinShare(c: Config, s: Sys, steps: seq<Step>)
    requires ConfigOk(c)
    decreases steps
  {
    HeldKeys(s.lo) <= c.capKeys &&
    (steps == [] || (WellFormed(s) && Enabled(c, s, steps[0]) && AlwaysWithinShare(c, Do(c, s, steps[0]), steps[1..])))
  }

  ghost predicate RoomyRun(c: Config, s: Sys, steps: seq<Step>)
    requires ConfigOk(c)
    decreases steps
  {
    steps == [] ||
    (WellFormed(s) && Enabled(c, s, steps[0]) && Roomy(c, s, steps[0]) && RoomyRun(c, Do(c, s, steps[0]), steps[1..]))
  }

  lemma {:induction false} RoomyIffWithin(c: Config, s: Sys, steps: seq<Step>, t: Sys)
    requires Inv(c, s) && HeldKeys(s.lo) <= c.capKeys && Run(c, s, steps, t)
    ensures RoomyRun(c, s, steps) <==> AlwaysWithinShare(c, s, steps)
    decreases steps
  {
    if steps != [] {
      StepOk(c, s, steps[0]);
      StepShare(c, s, steps[0]);
      if Roomy(c, s, steps[0]) {
        RoomyIffWithin(c, Do(c, s, steps[0]), steps[1..], t);
      }
    }
  }

  /** The share is exceeded only by an allocation that waited for the pool lock and, when granted,
      no longer fits: the check made before the wait is not repeated. */
  lemma ShareCondition(c: Config, steps: seq<Step>, t: Sys)
    requires ConfigOk(c) && Run(c, INIT, steps, t)
    ensures RoomyRun(c, INIT, steps) <==> AlwaysWithinShare(c, INIT, steps)
  {
    InitInv(c);
    RoomyIffWithin(c, INIT, steps, t);
  }
}
