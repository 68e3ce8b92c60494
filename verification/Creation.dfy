/** Which chunk a step of the two KMEs creates: the one that the guards on its way grant, or none. */
module Creation {
  import opened KeyPools
  import opened KeyStreams
  import opened Protocol
  import opened ProtocolInvariant

  /** A record of the allocator and an index of it. */
  datatype Place = Place(ref: Ref, index: nat)

  /** An allocation that waited for the pool lock goes on. */
  predicate DelayedTake(e: Step) {
    e.Resumed? && e.r.SResumeTake? && e.r.t.AwaitTake?
  }

  /** `_obtain` meets all its guards and gets the keys at once. */
  predicate Served(c: Config, s: Sys, r: Ref, i: nat)
    requires ConfigOk(c) && r in s.lo.objs
  {
    var st := s.lo.objs[r];
    var n := st.size / c.keyBytes;
    && i !in st.chunks && i == st.nextAlloc && HeldKeys(s.lo) + n <= c.capKeys
    && !s.lo.locked && TakeLocal(s.lo.pool, c.low, n).1.Some?
  }

  predicate KeysFor(c: Config, s: Sys, t: Task)
    requires t.AwaitTake?
  {
    TakeLocal(s.lo.pool, c.low, t.n).1.Some?
  }

  /** Where a step puts a new chunk, if it creates one: read off before the step. */
  function Granted(c: Config, s: Sys, e: Step): Option<Place>
    requires ConfigOk(c) && WellFormed(s)
  {
    match e
    case AtHome(SGetKey(Lower, ksid, index, _, _)) =>
      if ksid !in s.lo.reg then None else GrantedToGet(c, s, s.lo.reg[ksid], index)
    case FromPeer(SRecvAllocate(_, ksid, i, _)) =>
      if ksid !in s.lo.reg then None else GrantedToPeer(c, s, s.lo.reg[ksid], i)
    case Resumed(SResumeTake(t, _, _)) =>
      if t.AwaitTake? && KeysFor(c, s, t) then Some(Place(t.ref, t.index)) else None
    case _ => None
  }

  function GrantedToGet(c: Config, s: Sys, r: Ref, index: Option<nat>): Option<Place>
    requires ConfigOk(c) && r in s.lo.objs
  {
    var start := StartGetKey(s.lo.objs[r], true, index);
    if start.MustObtain? && Served(c, s, r, start.index) then Some(Place(r, start.index)) else None
  }

  function GrantedToPeer(c: Config, s: Sys, r: Ref, i: nat): Option<Place>
    requires ConfigOk(c) && r in s.lo.objs
  {
    var st := s.lo.objs[r];
    if st.state != Closed && !st.localClosed && Served(c, s, r, i) then Some(Place(r, i)) else None
  }

  // ------------------------------------------------------------ effects

  /** Records keep their Key_stream_ID and their allocation counter; new ones start at 0. */
  ghost predicate Counters(objs: map<Ref, Stream>, objs': map<Ref, Stream>) {
    forall r :: r in objs' ==>
      if r in objs then objs'[r].ksid == objs[r].ksid && objs'[r].nextAlloc == objs[r].nextAlloc
      else objs'[r].nextAlloc == 0
  }

  ghost predicate Pushed(sent: set<Msg>, a: Alloc) {
    exists tag :: PushReq(tag, a) in sent
  }

  ghost predicate Quiet(s: Sys, s': Sys) {
    s'.allocs == s.allocs && s.sent <= s'.sent && Counters(s.lo.objs, s'.lo.objs)
  }

  /** A new chunk at place `p`, and a push of it. */
  ghost predicate NewAt(s: Sys, s': Sys, p: Place, a: Alloc)
    requires p.ref in s.lo.objs
  {
    && a !in s.allocs && s'.allocs == s.allocs[a := p.ref]
    && a.ksid == s.lo.objs[p.ref].ksid && a.index == p.index
    && Pushed(s'.sent, a)
  }

  ghost predicate CreatesAt(s: Sys, s': Sys, p: Place) {
    && p.ref in s.lo.objs
    && (exists a :: NewAt(s, s', p, a))
    && s.sent <= s'.sent
    && Counters(s.lo.objs[p.ref := s.lo.objs[p.ref].(nextAlloc := s.lo.objs[p.ref].nextAlloc + 1)], s'.lo.objs)
  }

  ghost predicate Creates(s: Sys, s': Sys, g: Option<Place>) {
    if g.None? then Quiet(s, s') else CreatesAt(s, s', g.value)
  }

  lemma HandOverIsQuiet(s: Sys, r: Ref, i: nat, fits: bool)
    requires r in s.lo.objs
    ensures Quiet(s, HandOver(s, Lower, r, i, fits))
  {
  }

  lemma PutIsQuiet(s: Sys, side: Side, r: Ref, st: Stream)
    requires r in At(s, side).objs
    requires st.ksid == At(s, side).objs[r].ksid && st.nextAlloc == At(s, side).objs[r].nextAlloc
    ensures Quiet(s, PutObj(s, side, r, st))
  {
  }

  lemma PushIsQuiet(s: Sys, r: Ref, i: nat, caller: Caller, fits: bool)
    requires r in s.lo.objs && i in s.lo.objs[r].chunks
    ensures Quiet(s, Push(s, r, i, caller, fits))
    ensures !s.lo.objs[r].chunks[i].confirmed ==>
              PushReq(s.next, AsAlloc(s.lo.objs[r].ksid, i, s.lo.objs[r].chunks[i])) in Push(s, r, i, caller, fits).sent
  {
    HandOverIsQuiet(s, r, i, fits);
    if !s.lo.objs[r].chunks[i].confirmed {
      assert Push(s, r, i, caller, fits).lo.objs == s.lo.objs;
    }
  }

  /** A take that is granted leads to a chunk and its push; a refused one does not. */
  lemma TakeNowCreates(c: Config, s: Sys, r: Ref, i: nat, n: nat, caller: Caller, fits: bool, now: int)
    requires ConfigOk(c) && PoolReady(c, s.lo, s.allocs.Keys, s.produced) && r in s.lo.objs
    ensures Creates(s, TakeNow(c, s, r, i, n, caller, fits, now),
                    if TakeLocal(s.lo.pool, c.low, n).1.Some? then Some(Place(r, i)) else None)
  {
    var (pool, got) := TakeLocal(s.lo.pool, c.low, n);
    if got.Some? {
      var a := AsAlloc(s.lo.objs[r].ksid, i, Chunk(IdsOf(got.value), Concat(got.value), false, now));
      CreateIsNew(c, s, r, a, n);
      var s1 := Create(s, r, i, pool, got.value, now);
      var s2 := Push(s1, r, i, caller, fits);
      PushIsQuiet(s1, r, i, caller, fits);
      assert PushReq(s1.next, a) in s2.sent;
      assert NewAt(s, s2, Place(r, i), a);
    }
  }

  lemma ObtainLowerCreates(c: Config, s: Sys, r: Ref, i: nat, caller: Caller, fits: bool, now: int)
    requires ConfigOk(c) && PoolReady(c, s.lo, s.allocs.Keys, s.produced) && r in s.lo.objs
    ensures Creates(s, ObtainLower(c, s, r, i, caller, fits, now),
                    if Served(c, s, r, i) then Some(Place(r, i)) else None)
  {
    var st := s.lo.objs[r];
    if i in st.chunks {
      PushIsQuiet(s, r, i, caller, fits);
    } else if i == st.nextAlloc && !s.lo.locked {
      TakeNowCreates(c, s, r, i, st.size / c.keyBytes, caller, fits, now);
    }
  }

  // ------------------------------------------------------------ touched records

  lemma {:induction false} SameHeld(refs: set<Ref>, objs: map<Ref, Stream>, objs': map<Ref, Stream>)
    requires refs <= objs.Keys && refs <= objs'.Keys
    requires forall r :: r in refs ==> objs'[r].chunks == objs[r].chunks
    ensures HeldIn(refs, objs') == HeldIn(refs, objs)
    decreases |refs|
  {
    if refs != {} {
      SameHeld(refs - {Least(refs)}, objs, objs');
    }
  }

  /** What holds of the touched record held before. */
  lemma TouchedServed(c: Config, s: Sys, r: Ref, st: Stream, i: nat)
    requires ConfigOk(c) && r in s.lo.objs && st == s.lo.objs[r].(lastActivity := st.lastActivity)
    ensures Served(c, PutObj(s, Lower, r, st), r, i) <==> Served(c, s, r, i)
  {
    assert Live(PutObj(s, Lower, r, st).lo) == Live(s.lo);
    SameHeld(Live(s.lo), s.lo.objs, s.lo.objs[r := st]);
  }

  lemma SameStart(s: Sys, t: Sys, s': Sys, g: Option<Place>)
    requires t.allocs == s.allocs && t.sent == s.sent && t.lo.objs.Keys == s.lo.objs.Keys
    requires forall q :: q in s.lo.objs ==>
               t.lo.objs[q].ksid == s.lo.objs[q].ksid && t.lo.objs[q].nextAlloc == s.lo.objs[q].nextAlloc
    requires Creates(t, s', g)
    ensures Creates(s, s', g)
  {
    if g.Some? {
      var a :| NewAt(t, s', g.value, a);
      assert NewAt(s, s', g.value, a);
    }
  }

  lemma GetKeyHigherIsQuiet(c: Config, s: Sys, ksid: Ksid, index: Option<nat>, fits: bool, now: int)
    requires ConfigOk(c) && RegOk(s.hi)
    ensures Quiet(s, GetKey(c, s, Higher, ksid, index, fits, now))
  {
    if ksid in s.hi.reg {
      var r := s.hi.reg[ksid];
      var st := s.hi.objs[r].(lastActivity := now);
      FetchHigherIsQuiet(c, PutObj(s, Higher, r, st), r, Wanted(st, index), fits, now);
    }
  }

  lemma FetchHigherIsQuiet(c: Config, s: Sys, r: Ref, want: nat, fits: bool, now: int)
    requires ConfigOk(c) && r in s.hi.objs
    ensures Quiet(s, Fetch(c, s, Higher, r, want, fits, now))
  {
  }

  lemma FetchCreates(c: Config, s: Sys, r: Ref, index: Option<nat>, fits: bool, now: int)
    requires ConfigOk(c) && PoolReady(c, s.lo, s.allocs.Keys, s.produced) && r in s.lo.objs
    requires var start := StartGetKey(s.lo.objs[r], true, index); !start.NotFound? && !start.NotConnected?
    ensures Creates(s, Fetch(c, s, Lower, r, Wanted(s.lo.objs[r], index), fits, now), GrantedToGet(c, s, r, index))
  {
    match StartGetKey(s.lo.objs[r], true, index)
    case MustObtain(want) => ObtainLowerCreates(c, s, r, want, GetKeyCall, fits, now);
    case Ready(want) => HandOverIsQuiet(s, r, want, fits);
    case _ =>
  }

  lemma TouchedGrant(c: Config, s: Sys, r: Ref, st: Stream, index: Option<nat>)
    requires ConfigOk(c) && r in s.lo.objs && st == s.lo.objs[r].(lastActivity := st.lastActivity)
    ensures GrantedToGet(c, PutObj(s, Lower, r, st), r, index) == GrantedToGet(c, s, r, index)
  {
    var start := StartGetKey(st, true, index);
    if start.MustObtain? { TouchedServed(c, s, r, st, start.index); }
  }

  lemma GetKeyCreates(c: Config, s: Sys, ksid: Ksid, index: Option<nat>, fits: bool, now: int)
    requires ConfigOk(c) && PoolReady(c, s.lo, s.allocs.Keys, s.produced) && RegOk(s.lo)
    ensures Creates(s, GetKey(c, s, Lower, ksid, index, fits, now),
                    if ksid in s.lo.reg then GrantedToGet(c, s, s.lo.reg[ksid], index) else None)
  {
    if ksid in s.lo.reg {
      var r := s.lo.reg[ksid];
      var st := s.lo.objs[r].(lastActivity := now);
      var t := PutObj(s, Lower, r, st);
      var start := StartGetKey(st, true, index);
      if !start.NotFound? && !start.NotConnected? {
        FetchCreates(c, t, r, index, fits, now);
        TouchedGrant(c, s, r, st, index);
        GetKeyFetches(c, s, ksid, index, fits, now);
        SameStart(s, t, Fetch(c, t, Lower, r, Wanted(st, index), fits, now), GrantedToGet(c, s, r, index));
      } else {
        GetKeyStops(c, s, ksid, index, fits, now);
      }
    }
  }

  lemma GetKeyFetches(c: Config, s: Sys, ksid: Ksid, index: Option<nat>, fits: bool, now: int)
    requires ConfigOk(c) && RegOk(s.lo) && ksid in s.lo.reg
    requires var start := StartGetKey(s.lo.objs[s.lo.reg[ksid]], true, index); !start.NotFound? && !start.NotConnected?
    ensures var r := s.lo.reg[ksid];
            var st := s.lo.objs[r].(lastActivity := now);
            GetKey(c, s, Lower, ksid, index, fits, now)
            == Fetch(c, PutObj(s, Lower, r, st), Lower, r, Wanted(st, index), fits, now)
  {
  }

  lemma GetKeyStops(c: Config, s: Sys, ksid: Ksid, index: Option<nat>, fits: bool, now: int)
    requires ConfigOk(c) && RegOk(s.lo) && ksid in s.lo.reg
    requires var start := StartGetKey(s.lo.objs[s.lo.reg[ksid]], true, index); start.NotFound? || start.NotConnected?
    ensures Quiet(s, GetKey(c, s, Lower, ksid, index, fits, now))
  {
    var r := s.lo.reg[ksid];
    PutIsQuiet(s, Lower, r, s.lo.objs[r].(lastActivity := now));
  }

  lemma RecvAllocateCreates(c: Config, s: Sys, tag: nat, ksid: Ksid, i: nat, now: int)
    requires ConfigOk(c) && PoolReady(c, s.lo, s.allocs.Keys, s.produced) && RegOk(s.lo)
    ensures Creates(s, RecvAllocate(c, s, tag, ksid, i, now),
                    if ksid in s.lo.reg then GrantedToPeer(c, s, s.lo.reg[ksid], i) else None)
  {
    if ksid in s.lo.reg {
      ObtainLowerCreates(c, s, s.lo.reg[ksid], i, AllocateCall(tag), true, now);
    }
  }

  lemma ResumeTakeCreates(c: Config, s: Sys, t: Task, fits: bool, now: int)
    requires Inv(c, s) && t in s.lo.tasks && t.AwaitTake?
    ensures Creates(s, ResumeTake(c, s, t, fits, now), if KeysFor(c, s, t) then Some(Place(t.ref, t.index)) else None)
  {
    var s1 := DropTask(s, Lower, t);
    DropTaskOk(c, s, Lower, t);
    TakeNowCreates(c, s1, t.ref, t.index, t.n, t.caller, fits, now);
    SameStart(s, s1, ResumeTake(c, s, t, fits, now), if KeysFor(c, s, t) then Some(Place(t.ref, t.index)) else None);
  }

  // ------------------------------------------------------------ steps that create nothing

  lemma PoolStepsAreQuiet(c: Config, s: Sys, p: PoolStep)
    requires ConfigOk(c)
    ensures Quiet(s, DoPool(c, s, p))
  {
  }

  lemma JoinIsQuiet(s: Sys, side: Side, ksid: Ksid, apps: Apps)
    requires RegOk(At(s, side))
    ensures Quiet(s, Join(s, side, ksid, apps))
  {
    assert Join(s, side, ksid, apps).lo.objs == s.lo.objs;
  }

  lemma CloseIsQuiet(s: Sys, side: Side, ksid: Ksid)
    requires RegOk(At(s, side))
    ensures Quiet(s, Close(s, side, ksid))
  {
    if ksid in At(s, side).reg {
      PutIsQuiet(s, side, At(s, side).reg[ksid], At(s, side).objs[At(s, side).reg[ksid]].(localClosed := true));
    }
  }

  lemma OpenNewIsQuiet(s: Sys, side: Side, ksid: Ksid, apps: Apps, size: nat, ttl: int, predefined: bool, now: int)
    requires Below(s.lo.objs, s.next)
    ensures Quiet(s, OpenNew(s, side, ksid, apps, size, ttl, predefined, now))
  {
  }

  lemma SweepIsQuiet(c: Config, s: Sys, side: Side, now: int)
    requires RegOk(At(s, side))
    ensures Quiet(s, Sweep(c, s, side, now))
  {
  }

  lemma QuietTwice(s: Sys, t: Sys, u: Sys)
    requires Quiet(s, t) && Quiet(t, u) && s.lo.objs.Keys <= t.lo.objs.Keys
    ensures Quiet(s, u)
  {
  }

  lemma ConfirmIsQuiet(s: Sys, r: Ref, push: Alloc)
    requires r in s.lo.objs
    ensures Quiet(s, Confirm(s, r, push)) && s.lo.objs.Keys <= Confirm(s, r, push).lo.objs.Keys
  {
  }

  lemma ResumePushIsQuiet(s: Sys, t: Task, outcome: Outcome, fits: bool, now: int)
    requires t.AwaitPush? && t.ref in s.lo.objs
    ensures Quiet(s, ResumePush(s, t, outcome, fits, now))
  {
    var s1 := DropTask(s, Lower, t);
    match outcome
    case Ok =>
      var s2 := Confirm(s1, t.ref, t.push);
      ConfirmIsQuiet(s1, t.ref, t.push);
      HandOverIsQuiet(s2, t.ref, t.push.index, fits);
      QuietTwice(s1, s2, ResumePush(s, t, outcome, fits, now));
    case LostStream => PutIsQuiet(s1, Lower, t.ref, ToClosed(s1.lo.objs[t.ref], now));
    case Failed =>
  }

  lemma ResumeHigherIsQuiet(c: Config, s: Sys, t: Task, outcome: Outcome, fits: bool, now: int)
    ensures t.AwaitAllocate? && t.ref in s.hi.objs ==> Quiet(s, ResumeAllocate(s, t, outcome, fits, now))
    ensures t.AwaitDrop? && t.ref in s.hi.objs ==> Quiet(s, ResumeDrop(c, s, t, now))
  {
  }

  lemma ResumeOpeningIsQuiet(s: Sys, side: Side, t: Task, ok: bool)
    ensures t.AwaitAnnounce? ==> Quiet(s, ResumeAnnounce(s, side, t, ok))
    ensures t.AwaitOpen? ==> Quiet(s, ResumeOpen(s, side, t, ok))
  {
  }

  lemma ResumeEstablishAndCloseAreQuiet(s: Sys, side: Side, t: Task, ok: bool, now: int)
    ensures t.AwaitEstablish? && t.ref in At(s, side).objs ==> Quiet(s, ResumeEstablish(s, side, t, ok, now))
    ensures t.AwaitClose? && t.ref in At(s, side).objs ==> Quiet(s, ResumeClose(s, side, t, now))
  {
  }

  lemma RecvPushIsQuiet(c: Config, s: Sys, tag: nat, push: Alloc, now: int)
    requires RegOk(s.hi)
    ensures Quiet(s, RecvPush(c, s, tag, push, now))
  {
  }

  lemma RecvAnnounceIsQuiet(s: Sys, side: Side, tag: nat, ksid: Ksid, apps: Apps, size: nat, ttl: int, now: int)
    requires RegOk(At(s, side)) && Below(s.lo.objs, s.next)
    ensures Quiet(s, RecvAnnounce(s, side, tag, ksid, apps, size, ttl, now))
  {
    var n := At(s, side);
    if ksid in n.reg {
      PutIsQuiet(s, side, n.reg[ksid], Announces(n.objs[n.reg[ksid]]));
    }
  }

  lemma OtherReceivesAreQuiet(s: Sys, side: Side, tag: nat, ksid: Ksid, now: int)
    requires RegOk(At(s, side))
    ensures Quiet(s, RecvEstablish(s, side, tag, ksid, now))
    ensures Quiet(s, RecvWithdraw(s, side, ksid))
    ensures Quiet(s, RecvClose(s, side, ksid, now))
  {
  }

  lemma OtherCallsAreQuiet(c: Config, s: Sys, h: HomeStep)
    requires ConfigOk(c) && WellFormed(s) && HomeEnabled(c, s, h) && !(h.SGetKey? && h.side.Lower?)
    ensures Quiet(s, DoHome(c, s, h))
  {
    match h
    case SGetKey(_, ksid, want, fits, now) => GetKeyHigherIsQuiet(c, s, ksid, want, fits, now);
    case SOpenNew(side, ksid, apps, size, ttl, predefined, now) =>
      OpenNewIsQuiet(s, side, ksid, apps, size, ttl, predefined, now);
    case SJoin(side, ksid, apps) => JoinIsQuiet(s, side, ksid, apps);
    case SClose(side, ksid) => CloseIsQuiet(s, side, ksid);
    case SSweep(side, now) => SweepIsQuiet(c, s, side, now);
  }

  lemma OtherResumesAreQuiet(c: Config, s: Sys, e: ResumeStep)
    requires WellFormed(s) && ResumeEnabled(s, e) && !e.SResumeTake?
    ensures Quiet(s, DoResume(c, s, e))
  {
    match e
    case SResumePush(t, outcome, fits, now) => ResumePushIsQuiet(s, t, outcome, fits, now);
    case SResumeAllocate(t, outcome, fits, now) => ResumeHigherIsQuiet(c, s, t, outcome, fits, now);
    case SResumeAnnounce(side, t, ok) => ResumeOpeningIsQuiet(s, side, t, ok);
    case SResumeOpen(side, t, ok) => ResumeOpeningIsQuiet(s, side, t, ok);
    case SResumeEstablish(side, t, ok, now) => ResumeEstablishAndCloseAreQuiet(s, side, t, ok, now);
    case SResumeClose(side, t, now) => ResumeEstablishAndCloseAreQuiet(s, side, t, true, now);
    case SResumeDrop(t, now) => ResumeHigherIsQuiet(c, s, t, Ok, true, now);
  }

  lemma OtherMessagesAreQuiet(c: Config, s: Sys, m: PeerStep)
    requires ConfigOk(c) && WellFormed(s) && !m.SRecvAllocate?
    ensures Quiet(s, DoPeer(c, s, m))
  {
    match m
    case SRecvPush(tag, push, now) => RecvPushIsQuiet(c, s, tag, push, now);
    case SRecvAnnounce(side, tag, ksid, apps, size, ttl, now) =>
      RecvAnnounceIsQuiet(s, side, tag, ksid, apps, size, ttl, now);
    case SRecvEstablish(side, tag, ksid, now) => OtherReceivesAreQuiet(s, side, tag, ksid, now);
    case SRecvWithdraw(side, ksid) => OtherReceivesAreQuiet(s, side, 0, ksid, 0);
    case SRecvClose(side, ksid, now) => OtherReceivesAreQuiet(s, side, 0, ksid, now);
  }

  /** Any step creates exactly the chunk that its guards grant, pushes it to the peer and moves that
      record's counter on by one; without a grant it leaves the chunks and all counters alone. */
  lemma StepCreates(c: Config, s: Sys, e: Step)
    requires Inv(c, s) && Enabled(c, s, e)
    ensures Creates(s, Do(c, s, e), Granted(c, s, e))
  {
    match e
    case InPool(p) => PoolStepsAreQuiet(c, s, p);
    case AtHome(h) =>
      if h.SGetKey? && h.side.Lower? {
        GetKeyCreates(c, s, h.ksid, h.want, h.fits, h.now);
      } else {
        OtherCallsAreQuiet(c, s, h);
      }
    case Resumed(r) =>
      if r.SResumeTake? {
        ResumeTakeCreates(c, s, r.t, r.fits, r.now);
      } else {
        OtherResumesAreQuiet(c, s, r);
      }
    case FromPeer(m) =>
      if m.SRecvAllocate? {
        RecvAllocateCreates(c, s, m.tag, m.ksid, m.index, m.now);
      } else {
        OtherMessagesAreQuiet(c, s, m);
      }
  }
}
