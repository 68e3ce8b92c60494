/** How streams end, and how a key reaches both sides of ETSI GS QKD 014, from every reachable state. */
module Lifecycle {
  import opened KeyPools
  import opened KeyStreams
  import PoolOrder
  import opened Protocol
  import opened ProtocolInvariant
  import opened Agreement
  import opened Progress

  // ------------------------------------------------------------ closing

  /** A record whose own application closes, told that by the end of its call. */
  function SelfCloses(st: Stream, now: int): Stream {
    if st.peerClosed then st.(localClosed := true, chunks := map[], state := Closed, closedAt := Some(now))
    else st.(localClosed := true, state := Closing)
  }

  /** A record whose peer's application closes: with nobody left here it is closed and wiped. */
  function OtherCloses(st: Stream, now: int): Stream {
    if st.localOpen && !st.localClosed then st.(peerClosed := true)
    else st.(peerClosed := true, chunks := map[], state := Closed, closedAt := Some(now))
  }

  /** Both KMEs have a record of `ksid`, that of `side` not closed. */
  ghost predicate Closable(s: Sys, side: Side, ksid: Ksid) {
    && ksid in s.lo.reg && s.lo.reg[ksid] in s.lo.objs && ksid in s.hi.reg && s.hi.reg[ksid] in s.hi.objs
    && At(s, side).objs[At(s, side).reg[ksid]].state != Closed
  }

  lemma CloseIsSent(c: Config, s0: Sys, s: Sys, side: Side, ksid: Ksid) returns (t: Sys, w: Task)
    requires ConfigOk(c) && Leads(c, s0, s) && Here(c, s) && Closable(s, side, ksid)
    ensures Leads(c, s0, t) && Here(c, t) && CloseReq(Other(side), ksid) in t.sent
    ensures w.AwaitClose? && w in At(t, side).tasks && w.ref == At(s, side).reg[ksid]
    ensures At(t, Other(side)) == At(s, Other(side)) && At(t, side).reg == At(s, side).reg
    ensures var n, r := At(s, side), At(s, side).reg[ksid];
            At(t, side).objs == n.objs[r := n.objs[r].(localClosed := true)]
  {
    var e := AtHome(SClose(side, ksid));
    t, w := Do(c, s, e), AwaitClose(s.next, At(s, side).reg[ksid]);
    Next(c, s0, s, e);
  }

  lemma CloseIsHeard(c: Config, s0: Sys, s: Sys, side: Side, ksid: Ksid, now: int) returns (t: Sys)
    requires ConfigOk(c) && Leads(c, s0, s) && Here(c, s) && CloseReq(side, ksid) in s.sent
    requires ksid in At(s, side).reg
    ensures Leads(c, s0, t) && Here(c, t) && At(t, Other(side)) == At(s, Other(side))
    ensures var n, r := At(s, side), At(s, side).reg[ksid];
            At(t, side) == n.(objs := n.objs[r := OtherCloses(n.objs[r], now)])
  {
    var e := FromPeer(SRecvClose(side, ksid, now));
    t := Do(c, s, e);
    Next(c, s0, s, e);
  }

  lemma CloseReturns(c: Config, s0: Sys, s: Sys, side: Side, w: Task, now: int) returns (t: Sys)
    requires ConfigOk(c) && Leads(c, s0, s) && Here(c, s) && w in At(s, side).tasks && w.AwaitClose?
    requires At(s, side).objs[w.ref].localClosed
    ensures Leads(c, s0, t) && Here(c, t) && At(t, Other(side)) == At(s, Other(side))
    ensures At(t, side).reg == At(s, side).reg
    ensures At(t, side).objs == At(s, side).objs[w.ref := SelfCloses(At(s, side).objs[w.ref], now)]
  {
    var e := Resumed(SResumeClose(side, w, now));
    t := Do(c, s, e);
    Next(c, s0, s, e);
  }

  /** One application's close, start to end, heard by the other KME. */
  lemma CloseCall(c: Config, s0: Sys, s: Sys, side: Side, ksid: Ksid, now: int) returns (t: Sys)
    requires ConfigOk(c) && Leads(c, s0, s) && Here(c, s) && Closable(s, side, ksid)
    ensures Leads(c, s0, t) && Here(c, t) && t.lo.reg == s.lo.reg && t.hi.reg == s.hi.reg
    ensures var n, r := At(s, side), At(s, side).reg[ksid];
            At(t, side).objs == n.objs[r := SelfCloses(n.objs[r], now)]
    ensures var n, r := At(s, Other(side)), At(s, Other(side)).reg[ksid];
            At(t, Other(side)).objs == n.objs[r := OtherCloses(n.objs[r], now)]
  {
    var s1, w := CloseIsSent(c, s0, s, side, ksid);
    var s2 := CloseIsHeard(c, s0, s1, Other(side), ksid, now);
    t := CloseReturns(c, s0, s2, side, w, now);
    var st := At(s, side).objs[At(s, side).reg[ksid]];
    Overwrites(At(s, side).objs, At(s, side).reg[ksid], st.(localClosed := true), SelfCloses(st, now));
  }

  lemma Overwrites(objs: map<Ref, Stream>, r: Ref, st: Stream, st': Stream)
    ensures objs[r := st][r := st'] == objs[r := st']
  {
  }

  ghost predicate InUse(n: Node, ksid: Ksid) {
    && ksid in n.reg && n.reg[ksid] in n.objs
    && var st := n.objs[n.reg[ksid]];
    && st.state != Closed && st.localOpen && !st.localClosed && !st.peerClosed
  }

  ghost predicate Gone(n: Node, ksid: Ksid) {
    && ksid in n.reg && n.reg[ksid] in n.objs
    && n.objs[n.reg[ksid]].state == Closed && n.objs[n.reg[ksid]].chunks == map[]
  }

  /** Both applications close, in either order: both records are closed and hold no key. */
  lemma BothClose(c: Config, s: Sys, first: Side, ksid: Ksid, now: int) returns (t: Sys)
    requires ConfigOk(c) && Here(c, s) && InUse(s.lo, ksid) && InUse(s.hi, ksid)
    ensures Leads(c, s, t) && Gone(t.lo, ksid) && Gone(t.hi, ksid)
  {
    Stays(c, s);
    var s1 := CloseCall(c, s, s, first, ksid, now);
    t := CloseCall(c, s, s1, Other(first), ksid, now);
  }

  // ------------------------------------------------------------ expiring

  /** What a sweep at `now` makes of a record: closed records stay as they are, idle ones are closed and
      wiped, any other loses exactly its chunks past the TTL. */
  ghost predicate SweptTo(st: Stream, st': Stream, now: int) {
    && st' == st.(chunks := st'.chunks, state := st'.state, closedAt := st'.closedAt)
    && (st.state == Closed ==> st' == st)
    && (st.state != Closed && now - st.lastActivity >= st.ttl ==>
          st'.state == Closed && st'.chunks == map[] && st'.closedAt == Some(now))
    && (st.state != Closed && now - st.lastActivity < st.ttl ==>
          && st'.state == st.state
          && (forall i :: i in st'.chunks <==> i in st.chunks && now - st.chunks[i].createdAt < st.ttl)
          && (forall i :: i in st'.chunks ==> st'.chunks[i] == st.chunks[i]))
  }

  lemma SweepMeans(st: Stream, now: int)
    ensures SweptTo(st, SweepStream(st, now), now)
  {
  }

  /** A registered record after a sweep; it is forgotten exactly when it was closed `maxTtl` ago. */
  lemma SweepDecides(c: Config, s: Sys, side: Side, ksid: Ksid, now: int)
    requires ConfigOk(c) && WellFormed(s) && ksid in At(s, side).reg
    ensures var n, n' := At(s, side), At(Do(c, s, AtHome(SSweep(side, now))), side);
            var r := n.reg[ksid];
            var st := n.objs[r];
            && (ksid !in n'.reg <==> st.state == Closed && st.closedAt.Some? && now - st.closedAt.value >= c.maxTtl)
            && (ksid in n'.reg ==> n'.reg[ksid] == r)
            && r in n'.objs && SweptTo(st, n'.objs[r], now)
  {
    SweepMeans(At(s, side).objs[At(s, side).reg[ksid]], now);
  }

  /** A stream idle for its TTL is closed by the next sweep and forgotten by one `maxTtl` later. */
  lemma IdleIsForgotten(c: Config, s: Sys, side: Side, ksid: Ksid, first: int, second: int) returns (t: Sys)
    requires ConfigOk(c) && Here(c, s) && ksid in At(s, side).reg
    requires var st := At(s, side).objs[At(s, side).reg[ksid]];
             st.state != Closed && first - st.lastActivity >= st.ttl && second - first >= c.maxTtl
    ensures Leads(c, s, t) && ksid !in At(t, side).reg && At(t, Other(side)) == At(s, Other(side))
  {
    var e1, e2 := AtHome(SSweep(side, first)), AtHome(SSweep(side, second));
    SweepDecides(c, s, side, ksid, first);
    Stays(c, s);
    var s1 := Do(c, s, e1);
    Next(c, s, s, e1);
    SweepDecides(c, s1, side, ksid, second);
    t := Do(c, s1, e2);
    Next(c, s, s1, e2);
  }

  // ------------------------------------------------------------ opening

  /** What an application asks for, and when. */
  datatype Order = Order(ksid: Ksid, apps: Apps, size: nat, ttl: int, now: int)

  /** A new record: nothing stored, spent or closed, opened by one of the two applications. */
  ghost predicate IsNew(st: Stream, o: Order, here: bool) {
    && st.ksid == o.ksid && st.apps == o.apps && st.size == o.size && st.ttl == o.ttl && st.lastActivity == o.now
    && st.localOpen == here && st.peerOpen == !here && !st.localClosed && !st.peerClosed && st.state == PendingPeer
    && st.chunks == map[] && st.delivered == {} && st.nextAlloc == 0 && st.closedAt.None?
  }

  /** The registry has gained record `r` for `ksid`. */
  ghost predicate Gains(n: Node, n': Node, ksid: Ksid, r: Ref, st: Stream) {
    r !in n.objs && n'.reg == n.reg[ksid := r] && n'.objs == n.objs[r := st]
  }

  ghost predicate Orderly(c: Config, o: Order)
    requires ConfigOk(c)
  {
    0 < o.size && o.size % c.keyBytes == 0
  }

  lemma OpenIsAnnounced(c: Config, s0: Sys, s: Sys, side: Side, o: Order, predefined: bool) returns (t: Sys, w: Task)
    requires ConfigOk(c) && Leads(c, s0, s) && Here(c, s) && o.ksid !in At(s, side).reg && Orderly(c, o)
    ensures Leads(c, s0, t) && Here(c, t) && At(t, Other(side)) == At(s, Other(side)) && s.sent <= t.sent
    ensures s.next in At(t, side).objs && IsNew(At(t, side).objs[s.next], o, true)
    ensures Gains(At(s, side), At(t, side), o.ksid, s.next, At(t, side).objs[s.next])
    ensures w == AwaitAnnounce(w.tag, o.ksid, predefined) && w in At(t, side).tasks
    ensures AnnounceReq(Other(side), w.tag, o.ksid, o.apps, o.size, o.ttl) in t.sent
  {
    var e := AtHome(SOpenNew(side, o.ksid, o.apps, o.size, o.ttl, predefined, o.now));
    OpenMakes(s, side, o, predefined);
    t, w := Do(c, s, e), AwaitAnnounce(s.next + 1, o.ksid, predefined);
    Next(c, s0, s, e);
  }

  lemma OpenMakes(s: Sys, side: Side, o: Order, predefined: bool)
    requires WellFormed(s)
    ensures var t := OpenNew(s, side, o.ksid, o.apps, o.size, o.ttl, predefined, o.now);
            && At(t, Other(side)) == At(s, Other(side))
            && t.sent == s.sent + {AnnounceReq(Other(side), s.next + 1, o.ksid, o.apps, o.size, o.ttl)}
            && s.next in At(t, side).objs && IsNew(At(t, side).objs[s.next], o, true)
            && Gains(At(s, side), At(t, side), o.ksid, s.next, At(t, side).objs[s.next])
            && At(t, side).tasks == At(s, side).tasks + {AwaitAnnounce(s.next + 1, o.ksid, predefined)}
  {
  }

  /** The peer hears of a stream it does not know. */
  lemma NewsIsHeard(c: Config, s0: Sys, s: Sys, side: Side, tag: nat, o: Order) returns (t: Sys)
    requires ConfigOk(c) && Leads(c, s0, s) && Here(c, s) && o.ksid !in At(s, side).reg
    requires AnnounceReq(side, tag, o.ksid, o.apps, o.size, o.ttl) in s.sent
    ensures Leads(c, s0, t) && Here(c, t) && At(t, Other(side)) == At(s, Other(side))
    ensures s.sent <= t.sent && AnnounceAck(tag) in t.sent
    ensures s.next in At(t, side).objs && IsNew(At(t, side).objs[s.next], o, false)
    ensures Gains(At(s, side), At(t, side), o.ksid, s.next, At(t, side).objs[s.next])
    ensures At(t, side).tasks == At(s, side).tasks
  {
    var e := FromPeer(SRecvAnnounce(side, tag, o.ksid, o.apps, o.size, o.ttl, o.now));
    t := Do(c, s, e);
    Next(c, s0, s, e);
  }

  /** The peer hears of a stream that its own application has opened too. */
  lemma SameIsHeard(c: Config, s0: Sys, s: Sys, side: Side, tag: nat, o: Order) returns (t: Sys)
    requires ConfigOk(c) && Leads(c, s0, s) && Here(c, s) && o.ksid in At(s, side).reg
    requires AnnounceReq(side, tag, o.ksid, o.apps, o.size, o.ttl) in s.sent
    requires var st := At(s, side).objs[At(s, side).reg[o.ksid]];
             st.state != Closed && st.localOpen && st.apps in {o.apps, Apps(o.apps.destination, o.apps.source)}
    ensures Leads(c, s0, t) && Here(c, t) && At(t, Other(side)) == At(s, Other(side))
    ensures s.sent <= t.sent && AnnounceAck(tag) in t.sent
    ensures var n, r := At(s, side), At(s, side).reg[o.ksid];
            At(t, side) == n.(objs := n.objs[r := n.objs[r].(peerOpen := true, state := Established)])
  {
    var e := FromPeer(SRecvAnnounce(side, tag, o.ksid, o.apps, o.size, o.ttl, o.now));
    t := Do(c, s, e);
    Next(c, s0, s, e);
  }

  /** Open on both sides and nothing handed out yet. */
  ghost predicate Usable(n: Node, o: Order) {
    && OpenFor(n, o.ksid, 0)
    && var st := n.objs[n.reg[o.ksid]];
    && st.localOpen && st.peerOpen && st.size == o.size && st.ttl == o.ttl && st.apps == o.apps
    && st.chunks == map[] && st.delivered == {} && st.nextAlloc == 0
  }

  /** Both applications open the same predefined stream and the announcements cross. */
  lemma CrossingOpens(c: Config, s: Sys, o: Order) returns (t: Sys)
    requires ConfigOk(c) && Here(c, s) && Orderly(c, o) && o.ksid !in s.lo.reg && o.ksid !in s.hi.reg
    ensures Leads(c, s, t) && Usable(t.lo, o) && Usable(t.hi, o)
  {
    Stays(c, s);
    var s1, w1 := OpenIsAnnounced(c, s, s, Lower, o, true);
    var s2, w2 := OpenIsAnnounced(c, s, s1, Higher, o, true);
    var s3 := SameIsHeard(c, s, s2, Higher, w1.tag, o);
    t := SameIsHeard(c, s, s3, Lower, w2.tag, o);
  }

  lemma JoinIsSent(c: Config, s0: Sys, s: Sys, side: Side, o: Order) returns (t: Sys, w: Task)
    requires ConfigOk(c) && Leads(c, s0, s) && Here(c, s)
    requires o.ksid in At(s, side).reg && IsNew(At(s, side).objs[At(s, side).reg[o.ksid]], o, false)
    ensures Leads(c, s0, t) && Here(c, t) && At(t, Other(side)) == At(s, Other(side))
    ensures At(t, side).reg == At(s, side).reg && At(t, side).objs == At(s, side).objs
    ensures w == AwaitEstablish(w.tag, At(s, side).reg[o.ksid]) && w in At(t, side).tasks
    ensures EstablishReq(Other(side), w.tag, o.ksid) in t.sent
  {
    var e := AtHome(SJoin(side, o.ksid, o.apps));
    t, w := Do(c, s, e), AwaitEstablish(s.next, At(s, side).reg[o.ksid]);
    Next(c, s0, s, e);
  }

  lemma JoinIsHeard(c: Config, s0: Sys, s: Sys, side: Side, tag: nat, o: Order, now: int) returns (t: Sys)
    requires ConfigOk(c) && Leads(c, s0, s) && Here(c, s) && EstablishReq(side, tag, o.ksid) in s.sent
    requires o.ksid in At(s, side).reg && IsNew(At(s, side).objs[At(s, side).reg[o.ksid]], o, true)
    ensures Leads(c, s0, t) && Here(c, t) && At(t, Other(side)) == At(s, Other(side))
    ensures EstablishAck(tag) in t.sent && Usable(At(t, side), o)
  {
    var e := FromPeer(SRecvEstablish(side, tag, o.ksid, now));
    t := Do(c, s, e);
    Next(c, s0, s, e);
  }

  lemma JoinReturns(c: Config, s0: Sys, s: Sys, side: Side, w: Task, o: Order, now: int) returns (t: Sys)
    requires ConfigOk(c) && Leads(c, s0, s) && Here(c, s) && w.AwaitEstablish? && w in At(s, side).tasks
    requires EstablishAck(w.tag) in s.sent && o.ksid in At(s, side).reg && w.ref == At(s, side).reg[o.ksid]
    requires IsNew(At(s, side).objs[w.ref], o, false)
    ensures Leads(c, s0, t) && At(t, Other(side)) == At(s, Other(side)) && Usable(At(t, side), o)
  {
    var e := Resumed(SResumeEstablish(side, w, true, now));
    t := Do(c, s, e);
    Next(c, s0, s, e);
  }

  /** One application opens a stream; the other joins it by its Key_stream_ID. */
  lemma JoiningOpens(c: Config, s: Sys, side: Side, o: Order, now: int) returns (t: Sys)
    requires ConfigOk(c) && Here(c, s) && Orderly(c, o) && o.ksid !in s.lo.reg && o.ksid !in s.hi.reg
    ensures Leads(c, s, t) && Usable(t.lo, o) && Usable(t.hi, o)
  {
    Stays(c, s);
    var s1, w1 := OpenIsAnnounced(c, s, s, side, o, false);
    var s2 := NewsIsHeard(c, s, s1, Other(side), w1.tag, o);
    var s3, w2 := JoinIsSent(c, s, s2, Other(side), o);
    var s4 := JoinIsHeard(c, s, s3, side, w2.tag, o, now);
    t := JoinReturns(c, s, s4, Other(side), w2, o, now);
  }

  // ------------------------------------------------------------ openings that fail

  lemma Struck(reg: map<Ksid, Ref>, ksid: Ksid, r: Ref)
    requires ksid !in reg
    ensures reg[ksid := r] - {ksid} == reg
  {
  }

  /** The peer cannot be told: the new record is struck from the registry. */
  lemma UnannouncedIsStruck(c: Config, s: Sys, side: Side, o: Order, predefined: bool) returns (t: Sys)
    requires ConfigOk(c) && Here(c, s) && Orderly(c, o) && o.ksid !in At(s, side).reg
    ensures Leads(c, s, t) && At(t, side).reg == At(s, side).reg && At(t, Other(side)) == At(s, Other(side))
  {
    Stays(c, s);
    var s1, w := OpenIsAnnounced(c, s, s, side, o, predefined);
    var e := Resumed(SResumeAnnounce(side, w, false));
    Struck(At(s, side).reg, o.ksid, s.next);
    t := Do(c, s1, e);
    Next(c, s, s1, e);
  }

  lemma OpenWaits(c: Config, s0: Sys, s: Sys, side: Side, w: Task) returns (t: Sys, w': Task)
    requires ConfigOk(c) && Leads(c, s0, s) && Here(c, s) && w.AwaitAnnounce? && w in At(s, side).tasks
    requires w.predefined && AnnounceAck(w.tag) in s.sent
    ensures Leads(c, s0, t) && Here(c, t) && At(t, Other(side)) == At(s, Other(side))
    ensures At(t, side).reg == At(s, side).reg && w' == AwaitOpen(w.tag, w.ksid) && w' in At(t, side).tasks
  {
    var e := Resumed(SResumeAnnounce(side, w, true));
    t, w' := Do(c, s, e), AwaitOpen(w.tag, w.ksid);
    Next(c, s0, s, e);
  }

  lemma WaitEnds(c: Config, s0: Sys, s: Sys, side: Side, w: Task) returns (t: Sys)
    requires ConfigOk(c) && Leads(c, s0, s) && Here(c, s) && w.AwaitOpen? && w in At(s, side).tasks
    ensures Leads(c, s0, t) && Here(c, t) && At(t, Other(side)) == At(s, Other(side))
    ensures At(t, side).reg == At(s, side).reg - {w.ksid} && WithdrawReq(Other(side), w.ksid) in t.sent
  {
    var e := Resumed(SResumeOpen(side, w, false));
    t := Do(c, s, e);
    Next(c, s0, s, e);
  }

  lemma WithdrawIsHeard(c: Config, s0: Sys, s: Sys, side: Side, ksid: Ksid) returns (t: Sys)
    requires ConfigOk(c) && Leads(c, s0, s) && Here(c, s) && WithdrawReq(side, ksid) in s.sent
    requires ksid in At(s, side).reg && !At(s, side).objs[At(s, side).reg[ksid]].localOpen
    ensures Leads(c, s0, t) && At(t, Other(side)) == At(s, Other(side))
    ensures At(t, side).reg == At(s, side).reg - {ksid}
  {
    var e := FromPeer(SRecvWithdraw(side, ksid));
    t := Do(c, s, e);
    Next(c, s0, s, e);
  }

  /** A predefined stream that the peer's application never opens is withdrawn from both KMEs. */
  lemma UnjoinedIsWithdrawn(c: Config, s: Sys, side: Side, o: Order) returns (t: Sys)
    requires ConfigOk(c) && Here(c, s) && Orderly(c, o) && o.ksid !in s.lo.reg && o.ksid !in s.hi.reg
    ensures Leads(c, s, t) && t.lo.reg == s.lo.reg && t.hi.reg == s.hi.reg
  {
    Stays(c, s);
    var s1, w1 := OpenIsAnnounced(c, s, s, side, o, true);
    var s2 := NewsIsHeard(c, s, s1, Other(side), w1.tag, o);
    var s3, w2 := OpenWaits(c, s, s2, side, w1);
    var s4 := WaitEnds(c, s, s3, side, w2);
    t := WithdrawIsHeard(c, s, s4, Other(side), o.ksid);
    Struck(At(s, side).reg, o.ksid, s.next);
    Struck(At(s, Other(side)).reg, o.ksid, s1.next);
  }

  // ------------------------------------------------------------ one key of ETSI GS QKD 014

  /** The index of `n` resolves `id` to these bytes. */
  predicate Resolves(n: Node, id: KeyId, bytes: seq<byte>) {
    id in n.pool.byId && n.pool.byId[id].id == id && n.pool.byId[id].bytes == bytes
  }

  lemma RoundStarts(c: Config, s0: Sys, s: Sys, side: Side) returns (t: Sys)
    requires ConfigOk(c) && Leads(c, s0, s) && Here(c, s) && !At(s, side).round && !At(s, side).locked
    requires |Locals(At(s, side).pool.buf)| < c.low + At(s, side).extra
    ensures Leads(c, s0, t) && Here(c, t) && t == With(s, side, At(s, side).(round := true))
  {
    var e := InPool(SStart(side));
    t := Do(c, s, e);
    Next(c, s0, s, e);
  }

  lemma RoundSucceeds(c: Config, s0: Sys, s: Sys, side: Side, id: KeyId, bytes: seq<byte>) returns (t: Sys)
    requires ConfigOk(c) && Leads(c, s0, s) && Here(c, s) && At(s, side).round && !At(s, side).locked
    requires id !in s.produced && |bytes| == c.keyBytes
    ensures Leads(c, s0, t) && Here(c, t) && At(t, Other(side)) == At(s, Other(side))
    ensures Resolves(At(t, side), id, bytes) && At(t, side).locked && At(t, side).issued == At(s, side).issued
    ensures SyncReq(Other(side), id, bytes) in t.sent
    ensures Locals(At(s, side).pool.buf) == [] ==>
              Locals(At(t, side).pool.buf) == [StoredKey(id, bytes, false)]
  {
    var e := InPool(SProduce(side, id, bytes));
    var k := StoredKey(id, bytes, false);
    PoolOrder.AdmitKeepsOrder(At(s, side).pool, c.capacity, k);
    t := Do(c, s, e);
    Next(c, s0, s, e);
  }

  lemma SyncIsHeard(c: Config, s0: Sys, s: Sys, side: Side, id: KeyId, bytes: seq<byte>) returns (t: Sys)
    requires ConfigOk(c) && Leads(c, s0, s) && Here(c, s) && SyncReq(side, id, bytes) in s.sent
    requires !At(s, side).locked && id !in At(s, side).pool.byId && id !in At(s, side).pool.withdrawn
    ensures Leads(c, s0, t) && Here(c, t) && At(t, Other(side)) == At(s, Other(side))
    ensures Resolves(At(t, side), id, bytes)
  {
    var e := InPool(SRecvSync(side, id, bytes));
    t := Do(c, s, e);
    Next(c, s0, s, e);
  }

  lemma SyncReturns(c: Config, s0: Sys, s: Sys, side: Side) returns (t: Sys)
    requires ConfigOk(c) && Leads(c, s0, s) && Here(c, s) && At(s, side).locked
    ensures Leads(c, s0, t) && Here(c, t) && t == With(s, side, At(s, side).(locked := false))
  {
    var e := InPool(SSynced(side));
    t := Do(c, s, e);
    Next(c, s0, s, e);
  }

  /** enc_keys hands out the oldest local key and the index goes on resolving it; without a local key
      nothing happens. */
  lemma EncIssuesOldest(c: Config, s: Sys, side: Side)
    requires ConfigOk(c) && WellFormed(s) && !At(s, side).locked
    ensures var n, s' := At(s, side), Do(c, s, InPool(SEnc(side)));
            var n', locals := At(s', side), Locals(n.pool.buf);
            && At(s', Other(side)) == At(s, Other(side))
            && n'.pool.byId == n.pool.byId
            && (locals == [] ==> s' == s)
            && (locals != [] ==> n'.issued == n.issued + [locals[0].id] && Locals(n'.pool.buf) == locals[1..])
  {
    var buf := At(s, side).pool.buf;
    if Locals(buf) != [] {
      LocalsWithoutFirst(buf);
    }
  }

  /** A key is produced for an empty pool, synced and handed out: both KMEs resolve its id to the same bytes. */
  lemma BothResolve(c: Config, s: Sys, side: Side, id: KeyId, bytes: seq<byte>) returns (t: Sys)
    requires ConfigOk(c) && Here(c, s) && !At(s, side).round && !s.lo.locked && !s.hi.locked
    requires Locals(At(s, side).pool.buf) == [] && 0 < c.low + At(s, side).extra
    requires id !in s.produced && |bytes| == c.keyBytes
    requires id !in At(s, Other(side)).pool.byId && id !in At(s, Other(side)).pool.withdrawn
    ensures Leads(c, s, t) && At(t, side).issued == At(s, side).issued + [id]
    ensures Resolves(t.lo, id, bytes) && Resolves(t.hi, id, bytes)
  {
    Stays(c, s);
    var s1 := RoundStarts(c, s, s, side);
    var s2 := RoundSucceeds(c, s, s1, side, id, bytes);
    var s3 := SyncIsHeard(c, s, s2, Other(side), id, bytes);
    var s4 := SyncReturns(c, s, s3, side);
    EncIssuesOldest(c, s4, side);
    t := Do(c, s4, InPool(SEnc(side)));
    Next(c, s, s4, InPool(SEnc(side)));
  }
}
