/** The registry object of `EngineObject` and the handlers of `Protocol` are the same thing: on the
    registry of a KME, each handler of the transition system has exactly the effect that the
    corresponding method is proved to have in place. */
module EngineInProtocol {
  import opened KeyPools
  import opened KeyStreams
  import opened Protocol
  import opened PoolShare
  import Objects = EngineObject

  /** The records the registry points to. */
  function ViewOf(n: Node): map<Ksid, Stream>
    requires RegOk(n)
  {
    map k | k in n.reg :: n.objs[n.reg[k]]
  }

  lemma PutInView(n: Node, ksid: Ksid, st: Stream)
    requires RegOk(n) && ksid in n.reg && st.ksid == ksid
    ensures var m := n.(objs := n.objs[n.reg[ksid] := st]); RegOk(m) && ViewOf(m) == ViewOf(n)[ksid := st]
  {
  }

  /** The registry of `n` amounts to `v`. */
  ghost predicate Shows(n: Node, v: map<Ksid, Stream>) { RegOk(n) && ViewOf(n) == v }

  lemma NewInView(n: Node, r: Ref, st: Stream)
    requires RegOk(n) && r !in n.objs
    ensures Shows(n.(reg := n.reg[st.ksid := r], objs := n.objs[r := st]), ViewOf(n)[st.ksid := st])
  {
  }

  lemma CloseMatches(s: Sys, side: Side, ksid: Ksid, now: int)
    requires RegOk(At(s, side))
    ensures var v := ViewOf(At(s, side));
            Shows(At(RecvClose(s, side, ksid, now), side), if ksid in v then v[ksid := PeerCloses(v[ksid], now)] else v)
  {
    var n := At(s, side);
    if ksid in n.reg { PutInView(n, ksid, PeerCloses(ViewOf(n)[ksid], now)); }
  }

  lemma WithdrawMatches(s: Sys, side: Side, ksid: Ksid)
    requires RegOk(At(s, side))
    ensures var v := ViewOf(At(s, side));
            Shows(At(RecvWithdraw(s, side, ksid), side), if ksid in v && !v[ksid].localOpen then v - {ksid} else v)
  {
  }

  lemma EstablishMatches(s: Sys, side: Side, tag: nat, ksid: Ksid, now: int)
    requires RegOk(At(s, side))
    ensures var v := ViewOf(At(s, side));
            Shows(At(RecvEstablish(s, side, tag, ksid, now), side),
                  if ksid in v && Joinable(v[ksid]) then v[ksid := Establishes(v[ksid], now)] else v)
  {
    var n := At(s, side);
    if ksid in n.reg { PutInView(n, ksid, Establishes(ViewOf(n)[ksid], now)); }
  }

  lemma AnnounceMatches(s: Sys, side: Side, tag: nat, ksid: Ksid, apps: Apps, size: nat, ttl: int, now: int)
    requires RegOk(At(s, side)) && Below(At(s, side).objs, s.next)
    ensures var v := ViewOf(At(s, side));
            Shows(At(RecvAnnounce(s, side, tag, ksid, apps, size, ttl, now), side),
                  if ksid !in v then v[ksid := NewStream(ksid, apps, size, ttl, false, now)]
                  else if Announceable(v[ksid], apps) then v[ksid := Announces(v[ksid])] else v)
  {
    var n := At(s, side);
    if ksid in n.reg {
      PutInView(n, ksid, Announces(ViewOf(n)[ksid]));
    } else {
      NewInView(n, s.next, NewStream(ksid, apps, size, ttl, false, now));
    }
  }

  /** What the peer calls and no wait interrupts: `OnClose`, `OnWithdraw`, `OnEstablish`, `OnAnnounce`. */
  lemma PeerCallsMatch(s: Sys, side: Side, tag: nat, ksid: Ksid, apps: Apps, size: nat, ttl: int, now: int)
    requires RegOk(At(s, side)) && Below(At(s, side).objs, s.next)
    ensures var v := ViewOf(At(s, side));
            && Shows(At(RecvClose(s, side, ksid, now), side),
                     if ksid in v then v[ksid := PeerCloses(v[ksid], now)] else v)
            && Shows(At(RecvWithdraw(s, side, ksid), side), if ksid in v && !v[ksid].localOpen then v - {ksid} else v)
            && Shows(At(RecvEstablish(s, side, tag, ksid, now), side),
                     if ksid in v && Joinable(v[ksid]) then v[ksid := Establishes(v[ksid], now)] else v)
            && Shows(At(RecvAnnounce(s, side, tag, ksid, apps, size, ttl, now), side),
                     if ksid !in v then v[ksid := NewStream(ksid, apps, size, ttl, false, now)]
                     else if Announceable(v[ksid], apps) then v[ksid := Announces(v[ksid])] else v)
  {
    CloseMatches(s, side, ksid, now);
    WithdrawMatches(s, side, ksid);
    EstablishMatches(s, side, tag, ksid, now);
    AnnounceMatches(s, side, tag, ksid, apps, size, ttl, now);
  }

  lemma StartMatches(c: Config, s: Sys, side: Side, ksid: Ksid, index: Option<nat>, fits: bool, now: int)
    requires ConfigOk(c) && RegOk(At(s, side)) && ksid in At(s, side).reg
    ensures GetKey(c, s, side, ksid, index, fits, now) == AfterStart(c, s, side, ksid, index, fits, now)
  {
  }

  /** get_key from the way that `StartGetKey` chooses on. */
  function AfterStart(c: Config, s: Sys, side: Side, ksid: Ksid, index: Option<nat>, fits: bool, now: int): Sys
    requires ConfigOk(c) && RegOk(At(s, side)) && ksid in At(s, side).reg
  {
    var r, st := At(s, side).reg[ksid], ViewOf(At(s, side))[ksid];
    var touched := PutObj(s, side, r, st.(lastActivity := now));
    match StartGetKey(st, side.Lower?, index)
    case NotFound => s
    case Ready(want) => HandOver(touched, side, r, want, fits)
    case MustObtain(want) =>
      if side.Lower? then ObtainLower(c, touched, r, want, GetKeyCall, fits, now) else ObtainHigher(touched, r, want)
    case _ => touched
  }

  lemma DeliveryMatches(s: Sys, side: Side, ksid: Ksid, i: nat)
    requires RegOk(At(s, side)) && ksid in At(s, side).reg && i in ViewOf(At(s, side))[ksid].chunks
    ensures var v := ViewOf(At(s, side));
            Shows(At(HandOver(s, side, At(s, side).reg[ksid], i, true), side), v[ksid := Deliver(v[ksid], i)])
  {
    PutInView(At(s, side), ksid, Deliver(ViewOf(At(s, side))[ksid], i));
  }

  lemma SweepMatches(c: Config, s: Sys, side: Side, now: int)
    requires RegOk(At(s, side))
    ensures Shows(At(Sweep(c, s, side, now), side), SweepAll(ViewOf(At(s, side)), now, c.maxTtl))
  {
  }

  /** What the application calls, and the sweep: `BeginGetKey`, `HandOver`, `Sweep`. */
  lemma OwnCallsMatch(c: Config, s: Sys, side: Side, ksid: Ksid, index: Option<nat>, i: nat, fits: bool, now: int)
    requires ConfigOk(c) && RegOk(At(s, side)) && ksid in At(s, side).reg
    ensures GetKey(c, s, side, ksid, index, fits, now) == AfterStart(c, s, side, ksid, index, fits, now)
    ensures var v := ViewOf(At(s, side));
            && (i in v[ksid].chunks ==>
                  Shows(At(HandOver(s, side, At(s, side).reg[ksid], i, true), side), v[ksid := Deliver(v[ksid], i)]))
            && Shows(At(Sweep(c, s, side, now), side), SweepAll(v, now, c.maxTtl))
  {
    StartMatches(c, s, side, ksid, index, fits, now);
    SweepMatches(c, s, side, now);
    if i in ViewOf(At(s, side))[ksid].chunks { DeliveryMatches(s, side, ksid, i); }
  }

  /** A pushed chunk: the verdict, the registry, and the pool unless the withdrawal has to wait. */
  lemma PushMatches(c: Config, s: Sys, tag: nat, push: Alloc, now: int)
    requires RegOk(s.hi)
    ensures var v, m := ViewOf(s.hi), RecvPush(c, s, tag, push, now).hi;
            var verdict := if push.ksid in v then Judge(v[push.ksid], push.index, push.data) else Unknown;
            && JudgePush(s.hi, push) == verdict
            && Shows(m, if !verdict.Store? then v
                        else if s.hi.locked then
                          v[push.ksid := Stored(v[push.ksid], push.index, push.ids, push.data, now)]
                        else v[push.ksid := Objects.Accepted(v[push.ksid], push.index, push.ids, push.data, now)])
            && m.pool == if !verdict.Store? || s.hi.locked then s.hi.pool
                         else DropReplicas(s.hi.pool, c.capacity, push.ids)
  {
    if push.ksid in s.hi.reg {
      var st := ViewOf(s.hi)[push.ksid];
      PutInView(s.hi, push.ksid, Stored(st, push.index, push.ids, push.data, now));
      PutInView(s.hi, push.ksid, Objects.Accepted(st, push.index, push.ids, push.data, now));
      if JudgePush(s.hi, push).Store? && !s.hi.locked { AcceptedObjs(c, s, tag, push, now); }
    }
  }

  lemma AcceptedObjs(c: Config, s: Sys, tag: nat, push: Alloc, now: int)
    requires RegOk(s.hi) && JudgePush(s.hi, push).Store? && !s.hi.locked
    ensures var r, m := s.hi.reg[push.ksid], RecvPush(c, s, tag, push, now).hi;
            && m.reg == s.hi.reg && m.pool == DropReplicas(s.hi.pool, c.capacity, push.ids)
            && m.objs == s.hi.objs[r := Objects.Accepted(s.hi.objs[r], push.index, push.ids, push.data, now)]
  {
  }

  /** The records behind a part of the registry. */
  function RefsOf(reg: map<Ksid, Ref>): set<Ref> { set k | k in reg :: reg[k] }

  /** No two ids share a record, so taking an id out takes its record out. */
  lemma RefsWithout(n: Node, part: map<Ksid, Ref>, k: Ksid)
    requires RegOk(n) && (forall j :: j in part ==> j in n.reg && n.reg[j] == part[j]) && k in part
    ensures part[k] in RefsOf(part) && RefsOf(part - {k}) == RefsOf(part) - {part[k]}
  {
    assert forall j :: j in part ==> n.objs[part[j]].ksid == j;
    forall r | r in RefsOf(part) && r != part[k] ensures r in RefsOf(part - {k}) {
      var j :| j in part && part[j] == r;
      assert j in part - {k};
    }
  }

  lemma {:induction false} HeldByPart(n: Node, part: map<Ksid, Ref>)
    requires RegOk(n) && forall k :: k in part ==> k in n.reg && n.reg[k] == part[k]
    ensures RefsOf(part) <= n.objs.Keys
    ensures HeldIn(RefsOf(part), n.objs) == HeldTotal(map k | k in part :: n.objs[part[k]])
    decreases |part.Keys|
  {
    var view := map k | k in part :: n.objs[part[k]];
    if part == map[] {
      assert view == map[];
    } else {
      var k :| k in part;
      HeldByPart(n, part - {k});
      RefsWithout(n, part, k);
      HeldSplit(RefsOf(part), n.objs, part[k]);
      HeldTotalSplit(view, k);
      assert view - {k} == map j | j in part - {k} :: n.objs[(part - {k})[j]];
    }
  }

  /** The keys held, added up over records or over the registry. */
  lemma HeldMatches(n: Node)
    requires RegOk(n)
    ensures HeldKeys(n) == HeldTotal(ViewOf(n))
  {
    HeldByPart(n, n.reg);
    assert RefsOf(n.reg) == Live(n);
  }

  /** The allocator's `_obtain` of a chunk it does not have, with the pool free: the registry and the
      pool afterwards, and no push unless a chunk was created. */
  lemma ObtainMatches(c: Config, s: Sys, ksid: Ksid, i: nat, caller: Caller, fits: bool, now: int)
    requires ConfigOk(c) && RegOk(s.lo) && ksid in s.lo.reg && i !in ViewOf(s.lo)[ksid].chunks && !s.lo.locked
    ensures var s' := ObtainLower(c, s, s.lo.reg[ksid], i, caller, fits, now);
            var share := Objects.Share(c.capacity, c.low, c.keyBytes, c.capKeys);
            var o := Objects.Obtain(share, ViewOf(s.lo), s.lo.pool, s.lo.extra, ksid, i, now);
            && RegOk(s'.lo) && ViewOf(s'.lo) == o.view && s'.lo.pool == o.pool && s'.lo.extra == o.extra
            && (if o.grant.Created? then s'.next == s.next + 1 else s' == s.(lo := s.lo.(extra := o.extra)))
  {
    var m := ViewOf(s.lo)[ksid].size / c.keyBytes;
    var (pool, got) := TakeLocal(s.lo.pool, c.low, m);
    HeldMatches(s.lo);
    if i == ViewOf(s.lo)[ksid].nextAlloc && HeldKeys(s.lo) + m <= c.capKeys && got.Some? {
      TakeMatches(c, s, ksid, i, pool, got.value, caller, fits, now);
    } else {
      RefusedMatches(c, s, ksid, i, caller, fits, now);
    }
  }

  lemma RefusedMatches(c: Config, s: Sys, ksid: Ksid, i: nat, caller: Caller, fits: bool, now: int)
    requires ConfigOk(c) && RegOk(s.lo) && ksid in s.lo.reg && i !in ViewOf(s.lo)[ksid].chunks && !s.lo.locked
    requires var m := ViewOf(s.lo)[ksid].size / c.keyBytes;
             i != ViewOf(s.lo)[ksid].nextAlloc || HeldKeys(s.lo) + m > c.capKeys
             || TakeLocal(s.lo.pool, c.low, m).1.None?
    ensures var m := ViewOf(s.lo)[ksid].size / c.keyBytes;
            ObtainLower(c, s, s.lo.reg[ksid], i, caller, fits, now) ==
              if i != ViewOf(s.lo)[ksid].nextAlloc || HeldKeys(s.lo) + m > c.capKeys then s else AskExtra(c, s, m)
  {
  }

  lemma TakeMatches(c: Config, s: Sys, ksid: Ksid, i: nat, pool: Pool, keys: seq<StoredKey>, caller: Caller,
                    fits: bool, now: int)
    requires RegOk(s.lo) && ksid in s.lo.reg
    ensures var r, st := s.lo.reg[ksid], ViewOf(s.lo)[ksid];
            var s' := Push(Create(s, r, i, pool, keys, now), r, i, caller, fits);
            RegOk(s'.lo) && ViewOf(s'.lo) == ViewOf(s.lo)[ksid := Allocated(st, i, keys, now)] && s'.lo.pool == pool
            && s'.next == s.next + 1 && s'.lo.extra == 0
  {
    PutInView(s.lo, ksid, Allocated(ViewOf(s.lo)[ksid], i, keys, now));
  }
}
