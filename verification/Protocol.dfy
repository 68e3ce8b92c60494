/** Two KMEs running the key-stream engine over one key pool each, as a transition system.

    Every handler of services/bb84-kme/app/etsi004_engine.py is cut at its calls to the peer
    and at its waits for the pool lock; the pieces are atomic and interleave freely. A record
    is an object on its KME's heap (`objs`) that the registry (`reg`) points to, so a suspended
    handler keeps working on the object it looked up even after the registry changed.

    `sent` only grows: a request or reply in it may be received never, late, repeatedly or in
    any order. A suspended call may fail at any moment; it succeeds only on a reply in `sent`.
    `now` is any number: nothing is assumed about the clocks. */
module Protocol {
  import opened KeyPools
  import opened KeyStreams

  type Ref = nat

  /** The KME whose SAE_ID sorts first is the allocator. */
  datatype Side = Lower | Higher

  datatype Config = Config(capacity: nat, low: nat, keyBytes: nat, capKeys: nat, maxTtl: int)

  /** A chunk as created, pushed, stored or handed out: what both ends must agree on. */
  datatype Alloc = Alloc(ksid: Ksid, index: nat, ids: seq<KeyId>, data: seq<byte>)

  /** Who waits for an allocator's `_obtain`: its own get_key, or the peer's allocate call. */
  datatype Caller = GetKeyCall | AllocateCall(tag: nat)

  datatype Task =
    | AwaitTake(tag: nat, ref: Ref, index: nat, n: nat, caller: Caller)
    | AwaitPush(tag: nat, ref: Ref, push: Alloc, caller: Caller)
    | AwaitAllocate(tag: nat, ref: Ref, index: nat)
    | AwaitDrop(tag: nat, ref: Ref, push: Alloc)
    | AwaitAnnounce(tag: nat, ksid: Ksid, predefined: bool)
    | AwaitOpen(tag: nat, ksid: Ksid)
    | AwaitEstablish(tag: nat, ref: Ref)
    | AwaitClose(tag: nat, ref: Ref)

  datatype Msg =
    | SyncReq(to: Side, id: KeyId, bytes: seq<byte>)
    | PushReq(tag: nat, push: Alloc)
    | PushAck(tag: nat, push: Alloc)
    | AllocateReq(tag: nat, ksid: Ksid, index: nat)
    | AllocateOk(tag: nat)
    | AnnounceReq(to: Side, tag: nat, ksid: Ksid, apps: Apps, size: nat, ttl: int)
    | AnnounceAck(tag: nat)
    | EstablishReq(to: Side, tag: nat, ksid: Ksid)
    | EstablishAck(tag: nat)
    | WithdrawReq(to: Side, ksid: Ksid)
    | CloseReq(to: Side, ksid: Ksid)

  /** A key handed to an application: the record it came from, and what was handed over. */
  datatype Delivery = Delivery(ref: Ref, key: Alloc)

  /** `round` says that a round of the producer is under way, `extra` is its extra target. `issued`,
      `log` and `history` only record the past: ids handed out by enc_keys, keys handed to
      applications by get_key, ids ever withdrawn. */
  datatype Node = Node(
    reg: map<Ksid, Ref>, objs: map<Ref, Stream>,
    pool: Pool, locked: bool, round: bool, extra: nat, tasks: set<Task>,
    issued: seq<KeyId>, log: seq<Delivery>, history: seq<KeyId>)

  datatype Origin = Origin(side: Side, bytes: seq<byte>)

  /** `produced`, `allocs` and `stored` record the past: every key ever produced and where, every
      chunk ever created and by which record, every chunk ever stored by a push. */
  datatype Sys = Sys(
    lo: Node, hi: Node, sent: set<Msg>, next: nat,
    produced: map<KeyId, Origin>, allocs: map<Alloc, Ref>, stored: set<Alloc>)

  function Other(side: Side): Side { if side.Lower? then Higher else Lower }

  function At(s: Sys, side: Side): Node { if side.Lower? then s.lo else s.hi }

  function With(s: Sys, side: Side, n: Node): Sys {
    if side.Lower? then s.(lo := n) else s.(hi := n)
  }

  function AsAlloc(ksid: Ksid, i: nat, c: Chunk): Alloc { Alloc(ksid, i, c.ids, c.data) }

  const EMPTY_NODE := Node(map[], map[], Pool([], map[], []), false, false, 0, {}, [], [], [])

  const INIT := Sys(EMPTY_NODE, EMPTY_NODE, {}, 0, map[], map[], {})

  // ------------------------------------------------------------ small updates

  function PutObj(s: Sys, side: Side, r: Ref, st: Stream): Sys {
    var n := At(s, side);
    With(s, side, n.(objs := n.objs[r := st]))
  }

  function PutPool(s: Sys, side: Side, pool: Pool): Sys {
    With(s, side, At(s, side).(pool := pool))
  }

  function AddTask(s: Sys, side: Side, t: Task): Sys {
    With(s, side, At(s, side).(tasks := At(s, side).tasks + {t}))
  }

  function DropTask(s: Sys, side: Side, t: Task): Sys {
    With(s, side, At(s, side).(tasks := At(s, side).tasks - {t}))
  }

  function Send(s: Sys, m: Msg): Sys { s.(sent := s.sent + {m}) }

  function Tick(s: Sys): Sys { s.(next := s.next + 1) }

  /** A suspended call: request out, task parked under a fresh tag. */
  function CallPeer(s: Sys, side: Side, m: Msg, t: Task): Sys {
    Tick(AddTask(Send(s, m), side, t))
  }

  function NewRecord(s: Sys, side: Side, st: Stream): Sys {
    var n := At(s, side);
    Tick(With(s, side, n.(reg := n.reg[st.ksid := s.next], objs := n.objs[s.next := st])))
  }

  function Unregister(s: Sys, side: Side, ksid: Ksid): Sys {
    With(s, side, At(s, side).(reg := At(s, side).reg - {ksid}))
  }

  // ------------------------------------------------------------ the key pools

  /** The producer at its gate: a round begins unless the pool holds what is asked for. */
  function StartRound(s: Sys, side: Side): Sys { With(s, side, At(s, side).(round := true)) }

  /** A round without a key. */
  function AbortRound(s: Sys, side: Side): Sys { With(s, side, At(s, side).(round := false)) }

  /** An accepted round: the key is admitted, then synced to the peer with the lock held. */
  function Produce(c: Config, s: Sys, side: Side, id: KeyId, bytes: seq<byte>): Sys
    requires 0 < c.capacity
  {
    var n := At(s, side);
    var pool := Admit(n.pool, c.capacity, StoredKey(id, bytes, false));
    Send(With(s, side, n.(pool := pool, locked := true, round := false)), SyncReq(Other(side), id, bytes))
      .(produced := s.produced[id := Origin(side, bytes)])
  }

  function Enc(s: Sys, side: Side): Sys {
    var n := At(s, side);
    var (pool, got) := PopForEnc(n.pool);
    With(s, side, n.(pool := pool, issued := if got.Some? then n.issued + [got.value.id] else n.issued))
  }

  // ------------------------------------------------------------ delivery

  /** The end of get_key: the chunk is looked up again; it is handed out unless the caller's
      metadata buffer is too small. */
  function HandOver(s: Sys, side: Side, r: Ref, i: nat, fits: bool): Sys
    requires r in At(s, side).objs
  {
    var n := At(s, side);
    var st := n.objs[r];
    if i !in st.chunks || !fits then s
    else With(s, side, n.(objs := n.objs[r := Deliver(st, i)],
                          log := n.log + [Delivery(r, AsAlloc(st.ksid, i, st.chunks[i]))]))
  }

  /** `_obtain` came back with success: on to whoever waited. */
  function Obtained(s: Sys, r: Ref, i: nat, caller: Caller, fits: bool): Sys
    requires r in s.lo.objs
  {
    match caller
    case GetKeyCall => HandOver(s, Lower, r, i, fits)
    case AllocateCall(tag) => Send(s, AllocateOk(tag))
  }

  // ------------------------------------------------------------ allocation

  /** Creates chunk `i` from keys taken out of the pool; nothing extra is asked for any more. */
  function Create(s: Sys, r: Ref, i: nat, pool: Pool, keys: seq<StoredKey>, now: int): Sys
    requires r in s.lo.objs
  {
    var st := s.lo.objs[r];
    s.(lo := s.lo.(pool := pool, extra := 0, objs := s.lo.objs[r := Allocated(st, i, keys, now)]),
       allocs := s.allocs[Alloc(st.ksid, i, IdsOf(keys), Concat(keys)) := r])
  }

  /** A refused take asks the producer for more. */
  function AskExtra(c: Config, s: Sys, n: nat): Sys {
    s.(lo := s.lo.(extra := Raised(c.capacity, c.low, s.lo.extra, n)))
  }

  /** Pushes chunk `i` to the peer unless the peer already confirmed it. */
  function Push(s: Sys, r: Ref, i: nat, caller: Caller, fits: bool): Sys
    requires r in s.lo.objs && i in s.lo.objs[r].chunks
  {
    var st := s.lo.objs[r];
    var push := AsAlloc(st.ksid, i, st.chunks[i]);
    if st.chunks[i].confirmed then Obtained(s, r, i, caller, fits)
    else CallPeer(s, Lower, PushReq(s.next, push), AwaitPush(s.next, r, push, caller))
  }

  /** `take_local_for_stream` granted or refused, and what follows in `_obtain`. */
  function TakeNow(c: Config, s: Sys, r: Ref, i: nat, n: nat, caller: Caller, fits: bool, now: int): Sys
    requires r in s.lo.objs
  {
    var (pool, got) := TakeLocal(s.lo.pool, c.low, n);
    if got.None? then AskExtra(c, s, n) else Push(Create(s, r, i, pool, got.value, now), r, i, caller, fits)
  }

  /** The records that the registry points to. */
  function Live(n: Node): set<Ref> {
    set k | k in n.reg && n.reg[k] in n.objs :: n.reg[k]
  }

  /** Keys in undelivered chunks of the registered records. */
  function HeldKeys(n: Node): nat { HeldIn(Live(n), n.objs) }

  function HeldIn(refs: set<Ref>, objs: map<Ref, Stream>): nat
    requires refs <= objs.Keys
  {
    if refs == {} then 0
    else
      var r := Least(refs);
      KeysIn(objs[r].chunks) + HeldIn(refs - {r}, objs)
  }

  /** The allocator's `_obtain` up to its first suspension. */
  function ObtainLower(c: Config, s: Sys, r: Ref, i: nat, caller: Caller, fits: bool, now: int): Sys
    requires 0 < c.keyBytes && r in s.lo.objs
  {
    var st := s.lo.objs[r];
    if i in st.chunks then Push(s, r, i, caller, fits)
    else if i != st.nextAlloc then s
    else
      var n := st.size / c.keyBytes;
      if HeldKeys(s.lo) + n > c.capKeys then s
      else if s.lo.locked then Tick(AddTask(s, Lower, AwaitTake(s.next, r, i, n, caller)))
      else TakeNow(c, s, r, i, n, caller, fits, now)
  }

  /** The other side's `_obtain`: ask the allocator. */
  function ObtainHigher(s: Sys, r: Ref, i: nat): Sys
    requires r in s.hi.objs
  {
    CallPeer(s, Higher, AllocateReq(s.next, s.hi.objs[r].ksid, i), AwaitAllocate(s.next, r, i))
  }

  // ------------------------------------------------------------ application calls

  function GetKey(c: Config, s: Sys, side: Side, ksid: Ksid, index: Option<nat>, fits: bool, now: int): Sys
    requires 0 < c.keyBytes && RegOk(At(s, side))
  {
    var n := At(s, side);
    if ksid !in n.reg then s
    else
      var r := n.reg[ksid];
      var st := n.objs[r];
      if st.state == Closed || st.localClosed then s
      else
        var t := PutObj(s, side, r, st.(lastActivity := now));
        if st.state == PendingPeer then t
        else Fetch(c, t, side, r, Wanted(st, index), fits, now)
  }

  /** get_key on an open stream: hand the chunk over, or obtain it first. */
  function Fetch(c: Config, s: Sys, side: Side, r: Ref, want: nat, fits: bool, now: int): Sys
    requires 0 < c.keyBytes && r in At(s, side).objs
  {
    var st := At(s, side).objs[r];
    if want in st.delivered then s
    else if want in st.chunks && (side.Higher? || st.chunks[want].confirmed) then HandOver(s, side, r, want, fits)
    else if st.peerClosed then s
    else if side.Lower? then ObtainLower(c, s, r, want, GetKeyCall, fits, now)
    else ObtainHigher(s, r, want)
  }

  function OpenNew(s: Sys, side: Side, ksid: Ksid, apps: Apps, size: nat, ttl: int, predefined: bool, now: int): Sys {
    var t := NewRecord(s, side, NewStream(ksid, apps, size, ttl, true, now));
    CallPeer(t, side, AnnounceReq(Other(side), t.next, ksid, apps, size, ttl),
             AwaitAnnounce(t.next, ksid, predefined))
  }

  function Join(s: Sys, side: Side, ksid: Ksid, apps: Apps): Sys
    requires RegOk(At(s, side))
  {
    var n := At(s, side);
    if ksid !in n.reg then s
    else
      var st := n.objs[n.reg[ksid]];
      if !SameApps(st.apps, apps) || st.state == Closed || st.peerClosed || st.localOpen then s
      else CallPeer(s, side, EstablishReq(Other(side), s.next, ksid), AwaitEstablish(s.next, n.reg[ksid]))
  }

  function Close(s: Sys, side: Side, ksid: Ksid): Sys
    requires RegOk(At(s, side))
  {
    var n := At(s, side);
    if ksid !in n.reg then s
    else
      var r := n.reg[ksid];
      var st := n.objs[r];
      if st.state == Closed then s
      else CallPeer(PutObj(s, side, r, st.(localClosed := true)), side,
                    CloseReq(Other(side), ksid), AwaitClose(s.next, r))
  }

  // ------------------------------------------------------------ resumed calls

  /** The pool lock became free for a waiting allocation: nothing is checked again. */
  function ResumeTake(c: Config, s: Sys, t: Task, fits: bool, now: int): Sys
    requires t.AwaitTake? && t.ref in s.lo.objs
  {
    TakeNow(c, DropTask(s, Lower, t), t.ref, t.index, t.n, t.caller, fits, now)
  }

  /** `chunk.confirmed_at_peer = True` on the chunk object that was pushed; it is recognised by
      its key ids, which no other chunk has. */
  function Confirm(s: Sys, r: Ref, push: Alloc): Sys
    requires r in s.lo.objs
  {
    var st := s.lo.objs[r];
    if push.index in st.chunks && st.chunks[push.index].ids == push.ids then
      PutObj(s, Lower, r, Confirmed(st, push.index))
    else s
  }

  datatype Outcome = Ok | LostStream | Failed

  function ResumePush(s: Sys, t: Task, outcome: Outcome, fits: bool, now: int): Sys
    requires t.AwaitPush? && t.ref in s.lo.objs
  {
    var s1 := DropTask(s, Lower, t);
    match outcome
    case Ok => Obtained(Confirm(s1, t.ref, t.push), t.ref, t.push.index, t.caller, fits)
    case LostStream => PutObj(s1, Lower, t.ref, ToClosed(s1.lo.objs[t.ref], now))
    case Failed => s1
  }

  function ResumeAllocate(s: Sys, t: Task, outcome: Outcome, fits: bool, now: int): Sys
    requires t.AwaitAllocate? && t.ref in s.hi.objs
  {
    var s1 := DropTask(s, Higher, t);
    match outcome
    case Ok => HandOver(s1, Higher, t.ref, t.index, fits)
    case LostStream => PutObj(s1, Higher, t.ref, ToClosed(s1.hi.objs[t.ref], now))
    case Failed => s1
  }

  function ResumeAnnounce(s: Sys, side: Side, t: Task, ok: bool): Sys
    requires t.AwaitAnnounce?
  {
    var s1 := DropTask(s, side, t);
    if !ok then Unregister(s1, side, t.ksid)
    else if t.predefined then AddTask(s1, side, AwaitOpen(t.tag, t.ksid))
    else s1
  }

  function ResumeOpen(s: Sys, side: Side, t: Task, established: bool): Sys
    requires t.AwaitOpen?
  {
    var s1 := DropTask(s, side, t);
    if established then s1
    else Send(Unregister(s1, side, t.ksid), WithdrawReq(Other(side), t.ksid))
  }

  function ResumeEstablish(s: Sys, side: Side, t: Task, ok: bool, now: int): Sys
    requires t.AwaitEstablish? && t.ref in At(s, side).objs
  {
    var s1 := DropTask(s, side, t);
    if !ok then s1
    else PutObj(s1, side, t.ref,
                At(s1, side).objs[t.ref].(localOpen := true, state := Established, lastActivity := now))
  }

  function ResumeClose(s: Sys, side: Side, t: Task, now: int): Sys
    requires t.AwaitClose? && t.ref in At(s, side).objs
  {
    var s1 := DropTask(s, side, t);
    var st := At(s1, side).objs[t.ref];
    PutObj(s1, side, t.ref, if st.peerClosed then ToClosed(st, now) else st.(state := Closing))
  }

  // ------------------------------------------------------------ the peer's calls

  function WithdrawIds(c: Config, s: Sys, ids: seq<KeyId>): Sys {
    s.(hi := s.hi.(pool := DropReplicas(s.hi.pool, c.capacity, ids),
                   history := s.hi.history + NewlyWithdrawn(s.hi.pool, ids)))
  }

  function JudgePush(n: Node, push: Alloc): Verdict
    requires RegOk(n)
  {
    if push.ksid !in n.reg then Unknown
    else Judge(n.objs[n.reg[push.ksid]], push.index, push.data)
  }

  function RecvPush(c: Config, s: Sys, tag: nat, push: Alloc, now: int): Sys
    requires RegOk(s.hi)
  {
    match JudgePush(s.hi, push)
    case Unknown => s
    case Conflict => s
    case Repeat => Send(s, PushAck(tag, push))
    case Store =>
      var r := s.hi.reg[push.ksid];
      var st := s.hi.objs[r];
      var s1 := PutObj(s, Higher, r, Stored(st, push.index, push.ids, push.data, now))
        .(stored := s.stored + {push});
      if s.hi.locked then AddTask(s1, Higher, AwaitDrop(tag, r, push))
      else Accepted(WithdrawIds(c, s1, push.ids), r, tag, push, now)
  }

  /** The end of on_chunk, once the replicas are dropped. */
  function Accepted(s: Sys, r: Ref, tag: nat, push: Alloc, now: int): Sys
    requires r in s.hi.objs
  {
    Send(PutObj(s, Higher, r, s.hi.objs[r].(lastActivity := now)), PushAck(tag, push))
  }

  function ResumeDrop(c: Config, s: Sys, t: Task, now: int): Sys
    requires t.AwaitDrop? && t.ref in s.hi.objs
  {
    Accepted(WithdrawIds(c, DropTask(s, Higher, t), t.push.ids), t.ref, t.tag, t.push, now)
  }

  function RecvAllocate(c: Config, s: Sys, tag: nat, ksid: Ksid, i: nat, now: int): Sys
    requires 0 < c.keyBytes && RegOk(s.lo)
  {
    if ksid !in s.lo.reg then s
    else
      var r := s.lo.reg[ksid];
      var st := s.lo.objs[r];
      if st.state == Closed || (st.localClosed && i !in st.chunks) then s
      else ObtainLower(c, s, r, i, AllocateCall(tag), true, now)
  }

  function RecvAnnounce(s: Sys, side: Side, tag: nat, ksid: Ksid, apps: Apps, size: nat, ttl: int, now: int): Sys
    requires RegOk(At(s, side))
  {
    var n := At(s, side);
    if ksid in n.reg then
      var st := n.objs[n.reg[ksid]];
      if !Announceable(st, apps) then s
      else Send(PutObj(s, side, n.reg[ksid], Announces(st)), AnnounceAck(tag))
    else Send(NewRecord(s, side, NewStream(ksid, apps, size, ttl, false, now)), AnnounceAck(tag))
  }

  function RecvEstablish(s: Sys, side: Side, tag: nat, ksid: Ksid, now: int): Sys
    requires RegOk(At(s, side))
  {
    var n := At(s, side);
    if ksid !in n.reg then s
    else
      var st := n.objs[n.reg[ksid]];
      if !Joinable(st) then s
      else Send(PutObj(s, side, n.reg[ksid], Establishes(st, now)), EstablishAck(tag))
  }

  function RecvWithdraw(s: Sys, side: Side, ksid: Ksid): Sys
    requires RegOk(At(s, side))
  {
    var n := At(s, side);
    if ksid in n.reg && !n.objs[n.reg[ksid]].localOpen then Unregister(s, side, ksid) else s
  }

  function RecvClose(s: Sys, side: Side, ksid: Ksid, now: int): Sys
    requires RegOk(At(s, side))
  {
    var n := At(s, side);
    if ksid !in n.reg then s
    else PutObj(s, side, n.reg[ksid], PeerCloses(n.objs[n.reg[ksid]], now))
  }

  // ------------------------------------------------------------ housekeeping

  predicate Registered(n: Node, r: Ref)
    requires r in n.objs
  {
    n.objs[r].ksid in n.reg && n.reg[n.objs[r].ksid] == r
  }

  function Sweep(c: Config, s: Sys, side: Side, now: int): Sys
    requires RegOk(At(s, side))
  {
    var n := At(s, side);
    With(s, side, n.(
      objs := map r | r in n.objs :: if Registered(n, r) then SweepStream(n.objs[r], now) else n.objs[r],
      reg := map k | k in n.reg && !Forgettable(n.objs[n.reg[k]], now, c.maxTtl) :: n.reg[k]))
  }

  /** The registry points to records carrying the right Key_stream_ID. */
  predicate RegOk(n: Node) { Points(n.reg, n.objs) }

  predicate Points(reg: map<Ksid, Ref>, objs: map<Ref, Stream>) {
    forall k :: k in reg ==> reg[k] in objs && objs[reg[k]].ksid == k
  }

  // ------------------------------------------------------------ steps and runs

  /** The producer, the sync between the pools, and enc_keys. */
  datatype PoolStep =
    | SStart(side: Side)
    | SAbort(side: Side)
    | SProduce(side: Side, id: KeyId, bytes: seq<byte>)
    | SSynced(side: Side)
    | SRecvSync(side: Side, id: KeyId, bytes: seq<byte>)
    | SEnc(side: Side)

  /** Application calls up to their first suspension, and the sweep. */
  datatype HomeStep =
    | SGetKey(side: Side, ksid: Ksid, want: Option<nat>, fits: bool, now: int)
    | SOpenNew(side: Side, ksid: Ksid, apps: Apps, size: nat, ttl: int, predefined: bool, now: int)
    | SJoin(side: Side, ksid: Ksid, apps: Apps)
    | SClose(side: Side, ksid: Ksid)
    | SSweep(side: Side, now: int)

  /** Suspended handlers going on. */
  datatype ResumeStep =
    | SResumeTake(t: Task, fits: bool, now: int)
    | SResumePush(t: Task, outcome: Outcome, fits: bool, now: int)
    | SResumeAllocate(t: Task, outcome: Outcome, fits: bool, now: int)
    | SResumeAnnounce(side: Side, t: Task, ok: bool)
    | SResumeOpen(side: Side, t: Task, ok: bool)
    | SResumeEstablish(side: Side, t: Task, ok: bool, now: int)
    | SResumeClose(side: Side, t: Task, now: int)
    | SResumeDrop(t: Task, now: int)

  /** Calls of the peer arriving. */
  datatype PeerStep =
    | SRecvPush(tag: nat, push: Alloc, now: int)
    | SRecvAllocate(tag: nat, ksid: Ksid, index: nat, now: int)
    | SRecvAnnounce(side: Side, tag: nat, ksid: Ksid, apps: Apps, size: nat, ttl: int, now: int)
    | SRecvEstablish(side: Side, tag: nat, ksid: Ksid, now: int)
    | SRecvWithdraw(side: Side, ksid: Ksid)
    | SRecvClose(side: Side, ksid: Ksid, now: int)

  datatype Step = InPool(p: PoolStep) | AtHome(h: HomeStep) | Resumed(r: ResumeStep) | FromPeer(m: PeerStep)

  predicate ConfigOk(c: Config) { 0 < c.capacity && 0 < c.keyBytes }

  /** Every waiting task refers to a record that exists. */
  predicate Grounded(tasks: set<Task>, objs: map<Ref, Stream>) {
    forall t :: t in tasks ==> t.AwaitAnnounce? || t.AwaitOpen? || t.ref in objs
  }

  predicate Below(objs: map<Ref, Stream>, next: nat) {
    forall r :: r in objs ==> r < next
  }

  predicate NodeOk(n: Node, next: nat) {
    RegOk(n) && Grounded(n.tasks, n.objs) && Below(n.objs, next)
  }

  predicate WellFormed(s: Sys) {
    NodeOk(s.lo, s.next) && NodeOk(s.hi, s.next)
  }

  predicate PoolEnabled(c: Config, s: Sys, p: PoolStep) {
    match p
    case SStart(side) => var n := At(s, side); !n.round && !n.locked && !Rests(n.pool, c.low, n.extra)
    case SAbort(side) => At(s, side).round
    case SProduce(side, id, bytes) =>
      At(s, side).round && !At(s, side).locked && id !in s.produced && |bytes| == c.keyBytes
    case SSynced(side) => At(s, side).locked
    case SRecvSync(side, id, bytes) => SyncReq(side, id, bytes) in s.sent && !At(s, side).locked
    case SEnc(side) => !At(s, side).locked
  }

  predicate HomeEnabled(c: Config, s: Sys, h: HomeStep)
    requires ConfigOk(c)
  {
    h.SOpenNew? ==> h.ksid !in At(s, h.side).reg && 0 < h.size && h.size % c.keyBytes == 0
  }

  predicate ResumeEnabled(s: Sys, r: ResumeStep) {
    match r
    case SResumeTake(t, _, _) => t in s.lo.tasks && t.AwaitTake? && !s.lo.locked
    case SResumePush(t, outcome, _, _) =>
      t in s.lo.tasks && t.AwaitPush? && (outcome.Ok? ==> PushAck(t.tag, t.push) in s.sent)
    case SResumeAllocate(t, outcome, _, _) =>
      t in s.hi.tasks && t.AwaitAllocate? && (outcome.Ok? ==> AllocateOk(t.tag) in s.sent)
    case SResumeAnnounce(side, t, ok) =>
      t in At(s, side).tasks && t.AwaitAnnounce? && (ok ==> AnnounceAck(t.tag) in s.sent)
    case SResumeOpen(side, t, _) => t in At(s, side).tasks && t.AwaitOpen?
    case SResumeEstablish(side, t, ok, _) =>
      t in At(s, side).tasks && t.AwaitEstablish? && (ok ==> EstablishAck(t.tag) in s.sent)
    case SResumeClose(side, t, _) => t in At(s, side).tasks && t.AwaitClose?
    case SResumeDrop(t, _) => t in s.hi.tasks && t.AwaitDrop? && !s.hi.locked
  }

  predicate PeerEnabled(s: Sys, m: PeerStep) {
    match m
    case SRecvPush(tag, push, _) => PushReq(tag, push) in s.sent
    case SRecvAllocate(tag, ksid, i, _) => AllocateReq(tag, ksid, i) in s.sent
    case SRecvAnnounce(side, tag, ksid, apps, size, ttl, _) =>
      AnnounceReq(side, tag, ksid, apps, size, ttl) in s.sent
    case SRecvEstablish(side, tag, ksid, _) => EstablishReq(side, tag, ksid) in s.sent
    case SRecvWithdraw(side, ksid) => WithdrawReq(side, ksid) in s.sent
    case SRecvClose(side, ksid, _) => CloseReq(side, ksid) in s.sent
  }

  predicate Enabled(c: Config, s: Sys, e: Step)
    requires ConfigOk(c)
  {
    match e
    case InPool(p) => PoolEnabled(c, s, p)
    case AtHome(h) => HomeEnabled(c, s, h)
    case Resumed(r) => ResumeEnabled(s, r)
    case FromPeer(m) => PeerEnabled(s, m)
  }

  function DoPool(c: Config, s: Sys, p: PoolStep): Sys
    requires ConfigOk(c)
  {
    match p
    case SStart(side) => StartRound(s, side)
    case SAbort(side) => AbortRound(s, side)
    case SProduce(side, id, bytes) => Produce(c, s, side, id, bytes)
    case SSynced(side) => With(s, side, At(s, side).(locked := false))
    case SRecvSync(side, id, bytes) => PutPool(s, side, ReceiveSynced(At(s, side).pool, c.capacity, id, bytes))
    case SEnc(side) => Enc(s, side)
  }

  function DoHome(c: Config, s: Sys, h: HomeStep): Sys
    requires ConfigOk(c) && WellFormed(s)
  {
    match h
    case SGetKey(side, ksid, want, fits, now) => GetKey(c, s, side, ksid, want, fits, now)
    case SOpenNew(side, ksid, apps, size, ttl, predefined, now) =>
      OpenNew(s, side, ksid, apps, size, ttl, predefined, now)
    case SJoin(side, ksid, apps) => Join(s, side, ksid, apps)
    case SClose(side, ksid) => Close(s, side, ksid)
    case SSweep(side, now) => Sweep(c, s, side, now)
  }

  function DoResume(c: Config, s: Sys, r: ResumeStep): Sys
    requires WellFormed(s) && ResumeEnabled(s, r)
  {
    match r
    case SResumeTake(t, fits, now) => ResumeTake(c, s, t, fits, now)
    case SResumePush(t, outcome, fits, now) => ResumePush(s, t, outcome, fits, now)
    case SResumeAllocate(t, outcome, fits, now) => ResumeAllocate(s, t, outcome, fits, now)
    case SResumeAnnounce(side, t, ok) => ResumeAnnounce(s, side, t, ok)
    case SResumeOpen(side, t, ok) => ResumeOpen(s, side, t, ok)
    case SResumeEstablish(side, t, ok, now) => ResumeEstablish(s, side, t, ok, now)
    case SResumeClose(side, t, now) => ResumeClose(s, side, t, now)
    case SResumeDrop(t, now) => ResumeDrop(c, s, t, now)
  }

  function DoPeer(c: Config, s: Sys, m: PeerStep): Sys
    requires ConfigOk(c) && WellFormed(s)
  {
    match m
    case SRecvPush(tag, push, now) => RecvPush(c, s, tag, push, now)
    case SRecvAllocate(tag, ksid, i, now) => RecvAllocate(c, s, tag, ksid, i, now)
    case SRecvAnnounce(side, tag, ksid, apps, size, ttl, now) => RecvAnnounce(s, side, tag, ksid, apps, size, ttl, now)
    case SRecvEstablish(side, tag, ksid, now) => RecvEstablish(s, side, tag, ksid, now)
    case SRecvWithdraw(side, ksid) => RecvWithdraw(s, side, ksid)
    case SRecvClose(side, ksid, now) => RecvClose(s, side, ksid, now)
  }

  function Do(c: Config, s: Sys, e: Step): Sys
    requires ConfigOk(c) && WellFormed(s) && Enabled(c, s, e)
  {
    match e
    case InPool(p) => DoPool(c, s, p)
    case AtHome(h) => DoHome(c, s, h)
    case Resumed(r) => DoResume(c, s, r)
    case FromPeer(m) => DoPeer(c, s, m)
  }
}
