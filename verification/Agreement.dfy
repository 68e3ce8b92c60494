/** The promises of the key stream, over every run of the two KMEs. */
module Agreement {
  import opened KeyPools
  import opened KeyStreams
  import opened Protocol
  import opened ProtocolInvariant
  import opened Creation

  // ------------------------------------------------------------ runs

  /** `steps` leads from `s` to `t`. `RunsStayWellFormed` shows that `WellFormed` never bars a step. */
  ghost predicate Run(c: Config, s: Sys, steps: seq<Step>, t: Sys)
    requires ConfigOk(c)
    decreases steps
  {
    if steps == [] then s == t
    else WellFormed(s) && Enabled(c, s, steps[0]) && Run(c, Do(c, s, steps[0]), steps[1..], t)
  }

  ghost predicate Reachable(c: Config, t: Sys)
    requires ConfigOk(c)
  {
    exists steps :: Run(c, INIT, steps, t)
  }

  lemma {:induction false} RunKeepsInv(c: Config, s: Sys, steps: seq<Step>, t: Sys)
    requires Inv(c, s) && Run(c, s, steps, t)
    ensures Inv(c, t)
    decreases steps
  {
    if steps != [] {
      StepOk(c, s, steps[0]);
      RunKeepsInv(c, Do(c, s, steps[0]), steps[1..], t);
    }
  }

  lemma ReachableInv(c: Config, t: Sys)
    requires ConfigOk(c) && Reachable(c, t)
    ensures Inv(c, t)
  {
    var steps :| Run(c, INIT, steps, t);
    InitInv(c);
    RunKeepsInv(c, INIT, steps, t);
  }

  lemma RunsStayWellFormed(c: Config, t: Sys)
    requires ConfigOk(c) && Reachable(c, t)
    ensures WellFormed(t)
  {
    ReachableInv(c, t);
  }

  // ------------------------------------------------------------ agreement

  /** `a` is in a store, was pushed, or is in the hands of an application. */
  ghost predicate IsCopy(s: Sys, a: Alloc) {
    || InStore(s.lo.objs, a) || InStore(s.hi.objs, a)
    || Pushed(s.sent, a)
    || (exists d :: d in s.lo.log && d.key == a)
    || (exists d :: d in s.hi.log && d.key == a)
  }

  ghost predicate InStore(objs: map<Ref, Stream>, a: Alloc) {
    exists r, i :: r in objs && i in objs[r].chunks && a == AsAlloc(objs[r].ksid, i, objs[r].chunks[i])
  }

  /** All copies at one index of one Key_stream_ID are the same keys with the same bytes. */
  ghost predicate Agreed(s: Sys) {
    forall a, b :: IsCopy(s, a) && IsCopy(s, b) && a.ksid == b.ksid && a.index == b.index ==> a == b
  }

  lemma CopiesAreAllocs(c: Config, s: Sys, a: Alloc)
    requires Inv(c, s) && IsCopy(s, a)
    ensures a in s.allocs
  {
    if InStore(s.hi.objs, a) {
      assert a in s.stored;
    } else if tag :| PushReq(tag, a) in s.sent {
      assert MsgOk(c, PushReq(tag, a), s.allocs.Keys, s.produced);
    }
  }

  /** Where copies agree, the two applications receive the same key at an index and no push is
      answered with a conflict. */
  lemma AgreedMeans(c: Config, s: Sys)
    requires ConfigOk(c) && Reachable(c, s) && Agreed(s)
    ensures forall d, e :: d in s.lo.log && e in s.hi.log && d.key.ksid == e.key.ksid && d.key.index == e.key.index ==>
              d.key.data == e.key.data && d.key.ids == e.key.ids
    ensures RegOk(s.hi) && forall tag, push :: PushReq(tag, push) in s.sent ==> !JudgePush(s.hi, push).Conflict?
  {
    ReachableInv(c, s);
    forall d, e | d in s.lo.log && e in s.hi.log && d.key.ksid == e.key.ksid && d.key.index == e.key.index
      ensures d.key == e.key
    {
      assert IsCopy(s, d.key) && IsCopy(s, e.key);
    }
    forall tag, push | PushReq(tag, push) in s.sent ensures !JudgePush(s.hi, push).Conflict? {
      NoConflict(s, tag, push);
    }
  }

  lemma NoConflict(s: Sys, tag: nat, push: Alloc)
    requires RegOk(s.hi) && Agreed(s) && PushReq(tag, push) in s.sent
    ensures !JudgePush(s.hi, push).Conflict?
  {
    if push.ksid in s.hi.reg && push.index in s.hi.objs[s.hi.reg[push.ksid]].chunks {
      var st := s.hi.objs[s.hi.reg[push.ksid]];
      var copy := AsAlloc(st.ksid, push.index, st.chunks[push.index]);
      assert InStore(s.hi.objs, copy) && Pushed(s.sent, push);
      assert IsCopy(s, copy) && IsCopy(s, push);
    }
  }

  // ------------------------------------------------------------ every chunk is pushed

  ghost predicate AllPushed(s: Sys) {
    forall a :: a in s.allocs ==> Pushed(s.sent, a)
  }

  lemma StepKeepsPushed(c: Config, s: Sys, e: Step)
    requires Inv(c, s) && Enabled(c, s, e) && AllPushed(s)
    ensures AllPushed(Do(c, s, e))
  {
    var s', g := Do(c, s, e), Granted(c, s, e);
    StepCreates(c, s, e);
    forall a | a in s'.allocs ensures Pushed(s'.sent, a) {
      if a in s.allocs {
        var tag :| PushReq(tag, a) in s.sent;
        assert PushReq(tag, a) in s'.sent;
      } else {
        var b :| NewAt(s, s', g.value, b);
      }
    }
  }

  lemma {:induction false} RunKeepsPushed(c: Config, s: Sys, steps: seq<Step>, t: Sys)
    requires Inv(c, s) && AllPushed(s) && Run(c, s, steps, t)
    ensures AllPushed(t)
    decreases steps
  {
    if steps != [] {
      StepOk(c, s, steps[0]);
      StepKeepsPushed(c, s, steps[0]);
      RunKeepsPushed(c, Do(c, s, steps[0]), steps[1..], t);
    }
  }

  /** Every chunk ever created was pushed, so copies agree exactly when no index has two chunks. */
  lemma AgreedIffSingle(c: Config, s: Sys)
    requires ConfigOk(c) && Reachable(c, s)
    ensures Agreed(s) <==> SingleAlloc(s.allocs.Keys)
  {
    var steps :| Run(c, INIT, steps, s);
    InitInv(c);
    RunKeepsInv(c, INIT, steps, s);
    RunKeepsPushed(c, INIT, steps, s);
    if SingleAlloc(s.allocs.Keys) {
      forall a, b | IsCopy(s, a) && IsCopy(s, b) && a.ksid == b.ksid && a.index == b.index ensures a == b {
        CopiesAreAllocs(c, s, a);
        CopiesAreAllocs(c, s, b);
      }
    } else {
      var a, b :| a in s.allocs && b in s.allocs && a.ksid == b.ksid && a.index == b.index && a != b;
      assert Pushed(s.sent, a) && Pushed(s.sent, b);
      assert IsCopy(s, a) && IsCopy(s, b);
    }
  }

  // ------------------------------------------------------------ the exact condition

  /** Every record's counter has only created indices below it. */
  ghost predicate Filled(s: Sys) {
    forall r, i: nat :: r in s.lo.objs && i < s.lo.objs[r].nextAlloc ==> HasChunk(s.allocs.Keys, s.lo.objs[r].ksid, i)
  }

  ghost predicate HasChunk(known: set<Alloc>, ksid: Ksid, i: nat) {
    exists a :: a in known && a.ksid == ksid && a.index == i
  }

  /** No record that the allocator ever kept under this Key_stream_ID has passed the index. */
  ghost predicate Unpassed(objs: map<Ref, Stream>, p: Place)
    requires p.ref in objs
  {
    forall q :: q in objs && objs[q].ksid == objs[p.ref].ksid ==> objs[q].nextAlloc <= p.index
  }

  /** A step that gets keys for a chunk gets them for an index not passed before. */
  ghost predicate Timely(c: Config, s: Sys, e: Step)
    requires ConfigOk(c) && WellFormed(s)
  {
    var g := Granted(c, s, e);
    g.Some? && g.value.ref in s.lo.objs ==> Unpassed(s.lo.objs, g.value)
  }

  ghost predicate TimelyRun(c: Config, s: Sys, steps: seq<Step>)
    requires ConfigOk(c)
    decreases steps
  {
    steps == [] ||
    (WellFormed(s) && Enabled(c, s, steps[0])
     && Timely(c, s, steps[0]) && TimelyRun(c, Do(c, s, steps[0]), steps[1..]))
  }

  lemma HasChunkGrows(known: set<Alloc>, known': set<Alloc>, ksid: Ksid, i: nat)
    requires HasChunk(known, ksid, i) && known <= known'
    ensures HasChunk(known', ksid, i)
  {
    var a :| a in known && a.ksid == ksid && a.index == i;
    assert a in known';
  }

  lemma QuietKeepsFilled(s: Sys, s': Sys)
    requires Filled(s) && Quiet(s, s')
    ensures Filled(s')
  {
  }

  /** Delayed or not, an allocation is for an index that its record has reached. */
  lemma GrantedReached(c: Config, s: Sys, e: Step)
    requires Inv(c, s) && Enabled(c, s, e) && Granted(c, s, e).Some?
    ensures var p := Granted(c, s, e).value;
            p.ref in s.lo.objs && p.index <= s.lo.objs[p.ref].nextAlloc
  {
  }

  /** A chunk at an index not passed before is the first one there. */
  lemma FirstChunk(c: Config, s: Sys, s': Sys, p: Place)
    requires Inv(c, s) && SingleAlloc(s.allocs.Keys) && CreatesAt(s, s', p) && Unpassed(s.lo.objs, p)
    ensures SingleAlloc(s'.allocs.Keys)
  {
    var a :| NewAt(s, s', p, a);
    assert s'.allocs.Keys == s.allocs.Keys + {a};
    forall b | b in s.allocs ensures b.ksid != a.ksid || b.index != a.index {
      assert b.index < s.lo.objs[s.allocs[b]].nextAlloc;
    }
  }

  /** And its record is left with no gap. */
  lemma NoGap(s: Sys, s': Sys, p: Place)
    requires Filled(s) && CreatesAt(s, s', p) && p.index == s.lo.objs[p.ref].nextAlloc
    ensures Filled(s')
  {
    var a :| NewAt(s, s', p, a);
    assert a in s'.allocs.Keys;
    forall q, j: nat | q in s'.lo.objs && j < s'.lo.objs[q].nextAlloc
      ensures HasChunk(s'.allocs.Keys, s'.lo.objs[q].ksid, j)
    {
      if q != p.ref || j != p.index {
        HasChunkGrows(s.allocs.Keys, s'.allocs.Keys, s.lo.objs[q].ksid, j);
      }
    }
  }

  /** A chunk at an index that some record has passed is a second one. */
  lemma SecondChunk(s: Sys, s': Sys, p: Place)
    requires Filled(s) && CreatesAt(s, s', p) && !Unpassed(s.lo.objs, p)
    ensures !SingleAlloc(s'.allocs.Keys)
  {
    var a :| NewAt(s, s', p, a);
    var q :| q in s.lo.objs && s.lo.objs[q].ksid == s.lo.objs[p.ref].ksid && p.index < s.lo.objs[q].nextAlloc;
    assert HasChunk(s.allocs.Keys, a.ksid, p.index);
    var b :| b in s.allocs.Keys && b.ksid == a.ksid && b.index == p.index;
    assert a in s'.allocs.Keys && b in s'.allocs.Keys;
  }

  lemma TimelyStep(c: Config, s: Sys, e: Step)
    requires Inv(c, s) && Enabled(c, s, e) && Filled(s) && SingleAlloc(s.allocs.Keys)
    ensures Timely(c, s, e) <==> SingleAlloc(Do(c, s, e).allocs.Keys)
    ensures Timely(c, s, e) ==> Filled(Do(c, s, e))
  {
    var s', g := Do(c, s, e), Granted(c, s, e);
    StepCreates(c, s, e);
    if g.None? {
      QuietKeepsFilled(s, s');
    } else if Unpassed(s.lo.objs, g.value) {
      GrantedReached(c, s, e);
      FirstChunk(c, s, s', g.value);
      NoGap(s, s', g.value);
    } else {
      SecondChunk(s, s', g.value);
    }
  }

  lemma AllocsGrow(s: Sys, s': Sys, g: Option<Place>)
    requires Creates(s, s', g)
    ensures s.allocs.Keys <= s'.allocs.Keys
  {
    if g.Some? {
      var a :| NewAt(s, s', g.value, a);
    }
  }

  /** A second chunk at an index shows for good. */
  lemma SingleBefore(c: Config, s: Sys, e: Step)
    requires Inv(c, s) && Enabled(c, s, e) && SingleAlloc(Do(c, s, e).allocs.Keys)
    ensures SingleAlloc(s.allocs.Keys)
  {
    StepCreates(c, s, e);
    AllocsGrow(s, Do(c, s, e), Granted(c, s, e));
  }

  lemma {:induction false} SingleAtStart(c: Config, s: Sys, steps: seq<Step>, t: Sys)
    requires Inv(c, s) && Run(c, s, steps, t) && SingleAlloc(t.allocs.Keys)
    ensures SingleAlloc(s.allocs.Keys)
    decreases steps
  {
    if steps != [] {
      StepOk(c, s, steps[0]);
      SingleAtStart(c, Do(c, s, steps[0]), steps[1..], t);
      SingleBefore(c, s, steps[0]);
    }
  }

  lemma {:induction false} TimelyIffSingle(c: Config, s: Sys, steps: seq<Step>, t: Sys)
    requires Inv(c, s) && Filled(s) && SingleAlloc(s.allocs.Keys) && Run(c, s, steps, t)
    ensures TimelyRun(c, s, steps) <==> SingleAlloc(t.allocs.Keys)
    decreases steps
  {
    if steps != [] {
      var s1 := Do(c, s, steps[0]);
      StepOk(c, s, steps[0]);
      TimelyStep(c, s, steps[0]);
      if Timely(c, s, steps[0]) {
        TimelyIffSingle(c, s1, steps[1..], t);
      } else if SingleAlloc(t.allocs.Keys) {
        SingleAtStart(c, s1, steps[1..], t);
      }
    }
  }

  /** For every run: the copies agree at its end exactly when each step that got keys for a chunk got
      them for an index that no record of the same Key_stream_ID had passed. */
  lemma AgreementCondition(c: Config, steps: seq<Step>, t: Sys)
    requires ConfigOk(c) && Run(c, INIT, steps, t)
    ensures TimelyRun(c, INIT, steps) <==> Agreed(t)
  {
    InitInv(c);
    TimelyIffSingle(c, INIT, steps, t);
    AgreedIffSingle(c, t);
  }

  // ------------------------------------------------------------ what can go wrong

  /** The allocator never kept two records under one Key_stream_ID. */
  ghost predicate OneIncarnation(s: Sys) {
    forall q, r :: q in s.lo.objs && r in s.lo.objs && s.lo.objs[q].ksid == s.lo.objs[r].ksid ==> q == r
  }

  /** A delayed allocation that gets its keys finds its record still waiting at the same index. */
  ghost predicate Punctual(c: Config, s: Sys, e: Step) {
    DelayedTake(e) && e.r.t.ref in s.lo.objs && KeysFor(c, s, e.r.t) ==>
      e.r.t.index == s.lo.objs[e.r.t.ref].nextAlloc
  }

  /** A run in which the allocator never re-creates a record. */
  ghost predicate PlainRun(c: Config, s: Sys, steps: seq<Step>)
    requires ConfigOk(c)
    decreases steps
  {
    OneIncarnation(s) &&
    (steps == [] || (WellFormed(s) && Enabled(c, s, steps[0]) && PlainRun(c, Do(c, s, steps[0]), steps[1..])))
  }

  ghost predicate PunctualRun(c: Config, s: Sys, steps: seq<Step>)
    requires ConfigOk(c)
    decreases steps
  {
    steps == [] ||
    (WellFormed(s) && Enabled(c, s, steps[0])
     && Punctual(c, s, steps[0]) && PunctualRun(c, Do(c, s, steps[0]), steps[1..]))
  }

  lemma PunctualIffTimely(c: Config, s: Sys, e: Step)
    requires Inv(c, s) && Enabled(c, s, e) && OneIncarnation(s)
    ensures Punctual(c, s, e) <==> Timely(c, s, e)
  {
    if Granted(c, s, e).Some? {
      GrantedReached(c, s, e);
    }
  }

  lemma {:induction false} PunctualRunIffTimely(c: Config, s: Sys, steps: seq<Step>, t: Sys)
    requires Inv(c, s) && Run(c, s, steps, t) && PlainRun(c, s, steps)
    ensures PunctualRun(c, s, steps) <==> TimelyRun(c, s, steps)
    decreases steps
  {
    if steps != [] {
      StepOk(c, s, steps[0]);
      PunctualIffTimely(c, s, steps[0]);
      PunctualRunIffTimely(c, Do(c, s, steps[0]), steps[1..], t);
    }
  }

  /** Unless a record is re-created, only the wait for the pool lock can break agreement: it holds exactly
      when each delayed `take_local_for_stream` that is granted finds its index still the next one.
      The code does not look again. */
  lemma PlainAgreement(c: Config, steps: seq<Step>, t: Sys)
    requires ConfigOk(c) && Run(c, INIT, steps, t) && PlainRun(c, INIT, steps)
    ensures PunctualRun(c, INIT, steps) <==> Agreed(t)
  {
    InitInv(c);
    PunctualRunIffTimely(c, INIT, steps, t);
    AgreementCondition(c, steps, t);
  }

  /** If no allocation ever waits for the pool lock, agreement needs nothing else. */
  lemma UndelayedRunAgrees(c: Config, steps: seq<Step>, t: Sys)
    requires ConfigOk(c) && Run(c, INIT, steps, t) && PlainRun(c, INIT, steps)
    requires forall e :: e in steps ==> !DelayedTake(e)
    ensures Agreed(t)
  {
    UndelayedRunIsPunctual(c, INIT, steps, t);
    PlainAgreement(c, steps, t);
  }

  lemma {:induction false} UndelayedRunIsPunctual(c: Config, s: Sys, steps: seq<Step>, t: Sys)
    requires ConfigOk(c) && Run(c, s, steps, t) && forall e :: e in steps ==> !DelayedTake(e)
    ensures PunctualRun(c, s, steps)
    decreases steps
  {
    if steps != [] {
      assert steps[0] in steps;
      UndelayedRunIsPunctual(c, Do(c, s, steps[0]), steps[1..], t);
    }
  }
}
