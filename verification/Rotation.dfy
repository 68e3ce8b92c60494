/** The PPK key writer of services/arnika-vici/repositories/swanvici/vici.go as a state machine over
    charon's credential set: every remote call is a step, may fail or succeed, with or without
    effect, and the process may crash between any two steps and be restarted. */
module Rotation {
  import opened Numerals
  import opened Adoption

  datatype Config = Config(prefix: string, bootstrap: string)

  /** Where the process is: the remote call it makes next. `Unload` carries the id it replaced. */
  datatype Pc = Idle | Clean(stale: seq<string>) | Load | Check | Drive | Unload(previous: string) | Retire | Confirm

  datatype Proc = Down | Up(pc: Pc, generation: Uint64, loadedID: string, retired: bool)

  /** `successes` and `kept` only record the past: the generations of successful rotations over all
      restarts, and the ids this process tried in vain to unload, or never unloads. */
  datatype State = State(charon: set<string>, proc: Proc, successes: seq<nat>, kept: set<string>)

  datatype Step =
    | Boot(ids: seq<string>)
    | CleanCall(effect: bool)
    | Begin
    | LoadCall(ok: bool, effect: bool)
    | CheckCall(listed: bool)
    | DriveCall(ok: bool)
    | UnloadCall(effect: bool)
    | RetireCall(ok: bool, effect: bool)
    | ConfirmCall(listed: bool)
    | Crash

  function NextGen(p: Proc): Uint64
    requires p.Up?
  {
    Successor(p.generation)
  }

  function NextId(c: Config, p: Proc): string
    requires p.Up?
  {
    Id(c.prefix, NextGen(p))
  }

  predicate Distinct(ids: seq<string>) {
    forall i, j :: 0 <= i < j < |ids| ==> ids[i] != ids[j]
  }

  /** A truthful get-shared, in any order. */
  ghost predicate Lists(ids: seq<string>, charon: set<string>) {
    Distinct(ids) && forall x :: x in ids <==> x in charon
  }

  ghost predicate Enabled(s: State, e: Step) {
    match e
    case Boot(ids) => s.proc.Down? && Lists(ids, s.charon)
    case CleanCall(_) => s.proc.Up? && s.proc.pc.Clean? && s.proc.pc.stale != []
    case Begin => s.proc.Up? && s.proc.pc.Idle?
    case LoadCall(_, _) => s.proc.Up? && s.proc.pc.Load?
    case CheckCall(_) => s.proc.Up? && s.proc.pc.Check?
    case DriveCall(_) => s.proc.Up? && s.proc.pc.Drive?
    case UnloadCall(_) => s.proc.Up? && s.proc.pc.Unload?
    case RetireCall(_, _) => s.proc.Up? && s.proc.pc.Retire?
    case ConfirmCall(_) => s.proc.Up? && s.proc.pc.Confirm?
    case Crash => s.proc.Up?
  }

  function CleanRest(stale: seq<string>): Pc { if stale == [] then Idle else Clean(stale) }

  function AfterUnload(p: Proc): Pc
    requires p.Up?
  {
    if p.retired then Idle else Retire
  }

  function Removed(charon: set<string>, id: string, effect: bool): set<string> {
    if effect then charon - {id} else charon
  }

  function Booted(c: Config, s: State, ids: seq<string>): State {
    var choice := Sort(c.prefix, ids);
    if choice.newest == "" then
      s.(proc := Up(Idle, 0, "", false), kept := set x | x in s.charon && Owned(c.prefix, x))
    else s.(proc := Up(CleanRest(choice.stale), choice.gen, choice.newest, false), kept := {})
  }

  /** The rotation took effect: the counter and the recorded id move on together. */
  function Driven(c: Config, s: State): State
    requires s.proc.Up?
  {
    var p := s.proc;
    var q := p.(generation := NextGen(p), loadedID := NextId(c, p));
    s.(proc := q.(pc := if p.loadedID != "" then Unload(p.loadedID) else AfterUnload(q)),
       successes := s.successes + [NextGen(p)])
  }

  function Do(c: Config, s: State, e: Step): State
    requires Enabled(s, e)
  {
    match e
    case Boot(ids) => Booted(c, s, ids)
    case CleanCall(effect) =>
      var id := s.proc.pc.stale[0];
      s.(charon := Removed(s.charon, id, effect), kept := if effect then s.kept else s.kept + {id},
         proc := s.proc.(pc := CleanRest(s.proc.pc.stale[1..])))
    case Begin => s.(proc := s.proc.(pc := Load))
    case LoadCall(ok, effect) =>
      s.(charon := if effect then s.charon + {NextId(c, s.proc)} else s.charon,
         proc := s.proc.(pc := if ok then Check else Idle))
    case CheckCall(listed) => s.(proc := s.proc.(pc := if listed && NextId(c, s.proc) in s.charon then Drive else Idle))
    case DriveCall(ok) => if ok then Driven(c, s) else s.(proc := s.proc.(pc := Idle))
    case UnloadCall(effect) =>
      var id := s.proc.pc.previous;
      s.(charon := Removed(s.charon, id, effect), kept := if effect then s.kept else s.kept + {id},
         proc := s.proc.(pc := AfterUnload(s.proc)))
    case RetireCall(ok, effect) =>
      s.(charon := Removed(s.charon, c.bootstrap, effect), proc := s.proc.(pc := if ok then Confirm else Idle))
    case ConfirmCall(listed) =>
      s.(proc := s.proc.(pc := Idle, retired := listed && c.bootstrap !in s.charon))
    case Crash => s.(proc := Down)
  }

  ghost predicate Run(c: Config, s: State, steps: seq<Step>, t: State)
    decreases steps
  {
    if steps == [] then s == t else Enabled(s, steps[0]) && Run(c, Do(c, s, steps[0]), steps[1..], t)
  }

  /** No process yet, and any credentials at all in charon. */
  function Start(charon: set<string>): State { State(charon, Down, [], {}) }

  ghost predicate Reachable(c: Config, t: State) {
    exists charon, steps :: Run(c, Start(charon), steps, t)
  }

  // ------------------------------------------------------------ the promises

  /** The recorded credential is in charon's set. */
  predicate RecordedIsLoaded(s: State) {
    s.proc.Up? && s.proc.loadedID != "" ==> s.proc.loadedID in s.charon
  }

  /** Generations grow from success to success, over restarts, unless the counter wraps to 0. */
  ghost predicate Growing(successes: seq<nat>) {
    forall i :: 0 < i < |successes| ==> successes[i - 1] < successes[i] || successes[i] == 0
  }

  /** Besides the recorded and the next id, only ids whose unloading failed or is still to come. */
  predicate Pending(pc: Pc, x: string) {
    (pc.Clean? && x in pc.stale) || (pc.Unload? && x == pc.previous)
  }

  ghost predicate FewCredentials(c: Config, s: State) {
    s.proc.Up? ==>
      forall x :: x in s.charon && Owned(c.prefix, x) ==>
        x == s.proc.loadedID || x == NextId(c, s.proc) || x in s.kept || Pending(s.proc.pc, x)
  }

  predicate RetiredIsGone(c: Config, s: State) {
    s.proc.Up? && s.proc.retired ==> c.bootstrap !in s.charon
  }

  /** The bootstrap credential does not bear the name of a generation. */
  ghost predicate BootstrapApart(c: Config) {
    forall n: nat :: n < UINT64 ==> Id(c.prefix, n) != c.bootstrap
  }

  // ------------------------------------------------------------ the invariant

  predicate Behind(successes: seq<nat>, generation: nat) {
    successes != [] ==> successes[|successes| - 1] <= generation
  }

  ghost predicate SomeAhead(c: Config, charon: set<string>, last: nat) {
    exists x :: x in charon && Owned(c.prefix, x) && GenOf(c.prefix, x).n >= last
  }

  ghost predicate CounterOk(c: Config, p: Proc, successes: seq<nat>)
    requires p.Up?
  {
    && Behind(successes, p.generation)
    && (p.loadedID == "" ==> p.generation == 0)
    && (p.loadedID != "" ==> GenOf(c.prefix, p.loadedID) == Number(p.generation))
  }

  predicate PcOk(c: Config, p: Proc, charon: set<string>)
    requires p.Up?
  {
    match p.pc
    case Clean(stale) => p.loadedID !in stale
    case Drive => NextId(c, p) in charon
    case Unload(previous) => previous != p.loadedID && p.loadedID == Id(c.prefix, p.generation)
    case Retire => p.loadedID == Id(c.prefix, p.generation)
    case Confirm => p.loadedID == Id(c.prefix, p.generation)
    case _ => true
  }

  ghost predicate DownOk(c: Config, s: State) {
    s.successes != [] && s.successes[|s.successes| - 1] > 0 ==> SomeAhead(c, s.charon, s.successes[|s.successes| - 1])
  }

  ghost predicate Inv(c: Config, s: State) {
    && Growing(s.successes)
    && RecordedIsLoaded(s) && FewCredentials(c, s) && RetiredIsGone(c, s)
    && (s.proc.Up? ==> CounterOk(c, s.proc, s.successes) && PcOk(c, s.proc, s.charon))
    && (s.proc.Down? ==> DownOk(c, s))
  }

  // ------------------------------------------------------------ steps keep it

  lemma {:induction false} OwnedOnce(prefix: string, ids: seq<string>)
    requires Distinct(ids)
    ensures forall x :: x in OwnedOf(prefix, ids) <==> x in ids && Owned(prefix, x)
    ensures forall x :: multiset(OwnedOf(prefix, ids))[x] <= 1
  {
    if ids != [] {
      var rest, id := ids[..|ids| - 1], ids[|ids| - 1];
      OwnedOnce(prefix, rest);
      assert ids == rest + [id];
      assert id !in OwnedOf(prefix, rest);
    }
  }

  /** What `reconcile` leaves to do: every owned id is the adopted one or is to be unloaded. */
  lemma Adopted(c: Config, charon: set<string>, ids: seq<string>)
    requires Lists(ids, charon)
    ensures var choice := Sort(c.prefix, ids);
            && choice.newest !in choice.stale
            && (choice.newest != "" ==> choice.newest in charon)
            && (forall x :: x in charon && Owned(c.prefix, x) && choice.newest != "" ==>
                  x == choice.newest || x in choice.stale)
  {
    var choice := Sort(c.prefix, ids);
    AdoptsLargest(c.prefix, ids);
    UnloadsTheRest(c.prefix, ids);
    OwnedOnce(c.prefix, ids);
    EmptyIsNotOwned(c.prefix);
    var owned := multiset(OwnedOf(c.prefix, ids));
    if choice.newest != "" {
      assert owned[choice.newest] == multiset(choice.stale)[choice.newest] + 1;
      forall x | x in charon && Owned(c.prefix, x) ensures x == choice.newest || x in choice.stale {
        assert x in OwnedOf(c.prefix, ids);
        assert x in owned;
      }
    } else {
      assert multiset(choice.stale) == owned;
      assert forall x :: x in choice.stale <==> x in multiset(choice.stale);
    }
  }

  lemma BootOk(c: Config, s: State, ids: seq<string>)
    requires Inv(c, s) && s.proc.Down? && Lists(ids, s.charon)
    ensures Inv(c, Booted(c, s, ids))
  {
    Adopted(c, s.charon, ids);
    AdoptsLargest(c.prefix, ids);
    var choice := Sort(c.prefix, ids);
    if s.successes != [] && s.successes[|s.successes| - 1] > 0 {
      var x :| x in s.charon && Owned(c.prefix, x) && GenOf(c.prefix, x).n >= s.successes[|s.successes| - 1];
      assert x in ids;
    }
  }

  lemma CleanOk(c: Config, s: State, effect: bool)
    requires Inv(c, s) && Enabled(s, CleanCall(effect))
    ensures Inv(c, Do(c, s, CleanCall(effect)))
  {
    var stale := s.proc.pc.stale;
    assert stale == [stale[0]] + stale[1..];
  }

  lemma LoadOk(c: Config, s: State, ok: bool, effect: bool)
    requires Inv(c, s) && Enabled(s, LoadCall(ok, effect)) && BootstrapApart(c)
    ensures Inv(c, Do(c, s, LoadCall(ok, effect)))
  {
  }

  lemma CheckOk(c: Config, s: State, listed: bool)
    requires Inv(c, s) && Enabled(s, CheckCall(listed))
    ensures Inv(c, Do(c, s, CheckCall(listed)))
  {
  }

  lemma CounterMovesOn(c: Config, p: Proc, successes: seq<nat>)
    requires p.Up? && Growing(successes) && CounterOk(c, p, successes)
    ensures var q := p.(generation := NextGen(p), loadedID := NextId(c, p));
            Growing(successes + [NextGen(p)]) && CounterOk(c, q, successes + [NextGen(p)])
            && q.loadedID != "" && q.loadedID != p.loadedID
  {
    GenOfId(c.prefix, NextGen(p));
    EmptyIsNotOwned(c.prefix);
  }

  /** While the reauthentication is under way, no unloading is pending. */
  lemma OnlyThese(c: Config, s: State)
    requires FewCredentials(c, s) && s.proc.Up? && s.proc.pc.Drive?
    ensures forall x :: x in s.charon && Owned(c.prefix, x) ==>
              x == s.proc.loadedID || x == NextId(c, s.proc) || x in s.kept
  {
  }

  lemma DriveOk(c: Config, s: State, ok: bool)
    requires Inv(c, s) && Enabled(s, DriveCall(ok))
    ensures Inv(c, Do(c, s, DriveCall(ok)))
  {
    if ok {
      var t := Driven(c, s);
      CounterMovesOn(c, s.proc, s.successes);
      OnlyThese(c, s);
      EmptyIsNotOwned(c.prefix);
      forall x | x in t.charon && Owned(c.prefix, x)
        ensures x == t.proc.loadedID || x in t.kept || Pending(t.proc.pc, x)
      {
        assert x != "";
      }
      assert FewCredentials(c, t);
    }
  }

  lemma UnloadOk(c: Config, s: State, effect: bool)
    requires Inv(c, s) && Enabled(s, UnloadCall(effect))
    ensures Inv(c, Do(c, s, UnloadCall(effect)))
  {
  }

  lemma RetireOk(c: Config, s: State, ok: bool, effect: bool)
    requires Inv(c, s) && Enabled(s, RetireCall(ok, effect)) && BootstrapApart(c)
    ensures Inv(c, Do(c, s, RetireCall(ok, effect)))
  {
  }

  lemma CrashOk(c: Config, s: State)
    requires Inv(c, s) && s.proc.Up?
    ensures Inv(c, s.(proc := Down))
  {
    if s.successes != [] && s.successes[|s.successes| - 1] > 0 {
      assert s.proc.loadedID in s.charon;
    }
  }

  lemma StepOk(c: Config, s: State, e: Step)
    requires Inv(c, s) && Enabled(s, e) && BootstrapApart(c)
    ensures Inv(c, Do(c, s, e))
  {
    match e
    case Boot(ids) => BootOk(c, s, ids);
    case CleanCall(effect) => CleanOk(c, s, effect);
    case Begin =>
    case LoadCall(ok, effect) => LoadOk(c, s, ok, effect);
    case CheckCall(listed) => CheckOk(c, s, listed);
    case DriveCall(ok) => DriveOk(c, s, ok);
    case UnloadCall(effect) => UnloadOk(c, s, effect);
    case RetireCall(ok, effect) => RetireOk(c, s, ok, effect);
    case ConfirmCall(listed) =>
    case Crash => CrashOk(c, s);
  }

  lemma {:induction false} RunKeepsInv(c: Config, s: State, steps: seq<Step>, t: State)
    requires Inv(c, s) && BootstrapApart(c) && Run(c, s, steps, t)
    ensures Inv(c, t)
    decreases steps
  {
    if steps != [] {
      StepOk(c, s, steps[0]);
      RunKeepsInv(c, Do(c, s, steps[0]), steps[1..], t);
    }
  }

  /** At every intermediate point of every run, whatever calls fail or crash. */
  lemma RotationIsSafe(c: Config, s: State)
    requires BootstrapApart(c) && Reachable(c, s)
    ensures RecordedIsLoaded(s) && FewCredentials(c, s) && RetiredIsGone(c, s)
    ensures Growing(s.successes)
    ensures 0 !in s.successes ==> forall i, j :: 0 <= i < j < |s.successes| ==> s.successes[i] < s.successes[j]
  {
    var charon, steps :| Run(c, Start(charon), steps, s);
    RunKeepsInv(c, Start(charon), steps, s);
    if 0 !in s.successes {
      forall i, j | 0 <= i < j < |s.successes| ensures s.successes[i] < s.successes[j] {
        GrowsFrom(s.successes, i, j);
      }
    }
  }

  lemma {:induction false} GrowsFrom(successes: seq<nat>, i: nat, j: nat)
    requires Growing(successes) && 0 !in successes && i < j < |successes|
    ensures successes[i] < successes[j]
    decreases j
  {
    assert successes[j] in successes;
    if i + 1 < j { GrowsFrom(successes, i, j - 1); }
  }

  // ------------------------------------------------------------ what is left behind

  /** The step makes a remote unloading that has no effect, or finds only generation 0 at a restart. */
  ghost predicate LeavesBehind(c: Config, s: State, e: Step, x: string)
    requires Enabled(s, e)
  {
    match e
    case CleanCall(effect) => !effect && x == s.proc.pc.stale[0]
    case UnloadCall(effect) => !effect && x == s.proc.pc.previous
    case Boot(ids) => x in s.charon && Owned(c.prefix, x) && GenOf(c.prefix, x).n == 0
    case _ => false
  }

  /** Nothing else gets an id excused. */
  lemma KeptGrows(c: Config, s: State, e: Step, x: string)
    requires Enabled(s, e)
    ensures x in Do(c, s, e).kept && x !in s.kept ==> LeavesBehind(c, s, e, x)
  {
    if e.Boot? {
      AdoptsLargest(c.prefix, e.ids);
    }
  }

  predicate HasEffect(e: Step) {
    match e
    case CleanCall(effect) => effect
    case UnloadCall(effect) => effect
    case Boot(_) => false
    case _ => true
  }

  lemma {:induction false} KeptStays(c: Config, s: State, steps: seq<Step>, t: State)
    requires Run(c, s, steps, t) && forall e :: e in steps ==> HasEffect(e)
    ensures t.kept == s.kept
    decreases steps
  {
    if steps != [] {
      assert steps[0] in steps;
      KeptStays(c, Do(c, s, steps[0]), steps[1..], t);
    }
  }

  /** After a restart that adopts a credential, as long as unloadings take effect and the process lives:
      between rotations only the recorded credential is there, and perhaps the one of a rotation that
      failed. */
  lemma NothingPilesUp(c: Config, s: State, ids: seq<string>, steps: seq<Step>, t: State)
    requires BootstrapApart(c) && Reachable(c, s) && s.proc.Down? && Lists(ids, s.charon)
    requires Sort(c.prefix, ids).newest != ""
    requires Run(c, Do(c, s, Boot(ids)), steps, t) && forall e :: e in steps ==> HasEffect(e)
    requires t.proc.Up? && t.proc.pc.Idle?
    ensures forall x :: x in t.charon && Owned(c.prefix, x) ==> x == t.proc.loadedID || x == NextId(c, t.proc)
  {
    var charon, before :| Run(c, Start(charon), before, s);
    RunKeepsInv(c, Start(charon), before, s);
    BootOk(c, s, ids);
    RunKeepsInv(c, Do(c, s, Boot(ids)), steps, t);
    KeptStays(c, Do(c, s, Boot(ids)), steps, t);
  }

  // ------------------------------------------------------------ when the bootstrap name clashes

  lemma Then(c: Config, s: State, e: Step)
    requires Reachable(c, s) && Enabled(s, e)
    ensures Reachable(c, Do(c, s, e))
  {
    var charon, steps :| Run(c, Start(charon), steps, s);
    Extend(c, Start(charon), steps, s, e);
  }

  lemma {:induction false} Extend(c: Config, s: State, steps: seq<Step>, t: State, e: Step)
    requires Run(c, s, steps, t) && Enabled(t, e)
    ensures Run(c, s, steps + [e], Do(c, t, e))
    decreases steps
  {
    if steps == [] {
      assert Run(c, Do(c, s, e), [], Do(c, t, e));
    } else {
      Extend(c, Do(c, s, steps[0]), steps[1..], t, e);
      assert (steps + [e])[1..] == steps[1..] + [e];
    }
  }

  /** `reconcile` finds nothing, or the one generation before `k`. */
  lemma AdoptsOne(prefix: string, k: nat, before: nat, ids: seq<string>)
    requires k < UINT64 && before == if k == 0 then UINT64 - 1 else k - 1
    requires ids == if k == 1 then [] else [Id(prefix, before)]
    ensures Sort(prefix, ids) == Choice(if k == 1 then "" else Id(prefix, before), before, [])
  {
    if k != 1 {
      GenOfId(prefix, before);
      assert ids[..0] == [];
      assert Sort(prefix, ids[..0]) == Choice("", 0, []);
    }
  }

  /** One rotation in which every call succeeds. */
  lemma RotatesOnto(c: Config, s: State)
    requires Reachable(c, s) && s.proc.Up? && s.proc.pc.Idle? && !s.proc.retired && NextId(c, s.proc) == c.bootstrap
    ensures exists t :: Reachable(c, t) && !RecordedIsLoaded(t)
  {
    EmptyIsNotOwned(c.prefix);
    GenOfId(c.prefix, NextGen(s.proc));
    var s1 := Do(c, s, Begin);
    Then(c, s, Begin);
    var s2 := Do(c, s1, LoadCall(true, true));
    Then(c, s1, LoadCall(true, true));
    var s3 := Do(c, s2, CheckCall(true));
    Then(c, s2, CheckCall(true));
    var s4 := Do(c, s3, DriveCall(true));
    Then(c, s3, DriveCall(true));
    var s5 := if s4.proc.pc.Unload? then Do(c, s4, UnloadCall(true)) else s4;
    if s4.proc.pc.Unload? { Then(c, s4, UnloadCall(true)); }
    Then(c, s5, RetireCall(true, true));
    assert !RecordedIsLoaded(Do(c, s5, RetireCall(true, true)));
  }

  lemma Clash(c: Config, k: nat)
    requires k < UINT64 && c.bootstrap == Id(c.prefix, k)
    ensures exists t :: Reachable(c, t) && !RecordedIsLoaded(t)
  {
    var before := if k == 0 then UINT64 - 1 else k - 1;
    var ids := if k == 1 then [] else [Id(c.prefix, before)];
    var s := Start(set x | x in ids);
    AdoptsOne(c.prefix, k, before, ids);
    if k != 1 {
      GenOfId(c.prefix, before);
      EmptyIsNotOwned(c.prefix);
    }
    assert Run(c, s, [], s);
    Then(c, s, Boot(ids));
    RotatesOnto(c, Do(c, s, Boot(ids)));
  }

  /** The recorded credential stays loaded in every run exactly when the configured bootstrap id is
      not one of the ids rotations use. The configuration is not checked for that. */
  lemma SafetyCondition(c: Config)
    ensures (forall s :: Reachable(c, s) ==> RecordedIsLoaded(s)) <==> BootstrapApart(c)
  {
    if BootstrapApart(c) {
      forall s | Reachable(c, s) ensures RecordedIsLoaded(s) {
        RotationIsSafe(c, s);
      }
    } else {
      var k: nat :| k < UINT64 && Id(c.prefix, k) == c.bootstrap;
      Clash(c, k);
    }
  }
}
