/** `Repository` of services/arnika-vici/repositories/swanvici/vici.go as the object it is, talking to a
    charon whose every answer and effect is chosen by the environment. Each method is proved to be
    a run of the machine in `Rotation`, so the promises there hold between all its remote calls. */
module KeyWriter {
  import opened Numerals
  import opened Adoption
  import opened Rotation

  const MIN_PPK_BYTES := 32

  /** A remote call that changes something: what it answers, and whether it took effect. */
  datatype Outcome = Outcome(ok: bool, effect: bool)

  /** What `rekey` answers; `matches` is the number of SAs it found, as charon writes it. */
  datatype Rekey = NoAnswer | Answer(success: bool, matches: string)

  /** What list-sas answers. */
  datatype Listing = NoList | List(ids: seq<string>)

  /** How the calls of one rotation go. */
  datatype Fate = Fate(
    dial: bool, load: Outcome, check: bool, sas: Listing, rekey: Rekey, unload: Outcome, retire: Outcome, confirm: bool)

  /** An SA was found and told to reauthenticate. */
  predicate Consumed(r: Rekey) { r.Answer? && r.success && r.matches != "" && r.matches != "0" }

  /** What is left to do after a rotation that replaced `previous`. */
  function Leftover(previous: string, retired: bool): Pc {
    if previous != "" then Unload(previous) else if retired then Idle else Retire
  }

  predicate Validates(cfg: Config) { cfg.prefix != "" && cfg.bootstrap != "" }

  class Charon {
    var ids: set<string>

    method LoadShared(id: string, o: Outcome) returns (ok: bool)
      modifies this
      ensures ok == o.ok && ids == if o.effect then old(ids) + {id} else old(ids)
    {
      if o.effect { ids := ids + {id}; }
      ok := o.ok;
    }

    method UnloadShared(id: string, o: Outcome) returns (ok: bool)
      modifies this
      ensures ok == o.ok && ids == Removed(old(ids), id, o.effect)
    {
      if o.effect { ids := ids - {id}; }
      ok := o.ok;
    }

    method GetShared() returns (list: seq<string>)
      ensures Lists(list, ids)
    {
      list := [];
      var left := ids;
      while left != {}
        invariant left <= ids && Lists(list, ids - left)
      {
        var id :| id in left;
        list, left := list + [id], left - {id};
      }
      assert ids - left == ids;
    }
  }

  class Repository {
    const cfg: Config
    const driveReauth: bool
    var generation: Uint64
    var loadedID: string
    var bootstrapRetired: bool
    ghost var successes: seq<nat>
    ghost var kept: set<string>

    ghost function View(charon: Charon, pc: Pc): State
      reads this, charon
    {
      State(charon.ids, Up(pc, generation, loadedID, bootstrapRetired), successes, kept)
    }

    constructor (cfg: Config, driveReauth: bool, ghost before: seq<nat>)
      ensures this.cfg == cfg && this.driveReauth == driveReauth
      ensures generation == 0 && loadedID == "" && !bootstrapRetired && successes == before && kept == {}
    {
      this.cfg, this.driveReauth := cfg, driveReauth;
      generation, loadedID, bootstrapRetired, successes, kept := 0, "", false, before, {};
    }

    /** What a restart makes of the credentials `before`: only owned ones go; the largest generation is
        adopted; and when every unloading takes effect, it is the only owned one left. */
    ghost predicate Adopts(before: set<string>, charon: Charon, unloads: nat -> Outcome)
      reads this, charon
    {
      && charon.ids <= before && (forall x :: x in before && !Owned(cfg.prefix, x) ==> x in charon.ids)
      && (forall x :: x in before && Owned(cfg.prefix, x) ==> GenOf(cfg.prefix, x).n <= generation)
      && (loadedID == "" ==> generation == 0 && charon.ids == before)
      && (loadedID != "" ==> loadedID in charon.ids && GenOf(cfg.prefix, loadedID) == Number(generation))
      && (loadedID != "" && (forall i :: unloads(i).effect) ==>
            forall x :: x in charon.ids && Owned(cfg.prefix, x) ==> x == loadedID)
    }

    /** `reconcile`, on a fresh object; `listed` is whether get-shared answers. */
    method Reconcile(charon: Charon, listed: bool, unloads: nat -> Outcome) returns (err: bool, ghost steps: seq<Step>)
      requires generation == 0 && loadedID == "" && !bootstrapRetired
      modifies this, charon
      ensures err <==> !listed
      ensures err ==> charon.ids == old(charon.ids)
      ensures !err ==> Run(cfg, State(old(charon.ids), Down, old(successes), old(kept)), steps, View(charon, Idle))
      ensures !err ==> Adopts(old(charon.ids), charon, unloads)
    {
      steps := [];
      if !listed {
        return true, steps;
      }
      err := false;
      var ids := charon.GetShared();
      var newest, newestGen, stale := Adoption.Reconcile(cfg.prefix, ids);
      Chosen(cfg, charon.ids, ids);
      ghost var start := State(charon.ids, Down, successes, kept);
      steps := [Boot(ids)];
      assert Run(cfg, start, [], start);
      Extend(cfg, start, [], start, Boot(ids));
      assert [] + [Boot(ids)] == steps;
      if newest == "" {
        kept := set x | x in charon.ids && Owned(cfg.prefix, x);
        return;
      }
      generation, loadedID, kept := newestGen, newest, {};
      steps := UnloadAll(charon, stale, unloads, start, steps);
    }

    /** The credentials that were not adopted go, as far as charon lets them. */
    method UnloadAll(charon: Charon, stale: seq<string>, unloads: nat -> Outcome, ghost start: State,
                     ghost before: seq<Step>)
      returns (ghost steps: seq<Step>)
      requires !bootstrapRetired && Run(cfg, start, before, View(charon, CleanRest(stale)))
      modifies this`kept, charon
      ensures Run(cfg, start, steps, View(charon, Idle))
      ensures charon.ids <= old(charon.ids) && forall x :: x in old(charon.ids) && x !in charon.ids ==> x in stale
      ensures (forall i :: unloads(i).effect) ==> forall x :: x in stale ==> x !in charon.ids
    {
      steps := before;
      assert stale[0..] == stale;
      for i := 0 to |stale|
        invariant Run(cfg, start, steps, View(charon, CleanRest(stale[i..])))
        invariant charon.ids <= old(charon.ids) && forall x :: x in old(charon.ids) && x !in charon.ids ==> x in stale
        invariant (forall k :: unloads(k).effect) ==> forall k :: 0 <= k < i ==> stale[k] !in charon.ids
      {
        ghost var now := View(charon, CleanRest(stale[i..]));
        assert stale[i..][0] == stale[i] && stale[i..][1..] == stale[i + 1..];
        var ok := charon.UnloadShared(stale[i], unloads(i));
        kept := if unloads(i).effect then kept else kept + {stale[i]};
        Extend(cfg, start, steps, now, CleanCall(unloads(i).effect));
        steps := steps + [CleanCall(unloads(i).effect)];
      }
    }

    /** `reauthenticate`: one SA, the newest, is told to, or the tunnel is brought up if there is none;
        `initiate` never fails the rotation. */
    method Reauthenticate(sas: Listing, rekey: Rekey) returns (err: bool, target: string)
      ensures !err <==> sas.List? && (sas.ids == [] || Consumed(rekey))
      ensures sas.List? && sas.ids != [] ==> Newest(sas.ids, target)
      ensures sas.NoList? || sas.ids == [] ==> target == ""
    {
      target := "";
      if sas.NoList? {
        return true, target;
      }
      if sas.ids == [] {
        return false, target;
      }
      target := NewestSAID(sas.ids);
      err := rekey.NoAnswer? || !rekey.success || rekey.matches == "" || rekey.matches == "0";
    }

    /** The new credential is loaded and seen in charon's list. */
    method Install(charon: Charon, f: Fate) returns (ok: bool, ghost steps: seq<Step>)
      modifies charon
      ensures Run(cfg, old(View(charon, Idle)), steps, View(charon, if ok then Drive else Idle))
      ensures ok <==> f.load.ok && f.check && Id(cfg.prefix, Successor(generation)) in charon.ids
      ensures Id(cfg.prefix, Successor(generation)) in charon.ids <==>
                f.load.effect || Id(cfg.prefix, Successor(generation)) in old(charon.ids)
      ensures old(charon.ids) <= charon.ids <= old(charon.ids) + {Id(cfg.prefix, Successor(generation))}
      ensures forall e :: e in steps ==> !e.DriveCall?
    {
      ghost var start := View(charon, Idle);
      var next := Id(cfg.prefix, Successor(generation));
      Extend(cfg, start, [], start, Begin);
      steps := [] + [Begin];
      ok := charon.LoadShared(next, f.load);
      Extend(cfg, start, steps, Do(cfg, start, Begin), LoadCall(f.load.ok, f.load.effect));
      steps := steps + [LoadCall(f.load.ok, f.load.effect)];
      if !ok {
        return;
      }
      ok := AssertLoaded(charon, next, f.check);
      Extend(cfg, start, steps, View(charon, Check), CheckCall(f.check));
      steps := steps + [CheckCall(f.check)];
    }

    /** Once the rotation took effect: the credential it replaced goes, and the bootstrap one. */
    method CleanUp(charon: Charon, previous: string, f: Fate) returns (ghost steps: seq<Step>)
      modifies this`bootstrapRetired, this`kept, charon
      ensures Run(cfg, old(View(charon, Leftover(previous, bootstrapRetired))), steps, View(charon, Idle))
      ensures charon.ids == old(charon.ids) - Unloaded(previous, f) - Retired(old(bootstrapRetired), f)
      ensures RetiredNow(old(bootstrapRetired), f, charon)
      ensures kept == if previous != "" && !f.unload.effect then old(kept) + {previous} else old(kept)
      ensures forall e :: e in steps ==> !e.DriveCall?
    {
      ghost var first: seq<Step> := [];
      ghost var start := View(charon, Leftover(previous, bootstrapRetired));
      if previous != "" {
        var ok := charon.UnloadShared(previous, f.unload);
        kept := if f.unload.effect then kept else kept + {previous};
        Extend(cfg, start, first, start, UnloadCall(f.unload.effect));
        first := first + [UnloadCall(f.unload.effect)];
      }
      ghost var mid := View(charon, if bootstrapRetired then Idle else Retire);
      ghost var second := RetireBootstrap(charon, f);
      RunTogether(cfg, start, first, mid, second, View(charon, Idle));
      steps := first + second;
    }

    /** What goes when the unloadings after a rotation take effect. */
    function Unloaded(previous: string, f: Fate): set<string> {
      if previous != "" && f.unload.effect then {previous} else {}
    }

    function Retired(before: bool, f: Fate): set<string> {
      if !before && f.retire.effect then {cfg.bootstrap} else {}
    }

    /** The bootstrap credential counts as retired once charon's own list lacks it. */
    predicate RetiredNow(before: bool, f: Fate, charon: Charon)
      reads this, charon
    {
      bootstrapRetired <==> before || (f.retire.ok && f.confirm && cfg.bootstrap !in charon.ids)
    }

    /** `SetPSK`. A rotation that succeeds leaves the new credential in place of the one it replaces, and of
        the bootstrap one; a rotation that fails leaves at most the new credential behind. */
    method SetPSK(charon: Charon, bytes: nat, f: Fate) returns (err: bool, ghost steps: seq<Step>)
      modifies this, charon
      ensures Run(cfg, old(View(charon, Idle)), steps, View(charon, Idle))
      ensures !err <==> DriveCall(true) in steps
      ensures !err <==> bytes >= 32 && f.dial && f.load.ok && f.check
                        && (f.load.effect || Id(cfg.prefix, Successor(old(generation))) in old(charon.ids))
                        && (driveReauth ==> f.sas.List? && (f.sas.ids == [] || Consumed(f.rekey)))
      ensures !err ==> generation == (if old(generation) + 1 == UINT64 then 0 else old(generation) + 1)
                       && loadedID == cfg.prefix + "-" + Format(generation)
                       && successes == old(successes) + [generation]
      ensures !err ==> charon.ids == old(charon.ids) + {loadedID} - Unloaded(old(loadedID), f)
                                     - Retired(old(bootstrapRetired), f)
      ensures !err && f.unload.effect && old(loadedID) != "" ==> old(loadedID) !in charon.ids
      ensures !err && f.retire.effect && !old(bootstrapRetired) ==> cfg.bootstrap !in charon.ids
      ensures !err ==> RetiredNow(old(bootstrapRetired), f, charon)
      ensures kept == if !err && old(loadedID) != "" && !f.unload.effect then old(kept) + {old(loadedID)} else old(kept)
      ensures err ==> generation == old(generation) && loadedID == old(loadedID) && successes == old(successes)
                      && bootstrapRetired == old(bootstrapRetired)
      ensures err ==> old(charon.ids) <= charon.ids <= old(charon.ids) + {Id(cfg.prefix, Successor(generation))}
    {
      steps := [];
      if bytes < MIN_PPK_BYTES || !f.dial {
        return true, steps;
      }
      var previous := loadedID;
      var ok;
      ok, steps := Install(charon, f);
      if !ok {
        return true, steps;
      }
      err := false;
      if driveReauth {
        var target;
        err, target := Reauthenticate(f.sas, f.rekey);
      }
      ghost var driving := View(charon, Drive);
      Extend(cfg, old(View(charon, Idle)), steps, driving, DriveCall(!err));
      steps := steps + [DriveCall(!err)];
      if !err {
        MoveOn();
        ghost var driven := Do(cfg, driving, DriveCall(true));
        ghost var more := CleanUp(charon, previous, f);
        RunTogether(cfg, old(View(charon, Idle)), steps, driven, more, View(charon, Idle));
        steps := steps + more;
      }
    }

    method MoveOn()
      modifies this`generation, this`loadedID, this`successes
      ensures generation == Successor(old(generation)) && loadedID == Id(cfg.prefix, generation)
      ensures successes == old(successes) + [generation]
    {
      generation := Successor(generation);
      loadedID := Id(cfg.prefix, generation);
      successes := successes + [generation];
    }

    method AssertLoaded(charon: Charon, id: string, listed: bool) returns (ok: bool)
      ensures ok <==> listed && id in charon.ids
    {
      if !listed {
        return false;
      }
      var ids := charon.GetShared();
      for i := 0 to |ids|
        invariant id !in ids[..i]
      {
        if ids[i] == id {
          return true;
        }
      }
      ok := false;
    }

    method RetireBootstrap(charon: Charon, f: Fate) returns (ghost steps: seq<Step>)
      modifies this`bootstrapRetired, charon
      ensures Run(cfg, old(View(charon, if bootstrapRetired then Idle else Retire)), steps, View(charon, Idle))
      ensures charon.ids == old(charon.ids) - Retired(old(bootstrapRetired), f)
      ensures RetiredNow(old(bootstrapRetired), f, charon)
      ensures forall e :: e in steps ==> !e.DriveCall?
    {
      steps := [];
      if bootstrapRetired {
        return;
      }
      ghost var start := View(charon, Retire);
      var ok := charon.UnloadShared(cfg.bootstrap, f.retire);
      Extend(cfg, start, [], start, RetireCall(f.retire.ok, f.retire.effect));
      steps := [] + [RetireCall(f.retire.ok, f.retire.effect)];
      if !ok {
        return;
      }
      ghost var confirming := View(charon, Confirm);
      var present := AssertLoaded(charon, cfg.bootstrap, f.confirm);
      if f.confirm && !present {
        bootstrapRetired := true;
      }
      Extend(cfg, start, steps, confirming, ConfirmCall(f.confirm));
      steps := steps + [ConfirmCall(f.confirm)];
    }
  }

  /** `NewRepository`: valid settings (`others` is whether the ones not modelled are), a socket that answers
      and a reconciliation that could list the credentials, or no repository. */
  method NewRepository(cfg: Config, others: bool, driveReauth: bool, ghost before: seq<nat>, charon: Charon,
                       dial: bool, version: bool, listed: bool, unloads: nat -> Outcome)
    returns (r: Repository?, ghost steps: seq<Step>)
    modifies charon
    ensures r != null <==> others && Validates(cfg) && dial && version && listed
    ensures r == null ==> charon.ids == old(charon.ids)
    ensures r != null ==> fresh(r) && r.cfg == cfg && r.driveReauth == driveReauth
                          && Run(cfg, State(old(charon.ids), Down, before, {}), steps, r.View(charon, Idle))
                          && r.Adopts(old(charon.ids), charon, unloads)
  {
    steps := [];
    if !others || !Validates(cfg) || !dial || !version {
      return null, steps;
    }
    var repository := new Repository(cfg, driveReauth, before);
    var err;
    err, steps := repository.Reconcile(charon, listed, unloads);
    r := if err then null else repository;
  }

  /** The choice among charon's own credentials. */
  lemma Chosen(c: Config, charon: set<string>, ids: seq<string>)
    requires Lists(ids, charon)
    ensures var choice := Sort(c.prefix, ids);
            && (forall x :: x in charon && Owned(c.prefix, x) ==> GenOf(c.prefix, x).n <= choice.gen)
            && (choice.newest == "" ==> choice.gen == 0)
            && (choice.newest != "" ==>
                  && choice.newest in charon && GenOf(c.prefix, choice.newest) == Number(choice.gen)
                  && choice.newest !in choice.stale
                  && forall x :: x in charon && Owned(c.prefix, x) ==> x == choice.newest || x in choice.stale)
            && forall x :: x in choice.stale ==> Owned(c.prefix, x)
  {
    AdoptsLargest(c.prefix, ids);
    Adopted(c, charon, ids);
    StaleIsOwned(c.prefix, ids);
  }

  lemma RunFrom(c: Config, s: State, steps: seq<Step>, s1: State, t: State)
    requires steps != [] && Enabled(s, steps[0]) && Do(c, s, steps[0]) == s1 && Run(c, s1, steps[1..], t)
    ensures Run(c, s, steps, t)
  {
  }

  lemma {:induction false} RunTogether(c: Config, s: State, first: seq<Step>, t: State, second: seq<Step>, u: State)
    requires Run(c, s, first, t) && Run(c, t, second, u)
    ensures Run(c, s, first + second, u)
    decreases first
  {
    if first == [] {
      assert first + second == second;
    } else {
      var s1, rest := Do(c, s, first[0]), first[1..];
      RunTogether(c, s1, rest, t, second, u);
      var all := first + second;
      assert all[1..] == rest + second;
      RunFrom(c, s, all, s1, u);
    }
  }
}
