/** `KeyPool` of services/bb84-kme/app/keypool.py as the object it is: each method updates the
    collections in place and is proved to have the effect that `KeyPools` gives it. */
module SharedPool {
  import opened P = KeyPools

  class KeyPool {
    const capacity: nat
    const low: nat
    var buf: seq<StoredKey>
    var byId: map<KeyId, StoredKey>
    var withdrawn: seq<KeyId>
    var extraTarget: nat

    ghost function State(): Pool
      reads this
    {
      Pool(buf, byId, withdrawn)
    }

    constructor (capacity: nat, low: nat)
      ensures this.capacity == capacity && this.low == low
      ensures State() == Pool([], map[], []) && extraTarget == 0
    {
      this.capacity, this.low := capacity, low;
      buf, byId, withdrawn, extraTarget := [], map[], [], 0;
    }

    /** `_admit`: the bounded deque drops its oldest entry as the new one is appended. */
    method Insert(k: StoredKey)
      requires 0 < capacity && |buf| <= capacity
      modifies `buf, `byId
      ensures State() == Admit(old(State()), capacity, k)
    {
      if |buf| == capacity {
        var evicted := buf[0];
        buf := buf[1..] + [k];
        byId := byId - {evicted.id};
      } else {
        buf := buf + [k];
      }
      byId := byId[k.id := k];
    }

    method ReceiveSynced(id: KeyId, bytes: seq<byte>)
      requires 0 < capacity && |buf| <= capacity
      modifies `buf, `byId
      ensures State() == P.ReceiveSynced(old(State()), capacity, id, bytes)
    {
      if id in byId || id in withdrawn {
        return;
      }
      Insert(StoredKey(id, bytes, true));
    }

    method Dispensable() returns (n: nat)
      ensures n == |Locals(buf)|
    {
      n := 0;
      var i := 0;
      while i < |buf|
        invariant 0 <= i <= |buf|
        invariant |Locals(buf)| == n + |Locals(buf[i..])|
      {
        assert buf[i..][1..] == buf[i + 1..];
        if !buf[i].replicated {
          n := n + 1;
        }
        i := i + 1;
      }
    }

    /** The gate of the producer loop: no round is run while this answers yes. */
    method Sleeps() returns (yes: bool)
      ensures yes <==> Rests(State(), low, extraTarget)
    {
      var n := Dispensable();
      yes := n >= low + extraTarget;
    }

    method PopForEnc() returns (got: Option<StoredKey>)
      modifies `buf
      ensures (State(), got) == P.PopForEnc(old(State()))
    {
      var i := 0;
      while i < |buf| && buf[i].replicated
        invariant 0 <= i <= |buf|
        invariant Locals(buf) == Locals(buf[i..])
      {
        assert buf[i..][1..] == buf[i + 1..];
        i := i + 1;
      }
      if i == |buf| {
        return None;
      }
      got := Some(buf[i]);
      buf := Without(buf, buf[i]);
    }

    method TakeLocalForStream(n: int) returns (got: Option<seq<StoredKey>>)
      modifies `buf, `byId
      ensures (State(), got) == TakeLocal(old(State()), low, if n < 0 then 0 else n)
    {
      var local := LocalKeys();
      if n <= 0 || |local| - n < low {
        return None;
      }
      var taken := local[..n];
      var i := 0;
      while i < n
        invariant 0 <= i <= n
        invariant withdrawn == old(withdrawn)
        invariant RemoveKeys(State(), taken[i..]) == RemoveKeys(old(State()), taken)
      {
        assert taken[i..][0] == taken[i] && taken[i..][1..] == taken[i + 1..];
        buf := Without(buf, taken[i]);
        byId := byId - {taken[i].id};
        i := i + 1;
      }
      got := Some(taken);
    }

    method LocalKeys() returns (local: seq<StoredKey>)
      ensures local == Locals(buf)
    {
      local := [];
      var i := 0;
      while i < |buf|
        invariant 0 <= i <= |buf|
        invariant local + Locals(buf[i..]) == Locals(buf)
      {
        NextLocal(local, buf, i);
        if !buf[i].replicated {
          local := local + [buf[i]];
        }
        i := i + 1;
      }
    }

    method RequestExtra(n: int)
      modifies `extraTarget
      ensures extraTarget == Raised(capacity, low, old(extraTarget), n)
      ensures old(extraTarget) <= extraTarget && (n <= capacity - 2 * low ==> n <= extraTarget)
      ensures capacity - 2 * low <= n ==> capacity - 2 * low <= extraTarget
      ensures old(extraTarget) < extraTarget ==> extraTarget <= n && extraTarget <= capacity - 2 * low
    {
      var cap := capacity - 2 * low;
      var wanted := if n < 0 then 0 else n;
      if cap < wanted {
        wanted := cap;
      }
      if extraTarget < wanted {
        extraTarget := wanted;
      }
    }

    method ReleaseExtra()
      modifies `extraTarget
      ensures extraTarget == 0
    {
      extraTarget := 0;
    }

    method DropReplicas(ids: seq<KeyId>)
      modifies `buf, `byId, `withdrawn
      ensures State() == P.DropReplicas(old(State()), capacity, ids)
    {
      var i := 0;
      while i < |ids|
        invariant 0 <= i <= |ids|
        invariant DropEach(State(), ids[i..]) == DropEach(old(State()), ids)
      {
        assert ids[i..][0] == ids[i] && ids[i..][1..] == ids[i + 1..];
        DropReplica(ids[i]);
        i := i + 1;
      }
      TrimWithdrawn();
    }

    /** One turn of the loop over the ids. */
    method DropReplica(id: KeyId)
      modifies `buf, `byId, `withdrawn
      ensures State() == DropOne(old(State()), id)
    {
      if id in byId {
        var k := byId[id];
        byId := byId - {id};
        if k in buf {
          buf := Without(buf, k);
        }
      }
      assert byId == old(byId) - {id};
      if id !in withdrawn {
        withdrawn := withdrawn + [id];
      }
    }

    /** The oldest withdrawn ids are forgotten first. */
    method TrimWithdrawn()
      modifies `withdrawn
      ensures withdrawn == Newest(old(withdrawn), capacity)
    {
      while |withdrawn| > capacity
        invariant |withdrawn| <= |old(withdrawn)|
        invariant withdrawn == old(withdrawn)[|old(withdrawn)| - |withdrawn|..]
        invariant |withdrawn| < |old(withdrawn)| ==> |withdrawn| >= capacity
      {
        withdrawn := withdrawn[1..];
      }
    }
  }

  lemma NextLocal(seen: seq<StoredKey>, buf: seq<StoredKey>, i: nat)
    requires i < |buf|
    ensures seen + Locals(buf[i..]) == (if buf[i].replicated then seen else seen + [buf[i]]) + Locals(buf[i + 1..])
  {
    assert buf[i..][1..] == buf[i + 1..];
  }

  // ------------------------------------------------------------ the producer gate

  /** Everything that can happen to a pool between a request for extra keys and the release. */
  datatype PoolOp =
    | Admitted(key: StoredKey)
    | Synced(id: KeyId, bytes: seq<byte>)
    | Popped
    | Taken(count: nat)
    | Dropped(ids: seq<KeyId>)
    | Requested(n: int)

  datatype Gated = Gated(pool: Pool, extra: nat)

  function Apply(capacity: nat, low: nat, g: Gated, op: PoolOp): Gated
    requires 0 < capacity
  {
    match op
    case Admitted(k) => g.(pool := Admit(g.pool, capacity, k))
    case Synced(id, bytes) => g.(pool := ReceiveSynced(g.pool, capacity, id, bytes))
    case Popped => g.(pool := PopForEnc(g.pool).0)
    case Taken(count) => g.(pool := TakeLocal(g.pool, low, count).0)
    case Dropped(ids) => g.(pool := DropReplicas(g.pool, capacity, ids))
    case Requested(n) => g.(extra := Raised(capacity, low, g.extra, n))
  }

  function ApplyAll(capacity: nat, low: nat, g: Gated, ops: seq<PoolOp>): Gated
    requires 0 < capacity
    decreases ops
  {
    if ops == [] then g else ApplyAll(capacity, low, Apply(capacity, low, g, ops[0]), ops[1..])
  }

  lemma {:induction false} TargetHolds(capacity: nat, low: nat, g: Gated, ops: seq<PoolOp>)
    requires 0 < capacity
    ensures g.extra <= ApplyAll(capacity, low, g, ops).extra
    decreases ops
  {
    if ops != [] {
      TargetHolds(capacity, low, Apply(capacity, low, g, ops[0]), ops[1..]);
    }
  }

  /** No silent starvation: from `request_extra(m)` until `release_extra`, whatever else happens
      to the pool, a sleeping producer means that `take_local_for_stream(m)` is granted and
      leaves the 014 floor; for every chunk size within a share that satisfies the capacity
      inequality of `limits()`. */
  lemma NoSilentStarvation(capacity: nat, low: nat, share: nat, m: nat, g: Gated, ops: seq<PoolOp>)
    requires 0 < capacity && 2 * low + share <= capacity && 0 < m <= share
    ensures var end := ApplyAll(capacity, low, g, [Requested(m)] + ops);
            Rests(end.pool, low, end.extra) ==>
              TakeLocal(end.pool, low, m).1.Some? && |Locals(TakeLocal(end.pool, low, m).0.buf)| >= low
  {
    var all := [Requested(m)] + ops;
    var g1 := Apply(capacity, low, g, all[0]);
    assert all[1..] == ops;
    TargetHolds(capacity, low, g1, ops);
    var end := ApplyAll(capacity, low, g1, ops);
    if Rests(end.pool, low, end.extra) {
      LocalsAfterRemoval(end.pool, m);
    }
  }

  function Filler(n: nat): (buf: seq<StoredKey>)
    ensures |buf| == n && |Locals(buf)| == n
  {
    if n == 0 then [] else [StoredKey(n, [], false)] + Filler(n - 1)
  }

  /** Every producer at rest can serve every chunk the share admits. */
  ghost predicate NeverStarves(capacity: nat, low: nat, share: nat) {
    forall p: Pool, m: nat ::
      |p.buf| <= capacity && 0 < m <= share && Rests(p, low, Raised(capacity, low, 0, m)) ==>
        TakeLocal(p, low, m).1.Some?
  }

  /** The capacity inequality is exactly what this takes, unless nothing is shared or the floor
      alone is out of reach. */
  lemma StarvationCondition(capacity: nat, low: nat, share: nat)
    ensures NeverStarves(capacity, low, share) <==> 2 * low + share <= capacity || share == 0 || low > capacity
  {
    if low <= capacity && 0 < share {
      if 2 * low + share > capacity {
        var target := Raised(capacity, low, 0, share);
        var p := Pool(Filler(low + target), map[], []);
        assert Rests(p, low, Raised(capacity, low, 0, share));
        assert TakeLocal(p, low, share).1.None?;
      }
    } else {
      forall p: Pool ensures |Locals(p.buf)| <= |p.buf| {
        LocalsAreFewer(p.buf);
      }
    }
  }

  lemma LocalsAreFewer(buf: seq<StoredKey>)
    ensures |Locals(buf)| <= |buf|
  {
  }
}
