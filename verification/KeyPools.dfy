/** The shared key pool of one KME (services/bb84-kme/app/keypool.py) as a value.

    A bounded ring buffer of keys, an index by key id that outlives the buffer for keys
    handed out through enc_keys, and a bounded memory of ids withdrawn into key streams.
    `SharedPool` performs these operations in place. */
module KeyPools {

  type KeyId = nat
  type byte = x: int | 0 <= x < 256

  datatype Option<+T> = None | Some(value: T)

  /** `replicated` marks a key received from the peer KME. */
  datatype StoredKey = StoredKey(id: KeyId, bytes: seq<byte>, replicated: bool)

  datatype Pool = Pool(buf: seq<StoredKey>, byId: map<KeyId, StoredKey>, withdrawn: seq<KeyId>)

  function Ids(buf: seq<StoredKey>): set<KeyId> {
    set k | k in buf :: k.id
  }

  predicate DistinctIds(buf: seq<StoredKey>) {
    forall i, j :: 0 <= i < j < |buf| ==> buf[i].id != buf[j].id
  }

  predicate NoDup(ids: seq<KeyId>) {
    forall i, j :: 0 <= i < j < |ids| ==> ids[i] != ids[j]
  }

  function IdsOf(keys: seq<StoredKey>): (ids: seq<KeyId>)
    ensures |ids| == |keys|
    ensures forall i :: 0 <= i < |ids| ==> ids[i] == keys[i].id
  {
    seq(|keys|, i requires 0 <= i < |keys| => keys[i].id)
  }

  // ----------------------------------------------------------------- operations

  /** The keys this KME produced itself, oldest first. */
  function Locals(buf: seq<StoredKey>): seq<StoredKey> {
    if buf == [] then []
    else (if buf[0].replicated then [] else [buf[0]]) + Locals(buf[1..])
  }

  /** `deque.remove`: drops the first entry equal to `k`, if there is one. */
  function Without(buf: seq<StoredKey>, k: StoredKey): seq<StoredKey> {
    if buf == [] then []
    else if buf[0] == k then buf[1..]
    else [buf[0]] + Without(buf[1..], k)
  }

  /** A full ring buffer evicts its oldest key, from the index too. */
  function Admit(p: Pool, capacity: nat, k: StoredKey): Pool
    requires 0 < capacity
  {
    if |p.buf| == capacity then
      p.(buf := p.buf[1..] + [k], byId := (p.byId - {p.buf[0].id})[k.id := k])
    else
      p.(buf := p.buf + [k], byId := p.byId[k.id := k])
  }

  function ReceiveSynced(p: Pool, capacity: nat, id: KeyId, bytes: seq<byte>): Pool
    requires 0 < capacity
  {
    if id in p.byId || id in p.withdrawn then p
    else Admit(p, capacity, StoredKey(id, bytes, true))
  }

  /** The key enc_keys hands out: the oldest local key leaves the buffer, not the index. */
  function PopForEnc(p: Pool): (Pool, Option<StoredKey>) {
    var locals := Locals(p.buf);
    if locals == [] then (p, None)
    else (p.(buf := Without(p.buf, locals[0])), Some(locals[0]))
  }

  function RemoveKeys(p: Pool, keys: seq<StoredKey>): Pool
    decreases keys
  {
    if keys == [] then p
    else RemoveKeys(p.(buf := Without(p.buf, keys[0]), byId := p.byId - {keys[0].id}), keys[1..])
  }

  /** The first `n` local keys, unless fewer than `low` local keys would be left. */
  function TakeLocal(p: Pool, low: nat, n: nat): (Pool, Option<seq<StoredKey>>) {
    var locals := Locals(p.buf);
    if n == 0 || |locals| < n + low then (p, None)
    else (RemoveKeys(p, locals[..n]), Some(locals[..n]))
  }

  /** The producer sleeps: it holds the 014 floor and what was asked for above it. */
  predicate Rests(p: Pool, low: nat, extra: nat) {
    |Locals(p.buf)| >= low + extra
  }

  /** What `request_extra(n)` makes of the target. */
  function Raised(capacity: nat, low: nat, extra: nat, n: int): nat {
    var wanted := if n < 0 then 0 else n;
    var wanted := if capacity - 2 * low < wanted then capacity - 2 * low else wanted;
    if extra < wanted then wanted else extra
  }

  function DropOne(p: Pool, id: KeyId): Pool {
    var buf := if id in p.byId && p.byId[id] in p.buf then Without(p.buf, p.byId[id]) else p.buf;
    Pool(buf, p.byId - {id}, if id in p.withdrawn then p.withdrawn else p.withdrawn + [id])
  }

  function DropEach(p: Pool, ids: seq<KeyId>): Pool
    decreases ids
  {
    if ids == [] then p else DropEach(DropOne(p, ids[0]), ids[1..])
  }

  function Newest(w: seq<KeyId>, capacity: nat): (r: seq<KeyId>) {
    if |w| > capacity then w[|w| - capacity..] else w
  }

  function DropReplicas(p: Pool, capacity: nat, ids: seq<KeyId>): Pool {
    var q := DropEach(p, ids);
    q.(withdrawn := Newest(q.withdrawn, capacity))
  }

  // ----------------------------------------------------------------- invariant

  /** `out` is the set of ids issued by enc_keys and not dropped since. */
  ghost predicate IndexOk(buf: seq<StoredKey>, byId: map<KeyId, StoredKey>, out: set<KeyId>) {
    && DistinctIds(buf)
    && (forall k :: k in buf ==> k.id in byId && byId[k.id] == k)
    && (forall x :: x in byId ==> byId[x].id == x && (byId[x] in buf || x in out))
    && (forall x :: x in out ==> x in byId && byId[x] !in buf)
  }

  ghost predicate Forgotten(w: seq<KeyId>, byId: map<KeyId, StoredKey>) {
    NoDup(w) && forall x :: x in w ==> x !in byId
  }

  ghost predicate PoolOk(p: Pool, capacity: nat, out: set<KeyId>) {
    && |p.buf| <= capacity && |p.withdrawn| <= capacity
    && IndexOk(p.buf, p.byId, out)
    && Forgotten(p.withdrawn, p.byId)
  }

  /** The index holds the buffered ids and the outstanding issued ids, each once. */
  lemma IndexAccounting(p: Pool, capacity: nat, out: set<KeyId>)
    requires PoolOk(p, capacity, out)
    ensures p.byId.Keys == Ids(p.buf) + out && Ids(p.buf) !! out
    ensures |p.byId| == |p.buf| + |out|
  {
    forall x | x in p.byId ensures x in Ids(p.buf) || x in out {
      if p.byId[x] in p.buf { assert p.byId[x].id in Ids(p.buf); }
    }
    forall x | x in Ids(p.buf) ensures x in p.byId {
      var k :| k in p.buf && k.id == x;
    }
    IdsSize(p.buf);
    assert |p.byId.Keys| == |p.byId|;
    assert p.byId.Keys == Ids(p.buf) + out;
  }

  lemma IdsSize(buf: seq<StoredKey>)
    requires DistinctIds(buf)
    ensures |Ids(buf)| == |buf|
  {
    if buf != [] {
      IdsSize(buf[1..]);
      assert buf == [buf[0]] + buf[1..];
      assert Ids(buf) == {buf[0].id} + Ids(buf[1..]);
      forall k | k in buf[1..] ensures k.id != buf[0].id {
        var i :| 0 <= i < |buf[1..]| && buf[1..][i] == k;
        assert buf[i + 1] == k;
      }
    }
  }

  lemma WithoutMembers(buf: seq<StoredKey>, k: StoredKey)
    requires DistinctIds(buf)
    ensures DistinctIds(Without(buf, k))
    ensures |Without(buf, k)| == if k in buf then |buf| - 1 else |buf|
    ensures forall x :: x in Without(buf, k) <==> x in buf && x != k
  {
    if buf != [] {
      var rest := buf[1..];
      assert buf == [buf[0]] + rest;
      if buf[0] == k {
        forall x | x in rest ensures x != k {
          var i :| 0 <= i < |rest| && rest[i] == x;
          assert buf[i + 1] == x;
        }
      } else {
        WithoutMembers(rest, k);
        var w := Without(rest, k);
        forall i | 0 <= i < |w| ensures w[i].id != buf[0].id {
          assert w[i] in rest;
          var j :| 0 <= j < |rest| && rest[j] == w[i];
          assert buf[j + 1] == w[i];
        }
        var r := [buf[0]] + w;
        assert forall i, j :: 0 <= i < j < |r| ==> r[i].id != r[j].id by {
          forall i, j | 0 <= i < j < |r| ensures r[i].id != r[j].id {
            assert r[j] == w[j - 1];
            if i > 0 { assert r[i] == w[i - 1]; }
          }
        }
      }
    }
  }

  lemma LocalsMembers(buf: seq<StoredKey>)
    ensures forall x :: x in Locals(buf) <==> x in buf && !x.replicated
    ensures DistinctIds(buf) ==> DistinctIds(Locals(buf))
  {
    if buf != [] {
      var rest := buf[1..];
      assert buf == [buf[0]] + rest;
      LocalsMembers(rest);
      if DistinctIds(buf) && !buf[0].replicated {
        var l := Locals(rest);
        forall i | 0 <= i < |l| ensures l[i].id != buf[0].id {
          assert l[i] in rest;
          var j :| 0 <= j < |rest| && rest[j] == l[i];
          assert buf[j + 1] == l[i];
        }
        assert DistinctIds([buf[0]] + l);
      }
    }
  }

  lemma AppendOk(buf: seq<StoredKey>, byId: map<KeyId, StoredKey>, out: set<KeyId>, k: StoredKey)
    requires IndexOk(buf, byId, out) && k.id !in byId
    ensures IndexOk(buf + [k], byId[k.id := k], out)
  {
    assert forall x :: x in buf + [k] <==> x in buf || x == k;
  }

  /** The oldest key leaves the buffer and the index together. */
  lemma EvictOk(buf: seq<StoredKey>, byId: map<KeyId, StoredKey>, out: set<KeyId>)
    requires IndexOk(buf, byId, out) && buf != []
    ensures IndexOk(buf[1..], byId - {buf[0].id}, out)
  {
    var gone := buf[0];
    assert buf == [gone] + buf[1..];
    assert gone in buf;
    forall x | x in buf[1..] ensures x in buf && x.id != gone.id {
      var i :| 0 <= i < |buf[1..]| && buf[1..][i] == x;
      assert buf[i + 1] == x;
    }
  }

  lemma AdmitOk(p: Pool, capacity: nat, out: set<KeyId>, k: StoredKey)
    requires 0 < capacity && PoolOk(p, capacity, out)
    requires k.id !in p.byId && k.id !in p.withdrawn
    ensures PoolOk(Admit(p, capacity, k), capacity, out)
  {
    if |p.buf| == capacity {
      EvictOk(p.buf, p.byId, out);
      AppendOk(p.buf[1..], p.byId - {p.buf[0].id}, out, k);
    } else {
      AppendOk(p.buf, p.byId, out, k);
    }
  }

  lemma PopOk(p: Pool, capacity: nat, out: set<KeyId>)
    requires PoolOk(p, capacity, out)
    ensures var (q, got) := PopForEnc(p);
            && (got.None? <==> forall k :: k in p.buf ==> k.replicated)
            && PoolOk(q, capacity, if got.Some? then out + {got.value.id} else out)
            && (got.Some? ==> got.value in p.buf && !got.value.replicated && got.value.id !in out)
  {
    LocalsMembers(p.buf);
    var locals := Locals(p.buf);
    if locals != [] {
      assert locals[0] in locals;
      WithoutMembers(p.buf, locals[0]);
      assert locals[0].id in Ids(p.buf);
    } else {
      assert forall k :: k in p.buf && !k.replicated ==> k in locals;
    }
  }

  lemma RemoveOneOk(buf: seq<StoredKey>, byId: map<KeyId, StoredKey>, out: set<KeyId>, k: StoredKey)
    requires IndexOk(buf, byId, out) && k in buf
    ensures IndexOk(Without(buf, k), byId - {k.id}, out)
    ensures |Without(buf, k)| == |buf| - 1
    ensures forall x :: x in Without(buf, k) <==> x in buf && x != k
    ensures forall x :: x in Without(buf, k) ==> x.id != k.id
  {
    WithoutMembers(buf, k);
  }

  lemma FirstAndRest(keys: seq<StoredKey>)
    requires keys != [] && DistinctIds(keys)
    ensures DistinctIds(keys[1..])
    ensures forall x :: x in keys <==> x == keys[0] || x in keys[1..]
    ensures forall x :: x in keys[1..] ==> x.id != keys[0].id
    ensures Ids(keys) == {keys[0].id} + Ids(keys[1..])
  {
    var rest := keys[1..];
    assert keys == [keys[0]] + rest;
    forall x | x in rest ensures x.id != keys[0].id {
      var i :| 0 <= i < |rest| && rest[i] == x;
      assert keys[i + 1] == x;
    }
  }

  lemma TailStaysBuffered(buf: seq<StoredKey>, byId: map<KeyId, StoredKey>, out: set<KeyId>, keys: seq<StoredKey>)
    requires IndexOk(buf, byId, out) && keys != []
    requires DistinctIds(keys) && forall k :: k in keys ==> k in buf
    ensures keys[0] in buf
    ensures DistinctIds(keys[1..])
    ensures forall x :: x in keys[1..] ==> x in Without(buf, keys[0])
    ensures forall x :: x in keys <==> x == keys[0] || x in keys[1..]
    ensures byId - {keys[0].id} - Ids(keys[1..]) == byId - Ids(keys)
  {
    FirstAndRest(keys);
    RemoveOneOk(buf, byId, out, keys[0]);
  }

  lemma {:induction false} RemoveKeysOk(p: Pool, out: set<KeyId>, keys: seq<StoredKey>)
    requires IndexOk(p.buf, p.byId, out)
    requires DistinctIds(keys) && forall k :: k in keys ==> k in p.buf
    ensures var q := RemoveKeys(p, keys);
            && IndexOk(q.buf, q.byId, out)
            && |q.buf| <= |p.buf|
            && q.withdrawn == p.withdrawn
            && q.byId == p.byId - Ids(keys)
            && forall x :: x in q.buf <==> x in p.buf && x !in keys
    decreases keys
  {
    if keys == [] {
      assert p.byId - Ids(keys) == p.byId;
    } else {
      var k := keys[0];
      TailStaysBuffered(p.buf, p.byId, out, keys);
      RemoveOneOk(p.buf, p.byId, out, k);
      var p1 := p.(buf := Without(p.buf, k), byId := p.byId - {k.id});
      RemoveKeysOk(p1, out, keys[1..]);
    }
  }

  lemma TakeOk(p: Pool, capacity: nat, out: set<KeyId>, low: nat, n: nat)
    requires PoolOk(p, capacity, out)
    ensures var (q, got) := TakeLocal(p, low, n);
            && PoolOk(q, capacity, out)
            && q.withdrawn == p.withdrawn
            && (got.None? ==> q == p)
            && (got.Some? ==>
                  && |got.value| == n && n > 0
                  && DistinctIds(got.value)
                  && q.byId == p.byId - Ids(got.value)
                  && (forall k :: k in got.value ==> k in p.buf && !k.replicated)
                  && (forall x :: x in q.buf <==> x in p.buf && x !in got.value))
  {
    LocalsMembers(p.buf);
    var locals := Locals(p.buf);
    if n != 0 && |locals| >= n + low {
      var taken := locals[..n];
      assert forall k :: k in taken ==> k in locals;
      RemoveKeysOk(p, out, taken);
    }
  }

  /** `take_local_for_stream` never goes below the 014 floor, and only the taken keys go. */
  lemma TakeKeepsFloor(p: Pool, capacity: nat, out: set<KeyId>, low: nat, n: nat)
    requires PoolOk(p, capacity, out)
    ensures var (q, got) := TakeLocal(p, low, n);
            && (got.Some? <==> n > 0 && |Locals(p.buf)| >= n + low)
            && (got.Some? ==> Locals(q.buf) == Locals(p.buf)[n..] && |Locals(q.buf)| >= low)
  {
    if TakeLocal(p, low, n).1.Some? {
      LocalsAfterRemoval(p, n);
    }
  }

  lemma {:induction false} LocalsAfterRemoval(p: Pool, n: nat)
    requires n <= |Locals(p.buf)|
    ensures Locals(RemoveKeys(p, Locals(p.buf)[..n]).buf) == Locals(p.buf)[n..]
    decreases n
  {
    var locals := Locals(p.buf);
    if n > 0 {
      LocalsWithoutFirst(p.buf);
      var p1 := p.(buf := Without(p.buf, locals[0]), byId := p.byId - {locals[0].id});
      assert Locals(p1.buf) == locals[1..];
      assert locals[..n][1..] == Locals(p1.buf)[..n - 1];
      LocalsAfterRemoval(p1, n - 1);
    }
  }

  lemma LocalsWithoutFirst(buf: seq<StoredKey>)
    requires Locals(buf) != []
    ensures Locals(Without(buf, Locals(buf)[0])) == Locals(buf)[1..]
  {
    if buf[0].replicated {
      LocalsWithoutFirst(buf[1..]);
      LocalsMembers(buf[1..]);
      assert Locals(buf)[0] in Locals(buf[1..]);
      assert Without(buf, Locals(buf)[0])[1..] == Without(buf[1..], Locals(buf)[0]);
    }
  }

  // ------------------------------------------------------- withdrawing replicas

  lemma DropOneOk(p: Pool, out: set<KeyId>, id: KeyId)
    requires IndexOk(p.buf, p.byId, out) && Forgotten(p.withdrawn, p.byId)
    ensures var q := DropOne(p, id);
            && IndexOk(q.buf, q.byId, out - {id}) && Forgotten(q.withdrawn, q.byId)
            && |q.buf| <= |p.buf|
            && (forall x :: x in q.buf <==> x in p.buf && x.id != id)
            && (forall x :: x in q.withdrawn <==> x in p.withdrawn || x == id)
  {
    if id in p.byId && p.byId[id] in p.buf {
      WithoutMembers(p.buf, p.byId[id]);
    }
  }

  lemma SplitIds(ids: seq<KeyId>, out: set<KeyId>, byId: map<KeyId, StoredKey>)
    requires ids != []
    ensures forall x :: x in ids <==> x == ids[0] || x in ids[1..]
    ensures out - {ids[0]} - (set x | x in ids[1..]) == out - set x | x in ids
    ensures byId - {ids[0]} - (set x | x in ids[1..]) == byId - set x | x in ids
  {
    assert ids == [ids[0]] + ids[1..];
  }

  lemma {:induction false} DropEachOk(p: Pool, out: set<KeyId>, ids: seq<KeyId>)
    requires IndexOk(p.buf, p.byId, out) && Forgotten(p.withdrawn, p.byId)
    ensures var q := DropEach(p, ids);
            && IndexOk(q.buf, q.byId, out - set x | x in ids) && Forgotten(q.withdrawn, q.byId)
            && |q.buf| <= |p.buf|
            && q.byId == p.byId - (set x | x in ids)
            && (forall x :: x in q.buf <==> x in p.buf && x.id !in ids)
            && p.withdrawn <= q.withdrawn
            && (forall x :: x in q.withdrawn <==> x in p.withdrawn || x in ids)
    decreases ids
  {
    if ids == [] {
      assert out - (set x | x in ids) == out;
      assert p.byId - (set x | x in ids) == p.byId;
    } else {
      SplitIds(ids, out, p.byId);
      DropOneOk(p, out, ids[0]);
      DropEachOk(DropOne(p, ids[0]), out - {ids[0]}, ids[1..]);
    }
  }

  lemma DropReplicasOk(p: Pool, capacity: nat, out: set<KeyId>, ids: seq<KeyId>)
    requires PoolOk(p, capacity, out)
    ensures var q := DropReplicas(p, capacity, ids);
            && PoolOk(q, capacity, out - set x | x in ids)
            && q.byId == p.byId - (set x | x in ids)
            && (forall x :: x in q.buf <==> x in p.buf && x.id !in ids)
  {
    DropEachOk(p, out, ids);
    var w := DropEach(p, ids).withdrawn;
    assert forall x :: x in Newest(w, capacity) ==> x in w;
  }

  /** The ids newly remembered when `ids` are withdrawn. */
  function NewlyWithdrawn(p: Pool, ids: seq<KeyId>): seq<KeyId> {
    var w := DropEach(p, ids).withdrawn;
    if |p.withdrawn| <= |w| then w[|p.withdrawn|..] else []
  }

  /** `history` is the order in which ids were ever first remembered; the pool keeps its tail. */
  ghost predicate Remembers(history: seq<KeyId>, p: Pool, capacity: nat) {
    p.withdrawn == Newest(history, capacity)
  }

  lemma NewestOfAppend(history: seq<KeyId>, new_: seq<KeyId>, capacity: nat)
    ensures Newest(history + new_, capacity) == Newest(Newest(history, capacity) + new_, capacity)
  {
    if |history| > capacity {
      var cut := |history| - capacity;
      assert history + new_ == history[..cut] + (history[cut..] + new_);
    }
  }

  lemma DropKeepsHistory(history: seq<KeyId>, p: Pool, capacity: nat, out: set<KeyId>, ids: seq<KeyId>)
    requires PoolOk(p, capacity, out) && Remembers(history, p, capacity)
    ensures Remembers(history + NewlyWithdrawn(p, ids), DropReplicas(p, capacity, ids), capacity)
    ensures forall x :: x in ids ==> x in history + NewlyWithdrawn(p, ids)
  {
    DropEachOk(p, out, ids);
    NewestOfAppend(history, NewlyWithdrawn(p, ids), capacity);
    assert DropEach(p, ids).withdrawn == p.withdrawn + NewlyWithdrawn(p, ids);
    assert forall x :: x in p.withdrawn ==> x in history;
  }
}
