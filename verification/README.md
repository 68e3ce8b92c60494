# A verified model of the QKD key management, estimation and key rotation code

This project models the parts of the repository whose correctness is an argument over many steps or
many inputs, and proves what they promise:

- two KMEs that hand out identical key streams (ETSI GS QKD 004) from one key pool each, which also
  serves ETSI GS QKD 014;
- the decoy-state and finite-key estimators: that they are bounds, which equations they solve, and
  where they are exact;
- the Toeplitz hash of privacy amplification, as an exactly universal family;
- the strongSwan key writer that rotates RFC 8784 PPKs through charon, over crashes and failing calls;
- a golden-section search, the pairing of log ticks, and a token-bucket rate limiter.

## How the code is modelled

**Key pool.** `KeyPools` gives each operation of `KeyPool` as a function on the ring buffer, the id
index and the memory of withdrawn ids; `SharedPool.KeyPool` is the object with its loops and in-place
updates, and each method is proved to compute that function.

**Key streams.** `KeyStreams` gives the records as values. `StreamObjects` has the classes `Chunk` (a
byte array that is zeroed in place) and `Stream`; `EngineObject.Engine` has the registry, the handlers
that never wait, the parts of get_key and `_obtain` between two waits, on_chunk with the pool free, and
the sweep that deletes while it walks. `Protocol` is the whole system: two KMEs, every handler cut at its
calls to the peer and at its waits for the pool lock, with records as heap objects that suspended
handlers keep using, and a producer that begins a round only when its gate lets it. Messages may be
lost, late, repeated or reordered; a suspended call may fail at any moment and succeeds only on a reply
that was sent; clocks show anything. `Creation` reads off a state which chunk a step will create.
`EngineInProtocol` shows that the handlers of the transition system and the methods of the object have
the same effect on the registry. `Progress` and `Lifecycle` say what each handler does in terms of the
state before it, and that from every reachable state in which nothing stands in the way a key reaches
both applications, and a stream is opened, closed and forgotten on both sides. `PoolOrder` says in
which order a pool gives its keys away.

| handlers of `Protocol` | source |
|---|---|
| `StartRound`, `AbortRound`, `Produce`, `Enc`, and the sync steps | `services/bb84-kme/app/keypool.py:239-360` |
| `OpenNew`, `Join`, `ResumeAnnounce`, `ResumeOpen`, `ResumeEstablish` | `services/bb84-kme/app/etsi004_engine.py:239-307` |
| `GetKey`, `Fetch`, `HandOver` | `services/bb84-kme/app/etsi004_engine.py:309-353` |
| `ObtainLower`, `ObtainHigher`, `TakeNow`, `AskExtra`, `Create`, `Push`, `ResumeTake`, `ResumePush`, `ResumeAllocate` | `services/bb84-kme/app/etsi004_engine.py:452-506` |
| `Close`, `ResumeClose`, `RecvClose` | `services/bb84-kme/app/etsi004_engine.py:355-368` and `435-443` |
| `RecvAnnounce`, `RecvEstablish`, `RecvWithdraw`, `RecvAllocate` | `services/bb84-kme/app/etsi004_engine.py:371-414` |
| `RecvPush`, `ResumeDrop` | `services/bb84-kme/app/etsi004_engine.py:416-433` |
| `Sweep` | `services/bb84-kme/app/etsi004_engine.py:514-534` |

**Estimators.** Exact reals. Gains are limits of power series over all photon numbers; the exponential,
the binary entropy and the sampling term are parameters of which only the stated facts are used. That
the observed counts lie within the Hoeffding deviation of their expectations is a hypothesis.

**Key writer.** `Rotation` is a state machine with one step per remote call, each of which may report
success or failure with or without effect, and a crash step; `KeyWriter.Repository` is the object,
each method proved to be a run of that machine, so what holds in all states of the machine holds
between any two of its calls.

## What the proofs found

- The allocator checks the next index and the pool share before `take_local_for_stream`, which can
  wait for the lock that `_record` holds over the sync to the peer; nothing is checked again after the
  wait. The pool share and the emptiness of closed streams each hold in exactly the runs in which a
  delayed grant still meets its check (`ShareCondition`, `WipedCondition`). So does agreement, if no
  record is re-created (`PlainAgreement`); a re-created record starts its counter again at zero, and
  `AgreementCondition` says for all runs when copies agree. Concrete runs show each failure (`DelayedTakesDisagree`,
  `ShareExceeded`, `ForgottenWithKey`) under a configuration that `limits()` accepts.
- The comment in `pop_for_enc` that eviction bounds the id index is not what the code does: the index
  holds every key ever issued besides the buffer (`IndexSize`) and outgrows any size
  (`IndexUnbounded`).
- The key writer unloads its own live credential if the configured bootstrap id equals a rotation id;
  the configuration check does not exclude that (`SafetyCondition`).
- A QoS that was accepted changes when it is submitted again if a default timeout exceeds its maximum
  (`FixedPointCondition`).

## Assumptions

SAE_IDs are distinct, so one KME allocates; key ids are fresh; the limits do not change. Waiters for a
pool lock may get it in any order, and a newcomer may overtake them; the lock of the program is fair, so
the model has more runs than the program, which makes what holds in all runs stronger. The runs in
`Counterexamples` keep to the order in which the waiters came, and those that `Progress` and `Lifecycle` give
wait for no lock.

charon's credentials change only through the key writer, and get-shared answers truthfully if at all.

## Model

| member | source | states |
|---|---|---|
| `Agreement.AgreementCondition` | services/bb84-kme/app/etsi004_engine.py:470-501 | For every run of the two KMEs: all copies at an index of a Key_stream_ID (in both stores, in every push, in both applications' hands) are equal at its end exactly when each step that got keys for a chunk got them for an index that no record of that id had passed; re-created records included |
| `Agreement.PlainAgreement` | services/bb84-kme/app/etsi004_engine.py:470-492 | In a run that re-creates no record they are equal exactly when every granted `take_local_for_stream` that had waited for the pool lock still finds its index next; the code does not look again after the wait |
| `Agreement.AgreedIffSingle` | services/bb84-kme/app/etsi004_engine.py:487-506 | In every reachable state the copies agree exactly when no index was given two chunks, because every chunk created is pushed |
| `Agreement.AgreedMeans` | services/bb84-kme/app/etsi004_engine.py:309-353 | Where copies agree, the two applications receive the same ids and bytes at an index, and no push is answered with a conflict |
| `Agreement.UndelayedRunAgrees` | services/bb84-kme/app/keypool.py:372-392 | If no take ever waits for the lock that `_record` holds over the sync, and no record is re-created, the copies agree |
| `Agreement.RunsStayWellFormed` | services/bb84-kme/app/etsi004_engine.py:158-171 | Every registry entry and every suspended call refers to an existing record of the right id, so no handler of the model is ever undefined |
| `Creation.StepCreates` | services/bb84-kme/app/etsi004_engine.py:452-506 | Any step of either KME creates exactly the chunk that its guards, read off before the step, grant: it pushes that chunk and advances that record's counter by one; without a grant it leaves the chunks and all counters alone |
| `Agreement.NoConflict` | services/bb84-kme/app/etsi004_engine.py:416-424 | The 409 branch of `on_chunk` is not taken for any push of the allocator, on time, late or repeated, as long as copies agree |
| `Counterexamples.LimitsAccept` | services/bb84-kme/app/etsi004.py:55-62 | The configuration of the runs below is one that `limits()` accepts |
| `Counterexamples.DelayedTakesDisagree` | services/bb84-kme/app/etsi004_engine.py:480-501 | A concrete run without a re-created record: two get_key calls for one index both wait for the pool lock, both are granted, the two applications receive different bytes at one index, and the allocator hands out a chunk the other side never stored |
| `ProtocolInvariant.StepOk` | services/bb84-kme/app/etsi004_engine.py:239-534 | Every step of the two-KME system, in any interleaving and with any loss, keeps the whole invariant |
| `Progress.LowerFirst` | services/bb84-kme/app/etsi004_engine.py:309-506 | From every reachable state in which an index can be served, a run leads to one in which both applications have received it: the allocator's application asks, and both get the ids and bytes of the allocator's oldest local keys |
| `Progress.HigherFirst` | services/bb84-kme/app/etsi004_engine.py:309-506 | The same when the other application asks first and the allocator makes the chunk on its behalf |
| `Progress.ReadyIsHandedOut` | services/bb84-kme/app/etsi004_engine.py:318-350 | get_key that finds the chunk, by its number or as the least index not spent, hands over that chunk's ids and bytes, spends the index and does nothing else |
| `Progress.AllocatedIsHandedOut` | services/bb84-kme/app/etsi004_engine.py:327-350 | So does get_key of the other KME when its allocate call returns |
| `Progress.PushedIsHandedOut` | services/bb84-kme/app/etsi004_engine.py:493-506 | So does the allocator's get_key when its push is acknowledged |
| `Progress.PushedIsReported` | services/bb84-kme/app/etsi004_engine.py:401-414 | When a push made for the peer's allocate call is acknowledged, the chunk is marked as confirmed and the call answered |
| `Progress.FailedCallsGiveNothing` | services/bb84-kme/app/etsi004_engine.py:493-504 | A push or allocate call that fails gives nothing out; one that meets a lost stream also closes and wipes it |
| `Progress.RefusedGetKey` | services/bb84-kme/app/etsi004_engine.py:309-345 | get_key of an unknown, closed or unconnected stream, of a spent index, of one that a gone peer cannot supply or that does not fit the caller's buffer consumes nothing |
| `Progress.RefusedObtain` | services/bb84-kme/app/etsi004_engine.py:469-484 | Out of turn or above the share nothing changes; for lack of keys only the producer's target rises, to what is missing if that can be asked for |
| `Progress.LockOnlyDelays` | services/bb84-kme/app/keypool.py:372-392 | An allocation that meets the pool lock waits, and makes the same chunk once the lock is free |
| `Progress.AllocateAnswers` | services/bb84-kme/app/etsi004_engine.py:401-414 | An allocate call gets nothing of an unknown or closed stream, nor anything new of one closed by its application; a chunk that is there is pushed again, or reported if confirmed |
| `Progress.PushIsStored` | services/bb84-kme/app/etsi004_engine.py:425-433 | A push that finds its index free is stored as confirmed and acknowledged |
| `Progress.OtherPushes` | services/bb84-kme/app/etsi004_engine.py:416-424 | Any other push changes no store; it is acknowledged exactly if its bytes are stored or its index was handed out |
| `Progress.LockedStoreWaits` | services/bb84-kme/app/etsi004_engine.py:425-433 | With the pool lock held the chunk is stored at once, and neither withdrawn nor acknowledged |
| `Progress.WaitedStoreEnds` | services/bb84-kme/app/keypool.py:403-413 | When the lock is free exactly its key ids leave the index, and the push is acknowledged |
| `Lifecycle.CrossingOpens` | services/bb84-kme/app/etsi004_engine.py:239-307 | Both applications open the same predefined stream and the announcements cross: it is established on both KMEs, with nothing handed out |
| `Lifecycle.JoiningOpens` | services/bb84-kme/app/etsi004_engine.py:239-268 | One application opens a stream and the other joins it: the same |
| `Lifecycle.UnannouncedIsStruck` | services/bb84-kme/app/etsi004_engine.py:276-292 | A stream that could not be announced leaves both registries as they were |
| `Lifecycle.UnjoinedIsWithdrawn` | services/bb84-kme/app/etsi004_engine.py:297-306 | A predefined stream that the peer's application never opens is gone from both registries |
| `Lifecycle.BothClose` | services/bb84-kme/app/etsi004_engine.py:355-368 | Both applications close, in either order: both records are closed and empty |
| `Lifecycle.SweepDecides` | services/bb84-kme/app/etsi004_engine.py:514-534 | What a sweep makes of any registered record: forgotten exactly when closed for the longest TTL, closed and wiped exactly when idle for its own, otherwise without exactly its expired chunks |
| `Lifecycle.IdleIsForgotten` | services/bb84-kme/app/etsi004_engine.py:514-534 | A stream that nobody uses is closed by a sweep and forgotten by a later one |
| `Lifecycle.BothResolve` | services/bb84-kme/app/keypool.py:270-369 | From every reachable state in which a round may begin and no local key is held: the key is produced, synced and handed out by enc_keys, and both KMEs resolve its id to its bytes |
| `Lifecycle.EncIssuesOldest` | services/bb84-kme/app/keypool.py:338-360 | enc_keys hands out the oldest local key's id and goes on resolving it; without a local key nothing changes |
| `ProtocolInvariant.RecvPushOk` | services/bb84-kme/app/etsi004_engine.py:416-433 | A pushed chunk, whether refused, repeated or stored, and with the withdrawal at once or still waiting, keeps the invariant |
| `ProtocolInvariant.CreateOk` | services/bb84-kme/app/etsi004_engine.py:480-492 | A chunk created from taken keys keeps the invariant: its keys leave the 014 index, are in no other chunk, and its bytes are theirs in order |
| `ProtocolInvariant.ResumePushOk` | services/bb84-kme/app/etsi004_engine.py:493-506 | A push that was answered, lost, timed out or met a lost stream keeps the invariant, although the confirmed chunk is looked up by index again |
| `ProtocolInvariant.GetKeyOk` | services/bb84-kme/app/etsi004_engine.py:309-353 | get_key up to its suspension or delivery keeps the invariant |
| `ProtocolInvariant.SweepOk` | services/bb84-kme/app/etsi004_engine.py:514-534 | A sweep at any time keeps the invariant |
| `Guarantees.DeliveryDiscipline` | services/bb84-kme/app/etsi004_engine.py:346-350 | As long as copies agree: the allocator hands out an index of a Key_stream_ID at most once over all records it ever kept, holds nothing it has handed out, and hands out only what the other side has stored byte for byte |
| `Guarantees.HigherDeliversOnce` | services/bb84-kme/app/etsi004_engine.py:416-433 | The non-allocating side hands out an index at most once per record, holds nothing it has handed out, and delivers only what a push stored, whatever the allocator did |
| `Guarantees.ChunkShape` | services/bb84-kme/app/etsi004_engine.py:476-492 | Every copy of a chunk has exactly the registered Key_chunk_size, made of distinct keys produced by the allocator, at an index below its record's counter |
| `Guarantees.KeysServeOnePurpose` | services/bb84-kme/app/keypool.py:372-392 | No key is in two chunks, in a chunk and issued by enc_keys on either KME, or in a chunk and resolvable on the allocator |
| `Guarantees.StoredKeysWithdrawn` | services/bb84-kme/app/keypool.py:403-413 | Keys of a stored chunk are unresolvable through dec_keys on the other KME, whichever of replica and chunk came first, once the withdrawal got the lock and until `capacity` newer ids were withdrawn |
| `Guarantees.AcknowledgedIsStored` | services/bb84-kme/app/etsi004_engine.py:416-433 | As long as copies agree, an acknowledged push was stored |
| `Guarantees.SingleMaster` | services/bb84-kme/app/keypool.py:270-369 | enc_keys hands out a key id at most once over both KMEs and only on its producer; dec_keys on either answers with the bytes the key was produced with, or nothing, under any loss, eviction and reordering |
| `Guarantees.IndexSize` | services/bb84-kme/app/keypool.py:303-316 | In every reachable state the id index holds exactly the buffered keys and every key ever issued: eviction does not bound it |
| `Counterexamples.IndexUnbounded` | services/bb84-kme/app/keypool.py:303-360 | For every configuration with a positive floor and every n, a reachable state has more than n ids in the index |
| `PoolShare.ShareCondition` | services/bb84-kme/app/etsi004_engine.py:470-479 | Keys in undelivered chunks stay within the pool share throughout any run exactly when every delayed take that is granted still fits it (or only replaces a chunk); the check before the wait is not repeated |
| `Counterexamples.ShareExceeded` | services/bb84-kme/app/etsi004_engine.py:470-492 | A concrete run: two allocations that each fit beside what is held both wait, both are granted, and more keys are held than the share |
| `PoolShare.ObtainWithinShare` | services/bb84-kme/app/etsi004_engine.py:470-479 | An `_obtain` that does not wait never exceeds the share |
| `PoolShare.TakeNowGains` | services/bb84-kme/app/etsi004_engine.py:480-492 | A granted take raises the keys held by exactly its chunk, less what its index held before |
| `ClosedStores.WipedCondition` | services/bb84-kme/app/etsi004_engine.py:509-512 | Closed streams hold no chunk throughout a run exactly when no delayed take is granted to a stream that was closed while it waited |
| `ClosedStores.ForgottenAreEmpty` | services/bb84-kme/app/etsi004_engine.py:514-522 | In such a state the sweep forgets only records without chunks |
| `Counterexamples.ForgottenWithKey` | services/bb84-kme/app/etsi004_engine.py:480-492 | A concrete run: a stream expires while its allocation waits, the chunk arrives after the wipe, and the sweep forgets the record with the key inside |
| `KeyStreams.NextUndelivered` | services/bb84-kme/app/etsi004_engine.py:446-450 | The least index not delivered |
| `KeyStreams.KeysInSplit` | services/bb84-kme/app/etsi004_engine.py:144-146 | The number of keys held does not depend on the order in which chunks are added up |
| `KeyStreams.ConcatByte` | services/bb84-kme/app/etsi004_engine.py:485-488 | The bytes of a chunk are those of its keys in order: byte j of key i stands at i times the key length plus j |
| `StreamObjects.Chunk.Erase` | services/bb84-kme/app/etsi004_engine.py:116-118 | Every byte of the buffer is zero afterwards, in place |
| `StreamObjects.Stream.NextUndelivered` | services/bb84-kme/app/etsi004_engine.py:446-450 | The counting loop finds the least undelivered index |
| `StreamObjects.Stream.Deliver` | services/bb84-kme/app/etsi004_engine.py:346-350 | The bytes handed out are those stored; the buffer left behind is zeroed, the index spent, nothing else changes |
| `StreamObjects.Stream.Wipe` | services/bb84-kme/app/etsi004_engine.py:139-142 | Every buffer is zeroed before the store is emptied |
| `StreamObjects.Stream.ToClosed` | services/bb84-kme/app/etsi004_engine.py:509-512 | Closing wipes the store, zeroes every buffer, and records the state and time |
| `StreamObjects.Stream.Expire` | services/bb84-kme/app/etsi004_engine.py:529-533 | Exactly the chunks older than the TTL leave, each zeroed; the others are untouched |
| `StreamObjects.Stream.Sweep` | services/bb84-kme/app/etsi004_engine.py:524-533 | A stream that is idle for its TTL is closed, otherwise its old chunks go; what leaves is zeroed |
| `StreamObjects.Stream.Allocate` | services/bb84-kme/app/etsi004_engine.py:488-492 | The new chunk has the taken keys' ids and bytes, unconfirmed, in a buffer of its own; the counter advances by one |
| `StreamObjects.Joined` | services/bb84-kme/app/etsi004_engine.py:485-487 | The appending loop yields the keys' bytes in order |
| `StreamObjects.Stream.Store` | services/bb84-kme/app/etsi004_engine.py:428-429 | A pushed chunk is stored as confirmed, in a buffer of its own |
| `StreamObjects.Stream.Confirm` | services/bb84-kme/app/etsi004_engine.py:505 | Only the confirmation flag of one chunk changes |
| `StreamObjects.Stream.HeldKeys` | services/bb84-kme/app/etsi004_engine.py:144-146 | The loop over the store counts the keys of all chunks |
| `StreamObjects.Stream.PeerClosed` | services/bb84-kme/app/etsi004_engine.py:435-443 | The peer's closing closes this side once its application closed or never opened |
| `EngineObject.Engine.OnClose` | services/bb84-kme/app/etsi004_engine.py:435-443 | On the whole registry only that stream changes, as `PeerClosed` says, and every buffer that leaves its store is zeroed; an unknown id changes nothing |
| `EngineObject.Engine.OnEstablish` | services/bb84-kme/app/etsi004_engine.py:386-394 | Joins exactly a known stream that is neither closed nor closed by its application; otherwise nothing changes |
| `EngineObject.Engine.OnWithdraw` | services/bb84-kme/app/etsi004_engine.py:396-399 | Removes exactly a record that this application never opened |
| `EngineObject.Engine.OnAnnounce` | services/bb84-kme/app/etsi004_engine.py:371-384 | Refused exactly for an id held closed or for another pair; otherwise the one record is created or becomes established on both openings |
| `EngineObject.Engine.OnChunk` | services/bb84-kme/app/etsi004_engine.py:416-433 | The verdict unknown, conflict, repeat or store; only `store` changes anything: the registry at one index of one stream, which it also touches, and the pool, which drops the replicas; with the pool free |
| `StreamObjects.Stream.BeginGetKey` | services/bb84-kme/app/etsi004_engine.py:309-328 | At stream level: which of the ways get_key takes, for an explicit or null index, and that only the activity time changes |
| `EngineObject.Engine.BeginGetKey` | services/bb84-kme/app/etsi004_engine.py:309-328 | On the registry: an unknown or closed stream changes nothing, any other is touched, and the way taken is the one its value determines |
| `EngineObject.Engine.Held` | services/bb84-kme/app/etsi004_engine.py:477 | The sum over all streams' stores, in whatever order they are visited |
| `EngineObject.Engine.ObtainChunk` | services/bb84-kme/app/etsi004_engine.py:469-492 | The allocator's `_obtain` up to the push with the pool free: verdict, registry, pool and extra target afterwards, for all five outcomes |
| `EngineObject.ObtainKeepsShare` | services/bb84-kme/app/etsi004_engine.py:476-492 | A grant raises the keys held by exactly the chunk, stays within the share and leaves the 014 floor; a refusal for lack of keys asks for production that would serve it |
| `EngineObject.Engine.HandOver` | services/bb84-kme/app/etsi004_engine.py:346-350 | The registry changes at one index of one stream; the bytes handed out are those stored, and their buffer is zeroed |
| `EngineObject.Engine.Sweep` | services/bb84-kme/app/etsi004_engine.py:514-534 | Deleting from the registry while walking a copy of it gives the sweep of every record, independent of the order; every buffer that leaves the store of a record is zeroed |
| `EngineInProtocol.PeerCallsMatch` | services/bb84-kme/app/etsi004_engine.py:371-443 | In the transition system on_close, on_withdraw, on_establish and on_announce have the effect on the registry that the object's methods are proved to have |
| `EngineInProtocol.OwnCallsMatch` | services/bb84-kme/app/etsi004_engine.py:309-353 | The same for the way get_key takes on the touched record, for its end, and for the sweep |
| `EngineInProtocol.PushMatches` | services/bb84-kme/app/etsi004_engine.py:416-433 | The same for on_chunk, on registry and pool, or up to its wait for the pool |
| `EngineInProtocol.HeldMatches` | services/bb84-kme/app/etsi004_engine.py:477 | The keys held, added up over records or over the registry, are the same number |
| `EngineInProtocol.ObtainMatches` | services/bb84-kme/app/etsi004_engine.py:469-492 | The transition system's `_obtain` has the effect on registry, pool and extra target that the object's method is proved to have |
| `KeyPools.IndexAccounting` | services/bb84-kme/app/keypool.py:303-413 | The id index is exactly the buffered ids and the outstanding issued ids, each once |
| `KeyPools.AdmitOk` | services/bb84-kme/app/keypool.py:303-316 | Admission, with or without eviction, keeps buffer, index and withdrawn ids consistent |
| `KeyPools.PopOk` | services/bb84-kme/app/keypool.py:338-360 | enc_keys finds nothing exactly when every buffered key is a replica; otherwise one local key leaves the buffer, stays resolvable and counts as issued |
| `KeyPools.TakeOk` | services/bb84-kme/app/keypool.py:372-392 | A granted take removes exactly the taken local keys from buffer and index; a refused one changes nothing |
| `KeyPools.TakeKeepsFloor` | services/bb84-kme/app/keypool.py:372-392 | A take is granted exactly when `low_watermark` local keys remain; it takes the oldest and leaves the others in order |
| `KeyPools.DropReplicasOk` | services/bb84-kme/app/keypool.py:403-413 | Withdrawn ids leave buffer and index and no other key does |
| `KeyPools.DropKeepsHistory` | services/bb84-kme/app/keypool.py:403-413 | What the pool remembers of withdrawn ids is the newest `capacity` of all ids ever withdrawn, in order of first withdrawal |
| `PoolOrder.KeepsNewest` | services/bb84-kme/app/keypool.py:303-316 | After any admissions the ring buffer holds the newest `capacity` keys in order |
| `PoolOrder.PopsOldest` | services/bb84-kme/app/keypool.py:338-360 | enc_keys takes the first key that is not a replica out of its place and leaves all others where they are |
| `PoolOrder.TakesOldest` | services/bb84-kme/app/keypool.py:372-392 | A stream takes the oldest local keys; the other local keys and all replicas stay in order |
| `PoolOrder.IsQueue` | services/bb84-kme/app/keypool.py:303-392 | While the buffer has room and nothing is withdrawn, what is given away followed by what is left is what was there followed by what was produced |
| `PoolOrder.OldestFirst` | services/bb84-kme/app/keypool.py:303-413 | Over any operations local keys are given away in the order of their production, before all that are still held; eviction and withdrawal only leave keys out |
| `SharedPool.KeyPool.constructor` | services/bb84-kme/app/keypool.py:136-162 | A new pool is empty and asks for no extra keys |
| `SharedPool.KeyPool.Insert` | services/bb84-kme/app/keypool.py:303-316 | The three collections afterwards, eviction included |
| `SharedPool.KeyPool.ReceiveSynced` | services/bb84-kme/app/keypool.py:328-336 | A known or withdrawn id changes nothing, any other is admitted as a replica |
| `SharedPool.KeyPool.Dispensable` | services/bb84-kme/app/keypool.py:200-211 | The number of local keys in the buffer |
| `SharedPool.KeyPool.Sleeps` | services/bb84-kme/app/keypool.py:239-245 | The producer rests exactly with the floor and the extra target in local keys |
| `SharedPool.KeyPool.PopForEnc` | services/bb84-kme/app/keypool.py:338-360 | The scan hands out the oldest local key and removes it from the buffer alone |
| `SharedPool.KeyPool.TakeLocalForStream` | services/bb84-kme/app/keypool.py:372-392 | Keys taken and the whole pool afterwards, for any number asked including zero and below |
| `SharedPool.KeyPool.RequestExtra` | services/bb84-kme/app/keypool.py:394-398 | The target rises to what is asked, at most capacity minus twice the floor, and never falls |
| `SharedPool.KeyPool.ReleaseExtra` | services/bb84-kme/app/keypool.py:400-401 | The target returns to zero |
| `SharedPool.KeyPool.DropReplicas` | services/bb84-kme/app/keypool.py:403-413 | The whole pool afterwards, with the oldest withdrawn ids forgotten beyond the capacity |
| `SharedPool.NoSilentStarvation` | services/bb84-kme/app/keypool.py:239-245 | From request_extra(m) until release_extra, whatever happens to the pool, a sleeping producer means that a take of m is granted and leaves the floor |
| `SharedPool.StarvationCondition` | services/bb84-kme/app/etsi004.py:55-62 | The capacity inequality of `limits()` is exactly what this takes, unless nothing is shared or the floor exceeds the buffer |
| `Qos.AcceptedPromises` | services/bb84-kme/app/etsi004_engine.py:195-233 | An accepted stream gets a positive whole number of keys within the share, a minimum rate that measured production can carry beside the reservations, and no maximum above it |
| `Qos.AcceptedExactly` | services/bb84-kme/app/etsi004_engine.py:195-233 | A request is accepted exactly when it asks for a positive whole number of keys within the share, a rate that is left, and the one mimetype |
| `Qos.AcceptedComesBack` | services/bb84-kme/app/etsi004_engine.py:195-233 | An accepted request comes back as it was, with defaults for what is absent or zero, timeouts cut to their maxima and the peak rate to what was measured |
| `Qos.CounterOffer` | services/bb84-kme/app/etsi004_engine.py:209-224 | A refused size is answered with the nearest whole number of keys or the most that fits, a refused rate with the largest whole number that is left, each with its reason |
| `Qos.FixedPointCondition` | services/bb84-kme/app/etsi004_engine.py:195-233 | Every accepted QoS is a fixed point of `_negotiate` exactly when the default timeouts respect the maxima, or nothing can be accepted at all |
| `Qos.ThirdSubmission` | services/bb84-kme/app/etsi004_engine.py:209-233 | Resubmitting each counter-offer is accepted on the third submission at the latest, exactly when the share holds at least one key; otherwise never |
| `Qos.SecondSubmissionCanFail` | services/bb84-kme/app/etsi004_engine.py:209-216 | Three submissions can be needed |
| `Qos.AcceptedNeverStarve` | services/bb84-kme/app/etsi004.py:37-63 | Under the check of `limits()`, no accepted chunk size can starve silently |
| `Series.PowerGap` | services/bb84-kme/app/backends/_skr.py:71-77 | For photon numbers from two on, the two decoy intensities' terms differ by at most the share that the two-photon terms allow |
| `Decoy.PositiveDenominator` | services/bb84-kme/app/backends/_skr.py:58-73 | The denominator is positive exactly when both parts of Ma et al. Eq. (13) hold or both fail |
| `Channel.DenominatorIsNotEnough` | services/bb84-kme/app/backends/_skr.py:62-71 | At mu = 0.5, nu1 = 0.1, nu2 = 0.45 the denominator is positive and the formula of Eq. (18) exceeds the true single-photon yield |
| `Decoy.YieldBound` | services/bb84-kme/app/backends/_skr.py:71-77 | For any non-negative yields, Eq. (18) is at most the single-photon yield, over the whole infinite series |
| `Decoy.ErrorBound` | services/bb84-kme/app/backends/_skr.py:94-99 | The difference of the error gains bounds the single-photon errors from above |
| `Decoy.YieldLowerIsLower` | services/bb84-kme/app/backends/_skr.py:74-80 | The computed yield, clipped at zero, is at most the true one |
| `Decoy.ErrorUpperIsUpper` | services/bb84-kme/app/backends/_skr.py:94-100 | The computed error rate is at least the true one or one half, with and without a second decoy |
| `Decoy.RateIsSound` | services/bb84-kme/app/backends/_skr.py:36-103 | For all settings and any yields behind the gains, the returned rate is non-negative and at most Eq. (1) at the true yield and error rate, written out |
| `DecoyExact.YieldIsExact` | services/bb84-kme/app/backends/_skr.py:71-78 | If no pulse has three or more photons, Eq. (18) is the single-photon yield itself |
| `DecoyExact.ErrorIsExact` | services/bb84-kme/app/backends/_skr.py:94-100 | If no wrong click comes from two or more photons, Eq. (22) is the wrong share of the single-photon clicks or one half, with and without a second decoy |
| `DecoyExact.RateEquations` | services/bb84-kme/app/backends/_skr.py:36-103 | On any gains: the yield solves Eq. (18) and the error rate Eq. (22), both cleared of denominators; the rate is Eq. (1) at them with the error rate cut to [0, 1/2], and zero without a positive yield |
| `DecoyExact.UnorderedGivesNothing` | services/bb84-kme/app/backends/_skr.py:69-70 | Outside Eq. (13) the rate is zero |
| `DecoyExact.RateIsExact` | services/bb84-kme/app/backends/_skr.py:36-103 | On the statistics above nothing is lost: the rate is Eq. (1) at the true yield and error rate, or zero |
| `Channel.ChannelExplains` | services/bb84-kme/app/backends/_skr.py:23-33 | The channel's gains and error rates are those of explicit non-negative n-photon yields, so the bounds apply to it |
| `Channel.SkrIsSound` | services/bb84-kme/app/backends/_skr.py:23-103 | `asymptotic_skr_per_pulse` on its own channel is at most Eq. (1) at the channel's single-photon yield y0 + eta and its error rate |
| `DecoyExact.SkrEquations` | services/bb84-kme/app/backends/_skr.py:23-103 | `asymptotic_skr_per_pulse` on its own channel: the gains are its clicks, the error gains its wrong clicks, and the rate is what they determine |
| `FiniteKey.TauIsPositive` | services/bb84-kme/app/backends/_skr.py:176-184 | Every photon number has a positive probability |
| `FiniteKey.BracketHolds` | services/bb84-kme/app/backends/_skr.py:209-220 | After scaling and clipping, the true count lies between the two brackets |
| `FiniteKey.VacuumBound` | services/bb84-kme/app/backends/_skr.py:234 | The weaker intensities' counts bound the vacuum contribution from above |
| `FiniteKey.VacuumIsSound` | services/bb84-kme/app/backends/_skr.py:234-235 | s_0 is at most the number of vacuum detections, after every clip |
| `FiniteKey.SingleIsSound` | services/bb84-kme/app/backends/_skr.py:240-245 | s_1, with the lower s_0 substituted, is at most the number of single-photon detections, after every clip |
| `FiniteKey.ErrorsAreSound` | services/bb84-kme/app/backends/_skr.py:248-256 | v_1 is at least the number of single-photon bit errors |
| `FiniteKey.ErrorRatio` | services/bb84-kme/app/backends/_skr.py:279-288 | The error ratio used is at least the true one and at most one, also when v_1 had to be capped by s_1 |
| `FiniteKey.PhaseIsSound` | services/bb84-kme/app/backends/_skr.py:279-288 | The phase error rate used is at least the true one if that obeys the sampling theorem at the true counts: the code takes too many errors, among too few bits, for too few bits |
| `FiniteKey.LengthIsSound` | services/bb84-kme/app/backends/_skr.py:259-299 | The computed length is zero, or together with leak and penalty at most s_0 + s_1 (1 - h(phi)) of the true counts and phase error rate, if that rate obeys the sampling theorem at the true counts; and zero where the true detections do not exceed the cost |
| `FiniteKeyExact.BracketEquations` | services/bb84-kme/app/backends/_skr.py:209-220 | A bracket times the intensity's probability is e^k times the count moved by the deviation and kept in range |
| `FiniteKeyExact.VacuumEquations` | services/bb84-kme/app/backends/_skr.py:234-235 | On all counts, s_0 is the solution of Eq. (2) cleared of its denominator, kept in range |
| `FiniteKeyExact.SingleEquations` | services/bb84-kme/app/backends/_skr.py:240-245 | On all counts, s_1 is the solution of Eq. (3) cleared of its denominators, kept in range, and zero without a positive denominator |
| `FiniteKeyExact.ErrorsEquations` | services/bb84-kme/app/backends/_skr.py:248-256 | On all counts, v_1 is the solution of Eq. (4) cleared of its denominator, or zero |
| `FiniteKeyExact.PhaseEquation` | services/bb84-kme/app/backends/_skr.py:279-288 | The phase error rate is the capped ratio plus the sampling term, at most one half, and one half without single photons |
| `FiniteKeyExact.LengthEquation` | services/bb84-kme/app/backends/_skr.py:277-294 | A key comes out exactly when s_0 + s_1 (1 - h(phi)) exceeds leak and penalty, and then it is the difference |
| `FiniteKeyExact.SharesAddUp` | services/bb84-kme/app/backends/_skr.py:176-184 | The three intensities' shares of the n-photon detections add up to them, so tau_n is the probability of an n-photon pulse |
| `FiniteKeyExact.VacuumIsExact` | services/bb84-kme/app/backends/_skr.py:234-235 | On pulses of at most one photon and without deviation, s_0 is the number of vacuum detections |
| `FiniteKeyExact.SingleIsExact` | services/bb84-kme/app/backends/_skr.py:240-245 | The same for s_1 and single-photon detections |
| `FiniteKeyExact.ErrorsAreExact` | services/bb84-kme/app/backends/_skr.py:248-256 | The same for v_1 and single-photon bit errors |
| `FiniteKeyExact.LengthIsExact` | services/bb84-kme/app/backends/_skr.py:259-299 | On such detections the length is what the true numbers are worth less the cost, or zero |
| `PrivacyAmplification.ToeplitzHash` | services/bb84-kme/app/bb84/reconciliation.py:39-45 | The two loops compute the matrix product over GF(2) |
| `PrivacyAmplification.HashBit` | services/bb84-kme/app/bb84/reconciliation.py:42-45 | An output bit is set when an odd number of input bits meet set bits of the random vector from its position on |
| `PrivacyAmplification.HashIsLinear` | services/bb84-kme/app/bb84/reconciliation.py:29-45 | The hash of a sum is the sum of the hashes |
| `PrivacyAmplification.VectorsCount` | services/bb84-kme/app/bb84/reconciliation.py:40-41 | There are 2^k random vectors of k bits |
| `PrivacyAmplification.ExactlyUniversal` | services/bb84-kme/app/bb84/reconciliation.py:29-45 | A non-zero input of n bits is hashed to any given output by exactly 2^(n-1) of the 2^(n+out_len-1) random vectors |
| `PrivacyAmplification.XorUniversal` | services/bb84-kme/app/bb84/reconciliation.py:29-45 | Two different inputs differ by any given amount after hashing under exactly 2^(n-1) random vectors |
| `Reconciliation.TenthIsDisclosed` | services/bb84-kme/app/bb84/reconciliation.py:76-78 | A tenth of the block is disclosed, but at least 16 bits; a block of 16 bits or fewer is refused |
| `Reconciliation.DropSample` | services/bb84-kme/app/bb84/reconciliation.py:88-92 | The mask array drops exactly the disclosed positions and keeps the order |
| `Reconciliation.CountMismatches` | services/bb84-kme/app/bb84/reconciliation.py:81-83 | The result is the size of the set of sampled positions at which the two sides differ |
| `Reconciliation.UndisclosedAt` | services/bb84-kme/app/bb84/reconciliation.py:88-92 | An undisclosed bit stands where the disclosed ones before it leave it |
| `Reconciliation.Reconcile` | services/bb84-kme/app/bb84/reconciliation.py:48-119 | Unequal lengths are an error; otherwise the decision, QBER, leak and packed key |
| `Reconciliation.PackingRoundTrip` | services/bb84-kme/app/bb84/reconciliation.py:117-119 | Unpacking the packed bytes gives the bits back, filled with zeros to a whole byte |
| `Reconciliation.PackedBit` | services/bb84-kme/app/bb84/reconciliation.py:117-119 | Bit i of the packed bytes, counted from the most significant bit of the first, is bit i |
| `Reconciliation.LeakAccounting` | services/bb84-kme/app/bb84/reconciliation.py:69-119 | QBER times sample size is the number of sampled positions that differ; a block is accepted exactly when the QBER is within the threshold and the unrounded leak, the output, the sample and 64 bits fit into it; the leak reported is the unrounded one, rounded up, or zero if it was refused for its QBER |
| `Reconciliation.KeyBitMeans` | services/bb84-kme/app/bb84/reconciliation.py:42-45 | Bit i of an accepted key, most significant first, is set when an odd number of undisclosed bits coincide with set bits of the random vector from i on |
| `Reconciliation.KeyIgnoresDisclosed` | services/bb84-kme/app/bb84/reconciliation.py:88-119 | The key does not depend on disclosed bits or on the other side's bits |
| `Numerals.FormatRoundTrip` | services/arnika-vici/repositories/swanvici/vici.go:256 | Parsing undoes formatting, over the whole 64-bit range |
| `Numerals.FormatIsShortest` | services/arnika-vici/repositories/swanvici/vici.go:349 | No leading zero is written, so the round trip fixes what is written |
| `Numerals.ParsedNumerals` | services/arnika-vici/repositories/swanvici/vici.go:256-259 | Out of range nothing is parsed |
| `Numerals.SignedNumerals` | services/arnika-vici/repositories/swanvici/vici.go:676-679 | Atoi reads a sign, over its whole range; ParseUint does not |
| `Adoption.OwnedMeans` | services/arnika-vici/repositories/swanvici/vici.go:252-262 | An id belongs to the adapter exactly when it is the prefix, a dash and digits of a number of 64 bits |
| `Adoption.Reconcile` | services/arnika-vici/repositories/swanvici/vici.go:248-271 | The loop computes the adopted id and the list to unload |
| `Adoption.AdoptsLargest` | services/arnika-vici/repositories/swanvici/vici.go:263-275 | The adopted id has the largest generation of all owned ids; only generation 0 is never adopted |
| `Adoption.UnloadsTheRest` | services/arnika-vici/repositories/swanvici/vici.go:252-271 | Every other owned id is listed for unloading exactly as often as charon lists it; foreign and non-numeric ids never are |
| `Adoption.NextIsNew` | services/arnika-vici/repositories/swanvici/vici.go:349 | The id formed next differs from the adopted one, wrap-around included |
| `Adoption.NewestSAID` | services/arnika-vici/repositories/swanvici/vici.go:673-685 | The numeric maximum, or the first id when none is a number from zero up |
| `Adoption.NewestOfNumbers` | services/arnika-vici/repositories/swanvici/vici.go:673-685 | Of ids that are plain numbers it is the largest |
| `Rotation.RotationIsSafe` | services/arnika-vici/repositories/swanvici/vici.go:328-454 | In every state of every run, with any call failing with or without effect and any crash: the recorded credential is loaded, owned credentials are the recorded, the next, and those whose unloading failed or is pending, `bootstrapRetired` means absent, and generations of successes grow over restarts unless the counter wraps |
| `Rotation.KeptGrows` | services/arnika-vici/repositories/swanvici/vici.go:280-288 | An id is excused from that only by an unloading without effect of that very id, or as generation 0 at a restart |
| `Rotation.NothingPilesUp` | services/arnika-vici/repositories/swanvici/vici.go:328-389 | After a restart that adopts a credential, while unloadings take effect, between rotations no owned credential is loaded besides the recorded one and the one of a rotation that failed |
| `Rotation.SafetyCondition` | services/arnika-vici/repositories/swanvici/vici.go:143-161 | The recorded credential stays loaded in all runs exactly when the configured bootstrap id is none of the rotation ids, which `validate` does not check |
| `Rotation.StepOk` | services/arnika-vici/repositories/swanvici/vici.go:242-454 | Every remote call, in whatever way it goes, and every crash keeps the invariant |
| `Rotation.BootOk` | services/arnika-vici/repositories/swanvici/vici.go:242-277 | A restart over whatever credentials are left re-establishes it |
| `KeyWriter.NewRepository` | services/arnika-vici/repositories/swanvici/vici.go:194-225 | There is a repository exactly when the settings are valid, the socket and version answer and the credentials could be listed; it is then the end of a run of the state machine from the restart to idle, and otherwise charon is as before |
| `KeyWriter.Repository.Reconcile` | services/arnika-vici/repositories/swanvici/vici.go:242-290 | On a new process, a run of the state machine from the restart to idle: the largest generation is adopted, only owned credentials go, and if every unloading takes effect the adopted one is the only owned one left |
| `KeyWriter.Repository.SetPSK` | services/arnika-vici/repositories/swanvici/vici.go:328-389 | A run of the state machine that succeeds exactly under the conditions listed; then charon holds what it held and the new credential, without the replaced one and the bootstrap one as far as their unloadings took effect; on error it holds at most the new one more, and counter and recorded id stay |
| `KeyWriter.Repository.CleanUp` | services/arnika-vici/repositories/swanvici/vici.go:375-384 | Exactly the replaced credential and the bootstrap one leave, as far as their unloadings take effect |
| `KeyWriter.Repository.Reauthenticate` | services/arnika-vici/repositories/swanvici/vici.go:569-666 | Fails exactly when list-sas does, or an SA exists and rekey fails or matches none; the SA chosen is the newest; with no SA, initiate never fails the rotation |
| `KeyWriter.Repository.AssertLoaded` | services/arnika-vici/repositories/swanvici/vici.go:522-533 | Succeeds exactly when get-shared answers and lists the id |
| `KeyWriter.Repository.RetireBootstrap` | services/arnika-vici/repositories/swanvici/vici.go:398-454 | A run of the state machine from the unload to idle; it latches exactly when the unloading reported success and a listing lacks the id |
| `KeyWriter.Charon.GetShared` | services/arnika-vici/repositories/swanvici/vici.go:536-557 | A listing of the credential set, in any order, without repetition |
| `GoldenSection.Refine` | tools/protocol_rates.py:146-160 | The loop keeps the probes at the golden positions and their values, narrows by phi each time, and keeps a peak in the bracket for all 48 steps |
| `GoldenSection.PeakNearBest` | tools/protocol_rates.py:136-145 | A single peak lies between the neighbours of the best grid point |
| `GoldenSection.BestOver` | tools/protocol_rates.py:134-161 | For any function the result is a real sample at least as good as all 61 grid points; for one with a single peak it is within phi^48 of the grid neighbourhood's width of the peak, the fallback to the grid included |
| `GoldenSection.MaxDistance` | tools/protocol_rates.py:189-203 | Key at the length before rounding and none at some length at most 0.1 km further, or key nowhere, or key at the top; the result is that length rounded to the nearest tenth; for rates that fall off with the length it is where key ends |
| `TickPairing.NearestIsNearest` | scripts/ppk_race_report.py:765-769 | The two candidates around the insertion point contain a nearest entry of the whole list, the first such one unless repeated |
| `TickPairing.NearestIsMonotone` | scripts/ppk_race_report.py:765-769 | A later time never has an earlier nearest entry |
| `TickPairing.PairTicks` | scripts/ppk_race_report.py:772-787 | Exactly the mutual nearest pairs under half the spacing are paired, each entry at most once and in order |
| `TickPairing.StrictlyNearestArePaired` | scripts/ppk_race_report.py:775-786 | Entries strictly nearer to each other than to anything else are mutual, whatever else the logs contain |
| `RateLimiter.Limiter.constructor` | services/webui-backend/app/main.py:138-140 | No client is known at first |
| `RateLimiter.Limiter.Admit` | services/webui-backend/app/main.py:270-281 | The client's bucket afterwards and the answer; other clients' buckets and non-mutating requests are untouched |
| `RateLimiter.WindowBound` | services/webui-backend/app/main.py:273-280 | In any window of any history, (passed - MAX) * WINDOW is at most MAX times the window's length |
| `RateLimiter.PassesExactly` | services/webui-backend/app/main.py:273-280 | A request passes exactly when, with those that passed before, it fits into what the first bucket held and what was earned, and from each earlier request on into MAX and what was earned since |
| `RateLimiter.BurstPasses` | services/webui-backend/app/main.py:273-280 | From a full bucket MAX requests pass, however close together |
| `RateLimiter.SpacedNeverRefused` | services/webui-backend/app/main.py:273-280 | A client whose requests are WINDOW/MAX apart is never refused, whatever its bucket held |
| `RateLimiter.FirstRequest` | services/webui-backend/app/main.py:273-280 | A new client's first request is let through exactly when MAX is at least one |

## Left out

- Guarantees.DeliveryDiscipline: needs agreement, without which `DelayedTakesDisagree` breaks it.
- Guarantees.AcknowledgedIsStored: needs agreement: a push for an index that was already delivered is acknowledged whatever chunk was stored there.
- Guarantees.HigherDeliversOnce: is per record; a push repeated after a record was re-created is stored again.
- Guarantees.StoredKeysWithdrawn: says nothing while the withdrawal still waits for the pool lock, nor after `capacity` newer ids were withdrawn, because the code promises nothing then.
- PoolShare.ShareCondition: does not cover the other KME's store, to which the share does not apply.
- FiniteKey.LengthIsSound: takes the theorem on sampling without replacement as a hypothesis, at the true counts and with a bound that is monotone; the numeric form of the code's term is a parameter, and so are the leak and the penalty.
- FiniteKey.VacuumIsSound: takes the expectations to lie in the bracket; Hoeffding's inequality as a statement of probability is not modelled.
- Channel.SkrIsSound: is over exact reals; floating-point rounding is not modelled.
- KeyWriter.Repository.SetPSK: leaves out the deadlines of the calls; a call that times out is one that fails.
- EngineObject.Engine.OnChunk: is the case in which the pool lock is free; the wait for it is in `Protocol`.
- EngineObject.Engine.Sweep: does not zero what a forgotten record still holds, because the code does not; `ForgottenWithKey` shows that this happens.
- EngineObject.Engine.ObtainChunk: is the case in which the pool lock is free; the wait for it is in `Protocol`.
- Suspension: a method cannot be suspended half-way, so the handlers that wait (open_connect, get_key, close, on_allocate, `_obtain`) are whole only in `Protocol`, on values; open_connect, close and on_allocate have no method.
- Status codes, transition ids, metadata and the stream limit of open_connect; refused and failed calls change nothing and are not told apart beyond that.
- Negative answers of the peer are modelled as failures that may come at any time, which includes them.
- HTTP, FastAPI and Flask routing, configuration reload, logging, metrics and statistics of the pool.
- The quantum backends and random number generators: a round is a fresh key, or none.
- The numeric rate and gain formulas of `tools/protocol_rates.py`, and its Bessel series.
- Parsing of logs, and everything of the user interface.
