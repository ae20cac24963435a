# rusquitto, verified

rusquitto is an MQTT 5 broker that gives each core its own shard: a single-threaded state
machine with its own sessions, topic index and log, joined to the other shards by a mesh of
queues. This project models the parts of it whose correctness is about whole runs, and
proves what they promise.

| file | what it models |
|---|---|
| `Types`, `Order` | messages, sessions, subscriptions; sorted listings of names |
| `Topics`, `Trie`, `IndexRuns` | filter matching and subsumption; the wildcard trie and its histories |
| `ShardModel`, `Generations`, `ShardState` | a shard as a value with fifteen operations; generation safety over runs; the shard object, each method one step (or a run of steps) of the value |
| `Deliveries`, `Subscriptions`, `Resumption`, `Wills` | what the operations amount to: mailboxes and queues, subscriptions, closing and resuming, delayed wills |
| `Registry`, `ParkingProtocol`, `DormantSockets`, `ParkedSpell` | the slab of parked sockets; parking, waking and closing as a protocol; that no socket is forgotten; a spell in the registry from both sides |
| `Utf8`, `Codec`, `SessionCodec`, `DiskReader`, `Wal` | the on-disk bytes: writers, decoders, the cursor that reads them, the log and its replay |
| `CrashConsistency` | the log task beside a live shard, and dying at any moment |
| `Membership`, `MovingMembers` | replicated group membership; the same when clients move between shards |
| `SharedPick`, `Routing` | the pick of one group member, fan-out |
| `GroupFilters`, `GroupRuns` | groups whose members filter differently: when a message reaches exactly one of them |
| `Migration` | sessions moving between shards |
| `PacketIds`, `Outbound`, `Acknowledgements`, `InboundQos2`, `Connection` | one connection: window, order, aliases, packet ids, acknowledgements, QoS 2; and the connection object |
| `WebSocket` | frame decoding and the stream it yields |

How the model stands to the code:

- A `HashMap` is walked in no particular order: methods choose freely, and specifications
  quantify over every order.
- Time is a non-decreasing count of nanoseconds; a timeout is a step that may happen at any time.
- The write-ahead log, parking and the mesh are switched on.
- A PUBLISH is a value with a byte form; the packet library is a pair of functions, assumed
  only to read back what it wrote (at QoS 0 without a packet id, which has no place there). The shared-pick hash and the encoder's packet sizes are
  arbitrary fixed functions.
- Generations are unbounded; the registry's 32-bit tags, 16-bit packet ids, length prefixes
  and the round-robin cursor wrap or truncate as in the code.

Where the code does not do what one would hope, the project says exactly when it does:

- `src/broker/messages.rs:32-35` calls membership broadcasts best-effort. The code sends them
  through the reliable FIFO outbox (`src/broker/shard/mesh.rs:91-107`); the model follows the code.
- Clean Start over a connected group member, and a claim of one, end a membership without a
  Leave; `Membership.ActTells` gives all such cases as an if-and-only-if.
- Shedding, shutdown and subscriptions on a suspended session change durable state without a
  mark; `CrashConsistency.ActLogs` and `ConsistentRunsAreSafe` are if-and-only-ifs, and
  `SheddingLosesSession` and `LateSubscribeIsNotLogged` show what it costs.
- A dirty session that cannot be encoded is dropped from the batch together with its mark;
  `ShardState.ShardState.TakeWalBatch`.
- Re-parking over an old registry entry breaks the registry; `Registry.ParkKeepsValid` and
  `ParkingProtocol.NextKeepsInv` are if-and-only-ifs, and `CollisionLosesWakeup` shows what it costs.
- Reopening a torn log appends behind the torn bytes, which can hide records or make up one;
  `Wal.TornTailCompletes`.
- The group view ignores topics; `GroupFilters.PicksOnceExactlyWhen`. With no member connected,
  several shards may pick; `SharedPick.PicksOnceWhen`.
- A Join and a Leave from different shards are not ordered: a client that moves can be missed;
  `MovingMembers.AlwaysEndsExactlyWhen` and `MoveCanForgetMember`.
- Closing or taking over a connection loses what it has not yet taken from its mailbox;
  `Resumption.MailIsForgotten`. Taking one over also loses what it had stored; `InboundQos2.TurnIs`.
- A string longer than 65535 bytes of UTF-8 does not come back; `Codec.StrReads`.
- Migration can lose a session; `Migration.LostExactlyWhen` says at which steps, and
  `CrossedClaimsLoseBoth` and `SecondConnectLosesState` show two ways.
- `filter_subsumes` misses three true inclusions between the topics that can be published, and
  grants `$` filters under a leading wildcard; `Topics.SubsumesDecidesCoversNonEmpty`.

## Model

| member | source | states |
|---|---|---|
| `Topics.LevelsMatchIsStandard` | src/broker/topics/trie.rs:94-112 | the level-by-level walk agrees with a declarative reading of MQTT matching: a fixed part that agrees level by level, then nothing or `#` |
| `Topics.FilterMatches` | src/broker/topics/trie.rs:94-112 | the loop returns whether the filter matches the topic, with the `$` exception for a leading wildcard |
| `Topics.ValidSubscribeFilter` | src/protocol.rs:75-93 | the loop accepts exactly the well-formed filters: not empty, at most 65535 bytes of UTF-8 and the level limit, no null character, `#` alone and last, `+` alone in its level |
| `Topics.FilterSubsumes` | src/broker/topics/trie.rs:64-89 | the loop returns whether the rule subsumes the request level by level |
| `Topics.SubsumesSound` | src/broker/topics/trie.rs:64-89 | subsumption carries over to every topic: what the request matches, the rule matches |
| `Topics.SubsumesDecidesCovers` | src/broker/topics/trie.rs:64-112 | for valid filters, inclusion over all wildcard-free topics, the empty one among them, holds exactly when the procedure says so and the request is not a `$` filter under a wildcard-first rule, or in the one pair (`+/#` over `#`) it misses |
| `Topics.SubsumesDecidesCoversNonEmpty` | src/broker/topics/trie.rs:64-112 | over the non-empty topics, the only ones that can be published, the same with three missed pairs: `+/#` over `#`, and `/+/#` and `+/+/#` over `/#` |
| `Trie.NodesAreLivePrefixes` | src/broker/topics/trie.rs:127-214 | with pruning, a node exists exactly at the prefixes of live filters |
| `Trie.MatchRefinesFlatTest` | src/broker/topics/trie.rs:94-112 | the subscribers a topic reaches are the lists of distinct stored filters, exactly those that pass the flat test |
| `Trie.MatchIsTableScan` | src/broker/topics/trie.rs:327-359 | a subscription is found exactly when the table holds it under some filter that matches the topic |
| `Trie.TopicTrie.Add` | src/broker/topics/trie.rs:153-172 | adding replaces the entry with the same filter, client and group, keeps the tree valid, and reports whether it was new |
| `Trie.TopicTrie.Delete` | src/broker/topics/trie.rs:177-200 | removes exactly that entry, prunes, and reports whether anything went |
| `Trie.TopicTrie.TakeClient` | src/broker/topics/trie.rs:204-278 | removes all of a client's entries and returns each exactly once |
| `Trie.TopicTrie.ClientSubscriptions` | src/broker/topics/trie.rs:229-254 | lists a client's entries, each exactly once |
| `Trie.TopicTrie.Matching` | src/broker/topics/trie.rs:327-359 | the recursive walk returns the specified match list |
| `IndexRuns.IndexHoldsTable` | src/broker/topics/trie.rs:153-214 | after any history of inserts and removals the tree is valid and stands for the flat table that history leaves |
| `IndexRuns.FindsEachMatchOnce` | src/broker/topics/trie.rs:94-112 | after any history with valid filters, a wildcard-free topic finds each live subscription whose filter matches exactly once, and nothing else |
| `IndexRuns.NodesFollowTheTable` | src/broker/topics/trie.rs:177-214 | after any history the nodes are exactly the prefixes of live filters: nothing leaks |
| `Order.Sort` | src/broker/shard.rs:433-443 | lists a set of names in increasing order; the listing is unique |
| `ShardModel.StepIsLocal` | src/broker/shard.rs:190-509 | an operation replaces its own client's part of the table and leaves every other client's alone |
| `ShardModel.PushKeepsNewest` | src/broker/shard/routing.rs:309-333 | the queue keeps its newest messages in order, losing the oldest only when full |
| `ShardModel.LatestIsAll` | src/broker/shard.rs:647-665 | storing a list of subscriptions in turn keeps all of them exactly if equal filter and group mean equal subscriptions; else the last of each counts |
| `ShardModel.LatestIsLast` | src/broker/shard.rs:647-665 | of the subscriptions in a list with the same filter and group, exactly the last one is stored |
| `Generations.DeadGenerationsStayDead` | src/broker/shard.rs:190-256 | over any run, a generation already handed out is current at the end only if it was at the start |
| `Generations.GenerationsIncrease` | src/broker/shard.rs:190-192 | a later open, of any client, gets a strictly larger generation |
| `Generations.LateActionsAreNoOps` | src/broker/shard.rs:279-358 | close, park, reattach, suspend and arm-will under a dead generation leave the whole shard unchanged, whatever happened in between |
| `Deliveries.ConnectedGathers` | src/broker/shard/routing.rs:295-303 | whatever is delivered to a connected session, its mailbox ends as the oldest of what waited and what came, in order, up to the limit, and nothing else changes |
| `Deliveries.SuspendedGathers` | src/broker/shard/routing.rs:321-341 | a suspended session ends with the newest of its queue and the deliveries above QoS 0, in order, marked for the log exactly if there was one, and nothing else changes |
| `Deliveries.ParkedGathers` | src/broker/shard/routing.rs:304-320 | a parked session ends with the newest of its queue and all deliveries, in order, and nothing else changes |
| `Deliveries.MailboxIsFifo` | src/broker/shard/routing.rs:295-303 | over any interleaving of deliveries and receipts, what was taken and what still waits is, in order, what waited at the start and what found room |
| `Resumption.ResumesWhereClosed` | src/broker/shard.rs:464-509 | round trip: a session closed with a snapshot and held messages, whatever happens then, is resumable exactly if no other shard claimed it and no sweep came after its expiry; the next connection gets that very snapshot, and, in order, what was held, what was queued, and the newest of what was delivered above QoS 0 |
| `Resumption.ResumesWhereSuspended` | src/broker/shard.rs:330-358 | the same for a parked session whose socket is closed |
| `Resumption.ReconnectingCarriesOn` | src/server/connection.rs:659-673 | over two connections: the second first sends again each message the first had in flight, once, and counts among its deliveries, in order, those the first held and the newest made meanwhile |
| `Resumption.MailIsForgotten` | src/broker/shard.rs:464-489 | what a connection has not taken from its mailbox when it closes or is taken over leaves no trace: the shard and the next handle are the same whatever waited there |
| `Resumption.StartsWithNothing` | src/broker/shard.rs:235-256 | there is something to resume exactly without Clean Start and with a session; otherwise the connection starts with nothing |
| `Wills.WillIsPublishedOnce` | src/broker/shard.rs:733-784 | a will armed on a closed session is published exactly once while the client stays away, if and only if some sweep comes after its delay or after the session's expiry |
| `Wills.ReturningCancelsWill` | src/broker/shard.rs:205-216 | a client that comes back has no will pending |
| `Subscriptions.LastWordCounts` | src/broker/shard.rs:386-443 | as long as the session lasts, through any operations, the client has under each filter and group what it last subscribed to, nothing if it last unsubscribed, and otherwise what it had |
| `Subscriptions.CleanStartClears` | src/broker/shard.rs:194-203 | a Clean Start leaves no subscription |
| `ShardState.ShardState.OpenSession` | src/broker/shard.rs:190-256 | is one Open step, and returns what `HandleOf` says, which `Resumption.ResumesWhereClosed` describes |
| `ShardState.ShardState.ParkSession` | src/broker/shard.rs:279-294 | is one Park step; succeeds exactly for the current generation with a live mailbox |
| `ShardState.ShardState.ReattachParked` | src/broker/shard.rs:303-319 | is one Reattach step; gives back the stored state and queue exactly for a parked session of this generation |
| `ShardState.ShardState.SuspendParked` | src/broker/shard.rs:330-358 | is one Suspend step: suspended or ended, logged, and left by its groups |
| `ShardState.ShardState.SignalCloseParked` | src/broker/shard.rs:364-379 | for a parked session queues a Close with its generation and clears its parked and wake flags; else changes nothing |
| `ShardState.ShardState.SharedGroupsOf` | src/broker/shard.rs:433-443 | the client's groups, sorted, each once |
| `ShardState.ShardState.Broadcast` | src/broker/shard/mesh.rs:91-107 | one announcement for each group, in order |
| `ShardState.ShardState.Subscribe` | src/broker/shard.rs:386-393 | is one Subscribe step; a new shared subscription announces a Join |
| `ShardState.ShardState.Unsubscribe` | src/broker/shard.rs:412-443 | is one Unsubscribe step; a Leave only when the last subscription in the group goes |
| `ShardState.ShardState.CloseSession` | src/broker/shard.rs:464-509 | is one Close step; owned exactly when the generation is current |
| `ShardState.ShardState.ArmWill` | src/broker/shard.rs:733-740 | is one ArmWill step |
| `ShardState.ShardState.DeliverTo` | src/broker/shard/routing.rs:280-346 | is one Deliver step: mailbox up to its limit, parked queue with a single wake-up, or offline queue with a log mark; the `Deliveries` rows say what any number of them amount to |
| `ShardState.ShardState.SweepExpired` | src/broker/shard.rs:746-784 | the table after is the swept one, and the wills are, in the order of the two walks, those due and then those the ended sessions still owed |
| `ShardState.SweptAt` | src/broker/shard.rs:746-784 | the swept table holds for every client what one Sweep step makes of its part |
| `ShardState.SweepIsPerClient` | src/broker/shard.rs:746-784 | the two walks publish in all, whatever their orders, what each client's own sweep does |
| `ShardState.ShardState.ShedConnections` | src/broker/shard.rs:712-727 | is a run of mailbox drops of distinct connected sessions, at most the given number, and fewer only when none is left |
| `ShardState.ShardState.PersistOne` | src/broker/shard.rs:535-585 | gives the durable record exactly for a suspended session with at least a second to live; it says how many whole seconds are left, or that it never expires |
| `ShardState.Remaining` | src/broker/shard.rs:547-557 | zero exactly in the last second before the deadline and after it; otherwise the whole seconds left, the largest number standing for ever |
| `ShardState.ShardState.PersistSessions` | src/broker/shard.rs:525-530 | the snapshot holds exactly those records |
| `ShardState.ShardState.TakeWalBatch` | src/broker/shard.rs:618-641 | empties the marks and returns the framed bytes of a batch with, for each client, a tombstone, its state or nothing, as its mark says, each record in the bytes the code writes for it; the batch is what the log should hold exactly if no dirty session was skipped because it could not be encoded |
| `ShardState.ShardState.LoadSessions` | src/broker/shard.rs:647-694 | every client's part of the table is what loading its record gives, subscriptions stored in list order, and nothing is marked |
| `ShardState.ShardState.ApplySharedEvent` | src/broker/shard/mesh.rs:111-128 | folds one announcement into the view of other shards |
| `ShardState.ShardState.HandleClaim` | src/broker/shard/mesh.rs:183-249 | is one Claimed step: the session is handed over whole or dropped, tombstoned, and answered |
| `ShardState.ShardState.InstallMigrated` | src/broker/shard/mesh.rs:258-298 | is one Install step with the subscriptions as storing the list in order leaves them, and hands the QoS state and queue to the connection unchanged |
| `ShardState.ShardState.OnHandoffReply` | src/broker/shard/mesh.rs:168-179 | a reply reaches the claim that waits for it, else nothing changes |
| `ShardState.ShardState.Route` | src/broker/shard/routing.rs:30-265 | the table after routing is the old one after the ordinary deliveries and then one delivery for each group that picks a local member, by a hash of topic and payload alone; each group's cursor moves exactly for a purely local pick |
| `ShardState.KnownIsLocal` | src/broker/shard/routing.rs:194-210 | what routing knows of a group is its matching members, those of them connected, and the replicated view |
| `ShardState.RoutedReaches` | src/broker/shard/routing.rs:174-263 | after a publish is routed, every client has gathered what was sent to it, ordinary copies before those of its groups |
| `Registry.ParkKeepsValid` | src/server/shard/parking.rs:149-170 | parking keeps the registry sound if and only if the client has no entry |
| `Registry.RemoveKeepsValid` | src/server/shard/parking.rs:237-255 | removal keeps the registry sound |
| `Registry.RemoveFrees` | src/server/shard/parking.rs:237-255 | removal frees the slot, advances its tag, and touches no other slot; of an empty slot it changes nothing |
| `Registry.SweepKeepsValid` | src/server/shard/parking.rs:207-221 | the sweep keeps the registry sound |
| `Registry.TakeByClientEntries` | src/server/shard/parking.rs:177-186 | taking by client removes exactly that client's entry, if its generation fits |
| `Registry.TakeByTokenEntries` | src/server/shard/parking.rs:191-203 | taking by token takes exactly the entry in an occupied slot the token names, slot and tag, and nothing if there is none |
| `Registry.SweepTakesOverdue` | src/server/shard/parking.rs:207-221 | the sweep takes exactly the overdue entries, each once, in slot order |
| `Registry.SweepEmpties` | src/server/shard/parking.rs:207-221 | a parked connection goes exactly if it has a deadline and that has come |
| `Registry.TokenResolves` | src/server/shard/parking.rs:113-255 | over any run a token resolves exactly when its slot is occupied and was emptied a multiple of 2^32 times since |
| `Registry.Parking.Park` | src/server/shard/parking.rs:149-170 | the object does the specified insertion, over an existing entry too |
| `Registry.Parking.RemoveWithoutCancel` | src/server/shard/parking.rs:249-255 | the object does the specified removal and returns what was there |
| `Registry.Parking.TakeClient` | src/server/shard/parking.rs:177-186 | the object does the specified take |
| `Registry.Parking.TakeToken` | src/server/shard/parking.rs:191-203 | the object does the specified take |
| `Registry.Parking.TakeExpired` | src/server/shard/parking.rs:207-221 | takes exactly the entries past their deadline, each once, and leaves the specified registry |
| `ParkingProtocol.NextKeepsInv` | src/server/shard/parking.rs:305-439 | every action of connections, deliveries and the parking task keeps the protocol invariant, if and only if it is not a park over an entry of the same client |
| `ParkingProtocol.SoundRunsDoNotCollide` | src/server/shard/parking.rs:149-170 | a run keeps the invariant throughout exactly if no park in it is such a collision |
| `ParkingProtocol.WakeupsAreNeverLost` | src/server/shard/parking.rs:342-402 | in every reachable state a parked session has a registry entry or a pending resume of its generation; with queued deliveries its Wake is queued or that resume is pending; and at most one Wake was sent since it parked |
| `ParkingProtocol.DrainedMeansDelivered` | src/server/shard/serve.rs:134-227 | once commands and resumes are worked off, no parked session has anything queued |
| `DormantSockets.SocketsAreNeverForgotten` | src/server/shard/parking.rs:341-375 | in every reachable state each socket in the registry is that of a session parked under its generation, or the command to close it is queued |
| `DormantSockets.DrainedMeansClosed` | src/server/shard/parking.rs:341-375 | once the commands are worked off, every socket left belongs to a parked session |
| `ParkingProtocol.CollisionLosesWakeup` | src/server/shard/parking.rs:159-161 | after any collision, whatever the state, the completion of the old slot leaves a parked session that nothing will wake |
| `ParkingProtocol.CollisionStrandsMessage` | src/server/shard/parking.rs:159-161 | such a run from a fresh start, to a queued message nobody will deliver |
| `Utf8.DecodeEncode` | src/persistence/codec.rs:180-184 | strict decoding undoes UTF-8 encoding, for every string |
| `Utf8.EncodeDecode` | src/persistence/codec.rs:180-184 | nothing but an encoding decodes |
| `Utf8.SampleChars` | src/persistence/codec.rs:180-184 | one character of each width in the bytes RFC 3629 gives it |
| `Codec.StrReads` | src/persistence/codec.rs:70-73 | a string comes back, consuming exactly its bytes, if and only if its UTF-8 form fits the 16-bit length |
| `Codec.Low16IsRemainder` | src/persistence/codec.rs:70-73 | a length too large for its 16 bits is cut to its remainder |
| `Codec.Low32IsRemainder` | src/persistence/codec.rs:131-136 | the same for 32 bits |
| `Codec.ListReads` | src/persistence/codec.rs:131-217 | a counted list of values that read back reads back |
| `Codec.CutFails` | src/persistence/codec.rs:141-151 | a decoder that undoes its writer and is stable fails on every strict prefix |
| `Codec.PublishReads` | src/persistence/codec.rs:97-108 | a stored PUBLISH comes back as its packet shows it: the placeholder packet id filled in above QoS 0, and no packet id at QoS 0 |
| `SessionCodec.SessionReads` | src/persistence/session.rs:52-167 | decoding an encoded session followed by anything gives that session and consumes exactly its bytes, whatever order its maps were written in |
| `SessionCodec.SnapshotRoundTrip` | src/persistence/session.rs:42-106 | a snapshot parses back to its sessions, and every strict prefix of it is rejected |
| `SessionCodec.SampleSubs` | src/persistence/session.rs:58-67 | two subscriptions in their bytes |
| `SessionCodec.SampleSession` | src/persistence/session.rs:52-93 | a session in its bytes |
| `SessionCodec.UnchangedWhenNumbered` | src/persistence/codec.rs:97-108 | a session survives the disk unchanged exactly when its messages above QoS 0, and only those, have packet ids |
| `SessionCodec.StoringKeepsMessages` | src/persistence/codec.rs:97-108 | whatever the packet ids, the disk changes nothing else of a session: every message comes back under its key or in its place |
| `DiskReader.Reader.DecodeSession` | src/persistence/session.rs:108-167 | the cursor decodes what the decoder on bytes does, and stands behind it |
| `DiskReader.ParseSnapshot` | src/persistence/session.rs:95-106 | the loop parses what the specification parses |
| `DiskReader.EncodeSession` | src/persistence/session.rs:52-93 | writes the session's bytes for some walk of its maps |
| `DiskReader.SerializeSnapshot` | src/persistence/session.rs:42-50 | writes the snapshot's bytes for some walk of each session's maps |
| `Wal.UpsertGood` | src/persistence/wal.rs:37-43 | an Upsert record reads back as its session |
| `Wal.RemoveGood` | src/persistence/wal.rs:46-51 | a Remove record reads back as its id |
| `Wal.EncodedIsGood` | src/persistence/wal.rs:37-51 | a record in the bytes the code writes, within what the format can hold, reads back as itself |
| `Wal.BatchReplays` | src/persistence/wal.rs:37-97 | a batch so written, as a shard takes it, replays as exactly its records |
| `Wal.EncodeBatch` | src/persistence/wal.rs:53-56 | frames the records one after another |
| `Wal.ApplyLog` | src/persistence/wal.rs:70-113 | the loop is the specified replay, and counts the records applied |
| `Wal.FoldAt` | src/persistence/wal.rs:81-91 | the replayed map, one id at a time: the last record for an id decides |
| `Wal.TornReplay` | src/persistence/wal.rs:70-97 | cutting a log after any number of bytes replays exactly its longest prefix of whole records |
| `Wal.WholeIsLongest` | src/persistence/wal.rs:76-83 | that prefix fits and the next record does not |
| `Wal.ReplayTwice` | src/persistence/wal.rs:20-22 | replaying a whole log over what it left changes nothing |
| `Wal.ReplayResumes` | src/persistence/wal.rs:127-136 | from a record boundary on, replay continues over the records before it |
| `Wal.TornTailCompletes` | src/persistence/wal.rs:127-149 | for a cut anywhere in a record and any bytes appended behind it: the records before it are replayed; then the remains and the appended bytes are read as one frame, which stops the replay or is applied as whatever record it decodes to; with the length intact it stops exactly if fewer bytes follow than the frame lacks or the completed body does not decode |
| `Wal.TornTailHides` | src/persistence/wal.rs:127-136 | a tail torn after its length field hides everything appended behind it, unless the next byte names a record kind |
| `Wal.ReopenLosesRecords` | src/persistence/wal.rs:127-136 | a removal logged after reopening a torn log is not replayed |
| `Wal.ReopenInventsRemoval` | src/persistence/wal.rs:127-149 | a removal cut inside its id and another appended behind it replay as the removal of a third session that nobody logged |
| `Wal.ReopenAndReplay` | src/persistence/wal.rs:61-149 | opening what a crash left, appending a batch and replaying the file is the specified replay of the joined bytes |
| `Wal.LogFile.Append` | src/persistence/wal.rs:140-149 | appends at the end |
| `Wal.LogFile.Truncate` | src/persistence/wal.rs:153-160 | empties the log |
| `CrashConsistency.ActLogs` | src/broker/shard.rs:279-509 | every operation keeps a slot accounted for (marked, or as the disk has it) if and only if it is a logged one: not a mailbox drop of a live session, not a change to the subscriptions of a suspended one, not a close of a parked one |
| `CrashConsistency.LoadAgrees` | src/broker/shard.rs:647-694 | loading a record gives a session that agrees with it, exactly when it lists each filter and group once and no shared subscription asks for No Local |
| `CrashConsistency.RestartKeepsLife` | src/broker/shard.rs:547-557 | a session written at one moment and loaded at another has the life it had left, less the fraction of a second |
| `CrashConsistency.NextKeeps` | src/server/shard/maintenance.rs:442-468 | every step of operations, clock, flush, checkpoint and truncation keeps disk and memory consistent on a client, if and only if it is not an unlogged operation on that client |
| `CrashConsistency.ConsistentRunsAreSafe` | src/broker/shard.rs:279-641 | whatever happens to the others, disk and memory are consistent on a client throughout a run exactly if each step is safe for that client |
| `CrashConsistency.CrashConsistent` | src/broker/shard.rs:535-641 | in every state of every run whose steps are safe for a client, dying with any number of bytes of the batch written, replay over the snapshot agrees on that client if it is neither marked nor in that batch, its life as it was in whole seconds at some moment before; it is never marked both ways |
| `CrashConsistency.LateSubscribeIsNotLogged` | src/server/connection/subscribe.rs:69-86 | a displaced connection can still subscribe: after its successor has closed and been written, the subscription is in memory and reaches no log |
| `CrashConsistency.SheddingLosesSession` | src/broker/shard.rs:515-519 | a shed client looks suspended in memory and is nowhere on disk |
| `Membership.ActTells` | src/broker/shard.rs:190-509 | an operation's announcements carry every peer's view from the old membership to the new, if and only if it is not one of the listed exceptions |
| `Membership.OpenTells` | src/broker/shard.rs:194-229 | of opens, exactly Clean Start over a connected group member fails to tell |
| `Membership.ViewsConverge` | src/broker/shard/mesh.rs:91-128 | in every drained state of every run a shard's view of a group is exactly the connected members held by the others |
| `Membership.CleanStartForgetsLeave` | src/broker/shard.rs:194-203 | Clean Start over a connected member leaves it in the peers' view |
| `MovingMembers.MovingViewsConverge` | src/server/shard/maintenance.rs:168-179 | clients may move: if a shard announces a client only when no other shard has it as a member or has anything about it still under way, then in every drained state of every run a view is exactly the connected members held by the others |
| `MovingMembers.AlwaysEndsExactlyWhen` | src/server/shard/maintenance.rs:168-179 | in whatever order a shard hears its peers to the end, it comes to the same belief about a member, if and only if the last words of all peers that have one agree on it, or none has one and it believes so already |
| `MovingMembers.MoveCanForgetMember` | src/broker/shard/mesh.rs:183-298 | whenever a connected member closes and has its session moved to another shard, every third shard can hear the Join before the Leave, and with everything heard misses a connected member |
| `SharedPick.PickMember` | src/broker/shard/routing.rs:194-263 | the pick as made by hash or by round-robin, and which of them moves the cursor |
| `SharedPick.TurnIsRemainder` | src/broker/shard/routing.rs:232-248 | the place in the listing is the remainder by its length |
| `SharedPick.GoesRound` | src/broker/shard/routing.rs:232-248 | among as many messages in a row as a purely local group has members to choose from, each is picked for exactly one |
| `SharedPick.ConnectedPicksOnce` | src/broker/shard/routing.rs:34-40 | with synchronised views and a connected member, exactly one shard picks, and it picks a connected member of its own |
| `SharedPick.PicksOnceWhen` | src/broker/shard/routing.rs:212-249 | exactly one shard picks if and only if some member is connected or one shard holds all the suspended ones |
| `GroupFilters.PicksOnceExactlyWhen` | src/broker/shard/routing.rs:194-230 | with views by group name and a connected matching member: every hash makes exactly one shard pick, if and only if no shard holding a connected matching member sees a connected member elsewhere that does not match |
| `GroupFilters.MismatchMisses` | src/broker/shard/routing.rs:194-230 | if a shard sees such a mismatch, there is a hash for which nobody delivers: over a common period each shard picks on its share of the hashes, and the shares sum to less than one |
| `GroupRuns.GroupPicksOnceExactlyWhen` | src/broker/shard/routing.rs:184-263 | the same if-and-only-if in every drained state of every run of the mesh |
| `GroupRuns.MismatchedFiltersMissAndRepeat` | src/broker/shard/routing.rs:194-230 | a run to a drained mesh where one message to a group reaches nobody and another reaches two members |
| `SharedPick.GroupDeliversOnce` | src/broker/shard/routing.rs:184-263 | in every drained state of every run, if the members' filters match and one is connected, exactly one shard picks, and picks a connected member |
| `Routing.Collapse` | src/broker/shard/routing.rs:140-172 | each client keeps the options of a highest-QoS match and every identifier once |
| `Routing.FanOut` | src/broker/shard/routing.rs:174-186 | one copy for each ordinary subscriber, none back to a publisher that asked for none |
| `Routing.RoutingRefines` | src/broker/shard/routing.rs:121-182 | each client gets at most one ordinary delivery; it follows a highest-QoS matching subscription, at the lower of the two QoS, with all matching identifiers; and it goes without only if such a match forbids it |
| `Routing.GroupCopyRefines` | src/broker/shard/routing.rs:250-263 | the copy for a group member is the message, under a highest-QoS match among its subscriptions in that group, with all their identifiers |
| `Migration.MovesNeverCopies` | src/broker/shard/mesh.rs:168-298 | under any interleaving of connects, claims, replies, timeouts and shard operations, no session state is in two places |
| `Migration.MovesWholeSession` | src/broker/shard/mesh.rs:215-298 | extract then install preserves subscriptions (No Local cleared on shared ones), QoS maps, packet-id cursor and queue order |
| `Migration.ClaimBringsSession` | src/server/connection/connect.rs:307-348 | a claim that finds the session without a mailbox, its reply and the waiting CONNECT bring that very session state to the claiming shard, if and only if no running connection still had it and the CONNECT was not taken over meanwhile |
| `Migration.RepliesReachClaim` | src/broker/shard/mesh.rs:168-179 | a claim that waits gets every reply for its client, in order, and no other |
| `Migration.FirstSession` | src/server/connection/connect.rs:321-341 | the waiting CONNECT ends with the first session among the replies, or with none once every peer has answered or the wait is over |
| `Migration.LostExactlyWhen` | src/broker/shard/mesh.rs:168-298 | a step leaves a session state at the place `Moved` gives, or nowhere; nowhere exactly if it is a Clean Start over it, a takeover of the connection that has it, a new CONNECT over one that awaits it, an operation that ends it, a claim that finds it in use or does not want it, a reply nobody awaits, or a CONNECT going on without it, taken over or gone |
| `Migration.SurvivesExactlyWhen` | src/broker/shard/mesh.rs:168-298 | over every run a session state is still somewhere at the end exactly if no step was one that loses it |
| `Migration.SecondConnectLosesState` | src/server/connection/connect.rs:199-229 | a client that connects twice on one shard while its claim is under way: the reply goes to the displaced connection, and the session state is nowhere |
| `Migration.CrossedClaimsLoseBoth` | src/server/connection/connect.rs:199-231 | a client connecting on two shards at once can end with no session on either |
| `PacketIds.FirstFreeIsFree` | src/server/connection/delivery.rs:291-302 | with fewer than 65535 ids in use the allocator finds an unused non-zero one |
| `PacketIds.CursorComesLast` | src/server/connection/delivery.rs:291-302 | the cursor itself is found only if no other id is free |
| `PacketIds.AllocPkid` | src/server/connection/delivery.rs:291-302 | the loop ends, with the first unused id after the cursor |
| `Outbound.AliasedReads` | src/server/connection/delivery.rs:214-248 | a packet sent through the alias table is understood by the client as the very message it stands for, packet id included, and the two tables stay each other's inverse |
| `Outbound.AttemptTakes` | src/server/connection/delivery.rs:192-210 | a send takes one unused in-flight id above QoS 0 and none at QoS 0 |
| `Outbound.NotReusedAtOnce` | src/server/connection/delivery.rs:291-302 | an id is not used again at once, unless it is the only one free |
| `Outbound.DrainKeeps` | src/server/connection/delivery.rs:77-95 | draining ends with nothing held or the window full, in order |
| `Outbound.RetransmitsQuietly` | src/server/connection/delivery.rs:309-340 | retransmissions need no aliases and are nothing new to the client |
| `Outbound.RetransmitsEach` | src/server/connection/delivery.rs:309-340 | each unfinished message is sent again in full, as a duplicate under its own id, or, once received, as its PUBREL |
| `Outbound.ClientSeesDeliveries` | src/server/connection/delivery.rs:48-302 | from the handle on, over every interleaving of deliveries, acknowledgements and parked spells: never more in flight than Receive Maximum and configuration allow (or than was restored), holding only while there is no room, order, every topic recovered through aliases, full topics in retransmit copies; a delivery, queued before or made since, is missing only if its packet, encoded against the alias table of the moment, was over the client's limit, or, above QoS 0, if a full queue of later ones followed it or it is still held |
| `Acknowledgements.AckFrees` | src/server/connection/control.rs:32-40 | an acknowledged message leaves the window and nothing else in flight changes; held messages are then tried in order, as many as there is room for and no more; an acknowledgement of nothing changes nothing |
| `Acknowledgements.InFlightIsUnacked` | src/server/connection/delivery.rs:157-288 | over the whole life of a connection, what is in flight is exactly, message for message and with the packet it waits for, what was restored and what the client was sent above QoS 0, less what it acknowledged; and no packet is over the client's Maximum Packet Size |
| `Outbound.ComesBackSame` | src/server/connection.rs:442-523 | a connection that may park, taken apart and rebuilt around its snapshot, does with the queued deliveries what it would have done without parking |
| `ParkedSpell.SettledAlways` | src/broker/shard.rs:190-319 | in every state of every run a session with a mailbox has no stored snapshot, no queue and no parked flag |
| `ParkedSpell.SessionKeeps` | src/broker/shard.rs:279-319 | a parked session hands back the snapshot it was given and the newest deliveries made meanwhile, in order, and is left as if it had never parked |
| `ParkedSpell.SpellIsInvisible` | src/server/connection.rs:429-568 | from the decision to park to the replayed queue, through the shard, the connection does what direct delivery would have done |
| `Connection.Connection.Deliver` | src/server/connection/delivery.rs:56-74 | does the specified delivery |
| `Connection.Connection.SendPublish` | src/server/connection/delivery.rs:157-288 | does the specified send, rolling back what an oversize packet had taken |
| `Connection.Connection.DrainPending` | src/server/connection/delivery.rs:77-95 | does the specified drain |
| `Connection.Connection.HandleAck` | src/server/connection/control.rs:32-40 | does the specified acknowledgement (PUBACK and PUBCOMP) |
| `Connection.Connection.HandlePubrec` | src/server/connection/control.rs:42-52 | does the specified PUBREC step |
| `Connection.Connection.HandlePublish` | src/server/connection/publish.rs:149-169 | stores a QoS 2 message, or closes past the quota |
| `Connection.Connection.HandlePubrel` | src/server/connection/control.rs:54-62 | routes and forgets a stored message, once |
| `Connection.Connection.ResumeDelivery` | src/server/connection/delivery.rs:309-355 | retransmits everything in flight, each message once, then delivers the queue in order |
| `Connection.Connection.CanPark` | src/server/connection.rs:429-438 | ready exactly with nothing in flight, held or half received |
| `Connection.Connection.Reattach` | src/server/connection.rs:553-568 | takes up the snapshot, retransmits what is in flight and delivers the queue |
| `Connection.Spelled` | src/server/connection.rs:442-568 | taking a connection that may park apart, rebuilding it and reattaching it is the specified spell |
| `Connection.TakeUp` | src/server/connection/connect.rs:203-231 | a new connection takes up the session as its handle has it: state, retransmissions, queue |
| `InboundQos2.ExactlyOnce` | src/server/connection/publish.rs:149-169 | over any trace of repeated PUBLISHes and PUBRELs, times routed plus one if stored grows by exactly the messages meant: those that arrived under an id not stored while fewer than the quota were |
| `InboundQos2.RoutesOnlyPublished` | src/server/connection/control.rs:54-62 | each message routed has the topic, payload, QoS, retain flag and properties of the last PUBLISH that arrived under its packet id before the PUBREL that routed it, and so has each message stored; the PUBRELs are in the order of the routing |
| `InboundQos2.BystandersLoseNothing` | src/broker/shard.rs:279-784 | nothing but its own connection changes what a session holds of the receiver, short of ending it |
| `InboundQos2.TurnIs` | src/broker/shard.rs:190-229 | a packet, a close, parking and waking, an operation by anyone else on the running or sleeping session, a resumption or a takeover makes of the receiver what its packet makes of it, exactly if it is not a takeover that finds messages stored |
| `InboundQos2.ReconnectionsAreInvisible` | src/server/connection.rs:659-673 | through any number of such turns the receiver is what the bare packet trace makes it |
| `InboundQos2.TakeoverLosesStored` | src/broker/shard.rs:210-224 | a takeover hands out an empty snapshot, and a message stored with the displaced connection is never routed |
| `WebSocket.FrameRoundTrip` | src/transport/websocket.rs:225-280 | a masked frame in any of the three length forms, followed by anything, parses to its payload and its exact length |
| `WebSocket.XorIsExclusive` | src/transport/websocket.rs:270-276 | unmasking is bit by bit exclusive or |
| `WebSocket.FirstIsHighest` | src/transport/websocket.rs:234-251 | extended lengths are read with the first byte counting most |
| `WebSocket.AcceptsOnlyFrames` | src/transport/websocket.rs:225-280 | whatever parses is some client's masked frame with that payload, within the limit, and if a control frame final and short |
| `WebSocket.ParseStable` | src/transport/websocket.rs:225-280 | once a frame is whole or bad, more input does not change that |
| `WebSocket.ChunksDoNotMatter` | src/transport/websocket.rs:137-190 | however the input is split, the application bytes, replies and outcome are those of the whole input |
| `WebSocket.FramesDecode` | src/transport/websocket.rs:137-164 | of any sequence of data, ping and pong frames the application gets the data payloads put together, each ping is answered with its payload, and pongs are ignored |
| `WebSocket.LastFrameDecodes` | src/transport/websocket.rs:137-164 | a close is echoed and ends the stream whatever follows; any other kind of frame fails it |
| `WebSocket.WsStream.PumpFrame` | src/transport/websocket.rs:137-164 | takes one frame off the input, also one it refuses, and otherwise leaves the stream's future as it was; a frame it refuses ends the whole input as failed, with nothing more for the application |
| `WebSocket.WsStream.Read` | src/transport/websocket.rs:168-190 | what the reads return, put together, is the decoded stream |

## Left out

- Sockets, timers, io_uring submission, fd duplication, TLS, the HTTP upgrade, password checks: foreign code; only the steps they trigger are modelled.
- MQTT packet encoding and parsing: the library is not part of this model.
- The retained table, inbound topic aliases, subscription quotas, rate limits, `$SYS` topics and metrics are not modelled.
- Segment interning and the index garbage collection: sharing strings does not change what the index holds.
- File-write failures, orphan files after a change of core count: operating-system behaviour.
- Several crashes between two checkpoints: a run of `CrashConsistency` starts from a log that ends at a record boundary. What a later start reads otherwise is `Wal.TornTailCompletes`.
- Liveness: nothing is said about when a queue drains or a timeout fires.
- CrashConsistency.CrashConsistent: speaks of a client whose own operations in the run are logged ones, and of runs whose batches skip nothing; `ConsistentRunsAreSafe` shows that the first is also necessary, and `TakeWalBatch` says when the second holds.
- CrashConsistency.CrashConsistent: compares publishes as storing leaves them (a placeholder packet id filled in, none at QoS 0), and claims nothing in a session's last second, when the code stops writing it.
- Membership.ViewsConverge: each client stays on one shard (`MovingMembers` has those that move), and the operations that `ActTells` shows not to tell are excluded.
- MovingMembers.MovingViewsConverge: the operations that `ActTells` shows not to tell are excluded here too, and the condition on announcing is one the code does not enforce.
- ParkingProtocol.WakeupsAreNeverLost: speaks of runs in which no client parks over an old registry entry of its own; `SoundRunsDoNotCollide` shows that these are exactly the runs that keep the invariant.
- Migration.LostExactlyWhen: a connection closes a session only while it has its state, so at most once.
- Migration.MovesNeverCopies: messages may overtake each other, which allows more runs than the FIFO queues.
- InboundQos2.ReconnectionsAreInvisible: speaks of lives without a takeover that finds messages stored; `TurnIs` and `TakeoverLosesStored` say what such a takeover does.
- SharedPick.GoesRound: speaks of a cursor that does not wrap meanwhile; where 64 bits wrap, the round starts anew.
- Wills.WillIsPublishedOnce: a will due at once is published by the connection itself, which is not modelled; a claim by another shard drops a will without publishing it.
- Subscriptions.LastWordCounts: a session that is moved in or loaded starts with what it brings, which `Migration` and `CrashConsistency` describe.
- Inbound PUBLISHes of QoS 0 and 1: they are routed at once and not modelled.
- GroupFilters.PicksOnceExactlyWhen: the hash is any natural number, where the code has 64 bits.
- Outbound.ClientSeesDeliveries: a spell in the registry ends with the reattachment; a session taken over meanwhile ends the connection instead.
- Connection.Connection.CanPark: the model has no `connected` flag, socket buffers or partial frame, which the code also asks to be set and empty (`src/server/connection.rs:429-437`); `Outbound.ParkReady` likewise.
- WebSocket.WsStream.Read: the replies it sends are recorded, and their transport is taken to succeed; nothing is promised of a stream that is read on after it failed.
- The server's own outgoing WebSocket frames.
