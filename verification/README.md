# DogeNet: a verified model

DogeNet is a gossip node. It keeps a set of connections to peers, passes signed address
announcements on to them, keeps a database of the nodes it has heard of, and announces its own
address, owner and channels. This project models its four connected parts in Dafny and proves what
they guarantee over every history, run or interleaving.

`dafny verify dfyconfig.toml` checks everything.

## The parts

**Peer system** (`PeerSystem`, `PeerInvariant`, `PeerSteps`, `PeerTheorems`, `Handshake`, `News`, `Sending`,
`Handlers`, `SeedGap`, `Signatures`, `NodeDatabase`).
The network service as a step system. A step is one critical section, one blocking operation or
one write; every goroutine has a program counter (the dialer or acceptor, each peer's receive and
send goroutine, each protocol handler's two, the announcement thread, the re-gossip thread, Stop), and
steps of different goroutines interleave freely. `setAnnounce` and `forwardToPeers`, the closing of a
connection and the critical section of `closePeer`, and the database transaction and the broadcast of
`ingestAddress` are separate steps. One invariant is proved of every step, and what can never happen follows
from it. What does happen is proved beside it: which first messages end a handshake and that every other peer
has a run through it, that news is stored and broadcast exactly once, that what is queued has a run to the
connection, and that the database over a run is the store's history of the transactions committed.

**Registry** (`Registry`). The critical sections of the service as functions on its shared state. The
step system uses these functions, and the methods of class `NetService`, which update the fields in
place, are proved to compute them. Also the history of `lockPeer` calls.

**Gossip** (`Gossip`, `Delivery`). A network of nodes that follow the ingest rule, joined by links that
deliver in order: coverage, termination, exactly which networks let every flood end, and floods that do not.
Each delivery of the network is shown to be a run of the receiving node's goroutines.

**Store** (`Store`, `SqliteStore`, `Txn`, `Migration`). The tables as values and each transaction as a
function, with theorems over all histories; the store object, whose methods run statement by statement;
the retry loop of `doTxn`; the schema upgrade.

**Announcements** (`Announce`, `Reuse`). The change and timer loop with a Go timer that may fire between
any two of its steps, and the reuse of a stored signed announcement across restarts.

## What is assumed

- Signing, verification, the address codec, validity of content and the public-address test are arbitrary
  functions, signing one of the payload. Where a theorem needs it, own signatures verify and decoding
  inverts encoding (`Env.Lawful`).
- Reading a message yields only verified messages with a non-zero key.
- The service context is cancelled before `Stop` runs, and the node key is the same across restarts.
- Byte strings that are only copied and compared are numbers. A channel stands for its name in the `chan`
  table; distinct channels have distinct names.
- A write to a connection writes its whole argument or fails; a failed write adds nothing to what the
  model records as written, and its goroutine writes no more.
- What the dialer, the acceptor, the seed lookup and the choice of a peer decide is left open: a connection
  may be dialed for any key at any time. So are the outcome of each transaction, the rowid of an insert and
  the passing of time.
- The connection pool holds one connection, as `NewSQLiteStore` sets it. A transaction holds it until it is
  committed or rolled back; a failed begin or commit gives it back, and waiting for it never times out.
  A conflict comes from another process that has the database open. What `Txn` says of a call holds of one
  that no other call keeps waiting for ever.
- Timer behaviour is that of Go 1.20: a channel that holds one tick, and a Stop that does not drain it.

## Where the code and its comments differ

The model follows the code.

- `doTxn` is meant to retry every conflict. One that the closure itself meets is not retried: the transaction
  is rolled back only when the call returns, so the next attempt waits for ever for the only connection, and
  so does every later user of the database. `AddChannel`, `SetAnnounce`, `SetAnnounceOwner` and `GetChannels`
  can be caught this way (`Txn.OneConflictHangs`); `AddNetNode` wraps its errors and cannot (`Txn.AddNetNodeReturns`).
- `TrimNodes` returns the number of channels it removed; the count of removed nodes is overwritten.
- `SetAnnounce` cannot create the announce row (its insert names four columns for three values), so a node
  publishes without storing until an owner key has been set once.
- `trackPeer` also returns false for a peer that is already connected, and then has recorded the connection;
  the closed connection stays in `connections`.
- A change message delays the announcement by 10 seconds; the comment says 60.
- A change of channels whose query fails is dropped, although the comment promises a new announcement whenever
  the channels change; the channels stay unannounced until a later change of channels is read
  (`Announce.UnreadReportIsLost`).
- Peers dialed as DNS seeds read the announcement before they are registered and can miss one
  (`SeedGap.SeedMissesAnnouncement`).
- The payload that arrives last wins, whatever its time, and two payloads for one key can replace each other
  for ever (`Gossip.ChaseNeverEnds`, `Gossip.DoubleAnnounceCanChase`).
- A retried `AddNetNode` can report a change that it did not commit (`Txn.RetryReportsUncommittedChange`).

## Model

| member | source | states |
|---|---|---|
| PeerSteps.RunKeepsInv | internal/netsvc/peer.go:71-320 | every interleaving of all goroutines keeps the whole invariant: control, registration, connections, queue, wire and announcements of every peer |
| PeerSteps.RemoveShared | internal/netsvc/service.go:418-438 | closing a peer takes out its own registration and connection, if they are there, and nobody else's |
| PeerTheorems.RegistryUniqueness | internal/netsvc/service.go:382-415 | in every reachable state a registered peer sits under its own final key, under no other, and is not closed |
| PeerTheorems.NeverEvicted | internal/netsvc/service.go:385-438 | no step replaces a registry entry, and an entry goes only when its own peer closes |
| PeerTheorems.EntryStays | internal/netsvc/service.go:385-438 | over every run an entry stays as it is until its own peer closes |
| PeerTheorems.ClosedPeerStaysOut | internal/netsvc/service.go:404-428 | a closed peer is registered nowhere, and over every run never is again |
| PeerTheorems.HandshakeGate | internal/netsvc/peer.go:74-183 | a relaying peer began with a verified [Node][Addr] message for the expected key, not this node's, public or allowed and between 30 days old and 5 minutes ahead at ingest; until closed it is registered under that key |
| Handshake.TrackingDecides | internal/netsvc/service.go:385-402 | trackPeer refuses a connection if and only if the service is stopping or its key is registered already; unless stopping it tracks it |
| Handshake.FirstMessageDecides | internal/netsvc/peer.go:86-158 | after the first message, and adoptPeer where due, a peer is about to close if and only if it sent none, no [Node][Addr], another key than expected, this node's key, or, if unknown before, a registered key; otherwise it is registered under the message's key and ingested next |
| Handshake.AdoptionDecides | internal/netsvc/service.go:406-415 | the same of adoptPeer whenever it is called |
| Handshake.EveryoneElseGetsThrough | internal/netsvc/peer.go:71-183 | every inbound, known or seed peer that says nothing refusable and whose address is acceptable and storable has a run from being dialed to relaying, greeted whole, registered and stored |
| News.IngestStores | internal/netsvc/peer.go:254 | a committed ingest of news stores exactly what the message says, to expire after 30 days; what is no news changes nothing |
| News.IngestDecides | internal/netsvc/peer.go:254-262 | a committed ingest leads to a broadcast if and only if the payload stored under the key changed or the report of a change was carried over |
| News.NewsIsPassedOn | internal/netsvc/peer.go:254-262 | a new address is stored and then broadcast exactly once, to the queue of every registered peer with fewer than 100 messages waiting; no news is not |
| News.PassingOnCasts | internal/netsvc/service.go:315-325 | in any state the step that passes a message on broadcasts it once, and the peer goes on, or closes if the store had failed |
| News.RefusedIsDropped | internal/netsvc/peer.go:225-252 | an unacceptable address is not stored or passed on and its peer closes; so with a failed transaction that reports no change |
| News.RelayedIsIngested | internal/netsvc/peer.go:187-219 | a relayed [Node][Addr] of another key is ingested next, other messages are passed over, a failed read closes |
| News.HandlersMessageIsCast | internal/netsvc/handler.go:77-87 | a protocol handler's message is broadcast once |
| News.GossipIsCast | internal/netsvc/service.go:189-208 | an announcement picked from the database is broadcast once, as its node signed it |
| News.OwnAnnouncementIsCast | internal/netsvc/service.go:86-104 | an own announcement becomes the current one and is broadcast once |
| News.OwnNodeIsStored | internal/announce/announce.go:212-221 | this node's row holds what it announces, to expire after 30 days |
| News.StepCasts | internal/netsvc/service.go:315-325 | every step broadcasts what it has to pass on and nothing else |
| Sending.QueueGoesOut | internal/netsvc/peer.go:272-294 | what waits in a connected peer's queue has a run to its connection: whole messages, in order, nothing left or added |
| Sending.FailureCloses | internal/netsvc/peer.go:282-298 | failed reads and writes, and the end of the service for the send goroutine, lead to closePeer |
| Sending.CloserFinishes | internal/netsvc/service.go:418-438 | a peer about to close has a run of two steps to being closed, registered nowhere and untracked, others untouched |
| Sending.RefusedCloses | internal/netsvc/service.go:144-153 | a refused connection is closed by the next step of its goroutine |
| Sending.StopClosesTracked | internal/netsvc/service.go:293-312 | Stop closes exactly the tracked connections of peers and handlers and changes nothing else |
| Sending.StoppingSteps | internal/netsvc/peer.go:186-316 | when the service stops, relaying ends without a close, waiting for an announcement ends without one, and sending ends at its next round |
| Handlers.HandlersListed | internal/netsvc/service.go:443-480 | always, the list of handlers holds exactly those tracked and not yet closed, once each |
| Handlers.HandlerIsServed | internal/netsvc/service.go:443-454 | a handler is tracked and served if and only if the service is not stopping |
| Handlers.HandlerCloses | internal/netsvc/service.go:457-480 | closing a handler takes it out of both lists and leaves every other |
| PeerTheorems.AnnouncementOffered | internal/netsvc/service.go:86-104 | a registered peer had announcement n put in its queue exactly if it was registered by the time n was forwarded and its queue had room |
| PeerTheorems.NoLostAnnouncement | internal/netsvc/service.go:88-104 | once ReceiveAnnounce(n) has returned, every peer registered before its handshake got n or a later one there, or n in its queue, or had a full queue |
| PeerTheorems.ChunksAlternate | internal/netsvc/peer.go:302-320 | whole frames alternate: each header is directly followed by its own payload |
| PeerTheorems.WireDiscipline | internal/netsvc/peer.go:272-320 | one writer at a time; the wire is a prefix of whole frames, first an announcement that carries this node's key, then broadcasts made from registration to closing in order and once each, none missing unless the queue was full; the queue holds at most 100 |
| PeerTheorems.ShutdownAccounting | internal/netsvc/service.go:293-312 | every open connection is in `connections` exactly once or still with its dialer or acceptor; after Stop only the latter are open |
| PeerTheorems.LateConnectionsClose | internal/netsvc/service.go:144-153 | after Stop a connection handed in is refused untracked, and the next step of its goroutine closes it |
| PeerTheorems.LateHandlersClose | internal/netsvc/service.go:443-454 | the same for a protocol handler's connection |
| PeerTheorems.ClosedForGood | internal/netsvc/service.go:418-420 | a closed connection stays closed over every run |
| SeedGap.SeedMissesAnnouncement | internal/netsvc/peer.go:74-116 | a reachable state in which a registered seed peer with an empty queue was never offered the current announcement |
| Signatures.SignatureIntegrity | internal/netsvc/peer.go:254-258 | in every run all node rows, broadcasts, queued and sent messages carry a signature valid for their key and payload; own announcements because the node signs them |
| Signatures.StepKeepsSigned | internal/netsvc/service.go:189-208 | ingest, own announcement and own node row, re-gossip and handler relay each keep that |
| NodeDatabase.DatabaseStaysSound | internal/netsvc/peer.go:254-261 | in every interleaving of the node's goroutines the channel index agrees with the stored announcements and every expiry day is in its window |
| NodeDatabase.DatabaseIsStore | internal/store/sqlite.go:188-227 | over every run the node's database is what the store makes of the transactions committed, in their order, and nothing else |
| Registry.SwapRemoveKeepsOthers | internal/netsvc/service.go:429-437 | swap-removal takes out the connection and keeps every other one once |
| Registry.NetService.TrackPeer | internal/netsvc/service.go:385-402 | in-place tracking, the connection recorded before the duplicate check |
| Registry.NetService.AdoptPeer | internal/netsvc/service.go:406-415 | in-place registration of a free key, refusal of a taken one |
| Registry.NetService.ClosePeer | internal/netsvc/service.go:418-438 | closes the connection and removes only what belongs to this peer |
| Registry.NetService.Without | internal/netsvc/service.go:430-437 | the removal loop |
| Registry.NetService.AcceptHandler | internal/netsvc/service.go:443-454 | tracks a handler and its connection unless stopping |
| Registry.NetService.CloseHandler | internal/netsvc/service.go:457-480 | closes and removes a handler |
| Registry.NetService.ForwardToPeers | internal/netsvc/service.go:315-325 | offers the message once to every registered peer, in any order, and to nobody else |
| Registry.NetService.LockPeer | internal/netsvc/service.go:359-371 | grants a lock exactly if none is in force and sets its end |
| Registry.NetService.SetAnnounce | internal/netsvc/service.go:100-104 | replaces the current announcement and nothing else |
| Registry.NetService.Stop | internal/netsvc/service.go:294-312 | closes every tracked connection |
| Registry.LockSpacing | internal/netsvc/service.go:359-371 | two successful locks of one key are at least 30 seconds apart |
| Registry.LockGrantedIff | internal/netsvc/service.go:359-371 | a lock is granted if and only if none was granted for its key in the 30 seconds before |
| Registry.LocksAreIndependent | internal/netsvc/service.go:359-371 | the outcome for a key depends on the calls for that key alone |
| Gossip.DatabaseFollowsRule | internal/store/sqlite.go:470-520 | the rule each node of the network follows is the one AddNetNode implements |
| Gossip.DeliveryEffects | internal/netsvc/service.go:315-325 | what a delivery does to every link and stored payload; a full queue costs only its own peer the announcement |
| Delivery.DeliveryIsARun | internal/netsvc/peer.go:187-263 | each delivery of the network is a run of the receiving node's goroutines: the same payloads stored, the same queues extended, the connection closed alike |
| Gossip.FloodTerminates | internal/netsvc/peer.go:197-263 | with one payload per key under way in each part of the network that non-owners connect, every run halts within a bound given by its start, even if connections close and queues overflow |
| Gossip.HaltsIff | internal/netsvc/peer.go:197-263 | every flood for a key halts, whatever is stored and under way, if and only if no connection joins two nodes that do not own the key |
| Gossip.IngestsAtMostOnce | internal/store/sqlite.go:492-497 | on such a run no node stores and passes on the same key twice |
| Gossip.RunKeepsSpreading | internal/netsvc/peer.go:254-258 | always, a holder's neighbour holds the payload, owns the key, or has it coming |
| Gossip.StuckIffQuiet | internal/netsvc/peer.go:186-187 | a run can be continued exactly until nothing is under way |
| Gossip.FloodCovers | internal/netsvc/service.go:315-325 | a new announcement has, when nothing is under way, reached every node that connections join to its owner |
| Gossip.ChaseNeverEnds | internal/store/sqlite.go:492-497 | from every state with two payloads crossing between two holders there are runs of any length |
| Gossip.DoubleAnnounceCanChase | internal/store/sqlite.go:492-497 | an owner that announces twice in a row can bring about such a state among two connected neighbours |
| Store.ChannelIndexAgreement | internal/store/sqlite.go:470-520 | over every history the `chan` rows under a live node's rowid are exactly the channels its stored announcement carries |
| Store.OrphanRowsAreNotInherited | internal/store/sqlite.go:354-358 | trimming leaves orphan `chan` rows, and a node that reuses the rowid does not inherit them |
| Store.AddNodeWrites | internal/store/sqlite.go:470-520 | a changed announcement leaves exactly what it says, its channels, and expiry 30 days after the counter; the same payload, or a channel named twice, changes nothing |
| Store.RenewalWrites | internal/store/sqlite.go:450-531 | a known node is renewed to counter + 30 and a channel to counter + 7, and nothing else changes |
| Store.TrimWrites | internal/store/sqlite.go:334-377 | on a new day the counter advances by one and exactly the rows that expire before it go |
| Store.AnnounceWrites | internal/store/sqlite.go:393-425 | storing an announcement keeps the owner, setting the owner keeps the announcement |
| Store.ExpiryWindow | internal/store/sqlite.go:323-377 | every expiry day stays between the day counter and 30 (7) after it |
| Store.NodeLifetime | internal/store/sqlite.go:482-497 | an unwritten node row survives exactly as many advances as its expiry day allows; the same payload heard again does not prolong it |
| Store.ChannelLifetime | internal/store/sqlite.go:450-465 | the same for channels |
| Store.AdvancesTakeDays | internal/store/sqlite.go:344-349 | n advances of the day counter take at least n - 1 calendar days |
| Store.NeverExpiresEarly | internal/store/sqlite.go:323-377 | a row that a transaction writes, and none after it, goes at the 31st (8th) advance, hence never before 30 (7) calendar days |
| Store.AnnounceTableShape | internal/store/sqlite.go:393-425 | the announce table never holds two rows, and gets its row only from setting an owner |
| SqliteStore.SQLiteStore.AddNetNode | internal/store/sqlite.go:470-520 | the transaction with its insert loop: the row with expiry counter + 30 and exactly the channels given, or on a duplicate channel nothing; and when it reports a change |
| SqliteStore.SQLiteStore.UpdateNetTime | internal/store/sqlite.go:522-531 | renews the expiry day of an existing row only |
| SqliteStore.SQLiteStore.AddChannel | internal/store/sqlite.go:450-465 | renews or inserts the channel |
| SqliteStore.SQLiteStore.TrimNodes | internal/store/sqlite.go:334-377 | advances and expires if the day has changed; the count it returns is that of channels |
| SqliteStore.SQLiteStore.SetAnnounce | internal/store/sqlite.go:393-408 | updates the row if there is one and otherwise fails without change |
| SqliteStore.SQLiteStore.SetAnnounceOwner | internal/store/sqlite.go:410-425 | sets the owner, inserting the placeholder if there is no row |
| Txn.DoTxn | internal/store/sqlite.go:188-227 | at most 120 attempts, all but the last conflicts at begin or commit; success exactly if the last committed, the work then applied once, otherwise no change; it waits for ever exactly if an attempt before the 120th had its closure end in a conflict |
| Txn.VerdictMeans | internal/store/sqlite.go:188-227 | an attempt is retried exactly for a conflict at begin, or at commit of a closure that ended well |
| Txn.TransientConflictsAreSurvived | internal/store/sqlite.go:188-227 | up to 119 such conflicts do not keep a call from succeeding in the first attempt that meets none |
| Txn.ReturnsIff | internal/store/sqlite.go:188-227 | a call returns if and only if no attempt made before the 120th has its closure end in a conflict |
| Txn.WaitsIffNotReturns | internal/store/sqlite.go:188-227 | the condition under which the retry loop waits is that the call does not return |
| Txn.PlainReturnsIff | internal/store/sqlite.go:393-425 | with a closure that hands on the driver's own error, a call returns exactly if the database is never locked while the closure runs, before the 120th attempt |
| Txn.OneConflictHangs | internal/store/sqlite.go:450-465 | one locked database at the first attempt is enough for such a call never to return |
| Txn.AddNetNodeReturns | internal/store/sqlite.go:470-520 | a call of AddNetNode never keeps itself waiting: it returns whatever its attempts meet |
| Txn.ChangedSurvivesRetry | internal/store/sqlite.go:470-520 | AddNetNode reports a change exactly if some attempt, not only the committed one, found one to make |
| Txn.RetryReportsUncommittedChange | internal/store/sqlite.go:514-518 | a case in which it reports a change and commits none |
| Migration.InitSchema | internal/store/sqlite.go:106-165 | the upgrade loop: all that it selects and the last version recorded, or an error and no change |
| Migration.SelectsAllLater | internal/store/sqlite.go:148-156 | the loop runs all later migrations, once and in order, exactly if they ascend in the list |
| Migration.InitSchemaUpgrades | internal/store/sqlite.go:147-163 | with an ascending list initSchema is that reference upgrade |
| Migration.PathIndependence | internal/store/sqlite.go:78-165 | upgrading through a prefix of the list and then the whole equals upgrading directly; repeating changes nothing |
| Migration.StartsAtVersionTwo | internal/store/sqlite.go:73-165 | the first start creates the tables, runs migration 2 and starts the counter at 1; version 1 gets migration 2; later ones are left |
| Announce.IgnoredOnlyIfUnchanged | internal/announce/announce.go:79-126 | a change is ignored only if taking it over would leave the content as it is, or if it reports other channels that could not be read; only the latter is not taken over |
| Announce.ChannelsIgnoredIff | internal/announce/announce.go:97-121 | a report of channels is ignored exactly if they could not be read, or are the current ones and those are sorted |
| Announce.AccumulatedIsTakenOver | internal/announce/announce.go:77-126 | the content is what taking every change over gives, up to channel order, if and only if the last report of channels was read or told nothing new; address and owner always agree |
| Announce.UnreadReportIsLost | internal/announce/announce.go:97-102 | a channel whose report could not be read is in no announcement until a later report is read |
| Announce.TimerNeverBlocks | internal/announce/announce.go:127-143 | at the loop head the timer is armed or one tick waits, never both; the drain never blocks; no stale tick survives a Reset |
| Announce.AnnouncementFreshness | internal/announce/announce.go:75-149 | while changed valid content waits, every accepted change has been handled and the deadline is 10 seconds after the last one was |
| Announce.RenewalDeadline | internal/announce/announce.go:135-143 | while no change is accepted, the timer stands for exactly 24 hours after the last tick was handled, or has gone off since |
| Announce.RenewalSpacing | internal/announce/announce.go:135-143 | two publications with no accepted change between them are at least 24 hours apart |
| Announce.RenewedInTime | internal/announce/announce.go:75-149 | if the loop never lags, valid content always has a publication at most 24 hours old, and an accepted change is published within 10 seconds |
| Announce.DueIsPublished | internal/announce/announce.go:135-143 | from its deadline the loop can go round, publishing valid content and arming the timer for 24 hours |
| Announce.PublishesAccumulated | internal/announce/announce.go:135-143 | each publication carries the content accumulated so far, which is all changes taken over exactly if the last report of channels was heard; it is made exactly if that content is valid |
| Announce.ChangeReturnsToHead | internal/announce/announce.go:76-133 | the loop's single steps take a change from loop head to loop head with exactly the effect the service object's method states |
| Announce.Announcer.Apply | internal/announce/announce.go:79-126 | the switch on a change message, with the store write for a new owner, whose failure is only logged |
| Announce.Announcer.Differs | internal/announce/announce.go:109-115 | the comparison loop finds whether the channels differ |
| Announce.Announcer.OnChange | internal/announce/announce.go:77-133 | one change from loop head to loop head, with the owner's store write and stop, drain and reset |
| Reuse.AnnounceTableSound | internal/announce/announce.go:197-210 | over any history the stored row is the placeholder or this node's announcement, its signature and its signing time plus 24 hours |
| Reuse.StartupContent | internal/announce/announce.go:152-172 | startup goes on with the configured address and port, the stored channels sorted, and the stored owner if there is one |
| Reuse.StartupIsCurrent | internal/announce/announce.go:152-222 | what startup publishes is this node's announcement of the configured address, the stored channels sorted and the stored owner, validly signed, under 24 hours old, with exactly its remaining life as delay; what it signs it stores |
| Reuse.RestartIsCurrent | internal/announce/announce.go:152-190 | so it is after any history of announcements, owner changes and restarts, with the owner set last |
| Reuse.ReusedIff | internal/announce/announce.go:174-187 | a stored announcement is reused exactly if it is full, unexpired and says what the node would say now |

## Left out

- Gossip.FloodTerminates: says what is enough for one starting state; for a single state with two payloads under way, whether a flood ends depends on the order of delivery.
- Announce.AnnouncementFreshness: speaks of any run, so its 10 seconds run from the moment the loop has finished handling the last accepted change; `Announce.RenewedInTime` counts them from receipt, for a loop that never lags.
- Dialing, listening, DNS lookup, peer selection and the sleeps between them: input and output; any dial may happen in the model, and that the dialing loop ends after a refused connection is not modelled.
- forwardToHandlers and what is written to protocol handlers: whether an unbuffered send finds its receiver is a matter of timing.
- The bind message exchange with protocol handlers: a handler is served from the moment it is tracked.
- The peer's address, which any relayed announcement overwrites, is used for logging only.
- fetchPublicAddress and the reflector client: an HTTP client; the address it finds is part of the starting content.
- NodeList, NetStats, ChooseNetNode and the two Sample functions: read-only queries; picking a stored announcement for re-gossip is a step of the peer system.
- The web interface, the command line and the trimmer's timer: trimming may happen at any time.
- The partial effects of a failed write on the wire.
