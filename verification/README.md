# driftnode: a verified model of replication, projection and push

driftnode replicates signed, append-only event logs between peers, projects them into derived
state (follow set, profile, feed), and pushes changes to clients. This project models that core
in Dafny and proves what its parts promise. The in-place parts of the original are classes and
methods with loops, proved against functions; the protocols are state machines, proved over all
their runs.

| file | what it models |
|---|---|
| `Events.dfy` | events, identifiers, signing, which kinds a log admits, bytewise key order |
| `Projection.dfy` | the stable sorts, follow-set replay, profile, tombstones, the feed |
| `Buckets.dfy` | a bucket of events and its merge: union by identifier, one Like per author and target |
| `Accounts.dfy` | own logs, sequence numbers, follow and pin cache, backups, whole account runs |
| `Signing.dfy` | several callers signing at once, transaction by transaction |
| `Following.dfy` | several callers following and unfollowing at once |
| `Timeline.dfy` | the two feed loaders and the interaction counts, as functions |
| `Store.dfy` | the store object: one method per transaction, tied to Buckets, Accounts and Timeline |
| `Wire.dfy` | length-prefixed framing over a byte stream |
| `Cursor.dfy` | the pull cursor as a machine: appends, overlapping pulls, cuts at any point |
| `Reach.dfy` | what later pulls can and cannot still bring, for an owner whose clock falls behind |
| `Witnesses.dfy` | concrete runs of the cursor machine |
| `Session.dfy` | serving and pulling a log, and the refinement of the cursor machine |
| `Protocol.dfy` | a two-peer session over a rendezvous connection, whole or cut anywhere |
| `Feeds.dfy` | which lists are a feed of a store, and when an older feed is still right |
| `Daemon.dfy` | feed cache, invalidation, broadcast and subscribe, interleaved step by step |
| `FeedSteps.dfy` | undisturbed reads and posts as runs of the interleaved steps |
| `FeedCache.dfy` | the same operations as methods of the daemon object, tied to these runs |
| `Crawler.dfy` | the resumable, bounded breadth-first crawl |
| `FeedPanel.dfy` | the client's feed list |

Conventions. A digest is idealised as the canonical bytes it is taken over, so identifiers are
injective; the author is not part of them, as in the original. A signature is the pair of key
and signed bytes. A bucket is a finite map listed in key order. The clock is a parameter.

Places where the code and its comments, or an obvious reading of them, part ways. Each has an
exact condition and a concrete run:

- The pull cursor can go down: a pull that overlaps another may finish with an earlier cursor.
  `Cursors.FinishLowersExactly` says when, `Witnesses.OverlappingPullsLowerTheCursor` shows it,
  and `Cursors.SequentialPullsNeverLower` excludes it while pulls follow one another. Safety is
  not affected.
- An event that its owner signs at or before a peer's cursor may never be pulled by that peer.
  Pulls can still bring it exactly when one was under way before that can reach it
  (`Reach.StaleAppendIsMissed`). `Witnesses.StaleEventIsMissed` shows one lost for good,
  `Witnesses.EarlierPullRescues` one that is not.
- A Like that the owner signed is dropped by a peer that already has another Like of the same
  target, signed on another device of the owner, and the cursor passes over it. Everything
  proved about completeness therefore says that an event is held unless it is such a displaced
  Like (`Buckets.HeldUnlessDisplaced`, `Witnesses.DisplacedLikeIsPassedOver`).
- A session that merges nothing but a Delete leaves the cached feed stale when, and only when,
  the Delete targets a post the feed shows (`Feeds.StaleExactlyOnDelete`,
  `FeedSteps.SyncedDeleteLeavesAStaleFeed`). Over whole runs that is the only way it goes stale
  with no invalidation pending: exactly when it shows a post since deleted
  (`DaemonFeed.CacheIsStaleExactly`). No post is lost on subscribe even so
  (`DaemonFeed.NoPostIsLost`).
- Two calls of SignAndAppend that interleave can share a sequence number
  (`Signing.InterleavedCallsShareANumber`). The number a call has taken stays above every one
  held if and only if no event has entered that log since from a call whose own count was at
  least as high (`Signing.NumberIsFreshExactly`). The range of the numbers and the one Like per
  target survive every interleaving (`Signing.ConcurrentSigningKeepsOwnLogs`).
- Two Likes of one target that interleave both report a new event, and one of these is not in
  the log (`Signing.InterleavedLikesReturnAnUnheldEvent`): a returned event is held if and only
  if no other Like of its target is (`Signing.ReturnedIsHeldUnlessDisplaced`).
- A Follow overtaken by an Unfollow between its two transactions leaves a follow edge in the
  cache that the log does not replay to (`Following.OvertakenFollowLeavesAnEdge`). Cache and
  replay agree if and only if for every target the edge recorded last is of the kind signed last
  (`Following.CacheAgreesExactly`).

## Model

| member | source | states |
|---|---|---|
| Events.IdIsInjective | internal/core/event.go:167-173 | equal identifiers mean equal events; the author plays no part |
| Events.Sign | internal/core/event.go:126-140 | signing succeeds exactly for a timestamped event of one of the nine pairs of log and kind, and what it returns verifies under the key |
| Events.VerifiedExactlyWhenSigned | internal/core/event.go:144-164 | an event verifies if and only if signing it with its author's key yields it, so the same nine pairs are accepted |
| Events.VerifiedEventIsItsId | internal/core/event.go:144-164 | verified events of one author are told apart by their identifiers |
| Events.BeforeIsLexicographic | internal/store/store.go:230-247 | the key order of a bucket is lexicographic by bytes |
| Projection.FollowSet | internal/core/log.go:109-116 | the loop over the time-sorted log computes the replay: a key is in it if and only if its last Follow or Unfollow by time, sequence and input position is a Follow |
| Projection.FollowSetIsLastWordWins | internal/core/log.go:94-116 | a key is in the follow set if and only if its last Follow or Unfollow by time, sequence and input position is a Follow |
| Projection.FollowSetIgnoresInputOrder | internal/core/log.go:20-32 | two listings of the same events give the same follow set when no opposed pair for one key shares time and sequence |
| Projection.NewestEventDecides | internal/core/log.go:94-116 | an event strictly later than the log decides its own target and no other, wherever it stands in the input |
| Projection.Profile | internal/core/log.go:36-49 | the newest profile event wins, the last in the input among equals; events before time zero never count |
| Projection.SecondSortIsStable | internal/core/log.go:154-160 | the second sort, by time alone, keeps sequences ascending within one instant |
| Projection.Tombstoned | internal/core/log.go:120-130 | exactly the identifiers that some Delete of the log targets |
| Projection.NonTombstonedPosts | internal/core/log.go:134-150 | the posts of the log that no Delete of the log targets, in time order |
| Projection.FeedProjection | internal/core/log.go:120-160 | the feed holds each post that no Delete of the log targets, with its multiplicity, and nothing else; newest first, by sequence within one instant |
| Buckets.InsertEffect | internal/store/store.go:271-299 | an insert keeps buckets keyed with one Like per pair, keeps every old entry, and leaves the event covered |
| Buckets.HeldUnlessDisplaced | internal/store/store.go:288-294 | a covered event is held if and only if no other Like of its pair has displaced it |
| Buckets.MergeIsIdempotent | internal/store/store.go:271-299 | merging anything a second time, in any order and with repetitions, changes nothing |
| Buckets.MergeConverges | internal/store/store.go:271-299 | the same events of one author in any order and with any repetition, merged into a bucket whose Likes are that author's, give the same non-Like events, the same liked pairs with one Like each, and the same size |
| Buckets.MergeIsNoSmaller | internal/store/store.go:375-383 | a merged log is at least as large as each part, although duplicate Likes are dropped |
| Buckets.MergeKeepsSequences | internal/store/store.go:375-383 | merging a backup keeps every sequence number in 1..size and one Like per target |
| Buckets.NextSequenceIsFresh | internal/store/events.go:75-85 | an event stamped with size + 1 has an identifier the log does not hold |
| Buckets.ListingOfExtended | internal/store/store.go:230-247 | a new event takes one place in the key-order listing and the others keep their order |
| Accounts.SigningAppends | internal/store/events.go:57-92 | a signed event enters its log as one more entry, with a sequence number above every one held; other logs stay |
| Accounts.SigningKeepsOwnLogs | internal/store/events.go:57-92 | signing keeps own logs well formed: sequences in range, one Like per target, one author |
| Signing.ConcurrentSigningKeepsOwnLogs | internal/store/events.go:57-92 | however the three transactions of any number of calls interleave, own logs only grow and keep sequences in 1..size and one Like per target |
| Signing.UndisturbedCallIsAfterSigning | internal/store/events.go:57-92 | three transactions in a row do what one call of SignAndAppend does |
| Signing.NumberIsFreshExactly | internal/store/events.go:75-85 | over every run since a call counted, its number is above every one held if and only if no append by a call whose count was at least as high has entered that log |
| Signing.UndisturbedNumberIsFresh | internal/store/events.go:75-85 | in particular if the log has not grown since it was counted |
| Signing.InterleavedCallsShareANumber | internal/store/events.go:75-85 | a run in which two calls leave two events of the same number |
| Signing.ReturnedIsHeldUnlessDisplaced | internal/store/events.go:57-92 | over every run, the earlier Like a call returns is held, and a new event it returns is held if and only if no other Like of its target is |
| Signing.InterleavedLikesReturnAnUnheldEvent | internal/store/events.go:57-92 | a run in which two calls like one target, both return a new event, and the log lacks one of them |
| Accounts.EdgeDecides | internal/store/events.go:98-131 | a signed Follow adds its target to the replay and an Unfollow removes it, when the clock is not behind the log |
| Following.SignsDecide | internal/store/events.go:98-131 | over every interleaving of follows and unfollows the replay follows exactly the targets whose last signed edge is a Follow |
| Following.RecordsDecide | internal/store/events.go:98-131 | and the cache has exactly the targets whose last recorded edge is one |
| Following.CacheAgreesExactly | internal/store/events.go:98-131 | so the cache agrees with the replay if and only if for every target both are of the same kind |
| Following.UndisturbedCallIsFollow | internal/store/events.go:98-131 | the two transactions in a row do what one call of Follow or Unfollow does |
| Following.OvertakenFollowLeavesAnEdge | internal/store/events.go:98-131 | a run that ends with every call over and an edge in the cache that the log does not have |
| Accounts.ImportKeepsAccount | internal/store/store.go:375-427 | importing any well-formed backup of the same identity keeps sequences, Like uniqueness and the agreement of cache and replay |
| Accounts.BackupRoundTrip | internal/store/store.go:349-398 | an export imported into an empty store restores every own log, the verified set, follows and pins |
| Accounts.BackupRestoresInto | internal/store/store.go:349-398 | an export imported into any account of the same identity gathers both sets of own logs, restores the verified set unless it was empty, and leaves pinned exactly the exported pins that are still followed |
| Accounts.ImportedPins | internal/store/store.go:375-398 | the pins after an import are those of the backup that are followed, whatever was pinned before |
| Accounts.AppendAllMeans | internal/store/store.go:375-383 | merging a list of own events replaces nothing, adds only events of the list to their own log, and covers all of the list |
| Accounts.ImportIsIdempotent | internal/store/store.go:375-398 | importing the same backup again changes nothing, whatever it holds |
| Accounts.RunKeepsAccount | internal/store/store.go:404-427 | over every admissible run of follow, unfollow, sign, pin, unpin and import the cache equals the replay, pins are follows, and sequences stay in range |
| Timeline.TimelineMembers | internal/store/store.go:804-889 | how often the loaders return an event: once for the own PostLog, once if its author is in the replayed follow set and caches it |
| Timeline.CachingKeepsAuthorKeyed | internal/store/store.go:271-299 | both ways of writing to the cache keep the PostLog events under an identity its own, which the count above relies on |
| Timeline.CountsAddUp | internal/store/store.go:898-1062 | the counts add up to the number of own events whose reference is held |
| Timeline.LikesAreBounded | internal/store/store.go:985-1062 | no author is credited with more Likes than it has indexed events |
| Stores.CursorRoundTrip | internal/store/store.go:734-756 | the 8 stored bytes of every 64-bit timestamp read back as that timestamp |
| Stores.BytesAreACursor | internal/store/store.go:734-756 | and any 8 stored bytes record exactly one 64-bit timestamp |
| Stores.Store.ExistingLikeID | internal/store/events.go:19-36 | the scan finds a Like event of that author and target if and only if there is one |
| Stores.Store.AppendOwnEvent | internal/store/store.go:201-226 | the event enters its log unless the identifier, or a Like of the same author and target, is there; other logs stay |
| Stores.Store.PutCrawledEvent | internal/store/store.go:271-299 | the event enters its author's bucket unless the identifier, or a Like of the same author and target, is there, which the result tells; other buckets stay |
| Stores.Store.PutCrawledProfile | internal/store/store.go:473-489 | the event is held under the crawled identity afterwards; every key and every Like of the bucket stays, and other buckets are untouched |
| Stores.Store.CrawledProfiles | internal/store/store.go:493-513 | the ProfileLog events of the author's bucket, in key order |
| Stores.Store.OwnEvents | internal/store/store.go:230-247 | the events of a log, each once, in key order |
| Stores.Store.SignAndAppend | internal/store/events.go:57-92 | undisturbed: the existing Like for a repeated one; otherwise refused exactly without a time or outside the nine pairs of log and kind, and else one fresh, verified entry with the given payload, log, time and next sequence number |
| Stores.Store.FollowIdentity | internal/store/events.go:98-111 | signs a Follow whenever there is a time, and records the edge without a pin, also when it repeats one; other records stay |
| Stores.Store.UnfollowIdentity | internal/store/events.go:118-131 | signs an Unfollow whenever there is a time, and drops that record only |
| Stores.Store.PinIdentity | internal/store/store.go:1212-1222 | pins if and only if the identity is followed |
| Stores.Store.UnpinIdentity | internal/store/store.go:1226-1237 | clears the pin and drops a record left without flags |
| Stores.Store.RebuildFollowState | internal/store/store.go:404-427 | the cache becomes exactly the replayed edges, unpinned |
| Stores.Store.PutPinnedIdentities | internal/store/store.go:1265-1281 | pins land on existing follow edges and nowhere else |
| Stores.Store.ExportBackup | internal/store/store.go:349-367 | the three own logs, the verified set and the pins, or nothing without a key |
| Stores.Store.ImportBackup | internal/store/store.go:375-398 | replaces the verified set unless the backup has none, keeps every own event and covers every imported one, rebuilds the follow records from the merged log and pins exactly those of the backup among them |
| Stores.Store.SyncCursor | internal/store/store.go:734-747 | zero when nothing is recorded, and for every 64-bit timestamp that was recorded, that timestamp |
| Stores.Store.PutSyncCursor | internal/store/store.go:750-756 | changes that one cursor to the eight big-endian bytes of the timestamp, which then reads back |
| Stores.Store.FollowGraph | internal/store/store.go:556-567 | the identities whose last word in the own ProfileLog is a Follow |
| Stores.Store.AllPosts | internal/store/store.go:804-825 | as a multiset, the own PostLog and the cached PostLogs of the replayed follows |
| Stores.Store.AllPostsOneTx | internal/store/store.go:831-889 | the single-transaction loader returns the same multiset |
| Stores.Store.HeldIndex | internal/store/store.go:901-958 | the index has exactly the held PostLog events, each under an author that holds it |
| Stores.Store.OutboundLikes | internal/store/store.go:985-1062 | each author is credited with the number of own Like events whose target is indexed under that author, and nobody else is listed |
| Stores.Store.OutboundReplies | internal/store/store.go:898-979 | the same for own posts that reply to an indexed event |
| Wire.BigEndianRoundTrip | internal/sync/sync.go:146-149 | a length in range survives the big-endian prefix |
| Wire.Stream.WriteMsg | internal/sync/sync.go:138-155 | appends four length bytes, most significant first, and the encoding, or nothing above 16 MiB |
| Wire.Stream.ReadMsg | internal/sync/sync.go:158-179 | consumes one such frame, with the original's error for each way it can be short, empty, oversized or undecodable |
| Wire.TruncatedStream | internal/sync/sync.go:134-179 | any byte-level truncation yields exactly the messages with complete frames, then EOF at a frame or prefix boundary and an unexpected EOF elsewhere |
| Wire.StreamRoundTrip | internal/sync/sync.go:134-179 | written messages come back in order, then EOF |
| Cursors.RequestedEvents | internal/sync/session.go:179-193 | the reply holds exactly the events after the requested time, oldest first |
| Cursors.FinishIsSafe | internal/sync/session.go:637-657 | no event that a finishing pull leaves behind is at or before the cursor it records |
| Cursors.MoveKeepsInv | internal/sync/session.go:579-630 | every append, start, answer, receipt, finish, abort and arrival keeps the cursor invariant |
| Cursors.CursorNeverStepsOver | internal/sync/session.go:579-657 | over all interleavings of appends, arrivals, crawls and cut or overlapping pulls, the cursor is not negative, and every log event up to it is held unless it is a displaced Like |
| Cursors.CompletePullHoldsTheLog | internal/sync/session.go:579-630 | after a complete pull the puller holds all the log held when the owner answered, but for displaced Likes, whatever was missed before |
| Cursors.SequentialPullsNeverLower | internal/sync/session.go:637-657 | whatever the owner's clock does, over every run in which no pull starts while another is in flight the cursor never goes down |
| Cursors.FinishLowersExactly | internal/sync/session.go:637-657 | finishing lowers the stored cursor exactly when another pull had raised it past this one's start and the window behind its newest event |
| Witnesses.OverlappingPullsLowerTheCursor | internal/sync/session.go:637-657 | an admissible run that lowers the cursor from 700 seconds to 100 |
| Witnesses.DisplacedLikeIsPassedOver | internal/store/store.go:288-294 | an admissible run in which the cursor passes a Like of the owner that the peer does not hold |
| Reach.DeliverableExactlyInReach | internal/sync/session.go:579-657 | in every state, some future of pulls brings an uncovered log event if and only if it is later than the cursor or a pull in flight has it under way, is still to be answered from before it, or can move the cursor back before it |
| Reach.MissedForGood | internal/sync/session.go:579-657 | an event out of reach stays uncovered over every run in which no other way brings it |
| Reach.StaleAppendIsMissed | internal/sync/session.go:579-657 | a fresh event is safe to sign if and only if it is later than the cursor; otherwise pulls bring it exactly when one that was under way before reaches it |
| Witnesses.StaleEventIsMissed | internal/sync/session.go:579-657 | a run after which an event of the log can never be pulled |
| Witnesses.EarlierPullRescues | internal/sync/session.go:579-657 | a run in which an event behind the cursor can still be pulled |
| Sessions.ZensRoundTrip | internal/sync/session.go:782-794 | references sent as rich items arrive unchanged, those sent as bare tokens without identity and name |
| Sessions.Server.FetchEvents | internal/sync/session.go:136-193 | exactly the events of the requested log, or of the requested author's bucket, after the requested time, in time order; the fallback to crawled profiles finds nothing, since it reads the same bucket |
| Sessions.Server.HandleRequest | internal/sync/session.go:65-84 | the answer is batches of 64, oldest first, and a final Done |
| Sessions.Session.MergeEvent | internal/sync/session.go:796-813 | own events go to the own log, others to their author's bucket, and the result says which merges count as new |
| Sessions.Session.AdvanceCursor | internal/sync/session.go:643-657 | the cursor of this peer and log becomes the newest time less five minutes, but not below the requested time; nothing is written when nothing arrived |
| Sessions.Session.PullLog | internal/sync/session.go:579-630 | asks for what is later than the given time and the timestamp recorded for this peer and this log; for any inbox and any way of ending, only verified events that arrived before Done are merged, all of them are covered, nothing held is replaced, and the new cursor and the count are stated |
| Sessions.StartIsTheLater | internal/sync/session.go:580-586 | the start of a pull is the later of the given time and the one recorded for that peer and log, whatever is recorded elsewhere |
| Sessions.StartIsSafe | internal/sync/session.go:580-589 | if what precedes the given time and the recorded one is covered, the request asks for every event that is not |
| Sessions.NewestSetsCursor | internal/sync/session.go:607-657 | the cursor a pull stores is five minutes before the newest verified event that arrived, in whatever order, but not before the requested time; other cursors stay |
| Sessions.PullFromPeer | internal/sync/session.go:579-630 | events of one peer land in its bucket alone, and the count is what the bucket gained |
| Sessions.PullFromTwin | internal/sync/session.go:796-813 | events of another device of the same identity land in the own logs and nowhere else |
| Sessions.MergeAllMeans | internal/sync/session.go:796-813 | merging any list replaces nothing, adds own events to their log and others under their author, and covers the whole list |
| Sessions.CutReplyIsPrefix | internal/sync/session.go:65-84 | a reply cut after k messages delivers exactly the oldest 64 k events |
| Sessions.PullRefinesMachine | internal/sync/session.go:579-630 | pulling a reply cut after any message does what the cursor machine does when it receives those events one by one and finishes |
| Sessions.BatchRefinesReceives | internal/sync/session.go:600-616 | merging one message does what that many receipts do from any state of the machine, so other pulls may act between messages |
| Sessions.StoredIsAdvanced | internal/sync/session.go:643-657 | the bytes that a pull stores read back as the cursor the machine advances to |
| Sessions.CutPullRefinesMachine | internal/sync/session.go:579-657 | a connection cut at any byte ends the pull cleanly, and bucket and stored cursor are those of the machine after receiving a prefix of what was under way and finishing |
| Sessions.WholePullRefinesMachine | internal/sync/session.go:579-657 | the same from the reading of the cursor on: request, answer, a cut at any byte and the stored cursor are a start, an answer, receipts and a finish of the machine |
| Protocol.NoSessionWithoutProof | internal/sync/session.go:440-512 | whatever messages it gets, a peer pulls, serves or exchanges references only after it has heard the other identity's signature over its own nonce |
| Protocol.AskIsTheRequest | internal/sync/session.go:580-589 | a peer of the session model asks for what PullLog asks for with the same recorded cursors |
| Protocol.EndIsTheRecord | internal/sync/session.go:643-657 | and ends a pull with the cursors that PullLog stores, those of other peers and logs untouched |
| Protocol.CourseMoves | internal/sync/session.go:449-569 | at every point but the last some step is possible, and every possible step leads to the next point with one step less to go |
| Protocol.SessionProgress | internal/sync/session.go:449-569 | two honest peers, be they two devices of one identity, never deadlock, no session is longer than its fixed length, and a run of that length has closed both sides |
| Protocol.PullDelivers | internal/sync/session.go:579-630 | given a safe cursor, one pull leaves all positive-time events of that log covered where the puller keeps them: its own log for its own identity, else the bucket of that author |
| Protocol.CutStaysInSync | internal/sync/session.go:579-657 | a pull that ends after any number of its events leaves both peers with safe cursors for what the other has, and with everything they held |
| Protocol.CutSessionStaysInSync | internal/sync/session.go:449-569 | a session broken off after any number of steps, whichever sides see it close, leaves the cursors of both peers safe for what the other then has |
| Protocol.SessionResult | internal/sync/session.go:514-569 | at the end each has all positive-time events of the other's PostLog and ProfileLog covered, references went both ways, own logs have gained at most what the other device of the identity had, and the premise about cursors holds again |
| Protocol.OwnStaysApart | internal/sync/session.go:796-813 | between two identities own logs are unchanged |
| Protocol.CompleteMeansHeld | internal/sync/session.go:514-569 | covered in terms of held: everything but displaced Likes |
| Protocol.EverySessionDelivers | internal/sync/session.go:514-569 | in a series of sessions, any of them cut anywhere, cursors are safe at the start of each and every one that is not cut delivers in full, whoever opens it and whatever is signed ahead of the cursors, merged or crawled in between |
| Feeds.FeedIsExactly | internal/core/log.go:120-160 | a list is a feed of a set of events, in some loading order, if and only if it has each shown post as often as the set, nothing else, newest first and by sequence within one instant |
| Feeds.StillTheFeed | internal/daemon/daemon.go:318-342 | whatever happened to the store since, a feed of it is still one exactly when the shown posts are the same |
| Feeds.StaleExactlyOnArrival | internal/daemon/daemon.go:318-342 | it outlives the arrival of any further events exactly when none of them is shown and none hides a shown post |
| Feeds.StaleExactlyOnLoss | internal/daemon/daemon.go:318-342 | it outlives the loss of events exactly when none of them was seen in it |
| Feeds.StaleExactlyOnDelete | internal/daemon/daemon.go:2034-2038 | storing an event that is no post without invalidating leaves the cached feed right if and only if it deletes no shown post |
| DaemonFeed.ActKeepsInv | internal/daemon/daemon.go:318-351 | every step of every writer, reader and subscriber keeps the cache and delivery invariant, Deletes of shown posts included |
| Feeds.FeedCounts | internal/daemon/daemon.go:318-342 | a feed has each shown post exactly as often as the store does |
| DaemonFeed.CacheIsStaleExactly | internal/daemon/daemon.go:318-351 | in every interleaving a cached feed lacks only posts whose invalidation is pending, is the feed of the store exactly when it shows what the store shows, and with no invalidation pending exactly when it shows no post since deleted |
| DaemonFeed.CacheIsCoherent | internal/daemon/daemon.go:318-351 | when a Delete of a shown post comes only from a writer bound to invalidate, a cached feed is the feed recomputed from the store unless some writer has stored a post and not yet invalidated |
| DaemonFeed.NoPostIsLost | internal/daemon/server_grpc.go:392-419 | in every interleaving, once a broadcast is done, each undropped subscriber with its snapshot has the post in it, queued or delivered |
| DaemonFeed.DroppedExactly | internal/daemon/daemon.go:172-191 | over every run a subscriber is dropped if and only if it leaves or some push finds 256 waiting for it |
| DaemonFeed.QueueConserves | internal/daemon/daemon.go:172-191 | over every run what was delivered followed by what waits is every accepted push, once and in order |
| FeedSteps.SyncedDeleteLeavesAStaleFeed | internal/daemon/daemon.go:2034-2038 | a run that ends with every writer done and a cached feed that shows a deleted post |
| FeedSteps.CachedPostsIsARead | internal/daemon/daemon.go:318-342 | an undisturbed call of cachedPosts is a run of the interleaved steps with that outcome |
| FeedSteps.HandlePostIsARun | internal/daemon/daemon.go:1101-1119 | an undisturbed post is a run of the interleaved steps: it stores, invalidates and pushes to every subscriber, and changes nothing else |
| FeedCaches.Daemon.CachedPosts | internal/daemon/daemon.go:318-342 | a hit returns the cache, a miss rebuilds and publishes the store's feed; as a state of the machine the object moves along a run of its steps |
| FeedCaches.Daemon.Broadcast | internal/daemon/daemon.go:172-191 | every subscriber with fewer than 256 waiting gets the event behind these and stays, any other is dropped and gets nothing |
| FeedCaches.Daemon.RemoveSubscriber | internal/daemon/daemon.go:264-273 | removes that subscriber and no other |
| FeedCaches.Daemon.HandlePost | internal/daemon/daemon.go:1088-1121 | refused exactly without a time; otherwise the post is stored and joins the feed's sources, the cache is gone under a new generation, and every subscriber has been pushed the post or, with 256 waiting, dropped; when the post is new, the object moves along a run of the machine's steps |
| FeedCaches.TimelineGrows | internal/daemon/daemon.go:1101-1108 | a new own post joins the sources of the feed and nothing else changes |
| FeedCaches.FollowStaleExactly | internal/daemon/daemon.go:1408-1418 | a follow leaves a cached feed right if and only if the target is followed already or none of its cached events is seen in the feed |
| FeedCaches.UnfollowStaleExactly | internal/daemon/daemon.go:1425-1447 | an unfollow leaves it right if and only if the target was not followed or nothing of it was seen in the feed |
| Crawlers.Crawler.Seed | internal/crawler/crawler.go:63-71 | appends the unvisited seeds in order |
| Crawlers.Crawler.Neighbours | internal/crawler/crawler.go:119-162 | after a fetched profile, exactly the unvisited identities whose last word there is a Follow or who signed a verified event of the followers fetch; none after a failed one |
| Crawlers.Crawler.StoreProfiles | internal/crawler/crawler.go:122-133 | the verified ProfileLog events of a fetch end up under that identity, the last of equal identifiers on top; other identities stay |
| Crawlers.StoredKeeps | internal/store/store.go:473-489 | a crawl loses no event, disturbs no Like, and leaves the bucket well formed |
| Crawlers.StoredHolds | internal/store/store.go:473-489 | it holds every event it was to store, and whatever it changed is one of these |
| Crawlers.StoredExactly | internal/crawler/crawler.go:122-133 | under each identifier the last verified ProfileLog event of the fetch that has it, and otherwise what was there before |
| Crawlers.Crawler.RunLevel | internal/crawler/crawler.go:102-164 | a level visits its whole batch or stops at the cap, fetches each visited identity once, and queues every unvisited neighbour |
| Crawlers.Crawler.Run | internal/crawler/crawler.go:76-172 | the new state after a full run, bounds and a lost frontier after a cancelled one, each identity fetched once across runs, the number of answered fetches, and the profile events of exactly these stored |
| Crawlers.CrawlIsExact | internal/crawler/crawler.go:91-169 | a fresh uncancelled run visits exactly the identities joined to a seed by a path shorter than the depth, if and only if the cap admits them; otherwise it stops at the cap inside that set |
| Crawlers.CrawlFindsExactly | internal/crawler/crawler.go:91-169 | the same in terms of what is fetched: exactly the identities to which a trace of follows and follower events leads from a seed, over at most depth identities |
| Crawlers.ResumedRunIsOneRun | internal/crawler/crawler.go:73-75 | a levels and then b levels reach what a + b levels reach, within the cap |
| FeedPanels.PostLessIsStrictOrder | internal/tui/feed.go:52-57 | newer first, the larger identifier first within one instant: a strict order, total on distinct identifiers |
| FeedPanels.UpsertOrderIsIrrelevant | internal/tui/feed.go:63-92 | the same posts in any order with any repetition leave the same list, from any starting list |
| FeedPanels.UpsertKeepsOrder | internal/tui/feed.go:63-92 | an upsert keeps the strict order, the newest-first order of a snapshot, and distinct identifiers |
| FeedPanels.UpsertedMeans | internal/tui/feed.go:63-92 | an upsert replaces the first post of that identifier in its row, or inserts a new one above the first post that it precedes |
| FeedPanels.RemovedMeans | internal/tui/feed.go:96-108 | a removal takes out the first post of that identifier, or nothing |
| FeedPanels.ReplacementIsNotMoved | internal/tui/feed.go:67-72 | a replaced post stays in its row; the list stays newest-first exactly when the new time fits there |
| FeedPanels.RemoveKeepsOrder | internal/tui/feed.go:96-108 | a removal takes out that post and keeps the rest in order |
| FeedPanels.RemoveUndoesUpsert | internal/tui/feed.go:96-108 | removing a post just added restores the list |
| FeedPanels.FeedPanel.SetPosts | internal/tui/feed.go:44-48 | the snapshot as it comes; selection and offset stay where they are if that is in range, and else move to the last row and the last page |
| FeedPanels.FeedPanel.Upsert | internal/tui/feed.go:63-92 | the new list, the same post selected, selection and offset in range |
| FeedPanels.FeedPanel.Remove | internal/tui/feed.go:96-108 | the new list, the same post selected unless it was removed, then the next row or the last |
| FeedPanels.FeedPanel.Move | internal/tui/feed.go:208-223 | the selection moves by the step, clamped to the list, and ends inside the window |
| FeedPanels.FeedPanel.EnsureVisible | internal/tui/feed.go:231-242 | scrolls to show the selected row at the nearest edge, and not at all when it is in view |

## Left out

- Ed25519, BLAKE3, argon2, AES-GCM, CBOR and base32: replaced by symbolic signatures, injective identifiers, a lawful codec and keyed identities; that a nonce is fresh and a signature unforgeable is not part of the model.
- Widths other than the stored cursor and the 4-byte length: sequence numbers and generations are unbounded, and a log of 2^64 events is not modelled.
- Disk errors and the half-done states they cause: a merge that fails in the store is skipped by the original and a later event can carry the cursor past it; a crash between the two transactions of a follow leaves cache and log apart.
- Clearing a bucket while iterating over it: modelled as the full clear it is meant to be.
- Stores.Store.SignAndAppend: one undisturbed call; its three transactions interleave with others in Signing only, and Signing has no imports, deletions or synced own events between them.
- Accounts.RunKeepsAccount: Follow and Unfollow are one step each; their two transactions interleave in Following. Own follow events that arrive by sync bypass the cache and are outside the runs, as are own logs holding several authors.
- Following.CacheAgreesExactly: signing an edge is one transaction there, no clock falls behind the log, and pins and imports are not interleaved.
- Buckets.MergeConverges: the merged events are of one author, which is what one bucket is given to merge; the bucket itself may hold crawled profile events of others.
- Cursors.CursorNeverStepsOver: appended timestamps are positive and later than the newest one less five minutes; what happens without that is Reach.StaleAppendIsMissed.
- Sessions.Server.FetchEvents: for another author the log name is not looked at, as in the original, so completeness is claimed for a peer's own logs only.
- Protocol.SessionResult: both peers are honest and hold their keys, and nothing is signed, crawled or merged from third peers during the session; a peer without a key skips the handshake, which is not modelled.
- Protocol.CutSessionStaysInSync: cuts fall between messages; a cut inside one ends the pull as a cut before it does, see Sessions.CutPullRefinesMachine.
- The counts returned by the two session entry points: they add requests served to events merged.
- Followers, Like and other requests inside a session, and the stand-alone client calls.
- DaemonFeed.CacheIsCoherent: runs in which a writer that has stored no post deletes a shown one are not among these; DaemonFeed.CacheIsStaleExactly covers them.
- DaemonFeed.ActKeepsInv: follow and unfollow change the feed without invalidating and are not steps; FeedCaches.FollowStaleExactly and FeedCaches.UnfollowStaleExactly say when they do harm. Posts of authors outside the follow set are not part of the feed's store.
- DaemonFeed.NoPostIsLost: a feed page is a slice of the modelled feed; slicing, names, likes and media shown with a post are not modelled.
- FeedCaches.Daemon.HandlePost: the parent identifier is taken as decoded, and the key as unlocked.
- Crawlers.Crawler.Run: seeding or resetting during a run, and a failed write of a profile event, which the original skips.
- Crawlers.ResumedRunIsOneRun: both runs uncancelled and within the cap; a cancelled run drops its frontier, as Crawlers.Crawler.Run states.
- FeedPanels.UpsertOrderIsIrrelevant: posts of one identifier agree in every field; when they differ the later one wins.
- FeedPanels.FeedPanel.SetPosts: the selection keeps its row, not its post, as in the original.
- Rendering, key and mouse handling beyond moving the selection, and the other lists of the client.
- Events with negative timestamps: no pull asks for them, so session completeness is stated for positive ones.
- Media, routing tokens, transport keys, likes of a set of posts, the name cache, the command line, gRPC, the tunnel transport and process control.
