# Durable Streams on actors: a verified model

The server keeps every stream in an actor of its own: a metadata row, messages,
producer states, fork edges, fork intents and queued releases. Streams can be
forked; a fork stores only its own messages and reads everything before its fork
offset from its source. Sources stay, soft-deleted if necessary, as long as a fork
holds an edge on them, and go with their last fork. This project models the
actors, the protocol between them, reads that span several of them, and the
writers' guarantees, and proves what they promise.

| File | What it holds |
|---|---|
| `Tables.dfy` | one actor's tables and the effect of every transaction on them, as functions |
| `StreamActor.dfy` | the actor as a class: handlers and transactions statement by statement, with rollback and change notification, each proved equal to its function |
| `Offsets.dfy`, `ForkOffsets.dfy` | offset strings: parsing, formatting, order, what `fork_acquire` accepts; which accepted fork offsets leave room for a fork's appends |
| `Cluster.dfy`, `ClusterProofs.dfy` | the protocol as a state machine, one step per committed transaction or executed remote action; fork creations and the lists that passes and flushes work from are volatile state, and crashes and lost replies its loss; runs; the invariant and its preservation |
| `ForkSafety.dfy` | what the invariant means: owners of edges, pinning, no garbage, acyclic forks, streams that never change hands |
| `Serialisation.dfy`, `Harm.dfy` | runs that lose a fork's source, or leak an edge, when one intent is in two hands; for every run, guarded or not, exactly which steps do harm |
| `ForkStart.dfy`, `ForkTypes.dfy`, `Lifetimes.dfy` | where a fork starts, which content type and lifetime it gets, how streams begin and expire |
| `Repeats.dfy` | what a PUT that is sent again is told |
| `GivenUp.dfy` | streams that are deleted or expire, with and without forks |
| `Logs.dfy`, `LogSafety.dfy`, `Isolation.dfy` | one stream's log and its invariant; flat logical logs of streams and forks: order, size, growth, isolation |
| `Stitch.dfy`, `Snapshot.dfy`, `Tail.dfy`, `LiveRead.dfy` | range reads, stitched reads, reads interleaved with anything else, what is reported about the tail, the catch-up loop, many rounds on a changing stream |
| `Witnesses.dfy` | reachable runs on the failing side of properties that hold only under a condition |
| `SubOffset.dfy` | forks that start inside the source's next message |
| `Maintenance.dfy` | reconciling intents, flushing releases, how much work that is under any interleaving, draining to rest, what is left then |
| `Admission.dfy`, `ContentTypes.dfy` | which requests are taken and what a rejection tells, how content types are compared |
| `Writers.dfy`, `Fencing.dfy`, `ExactlyOnce.dfy` | closure, Stream-Seq and producers over whole runs; what producers are told; a client that resends until acknowledged |
| `StoredBodies.dfy` | what is stored of the bodies of requests, over whole runs |
| `Framing.dfy` | JSON batches and server-sent events |
| `Options.dfy`, `Orders.dfy` | shared types, least elements of ordered sets |

A generation or an edge id, a fresh UUID in the program, is drawn from a counter
that never repeats. Clocks are step inputs. A remote action either executes
atomically at its target, and its answer may be lost, or it does not execute.

## Findings

- A pass of `reconcile_fork_intents` works from a list read at its start, does not
  take the lifecycle lock, and does not look again whether a listed intent is still
  there; the final transaction of `create_fork` does not look at its intent again
  either. Two runs after which a fork exists whose source does not:
  `Serialisation.OverlapUnpinsAFork`, where a pass overlaps a creation, and
  `Serialisation.StaleEntryUnpinsAFork`, where a creation is over before the pass
  comes to its entry. After `Serialisation.DoubleListingLeaksAnEdge` a source is
  pinned by an edge nobody remembers. The comment at `src/actor/fork.rs:126-127`
  calls a stray maintenance event harmless. `Harm.StepHarmsIff` and
  `Harm.RunHarmsIff` say for all steps and runs, whatever overlaps, exactly when
  damage is done: a fork is committed whose intent is gone; an edge is given up that
  its actor's fork has become; an edge is acquired for which no record speaks; an
  intent is dropped, or a release forgotten, while the source holds the edge. Looking
  at the intent row in the last transactions would rule out the first two
  (`Harm.IntendedIsHarmless`). The guard `Cluster.Serialised`, which asks that no
  intent be picked up or listed while another creation or another list still holds it,
  rules out all of them (`Harm.GuardedIsHarmless`, `ClusterProofs.StepKeepsInv`). Only
  the theorems about pinning, owners and maintenance depend on the guard; those about
  logs, reads and writers hold in every run.
- `fork_acquire` accepts any digits that do not sort below sixteen zeros or above the
  source's offset. All appends of such a fork succeed and sort, however they are cut,
  if and only if its offset has room for them (`ForkOffsets.ForkAppendsSortIff`):
  enough digits for the last offset, and no change in the number of digits on the way.
  With fewer than sixteen digits the first append can sort below the fork offset
  (`ForkOffsets.ShortForkOffsetExample`); with extra digits no append may ever succeed
  (`ForkOffsets.UnappendableExample`), or the second of two one-byte appends sorts below
  the first and is never read by whoever has read the first
  (`ForkOffsets.SecondAppendBelowFirstExample`).
- An empty batch is reported with the offset of fresher metadata. A message
  appended between the two looks is skipped; `Tail.ReportSkipsNothingIff` gives the
  exact condition, and `Witnesses.EmptyBatchSkipsAMessage` a run in which the reader
  is told that the stream is closed without having got its only message. A long poll
  that times out takes its closed flag from fresher metadata than its offset, with
  the same effect (`Tail.TimeoutClosureIsFinalIff`).
- A resumed fork creation that names another content type is not refused, because
  a known edge is answered from its row (`ForkSafety.TypeIsCheckedOnlyForNewEdges`).
  No other fork differs from its source in a type that its request names
  (`ForkTypes.ForkTypeDiffersIff`); `Witnesses.ForkOfAnotherType` is a run that ends
  with one that does.
- On a stream that somebody else has closed, a resent request is answered with a
  conflict even if it had been appended (`ExactlyOnce.ResendIsAcknowledged`, with
  the run `Witnesses.ResendIsTurnedAway`).
- Text with carriage returns does not come back unchanged from server-sent events
  (`Framing.UnchangedIffNoCr`).
- A PUT that made a stream and is sent again is recognised as long as the stream has
  not been closed since (`Repeats.RepeatedPutIsRecognisedIff`). A fork's PUT is also
  turned away, as asking for another configuration, if the fork took its lifetime over
  from its source: the request as it was sent is compared with what the creation made
  of it (`Repeats.RepeatedForkIsRecognisedIff`, the run
  `Witnesses.RepeatedForkIsTurnedAway`).

## Model

| member | source | states |
|---|---|---|
| Offsets.FormattedOrder | src/protocol.rs:147-158 | for components below 10^16 the order of offset strings is the order of the number pairs, in both directions |
| Offsets.OrderFailsAtSeventeenDigits | src/protocol.rs:157 | the first component with seventeen digits sorts before the last with sixteen |
| Offsets.AdvanceInStream | src/protocol.rs:147-158 | an append moves a stream's offset on by exactly 5 and the payload length and gives it at least sixteen byte digits |
| Offsets.AdvanceSortsAfter | src/protocol.rs:147-158 | an append sorts strictly after the offset it starts from if it needs no more digits than that one has |
| Offsets.AcceptedIsInStream | src/actor/fork.rs:55-63 | whatever offset string passes the acquire check is the stream's own read sequence followed by digits |
| ForkOffsets.ForkAppendsSortIff | src/actor/fork.rs:55-63 | for every accepted fork offset and number of bytes to come: all appends succeed and sort after the fork offset and after each other, however the bytes are cut into messages, if and only if the byte offset does not overflow, the fork offset has as many digits as the last offset needs, and, unless only one append fits, the first offset needs as many |
| ForkOffsets.RegularMeansRoom | src/protocol.rs:147-158 | a fork that has been appended to and that the log and read theorems cover has kept within the room of its fork offset; and while it keeps within a room of two appends or more, they cover it |
| ForkOffsets.ShortForkOffsetExample | src/actor/fork.rs:55-63 | an accepted fifteen-digit fork offset below which the fork's first append sorts |
| ForkOffsets.UnappendableExample | src/actor/fork.rs:55-63 | a fork offset with forty-six digits that every source with an append accepts and no append can follow |
| ForkOffsets.SecondAppendBelowFirstExample | src/actor/fork.rs:55-63 | a fork offset with extra digits that every source with an append accepts, after which the second one-byte append sorts below the first |
| Tables.SweepFindsRecent | src/store.rs:626-664 | the addressed producer is found exactly when its row is recent, and the sweep deletes only stale rows and changes none |
| StreamActor.Actor.AppendMessage | src/store.rs:324-355 | inserting the row and moving the current offset happen together or, on overflow or a duplicate key, not at all |
| StreamActor.Actor.InsertInChunks | src/store.rs:331-348 | a row inserted empty and grown in 64 KiB chunks ends as the whole payload at its place in the ordered table |
| StreamActor.Actor.GetProducerState | src/store.rs:626-664 | expires the addressed row, sweeps, and returns what is left of the producer |
| StreamActor.Actor.SweepStale | src/store.rs:641-646 | deleting the oldest stale row at most 64 times deletes exactly the stale rows with fewer than 64 older stale ones |
| StreamActor.Actor.PurgeStreamTx | src/actor/maintenance.rs:110-121 | a purge queues the fork's own edge for release and keeps intents and earlier releases |
| StreamActor.Actor.VisibleMeta | src/actor/lifecycle.rs:51-87 | a look at an expired stream soft-deletes it if forks hold edges and purges it otherwise, and wakes waiting readers once; any other look changes nothing and wakes nobody |
| StreamActor.Actor.HandleDelete | src/actor/lifecycle.rs:20-44 | a delete is acknowledged exactly for a live, unexpired stream, which is then soft-deleted if forks hold edges and gone otherwise, and readers are woken |
| StreamActor.Actor.ForkAcquire | src/actor/fork.rs:20-69 | a known edge is answered from its row in any state of the stream; a new one is recorded only for a live stream, a matching type and a reached offset |
| StreamActor.Actor.ForkRelease | src/actor/fork.rs:71-107 | a release of another generation or an unknown edge does nothing; the last one of a soft-deleted stream purges it |
| StreamActor.Actor.RememberIntent | src/actor/fork.rs:118-135 | an identical remembered attempt is resumed with its edge, otherwise the new edge is persisted |
| StreamActor.Actor.CommitFork | src/actor/fork.rs:297-343 | the fork appears with prefix and body and loses its intent in one transaction, or everything is rolled back and the edge becomes a release |
| StreamActor.Actor.ReleaseAcquired | src/actor/fork.rs:359-373 | intent and queued release are exchanged in one transaction |
| StreamActor.Actor.ComparePut | src/actor/write.rs:75-122 | a PUT looks at its path, and a stream that is there is compared with the request, statement by statement |
| StreamActor.Actor.HandlePut | src/actor/write.rs:162-186 | a visible stream is left alone, otherwise one is created with its first message or not at all, and the result says which |
| Lifetimes.NothingIsLeft | src/store.rs:384-394 | in no run is anything left, in a path's messages, producers or edges, of a stream that is gone |
| Lifetimes.PutCreates | src/actor/write.rs:82-186 | a PUT creates a stream exactly where the path is free, as asked for and with nothing of an earlier one; otherwise the stream there keeps its contents and configuration |
| Lifetimes.ExpiresWhen | src/store.rs:115-134 | a stream has expired if and only if its deadline has passed or its seconds to live have, in milliseconds, since its last access |
| Lifetimes.LifeGoesOn | src/actor/write.rs:304-326 | while a stream is there its deadline and time to live stay, and the time of its last access moves with reads, appends and closures and nothing else |
| StreamActor.Actor.PostInTransaction | src/actor/write.rs:273-326 | producer check, Stream-Seq check, append, producer row, Stream-Seq, closure and access time all commit, or none does, including the producer sweep |
| StreamActor.Actor.HandlePost | src/actor/write.rs:202-327 | every rejection in the source's order, and the committed effect otherwise; whenever what readers see changes, they are woken |
| StreamActor.Actor.HandleCloseOnly | src/actor/write.rs:329-390 | a closing request without a body: first by a producer, repeated, rejected, or without a producer |
| ClusterProofs.StepKeepsInv | src/actor/fork.rs:109-373 | every serialised protocol step, including crashes, lost replies, and actions repeated from a list that is no longer true, keeps the invariant that relates all actors |
| ClusterProofs.RunKeepsInv | src/actor/maintenance.rs:26-121 | so every reachable state satisfies it |
| ForkSafety.SingleResponsibleOwner | src/actor/fork.rs:122-135 | an edge held at a source is recorded in exactly one of intent, metadata or release of exactly one actor, with the right source, generation and offset, and at no other source |
| ForkSafety.ForksArePinned | src/actor/fork.rs:297-335 | in every reachable state a fork's source exists in the recorded generation and holds the fork's edge at the fork offset |
| ForkSafety.ChainsDescend | src/actor/read.rs:20-42 | along a chain of forks generations strictly fall, so forks are acyclic and stitched reads end |
| ForkSafety.NoGarbage | src/actor/fork.rs:71-107 | without pending duties a source's edges are exactly those of its existing forks |
| ForkSafety.SettledStreamsAreNeeded | src/actor/lifecycle.rs:31-42 | without pending duties every stream, soft-deleted ones included, is read through by some stream that is not soft-deleted |
| ForkSafety.StepAcross | src/actor/lifecycle.rs:51-87 | a stream that survives a step keeps its generation, source and content type, gains at most one message and only if live and open; closure and soft deletion are kept, and a soft-deleted stream gains no edge |
| ForkSafety.OtherStepsAreIdle | src/actor/fork.rs:20-69 | no step but a POST at a stream touches its messages, producers, Stream-Seq or closure |
| ForkSafety.PurgeDropsNothing | src/store.rs:384-394 | a stream goes only with an empty edge table, apart from the very edge being released |
| GivenUp.GivenUpIsGone | src/actor/lifecycle.rs:20-87 | over every run, after an acknowledged delete or any look at an expired stream: without edges that incarnation is gone at once; with edges its messages, closure and producers never change again, it gains no edge, every well-formed POST is answered as gone and every new acquire refused, and it goes exactly when its last edge is released; a POST to the empty path is answered as not found |
| GivenUp.LiveStaysLive | src/actor/lifecycle.rs:51-87 | a live stream stays live in every step that is neither an acknowledged delete of it nor a look at it after it has expired |
| ForkSafety.TypeIsCheckedOnlyForNewEdges | src/actor/fork.rs:29-54 | a clashing content type is refused if and only if the edge is not known yet |
| ForkTypes.ForkTypeDiffersIff | src/actor/fork.rs:185-190 | in every run, a new fork's type differs from its source's if and only if its request named another or neither had any; and a request that names another gets its fork only if its acquire found the edge already known |
| ForkStart.NewEdgeIsGrantedIff | src/actor/fork.rs:38-63 | a new edge is granted if and only if the source is live and unexpired, its type agrees with the one named, and the offset lies between the initial one and the current one |
| ForkStart.NewEdgeStartsAt | src/actor/fork.rs:55-57 | a new edge is answered with the offset asked for, or else with that of the source's last message, or its initial one |
| ForkStart.ForkStartsAsSourceWas | src/actor/fork.rs:297-335 | over every run, a fork made with a new edge and no sub-offset reads as all its source held when the edge was acquired, or held up to the offset asked for, followed by its body, whatever was written to the source in between |
| Lifetimes.ForkLivesAs | src/actor/fork.rs:191-204 | over every run, a fork has the time to live or deadline its request says, or else its source's at the moment of the acquire, and is closed from the start exactly if asked to be |
| Repeats.ForkStartsWhereAsked | src/actor/fork.rs:55-68 | in guarded runs a fork starts at the offset its request asked for, even when its creation was resumed from a remembered intent |
| Repeats.RepeatedPutIsRecognisedIff | src/actor/write.rs:75-122 | over every run, a PUT that made a stream and is sent again is told that the stream is there if and only if the stream has not been closed since or was to be closed from the start |
| Repeats.RepeatedForkIsRecognisedIff | src/actor/write.rs:83-101 | over every guarded run, a fork's PUT that is sent again is recognised if and only if, besides, it named a lifetime or its source had none at the moment of the acquire |
| Repeats.FreeAndTaken | src/actor/write.rs:75-84 | a PUT finds nothing there exactly if no stream is, or an expired one without forks; a stream given up that forks still read keeps its path, and the PUT is told so |
| Repeats.RecognisedRequestsAgree | src/actor/write.rs:83-108 | two requests that one stream recognises ask for the same source, start, lifetime, closure and type |
| Witnesses.RepeatedForkIsTurnedAway | src/actor/write.rs:91-108 | a concrete run in which the PUT of a fork of a stream with a time to live, sent again at once, is answered with a conflict |
| Witnesses.ForkOfAnotherType | src/actor/fork.rs:29-54 | a concrete run in which a creation without a type is resumed with a clashing one and commits |
| Serialisation.OverlapUnpinsAFork | src/actor/maintenance.rs:26-29 | a concrete run, for any two paths, in which a pass that overlaps a fork creation leaves the fork without its source |
| Serialisation.StaleEntryUnpinsAFork | src/actor/maintenance.rs:39-76 | a concrete run in which a creation resumes a listed intent and commits before the pass comes to it, and the fork loses its source although the two never overlap in time |
| Serialisation.DoubleListingLeaksAnEdge | src/actor/maintenance.rs:39-76 | a concrete run in which two passes that list the same intent leave an edge no actor remembers |
| Harm.StepHarmsIff | src/actor/fork.rs:126-127 | from any state in which forks are pinned, edges owned and answers in flight true, however many hands hold one intent: a step keeps that if and only if it is harmless, and otherwise leaves a fork unpinned, a fork's edge queued for release, or an edge without an owner |
| Harm.RunHarmsIff | src/actor/maintenance.rs:39-76 | over every run from the start, whatever overlaps, no damage is ever done if and only if every step is harmless |
| Harm.HarmUnpins | src/actor/maintenance.rs:78-108 | after a harmful last transaction of a pass or a creation the fork is unpinned at once or by the next flush |
| Harm.IntendedIsHarmless | src/actor/fork.rs:297-335 | if the intent row is still there, the last transaction of a pass or a creation is harmless; one that makes a fork exist is harmless only then |
| Harm.GuardedIsHarmless | src/actor/maintenance.rs:26-29 | the guard makes every step harmless |
| Logs.AppendGrows | src/store.rs:324-355 | an append goes to the end of the log, sorts after everything there, and keeps the account that the current offset is the initial one plus 5 and the length of every message |
| LogSafety.StepKeepsGood | src/store.rs:324-355 | that account, the order of all messages, and edges and fork offsets at reached offsets only, are kept by every step, whatever overlaps, at every stream that is regular, whatever other streams are |
| LogSafety.InitGood | src/actor.rs:225-234 | the invariant of logs holds where no actor has been addressed yet |
| Isolation.GuardedStreamsAreAttached | src/actor/read.rs:20-42 | in every guarded run the sources a stream reads through are the ones it was forked from, all the way up |
| Isolation.LogicalIsSorted | src/actor/read.rs:20-42 | at any fork depth the flat log of a stream is strictly increasing and ends at the current offset |
| Isolation.LogicalGrowsByOwnAppends | src/actor/read.rs:20-42 | a stream's flat log at a later time is the earlier one followed by its own new messages, whatever happened to its sources |
| Isolation.ForkContentsAreFrozen | src/actor/lifecycle.rs:31-37 | over a whole run, what a fork reads up to its fork offset never changes, and its flat log only grows at the end |
| Isolation.OtherLogsAreUntouched | src/actor/fork.rs:41-43 | a step at one actor leaves the flat log of every other stream as it was, so nothing done at a fork shows at its source; this and the following hold in every run, of streams whose own sources are there |
| LogSafety.RunIsLater | src/store.rs:375-382 | over whole runs, streams that stay only grow above their offset, closed and soft-deleted ones not at all, and a soft-deleted stream's edges only shrink |
| Stitch.SelectRows | src/store.rs:579-593 | the selection loop takes the longest prefix within row limit and byte budget, with one oversized first row if allowed |
| Stitch.ReadMessagesRange | src/store.rs:553-624 | for limits up to 128 the scan of one extra row is enough to return the longest fitting prefix of the whole window, and capped is said if and only if rows remain |
| Stitch.ReadStitched | src/actor/read.rs:4-85 | the recursive read over sources, with its caps and early return, computes the stitched batch |
| Stitch.StitchedRefinesFlatLog | src/actor/read.rs:14-83 | at any fork depth the batch is a prefix of the flat log in (after, cap], within limit and budget or one oversized message, complete unless capped, and never empty when capped |
| Stitch.StitchedTakesAll | src/actor/read.rs:51-77 | at any fork depth the batch is the longest prefix of the flat log that fits limit and budget, or one oversized message, and capped only if something is left or one of them is used up |
| Snapshot.InterleavedReadsAreAtomic | src/actor/read.rs:43-50 | a stitched read interleaved with any steps, its own rows asked for twice, whose generation checks pass at the end, returned what one instant would have: no other incarnation of any ancestor, nothing missing |
| Snapshot.SecondQueryAgrees | src/store.rs:569-612 | the query for data returns exactly the rows selected by the earlier query for lengths, in spite of appends in between |
| Snapshot.SnapshotRefinesFlatLog | src/actor/read.rs:439-472 | a snapshot whose generation is the same before and after refines the flat log of one instant, a prefix of the log at its end |
| Tail.ReportSkipsNothingIff | src/actor/read.rs:223-229 | the reported next offset skips nothing if and only if the batch is nonempty or nothing above the reader's offset was appended between batch and metadata; for a reader not past the tail, nothing at all |
| Tail.UpToDateMeans | src/actor/read.rs:227-247 | a report says up to date only if the batch was everything after the reader's offset; one that does not has messages, and something was left or limit or budget used up; closed implies up to date |
| Tail.ClosedReportIsFinal | src/actor/read.rs:227-229 | a sound report of closure means everything was delivered and nothing will ever follow |
| Tail.TimeoutClosureIsFinalIff | src/actor/read.rs:173-183 | a timed-out long poll that reports closure together with its older offset has missed nothing if and only if nothing was appended while it waited |
| Witnesses.EmptyBatchSkipsAMessage | src/actor/read.rs:223-229 | a concrete run with an empty batch, a closing append, and fresher metadata: closed is reported at an offset past a message never delivered |
| Tail.ContinueAfter | src/actor/read.rs:423-426 | continuing from the last delivered offset delivers exactly the rest |
| Tail.OffsetsAreNotMarkers | src/store.rs:561 | no message's offset is taken for the start marker when a reader continues from it |
| Tail.CatchUp | src/actor/read.rs:356-426 | on an unchanging stream the loop ends, delivers every remaining message once and in order, says up to date with the last batch and no other, and reports closure only at the end |
| LiveRead.RoundsAreOneWindowIff | src/actor/read.rs:356-426 | over any number of rounds on a stream that keeps changing, each batch read at several moments, the batches together are exactly the flat log between the reader's start and the offset last reported, once each and in order, if and only if no empty batch raced with an append; after a race messages are missing for good |
| SubOffset.TakePrefix | src/actor/fork.rs:224-264 | the copied prefix: the first n bytes, or the first n values serialised again, or a rejection |
| SubOffset.AcceptedUpToTheWhole | src/actor/fork.rs:258-264 | a sub-offset is accepted up to the length of the next message, which at that length is copied whole |
| SubOffset.AcceptedUpToAllValues | src/actor/fork.rs:232-257 | for JSON, up to the number of its values, which at that number are stored as the message is |
| SubOffset.NothingToCopy | src/actor/fork.rs:220-228 | no sub-offset is accepted after the source's last message |
| SubOffset.FirstAfterIsNext | src/actor/fork.rs:207-223 | the capped one-row read returns the source's next message after the fork offset, at any fork depth |
| SubOffset.SubOffsetForkReads | src/actor/fork.rs:206-335 | the new fork reads as the source up to the fork offset, then the first part of the source's next message, then the body, although that message was read earlier and the read's parts happened at different moments |
| SubOffset.RejectedForkQueuesRelease | src/actor/fork.rs:224-261 | giving a creation up exchanges the intent for a queued release while the source still holds the edge |
| Maintenance.PickPending | src/store.rs:486-504 | a pass takes the first 64 entries in the order of their edge ids, or all if there are fewer |
| Maintenance.Deployment.ReconcileEntry | src/actor/maintenance.rs:40-73 | one listed intent, whatever else is in flight: settled exactly if its acquire is answered, never to the harm of a live stream, and then closer to rest |
| Maintenance.Deployment.FlushEntry | src/actor/maintenance.rs:84-101 | one listed release, whatever else is in flight: forgotten exactly if acknowledged, and then closer to rest, a purge and its further release included |
| Maintenance.Deployment.ReconcileForkIntents | src/actor/maintenance.rs:39-74 | after a pass exactly the unanswered intents are left, and retry says whether there are any |
| Maintenance.Deployment.FlushGcReleases | src/actor/maintenance.rs:78-108 | after a pass the answered releases are gone, and retry says whether any was not |
| Maintenance.Deployment.RunMaintenance | src/actor/maintenance.rs:26-37 | a pass leaves live streams and all logs alone, never raises 2 streams + 2 intents + releases, and lowers it if there was work and no action failed |
| Maintenance.Deployment.Drain | src/actor/maintenance.rs:78-108 | with actions succeeding, at any clock readings, repeated passes end with no duties anywhere; left are exactly the streams reached through sources from a live stream or from one that an intent at an existing path names |
| Maintenance.SurvivorsAreRooted | src/actor/fork.rs:96-105 | at rest the streams left are exactly the rooted ones, each was rooted before, and each that an unexpired live stream needed is left |
| Maintenance.RootedIsNeeded | src/actor/maintenance.rs:39-74 | without expired streams and without intents at existing paths, rooted means needed by a live stream |
| Maintenance.WorkIsBounded | src/actor/maintenance.rs:39-108 | in every run, however passes, flushes, creations and crashes interleave, the duties settled are at most those there at the start plus two for each stream or creation begun |
| Maintenance.SettledForGood | src/actor/maintenance.rs:39-108 | whatever happens between the entries of passes and flushes, a settled intent is never remembered again, and a forgotten release leaves no record of its edge at any actor |
| Writers.AppendedMeans | src/actor/write.rs:235-303 | a successful append found the stream live and open, the producer next and the Stream-Seq greater, and committed everything |
| Writers.CloseSuccessMeans | src/actor/write.rs:342-389 | a successful closure leaves the log alone; a repetition by the recorded closer changes nothing |
| Writers.RejectedChangesNothing | src/actor/write.rs:284-300 | a rejected request leaves log, offset, producers and edges as they were; at most an expired stream is retired |
| Admission.AppendedIff | src/actor/write.rs:202-327 | a request is answered as appended if and only if the stream is live, unexpired and open, the content types agree, the body fits, the producer's request is its next one, the Stream-Seq is greater, and the offset can be advanced |
| Admission.AppendedLeaves | src/actor/write.rs:302-326 | what a successful append leaves of the metadata: closure and closer as asked, Stream-Seq, access time, everything else as it was |
| Admission.ClosedIff | src/actor/write.rs:329-390 | an open stream is closed by a request without a body if and only if that is its producer's next one, and records the closer |
| Admission.RejectionsAreTrue | src/actor/write.rs:202-300 | every rejection is true of stream, request and clock |
| Admission.ReachedProducerIsTold | src/actor/write.rs:284-292 | a request that nothing else stands against is told about its producer exactly if it is not the producer's next one, whatever its Stream-Seq |
| Admission.RowsLiveSevenDays | src/store.rs:626-664 | a producer's row counts for seven days, in milliseconds, after it was written |
| ContentTypes.OnlyTheBareTypeCounts | src/protocol.rs:109-117 | of a content type only the media type counts, in lower case, without the blanks around it and the parameters after it |
| ContentTypes.LowerIs | src/protocol.rs:116 | lower case replaces the letters A to Z, one for one, and nothing else |
| ContentTypes.AgreeUpToCase | src/protocol.rs:109-117 | two media types agree if and only if they differ in case alone |
| ContentTypes.UnprintableCountsAsNone | src/protocol.rs:119-133 | the header of a fork request counts if and only if it is not blank and holds printable characters and tabs only |
| StoredBodies.LogGrowsByBodies | src/actor/write.rs:257-271 | over every run a log grows by exactly the bodies of the POSTs answered as appended, in order, byte for byte; for a JSON stream each message, and all together, read as the array of the requests' values |
| Writers.ClosedIsFinal | src/store.rs:375-382 | over any run, closure is permanent and freezes messages, offset and recorded closer |
| Writers.StreamSeqIncreases | src/actor/write.rs:294-301 | over any run, the Stream-Seq values of successful appends to a stream strictly increase in byte order |
| Writers.AcceptedRequestsIncrease | src/actor/producer.rs:39-90 | over any run, as long as the producer's row does not expire, each accepted request of a producer strictly raises its epoch and sequence |
| Writers.RetryIsRecognisedIff | src/actor/producer.rs:44-56 | a retried append is recognised if and only if it closed the stream or its row has not expired; otherwise a first request is appended again and a later one is a gap |
| Fencing.AnswersFollowLastTaken | src/actor/producer.rs:39-90 | over every run, while a producer's row lives, each answer follows from its last request taken: a smaller epoch is told the greater one, a number already taken is a duplicate, one too far is told what was expected, a new epoch must begin at zero, and the next request is not rejected |
| Fencing.NewProducerIsTold | src/actor/producer.rs:44-56 | a producer of which nothing was taken begins at zero and is told so |
| Fencing.OlderInstancesAreFenced | src/actor/producer.rs:58-62 | over every run, once a request of some epoch was taken and while the row lives, a request of a smaller epoch is neither taken nor acknowledged, but told an epoch greater than its own |
| Fencing.DuplicatesWereTaken | src/actor/producer.rs:75-79 | over every run, only a request whose epoch is that of the producer's last request taken, and whose number is not greater, is told that it is a duplicate |
| ExactlyOnce.TakesExactlyNext | src/actor/producer.rs:39-90 | a client's request is accepted if and only if it is its next one, and a duplicate if and only if it was taken before |
| ExactlyOnce.AcknowledgedIsTaken | src/actor/write.rs:235-250 | an acknowledgement, also of a repeated closing request, implies that the request was taken |
| ExactlyOnce.EventKeeps | src/actor/write.rs:273-326 | deliveries, however late or repeated, and everything else in the system keep the client's messages and its producer row in step |
| ExactlyOnce.ExactlyOnceInOrder | src/actor/producer.rs:39-90 | at every moment the log holds exactly the bodies, or for JSON the values, of the first n requests, once each and in order, n being the number acknowledged or one more |
| ExactlyOnce.AllAcknowledgedIsAllThere | src/actor/producer.rs:166-175 | once all is acknowledged all is there once, and repetitions change nothing |
| ExactlyOnce.ResendIsAcknowledged | src/actor/write.rs:235-250 | resending the first unacknowledged request is acknowledged if and only if the stream is open or was closed by that very request |
| Witnesses.ResendIsTurnedAway | src/actor/write.rs:235-250 | a concrete run in which an appended request, resent after somebody closed the stream, is answered with a conflict |
| Framing.ProcessJson | src/protocol.rs:180-200 | values are stored in order, each followed by a comma; an empty array is an error except at creation |
| Framing.FormatJsonMessages | src/protocol.rs:202-217 | the body of a batch of fragments |
| Framing.FormattedIsOneArray | src/protocol.rs:202-217 | however values were grouped into appends, the body is one array of all of them in order |
| Framing.JsonRoundTrip | src/protocol.rs:180-217 | parsing the body of any batch yields all appended values in order |
| Framing.Concatenate | src/protocol.rs:219-225 | plain bodies are the fragments in order |
| Framing.EncodeSseData | src/protocol.rs:227-237 | one data line for each line of the normalised value, then a blank line |
| Framing.UnchangedIffNoCr | src/protocol.rs:228 | normalising line ends leaves a text as it is if and only if it has no carriage return |
| Framing.PairIsOneLineEnd | src/protocol.rs:228 | a carriage return and the line feed after it are one line end, wherever they stand |
| Framing.OtherCharactersStay | src/protocol.rs:228 | a carriage return by itself is a line end too, and every other character stays |
| Framing.FrameDecodes | src/actor/read.rs:385-409 | a frame decodes to its kind and its normalised data and ends where its encoding ends, whatever follows |
| Framing.BodyDecodes | src/actor/read.rs:367-422 | a whole event stream decodes to its events in order |

## Left out

- HTTP: routing, header parsing and assembly, status codes, conditional requests, cursors and CORS; requests appear with their parsed fields, answers as outcomes.
- The resolved options and the stored body of a plain PUT are parameters of its step, and so are the stored prefix and body of a committed fork; `SubOffset` ties the prefix to the read it comes from.
- Absolute deadlines are compared as moments, not as the text of the request: `Tables.SameConfiguration` takes two ways of writing the same moment for the same.
- The SQL engine, schema migration and column decoding: tables are maps and sequences, transactions are atomic.
- JSON parsing and number formatting, base64, UTF-8 and RFC 3339: values appear as their canonical serialisations and the parser as a parameter with a stated law.
- Trimming a content type removes ASCII white space only.
- Clocks, timers, long-poll waits and concurrency limits: time is an input of each step, expiry may happen at any step.
- Scheduling: that a needed maintenance run is scheduled at all; passes of 64 entries are modelled, and draining is proved for repeated passes with succeeding actions.
- That one intent is in one pair of hands at a time is assumed by the guard `Cluster.Serialised` in the theorems about pinning, owners and maintenance; the code does not enforce it, and `Harm` says what happens without it.
- Streams that are not forks at 10^16 bytes or more, and forks that are appended to beyond the room of their fork offset, are not covered by the theorems about logs and reads, which ask that the stream concerned and its sources be regular (`Logs.Regular`, `Isolation.Sound`); other streams may be anything. `ForkOffsets` says exactly what goes wrong.
- Reading a fork whose source has been replaced or lost: theorems about reads ask that the stream's sources be the ones it was forked from (`Isolation.Attached`), which every guarded run ensures.
- Maintenance.Deployment.ReconcileForkIntents: nothing else happens between two entries of the pass; interleaved work is `Maintenance.Deployment.ReconcileEntry`, whose steps may fall anywhere, `Maintenance.SettledForGood` and `Maintenance.WorkIsBounded`.
- Maintenance.Deployment.FlushGcReleases: nothing else happens between two entries of the flush; interleaved work is `Maintenance.Deployment.FlushEntry`, `Maintenance.SettledForGood` and `Maintenance.WorkIsBounded`.
- Maintenance.Deployment.RunMaintenance: nothing else happens during the pass; what interleaved work does is bounded by `Maintenance.WorkIsBounded`.
- Maintenance.Deployment.Drain: nothing is created or written between the passes.
- Tail.CatchUp: on an unchanging stream; rounds on changing ones are `LiveRead.RoundsAreOneWindowIff`.
- LiveRead.RoundsAreOneWindowIff: for a reader that starts within the stream; one that starts past its end is told the tail, and `Tail.ReportSkipsNothingIff` says what it then misses.
- Stitch.ReadStitched: a read at one instant; the observations of an interleaved read are `Snapshot.ReadTrace`, where a restart after a changed generation is one more read.
- ExactlyOnce.ExactlyOnceInOrder: assumes no other writer uses the producer id in the same or a higher epoch, that the producer's row has not expired whenever a POST comes to the stream, and that the stream stays in existence and regular; nothing is assumed about the rest of the deployment.
- Browsers that strip a space after the colon of a data line; the decoder strips exactly the prefix.
- The inspector, scripts and packaging.
