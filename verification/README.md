# seqscribe, verified

seqscribe replicates append-only logs. Every log ("stream") has one writer and a hash chain; nodes exchange
entries over links that lose, repeat, delay and reorder; views, registers and subscriptions are computed from
whatever rows a node holds. This project models that machinery in Dafny and proves what it is for: copies never
diverge, derived state does not depend on the order rows came in, and nothing is lost or served twice.

`dafny verify dfyconfig.toml` checks everything. One module per component:

| file | module | what it is |
|---|---|---|
| `Hlc.dfy` | `HlcClock` | hybrid logical clocks, the total order |
| `Entries.dfy` | `Entries` | entries, chain terms, rows in total order, paging |
| `Encoding.dfy` | `Encoding` | the bytes a chain hash covers |
| `Streams.dfy` | `Streams` | one stream: what each queue item does to it |
| `Recovery.dfy` | `Recovery` | fork recovery to a canonical branch |
| `LogCore.dfy` | `CommitQueue` | the commit queue: tables, caches, group commit, abort |
| `Runs.dfy` | `QueueRuns` | what every run of the queue keeps |
| `Answers.dfy` | `Answers` | what the queue answers and why, told by rows, seqs, chains and stamps |
| `Causes.dfy` | `Causes` | what own register writes name as their cause, over runs of queue and hub |
| `Replication.dfy` | `Replication` | any number of nodes exchanging messages |
| `Sync.dfy` | `Sync` | serving and completing a WANT, paged HAVE vectors |
| `Retention.dfy` | `Retention` | acknowledgments, who pins, prune floors |
| `Members.dfy` | `Membership` | a member of acknowledged retention over whole runs |
| `Keyed.dfy` | `Keyed` | compaction of keyed topics |
| `Finality.dfy` | `Finality` | proposing and accepting finality certificates |
| `Export.dfy` | `Export` | topic export and import |
| `Rounds.dfy` | `Rounds` | a complete WANT exchange in the net |
| `Tables.dfy` | `Tables` | the rowid table along a run, and an export round trip in the net |
| `Cuts.dfy` | `Cuts` | the rows at or below a cut, read page by page |
| `Views.dfy` | `Views` | incremental view materialization |
| `Register.dfy` | `Registers` | the causal register fold |
| `History.dfy`, `Heads.dfy` | `RegisterHistory`, `RegisterHeads` | what a register reads as, told by the rows alone |
| `Session.dfy` | `DataLane` | the data-lane ARQ |
| `Lane.dfy` | `LaneAnswers` | what each event of the data lane does, told by mids, messages and times |
| `Base64.dfy`, `Snap.dfy` | `Base64`, `Snap` | SNAP bodies: base64, chunking, reassembly |
| `Subs.dfy` | `Subs` | subscription serving |
| `Scheduler.dfy` | `Scheduling` | the virtual-time event loop |
| `Minimize.dfy` | `Minimizing` | the greedy scenario minimizer |

Objects the code updates in place are classes; each method is proved against a function or relation over the
object's abstract value, and the theorems are about that function, over whole runs. What such a function answers is in
turn told without it, by the plain fields (`Answers`, `RegisterHistory`, `RegisterHeads`, `LaneAnswers`, and laws beside
the function elsewhere). Tables are maps. Timers, link
behaviour, crashes, what callbacks do, and whether a lane has room are parameters or events that may take any
value, so each claim holds for every behaviour of the world. A hash is a symbolic term of what was hashed;
`Encoding.EqualHashEqualTerm` justifies that for the real byte format, up to a collision among the byte strings
actually hashed.

Where a property needs a condition the code does not guard, the condition is stated and its need is shown:
`QueueRuns.CertCutIff`, `QueueRuns.RecoveryCutIff` and `QueueRuns.PendingBreaksCut` (a certificate does not sweep
pending rows, and recovery does not ask it),
`Membership.DelayedWantMeetsFloor` (a delayed WANT can draw a TRUNCATED, which is then a no-op),
`Causes.RightCauseIff`, `Causes.RefusedPointsAtItself` and `Causes.RefusedPointsAtAnother` (an append refused by
validation leaves its scope tail at a seq that it never writes),
`Registers.Rebased` and `Registers.RebaseLosesOwner` (a base goes through a snapshot, which drops part of the state),
`Views.RestoreWholeIff` and `Views.RestoreMissesLateRow` (a restart trusts the latest checkpoint),
`Subs.SubGroup.MissedHasTableIff` and `Subs.MissedRow` (a failed row read leaves a subscriber registered but owed
nothing),
`Snap.SnapDeliversIff` (a SNAP arrives exactly when its base64 fits the reassembly limit).

## Model

| member | source | states |
|---|---|---|
| HlcClock.MergeDominates | src/hlc.ts:27-36 | a merge lands strictly after both clocks, not before the wall clock, and never reaches the counter bound |
| HlcClock.StampIsFirst | src/hlc.ts:16-23 | a stamp is the first clock value past the clock and not behind the wall clock, and is refused exactly when the counter is used up |
| HlcClock.MergeIsFirst | src/hlc.ts:25-38 | a merge is the first clock value within the counter bound that is past both clocks and not behind the wall clock |
| HlcClock.OrderTotal | src/hlc.ts:50-56 | the entry order is total and antisymmetric; 0 means equal |
| HlcClock.OrderTransitive | src/hlc.ts:50-56 | the entry order is transitive, string comparison of writers included |
| HlcClock.BeforeIff | src/hlc.ts:48-56 | one entry is before another by time, then counter, then writer (the first differing character decides, a proper prefix first), then seq |
| HlcClock.StampsStrictlyIncrease | src/hlc.ts:16-36 | over any run of stamps and merges, with any wall clock, the stamps a node hands out strictly increase |
| Entries.SortSorts | src/views.ts:344-344 | sorting a batch gives the same rows in strictly increasing total order |
| Entries.AfterAdvances | src/store.ts:394-409 | paging in total order: resuming after the k-th row of a page skips exactly the first k |
| Entries.PageMembers | src/store.ts:202-213 | a rowid page is exactly the rows between its cursor and its last row |
| Entries.SameRowsSameOrder | src/store.ts:394-409 | logs holding the same rows read the same in total order, whatever the arrival order |
| Encoding.Utf8Injective | src/encoding.ts:109-111 | UTF-8 text determines its string |
| Encoding.FramesInjective | src/encoding.ts:114-120 | length-prefixed fields are uniquely decodable |
| Encoding.DigitsInjective | src/encoding.ts:122-126 | decimal text determines the number |
| Encoding.DigitsDenote | src/encoding.ts:122-126 | the decimal text of a number reads as that number, with digits only and no leading zero |
| Encoding.U32beDenotes | src/encoding.ts:114-120 | the four length bytes read, most significant first, as the length |
| Encoding.JcsIdInjective | src/encoding.ts:152-167 | the canonical text of an entry reference determines topic, writer and seq |
| Encoding.ChainPreimageInjective | src/encoding.ts:152-167 | the bytes chainOf hashes determine prevChain, seq, hlc, kind, key or its absence, causal, ref and payload |
| Encoding.SeedPreimageInjective | src/encoding.ts:138-140 | the bytes seedOf hashes determine topic and writer |
| Encoding.SeedIsNoChain | src/encoding.ts:138-167 | no seed preimage is a chain preimage |
| Encoding.EqualHashEqualTerm | src/encoding.ts:128-167 | equal chain texts come from equal histories, or two byte strings hashed on the way collide |
| Encoding.EqualHeadsEqualRows | src/encoding.ts:138-167 | verified prefixes with one head hash are one stream, row by row, or two of their preimages collide |
| Streams.LastCovered | src/store.ts:422-431 | the result is the last held seq at or before the watermark, 0 if there is none |
| Streams.DrainWhole | src/log.ts:1605-1617 | draining pending rows keeps rows at exactly 1..contigSeq, chained from the seed |
| Streams.ExternalWhole | src/log.ts:1498-1617 | ingesting any entry from the wire, recovery included, keeps a whole stream whole |
| Streams.RecoveryIngestWhole | src/log.ts:1382-1441 | rewinding to, or taking, a canonical entry keeps a whole stream whole |
| Streams.CertWhole | src/log.ts:881-925 | applying a certificate, quarantine included, keeps a whole stream whole |
| Streams.DirectiveWhole | src/log.ts:932-1013 | applying any directive keeps a whole stream whole |
| Streams.HoldsCanonicalRows | src/log.ts:974-983 | a whole stream holding the chain of the k-th canonical entry holds the first k canonical entries |
| Recovery.RecoveryStep | src/log.ts:1382-1441 | each canonical entry takes recovery one step on: untouched so far, or rewound to exactly the canonical rows so far; the last one retires the stream |
| Recovery.RecoveryCompletes | src/log.ts:1382-1441 | from any recovering stream held from seq 1 and short of the end it is heading for, as every one is (QueueRuns.TargetRuns), the canonical entries in order end with seal retired, the canonical head, exactly the canonical rows, and every displaced row in quarantine |
| Recovery.DirectiveRetires | src/log.ts:983-1003 | a retiring directive that finds the canonical end held leaves exactly the canonical rows and loses none |
| Recovery.DirectiveBegins | src/log.ts:1005-1012 | otherwise it seals the stream and starts recovery towards that end |
| Recovery.RetirementConverges | src/log.ts:932-1013 | whatever the node held, a directive taken up and the canonical entries delivered end in the same retired stream, with nothing lost |
| CommitQueue.LogCore.constructor | src/log.ts:260-273 | a node starts from its database, with the saved clock and empty caches |
| CommitQueue.LogCore.GetStream | src/log.ts:626-644 | the cached head is the stored one, or the default |
| CommitQueue.LogCore.GetCert | src/log.ts:616-624 | the cached certificate is the stored one |
| CommitQueue.LogCore.FloorOf | src/log.ts:539-547 | the cached floor is the stored one |
| CommitQueue.LogCore.SaveHead | src/log.ts:647-653 | the stored head and its cache move together; no other stream is touched |
| CommitQueue.LogCore.SetFloor | src/store.ts:687-694 | a floor is never lowered; its cache entry is dropped |
| CommitQueue.LogCore.Persist | src/log.ts:1619-1634 | a row is stored for full retention, pushed onto the bounded ring for ring retention, with the undo journal still exact |
| CommitQueue.LogCore.VerifyAndApply | src/log.ts:1577-1603 | an entry that chains and does not go back in time advances the stream; any other fork-seals it |
| CommitQueue.LogCore.DrainPending | src/log.ts:1605-1617 | the loop drains exactly the specified pending rows, tells the hooks of exactly those, and stops at a gap or fork |
| CommitQueue.LogCore.DisplaceRows | src/log.ts:987-991 | row by row, exactly the displaced range ends up in quarantine and out of the log |
| CommitQueue.LogCore.RecoveryIngest | src/log.ts:1382-1441 | the recovery branch of ingest does what its specification says: result, stream, hooks, rings |
| CommitQueue.LogCore.IngestOpen | src/log.ts:1519-1575 | ingest past the seal: finality, duplicates, forks, next in line, pending with its cap, clock merge |
| CommitQueue.LogCore.ProcessExternal | src/log.ts:1498-1575 | one wire entry: the whole new state of the node, caches still exact |
| CommitQueue.LogCore.ProcessAppend | src/log.ts:1443-1496 | one append: sealed, refused by the clock or by validation, or written; clock and scope tails advance even when validation refuses |
| CommitQueue.LogCore.ProcessSeal | src/log.ts:860-868 | sealing a stream changes nothing else |
| CommitQueue.LogCore.CertifyStream | src/log.ts:881-926 | one stream under a new certificate |
| CommitQueue.LogCore.ProcessCert | src/log.ts:873-928 | a certificate is stored and applied to every listed stream of its topic, once each, and to no other |
| CommitQueue.LogCore.Retire | src/log.ts:974-1012 | a retiring directive past its rgen checks |
| CommitQueue.LogCore.ProcessDirective | src/log.ts:932-1013 | a directive: refused, stale, applied or recovery, with the whole new state |
| CommitQueue.LogCore.ProcessAdoptFloor | src/log.ts:1335-1380 | floor adoption: no-op, refused, or the head at the floor with pending rows drained on from it |
| CommitQueue.LogCore.Process | src/log.ts:811-823 | whichever item is processed, the node moves by that item's step and its caches, journal and keying survive |
| CommitQueue.LogCore.RestoreRings | src/log.ts:839-842 | undoing the journal gives back every ring as it was before the flush |
| CommitQueue.LogCore.Flush | src/log.ts:781-858 | a flush applies every item in order, or, whatever threw and wherever, leaves tables, heads, certs, floors, clock, recovery targets, rings and scope tails reading as before |
| CommitQueue.ItemStepKeyed | src/log.ts:1558-1575 | no item files a pending row under another stream or seq |
| QueueRuns.TraceIsRun | src/log.ts:808-826 | a committed batch is a run of item steps |
| QueueRuns.WholeRuns | src/log.ts:860-1634 | through every run of appends, wire entries, seals, certs, directives, recovery, commits, aborts and restarts a full stream held from seq 1 has rows at exactly 1..contigSeq, chained from the seed, the head chain last |
| QueueRuns.TargetRuns | src/log.ts:932-1634 | through every run a recovering full stream held from seq 1 stays sealed and short of the end it is heading for |
| QueueRuns.RecoveryInRuns | src/log.ts:1382-1441 | whatever a node has been through, the canonical entries in order retire any of its recovering full streams held from seq 1, holding exactly the branch, with no row lost |
| QueueRuns.ExternalCut | src/log.ts:1519-1617 | ingest and draining keep every row and pending row at or before the watermark at or below its cut |
| QueueRuns.CertCutIff | src/log.ts:873-928 | a new certificate leaves the cut intact on a stream if and only if no pending row is before its watermark and beyond its cut |
| QueueRuns.RecoveryCutIff | src/log.ts:1382-1441 | recovery leaves the cut intact if and only if it keeps no canonical entry as a row, or one within the cut |
| QueueRuns.CutRuns | src/log.ts:873-928 | through every run every foreign row and pending row at or before the current watermark is at or below its writer's cut, save for exactly the certificates and recoveries of CertCutIff and RecoveryCutIff that break it |
| QueueRuns.PendingBreaksCut | src/log.ts:1605-1617 | without that guard a pending row drains into the log behind the watermark |
| Answers.IngestSays | src/log.ts:1498-1575 | a wire entry on an open stream: rejected exactly when at or before the watermark and past the cut; else the stream is fork-sealed if and only if the entry differs from the row or pending row held at its seq, is next in line without chaining or stamped before the head row, or is taken in and a pending row behind it breaks the run; and each reply exactly when due |
| Answers.DrainGoes | src/log.ts:1605-1617 | a drain goes exactly as far as the pending rows chain and do not go back in time, and seals exactly when one is there that does not |
| Answers.AppliedSays | src/log.ts:1548-1617 | an entry taken in is applied and delivered, and after it exactly the pending rows that follow; each stands in the rows of a full topic and among the newest of a ring |
| Answers.KeptRuns | src/log.ts:1498-1617 | in every run no row stands above its head and every pending row is filed under its own seq, as the two laws above ask |
| Answers.EquivocationSeals | src/log.ts:1536-1546 | a node that holds one row of a writer at a seq and is handed another has the stream sealed, through everything that follows until a directive for it |
| Answers.RecoverySays | src/log.ts:1382-1441 | an entry on a sealed stream: nothing without a recovery; in one, the row held is a duplicate, any other at or below the head puts the rows from there on aside, and then exactly the chaining next one is taken, which at the end of the recovery retires the stream |
| Answers.AppendSays | src/log.ts:1443-1496 | an append answered with an id has written one row, next under the own writer, with the kind, key, ref, payload and cause asked for and the new clock as its stamp, chained from the head; it is applied, and stands in the rows of a full topic or last in the ring |
| Answers.AppendRefused | src/log.ts:1443-1490 | any other append changes no table; it is told the writer is sealed exactly when it is, and invalid exactly when the clock is used up or validation refuses that row |
| Answers.AppendFollowsIngest | src/log.ts:1636-1644 | an append after taking in an entry not too far ahead of the wall clock is stamped past that entry |
| Answers.ClockKept | src/log.ts:1636-1644 | an entry too far ahead, or not taken in, leaves the clock alone |
| Answers.RingHoldsNewest | src/log.ts:1619-1634 | a ring holds the newest rows of its topic in the order applied, whatever else is applied |
| Answers.CertSays | src/log.ts:873-928 | a certificate is stored, and on each listed stream of its topic: with a row left out by the cut, every row past the cut goes to quarantine and the head back to the cut; an open stream is sealed if and only if there was such a row or its row at the cut is another one |
| Answers.LiveSays | src/log.ts:932-972 | a live directive reopens a stream if and only if it is newer, its generation not used for another, and no fork stands; it moves no row |
| Answers.RetiringSays | src/log.ts:932-1013 | a retiring directive is refused exactly when its generation was used for another, stale exactly when not newer and no fork stands; else it retires the stream at its end, rows past it in quarantine, if and only if the stream reaches that end, and otherwise seals it and sets it recovering |
| Answers.SealSays | src/log.ts:860-868 | a seal seals an open stream as forked and changes nothing else of it |
| Answers.FloorSays | src/log.ts:1335-1380 | a floor is adopted exactly when above the head, on an open or recovering stream, and not past or against the end of a recovery; a recovery that ends at it is complete |
| Causes.ScopeRuns | src/register.ts:381-403 | through every run of appends, refusals, folds, refolds, aborts and restarts a scope's tail is exactly what its appends have left and no fold has retired |
| Causes.CauseOfWrite | src/register.ts:381-429 | over every run, a row written from a scope names the standing refused place of the scope if there is one; else the last own row of the scope since the last restart that no fold has covered; else the winner the hub has materialized at that moment |
| Causes.StandsIff | src/register.ts:399-403 | a refused place stands if and only if an append of the scope was refused there and since then no restart, no row written from the scope, no other refusal and no fold of an own row from that place on |
| Causes.RightCauseIff | src/register.ts:399-403 | the cause is the right one, the last own unfolded row of the scope or else the materialized winner, if and only if no refused place stands |
| Causes.RefusedPointsAtItself | src/log.ts:1477-1487 | right after an append refused by validation the next one written in its scope names itself as its own cause |
| Causes.RefusedPointsAtAnother | src/log.ts:1477-1487 | with an append of another scope written in between it names that unrelated row |
| Causes.RefusedThenFolded | src/register.ts:524-538 | once that other row is folded the refused place no longer shows: the next write names what was materialized |
| Causes.FoldedTailYields | src/register.ts:524-538 | with nothing refused, an own row folded and outwon by a later foreign row is no longer the cause; that row is |
| Causes.SameRetired | src/register.ts:524-538 | what a fold retires of the queue's tails is what it retires of the hub's |
| Replication.ExternalTracks | src/log.ts:1498-1617 | the author's entry, whenever and however often it arrives, never forks a copy |
| Replication.NoContradiction | src/sync.ts:520-530 | a true HAVE head never contradicts a copy of the author's branch |
| Replication.FloorTracks | src/sync.ts:917-936 | adopting a true floor keeps a copy on the branch |
| Replication.NewRowContinues | src/log.ts:1443-1496 | what an author appends continues its branch, with a later stamp |
| Replication.NodeStepKeeps | src/sync.ts:473-535 | one node's step, of any kind, keeps it and the history in order |
| Replication.RunKeeps | src/sync.ts:473-535 | every reachable net is in order, whatever is lost, repeated, delayed or reordered |
| Replication.ReplicationSafety | src/log.ts:1335-1634 | in every reachable state of any number of nodes no stream is fork-sealed, every held row is the author's row at that seq, every head is (n, chain of the author's n-th row), and the author's copy is complete |
| Replication.NodesAgree | src/sync.ts:473-535 | two nodes with equal head positions have equal chains, and equal rows wherever both hold one |
| Sync.ServeWant | src/sync.ts:789-870 | denied exactly without mutual full replication; TRUNCATED exactly at or below the floor, for a peer that knows it and no snapshot offered; an empty completion when offered, too old, or past the head; otherwise the held rows from the asked seq on, in order, none skipped or repeated, each batch within its bounds and starting just past the one before, and why serving stopped; `done` exactly on reaching the head |
| Sync.RangeHolds | src/store.ts:447-460 | a range lists exactly the rows held there, by increasing seq |
| Sync.NextBatch | src/sync.ts:836-852 | the next batch holds as many of the following rows as the byte budget allows, at least one, and is marked done exactly on reaching the head |
| Sync.ServesTheBranch | src/sync.ts:834-870 | with every row above the floor held, what is served is the author's rows with none missing |
| Sync.RoundCatchesUp | src/sync.ts:950-1010 | the rows of a complete round bring a requester's head at least to the end of the round |
| Sync.PaginateHave | src/sync.ts:760-785 | the pages of a HAVE round merge to the vectors and say nothing else; a page of more than one stream keeps within the byte budget, and the first stream of the next page would not have fitted |
| Sync.AnyOrderMerges | src/sync.ts:456-470 | pages received in any order, some repeatedly, merge to the same vectors |
| Retention.PlanMembers | src/retention.ts:198-249 | a node pins the floor if and only if it is a candidate, not this node, not excluded, and has recent evidence; every candidate is reported with why it does not pin, and exactly the excluded and the long silent recorded ones are to be forgotten |
| Retention.PlanSays | src/retention.ts:198-249 | a candidate not excluded pins if and only if it was seen, first recorded (or first named, now), or stamped the newest row of a writer within maxLagMs; it is forgotten exactly when recorded and excluded, or when all of these lie more than twice as far back; its report follows the same rule |
| Retention.AckedTopic.HeadTimes | src/retention.ts:207-211 | the time of a writer is that of its head row, where that row is held |
| Retention.PinnersRemembered | src/retention.ts:239-247 | no node that pins the floor is forgotten |
| Retention.AckFloor | src/retention.ts:255-278 | the floor is the least acknowledged seq over included members, capped by the head, and names who holds it down |
| Retention.WalkPrefix | src/log.ts:1294-1301 | the walk takes the longest deletable prefix within the budget |
| Retention.DropsPrefix | src/store.ts:733-741 | deleting up to the last walked seq deletes exactly the walked rows |
| Retention.AckedTopic.PruneStream | src/log.ts:1275-1320 | one stream: exactly its longest deletable prefix within the budget goes, and its last row becomes the floor if higher; a dry run counts the same and changes nothing; `more` is false only when nothing deletable is left |
| Retention.AckedTopic.PruneStreams | src/log.ts:1275-1320 | the same for each stream in turn with what the earlier ones left of the budget; no other stream is touched |
| Retention.AckedTopic.PruneAcked | src/log.ts:1246-1329 | the whole call: refused topics untouched; else plan, ack floors over the planned members, prune within maxRows, the announcement of more, the report of every stream with floor, ack floor, pinning node and why it was skipped, the nodes named and forgotten; a dry run reports the same and changes nothing |
| Retention.PrunedSays | src/log.ts:1275-1320 | of a stream neither forked nor recovering the rows that go are the longest run from the front, within the budget, of rows old enough, read by every cursor, below the head unless retired, and held by every included member by its record or as the author, or already below the floor |
| Retention.FloorBound | src/log.ts:1290-1320 | floors never fall, rise at most to the ack floor, cover every deleted row and no kept one above them, and name a held row |
| Retention.HeadRowStays | src/log.ts:1292-1293 | a live stream keeps its head row |
| Retention.AckRecorder.Record | src/retention.ts:140-172 | after a HAVE round exactly the advertised heads of eligible topics are on record, and the node is stamped seen, with its protocol version and its first sighting unchanged, at once where anything new was recorded and otherwise unless the stamp is recent; a failed write leaves both tables as they were; the memos never overstate |
| Retention.AckRecorder.Forget | src/retention.ts:175-179 | a forgotten node is gone from both tables and both memos |
| Retention.PruneRespectsMember | src/retention.ts:255-278 | a prune counting a member never lifts the floor past what it is on record for |
| Membership.HandledIsStep | src/log.ts:1246-1329 | what a call of pruneAcked leaves of a stream is a prune step of the runs below |
| Membership.MemberNeverTruncated | src/sync.ts:880-936 | over any run of recorded HAVE rounds, prunes counting the member, and moves of both nodes: a member that keeps what it acknowledged always asks above the floor, and adopting any floor it ever drew does nothing |
| Membership.ServeMember | src/sync.ts:789-870 | serveWant at the pruning node answers such a member's WANT for the row after its head with rows, never with TRUNCATED |
| Membership.JointIsRun | src/retention.ts:140-172 | every run of the net is such a run, and the member keeps what it acknowledged: a record, however late, is of heads the member really had, and no head goes back |
| Membership.NetMemberNeverTruncated | src/sync.ts:880-936 | among any number of nodes over links that lose, repeat, delay and reorder, at a node that prunes only through pruneAcked and counts the member: the member's WANT never meets the floor, and any floor that was ever there does nothing at the member |
| Membership.DelayedWantMeetsFloor | src/sync.ts:880-936 | a delayed WANT can be answered TRUNCATED even so: a run in which one is |
| Keyed.KeyedTopic.CursorFloor | src/log.ts:1217-1218 | the floor is the watermark or the smallest lagging cursor |
| Keyed.KeyedTopic.SupersededRowids | src/store.ts:331-344 | only superseded rows at or below the floor, and all of them unless the limit was hit |
| Keyed.KeyedTopic.LoneTombstoneRowids | src/store.ts:351-370 | only lone tombstones at or below the floor, and all of them unless the limit was hit |
| Keyed.KeyedTopic.PruneSuperseded | src/log.ts:1210-1236 | every live value at every watermark from uptoRowid on is unchanged; nothing unread goes, and only superseded rows, tombstones and, where asked for, other writers' rows do; at most maxRows, counted exactly, and with fewer gone none of those is left at or below the floor; with no lagging cursor each key then keeps at most one row and no tombstone |
| Keyed.DropSuperseded | src/store.ts:331-344 | deleting superseded rows keeps every live value |
| Keyed.DropLoneTombstones | src/store.ts:351-370 | deleting lone tombstones keeps every live value |
| Keyed.PrunedRuns | src/log.ts:1210-1236 | over any run of commits and prunes, under whatever watermarks, every live value from the highest pruned watermark on is what it would be had nothing been pruned |
| Keyed.NoResurrection | src/store.ts:351-370 | over any such run a key whose newest committed row is a tombstone reads as deleted, though prunes may have taken the tombstone itself |
| Finality.MaxOrderUpTo | src/store.ts:411-419 | the result is the last held place stamped at or before the cutoff |
| Finality.LastMark | src/store.ts:422-431 | the result is the last row of a writer at or before the watermark |
| Finality.ProposeFinality | src/finality.ts:52-78 | nothing if and only if no old enough row is newer than the held watermark; otherwise the next generation, cut by the projection of a new maximal watermark |
| Finality.ProposalSweepsNothing | src/log.ts:881-926 | at the node that proposed it a certificate leaves every stream as it is |
| Finality.ProposalIsAccepted | src/finality.ts:106-136 | a signed proposal over the held certificate is accepted |
| Finality.WatermarkMonotone | src/finality.ts:106-136 | whatever certificates arrive in whatever order, the held watermark never goes back and every change is a higher generation |
| Finality.HeldIsSigned | src/finality.ts:106-136 | over any offers nothing is ever held but what was held at first or what the topic's authority signed; without a configured authority nothing changes |
| Finality.ChangesIff | src/finality.ts:106-136 | one more offer changes what is held if and only if it is so signed, of a higher generation, and not behind in order |
| Finality.VerdictIff | src/finality.ts:106-136 | each verdict exactly when due: duplicate, stale, bad or accepted |
| Export.ExportRows | src/export.ts:57-66 | the pages of an export are all rows of the topic in rowid order, once each |
| Export.NextLine | src/log.ts:1548-1556 | the next line of a contiguous segment is applied and nothing else happens |
| Export.ImportTopic | src/export.ts:69-113 | into a node with nothing of the topic an import rebuilds every head and exactly the rows above the declared floors, and counts exactly those rows |
| Export.CountIs | src/export.ts:95-113 | the count is the number of lines above their stream's floor |
| Export.ExportsRows | src/export.ts:34-66 | of each stream contiguous above its floor the export holds exactly the rows above that floor, in order |
| Export.ExportedByNode | src/export.ts:34-66 | the export of such a node is one an import can take |
| Export.RoundTrip | src/export.ts:34-113 | exported at one node and imported at another with nothing of the topic, every stream comes out with the exporter's head position and chain and exactly the exporter's rows above its floors, and that many are counted |
| Rounds.RunHeld | src/log.ts:1335-1634 | in every reachable net every full stream at every node holds each row above its floor up to its head |
| Rounds.NetReady | src/sync.ts:473-535 | in every reachable net any two nodes are ready for an exchange: both on the author's branch, the server with every row above its floor |
| Rounds.Round | src/sync.ts:789-1010 | a complete, loss-free WANT round, served by serveWant and taken in row by row, brings the requester to the server's head or beyond, still on the author's branch |
| Rounds.Exchange | src/sync.ts:789-1010 | the same whatever the requester held: told that the rows are gone it takes in the floor and asks again |
| Rounds.NetExchange | src/sync.ts:473-535 | in every reachable net, whatever was lost before, one exchange brings any node up to any other's head in any full stream, holding only the author's rows, unforked |
| Rounds.NetExportable | src/export.ts:34-66 | in every reachable net any node's copy of a full stream can be exported |
| Tables.InsertedTable | src/log.ts:1619-1634 | rows inserted as a commit applies them keep a topic's table exactly its streams' rows, each stream's in seq order |
| Tables.DeletedTable | src/store.ts:733-741 | so does deleting a stream's prefix |
| Tables.TableRuns | src/store.ts:202-213 | at any node of any reachable net the table of a full topic holds exactly its streams' rows, rowids increasing and each stream's rows in seq order |
| Tables.NetRoundTrip | src/export.ts:34-113 | the table of a full topic at any node of any reachable net, exported and imported where nothing of it is held, gives the same heads, chains and rows above the floors |
| Views.View.constructor | src/views.ts:91-167 | registration over existing rows and checkpoints of rows folded before: unfaulted, the state is the fold of the rows folded up to the latest checkpoint and every held row after it, the table its rows; it is the fold of the whole log if and only if nothing lies behind that checkpoint |
| Views.View.Restore | src/views.ts:321-331 | the same for a restart: the latest of the checkpoints is resumed from, and the tail refolded |
| Views.View.FoldEntry | src/views.ts:359-372 | one row through the reducer, with a checkpoint exactly when one is due |
| Views.View.CheckpointBefore | src/store.ts:764-787 | the checkpoint found is the latest one strictly before the place asked for |
| Views.View.RefoldFrom | src/views.ts:414-434 | a refold folds exactly the held rows after its start and tells subscribers of a new epoch |
| Views.View.RecomputeFrom | src/views.ts:386-407 | a late arrival is answered by a state that has every row at or after it folded, once |
| Views.View.DiffSyncTable | src/views.ts:487-519 | the table becomes the rows of the state, and the difference told to subscribers makes the same change and names nothing that did not change |
| Views.View.Materialize | src/views.ts:333-384 | for any arrival order, batch size and checkpoint interval: unfaulted, the state is the fold of the whole log in total order, the table its rows, every surviving checkpoint the fold up to its place, and the change feed replays to the table; it faults only if the reducer throws on a held row or the table does on a state |
| Views.ViewIsRun | src/views.ts:333-372 | a view that has consumed everything stands where the reducer gets from the initial state through every held row in total order, one state after another, and its table is the rows of that state |
| Cuts.ThroughMembers | src/views.ts:203-212 | stopping at the first row past a cut takes exactly the rows at or below it |
| Cuts.PageThrough | src/register.ts:262-271 | a page cut short ends the bounded fold with nothing missing; a whole page leaves exactly the rest |
| Views.View.StateAt | src/views.ts:195-216 | for checkpoints of any rows folded before and any page size: resumed from the latest checkpoint not after the place, the fold of the rows folded up to it and of exactly the later ones at or below the place, or a throw if that fold throws; the fold of the whole log up to the place when nothing lies behind that checkpoint |
| Views.CutsAgree | src/views.ts:195-216 | nodes holding the same rows up to a cut have the same view state at it, whatever else they hold |
| Views.RestoreWholeIff | src/views.ts:321-331 | what Restore resumes with is the whole log if and only if no held row not yet folded lies behind the latest checkpoint |
| Views.RestoreMissesLateRow | src/views.ts:321-331 | a late row committed behind the latest checkpoint before a crash is held but not in the restored view |
| Views.RecomputeTakesAll | src/views.ts:386-407 | recomputing from a checkpoint before the late row keeps what was folded and takes in every row from it on |
| Views.CheckpointsSurviveGrowth | src/views.ts:436-447 | checkpoints stay right as more rows are folded after them |
| Registers.SameFoldEntry | src/register.ts:517-716 | folding a row does not depend on rows after it in the total order |
| Registers.SameFoldAll | src/register.ts:517-716 | nor does folding a sequence of rows |
| Registers.CommitKeepsFold | src/register.ts:459-510 | rows above the fold's watermark do not disturb it |
| Registers.RegisterTopic.StampCausal | src/register.ts:399-403 | a write points at the author's own uncommitted tail of its scope, else at what is materialized, and becomes the tail |
| Registers.RegisterTopic.FoldRows | src/register.ts:497-497 | folding rows in order extends the fold, and retires exactly the scope tails they cover |
| Registers.RegisterTopic.Refold | src/register.ts:476-495 | a refold covers every held row above the base, in total order, page by page |
| Registers.RegisterTopic.Materialize | src/register.ts:459-510 | for any arrival order and batching every committed row is consumed, and the keys are one fold, from the base they started from or, after a late arrival, the present one, of every row above it in total order; no scope tail names a folded row |
| Registers.RegisterTopic.KeysThrough | src/register.ts:253-273 | the fold, from the base when it is not above the place, of exactly the rows above the base and at or below the place |
| Registers.RegisterTopic.StateAt | src/register.ts:253-273 | exactly what a snapshot holds of that fold |
| Registers.RegisterTopic.RebaseAtCut | src/register.ts:449-457 | the base becomes the state at the cut as it comes back from its snapshot; what is saved restores to that base; nothing folded changes |
| Registers.CarriedIff | src/register.ts:286-361 | restoring a snapshot of a state gives the state back if and only if every key has a winner, no requests, is scalar just when it has no members, has a value only when scalar, and no member without conflict heads |
| Registers.RestoredKey | src/register.ts:286-361 | what comes back of a key through a snapshot: everything but its requests, a value that was not scalar, and the lack of heads of a member |
| Registers.FoldedCarriedIff | src/register.ts:517-716 | in a state that was folded no member is without heads, so the first four decide |
| Registers.RowsAtMembers | src/register.ts:253-273 | those rows are the held rows above the base and at or below the place, in order |
| Registers.CutsAgree | src/register.ts:253-273 | hubs holding the same rows up to a cut have the same register state at it, whatever else they hold |
| Registers.StateAtWatermark | src/register.ts:253-273 | at its own watermark a materialized hub has the state it holds |
| Registers.HubsAgree | src/register.ts:459-510 | hubs holding the same rows agree |
| Registers.RebaseKeepsFold | src/register.ts:476-495 | refolding from a base that holds the state at its place gives the fold from scratch |
| Registers.GoodBaseKept | src/register.ts:476-495 | such a base stays so as rows above it arrive, and at any hub with the same rows up to it |
| Registers.Rebased | src/register.ts:449-457 | rebasing at any cut gives such a base again if and only if a snapshot carries every key of the state there |
| Registers.GoodBasesAgree | src/register.ts:459-510 | hubs holding the same rows agree, whatever such base each started from |
| Registers.RebasedHubsAgree | src/register.ts:449-510 | hubs holding the same rows agree after rebases at whatever cuts, when a snapshot carries every key of the state at either |
| Registers.RebaseLosesOwner | src/register.ts:333-361 | the failing input: a chown alone, a rebase there, and another's write is taken and owns the key, where from scratch it is refused |
| Registers.FrontiersAreAntichains | src/register.ts:517-716 | from any such base, every conflict frontier, of keys and of members, holds distinct folded rows, none an ancestor of another |
| RegisterHeads.MaterializedSays | src/register.ts:459-716 | what a hub that has materialized from a good base holds of any key, told by the rows it holds in total order: the winner is the last row to win, the value what the last row that set it or took it away left, a member is there exactly when the last row with a say on it since the last reset put it there, the owner is the one named by the last row that gave the key away; under lww, resolver and owned the winner is the last effective row, the value the one last carried with no del and no turn to members since, and a member follows the last op on it since the last reset; heads, resolved heads, reset generation and requests likewise |
| RegisterHeads.PlaceReads | src/register.ts:253-273 | the same of the state at any place in the order, by the rows up to it |
| RegisterHistory.FoldReads | src/register.ts:517-716 | folded over any rows in order, every key has the owner, winner, value, scalar flag and members its rows say |
| RegisterHistory.FirstWriterWins | src/register.ts:653-657 | under first-writer-wins, whatever key writes follow, the winner stays the one there was or a row that descends from it |
| RegisterHeads.AncestorIff | src/register.ts:767-779 | a row is an ancestor of another if and only if causal pointers lead from the one to the other through held rows, in at most as many hops as the walk allows |
| RegisterHeads.FoldHeads | src/register.ts:661-726 | a key write stands as a conflict head until one that descends from it or a resolve that names it, and so for members between resets; the resolved heads and the reset generation are what the rows say |
| RegisterHeads.FoldAsks | src/register.ts:551-612 | a key's requests are those its rows ask, once each, with what was asked, and each approved by the last effective set that names it |
| DataLane.Session.SendData | src/session.ts:275-281 | a message is accepted or tail-dropped, and as much as credits allow goes out |
| DataLane.Session.PumpData | src/session.ts:291-310 | the loop sends exactly what credits allow, in order, and arms the retry timer |
| DataLane.Session.RetryUnacked | src/session.ts:316-331 | exactly the due frames are sent again |
| DataLane.Session.DispatchAck | src/session.ts:454-462 | a cumulative ACK retires exactly the covered mids and frees credits |
| DataLane.Session.OnDataMsg | src/session.ts:533-557 | a frame is re-acknowledged, buffered, or the session closes over the credit window, whichever handler throws |
| DataLane.Session.DrainData | src/session.ts:559-570 | contiguous messages are handed over in order, then acknowledged; a handler that throws stops both |
| DataLane.OnDataKeeps | src/session.ts:533-570 | a frame the sender really sent is within the window and is kept; unless a handler throws it is acknowledged once contiguous, with what an earlier throw left behind |
| DataLane.OnAckKeeps | src/session.ts:454-462 | a true ACK retires only delivered messages |
| DataLane.LaneSafety | src/session.ts:275-331 | over a channel that loses, repeats and reorders, with handlers that may throw at any message, what is handed over is a prefix of what was accepted; unacked mids stay consecutive and within credits; a conforming sender never trips the window; a retry timer is armed while anything is unacked |
| DataLane.LossFreeRetryRound | src/session.ts:316-331 | from any reachable state, earlier throws included, one retry round without loss or throw delivers and retires everything in flight |
| LaneAnswers.SendSays | src/session.ts:275-310 | a message is taken exactly when the session is open and the queue not full; then queued messages go out under the next mids, as many as the credits allow |
| LaneAnswers.AckSays | src/session.ts:454-462 | an ACK retires the messages in flight up to its mid, restarts the stall clock if and only if there were any, and uses the credits |
| LaneAnswers.RetrySays | src/session.ts:316-331 | the retry timer resends exactly the frames unacknowledged for a retry period, in order and once each, and starts their period over |
| LaneAnswers.StallIff | src/session.ts:333-348 | a session closes on a stall exactly when the oldest message in flight and the last advancing ACK both lie more than the limit back |
| LaneAnswers.DataSays | src/session.ts:533-570 | any data frame at all: re-acknowledged and nothing else, or closing the session past the credit window, or kept, and on a ready session what is contiguous handed over in order and acknowledged once unless the handler throws |
| LaneAnswers.QueueWaitsForCredits | src/session.ts:291-310 | in every reachable link a message waits in the queue of an open session only while all its credits are in flight |
| Base64.EncodeBytes | src/subs.ts:57-78 | the in-place encoder computes the specified encoding |
| Base64.DecodeString | src/subs.ts:80-97 | the in-place lenient decoder computes the specified decoding of any text |
| Base64.RoundTrip | src/subs.ts:57-97 | decoding an encoding gives the bytes back, for every byte sequence |
| Base64.EncodedLength | src/subs.ts:57-60 | four characters per three bytes, rounded up |
| Snap.SnapOut.Pump | src/subs.ts:826-858 | a pump sends the next chunks in order until done or out of room |
| Snap.SnapOut.PumpAll | src/subs.ts:826-858 | resumed across any stalls, the frames are those of one uninterrupted send |
| Snap.ClientSub.HandleSnap | src/subs.ts:941-992 | collecting a chunk keeps the byte count exact, discards chunks of another cursor, and finishes, is dropped as no row array, or overflows as specified; only a finished body moves the cursor |
| Snap.SnapReassembles | src/subs.ts:941-992 | for every body, budget and limit the frames reassemble to exactly the body while their base64 fits, and overflow otherwise |
| Snap.SnapDeliversIff | src/subs.ts:952-970 | the body is delivered if and only if its base64 fits the limit |
| Snap.ChunkFits | src/subs.ts:819-821 | the base64 of every chunk takes at most half a frame, up to rounding |
| Snap.ChunkLength | src/subs.ts:829-834 | every chunk but the last is full, and none is longer |
| Subs.Redo | src/subs.ts:341-349 | replaying changes already applied is harmless |
| Subs.DeltaKeeps | src/subs.ts:697-718 | a delta new or replayed leaves the client lacking only later changes |
| Subs.ChunkKeeps | src/subs.ts:826-858 | a chunk is one more collected, or the client stands at the SNAP's cursor with its table |
| Subs.GapClosesIff | src/subs.ts:793-799 | the changes since make up for a missed table if and only if each key on which it differs from the table then is touched by a later change |
| Subs.SubGroup.EnterResync | src/subs.ts:720-741 | an idle subscriber is owed one SNAP and gets a timer; any other is left alone |
| Subs.SubGroup.DeliverDelta | src/subs.ts:697-718 | an idle subscriber is sent the delta exactly when it fits and the lane takes it, and otherwise enters resync; any other is left alone |
| Subs.SubGroup.ReplayJournal | src/subs.ts:341-349 | after a replay the subscriber stands at the current change or is owed a SNAP; if the lane takes everything, exactly the missed deltas were sent |
| Subs.SubGroup.SendChunks | src/subs.ts:826-858 | chunks go out in order until the last, or until the lane has no room |
| Subs.SubGroup.PumpSnap | src/subs.ts:826-858 | a paced SNAP stalls with a timer armed, or completes and catches up; if the lane takes everything, exactly its remaining chunks and the deltas since were sent |
| Subs.SubGroup.CatchUp | src/subs.ts:863-881 | after a SNAP exactly the deltas since, while the journal has them, bring the subscriber to the present, or it is owed another |
| Subs.SubGroup.Refuse | src/subs.ts:793-799 | a SUB_ERR leaves the subscriber registered and owed nothing, with the table it had |
| Subs.SubGroup.TryStartSnap | src/subs.ts:776-817 | a SNAP begun carries the current table, cached or read; if the lane takes everything, all its chunks were sent and nothing is owed or missed any more; if the rows cannot be read, the subscriber is refused |
| Subs.SubGroup.HandleSub | src/subs.ts:312-355 | each error exactly when due, changing nothing; any other SUB, fresh, resuming or repeated, leaves every subscriber in order and all others untouched; if the lane takes everything, a cursor the journal reaches draws exactly the missed deltas and any other exactly one whole SNAP; if the rows cannot be read, exactly what the client missed is on note |
| Subs.SubGroup.Publish | src/subs.ts:677-688 | a published change leaves every subscriber in order, and reaches every idle one whose lane takes it |
| Subs.SubGroup.KeepsRecent | src/subs.ts:677-688 | the journal has every change since a cursor exactly when that is of this epoch and at most as many changes behind as are retained |
| Subs.BackoffDoubles | src/subs.ts:768-774 | a stalled subscriber waits twice as long each time, within 50 ms and the retry period |
| Subs.SubGroup.ResetGroup | src/subs.ts:664-674 | an epoch reset leaves every subscriber in order, nobody mid-SNAP of the old epoch; if the lanes take everything, each was sent one whole SNAP of the new table |
| Subs.SubGroup.OnViewChange | src/subs.ts:646-661 | a change of the view moves the group's table the same way, whether published or as a new epoch |
| Subs.SubGroup.Follow | src/subs.ts:646-661 | told everything a view's change feed says, the group serves exactly the view's table |
| Subs.SubGroup.TimerFires | src/subs.ts:755-763 | a timer leaves every subscriber in order, and moves its own one on if the lane takes everything |
| Subs.SubGroup.HandleCapacity | src/subs.ts:376-384 | a drained lane leaves every subscriber in order, and moves its own one on if the lane takes everything |
| Subs.SubGroup.Remove | src/subs.ts:624-641 | a subscriber leaves; the others are unaffected |
| Subs.SubGroup.IdleSubscriberHasTable | src/subs.ts:664-881 | at every moment between events a subscriber neither pending nor mid-SNAP has been sent frames that, applied in order, give exactly the view table at deltaSeq, unless its rows could not be read and no SNAP has completed since |
| Subs.SubGroup.MissedHasTableIff | src/subs.ts:793-799 | and then it has been sent every change since, and has the table if and only if each key on which it differed when the read failed is touched by a later change |
| Subs.SubGroup.Settle | src/subs.ts:755-881 | nobody stays behind: once the lane has room and takes frames and rows can be read, a drained lane and at most one timer leave any subscriber that is owed something idle with exactly the current table, also after earlier failed reads |
| Subs.SubGroup.WaitingHasTimer | src/subs.ts:755-774 | at every moment between events a subscriber pending or mid-SNAP has a timer armed |
| Subs.SubGroup.ReconnectsInOrder | src/subs.ts:334-349 | however much of what was sent arrived when a session ended, the client may resume from its cursor |
| Subs.MissedRow | src/subs.ts:793-799 | the failing input: a first SUB whose rows cannot be read, then one published change, and its client is at the current change number without the table |
| Scheduling.Scheduler.BubbleUp | harness/scheduler.ts:106-116 | heap order is restored with the same events |
| Scheduling.Scheduler.SinkDown | harness/scheduler.ts:118-142 | heap order is restored with the same events |
| Scheduling.Scheduler.TakeTop | harness/scheduler.ts:89-97 | the event taken is one nothing left comes before |
| Scheduling.Scheduler.Schedule | harness/scheduler.ts:32-37 | an event enters at its time, or now if that is past |
| Scheduling.Scheduler.Pop | harness/scheduler.ts:89-100 | the next event is the first not cancelled, and everything left comes strictly after it |
| Scheduling.Scheduler.Perform | harness/scheduler.ts:32-50 | whatever a callback schedules and cancels, the scheduler stays in order |
| Scheduling.Scheduler.Execute | harness/scheduler.ts:79-82 | running an event moves the clock to it |
| Scheduling.Scheduler.Run | harness/scheduler.ts:58-83 | however callbacks schedule and cancel, over any number of runs: no event that runs is cancelled when it runs, events run in strictly increasing (at, seq) order, the clock never goes back, none past untilMs, no event goes missing, and the runaway guard is exact |
| Minimizing.Minimizer.DropWindows | harness/minimize.ts:364-370 | unchanged only if no single window can be dropped |
| Minimizing.Minimizer.DropSegments | harness/minimize.ts:372-378 | unchanged only if no single segment can be dropped |
| Minimizing.Minimizer.DropNodes | harness/minimize.ts:380-389 | unchanged only if the top node cannot be dropped |
| Minimizing.Minimizer.ShrinkWindows | harness/minimize.ts:391-412 | unchanged only if no half of a wide window suffices |
| Minimizing.Minimizer.ShrinkSegments | harness/minimize.ts:414-446 | unchanged only if no segment can lose half its count or half its interval |
| Minimizing.Minimizer.Minimize | harness/minimize.ts:324-458 | terminates for every deterministic check with a slice of the baseline that still fails while no single further reduction of it does |
| Minimizing.ReductionIff | harness/minimize.ts:364-446 | the single reductions are: a window or segment left out, the unused top node left out, one half of a wide window or segment, half a segment's operations |

## Left out

- SQLite, DDL, query plans, owner locks, WebSocket and DataChannel wrappers, the beacon, host reconnect and HMAC: I/O or library glue. Tables are maps; a SELECT is a function or a method with its result specified.
- Wire shape validation (`src/codec.ts`, `src/messages.ts`): messages are taken as parsed; `validateEntry` on an append is a parameter, and entries from the wire have seq at least 1.
- `src/snapshot.ts` and snapshot adoption (`processAdopt`, `installSnapshot`): not part of this model.
- `retireTopic`, `pruneTopic`, consumers and archiving: only consumer cursors appear, as inputs to the prune floors.
- FTS mirrors, statistics, counters, annotations and anomaly texts; the HAVE-vector cache with its tombstone expiry; `logCounts` (not undone by an abort).
- Times are whole milliseconds and integers are unbounded; the bounds that matter (the HLC counter, safe integers in `dec`, 32-bit length prefixes) are written out.
- CommitQueue.LogCore.Flush: a throw is modelled as arbitrary leftovers in tables, caches and memory plus any ring pushes made through `persist`; the queue's own timers and the settling of promises are not modelled.
- CommitQueue.LogCore.ProcessDirective: stored directives are compared as values, where the code compares their JSON text.
- QueueRuns.WholeRuns: claims nothing of a stream that adopts a floor or is pruned; those hold rows above a floor only (see `Rounds.RunHeld` and `Retention.FloorBound`).
- QueueRuns.CutRuns: the two kinds of step it excludes do break the cut, by `QueueRuns.CertCutIff` and `QueueRuns.RecoveryCutIff`; the code guards neither.
- Causes.RightCauseIff: the own head does not go back, own rows folded are committed, and a base names no own row that has not been folded live; a restart forgets the tails, as in the code, so rows written before it count no more.
- Recovery.RecoveryCompletes: the stream is held from seq 1; recovery that rewinds below a retention floor is not covered.
- Replication.ReplicationSafety: without certificates, directives and snapshots; any held row may become a floor, and any floor ever sent may be adopted at any time, which allows more than the WANT bookkeeping does.
- Sync.PaginateHave: a page holding a single stream may exceed the byte budget, as in the code.
- Retention.AckedTopic.PruneAcked: whether a topic may prune by acknowledgment is a parameter.
- Membership.NetMemberNeverTruncated: the pruning node counts the member in every prune and takes in no floors and no snapshots for the topic; certificates and directives, which can take heads back, do not occur, as in `Replication.ReplicationSafety`.
- Keyed.KeyedTopic.PruneSuperseded: with `supersedeOtherWriters` no live value is claimed, since that option deletes them on purpose.
- Finality.ProposeFinality: reads the hot log only, as the code does; nothing is archived.
- Export.RoundTrip: the exporter's rows and floors do not move while it exports; the header's finality base is not modelled.
- Export.ImportTopic: streams are contiguous above their floors with stamps not going back, nothing is archived, and the importer holds no certificate; parsing of lines and header checks are not modelled.
- Views.View.Materialize: a view with its own `delta` function is not modelled, since a batch merges its upserts and deletes and loses their order; re-entrant callbacks are not modelled.
- Views.View.Restore: the stored checkpoints are folds of rows an earlier view had folded, which the code trusts without checking.
- Registers.RegisterTopic.Materialize: causal pointers go down the total order and no row commits during a pass; the key state is a value; takeover verdicts are a fixed predicate; surfacing conflicts and asking owners is not modelled; `installSnapshot` is not, only bases saved and restored.
- RegisterHeads.MaterializedSays: the base the keys started from holds the state at its place; `Registers.Rebased` says exactly when a rebase leaves such a base.
- DataLane.LaneSafety: every message serializes, so a mid is never taken for nothing.
- Subs.SubGroup.IdleSubscriberHasTable: of a subscriber whose rows could not be read, and that has had no whole SNAP since, `Subs.SubGroup.MissedHasTableIff` says what it has; groups are those of delta-less views; the table stands for its serialized rows, and new epochs differ from all a client may hold.
- Subs.SubGroup.HandleSub: which views exist and what the ACL allows are parameters; one client subscription per id, as the client numbers them; an id that moves over from another group leaves that group and is new to this one.
- Snap.SnapReassembles: the receiver is not already in the middle of other chunks under the same cursor.
- Scheduling.Scheduler.Run: a callback, with the microtasks it leaves, is an arbitrary list of scheduling and cancelling actions.
- Minimizing.Minimizer.Minimize: the check is a fixed function of the parameters; when the unaimed first check names a property that the aimed check does not fail on the baseline, the result may be the baseline itself.
