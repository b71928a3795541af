# GEMS: consensus, index, membership and formats

GEMS is a clustered entity store. This project models the parts of it whose correctness is not
visible from any one function, and proves what they are for:

- **Replication** (`Raft*.dfy`). `Raft` has the handlers of the consensus core as functions,
  `RaftNode` the core as an object whose methods are proved to compute them, `RaftCluster` a
  cluster of engine loops over a network that loses, repeats and reorders messages, with crashes
  and restarts from disk. Election Safety, Log Matching and leader append-only logs hold in every
  run. A follower reports the length of its whole log rather than what it was sent, so State
  Machine Safety depends on the size of the cluster: `RaftBounds` proves that releases agree in
  every run exactly when there are at most two, or exactly four, members, and that no member is
  ever led past the end of its log exactly when there are at most two. Behind it are a proof that
  a leader's own voters never over-report to it (`RaftSafety`, `RaftTheorems`), which also gives
  safety in every cluster under truthful reports, and runs built for any other number of members
  (`RaftScript`, `RaftViolation`). The proofs keep a history of votes, elections, term logs and
  acknowledgements (`RaftHistory`, `RaftInvariance`, `RaftSteps`, `RaftRuns`, `RaftCommit`).
- **The copy-on-write index** (`Bytes`, `NodeCodec`, `TreeModel`, `Pager`, `PageTree`,
  `TreeUpdates`, `BTree`). Nodes pass through pages without loss; the pure tree is a finite sorted
  map; the paged tree does to the file what the pure tree does to the map. The pager records every
  state the file passes through, one per ordered write, and each of them opens as exactly the old
  map or exactly the new one. No page is lost or used twice.
- **Membership** (`Swim*.dfy`). The failure detector as functions, as an object, and as a cluster
  without restarts: incarnations never run ahead of their owner, only the suspect clears a
  suspicion, every accusation has an origin, and no node passes one fact on more than four times.
- **Bitmaps** (`Words`, `Container`, `Roaring`). Machine words of bits, the two chunk forms, and
  the chunk map, each refining a set of integers.
- **The store** (`Store`, `StoreNode`). Ordinals, secondary indexes and the query planner against a
  scan of what is stored.
- **The extent file** (`Extents`, `ExtentRuns`, `ExtentNode`). The slot allocator as a table, the
  manager over the mapped bytes proved to be that table, and every run of allocations, frees and
  reopenings. The number of extents up to which held slots never overlap is exact: each must have
  been added while the rounding slack before it stayed below one extent, or one more if the file is
  never reopened. Only a page size that divides the extent's size keeps that for ever.
- **Log shipping and views** (`Replay`, `Replica`, `Views`). The primary's store is the replay of its
  log. A replica, cut off anywhere between applying a record and saving its offset, holds what the
  primary held at some point, and exactly what the primary holds once its offset is the end of the
  log; each loss of the saved offset itself adds one more prefix replayed over what it has. Count
  views agree with the count taken over the store.
- **Formats** (`Json`, `JsonRoundTrip`, `JsonParser`, `Wire`). The JSON printer and parser, the
  framed peer protocol, the persisted consensus state, and reassembly of a byte stream that arrives
  in arbitrary pieces.

`dafny verify dfyconfig.toml` checks everything.

Where the code and its documentation disagree, the model follows the code:

- A successful append reply carries the follower's whole log length (`raft.rs:535`), not the length
  matched. `RaftCommit.OverReportExact` says when that is more than was sent.
- The membership module says a higher incarnation always wins; a death already believed is final
  whatever comes later (`gossip.rs:233-240`). `SwimLocal.OrderMatters` says exactly when the order of
  two reports matters.
- The root field is described as lying at a 4-byte-aligned offset; it lies at offset 14
  (`pager.rs:44`). The model takes its write as one step all the same. It is also said that new pages
  must be synced before the root is published; the tree does not do that, so the crash considered
  here is the end of the process with its writes in order, not a loss of power.
- An entity type is indexed under the name as given and stored under a name cut to 63 bytes.
  `Store.InsertKeeps` says exactly when the indexes stay exact.
- Growing the extent file is said to return the offset of the new extent; it returns the mapped
  length, which rounding has pushed past it, and dividing that names the right extent only while the
  slack is below one extent (`file.rs:75-98`, `manager.rs:90-93`). `ExtentRuns.NewExtentIndex` has the
  exact bound, 4113 earlier extents with 4096-byte pages, and `ExtentRuns.SafeUpToExact` what it means
  for held slots.
- A replica's offset is said to be persisted so that it resumes; a cut while the offset file is being
  rewritten leaves it empty, and the replica starts over on top of what it has (`replica.rs:38-48`).
  `Replica.AlwaysLayers` says what it can then hold.
- The primary is said to log every change; when the append fails the store keeps it.
  `Replay.PrimaryStore.Insert` says exactly when store and log then still agree.

## Model

| member | source | states |
|---|---|---|
| RaftNode.RaftCore.Tick | crates/gems-cluster/src/raft.rs:256-274 | the object moves as the specification's tick does: a leader counts to its heartbeat, anyone else to a campaign, and the node stops exactly when a slice leaves the log |
| RaftNode.RaftCore.Campaign | crates/gems-cluster/src/raft.rs:276-303 | a new term, a vote for itself, requests to every peer, then the win check for a cluster of one |
| RaftNode.RaftCore.StepDown | crates/gems-cluster/src/raft.rs:305-312 | the vote is forgotten only when the term rises |
| RaftNode.RaftCore.TakeLead | crates/gems-cluster/src/raft.rs:314-320 | every peer starts at the end of the leader's log with nothing matched |
| RaftNode.RaftCore.WinIfElected | crates/gems-cluster/src/raft.rs:322-333 | a candidate with a majority of the whole cluster leads and replicates at once |
| RaftNode.RaftCore.MakeAppendEntries | crates/gems-cluster/src/raft.rs:335-351 | the message for a follower carries the log from its next index with the term before it, or the slice is out of range |
| RaftNode.RaftCore.ReplicateToAllPeers | crates/gems-cluster/src/raft.rs:353-358 | one such message per peer in peer order |
| RaftNode.RaftCore.Propose | crates/gems-cluster/src/raft.rs:364-380 | a leader appends one entry of its term and answers its index; anyone else is left untouched |
| RaftNode.RaftCore.Receive | crates/gems-cluster/src/raft.rs:384-441 | each message kind is handled and answered as the specification says |
| RaftNode.RaftCore.OnRequestVote | crates/gems-cluster/src/raft.rs:443-472 | a vote goes to one candidate a term, and only if its log is at least as up to date |
| RaftNode.RaftCore.OnVoteReply | crates/gems-cluster/src/raft.rs:474-491 | only granted votes of the present candidacy count |
| RaftNode.RaftCore.OnAppendEntries | crates/gems-cluster/src/raft.rs:493-536 | the truncating loop computes the recursive reconciliation, and the whole log length is reported |
| RaftNode.RaftCore.OnAppendReply | crates/gems-cluster/src/raft.rs:538-575 | a success trusts the report and may advance the commit index, a refusal backs up one and retries |
| RaftNode.RaftCore.AdvanceCommitIndex | crates/gems-cluster/src/raft.rs:584-598 | the sorted majority pick, taken only for an entry of the current term |
| RaftNode.RaftCore.TakeNewlyCommitted | crates/gems-cluster/src/raft.rs:605-612 | hands out the committed entries not yet applied, once each, in order |
| RaftNode.RaftCore.constructor | crates/gems-cluster/src/raft.rs:163-184 | restarts with the persisted term, vote and log and with nothing committed or applied |
| RaftRuns.DiskIsCurrent | crates/gems-cluster/src/raft_net.rs:360-372 | when the engine skips the write after a tick, nothing persistent has changed |
| RaftRuns.RestoreKeeps | crates/gems-cluster/src/raft.rs:163-184 | what restarts from disk satisfies every invariant of the node that wrote it |
| RaftRuns.ElectionSafety | crates/gems-cluster/src/raft.rs:276-333 | at most one member ever leads a term, at any two moments of any run with crashes and restarts |
| RaftRuns.LogMatching | crates/gems-cluster/src/raft.rs:493-530 | two logs with the same term at an index agree up to that index, across members and time |
| RaftRuns.LeaderAppendOnly | crates/gems-cluster/src/raft.rs:364-380 | while a term is led its leader's log only grows |
| RaftInvariance.ReconcileAgainst | crates/gems-cluster/src/raft.rs:511-529 | reconciling with a slice of the leader's log yields the follower's log if it already starts that way, else exactly the leader's prefix |
| RaftInvariance.SharedVoter | crates/gems-cluster/src/raft.rs:322-333 | two sets of members too large to be disjoint, such as two majorities, share one |
| RaftCommit.MajorityPick | crates/gems-cluster/src/raft.rs:584-592 | the pick from the sorted list reaches k exactly when a majority of the list does |
| RaftCommit.CommitIndexExact | crates/gems-cluster/src/raft.rs:577-598 | the commit index moves exactly when some current-term index is believed held by a majority and no majority is believed past the log's end, and then to the largest such index |
| RaftCommit.OverReportExact | crates/gems-cluster/src/raft.rs:518-535 | a follower reports more than it was sent exactly when it holds more and agrees with everything sent |
| RaftCommit.LeaderCompleteness | crates/gems-cluster/src/raft.rs:468-491 | what enough members to meet every majority have held of a term's own entries is in the log of every later leader |
| RaftCommit.SafeAgree | crates/gems-cluster/src/raft.rs:584-612 | two prefixes within chosen entries never disagree |
| RaftSafety.PickIsChosen | crates/gems-cluster/src/raft.rs:584-598 | an index the leader commits has been held in its own term by members that meet every majority, if all reports are truthful or three majorities outnumber the cluster twice |
| RaftSafety.NeverStops | crates/gems-cluster/src/raft.rs:335-358 | with truthful reports no call slices past the log |
| RaftSafety.FollowerCommits | crates/gems-cluster/src/raft.rs:531-535 | the commit index a follower takes over stays within what it was sent and what is chosen, whatever else its log holds |
| RaftSafety.VoterReportsLeaders | crates/gems-cluster/src/raft.rs:468-536 | a member that voted for the leader of a term reports to it only what the leader has |
| RaftTheorems.StateMachineSafety | crates/gems-cluster/src/raft.rs:605-612 | in every run with truthful reports two releases at one index carry the same command |
| RaftTheorems.CommittedPrefixesAgree | crates/gems-cluster/src/raft.rs:584-612 | in those runs the committed prefixes of any two members at any two moments agree |
| RaftTheorems.NoMemberStops | crates/gems-cluster/src/raft.rs:335-358 | in those runs every engine iteration leaves its member running |
| RaftTheorems.SmallClustersAgree | crates/gems-cluster/src/raft.rs:605-612 | in clusters of one, two or four members releases at one index agree in every run |
| RaftTheorems.SmallPrefixesAgree | crates/gems-cluster/src/raft.rs:584-612 | and committed prefixes agree |
| RaftTheorems.PairNeverStops | crates/gems-cluster/src/raft.rs:335-358 | in clusters of one or two members every engine iteration of every run leaves its member running |
| RaftBounds.AgreementExact | crates/gems-cluster/src/raft.rs:577-612 | releases at one index agree in every run of a cluster exactly when it has at most two, or exactly four, members |
| RaftBounds.StoppingExact | crates/gems-cluster/src/raft.rs:335-358 | no run of a cluster stops a member in an engine iteration exactly when it has at most two members |
| RaftViolation.OverReport | crates/gems-cluster/src/raft.rs:535-535 | a follower with one stale entry answers an empty heartbeat with length 1 |
| RaftViolation.StoppingRun | crates/gems-cluster/src/raft.rs:335-351 | for any three or more members, a run in which a heartbeat slices past its leader's log |
| RaftViolation.UnsafeRunOf | crates/gems-cluster/src/raft.rs:553-554 | for any three, or five or more, members, a run that releases two different commands for index 1 |
| RaftViolation.UnsafeRun | crates/gems-cluster/src/raft.rs:553-554 | such a run of three members |
| Bytes.LERoundTrip | crates/gems-index/src/node.rs:145-149 | a fixed-width number survives its little-endian bytes |
| Bytes.ByteOrderIsNumeric | crates/gems-common/src/tuid.rs:13-24 | comparing identifiers byte by byte is comparing the numbers they spell |
| NodeCodec.EncodeLeaf | crates/gems-index/src/node.rs:96-107 | the writing loop produces exactly the laid-out page |
| NodeCodec.EncodeInternal | crates/gems-index/src/node.rs:154-168 | the writing loops produce exactly the laid-out page |
| NodeCodec.DecodeNode | crates/gems-index/src/node.rs:58-151 | the reading loops find the node, or corruption when the kind or the count cannot be |
| NodeCodec.NodeRoundTrip | crates/gems-index/src/node.rs:58-168 | every node within capacity fits its page and is read back as itself |
| PageTree.DecodeFits | crates/gems-index/src/node.rs:69-82 | whatever decodes is within capacity and can be written again |
| TreeModel.PutIsUpdate | crates/gems-index/src/btree.rs:128-131 | putting into a sorted leaf updates the map and keeps it sorted |
| TreeModel.AbsorbKeeps | crates/gems-index/src/btree.rs:159-206 | whatever the child became, the branch above stays within capacity, bounds and level, splitting if it must |
| TreeModel.InsertRefines | crates/gems-index/src/btree.rs:100-208 | an insertion keeps the tree proper and level and is a map update |
| TreeModel.DeleteRefines | crates/gems-index/src/btree.rs:212-256 | a deletion keeps the tree proper and level and is a map removal |
| TreeModel.DeleteAbsent | crates/gems-index/src/btree.rs:233-248 | deleting what is not there changes no node |
| TreeModel.LookupRefines | crates/gems-index/src/btree.rs:74-98 | descending by separators answers what the map holds |
| TreeModel.FlattenSorted | crates/gems-index/src/btree.rs:258-290 | a proper tree reads out strictly ascending and within its bounds |
| Pager.PageFile.PublishRoot | crates/gems-index/src/pager.rs:184-198 | one write of the root, then the rest of the header, and the states in between |
| Pager.PageFile.AllocatePage | crates/gems-index/src/pager.rs:270-298 | pops the freelist or grows the file by one page, with the state in between |
| Pager.PageFile.FreePage | crates/gems-index/src/pager.rs:306-312 | links the page, then moves the head to it |
| Pager.AllocationMoves | crates/gems-index/src/pager.rs:270-298 | allocation touches only free or new pages and leaves a well-formed freelist at every step |
| Pager.FreeingChains | crates/gems-index/src/pager.rs:306-312 | freeing a page used nowhere leaves a well-formed freelist before and after the head moves |
| PageTree.ReadOnce | crates/gems-index/src/btree.rs:264-290 | the file determines the tree |
| PageTree.StoresOne | crates/gems-index/src/btree.rs:264-290 | a file never stores two maps |
| TreeUpdates.TornPage | crates/gems-index/src/node.rs:96-107 | whatever bytes a write has left on a page not yet in use, the file still stores the old map |
| TreeUpdates.PublishKeeps | crates/gems-index/src/btree.rs:117-121 | every state up to the root write keeps the old tree, the root write and every state after it the new one |
| BTrees.BTree.InsertRec | crates/gems-index/src/btree.rs:124-208 | the pages written show the tree insertion leads to, the superseded ones are exactly the path, and no page in use was touched |
| BTrees.BTree.Insert | crates/gems-index/src/btree.rs:100-122 | the map gains the pair; up to one write every state of the file stores the old map, from it on the new one; every page is accounted for as before |
| BTrees.BTree.DeleteRec | crates/gems-index/src/btree.rs:228-256 | a new page id comes back exactly when the key was there, and the pages show the tree without it |
| BTrees.BTree.Delete | crates/gems-index/src/btree.rs:212-226 | the answer is the old binding, the map loses the key, and the file and its pages fare as for insert |
| BTrees.BTree.FreePending | crates/gems-index/src/btree.rs:118-120 | every superseded page goes onto the freelist once, the tree staying readable throughout |
| BTrees.BTree.Get | crates/gems-index/src/btree.rs:74-98 | the loop answers what the map holds |
| BTrees.BTree.ScanAll | crates/gems-index/src/btree.rs:264-290 | the whole map in ascending order |
| BTrees.BTree.Create | crates/gems-index/src/btree.rs:48-55 | an empty map in which no page is unaccounted for |
| BTrees.BTree.Open | crates/gems-index/src/btree.rs:57-64 | opening any file that stores a map gives a tree with that map |
| SwimNode.SwimCore.Enqueue | crates/gems-cluster/src/gossip.rs:193-202 | fresh news replaces older news of the same member |
| SwimNode.SwimCore.TakeFromQueue | crates/gems-cluster/src/gossip.rs:204-220 | the first eight entries go out, each losing one send |
| SwimNode.SwimCore.MergeItem | crates/gems-cluster/src/gossip.rs:227-259 | a report is taken exactly when it outranks a view that is not final |
| SwimNode.SwimCore.MaybeRefuteSelf | crates/gems-cluster/src/gossip.rs:266-284 | an accusation at the node's incarnation or later is answered with the next incarnation |
| SwimNode.SwimCore.NextPingTarget | crates/gems-cluster/src/gossip.rs:286-299 | the next peer in turn that is not dead |
| SwimNode.SwimCore.Tick | crates/gems-cluster/src/gossip.rs:305-371 | suspicions age, then the outstanding ping, then perhaps a new ping, for any order the map yields |
| SwimNode.SwimCore.Receive | crates/gems-cluster/src/gossip.rs:373-420 | the sender is alive, then its gossip in order, then the answer |
| SwimLocal.MergeKeeps | crates/gems-cluster/src/gossip.rs:227-284 | merging keeps the node's invariant, only raises views, and brings in no accusation but the one merged |
| SwimLocal.TickExact | crates/gems-cluster/src/gossip.rs:305-371 | a tick makes dead exactly the suspects whose window has elapsed and suspect exactly the unresponsive target |
| SwimLocal.ReceiveKeeps | crates/gems-cluster/src/gossip.rs:373-420 | any message keeps the invariant, and what is sent is truthful about the sender's views |
| SwimLocal.MentionsArePaid | crates/gems-cluster/src/gossip.rs:204-220 | every mention of a member is paid for out of its budget of sends |
| SwimLocal.TakesRunOut | crates/gems-cluster/src/gossip.rs:204-220 | the sends left fall by the number of items attached |
| SwimLocal.FreshBudget | crates/gems-cluster/src/gossip.rs:193-202 | fresh news has exactly four sends and takes none from other members |
| SwimGossip.FourTimesAtMost | crates/gems-cluster/src/gossip.rs:193-220 | over a whole run a node sends any one fact in at most four messages, however often it hears it |
| SwimLocal.OrderMatters | crates/gems-cluster/src/gossip.rs:232-243 | two reports of a member commute exactly unless one is an acceptable death and the other a later incarnation |
| SwimLocal.TurnComes | crates/gems-cluster/src/gossip.rs:286-299 | each ping goes to a given live peer or brings its turn closer |
| SwimLocal.PingsSomeone | crates/gems-cluster/src/gossip.rs:286-299 | nobody is pinged exactly when every peer is known dead |
| SwimRuns.IncarnationsAreTrue | crates/gems-cluster/src/gossip.rs:227-284 | in every run no view or message holds an incarnation above its member's own |
| SwimRuns.QueuedIsTrue | crates/gems-cluster/src/gossip.rs:193-220 | nor does any queued fact |
| SwimRuns.NeverStuck | crates/gems-cluster/src/gossip.rs:305-371 | in every run a tick finds its turn in range and every queued count above zero |
| SwimRuns.RefutedBefore | crates/gems-cluster/src/gossip.rs:266-284 | every incarnation a member has reached it reached by refuting an accusation at the one before |
| SwimRuns.OnlyTheSuspectClears | crates/gems-cluster/src/gossip.rs:20-24 | when an observer takes a suspect for alive again, the suspect itself had refuted at a higher incarnation |
| SwimRuns.ViewsRise | crates/gems-cluster/src/gossip.rs:232-240 | over any stretch of any run views only rise and deaths are final |
| SwimRuns.AccusationHasOrigin | crates/gems-cluster/src/gossip.rs:316-346 | every suspicion or death held or carried anywhere goes back to a node that waited in vain at that incarnation |
| SwimRuns.DeathFollowsSuspicion | crates/gems-cluster/src/gossip.rs:308-346 | every death goes back to an elapsed window, and before it to a missed ack |
| Words.MaskBit | crates/gems-bitmap/src/container.rs:58-62 | setting, clearing and testing a bit through its mask moves that bit alone |
| Containers.SetAll | crates/gems-bitmap/src/container.rs:89-98 | promoting a list sets exactly the bits of its values |
| Containers.CountOnes | crates/gems-bitmap/src/container.rs:22-27 | the sum of the word counts is the number of values |
| Containers.Items | crates/gems-bitmap/src/container.rs:100-113 | iteration yields each value once, ascending, from either form |
| Containers.Container.Insert | crates/gems-bitmap/src/container.rs:45-65 | adds one value in either form and through promotion, and says whether it was new |
| Containers.Container.Remove | crates/gems-bitmap/src/container.rs:70-87 | removes one value, keeps the form, and says whether it was there |
| Containers.Union | crates/gems-bitmap/src/container.rs:115-120 | the union, as a list exactly when it has at most 4096 values |
| Containers.Intersect | crates/gems-bitmap/src/container.rs:122-137 | the intersection, whichever side is walked |
| Containers.Has | crates/gems-bitmap/src/container.rs:33-41 | membership in either form |
| Roaring.RoaringBitmap.Insert | crates/gems-bitmap/src/roaring.rs:30-36 | adds one 32-bit value and says whether it was new |
| Roaring.RoaringBitmap.Remove | crates/gems-bitmap/src/roaring.rs:38-50 | removes one value and leaves no empty chunk behind |
| Roaring.RoaringBitmap.Has | crates/gems-bitmap/src/roaring.rs:52-58 | membership |
| Roaring.RoaringBitmap.Len | crates/gems-bitmap/src/roaring.rs:60-62 | the number of values |
| Roaring.RoaringBitmap.IsEmpty | crates/gems-bitmap/src/roaring.rs:64-66 | having no chunk is having no value |
| Roaring.RoaringBitmap.ToVec | crates/gems-bitmap/src/roaring.rs:68-76 | every value once, ascending |
| Roaring.RoaringBitmap.Union | crates/gems-bitmap/src/roaring.rs:78-97 | set union in a fresh bitmap |
| Roaring.RoaringBitmap.Intersect | crates/gems-bitmap/src/roaring.rs:99-110 | set intersection in a fresh bitmap |
| Roaring.RoaringBitmap.AndNot | crates/gems-bitmap/src/roaring.rs:115-136 | set difference in a fresh bitmap |
| Store.AddExact | crates/gems-engine/src/secondary.rs:22-24 | filing a new ordinal keeps an index exact |
| Store.RemoveExact | crates/gems-engine/src/secondary.rs:26-33 | removing one keeps it exact and drops an emptied bucket |
| Store.InsertKeeps | crates/gems-engine/src/lib.rs:223-248 | an insert or overwrite changes one entity, and leaves every index exact precisely when an entity type's name fits its header |
| Store.DeleteKeeps | crates/gems-engine/src/lib.rs:278-289 | a delete removes one entity and leaves every index exact |
| Store.ExactThroughout | crates/gems-engine/src/lib.rs:223-289 | after any inserts, overwrites and deletes since opening the indexes are exact precisely when every entity type inserted had a name that fits its header |
| Store.IndexesDetermined | crates/gems-engine/src/lib.rs:174-200 | what is stored determines every index |
| StoreNode.ReopenSame | crates/gems-engine/src/lib.rs:174-191 | reopening gives back the same indexes; only unused ordinals are forgotten |
| StoreNode.EntityStore.Insert | crates/gems-engine/src/lib.rs:227-248 | the object moves as the specified insert, with what that keeps |
| StoreNode.EntityStore.Delete | crates/gems-engine/src/lib.rs:278-289 | the object moves as the specified delete, with what that keeps |
| StoreNode.EntityStore.AssignOrdinal | crates/gems-engine/src/lib.rs:212-221 | the old ordinal of a known entity, the next unused one otherwise |
| StoreNode.EntityStore.Rebuild | crates/gems-engine/src/lib.rs:177-191 | a scan in any order restores exact indexes and the least next ordinal above every live one |
| StoreNode.EntityStore.Resolve | crates/gems-engine/src/lib.rs:302-314 | the ids of a set of ordinals, each once, lowest ordinal first |
| StoreNode.EntityStore.FindType | crates/gems-engine/src/lib.rs:331-335 | what a scan for entity types of that name would find filed first |
| StoreNode.EntityStore.EvalTypeIn | crates/gems-engine/src/lib.rs:366-393 | the ids a scan by type would select, or an error when something listed is not a name |
| StoreNode.EntityStore.RunQuery | crates/gems-engine/src/lib.rs:342-364 | refuses exactly the unsupported queries, and otherwise answers the sorted, cut result of a full scan |
| JsonRoundTrip.StringRoundTrip | crates/gems-json/src/write.rs:48-62 | every string survives printing and reading, with all its escapes |
| JsonRoundTrip.NumberRoundTrip | crates/gems-json/src/write.rs:40-46 | every integer below 10^15 survives |
| JsonRoundTrip.ValueRoundTrip | crates/gems-json/src/parse.rs:69-165 | in any context the text of a value reads back as it, or is refused for depth |
| JsonRoundTrip.RoundTrip | crates/gems-json/src/parse.rs:29-41 | the text of a value parses back to it exactly when it is nested at most 64 deep |
| JsonRoundTrip.PrintIsInjective | crates/gems-json/src/write.rs:8-38 | different values never print alike |
| JsonParser.ParseText | crates/gems-json/src/parse.rs:29-41 | the parser returns what the grammar function says on every text |
| JsonParser.Parser.ParseValue | crates/gems-json/src/parse.rs:69-90 | the cursor stops where the function says and the depth counter is as it was |
| JsonParser.Parser.ParseArray | crates/gems-json/src/parse.rs:142-165 | likewise for the loop over array items, with the depth check first |
| JsonParser.Parser.ParseObject | crates/gems-json/src/parse.rs:113-140 | likewise for the loop over object entries |
| JsonParser.Parser.ParseString | crates/gems-json/src/parse.rs:167-190 | likewise for the loop over characters and escapes |
| JsonParser.Parser.ParseUnicodeEscape | crates/gems-json/src/parse.rs:192-205 | four characters, a leading plus sign allowed, surrogates refused |
| JsonParser.Parser.ParseNumber | crates/gems-json/src/parse.rs:207-233 | the longest numeral ahead, accepted when it has a digit and no empty exponent |
| Wire.RecordRoundTrip | crates/gems-cluster/src/record.rs:37-107 | a record within the frame cap reads back whatever follows it |
| Wire.EntriesBack | crates/gems-cluster/src/raft.rs:684-688 | a run of entries reads back, and takes at least twelve bytes each |
| Wire.WriteEntries | crates/gems-cluster/src/raft.rs:684-688 | the sender's loop writes exactly those bytes |
| Wire.TakeEntries | crates/gems-cluster/src/raft.rs:759-783 | the loop moving a position reads what the recursive reader reads |
| Wire.StateRoundTrip | crates/gems-cluster/src/raft_state.rs:75-131 | term, vote and log come back from disk as written |
| Wire.FrameRoundTrip | crates/gems-cluster/src/raft.rs:644-808 | a frame decodes to the envelope sent, whatever follows it |
| Wire.FrameCut | crates/gems-cluster/src/raft.rs:712-728 | part of a frame is neither a frame nor an error |
| Wire.DrainMore | crates/gems-cluster/src/raft_net.rs:217-221 | draining what arrived and then the rest is draining it all at once |
| Wire.Connection.Receive | crates/gems-cluster/src/raft_net.rs:208-223 | each read delivers every complete frame and keeps the remainder |
| Wire.AnyChunking | crates/gems-cluster/src/raft_net.rs:208-223 | however the stream is cut into reads, exactly the envelopes that arrived in full are delivered, in order, and nothing fails |
| Wire.RecordCut | crates/gems-cluster/src/record.rs:69-83 | part of a record is neither a record nor an error |
| Extents.ForSize | crates/gems-storage/src/extent.rs:100-111 | doubling finds the smallest class whose blocks hold the size, or that none does |
| Extents.SlotsTile | crates/gems-storage/src/extent.rs:88-94 | blocks of each class tile the data region and the bitmap has a bit for each |
| Extents.RoundedGrowth | crates/gems-storage/src/file.rs:75-98 | the n-th growth leaves n rounded extents mapped |
| Extents.IndexExact | crates/gems-storage/src/manager.rs:90-91 | the n-th new extent is called n exactly while n times the slack is below an extent |
| Extents.IndexRises | crates/gems-storage/src/manager.rs:90-91 | no two growths are given one index |
| ExtentRuns.NeverFull | crates/gems-storage/src/manager.rs:94-96 | in every run a new extent has a free slot |
| ExtentRuns.AllocateFresh | crates/gems-storage/src/manager.rs:69-103 | within the bound an allocation hands out a slot nobody holds, of the smallest class that is large enough |
| ExtentRuns.SafeWithinSlack | crates/gems-storage/src/manager.rs:69-186 | within the bound, in every run of allocations, frees and reopenings, held slots are disjoint, clear of every header and bitmap, and inside the mapping |
| ExtentRuns.NewExtentIndex | crates/gems-storage/src/manager.rs:90-93 | in every run the next new extent is listed at its index exactly when no whole extent of slack has built up since the file was opened; for a file never reopened, while the extents so far times the slack are below one extent |
| ExtentRuns.ReopenSame | crates/gems-storage/src/manager.rs:46-61 | within the bound, opening the file again gives the same manager exactly when the next extent would be listed at its index |
| ExtentRuns.ClashOverlaps | crates/gems-storage/src/manager.rs:69-103 | with two extents past the bound and no reopening a run hands out a small slot inside a held large one |
| ExtentRuns.BlankClashOverlaps | crates/gems-storage/src/manager.rs:46-103 | with one extent past the bound a run that reopens the file hands out a slot inside a held one |
| ExtentRuns.SafeUpToExact | crates/gems-storage/src/manager.rs:46-103 | held slots are safe in every run of at most so many extents exactly when the slack before the last is below one extent |
| ExtentRuns.SafeUnopenedExact | crates/gems-storage/src/manager.rs:69-103 | for files never reopened, exactly one extent more |
| ExtentRuns.SafeForeverExact | crates/gems-storage/src/file.rs:75-98 | held slots are safe in every run exactly when an extent is a whole number of pages |
| ExtentRuns.CommonPages | crates/gems-storage/src/extent.rs:38-49 | with 4096-byte pages the index first skips at extent 4114, with 16384-byte pages at 1368 |
| ExtentNode.PutGet | crates/gems-storage/src/extent.rs:161-175 | setting or clearing a bit of a byte moves that bit alone |
| ExtentNode.ReadKinds | crates/gems-storage/src/manager.rs:46-55 | the class byte of every whole extent, or refusal when one is out of range |
| ExtentNode.SlotWritten | crates/gems-storage/src/manager.rs:150-160 | writing into a slot leaves every header and bitmap as it was |
| ExtentNode.ExtentManager.Create | crates/gems-storage/src/manager.rs:37-44 | an empty file |
| ExtentNode.ExtentManager.Open | crates/gems-storage/src/manager.rs:46-61 | the manager that the headers of the file describe |
| ExtentNode.ExtentManager.TryAllocate | crates/gems-storage/src/manager.rs:120-135 | the bitmap scan takes the first free slot and changes no slot's bytes |
| ExtentNode.ExtentManager.Allocate | crates/gems-storage/src/manager.rs:69-103 | the file moves as the table's allocation does, no slot's bytes change, and an error changes nothing |
| ExtentNode.ExtentManager.Grow | crates/gems-storage/src/manager.rs:90-93 | one extent's header on blank bytes, its class listed last |
| ExtentNode.ExtentManager.Write | crates/gems-storage/src/manager.rs:150-160 | the bytes go to the slot and to no slot apart from it, or the call is refused or out of range |
| ExtentNode.ExtentManager.Read | crates/gems-storage/src/manager.rs:164-172 | the slot's first bytes, or refusal |
| ExtentNode.ExtentManager.Free | crates/gems-storage/src/manager.rs:174-185 | gives back that slot and changes no slot's bytes |
| Replay.LastDecides | crates/gems-cluster/src/replica.rs:97-102 | after a replay the last record about an entity decides it |
| Replay.ReplayAgain | crates/gems-cluster/src/raft.rs:163-169 | replaying a log from anywhere not beyond what was applied ends in the state of one replay |
| Replay.SkippingLoses | crates/gems-cluster/src/replica.rs:84-87 | resuming beyond what was applied loses exactly what only skipped records decide |
| Replay.FilledAgain | crates/gems-engine/src/lib.rs:227-232 | filling in a header keeps its identifier, and filling it in again changes nothing |
| Replay.PrimaryStore.Insert | crates/gems-cluster/src/primary.rs:40-48 | what is stored and logged is the filled-in header; store and log stay in step exactly when the append succeeds or the insert changed nothing |
| Replay.PrimaryStore.Delete | crates/gems-cluster/src/primary.rs:50-56 | a delete is logged only if something was there, and store and log stay in step exactly when no append failed |
| Replay.ReadFrom | crates/gems-cluster/src/log.rs:59-72 | the loop finds every complete record from an offset and where to resume |
| Replay.ReadsComplete | crates/gems-cluster/src/log.rs:52-72 | from the end of any record one reads exactly the later complete ones, whatever part of another follows |
| Replica.ReplicaClient.Receive | crates/gems-cluster/src/replica.rs:73-92 | a read applies complete records in order until there is no more or the count to stop after is reached, drops exactly their bytes, and saves the offset after the last |
| Replica.NextRecord | crates/gems-cluster/src/replica.rs:80-85 | what is buffered decodes to the next record of the log or to nothing yet |
| Replica.CaughtUpIsEqual | crates/gems-cluster/src/replica.rs:68-95 | in every run with cuts anywhere, a replica whose saved offset is the end of the log holds what the primary holds |
| Replica.AlwaysLayers | crates/gems-cluster/src/replica.rs:45-87 | in every run the replica holds prefixes of the log replayed one over another, one more than the saved offset was lost |
| Replica.LayersReached | crates/gems-cluster/src/replica.rs:38-87 | and every such layering is what some run with that many losses holds |
| Replica.LossesExact | crates/gems-cluster/src/replica.rs:38-87 | so those layerings are exactly what that many losses can leave |
| Replica.AlwaysAPrefix | crates/gems-cluster/src/replica.rs:80-87 | if it never was, the replay of a prefix of the log |
| Replica.OneLoss | crates/gems-cluster/src/replica.rs:45-48 | if it was once, a prefix replayed over a prefix |
| Replica.LostOffsetRun | crates/gems-cluster/src/replica.rs:38-48 | a run with one loss that leaves what no prefix gives |
| Replica.TwoLossesGoDeeper | crates/gems-cluster/src/replica.rs:38-48 | three prefixes in turn can give what no two do |
| Replica.LostTwiceRun | crates/gems-cluster/src/replica.rs:38-48 | a run with two losses that leaves just that |
| Views.ViewEngine.CreateView | crates/gems-subscribe/src/view.rs:87-98 | an empty view under an id never used before |
| Views.ViewEngine.DropView | crates/gems-subscribe/src/view.rs:100-102 | the view goes, the others stay, and its id is not used again |
| Views.ViewEngine.Touch | crates/gems-subscribe/src/view.rs:112-136 | one record moves one member of one view, and a change of count is noticed |
| Views.ViewEngine.Process | crates/gems-subscribe/src/view.rs:111-139 | every view takes the record, and exactly those whose count changed are reported, once, with the new count |
| Views.LatestDecides | crates/gems-subscribe/src/view.rs:111-139 | after any records a member is an entity whose latest record matches |
| Views.ViewIsQuery | crates/gems-subscribe/src/view.rs:11-19 | a view made before the first record has exactly the matching entities of the store |
| Views.LateViewExact | crates/gems-subscribe/src/view.rs:87-98 | a view made later agrees with the store exactly when every entity that matched then has had a record since |

## Left out

- RaftTheorems.StateMachineSafety: assumes that a successful report is no longer than what was sent, or ends in an entry of the leader's term, or is a log the leader has held; this suffices in any cluster, and a run that breaks it need not release two commands. What holds with no assumption is `RaftBounds.AgreementExact`.
- BTrees.BTree.Insert: assumes `Roomy`, that page ids do not run out of 32 bits within one update; the code does not check this.
- BTrees.BTree.Delete: assumes `Roomy`, as for insert.
- JsonRoundTrip.RoundTrip: covers numbers that are integers below 10^15 in magnitude; the text of other floats, and rounding on reading them, are not modelled.
- StoreNode.EntityStore.RunQuery: starts from exact indexes, which an entity type with a name over 63 bytes breaks (`Store.InsertKeeps`); the cut is taken at 63 bytes, not at a character boundary.
- Fixed-width overflow of terms, log indices, incarnations, sequence numbers, ordinals and commit sequence numbers.
- A panic (a slice past the log, a failed write of the state file) is a member going down; its other effects are not modelled.
- Commands in the consensus model carry an entity id and opaque payload; the wire model carries the encoded header as bytes. Header encoding and its checksum are not part of this model, and the message tag is an arbitrary function to 32 bytes.
- Keys of the tree are modelled in their big-endian byte form, which is the identifier's; the ordinal index stores its keys little-endian, which changes the bytes on the page and nothing else.
- Each header write in the file is one step; the writes it makes in one go differ from the state before in a single field.
- Rounding of the index file's mapped length to the host's page size, remapping, file locks, sync calls, and power loss.
- Corrupt index files: decoding reports corruption, but operations are proved for files that store a map.
- Liveness, membership change and log compaction in consensus; node restart and cluster-wide convergence in membership.
- ExtentRuns.SafeForeverExact: assumes a page no larger than an extent, and a caller that frees only what it holds.
- ExtentRuns.SafeUpToExact: assumes the same.
- ExtentRuns.SafeUnopenedExact: assumes the same.
- RaftTheorems.CommittedPrefixesAgree: assumes truthful reports, as for State Machine Safety.
- RaftTheorems.NoMemberStops: assumes truthful reports, as for State Machine Safety; with no assumption, `RaftBounds.StoppingExact`.
- JsonRoundTrip.ValueRoundTrip: numbers as for `JsonRoundTrip.RoundTrip`.
- JsonRoundTrip.PrintIsInjective: numbers as for `JsonRoundTrip.RoundTrip`.
- Wire.RecordRoundTrip: the entity header is opaque bytes; decoding it, and its checksum, are not modelled.
- Replica.CaughtUpIsEqual: an offset file cut within its digits, which would read as another number, is not modelled.
- The store model takes some slot not in use; it is not joined to the extent manager, nor its headers to the logged header bytes.
- The six writes of an extent header are one; growing reads blank bytes past the old end of the file.
- Appending to a log whose last record was torn.
- Watches, access policies, the query language, and the network, terminal and web shells.
- The gossip wire format, which frames messages the way the peer protocol does.
