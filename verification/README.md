# ridstore, verified

This project models ridstore, an embedded store that keeps immutable records in an append-only
log, maps record IDs to log addresses through a copy-on-write radix tree, and reclaims space by
compacting log segments and rewriting the tree while commits go on. It proves what the store
promises: values change only by committed batches, replay after a crash gives the mapping and the
statistics the process had, no segment is retired while anything still names it, and every on-disk
format gives back what was written.

The parts:

- `Store*` is the running store as one step machine. Every action is one critical section of the
  coordinator, a batch, a checkpoint or a compaction, and any enabled action may come next;
  crashes may happen anywhere and lose any uncommitted tail. One invariant is proved for every
  reachable state, together with the accounts of live bytes, records and commits
  (`StoreAccounts`), and the guarantees over whole runs follow from them: `StoreTheorems`;
  `StoreOutcome`, `StoreOrder`, `StoreHistory` and `StoreFinality` for what clients are told, in
  terms of what they said: a commit succeeds exactly if its expectations hold; `StoreOrigins` for
  what readers see; `StoreCoverage` for a compaction leaving nothing behind; `StoreRecovery` for
  what replay verifies; `StoreTags` and `StoreLayout` for what descriptors say and where records
  lie; `StorePlan` and `PlanCounts` for what the mapping object is handed and what it reports.
- `Mapping`, `LiveStats`, `CheckpointStats` are group resolution, publication and the per-segment
  accounting, each loop proved against the definition it maintains.
- `Radix*` is the radix tree: the streaming copy-on-write builder as an object that writes nodes,
  the lookup and the walk, and the rebuild used by mapping collection.
- `Budget`, `Layers`, `Persistent`, `PersistentRun` are the layered mapping over that tree with its
  reservations, its statistics and its checkpoint lifecycle, under any sequence of operations.
- `Scheduler*` is the maintenance actor: its leases, its job states, its event loop, and who is
  answered by which run of a checkpoint.
- `Maintenance` is scheduler and store together. A compaction may retire its inputs only after a
  checkpoint that began after its last relocation; nothing in the store compares the two, and it
  is the order in which the scheduler wakes and answers that guarantees it.
- `MappingGCState`, `MappingGC` are mapping collection on disk, with a process that may die before
  any file step and a crash that loses unsynced directory changes.
- `Bytes`, `NodeBitmap`, `NodeView`, `NodeCodec`, `NodeStore`, `CommitGroupCodec`, `TornTail`,
  `RecordLog`, `Formats` are the byte formats, the lookup in encoded nodes and the recovery of a
  torn log tail.

Two promises do not hold of the code as it stands.

A batch stays open between the reservation of its delta entries and its preparation. If another
caller gives it a further ID in between, its group can become durable and then not be published,
and the store stops until it is opened again. `StoreTheorems.PublishedExactlyIfReserved` gives the
exact condition, `StoreTheorems.ReservationsSuffice` what a caller has to do for it, and
`StoreShortfall.ReservationFallsShort` is a run that fails it. Recovery publishes the group.

Mapping collection holds only the recovery
protocol while it cleans up, so a checkpoint may run between the publication of the new generation
and the removal of the marker. If the process dies in that window after the checkpoint changed the
catalog, left a partial node in the new active segment, or had begun to rotate the mapping, recovery
refuses to open the store. `MappingGC.CheckpointMustNotOvertake` gives the exact condition;
`MappingGC.OvertakenIsRefused` and `MappingGC.RotationIsRefused` are runs that fail it, the second
with catalog and files untouched. Convergence is proved for every run without such a checkpoint.

Check the project with `dafny verify dfyconfig.toml`.

## Model

| member | source | states |
|---|---|---|
| `StoreTheorems.StepKeeps` | internal/engine/relocation.go:186-350 | Every action of the store (client, submission, coordinator, checkpoint, rotation, compaction, retirement, crash) taken in any order preserves the one invariant that links mapping, log, queue, batches, redirect table and compaction job |
| `StoreTheorems.EveryStateInv` | internal/engine/relocation.go:186-350 | That invariant, and with it the accounts, the order of checkpoint runs and the owners of commit records, hold in every state of every run from the empty store |
| `StoreAccounts.StepKeepsAccounts` | internal/mapping/persistent.go:235-309 | Every action keeps the live tables of the mapping, of the checkpoint being built and of the installed root exact, the three covered sequences equal to the commits of their log prefixes, every later checkpoint run past the last relocation, and each batch the owner of at most one commit record |
| `StoreAccounts.CrashAccounted` | internal/engine/open.go:308-326 | After a crash the live table and the covered sequence recovered from the stored statistics and the replayed records are exact for the recovered mapping |
| `StoreTheorems.RunRetiresSafely` | internal/engine/relocation.go:352-388 | On every run, when a step retires segments, neither the mapping, the installed root, a frozen checkpoint, a batch, a queued commit nor a commit record at or after ReplayStart names an address inside them |
| `StoreRetire.RetirementIsSafe` | internal/engine/relocation.go:779-796 | An accepted retirement proof whose catalog generation is unchanged implies that nothing names the input segments any more |
| `StoreRetire.ProveKeeps` | internal/engine/relocation.go:873-948 | Taking the proof (a checkpoint installed by a run that started after the relocations were done, known statistics, zero live records in the stored statistics, no batch reference) preserves the invariant, including that everything logged later stays clear of the inputs |
| `StoreRetire.ZeroLive` | internal/engine/relocation.go:873-948 | A segment has zero live records if and only if no mapping entry names it, so the counter the proof reads decides reachability |
| `StoreRetire.ProposalIsSound` | internal/engine/relocation.go:480-579 | Every relocation proposed from an output record pairs the current address with a copy of exactly that payload, also when the inputs hold a committed and several unpublished versions of the ID, and also after a restart |
| `StoreRedirect.OutputsCopies` | internal/engine/relocation.go:254-311 | When the copy scan ends the redirect table covers exactly the unpublished Puts found in the inputs |
| `StoreCoverage.EverythingLiveIsCopied` | internal/engine/relocation.go:253-305 | On every run, when the outputs are installed, every record in the inputs that the mapping names has a copy of its payload in the outputs |
| `StoreCoverage.ScanProposes` | internal/engine/relocation.go:480-579 | In the scan of the outputs a copy that can stand for the current address of an ID still in the inputs is proposed; none is passed over |
| `StoreCoverage.FinishLeavesNothing` | internal/engine/relocation.go:480-579 | On every run, when the relocations of a compaction are done, the mapping names nothing in the inputs |
| `StoreCoverage.ProofNeedsNoRetry` | internal/engine/relocation.go:873-948 | On every run, once the awaited checkpoint is installed, the retirement proof is granted if and only if no batch refers to the inputs; the counters read from the checkpoint never stand in the way |
| `StoreRedirect.RewriteFits` | internal/transaction/batch.go:264-287 | Rewriting an open batch leaves it referring to live records only and outside the inputs |
| `StoreRedirect.CopyKeepsAll` | internal/engine/relocation.go:585-642 | Snapshot, copy, rollback, output installation, rewriting and redirect removal each preserve the invariant |
| `StoreRetire.RetireKeepsAll` | internal/engine/relocation.go:480-579 | Scanning outputs, staging and queueing relocations, proof and retirement each preserve the invariant |
| `StoreCoordinator.CoordinatorKeeps` | internal/coordinator/coordinator.go:503-826 | Dropping an oversize request, appending, rejecting and publishing a group, the checkpoint barrier and both redirect commands each preserve the invariant |
| `StoreClient.ClientKeeps` | internal/transaction/batch.go:148-206 | Writing, deleting, adding conditions, failing, aborting and forgetting a batch preserve the invariant, also while the batch is between its reservation and its preparation |
| `StoreClient.SubmitKeeps` | internal/coordinator/coordinator.go:267-321 | Reserving, preparing, withdrawing and queueing a commit preserve the invariant, so what is queued behind a redirect removal is already rewritten |
| `StoreCheckpoint.CheckpointKeeps` | internal/coordinator/coordinator.go:347-388 | Acquiring and releasing the fence, freezing, installing, aborting a checkpoint and rotating the log preserve the invariant |
| `StoreTheorems.RedirectBoundary` | internal/coordinator/coordinator.go:395-474 | On every run, once the redirect removal has been processed, no queued commit and no batch that can still commit carries a Put address of the redirect table |
| `StoreTheorems.FenceIsSafe` | internal/coordinator/coordinator.go:347-388 | On every run the mapping is frozen only when no submission holds a reservation, no commit is queued or in flight and the cut is the exact end of the log |
| `StoreTheorems.ReservationsSuffice` | internal/coordinator/coordinator.go:280-321 | On every run each request of a durably appended group holds a reservation at least as large as the entries its proposal adds, if it is a relocation or a batch that got no ID outside the active layer after its reservation |
| `StoreTheorems.PlanStaysCurrent` | internal/coordinator/coordinator.go:649-811 | On every run, between appending and publishing a group, no step changes the table, the active layer, the redirects, the plan or its charges |
| `StoreTheorems.PublishedExactlyIfReserved` | internal/mapping/persistent.go:267-279 | A durable group can be published if and only if no accepted proposal brings more IDs into the active layer than were reserved for it; a commit brings all of its IDs that neither the layer nor an earlier proposal has |
| `StoreShortfall.ReservationFallsShort` | internal/coordinator/coordinator.go:280-294 | A concrete run: a batch is given a second ID between its reservation and its preparation; its group becomes durable and cannot be published |
| `StorePlan.PublicationIsCurrent` | internal/mapping/persistent.go:235-275 | On every run the plan of a durable group meets the conditions under which the mapping object publishes it: it passes the validation of resolved plans, is resolved from the current table, based on the current sequence and charged for the current active layer; and the reservations cover it exactly when the machine can publish |
| `StorePlan.EveryPlanWell` | internal/coordinator/coordinator.go:267-321 | On every run all proposals prepared, queued or staged, and all redirects, pass the validation of the mapping, and a group in flight has an accepted proposal |
| `StorePlan.CoordinatorComplainsOnlyBeyond32Bits` | internal/coordinator/coordinator.go:763-780 | On every run the counts that the mapping object reports for a durable group agree with the descriptors of its record and with the count of applied and skipped changes, so the corruption check fires if and only if one of the two change counts is beyond 32 bits |
| `PlanCounts.Recount` | internal/coordinator/coordinator.go:763-776 | The nested loops count the places of the plan where an accepted proposal has an applied change, and those where it has a skipped one |
| `StorePlan.PublishFollows` | internal/mapping/persistent.go:235-309 | If the mapping object shows the table, sequence and active layer of the store machine, it still does after its PublishGroup and the publication of the machine |
| `StorePlan.FreezeFollows` | internal/mapping/persistent.go:478-494 | The same for its Freeze and the freeze of the machine |
| `StorePlan.ReplayFollows` | internal/replay/replay.go:153-230 | Publishing one more replayed record keeps the object at what replaying the log so far gives |
| `StorePlan.RecoveryShows` | internal/engine/open.go:308-326 | After all records since the checkpoint are replayed into the object, it shows the state of the machine after the crash, the active layer included |
| `StoreTheorems.ReplayRefinesRuntime` | internal/replay/replay.go:62-230 | For every run, replaying any installed checkpoint over any later log, up to what was published at any time, gives exactly the mapping the runtime had then |
| `StoreTheorems.ReplayRefinesLiveStats` | internal/replay/replay.go:153-230 | Under the same conditions, accounting for every replayed change on top of the live table stored with the checkpoint gives the live bytes and records that the runtime had per segment, and the stored covered sequence plus the replayed proposals is the covered sequence of the runtime |
| `StoreTheorems.CrashRecoversStats` | internal/engine/open.go:308-326 | On every run a crash recovers the live table and the covered sequence that the runtime had or, with a group in flight, would have had after publishing it |
| `StoreTheorems.CheckpointCountsEntries` | internal/engine/store.go:599-638 | On every run the live records stored with the installed checkpoint add up to the number of its mapping entries |
| `StoreTheorems.CheckpointCoversRelocations` | internal/engine/relocation.go:894-899 | On every run a compaction that has waited for a later checkpoint run finds a checkpoint whose log position and covered sequence include all its relocations, so the corruption check for that never fires |
| `StoreRecovery.ReplayNeverFails` | internal/replay/replay.go:153-301 | On every run each commit record at or after ReplayStart passes what replay verifies: the records it names lie before it or in a compaction output and are there with the right ID and size, Puts originate from the committing batch, the values add up to the stated payload bytes, relocations carry the payload they replace, no batch owns a second record, the sequence continues, and every proposal is accepted again |
| `StoreTags.EveryStateTagged` | internal/transaction/batch.go:289-315 | On every run the Puts of a pending batch are its own, and the payload bytes that prepared batches, queued requests, staged relocations and commit records state are those of the values they name, through redirection, rewriting, compaction and recovery |
| `StoreLayout.EveryStateLaidOut` | internal/recordlog/log.go:134-182 | On every run records of a segment do not overlap, every table of a checkpoint names only what ends before its replay position, and every commit record lies behind what it names |
| `StoreLayout.CheckpointIsAcceptable` | internal/engine/store.go:599-638 | Whenever a checkpoint is about to be installed, whatever was rotated, published or retired since it was frozen, every row of its statistics fits the described files, and the catalog accepts the rows with the entry count of the frozen mapping |
| `StoreLayout.BytesFit` | internal/engine/store.go:685-697 | References that do not overlap and end before a position take no more bytes of the segment than lie between its header and that position |
| `StoreTheorems.AcknowledgedIsDurable` | internal/coordinator/coordinator.go:886-909 | A commit acknowledged at any time owns exactly one commit record, which was in the log by then and stays at its place in the log of every later time, across crashes |
| `StoreTheorems.PendingIsUnlogged` | internal/coordinator/coordinator.go:649-811 | On every run, with no group in flight, a batch that is not yet answered has left no commit record |
| `StoreTheorems.RunRefinesMap` | internal/engine/relocation.go:480-579 | On every run each step changes the ID-to-value view only by publishing a group, and then by exactly the writes of its accepted batches |
| `StoreTheorems.StepRefinesMap` | internal/coordinator/coordinator.go:649-811 | The same for one step from any state of the invariant, including recovery of a group that was in flight when the process died |
| `StoreOutcome.AcceptedExactlyAsExpected` | internal/mapping/mapping.go:184-198 | Compare-and-set on every run: when a group is published, a commit takes effect and is answered Committed if and only if, in the table that the accepted proposals before it leave, every address its client told it to expect is the current one and every ID told to be absent is absent; otherwise it is answered Aborted |
| `StoreOutcome.RejectedForCause` | internal/coordinator/coordinator.go:649-811 | On every run a group is turned away as a whole only if it holds commits alone and each of them was told to expect something that is not so |
| `StoreOutcome.LastQueuedDecides` | internal/coordinator/coordinator.go:828-844 | On every run, after a group is published, a reader finds for each ID what the client of the last queued committed batch put last, or nothing if that was a deletion, and what was there before if no committed batch of the group wrote it, whatever relocations are in the group |
| `StoreOrder.GroupOrder` | internal/coordinator/coordinator.go:828-844 | Each request of a group has a place in the order of resolution; commits keep their queue order, relocations keep theirs, and every commit comes before every relocation |
| `StoreOrder.GroupIsWhole` | internal/coordinator/coordinator.go:828-844 | The order of resolution is a permutation of the queued requests |
| `StoreHistory.EveryStateFollowed` | internal/transaction/batch.go:148-206 | On every run an open, prepared or queued batch holds exactly what its client said: for each ID the value put last or its deletion, and each expectation, through redirection, rewriting and compaction of its records |
| `StoreFinality.OnlyOneEverSucceeds` | internal/transaction/batch.go:157-198 | On every run, of two batches in different groups that expect the same ID at the same address, only one that wrote the ID can commit: the address never becomes the current one of that ID again, whatever is compacted, relocated or recovered in between |
| `StoreFinality.OnlyOneSucceeds` | internal/mapping/mapping.go:184-198 | The same for two batches of one group |
| `StoreFinality.AbortIsFinal` | internal/transaction/batch.go:319-336 | A batch that was aborted or has failed leaves no commit record at any later time, across crashes |
| `StoreOrigins.OnlyCommittedIsVisible` | internal/coordinator/coordinator.go:649-811 | On every run everything the mapping names was put by a batch that owns a commit record in the published log |
| `StoreTheorems.CommittedExactlyIfPublished` | internal/coordinator/coordinator.go:886-910 | On every run a batch is answered Committed if and only if its commit record is in the published log; an aborted or failed batch has none |
| `StoreValues.CommitWrites` | internal/coordinator/coordinator.go:813-826 | A commit whose Puts were redirected to copies writes the values the client gave |
| `StoreValues.MoveWritesNothing` | internal/engine/relocation.go:439-478 | Applied relocations with equal payloads leave every value unchanged |
| `StoreValues.PublishWrites` | internal/mapping/mapping.go:227-291 | Publishing a resolved group changes the values as applying its accepted batches one after the other |
| `StoreReplay.EntryPublishes` | internal/coordinator/coordinator.go:649-811 | Replaying the record written for a group gives the table that publishing the group gives |
| `StoreReplay.ReplayFrom` | internal/replay/replay.go:62-152 | Replay may start from any earlier table of the same log |
| `StoreCrash.CrashTable` | internal/replay/replay.go:62-152 | After a crash the mapping is the whole log replayed: the runtime table, plus the group in flight if one was appended |
| `StoreCrash.CrashKeeps` | internal/engine/compaction_recovery.go:14-74 | A crash at any point, with unpublished outputs removed and published ones resumed, preserves the invariant |
| `Mapping.ResolveGroupAt` | internal/mapping/mapping.go:171-225 | The virtual-overlay loop gives the same acceptances, applied changes and prior references as resolving and publishing the proposals one at a time |
| `Mapping.ResolveAllConcat` | internal/mapping/mapping.go:150-169 | Resolving a group equals resolving any prefix, publishing it and resolving the rest |
| `Mapping.PublishAllConcat` | internal/mapping/mapping.go:227-291 | Publication composes over concatenated plans |
| `Mapping.ReplayReachesSamePlan` | internal/replay/replay.go:153-230 | Dropping conditions and rejected proposals and resolving again accepts everything, with the same changes and the same table |
| `Mapping.DurableCounts` | internal/coordinator/coordinator.go:649-811 | The durable proposals are as many as the accepted ones |
| `Mapping.AssignDeltaEntries` | internal/mapping/mapping.go:293-313 | The loop charges each accepted proposal exactly the IDs neither the active layer nor an earlier proposal holds |
| `Mapping.CheckConditions` | internal/mapping/mapping.go:171-225 | Conditions hold in the overlay if and only if they hold in the table it stands for |
| `LiveStats.ApplyPlan` | internal/mapping/mapping.go:443-528 | From exact per-segment sums, the netting update yields the exact sums of the new table, equal to accounting for the changes one by one, and it fails only on a malformed reference or when a 64-bit counter would overflow |
| `LiveStats.AccountAllExact` | internal/mapping/mapping.go:530-544 | Accounting for any list of changes one by one keeps the live table exact |
| `LiveStats.SumAfter` | internal/mapping/mapping.go:443-528 | Sums after a plan plus what it removed equal sums before plus what it added, per segment, in bytes and in records |
| `LiveStats.LiveIsDetermined` | internal/mapping/mapping.go:530-544 | A table has only one exact live table |
| `LiveStats.PlanResolvedFrom` | internal/mapping/mapping.go:171-225 | Every plan resolved from a table meets the precondition of the accounting |
| `CheckpointStats.Collect` | internal/engine/store.go:672-705 | The statistics list holds every live segment once, in segment order; it is produced exactly when every row has bytes and records, lies within its sealed segment or before ReplayStart in the active one, and the rows are no more than allowed |
| `CheckpointStats.LiveRecordsAreEntries` | internal/engine/store.go:599-638 | The live records listed for all segments add up to the number of mapping entries |
| `CheckpointStats.Validate` | internal/storecatalog/codec.go:216-246 | The validation loop accepts if and only if segments ascend, bytes and records vanish together, every row lies within the physical bounds of its segment, and the records sum to the entry count without overflow |
| `CheckpointStats.CollectedIsAcceptable` | internal/storecatalog/codec.go:216-246 | Rows of an exact live table that pass the collection pass the validation of the catalog, together with the entry count of the mapping |
| `CheckpointStats.HeadersFit` | internal/engine/store.go:685-690 | The live records of a segment are never more than its live bytes divided by the record header size |
| `RadixBuild.BuildSorted` | internal/radix/builder.go:57-124 | For every mutation list the build succeeds exactly on strictly increasing valid input; the new tree is the old map overridden by the mutations, the old root answers as before, the root is zero exactly when the map is empty, both entry and byte deltas are exact, the removed count is the number of IDs that disappeared, no more bytes are removed than the old tree reaches, and every appended node is at its place with children that exist |
| `RadixBuild.OldRootAnswers` | internal/radix/tree.go:177-211 | Growing the node store changes nothing under an existing root |
| `RadixBuild.RootZero` | internal/radix/builder.go:57-124 | A root is zero if and only if its map is empty |
| `RadixBuild.ReachableBytes` | internal/radix/tree.go:62-93 | The recursive walk of node sizes equals the sum over all occupied tree positions |
| `RadixBuild.CheckMutations` | internal/radix/builder.go:57-124 | The order and reference check accepts exactly the valid mutation lists |
| `RadixBuild.ApplyGroup` | internal/radix/builder.go:57-124 | Applying the mutations of one leaf yields the leaf of the updated map, counts entries added and removed exactly and touches no other leaf |
| `RadixBuilder.StreamingBuilder.Push` | internal/radix/builder.go:174-199 | Passing a changed child upwards moves that child in the tree view and nothing else, keeping the byte account |
| `RadixBuilder.StreamingBuilder.Flush` | internal/radix/builder.go:201-233 | Writing out a level leaves every child it shows unchanged and accounts the bytes written and replaced |
| `RadixBuilder.StreamingBuilder.Append` | internal/radix/builder.go:250-268 | A node is written at a new address, and at most once per level and prefix |
| `RadixBuilder.StreamingBuilder.NodeAddress` | internal/radix/builder.go:281-305 | The descent finds the address of any node of the base tree, or zero |
| `RadixBuilder.StreamingBuilder.ReplaceLeaf` | internal/radix/builder.go:126-144 | Replacing a leaf in ascending order changes exactly that leaf of the tree |
| `RadixBuilder.StreamingBuilder.Finish` | internal/radix/builder.go:57-124 | Flushing all levels leaves every leaf as the builder showed it |
| `RadixWalk.LookupRef` | internal/radix/tree.go:177-211 | The descent returns exactly the entry of the tree's map, absent otherwise, and rejects ID zero |
| `RadixWalk.WalkIsContents` | internal/radix/tree.go:95-132 | The walk visits every entry of the map exactly once, in ascending order |
| `RadixRebuild.RebuildBuilder.Add` | internal/radix/rebuild.go:39-56 | Accepts exactly ascending valid entries, before Finish and for a nonzero covered sequence, and each extends the table being built |
| `RadixRebuild.RebuildBuilder.Finish` | internal/radix/rebuild.go:58-75 | The finished tree holds exactly the added entries |
| `RadixRebuild.RebuildFromWalk` | internal/engine/mapping_gc.go:139-165 | Feeding a rebuild from the walk of a tree gives a tree with the same map; it is refused exactly for a nonempty tree that covers no commit |
| `Budget.DeltaBudget.Reserve` | internal/mapping/budget.go:39-51 | A reservation is granted exactly when charged, reserved and requested bytes fit the hard limit; too-large requests are told apart |
| `Budget.DeltaBudget.Release` | internal/mapping/budget.go:53-70 | Releasing returns one reservation, and a second release does nothing |
| `Budget.DeltaBudget.Consume` | internal/mapping/budget.go:72-93 | Consuming succeeds exactly once and within the reserved size, and charges what was used |
| `Budget.DeltaBudget.Discharge` | internal/mapping/persistent.go:567-583 | Discharging never goes below zero |
| `Layers.LookupLayers` | internal/mapping/persistent.go:751-761 | Newest layer first is the lookup in the stack of all layers over any base |
| `Layers.FoldRuns` | internal/mapping/persistent.go:496-553 | The in-place loop leaves in the array prefix the last mutation of every run of equal IDs |
| `Layers.FoldedMeansSame` | internal/mapping/persistent.go:496-553 | Stable sort followed by the fold gives strictly increasing mutations with the effect of all layers in order |
| `Persistent.PersistentMapping.LookupRef` | internal/mapping/persistent.go:157-171 | Lookup answers from the layered map: root, frozen layers and active layer |
| `Persistent.PersistentMapping.Freeze` | internal/mapping/persistent.go:478-494 | Freezing moves the active layer aside, captures the live statistics with it and changes no lookup; it succeeds exactly when no checkpoint is open, nothing was published since and checkpoint numbers are left |
| `Persistent.PersistentMapping.BuildCheckpoint` | internal/mapping/persistent.go:496-553 | For a current capture the build yields a root with exactly the frozen map and exact entry and byte counters, never exceeds the sort budget and changes no lookup |
| `Persistent.CandidateCountsAgree` | internal/mapping/persistent.go:397-421 | Carrying the entry count of the base root over gives the sum of the captured live records, and carrying its reachable bytes over gives those of the new root; both fail only beyond 64 bits |
| `Persistent.PersistentMapping.InstallCheckpoint` | internal/mapping/persistent.go:555-586 | Installing swaps in the root, drops the frozen layers, discharges exactly their entries and changes no lookup |
| `Persistent.PersistentMapping.AbortCheckpoint` | internal/mapping/persistent.go:598-615 | Aborting changes no lookup, and the layers stay for a later Freeze |
| `Persistent.PersistentMapping.ReplaceCheckpointRoot` | internal/mapping/persistent.go:699-718 | Replacing the root by one with the same map changes no lookup; it is refused during a checkpoint or for a stale view |
| `Persistent.PersistentMapping.ReserveDelta` | internal/mapping/persistent.go:112-150 | Reserves 64 bytes for each distinct ID that is not in the active layer, exactly when no ID is zero, the budget has room and, under pressure, a checkpoint number is left; under pressure it names the checkpoint that will empty the layer |
| `Persistent.PersistentMapping.PublishGroup` | internal/mapping/persistent.go:235-309 | A current plan that was resolved from what readers see, with sufficient reservations and within 64 bits, is always published: the map becomes the published map, the sequence advances by the accepted proposals, the live statistics stay exact, the active layer gains exactly the touched IDs, exactly the given reservations are closed, and the reported counts are those of accepted proposals, applied changes and skipped changes; an invalid or stale plan changes nothing, and no outcome touches the checkpoint in progress |
| `PersistentRun.Run` | internal/mapping/persistent.go:112-720 | For any list of reservations, publications, freezes, builds, installs, aborts, rebuilds and root replacements, with current or stale handles, readers see exactly the published plans, the covered sequence counts their accepted proposals, and exact statistics stay exact |
| `Persistent.ChargedOnce` | internal/mapping/persistent.go:267-305 | The charges of a plan are exactly the growth of the active layer |
| `Persistent.BuildRoot` | internal/mapping/persistent.go:496-553 | Folding the layers into the tree gives the stacked map and keeps the old root readable |
| `Persistent.SortFits` | internal/mapping/persistent.go:74-83 | Under a validated configuration everything that fits the hard limit fits the sort budget |
| `Scheduler.WorkersRetainWhatTheyOwn` | internal/engine/maintenance_workers.go:51-369 | In every phase a worker retains at most the recovery protocol, and only what that phase owns, so transition validation never rejects it |
| `Scheduler.Exclusion` | internal/engine/maintenance_scheduler.go:378-422 | Two running phases never need a common resource |
| `Scheduler.LeasesKeepApart` | internal/engine/maintenance_workers.go:51-306 | Two phases may run together if and only if not both replace the root of the mapping, not both leave recovery artifacts and not both read in bulk; said by kind of work and phase |
| `Scheduler.Startable` | internal/engine/maintenance_scheduler.go:378-422 | With nothing running and no timer outstanding, some queued job finds everything it needs free |
| `Scheduler.Progress` | internal/engine/maintenance_scheduler.go:378-422 | Then dispatch leaves no job at all |
| `SchedulerActor.PickBest` | internal/engine/maintenance_scheduler.go:380-391 | The loop finds the startable job that goes first: checkpoints before segment maintenance before the rest, the oldest within each class; none exactly when none can start |
| `SchedulerActor.Dispatch` | internal/engine/maintenance_scheduler.go:378-422 | Dispatch starts the first in line again and again until nothing queued can start, starts nothing else and keeps the lease invariant |
| `SchedulerActor.EnqueuedOk` | internal/engine/maintenance_scheduler.go:319-376 | Creating or joining a job keeps the invariants, and a job that waits for it is recorded where its completion will find it |
| `SchedulerActor.Submit` | internal/engine/maintenance_scheduler.go:482-515 | A submission is enqueued and dispatched, or refused while closing |
| `SchedulerEvents.Complete` | internal/engine/maintenance_scheduler.go:424-449 | Completion wakes every job that waits for this one and touches nothing else |
| `SchedulerEvents.Finished` | internal/engine/maintenance_scheduler.go:574-603 | A finished job frees its leases, wakes its dependents and is gone, or starts over for those who asked while it ran; a job stops waiting only for a checkpoint run that started after it began to wait, and the same holds for the waiters answered |
| `SchedulerBook.JoinedTimely` | internal/engine/maintenance_scheduler.go:350-375 | A request that joins a running checkpoint is served by its next run, so every run still serves only those who waited before it started |
| `SchedulerBook.LaunchedTimely` | internal/engine/maintenance_scheduler.go:393-421 | When a checkpoint phase starts, everyone it will answer has begun to wait before |
| `SchedulerEvents.PhaseDone` | internal/engine/maintenance_scheduler.go:531-630 | Every answer of a worker leads to the state the actor prescribes, with the invariants kept, and asks recorded from then on |
| `SchedulerEvents.RetryFired` | internal/engine/maintenance_scheduler.go:631-637 | A timer puts its job back into the queue, or does nothing if the job is gone |
| `SchedulerEvents.Cancelled` | internal/engine/maintenance_scheduler.go:516-530 | Cancellation withdraws the waiter, removes only an idle job that no waiter, policy or dependent wants and, although it does not dispatch, leaves no startable job stranded |
| `SchedulerEvents.CancelFreesNothing` | internal/engine/maintenance_scheduler.go:516-530 | With nothing running, a job left queued holds no resource, so removing it makes nothing startable |
| `SchedulerEvents.Handle` | internal/engine/maintenance_scheduler.go:451-662 | Every event keeps the lease, progress and waiting invariants; whoever waits afterwards waited before or began to wait after all that had started, and a success is recorded only for the run that reports it |
| `SchedulerEvents.Run` | internal/engine/maintenance_scheduler.go:287-662 | On any sequence of events no two running phases clash (two checkpoints, a checkpoint and the publication of a mapping generation, two owners of recovery artifacts, two bulk readers), every worker that goes on after waiting for a checkpoint was served by a successful forced run that started after it began to wait, and outside shutdown, with no phase running and no timer outstanding, no job is left |
| `Maintenance.WaitedIsFresh` | internal/engine/maintenance_workers.go:160-222 | A compaction worker resumed by its checkpoint dependency, or a caller whose checkpoint succeeded, finds that a run which started after its relocations were done has installed a checkpoint |
| `Maintenance.MoveIsStoreStep` | internal/engine/maintenance_workers.go:160-222 | Every move of scheduler and store together is a step of the store machine or leaves the store alone; the freshness condition of the retirement proof is implied, not assumed |
| `Maintenance.ProofsAreFresh` | internal/engine/compaction_recovery.go:87-112 | On every run of scheduler and store, by a worker or by the caller that resumes a compaction after a crash, a retirement proof is taken at a checkpoint that covers all relocations of the compaction |
| `Maintenance.SystemRefinesStore` | internal/engine/maintenance_workers.go:160-222 | Every run of scheduler and store is a run of the store machine, so retirement safety and all other results about its runs hold for it |
| `MappingGCState.MarkerSeparates` | internal/mapgcstate/state.go:317-361 | The two file sets of a valid marker share no file |
| `MappingGCState.MatchesSet` | internal/engine/mapping_gc_recovery.go:104-114 | The field-by-field comparison is equality of file sets |
| `MappingGC.Disk.Promote` | internal/mapstore/generation_lifecycle.go:16-54 | Interrupted anywhere, the old generation stays whole; completed, the new generation is durably in place beside it |
| `MappingGC.Disk.Rollback` | internal/mapstore/generation_lifecycle.go:59-83 | Interrupted anywhere, the old generation stays whole; completed, only the old generation is left, durably |
| `MappingGC.Disk.Retirement` | internal/mapstore/generation_lifecycle.go:87-138 | Interrupted anywhere, the new generation stays whole; completed, only the new generation is left, durably |
| `MappingGC.Disk.RemoveMarker` | internal/mapgcstate/state.go:270-297 | The marker is durably removed only from a directory that holds exactly the files the catalog names |
| `MappingGC.Disk.Publish` | internal/engine/mapping_gc.go:215-324 | Publication, death at any file step and both ways of giving up end in a state recovery accepts |
| `MappingGC.Disk.Recover` | internal/engine/mapping_gc_recovery.go:19-92 | Recovery refuses exactly by its own decision, artifacts of other recoveries included, and then changes no file; otherwise, if it completes, the directory holds exactly the files the catalog names and no marker |
| `MappingGC.NeverRefused` | internal/engine/mapping_gc_recovery.go:40-67 | In every state a collection can leave behind on its own, recovery knows whether to roll back or to retire |
| `MappingGC.CrashKeeps` | internal/engine/mapping_gc_recovery.go:19-92 | Losing the unsynced changes of any subset of names keeps the state recoverable |
| `MappingGC.Lifetime` | internal/engine/mapping_gc.go:215-351 | A collection interrupted anywhere, followed by any number of interrupted recoveries with data rotations in between, converges: the first recovery that completes leaves exactly the set the catalog names |
| `MappingGC.CheckpointMustNotOvertake` | internal/engine/mapping_gc_recovery.go:40-81 | While the marker exists, recovery accepts the state if and only if no checkpoint changed the covered sequence or the mapping set, none left a partial node or began a mapping rotation, and no retirement of a data segment began |
| `MappingGC.OvertakenIsRefused` | internal/engine/maintenance_workers.go:295-307 | A concrete run: published, then a checkpoint, then a crash during cleanup; recovery refuses |
| `MappingGC.RotationIsRefused` | internal/mapstore/store.go:277-308 | A concrete run: published, then a checkpoint that has only installed its rotation journal, then a crash; catalog and files are unchanged, recovery refuses, and it would accept without the journal |
| `NodeView.Lookup` | internal/mapstore/node.go:269-308 | Bitmap test and population count return exactly the slot the node was built from, for sparse and dense nodes and for slots out of range |
| `NodeView.ExpandSparse` | internal/mapstore/node.go:313-354 | Iterating the set bits restores all 512 slots |
| `NodeBitmap.RankIsCount` | internal/mapstore/node.go:269-308 | The rank computed from words and a masked word is the number of occupied slots before a slot |
| `NodeCodec.DecodeEncode` | internal/mapstore/node.go:86-267 | Decoding an encoded node, with any bytes after it and any checksum function, returns the node and its exact size, and is refused exactly when the segment ends before the node |
| `NodeCodec.NodeHolds` | internal/mapstore/node.go:86-153 | The decoded node answers lookups with exactly the slots of the build |
| `NodeCodec.AccountedSize` | internal/mapstore/node.go:69-84 | The size the tree builder accounts is the encoded size |
| `NodeStore.LookupRef` | internal/radix/tree.go:177-222 | Descending through pages of bytes, decoding one node per level and testing its bitmap, answers what the map of the tree answers, and finds no node corrupt |
| `NodeStore.BuildIsWritten` | internal/radix/builder.go:250-268 | With valid map addresses and a nonzero covered sequence every node a build appends is one the encoder accepts and carries its slots, so a store whose nodes are all on pages is one again after the build |
| `CommitGroupCodec.DecodeEncode` | internal/recordcodec/codec.go:127-173 | Within the limits, decoding an encoded commit group returns the same group |
| `CommitGroupCodec.EncodeDecode` | internal/recordcodec/codec.go:175-242 | Every byte string that decodes is, byte for byte, the encoding of the group it decodes to |
| `CommitGroupCodec.Validate` | internal/recordcodec/codec.go:329-377 | The validation loop accepts exactly consecutive sequences, distinct batches and well-formed ascending mutations |
| `CommitGroupCodec.DecodedIsProposal` | internal/replay/replay.go:241-301 | A valid descriptor is a proposal the mapping accepts in form: ordered, without duplicates, with the references its kind demands |
| `TornTail.Scan` | internal/recordlog/segment.go:241-322 | On any bytes behind the segment header the scan visits exactly the longest run of complete records in place, with the summary of that run; it ends without an error if and only if what is left is shorter than a header, begins like a footer, or is the beginning of a record that lies here and is cut, and it reports a repair exactly when bytes remain |
| `TornTail.CutIsScanned` | internal/recordlog/segment.go:241-322 | A file of appended records, with or without a footer, cut at any byte past the header: a run of records that cannot be extended is the run of those written that are complete, and the rest is no error |
| `TornTail.DecodedRecord` | internal/recordlog/format.go:153-170 | Every byte string that decodes is, byte for byte, the record of the payload it decodes to |
| `TornTail.EncodedRecord` | internal/recordlog/format.go:105-170 | A written record decodes to its header and payload |
| `Formats.RecordLayout` | internal/recordlog/format.go:105-127 | A record on disk: magic, format version, sizes, address and both checksums at their byte offsets, the payload at byte 32, zero padding to a multiple of 8 |
| `Formats.GroupLayout` | internal/recordcodec/codec.go:127-150 | The front of a commit group at its byte offsets: magic, version, record type, sizes, counts and first sequence |
| `Formats.DescriptorLayout` | internal/recordcodec/codec.go:150-160 | Descriptor i lies behind those before it and holds its kind, batch, sequence, payload bytes and mutation count at their offsets, with code 1 for a user commit and 2 for a relocation |
| `Formats.MutationLayout` | internal/recordcodec/codec.go:160-172 | Mutation k of a descriptor is the 32-byte cell at its place, with ID, addresses, size and the code of its operation at their offsets |
| `Formats.NodeLayout` | internal/mapstore/node.go:86-153 | The header of an encoded node at its byte offsets, with the checksum of the payload and that of the header with its own field zeroed |
| `Formats.SlotLayout` | internal/mapstore/node.go:123-150 | The address of an occupied slot, with the record size in a leaf, lies at the cell of its slot number in a dense node, and behind the bitmap after the cells of the occupied slots before it in a sparse one |
| `Formats.BitmapLayout` | internal/mapstore/node.go:123-141 | Bit b of word w of the bitmap of a sparse node is set exactly if slot 64 * w + b is occupied |
| `RecordLog.NewVAddrRoundTrip` | internal/recordlog/types.go:54-60 | Packing accepts exactly the valid triples and gives them back |
| `RecordLog.AddressOrderIsLogOrder` | internal/recordlog/types.go:140-153 | Comparing packed addresses is comparing log positions |
| `RecordLog.SizeTag` | internal/recordlog/types.go:101-118 | The doubling loop fails exactly on invalid sizes; otherwise a tag t up to 5 bounds sizes by 64, 128, 256, 512, 1024 and 2048 bytes and tag 6 takes the rest |

## Left out

Stated weaker than the source:

- LiveStats.ApplyPlan: does not model the last-changed sequence of a segment, which a restart does not recover either; nor the partly updated statistics a corrupt plan may leave behind.
- Persistent.PersistentMapping.PublishGroup: says nothing about the object after a corrupt plan except that readers see what they saw; the source then stops accepting commits.
- CommitGroupCodec.DecodedIsProposal: covers the form of a descriptor; what replay reads in the log for it is `StoreRecovery.ReplayNeverFails`.
- StoreRecovery.ReplayNeverFails: leaves out the bounds of reserved ID and batch-ID ranges, because reserve records are not part of the log model.

Assumptions of the model:

- Checksums are arbitrary functions of the bytes; detecting corruption is not a claim.
- A node store returns addresses it has not returned before, and reads see exactly what was written; the node cache is not modelled.
- Footers and the catalog describe sealed segments truthfully: the end of a segment lies behind its records, and its record count is at least the number of its Puts.
- ID and batch-ID allocation is quiescent at a checkpoint cut; reserve records are not part of the log model. Batch numbers are never handed out twice, also across restarts.
- Installing a checkpoint in the catalog and in the mapping is one step; log rotations, the installation of compaction outputs and retirements may fall between the two in the source, and commute with both.
- A forced run of the checkpoint worker reports success only after it installed its checkpoint.
- A worker that was replaced while its job was idle has forgotten its inputs and proves nothing about them.
- The store machine counts without bound; 64-bit limits are in the accounting, the budget and the mapping object, and the 32-bit limits of reported counts in `StorePlan`.
- A rename is atomic with respect to a crash; directory syncs make earlier changes of that directory durable.
- The catalog keeps mapping segment numbers contiguous, which the file-set check of retirement demands.
- Creating a worker for a valid request does not fail.

Not modelled:

- Go's memory model: critical sections are atomic steps, and channels and condition variables are enabled actions.
- Fault injection, read-only fallback, cancellation of running work, pacing, space admission, candidate policy, metrics and timers.
- The older single-segment relocation path, which the phased worker supersedes.
- Commit-group delay and batching policy: any non-empty prefix of queued commits and relocations may form a group.
- Commit-unknown results: a group that was appended but not published is resolved by replay, and requests behind it are not answered.
- Which requests are oversize: any commit or relocation that the coordinator has received may be dropped. A dropped relocation ends its compaction until the store is opened again.
- Limits of a batch in mutations, conditions and bytes; a second, different expectation for an ID fails the batch, as any other failure does.
- The sort inside the statistics list and of delta mutations: an insertion sort and a selection stand for the library sorts.
- Preemption is a choice of the worker event: any preemptible phase that ends may have been preempted.
- Emptiness of the trash directory after mapping collection; the names carry the catalog generation, which may move on.
- The contents of mapping files during collection: a generation is the set of its files, plus whether the active one ends in a partial node.
- Encoders that write into a preallocated buffer are functions from values to byte strings; the buffer itself is not modelled.
- Nodes that no encoder produces, such as dense nodes below the density boundary, which the decoder accepts.
- Put, abort, reserve and checkpoint records, segment headers and footers, the catalog file and the marker file as bytes.
- Backup, restore, bootstrap, migration, the verifier, the command line and locking.
