/** Fence, checkpoint and rotation steps keep the store invariant. */
module StoreCheckpoint {
  import opened RecordLog
  import opened StoreState
  import opened StoreInvariant
  import opened StoreFrame
  import opened StoreClient

  lemma CheckpointKeeps(s: State, a: CheckpointOp)
    requires Inv(s) && CheckpointEnabled(s, a)
    ensures Inv(CheckpointAfter(s, a))
  {
    match a
    case StartRun(_) => RunKeeps(s, a);
    case EndRun => RunKeeps(s, a);
    case AcquireFence => FenceKeeps(s);
    case Freeze => FreezeKeeps(s);
    case ReleaseFence => ReleaseKeeps(s);
    case InstallCheckpoint => InstallKeeps(s);
    case AbortCheckpoint =>
    case Rotate => RotateKeeps(s);
  }

  lemma RunKeeps(s: State, a: CheckpointOp)
    requires Inv(s) && CheckpointEnabled(s, a) && (a.StartRun? || a.EndRun?)
    ensures Inv(CheckpointAfter(s, a))
  {
  }

  /** Joining the queue costs a control request nothing. */
  lemma ControlJoins(s: State, r: Request)
    requires InvCommits(s.queue, s.batches, s.delta)
    requires InvQueuedMoves(s.queue, s.gc, s.records, Homes(s.sealed, s.active), s.delta)
    requires InvQueueBoundary(s.gc, s.queue) && !IsGroup(r)
    ensures InvCommits(s.queue + [r], s.batches, s.delta)
    ensures InvQueuedMoves(s.queue + [r], s.gc, s.records, Homes(s.sealed, s.active), s.delta)
    ensures InvQueueBoundary(s.gc, s.queue + [r])
  {
  }

  // ------------------------------------------------------------------- the fence

  lemma FenceKeeps(s: State)
    requires Inv(s) && CheckpointEnabled(s, AcquireFence)
    ensures Inv(CheckpointAfter(s, AcquireFence))
  {
    ControlJoins(s, Barrier);
    QueueGrows(s.queue, Barrier, s.inflight, s.redirects, s.table, s.log);
    BarrierInOrder(s.queue, s.lock, s.gc);
    OrderGrows(s.queue, Barrier, Inputs(s.gc));
  }

  lemma BarrierInOrder(queue: seq<Request>, lock: Lock, gc: Gc)
    requires InvControls(queue, lock, gc) && lock == Free
    ensures InvControls(queue + [Barrier], Fence(None), gc)
    ensures forall q <- queue :: InOrder(Inputs(gc), q, Barrier)
  {
    forall q <- queue ensures ControlBacked(q, Fence(None), gc) && !q.Barrier? {
      assert ControlBacked(q, lock, gc);
    }
  }

  /** With the fence held nothing is reserved, so the active layer may be emptied. */
  lemma FreezeKeeps(s: State)
    requires Inv(s) && CheckpointEnabled(s, Freeze)
    ensures Inv(CheckpointAfter(s, Freeze))
  {
    FreezeProtocol(s);
    assert InvMoves(s.gc, s.records, Homes(s.sealed, s.active), {});
  }

  lemma FreezeProtocol(s: State)
    requires InvProtocol(s) && s.lock.Fence? && s.lock.cut.Some?
    ensures InvBatches(s.records, Homes(s.sealed, s.active), {}, s.batches)
    ensures InvCommits(s.queue, s.batches, {})
    ensures InvQueuedMoves(s.queue, s.gc, s.records, Homes(s.sealed, s.active), {})
  {
    forall b <- s.batches ensures BatchOk(s.records, Homes(s.sealed, s.active), {}, s.batches[b]) {
      assert BatchOk(s.records, Homes(s.sealed, s.active), s.delta, s.batches[b]);
    }
  }

  lemma ReleaseKeeps(s: State)
    requires Inv(s) && CheckpointEnabled(s, ReleaseFence)
    ensures Inv(CheckpointAfter(s, ReleaseFence))
  {
    Unfenced(s.queue, s.lock, s.gc);
  }

  lemma Unfenced(queue: seq<Request>, lock: Lock, gc: Gc)
    requires InvControls(queue, lock, gc) && lock.Fence? && lock.cut.Some?
    ensures InvControls(queue, Free, gc)
  {
    forall q <- queue ensures ControlBacked(q, Free, gc) { assert ControlBacked(q, lock, gc); }
  }

  // -------------------------------------------------------- the manifest changes

  lemma InstallKeeps(s: State)
    requires Inv(s) && CheckpointEnabled(s, InstallCheckpoint)
    ensures Inv(CheckpointAfter(s, InstallCheckpoint))
  {
  }

  lemma RotateKeeps(s: State)
    requires Inv(s) && CheckpointEnabled(s, Rotate)
    ensures Inv(CheckpointAfter(s, Rotate))
  {
    HomesGrow(s, s.sealed + {s.active}, s.active + 1);
    RotatedSegments(s);
    RotatedStorage(s);
    RotatedProtocol(s);
  }

  lemma RotatedStorage(s: State)
    requires InvStorage(s) && CheckpointEnabled(s, Rotate)
    requires InvSegments(s.active + 1, s.sealed + {s.active}, s.nextOutput)
    requires var homes := Homes(s.sealed + {s.active}, s.active + 1);
             InvTables(s.records, homes, s.table, s.root, s.frozen)
               && InvEntries(s.records, homes, s.log, s.replay.index)
    ensures InvStorage(CheckpointAfter(s, Rotate))
  {
  }

  lemma RotatedProtocol(s: State)
    requires InvProtocol(s) && InvCompaction(s) && CheckpointEnabled(s, Rotate)
    requires InvJob(s.gc, s.sealed + {s.active}, s.nextOutput, s.redirects)
    requires var homes := Homes(s.sealed + {s.active}, s.active + 1);
             && InvBatches(s.records, homes, s.delta, s.batches) && InvMoves(s.gc, s.records, homes, s.delta)
             && InvQueuedMoves(s.queue, s.gc, s.records, homes, s.delta)
    ensures InvProtocol(CheckpointAfter(s, Rotate)) && InvCompaction(CheckpointAfter(s, Rotate))
  {
  }

  lemma RotatedSegments(s: State)
    requires InvSegments(s.active, s.sealed, s.nextOutput) && s.active + 1 < COMPACTION_SEGMENT_BASE
    requires InvJob(s.gc, s.sealed, s.nextOutput, s.redirects)
    ensures InvSegments(s.active + 1, s.sealed + {s.active}, s.nextOutput)
    ensures InvJob(s.gc, s.sealed + {s.active}, s.nextOutput, s.redirects)
  {
  }

  lemma HomesGrow(s: State, sealed: set<SegmentID>, active: SegmentID)
    requires Inv(s) && Homes(s.sealed, s.active) <= Homes(sealed, active)
    ensures var homes := Homes(sealed, active);
            && InvTables(s.records, homes, s.table, s.root, s.frozen)
            && InvEntries(s.records, homes, s.log, s.replay.index)
            && InvBatches(s.records, homes, s.delta, s.batches)
            && InvMoves(s.gc, s.records, homes, s.delta)
            && InvQueuedMoves(s.queue, s.gc, s.records, homes, s.delta)
  {
    var homes, homes2 := Homes(s.sealed, s.active), Homes(sealed, active);
    assert Survives(s.records, homes, s.records, homes2, {});
    StorageSurvives(s, s.records, homes2, {});
    BatchesSurvive(s.batches, s.delta, s.records, homes, s.records, homes2);
    InputsAreHomes(s);
    AllMovesSurvive(s.gc, s.delta, s.queue, s.records, homes, s.records, homes2);
  }
}
