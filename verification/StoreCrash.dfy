/** A crash at any point, followed by replay and compaction recovery, keeps the store invariant. */
module StoreCrash {
  import opened RecordLog
  import opened Mapping
  import opened StoreState
  import opened StoreInvariant
  import opened StoreReplay
  import opened StoreFrame
  import opened StoreCoordinator
  import opened StoreJob

  /** Replay from the installed root reaches the runtime table, with the group in flight
      published: nothing acknowledged is lost and nothing half-applied remains. */
  lemma CrashTable(s: State, lost: set<VAddr>)
    requires Inv(s)
    ensures CrashAfter(s, lost).table == Replay(map[], s.log)
    ensures CrashAfter(s, lost).table ==
      if s.inflight > 0 then PublishAll(s.table, Plan(s.queue, s.inflight, s.redirects, s.table)) else s.table
    ensures GoodTable(s.records, Homes(s.sealed, s.active), CrashAfter(s, lost).table)
  {
    ReplayFrom(s.log, s.replay.index, |s.log|);
    assert s.log[..|s.log|] == s.log && s.log[s.replay.index..|s.log|] == s.log[s.replay.index..];
    if s.inflight > 0 { PublishedTable(s); }
  }

  /** What survives the crash. */
  ghost function Kept(s: State): Records {
    if s.gc.Job? && Unpublished(s.gc.phase) then WithoutSegments(s.records, s.gc.work.outputs) else s.records
  }

  lemma KeptSurvives(s: State)
    requires InvSegments(s.active, s.sealed, s.nextOutput) && InvJob(s.gc, s.sealed, s.nextOutput, s.redirects)
    ensures var homes := Homes(s.sealed, s.active); Survives(s.records, homes, Kept(s), homes, {})
  {
    if s.gc.Job? && Unpublished(s.gc.phase) { OutputsUnpublished(s); }
  }

  lemma NamedSurvive(t: Table, log: seq<Entry>, records: Records, homes: set<SegmentID>, lost: set<VAddr>)
    requires GoodTable(records, homes, t) && t == Replay(map[], log)
    requires forall a <- lost :: forall e <- log :: a !in Names(e)
    ensures GoodTable(records - lost, homes, t)
  {
    forall id <- t ensures Good(records - lost, homes, id, t[id]) {
      assert Good(records, homes, id, t[id]);
      ReplayNamed(log, id);
    }
  }

  lemma EntrySurvivesLoss(e: Entry, records: Records, homes: set<SegmentID>, lost: set<VAddr>)
    requires GoodEntry(records, homes, e) && forall a <- lost :: a !in Names(e)
    ensures GoodEntry(records - lost, homes, e)
  {
    if e.Group? {
      forall p <- e.bodies, c <- p.changes ensures GoodChange(records - lost, homes, c) {
        assert GoodChange(records, homes, c);
        if c.op != Delete { assert c.newRef.addr in Names(e); }
        if c.op == Relocate { assert c.expectedOld in Names(e); }
      }
    }
  }

  lemma CrashStorage(s: State, lost: set<VAddr>)
    requires Inv(s) && CrashEnabled(s, lost)
    ensures InvStorage(CrashAfter(s, lost))
  {
    var homes, t := Homes(s.sealed, s.active), CrashAfter(s, lost);
    CrashTable(s, lost);
    KeptSurvives(s);
    TableSurvives(t.table, s.records, homes, Kept(s), homes, {});
    TableSurvives(s.root, s.records, homes, Kept(s), homes, {});
    NamedSurvive(t.table, s.log, Kept(s), homes, lost);
    NamedSurvive(s.root, s.log[..s.replay.index], Kept(s), homes, lost);
    forall i | s.replay.index <= i < |s.log| ensures GoodEntry(Kept(s) - lost, homes, s.log[i]) {
      EntrySurvives(s.log[i], s.records, homes, Kept(s), homes, {});
      assert s.log[i] in s.log;
      EntrySurvivesLoss(s.log[i], Kept(s), homes, lost);
    }
    assert s.log[..|s.log|] == s.log;
  }

  lemma CrashCompaction(s: State, lost: set<VAddr>)
    requires InvJob(s.gc, s.sealed, s.nextOutput, s.redirects)
    ensures InvCompaction(CrashAfter(s, lost)) && InvProtocol(CrashAfter(s, lost))
  {
  }

  lemma CrashKeeps(s: State, lost: set<VAddr>)
    requires Inv(s) && CrashEnabled(s, lost)
    ensures Inv(CrashAfter(s, lost))
  {
    CrashStorage(s, lost);
    CrashCompaction(s, lost);
  }
}
