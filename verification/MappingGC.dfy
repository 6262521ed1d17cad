/** Publishing, cleaning up and recovering a mapping collection, one file step at a time
    (internal/engine/mapping_gc.go, internal/engine/mapping_gc_recovery.go,
    internal/mapstore/generation_lifecycle.go). */
module MappingGC {
  import opened RecordLog
  import opened MappingGCState

  datatype Files = Files(stage: set<Name>, canonical: set<Name>, trash: set<(Name, nat)>)
  datatype Manifest = Manifest(generation: nat, covered: u64, files: FileSet)

  /** What is on disk. `synced` is what the last directory syncs made durable; `torn` says that
      the active mapping segment ends in a partial node; `retirement` and `mapJournal` are the
      recovery artifacts of a data segment's retirement and of a mapping rotation. */
  datatype Image = Image(files: Files, synced: Files, marker: Option<Marker>, syncedMarker: Option<Marker>,
                         manifest: Manifest, torn: bool, retirement: bool, mapJournal: bool)

  /** Nothing else is half done. */
  predicate Alone(i: Image) { !i.retirement && !i.mapJournal }

  // ------------------------------------------------------------------------ crashes

  /** A crash keeps the unsynced changes of some names and loses those of the others. */
  function Mix(now: Files, synced: Files, kept: set<Name>): Files {
    Files(now.stage * kept + (synced.stage - kept), now.canonical * kept + (synced.canonical - kept),
          (set e <- now.trash | e.0 in kept) + (set e <- synced.trash | e.0 !in kept))
  }

  function Crashed(i: Image, kept: set<Name>, keepMarker: bool): Image {
    var f, marker := Mix(i.files, i.synced, kept), if keepMarker then i.marker else i.syncedMarker;
    i.(files := f, synced := f, marker := marker, syncedMarker := marker)
  }

  // --------------------------------------------------------------------- invariants

  predicate Bounds(f: Files, m: Marker) { f.canonical <= Names(m.oldSet) + Names(m.newSet) }

  /** The old generation is whole; files of the new one may be staged or promoted. */
  predicate OldFiles(f: Files, m: Marker) {
    && Bounds(f, m) && Names(m.oldSet) <= f.canonical && f.stage <= Names(m.newSet)
    && forall e <- f.trash :: e.0 !in Names(m.oldSet) && e.0 !in Names(m.newSet)
  }

  /** The new generation is whole; files of the old one may remain or be in the trash. */
  predicate NewFiles(f: Files, m: Marker) {
    Bounds(f, m) && Names(m.newSet) <= f.canonical && f.stage == {} && forall e <- f.trash :: e.0 !in f.canonical
  }

  predicate Marked(i: Image, m: Marker) { i.marker == Some(m) && i.syncedMarker == Some(m) }

  predicate MaybeMarked(i: Image, m: Marker) {
    (i.marker.None? || i.marker == Some(m)) && (i.syncedMarker.None? || i.syncedMarker == Some(m))
  }

  predicate Exactly(i: Image, s: FileSet) { i.files.canonical == Names(s) && i.synced.canonical == Names(s) }

  /** The catalog names the old set. Without a durable marker nothing is promoted. */
  predicate OldRules(i: Image, m: Marker) {
    && ValidMarker(m) && i.manifest.files == m.oldSet && i.manifest.covered == m.covered
    && i.manifest.generation >= m.baseGeneration
    && OldFiles(i.files, m) && OldFiles(i.synced, m) && MaybeMarked(i, m) && (Marked(i, m) || Exactly(i, m.oldSet))
    && Alone(i)
  }

  /** The catalog names the new set. Without a durable marker nothing of the old set is left. */
  predicate NewRules(i: Image, m: Marker) {
    && ValidMarker(m) && i.manifest.files == m.newSet && i.manifest.covered == m.covered
    && i.manifest.generation > m.baseGeneration
    && NewFiles(i.files, m) && NewFiles(i.synced, m) && i.files.canonical <= i.synced.canonical
    && MaybeMarked(i, m) && (Marked(i, m) || Exactly(i, m.newSet)) && !i.torn && Alone(i)
  }

  predicate Rules(i: Image, m: Marker) { OldRules(i, m) || NewRules(i, m) }

  /** The end of a completed recovery: exactly the files the catalog names, and no marker. */
  predicate Clean(i: Image) {
    Exactly(i, i.manifest.files) && i.files.stage == {} && i.synced.stage == {}
      && i.marker.None? && i.syncedMarker.None?
  }

  lemma CrashKeepsOld(i: Image, m: Marker, kept: set<Name>, keepMarker: bool)
    requires OldRules(i, m)
    ensures OldRules(Crashed(i, kept, keepMarker), m)
  {
    var f := Mix(i.files, i.synced, kept);
    assert Exactly(i, m.oldSet) ==> f.canonical == Names(m.oldSet);
  }

  lemma CrashKeepsNew(i: Image, m: Marker, kept: set<Name>, keepMarker: bool)
    requires NewRules(i, m)
    ensures NewRules(Crashed(i, kept, keepMarker), m)
  {
    var f := Mix(i.files, i.synced, kept);
    assert Exactly(i, m.newSet) ==> f.canonical == Names(m.newSet);
  }

  // ------------------------------------------------------------------- what to do

  datatype Decision = Discard | RollBack | Retire | Refuse

  /** The branches of `recoverMappingGC`. */
  function Decide(i: Image): Decision {
    if i.marker.None? then Discard
    else
      var m := i.marker.value;
      if i.retirement || i.mapJournal then Refuse
      else if i.manifest.covered != m.covered then Refuse
      else if i.manifest.generation >= m.baseGeneration && i.manifest.files == m.oldSet then RollBack
      else if !(i.manifest.generation > m.baseGeneration && i.manifest.files == m.newSet) then Refuse
      else if i.torn || !(Names(m.newSet) <= i.files.canonical) then Refuse
      else Retire
  }

  datatype Outcome = Done | Died | Refused | Withdrawn

  lemma PrefixSet(names: seq<Name>, k: nat)
    requires k < |names|
    ensures SetOf(names[..k + 1]) == SetOf(names[..k]) + {names[k]}
  {
    assert names[..k + 1] == names[..k] + [names[k]];
  }

  lemma WholeSet(names: seq<Name>)
    ensures SetOf(names[..|names|]) == SetOf(names) && SetOf(names[..0]) == {}
  {
    assert names[..|names|] == names;
  }

  lemma NamesDiffer(s: FileSet, segmentSize: u32, i: nat, k: nat)
    requires ValidFileSet(s, segmentSize) && i < k < |GenerationNames(s)|
    ensures GenerationNames(s)[i] != GenerationNames(s)[k]
  {
    if k < |s.sealed| { Ordered(s.sealed, i, k); }
  }

  lemma {:induction false} Ordered(refs: seq<SegmentRef>, i: nat, k: nat)
    requires Ascending(refs) && i < k < |refs|
    ensures refs[i].id < refs[k].id
    decreases k
  {
    if i + 1 < k { Ordered(refs, i, k - 1); }
  }

  /** The next name to promote is not yet there. */
  lemma NextIsNew(m: Marker, k: nat)
    requires ValidMarker(m) && k < |GenerationNames(m.newSet)|
    ensures var names := GenerationNames(m.newSet);
            names[k] in Names(m.newSet) && names[k] !in Names(m.oldSet) && names[k] !in SetOf(names[..k])
  {
    MarkerSeparates(m);
    var names := GenerationNames(m.newSet);
    forall i | 0 <= i < k ensures names[i] != names[k] { NamesDiffer(m.newSet, m.segmentSize, i, k); }
  }

  predicate Promoted(f: Files, m: Marker) { Names(m.newSet) <= f.canonical && f.stage == {} }

  /** Halfway through a promotion. */
  function Moving(i: Image, m: Marker, moved: set<Name>): Image {
    i.(files := Files(Names(m.newSet) - moved, Names(m.oldSet) + moved, i.files.trash))
  }

  lemma MovingKeeps(i: Image, m: Marker, moved: set<Name>)
    requires OldRules(i, m) && Marked(i, m) && moved <= Names(m.newSet)
    ensures OldRules(Moving(i, m, moved), m)
  {
  }

  function MoveOne(f: Files, n: Name): Files { f.(stage := f.stage - {n}, canonical := f.canonical + {n}) }

  lemma MovingNext(i: Image, m: Marker, names: seq<Name>, k: nat)
    requires ValidMarker(m) && names == GenerationNames(m.newSet) && k < |names| && SetOf(names[..k]) <= Names(m.newSet)
    ensures var j := Moving(i, m, SetOf(names[..k]));
            && names[k] in j.files.stage && names[k] !in j.files.canonical
            && SetOf(names[..k + 1]) <= Names(m.newSet)
            && j.(files := MoveOne(j.files, names[k])) == Moving(i, m, SetOf(names[..k + 1]))
  {
    NextIsNew(m, k);
    PrefixSet(names, k);
  }

  lemma SyncKeepsOld(i: Image, m: Marker)
    requires OldRules(i, m) && Marked(i, m)
    ensures OldRules(i.(synced := i.synced.(stage := i.files.stage)), m)
    ensures OldRules(i.(synced := i.synced.(canonical := i.files.canonical)), m)
  {
  }

  // ------------------------------------------------------------ rollback and retirement

  function DropCanonical(i: Image, n: Name): Image { i.(files := i.files.(canonical := i.files.canonical - {n})) }

  function DropStaged(i: Image, n: Name): Image { i.(files := i.files.(stage := i.files.stage - {n})) }

  function Trashed(i: Image, n: Name): Image {
    i.(files := i.files.(canonical := i.files.canonical - {n}, trash := i.files.trash + {(n, i.manifest.generation)}))
  }

  function DropTrash(i: Image, n: Name): Image {
    i.(files := i.files.(trash := i.files.trash - {(n, i.manifest.generation)}))
  }

  function SyncCanonical(i: Image): Image { i.(synced := i.synced.(canonical := i.files.canonical)) }

  function SyncStage(i: Image): Image { i.(synced := i.synced.(stage := i.files.stage)) }

  function SyncTrash(i: Image): Image { i.(synced := i.synced.(trash := i.files.trash)) }

  lemma DropsKeepOld(i: Image, m: Marker, n: Name)
    requires OldRules(i, m) && Marked(i, m) && n in Names(m.newSet)
    ensures OldRules(DropCanonical(i, n), m) && OldRules(DropStaged(i, n), m)
  {
    MarkerSeparates(m);
  }

  lemma RolledBack(f: Files, m: Marker)
    requires OldFiles(f, m) && ValidMarker(m)
    ensures f.canonical !! Names(m.newSet) ==> f.canonical == Names(m.oldSet)
    ensures f.stage !! Names(m.newSet) ==> f.stage == {}
  {
  }

  lemma TrashedKeepsNew(i: Image, m: Marker, n: Name)
    requires NewRules(i, m) && Marked(i, m) && n in Names(m.oldSet)
    ensures NewRules(Trashed(i, n), m) && NewRules(DropTrash(i, n), m)
  {
    MarkerSeparates(m);
  }

  lemma SyncKeepsNew(i: Image, m: Marker)
    requires NewRules(i, m) && Marked(i, m)
    ensures NewRules(SyncCanonical(i), m)
    ensures i.synced.canonical == i.files.canonical ==> NewRules(SyncTrash(i), m)
  {
  }

  lemma Retired(f: Files, m: Marker)
    requires NewFiles(f, m)
    ensures f.canonical !! Names(m.oldSet) ==> f.canonical == Names(m.newSet)
  {
  }

  lemma MarkerMayGo(i: Image, m: Marker)
    requires Rules(i, m) && Exactly(i, i.manifest.files)
    ensures Rules(i.(marker := None), m) && Rules(i.(syncedMarker := i.marker), m)
  {
  }

  lemma LoadKeeps(i: Image, m: Marker)
    requires Rules(i, m) && (i.marker.Some? || Exactly(i, i.manifest.files))
    ensures Rules(i.(syncedMarker := i.marker), m)
  {
  }

  /** Under the rules recovery always knows what to do. */
  lemma NeverRefused(i: Image, m: Marker)
    requires Rules(i, m)
    ensures Decide(i) == if i.marker.None? then Discard else if i.manifest.files == m.oldSet then RollBack else Retire
    ensures m.oldSet != m.newSet
  {
    assert m.newSet.active >= m.oldSet.next;
  }

  /** While the marker exists, a checkpoint may replace the catalog's covered sequence and mapping
      set, leave a partial node behind, or rotate the mapping: the journal of the rotation is
      there before the catalog changes. Segment numbers only grow. */
  function Overtaken(i: Image, covered: u64, files: FileSet, torn: bool, rotating: bool): Image {
    i.(manifest := i.manifest.(generation := i.manifest.generation + 1, covered := covered, files := files),
       torn := torn, mapJournal := rotating)
  }

  /** The exact condition: recovery accepts the state if and only if nothing was checkpointed, no
      mapping rotation and no retirement of a data segment begun between the publication and the
      removal of the marker. */
  lemma CheckpointMustNotOvertake(i: Image, m: Marker, covered: u64, files: FileSet, torn: bool, rotating: bool,
                                  retiring: bool)
    requires NewRules(i, m) && Marked(i, m) && files.next >= m.newSet.next
    ensures Decide(Overtaken(i, covered, files, torn, rotating).(retirement := retiring)) != Refuse
            <==> covered == m.covered && files == m.newSet && !torn && !rotating && !retiring
  {
    assert m.newSet.next > m.oldSet.next;
  }

  /** Artifacts of a retirement or of a mapping rotation are refused whatever else holds. */
  lemma ArtifactsAreRefused(i: Image)
    requires i.marker.Some?
    ensures !Alone(i) ==> Decide(i) == Refuse
  {
  }

  const EXAMPLE := Marker(1, 8192, 5, FileSet([], 1, 2, 0), FileSet([], 2, 3, 0))

  /** Published, with the old file still there. */
  function Example(): Image {
    var both := Files({}, {ActiveFile(1), ActiveFile(2)}, {});
    Image(both, both, Some(EXAMPLE), Some(EXAMPLE), Manifest(2, 5, EXAMPLE.newSet), false, false, false)
  }

  lemma ExampleFollowsRules()
    ensures NewRules(Example(), EXAMPLE) && Marked(Example(), EXAMPLE) && Decide(Example()) == Retire
  {
    assert GenerationNames(EXAMPLE.oldSet) == [ActiveFile(1)];
    assert GenerationNames(EXAMPLE.newSet) == [ActiveFile(2)];
  }

  /** A run the code allows: the collection is published, a checkpoint covers commit 6, the
      process dies before the old files are gone. The store no longer opens. */
  lemma OvertakenIsRefused()
    ensures NewRules(Example(), EXAMPLE) && Decide(Example()) == Retire
    ensures Decide(Crashed(Overtaken(Example(), 6, EXAMPLE.newSet, false, false), {}, true)) == Refuse
  {
    ExampleFollowsRules();
  }

  /** Another: a checkpoint that fills the mapping segment has installed its rotation journal and
      nothing more when the process dies. Catalog and files are as the collection left them, yet
      the store no longer opens. */
  lemma RotationIsRefused()
    ensures var i := Overtaken(Example(), EXAMPLE.covered, EXAMPLE.newSet, false, true);
            && i.manifest.covered == EXAMPLE.covered && i.manifest.files == EXAMPLE.newSet && i.files == Example().files
            && !i.torn
            && Decide(Crashed(i, {}, true)) == Refuse
            && Decide(Crashed(i.(mapJournal := false), {}, true)) == Retire
  {
    ExampleFollowsRules();
    CrashKeepsNew(Overtaken(Example(), EXAMPLE.covered, EXAMPLE.newSet, false, false), EXAMPLE, {}, true);
  }

  /** Data rotations only advance the generation. */
  lemma RotationKeeps(i: Image, m: Marker, generation: nat)
    requires Rules(i, m) && generation >= i.manifest.generation
    ensures Rules(i.(manifest := i.manifest.(generation := generation)), m)
  {
  }

  lemma CrashKeeps(i: Image, m: Marker, kept: set<Name>, keepMarker: bool)
    requires Rules(i, m)
    ensures Rules(Crashed(i, kept, keepMarker), m)
  {
    if OldRules(i, m) { CrashKeepsOld(i, m, kept, keepMarker); } else { CrashKeepsNew(i, m, kept, keepMarker); }
  }

  lemma DiscardCleans(i: Image, m: Marker)
    requires Rules(i, m) && i.marker.None? && i.syncedMarker.None?
    ensures var j := i.(files := i.files.(stage := {}), synced := i.synced.(stage := {})); Rules(j, m) && Clean(j)
  {
  }

  lemma InstallKeeps(i: Image, m: Marker)
    requires OldRules(i, m) && Exactly(i, m.oldSet)
    ensures OldRules(i.(marker := Some(m)), m) && (i.marker == Some(m) ==> OldRules(i.(syncedMarker := Some(m)), m))
  {
  }

  lemma PublishKeeps(i: Image, m: Marker)
    requires OldRules(i, m) && Marked(i, m) && Promoted(i.files, m) && Promoted(i.synced, m) && !i.torn
    ensures NewRules(i.(manifest := Manifest(i.manifest.generation + 1, m.covered, m.newSet)), m)
  {
  }

  class Disk {
    var image: Image
    var steps: nat

    /** The process dies before the file step that would exceed its allotted steps. */
    method Alive() returns (ok: bool)
      modifies this`steps
      ensures ok ==> steps == old(steps) - 1
      ensures !ok ==> steps == 0 && old(steps) == 0
    {
      ok := steps > 0;
      if ok { steps := steps - 1; }
    }

    /** `PromoteGeneration`. */
    method Promote(m: Marker) returns (r: Outcome)
      requires OldRules(image, m) && Marked(image, m) && Exactly(image, m.oldSet)
      requires image.files.stage == Names(m.newSet)
      modifies this
      ensures OldRules(image, m) && Marked(image, m)
      ensures image.manifest == old(image.manifest) && image.torn == old(image.torn)
      ensures r == Done || (r == Died && steps == 0)
      ensures r == Done ==> Promoted(image.files, m) && Promoted(image.synced, m)
    {
      var names := GenerationNames(m.newSet);
      ghost var before := image;
      WholeSet(names);
      for k := 0 to |names|
        invariant image == Moving(before, m, SetOf(names[..k])) && SetOf(names[..k]) <= Names(m.newSet)
      {
        var n := names[k];
        MovingNext(before, m, names, k);
        if (n in image.files.stage) == (n in image.files.canonical) { return Refused; }
        if n in image.files.stage {
          var ok := Alive();
          if !ok { MovingKeeps(before, m, SetOf(names[..k])); return Died; }
          image := image.(files := MoveOne(image.files, n));
        }
      }
      MovingKeeps(before, m, SetOf(names));
      r := SyncMoves(m);
    }

    method SyncMoves(m: Marker) returns (r: Outcome)
      requires OldRules(image, m) && Marked(image, m) && Promoted(image.files, m)
      modifies this
      ensures OldRules(image, m) && Marked(image, m)
      ensures image.manifest == old(image.manifest) && image.torn == old(image.torn)
      ensures r == Done || (r == Died && steps == 0)
      ensures r == Done ==> Promoted(image.files, m) && Promoted(image.synced, m)
    {
      var ok := Alive();
      if !ok { return Died; }
      SyncKeepsOld(image, m);
      image := image.(synced := image.synced.(stage := image.files.stage));
      ok := Alive();
      if !ok { return Died; }
      SyncKeepsOld(image, m);
      image := image.(synced := image.synced.(canonical := image.files.canonical));
      return Done;
    }

    /** `RollbackGeneration`. */
    method Rollback(m: Marker) returns (r: Outcome)
      requires OldRules(image, m) && Marked(image, m)
      modifies this
      ensures OldRules(image, m) && Marked(image, m) && image.manifest == old(image.manifest)
      ensures r == Done || (r == Died && steps == 0)
      ensures r == Done ==> Exactly(image, m.oldSet) && image.files.stage == {} && image.synced.stage == {}
    {
      r := RollbackCanonical(m);
      if r != Done { return; }
      r := RollbackStage(m);
    }

    method RollbackCanonical(m: Marker) returns (r: Outcome)
      requires OldRules(image, m) && Marked(image, m)
      modifies this
      ensures OldRules(image, m) && Marked(image, m) && image.manifest == old(image.manifest)
      ensures r == Done || (r == Died && steps == 0)
      ensures r == Done ==> Exactly(image, m.oldSet)
    {
      var names := GenerationNames(m.newSet);
      WholeSet(names);
      for k := 0 to |names|
        invariant OldRules(image, m) && Marked(image, m) && image.manifest == old(image.manifest)
        invariant image.files.canonical !! SetOf(names[..k])
      {
        PrefixSet(names, k);
        if names[k] in image.files.canonical {
          var ok := Alive();
          if !ok { return Died; }
          DropsKeepOld(image, m, names[k]);
          image := DropCanonical(image, names[k]);
        }
      }
      RolledBack(image.files, m);
      var ok := Alive();
      if !ok { return Died; }
      SyncKeepsOld(image, m);
      image := SyncCanonical(image);
      return Done;
    }

    method RollbackStage(m: Marker) returns (r: Outcome)
      requires OldRules(image, m) && Marked(image, m) && Exactly(image, m.oldSet)
      modifies this
      ensures OldRules(image, m) && Marked(image, m)
      ensures image.manifest == old(image.manifest) && Exactly(image, m.oldSet)
      ensures r == Done || (r == Died && steps == 0)
      ensures r == Done ==> image.files.stage == {} && image.synced.stage == {}
    {
      var names := GenerationNames(m.newSet);
      WholeSet(names);
      for k := 0 to |names|
        invariant OldRules(image, m) && Marked(image, m)
        invariant image.manifest == old(image.manifest) && Exactly(image, m.oldSet)
        invariant image.files.stage !! SetOf(names[..k])
      {
        PrefixSet(names, k);
        if names[k] in image.files.stage {
          var ok := Alive();
          if !ok { return Died; }
          DropsKeepOld(image, m, names[k]);
          image := DropStaged(image, names[k]);
        }
      }
      RolledBack(image.files, m);
      var ok := Alive();
      if !ok { return Died; }
      SyncKeepsOld(image, m);
      image := SyncStage(image);
      return if image.files.stage == {} then Done else Refused;
    }

    /** `RetireGeneration`. */
    method Retirement(m: Marker) returns (r: Outcome)
      requires NewRules(image, m) && Marked(image, m)
      modifies this
      ensures NewRules(image, m) && Marked(image, m) && image.manifest == old(image.manifest)
      ensures r == Done || (r == Died && steps == 0)
      ensures r == Done ==> Exactly(image, m.newSet)
    {
      var names := GenerationNames(m.oldSet);
      WholeSet(names);
      for k := 0 to |names|
        invariant NewRules(image, m) && Marked(image, m) && image.manifest == old(image.manifest)
        invariant image.files.canonical !! SetOf(names[..k])
      {
        PrefixSet(names, k);
        if names[k] in image.files.canonical
           && (names[k], image.manifest.generation) in image.files.trash
        {
          return Refused;
        }
        if names[k] in image.files.canonical {
          var ok := Alive();
          if !ok { return Died; }
          TrashedKeepsNew(image, m, names[k]);
          image := Trashed(image, names[k]);
        }
      }
      Retired(image.files, m);
      r := EmptyTrash(m);
    }

    method EmptyTrash(m: Marker) returns (r: Outcome)
      requires NewRules(image, m) && Marked(image, m) && image.files.canonical == Names(m.newSet)
      modifies this
      ensures NewRules(image, m) && Marked(image, m) && image.manifest == old(image.manifest)
      ensures r == Done || (r == Died && steps == 0)
      ensures r == Done ==> Exactly(image, m.newSet)
    {
      var names := GenerationNames(m.oldSet);
      var ok := Alive();
      if !ok { return Died; }
      SyncKeepsNew(image, m);
      image := SyncCanonical(image);
      ok := Alive();
      if !ok { return Died; }
      SyncKeepsNew(image, m);
      image := SyncTrash(image);
      for k := 0 to |names|
        invariant NewRules(image, m) && Marked(image, m)
        invariant image.manifest == old(image.manifest) && Exactly(image, m.newSet)
      {
        if (names[k], image.manifest.generation) in image.files.trash {
          ok := Alive();
          if !ok { return Died; }
          TrashedKeepsNew(image, m, names[k]);
          image := DropTrash(image, names[k]);
        }
      }
      ok := Alive();
      if !ok { return Died; }
      SyncKeepsNew(image, m);
      image := SyncTrash(image);
      return Done;
    }

    /** `mapgcstate.Remove`. */
    method RemoveMarker(ghost m: Marker) returns (r: Outcome)
      requires Rules(image, m) && Exactly(image, image.manifest.files)
      requires image.files.stage == {} && image.synced.stage == {}
      modifies this
      ensures Rules(image, m) && image.manifest == old(image.manifest)
      ensures (r == Done && Clean(image)) || (r == Died && steps == 0)
    {
      var ok := Alive();
      if !ok { return Died; }
      MarkerMayGo(image, m);
      image := image.(marker := None);
      ok := Alive();
      if !ok { return Died; }
      MarkerMayGo(image, m);
      image := image.(syncedMarker := None);
      return Done;
    }

    /** `recoverMappingGC`, with the process dying after any number of file steps. */
    method Recover(ghost m: Marker) returns (r: Outcome)
      requires Decide(image) != Refuse ==> Rules(image, m)
      modifies this
      ensures image.manifest == old(image.manifest)
      ensures if Decide(old(image)) == Refuse
              then image.files == old(image.files) && Decide(image) == Refuse
                   && (r == Refused || (r == Died && steps == 0))
              else Rules(image, m) && ((r == Done && Clean(image)) || (r == Died && steps == 0))
    {
      var ok := Alive();
      if !ok { return Died; }
      ghost var decision := Decide(image);
      if decision != Refuse { LoadKeeps(image, m); }
      image := image.(syncedMarker := image.marker);
      if decision != Refuse { NeverRefused(image, m); }
      match Decide(image)
      case Refuse => return Refused;
      case Discard =>
        ok := Alive();
        if !ok { return Died; }
        DiscardCleans(image, m);
        image := image.(files := image.files.(stage := {}), synced := image.synced.(stage := {}));
        return Done;
      case RollBack => r := RecoverOld(image.marker.value);
      case Retire => r := RecoverNew(image.marker.value);
    }

    method RecoverOld(m: Marker) returns (r: Outcome)
      requires OldRules(image, m) && Marked(image, m)
      modifies this
      ensures Rules(image, m) && image.manifest == old(image.manifest)
      ensures (r == Done && Clean(image)) || (r == Died && steps == 0)
    {
      r := Rollback(m);
      if r == Done { r := RemoveMarker(m); }
    }

    /** Also `cleanupMappingGC`, once no reader uses the old store. */
    method RecoverNew(m: Marker) returns (r: Outcome)
      requires NewRules(image, m) && Marked(image, m)
      modifies this
      ensures Rules(image, m) && image.manifest == old(image.manifest)
      ensures (r == Done && Clean(image)) || (r == Died && steps == 0)
    {
      r := Retirement(m);
      if r == Done { r := RemoveMarker(m); }
    }

    /** `publishMappingGC`; it may give up after the marker or after the promotion. */
    method Publish(m: Marker, giveUp: nat) returns (r: Outcome)
      requires OldRules(image, m) && image.marker.None? && image.syncedMarker.None?
      requires image.files.stage == Names(m.newSet) && !image.torn
      modifies this
      ensures Rules(image, m) && r != Refused && (r == Died ==> steps == 0)
      ensures r == Done ==>
        NewRules(image, m) && Marked(image, m) && image.manifest.generation == old(image.manifest.generation) + 1
      ensures r == Withdrawn ==> OldRules(image, m) && Clean(image) && image.manifest == old(image.manifest)
    {
      r := Install(m);
      if r != Done { return; }
      if giveUp == 1 { r := RecoverOld(m); return if r == Done then Withdrawn else r; }
      r := Promote(m);
      if r != Done { return; }
      if giveUp == 2 { r := RecoverOld(m); return if r == Done then Withdrawn else r; }
      var ok := Alive();
      if !ok { return Died; }
      PublishKeeps(image, m);
      image := image.(manifest := Manifest(image.manifest.generation + 1, m.covered, m.newSet));
      return Done;
    }

    method Install(m: Marker) returns (r: Outcome)
      requires OldRules(image, m) && image.marker.None? && image.syncedMarker.None?
      modifies this
      ensures OldRules(image, m) && Exactly(image, m.oldSet)
      ensures image.manifest == old(image.manifest) && image.files == old(image.files)
      ensures image.torn == old(image.torn) && (r == Done || (r == Died && steps == 0))
      ensures r == Done ==> Marked(image, m)
    {
      var ok := Alive();
      if !ok { return Died; }
      InstallKeeps(image, m);
      image := image.(marker := Some(m));
      ok := Alive();
      if !ok { return Died; }
      InstallKeeps(image, m);
      image := image.(syncedMarker := Some(m));
      return Done;
    }

    /** The process restarts after a crash, with the catalog having moved on by data rotations. */
    method Restart(kept: set<Name>, keepMarker: bool, allowed: nat, generation: nat, ghost m: Marker)
      returns (r: Outcome)
      requires Rules(image, m) && generation >= image.manifest.generation
      modifies this
      ensures Rules(image, m) && image.manifest == old(image.manifest).(generation := generation)
      ensures (r == Done && Clean(image)) || (r == Died && steps == 0)
    {
      RotationKeeps(image, m, generation);
      image := image.(manifest := image.manifest.(generation := generation));
      CrashKeeps(image, m, kept, keepMarker);
      image := Crashed(image, kept, keepMarker);
      steps := allowed;
      NeverRefused(image, m);
      r := Recover(m);
    }
  }

  /** A restart: what the crash kept, how far the recovery gets, and the catalog generation that
      data rotations have reached by then. */
  datatype Attempt = Attempt(kept: set<Name>, keepMarker: bool, steps: nat, generation: nat)

  /** A collection, interrupted anywhere, followed by any number of interrupted recoveries: the
      first recovery that completes leaves exactly the files the catalog names and no marker. */
  method Lifetime(disk: Disk, m: Marker, giveUp: nat, attempts: seq<Attempt>) returns (r: Outcome)
    requires OldRules(disk.image, m) && disk.image.marker.None? && disk.image.syncedMarker.None?
    requires disk.image.files.stage == Names(m.newSet) && !disk.image.torn
    modifies disk
    ensures Rules(disk.image, m) && (disk.image.manifest.files == m.oldSet || disk.image.manifest.files == m.newSet)
    ensures (r == Done ==> Clean(disk.image)) && r != Refused
  {
    r := disk.Publish(m, giveUp);
    if r == Done { r := disk.RecoverNew(m); }
    else if r == Withdrawn { r := Done; }
    for k := 0 to |attempts|
      invariant Rules(disk.image, m) && (r == Done ==> Clean(disk.image)) && r != Refused
    {
      var now := disk.image.manifest.generation;
      var reached := if attempts[k].generation > now then attempts[k].generation else now;
      r := disk.Restart(attempts[k].kept, attempts[k].keepMarker, attempts[k].steps, reached, m);
    }
  }
}
