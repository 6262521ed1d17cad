/** The durable marker of a mapping collection and the file sets it names
    (internal/mapgcstate/state.go, internal/mapstore/generation_lifecycle.go). */
module MappingGCState {
  import opened RecordLog

  const MAP_HEADER_SIZE := 64
  const MAP_FOOTER_SIZE := 64
  const DENSE_NODE_SIZE := 64 + 512 * 12
  const ALIGNMENT := 8

  type MapSegmentID = u32
  type MapAddr = u64
  datatype SegmentRef = SegmentRef(id: MapSegmentID, validEnd: u32)
  datatype FileSet = FileSet(sealed: seq<SegmentRef>, active: MapSegmentID, next: MapSegmentID, root: MapAddr)
  datatype Marker = Marker(baseGeneration: u64, segmentSize: u32, covered: u64, oldSet: FileSet, newSet: FileSet)

  function MapSegmentOf(a: MapAddr): MapSegmentID { a / 0x1_0000_0000 }

  function MapOffsetOf(a: MapAddr): u32 { a % 0x1_0000_0000 }

  predicate ValidMapAddr(a: MapAddr) {
    MapSegmentOf(a) != 0 && MapOffsetOf(a) >= MAP_HEADER_SIZE && MapOffsetOf(a) % ALIGNMENT == 0
  }

  predicate RootIn(root: MapAddr, ref: SegmentRef) { MapSegmentOf(root) == ref.id && MapOffsetOf(root) < ref.validEnd }

  predicate GoodRef(ref: SegmentRef, active: MapSegmentID, segmentSize: u32) {
    && 0 < ref.id < active && ref.validEnd % ALIGNMENT == 0
    && MAP_HEADER_SIZE <= ref.validEnd <= segmentSize - MAP_FOOTER_SIZE
  }

  predicate Ascending(refs: seq<SegmentRef>) { forall i | 0 < i < |refs| :: refs[i - 1].id < refs[i].id }

  /** `validFileSet`. */
  predicate ValidFileSet(s: FileSet, segmentSize: u32) {
    && s.active != 0 && s.active != 0xFFFF_FFFF && s.next == s.active + 1
    && Ascending(s.sealed) && (forall i | 0 <= i < |s.sealed| :: GoodRef(s.sealed[i], s.active, segmentSize))
    && (s.root == 0 || (ValidMapAddr(s.root) && (
          || (exists i | 0 <= i < |s.sealed| :: RootIn(s.root, s.sealed[i]))
          || (MapSegmentOf(s.root) == s.active && MapOffsetOf(s.root) < segmentSize - MAP_FOOTER_SIZE))))
  }

  /** Sealed segments run without a gap from `first` up to the active one. */
  predicate ContiguousFrom(s: FileSet, first: MapSegmentID) {
    (forall i | 0 <= i < |s.sealed| :: s.sealed[i].id == first + i) && s.active == first + |s.sealed|
  }

  /** `validate`. */
  predicate ValidMarker(m: Marker) {
    && m.baseGeneration != 0 && m.segmentSize % ALIGNMENT == 0
    && m.segmentSize >= MAP_HEADER_SIZE + DENSE_NODE_SIZE + MAP_FOOTER_SIZE
    && ValidFileSet(m.oldSet, m.segmentSize) && ValidFileSet(m.newSet, m.segmentSize)
    && ContiguousFrom(m.newSet, m.oldSet.next) && (m.newSet.root == 0 ==> m.newSet.sealed == [])
  }

  // -------------------------------------------------------------------- file names

  datatype Name = SealedFile(id: MapSegmentID) | ActiveFile(id: MapSegmentID)

  function SealedNames(refs: seq<SegmentRef>): (names: seq<Name>)
    ensures |names| == |refs| && forall i | 0 <= i < |refs| :: names[i] == SealedFile(refs[i].id)
  {
    if refs == [] then [] else [SealedFile(refs[0].id)] + SealedNames(refs[1..])
  }

  /** `generationNames`: sorted by segment, the active file last. */
  function GenerationNames(s: FileSet): seq<Name> { SealedNames(s.sealed) + [ActiveFile(s.active)] }

  function SetOf(names: seq<Name>): set<Name> { set n <- names }

  function Names(s: FileSet): set<Name> { SetOf(GenerationNames(s)) }

  /** A valid marker's file sets share no file: what rollback may remove is never part of the
      old generation, and what retirement may remove is never part of the new one. */
  lemma MarkerSeparates(m: Marker)
    requires ValidMarker(m)
    ensures Names(m.oldSet) !! Names(m.newSet)
    ensures forall n <- Names(m.oldSet) :: n.id < m.oldSet.next
    ensures forall n <- Names(m.newSet) :: n.id >= m.oldSet.next
  {
    forall n <- Names(m.oldSet) ensures n.id < m.oldSet.next { NamedIn(m.oldSet, n); }
    forall n <- Names(m.newSet) ensures n.id >= m.oldSet.next { NamedIn(m.newSet, n); }
  }

  lemma NamedIn(s: FileSet, n: Name)
    requires n in Names(s)
    ensures n == ActiveFile(s.active) || exists i :: 0 <= i < |s.sealed| && n == SealedFile(s.sealed[i].id)
  {
    var names := GenerationNames(s);
    var k :| 0 <= k < |names| && names[k] == n;
    assert k < |s.sealed| ==> n == SealedFile(s.sealed[k].id);
  }

  /** `manifestMatchesMappingSet` compares field by field; it is equality of the sets. */
  method MatchesSet(manifest: FileSet, s: FileSet) returns (same: bool)
    ensures same <==> manifest == s
  {
    if manifest.active != s.active || manifest.next != s.next || manifest.root != s.root
        || |manifest.sealed| != |s.sealed| {
      return false;
    }
    for i := 0 to |s.sealed|
      invariant forall k | 0 <= k < i :: manifest.sealed[k] == s.sealed[k]
    {
      if manifest.sealed[i].id != s.sealed[i].id
         || manifest.sealed[i].validEnd != s.sealed[i].validEnd
      {
        return false;
      }
    }
    assert manifest.sealed == s.sealed;
    return true;
  }
}
