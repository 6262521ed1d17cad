/** The statistics a checkpoint stores and the check the catalog makes of them
    (internal/engine/store.go, internal/storecatalog/codec.go). */
module CheckpointStats {
  import opened RecordLog
  import opened Mapping
  import opened LiveStats

  datatype SegmentStats = SegmentStats(segment: SegmentID, bytes: nat, records: nat)

  function Segments(stats: seq<SegmentStats>): (s: seq<SegmentID>)
    ensures |s| == |stats| && forall i | 0 <= i < |s| :: s[i] == stats[i].segment
  {
    seq(|stats|, i requires 0 <= i < |stats| => stats[i].segment)
  }

  predicate Increasing(segments: seq<SegmentID>) { forall i, j | 0 <= i < j < |segments| :: segments[i] < segments[j] }

  // ------------------------------------------------- every entry is in one segment

  ghost function RecordsOver(t: Table, segments: seq<SegmentID>): nat {
    if segments == [] then 0 else Sum(t, segments[0], Records) + RecordsOver(t, segments[1..])
  }

  function HitsOver(ref: RecordRef, segments: seq<SegmentID>): nat {
    if segments == [] then 0 else Weight(ref, segments[0], Records) + HitsOver(ref, segments[1..])
  }

  lemma {:induction false} RecordsRemove(t: Table, id: ID, segments: seq<SegmentID>)
    requires id in t
    ensures RecordsOver(t, segments) == RecordsOver(t - {id}, segments) + HitsOver(t[id], segments)
  {
    if segments != [] {
      SumRemove(t, id, segments[0], Records);
      RecordsRemove(t, id, segments[1..]);
    }
  }

  lemma {:induction false} HitsOnce(ref: RecordRef, segments: seq<SegmentID>)
    requires Increasing(segments)
    ensures HitsOver(ref, segments) == if SegmentOf(ref.addr) in segments then 1 else 0
  {
    if segments != [] {
      HitsOnce(ref, segments[1..]);
      assert segments == [segments[0]] + segments[1..];
      assert forall i | 0 <= i < |segments| - 1 :: segments[1..][i] == segments[i + 1] > segments[0];
    }
  }

  lemma {:induction false} NoRecords(segments: seq<SegmentID>)
    ensures RecordsOver(map[], segments) == 0
  {
    if segments != [] { NoRecords(segments[1..]); }
  }

  lemma OneLess(t: Table, id: ID)
    requires id in t
    ensures |t| == |t - {id}| + 1
  {
    var rest := t - {id};
    assert t.Keys == rest.Keys + {id};
    assert |t.Keys| == |t| && |rest.Keys| == |rest|;
  }

  /** Counting per segment counts every entry once. */
  lemma {:induction false} RecordsAreEntries(t: Table, segments: seq<SegmentID>)
    requires Increasing(segments) && forall id <- t :: SegmentOf(t[id].addr) in segments
    ensures RecordsOver(t, segments) == |t|
    decreases |t|
  {
    if t.Keys == {} {
      assert t == map[];
      NoRecords(segments);
    } else {
      var id: ID :| id in t.Keys;
      var rest := t - {id};
      OneLess(t, id);
      RecordsRemove(t, id, segments);
      HitsOnce(t[id], segments);
      RecordsAreEntries(rest, segments);
    }
  }

  // ----------------------------------------------------------- the list and its check

  function TotalRecords(stats: seq<SegmentStats>): nat {
    if stats == [] then 0 else stats[0].records + TotalRecords(stats[1..])
  }

  /** The list is the live table, ordered by segment. */
  ghost predicate Lists(stats: seq<SegmentStats>, live: Live) {
    && Increasing(Segments(stats)) && (forall s :: s in live <==> s in Segments(stats))
    && forall i | 0 <= i < |stats| :: Row(stats[i], live)
  }

  predicate Row(s: SegmentStats, live: Live) { s.segment in live && live[s.segment] == Stat(s.bytes, s.records) }

  lemma Smallest(segments: set<SegmentID>) returns (s: SegmentID)
    requires segments != {}
    ensures s in segments && forall x <- segments :: s <= x
  {
    s :| s in segments;
    var rest := segments - {s};
    assert segments == rest + {s};
    if rest != {} {
      var t := Smallest(rest);
      if t < s { s := t; }
    }
  }

  // ------------------------------------------------------------- the physical bounds

  datatype Summary = Summary(validEnd: u32, records: nat)

  /** Where data may lie: up to ReplayStart in the active segment, up to its end in a sealed one. */
  datatype Layout = Layout(active: SegmentID, replay: LogPos, sealed: map<SegmentID, Summary>)

  predicate FitsActive(bytes: nat, records: nat, segment: SegmentID, replay: LogPos) {
    && replay.segment == segment && replay.offset >= SEGMENT_HEADER_SIZE
    && bytes <= replay.offset - SEGMENT_HEADER_SIZE && records <= bytes / RECORD_HEADER_SIZE
  }

  /** The check that `checkpointSegmentStats` makes of one row. */
  predicate Collectable(segment: SegmentID, stat: Stat, l: Layout) {
    && stat.bytes != 0 && stat.records != 0
    && if segment == l.active then FitsActive(stat.bytes, stat.records, segment, l.replay)
       else && segment in l.sealed && l.sealed[segment].validEnd >= SEGMENT_HEADER_SIZE
            && stat.bytes <= l.sealed[segment].validEnd - SEGMENT_HEADER_SIZE
            && stat.records <= l.sealed[segment].records
  }

  /** The length of the data area, as an unsigned 32-bit difference. */
  function DataBytes(validEnd: u32): u32 {
    if validEnd >= SEGMENT_HEADER_SIZE then validEnd - SEGMENT_HEADER_SIZE
    else validEnd - SEGMENT_HEADER_SIZE + 0x1_0000_0000
  }

  /** The check that the catalog makes of one row. */
  predicate InBounds(s: SegmentStats, l: Layout) {
    if s.segment == l.active then FitsActive(s.bytes, s.records, s.segment, l.replay)
    else && s.segment in l.sealed && s.records <= l.sealed[s.segment].records
         && s.bytes <= DataBytes(l.sealed[s.segment].validEnd)
  }

  predicate AllCollectable(live: Live, l: Layout) { forall s <- live :: Collectable(s, live[s], l) }

  datatype Collected = CorruptStats | TooMany | Rows(stats: seq<SegmentStats>)

  /** `checkpointSegmentStats`: all rows, in segment order, or none if one of them cannot be true
      of the files or there are more than the manifest may hold. */
  method Collect(live: Live, l: Layout, max: nat) returns (r: Collected)
    ensures r.Rows? <==> ValidPos(l.replay) && AllCollectable(live, l) && |live.Keys| <= max
    ensures r.Rows? ==> Lists(r.stats, live)
    ensures r.CorruptStats? ==> !(ValidPos(l.replay) && AllCollectable(live, l))
  {
    if !ValidPos(l.replay) { return CorruptStats; }
    var left := live.Keys;
    var count := 0;
    while left != {}
      invariant left <= live.Keys && count <= max && |left| + count == |live.Keys|
      invariant forall s <- live.Keys - left :: Collectable(s, live[s], l)
      decreases left
    {
      var s: SegmentID :| s in left;
      if !Collectable(s, live[s], l) { return CorruptStats; }
      if count == max { return TooMany; }
      count, left := count + 1, left - {s};
    }
    var stats := Ordered(live);
    return Rows(stats);
  }

  /** The rows in segment order. */
  method Ordered(live: Live) returns (stats: seq<SegmentStats>)
    ensures Lists(stats, live)
  {
    stats := [];
    var left := live.Keys;
    while left != {}
      invariant left <= live.Keys && Increasing(Segments(stats))
      invariant forall s :: s in live && s !in left <==> s in Segments(stats)
      invariant forall x <- left, i | 0 <= i < |stats| :: stats[i].segment < x
      invariant forall i | 0 <= i < |stats| :: Row(stats[i], live)
      decreases left
    {
      ghost var least := Smallest(left);
      var s: SegmentID :| s in left && forall x <- left :: s <= x;
      var row := SegmentStats(s, live[s].bytes, live[s].records);
      assert Segments(stats + [row]) == Segments(stats) + [s];
      stats, left := stats + [row], left - {s};
    }
  }

  lemma {:induction false} TotalIsRecords(stats: seq<SegmentStats>, live: Live, t: Table)
    requires Exact(live, t) && forall i | 0 <= i < |stats| :: Row(stats[i], live)
    ensures TotalRecords(stats) == RecordsOver(t, Segments(stats))
  {
    if stats != [] {
      TotalIsRecords(stats[1..], live, t);
      assert Segments(stats)[1..] == Segments(stats[1..]);
      assert Row(stats[0], live) && ExactAt(live, t, stats[0].segment);
    }
  }

  lemma LiveCovers(live: Live, t: Table, id: ID)
    requires Exact(live, t) && id in t
    ensures SegmentOf(t[id].addr) in live
  {
    SumRemove(t, id, SegmentOf(t[id].addr), Records);
    assert ExactAt(live, t, SegmentOf(t[id].addr));
  }

  /** The live records of all segments are the entries of the mapping: the count a checkpoint
      installs passes the catalog's comparison. */
  lemma LiveRecordsAreEntries(stats: seq<SegmentStats>, live: Live, t: Table)
    requires Exact(live, t) && Lists(stats, live)
    ensures TotalRecords(stats) == |t|
  {
    TotalIsRecords(stats, live, t);
    forall id <- t ensures SegmentOf(t[id].addr) in Segments(stats) { LiveCovers(live, t, id); }
    RecordsAreEntries(t, Segments(stats));
  }

  predicate BothOrNeither(s: SegmentStats) { s.segment != 0 && (s.bytes == 0 <==> s.records == 0) }

  /** What the catalog asks of the statistics of a manifest. */
  ghost predicate Acceptable(stats: seq<SegmentStats>, entries: nat, l: Layout) {
    && Increasing(Segments(stats)) && (forall i | 0 <= i < |stats| :: BothOrNeither(stats[i]) && InBounds(stats[i], l))
    && TotalRecords(stats) <= MAX64 && TotalRecords(stats) == entries
  }

  /** The statistics part of the manifest validation. */
  method Validate(stats: seq<SegmentStats>, entries: nat, l: Layout) returns (ok: bool)
    ensures ok <==> Acceptable(stats, entries, l)
  {
    var previous: SegmentID, total: nat := 0, 0;
    for i := 0 to |stats|
      invariant Increasing(Segments(stats)[..i]) && (if i == 0 then previous == 0 else previous == stats[i - 1].segment)
      invariant forall k | 0 <= k < i :: BothOrNeither(stats[k]) && InBounds(stats[k], l)
      invariant total <= MAX64 && total + TotalRecords(stats[i..]) == TotalRecords(stats)
    {
      var s := stats[i];
      assert stats[i..][1..] == stats[i + 1..];
      if s.segment == 0 || s.segment <= previous {
        assert s.segment == 0 ==> !BothOrNeither(stats[i]);
        assert s.segment != 0 ==> i > 0 && Segments(stats)[i - 1] >= Segments(stats)[i];
        return false;
      }
      if (s.bytes == 0) != (s.records == 0) || total > MAX64 - s.records { return false; }
      total := total + s.records;
      if !InBounds(s, l) { return false; }
      OrderGrows(Segments(stats), i);
      previous := s.segment;
    }
    assert Segments(stats)[..|stats|] == Segments(stats);
    return total == entries;
  }

  /** What a checkpoint collects the catalog accepts: the rows of an exact live table of a mapping
      pass its validation together with the mapping's entry count. */
  lemma CollectedIsAcceptable(stats: seq<SegmentStats>, live: Live, t: Table, l: Layout)
    requires Exact(live, t) && Lists(stats, live) && ValidTable(t) && AllCollectable(live, l) && |t| <= MAX64
    ensures Acceptable(stats, |t|, l)
  {
    LiveRecordsAreEntries(stats, live, t);
    forall i | 0 <= i < |stats| ensures BothOrNeither(stats[i]) && InBounds(stats[i], l) {
      assert Row(stats[i], live) && ExactAt(live, t, stats[i].segment);
      assert Collectable(stats[i].segment, live[stats[i].segment], l);
      SomewhereLive(t, stats[i].segment);
    }
  }

  /** A segment with live records holds a valid address, so it is not segment zero. */
  lemma SomewhereLive(t: Table, segment: SegmentID)
    requires ValidTable(t) && Sum(t, segment, Records) > 0
    ensures segment != 0
  {
    var id :| id in t;
    SumRemove(t, id, segment, Records);
    if SegmentOf(t[id].addr) != segment { SomewhereLive(t - {id}, segment); }
  }

  /** Every live record has a header, so the record bound of the active segment cannot fail. */
  lemma {:induction false} HeadersFit(t: Table, segment: SegmentID)
    requires ValidTable(t)
    ensures Sum(t, segment, Records) <= Sum(t, segment, Bytes) / RECORD_HEADER_SIZE
  {
    if t != map[] {
      var id :| id in t;
      SumRemove(t, id, segment, Records);
      SumRemove(t, id, segment, Bytes);
      HeadersFit(t - {id}, segment);
    }
  }

  lemma OrderGrows(segments: seq<SegmentID>, i: nat)
    requires i < |segments| && Increasing(segments[..i]) && (i > 0 ==> segments[i - 1] < segments[i])
    ensures Increasing(segments[..i + 1])
  {
    forall a, b | 0 <= a < b < i + 1 ensures segments[a] < segments[b] {
      if b == i && a < i - 1 { assert segments[..i][a] < segments[..i][i - 1]; }
      if b < i { assert segments[..i][a] < segments[..i][b]; }
    }
  }
}
