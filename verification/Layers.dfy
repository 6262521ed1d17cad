/** Delta layers over a checkpoint root, and the fold that turns frozen layers into one sorted
    list of mutations (internal/mapping/persistent.go). */
module Layers {
  import opened RecordLog
  import opened Mapping
  import opened RadixBuild

  type Values = Virtual // None: deleted

  /** Layers from oldest to newest over a table. */
  function Stack(t: Table, layers: seq<Values>): Table
    decreases |layers|
  {
    if layers == [] then t else Overlay(Stack(t, layers[..|layers| - 1]), layers[|layers| - 1])
  }

  lemma StackSnoc(t: Table, layers: seq<Values>, v: Values)
    ensures Stack(t, layers + [v]) == Overlay(Stack(t, layers), v)
  {
    assert (layers + [v])[..|layers|] == layers;
  }

  lemma OverlayEmpty(t: Table)
    ensures Overlay(t, map[]) == t
  {
  }

  lemma {:induction false} StackConcat(t: Table, a: seq<Values>, b: seq<Values>)
    ensures Stack(t, a + b) == Stack(Stack(t, a), b)
    decreases |b|
  {
    if b == [] {
      assert a + b == a;
    } else {
      assert (a + b)[..|a + b| - 1] == a + b[..|b| - 1];
      StackConcat(t, a, b[..|b| - 1]);
    }
  }

  /** `lookupLayers` and the fall through to the root: the newest layer that knows the ID. */
  method LookupLayers(active: Values, frozen: seq<Values>, id: ID) returns (r: Option<Option<RecordRef>>)
    ensures forall t: Table :: Get(Stack(t, frozen + [active]), id) == if r.Some? then r.value else Get(t, id)
  {
    assert (frozen + [active])[..|frozen|] == frozen && frozen[..|frozen|] == frozen;
    if id in active { return Some(active[id]); }
    var index := |frozen|;
    while index > 0
      invariant 0 <= index <= |frozen| && id !in active
      invariant forall t: Table :: Get(Stack(t, frozen + [active]), id) == Get(Stack(t, frozen[..index]), id)
    {
      index := index - 1;
      assert frozen[..index + 1][..index] == frozen[..index];
      if id in frozen[index] { return Some(frozen[index][id]); }
    }
    return None;
  }

  // ------------------------------------------------------------ lists of mutations

  /** What a list of mutations finally says about an ID. */
  function LastOf(ms: seq<Mutation>, id: ID): Option<RecordRef>
    decreases |ms|
  {
    if ms == [] then None
    else if ms[|ms| - 1].id == id then Some(ms[|ms| - 1].ref)
    else LastOf(ms[..|ms| - 1], id)
  }

  lemma {:induction false} AppliedCell(t: Table, ms: seq<Mutation>, id: ID)
    requires NoZero(t)
    ensures NoZero(ApplyAll(t, ms))
    ensures Cell(ApplyAll(t, ms), id) == if LastOf(ms, id).Some? then LastOf(ms, id).value else Cell(t, id)
    decreases |ms|
  {
    if ms != [] { AppliedCell(t, ms[..|ms| - 1], id); }
  }

  /** Lists that agree on what they finally say denote the same update. */
  lemma SameUpdate(t: Table, a: seq<Mutation>, b: seq<Mutation>)
    requires NoZero(t) && forall id: ID :: LastOf(a, id) == LastOf(b, id)
    ensures ApplyAll(t, a) == ApplyAll(t, b)
  {
    var x, y := ApplyAll(t, a), ApplyAll(t, b);
    forall id: ID ensures Cell(x, id) == Cell(y, id) {
      AppliedCell(t, a, id);
      AppliedCell(t, b, id);
    }
    assert NoZero(x) && NoZero(y) by { AppliedCell(t, a, 0); AppliedCell(t, b, 0); }
    SameCells(x, y);
  }

  lemma SameCells(x: Table, y: Table)
    requires NoZero(x) && NoZero(y) && forall id: ID :: Cell(x, id) == Cell(y, id)
    ensures x == y
  {
    forall id <- x ensures id in y && y[id] == x[id] { assert Cell(x, id) == Cell(y, id); }
    forall id <- y ensures id in x { assert Cell(x, id) == Cell(y, id); }
  }

  lemma {:induction false} LastOfConcat(a: seq<Mutation>, b: seq<Mutation>, id: ID)
    ensures LastOf(a + b, id) == if LastOf(b, id).Some? then LastOf(b, id) else LastOf(a, id)
    decreases |b|
  {
    if b == [] {
      assert a + b == a;
    } else {
      assert (a + b)[..|a + b| - 1] == a + b[..|b| - 1];
      LastOfConcat(a, b[..|b| - 1], id);
    }
  }

  function RefOfValue(v: Option<RecordRef>): RecordRef { if v.Some? then v.value else ZERO_REF }

  predicate ValidValues(v: Values) { forall id <- v :: id != 0 && (v[id].Some? ==> ValidRef(v[id].value)) }

  /** The entries of one layer, in whatever order the map is traversed. */
  ghost predicate LayerListed(values: Values, ms: seq<Mutation>) {
    && |ms| == |values| && (forall m <- ms :: m.id in values && m.ref == RefOfValue(values[m.id]))
    && forall id: ID :: LastOf(ms, id) == if id in values then Some(RefOfValue(values[id])) else None
  }

  method ListLayer(values: Values) returns (ms: seq<Mutation>)
    ensures LayerListed(values, ms)
  {
    ms := [];
    var left := values;
    while left.Keys != {}
      invariant forall id <- left :: id in values && values[id] == left[id]
      invariant |ms| + |left| == |values| && (forall m <- ms :: m.id in values && m.ref == RefOfValue(values[m.id]))
      invariant forall id: ID ::
                LastOf(ms, id) == if id in values && id !in left then Some(RefOfValue(values[id])) else None
      decreases |left|
    {
      var id: ID :| id in left.Keys;
      ghost var before := ms;
      ms := ms + [Mutation(id, RefOfValue(left[id]))];
      assert ms[..|ms| - 1] == before;
      ListStep(left, id);
      left := left - {id};
    }
  }

  lemma ListStep(left: Values, id: ID)
    requires id in left
    ensures |left - {id}| == |left| - 1
  {
    assert (left - {id}).Keys == left.Keys - {id};
    assert |(left - {id}).Keys| == |left - {id}| && |left.Keys| == |left|;
  }

  function Sizes(layers: seq<Values>): nat
    decreases |layers|
  {
    if layers == [] then 0 else Sizes(layers[..|layers| - 1]) + |layers[|layers| - 1]|
  }

  predicate NoZeroLayer(l: Values) { forall id <- l :: l[id].Some? ==> l[id].value != ZERO_REF }

  predicate NoZeroLayers(layers: seq<Values>) { forall i | 0 <= i < |layers| :: NoZeroLayer(layers[i]) }

  /** Concatenating the layers in order says of each ID what the newest layer says. */
  method ListLayers(layers: seq<Values>) returns (ms: seq<Mutation>)
    ensures |ms| == Sizes(layers)
    ensures (forall i | 0 <= i < |layers| :: ValidValues(layers[i])) ==> forall m <- ms :: ValidMutation(m)
    ensures NoZeroLayers(layers) ==> forall t: Table :: NoZero(t) ==> ApplyAll(t, ms) == Stack(t, layers)
  {
    ms := [];
    for i := 0 to |layers|
      invariant |ms| == Sizes(layers[..i])
      invariant (forall i | 0 <= i < |layers| :: ValidValues(layers[i])) ==> forall m <- ms :: ValidMutation(m)
      invariant NoZeroLayers(layers) ==> forall t: Table :: NoZero(t) ==> ApplyAll(t, ms) == Stack(t, layers[..i])
    {
      var more := ListLayer(layers[i]);
      assert layers[..i + 1][..i] == layers[..i];
      if NoZeroLayers(layers) {
        forall t: Table | NoZero(t) ensures ApplyAll(t, ms + more) == Stack(t, layers[..i + 1]) {
          ApplyConcat(t, ms, more);
          AppliedCell(t, ms, 0);
          LayerApplied(ApplyAll(t, ms), layers[i], more);
        }
      }
      ms := ms + more;
    }
    assert layers[..|layers|] == layers;
  }

  lemma LayerApplied(t: Table, values: Values, ms: seq<Mutation>)
    requires NoZero(t) && LayerListed(values, ms) && NoZeroLayer(values)
    ensures ApplyAll(t, ms) == Overlay(t, values)
  {
    var x, y := ApplyAll(t, ms), Overlay(t, values);
    forall id: ID ensures Cell(x, id) == Cell(y, id) { AppliedCell(t, ms, id); }
    assert NoZero(x) by { AppliedCell(t, ms, 0); }
    SameCells(x, y);
  }

  // ------------------------------------------------------------------- stable sort

  predicate Ascending(ms: seq<Mutation>) { forall i, j | 0 <= i < j < |ms| :: ms[i].id <= ms[j].id }

  /** Insertion behind everything that is not greater: the stable order. */
  function Insert(ms: seq<Mutation>, m: Mutation): (r: seq<Mutation>)
    ensures |r| == |ms| + 1
    decreases |ms|
  {
    if ms == [] || ms[|ms| - 1].id <= m.id then ms + [m]
    else Insert(ms[..|ms| - 1], m) + [ms[|ms| - 1]]
  }

  function StableSort(ms: seq<Mutation>): (r: seq<Mutation>)
    ensures |r| == |ms|
    decreases |ms|
  {
    if ms == [] then [] else Insert(StableSort(ms[..|ms| - 1]), ms[|ms| - 1])
  }

  lemma {:induction false} InsertKeeps(ms: seq<Mutation>, m: Mutation, id: ID)
    requires Ascending(ms)
    ensures Ascending(Insert(ms, m))
    ensures LastOf(Insert(ms, m), id) == if m.id == id then Some(m.ref) else LastOf(ms, id)
    ensures forall x <- Insert(ms, m) :: x == m || x in ms
    decreases |ms|
  {
    if ms == [] || ms[|ms| - 1].id <= m.id {
      assert (ms + [m])[..|ms|] == ms;
    } else {
      var last := ms[|ms| - 1];
      InsertKeeps(ms[..|ms| - 1], m, id);
      var front := Insert(ms[..|ms| - 1], m);
      assert (front + [last])[..|front|] == front;
      forall x <- front ensures x.id <= last.id { }
      if last.id == id { assert m.id != id; }
    }
  }

  /** Sorting stably never changes what is last for an ID. */
  lemma {:induction false} SortKeeps(ms: seq<Mutation>, id: ID)
    ensures Ascending(StableSort(ms)) && LastOf(StableSort(ms), id) == LastOf(ms, id)
    decreases |ms|
  {
    if ms != [] {
      SortKeeps(ms[..|ms| - 1], id);
      InsertKeeps(StableSort(ms[..|ms| - 1]), ms[|ms| - 1], id);
    }
  }

  // -------------------------------------------------------------- fold equal runs

  /** The last mutation of every run of equal IDs. */
  function Folded(ms: seq<Mutation>): seq<Mutation> {
    if ms == [] then []
    else if |ms| > 1 && ms[0].id == ms[1].id then Folded(ms[1..])
    else [ms[0]] + Folded(ms[1..])
  }

  lemma {:induction false} FoldRun(ms: seq<Mutation>, k: nat)
    requires 0 < k <= |ms| && (forall i | 0 <= i < k :: ms[i].id == ms[0].id) && (k < |ms| ==> ms[k].id != ms[0].id)
    ensures Folded(ms) == [ms[k - 1]] + Folded(ms[k..])
    decreases |ms|
  {
    if k > 1 {
      FoldRun(ms[1..], k - 1);
      assert ms[1..][k - 1..] == ms[k..];
    }
  }

  method RunEnd(a: array<Mutation>, start: nat) returns (end: nat)
    requires start < a.Length
    ensures start < end <= a.Length && (forall i | start <= i < end :: a[i].id == a[start].id)
    ensures end < a.Length ==> a[end].id != a[start].id
  {
    end := start + 1;
    while end < a.Length && a[end].id == a[start].id
      invariant start < end <= a.Length && forall i | start <= i < end :: a[i].id == a[start].id
    {
      end := end + 1;
    }
  }

  lemma FoldStep(was: seq<Mutation>, start: nat, end: nat, done: seq<Mutation>)
    requires start < end <= |was| && (forall i | start <= i < end :: was[i].id == was[start].id)
    requires (end < |was| ==> was[end].id != was[start].id) && done + Folded(was[start..]) == Folded(was)
    ensures done + [was[end - 1]] + Folded(was[end..]) == Folded(was)
  {
    RunFolds(was, start, end);
    Regroup(done, was[end - 1], Folded(was[end..]));
  }

  lemma RunFolds(was: seq<Mutation>, start: nat, end: nat)
    requires start < end <= |was| && (forall i | start <= i < end :: was[i].id == was[start].id)
    requires end < |was| ==> was[end].id != was[start].id
    ensures Folded(was[start..]) == [was[end - 1]] + Folded(was[end..])
  {
    FoldRun(was[start..], end - start);
    assert was[start..][end - start..] == was[end..];
  }

  lemma Regroup(done: seq<Mutation>, m: Mutation, rest: seq<Mutation>)
    ensures done + [m] + rest == done + ([m] + rest)
  {
  }

  /** The compaction loop, writing into the slice it reads. */
  method FoldRuns(a: array<Mutation>) returns (unique: nat)
    modifies a
    ensures unique <= a.Length && a[..unique] == Folded(old(a[..]))
  {
    unique := 0;
    var start := 0;
    ghost var was := a[..];
    while start < a.Length
      invariant 0 <= unique <= start <= a.Length
      invariant forall i | start <= i < a.Length :: a[i] == was[i]
      invariant a[..unique] + Folded(was[start..]) == Folded(was)
    {
      var end := RunEnd(a, start);
      FoldStep(was, start, end, a[..unique]);
      ghost var done := a[..unique];
      a[unique] := a[end - 1];
      assert a[..unique + 1] == done + [was[end - 1]];
      unique, start := unique + 1, end;
    }
    assert was[a.Length..] == [];
  }

  /** Folding never changes what is last for an ID. */
  lemma {:induction false} FoldKeeps(ms: seq<Mutation>, id: ID)
    ensures LastOf(Folded(ms), id) == LastOf(ms, id)
  {
    if ms != [] {
      FoldKeeps(ms[1..], id);
      assert ms == [ms[0]] + ms[1..];
      LastOfConcat([ms[0]], ms[1..], id);
      if |ms| > 1 && ms[0].id == ms[1].id {
        RunContinues(ms[1..], id);
      } else {
        LastOfConcat([ms[0]], Folded(ms[1..]), id);
      }
    }
  }

  /** Folding a sorted list leaves strictly increasing IDs. */
  lemma {:induction false} FoldSorts(ms: seq<Mutation>)
    requires Ascending(ms)
    ensures forall i, j | 0 <= i < j < |Folded(ms)| :: Folded(ms)[i].id < Folded(ms)[j].id
    ensures forall m <- Folded(ms) :: m in ms
  {
    if ms != [] {
      FoldSorts(ms[1..]);
      var rest := Folded(ms[1..]);
      if !(|ms| > 1 && ms[0].id == ms[1].id) {
        forall m <- rest ensures ms[0].id < m.id {
          var i :| 0 <= i < |ms[1..]| && ms[1..][i] == m;
          assert ms[1].id <= ms[i + 1].id;
        }
      }
    }
  }

  lemma RunContinues(ms: seq<Mutation>, id: ID)
    requires ms != []
    ensures ms[0].id == id ==> LastOf(ms, id).Some?
    decreases |ms|
  {
    if |ms| > 1 && ms[|ms| - 1].id != id { RunContinues(ms[..|ms| - 1], id); }
  }

  /** Sorted stably and folded, a list is strictly increasing and means the same. */
  lemma FoldedMeansSame(t: Table, ms: seq<Mutation>)
    requires NoZero(t) && forall m <- ms :: ValidMutation(m)
    ensures ValidMutations(Folded(StableSort(ms)))
    ensures ApplyAll(t, Folded(StableSort(ms))) == ApplyAll(t, ms)
  {
    var sorted := StableSort(ms);
    forall id: ID ensures LastOf(Folded(sorted), id) == LastOf(ms, id) {
      SortKeeps(ms, id);
      FoldKeeps(sorted, id);
    }
    SameUpdate(t, Folded(sorted), ms);
    SortKeeps(ms, 0);
    FoldSorts(sorted);
    SortMembers(ms);
  }

  lemma {:induction false} SortMembers(ms: seq<Mutation>)
    ensures forall m <- StableSort(ms) :: m in ms
    decreases |ms|
  {
    if ms != [] {
      SortMembers(ms[..|ms| - 1]);
      SortKeeps(ms[..|ms| - 1], 0);
      InsertKeeps(StableSort(ms[..|ms| - 1]), ms[|ms| - 1], 0);
    }
  }
}
