/** The order inside a commit group (`orderUserBeforeRelocation` and `process` of
    internal/coordinator/coordinator.go) and what it means for the values: of several commits the
    one queued last decides. */
module StoreOrder {
  import opened Mapping
  import opened StoreState
  import opened StoreValues

  // -------------------------------------------------------------- places in the group

  /** How many of the first i requests are commits, or are not. */
  function Rank(rs: seq<Request>, commits: bool, i: nat): nat
    requires i <= |rs|
    decreases i
  {
    if i == 0 then 0 else (if rs[0].Commit? == commits then 1 else 0) + Rank(rs[1..], commits, i - 1)
  }

  lemma {:induction false} OnlyAt(rs: seq<Request>, commits: bool, i: nat)
    requires i < |rs| && rs[i].Commit? == commits
    ensures Rank(rs, commits, i) < |Only(rs, commits)| && Only(rs, commits)[Rank(rs, commits, i)] == rs[i]
    decreases i
  {
    if i > 0 { OnlyAt(rs[1..], commits, i - 1); }
  }

  lemma {:induction false} RankGrows(rs: seq<Request>, commits: bool, i: nat, j: nat)
    requires i < j <= |rs| && rs[i].Commit? == commits
    ensures Rank(rs, commits, i) < Rank(rs, commits, j)
    decreases i
  {
    if i > 0 { RankGrows(rs[1..], commits, i - 1, j - 1); }
  }

  /** Every place is taken by a request. */
  lemma {:induction false} OnlyFrom(rs: seq<Request>, commits: bool, k: nat) returns (i: nat)
    requires k < |Only(rs, commits)|
    ensures i < |rs| && rs[i].Commit? == commits && Rank(rs, commits, i) == k
    decreases |rs|
  {
    if rs[0].Commit? == commits && k == 0 {
      i := 0;
    } else {
      var j := OnlyFrom(rs[1..], commits, k - if rs[0].Commit? == commits then 1 else 0);
      i := j + 1;
    }
  }

  /** The place of the i-th request of the queue in a group of n. */
  function PlaceOf(queue: seq<Request>, n: nat, i: nat): nat
    requires i < n <= |queue|
  {
    if queue[i].Commit? then Rank(queue[..n], true, i) else |Only(queue[..n], true)| + Rank(queue[..n], false, i)
  }

  /** A group holds exactly its requests: commits before relocations, both as they were queued. */
  lemma GroupOrder(queue: seq<Request>, n: nat, i: nat)
    requires GroupAt(queue, n) && i < n
    ensures PlaceOf(queue, n, i) < |Members(queue, n)| && Members(queue, n)[PlaceOf(queue, n, i)] == queue[i]
    ensures forall j | i < j < n && (queue[j].Commit? <==> queue[i].Commit?) ::
              PlaceOf(queue, n, i) < PlaceOf(queue, n, j)
    ensures forall j | 0 <= j < n && queue[i].Commit? && !queue[j].Commit? ::
              PlaceOf(queue, n, i) < PlaceOf(queue, n, j)
  {
    var rs := queue[..n];
    OnlyAt(rs, queue[i].Commit?, i);
    forall j | i < j < n && (queue[j].Commit? <==> queue[i].Commit?)
      ensures PlaceOf(queue, n, i) < PlaceOf(queue, n, j)
    {
      RankGrows(rs, queue[i].Commit?, i, j);
    }
  }

  lemma PlaceTaken(queue: seq<Request>, n: nat, k: nat) returns (i: nat)
    requires GroupAt(queue, n) && k < |Members(queue, n)|
    ensures i < n && PlaceOf(queue, n, i) == k
  {
    var rs := queue[..n];
    if k < |Only(rs, true)| {
      i := OnlyFrom(rs, true, k);
    } else {
      i := OnlyFrom(rs, false, k - |Only(rs, true)|);
    }
  }

  lemma {:induction false} OnlySplits(rs: seq<Request>)
    ensures multiset(Only(rs, true)) + multiset(Only(rs, false)) == multiset(rs)
  {
    if rs != [] {
      OnlySplits(rs[1..]);
      assert rs == [rs[0]] + rs[1..];
    }
  }

  lemma GroupIsWhole(queue: seq<Request>, n: nat)
    requires GroupAt(queue, n)
    ensures multiset(Members(queue, n)) == multiset(queue[..n])
  {
    OnlySplits(queue[..n]);
  }

  // ---------------------------------------------------------------- who decides a value

  /** What a change leaves of an ID. */
  predicate Leaves(v: View, records: Records, c: Change) {
    if c.op == Delete then c.id !in v
    else c.newRef.addr in records && c.id in v && v[c.id] == records[c.newRef.addr].value
  }

  predicate SameAt(v: View, w: View, id: ID) { (id in v <==> id in w) && (id in v ==> v[id] == w[id]) }

  lemma {:induction false} WriteElsewhere(v: View, records: Records, cs: seq<Change>, id: ID)
    requires forall c <- cs :: c.id != id
    ensures SameAt(v, Write(v, records, cs), id)
    decreases |cs|
  {
    if cs != [] {
      assert cs[0] in cs;
      WriteElsewhere(WriteOne(v, records, cs[0]), records, cs[1..], id);
    }
  }

  lemma {:induction false} WriteHere(v: View, records: Records, cs: seq<Change>, k: nat)
    requires k < |cs| && (forall i, j | 0 <= i < j < |cs| :: cs[i].id != cs[j].id)
    requires cs[k].op != Delete ==> cs[k].newRef.addr in records
    ensures Leaves(Write(v, records, cs), records, cs[k])
    decreases k
  {
    if k == 0 {
      forall c <- cs[1..] ensures c.id != cs[0].id {
        var i :| 0 <= i < |cs[1..]| && cs[1..][i] == c;
        assert cs[0].id != cs[i + 1].id;
      }
      WriteElsewhere(WriteOne(v, records, cs[0]), records, cs[1..], cs[0].id);
    } else {
      WriteHere(WriteOne(v, records, cs[0]), records, cs[1..], k - 1);
    }
  }

  predicate Writes(rs: seq<Request>, plan: seq<ResolvedProposal>, k: nat, id: ID)
    requires |rs| == |plan| && k < |rs|
  {
    rs[k].Commit? && plan[k].accepted && id in ChangeIDs(rs[k].body)
  }

  lemma {:induction false} NobodyWrites(v: View, records: Records, rs: seq<Request>, plan: seq<ResolvedProposal>,
                                        id: ID)
    requires |rs| == |plan| && forall k | 0 <= k < |rs| :: !Writes(rs, plan, k, id)
    ensures SameAt(v, WriteAll(v, records, rs, plan), id)
    decreases |rs|
  {
    if rs != [] {
      assert !Writes(rs, plan, 0, id);
      var next := if rs[0].Commit? && plan[0].accepted then Write(v, records, rs[0].body.changes) else v;
      if rs[0].Commit? && plan[0].accepted {
        forall c <- rs[0].body.changes ensures c.id != id { assert c.id in ChangeIDs(rs[0].body); }
        WriteElsewhere(v, records, rs[0].body.changes, id);
      }
      forall k | 0 <= k < |rs[1..]| ensures !Writes(rs[1..], plan[1..], k, id) {
        assert !Writes(rs, plan, k + 1, id);
      }
      NobodyWrites(next, records, rs[1..], plan[1..], id);
    }
  }

  /** The last accepted commit that changes an ID decides its value. */
  lemma {:induction false} LastWrites(v: View, records: Records, rs: seq<Request>, plan: seq<ResolvedProposal>, k: nat,
                                      c: Change)
    requires |rs| == |plan| && k < |rs| && Writes(rs, plan, k, c.id) && c in rs[k].body.changes
    requires forall m | k < m < |rs| :: !Writes(rs, plan, m, c.id)
    requires ValidProposal(rs[k].body) && (c.op != Delete ==> c.newRef.addr in records)
    ensures Leaves(WriteAll(v, records, rs, plan), records, c)
    decreases k
  {
    var next := if rs[0].Commit? && plan[0].accepted then Write(v, records, rs[0].body.changes) else v;
    if k == 0 {
      var i :| 0 <= i < |rs[0].body.changes| && rs[0].body.changes[i] == c;
      WriteHere(v, records, rs[0].body.changes, i);
      forall m | 0 <= m < |rs[1..]| ensures !Writes(rs[1..], plan[1..], m, c.id) {
        assert !Writes(rs, plan, m + 1, c.id);
      }
      NobodyWrites(next, records, rs[1..], plan[1..], c.id);
    } else {
      forall m | k - 1 < m < |rs[1..]| ensures !Writes(rs[1..], plan[1..], m, c.id) {
        assert !Writes(rs, plan, m + 1, c.id);
      }
      assert Writes(rs[1..], plan[1..], k - 1, c.id);
      LastWrites(next, records, rs[1..], plan[1..], k - 1, c);
    }
  }
}
