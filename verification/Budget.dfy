/** The byte budget of the in-memory delta layers (internal/mapping/budget.go). A reservation is
    a handle; it stays open until it is released or consumed, each at most once. */
module Budget {
  import opened RecordLog

  const ENTRY_CHARGE: nat := 64

  type Handle = nat

  ghost function Sum(open: map<Handle, nat>): nat
  {
    if open == map[] then 0 else
      var h :| h in open;
      open[h] + Sum(open - {h})
  }

  lemma {:induction false} SumWithout(open: map<Handle, nat>, h: Handle)
    requires h in open
    ensures Sum(open) == open[h] + Sum(open - {h})
    decreases |open|
  {
    var k :| k in open && Sum(open) == open[k] + Sum(open - {k});
    if k != h {
      SumWithout(open - {k}, h);
      SumWithout(open - {h}, k);
      assert open - {k} - {h} == open - {h} - {k};
    }
  }

  lemma SumWith(open: map<Handle, nat>, h: Handle, bytes: nat)
    requires h !in open
    ensures Sum(open[h := bytes]) == Sum(open) + bytes
  {
    SumWithout(open[h := bytes], h);
    assert open[h := bytes] - {h} == open;
  }

  datatype Reserve = TooLarge | OverBudget | Reserved(handle: Handle, pressure: bool)

  class DeltaBudget {
    const soft: nat
    const hard: nat
    var charged: nat
    var reserved: nat
    var open: map<Handle, nat>
    var next: Handle

    /** Conservation: what is charged and what is promised never exceed the hard limit. */
    ghost predicate Valid()
      reads this
    {
      && charged + reserved <= hard && hard <= MAX64
      && reserved == Sum(open)
      && forall h <- open :: h < next
    }

    constructor (softLimit: nat, hardLimit: nat)
      requires hardLimit <= MAX64
      ensures Valid() && soft == softLimit && hard == hardLimit && charged == 0 && open == map[]
    {
      soft, hard, charged, reserved, open, next := softLimit, hardLimit, 0, 0, map[], 0;
    }

    /** `reserve`, with the 64-bit overflow of the product as an error. */
    method Reserve(entries: nat) returns (r: Reserve)
      requires Valid()
      modifies this
      ensures Valid() && charged == old(charged)
      ensures r.TooLarge? <==> entries * ENTRY_CHARGE > hard
      ensures r.Reserved? <==> old(charged + reserved) + entries * ENTRY_CHARGE <= hard
      ensures r.Reserved? ==> r.handle !in old(open) && open == old(open)[r.handle := entries * ENTRY_CHARGE]
      ensures r.Reserved? ==> reserved == old(reserved) + entries * ENTRY_CHARGE
      ensures r.Reserved? ==> (r.pressure <==> charged + reserved >= soft)
      ensures !r.Reserved? ==> open == old(open) && reserved == old(reserved)
    {
      if entries * ENTRY_CHARGE > MAX64 || entries * ENTRY_CHARGE > hard { return TooLarge; }
      var bytes := entries * ENTRY_CHARGE;
      if charged > hard || reserved > hard - charged || bytes > hard - charged - reserved { return OverBudget; }
      SumWith(open, next, bytes);
      reserved := reserved + bytes;
      open := open[next := bytes];
      r := Reserved(next, charged + reserved >= soft);
      next := next + 1;
    }

    /** `Release`: returns an open reservation; a second release does nothing. */
    method Release(h: Handle)
      requires Valid()
      modifies this
      ensures Valid() && charged == old(charged) && open == old(open) - {h}
    {
      if h !in open { return; }
      SumWithout(open, h);
      if open[h] <= reserved { reserved := reserved - open[h]; }
      open := open - {h};
    }

    /** `consume`: turns a reservation into a charge, at most once and never beyond it. */
    method Consume(h: Handle, entries: nat) returns (actual: Option<nat>)
      requires Valid()
      modifies this
      ensures Valid()
      ensures actual.Some? <==> h in old(open) && entries * ENTRY_CHARGE <= old(open)[h]
      ensures actual.Some? ==> actual.value == entries * ENTRY_CHARGE && charged == old(charged) + actual.value
      ensures actual.Some? ==> open == old(open) - {h}
      ensures actual.None? ==> charged == old(charged) && open == old(open)
    {
      if h in open { SumWithout(open, h); }
      if entries * ENTRY_CHARGE > MAX64 { return None; }
      var bytes := entries * ENTRY_CHARGE;
      if h !in open || bytes > open[h] { return None; }
      // neither of the two remaining corruption checks can fire
      if open[h] > reserved || charged > hard - bytes {
        assert false;
        return None;
      }
      reserved, charged := reserved - open[h], charged + bytes;
      open := open - {h};
      return Some(bytes);
    }

    /** The part of InstallCheckpoint that gives folded layers back. */
    method Discharge(bytes: nat) returns (ok: bool)
      requires Valid()
      modifies this`charged
      ensures Valid()
      ensures ok <==> bytes <= old(charged)
      ensures charged == if ok then old(charged) - bytes else old(charged)
    {
      if bytes > charged { return false; }
      charged := charged - bytes;
      return true;
    }
  }
}
