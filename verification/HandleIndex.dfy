/** The durable queue's index from handle to record number: open addressing with tombstones,
    its growth reserved before a record is journaled. */
module HandleIndex {
  import opened Sequences
  import opened Probing
  import opened HandleTable

  class Index {
    var slots: array<Cell<nat>>
    var live: nat
    var dead: nat
    var reserved: nat
    const home: (nat, nat) -> nat
    ghost var entries: map<nat, nat>

    /** The load counts live, vacated and reserved slots, and is at most a half. */
    ghost predicate Valid()
      reads this, slots
    {
      && (forall k, cap :: cap > 0 ==> home(k, cap) < cap)
      && Probed(slots[..], home) && Distinct(slots[..]) && Holds(slots[..], entries)
      && live == CountUsed(slots[..]) && dead == CountDead(slots[..])
      && (live + dead + reserved) * 2 <= slots.Length
    }

    constructor (home: (nat, nat) -> nat)
      requires forall k, cap :: cap > 0 ==> home(k, cap) < cap
      ensures Valid() && fresh(slots) && entries == map[] && reserved == 0 && this.home == home
    {
      slots := new Cell<nat>[0];
      live, dead, reserved := 0, 0, 0;
      this.home := home;
      entries := map[];
    }

    /** map_find: the record's number, if the handle is in the index. */
    method Find(h: nat) returns (r: Option<nat>)
      requires Valid()
      ensures r == if h in entries then Some(entries[h]) else None
    {
      if slots.Length == 0 { return None; }
      var i := Probe(h);
      return if slots[i].Used? then Some(slots[i].val) else None;
    }

    method Probe(h: nat) returns (i: nat)
      requires Valid() && slots.Length > 0
      ensures i < slots.Length && (slots[i].Used? <==> h in entries)
      ensures slots[i].Used? ==> slots[i].key == h && slots[i].val == entries[h]
      ensures !slots[i].Used? ==> forall p :: !At(slots[..], p, h)
    {
      ghost var c := slots[..];
      ghost var from := home(h, |c|);
      SomeFree(c);
      ghost var e :| 0 <= e < |c| && c[e].Free?;
      i := home(h, slots.Length);
      while !slots[i].Free? && !(slots[i].Used? && slots[i].key == h)
        invariant i < slots.Length && Passed(c, h, from, i)
        invariant OnPath(from, i, e) || i == e
        decreases Distance(i, e, |c|)
      {
        PassOne(c, h, from, i);
        i := Next(i, slots.Length);
      }
      if slots[i].Free? { SearchExact(c, home, h, i); }
    }

    /** The first slot on the way from a handle's own that holds no entry: free or vacated. */
    method Vacant(h: nat) returns (i: nat)
      requires Valid() && slots.Length > 0
      ensures i < slots.Length && !slots[i].Used? && Reach(slots[..], home(h, slots.Length), i)
    {
      ghost var c := slots[..];
      ghost var from := home(h, |c|);
      SomeFree(c);
      ghost var e :| 0 <= e < |c| && c[e].Free?;
      i := home(h, slots.Length);
      while slots[i].Used?
        invariant i < slots.Length && Reach(c, from, i)
        invariant OnPath(from, i, e) || i == e
        decreases Distance(i, e, |c|)
      {
        ReachOne(c, from, i);
        i := Next(i, slots.Length);
      }
    }

    /** map_put: uses a reservation. A handle is never put twice. */
    method Put(h: nat, seqno: nat)
      requires Valid() && reserved > 0 && h !in entries
      modifies this`live, this`dead, this`reserved, this`entries, slots
      ensures Valid() && entries == old(entries)[h := seqno] && reserved == old(reserved) - 1
      ensures live == old(live) + 1 && dead <= old(dead) && slots == old(slots)
    {
      hide Distinct, Holds, Probed, CountUsed, CountDead;
      var i := Vacant(h);
      ghost var c := slots[..];
      NotAt(c, entries, h);
      PutFree(c, home, entries, h, seqno, i);
      CountChange(c, i, Used(h, seqno));
      if slots[i].Dead? { dead := dead - 1; }
      slots[i] := Used(h, seqno);
      live := live + 1;
      reserved := reserved - 1;
      entries := entries[h := seqno];
      assert slots[..] == c[i := Used(h, seqno)];
    }

    /** map_del: the slot is vacated, and searches still pass through it. */
    method Delete(h: nat)
      requires Valid()
      modifies this`live, this`dead, this`entries, slots
      ensures Valid() && entries == old(entries) - {h}
    {
      hide Distinct, Holds, Probed, CountUsed, CountDead;
      if slots.Length == 0 {
        NothingHeld(slots[..], entries);
        return;
      }
      var i := Probe(h);
      if slots[i].Used? {
        ghost var c := slots[..];
        Bury(c, home, entries, i);
        CountChange(c, i, Dead);
        slots[i] := Dead;
        live := live - 1;
        dead := dead + 1;
        entries := entries - {h};
        assert slots[..] == c[i := Dead];
      }
    }

    /** map_unreserve. */
    method Release()
      requires Valid() && reserved > 0
      modifies this`reserved
      ensures Valid() && reserved == old(reserved) - 1
    {
      reserved := reserved - 1;
    }

    /** map_reserve: room for `extra` more entries, kept until used or released. The table is
        rebuilt when it would be more than half full, which drops the vacated slots. */
    method Reserve(extra: nat, memory: bool) returns (ok: bool)
      requires Valid()
      modifies this
      ensures Valid() && entries == old(entries)
      ensures ok ==> reserved == old(reserved) + extra && (slots == old(slots) || fresh(slots))
      ensures !ok ==> !memory && reserved == old(reserved) && slots == old(slots)
    {
      hide Distinct, Holds, Probed, CountUsed, CountDead;
      var need := live + reserved + extra;
      if (need + dead) * 2 <= slots.Length {
        reserved := reserved + extra;
        return true;
      }
      if !memory { return false; }
      var size := 16;
      while size < need * 4
        invariant size >= 16
        decreases need * 4 - size
      {
        size := size * 2;
      }
      Rehash(size, extra);
      return true;
    }

    method Rehash(size: nat, extra: nat)
      requires Valid() && size >= 16 && size >= (live + reserved + extra) * 4
      modifies this
      ensures Valid() && fresh(slots) && entries == old(entries) && reserved == old(reserved) + extra
    {
      hide Distinct, Holds, Probed, CountUsed, CountDead, Copied;
      var before, keep := slots, reserved + extra;
      ghost var m, c := entries, slots[..];
      slots := new Cell<nat>[size](_ => Free);
      reserved := live;
      live, dead := 0, 0;
      entries := map[];
      EmptyIndex(slots[..], home);
      CopiedNone(c, m);
      for i := 0 to before.Length
        invariant Valid() && fresh(slots) && slots != before && before[..] == c && slots.Length == size && dead == 0
        invariant live == CountUsed(c[..i]) && live + reserved == CountUsed(c) && Copied(c, i, entries, m)
      {
        CopiedOne(c, i, entries, m);
        FewerBefore(c, i + 1);
        if before[i].Used? { Put(before[i].key, before[i].val); }
      }
      assert c[..|c|] == c;
      CopiedAll(c, entries, m);
      reserved := keep;
    }
  }

  lemma ReachOne<V>(c: seq<Cell<V>>, from: nat, i: nat)
    requires from < |c| && i < |c| && Reach(c, from, i) && !c[i].Free? && Next(i, |c|) != from
    ensures Reach(c, from, Next(i, |c|))
  {
    forall q | 0 <= q < |c| && OnPath(from, q, Next(i, |c|)) ensures !c[q].Free? {
      assert q == i || OnPath(from, q, i);
    }
  }

  lemma NotAt<V>(c: seq<Cell<V>>, m: map<nat, V>, k: nat)
    requires Holds(c, m) && k !in m
    ensures forall p :: !At(c, p, k)
  {
  }

  lemma NothingHeld<V>(c: seq<Cell<V>>, m: map<nat, V>)
    requires Holds(c, m) && |c| == 0
    ensures m == map[]
  {
  }

  lemma Bury<V>(c: seq<Cell<V>>, home: (nat, nat) -> nat, m: map<nat, V>, i: nat)
    requires Probed(c, home) && Distinct(c) && Holds(c, m) && i < |c| && c[i].Used?
    ensures var c' := c[i := Dead]; Probed(c', home) && Distinct(c') && Holds(c', m - {c[i].key})
  {
    var c', m' := c[i := Dead], m - {c[i].key};
    forall p | 0 <= p < |c'| && c'[p].Used? ensures Reach(c', home(c'[p].key, |c'|), p) {
      assert Reach(c, home(c[p].key, |c|), p);
    }
    forall x | x in m' ensures exists p :: At(c', p, x) {
      var p :| At(c, p, x);
      assert At(c', p, x);
    }
  }

  lemma EmptyIndex<V>(c: seq<Cell<V>>, home: (nat, nat) -> nat)
    requires forall p :: 0 <= p < |c| ==> c[p].Free?
    ensures Probed(c, home) && Distinct(c) && Holds(c, map[]) && CountUsed(c) == 0 && CountDead(c) == 0
  {
    AllFree(c);
  }

  lemma {:induction false} FewerBefore<V>(c: seq<Cell<V>>, i: nat)
    requires i <= |c|
    ensures CountUsed(c[..i]) <= CountUsed(c)
    decreases |c|
  {
    if i == |c| {
      assert c[..i] == c;
    } else {
      FewerBefore(c[..|c| - 1], i);
      assert c[..|c| - 1][..i] == c[..i];
    }
  }
}
