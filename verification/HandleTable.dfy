/** The statistics' handle table and the router's hash maps: open addressing with deletion by
    shifting back, refining a finite map. */
module HandleTable {
  import opened Sequences
  import opened Probing

  class Table<V(0)> {
    var cells: array<Cell<V>>
    var n: nat
    const home: (nat, nat) -> nat   // a handle's first slot in a table of a given size
    ghost var entries: map<nat, V>

    ghost predicate Valid()
      reads this, cells
    {
      && (forall k, cap :: cap > 0 ==> home(k, cap) < cap)
      && Probed(cells[..], home) && Distinct(cells[..]) && Holds(cells[..], entries)
      && NoneDead(cells[..])
      && n == CountUsed(cells[..])
      && n * 4 <= cells.Length * 3
    }

    constructor (home: (nat, nat) -> nat)
      requires forall k, cap :: cap > 0 ==> home(k, cap) < cap
      ensures Valid() && fresh(cells) && entries == map[] && this.home == home
    {
      cells := new Cell<V>[0];
      n := 0;
      this.home := home;
      entries := map[];
    }

    /** There is always a slot no entry has used, so every search ends. */
    lemma Room()
      requires Valid() && cells.Length > 0
      ensures HasFree(cells[..])
    {
      NoDead(cells[..]);
      SomeFree(cells[..]);
    }

    /** Where a search for `k` stops: at its entry, or at a free slot. */
    method Probe(k: nat) returns (i: nat)
      requires Valid() && cells.Length > 0
      ensures i < cells.Length && (cells[i].Used? <==> k in entries)
      ensures cells[i].Used? ==> cells[i].key == k && cells[i].val == entries[k]
      ensures !cells[i].Used? ==> cells[i].Free? && Reach(cells[..], home(k, cells.Length), i) && forall p :: !At(cells[..], p, k)
    {
      ghost var c := cells[..];
      ghost var from := home(k, |c|);
      Room();
      ghost var e :| 0 <= e < |c| && c[e].Free?;
      i := home(k, cells.Length);
      while !cells[i].Free? && !(cells[i].Used? && cells[i].key == k)
        invariant i < cells.Length && Passed(c, k, from, i)
        invariant OnPath(from, i, e) || i == e
        decreases Distance(i, e, |c|)
      {
        PassOne(c, k, from, i);
        i := Next(i, cells.Length);
      }
      if cells[i].Free? { SearchExact(c, home, k, i); }
    }

    method Get(k: nat) returns (r: Option<V>)
      requires Valid()
      ensures r == if k in entries then Some(entries[k]) else None
    {
      if cells.Length == 0 { return None; }
      var i := Probe(k);
      return if cells[i].Used? then Some(cells[i].val) else None;
    }

    /** Doubles the table and puts every entry in its place again. */
    method Grow()
      requires Valid()
      modifies this
      ensures Valid() && fresh(cells) && entries == old(entries) && n == old(n)
      ensures cells.Length == if old(cells.Length) == 0 then 64 else old(cells.Length) * 2
    {
      hide Distinct, Holds, Probed, CountUsed, Copied;
      var old_cells := cells;
      ghost var m := entries;
      cells := new Cell<V>[if old_cells.Length == 0 then 64 else old_cells.Length * 2](_ => Free);
      n := 0;
      entries := map[];
      EmptyTable(cells[..], home);
      ghost var c := old_cells[..];
      CopiedNone(c, m);
      for i := 0 to old_cells.Length
        invariant Valid() && fresh(cells) && cells != old_cells && old_cells[..] == c
        invariant cells.Length == if |c| == 0 then 64 else |c| * 2
        invariant n == CountUsed(c[..i]) && n <= i && Copied(c, i, entries, m)
      {
        CopiedOne(c, i, entries, m);
        if old_cells[i].Used? { PutNew(old_cells[i].key, old_cells[i].val); }
      }
      assert c[..|c|] == c;
      CopiedAll(c, entries, m);
    }

    /** An entry for a handle that has none, where there is room for it. */
    method PutNew(k: nat, v: V)
      requires Valid() && k !in entries && cells.Length > 0 && (n + 1) * 4 <= cells.Length * 3
      modifies this`n, this`entries, cells
      ensures Valid() && entries == old(entries)[k := v] && n == old(n) + 1 && cells == old(cells)
    {
      hide Distinct, Holds, Probed, CountUsed;
      var i := Probe(k);
      PutFree(cells[..], home, entries, k, v, i);
      CountChange(cells[..], i, Used(k, v));
      ghost var c := cells[..];
      cells[i] := Used(k, v);
      n := n + 1;
      entries := entries[k := v];
      assert cells[..] == c[i := Used(k, v)];
    }

    /** Writes through the slot of an entry that is there. */
    method Update(k: nat, v: V)
      requires Valid() && k in entries
      modifies this`entries, cells
      ensures Valid() && entries == old(entries)[k := v] && cells == old(cells)
    {
      hide Distinct, Probed, CountUsed;
      var i := Probe(k);
      Overwrite(cells[..], home, entries, i, v);
      CountChange(cells[..], i, Used(k, v));
      ghost var c := cells[..];
      cells[i] := Used(k, v);
      entries := entries[k := v];
      assert cells[..] == c[i := Used(k, v)];
    }

    /** hm_put: sets the entry, growing the table first if it would be more than three
        quarters full. `memory`: whether it could be had. */
    method Put(k: nat, v: V, memory: bool) returns (ok: bool)
      requires Valid()
      modifies this, cells
      ensures Valid() && (cells == old(cells) || fresh(cells))
      ensures ok ==> entries == old(entries)[k := v]
      ensures !ok ==> !memory && (n + 1) * 4 > cells.Length * 3 && entries == old(entries)
    {
      hide Distinct, Holds, Probed, CountUsed;
      if (n + 1) * 4 > cells.Length * 3 {
        if !memory { return false; }
        Grow();
      }
      var i := Probe(k);
      if cells[i].Used? { Update(k, v); } else { PutNew(k, v); }
      return true;
    }

    /** Shifts back every entry that the hole would cut off from its search, and frees the
        slot the hole ends up in. */
    method CloseHole(hole: nat, ghost e: nat, ghost m: map<nat, V>)
      requires hole < cells.Length && Shifting(cells[..][hole := Free], home, hole, hole, e)
      requires Distinct(cells[..][hole := Free]) && Holds(cells[..][hole := Free], m) && NoneDead(cells[..])
      modifies cells
      ensures Probed(cells[..], home) && Distinct(cells[..]) && Holds(cells[..], m) && NoneDead(cells[..])
      ensures CountUsed(cells[..]) == CountUsed(old(cells[..])[hole := Free])
    {
      hide Lies, Distinct, Holds, Probed, CountUsed, Rank, Next, MayMove;
      var cap, i: nat, j: nat := cells.Length, hole, hole;
      ghost var c := cells[..][hole := Free];
      while true
        invariant cap == cells.Length && i < cap && c == cells[..][i := Free]
        invariant Shifting(c, home, i, j, e) && Distinct(c) && Holds(c, m) && NoneDead(c)
        invariant CountUsed(c) == CountUsed(old(cells[..])[hole := Free])
        decreases cap - Rank(j, e, cap)
      {
        RankNext(j, e, cap);
        var j' := Next(j, cap);
        assert j' != i && c[j'] == cells[j'];
        if cells[j'].Free? { break; }
        if MayMove(i, j', home(cells[j'].key, cap)) {
          MoveEntry(c, home, i, j, e);
          Moved(c, m, i, j');
          cells[i] := cells[j'];
          c := c[i := c[j']][j' := Free];
          assert c == cells[..][j' := Free];
          i := j';
        } else {
          PassEntry(c, home, i, j, e);
        }
        j := j';
      }
      ShiftDone(c, home, i, j, e);
      cells[i] := Free;
      assert cells[..] == c;
    }

    /** tab_del, hm_del. */
    method Delete(k: nat)
      requires Valid()
      modifies this`n, this`entries, cells
      ensures Valid() && entries == old(entries) - {k} && cells == old(cells)
    {
      if cells.Length == 0 { return; }
      var i := Probe(k);
      if !cells[i].Used? { return; }
      hide Shifting, Distinct, Holds, Probed, CountUsed;
      ghost var m := entries - {k};
      Room();
      ghost var e :| 0 <= e < cells.Length && cells[e].Free?;
      Vacate(cells[..], home, i, e);
      TakeOut(cells[..], entries, i);
      CountChange(cells[..], i, Free);
      CloseHole(i, e, m);
      n := n - 1;
      entries := m;
    }
  }

  ghost predicate NoneDead<V>(c: seq<Cell<V>>) {
    forall p :: 0 <= p < |c| ==> !c[p].Dead?
  }

  lemma EmptyTable<V>(c: seq<Cell<V>>, home: (nat, nat) -> nat)
    requires forall p :: 0 <= p < |c| ==> c[p].Free?
    ensures Probed(c, home) && Distinct(c) && Holds(c, map[]) && NoneDead(c) && CountUsed(c) == 0
  {
    AllFree(c);
  }

  /** The entries of the first `i` slots. */
  ghost predicate Copied<V>(c: seq<Cell<V>>, i: nat, got: map<nat, V>, m: map<nat, V>) {
    && (forall k :: k in got ==> k in m && got[k] == m[k] && Among(c, i, k))
    && (forall k :: Among(c, i, k) ==> k in got)
  }

  ghost predicate Among<V>(c: seq<Cell<V>>, i: nat, k: nat) {
    exists p :: 0 <= p < i && At(c, p, k)
  }

  lemma CopiedNone<V>(c: seq<Cell<V>>, m: map<nat, V>)
    ensures Copied(c, 0, map[], m) && CountUsed(c[..0]) == 0
  {
  }

  lemma CopiedOne<V>(c: seq<Cell<V>>, i: nat, got: map<nat, V>, m: map<nat, V>)
    requires i < |c| && Distinct(c) && Holds(c, m) && Copied(c, i, got, m)
    ensures !c[i].Used? ==> Copied(c, i + 1, got, m)
    ensures c[i].Used? ==> c[i].key !in got && Copied(c, i + 1, got[c[i].key := c[i].val], m)
    ensures CountUsed(c[..i + 1]) == CountUsed(c[..i]) + if c[i].Used? then 1 else 0
  {
    assert c[..i + 1][..i] == c[..i];
    forall k | Among(c, i + 1, k) ensures Among(c, i, k) || (c[i].Used? && k == c[i].key) {
      var p :| 0 <= p < i + 1 && At(c, p, k);
    }
    forall k | Among(c, i, k) ensures Among(c, i + 1, k) && !(c[i].Used? && k == c[i].key) {
      var p :| 0 <= p < i && At(c, p, k);
      assert p < i + 1;
    }
    if c[i].Used? { assert At(c, i, c[i].key); }
  }

  lemma CopiedAll<V>(c: seq<Cell<V>>, got: map<nat, V>, m: map<nat, V>)
    requires Holds(c, m) && Copied(c, |c|, got, m)
    ensures got == m
  {
    forall k | k in m ensures k in got {
      var p :| At(c, p, k);
      assert Among(c, |c|, k);
    }
  }

  lemma {:induction false} NoDead<V>(c: seq<Cell<V>>)
    requires NoneDead(c)
    ensures CountDead(c) == 0
    decreases |c|
  {
    if |c| > 0 { NoDead(c[..|c| - 1]); }
  }
}
