/** The orchestrator's own state: its set of finished handles, an open-addressed array, and its
    gates, updated in place. */
module GateKeeper {
  import opened Sequences
  import opened Probing
  import opened HandleTable
  import opened HandleIndex
  import opened Gates

  /** The set of finished handles: never deleted from one by one, rebuilt at half load. */
  class DoneSet {
    var cells: array<Cell<()>>
    var n: nat
    const home: (nat, nat) -> nat
    ghost var entries: map<nat, ()>

    ghost predicate Valid()
      reads this, cells
    {
      && (forall k, cap :: cap > 0 ==> home(k, cap) < cap)
      && Probed(cells[..], home) && Probing.Distinct(cells[..]) && Holds(cells[..], entries) && NoneDead(cells[..])
      && n == CountUsed(cells[..]) && n * 2 <= cells.Length && n == |entries|
    }

    constructor (home: (nat, nat) -> nat)
      requires forall k, cap :: cap > 0 ==> home(k, cap) < cap
      ensures Valid() && fresh(cells) && entries == map[] && this.home == home
    {
      cells := new Cell<()>[0];
      n := 0;
      this.home := home;
      entries := map[];
    }

    /** done_slot: the slot holding the handle, or the first free one after its own. */
    method SlotOf(h: nat) returns (i: nat)
      requires Valid() && cells.Length > 0
      ensures i < cells.Length && (cells[i].Used? <==> h in entries)
      ensures cells[i].Used? ==> cells[i].key == h
      ensures !cells[i].Used? ==> cells[i].Free? && Reach(cells[..], home(h, cells.Length), i) && forall p :: !At(cells[..], p, h)
    {
      ghost var c := cells[..];
      ghost var from := home(h, |c|);
      NoDead(c);
      SomeFree(c);
      ghost var e :| 0 <= e < |c| && c[e].Free?;
      i := home(h, cells.Length);
      while !cells[i].Free? && !(cells[i].Used? && cells[i].key == h)
        invariant i < cells.Length && Passed(c, h, from, i)
        invariant OnPath(from, i, e) || i == e
        decreases Distance(i, e, |c|)
      {
        PassOne(c, h, from, i);
        i := Next(i, cells.Length);
      }
      if cells[i].Free? { SearchExact(c, home, h, i); }
    }

    method Has(h: nat) returns (b: bool)
      requires Valid()
      ensures b <==> h in entries
    {
      if cells.Length == 0 {
        NothingHeld(cells[..], entries);
        return false;
      }
      var i := SlotOf(h);
      return cells[i].Used?;
    }

    /** A handle that is not in the set, where there is room for it. */
    method Put(h: nat)
      requires Valid() && h !in entries && cells.Length > 0 && (n + 1) * 2 <= cells.Length
      modifies this`n, this`entries, cells
      ensures Valid() && entries == old(entries)[h := ()] && n == old(n) + 1 && cells == old(cells)
    {
      hide Probing.Distinct, Holds, Probed, CountUsed;
      var i := SlotOf(h);
      ghost var c := cells[..];
      PutFree(c, home, entries, h, (), i);
      CountChange(c, i, Used(h, ()));
      cells[i] := Used(h, ());
      n := n + 1;
      entries := entries[h := ()];
      assert cells[..] == c[i := Used(h, ())];
      assert entries.Keys == old(entries).Keys + {h};
    }

    /** done_grow. */
    method Grow()
      requires Valid()
      modifies this
      ensures Valid() && fresh(cells) && entries == old(entries)
      ensures cells.Length == if old(cells.Length) == 0 then 32 else old(cells.Length) * 2
    {
      hide Probing.Distinct, Holds, Probed, CountUsed, Copied;
      var before := cells;
      ghost var m, c := entries, cells[..];
      cells := new Cell<()>[if before.Length == 0 then 32 else before.Length * 2](_ => Free);
      n := 0;
      entries := map[];
      EmptyTable(cells[..], home);
      CopiedNone(c, m);
      for i := 0 to before.Length
        invariant Valid() && fresh(cells) && cells != before && before[..] == c
        invariant cells.Length == if |c| == 0 then 32 else |c| * 2
        invariant n == CountUsed(c[..i]) && n <= i && Copied(c, i, entries, m)
      {
        CopiedOne(c, i, entries, m);
        if before[i].Used? {
          assert before[i].val == ();
          Put(before[i].key);
        }
      }
      assert c[..|c|] == c;
      CopiedAll(c, entries, m);
    }

    /** What mark_done does with a handle it has not seen; false if it cannot be remembered. */
    method Remember(h: nat, memory: bool) returns (ok: bool)
      requires Valid() && h !in entries
      modifies this, cells
      ensures Valid() && (cells == old(cells) || fresh(cells))
      ensures entries == if ok then old(entries)[h := ()] else old(entries)
      ensures memory ==> ok
    {
      hide Probing.Distinct, Holds, Probed, CountUsed;
      if (n + 1) * 2 > cells.Length {
        if !memory { return false; }
        Grow();
      }
      Put(h);
      return true;
    }

    /** orch_prune_locked: forgets every handle, and keeps the array. */
    method Clear()
      requires Valid()
      modifies this`n, this`entries, cells
      ensures Valid() && entries == map[] && cells == old(cells)
    {
      for i := 0 to cells.Length
        invariant forall p :: 0 <= p < i ==> cells[p].Free?
      {
        cells[i] := Free;
      }
      EmptyTable(cells[..], home);
      n := 0;
      entries := map[];
    }
  }

  /** The orchestrator. */
  class Orchestrator {
    const done: DoneSet
    const cap: nat
    var gates: seq<Gate>
    ghost var outs: seq<set<nat>>
    ghost var ended: set<nat>

    ghost function View(): Hall
      reads this, done
    {
      Hall(done.entries.Keys, cap, gates, outs, ended)
    }

    ghost predicate Valid()
      reads this, done, done.cells
    {
      done.Valid() && Gates.Ok(View())
    }

    constructor (home: (nat, nat) -> nat, cap: nat)
      requires forall k, c :: c > 0 ==> home(k, c) < c
      ensures Valid() && View() == Empty(cap) && fresh(done) && fresh(done.cells)
    {
      done := new DoneSet(home);
      this.cap := cap;
      gates, outs, ended := [], [], {};
    }

    /** mark_done: the handle remembered if it can be, the set emptied first if it is full.
        True if the handle is new to it. */
    method Mark(h: nat, memory: bool) returns (newly: bool, kept: bool)
      requires done.Valid()
      modifies done, done.cells
      ensures done.Valid() && (done.cells == old(done.cells) || fresh(done.cells))
      ensures var keys := Pruned(old(View())); newly == (h !in keys) && done.entries.Keys == (if newly && kept then keys + {h} else keys)
      ensures memory ==> kept
    {
      hide Probing.Distinct, Holds, Probed, CountUsed;
      assert |done.entries.Keys| == |done.entries|;
      if cap > 0 && done.n >= cap { done.Clear(); }
      ghost var keys := done.entries.Keys;
      kept := true;
      var known := done.Has(h);
      newly := !known;
      if newly {
        kept := done.Remember(h, memory);
        assert done.entries.Keys == if kept then keys + {h} else keys;
      }
    }

    /** orch_obs, for a terminal event: the handle remembered, every gate it was holding back
        counted down, and each gate with nothing left to wait for offered to the engine. */
    method OnTerminal(h: nat, memory: bool, reply: nat -> Reply) returns (kept: bool)
      requires done.Valid()
      modifies this, done, done.cells
      ensures done.Valid() && (done.cells == old(done.cells) || fresh(done.cells))
      ensures View() == Ended(old(View()), h, kept, reply) && (memory ==> kept)
      ensures old(Valid()) && h !in old(ended) ==> Valid()
    {
      hide Probing.Distinct, Holds, Probed, CountUsed, Gates.Ok, Advance, Pruned, NoneDead, AdvanceAll, Without;
      ghost var hall := View();
      if h == 0 { return true; }
      var newly;
      newly, kept := Mark(h, memory);
      if Gates.Ok(hall) && h !in hall.ended { EndedOk(hall, h, kept, reply); }
      if newly {
        CountDown(h, reply);
        outs := Without(outs, h);
      }
      ended := ended + {h};
    }

    /** The loop over the gates. */
    method CountDown(h: nat, reply: nat -> Reply)
      modifies this`gates
      ensures gates == AdvanceAll(old(gates), h, reply)
    {
      ghost var before := gates;
      for i := 0 to |gates|
        invariant |gates| == |before|
        invariant forall k :: 0 <= k < i ==> gates[k] == Advance(before[k], h, reply(k))
        invariant forall k :: i <= k < |before| ==> gates[k] == before[k]
      {
        var g := gates[i];
        if !g.released {
          var holds := Names(g.deps, h);
          if holds && g.remaining > 0 { g := g.(remaining := g.remaining - 1); }
          if g.remaining == 0 { g := Release(g, reply(i)); }
          gates := gates[i := g];
        }
      }
    }

    static method Names(deps: seq<nat>, h: nat) returns (b: bool)
      ensures b <==> h in deps
    {
      for j := 0 to |deps|
        invariant h !in deps[..j]
      {
        if deps[j] == h { return true; }
      }
      return false;
    }

    /** gptps_orch_after: held if it still has something to wait for. */
    method HoldAfter(deps: seq<nat>) returns (held: bool)
      requires done.Valid()
      modifies this
      ensures done.Valid() && View() == After(old(View()), deps)
      ensures old(Valid()) && Gates.Distinct(deps) ==> Valid()
      ensures held <==> 0 !in deps && exists d :: d in deps && d !in done.entries
    {
      hide Probing.Distinct, Holds, Probed, CountUsed, GateOk;
      ghost var hall := View();
      if Gates.Ok(hall) && Gates.Distinct(deps) { AfterOk(hall, deps); }
      MissingSome(deps, done.entries.Keys);
      var zero := Names(deps, 0);
      if zero { return false; }
      var remaining := 0;
      for i := 0 to |deps|
        invariant remaining == CountMissing(deps[..i], done.entries.Keys) && View() == hall && done.Valid()
      {
        assert deps[..i + 1][..i] == deps[..i];
        var known := done.Has(deps[i]);
        if !known { remaining := remaining + 1; }
      }
      assert deps[..|deps|] == deps;
      held := remaining > 0;
      if held {
        gates := gates + [Gate(deps, remaining, false, false, 0, 0)];
        outs := outs + [Members(deps) - done.entries.Keys];
      }
    }

    /** gptps_orch_retry: every gate given up on is armed again and offered at once. */
    method RetryAll(reply: nat -> Reply)
      requires Valid()
      modifies this`gates
      ensures Valid() && View() == Retry(old(View()), reply)
    {
      hide Probing.Distinct, Holds, Probed, CountUsed, GateOk;
      ghost var hall, before := View(), gates;
      RetryOk(hall, reply);
      for i := 0 to |gates|
        invariant |gates| == |before|
        invariant forall k :: 0 <= k < i ==> gates[k] == Rearm(before[k], reply(k))
        invariant forall k :: i <= k < |before| ==> gates[k] == before[k]
      {
        if gates[i].abandoned {
          gates := gates[i := Release(gates[i].(released := false, abandoned := false, attempts := 0), reply(i))];
        }
      }
      assert gates == Retry(hall, reply).gates;
    }

    method ForgetAll()
      requires Valid()
      modifies done, done.cells
      ensures Valid() && View() == Prune(old(View()))
    {
      hide Probing.Distinct, Holds, Probed, CountUsed, GateOk;
      ghost var hall := View();
      PruneOk(hall);
      done.Clear();
      assert View() == Prune(hall);
    }
  }

  lemma {:induction false} MissingSome(deps: seq<nat>, done: set<nat>)
    ensures CountMissing(deps, done) > 0 <==> exists d :: d in deps && d !in done
    decreases |deps|
  {
    if |deps| > 0 {
      Snoc(deps);
      MissingSome(deps[..|deps| - 1], done);
      if deps[|deps| - 1] !in done { assert deps[|deps| - 1] in deps; }
    }
  }
}
