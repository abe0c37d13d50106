/** The durable queue's own state, updated in place: its record table, its list of waiters, its
    journal. Each method is what one thread does under the locks it holds. */
module DurableQueue {
  import opened RecordTable
  import opened Disk
  import opened GroupCommit
  import opened GroupCommitInv
  import opened CommitMarkers
  import opened CommitTheorems

  // ---- the waiters ----

  /** What a waiter waits for: a 'P', a 'D', or a cut. */
  datatype Waits = ForP | ForD | ForCut

  /** A dq_waiter, on the stack of the call it belongs to. */
  datatype Waiter = Waiter(ticket: nat, call: nat, first: nat, last: nat, what: Waits, state: Settled)

  function WaitsOf(c: Call): Waits {
    if c.wrote == CutBack then ForCut else if c.kind == Submit then ForP else ForD
  }

  /** The waiter is its call's. */
  predicate Speaks(w: Waiter, calls: seq<Call>) {
    w.call < |calls| && var c := calls[w.call];
    c.phase == InFlight && c.wrote != Nothing && w.first == c.first && w.last == c.last && w.state == c.settled && w.what == WaitsOf(c)
  }

  ghost predicate Heard(waiters: seq<Waiter>, c: nat) {
    exists w :: w in waiters && w.call == c
  }

  /** The list holds exactly the calls that have something to wait for, newest first. */
  ghost predicate Linked(waiters: seq<Waiter>, tickets: nat, calls: seq<Call>) {
    && (forall i :: 0 <= i < |waiters| ==> Speaks(waiters[i], calls) && waiters[i].ticket <= tickets)
    && (forall i, j :: 0 <= i < j < |waiters| ==> waiters[i].ticket > waiters[j].ticket && waiters[i].call > waiters[j].call)
    && (forall c :: 0 <= c < |calls| && calls[c].phase == InFlight && calls[c].wrote != Nothing ==> Heard(waiters, c))
  }

  /** The ticket a running fsync goes up to draws the line where its calls do. */
  ghost predicate Lined(waiters: seq<Waiter>, upto: nat, ticket: nat) {
    forall i :: 0 <= i < |waiters| ==> (waiters[i].ticket <= ticket <==> waiters[i].call < upto)
  }

  lemma WaiterOf(waiters: seq<Waiter>, tickets: nat, calls: seq<Call>, c: nat) returns (i: nat)
    requires Linked(waiters, tickets, calls) && c < |calls| && calls[c].phase == InFlight && calls[c].wrote != Nothing
    ensures i < |waiters| && waiters[i].call == c && Speaks(waiters[i], calls)
  {
    assert Heard(waiters, c);
    var w :| w in waiters && w.call == c;
    i :| 0 <= i < |waiters| && waiters[i] == w;
  }

  /** any_waiting. */
  method SomeWaiting(waiters: seq<Waiter>, ghost tickets: nat, ghost calls: seq<Call>) returns (b: bool)
    requires Linked(waiters, tickets, calls)
    ensures b <==> AnyWaiting(calls)
  {
    for i := 0 to |waiters|
      invariant forall k :: 0 <= k < i ==> waiters[k].state != Waiting
    {
      if waiters[i].state == Waiting {
        assert Speaks(waiters[i], calls) && WaitingNow(calls[waiters[i].call]);
        return true;
      }
    }
    forall c | 0 <= c < |calls| ensures !WaitingNow(calls[c]) {
      if calls[c].phase == InFlight && calls[c].wrote != Nothing {
        var i := WaiterOf(waiters, tickets, calls, c);
      }
    }
    return false;
  }

  /** settle: every waiter up to the ticket that still waits has ended so. */
  method SettleAll(waiters: seq<Waiter>, ticket: nat, how: Settled, ghost tickets: nat, ghost calls: seq<Call>, ghost upto: nat)
    returns (ws: seq<Waiter>)
    requires Linked(waiters, tickets, calls) && Lined(waiters, upto, ticket)
    ensures Linked(ws, tickets, Settle(calls, upto, how)) && |ws| == |waiters|
    ensures forall i :: 0 <= i < |ws| ==> ws[i].ticket == waiters[i].ticket && ws[i].call == waiters[i].call
  {
    hide Linked, Lined, Settle;
    ws := waiters;
    for i := 0 to |waiters|
      invariant |ws| == |waiters|
      invariant forall k :: 0 <= k < i ==> ws[k] == SettledOne(waiters[k], ticket, how)
      invariant forall k :: i <= k < |waiters| ==> ws[k] == waiters[k]
    {
      if ws[i].state == Waiting && ws[i].ticket <= ticket { ws := ws[i := ws[i].(state := how)]; }
    }
    SettledLinked(waiters, ws, tickets, calls, upto, ticket, how);
  }

  function SettledOne(w: Waiter, ticket: nat, how: Settled): Waiter {
    if w.state == Waiting && w.ticket <= ticket then w.(state := how) else w
  }

  lemma SettledLinked(waiters: seq<Waiter>, ws: seq<Waiter>, tickets: nat, calls: seq<Call>, upto: nat, ticket: nat, how: Settled)
    requires Linked(waiters, tickets, calls) && Lined(waiters, upto, ticket)
    requires |ws| == |waiters| && forall k :: 0 <= k < |ws| ==> ws[k] == SettledOne(waiters[k], ticket, how)
    ensures Linked(ws, tickets, Settle(calls, upto, how))
  {
    var calls' := Settle(calls, upto, how);
    forall i | 0 <= i < |ws| ensures Speaks(ws[i], calls') { assert Speaks(waiters[i], calls); }
    forall c | 0 <= c < |calls'| && calls'[c].phase == InFlight && calls'[c].wrote != Nothing ensures Heard(ws, c) {
      var i := WaiterOf(waiters, tickets, calls, c);
      assert ws[i] in ws && ws[i].call == c;
    }
  }

  /** waiter_state, as do_rewrite uses it: some write of the kind for the record became durable. */
  method DurableFor(waiters: seq<Waiter>, seqno: nat, what: Waits) returns (b: bool)
    ensures b <==> exists w :: w in waiters && w.first <= seqno <= w.last && w.what == what && w.state == Durable
  {
    for i := 0 to |waiters|
      invariant forall k :: 0 <= k < i ==> !(waiters[k].first <= seqno <= waiters[k].last && waiters[k].what == what && waiters[k].state == Durable)
    {
      var w := waiters[i];
      if w.first <= seqno <= w.last && w.what == what && w.state == Durable { return true; }
    }
    return false;
  }

  /** The record's number finds the waiters of its own calls, and no others: so what the loop asks
      of the list is whether the compaction keeps the record. */
  lemma KeptByWaiters(s: State, waiters: seq<Waiter>, tickets: nat, i: nat)
    requires Inv(s) && Linked(waiters, tickets, s.calls) && i < |s.recs| && !s.recs[i].row.done
    ensures var t := s.recs[i];
            Kept(s.calls, t) <==>
              && (t.committing ==> exists w :: w in waiters && w.first <= t.row.seqno <= w.last && w.what == ForP && w.state == Durable)
              && (t.retracting > 0 ==> !exists w :: w in waiters && w.first <= t.row.seqno <= w.last && w.what == ForD && w.state == Durable)
  {
    hide Inv, Linked;
    var t := s.recs[i];
    RecAt(s, i);
    if t.committing { SubmitWaiter(s, waiters, tickets, i); }
    if t.retracting > 0 { RetractWaiter(s, waiters, tickets, i); } else { NoRetraction(s.calls, t); }
    hide RecOk;
  }

  lemma SubmitWaiter(s: State, waiters: seq<Waiter>, tickets: nat, i: nat)
    requires Inv(s) && Linked(waiters, tickets, s.calls) && i < |s.recs| && s.recs[i].committing
    ensures var t := s.recs[i];
            1 <= t.tag <= |s.calls| &&
            (MadeDurable(s.calls[t.tag - 1]) <==>
              exists w :: w in waiters && w.first <= t.row.seqno <= w.last && w.what == ForP && w.state == Durable)
  {
    hide Inv;
    var t := s.recs[i];
    RecAt(s, i);
    var c := t.tag - 1;
    if MadeDurable(s.calls[c]) {
      var k := WaiterOf(waiters, tickets, s.calls, c);
      assert waiters[k] in waiters;
    }
    forall w | w in waiters && w.first <= t.row.seqno <= w.last && w.what == ForP && w.state == Durable ensures MadeDurable(s.calls[c]) {
      var k :| 0 <= k < |waiters| && waiters[k] == w;
      assert Speaks(w, s.calls);
      OneSubmit(s, w.call, i);
    }
  }

  /** A submit in flight whose numbers include the record's is the record's own. */
  lemma OneSubmit(s: State, c: nat, i: nat)
    requires Inv(s) && c < |s.calls| && s.calls[c].kind == Submit && s.calls[c].phase == InFlight
    requires i < |s.recs| && s.calls[c].first <= s.recs[i].row.seqno <= s.calls[c].last
    ensures s.recs[i].tag == c + 1
  {
    hide FilesOk, SyncShape, WaitOk, CrashOk, RecsOk, AckOk;
    assert CallOk(s.calls, s.recs, s.nextSeq, c);
    assert Submitted(s.recs, c, s.recs[i].row.seqno);
    var k :| 0 <= k < |s.recs| && s.recs[k].tag == c + 1 && s.recs[k].row.seqno == s.recs[i].row.seqno;
    Numbered(s, i);
  }

  lemma RetractWaiter(s: State, waiters: seq<Waiter>, tickets: nat, i: nat)
    requires Inv(s) && Linked(waiters, tickets, s.calls) && i < |s.recs|
    ensures var t := s.recs[i];
            RetractedDurably(s.calls, t) <==>
              exists w :: w in waiters && w.first <= t.row.seqno <= w.last && w.what == ForD && w.state == Durable
  {
    hide Inv;
    var t := s.recs[i];
    if RetractedDurably(s.calls, t) {
      var c :| 0 <= c < |s.calls| && s.calls[c].phase == InFlight && Retracts(s.calls[c], t.tag, t.row.seqno) && MadeDurable(s.calls[c]);
      RetractionShape(s, c);
      var k := WaiterOf(waiters, tickets, s.calls, c);
      assert waiters[k] in waiters;
    }
    forall w | w in waiters && w.first <= t.row.seqno <= w.last && w.what == ForD && w.state == Durable ensures RetractedDurably(s.calls, t) {
      var k :| 0 <= k < |waiters| && waiters[k] == w;
      assert Speaks(w, s.calls);
      RetractionShape(s, w.call);
      assert s.calls[w.call].target == t.tag;
      assert Retracts(s.calls[w.call], t.tag, t.row.seqno);
    }
  }

  /** A retraction in flight is of one record, and the table has no other under its number. */
  lemma RetractionShape(s: State, c: nat)
    requires Inv(s) && c < |s.calls| && s.calls[c].kind == Cancel && s.calls[c].phase == InFlight
    ensures s.calls[c].first == s.calls[c].last
    ensures forall i :: 0 <= i < |s.recs| && s.recs[i].row.seqno == s.calls[c].first ==> s.recs[i].tag == s.calls[c].target
  {
    hide FilesOk, SyncShape, WaitOk, CrashOk, RecsOk, AckOk, HasRec, DurablyRetracted;
    assert CallOk(s.calls, s.recs, s.nextSeq, c);
  }

  // ---- a batch as its submit ends ----

  /** The batch's records below number `q`, as their submit ends. */
  function EndedBelow(recs: seq<Live>, tag: nat, ok: bool, q: nat): (ts: seq<Live>)
    ensures |ts| == |recs|
    ensures forall i :: 0 <= i < |recs| ==>
      ts[i] == if recs[i].tag == tag && recs[i].committing && recs[i].row.seqno < q
               then recs[i].(committing := false, row := recs[i].row.(done := recs[i].row.done || !ok)) else recs[i]
  {
    seq(|recs|, i requires 0 <= i < |recs| =>
      if recs[i].tag == tag && recs[i].committing && recs[i].row.seqno < q
      then recs[i].(committing := false, row := recs[i].row.(done := recs[i].row.done || !ok)) else recs[i])
  }

  function CountBelow(recs: seq<Live>, tag: nat, q: nat): nat {
    if |recs| == 0 then 0
    else
      var t := recs[|recs| - 1];
      CountBelow(recs[..|recs| - 1], tag, q) + if t.tag == tag && t.committing && t.row.seqno < q then 1 else 0
  }

  /** One number further: exactly one record more. */
  lemma {:induction false} CountNext(recs: seq<Live>, tag: nat, q: nat, i: nat)
    requires i < |recs| && recs[i].tag == tag && recs[i].committing && recs[i].row.seqno == q
    requires forall k :: 0 <= k < |recs| && k != i ==> recs[k].row.seqno != q
    ensures CountBelow(recs, tag, q + 1) == CountBelow(recs, tag, q) + 1
    decreases |recs|
  {
    var n := |recs| - 1;
    if i == n {
      CountNone(recs[..n], tag, q);
    } else {
      CountNext(recs[..n], tag, q, i);
    }
  }

  lemma {:induction false} CountNone(recs: seq<Live>, tag: nat, q: nat)
    requires forall k :: 0 <= k < |recs| ==> recs[k].row.seqno != q
    ensures CountBelow(recs, tag, q + 1) == CountBelow(recs, tag, q)
    decreases |recs|
  {
    if |recs| > 0 { CountNone(recs[..|recs| - 1], tag, q); }
  }

  lemma {:induction false} CountEnds(recs: seq<Live>, tag: nat, first: nat, last: nat)
    requires forall k :: 0 <= k < |recs| && recs[k].tag == tag ==> first <= recs[k].row.seqno <= last
    ensures CountBelow(recs, tag, first) == 0 && CountBelow(recs, tag, last + 1) == CountCommitting(recs, tag)
    decreases |recs|
  {
    if |recs| > 0 { CountEnds(recs[..|recs| - 1], tag, first, last); }
  }

  /** The records of a submit in flight: one for each of its numbers, and no others. */
  lemma BatchIs(s: State, c: nat, q: nat) returns (i: nat)
    requires Inv(s) && c < |s.calls| && s.calls[c].kind == Submit && s.calls[c].phase == InFlight && s.calls[c].first <= q <= s.calls[c].last
    ensures i < |s.recs| && s.recs[i].tag == c + 1 && s.recs[i].committing && s.recs[i].row.seqno == q && i == Find(Rows(s.recs), q)
    ensures forall k :: 0 <= k < |s.recs| && k != i ==> s.recs[k].row.seqno != q
  {
    hide FilesOk, SyncShape, WaitOk, CrashOk, AckOk, CountOpen, CountRetracting;
    assert CallOk(s.calls, s.recs, s.nextSeq, c);
    assert Submitted(s.recs, c, q);
    i :| 0 <= i < |s.recs| && s.recs[i].tag == c + 1 && s.recs[i].row.seqno == q;
    AscendingFind(Rows(s.recs), i);
    assert RecOk(s.recs[i], s.calls, s.nextSeq, s.tainted);
    Numbered(s, i);
  }

  lemma BatchOnly(s: State, c: nat)
    requires Inv(s) && c < |s.calls| && s.calls[c].kind == Submit
    ensures forall k :: 0 <= k < |s.recs| && s.recs[k].tag == c + 1 ==> s.calls[c].first <= s.recs[k].row.seqno <= s.calls[c].last
    ensures s.calls[c].first <= s.calls[c].last
  {
    hide FilesOk, SyncShape, WaitOk, CrashOk, AckOk, CountOpen, CountRetracting, DurablyRetracted, HasRec;
    assert CallOk(s.calls, s.recs, s.nextSeq, c);
    forall k | 0 <= k < |s.recs| && s.recs[k].tag == c + 1 ensures s.calls[c].first <= s.recs[k].row.seqno <= s.calls[c].last {
      assert RecOk(s.recs[k], s.calls, s.nextSeq, s.tainted);
    }
  }

  lemma SameNumbers(recs: seq<Live>, recs': seq<Live>)
    requires |recs'| == |recs| && forall k :: 0 <= k < |recs| ==> recs'[k].row.seqno == recs[k].row.seqno
    requires Ascending(Rows(recs))
    ensures Ascending(Rows(recs')) && forall q :: Find(Rows(recs'), q) == Find(Rows(recs), q)
  {
    var rows, rows' := Rows(recs), Rows(recs');
    forall i, j | 0 <= i < j < |rows'| ensures rows'[i].seqno < rows'[j].seqno { assert rows[i].seqno < rows[j].seqno; }
    forall q ensures Find(rows', q) == Find(rows, q) { }
  }

  /** gptps_dq_submit and _submit_batch, once their write is settled: the records found again by
      number, one after the other. */
  method EndBatch(recs: seq<Live>, pending: nat, first: nat, last: nat, ok: bool, ghost s: State, ghost c: nat)
    returns (recs': seq<Live>, pending': nat)
    requires Inv(s) && s.recs == recs && c < |s.calls| && s.calls[c].kind == Submit && s.calls[c].phase == InFlight
    requires first == s.calls[c].first && last == s.calls[c].last
    ensures recs' == EndCommit(recs, c + 1, ok) && pending' == pending + if ok then CountCommitting(recs, c + 1) else 0
  {
    hide Inv, Find, CountBelow, CountCommitting, Ascending, EndCommit, EndedBelow;
    BatchOnly(s, c);
    CountEnds(recs, c + 1, first, last);
    TableRises(s);
    recs', pending' := recs, pending;
    NoneBelow(recs, c + 1, ok, first);
    var q := first;
    while q <= last
      invariant first <= q <= last + 1 && recs' == EndedBelow(recs, c + 1, ok, q)
      invariant pending' == pending + if ok then CountBelow(recs, c + 1, q) else 0
    {
      ghost var k := BatchNext(s, c, q, ok);
      var i := FindBySeq(Rows(recs'), q);
      var t := recs'[i].(committing := false);
      if ok { pending' := pending' + 1; } else { t := t.(row := t.row.(done := true)); }
      recs' := recs'[i := t];
      q := q + 1;
    }
    AllBelow(recs, c + 1, ok, last);
  }

  /** One number further: the record found for it in the table as it is by then. */
  lemma BatchNext(s: State, c: nat, q: nat, ok: bool) returns (k: nat)
    requires Inv(s) && c < |s.calls| && s.calls[c].kind == Submit && s.calls[c].phase == InFlight && s.calls[c].first <= q <= s.calls[c].last
    ensures var recs := EndedBelow(s.recs, c + 1, ok, q);
            && Ascending(Rows(recs)) && k == Find(Rows(recs), q) < |recs|
            && EndedBelow(s.recs, c + 1, ok, q + 1) ==
                 recs[k := recs[k].(committing := false, row := if ok then recs[k].row else recs[k].row.(done := true))]
    ensures CountBelow(s.recs, c + 1, q + 1) == CountBelow(s.recs, c + 1, q) + 1
  {
    hide Inv, Find, CountBelow, Ascending;
    k := BatchIs(s, c, q);
    TableRises(s);
    SameNumbers(s.recs, EndedBelow(s.recs, c + 1, ok, q));
    CountNext(s.recs, c + 1, q, k);
    OneMore(s.recs, c + 1, ok, q, k);
  }

  lemma NoneBelow(recs: seq<Live>, tag: nat, ok: bool, first: nat)
    requires forall k :: 0 <= k < |recs| && recs[k].tag == tag ==> first <= recs[k].row.seqno
    ensures EndedBelow(recs, tag, ok, first) == recs
  {
  }

  lemma OneMore(recs: seq<Live>, tag: nat, ok: bool, q: nat, i: nat)
    requires i < |recs| && recs[i].tag == tag && recs[i].committing && recs[i].row.seqno == q
    requires forall k :: 0 <= k < |recs| && k != i ==> recs[k].row.seqno != q
    ensures var t := recs[i];
            EndedBelow(recs, tag, ok, q + 1) ==
            EndedBelow(recs, tag, ok, q)[i := t.(committing := false, row := t.row.(done := t.row.done || !ok))]
    ensures EndedBelow(recs, tag, ok, q)[i] == recs[i]
  {
  }

  lemma AllBelow(recs: seq<Live>, tag: nat, ok: bool, last: nat)
    requires forall k :: 0 <= k < |recs| && recs[k].tag == tag ==> recs[k].row.seqno <= last
    ensures EndedBelow(recs, tag, ok, last + 1) == EndCommit(recs, tag, ok)
  {
  }

  // ---- the rewriting ----

  /** Whether do_rewrite writes the record. */
  method Keeps(t: Live, waiters: seq<Waiter>, ghost s: State, ghost tickets: nat, ghost i: nat) returns (keep: bool)
    requires Inv(s) && Linked(waiters, tickets, s.calls) && i < |s.recs| && s.recs[i] == t
    ensures keep <==> Kept(s.calls, t)
  {
    hide Inv, Linked, Kept;
    if t.row.done {
      DoneNotKept(s.calls, t);
      return false;
    }
    KeptByWaiters(s, waiters, tickets, i);
    if t.committing {
      var durable := DurableFor(waiters, t.row.seqno, ForP);
      if !durable { return false; }
    }
    if t.retracting > 0 {
      var gone := DurableFor(waiters, t.row.seqno, ForD);
      if gone { return false; }
    }
    return true;
  }

  /** do_rewrite's loop: the records it writes to the new journal, one after the other. */
  method NewJournal(recs: seq<Live>, waiters: seq<Waiter>, ghost s: State, ghost tickets: nat) returns (es: Log)
    requires Inv(s) && s.recs == recs && Linked(waiters, tickets, s.calls)
    ensures es == RewriteAll(KeptOf(s.calls, recs))
  {
    hide Inv, Linked, Kept, RewriteEntries, KeptOf;
    es := [];
    NothingKept(s.calls, recs);
    for i := 0 to |recs|
      invariant es == RewriteAll(KeptOf(s.calls, recs[..i]))
    {
      KeptNext(s.calls, recs, i);
      var keep := Keeps(recs[i], waiters, s, tickets, i);
      if keep {
        RewriteNext(KeptOf(s.calls, recs[..i]), recs[i]);
        es := es + RewriteEntries(recs[i]);
      }
    }
    assert recs[..|recs|] == recs;
  }

  lemma NothingKept(calls: seq<Call>, recs: seq<Live>)
    ensures KeptOf(calls, recs[..0]) == []
  {
  }

  lemma KeptNext(calls: seq<Call>, recs: seq<Live>, i: nat)
    requires i < |recs|
    ensures KeptOf(calls, recs[..i + 1]) == KeptOf(calls, recs[..i]) + if Kept(calls, recs[i]) then [recs[i]] else []
    ensures !Kept(calls, recs[i]) ==> KeptOf(calls, recs[..i + 1]) == KeptOf(calls, recs[..i])
  {
    hide Kept;
    assert recs[..i + 1][..i] == recs[..i];
  }

  lemma RewriteNext(ts: seq<Live>, t: Live)
    ensures RewriteAll(ts + [t]) == RewriteAll(ts) + RewriteEntries(t)
  {
    hide RewriteEntries;
    assert (ts + [t])[..|ts|] == ts;
  }

  lemma DoneNotKept(calls: seq<Call>, t: Live)
    requires t.row.done
    ensures !Kept(calls, t)
  {
  }

  /** The compaction of the table in memory: the records kept move down in place. */
  method DropClosed(a: array<Live>, n: nat) returns (keep: nat)
    requires n <= a.Length
    modifies a
    ensures keep <= n && a[..keep] == NotDone(old(a[..n]))
  {
    keep := 0;
    for i := 0 to n
      invariant keep <= i && a[..keep] == NotDone(old(a[..i]))
      invariant forall k :: i <= k < n ==> a[k] == old(a[k])
    {
      assert old(a[..i + 1])[..i] == old(a[..i]);
      if !a[i].row.done {
        a[keep] := a[i];
        keep := keep + 1;
        assert a[..keep] == a[..keep - 1] + [a[keep - 1]];
      }
    }
  }
}
