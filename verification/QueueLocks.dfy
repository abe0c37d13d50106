/** The durable queue as an object: each method one stretch of code under the queue's locks, each
    proved to be the step of the machine it is, so that what holds in every run holds of it. */
module QueueLocks {
  import opened Sequences
  import opened LittleEndian
  import opened Journal
  import opened RecordTable
  import opened Disk
  import opened GroupCommit
  import opened GroupCommitInv
  import opened CommitWrites
  import opened CommitSync
  import opened CommitAnswers
  import opened CommitCompact
  import opened CommitTheorems
  import opened DurableQueue

  // ---- the list of waiters, one call at a time ----

  lemma LinkedSilent(waiters: seq<Waiter>, tickets: nat, calls: seq<Call>, call: Call)
    requires Linked(waiters, tickets, calls) && call.wrote == Nothing
    ensures Linked(waiters, tickets, calls + [call])
  {
    var calls' := calls + [call];
    forall i | 0 <= i < |waiters| ensures Speaks(waiters[i], calls') { assert Speaks(waiters[i], calls); }
    forall c | 0 <= c < |calls'| && calls'[c].phase == InFlight && calls'[c].wrote != Nothing ensures Heard(waiters, c) {
      assert calls'[c] == calls[c];
    }
  }

  lemma LinkedNew(waiters: seq<Waiter>, tickets: nat, calls: seq<Call>, call: Call)
    requires Linked(waiters, tickets, calls) && call.wrote != Nothing && call.phase == InFlight
    ensures Linked([Waiter(tickets + 1, |calls|, call.first, call.last, WaitsOf(call), call.settled)] + waiters, tickets + 1, calls + [call])
  {
    var w := Waiter(tickets + 1, |calls|, call.first, call.last, WaitsOf(call), call.settled);
    var ws, calls' := [w] + waiters, calls + [call];
    forall i | 0 <= i < |ws| ensures Speaks(ws[i], calls') && ws[i].ticket <= tickets + 1 {
      if i > 0 { assert Speaks(waiters[i - 1], calls); }
    }
    forall i, j | 0 <= i < j < |ws| ensures ws[i].ticket > ws[j].ticket && ws[i].call > ws[j].call {
      assert Speaks(waiters[j - 1], calls);
    }
    forall c | 0 <= c < |calls'| && calls'[c].phase == InFlight && calls'[c].wrote != Nothing ensures Heard(ws, c) {
      if c < |calls| {
        assert calls'[c] == calls[c] && Heard(waiters, c);
        var x :| x in waiters && x.call == c;
        assert x in ws;
      } else {
        assert w in ws;
      }
    }
  }

  lemma LinedNew(waiters: seq<Waiter>, w: Waiter, upto: nat, ticket: nat)
    requires Lined(waiters, upto, ticket) && w.ticket > ticket && w.call >= upto
    ensures Lined([w] + waiters, upto, ticket)
  {
  }

  /** The list without the call's waiter. */
  function Dropped(waiters: seq<Waiter>, c: nat): seq<Waiter> {
    if |waiters| == 0 then [] else if waiters[0].call == c then waiters[1..] else [waiters[0]] + Dropped(waiters[1..], c)
  }

  /** Newest first, by ticket and by call. */
  ghost predicate Falling(waiters: seq<Waiter>) {
    forall i, j :: 0 <= i < j < |waiters| ==> waiters[i].ticket > waiters[j].ticket && waiters[i].call > waiters[j].call
  }

  lemma {:induction false} DroppedHas(waiters: seq<Waiter>, c: nat)
    requires Falling(waiters)
    ensures Falling(Dropped(waiters, c)) && forall w :: w in Dropped(waiters, c) <==> w in waiters && w.call != c
    decreases |waiters|
  {
    hide Falling;
    if |waiters| > 0 {
      var first, rest := waiters[0], waiters[1..];
      FallingRest(waiters);
      DroppedHas(rest, c);
      assert waiters == [first] + rest;
      if first.call != c { FallingOnto(first, Dropped(rest, c)); }
    }
  }

  lemma FallingRest(waiters: seq<Waiter>)
    requires Falling(waiters) && |waiters| > 0
    ensures Falling(waiters[1..]) && forall w :: w in waiters[1..] ==> waiters[0].ticket > w.ticket && waiters[0].call > w.call
  {
  }

  lemma FallingOnto(first: Waiter, ws: seq<Waiter>)
    requires Falling(ws) && forall w :: w in ws ==> first.ticket > w.ticket && first.call > w.call
    ensures Falling([first] + ws)
  {
  }

  lemma DropPast(waiters: seq<Waiter>, i: nat, c: nat)
    requires i < |waiters|
    ensures var rest := Dropped(waiters[i..], c);
            if waiters[i].call == c then rest == waiters[i + 1..]
            else waiters[..i] + rest == waiters[..i + 1] + Dropped(waiters[i + 1..], c)
  {
    var x, rest := waiters[i..], Dropped(waiters[i + 1..], c);
    assert x[1..] == waiters[i + 1..] && x[0] == waiters[i];
    assert waiters[..i + 1] == waiters[..i] + [waiters[i]];
    Assoc(waiters[..i], [waiters[i]], rest);
  }

  lemma DropNone(waiters: seq<Waiter>, c: nat)
    ensures waiters[..0] + Dropped(waiters[0..], c) == Dropped(waiters, c) && Dropped(waiters[|waiters|..], c) == []
  {
    assert waiters[0..] == waiters && waiters[..0] == [];
  }

  /** unregister_waiter: the walk that unlinks it. */
  method Unregister(waiters: seq<Waiter>, c: nat) returns (ws: seq<Waiter>)
    ensures ws == Dropped(waiters, c)
  {
    hide Dropped;
    DropNone(waiters, c);
    var i: nat := 0;
    while i < |waiters| && waiters[i].call != c
      invariant i <= |waiters| && Dropped(waiters, c) == waiters[..i] + Dropped(waiters[i..], c)
    {
      DropPast(waiters, i, c);
      i := i + 1;
    }
    if i < |waiters| {
      DropPast(waiters, i, c);
      ws := waiters[..i] + waiters[i + 1..];
    } else {
      assert waiters[..i] == waiters;
      ws := waiters;
    }
  }

  lemma LinkedAnswered(waiters: seq<Waiter>, tickets: nat, calls: seq<Call>, calls': seq<Call>, c: nat)
    requires Linked(waiters, tickets, calls) && c < |calls| == |calls'| && calls'[c].phase != InFlight
    requires forall k :: 0 <= k < |calls| && k != c ==> calls'[k] == calls[k]
    ensures Linked(Dropped(waiters, c), tickets, calls')
  {
    hide Linked, Dropped, Falling, Heard, Speaks;
    LinkedFalling(waiters, tickets, calls);
    DroppedHas(waiters, c);
    var ws := Dropped(waiters, c);
    forall w | w in ws ensures Speaks(w, calls') && w.ticket <= tickets { SpeaksStill(w, calls, calls', c); }
    forall x | 0 <= x < |calls'| && calls'[x].phase == InFlight && calls'[x].wrote != Nothing ensures Heard(ws, x) {
      assert x != c && calls'[x] == calls[x];
      HeardStill(waiters, tickets, calls, ws, x, c);
    }
    NowLinked(ws, tickets, calls');
  }

  lemma LinkedFalling(waiters: seq<Waiter>, tickets: nat, calls: seq<Call>)
    requires Linked(waiters, tickets, calls)
    ensures Falling(waiters) && forall w :: w in waiters ==> Speaks(w, calls) && w.ticket <= tickets
  {
    hide Speaks, Heard;
  }

  lemma SpeaksStill(w: Waiter, calls: seq<Call>, calls': seq<Call>, c: nat)
    requires Speaks(w, calls) && w.call != c && |calls'| == |calls| && forall k :: 0 <= k < |calls| && k != c ==> calls'[k] == calls[k]
    ensures Speaks(w, calls')
  {
  }

  lemma HeardStill(waiters: seq<Waiter>, tickets: nat, calls: seq<Call>, ws: seq<Waiter>, x: nat, c: nat)
    requires Linked(waiters, tickets, calls) && x < |calls| && calls[x].phase == InFlight && calls[x].wrote != Nothing && x != c
    requires forall w :: w in waiters && w.call != c ==> w in ws
    ensures Heard(ws, x)
  {
    assert Heard(waiters, x);
    var w :| w in waiters && w.call == x;
    assert w in ws;
  }

  lemma NowLinked(ws: seq<Waiter>, tickets: nat, calls: seq<Call>)
    requires Falling(ws) && forall w :: w in ws ==> Speaks(w, calls) && w.ticket <= tickets
    requires forall c :: 0 <= c < |calls| && calls[c].phase == InFlight && calls[c].wrote != Nothing ==> Heard(ws, c)
    ensures Linked(ws, tickets, calls)
  {
    hide Speaks, Heard;
  }

  lemma LinedDropped(waiters: seq<Waiter>, tickets: nat, calls: seq<Call>, c: nat, upto: nat, ticket: nat)
    requires Linked(waiters, tickets, calls) && Lined(waiters, upto, ticket)
    ensures Lined(Dropped(waiters, c), upto, ticket)
  {
    DroppedHas(waiters, c);
    var ws := Dropped(waiters, c);
    forall i | 0 <= i < |ws| ensures ws[i].ticket <= ticket <==> ws[i].call < upto {
      assert ws[i] in waiters;
      var k :| 0 <= k < |waiters| && waiters[k] == ws[i];
    }
  }

  class Queue {
    var file: File
    var older: seq<File>
    var open: bool
    var broken: bool
    var dirDirty: bool
    var lastEnd: nat
    var waiters: seq<Waiter>
    var tickets: nat
    var syncTicket: nat
    var made: nat   // durable calls so far: each call's waiter is known by its number
    var trial: nat   // the suspect whose turn it is, 0 for none
    var recs: seq<Live>
    var nextSeq: nat
    var pending: nat
    ghost var sync: Sync
    ghost var calls: seq<Call>
    ghost var closed: set<(nat, nat)>
    ghost var tainted: bool

    ghost function View(): State
      reads this
    {
      State(older, file, open, broken, dirDirty, lastEnd, sync, calls, recs, nextSeq, pending, closed, tainted)
    }

    ghost predicate Valid()
      reads this
    {
      && Inv(View()) && Linked(waiters, tickets, calls) && made == |calls|
      && (sync.Running? ==> syncTicket <= tickets && Lined(waiters, sync.upto, syncTicket))
    }

    /** A new queue over an empty journal. */
    constructor ()
      ensures Valid() && View() == INITIAL && trial == 0
    {
      trial, older, file, open, broken, dirDirty, lastEnd := 0, [], Whole([]), true, false, false, 0;
      waiters, tickets, syncTicket, made, recs, nextSeq, pending := [], 0, 0, 0, [], 1, 0;
      sync, calls, closed, tainted := Idle, [], {}, false;
      new;
      InitialInv();
    }

    /** A queue over a journal of `end` records just replayed, with the files on disk behind it. */
    constructor Loaded(older: seq<File>, file: File, end: nat, recs: seq<Live>, pending: nat, nextSeq: nat, made: nat,
                       ghost calls: seq<Call>, ghost closed: set<(nat, nat)>, ghost tainted: bool)
      ensures View() == State(older, file, true, false, false, end, Idle, calls, recs, nextSeq, pending, closed, tainted)
      ensures waiters == [] && tickets == 0 && this.made == made && trial == 0
    {
      trial, this.older, this.file, open, broken, dirDirty, lastEnd := 0, older, file, true, false, false, end;
      waiters, tickets, syncTicket, this.made, this.recs, this.nextSeq, this.pending := [], 0, 0, made, recs, nextSeq, pending;
      sync, this.calls, this.closed, this.tainted := Idle, calls, closed, tainted;
    }

    // ---- writes ----

    /** write_durable and write_durable_batch, with register_waiter and cut_back. */
    method Write(es: Log, fate: WriteFate, call: Call)
      requires |file.hist| > 0 && call.phase == InFlight && call.settled == Waiting && made == |calls|
      requires Linked(waiters, tickets, calls) && (sync.Running? ==> syncTicket <= tickets && sync.upto <= |calls| && Lined(waiters, sync.upto, syncTicket))
      modifies `file, `lastEnd, `broken, `waiters, `tickets, `calls, `made
      ensures View() == WriteDurable(old(View()), es, call, fate) && made == |calls|
      ensures Linked(waiters, tickets, calls) && (sync.Running? ==> syncTicket <= tickets && Lined(waiters, sync.upto, syncTicket))
    {
      hide Linked, Lined, Extend, Part;
      if !open || broken {
        Unwaited(call.(wrote := Nothing));
        return;
      }
      var end := |Cur(file)|;
      match fate
      case WriteOk =>
        Register(call.(wrote := Written, pos := end));
        file, lastEnd := Extend(file, es, false), end + |es|;
      case WriteCut =>
        Register(call.(wrote := CutBack, cutAt := |file.hist| + 1));
        file := Extend(file, es, true);
      case WriteStuck(n) =>
        Unwaited(call.(wrote := Nothing));
        file, broken := Extend(file, Part(es, n), false), true;
    }

    /** A call that wrote nothing has nothing to wait for. */
    method Unwaited(call: Call)
      requires call.wrote == Nothing && Linked(waiters, tickets, calls) && made == |calls|
      modifies `calls, `made
      ensures calls == old(calls) + [call] && made == |calls| && Linked(waiters, tickets, calls)
    {
      LinkedSilent(waiters, tickets, calls, call);
      calls, made := calls + [call], made + 1;
    }

    /** register_waiter. */
    method Register(call: Call)
      requires call.wrote != Nothing && call.phase == InFlight && Linked(waiters, tickets, calls) && made == |calls|
      requires sync.Running? ==> syncTicket <= tickets && sync.upto <= |calls| && Lined(waiters, sync.upto, syncTicket)
      modifies `waiters, `tickets, `calls, `made
      ensures calls == old(calls) + [call] && tickets == old(tickets) + 1 && made == |calls|
      ensures Linked(waiters, tickets, calls) && (sync.Running? ==> Lined(waiters, sync.upto, syncTicket))
    {
      hide Linked, Lined;
      LinkedNew(waiters, tickets, calls, call);
      var w := Waiter(tickets + 1, made, call.first, call.last, WaitsOf(call), call.settled);
      if sync.Running? { LinedNew(waiters, w, sync.upto, syncTicket); }
      tickets, waiters := tickets + 1, [w] + waiters;
      calls, made := calls + [call], made + 1;
    }

    /** gptps_dq_submit and _submit_batch, up to the wait: numbers reserved, records pushed, the
        batch written, the call registered. */
    method SubmitBatch(items: seq<Item>, fate: WriteFate)
      requires Valid() && Enabled(View(), SubmitStep(items, fate))
      modifies `file, `lastEnd, `broken, `waiters, `tickets, `calls, `made, `recs, `nextSeq
      ensures Valid() && View() == DoSubmit(old(View()), items, fate)
    {
      hide Inv, Linked, Lined, Image, WriteDurable;
      ghost var s := View();
      SubmitInv(s, items, fate);
      SyncWithin(s);
      var first, tag := nextSeq, made + 1;
      var ts := NewLives(items, first, tag);
      recs, nextSeq := recs + ts, first + |items|;
      Write(PEntries(ts), fate, NewCall(Submit, first, first + |items| - 1, 0, items));
    }

    /** gptps_dq_cancel, up to the wait. */
    method BeginCancel(i: nat, fate: WriteFate)
      requires Valid() && Enabled(View(), CancelStep(i, fate))
      modifies `file, `lastEnd, `broken, `waiters, `tickets, `calls, `made, `recs
      ensures Valid() && View() == DoCancel(old(View()), i, fate)
    {
      hide Inv, Linked, Lined, Image, WriteDurable;
      ghost var s := View();
      CancelInv(s, i, fate);
      SyncWithin(s);
      var t := recs[i];
      recs := recs[i := t.(retracting := t.retracting + 1)];
      Write([Entry(Marker(D, t.row.seqno), made + 1)], fate, NewCall(Cancel, t.row.seqno, t.row.seqno, t.tag, []));
    }

    // ---- the fsync ----

    /** The leader's side of sync_until, before the fsync. */
    method BeginSync()
      requires Valid() && Enabled(View(), SyncBegin)
      modifies `syncTicket, `sync
      ensures Valid() && View() == DoSyncBegin(old(View()))
    {
      hide Inv, Linked, Image;
      SyncBeginInv(View());
      Everything(waiters, tickets, calls);
      syncTicket := tickets;
      sync := Running(|calls|, lastEnd, |file.hist| - 1, dirDirty);
    }

    /** ... after one that succeeded: everything it covered is durable. */
    method SyncSucceeded(v: nat, end: nat, dir: bool)
      requires Valid() && Enabled(View(), SyncOk(v)) && end == sync.end && dir == sync.dir
      modifies `waiters, `calls, `file, `older, `dirDirty, `sync
      ensures Valid() && View() == DoSyncOk(old(View()), v)
    {
      hide Inv, Linked, Image, Settle, Lined, StableFrom;
      SyncOkInv(View(), v);
      SettleSame(calls, sync.upto, Durable);
      var ws := SettleAll(waiters, syncTicket, Durable, tickets, calls, sync.upto);
      waiters, calls := ws, Settle(calls, sync.upto, Durable);
      file := Raise(file, v, end);
      if dir { older, dirDirty := [], false; }
      sync := Idle;
    }

    /** ... after one that failed: the file cut back to what is durable, the cut itself made durable
        if it can be, and everyone still waiting failed. */
    method SyncFailed(cut: CutFate)
      requires Valid() && Enabled(View(), SyncFail(cut))
      modifies `waiters, `calls, `file, `lastEnd, `broken, `sync
      ensures Valid() && View() == DoSyncFail(old(View()), cut)
    {
      hide Inv, Linked, Image, Settle, Lined, StableFrom, Cut, CutDurably;
      SyncFailInv(View(), cut);
      SettleSame(calls, |calls|, Failed);
      Everything(waiters, tickets, calls);
      var ws := SettleAll(waiters, tickets, Failed, tickets, calls, |calls|);
      waiters, calls := ws, Settle(calls, |calls|, Failed);
      lastEnd := file.safe;
      match cut {
        case CutSynced => file := CutDurably(file);
        case CutUnsynced => file, broken := Cut(file), true;
        case NotCut => broken := true;
      }
      sync := Idle;
    }

    // ---- the answers ----

    /** The end of gptps_dq_submit and _submit_batch, the engine's part aside. */
    method EndSubmit(c: nat, first: nat, last: nat, wrote: bool, state: Settled)
      requires Valid() && Enabled(View(), AnswerSubmit(c)) && first == calls[c].first && last == calls[c].last
      requires wrote == (calls[c].wrote == Written) && state == calls[c].settled
      modifies `waiters, `calls, `recs, `pending
      ensures Valid() && View() == DoAnswerSubmit(old(View()), c)
    {
      hide Inv, Linked, Enabled, Lined, EndCommit, CountCommitting, DoAnswerSubmit;
      ghost var s := View();
      AnswerFacts(s, c);
      AnswerSubmitInv(s, c);
      AnswerIs(s, c);
      var ok := wrote && state == Durable;
      var rs, p := EndBatch(recs, pending, first, last, ok, s, c);
      ghost var calls' := calls[c := calls[c].(phase := if ok then ToldOk else ToldIo)];
      Answer(c, calls');
      recs, pending := rs, p;
    }

    /** The waiter off the list. */
    method Retire(c: nat, ghost calls': seq<Call>)
      requires Linked(waiters, tickets, calls) && c < |calls| == |calls'| && calls'[c].phase != InFlight
      requires (forall k :: 0 <= k < |calls| && k != c ==> calls'[k] == calls[k]) && (sync.Running? ==> Lined(waiters, sync.upto, syncTicket))
      modifies `waiters
      ensures Linked(waiters, tickets, calls') && (sync.Running? ==> Lined(waiters, sync.upto, syncTicket))
    {
      hide Linked, Lined, Dropped;
      LinkedAnswered(waiters, tickets, calls, calls', c);
      if sync.Running? { LinedDropped(waiters, tickets, calls, c, sync.upto, syncTicket); }
      waiters := Unregister(waiters, c);
    }

    /** append_marker: lost on a broken queue, and rolled back if it cannot be written whole. */
    method AppendMarker(typ: Byte, seqno: nat, mark: MarkFate)
      requires |file.hist| > 0
      modifies `file
      ensures View() == WriteMarker(old(View()), typ, seqno, mark)
    {
      hide Extend;
      if open && !broken { file := Extend(file, Marked(Entry(Marker(typ, seqno), 0), mark), mark == MarkCut); }
    }

    /** close_rec. */
    method CloseWith(i: nat, v: Verdict, mark: MarkFate)
      requires |file.hist| > 0 && i < |recs|
      modifies `file, `recs, `pending, `closed
      ensures View() == ApplyVerdict(old(View()), i, v, mark)
    {
      hide WriteMarker;
      var t := recs[i];
      if v == Poison {
        recs := recs[i := t.(row := t.row.(quarantined := true, inflight := false), deferred := NoVerdict)];
        pending := if pending > 0 then pending - 1 else 0;
        AppendMarker(Q, t.row.seqno, mark);
      } else {
        recs := recs[i := t.(deferred := NoVerdict)];
        CloseRecord(i);
        AppendMarker(D, t.row.seqno, mark);
      }
    }

    method CloseRecord(i: nat)
      requires i < |recs|
      modifies `recs, `pending, `closed
      ensures View() == CloseRec(old(View()), i)
    {
      var t := recs[i];
      recs := recs[i := t.(row := t.row.(done := true, inflight := false))];
      pending := if pending > 0 then pending - 1 else 0;
      closed := closed + {Rid(t)};
    }

    /** The end of gptps_dq_cancel: the record found again by number, and closed if the retraction
        is durable; else left as a concurrent one that is durable left it, or, when no other is under
        way, given the verdict that waited. */
    method EndCancel(c: nat, seqno: nat, durable: bool, mark: MarkFate)
      requires Valid() && Enabled(View(), AnswerCancel(c, mark)) && c < |calls| && seqno == calls[c].first && durable == MadeDurable(calls[c])
      modifies `file, `waiters, `calls, `recs, `pending, `closed
      ensures Valid() && HasFile(old(View())) && View() == DoAnswerCancel(old(View()), c, mark)
    {
      hide Inv, Linked, Lined, Enabled, Find, Answered1, DoAnswerCancel, MadeDurable;
      ghost var s := View();
      CancelFacts(s, c, mark);
      AnswerCancelInv(s, c, mark);
      TableRises(s);
      var i := FindBySeq(Rows(recs), seqno);
      ghost var told := i == |recs| || durable || recs[i].row.done;
      ghost var calls' := calls[c := calls[c].(phase := if told then ToldOk else ToldIo)];
      Answer(c, calls');
      ghost var s1 := View();
      if i < |recs| {
        AnswerKeeps(s1, i, durable, mark);
        Settle1(i, durable, mark);
        assert View() == Answered1(s1, i, durable, mark);
      }
    }

    /** The caller's waiter off the list, its answer fixed. */
    method Answer(c: nat, ghost calls': seq<Call>)
      requires Linked(waiters, tickets, calls) && c < |calls| == |calls'| && calls'[c].phase != InFlight
      requires (forall k :: 0 <= k < |calls| && k != c ==> calls'[k] == calls[k]) && (sync.Running? ==> Lined(waiters, sync.upto, syncTicket))
      modifies `waiters, `calls
      ensures Linked(waiters, tickets, calls) && (sync.Running? ==> Lined(waiters, sync.upto, syncTicket))
      ensures View() == old(View()).(calls := calls')
    {
      hide Linked, Lined;
      Retire(c, calls');
      calls := calls';
    }

    /** What the answer does to the record. */
    method Settle1(i: nat, durable: bool, mark: MarkFate)
      requires |file.hist| > 0 && i < |recs|
      modifies `file, `recs, `pending, `closed
      ensures View() == Answered1(old(View()), i, durable, mark)
    {
      hide ApplyVerdict, CloseRec;
      var t := recs[i].(retracting := if recs[i].retracting > 0 then recs[i].retracting - 1 else 0);
      recs := recs[i := t];
      if durable {
        recs := recs[i := t.(deferred := NoVerdict)];
        if !t.row.done && !t.row.quarantined { CloseRecord(i); }
      } else if !t.row.done && t.retracting == 0 && t.deferred != NoVerdict {
        CloseWith(i, t.deferred, mark);
      }
    }

    // ---- compaction ----

    /** do_rewrite, its waits over: the new journal written from the table, renamed into place, its
        name made durable or not, reopened or not; and the table in memory compacted. */
    method Rewrite(renamed: bool, dirSynced: bool, reopened: bool)
      requires Valid() && Enabled(View(), Compact(renamed, dirSynced, reopened))
      modifies this
      ensures Valid() && View() == DoCompact(old(View()), renamed, dirSynced, reopened)
    {
      hide Inv, Linked, Enabled, KeptOf, RewriteAll, NotDone, Replace;
      ghost var s := View();
      CompactInv(s, renamed, dirSynced, reopened);
      if renamed {
        var es := NewJournal(recs, waiters, s, tickets);
        PutInPlace(es, dirSynced, reopened);
        NothingRunning(s, renamed, dirSynced, reopened);
      } else if open && !reopened {
        open, broken := false, true;
      }
    }

    method PutInPlace(es: Log, dirSynced: bool, reopened: bool)
      modifies `older, `file, `dirDirty, `lastEnd, `open, `broken, `recs
      ensures View() == Replace(old(View()), es, dirSynced, reopened)
    {
      older := if dirSynced then [] else older + [file];
      file, dirDirty, lastEnd, open := Whole(es), !dirSynced, |es|, reopened;
      broken := if !reopened then true else broken && !dirSynced;
      if reopened { CompactTable(); }
    }

    method CompactTable()
      modifies `recs
      ensures recs == NotDone(old(recs))
    {
      var all := recs;
      var a := new Live[|all|](i requires 0 <= i < |all| => all[i]);
      assert a[..|all|] == all;
      var keep := DropClosed(a, |all|);
      recs := a[..keep];
    }
  }

  /** The record's part of a retraction's answer. */
  function Answered1(s: State, i: nat, durable: bool, mark: MarkFate): State
    requires HasFile(s) && i < |s.recs|
  {
    var t := s.recs[i].(retracting := if s.recs[i].retracting > 0 then s.recs[i].retracting - 1 else 0);
    var s1 := s.(recs := s.recs[i := t]);
    if durable then
      var s2 := s1.(recs := s1.recs[i := t.(deferred := NoVerdict)]);
      if !t.row.done && !t.row.quarantined then CloseRec(s2, i) else s2
    else if !t.row.done && t.retracting == 0 && t.deferred != NoVerdict then ApplyVerdict(s1, i, t.deferred, mark)
    else s1
  }

  lemma AnswerKeeps(s: State, i: nat, durable: bool, mark: MarkFate)
    requires HasFile(s) && i < |s.recs|
    ensures var s' := Answered1(s, i, durable, mark); s'.calls == s.calls && s'.sync == s.sync
  {
  }

  lemma CancelFacts(s: State, c: nat, mark: MarkFate)
    requires Enabled(s, AnswerCancel(c, mark))
    ensures HasFile(s) && c < |s.calls| && s.calls[c].kind == Cancel && s.calls[c].phase == InFlight
    ensures var i := Find(Rows(s.recs), s.calls[c].first);
            i <= |s.recs| &&
            var told := i == |s.recs| || MadeDurable(s.calls[c]) || s.recs[i].row.done;
            var s1 := s.(calls := s.calls[c := s.calls[c].(phase := if told then ToldOk else ToldIo)]);
            DoAnswerCancel(s, c, mark) == if i == |s.recs| then s1 else Answered1(s1, i, MadeDurable(s.calls[c]), mark)
  {
    hide Find, ApplyVerdict, CloseRec, Image;
  }

  lemma AnswerIs(s: State, c: nat)
    requires c < |s.calls|
    ensures var ok := MadeDurable(s.calls[c]);
            DoAnswerSubmit(s, c) == s.(recs := EndCommit(s.recs, c + 1, ok), pending := s.pending + if ok then CountCommitting(s.recs, c + 1) else 0,
                                       calls := s.calls[c := s.calls[c].(phase := if ok then ToldOk else ToldIo)])
  {
  }

  lemma AnswerFacts(s: State, c: nat)
    requires Enabled(s, AnswerSubmit(c))
    ensures c < |s.calls| && s.calls[c].kind == Submit && s.calls[c].phase == InFlight
  {
  }

  lemma NothingRunning(s: State, renamed: bool, dirSynced: bool, reopened: bool)
    requires Enabled(s, Compact(renamed, dirSynced, reopened))
    ensures s.sync == Idle
  {
  }

  lemma SyncWithin(s: State)
    requires Inv(s)
    ensures s.sync.Running? ==> s.sync.upto <= |s.calls|
    ensures HasFile(s)
  {
    hide WaitOk, CrashOk, RecsOk, CallsOk, AckOk, StableFrom;
  }

  lemma Everything(waiters: seq<Waiter>, tickets: nat, calls: seq<Call>)
    requires Linked(waiters, tickets, calls)
    ensures Lined(waiters, |calls|, tickets)
  {
    forall i | 0 <= i < |waiters| ensures waiters[i].ticket <= tickets <==> waiters[i].call < |calls| {
      assert Speaks(waiters[i], calls);
    }
  }

  lemma SettleSame(calls: seq<Call>, upto: nat, how: Settled)
    ensures |Settle(calls, upto, how)| == |calls|
  {
  }
}
