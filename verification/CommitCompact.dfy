/** Compaction: what the new journal holds, and the invariant through its renaming. */
module CommitCompact {
  import opened Sequences
  import opened Journal
  import opened RecordTable
  import opened Disk
  import opened GroupCommit
  import opened GroupCommitInv
  import opened CommitPast

  // ---- the records that go on ----

  lemma {:induction false} KeptOfHas(calls: seq<Call>, recs: seq<Live>)
    ensures forall t :: t in KeptOf(calls, recs) <==> t in recs && Kept(calls, t)
  {
    hide Kept;
    if |recs| > 0 {
      KeptOfHas(calls, recs[..|recs| - 1]);
      Snoc(recs);
    }
  }

  lemma {:induction false} NotDoneHas(recs: seq<Live>)
    ensures forall t :: t in NotDone(recs) <==> t in recs && !t.row.done
  {
    if |recs| > 0 {
      NotDoneHas(recs[..|recs| - 1]);
      Snoc(recs);
    }
  }

  /** Each record numbered above the ones before it. */
  ghost predicate Rising(recs: seq<Live>) {
    forall i, j :: 0 <= i < j < |recs| ==> recs[i].row.seqno < recs[j].row.seqno
  }

  lemma RisingRows(recs: seq<Live>)
    ensures Rising(recs) <==> Ascending(Rows(recs))
  {
    var rows := Rows(recs);
    if Ascending(rows) {
      forall i, j | 0 <= i < j < |recs| ensures recs[i].row.seqno < recs[j].row.seqno {
        assert rows[i].seqno < rows[j].seqno;
      }
    }
  }

  lemma RisingSnoc(recs: seq<Live>, t: Live)
    requires Rising(recs) && forall x :: x in recs ==> x.row.seqno < t.row.seqno
    ensures Rising(recs + [t])
  {
    var r := recs + [t];
    forall i, j | 0 <= i < j < |r| ensures r[i].row.seqno < r[j].row.seqno {
      assert recs[i] in recs;
    }
  }

  lemma RisingInit(recs: seq<Live>)
    requires Rising(recs) && |recs| > 0
    ensures Rising(recs[..|recs| - 1])
    ensures forall x :: x in recs[..|recs| - 1] ==> x.row.seqno < recs[|recs| - 1].row.seqno
  {
  }

  lemma {:induction false} KeptRising(calls: seq<Call>, recs: seq<Live>)
    requires Rising(recs)
    ensures Rising(KeptOf(calls, recs))
  {
    hide Kept;
    if |recs| > 0 {
      var n := |recs| - 1;
      RisingInit(recs);
      KeptRising(calls, recs[..n]);
      KeptOfHas(calls, recs[..n]);
      if Kept(calls, recs[n]) { RisingSnoc(KeptOf(calls, recs[..n]), recs[n]); }
    }
  }

  lemma {:induction false} NotDoneRising(recs: seq<Live>)
    requires Rising(recs)
    ensures Rising(NotDone(recs))
  {
    if |recs| > 0 {
      var n := |recs| - 1;
      RisingInit(recs);
      NotDoneRising(recs[..n]);
      NotDoneHas(recs[..n]);
      if !recs[n].row.done { RisingSnoc(NotDone(recs[..n]), recs[n]); }
    }
  }

  lemma {:induction false} NotDoneCount(recs: seq<Live>)
    ensures CountOpen(NotDone(recs)) == CountOpen(recs)
  {
    if |recs| > 0 {
      var n := |recs| - 1;
      NotDoneCount(recs[..n]);
      if !recs[n].row.done {
        assert (NotDone(recs[..n]) + [recs[n]])[..|NotDone(recs[..n])|] == NotDone(recs[..n]);
      } else {
        assert NotDone(recs) == NotDone(recs[..n]);
      }
    }
  }

  // ---- the new journal ----

  lemma RewriteEntriesAre(t: Live, e: Entry)
    requires e in RewriteEntries(t)
    ensures e.rec.seqno == t.row.seqno
    ensures e == PEntry(t) || (e.tag == 0 && e.rec.typ != P && e.rec.typ != D)
  {
  }

  lemma {:induction false} RewriteAllAre(ts: seq<Live>, e: Entry)
    requires e in RewriteAll(ts)
    ensures exists t :: t in ts && e.rec.seqno == t.row.seqno && (e == PEntry(t) || (e.tag == 0 && e.rec.typ != P && e.rec.typ != D))
  {
    hide RewriteEntries;
    var n := |ts| - 1;
    Snoc(ts);
    if e in RewriteAll(ts[..n]) {
      RewriteAllAre(ts[..n], e);
      var t :| t in ts[..n] && e.rec.seqno == t.row.seqno && (e == PEntry(t) || (e.tag == 0 && e.rec.typ != P && e.rec.typ != D));
      assert t in ts;
    } else {
      RewriteEntriesAre(ts[n], e);
      assert ts[n] in ts;
    }
  }

  lemma {:induction false} RewriteAllHas(ts: seq<Live>, t: Live)
    requires t in ts
    ensures PEntry(t) in RewriteAll(ts)
  {
    var n := |ts| - 1;
    Snoc(ts);
    if t in ts[..n] {
      RewriteAllHas(ts[..n], t);
    } else {
      assert RewriteEntries(ts[n])[0] == PEntry(t);
    }
  }

  lemma EntriesOrdered(t: Live)
    requires Storable(t.row)
    ensures Ordered(RewriteEntries(t))
  {
  }

  lemma OrderedConcat(a: Log, b: Log)
    requires Ordered(a) && Ordered(b)
    requires forall x, y :: x in a && y in b ==> x.rec.seqno < y.rec.seqno
    ensures Ordered(a + b)
  {
    var c := a + b;
    forall i, j | 0 <= i < j < |c| && c[j].rec.typ == P ensures c[i].rec.seqno < c[j].rec.seqno {
      if i < |a| && j >= |a| {
        assert a[i] in a && b[j - |a|] in b;
      } else if i >= |a| {
        assert b[i - |a|].rec.seqno < b[j - |a|].rec.seqno;
      }
    }
  }

  lemma {:induction false} RewriteAllOrdered(ts: seq<Live>)
    requires Rising(ts) && forall t :: t in ts ==> Storable(t.row)
    ensures Ordered(RewriteAll(ts))
  {
    hide RewriteEntries, Ordered;
    if |ts| > 0 {
      var n := |ts| - 1;
      Snoc(ts);
      RisingInit(ts);
      RewriteAllOrdered(ts[..n]);
      EntriesOrdered(ts[n]);
      forall x, y | x in RewriteAll(ts[..n]) && y in RewriteEntries(ts[n]) ensures x.rec.seqno < y.rec.seqno {
        RewriteAllAre(ts[..n], x);
        RewriteEntriesAre(ts[n], y);
      }
      OrderedConcat(RewriteAll(ts[..n]), RewriteEntries(ts[n]));
    } else {
      EmptyOrdered();
    }
  }

  lemma EmptyOrdered()
    ensures Ordered([])
  {
  }

  /** As records, the new journal is exactly what compacting those rows writes. */
  lemma {:induction false} RewriteAllRecs(ts: seq<Live>)
    ensures Recs(RewriteAll(ts)) == Rewrite(Rows(ts))
  {
    if |ts| > 0 {
      var n := |ts| - 1;
      RewriteAllRecs(ts[..n]);
      assert Rows(ts)[..n] == Rows(ts[..n]);
      var a, b := RewriteAll(ts[..n]), RewriteEntries(ts[n]);
      assert Recs(a + b) == Recs(a) + Recs(b);
      assert Recs(b) == RewriteRow(ts[n].row);
    }
  }

  // ---- dropping closed records from memory ----

  /** Some of the table: every record not closed, and nothing new. */
  ghost predicate PartOf(recs: seq<Live>, recs': seq<Live>) {
    && (forall t :: t in recs' ==> t in recs)
    && (forall t :: t in recs && !t.row.done ==> t in recs')
  }

  lemma SomeLegit(e: Entry, calls: seq<Call>, recs: seq<Live>, recs': seq<Live>, nextSeq: nat, shaken: bool, shaken': bool)
    requires PartOf(recs, recs') && Legit(e, calls, recs, nextSeq, shaken) && (shaken ==> shaken')
    ensures Legit(e, calls, recs', nextSeq, shaken')
  {
    forall i | 0 <= i < |recs'| ensures exists k :: 0 <= k < |recs| && recs[k] == recs'[i] {
      assert recs'[i] in recs;
    }
  }

  lemma SomeHas(recs: seq<Live>, recs': seq<Live>, tag: nat, q: nat)
    requires PartOf(recs, recs')
    ensures HasOpen(recs, tag, q) ==> HasOpen(recs', tag, q) && HasRec(recs', tag, q)
  {
    if HasOpen(recs, tag, q) {
      var k :| 0 <= k < |recs| && recs[k].tag == tag && recs[k].row.seqno == q && !recs[k].row.done;
      assert recs[k] in recs';
      var j :| 0 <= j < |recs'| && recs'[j] == recs[k];
    }
  }

  lemma SomeCall(s: State, recs': seq<Live>, c: nat)
    requires RecsOk(s) && CallsOk(s) && PartOf(s.recs, recs') && c < |s.calls|
    ensures CallOk(s.calls, recs', s.nextSeq, c)
  {
    hide DurablyRetracted, HasRec, HasOpen, CountOpen, RecOk, Ascending, Out;
    assert CallOk(s.calls, s.recs, s.nextSeq, c);
    var call := s.calls[c];
    forall i | 0 <= i < |recs'| ensures exists k :: 0 <= k < |s.recs| && s.recs[k] == recs'[i] { assert recs'[i] in s.recs; }
    if call.kind == Submit && call.phase == InFlight {
      forall q | call.first <= q <= call.last ensures Submitted(recs', c, q) {
        CommittedOpen(s, c, q);
        SomeHas(s.recs, recs', c + 1, q);
      }
    }
    if call.kind == Cancel && call.phase == InFlight {
      RetractedOrOpen(s, c);
      SomeHas(s.recs, recs', call.target, call.first);
    }
  }

  lemma {:induction false} CountsSelf(calls: seq<Call>, c: nat, tag: nat, q: nat)
    requires c < |calls| && calls[c].phase == InFlight && Retracts(calls[c], tag, q)
    ensures CountRetracting(calls, tag, q) > 0
    decreases |calls|
  {
    if c < |calls| - 1 {
      CountsSelf(calls[..|calls| - 1], c, tag, q);
    }
  }

  lemma RetractedOrOpen(s: State, c: nat)
    requires RecsOk(s) && CallsOk(s) && c < |s.calls| && s.calls[c].kind == Cancel && s.calls[c].phase == InFlight
    ensures HasOpen(s.recs, s.calls[c].target, s.calls[c].first) || DurablyRetracted(s.calls, s.calls[c].target, s.calls[c].first)
  {
    hide CountOpen, CountRetracting, Ascending, DurablyRetracted;
    var call := s.calls[c];
    assert CallOk(s.calls, s.recs, s.nextSeq, c);
    if HasRec(s.recs, call.target, call.first) {
      var i :| 0 <= i < |s.recs| && s.recs[i].tag == call.target && s.recs[i].row.seqno == call.first;
      assert RecOk(s.recs[i], s.calls, s.nextSeq, s.tainted);
      CountsSelf(s.calls, c, call.target, call.first);
    }
  }

  lemma SomeAck(calls: seq<Call>, recs: seq<Live>, recs': seq<Live>, closed: set<(nat, nat)>, tainted: bool, c: nat, q: nat)
    requires PartOf(recs, recs') && c < |calls| && AckOne(calls, recs, closed, tainted, c, q)
    ensures AckOne(calls, recs', closed, tainted, c, q)
  {
    hide Doubtful, HasOpen;
    SomeHas(recs, recs', c + 1, q);
  }

  lemma SomeTable(s: State, s': State)
    requires RecsOk(s) && CallsOk(s) && AckOk(s) && PartOf(s.recs, s'.recs) && Rising(s'.recs) && CountOpen(s'.recs) == CountOpen(s.recs)
    requires s'.calls == s.calls && s'.nextSeq == s.nextSeq && s'.pending == s.pending && s'.closed == s.closed && s'.tainted == s.tainted
    ensures RecsOk(s') && CallsOk(s') && AckOk(s')
  {
    hide RecOk, CallOk, AckOne, CountOpen, Rising, Ascending;
    RisingRows(s'.recs);
    forall k | 0 <= k < |s'.recs| ensures RecOk(s'.recs[k], s'.calls, s'.nextSeq, s'.tainted) { assert s'.recs[k] in s.recs; }
    forall c | 0 <= c < |s.calls| ensures CallOk(s'.calls, s'.recs, s'.nextSeq, c) { SomeCall(s, s'.recs, c); }
    forall c, q | 0 <= c < |s.calls| ensures AckOne(s'.calls, s'.recs, s'.closed, s'.tainted, c, q) {
      SomeAck(s.calls, s.recs, s'.recs, s.closed, s.tainted, c, q);
    }
  }

  // ---- the new journal is one the queue can answer for ----

  ghost predicate WellFormed(calls: seq<Call>, recs: seq<Live>, nextSeq: nat, tainted: bool) {
    Rising(recs) && nextSeq <= MAX_SEQ + 1 && forall t :: t in recs ==> RecOk(t, calls, nextSeq, tainted)
  }

  lemma RecsWellFormed(s: State)
    requires RecsOk(s)
    ensures WellFormed(s.calls, s.recs, s.nextSeq, s.tainted)
  {
    hide RecOk, CountOpen;
    RisingRows(s.recs);
  }

  lemma KeptFits(calls: seq<Call>, recs: seq<Live>, nextSeq: nat, tainted: bool)
    requires WellFormed(calls, recs, nextSeq, tainted)
    ensures Rising(KeptOf(calls, recs)) && forall t :: t in KeptOf(calls, recs) ==> Storable(t.row)
  {
    hide CountRetracting, DurablyRetracted, RetractedDurably;
    KeptRising(calls, recs);
    KeptOfHas(calls, recs);
  }

  lemma NewJournalOrdered(calls: seq<Call>, recs: seq<Live>, nextSeq: nat, tainted: bool)
    requires WellFormed(calls, recs, nextSeq, tainted)
    ensures Ordered(RewriteAll(KeptOf(calls, recs)))
  {
    hide WellFormed, Rising, Ordered;
    KeptFits(calls, recs, nextSeq, tainted);
    RewriteAllOrdered(KeptOf(calls, recs));
  }

  lemma KeptLegit(calls: seq<Call>, recs: seq<Live>, nextSeq: nat, tainted: bool, shaken: bool, k: nat)
    requires k < |recs| && Rising(recs) && RecOk(recs[k], calls, nextSeq, tainted) && Kept(calls, recs[k]) && (tainted ==> shaken)
    ensures Legit(PEntry(recs[k]), calls, recs, nextSeq, shaken)
  {
    hide CountRetracting, DurablyRetracted, RetractedDurably;
    assert forall i :: 0 <= i < |recs| && recs[i].row.seqno == recs[k].row.seqno ==> i == k;
  }

  lemma NewLegit(calls: seq<Call>, recs: seq<Live>, nextSeq: nat, tainted: bool, shaken: bool, e: Entry)
    requires WellFormed(calls, recs, nextSeq, tainted) && (tainted ==> shaken) && e in RewriteAll(KeptOf(calls, recs))
    ensures Legit(e, calls, recs, nextSeq, shaken)
  {
    hide CountRetracting, DurablyRetracted, Kept, Rising;
    var ts := KeptOf(calls, recs);
    RewriteAllAre(ts, e);
    KeptOfHas(calls, recs);
    var t :| t in ts && e.rec.seqno == t.row.seqno && (e == PEntry(t) || (e.tag == 0 && e.rec.typ != P && e.rec.typ != D));
    assert RecOk(t, calls, nextSeq, tainted);
    var k :| 0 <= k < |recs| && recs[k] == t;
    KeptLegit(calls, recs, nextSeq, tainted, shaken, k);
  }

  lemma NewKeeps(calls: seq<Call>, recs: seq<Live>)
    requires Ordered(RewriteAll(KeptOf(calls, recs)))
    ensures FileKeeps(Whole(RewriteAll(KeptOf(calls, recs))), calls, recs)
  {
    hide Kept, Sure, Ordered;
    var ts := KeptOf(calls, recs);
    WholeOk(RewriteAll(ts));
    KeptOfHas(calls, recs);
    forall k | 0 <= k < |recs| && Kept(calls, recs[k]) ensures Sure(Whole(RewriteAll(ts)), PEntry(recs[k])) {
      assert recs[k] in ts;
      RewriteAllHas(ts, recs[k]);
    }
  }

  lemma NewRetracts(s: State)
    requires RecsOk(s) && CallsOk(s) && Ordered(RewriteAll(KeptOf(s.calls, s.recs)))
    ensures FileRetracts(Whole(RewriteAll(KeptOf(s.calls, s.recs))), s.calls)
  {
    hide Sure, Ordered, RecOk, CallOk, CountOpen, May, Ascending;
    var ts := KeptOf(s.calls, s.recs);
    var f := Whole(RewriteAll(ts));
    WholeOk(RewriteAll(ts));
    forall c, e | 0 <= c < |s.calls| && s.calls[c].kind == Cancel && MadeDurable(s.calls[c]) && May(f, e) && e.rec.typ == P
      ensures !(e.tag == s.calls[c].target && e.rec.seqno == s.calls[c].first)
    {
      NotRetracted(s, c, e);
    }
  }

  lemma NotRetracted(s: State, c: nat, e: Entry)
    requires CallsOk(s) && c < |s.calls| && s.calls[c].kind == Cancel && MadeDurable(s.calls[c])
    requires e in RewriteAll(KeptOf(s.calls, s.recs)) && e.rec.typ == P
    ensures !(e.tag == s.calls[c].target && e.rec.seqno == s.calls[c].first)
  {
    hide DurablyRetracted, HasRec, Out;
    var ts := KeptOf(s.calls, s.recs);
    RewriteAllAre(ts, e);
    KeptOfHas(s.calls, s.recs);
    var t :| t in ts && e.rec.seqno == t.row.seqno && (e == PEntry(t) || (e.tag == 0 && e.rec.typ != P && e.rec.typ != D));
    assert !RetractedDurably(s.calls, t);
    assert CallOk(s.calls, s.recs, s.nextSeq, c);
    assert !(s.calls[c].phase == InFlight && Retracts(s.calls[c], t.tag, t.row.seqno));
    var k :| 0 <= k < |s.recs| && s.recs[k] == t;
  }

  lemma NewPairs(calls: seq<Call>, recs: seq<Live>)
    requires Ordered(RewriteAll(KeptOf(calls, recs)))
    ensures FilePairs(Whole(RewriteAll(KeptOf(calls, recs))), calls)
    ensures forall closed :: FileVerdicts(Whole(RewriteAll(KeptOf(calls, recs))), closed)
  {
    hide May, Ordered, Kept;
    var ts := KeptOf(calls, recs);
    WholeOk(RewriteAll(ts));
    forall d | May(Whole(RewriteAll(ts)), d) ensures d.rec.typ != D { RewriteAllAre(ts, d); }
  }

  lemma NewFile(s: State, shaken: bool)
    requires RecsOk(s) && CallsOk(s) && (s.tainted ==> shaken)
    ensures var f := Whole(RewriteAll(KeptOf(s.calls, s.recs)));
            && Shaped(f)
            && FileMay(f, s.calls, s.recs, s.nextSeq, shaken) && FileKeeps(f, s.calls, s.recs)
            && FileRetracts(f, s.calls) && FilePairs(f, s.calls) && FileVerdicts(f, s.closed)
  {
    hide FileVerdicts, RecsOk, CallsOk, May, Ordered, Shaped, FileKeeps, FileRetracts, FilePairs, Legit, WellFormed, KeptOf;
    var es := RewriteAll(KeptOf(s.calls, s.recs));
    RecsWellFormed(s);
    NewJournalOrdered(s.calls, s.recs, s.nextSeq, s.tainted);
    WholeOk(es);
    forall e | May(Whole(es), e) ensures Legit(e, s.calls, s.recs, s.nextSeq, shaken) {
      NewLegit(s.calls, s.recs, s.nextSeq, s.tainted, shaken, e);
    }
    NewKeeps(s.calls, s.recs);
    NewRetracts(s);
    NewPairs(s.calls, s.recs);
  }

  // ---- the step ----

  lemma MemoryDropped(recs: seq<Live>, reopened: bool)
    requires Rising(recs)
    ensures var recs' := if reopened then NotDone(recs) else recs;
            PartOf(recs, recs') && Rising(recs') && CountOpen(recs') == CountOpen(recs)
  {
    NotDoneHas(recs);
    NotDoneRising(recs);
    NotDoneCount(recs);
  }

  /** Putting the new journal in place keeps the invariant, whether or not the rename is
      durable yet and the file could be reopened. */
  lemma ReplaceInv(s: State, dirSynced: bool, reopened: bool)
    requires Inv(s) && s.sync == Idle && !AnyWaiting(s.calls)
    ensures Inv(Replace(s, RewriteAll(KeptOf(s.calls, s.recs)), dirSynced, reopened))
  {
    hide Shaped, FileOk, PastOk, FileMay, FileKeeps, FileRetracts, FilePairs, FileVerdicts, WaitOne, RecsOk, CallsOk, AckOk, Rising, PartOf, KeptOf, RewriteAll, NotDone, CountOpen;
    var es := RewriteAll(KeptOf(s.calls, s.recs));
    var s' := Replace(s, es, dirSynced, reopened);
    TableRising(s);
    MemoryDropped(s.recs, reopened);
    SomeTable(s, s');
    NewFile(s, s'.broken || s'.tainted);
    NewFileOk(Whole(es), s, s');
    if !dirSynced {
      CurPast(s);
      forall k | 0 <= k < |s'.older| ensures PastOk(s'.older[k], s') && Shaped(s'.older[k]) {
        PastSame(s'.older[k], s, s');
      }
    }
  }

  lemma TableRising(s: State)
    requires RecsOk(s)
    ensures Rising(s.recs)
  {
    RisingRows(s.recs);
  }

  lemma NewFileOk(f: File, s: State, s': State)
    requires FileMay(f, s.calls, s.recs, s.nextSeq, s'.broken || s'.tainted) && FileKeeps(f, s.calls, s.recs)
    requires FileRetracts(f, s.calls) && FilePairs(f, s.calls) && FileVerdicts(f, s.closed) && s'.closed == s.closed
    requires PartOf(s.recs, s'.recs) && s'.calls == s.calls && s'.nextSeq == s.nextSeq
    ensures FileOk(f, s')
  {
    hide May, Sure, Kept, RetractedIn, FilePairs, FileVerdicts, Legit;
    forall e | May(f, e) ensures Legit(e, s'.calls, s'.recs, s'.nextSeq, s'.broken || s'.tainted) {
      SomeLegit(e, s.calls, s.recs, s'.recs, s.nextSeq, s'.broken || s'.tainted, s'.broken || s'.tainted);
    }
    forall k | 0 <= k < |s'.recs| && Kept(s'.calls, s'.recs[k]) ensures Sure(f, PEntry(s'.recs[k])) {
      assert s'.recs[k] in s.recs;
    }
  }

  lemma CompactInv(s: State, renamed: bool, dirSynced: bool, reopened: bool)
    requires Inv(s) && Enabled(s, Compact(renamed, dirSynced, reopened))
    ensures Inv(DoCompact(s, renamed, dirSynced, reopened))
  {
    hide Shaped, StableFrom, FileOk, PastOk, WaitOne, RecOk, CallOk, AckOne, CountOpen, KeptOf, RewriteAll, Replace, Image, Ascending;
    if renamed {
      ReplaceInv(s, dirSynced, reopened);
    } else if s.open && !reopened {
      var s' := s.(open := false, broken := true);
      WeakerFile(s.cur, s, s');
      forall k | 0 <= k < |s.older| ensures PastOk(s.older[k], s') { PastSame(s.older[k], s, s'); }
    }
  }

  lemma WeakerFile(f: File, s: State, s': State)
    requires FileOk(f, s) && s'.calls == s.calls && s'.recs == s.recs && s'.nextSeq == s.nextSeq && s'.broken && s'.closed == s.closed
    ensures FileOk(f, s')
  {
    hide May, FileKeeps, FileRetracts, FilePairs, FileVerdicts;
    forall e | May(f, e) ensures Legit(e, s'.calls, s'.recs, s'.nextSeq, s'.broken || s'.tainted) {
      assert Legit(e, s.calls, s.recs, s.nextSeq, s.broken || s.tainted);
    }
  }
}
