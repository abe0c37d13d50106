/** The invariant through the steps that write a marker, or nothing. */
module CommitMarkers {
  import opened LittleEndian
  import opened Journal
  import opened RecordTable
  import opened Scars
  import opened Disk
  import opened GroupCommit
  import opened GroupCommitInv
  import opened CommitPast

  /** A marker keeps any log ordered. */
  lemma SnocOrdered(es: Log, e: Entry)
    requires Ordered(es) && IsPiece(e.rec) && e.rec.seqno <= MAX_SEQ && e.rec.typ != P
    ensures Ordered(es + [e])
  {
    hide IsPiece;
  }

  lemma ExtendWaitOne(f: File, es: Log, cut: bool, older: seq<File>, lastEnd: nat, sync: Sync, recs: seq<Live>, call: Call, c: nat)
    requires Shaped(f) && Ordered(Cur(f) + es) && forall e :: e in es ==> e.tag != c + 1
    requires WaitOne(f, older, lastEnd, sync, recs, call, c)
    ensures WaitOne(Extend(f, es, cut), older, lastEnd, sync, recs, call, c)
  {
    hide Shaped, AbsentFrom, Sure, Ordered, Extend, NeverIn;
    ExtendOk(f, es, cut);
    ExtendGrows(f, es, cut);
    if call.wrote == CutBack { ExtendAbsent(f, es, cut, call.cutAt, c + 1); }
  }

  lemma ExtendMay(f: File, es: Log, cut: bool, calls: seq<Call>, recs: seq<Live>, nextSeq: nat, shaken: bool)
    requires Shaped(f) && Ordered(Cur(f) + es) && FileMay(f, calls, recs, nextSeq, shaken)
    requires forall e :: e in es ==> Legit(e, calls, recs, nextSeq, shaken)
    ensures FileMay(Extend(f, es, cut), calls, recs, nextSeq, shaken)
  {
    hide Shaped, May, Legit, Ordered, Extend;
    ExtendOk(f, es, cut);
  }

  lemma ExtendKeeps(f: File, es: Log, cut: bool, calls: seq<Call>, recs: seq<Live>)
    requires Shaped(f) && Ordered(Cur(f) + es) && FileKeeps(f, calls, recs)
    ensures FileKeeps(Extend(f, es, cut), calls, recs)
  {
    hide Shaped, Sure, Kept, Ordered, Extend;
    ExtendOk(f, es, cut);
  }

  /** Records may be added to a file whose retractions are safe, unless they bring back a
      retracted one. */
  lemma ExtendRetracts(f: File, es: Log, cut: bool, calls: seq<Call>)
    requires Shaped(f) && Ordered(Cur(f) + es) && FileRetracts(f, calls)
    requires forall e, c :: e in es && e.rec.typ == P && 0 <= c < |calls| && calls[c].kind == Cancel ==> e.tag != calls[c].target
    ensures FileRetracts(Extend(f, es, cut), calls)
  {
    hide Shaped, Sure, May, Ordered, Extend;
    ExtendOk(f, es, cut);
  }

  /** What is written does not cross with what is there: no retraction meets another record, and no
      verdict a new one. */
  ghost predicate CrossFit(f: File, es: Log, calls: seq<Call>) {
    && (forall p, d :: p in es && (May(f, d) || d in es) ==> !Judged(p, d))
    && forall p, d :: (May(f, p) || p in es) && (May(f, d) || d in es) && (p in es || d in es) && Paired(p, d) && d.tag <= |calls| ==>
      calls[d.tag - 1].target == p.tag
  }

  lemma ExtendPairs(f: File, es: Log, cut: bool, calls: seq<Call>)
    requires Shaped(f) && Ordered(Cur(f) + es) && FilePairs(f, calls) && CrossFit(f, es, calls)
    ensures FilePairs(Extend(f, es, cut), calls)
  {
    hide Shaped, May, Ordered, Extend, Paired;
    ExtendOk(f, es, cut);
  }

  lemma ExtendVerdicts(f: File, es: Log, cut: bool, closed: set<(nat, nat)>)
    requires Shaped(f) && Ordered(Cur(f) + es) && FileVerdicts(f, closed)
    requires forall p, d :: (May(f, p) || p in es) && (May(f, d) || d in es) && (p in es || d in es) && Judged(p, d) ==> (p.tag, p.rec.seqno) in closed
    ensures FileVerdicts(Extend(f, es, cut), closed)
  {
    hide Shaped, May, Ordered, Extend, Judged;
    ExtendOk(f, es, cut);
  }

  /** Every 'P' in the file with the number of a record in the table is that record's. */
  lemma OnlyItsP(f: File, calls: seq<Call>, recs: seq<Live>, nextSeq: nat, shaken: bool, i: nat, p: Entry)
    requires FileMay(f, calls, recs, nextSeq, shaken) && i < |recs| && May(f, p) && p.rec.typ == P && p.rec.seqno == recs[i].row.seqno
    ensures (p.tag, p.rec.seqno) == Rid(recs[i])
  {
    assert Legit(p, calls, recs, nextSeq, shaken);
  }

  lemma MarkerVerdicts(s: State, es: Log, seqno: nat, typ: Byte)
    requires FileMay(s.cur, s.calls, s.recs, s.nextSeq, s.broken || s.tainted) && FileVerdicts(s.cur, s.closed)
    requires forall e :: e in es ==> e.rec.typ != P && (e.rec.typ == D ==> typ == D && e.rec.seqno == seqno)
    requires typ == D ==> exists i :: 0 <= i < |s.recs| && s.recs[i].row.seqno == seqno && Rid(s.recs[i]) in s.closed
    ensures forall p, d :: (May(s.cur, p) || p in es) && (May(s.cur, d) || d in es) && (p in es || d in es) && Judged(p, d) ==> (p.tag, p.rec.seqno) in s.closed
  {
    hide May, FileMay, FileVerdicts;
    forall p, d | May(s.cur, p) && d in es && Judged(p, d) ensures (p.tag, p.rec.seqno) in s.closed {
      var i :| 0 <= i < |s.recs| && s.recs[i].row.seqno == seqno && Rid(s.recs[i]) in s.closed;
      OnlyItsP(s.cur, s.calls, s.recs, s.nextSeq, s.broken || s.tainted, i, p);
    }
  }

  lemma MarkerLegit(typ: Byte, seqno: nat, calls: seq<Call>, recs: seq<Live>, nextSeq: nat, shaken: bool)
    requires typ != P && seqno < nextSeq <= MAX_SEQ + 1
    requires typ == D ==> forall i :: 0 <= i < |recs| && recs[i].row.seqno == seqno ==> recs[i].row.done
    ensures Legit(Entry(Marker(typ, seqno), 0), calls, recs, nextSeq, shaken)
    ensures Writable(Marker(typ, seqno))
  {
  }

  lemma ScrapLegit(e: Entry, calls: seq<Call>, recs: seq<Live>, nextSeq: nat, shaken: bool)
    requires ScrapEntry(e) && nextSeq > 0
    ensures Legit(e, calls, recs, nextSeq, shaken)
  {
  }

  /** What a marker's write puts in the file, whole or not, is about no call and no 'P'. */
  lemma MarkedFits(f: File, typ: Byte, seqno: nat, mark: MarkFate, calls: seq<Call>, recs: seq<Live>, nextSeq: nat, shaken: bool)
    requires Shaped(f) && typ != P && typ != SCRAP && 0 < nextSeq && seqno < nextSeq <= MAX_SEQ + 1
    requires typ == D ==> forall i :: 0 <= i < |recs| && recs[i].row.seqno == seqno ==> recs[i].row.done
    ensures |f.hist| > 0
    ensures var es := Marked(Entry(Marker(typ, seqno), 0), mark);
            Ordered(Cur(f) + es) && forall e :: e in es ==> e.tag == 0 && e.rec.typ != P && (e.rec.typ == D ==> typ == D && e.rec.seqno == seqno) && Legit(e, calls, recs, nextSeq, shaken)
  {
    hide Legit, Ordered, StableFrom, Left;
    var e := Entry(Marker(typ, seqno), 0);
    MarkerLegit(typ, seqno, calls, recs, nextSeq, shaken);
    ExtendOrdered(f, e);
    var es := Marked(e, mark);
    if mark.MarkStuck? {
      LeftHas(e, mark.n);
      if es == [] {
        assert Cur(f) + [] == Cur(f);
        assert Ordered(f.hist[|f.hist| - 1]);
      } else if es != [e] {
        ScrapLegit(es[0], calls, recs, nextSeq, shaken);
        ScrapIsPiece(es[0].rec);
        ExtendOrdered(f, es[0]);
        assert es == [es[0]];
      }
    }
  }

  lemma ExtendOrdered(f: File, e: Entry)
    requires Shaped(f) && IsPiece(e.rec) && e.rec.seqno <= MAX_SEQ && e.rec.typ != P
    ensures |f.hist| > 0 && Ordered(Cur(f) + [e])
  {
    SnocOrdered(Cur(f), e);
  }

  lemma ExtendGrows(f: File, es: Log, cut: bool)
    requires Shaped(f) && Ordered(Cur(f) + es)
    ensures Shaped(Extend(f, es, cut))
    ensures Extend(f, es, cut).safe == f.safe && |Extend(f, es, cut).hist| > |f.hist|
    ensures |Cur(Extend(f, es, cut))| == |Cur(f)| + if cut then 0 else |es|
  {
    ExtendOk(f, es, cut);
  }

  /** append_marker keeps the invariant, whether the marker is written, cut, stuck or lost. */
  lemma WriteMarkerInv(s: State, typ: Byte, seqno: nat, mark: MarkFate)
    requires Inv(s) && typ != P && typ != SCRAP && seqno < s.nextSeq
    requires typ == D ==> forall i :: 0 <= i < |s.recs| && s.recs[i].row.seqno == seqno ==> s.recs[i].row.done
    requires typ == D ==> exists i :: 0 <= i < |s.recs| && s.recs[i].row.seqno == seqno && Rid(s.recs[i]) in s.closed
    ensures Inv(WriteMarker(s, typ, seqno, mark))
  {
    hide PastOk, FileVerdicts, Shaped, StableFrom, WaitOne, FileMay, FileKeeps, FileRetracts, FilePairs, RecOk, CallOk, AckOne, Ordered, Legit, Extend, May, Marked;
    if s.open && !s.broken {
      var f, es, cut := s.cur, Marked(Entry(Marker(typ, seqno), 0), mark), mark == MarkCut;
      MarkedFits(f, typ, seqno, mark, s.calls, s.recs, s.nextSeq, s.broken || s.tainted);
      ExtendGrows(f, es, cut);
      if s.sync.Running? { ExtendStable(f, es, cut, s.sync.begin, s.sync.end); }
      forall c | 0 <= c < |s.calls| && WaitingNow(s.calls[c])
        ensures WaitOne(Extend(f, es, cut), s.older, s.lastEnd, s.sync, s.recs, s.calls[c], c)
      {
        ExtendWaitOne(f, es, cut, s.older, s.lastEnd, s.sync, s.recs, s.calls[c], c);
      }
      ExtendMay(f, es, cut, s.calls, s.recs, s.nextSeq, s.broken || s.tainted);
      ExtendKeeps(f, es, cut, s.calls, s.recs);
      ExtendRetracts(f, es, cut, s.calls);
      assert CrossFit(f, es, s.calls);
      ExtendPairs(f, es, cut, s.calls);
      MarkerVerdicts(s, es, seqno, typ);
      ExtendVerdicts(f, es, cut, s.closed);
      var s' := WriteMarker(s, typ, seqno, mark);
      forall k | 0 <= k < |s.older| ensures PastOk(s.older[k], s') { PastSame(s.older[k], s, s'); }
    }
  }

  // ---- a change to one record ----

  /** The same record as before, perhaps closed, with the same retractions in flight. */
  ghost predicate SameRec(t: Live, t': Live) {
    && t'.row.seqno == t.row.seqno && t'.row.name == t.row.name && t'.row.payload == t.row.payload
    && t'.tag == t.tag && t'.committing == t.committing
    && (t.row.done ==> t'.row.done)
  }

  lemma ChangeWait(f: File, older: seq<File>, lastEnd: nat, sync: Sync, recs: seq<Live>, call: Call, c: nat, i: nat, t': Live)
    requires i < |recs| && SameRec(recs[i], t') && WaitOne(f, older, lastEnd, sync, recs, call, c)
    ensures WaitOne(f, older, lastEnd, sync, recs[i := t'], call, c)
  {
    hide AbsentFrom, NotSure, NeverIn;
    forall j | 0 <= j < |recs| ensures recs[i := t'][j].row.seqno == recs[j].row.seqno && PEntry(recs[i := t'][j]) == PEntry(recs[j]) {}
  }

  lemma ChangeMay(f: File, calls: seq<Call>, recs: seq<Live>, nextSeq: nat, shaken: bool, i: nat, t': Live)
    requires i < |recs| && SameRec(recs[i], t') && FileMay(f, calls, recs, nextSeq, shaken)
    ensures FileMay(f, calls, recs[i := t'], nextSeq, shaken)
  {
    hide May, Out;
    forall e | May(f, e) ensures Legit(e, calls, recs[i := t'], nextSeq, shaken) {
      assert Legit(e, calls, recs, nextSeq, shaken);
    }
  }

  lemma KeptSame(calls: seq<Call>, t: Live, t': Live)
    requires SameRec(t, t') && Kept(calls, t')
    ensures Kept(calls, t)
  {
  }

  lemma ChangeKeeps(f: File, calls: seq<Call>, recs: seq<Live>, i: nat, t': Live)
    requires i < |recs| && SameRec(recs[i], t') && FileKeeps(f, calls, recs)
    ensures FileKeeps(f, calls, recs[i := t'])
  {
    hide Sure, Kept;
    if Kept(calls, t') {
      KeptSame(calls, recs[i], t');
      assert PEntry(t') == PEntry(recs[i]);
    }
  }

  lemma ChangeFile(f: File, s: State, recs': seq<Live>, s': State, i: nat, t': Live)
    requires FileOk(f, s) && i < |s.recs| && SameRec(s.recs[i], t') && recs' == s.recs[i := t']
    requires s'.calls == s.calls && s'.recs == recs' && s'.nextSeq == s.nextSeq && s'.broken == s.broken && s'.tainted == s.tainted
    requires s.closed <= s'.closed
    ensures FileOk(f, s')
  {
    FewerVerdicts(f, f, s.closed, s'.closed);
    hide FileVerdicts, FileMay, FileKeeps, FileRetracts, FilePairs, SameRec;
    ChangeMay(f, s.calls, s.recs, s.nextSeq, s.broken || s.tainted, i, t');
    ChangeKeeps(f, s.calls, s.recs, i, t');
  }

  lemma {:induction false} CountChange(recs: seq<Live>, i: nat, t': Live)
    requires i < |recs|
    ensures CountOpen(recs[i := t']) + (if IsOpen(recs[i]) then 1 else 0) == CountOpen(recs) + if IsOpen(t') then 1 else 0
    decreases |recs|
  {
    var n := |recs| - 1;
    if i == n {
      assert recs[i := t'][..n] == recs[..n];
    } else {
      assert recs[i := t'][..n] == recs[..n][i := t'];
      CountChange(recs[..n], i, t');
    }
  }

  lemma ChangeHas(recs: seq<Live>, i: nat, t': Live, tag: nat, q: nat)
    requires i < |recs| && SameRec(recs[i], t') && HasRec(recs, tag, q)
    ensures HasRec(recs[i := t'], tag, q)
  {
    var k :| 0 <= k < |recs| && recs[k].tag == tag && recs[k].row.seqno == q;
    assert recs[i := t'][k].tag == tag && recs[i := t'][k].row.seqno == q;
  }

  lemma ChangeCall(calls: seq<Call>, recs: seq<Live>, nextSeq: nat, c: nat, i: nat, t': Live)
    requires i < |recs| && SameRec(recs[i], t') && c < |calls| && CallOk(calls, recs, nextSeq, c)
    ensures CallOk(calls, recs[i := t'], nextSeq, c)
  {
    hide HasRec, DurablyRetracted, MadeDurable, Out;
    var call, recs' := calls[c], recs[i := t'];
    if call.kind == Submit && call.phase == InFlight {
      forall q | call.first <= q <= call.last ensures Submitted(recs', c, q) {
        assert Submitted(recs, c, q);
        ChangeHas(recs, i, t', c + 1, q);
      }
    }
    if call.kind == Cancel && HasRec(recs, call.target, call.first) {
      ChangeHas(recs, i, t', call.target, call.first);
    }
  }

  lemma ChangeAck(calls: seq<Call>, recs: seq<Live>, closed: set<(nat, nat)>, closed': set<(nat, nat)>, tainted: bool, c: nat, q: nat, i: nat, t': Live)
    requires i < |recs| && SameRec(recs[i], t') && c < |calls| && AckOne(calls, recs, closed, tainted, c, q)
    requires closed <= closed' && (t'.row.done && !recs[i].row.done ==> Rid(t') in closed')
    ensures AckOne(calls, recs[i := t'], closed', tainted, c, q)
  {
    hide Doubtful;
    if HasOpen(recs, c + 1, q) && (c + 1, q) !in closed' {
      var k :| 0 <= k < |recs| && recs[k].tag == c + 1 && recs[k].row.seqno == q && !recs[k].row.done;
      assert recs[i := t'][k].tag == c + 1 && recs[i := t'][k].row.seqno == q && !recs[i := t'][k].row.done;
    }
  }

  /** Any change to one record that leaves its identity alone keeps the invariant. */
  lemma ChangeRecInv(s: State, i: nat, t': Live, pending': nat, closed': set<(nat, nat)>)
    requires Inv(s) && i < |s.recs| && SameRec(s.recs[i], t') && RecOk(t', s.calls, s.nextSeq, s.tainted)
    requires pending' + (if IsOpen(s.recs[i]) then 1 else 0) == s.pending + if IsOpen(t') then 1 else 0
    requires closed' == s.closed || (closed' == s.closed + {Rid(t')} && t'.row.done)
    requires t'.row.done && !s.recs[i].row.done ==> Rid(t') in closed'
    ensures Inv(s.(recs := s.recs[i := t'], pending := pending', closed := closed'))
  {
    hide Shaped, WaitOne, FileOk, PastOk, RecOk, CallOk, AckOne, StableFrom, CountOpen;
    var recs' := s.recs[i := t'];
    var s' := s.(recs := recs', pending := pending', closed := closed');
    forall c | 0 <= c < |s.calls| && WaitingNow(s.calls[c]) ensures WaitOne(s.cur, s.older, s.lastEnd, s.sync, recs', s.calls[c], c) {
      ChangeWait(s.cur, s.older, s.lastEnd, s.sync, s.recs, s.calls[c], c, i, t');
    }
    ChangeFile(s.cur, s, recs', s', i, t');
    forall k | 0 <= k < |s.older| ensures PastOk(s.older[k], s') { PastSame(s.older[k], s, s'); }
    CountChange(s.recs, i, t');
    forall c | 0 <= c < |s.calls| ensures CallOk(s.calls, recs', s.nextSeq, c) { ChangeCall(s.calls, s.recs, s.nextSeq, c, i, t'); }
    forall c, q | 0 <= c < |s.calls| ensures AckOne(s.calls, recs', closed', s.tainted, c, q) {
      ChangeAck(s.calls, s.recs, s.closed, closed', s.tainted, c, q, i, t');
    }
    assert Ascending(Rows(recs')) by { ChangeAscending(s.recs, i, t'); }
  }

  lemma RecTag(t: Live, calls: seq<Call>, nextSeq: nat, tainted: bool)
    requires RecOk(t, calls, nextSeq, tainted)
    ensures 1 <= t.tag <= |calls| && 1 <= t.row.seqno < nextSeq
    ensures t.committing ==> !t.row.done && !t.row.quarantined
  {
  }

  lemma ChangeAscending(recs: seq<Live>, i: nat, t': Live)
    requires i < |recs| && t'.row.seqno == recs[i].row.seqno && Ascending(Rows(recs))
    ensures Ascending(Rows(recs[i := t']))
  {
    var rows' := Rows(recs[i := t']);
    forall a, b | 0 <= a < b < |recs| ensures rows'[a].seqno < rows'[b].seqno {
      assert Rows(recs)[a].seqno < Rows(recs)[b].seqno;
    }
  }

  // ---- the steps ----

  lemma HandInv(s: State, i: nat)
    requires Inv(s) && Enabled(s, Hand(i))
    ensures Inv(DoHand(s, i))
  {
    hide Inv, Image;
    RecAt(s, i);
    ChangeRecInv(s, i, s.recs[i].(handed := true), s.pending, s.closed);
    assert DoHand(s, i) == s.(recs := s.recs[i := s.recs[i].(handed := true)], pending := s.pending, closed := s.closed);
  }

  lemma RecAt(s: State, i: nat)
    requires Inv(s) && i < |s.recs|
    ensures RecOk(s.recs[i], s.calls, s.nextSeq, s.tainted)
    ensures IsOpen(s.recs[i]) ==> s.pending > 0
    ensures HasFile(s)
  {
    hide CountOpen;
    if IsOpen(s.recs[i]) { CountHas(s.recs, i); }
  }

  lemma {:induction false} CountHas(recs: seq<Live>, i: nat)
    requires i < |recs| && IsOpen(recs[i])
    ensures CountOpen(recs) > 0
  {
    if i < |recs| - 1 {
      CountHas(recs[..|recs| - 1], i);
    }
  }

  lemma StartedInv(s: State, i: nat, mark: MarkFate)
    requires Inv(s) && Enabled(s, Started(i, mark))
    ensures Inv(DoStarted(s, i, mark))
  {
    hide Inv, Image;
    RecAt(s, i);
    var t := s.recs[i];
    var t' := t.(row := t.row.(inflight := true));
    ChangeRecInv(s, i, t', s.pending, s.closed);
    WriteMarkerInv(s.(recs := s.recs[i := t'], pending := s.pending, closed := s.closed), S, t.row.seqno, mark);
  }

  lemma AttemptEndedInv(s: State, i: nat, mark: MarkFate)
    requires Inv(s) && Enabled(s, AttemptEnded(i, mark))
    ensures Inv(DoAttemptEnded(s, i, mark))
  {
    hide Inv, Image;
    RecAt(s, i);
    var t := s.recs[i];
    var t' := t.(row := t.row.(inflight := false, crashes := 0));
    ChangeRecInv(s, i, t', s.pending, s.closed);
    WriteMarkerInv(s.(recs := s.recs[i := t'], pending := s.pending, closed := s.closed), F, t.row.seqno, mark);
  }

  lemma CloseRecInv(s: State, i: nat)
    requires Inv(s) && i < |s.recs| && IsOpen(s.recs[i])
    requires s.recs[i].deferred == NoVerdict
    requires s.recs[i].retracting > 0 ==> DurablyRetracted(s.calls, s.recs[i].tag, s.recs[i].row.seqno)
    ensures Inv(CloseRec(s, i))
  {
    hide Inv;
    RecAt(s, i);
    var t := s.recs[i];
    ChangeRecInv(s, i, t.(row := t.row.(done := true, inflight := false)), s.pending - 1, s.closed + {Rid(t)});
  }

  /** No other record has the number of record `i`. */
  lemma Numbered(s: State, i: nat)
    requires Inv(s) && i < |s.recs|
    ensures forall k :: 0 <= k < |s.recs| && k != i ==> s.recs[k].row.seqno != s.recs[i].row.seqno
  {
    var rows := Rows(s.recs);
    assert Ascending(rows);
    assert forall k :: 0 <= k < |s.recs| ==> rows[k] == s.recs[k].row;
  }

  /** Once a record is closed, a 'D' for it may be written. */
  lemma ClosedD(s: State, i: nat, mark: MarkFate)
    requires Inv(s) && i < |s.recs| && s.recs[i].row.done && Rid(s.recs[i]) in s.closed
    ensures Inv(WriteMarker(s, D, s.recs[i].row.seqno, mark))
  {
    Numbered(s, i);
    hide Inv;
    RecAt(s, i);
    WriteMarkerInv(s, D, s.recs[i].row.seqno, mark);
  }

  lemma RefuseInv(s: State, i: nat, mark: MarkFate)
    requires Inv(s) && Enabled(s, Refuse(i, mark))
    ensures Inv(DoRefuse(s, i, mark))
  {
    hide Inv, Image;
    RecAt(s, i);
    CloseRecInv(s, i);
    ClosedD(CloseRec(s, i), i, mark);
  }

  lemma ApplyVerdictInv(s: State, i: nat, v: Verdict, mark: MarkFate)
    requires Inv(s) && i < |s.recs| && IsOpen(s.recs[i]) && s.recs[i].retracting == 0 && v != NoVerdict
    ensures HasFile(s) && Inv(ApplyVerdict(s, i, v, mark))
  {
    hide Inv;
    RecAt(s, i);
    var t := s.recs[i];
    if v == Poison {
      var t' := t.(row := t.row.(quarantined := true, inflight := false), deferred := NoVerdict);
      ChangeRecInv(s, i, t', s.pending - 1, s.closed);
      WriteMarkerInv(s.(recs := s.recs[i := t'], pending := s.pending - 1, closed := s.closed), Q, t.row.seqno, mark);
    } else {
      assert s.recs[i := t.(deferred := NoVerdict)] == s.recs;
      CloseRecInv(s, i);
      ClosedD(CloseRec(s, i), i, mark);
    }
  }

  lemma VerdictInv(s: State, i: nat, v: Verdict, mark: MarkFate)
    requires Inv(s) && Enabled(s, VerdictStep(i, v, mark))
    ensures Inv(DoVerdict(s, i, v, mark))
  {
    hide Inv, Image;
    RecAt(s, i);
    var t := s.recs[i];
    if t.retracting > 0 {
      ChangeRecInv(s, i, t.(deferred := v), s.pending, s.closed);
    } else {
      ApplyVerdictInv(s, i, v, mark);
    }
  }

  lemma DrainInv(s: State, i: nat)
    requires Inv(s) && Enabled(s, Drain(i))
    ensures Inv(DoDrain(s, i))
  {
    hide Inv, Image;
    RecAt(s, i);
    var t := s.recs[i];
    ChangeRecInv(s, i, t.(row := t.row.(quarantined := false, done := true)), s.pending, s.closed + {Rid(t)});
  }
}
