/** The invariant through the answers: a submit's, and a retraction's. */
module CommitAnswers {
  import opened Sequences
  import opened Journal
  import opened RecordTable
  import opened Disk
  import opened GroupCommit
  import opened GroupCommitInv
  import opened CommitPast
  import opened CommitMarkers
  import opened CommitSync

  /** The same calls, but that call `c` has been answered. */
  ghost predicate Answered(calls: seq<Call>, calls': seq<Call>, c: nat) {
    && c < |calls| && calls[c].phase == InFlight && |calls'| == |calls|
    && (calls'[c] == calls[c].(phase := ToldOk) || calls'[c] == calls[c].(phase := ToldIo))
    && forall k :: 0 <= k < |calls| && k != c ==> calls'[k] == calls[k]
  }

  lemma AnsweredRetracts(calls: seq<Call>, calls': seq<Call>, c: nat, tag: nat, q: nat)
    requires Answered(calls, calls', c)
    ensures DurablyRetracted(calls, tag, q) <==> DurablyRetracted(calls', tag, q)
    ensures forall tainted :: Doubtful(calls, tainted, tag, q) ==> Doubtful(calls', tainted, tag, q)
  {
    if DurablyRetracted(calls, tag, q) {
      var k :| 0 <= k < |calls| && Retracts(calls[k], tag, q) && MadeDurable(calls[k]);
      assert Retracts(calls'[k], tag, q) && MadeDurable(calls'[k]);
    }
    forall tainted | Doubtful(calls, tainted, tag, q) ensures Doubtful(calls', tainted, tag, q) {
      var k :| 0 <= k < |calls| && Retracts(calls[k], tag, q) && (tainted || (calls[k].phase == Lost && !Out(calls[k])));
      assert Retracts(calls'[k], tag, q);
    }
  }

  lemma {:induction false} AnsweredCount(calls: seq<Call>, calls': seq<Call>, c: nat, tag: nat, q: nat)
    requires Answered(calls, calls', c)
    ensures CountRetracting(calls, tag, q) == CountRetracting(calls', tag, q) + if Retracts(calls[c], tag, q) then 1 else 0
    decreases |calls|
  {
    var n := |calls| - 1;
    if c == n {
      assert calls[..n] == calls'[..n];
    } else {
      AnsweredCount(calls[..n], calls'[..n], c, tag, q);
    }
  }

  lemma AnsweredKept(calls: seq<Call>, calls': seq<Call>, c: nat, t: Live)
    requires Answered(calls, calls', c) && Kept(calls', t)
    requires Retracts(calls[c], t.tag, t.row.seqno) ==> !MadeDurable(calls[c])
    ensures Kept(calls, t)
  {
    forall k | 0 <= k < |calls| && calls[k].phase == InFlight && Retracts(calls[k], t.tag, t.row.seqno) ensures !MadeDurable(calls[k]) {
      if k != c {
        assert calls'[k].phase == InFlight && Retracts(calls'[k], t.tag, t.row.seqno);
        assert !MadeDurable(calls'[k]);
      }
    }
  }

  lemma AnsweredLegit(e: Entry, calls: seq<Call>, calls': seq<Call>, c: nat, recs: seq<Live>, recs': seq<Live>, nextSeq: nat, shaken: bool)
    requires Answered(calls, calls', c) && Legit(e, calls, recs, nextSeq, shaken) && |recs'| == |recs|
    requires forall k :: 0 <= k < |recs| ==> recs'[k].row.seqno == recs[k].row.seqno && recs'[k].tag == recs[k].tag && (recs[k].row.done ==> recs'[k].row.done)
    ensures Legit(e, calls', recs', nextSeq, shaken)
  {
  }

  // ---- a submit ----

  lemma EndedSame(recs: seq<Live>, tag: nat, ok: bool, k: nat)
    requires k < |recs|
    ensures var t, t' := recs[k], EndCommit(recs, tag, ok)[k];
            t'.row.seqno == t.row.seqno && t'.tag == t.tag && PEntry(t') == PEntry(t) && (t.row.done ==> t'.row.done)
            && (t.tag != tag ==> t' == t)
  {
  }

  lemma EndedWait(f: File, older: seq<File>, lastEnd: nat, sync: Sync, recs: seq<Live>, call: Call, c: nat, tag: nat, ok: bool)
    requires WaitOne(f, older, lastEnd, sync, recs, call, c)
    ensures WaitOne(f, older, lastEnd, sync, EndCommit(recs, tag, ok), call, c)
  {
    hide AbsentFrom, NotSure, NeverIn, NotBefore, EndCommit;
    forall k | 0 <= k < |recs| ensures EndCommit(recs, tag, ok)[k].tag == recs[k].tag
      && EndCommit(recs, tag, ok)[k].row.seqno == recs[k].row.seqno && PEntry(EndCommit(recs, tag, ok)[k]) == PEntry(recs[k])
    {
      EndedSame(recs, tag, ok, k);
    }
  }

  lemma EndedRec(t: Live, t': Live, calls: seq<Call>, calls': seq<Call>, c: nat, nextSeq: nat, tainted: bool, ok: bool)
    requires Answered(calls, calls', c) && calls[c].kind == Submit && ok == MadeDurable(calls[c]) && RecOk(t, calls, nextSeq, tainted)
    requires t' == if t.tag == c + 1 && t.committing then t.(committing := false, row := t.row.(done := t.row.done || !ok)) else t
    ensures RecOk(t', calls', nextSeq, tainted)
  {
    hide DurablyRetracted, CountRetracting;
    AnsweredRetracts(calls, calls', c, t.tag, t.row.seqno);
    AnsweredCount(calls, calls', c, t.tag, t.row.seqno);
  }

  lemma EndedPrefix(recs: seq<Live>, tag: nat, ok: bool)
    requires |recs| > 0
    ensures EndCommit(recs, tag, ok)[..|recs| - 1] == EndCommit(recs[..|recs| - 1], tag, ok)
  {
  }

  lemma {:induction false} EndedCount(recs: seq<Live>, tag: nat, ok: bool)
    requires forall k :: 0 <= k < |recs| && recs[k].committing ==> !recs[k].row.done && !recs[k].row.quarantined
    ensures CountOpen(EndCommit(recs, tag, ok)) == CountOpen(recs) + if ok then CountCommitting(recs, tag) else 0
  {
    if |recs| > 0 {
      var n := |recs| - 1;
      EndedCount(recs[..n], tag, ok);
      EndedPrefix(recs, tag, ok);
    }
  }

  lemma EndedHas(recs: seq<Live>, tag: nat, ok: bool, g: nat, q: nat)
    ensures HasRec(recs, g, q) ==> HasRec(EndCommit(recs, tag, ok), g, q)
    ensures g != tag && HasOpen(recs, g, q) ==> HasOpen(EndCommit(recs, tag, ok), g, q)
    ensures ok && HasOpen(recs, g, q) ==> HasOpen(EndCommit(recs, tag, ok), g, q)
  {
    var recs' := EndCommit(recs, tag, ok);
    if HasRec(recs, g, q) {
      var k :| 0 <= k < |recs| && recs[k].tag == g && recs[k].row.seqno == q;
      assert recs'[k].tag == g && recs'[k].row.seqno == q;
    }
    if (g != tag || ok) && HasOpen(recs, g, q) {
      var k :| 0 <= k < |recs| && recs[k].tag == g && recs[k].row.seqno == q && !recs[k].row.done;
      assert recs'[k].tag == g && recs'[k].row.seqno == q && !recs'[k].row.done;
    }
  }

  lemma EndedCall(calls: seq<Call>, calls': seq<Call>, recs: seq<Live>, ok: bool, nextSeq: nat, c: nat, k: nat)
    requires Answered(calls, calls', c) && calls[c].kind == Submit && k < |calls| && CallOk(calls, recs, nextSeq, k)
    requires (calls'[c].phase == ToldIo ==> Out(calls[c])) && (calls'[c].phase == ToldOk ==> MadeDurable(calls[c]))
    ensures CallOk(calls', EndCommit(recs, c + 1, ok), nextSeq, k)
  {
    hide DurablyRetracted, HasRec, EndCommit;
    var recs' := EndCommit(recs, c + 1, ok);
    forall j | 0 <= j < |recs| ensures recs'[j].tag == recs[j].tag && recs'[j].row.seqno == recs[j].row.seqno && (recs[j].row.done ==> recs'[j].row.done) {
      EndedSame(recs, c + 1, ok, j);
    }
    var call := calls[k];
    AnsweredRetracts(calls, calls', c, call.target, call.first);
    EndedHas(recs, c + 1, ok, call.target, call.first);
    if k != c && call.kind == Submit && call.phase == InFlight {
      forall q | call.first <= q <= call.last ensures Submitted(recs', k, q) {
        assert Submitted(recs, k, q);
        EndedHas(recs, c + 1, ok, k + 1, q);
      }
    }
  }

  lemma EndedAck(s: State, c: nat, k: nat, q: nat)
    requires RecsOk(s) && CallsOk(s) && AckOk(s) && c < |s.calls| && s.calls[c].kind == Submit && MayAnswer(s.calls[c]) && k < |s.calls|
    ensures var s' := DoAnswerSubmit(s, c); AckOne(s'.calls, s'.recs, s'.closed, s'.tainted, k, q)
  {
    hide Doubtful, HasOpen, MadeDurable, EndCommit, RecOk, CountOpen, Ascending, CountCommitting;
    var s', ok := DoAnswerSubmit(s, c), MadeDurable(s.calls[c]);
    AnsweredRetracts(s.calls, s'.calls, c, k + 1, q);
    EndedHas(s.recs, c + 1, ok, k + 1, q);
    if k == c {
      if ok && s.calls[c].first <= q <= s.calls[c].last {
        CommittedOpen(s, c, q);
      }
    } else {
      assert AckOne(s.calls, s.recs, s.closed, s.tainted, k, q);
    }
  }

  lemma AnsweredPast(f: File, s: State, s': State, c: nat)
    requires PastOk(f, s) && Answered(s.calls, s'.calls, c) && s.closed <= s'.closed && s'.broken == s.broken && s'.tainted == s.tainted
    ensures PastOk(f, s')
  {
    hide PastOk, May;
    PastOn(f, s, s');
  }

  lemma EndedFile(f: File, s: State, c: nat)
    requires FileOk(f, s) && RecsOk(s) && c < |s.calls| && s.calls[c].kind == Submit && MayAnswer(s.calls[c])
    ensures FileOk(f, DoAnswerSubmit(s, c))
  {
    hide May, Sure, Out, EndCommit, CountOpen, CountCommitting, Ascending, RetractedIn, FilePairs, FileVerdicts;
    var s', ok := DoAnswerSubmit(s, c), MadeDurable(s.calls[c]);
    assert Answered(s.calls, s'.calls, c);
    FewerPairs(f, f, s.calls, s'.calls);
    forall j | 0 <= j < |s.recs|
      ensures s'.recs[j].tag == s.recs[j].tag && s'.recs[j].row.seqno == s.recs[j].row.seqno && (s.recs[j].row.done ==> s'.recs[j].row.done)
    {
      EndedSame(s.recs, c + 1, ok, j);
    }
    forall e | May(f, e) ensures Legit(e, s'.calls, s'.recs, s'.nextSeq, s'.broken || s'.tainted) {
      AnsweredLegit(e, s.calls, s'.calls, c, s.recs, s'.recs, s.nextSeq, s.broken || s.tainted);
    }
    forall j | 0 <= j < |s'.recs| && Kept(s'.calls, s'.recs[j]) ensures Sure(f, PEntry(s'.recs[j])) {
      EndedKept(s, c, j);
      EndedSame(s.recs, c + 1, ok, j);
    }
  }

  lemma EndedKept(s: State, c: nat, j: nat)
    requires RecsOk(s) && c < |s.calls| && s.calls[c].kind == Submit && MayAnswer(s.calls[c]) && j < |s.recs|
    requires Kept(DoAnswerSubmit(s, c).calls, DoAnswerSubmit(s, c).recs[j])
    ensures Kept(s.calls, s.recs[j])
  {
    hide CountOpen, CountCommitting, Ascending, CountRetracting, DurablyRetracted;
    var s' := DoAnswerSubmit(s, c);
    assert Answered(s.calls, s'.calls, c);
    assert RecOk(s.recs[j], s.calls, s.nextSeq, s.tainted);
    AnsweredKept(s.calls, s'.calls, c, s'.recs[j]);
  }

  lemma AnswerSubmitInv(s: State, c: nat)
    requires Inv(s) && Enabled(s, AnswerSubmit(c))
    ensures Inv(DoAnswerSubmit(s, c))
  {
    hide Shaped, StableFrom, WaitOne, FileOk, PastOk, RecOk, CallOk, AckOne, CountOpen, CountCommitting, EndCommit, Image, Ascending;
    var s', ok := DoAnswerSubmit(s, c), MadeDurable(s.calls[c]);
    assert Answered(s.calls, s'.calls, c);
    forall k | 0 <= k < |s'.calls| && WaitingNow(s'.calls[k])
      ensures WaitOne(s'.cur, s'.older, s'.lastEnd, s'.sync, s'.recs, s'.calls[k], k)
    {
      EndedWait(s.cur, s.older, s.lastEnd, s.sync, s.recs, s.calls[k], k, c + 1, ok);
    }
    EndedFile(s.cur, s, c);
    forall k | 0 <= k < |s.older| ensures PastOk(s.older[k], s') { AnsweredPast(s.older[k], s, s', c); }
    EndedRecs(s, c);
    forall k | 0 <= k < |s.calls| ensures CallOk(s'.calls, s'.recs, s'.nextSeq, k) {
      EndedCall(s.calls, s'.calls, s.recs, ok, s.nextSeq, c, k);
    }
    forall k, q | 0 <= k < |s'.calls| ensures AckOne(s'.calls, s'.recs, s'.closed, s'.tainted, k, q) { EndedAck(s, c, k, q); }
  }

  lemma EndedRecs(s: State, c: nat)
    requires RecsOk(s) && c < |s.calls| && s.calls[c].kind == Submit && MayAnswer(s.calls[c])
    ensures RecsOk(DoAnswerSubmit(s, c))
  {
    hide RecOk, CountOpen, CountCommitting, MadeDurable;
    var s', ok := DoAnswerSubmit(s, c), MadeDurable(s.calls[c]);
    forall k | 0 <= k < |s.recs| ensures RecOk(s'.recs[k], s'.calls, s'.nextSeq, s'.tainted) {
      EndedRec(s.recs[k], s'.recs[k], s.calls, s'.calls, c, s.nextSeq, s.tainted, ok);
    }
    forall k | 0 <= k < |s.recs| && s.recs[k].committing ensures !s.recs[k].row.done && !s.recs[k].row.quarantined {
      RecTag(s.recs[k], s.calls, s.nextSeq, s.tainted);
    }
    EndedCount(s.recs, c + 1, ok);
    var rows, rows' := Rows(s.recs), Rows(s'.recs);
    assert forall k :: 0 <= k < |rows| ==> rows'[k].seqno == rows[k].seqno;
  }

  // ---- a retraction ----

  /** A retraction's answer, and what it does to its record. */
  function Retire(s: State, c: nat, i: nat, t': Live, phase: Phase, pending: nat, closed: set<(nat, nat)>): State
    requires c < |s.calls| && i < |s.recs|
  {
    s.(recs := s.recs[i := t'], calls := s.calls[c := s.calls[c].(phase := phase)], pending := pending, closed := closed)
  }

  ghost predicate MayRetire(s: State, c: nat, i: nat, t': Live, phase: Phase, pending: nat, closed: set<(nat, nat)>) {
    && c < |s.calls| && i < |s.recs| && s.calls[c].kind == Cancel && MayAnswer(s.calls[c])
    && Retracts(s.calls[c], s.recs[i].tag, s.recs[i].row.seqno) && SameRec(s.recs[i], t')
    && RecOk(t', s.calls[c := s.calls[c].(phase := phase)], s.nextSeq, s.tainted)
    && (phase == ToldOk || phase == ToldIo)
    && (phase == ToldOk ==> t'.row.done && DurablyRetracted(s.calls, t'.tag, t'.row.seqno))
    && (MadeDurable(s.calls[c]) ==> t'.row.done && phase == ToldOk)
    && pending + (if IsOpen(s.recs[i]) then 1 else 0) == s.pending + (if IsOpen(t') then 1 else 0)
    && (closed == s.closed || (closed == s.closed + {Rid(t')} && t'.row.done))
    && (t'.row.done && !s.recs[i].row.done ==> Rid(t') in closed)
  }

  lemma RetireFile(f: File, s: State, s': State, c: nat, i: nat, t': Live)
    requires FileOk(f, s) && Answered(s.calls, s'.calls, c) && i < |s.recs| && SameRec(s.recs[i], t') && s'.recs == s.recs[i := t']
    requires s'.nextSeq == s.nextSeq && s'.broken == s.broken && s'.tainted == s.tainted && s.closed <= s'.closed
    requires forall k :: 0 <= k < |s.recs| && k != i ==> s.recs[k].row.seqno != s.recs[i].row.seqno
    requires Retracts(s.calls[c], t'.tag, t'.row.seqno) && (MadeDurable(s.calls[c]) ==> t'.row.done)
    ensures FileOk(f, s')
  {
    hide May, Sure, Out, RetractedIn, RetractedDurably, FilePairs, FileVerdicts;
    FewerPairs(f, f, s.calls, s'.calls);
    FewerVerdicts(f, f, s.closed, s'.closed);
    forall e | May(f, e) ensures Legit(e, s'.calls, s'.recs, s'.nextSeq, s'.broken || s'.tainted) {
      AnsweredLegit(e, s.calls, s'.calls, c, s.recs, s'.recs, s.nextSeq, s.broken || s.tainted);
    }
    forall j | 0 <= j < |s'.recs| && Kept(s'.calls, s'.recs[j]) ensures Sure(f, PEntry(s'.recs[j])) {
      AnsweredKept(s.calls, s'.calls, c, s'.recs[j]);
      KeptSame(s.calls, s.recs[j], s'.recs[j]);
      assert PEntry(s'.recs[j]) == PEntry(s.recs[j]);
    }
  }

  lemma RetireOtherRec(t: Live, calls: seq<Call>, calls': seq<Call>, c: nat, nextSeq: nat, tainted: bool)
    requires Answered(calls, calls', c) && calls[c].kind == Cancel && RecOk(t, calls, nextSeq, tainted)
    requires !Retracts(calls[c], t.tag, t.row.seqno)
    ensures RecOk(t, calls', nextSeq, tainted)
  {
    hide DurablyRetracted, CountRetracting;
    AnsweredRetracts(calls, calls', c, t.tag, t.row.seqno);
    AnsweredCount(calls, calls', c, t.tag, t.row.seqno);
  }

  lemma AnsweredCall(calls: seq<Call>, calls': seq<Call>, recs: seq<Live>, nextSeq: nat, c: nat, k: nat)
    requires Answered(calls, calls', c) && calls[c].kind == Cancel && k < |calls| && CallOk(calls, recs, nextSeq, k)
    requires calls'[c].phase == ToldIo ==> Out(calls[c])
    requires k == c && calls'[c].phase == ToldOk ==> DurablyRetracted(calls, calls[c].target, calls[c].first)
    requires k == c && (calls'[c].phase == ToldOk || MadeDurable(calls[c])) ==>
               forall i :: 0 <= i < |recs| && Rid(recs[i]) == (calls[c].target, calls[c].first) ==> recs[i].row.done
    ensures CallOk(calls', recs, nextSeq, k)
  {
    hide DurablyRetracted, HasRec;
    AnsweredRetracts(calls, calls', c, calls[k].target, calls[k].first);
  }

  lemma AnsweredAck(calls: seq<Call>, calls': seq<Call>, recs: seq<Live>, closed: set<(nat, nat)>, tainted: bool, c: nat, k: nat, q: nat)
    requires Answered(calls, calls', c) && calls[c].kind == Cancel && k < |calls| && AckOne(calls, recs, closed, tainted, k, q)
    ensures AckOne(calls', recs, closed, tainted, k, q)
  {
    hide Doubtful, HasOpen, DurablyRetracted, MadeDurable, Out;
    AnsweredRetracts(calls, calls', c, k + 1, q);
  }

  lemma RetireRecs(s: State, c: nat, i: nat, t': Live, phase: Phase, pending: nat, closed: set<(nat, nat)>)
    requires Inv(s) && MayRetire(s, c, i, t', phase, pending, closed)
    ensures RecsOk(Retire(s, c, i, t', phase, pending, closed))
  {
    hide RecOk, CountOpen, FilesOk, SyncShape, WaitOk, CrashOk, CallsOk, AckOk, Ascending;
    var s' := Retire(s, c, i, t', phase, pending, closed);
    assert Answered(s.calls, s'.calls, c);
    Numbered(s, i);
    forall k | 0 <= k < |s.recs| ensures RecOk(s'.recs[k], s'.calls, s'.nextSeq, s'.tainted) {
      if k != i { RetireOtherRec(s.recs[k], s.calls, s'.calls, c, s.nextSeq, s.tainted); }
    }
    CountChange(s.recs, i, t');
    ChangeAscending(s.recs, i, t');
  }

  lemma RetireCalls(s: State, c: nat, i: nat, t': Live, phase: Phase, pending: nat, closed: set<(nat, nat)>)
    requires Inv(s) && MayRetire(s, c, i, t', phase, pending, closed)
    ensures CallsOk(Retire(s, c, i, t', phase, pending, closed))
    ensures AckOk(Retire(s, c, i, t', phase, pending, closed))
  {
    hide RecOk, RecsOk, FilesOk, SyncShape, WaitOk, CrashOk, CallOk, AckOne, DurablyRetracted;
    var s' := Retire(s, c, i, t', phase, pending, closed);
    assert Answered(s.calls, s'.calls, c);
    Numbered(s, i);
    forall k | 0 <= k < |s.calls| ensures CallOk(s'.calls, s'.recs, s'.nextSeq, k) {
      ChangeCall(s.calls, s.recs, s.nextSeq, k, i, t');
      AnsweredCall(s.calls, s'.calls, s'.recs, s.nextSeq, c, k);
    }
    forall k, q | 0 <= k < |s.calls| ensures AckOne(s'.calls, s'.recs, s'.closed, s'.tainted, k, q) {
      ChangeAck(s.calls, s.recs, s.closed, closed, s.tainted, k, q, i, t');
      AnsweredAck(s.calls, s'.calls, s'.recs, closed, s.tainted, c, k, q);
    }
  }

  lemma RetireInv(s: State, c: nat, i: nat, t': Live, phase: Phase, pending: nat, closed: set<(nat, nat)>)
    requires Inv(s) && MayRetire(s, c, i, t', phase, pending, closed)
    ensures Inv(Retire(s, c, i, t', phase, pending, closed))
  {
    hide Shaped, StableFrom, WaitOne, FileOk, PastOk, RecOk, CallOk, AckOne, CountOpen, DurablyRetracted;
    var s' := Retire(s, c, i, t', phase, pending, closed);
    assert Answered(s.calls, s'.calls, c);
    Numbered(s, i);
    forall k | 0 <= k < |s'.calls| && WaitingNow(s'.calls[k])
      ensures WaitOne(s'.cur, s'.older, s'.lastEnd, s'.sync, s'.recs, s'.calls[k], k)
    {
      ChangeWait(s.cur, s.older, s.lastEnd, s.sync, s.recs, s.calls[k], k, i, t');
    }
    RetireFile(s.cur, s, s', c, i, t');
    forall k | 0 <= k < |s.older| ensures PastOk(s.older[k], s') { AnsweredPast(s.older[k], s, s', c); }
    RetireRecs(s, c, i, t', phase, pending, closed);
    RetireCalls(s, c, i, t', phase, pending, closed);
  }

  /** The record is gone already: a concurrent retraction took it. */
  lemma AnswerMissingInv(s: State, c: nat)
    requires Inv(s) && c < |s.calls| && s.calls[c].kind == Cancel && MayAnswer(s.calls[c])
    requires Find(Rows(s.recs), s.calls[c].first) == |s.recs|
    ensures Inv(s.(calls := s.calls[c := s.calls[c].(phase := ToldOk)]))
  {
    hide Shaped, StableFrom, WaitOne, RecOk, CallOk, AckOne, CountOpen, DurablyRetracted, FileOk, PastOk, Ascending;
    var s' := s.(calls := s.calls[c := s.calls[c].(phase := ToldOk)]);
    assert Answered(s.calls, s'.calls, c);
    MissingDurable(s, c);
    forall k | 0 <= k < |s.recs| ensures RecOk(s.recs[k], s'.calls, s.nextSeq, s.tainted) {
      RetireOtherRec(s.recs[k], s.calls, s'.calls, c, s.nextSeq, s.tainted);
    }
    forall k | 0 <= k < |s.calls| ensures CallOk(s'.calls, s.recs, s.nextSeq, k) { AnsweredCall(s.calls, s'.calls, s.recs, s.nextSeq, c, k); }
    forall k, q | 0 <= k < |s.calls| ensures AckOne(s'.calls, s.recs, s.closed, s.tainted, k, q) {
      AnsweredAck(s.calls, s'.calls, s.recs, s.closed, s.tainted, c, k, q);
    }
    MissingFile(s.cur, s, c);
    forall k | 0 <= k < |s.older| ensures PastOk(s.older[k], s') { AnsweredPast(s.older[k], s, s', c); }
  }

  lemma MissingDurable(s: State, c: nat)
    requires Inv(s) && c < |s.calls| && s.calls[c].kind == Cancel && MayAnswer(s.calls[c])
    requires Find(Rows(s.recs), s.calls[c].first) == |s.recs|
    ensures DurablyRetracted(s.calls, s.calls[c].target, s.calls[c].first)
    ensures forall k :: 0 <= k < |s.recs| ==> s.recs[k].row.seqno != s.calls[c].first
  {
    hide DurablyRetracted, CountOpen, RecOk;
    var rows := Rows(s.recs);
    assert forall k :: 0 <= k < |rows| ==> rows[k].seqno != s.calls[c].first;
    assert forall k :: 0 <= k < |s.recs| ==> s.recs[k].row.seqno != s.calls[c].first by {
      forall k | 0 <= k < |s.recs| ensures s.recs[k].row.seqno != s.calls[c].first { assert rows[k] == s.recs[k].row; }
    }
    assert CallOk(s.calls, s.recs, s.nextSeq, c);
  }

  lemma MissingFile(f: File, s: State, c: nat)
    requires FileOk(f, s) && c < |s.calls| && s.calls[c].kind == Cancel && MayAnswer(s.calls[c])
    requires forall k :: 0 <= k < |s.recs| ==> s.recs[k].row.seqno != s.calls[c].first
    ensures FileOk(f, s.(calls := s.calls[c := s.calls[c].(phase := ToldOk)]))
  {
    hide May, Sure, Out, RetractedIn, RetractedDurably, FilePairs, FileVerdicts;
    var s' := s.(calls := s.calls[c := s.calls[c].(phase := ToldOk)]);
    assert Answered(s.calls, s'.calls, c);
    FewerPairs(f, f, s.calls, s'.calls);
    forall e | May(f, e) ensures Legit(e, s'.calls, s'.recs, s'.nextSeq, s'.broken || s'.tainted) {
      AnsweredLegit(e, s.calls, s'.calls, c, s.recs, s'.recs, s.nextSeq, s.broken || s.tainted);
    }
    forall j | 0 <= j < |s'.recs| && Kept(s'.calls, s'.recs[j]) ensures Sure(f, PEntry(s'.recs[j])) {
      AnsweredKept(s.calls, s'.calls, c, s'.recs[j]);
    }
  }

  /** The record a retraction in flight finds is the one it is about, and counts it. */
  lemma FoundRec(s: State, c: nat, i: nat)
    requires Inv(s) && c < |s.calls| && s.calls[c].kind == Cancel && s.calls[c].phase == InFlight
    requires i == Find(Rows(s.recs), s.calls[c].first) < |s.recs|
    ensures Retracts(s.calls[c], s.recs[i].tag, s.recs[i].row.seqno)
    ensures s.recs[i].retracting > 0
    ensures RecOk(s.recs[i], s.calls, s.nextSeq, s.tainted)
  {
    hide DurablyRetracted, CountOpen, CountRetracting;
    var rows := Rows(s.recs);
    assert rows[i].seqno == s.calls[c].first && rows[i] == s.recs[i].row;
    assert CallOk(s.calls, s.recs, s.nextSeq, c);
    AnsweredCount(s.calls, s.calls[c := s.calls[c].(phase := ToldIo)], c, s.recs[i].tag, s.recs[i].row.seqno);
  }

  /** The record as the answer leaves it, its count of retractions one lower. */
  lemma RetiredRec(t: Live, t': Live, calls: seq<Call>, c: nat, phase: Phase, nextSeq: nat, tainted: bool)
    requires RecOk(t, calls, nextSeq, tainted) && c < |calls| && calls[c].phase == InFlight && Retracts(calls[c], t.tag, t.row.seqno)
    requires phase == ToldOk || phase == ToldIo
    requires SameRec(t, t') && t.handed && t'.handed && t'.row.crashes == t.row.crashes && t'.retracting == t.retracting - 1
    requires t'.retracting > 0 ==> !t'.row.quarantined && (t'.row.done ==> DurablyRetracted(calls, t.tag, t.row.seqno))
    requires t'.deferred != NoVerdict ==> t'.retracting > 0 && !t'.row.done
    ensures RecOk(t', calls[c := calls[c].(phase := phase)], nextSeq, tainted)
  {
    hide DurablyRetracted, CountRetracting;
    var calls' := calls[c := calls[c].(phase := phase)];
    assert Answered(calls, calls', c);
    AnsweredRetracts(calls, calls', c, t.tag, t.row.seqno);
    AnsweredCount(calls, calls', c, t.tag, t.row.seqno);
  }

  lemma OwnRetraction(calls: seq<Call>, c: nat, tag: nat, q: nat)
    requires c < |calls| && Retracts(calls[c], tag, q) && MadeDurable(calls[c])
    ensures DurablyRetracted(calls, tag, q)
  {
  }

  lemma AnswerDurableInv(s: State, c: nat, i: nat, mark: MarkFate)
    requires Inv(s) && c < |s.calls| && s.calls[c].kind == Cancel && MayAnswer(s.calls[c]) && MadeDurable(s.calls[c])
    requires i == Find(Rows(s.recs), s.calls[c].first) < |s.recs|
    ensures HasFile(s) && Inv(DoAnswerCancel(s, c, mark))
  {
    hide Inv, RecOk, Find, DurablyRetracted;
    FoundRec(s, c, i);
    RecAt(s, i);
    FoundState(s.recs[i], s.calls, s.nextSeq, s.tainted);
    OwnRetraction(s.calls, c, s.recs[i].tag, s.recs[i].row.seqno);
    var t := s.recs[i];
    var t1 := t.(retracting := t.retracting - 1, deferred := NoVerdict);
    var t' := if t.row.done then t1 else t1.(row := t.row.(done := true, inflight := false));
    var pending := if t.row.done then s.pending else s.pending - 1;
    var closed := if t.row.done then s.closed else s.closed + {Rid(t)};
    RetiredRec(t, t', s.calls, c, ToldOk, s.nextSeq, s.tainted);
    RetireInv(s, c, i, t', ToldOk, pending, closed);
    UpdateTwice(s.recs, i, t.(retracting := t.retracting - 1), t1);
    UpdateTwice(s.recs, i, t1, t');
    assert DoAnswerCancel(s, c, mark) == Retire(s, c, i, t', ToldOk, pending, closed);
  }

  lemma FoundState(t: Live, calls: seq<Call>, nextSeq: nat, tainted: bool)
    requires RecOk(t, calls, nextSeq, tainted) && t.retracting > 0
    ensures t.handed && !t.row.quarantined && !t.committing
    ensures t.row.done ==> DurablyRetracted(calls, t.tag, t.row.seqno)
    ensures t.deferred != NoVerdict ==> !t.row.done
  {
  }

  lemma AnswerFailedInv(s: State, c: nat, i: nat, mark: MarkFate)
    requires Inv(s) && c < |s.calls| && s.calls[c].kind == Cancel && MayAnswer(s.calls[c]) && !MadeDurable(s.calls[c])
    requires i == Find(Rows(s.recs), s.calls[c].first) < |s.recs|
    ensures HasFile(s) && Inv(DoAnswerCancel(s, c, mark))
  {
    hide Inv, RecOk, Find, DurablyRetracted, WriteMarker;
    FoundRec(s, c, i);
    RecAt(s, i);
    FoundState(s.recs[i], s.calls, s.nextSeq, s.tainted);
    var t := s.recs[i];
    var t1 := t.(retracting := t.retracting - 1);
    if t.row.done {
      RetiredRec(t, t1, s.calls, c, ToldOk, s.nextSeq, s.tainted);
      RetireInv(s, c, i, t1, ToldOk, s.pending, s.closed);
      assert DoAnswerCancel(s, c, mark) == Retire(s, c, i, t1, ToldOk, s.pending, s.closed);
    } else if t1.retracting == 0 && t1.deferred != NoVerdict {
      AnswerDeferredInv(s, c, i, mark);
    } else {
      RetiredRec(t, t1, s.calls, c, ToldIo, s.nextSeq, s.tainted);
      RetireInv(s, c, i, t1, ToldIo, s.pending, s.closed);
      assert DoAnswerCancel(s, c, mark) == Retire(s, c, i, t1, ToldIo, s.pending, s.closed);
    }
  }

  /** The answer of the last retraction to fail, if a verdict waited. */
  lemma DeferredIs(s: State, c: nat, i: nat, mark: MarkFate)
    requires HasFile(s) && c < |s.calls| && !MadeDurable(s.calls[c]) && i == Find(Rows(s.recs), s.calls[c].first) < |s.recs| && s.pending > 0
    requires !s.recs[i].row.done && s.recs[i].retracting == 1 && s.recs[i].deferred != NoVerdict
    ensures var t := s.recs[i].(retracting := 0, deferred := NoVerdict);
            DoAnswerCancel(s, c, mark) ==
              if s.recs[i].deferred == Poison
              then WriteMarker(Retire(s, c, i, t.(row := t.row.(quarantined := true, inflight := false)), ToldIo, s.pending - 1, s.closed), Q, t.row.seqno, mark)
              else WriteMarker(Retire(s, c, i, t.(row := t.row.(done := true, inflight := false)), ToldIo, s.pending - 1, s.closed + {Rid(t)}), D, t.row.seqno, mark)
  {
    hide Find, WriteMarker;
    var t0 := s.recs[i].(retracting := 0);
    var t := t0.(deferred := NoVerdict);
    UpdateTwice(s.recs, i, t0, t.(row := t.row.(quarantined := true, inflight := false)));
    UpdateTwice(s.recs, i, t0, t);
    UpdateTwice(s.recs, i, t, t.(row := t.row.(done := true, inflight := false)));
  }

  /** The last retraction has failed too, so the verdict kept for that case lands. */
  lemma AnswerDeferredInv(s: State, c: nat, i: nat, mark: MarkFate)
    requires Inv(s) && c < |s.calls| && s.calls[c].kind == Cancel && MayAnswer(s.calls[c]) && !MadeDurable(s.calls[c])
    requires i == Find(Rows(s.recs), s.calls[c].first) < |s.recs|
    requires !s.recs[i].row.done && s.recs[i].retracting == 1 && s.recs[i].deferred != NoVerdict
    ensures HasFile(s) && Inv(DoAnswerCancel(s, c, mark))
  {
    hide Inv, RecOk, Find, DurablyRetracted, WriteMarker, DoAnswerCancel;
    FoundRec(s, c, i);
    RecAt(s, i);
    FoundState(s.recs[i], s.calls, s.nextSeq, s.tainted);
    var t := s.recs[i];
    var t1 := t.(retracting := 0, deferred := NoVerdict);
    DeferredIs(s, c, i, mark);
    if t.deferred == Poison {
      var t' := t1.(row := t.row.(quarantined := true, inflight := false));
      RetiredRec(t, t', s.calls, c, ToldIo, s.nextSeq, s.tainted);
      RetireInv(s, c, i, t', ToldIo, s.pending - 1, s.closed);
      var s1 := Retire(s, c, i, t', ToldIo, s.pending - 1, s.closed);
      RecTag(t, s.calls, s.nextSeq, s.tainted);
      WriteMarkerInv(s1, Q, t.row.seqno, mark);
    } else {
      var t' := t1.(row := t.row.(done := true, inflight := false));
      RetiredRec(t, t', s.calls, c, ToldIo, s.nextSeq, s.tainted);
      RetireInv(s, c, i, t', ToldIo, s.pending - 1, s.closed + {Rid(t)});
      var s1 := Retire(s, c, i, t', ToldIo, s.pending - 1, s.closed + {Rid(t)});
      ClosedD(s1, i, mark);
    }
  }

  lemma AnswerCancelInv(s: State, c: nat, mark: MarkFate)
    requires Inv(s) && Enabled(s, AnswerCancel(c, mark))
    ensures Inv(DoAnswerCancel(s, c, mark))
  {
    hide Inv, RecOk, Find, Image, WriteMarker;
    var i := Find(Rows(s.recs), s.calls[c].first);
    if i == |s.recs| {
      AnswerMissingInv(s, c);
    } else if MadeDurable(s.calls[c]) {
      AnswerDurableInv(s, c, i, mark);
    } else {
      AnswerFailedInv(s, c, i, mark);
    }
  }
}
