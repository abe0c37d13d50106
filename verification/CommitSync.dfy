/** The invariant through the shared fsync: its start, its success, its failure. */
module CommitSync {
  import opened RecordTable
  import opened Disk
  import opened GroupCommit
  import opened GroupCommitInv
  import opened CommitPast
  import opened CommitMarkers
  import opened CommitWrites

  lemma SyncBeginWait(s: State, c: nat)
    requires FilesOk(s) && c < |s.calls| && WaitingNow(s.calls[c])
    requires WaitOne(s.cur, s.older, s.lastEnd, s.sync, s.recs, s.calls[c], c)
    ensures |s.cur.hist| > 0
    ensures WaitOne(s.cur, s.older, s.lastEnd, DoSyncBegin(s).sync, s.recs, s.calls[c], c)
  {
    hide WroteHere, NotBefore, AbsentFrom, NotSure, NeverIn, Shaped;
  }

  lemma SyncBeginInv(s: State)
    requires Inv(s) && Enabled(s, SyncBegin)
    ensures Inv(DoSyncBegin(s))
  {
    hide Shaped, WaitOne, FileOk, PastOk, RecOk, CallOk, AckOne, CountOpen, Ascending, Image;
    var s' := DoSyncBegin(s);
    forall c | 0 <= c < |s.calls| && WaitingNow(s.calls[c])
      ensures WaitOne(s.cur, s.older, s.lastEnd, s'.sync, s.recs, s.calls[c], c)
    {
      SyncBeginWait(s, c);
    }
    forall k | 0 <= k < |s.older| ensures PastOk(s.older[k], s') { PastSame(s.older[k], s, s'); }
    SameFile(s.cur, s, s');
  }

  lemma SameFile(f: File, s: State, s': State)
    requires FileOk(f, s) && s'.calls == s.calls && s'.recs == s.recs && s'.nextSeq == s.nextSeq
    requires (s.broken || s.tainted) == (s'.broken || s'.tainted) && s'.closed == s.closed
    ensures FileOk(f, s')
  {
    hide FileVerdicts, FileMay, FileKeeps, FileRetracts, FilePairs;
  }

  // ---- calls that have been settled ----

  /** The same calls, some of those in flight now settled. */
  ghost predicate Progressed(calls: seq<Call>, calls': seq<Call>) {
    && |calls'| == |calls|
    && forall c :: 0 <= c < |calls| ==>
         && calls'[c].kind == calls[c].kind && calls'[c].first == calls[c].first && calls'[c].last == calls[c].last
         && calls'[c].target == calls[c].target && calls'[c].items == calls[c].items && calls'[c].phase == calls[c].phase
         && (MadeDurable(calls[c]) ==> MadeDurable(calls'[c]))
         && (calls[c].phase != InFlight ==> calls'[c] == calls[c])
  }

  lemma SettleProgress(calls: seq<Call>, upto: nat, how: Settled)
    requires how != Waiting
    ensures Progressed(calls, Settle(calls, upto, how))
  {
  }

  lemma ProgressedRetracts(calls: seq<Call>, calls': seq<Call>, tag: nat, q: nat)
    requires Progressed(calls, calls')
    ensures DurablyRetracted(calls, tag, q) ==> DurablyRetracted(calls', tag, q)
    ensures forall tainted :: Doubtful(calls, tainted, tag, q) ==> Doubtful(calls', tainted, tag, q)
  {
    if DurablyRetracted(calls, tag, q) {
      var c :| 0 <= c < |calls| && Retracts(calls[c], tag, q) && MadeDurable(calls[c]);
      assert Retracts(calls'[c], tag, q) && MadeDurable(calls'[c]);
    }
    forall tainted | Doubtful(calls, tainted, tag, q) ensures Doubtful(calls', tainted, tag, q) {
      var c :| 0 <= c < |calls| && Retracts(calls[c], tag, q) && (tainted || (calls[c].phase == Lost && !Out(calls[c])));
      assert Retracts(calls'[c], tag, q);
    }
  }

  lemma {:induction false} ProgressedCount(calls: seq<Call>, calls': seq<Call>, tag: nat, q: nat)
    requires Progressed(calls, calls')
    ensures CountRetracting(calls', tag, q) == CountRetracting(calls, tag, q)
  {
    if |calls| > 0 {
      ProgressedCount(calls[..|calls| - 1], calls'[..|calls| - 1], tag, q);
    }
  }

  lemma ProgressedRec(t: Live, calls: seq<Call>, calls': seq<Call>, nextSeq: nat, tainted: bool)
    requires Progressed(calls, calls') && RecOk(t, calls, nextSeq, tainted)
    ensures RecOk(t, calls', nextSeq, tainted)
  {
    hide DurablyRetracted, CountRetracting, MadeDurable, Out;
    ProgressedRetracts(calls, calls', t.tag, t.row.seqno);
    ProgressedCount(calls, calls', t.tag, t.row.seqno);
  }

  lemma ProgressedCall(calls: seq<Call>, calls': seq<Call>, recs: seq<Live>, nextSeq: nat, c: nat)
    requires Progressed(calls, calls') && c < |calls| && CallOk(calls, recs, nextSeq, c)
    ensures CallOk(calls', recs, nextSeq, c)
  {
    hide DurablyRetracted, MadeDurable, Out, HasRec;
    ProgressedRetracts(calls, calls', calls[c].target, calls[c].first);
  }

  lemma ProgressedAck(calls: seq<Call>, calls': seq<Call>, recs: seq<Live>, closed: set<(nat, nat)>, tainted: bool, c: nat, q: nat)
    requires Progressed(calls, calls') && c < |calls| && AckOne(calls, recs, closed, tainted, c, q)
    ensures AckOne(calls', recs, closed, tainted, c, q)
  {
    hide Doubtful, HasOpen, DurablyRetracted, MadeDurable, Out;
    ProgressedRetracts(calls, calls', c + 1, q);
  }

  /** Settling touches the table and the answers given not at all. */
  lemma ProgressedTable(s: State, s': State)
    requires RecsOk(s) && CallsOk(s) && AckOk(s) && Progressed(s.calls, s'.calls)
    requires s'.recs == s.recs && s'.nextSeq == s.nextSeq && s'.pending == s.pending && s'.closed == s.closed && s'.tainted == s.tainted
    ensures RecsOk(s') && CallsOk(s') && AckOk(s')
  {
    hide RecOk, CallOk, AckOne, CountOpen, Ascending;
    forall k | 0 <= k < |s.recs| ensures RecOk(s.recs[k], s'.calls, s.nextSeq, s.tainted) {
      ProgressedRec(s.recs[k], s.calls, s'.calls, s.nextSeq, s.tainted);
    }
    forall c | 0 <= c < |s.calls| ensures CallOk(s'.calls, s.recs, s.nextSeq, c) {
      ProgressedCall(s.calls, s'.calls, s.recs, s.nextSeq, c);
    }
    forall c, q | 0 <= c < |s.calls| ensures AckOne(s'.calls, s.recs, s.closed, s.tainted, c, q) {
      ProgressedAck(s.calls, s'.calls, s.recs, s.closed, s.tainted, c, q);
    }
  }

  // ---- success ----

  lemma StableLater(f: File, begin: nat, v: nat, end: nat)
    requires StableFrom(f, begin, end) && begin <= v
    ensures StableFrom(f, v, end)
  {
  }

  /** What the fsync covers is sure, and what it had cut is gone, in the raised file. */
  lemma RaiseWait(f: File, older: seq<File>, lastEnd: nat, sync: Sync, recs: seq<Live>, call: Call, c: nat, v: nat)
    requires Shaped(f) && sync.Running? && v < |f.hist| && StableFrom(f, v, sync.end) && sync.end <= |Cur(f)| && sync.upto <= c
    requires call.wrote != Nothing && WaitOne(f, older, lastEnd, sync, recs, call, c)
    ensures WaitOne(Raise(f, v, sync.end), [], lastEnd, Idle, recs, call, c)
  {
    hide WroteHere;
    var g := Raise(f, v, sync.end);
    forall e | Sure(g, e) ensures e.tag != c + 1 {
      var k :| 0 <= k < g.safe && k < |Cur(g)| && Cur(g)[k] == e;
      if call.wrote == CutBack {
        assert f.hist[|f.hist| - 1][k].tag != c + 1;
      } else {
        assert k < call.pos;
      }
    }
  }

  lemma RaiseMay(f: File, sync: Sync, v: nat, s: State, calls': seq<Call>)
    requires f == s.cur && sync == s.sync && sync.Running? && sync.begin <= v < |f.hist| && calls' == Settle(s.calls, sync.upto, Durable)
    requires WaitOk(s) && FileMay(f, s.calls, s.recs, s.nextSeq, s.broken || s.tainted)
    ensures FileMay(Raise(f, v, sync.end), calls', s.recs, s.nextSeq, s.broken || s.tainted)
  {
    var g := Raise(f, v, sync.end);
    forall e | May(g, e) ensures Legit(e, calls', s.recs, s.nextSeq, s.broken || s.tainted) {
      RaiseMayOne(f, sync, v, s, calls', e);
    }
  }

  lemma RaisedGone(f: File, older: seq<File>, lastEnd: nat, sync: Sync, recs: seq<Live>, call: Call, c: nat, v: nat, e: Entry)
    requires sync.Running? && c < sync.upto && sync.begin <= v < |f.hist| && call.wrote == CutBack
    requires WaitOne(f, older, lastEnd, sync, recs, call, c) && May(Raise(f, v, sync.end), e)
    ensures e.tag != c + 1
  {
    hide WroteHere, NotBefore, NotSure, NeverIn;
    var g := Raise(f, v, sync.end);
    var j :| g.floor <= j < |g.hist| && e in g.hist[j];
    var k :| 0 <= k < |g.hist[j]| && g.hist[j][k] == e;
    assert f.hist[j][k].tag != c + 1;
  }

  lemma RaiseMayOne(f: File, sync: Sync, v: nat, s: State, calls': seq<Call>, e: Entry)
    requires f == s.cur && sync == s.sync && sync.Running? && sync.begin <= v < |f.hist| && calls' == Settle(s.calls, sync.upto, Durable)
    requires WaitOk(s) && FileMay(f, s.calls, s.recs, s.nextSeq, s.broken || s.tainted) && May(Raise(f, v, sync.end), e)
    ensures Legit(e, calls', s.recs, s.nextSeq, s.broken || s.tainted)
  {
    hide WaitOne;
    assert May(f, e);
    assert Legit(e, s.calls, s.recs, s.nextSeq, s.broken || s.tainted);
    forall c | 0 <= c < |s.calls| && c < sync.upto && WaitingNow(s.calls[c]) && s.calls[c].wrote == CutBack ensures e.tag != c + 1 {
      RaisedGone(f, s.older, s.lastEnd, sync, s.recs, s.calls[c], c, v, e);
    }
  }

  lemma FewerPairs(f: File, g: File, calls: seq<Call>, calls': seq<Call>)
    requires FilePairs(f, calls) && (forall e :: May(g, e) ==> May(f, e)) && |calls'| == |calls|
    requires forall c :: 0 <= c < |calls| ==> calls'[c].target == calls[c].target
    ensures FilePairs(g, calls')
  {
    hide May;
  }

  lemma RaiseKeeps(s: State, v: nat, calls': seq<Call>)
    requires FilesOk(s) && RecsOk(s) && WaitOk(s) && FileKeeps(s.cur, s.calls, s.recs) && s.sync.Running?
    requires calls' == Settle(s.calls, s.sync.upto, Durable)
    requires v < |s.cur.hist| && StableFrom(s.cur, v, s.sync.end) && s.sync.upto <= |s.calls|
    ensures FileKeeps(Raise(s.cur, v, s.sync.end), calls', s.recs)
  {
    var f, g := s.cur, Raise(s.cur, v, s.sync.end);
    forall k | 0 <= k < |s.recs| && Kept(calls', s.recs[k]) ensures Sure(g, PEntry(s.recs[k])) {
      RaiseKeepsOne(s, v, calls', k);
    }
  }

  lemma RaiseKeepsOne(s: State, v: nat, calls': seq<Call>, k: nat)
    requires FilesOk(s) && RecsOk(s) && WaitOk(s) && FileKeeps(s.cur, s.calls, s.recs) && s.sync.Running?
    requires calls' == Settle(s.calls, s.sync.upto, Durable)
    requires v < |s.cur.hist| && StableFrom(s.cur, v, s.sync.end) && s.sync.upto <= |s.calls|
    requires k < |s.recs| && Kept(calls', s.recs[k])
    ensures Sure(Raise(s.cur, v, s.sync.end), PEntry(s.recs[k]))
  {
    hide Shaped, StableFrom, Sure, AbsentFrom, NotSure, NeverIn, NotBefore, CountOpen, RecOk;
    var t := s.recs[k];
    RaiseOk(s.cur, v, s.sync.end);
    RecTag(t, s.calls, s.nextSeq, s.tainted);
    if Kept(s.calls, t) {
      assert Sure(s.cur, PEntry(t));
    } else {
      var c := t.tag - 1;
      NewlyKept(s.calls, calls', s.sync.upto, t);
      assert WaitOne(s.cur, s.older, s.lastEnd, s.sync, s.recs, s.calls[c], c);
      RecKind(t, s.calls, s.nextSeq, s.tainted);
    }
  }

  lemma RecKind(t: Live, calls: seq<Call>, nextSeq: nat, tainted: bool)
    requires RecOk(t, calls, nextSeq, tainted)
    ensures 1 <= t.tag <= |calls| && calls[t.tag - 1].kind == Submit
  {
  }

  /** A record is newly kept only because its own submit just became durable. */
  lemma NewlyKept(calls: seq<Call>, calls': seq<Call>, upto: nat, t: Live)
    requires calls' == Settle(calls, upto, Durable) && Kept(calls', t) && !Kept(calls, t) && 1 <= t.tag <= |calls|
    ensures WaitingNow(calls[t.tag - 1]) && t.tag - 1 < upto && calls[t.tag - 1].wrote == Written
  {
    assert !RetractedDurably(calls, t) by {
      forall c | 0 <= c < |calls| && calls[c].phase == InFlight && Retracts(calls[c], t.tag, t.row.seqno) ensures !MadeDurable(calls[c]) {
        assert calls'[c].phase == InFlight && Retracts(calls'[c], t.tag, t.row.seqno);
        assert !MadeDurable(calls'[c]);
      }
    }
  }

  lemma RaiseRetracts(s: State, v: nat, calls': seq<Call>)
    requires FilesOk(s) && WaitOk(s) && FileRetracts(s.cur, s.calls) && s.sync.Running?
    requires calls' == Settle(s.calls, s.sync.upto, Durable)
    requires v < |s.cur.hist| && StableFrom(s.cur, v, s.sync.end) && s.sync.upto <= |s.calls|
    ensures FileRetracts(Raise(s.cur, v, s.sync.end), calls')
  {
    hide Shaped, StableFrom, Sure, May, AbsentFrom, NotSure, NeverIn, NotBefore;
    var g := Raise(s.cur, v, s.sync.end);
    RaiseOk(s.cur, v, s.sync.end);
    forall c | 0 <= c < |calls'| && calls'[c].kind == Cancel && MadeDurable(calls'[c])
      ensures RetractedIn(g, calls'[c].target, calls'[c].first, c + 1)
    {
      if MadeDurable(s.calls[c]) {
        assert RetractedIn(s.cur, s.calls[c].target, s.calls[c].first, c + 1);
      } else {
        assert WaitOne(s.cur, s.older, s.lastEnd, s.sync, s.recs, s.calls[c], c);
      }
    }
  }

  lemma SyncOkInv(s: State, v: nat)
    requires Inv(s) && Enabled(s, SyncOk(v))
    ensures Inv(DoSyncOk(s, v))
  {
    hide Shaped, StableFrom, WaitOne, FileMay, FileKeeps, FileRetracts, FilePairs, FileVerdicts, PastOk, May, RecsOk, CallsOk, AckOk, Progressed, Image;
    var s' := DoSyncOk(s, v);
    SettleProgress(s.calls, s.sync.upto, Durable);
    ProgressedTable(s, s');
    StableLater(s.cur, s.sync.begin, v, s.sync.end);
    RaiseOk(s.cur, v, s.sync.end);
    RaiseMay(s.cur, s.sync, v, s, s'.calls);
    RaiseKeeps(s, v, s'.calls);
    RaiseRetracts(s, v, s'.calls);
    FewerPairs(s.cur, s'.cur, s.calls, s'.calls);
    FewerVerdicts(s.cur, s'.cur, s.closed, s'.closed);
    forall c | 0 <= c < |s'.calls| && WaitingNow(s'.calls[c])
      ensures WaitOne(s'.cur, s'.older, s'.lastEnd, s'.sync, s'.recs, s'.calls[c], c)
    {
      RaiseWait(s.cur, s.older, s.lastEnd, s.sync, s.recs, s.calls[c], c, v);
    }
  }

  // ---- failure ----

  /** Failing every waiting call leaves only entries no failed call wrote, unless the queue
      breaks. */
  lemma FailMay(f: File, g: File, s: State, calls': seq<Call>, shaken': bool)
    requires FileMay(f, s.calls, s.recs, s.nextSeq, s.broken || s.tainted) && calls' == Settle(s.calls, |s.calls|, Failed)
    requires forall e :: May(g, e) ==> May(f, e)
    requires (s.broken || s.tainted) ==> shaken'
    requires !shaken' ==> forall e, c :: May(g, e) && 0 <= c < |s.calls| && WaitingNow(s.calls[c]) ==> e.tag != c + 1
    ensures FileMay(g, calls', s.recs, s.nextSeq, shaken')
  {
    hide May;
    forall e | May(g, e) ensures Legit(e, calls', s.recs, s.nextSeq, shaken') {
      assert Legit(e, s.calls, s.recs, s.nextSeq, s.broken || s.tainted);
      if !shaken' && e.tag > 0 {
        assert !WaitingNow(s.calls[e.tag - 1]);
      }
    }
  }

  lemma FailKept(calls: seq<Call>, t: Live)
    requires Kept(Settle(calls, |calls|, Failed), t)
    ensures Kept(calls, t)
  {
    var calls' := Settle(calls, |calls|, Failed);
    forall c | 0 <= c < |calls| && calls[c].phase == InFlight && Retracts(calls[c], t.tag, t.row.seqno) ensures !MadeDurable(calls[c]) {
      assert calls'[c].phase == InFlight && Retracts(calls'[c], t.tag, t.row.seqno);
      assert !MadeDurable(calls'[c]);
    }
  }

  lemma FailFile(f: File, g: File, s: State, s': State)
    requires FileOk(f, s) && s'.calls == Settle(s.calls, |s.calls|, Failed) && s'.recs == s.recs && s'.nextSeq == s.nextSeq
    requires (forall e :: May(g, e) ==> May(f, e)) && (forall e :: Sure(f, e) ==> Sure(g, e))
    requires s'.tainted == s.tainted && (s.broken ==> s'.broken) && s'.closed == s.closed
    requires !s'.broken && !s'.tainted ==> forall e, c :: May(g, e) && 0 <= c < |s.calls| && WaitingNow(s.calls[c]) ==> e.tag != c + 1
    ensures FileOk(g, s')
  {
    hide May, Sure, Kept, FilePairs, FileVerdicts;
    FewerPairs(f, g, s.calls, s'.calls);
    FewerVerdicts(f, g, s.closed, s'.closed);
    FailMay(f, g, s, s'.calls, s'.broken || s'.tainted);
    forall k | 0 <= k < |s'.recs| && Kept(s'.calls, s'.recs[k]) ensures Sure(g, PEntry(s'.recs[k])) {
      FailKept(s.calls, s.recs[k]);
    }
    forall c | 0 <= c < |s'.calls| && s'.calls[c].kind == Cancel && MadeDurable(s'.calls[c])
      ensures RetractedIn(g, s'.calls[c].target, s'.calls[c].first, c + 1)
    {
      assert RetractedIn(f, s.calls[c].target, s.calls[c].first, c + 1);
    }
  }

  lemma FailPast(f: File, s: State, s': State)
    requires PastOk(f, s) && s'.calls == Settle(s.calls, |s.calls|, Failed) && s'.closed == s.closed
    requires s'.tainted == s.tainted && (s.broken ==> s'.broken)
    requires forall e, c :: May(f, e) && 0 <= c < |s.calls| && WaitingNow(s.calls[c]) ==> e.tag != c + 1
    ensures PastOk(f, s')
  {
    hide PastOk, May;
    forall e | May(f, e) && 0 < e.tag <= |s.calls| && Out(s'.calls[e.tag - 1]) ensures Out(s.calls[e.tag - 1]) {
      assert !WaitingNow(s.calls[e.tag - 1]);
    }
    PastOn(f, s, s');
  }

  lemma NoneSure(s: State)
    requires WaitOk(s)
    ensures forall e, c :: Sure(s.cur, e) && 0 <= c < |s.calls| && WaitingNow(s.calls[c]) ==> e.tag != c + 1
    ensures forall i, e, c :: 0 <= i < |s.older| && May(s.older[i], e) && 0 <= c < |s.calls| && WaitingNow(s.calls[c]) ==> e.tag != c + 1
  {
    hide Sure, May, AbsentFrom, WroteHere, NotBefore;
    forall c | 0 <= c < |s.calls| && WaitingNow(s.calls[c]) ensures NotSure(s.cur, c + 1) && NeverIn(s.older, c + 1) {
      assert WaitOne(s.cur, s.older, s.lastEnd, s.sync, s.recs, s.calls[c], c);
    }
  }

  lemma CutLengths(f: File)
    requires Shaped(f)
    ensures |f.hist| > 0 && f.safe <= |Cur(f)|
    ensures Cut(f).safe == f.safe && |Cur(Cut(f))| == f.safe
    ensures CutDurably(f).safe == f.safe && |Cur(CutDurably(f))| == f.safe
  {
  }

  lemma SyncFailInv(s: State, cut: CutFate)
    requires Inv(s) && Enabled(s, SyncFail(cut))
    ensures Inv(DoSyncFail(s, cut))
  {
    hide Shaped, StableFrom, WaitOne, FileOk, PastOk, RecsOk, CallsOk, AckOk, Progressed, May, Sure, Image, WaitOk, CutDurably, Cut;
    var s' := DoSyncFail(s, cut);
    SettleProgress(s.calls, |s.calls|, Failed);
    ProgressedTable(s, s');
    CutLengths(s.cur);
    CutOk(s.cur);
    NoneSure(s);
    SureMay(s.cur);
    FailFile(s.cur, s'.cur, s, s');
    forall k | 0 <= k < |s.older| ensures PastOk(s.older[k], s') { FailPast(s.older[k], s, s'); }
    NoneWaiting(s', s.calls);
  }

  lemma NoneWaiting(s: State, calls: seq<Call>)
    requires s.calls == Settle(calls, |calls|, Failed)
    ensures WaitOk(s)
  {
  }
}
