/** The files the journal's name can still come back to after a crash: what holds of them goes on
    holding whatever the queue does meanwhile, since nothing is acknowledged until they are gone. */
module CommitPast {
  import opened RecordTable
  import opened Disk
  import opened GroupCommit
  import opened GroupCommitInv

  /** The same calls, further on, and perhaps new ones; none newly durable. */
  ghost predicate Onward(calls: seq<Call>, calls': seq<Call>) {
    && |calls| <= |calls'|
    && (forall c :: 0 <= c < |calls| ==> StillThat(calls[c], calls'[c]))
    && (forall c :: |calls| <= c < |calls'| ==> !MadeDurable(calls'[c]))
  }

  predicate StillThat(call: Call, call': Call) {
    && call'.kind == call.kind && call'.first == call.first && call'.last == call.last
    && call'.target == call.target && call'.items == call.items
    && (MadeDurable(call') <==> MadeDurable(call))
    && (call'.phase == InFlight || call'.phase == ToldOk ==> call.phase == InFlight || call.phase == ToldOk)
    && (call.phase == Lost ==> call' == call)
  }

  lemma OnwardDoubt(calls: seq<Call>, calls': seq<Call>, tainted: bool, tainted': bool, tag: nat, q: nat)
    requires Onward(calls, calls') && (tainted ==> tainted')
    ensures Doubtful(calls, tainted, tag, q) ==> Doubtful(calls', tainted', tag, q)
    ensures DurablyRetracted(calls, tag, q) ==> DurablyRetracted(calls', tag, q)
  {
    hide MadeDurable, Out;
    if Doubtful(calls, tainted, tag, q) {
      var c :| 0 <= c < |calls| && Retracts(calls[c], tag, q) && (tainted || (calls[c].phase == Lost && !Out(calls[c])));
      assert StillThat(calls[c], calls'[c]);
      assert Retracts(calls'[c], tag, q);
    }
    if DurablyRetracted(calls, tag, q) {
      var c :| 0 <= c < |calls| && Retracts(calls[c], tag, q) && MadeDurable(calls[c]);
      assert StillThat(calls[c], calls'[c]);
      assert Retracts(calls'[c], tag, q);
    }
  }

  lemma OnwardKeeps(f: File, calls: seq<Call>, calls': seq<Call>, closed: set<(nat, nat)>, closed': set<(nat, nat)>, tainted: bool, tainted': bool)
    requires Onward(calls, calls') && PastKeeps(f, calls, closed, tainted) && closed <= closed' && (tainted ==> tainted')
    ensures PastKeeps(f, calls', closed', tainted')
  {
    hide MadeDurable, Doubtful, DurablyRetracted, Sure;
    forall c, q | 0 <= c < |calls'| && Owed(calls', closed', tainted', c, q) ensures HasP(f, calls'[c], c + 1, q) {
      assert c < |calls| && StillThat(calls[c], calls'[c]);
      OnwardDoubt(calls, calls', tainted, tainted', c + 1, q);
      assert Owed(calls, closed, tainted, c, q);
    }
  }

  lemma OnwardRetracts(f: File, calls: seq<Call>, calls': seq<Call>)
    requires Onward(calls, calls') && FileRetracts(f, calls)
    ensures FileRetracts(f, calls')
  {
    hide MadeDurable, RetractedIn;
    forall c | 0 <= c < |calls'| && calls'[c].kind == Cancel && MadeDurable(calls'[c])
      ensures RetractedIn(f, calls'[c].target, calls'[c].first, c + 1)
    {
      assert c < |calls| && StillThat(calls[c], calls'[c]);
    }
  }

  lemma OnwardPairs(f: File, calls: seq<Call>, calls': seq<Call>, shaken: bool)
    requires Onward(calls, calls') && FilePairs(f, calls) && PastMay(f, calls, shaken)
    ensures FilePairs(f, calls')
  {
    hide MadeDurable, May, TagFits, Out;
    forall p, d | May(f, p) && May(f, d) && Paired(p, d) && d.tag <= |calls'| ensures calls'[d.tag - 1].target == p.tag {
      assert Belongs(d, calls, shaken);
      assert StillThat(calls[d.tag - 1], calls'[d.tag - 1]);
    }
  }

  /** A file that may come back stays one the queue can answer for. */
  lemma PastOn(f: File, s: State, s': State)
    requires PastOk(f, s) && Onward(s.calls, s'.calls) && s.closed <= s'.closed
    requires (s.broken || s.tainted ==> s'.broken || s'.tainted) && (s.tainted ==> s'.tainted)
    requires !s'.broken && !s'.tainted ==> forall e :: May(f, e) && 0 < e.tag <= |s.calls| && Out(s'.calls[e.tag - 1]) ==> Out(s.calls[e.tag - 1])
    ensures PastOk(f, s')
  {
    hide MadeDurable, May, FileRetracts, FilePairs, PastKeeps, Out;
    OnwardKeeps(f, s.calls, s'.calls, s.closed, s'.closed, s.tainted, s'.tainted);
    OnwardRetracts(f, s.calls, s'.calls);
    OnwardPairs(f, s.calls, s'.calls, s.broken || s.tainted);
    forall e | May(f, e) ensures Belongs(e, s'.calls, s'.broken || s'.tainted) {
      assert Belongs(e, s.calls, s.broken || s.tainted);
      if e.tag > 0 { assert StillThat(s.calls[e.tag - 1], s'.calls[e.tag - 1]); }
    }
  }

  /** ... in particular if no call changes in what it wrote or whether that was taken out. */
  lemma PastSame(f: File, s: State, s': State)
    requires PastOk(f, s) && s'.calls == s.calls && s.closed <= s'.closed
    requires (s.broken || s.tainted ==> s'.broken || s'.tainted) && (s.tainted ==> s'.tainted)
    ensures PastOk(f, s')
  {
    hide PastOk;
    PastOn(f, s, s');
  }

  /** What is said of verdicts goes on holding as more is closed, and in a file with less in it. */
  lemma FewerVerdicts(f: File, g: File, closed: set<(nat, nat)>, closed': set<(nat, nat)>)
    requires FileVerdicts(f, closed) && closed <= closed' && forall e :: May(g, e) ==> May(f, e)
    ensures FileVerdicts(g, closed')
  {
    hide May, Judged;
  }

  // ---- the journal itself ----

  lemma CommittedOpen(s: State, c: nat, q: nat)
    requires RecsOk(s) && CallsOk(s) && c < |s.calls| && s.calls[c].kind == Submit && s.calls[c].phase == InFlight
    requires s.calls[c].first <= q <= s.calls[c].last
    ensures HasOpen(s.recs, c + 1, q)
  {
    hide CountOpen, CountRetracting, Ascending;
    assert CallOk(s.calls, s.recs, s.nextSeq, c);
    assert Submitted(s.recs, c, q);
    var i :| 0 <= i < |s.recs| && s.recs[i].tag == c + 1 && s.recs[i].row.seqno == q;
    assert RecOk(s.recs[i], s.calls, s.nextSeq, s.tainted);
  }

  lemma OwedOpen(s: State, c: nat, q: nat)
    requires RecsOk(s) && CallsOk(s) && AckOk(s) && c < |s.calls| && Owed(s.calls, s.closed, s.tainted, c, q)
    ensures HasOpen(s.recs, c + 1, q)
  {
    hide RecsOk, CallsOk, HasOpen, Doubtful, DurablyRetracted, MadeDurable;
    if s.calls[c].phase == InFlight {
      CommittedOpen(s, c, q);
    } else {
      assert AckOne(s.calls, s.recs, s.closed, s.tainted, c, q);
    }
  }

  lemma OwedHere(s: State, f: File, c: nat, q: nat)
    requires RecsOk(s) && CallsOk(s) && AckOk(s) && FileKeeps(f, s.calls, s.recs) && c < |s.calls| && Owed(s.calls, s.closed, s.tainted, c, q)
    ensures HasP(f, s.calls[c], c + 1, q)
  {
    hide CallsOk, AckOk, Sure, CountOpen, Ascending, CountRetracting, Doubtful;
    OwedOpen(s, c, q);
    var k :| 0 <= k < |s.recs| && s.recs[k].tag == c + 1 && s.recs[k].row.seqno == q && !s.recs[k].row.done;
    var t := s.recs[k];
    assert RecOk(t, s.calls, s.nextSeq, s.tainted);
    assert Sure(f, PEntry(t));
  }

  lemma CurKeeps(s: State, f: File)
    requires RecsOk(s) && CallsOk(s) && AckOk(s) && FileKeeps(f, s.calls, s.recs)
    ensures PastKeeps(f, s.calls, s.closed, s.tainted)
  {
    hide RecsOk, CallsOk, AckOk, FileKeeps, Owed, HasP;
    forall c, q | 0 <= c < |s.calls| && Owed(s.calls, s.closed, s.tainted, c, q) ensures HasP(f, s.calls[c], c + 1, q) {
      OwedHere(s, f, c, q);
    }
  }

  /** What holds of the journal holds of it still once it is the older file. */
  lemma CurPast(s: State)
    requires Inv(s)
    ensures PastOk(s.cur, s)
  {
    hide FilesOk, SyncShape, WaitOk, RecsOk, CallsOk, AckOk, FileKeeps, FileRetracts, FilePairs, FileVerdicts, PastKeeps, May;
    CurKeeps(s, s.cur);
    forall e | May(s.cur, e) ensures Belongs(e, s.calls, s.broken || s.tainted) {
      assert Legit(e, s.calls, s.recs, s.nextSeq, s.broken || s.tainted);
    }
  }
}
