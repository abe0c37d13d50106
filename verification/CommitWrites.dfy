/** The invariant through the start of a submit and of a retraction. */
module CommitWrites {
  import opened Journal
  import opened RecordTable
  import opened Scars
  import opened Disk
  import opened GroupCommit
  import opened GroupCommitInv
  import opened CommitPast
  import opened CommitMarkers

  // ---- a new call, before it has written anything ----

  /** `calls'` is `calls` and one new call, in flight, that has written nothing. */
  ghost predicate OneMore(calls: seq<Call>, calls': seq<Call>) {
    && |calls'| == |calls| + 1 && calls' == calls + [calls'[|calls|]]
    && calls'[|calls|].wrote == Nothing && calls'[|calls|].settled == Waiting && calls'[|calls|].phase == InFlight
  }

  lemma OldCalls(calls: seq<Call>, calls': seq<Call>)
    requires OneMore(calls, calls')
    ensures forall c :: 0 <= c < |calls| ==> calls'[c] == calls[c]
  {
  }

  lemma MoreLegit(e: Entry, calls: seq<Call>, calls': seq<Call>, recs: seq<Live>, recs': seq<Live>, nextSeq: nat, nextSeq': nat, shaken: bool)
    requires OneMore(calls, calls') && nextSeq <= nextSeq' && Legit(e, calls, recs, nextSeq, shaken)
    requires forall k :: 0 <= k < |recs'| && recs'[k].row.seqno < nextSeq ==>
               k < |recs| && recs[k].row.seqno == recs'[k].row.seqno && recs[k].tag == recs'[k].tag && recs[k].row.done == recs'[k].row.done
    ensures Legit(e, calls', recs', nextSeq', shaken)
    ensures e.tag < |calls'|
  {
    OldCalls(calls, calls');
  }

  lemma MoreRetracted(calls: seq<Call>, calls': seq<Call>, t: Live)
    requires OneMore(calls, calls')
    ensures RetractedDurably(calls', t) <==> RetractedDurably(calls, t)
  {
    OldCalls(calls, calls');
  }

  lemma MoreKept(calls: seq<Call>, calls': seq<Call>, t: Live)
    requires OneMore(calls, calls') && Kept(calls', t) && t.tag <= |calls|
    ensures Kept(calls, t)
  {
    OldCalls(calls, calls');
    MoreRetracted(calls, calls', t);
  }

  lemma MoreDurably(calls: seq<Call>, calls': seq<Call>, tag: nat, q: nat)
    requires OneMore(calls, calls')
    ensures DurablyRetracted(calls, tag, q) <==> DurablyRetracted(calls', tag, q)
  {
    OldCalls(calls, calls');
    if DurablyRetracted(calls, tag, q) {
      var c :| 0 <= c < |calls| && Retracts(calls[c], tag, q) && MadeDurable(calls[c]);
      assert calls'[c] == calls[c];
    }
  }

  lemma MoreDoubtful(calls: seq<Call>, calls': seq<Call>, tainted: bool, tag: nat, q: nat)
    requires OneMore(calls, calls') && Doubtful(calls, tainted, tag, q)
    ensures Doubtful(calls', tainted, tag, q)
  {
    OldCalls(calls, calls');
    var c :| 0 <= c < |calls| && Retracts(calls[c], tag, q) && (tainted || (calls[c].phase == Lost && !Out(calls[c])));
    assert calls'[c] == calls[c];
  }

  lemma MoreCount(calls: seq<Call>, calls': seq<Call>, tag: nat, q: nat)
    requires OneMore(calls, calls')
    ensures CountRetracting(calls', tag, q)
         == CountRetracting(calls, tag, q) + if Retracts(calls'[|calls|], tag, q) then 1 else 0
  {
    assert calls'[..|calls|] == calls;
  }

  /** The table with a new call's records: the old ones, and any numbered from nextSeq on. */
  ghost predicate Grown(recs: seq<Live>, recs': seq<Live>, nextSeq: nat, newTag: nat) {
    && |recs| <= |recs'|
    && (forall k :: 0 <= k < |recs| ==> SameRec(recs[k], recs'[k]) && recs'[k].row.done == recs[k].row.done)
    && (forall k :: |recs| <= k < |recs'| ==> recs'[k].row.seqno >= nextSeq && recs'[k].tag == newTag && recs'[k].committing)
  }

  lemma GrownWait(f: File, older: seq<File>, lastEnd: nat, sync: Sync, recs: seq<Live>, recs': seq<Live>, nextSeq: nat, newTag: nat, call: Call, c: nat)
    requires Grown(recs, recs', nextSeq, newTag) && c + 1 < newTag && WaitOne(f, older, lastEnd, sync, recs, call, c)
    ensures WaitOne(f, older, lastEnd, sync, recs', call, c)
  {
    hide AbsentFrom, NotSure, NeverIn;
    forall j | 0 <= j < |recs'| && recs'[j].tag == c + 1 ensures j < |recs| && PEntry(recs'[j]) == PEntry(recs[j]) {}
  }

  lemma GrownMay(f: File, calls: seq<Call>, calls': seq<Call>, recs: seq<Live>, recs': seq<Live>, nextSeq: nat, nextSeq': nat, shaken: bool)
    requires OneMore(calls, calls') && Grown(recs, recs', nextSeq, |calls'|) && nextSeq <= nextSeq'
    requires FileMay(f, calls, recs, nextSeq, shaken)
    ensures FileMay(f, calls', recs', nextSeq', shaken)
    ensures forall e :: May(f, e) ==> e.tag < |calls'| && e.rec.seqno < nextSeq
  {
    hide May;
    forall e | May(f, e) ensures Legit(e, calls', recs', nextSeq', shaken) && e.tag < |calls'| && e.rec.seqno < nextSeq {
      assert Legit(e, calls, recs, nextSeq, shaken);
      MoreLegit(e, calls, calls', recs, recs', nextSeq, nextSeq', shaken);
    }
  }

  lemma GrownKeeps(f: File, calls: seq<Call>, calls': seq<Call>, recs: seq<Live>, recs': seq<Live>, nextSeq: nat)
    requires OneMore(calls, calls') && Grown(recs, recs', nextSeq, |calls'|) && FileKeeps(f, calls, recs)
    requires forall k :: 0 <= k < |recs| ==> recs[k].tag <= |calls|
    ensures FileKeeps(f, calls', recs')
  {
    hide Sure;
    forall k | 0 <= k < |recs'| && Kept(calls', recs'[k]) ensures Sure(f, PEntry(recs'[k])) {
      assert k < |recs|;
      MoreKept(calls, calls', recs'[k]);
      KeptSame(calls, recs[k], recs'[k]);
      assert PEntry(recs'[k]) == PEntry(recs[k]);
    }
  }

  lemma GrownFile(f: File, s: State, s': State)
    requires FileOk(f, s) && OneMore(s.calls, s'.calls) && Grown(s.recs, s'.recs, s.nextSeq, |s'.calls|) && s.nextSeq <= s'.nextSeq
    requires s'.broken == s.broken && s'.tainted == s.tainted && s'.closed == s.closed && RecsOk(s)
    ensures FileOk(f, s')
    ensures forall e :: May(f, e) ==> e.tag < |s'.calls| && e.rec.seqno < s.nextSeq
  {
    hide FileVerdicts, FileMay, FileKeeps, RetractedIn, Grown, May, CountOpen, Paired;
    GrownMay(f, s.calls, s'.calls, s.recs, s'.recs, s.nextSeq, s'.nextSeq, s.broken || s.tainted);
    forall k | 0 <= k < |s.recs| ensures s.recs[k].tag <= |s.calls| { RecTag(s.recs[k], s.calls, s.nextSeq, s.tainted); }
    GrownKeeps(f, s.calls, s'.calls, s.recs, s'.recs, s.nextSeq);
    OldCalls(s.calls, s'.calls);
  }

  lemma GrownHas(recs: seq<Live>, recs': seq<Live>, nextSeq: nat, newTag: nat, tag: nat, q: nat)
    requires Grown(recs, recs', nextSeq, newTag)
    ensures HasRec(recs, tag, q) ==> HasRec(recs', tag, q)
    ensures HasOpen(recs, tag, q) ==> HasOpen(recs', tag, q)
  {
    if HasRec(recs, tag, q) {
      var k :| 0 <= k < |recs| && recs[k].tag == tag && recs[k].row.seqno == q;
      assert recs'[k].tag == tag && recs'[k].row.seqno == q;
    }
    if HasOpen(recs, tag, q) {
      var k :| 0 <= k < |recs| && recs[k].tag == tag && recs[k].row.seqno == q && !recs[k].row.done;
      assert recs'[k].tag == tag && recs'[k].row.seqno == q && !recs'[k].row.done;
    }
  }

  lemma GrownCall(calls: seq<Call>, calls': seq<Call>, recs: seq<Live>, recs': seq<Live>, nextSeq: nat, nextSeq': nat, c: nat)
    requires OneMore(calls, calls') && Grown(recs, recs', nextSeq, |calls'|) && nextSeq <= nextSeq'
    requires c < |calls| && CallOk(calls, recs, nextSeq, c)
    ensures CallOk(calls', recs', nextSeq', c)
  {
    hide HasRec, HasOpen, MadeDurable, DurablyRetracted, Out;
    OldCalls(calls, calls');
    var call := calls[c];
    if call.kind == Submit && call.phase == InFlight {
      forall q | call.first <= q <= call.last ensures Submitted(recs', c, q) {
        assert Submitted(recs, c, q);
        GrownHas(recs, recs', nextSeq, |calls'|, c + 1, q);
      }
    }
    GrownHas(recs, recs', nextSeq, |calls'|, call.target, call.first);
    MoreDurably(calls, calls', call.target, call.first);
  }

  lemma GrownAck(calls: seq<Call>, calls': seq<Call>, recs: seq<Live>, recs': seq<Live>, nextSeq: nat, closed: set<(nat, nat)>, tainted: bool, c: nat, q: nat)
    requires OneMore(calls, calls') && Grown(recs, recs', nextSeq, |calls'|) && c < |calls'|
    requires c < |calls| ==> AckOne(calls, recs, closed, tainted, c, q)
    ensures AckOne(calls', recs', closed, tainted, c, q)
  {
    hide HasRec, HasOpen, Doubtful;
    OldCalls(calls, calls');
    GrownHas(recs, recs', nextSeq, |calls'|, c + 1, q);
    if Doubtful(calls, tainted, c + 1, q) { MoreDoubtful(calls, calls', tainted, c + 1, q); }
  }

  /** Opening a new call keeps the invariant, given what it does to the table. */
  lemma NewCallInv(s: State, s': State)
    requires Inv(s) && OneMore(s.calls, s'.calls) && Grown(s.recs, s'.recs, s.nextSeq, |s'.calls|)
    requires s.nextSeq <= s'.nextSeq && RecsOk(s') && CallOk(s'.calls, s'.recs, s'.nextSeq, |s.calls|)
    requires s' == s.(calls := s'.calls, recs := s'.recs, nextSeq := s'.nextSeq)
    ensures Inv(s')
    ensures Unused(s', s.nextSeq)
  {
    hide Shaped, StableFrom, WaitOne, FileOk, PastOk, RecsOk, CallOk, AckOne, Grown, May;
    OldCalls(s.calls, s'.calls);
    forall c | 0 <= c < |s'.calls| && WaitingNow(s'.calls[c])
      ensures WaitOne(s'.cur, s'.older, s'.lastEnd, s'.sync, s'.recs, s'.calls[c], c)
    {
      GrownWait(s.cur, s.older, s.lastEnd, s.sync, s.recs, s'.recs, s.nextSeq, |s'.calls|, s.calls[c], c);
    }
    GrownFile(s.cur, s, s');
    forall k | 0 <= k < |s.older| ensures PastOk(s.older[k], s') && forall e :: May(s.older[k], e) ==> e.tag < |s'.calls| {
      GrownPast(s.older[k], s, s');
    }
    forall c | 0 <= c < |s.calls| ensures CallOk(s'.calls, s'.recs, s'.nextSeq, c) {
      GrownCall(s.calls, s'.calls, s.recs, s'.recs, s.nextSeq, s'.nextSeq, c);
    }
    forall c, q | 0 <= c < |s'.calls| ensures AckOne(s'.calls, s'.recs, s'.closed, s'.tainted, c, q) {
      GrownAck(s.calls, s'.calls, s.recs, s'.recs, s.nextSeq, s.closed, s.tainted, c, q);
    }
  }

  lemma GrownPast(f: File, s: State, s': State)
    requires PastOk(f, s) && OneMore(s.calls, s'.calls) && s' == s.(calls := s'.calls, recs := s'.recs, nextSeq := s'.nextSeq)
    ensures PastOk(f, s') && forall e :: May(f, e) ==> e.tag < |s'.calls|
  {
    hide PastKeeps, FileRetracts, FilePairs, FileVerdicts, May, TagFits;
    OldCalls(s.calls, s'.calls);
    PastOn(f, s, s');
  }

  /** The newest call has left no mark on any file, and nothing is numbered from `top` on. */
  ghost predicate Unused(s: State, top: nat) {
    && (forall e :: May(s.cur, e) ==> e.tag < |s.calls| && e.rec.seqno < top)
    && (forall i, e :: 0 <= i < |s.older| && May(s.older[i], e) ==> e.tag < |s.calls|)
  }

  // ---- what the new call writes ----

  /** The same calls, one of them perhaps no longer out of the journal. */
  ghost predicate Upgraded(calls: seq<Call>, calls': seq<Call>) {
    && |calls'| == |calls|
    && forall c :: 0 <= c < |calls| ==>
         && calls'[c].kind == calls[c].kind && calls'[c].first == calls[c].first && calls'[c].last == calls[c].last
         && calls'[c].target == calls[c].target && calls'[c].items == calls[c].items && calls'[c].phase == calls[c].phase
         && (MadeDurable(calls'[c]) <==> MadeDurable(calls[c])) && (Out(calls'[c]) ==> Out(calls[c]))
         && (calls[c].phase != InFlight ==> calls'[c] == calls[c])
  }

  lemma UpgradedRetracts(calls: seq<Call>, calls': seq<Call>, tag: nat, q: nat)
    requires Upgraded(calls, calls')
    ensures DurablyRetracted(calls, tag, q) <==> DurablyRetracted(calls', tag, q)
    ensures forall tainted :: Doubtful(calls, tainted, tag, q) ==> Doubtful(calls', tainted, tag, q)
  {
    if DurablyRetracted(calls, tag, q) {
      var c :| 0 <= c < |calls| && Retracts(calls[c], tag, q) && MadeDurable(calls[c]);
      assert Retracts(calls'[c], tag, q) && MadeDurable(calls'[c]);
    }
    forall tainted | Doubtful(calls, tainted, tag, q) ensures Doubtful(calls', tainted, tag, q) {
      var c :| 0 <= c < |calls| && Retracts(calls[c], tag, q) && (tainted || (calls[c].phase == Lost && !Out(calls[c])));
      assert Retracts(calls'[c], tag, q);
    }
  }

  lemma {:induction false} UpgradedCount(calls: seq<Call>, calls': seq<Call>, tag: nat, q: nat)
    requires Upgraded(calls, calls')
    ensures CountRetracting(calls', tag, q) == CountRetracting(calls, tag, q)
  {
    if |calls| > 0 {
      UpgradedCount(calls[..|calls| - 1], calls'[..|calls| - 1], tag, q);
    }
  }

  lemma UpgradedKept(calls: seq<Call>, calls': seq<Call>, t: Live)
    requires Upgraded(calls, calls') && Kept(calls', t)
    ensures Kept(calls, t)
  {
  }

  lemma UpgradedRec(t: Live, calls: seq<Call>, calls': seq<Call>, nextSeq: nat, tainted: bool)
    requires Upgraded(calls, calls') && RecOk(t, calls, nextSeq, tainted)
    ensures RecOk(t, calls', nextSeq, tainted)
  {
    hide DurablyRetracted, CountRetracting, MadeDurable, Out;
    UpgradedRetracts(calls, calls', t.tag, t.row.seqno);
    UpgradedCount(calls, calls', t.tag, t.row.seqno);
  }

  lemma UpgradedCall(calls: seq<Call>, calls': seq<Call>, recs: seq<Live>, nextSeq: nat, c: nat)
    requires Upgraded(calls, calls') && c < |calls| && CallOk(calls, recs, nextSeq, c)
    ensures CallOk(calls', recs, nextSeq, c)
  {
    hide DurablyRetracted, MadeDurable, Out, HasRec;
    UpgradedRetracts(calls, calls', calls[c].target, calls[c].first);
  }

  lemma UpgradedAck(calls: seq<Call>, calls': seq<Call>, recs: seq<Live>, closed: set<(nat, nat)>, tainted: bool, c: nat, q: nat)
    requires Upgraded(calls, calls') && c < |calls| && AckOne(calls, recs, closed, tainted, c, q)
    ensures AckOne(calls', recs, closed, tainted, c, q)
  {
    hide Doubtful, HasOpen, DurablyRetracted, MadeDurable, Out;
    UpgradedRetracts(calls, calls', c + 1, q);
  }

  lemma UpgradedPast(f: File, s: State, s': State)
    requires PastOk(f, s) && Upgraded(s.calls, s'.calls) && s'.closed == s.closed && s'.tainted == s.tainted && (s.broken ==> s'.broken)
    ensures PastOk(f, s')
  {
    hide PastOk, MadeDurable, Out, May;
    PastOn(f, s, s');
  }

  lemma UpgradedFile(f: File, s: State, s': State)
    requires FileOk(f, s) && Upgraded(s.calls, s'.calls) && s'.recs == s.recs && s'.nextSeq == s.nextSeq
    requires s'.tainted == s.tainted && (s.broken ==> s'.broken) && s'.closed == s.closed
    ensures FileOk(f, s')
  {
    hide May, Sure, Kept, Out, MadeDurable, FileVerdicts;
    forall e | May(f, e) ensures Legit(e, s'.calls, s'.recs, s'.nextSeq, s'.broken || s'.tainted) {
      assert Legit(e, s.calls, s.recs, s.nextSeq, s.broken || s.tainted);
    }
    forall k | 0 <= k < |s'.recs| && Kept(s'.calls, s'.recs[k]) ensures Sure(f, PEntry(s'.recs[k])) {
      UpgradedKept(s.calls, s'.calls, s.recs[k]);
    }
  }

  // -- the write itself --

  /** WriteDurable once the call is in the list. */
  function Attach(s: State, es: Log, fate: WriteFate): State
    requires HasFile(s) && |s.calls| > 0
  {
    var f, c := s.cur, |s.calls| - 1;
    if !s.open || s.broken then s
    else match fate
    case WriteOk =>
      s.(cur := Extend(f, es, false), lastEnd := |Cur(f)| + |es|, calls := s.calls[c := s.calls[c].(wrote := Written, pos := |Cur(f)|)])
    case WriteCut =>
      s.(cur := Extend(f, es, true), calls := s.calls[c := s.calls[c].(wrote := CutBack, cutAt := |f.hist| + 1)])
    case WriteStuck =>
      s.(cur := Extend(f, Part(es, fate.n), false), broken := true)
  }

  /** What the write puts in the file. */
  function Landed(es: Log, fate: WriteFate): Log {
    if fate.WriteStuck? then Part(es, fate.n) else es
  }

  lemma LandedFits(s: State, es: Log, fate: WriteFate)
    requires HasFile(s) && |s.calls| > 0 && Writes(s, es) && Ordered(Cur(s.cur) + es)
    ensures Ordered(Cur(s.cur) + Landed(es, fate))
    ensures forall e :: e in Landed(es, fate) ==> e in es || ScrapEntry(e)
  {
    hide Ordered, Part;
    if fate.WriteStuck? {
      AllWritable(s, es);
      PartOrdered(es, Cur(s.cur), fate.n);
    }
  }

  lemma AllWritable(s: State, es: Log)
    requires HasFile(s) && |s.calls| > 0 && Writes(s, es) && Ordered(Cur(s.cur) + es)
    ensures forall i :: 0 <= i < |es| ==> Writable(es[i].rec)
  {
    var all, n := Cur(s.cur) + es, |Cur(s.cur)|;
    forall i | 0 <= i < |es| ensures Writable(es[i].rec) {
      assert all[n + i] == es[i] && es[i] in es;
    }
  }

  lemma LandedCross(f: File, es: Log, w: Log, calls: seq<Call>)
    requires CrossFit(f, es, calls) && forall e :: e in w ==> e in es || ScrapEntry(e)
    ensures CrossFit(f, w, calls)
  {
    hide May, IsScrap;
  }

  /** What the newest call is about to write: its own records, in order, numbered below nextSeq. */
  ghost predicate Writes(s: State, es: Log)
    requires |s.calls| > 0
  {
    var call := s.calls[|s.calls| - 1];
    && call.wrote == Nothing && call.settled == Waiting && call.phase == InFlight && call.first <= call.last
    && |es| == Len(call)
    && (forall e :: e in es ==> e.tag == |s.calls| && TagFits(e.rec, call) && e.rec.seqno < s.nextSeq)
    && (call.kind == Submit ==> forall e, i :: e in es && 0 <= i < |s.recs| && s.recs[i].row.seqno == e.rec.seqno ==> s.recs[i].tag == e.tag)
    && (call.kind == Cancel ==> es == [Entry(Marker(D, call.first), |s.calls|)])
    && (call.kind == Submit ==> forall i :: 0 <= i < |s.recs| && s.recs[i].tag == |s.calls| ==>
          call.first <= s.recs[i].row.seqno <= call.last && es[s.recs[i].row.seqno - call.first] == PEntry(s.recs[i]))
  }

  lemma AttachUpgrades(s: State, es: Log, fate: WriteFate)
    requires HasFile(s) && |s.calls| > 0 && Writes(s, es)
    ensures Upgraded(s.calls, Attach(s, es, fate).calls)
    ensures forall c :: 0 <= c < |s.calls| - 1 ==> Attach(s, es, fate).calls[c] == s.calls[c]
  {
  }

  lemma WrittenNow(f: File, es: Log, older: seq<File>, sync: Sync, recs: seq<Live>, call: Call, c: nat)
    requires Shaped(f) && Ordered(Cur(f) + es) && f.safe <= |Cur(f)|
    requires call.wrote == Written && call.pos == |Cur(f)| && call.first <= call.last && |es| == Len(call)
    requires sync.Running? ==> sync.upto <= c && sync.end <= |Cur(f)|
    requires call.kind == Cancel ==> es == [Entry(Marker(D, call.first), c + 1)]
    requires call.kind == Submit ==> forall i :: 0 <= i < |recs| && recs[i].tag == c + 1 ==>
               call.first <= recs[i].row.seqno <= call.last && es[recs[i].row.seqno - call.first] == PEntry(recs[i])
    requires (forall e :: May(f, e) ==> e.tag != c + 1) && NeverIn(older, c + 1)
    ensures WaitOne(Extend(f, es, false), older, |Cur(f)| + |es|, sync, recs, call, c)
  {
    hide Shaped, Ordered, Extend, May, Sure, NeverIn;
    ShapedHas(f);
    ExtendOk(f, es, false);
    ExtendGrows(f, es, false);
    SureMay(f);
    assert WroteHere(Cur(f) + es, call, recs, c + 1);
    forall k | 0 <= k < |Cur(f)| ensures Cur(f)[k].tag != c + 1 { assert Cur(f)[k] in Cur(f); }
    assert NotBefore(Cur(f) + es, call.pos, c + 1);
  }

  lemma CutNow(f: File, es: Log, older: seq<File>, lastEnd: nat, sync: Sync, recs: seq<Live>, call: Call, c: nat)
    requires Shaped(f) && Ordered(Cur(f) + es)
    requires call.wrote == CutBack && call.cutAt == |f.hist| + 1 && call.first <= call.last && !Covers(sync, c)
    requires (forall e :: May(f, e) ==> e.tag != c + 1) && NeverIn(older, c + 1)
    ensures WaitOne(Extend(f, es, true), older, lastEnd, sync, recs, call, c)
  {
    hide Shaped, Ordered, Extend, May, Sure, NeverIn, AbsentFrom;
    ExtendOk(f, es, true);
    ExtendGrows(f, es, true);
    SureMay(f);
    CutAbsent(f, es, c + 1);
  }

  lemma AttachWaitNew(s: State, es: Log, fate: WriteFate)
    requires FilesOk(s) && SyncShape(s) && |s.calls| > 0 && Writes(s, es) && s.open && !s.broken && !fate.WriteStuck?
    requires Ordered(Cur(s.cur) + es) && Unused(s, s.nextSeq) && (s.sync.Running? ==> s.sync.upto < |s.calls|)
    ensures var s', c := Attach(s, es, fate), |s.calls| - 1;
            WaitOne(s'.cur, s'.older, s'.lastEnd, s'.sync, s'.recs, s'.calls[c], c)
  {
    hide Shaped, StableFrom, Ordered, Extend, May, WaitOne;
    ShapedHas(s.cur);
    var s', c := Attach(s, es, fate), |s.calls| - 1;
    if fate == WriteOk {
      WrittenNow(s.cur, es, s.older, s.sync, s.recs, s'.calls[c], c);
    } else {
      CutNow(s.cur, es, s.older, s.lastEnd, s.sync, s.recs, s'.calls[c], c);
    }
  }

  lemma SureMay(f: File)
    requires Shaped(f)
    ensures forall e :: Sure(f, e) ==> May(f, e)
    ensures forall e :: e in Cur(f) ==> May(f, e)
  {
    forall e | e in Cur(f) ensures May(f, e) { assert e in f.hist[|f.hist| - 1]; }
  }

  lemma CutAbsent(f: File, es: Log, tag: nat)
    requires Shaped(f) && forall e :: May(f, e) ==> e.tag != tag
    ensures AbsentFrom(Extend(f, es, true), |f.hist| + 1, tag)
    ensures |f.hist| + 1 < |Extend(f, es, true).hist|
  {
    SureMay(f);
    forall k | 0 <= k < |Cur(f)| ensures Cur(f)[k].tag != tag { assert Cur(f)[k] in Cur(f); }
  }

  lemma AttachFile(s: State, es: Log, fate: WriteFate)
    requires Inv(s) && |s.calls| > 0 && Writes(s, es) && s.open && !s.broken
    requires Ordered(Cur(s.cur) + es) && CrossFit(s.cur, es, s.calls)
    ensures FileOk(Attach(s, es, fate).cur, Attach(s, es, fate))
  {
    hide Inv, FileMay, FileKeeps, FileRetracts, FilePairs, FileVerdicts, CrossFit, Extend, Upgraded, Writes, Ordered, Landed, Part, Legit, ScrapEntry, May;
    CurFileOk(s);
    var s', w := Attach(s, es, fate), Landed(es, fate);
    AttachExtends(s, es, fate);
    AttachUpgrades(s, es, fate);
    UpgradedFile(s.cur, s, s');
    LandedFits(s, es, fate);
    AttachTargets(s, es, fate);
    AttachLegit(s, es, fate);
    ExtendMay(s.cur, w, fate == WriteCut, s'.calls, s'.recs, s'.nextSeq, s'.broken || s'.tainted);
    ExtendKeeps(s.cur, w, fate == WriteCut, s'.calls, s'.recs);
    ExtendRetracts(s.cur, w, fate == WriteCut, s'.calls);
    LandedCross(s.cur, es, w, s.calls);
    CrossUpgraded(s.cur, w, s.calls, s'.calls);
    ExtendPairs(s.cur, w, fate == WriteCut, s'.calls);
    LandedVerdicts(s, es, w);
    ExtendVerdicts(s.cur, w, fate == WriteCut, s'.closed);
  }

  /** A call's own writes are no verdicts, and meet none. */
  lemma LandedVerdicts(s: State, es: Log, w: Log)
    requires |s.calls| > 0 && Writes(s, es) && CrossFit(s.cur, w, s.calls) && forall e :: e in w ==> e in es || ScrapEntry(e)
    ensures forall p, d :: (May(s.cur, p) || p in w) && (May(s.cur, d) || d in w) && (p in w || d in w) && Judged(p, d) ==> (p.tag, p.rec.seqno) in s.closed
  {
    hide May, IsScrap;
  }

  lemma AttachExtends(s: State, es: Log, fate: WriteFate)
    requires HasFile(s) && |s.calls| > 0 && s.open && !s.broken
    ensures var s' := Attach(s, es, fate);
            && s'.cur == Extend(s.cur, Landed(es, fate), fate == WriteCut)
            && s'.recs == s.recs && s'.nextSeq == s.nextSeq && s'.older == s.older && s'.closed == s.closed
  {
    hide Extend, Part;
  }

  lemma CrossUpgraded(f: File, es: Log, calls: seq<Call>, calls': seq<Call>)
    requires CrossFit(f, es, calls) && Upgraded(calls, calls')
    ensures CrossFit(f, es, calls')
  {
    hide May, MadeDurable, Out;
  }

  lemma CurFileOk(s: State)
    requires Inv(s)
    ensures Shaped(s.cur) && FileOk(s.cur, s) && HasFile(s)
  {
  }

  lemma AttachLegit(s: State, es: Log, fate: WriteFate)
    requires HasFile(s) && |s.calls| > 0 && Writes(s, es) && s.open && !s.broken
    requires 0 < s.nextSeq && forall e :: e in Landed(es, fate) ==> e in es || ScrapEntry(e)
    ensures var s' := Attach(s, es, fate);
            forall e :: e in Landed(es, fate) ==> Legit(e, s'.calls, s'.recs, s'.nextSeq, s'.broken || s'.tainted)
  {
    hide Part, Landed, Extend, IsScrap;
  }

  lemma AttachTargets(s: State, es: Log, fate: WriteFate)
    requires Inv(s) && |s.calls| > 0 && Writes(s, es)
    requires forall e :: e in Landed(es, fate) ==> e in es || ScrapEntry(e)
    ensures s.nextSeq > 0
    ensures var calls' := Attach(s, es, fate).calls;
            forall e, c :: e in Landed(es, fate) && e.rec.typ == P && 0 <= c < |calls'| && calls'[c].kind == Cancel ==> e.tag != calls'[c].target
  {
    var calls' := Attach(s, es, fate).calls;
    AttachUpgrades(s, es, fate);
    forall c | 0 <= c < |calls'| && calls'[c].kind == Cancel ensures calls'[c].target < |s.calls| {
      assert CallOk(s.calls, s.recs, s.nextSeq, c);
    }
  }

  lemma AttachShape(s: State, es: Log, fate: WriteFate)
    requires FilesOk(s) && SyncShape(s) && |s.calls| > 0 && s.open && !s.broken && Writes(s, es) && Ordered(Cur(s.cur) + es)
    ensures FilesOk(Attach(s, es, fate)) && SyncShape(Attach(s, es, fate))
  {
    hide Shaped, StableFrom, Ordered, Extend, Part, Writes, ScrapEntry;
    ShapedHas(s.cur);
    var w := Landed(es, fate);
    LandedFits(s, es, fate);
    ExtendGrows(s.cur, w, fate == WriteCut);
    if s.sync.Running? { ExtendStable(s.cur, w, fate == WriteCut, s.sync.begin, s.sync.end); }
  }

  lemma ShapedHas(f: File)
    requires Shaped(f)
    ensures |f.hist| > 0
  {
  }

  /** Writing what a new call has to write keeps the invariant, however the write goes. */
  lemma AttachInv(s: State, es: Log, fate: WriteFate)
    requires Inv(s) && |s.calls| > 0 && Writes(s, es) && Unused(s, s.nextSeq) && Ordered(Cur(s.cur) + es)
    requires CrossFit(s.cur, es, s.calls) && (s.sync.Running? ==> s.sync.upto < |s.calls|)
    ensures Inv(Attach(s, es, fate))
  {
    hide Shaped, StableFrom, WaitOne, FileOk, PastOk, RecOk, CallOk, AckOne, Ordered, Upgraded, Writes, Unused, Extend, CrossFit, Part;
    ShapedHas(s.cur);
    if s.open && !s.broken {
      var s' := Attach(s, es, fate);
      AttachShape(s, es, fate);
      AttachUpgrades(s, es, fate);
      AttachFile(s, es, fate);
      forall k | 0 <= k < |s.older| ensures PastOk(s.older[k], s') { UpgradedPast(s.older[k], s, s'); }
      forall c | 0 <= c < |s'.calls| && WaitingNow(s'.calls[c])
        ensures WaitOne(s'.cur, s'.older, s'.lastEnd, s'.sync, s'.recs, s'.calls[c], c)
      {
        AttachWait(s, es, fate, c);
      }
      forall k | 0 <= k < |s.recs| ensures RecOk(s.recs[k], s'.calls, s.nextSeq, s.tainted) {
        UpgradedRec(s.recs[k], s.calls, s'.calls, s.nextSeq, s.tainted);
      }
      forall c | 0 <= c < |s.calls| ensures CallOk(s'.calls, s.recs, s.nextSeq, c) {
        UpgradedCall(s.calls, s'.calls, s.recs, s.nextSeq, c);
      }
      forall c, q | 0 <= c < |s.calls| ensures AckOne(s'.calls, s.recs, s.closed, s.tainted, c, q) {
        UpgradedAck(s.calls, s'.calls, s.recs, s.closed, s.tainted, c, q);
      }
    }
  }

  lemma AttachWait(s: State, es: Log, fate: WriteFate, c: nat)
    requires Inv(s) && |s.calls| > 0 && Writes(s, es) && Unused(s, s.nextSeq) && Ordered(Cur(s.cur) + es)
    requires s.open && !s.broken && (s.sync.Running? ==> s.sync.upto < |s.calls|)
    requires c < |s.calls| && WaitingNow(Attach(s, es, fate).calls[c])
    ensures var s' := Attach(s, es, fate); WaitOne(s'.cur, s'.older, s'.lastEnd, s'.sync, s'.recs, s'.calls[c], c)
  {
    hide Shaped, StableFrom, WaitOne, FileOk, RecOk, CallOk, AckOne, Ordered, Unused, Part, Landed, Extend, IsScrap;
    ShapedHas(s.cur);
    var s' := Attach(s, es, fate);
    AttachUpgrades(s, es, fate);
    if c == |s.calls| - 1 {
      AttachWaitNew(s, es, fate);
    } else {
      LandedFits(s, es, fate);
      AttachExtends(s, es, fate);
      ExtendWaitOne(s.cur, Landed(es, fate), fate == WriteCut, s.older, s.lastEnd, s.sync, s.recs, s.calls[c], c);
      LaterEnd(s'.cur, s.older, s.lastEnd, s'.lastEnd, s.sync, s.recs, s.calls[c], c);
    }
  }

  lemma LaterEnd(f: File, older: seq<File>, lastEnd: nat, lastEnd': nat, sync: Sync, recs: seq<Live>, call: Call, c: nat)
    requires lastEnd <= lastEnd' && WaitOne(f, older, lastEnd, sync, recs, call, c)
    ensures WaitOne(f, older, lastEnd', sync, recs, call, c)
  {
  }

  // ---- submit ----

  lemma NewRec(t: Live, calls: seq<Call>, calls': seq<Call>, nextSeq: nat, nextSeq': nat, tainted: bool)
    requires OneMore(calls, calls') && nextSeq <= nextSeq' && RecOk(t, calls, nextSeq, tainted)
    requires !Retracts(calls'[|calls|], t.tag, t.row.seqno)
    ensures RecOk(t, calls', nextSeq', tainted)
  {
    hide DurablyRetracted, CountRetracting;
    OldCalls(calls, calls');
    MoreCount(calls, calls', t.tag, t.row.seqno);
    MoreDurably(calls, calls', t.tag, t.row.seqno);
  }

  /** Nothing retracts what no call has submitted yet. */
  lemma {:induction false} NoneRetract(calls: seq<Call>, recs: seq<Live>, nextSeq: nat, tag: nat, q: nat)
    requires forall c :: 0 <= c < |calls| && calls[c].kind == Cancel ==> calls[c].target < tag
    ensures CountRetracting(calls, tag, q) == 0
  {
    if |calls| > 0 {
      NoneRetract(calls[..|calls| - 1], recs, nextSeq, tag, q);
    }
  }

  lemma {:induction false} CommittingNotOpen(recs: seq<Live>, ts: seq<Live>)
    requires forall k :: 0 <= k < |ts| ==> ts[k].committing
    ensures CountOpen(recs + ts) == CountOpen(recs)
    decreases |ts|
  {
    if |ts| == 0 {
      assert recs + ts == recs;
    } else {
      assert (recs + ts)[..|recs + ts| - 1] == recs + ts[..|ts| - 1];
      CommittingNotOpen(recs, ts[..|ts| - 1]);
    }
  }

  function Opened(s: State, items: seq<Item>): State
    requires |items| > 0
  {
    s.(recs := s.recs + NewLives(items, s.nextSeq, |s.calls| + 1), nextSeq := s.nextSeq + |items|,
       calls := s.calls + [NewCall(Submit, s.nextSeq, s.nextSeq + |items| - 1, 0, items)])
  }

  lemma TargetsBelow(s: State)
    requires Inv(s)
    ensures forall c :: 0 <= c < |s.calls| && s.calls[c].kind == Cancel ==> s.calls[c].target <= |s.calls|
  {
    forall c | 0 <= c < |s.calls| && s.calls[c].kind == Cancel ensures s.calls[c].target <= |s.calls| {
      assert CallOk(s.calls, s.recs, s.nextSeq, c);
    }
  }

  lemma OpenedRecs(s: State, items: seq<Item>)
    requires Inv(s) && Enabled(s, SubmitStep(items, WriteOk))
    ensures RecsOk(Opened(s, items))
  {
    hide RecOk, CallsOk, FilesOk, CrashOk, WaitOk, AckOk, CountOpen, Image;
    var s1, ts := Opened(s, items), NewLives(items, s.nextSeq, |s.calls| + 1);
    forall k | 0 <= k < |s1.recs| ensures RecOk(s1.recs[k], s1.calls, s1.nextSeq, s1.tainted) {
      if k < |s.recs| {
        NewRec(s.recs[k], s.calls, s1.calls, s.nextSeq, s1.nextSeq, s.tainted);
      } else {
        TargetsBelow(s);
        FreshRec(s.calls, s1.calls, s.nextSeq, items, k - |s.recs|, s.tainted);
      }
    }
    CommittingNotOpen(s.recs, ts);
    OpenedAscending(s, items);
  }

  lemma FreshRec(calls: seq<Call>, calls': seq<Call>, nextSeq: nat, items: seq<Item>, k: nat, tainted: bool)
    requires k < |items| && calls' == calls + [NewCall(Submit, nextSeq, nextSeq + |items| - 1, 0, items)] && nextSeq >= 1
    requires |items[k].name| <= MAX_NAME && |items[k].payload| <= MAX_PAYLOAD
    requires forall c :: 0 <= c < |calls| && calls[c].kind == Cancel ==> calls[c].target <= |calls|
    ensures RecOk(NewLives(items, nextSeq, |calls| + 1)[k], calls', nextSeq + |items|, tainted)
  {
    NoneRetract(calls', [], nextSeq, |calls'|, nextSeq + k);
  }

  lemma OpenedAscending(s: State, items: seq<Item>)
    requires RecsOk(s) && |items| > 0
    ensures Ascending(Rows(Opened(s, items).recs))
  {
    var recs' := Opened(s, items).recs;
    var rows, rows' := Rows(s.recs), Rows(recs');
    forall a, b | 0 <= a < b < |rows'| ensures rows'[a].seqno < rows'[b].seqno {
      if b < |s.recs| { assert rows[a].seqno < rows[b].seqno; }
      else if a < |s.recs| { assert RecOk(s.recs[a], s.calls, s.nextSeq, s.tainted); }
    }
  }

  lemma OpenedCall(s: State, items: seq<Item>)
    requires |items| > 0
    ensures CallOk(Opened(s, items).calls, Opened(s, items).recs, Opened(s, items).nextSeq, |s.calls|)
    ensures OneMore(s.calls, Opened(s, items).calls)
    ensures Grown(s.recs, Opened(s, items).recs, s.nextSeq, |s.calls| + 1)
  {
    var s1 := Opened(s, items);
    forall q | s.nextSeq <= q <= s.nextSeq + |items| - 1 ensures Submitted(s1.recs, |s.calls|, q) {
      var k := |s.recs| + (q - s.nextSeq);
      assert s1.recs[k].tag == |s.calls| + 1 && s1.recs[k].row.seqno == q;
    }
  }

  lemma NewPsOrdered(f: File, items: seq<Item>, first: nat, tag: nat)
    requires Shaped(f) && 1 <= first && first + |items| <= MAX_SEQ + 1
    requires forall k :: 0 <= k < |items| ==> |items[k].name| <= MAX_NAME && |items[k].payload| <= MAX_PAYLOAD
    requires forall e :: May(f, e) ==> e.rec.seqno < first
    ensures |f.hist| > 0 && Ordered(Cur(f) + PEntries(NewLives(items, first, tag)))
  {
    SureMay(f);
    var now, es := Cur(f), PEntries(NewLives(items, first, tag));
    assert Ordered(now);
    forall k | 0 <= k < |now| ensures now[k].rec.seqno < first { assert now[k] in Cur(f); }
    forall a, b | 0 <= a < b < |now + es| && (now + es)[b].rec.typ == P
      ensures (now + es)[a].rec.seqno < (now + es)[b].rec.seqno
    {
      if b >= |now| && a >= |now| {
        assert (now + es)[a] == es[a - |now|] && (now + es)[b] == es[b - |now|];
      }
    }
  }

  lemma NewPsCross(f: File, items: seq<Item>, first: nat, tag: nat, calls: seq<Call>)
    requires forall e :: May(f, e) ==> e.rec.seqno < first
    ensures CrossFit(f, PEntries(NewLives(items, first, tag)), calls)
  {
    hide May;
  }

  lemma OldNumbers(s: State)
    requires RecsOk(s)
    ensures forall i :: 0 <= i < |s.recs| ==> s.recs[i].row.seqno < s.nextSeq
  {
    hide CountOpen;
    forall i | 0 <= i < |s.recs| ensures s.recs[i].row.seqno < s.nextSeq { RecTag(s.recs[i], s.calls, s.nextSeq, s.tainted); }
  }

  lemma OldTags(s: State)
    requires RecsOk(s)
    ensures forall i :: 0 <= i < |s.recs| ==> s.recs[i].tag <= |s.calls|
  {
    hide CountOpen;
    forall i | 0 <= i < |s.recs| ensures s.recs[i].tag <= |s.calls| { RecTag(s.recs[i], s.calls, s.nextSeq, s.tainted); }
  }

  lemma OpenedWrites(s: State, items: seq<Item>)
    requires RecsOk(s) && |items| > 0
    ensures Writes(Opened(s, items), PEntries(NewLives(items, s.nextSeq, |s.calls| + 1)))
  {
    hide RecsOk, Writes, TagFits, PEntry;
    var ts := NewLives(items, s.nextSeq, |s.calls| + 1);
    OldTags(s);
    OldNumbers(s);
    NewPs(items, s.nextSeq, |s.calls| + 1);
    OnlyNew(s.recs, ts, s.nextSeq, |s.calls| + 1);
    SubmitWrites(Opened(s, items), PEntries(ts), |items|);
  }

  lemma SubmitWrites(s: State, es: Log, n: nat)
    requires |s.calls| > 0 && |es| == n > 0
    requires var call := s.calls[|s.calls| - 1];
             && call == NewCall(Submit, call.first, call.first + n - 1, 0, call.items) && s.nextSeq == call.first + n
             && (forall e :: e in es ==> e.tag == |s.calls| && TagFits(e.rec, call) && call.first <= e.rec.seqno < call.first + n)
             && (forall i :: 0 <= i < |s.recs| && s.recs[i].row.seqno >= call.first ==> s.recs[i].tag == |s.calls|)
             && (forall i :: 0 <= i < |s.recs| && s.recs[i].tag == |s.calls| ==>
                   call.first <= s.recs[i].row.seqno < call.first + n && es[s.recs[i].row.seqno - call.first] == PEntry(s.recs[i]))
    ensures Writes(s, es)
  {
    hide TagFits, PEntry;
  }

  /** The records with the new numbers, or of the new call, are the new ones. */
  lemma OnlyNew(recs: seq<Live>, ts: seq<Live>, first: nat, tag: nat)
    requires forall i :: 0 <= i < |recs| ==> recs[i].row.seqno < first && recs[i].tag < tag
    requires forall k :: 0 <= k < |ts| ==> ts[k].row.seqno == first + k && ts[k].tag == tag
    ensures var all := recs + ts;
            && (forall i :: 0 <= i < |all| && all[i].row.seqno >= first ==> all[i].tag == tag)
            && (forall i :: 0 <= i < |all| && all[i].tag == tag ==>
                  first <= all[i].row.seqno < first + |ts| && PEntries(ts)[all[i].row.seqno - first] == PEntry(all[i]))
  {
  }

  /** What a submit writes: a 'P' of its own for each number. */
  lemma NewPs(items: seq<Item>, first: nat, tag: nat)
    requires |items| > 0
    ensures var call := NewCall(Submit, first, first + |items| - 1, 0, items);
            forall e :: e in PEntries(NewLives(items, first, tag)) ==> e.tag == tag && TagFits(e.rec, call) && first <= e.rec.seqno < first + |items|
  {
    var es := PEntries(NewLives(items, first, tag));
    forall e | e in es ensures e.tag == tag && TagFits(e.rec, NewCall(Submit, first, first + |items| - 1, 0, items)) && first <= e.rec.seqno < first + |items| {
      var k :| 0 <= k < |es| && es[k] == e;
    }
  }

  lemma SubmitInv(s: State, items: seq<Item>, fate: WriteFate)
    requires Inv(s) && Enabled(s, SubmitStep(items, fate))
    ensures Inv(DoSubmit(s, items, fate))
  {
    hide RecsOk, CallsOk, CrashOk, WaitOk, AckOk, Shaped, StableFrom, Grown, OneMore, CallOk, Ordered, Writes, May, Extend, Image, CrossFit;
    var s1, es := Opened(s, items), PEntries(NewLives(items, s.nextSeq, |s.calls| + 1));
    OpenedRecs(s, items);
    OpenedCall(s, items);
    NewCallInv(s, s1);
    OpenedWrites(s, items);
    NumbersFit(s);
    NewPsOrdered(s.cur, items, s.nextSeq, |s.calls| + 1);
    NewPsCross(s.cur, items, s.nextSeq, |s.calls| + 1, s1.calls);
    AttachInv(s1, es, fate);
    assert DoSubmit(s, items, fate) == Attach(s1, es, fate) by { SameSubmit(s, items, fate); }
  }

  lemma NumbersFit(s: State)
    requires Inv(s)
    ensures 1 <= s.nextSeq <= MAX_SEQ + 1
  {
  }

  lemma SameSubmit(s: State, items: seq<Item>, fate: WriteFate)
    requires HasFile(s) && |items| > 0
    ensures DoSubmit(s, items, fate) == Attach(Opened(s, items), PEntries(NewLives(items, s.nextSeq, |s.calls| + 1)), fate)
  {
    hide NewLives, PEntries, Extend;
    var c := NewCall(Submit, s.nextSeq, s.nextSeq + |items| - 1, 0, items);
    assert (s.calls + [c])[|s.calls| := c.(wrote := Written, pos := |Cur(s.cur)|)] == s.calls + [c.(wrote := Written, pos := |Cur(s.cur)|)];
    assert (s.calls + [c])[|s.calls| := c.(wrote := CutBack, cutAt := |s.cur.hist| + 1)] == s.calls + [c.(wrote := CutBack, cutAt := |s.cur.hist| + 1)];
  }

  // ---- cancel ----

  function Retracting(s: State, i: nat): State
    requires i < |s.recs|
  {
    var t := s.recs[i];
    s.(recs := s.recs[i := t.(retracting := t.retracting + 1)],
       calls := s.calls + [NewCall(Cancel, t.row.seqno, t.row.seqno, t.tag, [])])
  }

  lemma RetractingRecs(s: State, i: nat)
    requires Inv(s) && i < |s.recs| && IsOpen(s.recs[i]) && s.recs[i].handed
    ensures RecsOk(Retracting(s, i))
  {
    hide RecOk, CallsOk, FilesOk, CrashOk, WaitOk, AckOk, CountOpen, Ascending;
    var s1, t := Retracting(s, i), s.recs[i];
    var t' := t.(retracting := t.retracting + 1);
    Numbered(s, i);
    forall k | 0 <= k < |s1.recs| ensures RecOk(s1.recs[k], s1.calls, s1.nextSeq, s1.tainted) {
      if k == i {
        MoreRetracting(t, s.calls, s1.calls, s.nextSeq, s.tainted);
      } else {
        NewRec(s.recs[k], s.calls, s1.calls, s.nextSeq, s1.nextSeq, s.tainted);
      }
    }
    CountChange(s.recs, i, t');
    ChangeAscending(s.recs, i, t');
  }

  lemma MoreRetracting(t: Live, calls: seq<Call>, calls': seq<Call>, nextSeq: nat, tainted: bool)
    requires RecOk(t, calls, nextSeq, tainted) && IsOpen(t) && t.handed
    requires calls' == calls + [NewCall(Cancel, t.row.seqno, t.row.seqno, t.tag, [])]
    ensures RecOk(t.(retracting := t.retracting + 1), calls', nextSeq, tainted)
  {
    hide DurablyRetracted, CountRetracting;
    OldCalls(calls, calls');
    MoreCount(calls, calls', t.tag, t.row.seqno);
  }

  lemma RetractingCall(s: State, i: nat)
    requires Inv(s) && i < |s.recs|
    ensures OneMore(s.calls, Retracting(s, i).calls)
    ensures Grown(s.recs, Retracting(s, i).recs, s.nextSeq, |s.calls| + 1)
    ensures CallOk(Retracting(s, i).calls, Retracting(s, i).recs, s.nextSeq, |s.calls|)
  {
    hide CountRetracting, CountOpen, CallsOk, WaitOk, CrashOk, AckOk, FilesOk, SyncShape;
    var s1, t := Retracting(s, i), s.recs[i];
    assert RecOk(t, s.calls, s.nextSeq, s.tainted);
    Numbered(s, i);
    assert s1.recs[i].tag == t.tag && s1.recs[i].row.seqno == t.row.seqno;
    assert HasRec(s1.recs, t.tag, t.row.seqno);
  }

  lemma RetractingWrites(s: State, i: nat)
    requires Inv(s) && i < |s.recs|
    ensures Writes(Retracting(s, i), [Entry(Marker(D, s.recs[i].row.seqno), |s.calls| + 1)])
  {
    hide CountOpen;
    assert RecOk(s.recs[i], s.calls, s.nextSeq, s.tainted);
  }

  lemma CancelInv(s: State, i: nat, fate: WriteFate)
    requires Inv(s) && Enabled(s, CancelStep(i, fate))
    ensures Inv(DoCancel(s, i, fate))
  {
    hide RecsOk, CallsOk, CrashOk, WaitOk, AckOk, Shaped, StableFrom, Grown, OneMore, CallOk, Ordered, Writes, May, Extend, Image, CrossFit;
    var s1, e := Retracting(s, i), Entry(Marker(D, s.recs[i].row.seqno), |s.calls| + 1);
    RetractingRecs(s, i);
    RetractingCall(s, i);
    NewCallInv(s, s1);
    RetractingWrites(s, i);
    SeqFits(s, i);
    ExtendOrdered(s.cur, e);
    CancelCross(s, i);
    AttachInv(s1, [e], fate);
    assert DoCancel(s, i, fate) == Attach(s1, [e], fate) by { SameCancel(s, i, fate); }
  }

  lemma CancelCross(s: State, i: nat)
    requires Inv(s) && i < |s.recs|
    ensures CrossFit(s.cur, [Entry(Marker(D, s.recs[i].row.seqno), |s.calls| + 1)], Retracting(s, i).calls)
  {
    hide May, CountOpen, RecsOk, CallsOk, WaitOk, FilesOk, AckOk, SyncShape;
    forall p | May(s.cur, p) && p.rec.typ == P && p.rec.seqno == s.recs[i].row.seqno ensures p.tag == s.recs[i].tag {
      assert Legit(p, s.calls, s.recs, s.nextSeq, s.broken || s.tainted);
    }
  }

  lemma SeqFits(s: State, i: nat)
    requires Inv(s) && i < |s.recs|
    ensures s.recs[i].row.seqno <= MAX_SEQ && Writable(Marker(D, s.recs[i].row.seqno))
  {
    hide CountOpen;
    assert RecOk(s.recs[i], s.calls, s.nextSeq, s.tainted);
  }

  lemma SameCancel(s: State, i: nat, fate: WriteFate)
    requires HasFile(s) && i < |s.recs|
    ensures DoCancel(s, i, fate) == Attach(Retracting(s, i), [Entry(Marker(D, s.recs[i].row.seqno), |s.calls| + 1)], fate)
  {
    hide Extend;
    var c := NewCall(Cancel, s.recs[i].row.seqno, s.recs[i].row.seqno, s.recs[i].tag, []);
    assert (s.calls + [c])[|s.calls| := c.(wrote := Written, pos := |Cur(s.cur)|)] == s.calls + [c.(wrote := Written, pos := |Cur(s.cur)|)];
    assert (s.calls + [c])[|s.calls| := c.(wrote := CutBack, cutAt := |s.cur.hist| + 1)] == s.calls + [c.(wrote := CutBack, cutAt := |s.cur.hist| + 1)];
  }
}
