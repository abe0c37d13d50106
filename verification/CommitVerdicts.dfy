/** Verdicts that meet retractions. */
module CommitVerdicts {
  import opened Sequences
  import opened LittleEndian
  import opened Journal
  import opened RecordTable
  import opened Disk
  import opened GroupCommit
  import opened GroupCommitInv
  import opened CommitMarkers
  import opened CommitAnswers
  import opened CommitCompact
  import opened CommitTheorems

  /** A verdict takes effect only if every retraction fails: in no run is a record quarantined
      that some retraction durably withdrew. */
  lemma QuarantinedWasNotWithdrawn(s: State, i: nat)
    requires Reachable(s) && i < |s.recs| && s.recs[i].row.quarantined && !s.recs[i].row.done
    ensures !DurablyRetracted(s.calls, s.recs[i].tag, s.recs[i].row.seqno)
  {
    ReachableInv(s);
    hide FilesOk, SyncShape, WaitOk, CrashOk, AckOk, CountOpen, HasRec;
    var t := s.recs[i];
    assert RecOk(t, s.calls, s.nextSeq, s.tainted);
    forall c | 0 <= c < |s.calls| && Retracts(s.calls[c], t.tag, t.row.seqno) ensures !MadeDurable(s.calls[c]) {
      assert CallOk(s.calls, s.recs, s.nextSeq, c);
      if s.calls[c].phase == InFlight { CountsSelf(s.calls, c, t.tag, t.row.seqno); }
    }
  }

  // ---- a verdict that waits ----

  ghost predicate Waits(t: Live, tag: nat, q: nat, v: Verdict) {
    t.tag == tag && t.row.seqno == q && t.deferred == v && !t.row.done && !t.row.quarantined && t.handed && !t.committing
  }

  /** The verdict is kept back, a retraction of the record being in flight. */
  ghost predicate VerdictWaits(s: State, tag: nat, q: nat, v: Verdict) {
    exists t :: t in s.recs && Waits(t, tag, q, v)
  }

  /** The verdict has taken effect: the record is quarantined, or closed for good. */
  ghost predicate VerdictTook(s: State, tag: nat, q: nat, v: Verdict) {
    if v == Poison then Quarantined(s.recs, tag, q) else AllClosed(s.recs, tag, q)
  }

  ghost predicate Quarantined(recs: seq<Live>, tag: nat, q: nat) {
    exists t :: t in recs && Rid(t) == (tag, q) && t.row.quarantined && !t.row.done
  }

  ghost predicate AllClosed(recs: seq<Live>, tag: nat, q: nat) {
    forall t :: t in recs && Rid(t) == (tag, q) ==> t.row.done
  }

  ghost predicate Decided(s: State, tag: nat, q: nat, v: Verdict) {
    VerdictWaits(s, tag, q, v) || VerdictTook(s, tag, q, v) || DurablyRetracted(s.calls, tag, q)
  }

  /** Not about the record, or not an event that ends it. */
  predicate LeavesAlone(s: State, step: Step, tag: nat, q: nat) {
    match step
    case VerdictStep(i, verdict, mark) => i < |s.recs| && Rid(s.recs[i]) != (tag, q)
    case Drain(i) => i < |s.recs| && Rid(s.recs[i]) != (tag, q)
    case Crash(_, _, _, _) => false
    case _ => true
  }

  /** How one record fares in a step: as it was but for its marks and its retractions, or
      dropped because it is closed. */
  ghost predicate Fares(t: Live, t': Live) {
    && t'.tag == t.tag && t'.row.seqno == t.row.seqno && t'.deferred == t.deferred && t'.row.done == t.row.done
    && t'.row.quarantined == t.row.quarantined && t'.handed == t.handed && t'.committing == t.committing
  }

  /** Every record of (tag, q) that was there is still there, unless closed; and none is new. */
  ghost predicate Carried(recs: seq<Live>, recs': seq<Live>, tag: nat, q: nat) {
    && (forall t :: t in recs && Rid(t) == (tag, q) && !t.row.done ==> exists t' :: t' in recs' && Fares(t, t'))
    && (forall t' :: t' in recs' && Rid(t') == (tag, q) ==> exists t :: t in recs && Fares(t, t'))
  }

  lemma CarriedWaits(s: State, s': State, tag: nat, q: nat, v: Verdict)
    requires VerdictWaits(s, tag, q, v) && Carried(s.recs, s'.recs, tag, q)
    ensures VerdictWaits(s', tag, q, v)
  {
    var t :| t in s.recs && Waits(t, tag, q, v);
    assert Rid(t) == (tag, q);
    var t' :| t' in s'.recs && Fares(t, t');
    assert Waits(t', tag, q, v);
  }

  lemma CarriedQuarantined(recs: seq<Live>, recs': seq<Live>, tag: nat, q: nat)
    requires Quarantined(recs, tag, q) && Carried(recs, recs', tag, q)
    ensures Quarantined(recs', tag, q)
  {
    var t :| t in recs && Rid(t) == (tag, q) && t.row.quarantined && !t.row.done;
    var t' :| t' in recs' && Fares(t, t');
    assert Rid(t') == (tag, q) && t'.row.quarantined && !t'.row.done;
  }

  lemma CarriedClosed(recs: seq<Live>, recs': seq<Live>, tag: nat, q: nat)
    requires AllClosed(recs, tag, q) && Carried(recs, recs', tag, q)
    ensures AllClosed(recs', tag, q)
  {
    forall t' | t' in recs' && Rid(t') == (tag, q) ensures t'.row.done {
      var t :| t in recs && Fares(t, t');
      assert Rid(t) == (tag, q);
    }
  }

  lemma CarriedDecides(s: State, s': State, tag: nat, q: nat, v: Verdict)
    requires Decided(s, tag, q, v) && Carried(s.recs, s'.recs, tag, q)
    requires DurablyRetracted(s.calls, tag, q) ==> DurablyRetracted(s'.calls, tag, q)
    ensures Decided(s', tag, q, v)
  {
    hide DurablyRetracted, VerdictWaits, Quarantined, AllClosed, Carried;
    if VerdictWaits(s, tag, q, v) {
      CarriedWaits(s, s', tag, q, v);
    } else if VerdictTook(s, tag, q, v) {
      if v == Poison { CarriedQuarantined(s.recs, s'.recs, tag, q); } else { CarriedClosed(s.recs, s'.recs, tag, q); }
    }
  }

  lemma CarriedSame(recs: seq<Live>, tag: nat, q: nat)
    ensures Carried(recs, recs, tag, q)
  {
    assert forall t :: t in recs ==> Fares(t, t);
  }

  lemma CarriedChange(recs: seq<Live>, i: nat, t': Live, tag: nat, q: nat)
    requires i < |recs| && (Fares(recs[i], t') || (Rid(recs[i]) != (tag, q) && Rid(t') != (tag, q)))
    ensures Carried(recs, recs[i := t'], tag, q)
  {
    var recs' := recs[i := t'];
    forall t | t in recs && Rid(t) == (tag, q) ensures exists x :: x in recs' && Fares(t, x) {
      var k :| 0 <= k < |recs| && recs[k] == t;
      assert recs'[k] in recs';
      assert Fares(t, recs'[k]);
    }
    forall x | x in recs' && Rid(x) == (tag, q) ensures exists t :: t in recs && Fares(t, x) {
      var k :| 0 <= k < |recs'| && recs'[k] == x;
      assert recs[k] in recs;
      assert Fares(recs[k], x);
    }
  }

  lemma CarriedGrow(recs: seq<Live>, ts: seq<Live>, tag: nat, q: nat)
    requires forall t :: t in ts ==> t.tag != tag
    ensures Carried(recs, recs + ts, tag, q)
  {
    assert forall t :: t in recs ==> Fares(t, t);
    assert forall t :: t in recs ==> t in recs + ts;
  }

  lemma CarriedPart(recs: seq<Live>, recs': seq<Live>, tag: nat, q: nat)
    requires PartOf(recs, recs')
    ensures Carried(recs, recs', tag, q)
  {
    assert forall t :: t in recs ==> Fares(t, t);
  }

  lemma CarriedEnd(s: State, c: nat, ok: bool, tag: nat, q: nat)
    requires Inv(s) && c < |s.calls| && s.calls[c].kind == Submit && s.calls[c].phase == InFlight && tag != c + 1
    ensures Carried(s.recs, EndCommit(s.recs, c + 1, ok), tag, q)
  {
    hide Inv;
    var recs' := EndCommit(s.recs, c + 1, ok);
    forall t | t in s.recs && Rid(t) == (tag, q) ensures exists x :: x in recs' && Fares(t, x) {
      var k :| 0 <= k < |s.recs| && s.recs[k] == t;
      assert recs'[k] in recs' && Fares(t, recs'[k]);
    }
    forall x | x in recs' && Rid(x) == (tag, q) ensures exists t :: t in s.recs && Fares(t, x) {
      var k :| 0 <= k < |recs'| && recs'[k] == x;
      assert s.recs[k] in s.recs && Fares(s.recs[k], x);
    }
  }

  lemma MarkerRecs(s: State, typ: Byte, seqno: nat, mark: MarkFate)
    requires HasFile(s)
    ensures WriteMarker(s, typ, seqno, mark).recs == s.recs
  {
  }

  lemma DurableRecs(s: State, es: Log, call: Call, fate: WriteFate)
    requires HasFile(s)
    ensures WriteDurable(s, es, call, fate).recs == s.recs
  {
  }

  lemma WritesCarry(s: State, step: Step, tag: nat, q: nat)
    requires Enabled(s, step) && (step.SubmitStep? || step.CancelStep?) && 1 <= tag <= |s.calls|
    ensures Carried(s.recs, Do(s, step).recs, tag, q)
  {
    hide Image, Carried, WriteDurable, Fares;
    match step
    case SubmitStep(items, fate) =>
      var ts := NewLives(items, s.nextSeq, |s.calls| + 1);
      CarriedGrow(s.recs, ts, tag, q);
      DurableRecs(s.(recs := s.recs + ts, nextSeq := s.nextSeq + |items|), PEntries(ts), NewCall(Submit, s.nextSeq, s.nextSeq + |items| - 1, 0, items), fate);
    case CancelStep(i, fate) =>
      var t := s.recs[i];
      Marked(t, t.(retracting := t.retracting + 1));
      CarriedChange(s.recs, i, t.(retracting := t.retracting + 1), tag, q);
      DurableRecs(s.(recs := s.recs[i := t.(retracting := t.retracting + 1)]), [Entry(Marker(D, t.row.seqno), |s.calls| + 1)],
                  NewCall(Cancel, t.row.seqno, t.row.seqno, t.tag, []), fate);
  }

  lemma MarksCarry(s: State, step: Step, tag: nat, q: nat)
    requires Enabled(s, step) && (step.Started? || step.AttemptEnded?)
    ensures Carried(s.recs, Do(s, step).recs, tag, q)
  {
    hide Image, Carried, WriteMarker, Fares;
    match step
    case Started(i, mark) =>
      var t' := s.recs[i].(row := s.recs[i].row.(inflight := true));
      Marked(s.recs[i], t');
      CarriedChange(s.recs, i, t', tag, q);
      MarkerRecs(s.(recs := s.recs[i := t']), S, s.recs[i].row.seqno, mark);
    case AttemptEnded(i, mark) =>
      var t' := s.recs[i].(row := s.recs[i].row.(inflight := false, crashes := 0));
      Marked(s.recs[i], t');
      CarriedChange(s.recs, i, t', tag, q);
      MarkerRecs(s.(recs := s.recs[i := t']), F, s.recs[i].row.seqno, mark);
  }

  /** No step but the answers to its retractions can decide a waiting verdict. */
  lemma OtherStepsCarry(s: State, step: Step, tag: nat, q: nat)
    requires Inv(s) && Enabled(s, step) && LeavesAlone(s, step, tag, q) && !step.AnswerCancel?
    requires 1 <= tag <= |s.calls| && s.calls[tag - 1].phase != InFlight
    requires forall t :: t in s.recs && Rid(t) == (tag, q) && IsOpen(t) ==> t.handed
    ensures Carried(s.recs, Do(s, step).recs, tag, q)
  {
    hide Inv, Image, Carried, WriteMarker, WriteDurable, EndCommit, KeptOf, RewriteAll, NotDone, Fares, PartOf, ApplyVerdict;
    CarriedSame(s.recs, tag, q);
    if step.SubmitStep? || step.CancelStep? {
      WritesCarry(s, step, tag, q);
    } else if step.Started? || step.AttemptEnded? {
      MarksCarry(s, step, tag, q);
    } else if step.AnswerSubmit? {
      CarriedEnd(s, step.c, MadeDurable(s.calls[step.c]), tag, q);
    } else if step.Hand? {
      assert s.recs[step.i] in s.recs;
      CarriedChange(s.recs, step.i, s.recs[step.i].(handed := true), tag, q);
    } else if step.Refuse? {
      assert s.recs[step.i] in s.recs;
      CarriedChange(s.recs, step.i, CloseRec(s, step.i).recs[step.i], tag, q);
      MarkerRecs(CloseRec(s, step.i), D, s.recs[step.i].row.seqno, step.mark);
    } else if step.VerdictStep? {
      VerdictElsewhere(s, step.i, step.verdict, step.mark, tag, q);
    } else if step.Drain? {
      CarriedChange(s.recs, step.i, DoDrain(s, step.i).recs[step.i], tag, q);
    } else if step.Compact? {
      DroppedPart(s.recs);
      CarriedPart(s.recs, NotDone(s.recs), tag, q);
    }
  }

  lemma DroppedPart(recs: seq<Live>)
    ensures PartOf(recs, NotDone(recs))
  {
    NotDoneHas(recs);
  }

  lemma Marked(t: Live, t': Live)
    requires t' == t.(row := t'.row, retracting := t'.retracting)
    requires t'.row == t.row.(inflight := t'.row.inflight, crashes := t'.row.crashes)
    ensures Fares(t, t')
  {
  }

  lemma VerdictElsewhere(s: State, i: nat, v: Verdict, mark: MarkFate, tag: nat, q: nat)
    requires HasFile(s) && i < |s.recs| && Rid(s.recs[i]) != (tag, q)
    ensures Carried(s.recs, DoVerdict(s, i, v, mark).recs, tag, q)
  {
    hide Carried, WriteMarker, Fares;
    var s' := DoVerdict(s, i, v, mark);
    var t := s.recs[i];
    if t.retracting > 0 {
      CarriedChange(s.recs, i, t.(deferred := v), tag, q);
    } else if v == Poison {
      var t' := t.(row := t.row.(quarantined := true, inflight := false), deferred := NoVerdict);
      CarriedChange(s.recs, i, t', tag, q);
      MarkerRecs(s.(recs := s.recs[i := t'], pending := if s.pending > 0 then s.pending - 1 else 0), Q, t.row.seqno, mark);
    } else {
      var s1 := s.(recs := s.recs[i := t.(deferred := NoVerdict)]);
      UpdateTwice(s.recs, i, t.(deferred := NoVerdict), CloseRec(s1, i).recs[i]);
      CarriedChange(s.recs, i, CloseRec(s1, i).recs[i], tag, q);
      MarkerRecs(CloseRec(s1, i), D, t.row.seqno, mark);
    }
  }

  // ---- the answer that decides it ----

  lemma AnswerDecides(s: State, c: nat, mark: MarkFate, tag: nat, q: nat, v: Verdict)
    requires Inv(s) && Enabled(s, AnswerCancel(c, mark)) && Decided(s, tag, q, v) && v != NoVerdict
    ensures Decided(DoAnswerCancel(s, c, mark), tag, q, v)
  {
    hide Inv, Image, Decided, DurablyRetracted, Find, WriteMarker, Carried;
    var s', i := DoAnswerCancel(s, c, mark), Find(Rows(s.recs), s.calls[c].first);
    AnsweredStillDurable(s, c, mark, tag, q);
    if i == |s.recs| {
      CarriedSame(s.recs, tag, q);
      CarriedDecides(s, s', tag, q, v);
    } else if Rid(s.recs[i]) != (tag, q) {
      AnswerElsewhere(s, c, mark, i, tag, q);
      CarriedDecides(s, s', tag, q, v);
    } else {
      FoundRec(s, c, i);
      AnswerHere(s, c, mark, i, v);
    }
  }

  lemma AnsweredStillDurable(s: State, c: nat, mark: MarkFate, tag: nat, q: nat)
    requires HasFile(s) && c < |s.calls|
    ensures DurablyRetracted(s.calls, tag, q) ==> DurablyRetracted(DoAnswerCancel(s, c, mark).calls, tag, q)
  {
    hide DoAnswerCancel;
    AnswerCancelCalls(s, c, mark);
    if DurablyRetracted(s.calls, tag, q) {
      var d :| 0 <= d < |s.calls| && Retracts(s.calls[d], tag, q) && MadeDurable(s.calls[d]);
      var calls' := DoAnswerCancel(s, c, mark).calls;
      assert Retracts(calls'[d], tag, q) && MadeDurable(calls'[d]);
    }
  }

  ghost predicate OnlyAt(recs: seq<Live>, recs': seq<Live>, i: nat) {
    |recs'| == |recs| && i < |recs| && Succeeds(recs[i], recs'[i]) && forall k :: 0 <= k < |recs| && k != i ==> recs'[k] == recs[k]
  }

  /** One record in another's place, no more open and no less handed than it was. */
  predicate Succeeds(t: Live, t': Live) {
    Rid(t') == Rid(t) && t'.handed == t.handed && (IsOpen(t') ==> IsOpen(t))
  }

  lemma UpdatedAt(recs: seq<Live>, i: nat, t': Live)
    requires i < |recs| && Succeeds(recs[i], t')
    ensures OnlyAt(recs, recs[i := t'], i)
  {
  }

  lemma OnlyAtAgain(a: seq<Live>, b: seq<Live>, c: seq<Live>, i: nat)
    requires OnlyAt(a, b, i) && OnlyAt(b, c, i)
    ensures OnlyAt(a, c, i)
  {
  }

  lemma ClosedAt(s: State, i: nat)
    requires i < |s.recs|
    ensures OnlyAt(s.recs, CloseRec(s, i).recs, i)
  {
  }

  lemma DurableTouches(s: State, c: nat, mark: MarkFate, i: nat)
    requires HasFile(s) && c < |s.calls| && i == Find(Rows(s.recs), s.calls[c].first) < |s.recs| && MadeDurable(s.calls[c])
    ensures OnlyAt(s.recs, DoAnswerCancel(s, c, mark).recs, i)
  {
    hide Find, ApplyVerdict, CloseRec, WriteMarker, OnlyAt;
    var t := s.recs[i].(retracting := if s.recs[i].retracting > 0 then s.recs[i].retracting - 1 else 0);
    var s2 := s.(recs := s.recs[i := t][i := t.(deferred := NoVerdict)], calls := s.calls[c := s.calls[c].(phase := ToldOk)]);
    UpdatedAt(s.recs, i, t);
    UpdatedAt(s.recs[i := t], i, t.(deferred := NoVerdict));
    OnlyAtAgain(s.recs, s.recs[i := t], s2.recs, i);
    ClosedAt(s2, i);
    if !t.row.done && !t.row.quarantined { OnlyAtAgain(s.recs, s2.recs, CloseRec(s2, i).recs, i); }
  }

  lemma FailedTouches(s: State, c: nat, mark: MarkFate, i: nat)
    requires HasFile(s) && c < |s.calls| && i == Find(Rows(s.recs), s.calls[c].first) < |s.recs| && !MadeDurable(s.calls[c])
    ensures OnlyAt(s.recs, DoAnswerCancel(s, c, mark).recs, i)
  {
    hide Find, ApplyVerdict, CloseRec, WriteMarker, OnlyAt, MadeDurable;
    var t := s.recs[i].(retracting := if s.recs[i].retracting > 0 then s.recs[i].retracting - 1 else 0);
    UpdatedAt(s.recs, i, t);
    if !t.row.done && t.retracting == 0 && t.deferred != NoVerdict {
      var s2 := s.(recs := s.recs[i := t], calls := s.calls[c := s.calls[c].(phase := ToldIo)]);
      VerdictTouches(s2, i, t.deferred, mark);
      OnlyAtAgain(s.recs, s2.recs, ApplyVerdict(s2, i, t.deferred, mark).recs, i);
    }
  }

  /** An answer changes only the record it is about. */
  lemma AnswerTouches(s: State, c: nat, mark: MarkFate, i: nat)
    requires HasFile(s) && c < |s.calls| && i == Find(Rows(s.recs), s.calls[c].first) < |s.recs|
    ensures OnlyAt(s.recs, DoAnswerCancel(s, c, mark).recs, i)
  {
    hide Find, DoAnswerCancel, MadeDurable, OnlyAt;
    if MadeDurable(s.calls[c]) { DurableTouches(s, c, mark, i); } else { FailedTouches(s, c, mark, i); }
  }

  lemma VerdictTouches(s: State, i: nat, v: Verdict, mark: MarkFate)
    requires HasFile(s) && i < |s.recs|
    ensures var recs' := ApplyVerdict(s, i, v, mark).recs;
            && OnlyAt(s.recs, recs', i) && |recs'| == |s.recs|
            && (v == Poison ==> recs'[i].row.quarantined && recs'[i].row.done == s.recs[i].row.done)
            && (v != Poison ==> recs'[i].row.done)
  {
  }

  lemma AnswerElsewhere(s: State, c: nat, mark: MarkFate, i: nat, tag: nat, q: nat)
    requires HasFile(s) && c < |s.calls| && i == Find(Rows(s.recs), s.calls[c].first) < |s.recs| && Rid(s.recs[i]) != (tag, q)
    ensures Carried(s.recs, DoAnswerCancel(s, c, mark).recs, tag, q)
  {
    hide DoAnswerCancel, Find, Carried;
    AnswerTouches(s, c, mark, i);
    var recs' := DoAnswerCancel(s, c, mark).recs;
    assert recs' == s.recs[i := recs'[i]];
    CarriedChange(s.recs, i, recs'[i], tag, q);
  }

  lemma AnswerHere(s: State, c: nat, mark: MarkFate, i: nat, v: Verdict)
    requires Inv(s) && c < |s.calls| && s.calls[c].kind == Cancel && MayAnswer(s.calls[c]) && v != NoVerdict
    requires i == Find(Rows(s.recs), s.calls[c].first) < |s.recs| && Decided(s, s.recs[i].tag, s.recs[i].row.seqno, v)
    ensures HasFile(s) && Decided(DoAnswerCancel(s, c, mark), s.recs[i].tag, s.recs[i].row.seqno, v)
  {
    hide Inv, Find, DurablyRetracted, RecOk, WriteMarker, Carried, VerdictWaits, VerdictTook, ApplyVerdict;
    FoundRec(s, c, i);
    RecAt(s, i);
    FoundState(s.recs[i], s.calls, s.nextSeq, s.tainted);
    var t, s' := s.recs[i], DoAnswerCancel(s, c, mark);
    var t1 := t.(retracting := t.retracting - 1);
    if DurablyRetracted(s.calls, t.tag, t.row.seqno) {
      AnsweredStillDurable(s, c, mark, t.tag, t.row.seqno);
    } else if MadeDurable(s.calls[c]) {
      OwnRetraction(s.calls, c, t.tag, t.row.seqno);
      assert false;
    } else if !t.row.done && t1.retracting == 0 && t1.deferred != NoVerdict {
      WaitingIs(s, i, v);
      VerdictLands(s, c, mark, i);
    } else {
      Marked(t, t1);
      CarriedChange(s.recs, i, t1, t.tag, t.row.seqno);
      CarriedDecides(s, s', t.tag, t.row.seqno, v);
    }
  }

  /** An open record with a verdict waiting: it is that verdict. */
  lemma WaitingIs(s: State, i: nat, v: Verdict)
    requires Inv(s) && i < |s.recs| && !s.recs[i].row.done && s.recs[i].retracting > 0
    requires VerdictWaits(s, s.recs[i].tag, s.recs[i].row.seqno, v) || VerdictTook(s, s.recs[i].tag, s.recs[i].row.seqno, v)
    ensures s.recs[i].deferred == v
  {
    hide Inv;
    Numbered(s, i);
    RecAt(s, i);
    FoundState(s.recs[i], s.calls, s.nextSeq, s.tainted);
    assert s.recs[i] in s.recs;
    var t :| t in s.recs && t.tag == s.recs[i].tag && t.row.seqno == s.recs[i].row.seqno && (Waits(t, t.tag, t.row.seqno, v) || t.row.quarantined);
    var k :| 0 <= k < |s.recs| && s.recs[k] == t;
    assert k == i;
  }

  lemma VerdictLands(s: State, c: nat, mark: MarkFate, i: nat)
    requires Inv(s) && HasFile(s) && c < |s.calls| && i == Find(Rows(s.recs), s.calls[c].first) < |s.recs|
    requires !MadeDurable(s.calls[c]) && !s.recs[i].row.done && s.recs[i].retracting == 1 && s.recs[i].deferred != NoVerdict
    ensures VerdictTook(DoAnswerCancel(s, c, mark), s.recs[i].tag, s.recs[i].row.seqno, s.recs[i].deferred)
  {
    hide Inv, Find, ApplyVerdict;
    Numbered(s, i);
    var t, s' := s.recs[i], DoAnswerCancel(s, c, mark);
    var s2 := s.(recs := s.recs[i := t.(retracting := 0)], calls := s.calls[c := s.calls[c].(phase := ToldIo)]);
    VerdictTouches(s2, i, t.deferred, mark);
    assert s'.recs[i] in s'.recs;
    assert forall k :: 0 <= k < |s'.recs| && k != i ==> s'.recs[k].row.seqno != t.row.seqno;
  }

  // ---- over a whole run ----

  /** The steps leave the record to its retractions: no second verdict, no drain, no crash. */
  ghost predicate AllLeaveAlone(s: State, steps: seq<Step>, tag: nat, q: nat)
    decreases |steps|
  {
    |steps| > 0 ==> Enabled(s, steps[0]) && LeavesAlone(s, steps[0], tag, q) && AllLeaveAlone(Do(s, steps[0]), steps[1..], tag, q)
  }

  /** The record is known: submitted, answered, and in the engine's hands while it is open. */
  ghost predicate Known(s: State, tag: nat, q: nat) {
    && 1 <= tag <= |s.calls| && s.calls[tag - 1].phase != InFlight
    && HandedIfOpen(s.recs, tag, q)
  }

  lemma KnownStays(s: State, step: Step, tag: nat, q: nat)
    requires Inv(s) && Enabled(s, step) && LeavesAlone(s, step, tag, q) && Known(s, tag, q)
    ensures Known(Do(s, step), tag, q)
  {
    hide Inv, Enabled, Do, Carried, Fares;
    SettledOnce(s, step, tag - 1);
    if step.AnswerCancel? {
      AnswerEnabled(s, step);
      KnownAnswer(s, step, tag, q);
    } else {
      OtherStepsCarry(s, step, tag, q);
      CarriedHanded(s.recs, Do(s, step).recs, tag, q);
    }
  }

  lemma AnswerEnabled(s: State, step: Step)
    requires step.AnswerCancel? && Enabled(s, step)
    ensures HasFile(s) && step.c < |s.calls| && Do(s, step) == DoAnswerCancel(s, step.c, step.mark)
  {
  }

  ghost predicate HandedIfOpen(recs: seq<Live>, tag: nat, q: nat) {
    forall t :: t in recs && Rid(t) == (tag, q) && IsOpen(t) ==> t.handed
  }

  lemma CarriedHanded(recs: seq<Live>, recs': seq<Live>, tag: nat, q: nat)
    requires Carried(recs, recs', tag, q) && HandedIfOpen(recs, tag, q)
    ensures HandedIfOpen(recs', tag, q)
  {
    hide Carried;
    forall t' | t' in recs' && Rid(t') == (tag, q) && IsOpen(t') ensures t'.handed {
      var t := CameFrom(recs, recs', tag, q, t');
    }
  }

  lemma CameFrom(recs: seq<Live>, recs': seq<Live>, tag: nat, q: nat, t': Live) returns (t: Live)
    requires Carried(recs, recs', tag, q) && t' in recs' && Rid(t') == (tag, q)
    ensures t in recs && Fares(t, t')
  {
    t :| t in recs && Fares(t, t');
  }

  lemma KnownAnswer(s: State, step: Step, tag: nat, q: nat)
    requires HasFile(s) && step.AnswerCancel? && step.c < |s.calls| && HandedIfOpen(s.recs, tag, q)
    ensures HandedIfOpen(DoAnswerCancel(s, step.c, step.mark).recs, tag, q)
  {
    hide Find, WriteMarker, ApplyVerdict;
    var i := Find(Rows(s.recs), s.calls[step.c].first);
    if i < |s.recs| {
      AnswerTouches(s, step.c, step.mark, i);
      OnlyAtHanded(s.recs, DoAnswerCancel(s, step.c, step.mark).recs, i, tag, q);
    }
  }

  lemma OnlyAtHanded(recs: seq<Live>, recs': seq<Live>, i: nat, tag: nat, q: nat)
    requires OnlyAt(recs, recs', i) && HandedIfOpen(recs, tag, q)
    ensures HandedIfOpen(recs', tag, q)
  {
    forall t' | t' in recs' && Rid(t') == (tag, q) && IsOpen(t') ensures t'.handed {
      var k :| 0 <= k < |recs'| && recs'[k] == t';
      assert recs[k] in recs;
    }
  }

  lemma DecidedStays(s: State, step: Step, tag: nat, q: nat, v: Verdict)
    requires Inv(s) && Enabled(s, step) && LeavesAlone(s, step, tag, q) && Known(s, tag, q) && v != NoVerdict && Decided(s, tag, q, v)
    ensures Decided(Do(s, step), tag, q, v)
  {
    hide Inv, Enabled, Do, WaitingNow, Carried, Decided, DurablyRetracted;
    if step.AnswerCancel? {
      AnswerEnabled(s, step);
      AnswerDecides(s, step.c, step.mark, tag, q, v);
    } else {
      OtherStepsCarry(s, step, tag, q);
      StillDurable(s, step, tag, q);
      CarriedDecides(s, Do(s, step), tag, q, v);
    }
  }

  lemma StillDurable(s: State, step: Step, tag: nat, q: nat)
    requires Enabled(s, step) && !step.Crash?
    ensures DurablyRetracted(s.calls, tag, q) ==> DurablyRetracted(Do(s, step).calls, tag, q)
  {
    hide Enabled, Do;
    if DurablyRetracted(s.calls, tag, q) {
      var d :| 0 <= d < |s.calls| && Retracts(s.calls[d], tag, q) && MadeDurable(s.calls[d]);
      SettledOnce(s, step, d);
      var calls' := Do(s, step).calls;
      assert Retracts(calls'[d], tag, q) && MadeDurable(calls'[d]);
    }
  }

  lemma {:induction false} DecidedThroughout(s: State, steps: seq<Step>, s': State, tag: nat, q: nat, v: Verdict)
    requires Inv(s) && Reaches(s, steps, s') && AllLeaveAlone(s, steps, tag, q)
    requires v != NoVerdict && Known(s, tag, q) && Decided(s, tag, q, v)
    ensures Inv(s') && Decided(s', tag, q, v)
    decreases |steps|
  {
    hide Inv, Enabled, Do, Known, Decided, LeavesAlone;
    if |steps| > 0 {
      StepInv(s, steps[0]);
      KnownStays(s, steps[0], tag, q);
      DecidedStays(s, steps[0], tag, q, v);
      DecidedThroughout(Do(s, steps[0]), steps[1..], s', tag, q, v);
    }
  }

  /** A verdict that arrives while any number of retractions of the record are in flight takes
      effect exactly if every one of them fails. Once all have been answered, the record is
      quarantined as the verdict said just when no retraction was made durable; and if one was,
      the record is closed. */
  lemma VerdictMeetsRetractions(s: State, i: nat, v: Verdict, mark: MarkFate, steps: seq<Step>, s': State)
    requires Reachable(s) && i < |s.recs| && Enabled(s, VerdictStep(i, v, mark)) && s.recs[i].retracting > 0
    requires var s1, r := Do(s, VerdictStep(i, v, mark)), Rid(s.recs[i]);
             Reaches(s1, steps, s') && AllLeaveAlone(s1, steps, r.0, r.1) && CountRetracting(s'.calls, r.0, r.1) == 0
    ensures var r := Rid(s.recs[i]);
            && (v == Poison ==> (Quarantined(s'.recs, r.0, r.1) <==> !DurablyRetracted(s'.calls, r.0, r.1)))
            && (v == Gone || DurablyRetracted(s'.calls, r.0, r.1) ==> AllClosed(s'.recs, r.0, r.1))
  {
    hide Inv, Reaches, AllLeaveAlone, Enabled, Reachable, Do, Quarantined, AllClosed, DurablyRetracted, VerdictWaits, Known;
    var s1, tag, q := Do(s, VerdictStep(i, v, mark)), s.recs[i].tag, s.recs[i].row.seqno;
    ReachableInv(s);
    StepInv(s, VerdictStep(i, v, mark));
    Deferred(s, i, v, mark);
    DecidedThroughout(s1, steps, s', tag, q, v);
    NoneWait(s', tag, q, v);
    if DurablyRetracted(s'.calls, tag, q) { WithdrawnClosed(s', tag, q); }
  }

  lemma Deferred(s: State, i: nat, v: Verdict, mark: MarkFate)
    requires Inv(s) && Enabled(s, VerdictStep(i, v, mark)) && s.recs[i].retracting > 0
    ensures var s1, t := Do(s, VerdictStep(i, v, mark)), s.recs[i];
            v != NoVerdict && VerdictWaits(s1, t.tag, t.row.seqno, v) && Known(s1, t.tag, t.row.seqno)
  {
    hide Inv;
    var s1, t := Do(s, VerdictStep(i, v, mark)), s.recs[i];
    RecAt(s, i);
    Numbered(s, i);
    assert RecOk(t, s.calls, s.nextSeq, s.tainted);
    assert s1.recs[i] in s1.recs && Waits(s1.recs[i], t.tag, t.row.seqno, v);
  }

  /** With no retraction of it in flight, no verdict waits on the record. */
  lemma NoneWait(s: State, tag: nat, q: nat, v: Verdict)
    requires Inv(s) && CountRetracting(s.calls, tag, q) == 0 && v != NoVerdict
    ensures !VerdictWaits(s, tag, q, v)
  {
    hide Inv;
    forall t | t in s.recs ensures !Waits(t, tag, q, v) {
      var k :| 0 <= k < |s.recs| && s.recs[k] == t;
      RecAt(s, k);
    }
  }

  /** A record withdrawn by a retraction that has been answered is closed. */
  lemma WithdrawnClosed(s: State, tag: nat, q: nat)
    requires Inv(s) && CountRetracting(s.calls, tag, q) == 0 && DurablyRetracted(s.calls, tag, q)
    ensures AllClosed(s.recs, tag, q) && !Quarantined(s.recs, tag, q)
  {
    hide FilesOk, SyncShape, WaitOk, CrashOk, RecsOk, AckOk, HasRec;
    var d :| 0 <= d < |s.calls| && Retracts(s.calls[d], tag, q) && MadeDurable(s.calls[d]);
    assert CallOk(s.calls, s.recs, s.nextSeq, d);
    if s.calls[d].phase == InFlight {
      CountsSelf(s.calls, d, tag, q);
      assert false;
    }
    forall t | t in s.recs && Rid(t) == (tag, q) ensures t.row.done {
      var k :| 0 <= k < |s.recs| && s.recs[k] == t;
    }
  }
}
