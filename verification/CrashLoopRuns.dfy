/** The count of a record's crashes through the queue's own steps and through the process's
    death, and what it comes to over any sequence of runs. */
module CrashLoopRuns {
  import opened Sequences
  import opened Journal
  import opened RecordTable
  import opened Disk
  import opened GroupCommit
  import opened GroupCommitInv
  import opened CommitMarkers
  import opened CommitWrites
  import opened CommitAnswers
  import opened CommitCompact
  import opened CommitCrash
  import opened CommitTheorems
  import opened CrashLoop
  import opened CrashLoopInv

  // ---- a retraction answered ----

  /** The record a durable retraction leaves: closed. */
  function Retired(t: Live): Live {
    var t1 := t.(retracting := if t.retracting > 0 then t.retracting - 1 else 0, deferred := NoVerdict);
    if t.row.done then t1 else t1.(row := t.row.(done := true, inflight := false))
  }

  lemma Withdrawn(q: State, c: nat, i: nat)
    requires HasFile(q) && c < |q.calls| && MadeDurable(q.calls[c]) && i == Find(Rows(q.recs), q.calls[c].first) < |q.recs|
    requires !q.recs[i].row.quarantined
    ensures var q' := DoAnswerCancel(q, c, MarkOk);
            && q'.recs == q.recs[i := Retired(q.recs[i])] && q'.cur == q.cur && q'.open == q.open && q'.broken == q.broken
            && q'.calls == q.calls[c := q.calls[c].(phase := ToldOk)]
  {
    hide Find, ApplyVerdict, MadeDurable;
    var t := q.recs[i].(retracting := if q.recs[i].retracting > 0 then q.recs[i].retracting - 1 else 0);
    var t1 := t.(deferred := NoVerdict);
    UpdateTwice(q.recs, i, t, t1);
    UpdateTwice(q.recs, i, t1, Retired(q.recs[i]));
  }

  lemma AnsweredNoneFailed(calls: seq<Call>, c: nat)
    requires NoneFailed(calls) && c < |calls|
    ensures NoneFailed(calls[c := calls[c].(phase := ToldOk)])
  {
  }

  lemma WithdrawnMirror(recs: seq<Live>, i: nat, t': Live, h: seq<Event>)
    requires i < |recs| && Rid(t') == Rid(recs[i]) && t'.row.done && recs[i].retracting > 0
    requires forall k :: 0 <= k < |recs| && k != i ==> Rid(recs[k]) != Rid(recs[i])
    ensures forall r :: MirrorRow(r, Rid(recs[i]), recs, h) ==> MirrorRow(r, Rid(recs[i]), recs[i := t'], h)
  {
    hide Condemned;
  }

  lemma WithdrawSound(g: Guard, m: Move)
    requires GuardInv(g) && m.Withdraw? && MainEnabled(g, m)
    ensures GuardInv(Main(g, m)) && (Over(g, m) != 0 && g.trial == Over(g, m) ==> NoneOut(Main(g, m)))
  {
    hide Inv, Mirror, Counted, Trials, Heard, SameElsewhere, MirrorRow, DoAnswerCancel, Find;
    var q, c, g' := g.q, m.c, Main(g, m);
    var i := Find(Rows(q.recs), q.calls[c].first);
    SoundIs(g);
    SoundIs(g');
    InvHasFile(q);
    AnswerCancelInv(q, c, MarkOk);
    InvHasFile(g'.q);
    AnsweredNoneFailed(q.calls, c);
    if i == |q.recs| {
      WithdrawnGone(q, c);
    } else {
      FoundRec(q, c, i);
      RecAt(q, i);
      FoundState(q.recs[i], q.calls, q.nextSeq, q.tainted);
      UniqueIds(q, i);
      Withdrawn(q, c, i);
      var t' := Retired(q.recs[i]);
      SameAtAll(Rid(q.recs[i]), g.history);
      WithdrawnMirror(q.recs, i, t', g.history);
      SilentSound(q, i, t', g'.q, g.exec, g.exec, g.trial, g.history, g.history);
      if Over(g, m) != 0 && g.trial == Over(g, m) { TurnDone(g', i); }
    }
  }

  lemma WithdrawnGone(q: State, c: nat)
    requires HasFile(q) && c < |q.calls| && Find(Rows(q.recs), q.calls[c].first) == |q.recs|
    ensures DoAnswerCancel(q, c, MarkOk) == q.(calls := q.calls[c := q.calls[c].(phase := ToldOk)])
    ensures !Closes(q, c)
  {
  }

  // ---- the queue's own steps ----

  /** Nothing of a record that the count depends on has changed. */
  ghost predicate SameMarks(recs: seq<Live>, recs': seq<Live>) {
    |recs'| == |recs| && forall k :: 0 <= k < |recs| ==>
      recs'[k].row == recs[k].row && recs'[k].tag == recs[k].tag && recs'[k].retracting == recs[k].retracting && recs'[k].handed == recs[k].handed
  }

  lemma SameSound(q: State, q': State, exec: set<Id>, trial: nat, h: seq<Event>)
    requires Sound(q, exec, trial, h) && Inv(q') && HasFile(q') && SameMarks(q.recs, q'.recs) && Cur(q'.cur) == Cur(q.cur)
    requires q'.open && !q'.broken && |q'.calls| == |q.calls| && NoneFailed(q'.calls)
    ensures Sound(q', exec, trial, h)
  {
    hide Inv, Heard, NoneFailed, Condemned;
    var recs, recs' := q.recs, q'.recs;
    forall r, id | MirrorRow(r, id, recs, h) ensures MirrorRow(r, id, recs', h) {
      if !r.done && !r.quarantined {
        var j :| 0 <= j < |recs| && Twin(recs[j], r, id);
        assert Twin(recs'[j], r, id);
      }
    }
    forall k | 0 <= k < |recs'| ensures CountedOne(recs'[k], h) && OnTrial(recs'[k], exec, trial) {
      assert CountedOne(recs[k], h) && OnTrial(recs[k], exec, trial);
    }
  }

  lemma SyncSound(g: Guard, step: Step)
    requires GuardInv(g) && (step.SyncBegin? || step.SyncOk?) && Enabled(g.q, step)
    ensures GuardInv(g.(q := Do(g.q, step)))
  {
    hide Inv, Mirror, Counted, Trials, Heard, Sound, SameMarks, Settle, Image, StableFrom;
    var q, q' := g.q, Do(g.q, step);
    SoundIs(g);
    SoundIs(g.(q := q'));
    StepInv(q, step);
    InvHasFile(q');
    UnchangedMarks(q.recs);
    SettledNoneFailed(q.calls, if step.SyncOk? then q.sync.upto else 0);
    SameSound(q, q', g.exec, g.trial, g.history);
  }

  lemma UnchangedMarks(recs: seq<Live>)
    ensures SameMarks(recs, recs)
  {
  }

  lemma SettledNoneFailed(calls: seq<Call>, upto: nat)
    requires NoneFailed(calls)
    ensures NoneFailed(Settle(calls, upto, Durable)) && |Settle(calls, upto, Durable)| == |calls|
  {
  }

  lemma AnswerSubmitSound(g: Guard, c: nat)
    requires GuardInv(g) && Enabled(g.q, AnswerSubmit(c))
    ensures GuardInv(g.(q := DoAnswerSubmit(g.q, c)))
  {
    hide Inv, Mirror, Counted, Trials, Heard, Sound, Image, EndCommit, CountCommitting;
    var q, q' := g.q, DoAnswerSubmit(g.q, c);
    SoundIs(g);
    SoundIs(g.(q := q'));
    AnswerSubmitInv(q, c);
    EndedMarks(q.recs, c + 1);
    SameSound(q, q', g.exec, g.trial, g.history);
  }

  lemma EndedMarks(recs: seq<Live>, tag: nat)
    ensures SameMarks(recs, EndCommit(recs, tag, true))
  {
  }

  lemma DrainSound(g: Guard, i: nat)
    requires GuardInv(g) && Enabled(g.q, Drain(i))
    ensures GuardInv(g.(q := DoDrain(g.q, i)))
  {
    hide Inv, Mirror, Counted, Trials, Heard, NoneFailed, SameElsewhere, Image;
    var q, q' := g.q, DoDrain(g.q, i);
    var t' := q'.recs[i];
    SoundIs(g);
    SoundIs(g.(q := q'));
    DrainInv(q, i);
    UniqueIds(q, i);
    SameAtAll(Rid(q.recs[i]), g.history);
    DrainedMirror(q.recs, i, t', g.history);
    SilentSound(q, i, t', q', g.exec, g.exec, g.trial, g.history, g.history);
  }

  lemma DrainedMirror(recs: seq<Live>, i: nat, t': Live, h: seq<Event>)
    requires i < |recs| && Rid(t') == Rid(recs[i]) && t'.row.done && recs[i].row.quarantined
    requires forall k :: 0 <= k < |recs| && k != i ==> Rid(recs[k]) != Rid(recs[i])
    ensures forall r :: MirrorRow(r, Rid(recs[i]), recs, h) ==> MirrorRow(r, Rid(recs[i]), recs[i := t'], h)
  {
    hide Condemned;
  }

  lemma RefuseSound(g: Guard, i: nat)
    requires GuardInv(g) && Enabled(g.q, Refuse(i, MarkOk))
    ensures GuardInv(g.(q := DoRefuse(g.q, i, MarkOk)))
  {
    hide Inv, Mirror, Counted, Trials, Heard, NoneFailed, SameElsewhere, Image, WriteMarker, MirrorRow;
    var q, q' := g.q, DoRefuse(g.q, i, MarkOk);
    var t' := CloseRec(q, i).recs[i];
    SoundIs(g);
    SoundIs(g.(q := q'));
    RefuseInv(q, i, MarkOk);
    AppendedMarker(CloseRec(q, i), D, q.recs[i].row.seqno);
    SameAtAll(Rid(q.recs[i]), g.history);
    ClosedMirror(q.recs, i, t', g.history, g.history);
    MarkerSound(q, i, t', D, 0, q', g.exec, g.exec, g.trial, g.history, g.history);
  }

  lemma HeardLonger(h: seq<Event>, n: nat)
    requires Heard(h, n)
    ensures Heard(h, n + 1)
  {
  }

  lemma CancelSound(g: Guard, i: nat)
    requires GuardInv(g) && Enabled(g.q, CancelStep(i, WriteOk))
    ensures GuardInv(g.(q := DoCancel(g.q, i, WriteOk)))
  {
    hide Inv, Mirror, Counted, Trials, Heard, SameElsewhere, Image, MirrorRow;
    var q, q' := g.q, DoCancel(g.q, i, WriteOk);
    var t' := q.recs[i].(retracting := q.recs[i].retracting + 1);
    SoundIs(g);
    SoundIs(g.(q := q'));
    CancelInv(q, i, WriteOk);
    HeardLonger(g.history, |q.calls|);
    SameAtAll(Rid(q.recs[i]), g.history);
    TrialsAtOne(q.recs, i, g.exec, g.trial);
    ClosedMirror(q.recs, i, t', g.history, g.history);
    assert Cur(q'.cur) == Cur(q.cur) + [Entry(Marker(D, q.recs[i].row.seqno), |q.calls| + 1)];
    MarkerSound(q, i, t', D, |q.calls| + 1, q', g.exec, g.exec, g.trial, g.history, g.history);
  }

  // ---- a submit ----

  lemma SubmitMirror(es: Log, recs: seq<Live>, ts: seq<Live>, h: seq<Event>)
    requires Mirror(es, recs, h)
    requires forall k :: 0 <= k < |ts| ==> !ts[k].row.done && !ts[k].row.quarantined && !ts[k].row.inflight && ts[k].row.crashes == 0 && ts[k].retracting == 0
    requires forall k, j :: 0 <= k < |ts| && 0 <= j < |recs| ==> recs[j].tag != ts[k].tag
    requires forall k, e :: 0 <= k < |ts| && e in es ==> e.tag != ts[k].tag
    ensures Mirror(es + PEntries(ts), recs + ts, h)
  {
    hide Condemned, RowOf;
    var ps, recs' := PEntries(ts), recs + ts;
    var es' := es + ps;
    forall k | 0 <= k < |es'| && es'[k].rec.typ == P ensures MirrorRow(RowOf(Recs(es'), k), (es'[k].tag, es'[k].rec.seqno), recs', h) {
      RowAppendPs(es, ps, k);
      var r, id := RowOf(Recs(es'), k), (es'[k].tag, es'[k].rec.seqno);
      if k < |es| {
        assert es[k] in es;
        assert MirrorRow(r, id, recs, h);
        MoreRecs(r, id, recs, ts, h);
      } else {
        assert Twin(recs'[|recs| + (k - |es|)], r, id);
      }
    }
  }

  lemma MoreRecs(r: Row, id: Id, recs: seq<Live>, ts: seq<Live>, h: seq<Event>)
    requires MirrorRow(r, id, recs, h) && forall k :: 0 <= k < |ts| ==> ts[k].tag != id.0
    ensures MirrorRow(r, id, recs + ts, h)
  {
    hide Condemned;
    if !r.done && !r.quarantined {
      var j :| 0 <= j < |recs| && Twin(recs[j], r, id);
      assert Twin((recs + ts)[j], r, id);
    }
  }

  lemma SubmitCounted(recs: seq<Live>, ts: seq<Live>, h: seq<Event>, n: nat)
    requires Counted(recs, h) && Heard(h, n)
    requires forall k :: 0 <= k < |ts| ==> !ts[k].row.quarantined && !ts[k].row.inflight && ts[k].row.crashes == 0 && ts[k].tag == n + 1
    ensures Counted(recs + ts, h)
  {
    hide Heard, IsRunning, Deaths, Condemned;
    var recs' := recs + ts;
    forall k | 0 <= k < |recs'| ensures CountedOne(recs'[k], h) {
      if k < |recs| { assert CountedOne(recs[k], h); } else { Unheard(h, n, Rid(recs'[k])); }
    }
  }

  lemma SubmitTrials(recs: seq<Live>, ts: seq<Live>, exec: set<Id>, trial: nat, n: nat)
    requires Trials(recs, exec, trial) && (forall id :: id in exec ==> id.0 <= n) && forall k :: 0 <= k < |ts| ==> ts[k].tag == n + 1
    ensures Trials(recs + ts, exec, trial)
  {
    var recs' := recs + ts;
    forall k | 0 <= k < |recs'| ensures OnTrial(recs'[k], exec, trial) {
      if k < |recs| { assert OnTrial(recs[k], exec, trial); } else { assert Rid(recs'[k]).0 == n + 1; }
    }
  }

  lemma TagsKnown(q: State)
    requires Inv(q) && HasFile(q)
    ensures forall e :: e in Cur(q.cur) ==> e.tag <= |q.calls|
    ensures forall j :: 0 <= j < |q.recs| ==> q.recs[j].tag <= |q.calls|
  {
    hide FilesOk, WaitOk, CallsOk, AckOk, SyncShape, FileKeeps, FileRetracts, FilePairs, CountOpen, TagFits, Out;
    FloorOk(q);
    forall e | e in Cur(q.cur) ensures e.tag <= |q.calls| {
      assert e in q.cur.hist[|q.cur.hist| - 1];
      assert May(q.cur, e);
      assert Legit(e, q.calls, q.recs, q.nextSeq, q.broken || q.tainted);
    }
    forall j | 0 <= j < |q.recs| ensures q.recs[j].tag <= |q.calls| { assert RecOk(q.recs[j], q.calls, q.nextSeq, q.tainted); }
  }

  lemma SubmitSound(g: Guard, items: seq<Item>)
    requires GuardInv(g) && Enabled(g.q, SubmitStep(items, WriteOk))
    ensures GuardInv(g.(q := DoSubmit(g.q, items, WriteOk)))
  {
    hide Inv, Mirror, Counted, Trials, Heard, Image;
    var q, q' := g.q, DoSubmit(g.q, items, WriteOk);
    var ts := NewLives(items, q.nextSeq, |q.calls| + 1);
    SubmitInv(q, items, WriteOk);
    HeardLonger(g.history, |q.calls|);
    TagsKnown(q);
    assert Cur(q'.cur) == Cur(q.cur) + PEntries(ts);
    SubmitMirror(Cur(q.cur), q.recs, ts, g.history);
    SubmitCounted(q.recs, ts, g.history, |q.calls|);
    SubmitTrials(q.recs, ts, g.exec, g.trial, |q.calls|);
  }

  // ---- a compaction ----

  /** The row a 'P' of the new journal has there is the record's own. */
  lemma RewrittenRow(ts: seq<Live>, k: nat) returns (t: Live)
    requires Rising(ts) && (forall t :: t in ts ==> Storable(t.row)) && k < |RewriteAll(ts)| && RewriteAll(ts)[k].rec.typ == P
    ensures t in ts && RewriteAll(ts)[k] == PEntry(t) && RowOf(Recs(RewriteAll(ts)), k) == t.row
  {
    hide Meaning, RewriteAll, Rewrite, Storable, RowOf, Rising, Ordered;
    var es := RewriteAll(ts);
    var e := es[k];
    RewriteAllAre(ts, e);
    t :| t in ts && e.rec.seqno == t.row.seqno && (e == PEntry(t) || (e.tag == 0 && e.rec.typ != P && e.rec.typ != D));
    RewriteAllOrdered(ts);
    OrderedWrites(es);
    MeaningHas(Recs(es), k);
    RisingRows(ts);
    KeptStorable(ts);
    RewriteAllRecs(ts);
    RewriteMeans(Rows(ts));
    var j :| 0 <= j < |ts| && ts[j] == t;
    AscendingFind(Rows(ts), j);
  }

  lemma RewrittenMirror(recs: seq<Live>, t: Live, h: seq<Event>)
    requires Rising(recs) && t in recs && !t.row.done && t.retracting == 0 && CountedOne(t, h)
    ensures MirrorRow(t.row, Rid(t), NotDone(recs), h)
  {
    hide Condemned, IsRunning, Deaths, NotDone;
    NotDoneHas(recs);
    var recs' := NotDone(recs);
    var i :| 0 <= i < |recs'| && recs'[i] == t;
    if t.row.quarantined {
      forall j | 0 <= j < |recs'| && Rid(recs'[j]) == Rid(t) ensures recs'[j].row.quarantined { SameRec(recs, t, recs'[j]); }
    } else {
      assert Twin(recs'[i], t.row, Rid(t));
    }
  }

  lemma SameRec(recs: seq<Live>, t: Live, u: Live)
    requires Rising(recs) && t in recs && u in recs && Rid(t) == Rid(u)
    ensures t == u
  {
  }

  lemma NewMirror(calls: seq<Call>, recs: seq<Live>, nextSeq: nat, tainted: bool, h: seq<Event>)
    requires WellFormed(calls, recs, nextSeq, tainted) && Counted(recs, h)
    requires forall t :: t in recs && Kept(calls, t) ==> t.retracting == 0
    ensures Mirror(RewriteAll(KeptOf(calls, recs)), NotDone(recs), h)
  {
    hide KeptOf, RewriteAll, RowOf, MirrorRow, NotDone, CountedOne, Kept, Rising, RecOk;
    var kept := KeptOf(calls, recs);
    var es := RewriteAll(kept);
    KeptFits(calls, recs, nextSeq, tainted);
    KeptOfHas(calls, recs);
    forall k | 0 <= k < |es| && es[k].rec.typ == P ensures MirrorRow(RowOf(Recs(es), k), (es[k].tag, es[k].rec.seqno), NotDone(recs), h) {
      var t := RewrittenRow(kept, k);
      KeptOpen(calls, t);
      var j :| 0 <= j < |recs| && recs[j] == t;
      RewrittenMirror(recs, t, h);
    }
  }

  lemma DroppedCounted(recs: seq<Live>, exec: set<Id>, trial: nat, h: seq<Event>)
    requires Counted(recs, h) && Trials(recs, exec, trial)
    ensures Counted(NotDone(recs), h) && Trials(NotDone(recs), exec, trial)
  {
    hide CountedOne, OnTrial;
    NotDoneHas(recs);
    var recs' := NotDone(recs);
    forall k | 0 <= k < |recs'| ensures CountedOne(recs'[k], h) && OnTrial(recs'[k], exec, trial) {
      var j :| 0 <= j < |recs| && recs[j] == recs'[k];
    }
  }

  /** With nothing waiting and nothing failed, no record kept is being retracted. */
  lemma KeptNotRetracting(q: State)
    requires Inv(q) && NoneFailed(q.calls) && !AnyWaiting(q.calls)
    ensures forall t :: t in q.recs && Kept(q.calls, t) ==> t.retracting == 0
  {
    hide Inv, Kept;
    forall t | t in q.recs && Kept(q.calls, t) ensures t.retracting == 0 {
      var i :| 0 <= i < |q.recs| && q.recs[i] == t;
      RecAt(q, i);
      if t.retracting > 0 {
        var c := InFlightRetraction(q.calls, t.tag, t.row.seqno);
        NotKept(q.calls, t, c);
        assert false;
      }
    }
  }

  lemma NotKept(calls: seq<Call>, t: Live, c: nat)
    requires c < |calls| && calls[c].phase == InFlight && Retracts(calls[c], t.tag, t.row.seqno) && MadeDurable(calls[c])
    ensures !Kept(calls, t)
  {
  }

  lemma {:induction false} InFlightRetraction(calls: seq<Call>, tag: nat, q: nat) returns (c: nat)
    requires CountRetracting(calls, tag, q) > 0
    ensures c < |calls| && calls[c].phase == InFlight && Retracts(calls[c], tag, q)
    decreases |calls|
  {
    var n := |calls| - 1;
    if Retracts(calls[n], tag, q) && calls[n].phase == InFlight {
      c := n;
    } else {
      c := InFlightRetraction(calls[..n], tag, q);
    }
  }

  lemma CompactSound(g: Guard, renamed: bool, dirSynced: bool)
    requires GuardInv(g) && Enabled(g.q, Compact(renamed, dirSynced, true))
    ensures GuardInv(g.(q := DoCompact(g.q, renamed, dirSynced, true)))
  {
    hide Inv, Mirror, Counted, Trials, Heard, NoneFailed, Image, KeptOf, RewriteAll, NotDone, WellFormed, Kept;
    var q, q' := g.q, DoCompact(g.q, renamed, dirSynced, true);
    CompactInv(q, renamed, dirSynced, true);
    if renamed {
      TableOf(q);
      KeptNotRetracting(q);
      NewMirror(q.calls, q.recs, q.nextSeq, q.tainted, g.history);
      DroppedCounted(q.recs, g.exec, g.trial, g.history);
    }
  }

  lemma TableOf(q: State)
    requires Inv(q)
    ensures WellFormed(q.calls, q.recs, q.nextSeq, q.tainted)
  {
    hide FilesOk, WaitOk, CallsOk, AckOk, SyncShape, CrashOk, RecsOk, WellFormed;
    RecsWellFormed(q);
  }

  lemma QuietSound(g: Guard, m: Move)
    requires GuardInv(g) && m.Quiet? && MainEnabled(g, m)
    ensures GuardInv(Main(g, m))
  {
    hide Inv, Mirror, Counted, Trials, Heard, NoneFailed, Image, DoSubmit, DoCancel, DoSyncBegin, DoSyncOk, DoAnswerSubmit, DoRefuse, DoDrain, DoCompact, GuardInv;
    match m.step
    case SubmitStep(items, fate) => SubmitSound(g, items);
    case CancelStep(i, fate) => CancelSound(g, i);
    case SyncBegin => SyncSound(g, m.step);
    case SyncOk(v) => SyncSound(g, m.step);
    case AnswerSubmit(c) => AnswerSubmitSound(g, c);
    case Refuse(i, mark) => RefuseSound(g, i);
    case Drain(i) => DrainSound(g, i);
    case Compact(renamed, dirSynced, reopened) => CompactSound(g, renamed, dirSynced);
  }

  // ---- the process dies, and the next run opens the journal ----

  /** What opening does to a row is what the death did to its record. */
  lemma OpenedCounted(r: Row, id: Id, recs: seq<Live>, h: seq<Event>, t: Live)
    requires MirrorRow(r, id, recs, h) && Counted(recs, h) && Rid(t) == id && t.row == OpenRow(r) && t.retracting == 0
    ensures CountedOne(t, h + [Died])
  {
    hide IsRunning, Deaths;
    Next(h, Died, id);
    if !r.done && !r.quarantined {
      var j :| 0 <= j < |recs| && Twin(recs[j], r, id);
      assert CountedOne(recs[j], h);
    }
  }

  lemma LoadedCounted(es: Log, recs: seq<Live>, h: seq<Event>)
    requires Ordered(es) && Mirror(es, recs, h) && Counted(recs, h)
    ensures Counted(Load(es), h + [Died])
  {
    hide Meaning, OpenRow, Ordered, RowOf, MirrorRow, CountedOne, Counted, TagOf;
    var rs := Recs(es);
    var rows := Meaning(rs).rows;
    OrderedWrites(es);
    MeaningOk(rs);
    forall i | 0 <= i < |Load(es)| ensures CountedOne(Load(es)[i], h + [Died]) {
      MeaningOnly(rs, i);
      var k :| 0 <= k < |rs| && rs[k].typ == P && rs[k].seqno == rows[i].seqno;
      MeaningHas(rs, k);
      AscendingFind(rows, i);
      TagOfIs(es, k);
      OpenRowKeeps(rows[i]);
      OpenedCounted(rows[i], (es[k].tag, es[k].rec.seqno), recs, h, Load(es)[i]);
    }
    CountedAll(Load(es), h + [Died]);
  }

  lemma CountedAll(recs: seq<Live>, h: seq<Event>)
    requires forall i :: 0 <= i < |recs| ==> CountedOne(recs[i], h)
    ensures Counted(recs, h)
  {
  }

  lemma DieSound(g: Guard, m: Move)
    requires GuardInv(g) && m.Die? && MainEnabled(g, m)
    ensures GuardInv(Main(g, m))
  {
    hide Inv, Mirror, Counted, Heard, Image, Load, KeptOf, RewriteAll, NotDone, WellFormed, Kept, Meaning, CountOpen, Ordered, CountedOne, Shaped, FileOk;
    var q, es := g.q, Cur(g.q.cur);
    var q1 := AfterReplay(q, es);
    var h' := g.history + [Died];
    InvHasFile(q);
    CurImage(q);
    CrashInv(q, |q.older|, es, m.dirSynced, true);
    FileHolds(q, |q.older|);
    LoadedInv(q, q.cur, es);
    LoadedCounted(es, q.recs, g.history);
    TableOf(q1);
    NewMirror(q1.calls, q1.recs, q1.nextSeq, q1.tainted, h');
    NobodyOut(Load(es));
    DroppedCounted(Load(es), {}, 0, h');
    DiedHeard(g.history, |q.calls|);
  }

  lemma CurImage(q: State)
    requires Inv(q) && HasFile(q)
    ensures Image(q.cur, Cur(q.cur))
  {
    hide Inv;
    FloorOk(q);
    assert Caught(q.cur, |q.cur.hist| - 1, Cur(q.cur));
  }

  lemma NobodyOut(recs: seq<Live>)
    ensures Trials(recs, {}, 0)
  {
  }

  lemma DiedHeard(h: seq<Event>, n: nat)
    requires Heard(h, n)
    ensures Heard(h + [Died], n)
  {
  }

  // ---- every run ----

  lemma MainSound(g: Guard, m: Move)
    requires GuardInv(g) && MainEnabled(g, m)
    ensures GuardInv(Main(g, m))
    ensures Main(g, m).trial == Over(g, m) && (Over(g, m) != 0 || m.Recover?) ==> NoneOut(Main(g, m))
  {
    hide GuardInv, MainEnabled, Main, Over, NoneOut;
    match m
    case Quiet(step) => QuietSound(g, m); NoOver(g, m);
    case Give(i) => GiveSound(g, m); NoOver(g, m);
    case Recover(next) => NoOver(g, m); MainRecover(g, m); NoTrialNoneOut(g);
    case Begin(i) => BeginSound(g, i); NoOver(g, m);
    case Fail(i, own, retried, next) => FailSound(g, m); SameTrial(g, m);
    case LetGo(i, next) => LetGoSound(g, m); SameTrial(g, m);
    case Judge(i, v, next) => JudgeSound(g, m); SameTrial(g, m);
    case Withdraw(c, next) => WithdrawSound(g, m); SameTrial(g, m);
    case Forget(id) => ForgetSound(g, m); NoOver(g, m);
    case Die(dirSynced) => DieSound(g, m); NoOver(g, m);
  }

  lemma NoOver(g: Guard, m: Move)
    requires MainEnabled(g, m) && !m.Fail? && !m.LetGo? && !m.Judge? && !m.Withdraw?
    ensures Over(g, m) == 0
  {
    hide MainEnabled;
  }

  lemma MainRecover(g: Guard, m: Move)
    requires MainEnabled(g, m) && m.Recover?
    ensures Main(g, m) == g && g.trial == 0
  {
  }

  lemma SameTrial(g: Guard, m: Move)
    requires MainEnabled(g, m) && !m.Die?
    ensures Main(g, m).trial == g.trial
  {
    hide DoAttemptEnded, DoVerdict, DoAnswerCancel, Image, Do;
  }

  /** Every move keeps the invariant. */
  lemma MoveInv(g: Guard, m: Move)
    requires GuardInv(g) && MoveEnabled(g, m)
    ensures GuardInv(Act(g, m))
  {
    hide GuardInv, MainEnabled, Main, Over, NoneOut, TakeNext, CanTake;
    MainSound(g, m);
    var g1 := Main(g, m);
    if g1.trial == Over(g, m) {
      if Over(g, m) != 0 || m.Recover? {
        NobodyOnTrial(g1);
        TakeNextSound(g1.(trial := 0), NextOf(m));
      } else {
        TakeNobody(g1);
      }
    }
  }

  lemma TakeNobody(g: Guard)
    ensures CanTake(g, Nobody) && TakeNext(g, Nobody) == g
  {
  }

  lemma StartSound()
    ensures GuardInv(START)
  {
    hide Inv;
    InitialInv();
  }

  lemma {:induction false} LeadsInv(g: Guard, ms: seq<Move>, g': Guard)
    requires GuardInv(g) && Leads(g, ms, g')
    ensures GuardInv(g')
    decreases |ms|
  {
    hide GuardInv, MoveEnabled, Act;
    if |ms| > 0 {
      MoveInv(g, ms[0]);
      LeadsInv(Act(g, ms[0]), ms[1..], g');
    }
  }

  // ---- what the runs come to ----

  /** A record's crash count is always the number of deaths at which it was running since an
      attempt of it was last seen to end, across compactions and any number of opens. */
  lemma CountIsDeathsWhileRunning(ms: seq<Move>, g: Guard, i: nat)
    requires Leads(START, ms, g) && i < |g.q.recs| && IsOpen(g.q.recs[i]) && g.q.recs[i].retracting == 0
    ensures g.q.recs[i].row.crashes == Deaths(g.history, Rid(g.q.recs[i]))
    ensures g.q.recs[i].row.inflight <==> IsRunning(g.history, Rid(g.q.recs[i]))
  {
    hide Leads, Inv, Mirror, Trials, Heard, NoneFailed;
    StartSound();
    LeadsInv(START, ms, g);
    assert CountedOne(g.q.recs[i], g.history);
  }

  /** A record that is not closed is quarantined exactly if it was dead-lettered or was running
      at three deaths with no attempt seen to end in between: at the third, and not before. */
  lemma QuarantinedAtTheThird(ms: seq<Move>, g: Guard, i: nat)
    requires Leads(START, ms, g) && i < |g.q.recs| && !g.q.recs[i].row.done && g.q.recs[i].retracting == 0
    ensures g.q.recs[i].row.quarantined <==>
              Poisoned(Rid(g.q.recs[i])) in g.history || Deaths(g.history, Rid(g.q.recs[i])) == 3
    ensures !g.q.recs[i].row.quarantined ==> Deaths(g.history, Rid(g.q.recs[i])) < 3
  {
    hide Leads, Inv, Mirror, Trials, Heard, NoneFailed;
    StartSound();
    LeadsInv(START, ms, g);
    assert CountedOne(g.q.recs[i], g.history);
  }

  /** At most one record that is open and has two deaths against it is in the engine's hands at a
      time, and it is the one on trial. */
  lemma OneSuspectAtATime(ms: seq<Move>, g: Guard, i: nat, j: nat)
    requires Leads(START, ms, g) && i < |g.q.recs| && j < |g.q.recs|
    requires IsOpen(g.q.recs[i]) && g.q.recs[i].row.crashes >= 2 && Rid(g.q.recs[i]) in g.exec
    requires IsOpen(g.q.recs[j]) && g.q.recs[j].row.crashes >= 2 && Rid(g.q.recs[j]) in g.exec
    ensures i == j && g.q.recs[i].row.seqno == g.trial
  {
    hide Leads, Inv, Mirror, Counted, Heard, NoneFailed;
    StartSound();
    LeadsInv(START, ms, g);
    assert OnTrial(g.q.recs[i], g.exec, g.trial) && OnTrial(g.q.recs[j], g.exec, g.trial);
    Numbered(g.q, i);
  }

  // ---- trial_next ----

  /** Offers the suspects that wait to the engine, oldest first, until it takes one: the one
      handed over is the first it takes, and if none is, it refused them all. */
  method TrialNext(recs: seq<Live>, takes: nat -> bool) returns (next: Turn)
    ensures next.Turn? ==> next.i < |recs| && Candidate(recs[next.i]) && takes(next.i)
    ensures var n := if next.Turn? then next.i else |recs|;
            forall k :: 0 <= k < n && Candidate(recs[k]) ==> !takes(k)
  {
    for i := 0 to |recs|
      invariant forall k :: 0 <= k < i && Candidate(recs[k]) ==> !takes(k)
    {
      if Candidate(recs[i]) && takes(i) { return Turn(i); }
    }
    return Nobody;
  }
}
