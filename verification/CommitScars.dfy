/** Stuck writes and the durable queue: runs without one, in which no file ever has a scrap, and a
    run with one, in which an acknowledged record is lost. */
module CommitScars {
  import opened LittleEndian
  import opened Journal
  import opened RecordTable
  import opened Replay
  import opened Scars
  import opened Disk
  import opened GroupCommit
  import opened CommitTheorems

  // ---- runs in which no write is stuck ----

  predicate Stuck(step: Step) {
    match step
    case SubmitStep(items, fate) => fate.WriteStuck?
    case CancelStep(i, fate) => fate.WriteStuck?
    case Refuse(i, mark) => mark.MarkStuck?
    case AnswerCancel(c, mark) => mark.MarkStuck?
    case Started(i, mark) => mark.MarkStuck?
    case AttemptEnded(i, mark) => mark.MarkStuck?
    case VerdictStep(i, verdict, mark) => mark.MarkStuck?
    case _ => false
  }

  predicate WholeLog(es: Log) {
    forall k :: 0 <= k < |es| ==> es[k].rec.typ != SCRAP
  }

  /** No content the file has had has a scrap in it. */
  predicate Clean(f: File) {
    forall j :: 0 <= j < |f.hist| ==> WholeLog(f.hist[j])
  }

  predicate AllClean(s: State) {
    Clean(s.cur) && forall i :: 0 <= i < |s.older| ==> Clean(s.older[i])
  }

  lemma CleanUnscarred(f: File)
    requires Clean(f)
    ensures Unscarred(f)
  {
  }

  lemma CleanExtend(f: File, es: Log, cut: bool)
    requires |f.hist| > 0 && Clean(f) && WholeLog(es)
    ensures Clean(Extend(f, es, cut))
  {
    assert WholeLog(f.hist[|f.hist| - 1]);
  }

  lemma CleanCut(f: File)
    requires |f.hist| > 0 && f.safe <= |Cur(f)| && Clean(f)
    ensures Clean(Cut(f)) && Clean(CutDurably(f))
  {
    assert WholeLog(f.hist[|f.hist| - 1]);
  }

  lemma CleanWrite(s: State, es: Log, call: Call, fate: WriteFate)
    requires HasFile(s) && AllClean(s) && WholeLog(es) && !fate.WriteStuck?
    ensures AllClean(WriteDurable(s, es, call, fate))
  {
    hide Extend, Clean;
    CleanExtend(s.cur, es, fate == WriteCut);
  }

  lemma CleanMarker(s: State, typ: Byte, seqno: nat, mark: MarkFate)
    requires HasFile(s) && AllClean(s) && typ != SCRAP && !mark.MarkStuck?
    ensures AllClean(WriteMarker(s, typ, seqno, mark)) && HasFile(WriteMarker(s, typ, seqno, mark))
  {
    hide Clean;
    CleanExtend(s.cur, [Entry(Marker(typ, seqno), 0)], mark == MarkCut);
  }

  lemma CleanVerdict(s: State, i: nat, v: Verdict, mark: MarkFate)
    requires HasFile(s) && AllClean(s) && i < |s.recs| && !mark.MarkStuck?
    ensures AllClean(ApplyVerdict(s, i, v, mark))
  {
    hide Clean, WriteMarker;
    var t := s.recs[i];
    var s1 := s.(recs := s.recs[i := t.(row := t.row.(quarantined := true, inflight := false), deferred := NoVerdict)],
                 pending := if s.pending > 0 then s.pending - 1 else 0);
    CleanMarker(s1, Q, t.row.seqno, mark);
    CleanMarker(CloseRec(s.(recs := s.recs[i := t.(deferred := NoVerdict)]), i), D, t.row.seqno, mark);
  }

  lemma CleanNew(ts: seq<Live>)
    ensures Clean(Whole(RewriteAll(ts)))
  {
    hide RewriteAll;
    forall k | 0 <= k < |RewriteAll(ts)| ensures RewriteAll(ts)[k].rec.typ != SCRAP { RewriteAllTypes(ts, RewriteAll(ts)[k]); }
  }

  lemma CleanReplace(s: State, ts: seq<Live>, dirSynced: bool, reopened: bool)
    requires dirSynced || AllClean(s)
    ensures AllClean(Replace(s, RewriteAll(ts), dirSynced, reopened))
  {
    hide RewriteAll, Clean, NotDone;
    CleanNew(ts);
  }

  lemma CleanAnswer(s: State, c: nat, mark: MarkFate)
    requires HasFile(s) && c < |s.calls| && AllClean(s) && !mark.MarkStuck?
    ensures AllClean(DoAnswerCancel(s, c, mark))
  {
    hide Clean, Find, ApplyVerdict, MadeDurable;
    var call := s.calls[c];
    var i := Find(Rows(s.recs), call.first);
    if i < |s.recs| {
      var t := s.recs[i].(retracting := if s.recs[i].retracting > 0 then s.recs[i].retracting - 1 else 0);
      var s2 := s.(recs := s.recs[i := t], calls := s.calls[c := call.(phase := ToldIo)]);
      CleanVerdict(s2, i, t.deferred, mark);
    }
  }

  /** A step in which no write is stuck leaves no scrap. */
  lemma StepClean(s: State, step: Step)
    requires AllClean(s) && Enabled(s, step) && !Stuck(step)
    ensures AllClean(Do(s, step))
  {
    hide Clean, WriteDurable, WriteMarker, ApplyVerdict, DoAnswerCancel, Replace, KeptOf, RewriteAll, EndCommit, Image, CountOpen, Load, LoseAll;
    match step
    case SubmitStep(items, fate) => CleanSubmit(s, items, fate);
    case CancelStep(i, fate) => CleanCancel(s, i, fate);
    case SyncBegin =>
    case SyncOk(v) => CleanRaise(s.cur, v, s.sync.end);
    case SyncFail(cut) => CleanCut(s.cur);
    case AnswerSubmit(c) =>
    case Hand(i) =>
    case Refuse(i, mark) => CleanMarker(CloseRec(s, i), D, s.recs[i].row.seqno, mark);
    case AnswerCancel(c, mark) => CleanAnswer(s, c, mark);
    case Started(i, mark) =>
      CleanMarker(s.(recs := s.recs[i := s.recs[i].(row := s.recs[i].row.(inflight := true))]), S, s.recs[i].row.seqno, mark);
    case AttemptEnded(i, mark) =>
      CleanMarker(s.(recs := s.recs[i := s.recs[i].(row := s.recs[i].row.(inflight := false, crashes := 0))]), F, s.recs[i].row.seqno, mark);
    case VerdictStep(i, verdict, mark) => CleanVerdict(s, i, verdict, mark);
    case Drain(i) =>
    case Compact(renamed, dirSynced, reopened) => CleanReplace(s, KeptOf(s.calls, s.recs), dirSynced, reopened);
    case Crash(file, es, dirSynced, reopened) => CleanCrash(s, es, dirSynced, reopened);
  }

  lemma CleanRaise(f: File, v: nat, end: nat)
    requires Clean(f)
    ensures Clean(Raise(f, v, end))
  {
  }

  lemma CleanSubmit(s: State, items: seq<Item>, fate: WriteFate)
    requires HasFile(s) && AllClean(s) && |items| > 0 && !fate.WriteStuck?
    ensures AllClean(DoSubmit(s, items, fate))
  {
    hide Clean, WriteDurable;
    var ts := NewLives(items, s.nextSeq, |s.calls| + 1);
    CleanWrite(s.(recs := s.recs + ts, nextSeq := s.nextSeq + |items|), PEntries(ts),
               NewCall(Submit, s.nextSeq, s.nextSeq + |items| - 1, 0, items), fate);
  }

  lemma CleanCancel(s: State, i: nat, fate: WriteFate)
    requires HasFile(s) && AllClean(s) && i < |s.recs| && !fate.WriteStuck?
    ensures AllClean(DoCancel(s, i, fate))
  {
    hide Clean, WriteDurable;
    var t := s.recs[i];
    CleanWrite(s.(recs := s.recs[i := t.(retracting := t.retracting + 1)]), [Entry(Marker(D, t.row.seqno), |s.calls| + 1)],
               NewCall(Cancel, t.row.seqno, t.row.seqno, t.tag, []), fate);
  }

  lemma CleanCrash(s: State, es: Log, dirSynced: bool, reopened: bool)
    requires AllClean(s)
    ensures AllClean(DoCrash(s, es, dirSynced, reopened))
  {
    hide Clean, Replace, KeptOf, RewriteAll, Load, LoseAll, CountOpen, Meaning;
    var calls, recs := LoseAll(s.calls), Load(es);
    var s1 := State(s.older, s.cur, true, false, false, |es|, Idle, calls, recs, Meaning(Recs(es)).nextSeq,
                    CountOpen(recs), s.closed, s.tainted || s.broken);
    CleanReplace(s1, KeptOf(calls, recs), dirSynced, reopened);
  }

  lemma {:induction false} RunClean(s: State, steps: seq<Step>, s': State)
    requires AllClean(s) && Reaches(s, steps, s') && forall k :: 0 <= k < |steps| ==> !Stuck(steps[k])
    ensures AllClean(s')
    decreases |steps|
  {
    hide AllClean, Enabled, Do, Stuck;
    if |steps| > 0 {
      StepClean(s, steps[0]);
      RunClean(Do(s, steps[0]), steps[1..], s');
    }
  }

  /** In every run in which no write has been stuck since the queue was new, or since a compaction
      returned GPTPS_OK, no file a crash can leave has a scrap in it: whatever bytes it leaves are
      legible, and nothing more need be asked of them. */
  lemma NothingStuck(s: State, steps: seq<Step>, s': State, k: nat, b: seq<Byte>)
    requires s == INITIAL || (exists s0 :: Enabled(s0, Compact(true, true, true)) && s == DoCompact(s0, true, true, true))
    requires Reaches(s, steps, s') && (forall k :: 0 <= k < |steps| ==> !Stuck(steps[k])) && k <= |s'.older|
    ensures Unscarred(FileAt(s', k)) && ClearImage(FileAt(s', k), b)
  {
    hide Reaches, Enabled, Clean, Unscarred, ClearImage, KeptOf, RewriteAll, NotDone;
    if s == INITIAL {
      StartsClean();
    } else {
      var s0 :| Enabled(s0, Compact(true, true, true)) && s == DoCompact(s0, true, true, true);
      CleanReplace(s0, KeptOf(s0.calls, s0.recs), true, true);
    }
    RunClean(s, steps, s');
    CleanUnscarred(FileAt(s', k));
    UnscarredClear(FileAt(s', k), b);
  }

  lemma StartsClean()
    ensures AllClean(INITIAL)
  {
  }

  // ---- a run in which one is ----

  const FIRST: Item := Item([], [])
  const SECOND: Item := Item([], HOLDER.payload)

  /** Record 1 is submitted, made durable and acknowledged, and handed to the engine; the marker of
      its first attempt is stuck after three bytes; and record 2 is written. */
  function LossSteps(): seq<Step> {
    [SubmitStep([FIRST], WriteOk), SyncBegin, SyncOk(1), AnswerSubmit(0), Hand(0), Started(0, MarkStuck(3)), SubmitStep([SECOND], WriteOk)]
  }

  const P1: Entry := Entry(ACKED, 1)
  const TORN: Entry := Entry(Scrap(Marker(S, 1), 3), 0)
  const P2: Entry := Entry(HOLDER, 2)

  function LossFile(): File {
    File([[], [P1], [P1, TORN], [P1, TORN, P2]], 1, 1)
  }

  function FirstCall(): Call {
    Call(Submit, 1, 1, 0, [FIRST], Written, Durable, ToldOk, 0, 0)
  }

  function AckedRec(inflight: bool): Live {
    Live(Row(1, [], [], false, false, inflight, 0), 1, true, false, 0, NoVerdict)
  }

  /** The queue once record 1 is acknowledged and handed over. */
  function Acknowledged(): State {
    State([], File([[], [P1]], 1, 1), true, false, false, 1, Idle, [FirstCall()], [AckedRec(false)], 2, 1, {}, false)
  }

  function SecondCall(): Call {
    Call(Submit, 2, 2, 0, [SECOND], Written, Waiting, InFlight, 2, 0)
  }

  function LossState(): State {
    State([], LossFile(), true, false, false, 3, Idle, [FirstCall(), SecondCall()],
          [AckedRec(true), Live(Row(2, [], HOLDER.payload, false, false, false, 0), 2, false, true, 0, NoVerdict)], 3, 1, {}, false)
  }

  lemma FirstSubmitted()
    ensures Enabled(INITIAL, SubmitStep([FIRST], WriteOk))
    ensures DoSubmit(INITIAL, [FIRST], WriteOk) ==
              State([], File([[], [P1]], 0, 0), true, false, false, 1, Idle, [FirstCall().(settled := Waiting, phase := InFlight)],
                    [AckedRec(false).(handed := false, committing := true)], 2, 0, {}, false)
  {
    var ts := NewLives([FIRST], 1, 1);
    assert ts == [AckedRec(false).(handed := false, committing := true)];
    assert PEntries(ts) == [P1];
    assert [] + [P1] == [P1];
  }

  lemma FirstAnswered(s: State)
    requires s == State([], File([[], [P1]], 0, 0), true, false, false, 1, Idle, [FirstCall().(settled := Waiting, phase := InFlight)],
                        [AckedRec(false).(handed := false, committing := true)], 2, 0, {}, false)
    ensures Reaches(s, [SyncBegin, SyncOk(1), AnswerSubmit(0), Hand(0)], Acknowledged())
  {
    assert WaitingNow(s.calls[0]);
    var s1 := DoSyncBegin(s);
    var s2 := DoSyncOk(s1, 1);
    assert s2.calls == [FirstCall().(phase := InFlight)];
    assert s2.cur == File([[], [P1]], 1, 1);
    var s3 := DoAnswerSubmit(s2, 0);
    assert s3.recs == [AckedRec(false).(handed := false)];
    assert CountCommitting(s2.recs, 1) == 1 by { assert s2.recs[..0] == []; }
    assert s3.calls == [FirstCall()];
    hide Enabled, DoSyncBegin, DoSyncOk, DoAnswerSubmit, DoHand;
    FourSteps(s, SyncBegin, SyncOk(1), AnswerSubmit(0), Hand(0));
  }

  lemma FourSteps(s: State, a: Step, b: Step, c: Step, d: Step)
    requires Enabled(s, a) && Enabled(Do(s, a), b) && Enabled(Do(Do(s, a), b), c) && Enabled(Do(Do(Do(s, a), b), c), d)
    ensures Reaches(s, [a, b, c, d], Do(Do(Do(Do(s, a), b), c), d))
  {
    hide Enabled, Do;
    assert [a, b, c, d][1..] == [b, c, d] && [b, c, d][1..] == [c, d] && [c, d][1..] == [d] && [d][1..] == [];
    var z := Do(Do(Do(Do(s, a), b), c), d);
    assert Reaches(z, [], z);
    assert Reaches(Do(Do(Do(s, a), b), c), [d], z);
    assert Reaches(Do(Do(s, a), b), [c, d], z);
    assert Reaches(Do(s, a), [b, c, d], z);
  }

  lemma TwoSteps(s: State, a: Step, b: Step)
    requires Enabled(s, a) && Enabled(Do(s, a), b)
    ensures Reaches(s, [a, b], Do(Do(s, a), b))
  {
    hide Enabled, Do;
    assert [a, b][1..] == [b] && [b][1..] == [];
    var z := Do(Do(s, a), b);
    assert Reaches(z, [], z);
    assert Reaches(Do(s, a), [b], z);
  }

  lemma {:induction false} OneRun(s: State, a: seq<Step>, s1: State, b: seq<Step>, s2: State)
    requires Reaches(s, a, s1) && Reaches(s1, b, s2)
    ensures Reaches(s, a + b, s2)
    decreases |a|
  {
    hide Enabled, Do;
    if |a| == 0 {
      assert a + b == b;
    } else {
      OneRun(Do(s, a[0]), a[1..], s1, b, s2);
      assert (a + b)[1..] == a[1..] + b;
    }
  }

  lemma ThenStuck()
    ensures Reaches(Acknowledged(), [Started(0, MarkStuck(3)), SubmitStep([SECOND], WriteOk)], LossState())
  {
    hide Encode;
    var s := Acknowledged();
    var s1 := DoStarted(s, 0, MarkStuck(3));
    assert Left(Entry(Marker(S, 1), 0), 3) == [TORN];
    assert [P1] + [TORN] == [P1, TORN];
    assert s1.cur == File([[], [P1], [P1, TORN]], 1, 1);
    assert s1.recs == [AckedRec(true)];
    HolderBytes();
    var ts := NewLives([SECOND], 2, 2);
    assert ts == [Live(Row(2, [], HOLDER.payload, false, false, false, 0), 2, false, true, 0, NoVerdict)];
    assert PEntries(ts) == [P2];
    assert [P1, TORN] + [P2] == [P1, TORN, P2];
    assert DoSubmit(s1, [SECOND], WriteOk) == LossState();
    hide DoStarted, DoSubmit;
    TwoSteps(s, Started(0, MarkStuck(3)), SubmitStep([SECOND], WriteOk));
  }

  lemma LossReached()
    ensures Reaches(INITIAL, LossSteps(), LossState())
  {
    hide Enabled, Reaches, DoSubmit;
    FirstSubmitted();
    var s0, a, b := DoSubmit(INITIAL, [FIRST], WriteOk), [SyncBegin, SyncOk(1), AnswerSubmit(0), Hand(0)], [Started(0, MarkStuck(3)), SubmitStep([SECOND], WriteOk)];
    FirstAnswered(s0);
    ThenStuck();
    OneRun(s0, a, Acknowledged(), b, LossState());
    BeginsWith(INITIAL, SubmitStep([FIRST], WriteOk), a + b, LossState());
    assert [SubmitStep([FIRST], WriteOk)] + (a + b) == LossSteps();
  }

  lemma BeginsWith(s: State, a: Step, b: seq<Step>, s': State)
    requires Enabled(s, a) && Reaches(Do(s, a), b, s')
    ensures Reaches(s, [a] + b, s')
  {
    hide Enabled, Do;
    assert ([a] + b)[1..] == b;
  }

  /** The bytes of the loss: record 1, three bytes of its marker, and record 2 up to the end of the 'D'
      in its payload. */
  function LossImage(): seq<Byte> {
    FileOf([ACKED]) + Encode(Marker(S, 1))[..3] + Encode(HOLDER)[..44]
  }

  lemma LossCaught()
    ensures ByteImage(LossFile(), LossImage())
  {
    hide Encode, FileOf, FileHeader;
    HolderBytes();
    var h, x, z := FileOf([ACKED]), TORN.rec.payload, Encode(HOLDER);
    var small, big := [P1, TORN], [P1, TORN, P2];
    assert Recs(small) == [ACKED, TORN.rec] && Recs(big) == [ACKED, TORN.rec, HOLDER];
    WholeFile([ACKED]);
    Grows([ACKED], TORN.rec);
    Grows([ACKED, TORN.rec], HOLDER);
    assert [ACKED] + [TORN.rec] == Recs(small) && [ACKED, TORN.rec] + [HOLDER] == Recs(big);
    assert h + x <= LossImage() <= h + x + z;
    assert HalfWay(small, LossImage(), big);
    assert CaughtBytes(LossFile(), 2, LossImage());
  }

  lemma Grows(rs: seq<Rec>, r: Rec)
    ensures Marred(rs + [r]) == Marred(rs) + Piece(r)
  {
    hide Piece, FileHeader;
    PiecesSnoc(rs, r);
  }

  /** An acknowledged record can be lost by a queue that is not broken: in this run record 1 has been
      answered for, nothing has closed it or asked for it back, and a crash leaves bytes whose replay
      has it closed. */
  lemma StuckMarkerLosesAck() returns (s: State, b: seq<Byte>)
    ensures Reachable(s) && !s.broken && !s.tainted && |s.calls| > 0 && s.calls[0].kind == Submit && s.calls[0].phase == ToldOk
    ensures s.calls[0].first <= 1 <= s.calls[0].last && (1, 1) !in s.closed && NotWithdrawn(s, 1, 1)
    ensures ByteImage(FileAt(s, 0), b)
    ensures ReplayOf(b).Loaded? && forall item :: !HasRow(ReplayOf(b).table, 1, item)
  {
    hide Reaches, ByteImage, ReplayOf, Encode, FileOf, LossFile, LossSteps;
    s, b := LossState(), LossImage();
    LossReached();
    LossCaught();
    TornMarkerLosesRecord();
  }
}
