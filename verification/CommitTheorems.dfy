/** What the durable queue promises, over every run from an empty journal: any number of
    submits, retractions, verdicts, fsyncs that succeed or fail, compactions and crashes. */
module CommitTheorems {
  import opened LittleEndian
  import opened Journal
  import opened RecordTable
  import opened Scars
  import opened Replay
  import opened Disk
  import opened GroupCommit
  import opened GroupCommitInv
  import opened CommitMarkers
  import opened CommitWrites
  import opened CommitSync
  import opened CommitAnswers
  import opened CommitCompact
  import opened CommitCrash

  // ---- the invariant holds in every run ----

  lemma InitialInv()
    ensures Inv(INITIAL)
  {
    WholeOk([]);
  }

  lemma StepInv(s: State, step: Step)
    requires Inv(s) && Enabled(s, step)
    ensures Inv(Do(s, step))
  {
    hide Inv, Enabled;
    match step
    case SubmitStep(items, fate) => SubmitInv(s, items, fate);
    case CancelStep(i, fate) => CancelInv(s, i, fate);
    case SyncBegin => SyncBeginInv(s);
    case SyncOk(v) => SyncOkInv(s, v);
    case SyncFail(cut) => SyncFailInv(s, cut);
    case AnswerSubmit(c) => AnswerSubmitInv(s, c);
    case Hand(i) => HandInv(s, i);
    case Refuse(i, mark) => RefuseInv(s, i, mark);
    case AnswerCancel(c, mark) => AnswerCancelInv(s, c, mark);
    case Started(i, mark) => StartedInv(s, i, mark);
    case AttemptEnded(i, mark) => AttemptEndedInv(s, i, mark);
    case VerdictStep(i, verdict, mark) => VerdictInv(s, i, verdict, mark);
    case Drain(i) => DrainInv(s, i);
    case Compact(renamed, dirSynced, reopened) => CompactInv(s, renamed, dirSynced, reopened);
    case Crash(file, es, dirSynced, reopened) => CrashInv(s, file, es, dirSynced, reopened);
  }

  lemma {:induction false} RunInv(s: State, steps: seq<Step>, s': State)
    requires Inv(s) && Reaches(s, steps, s')
    ensures Inv(s')
    decreases |steps|
  {
    hide Inv, Enabled, Do;
    if |steps| > 0 {
      StepInv(s, steps[0]);
      RunInv(Do(s, steps[0]), steps[1..], s');
    }
  }

  /** The states of every run. */
  ghost predicate Reachable(s: State) {
    exists steps :: Reaches(INITIAL, steps, s)
  }

  lemma ReachableInv(s: State)
    requires Reachable(s)
    ensures Inv(s)
  {
    hide Inv, Reaches;
    var steps :| Reaches(INITIAL, steps, s);
    InitialInv();
    RunInv(INITIAL, steps, s);
  }

  // ---- a durable acknowledgement ----

  /** Every retraction ever asked of the record has been answered GPTPS_E_IO by a queue that
      could stand by the answer. */
  ghost predicate NotWithdrawn(s: State, tag: nat, q: nat) {
    forall d :: 0 <= d < |s.calls| && Retracts(s.calls[d], tag, q) ==>
      s.calls[d].phase == ToldIo && !s.broken && !s.tainted
  }

  /** The table has an open row for record `q`, with this name and payload. */
  ghost predicate HasRow(t: Table, q: nat, item: Item) {
    exists i :: 0 <= i < |t.rows| && t.rows[i].seqno == q && !t.rows[i].done
                && t.rows[i].name == item.name && t.rows[i].payload == item.payload
  }

  /** Acknowledged work is not lost. Once gptps_dq_submit or _submit_batch has answered that a
      record is durable, then until a verdict, a refusal, a drain or a retraction closes it,
      whatever bytes any crash leaves under the journal's name replay to a table that holds it,
      open, with the very name and payload it was submitted with - if the scraps of stuck markers
      among those bytes, where there are any, are legible. */
  lemma DurableAck(s: State, c: nat, q: nat, k: nat, b: seq<Byte>)
    requires Reachable(s) && c < |s.calls| && s.calls[c].kind == Submit && s.calls[c].phase == ToldOk
    requires s.calls[c].first <= q <= s.calls[c].last && (c + 1, q) !in s.closed && NotWithdrawn(s, c + 1, q)
    requires k <= |s.older| && ByteImage(FileAt(s, k), b) && (Unscarred(FileAt(s, k)) || ClearImage(FileAt(s, k), b))
    ensures q - s.calls[c].first < |s.calls[c].items|
    ensures ReplayOf(b).Loaded? && HasRow(ReplayOf(b).table, q, s.calls[c].items[q - s.calls[c].first])
  {
    hide Inv, Image, ByteImage, ClearImage, Unscarred, Reachable, Shaped, PastOk, NotWithdrawn, HasRow, ReplayOf, Meaning, Survivors, Owed;
    ReachableInv(s);
    var f := FileAt(s, k);
    FileHolds(s, k);
    if Unscarred(f) { UnscarredClear(f, b); }
    var es := BytesReplay(f, b);
    ImageSurvives(f, es);
    StillOwed(s, c, q);
    OwedInImage(s, f, es, c, q);
    SurvivorsOrdered(f, es);
    ImageRow(es, ItsP(s.calls, c, q));
  }

  /** An acknowledged record that nothing closed or withdrew is owed by every file. */
  lemma StillOwed(s: State, c: nat, q: nat)
    requires Inv(s) && c < |s.calls| && s.calls[c].kind == Submit && s.calls[c].phase == ToldOk
    requires s.calls[c].first <= q <= s.calls[c].last && (c + 1, q) !in s.closed && NotWithdrawn(s, c + 1, q)
    ensures Owed(s.calls, s.closed, s.tainted, c, q)
  {
    hide FilesOk, SyncShape, WaitOk, CrashOk, RecsOk, AckOk, HasRec;
    assert CallOk(s.calls, s.recs, s.nextSeq, c);
    forall d | 0 <= d < |s.calls| && Retracts(s.calls[d], c + 1, q) ensures !MadeDurable(s.calls[d]) {
      assert CallOk(s.calls, s.recs, s.nextSeq, d);
    }
  }

  /** Every image of such a file has the record's 'P', and no 'D' for it. */
  lemma OwedInImage(s: State, f: File, es: Log, c: nat, q: nat)
    requires Inv(s) && PastOk(f, s) && Survivors(f, es) && c < |s.calls| && Owed(s.calls, s.closed, s.tainted, c, q) && NotWithdrawn(s, c + 1, q)
    ensures s.calls[c].first <= q && q - s.calls[c].first < |s.calls[c].items|
    ensures ItsP(s.calls, c, q) in es && !HasD(es, q)
  {
    hide FilesOk, SyncShape, WaitOk, CrashOk, RecsOk, AckOk, Ordered, Sure, May, HasD, PastMay, FileRetracts, FilePairs, FileVerdicts, DurablyRetracted, HasRec;
    assert HasP(f, s.calls[c], c + 1, q);
    forall d | 0 <= d < |s.calls| && Retracts(s.calls[d], c + 1, q) ensures Out(s.calls[d]) && !s.broken && !s.tainted {
      assert CallOk(s.calls, s.recs, s.nextSeq, d);
    }
    if HasD(es, q) {
      WhyClosed(s, f, es, ItsP(s.calls, c, q));
      assert false;
    }
  }

  lemma ImageRow(es: Log, p: Entry)
    requires Ordered(es) && p in es && p.rec.typ == P && !HasD(es, p.rec.seqno)
    ensures HasRow(Meaning(Recs(es)), p.rec.seqno, Item(p.rec.name, p.rec.payload))
  {
    hide Meaning, HasD, Ordered, OpenRow;
    var rs := Recs(es);
    var k :| 0 <= k < |es| && es[k] == p;
    OrderedWrites(es);
    MeaningHas(rs, k);
    RowOfLoaded(es, k);
    var i := Find(Meaning(rs).rows, rs[k].seqno);
    assert PRec(Meaning(rs).rows[i]) == p.rec;
  }

  // ---- GPTPS_E_IO means it did not happen ----

  ghost predicate Holds(es: Log, tag: nat) {
    exists e :: e in es && e.tag == tag
  }

  /** A failed call leaves no trace. Once a submit, a batch or a retraction has answered
      GPTPS_E_IO, then as long as the queue is not broken and no crash has struck a broken one,
      whatever bytes any crash leaves, the scraps in them being legible, replay to the meaning of
      some records none of which that call wrote. */
  lemma FailedLeavesNoTrace(s: State, c: nat, k: nat, b: seq<Byte>) returns (es: Log)
    requires Reachable(s) && c < |s.calls| && s.calls[c].phase == ToldIo && !s.broken && !s.tainted
    requires k <= |s.older| && ByteImage(FileAt(s, k), b) && (Unscarred(FileAt(s, k)) || ClearImage(FileAt(s, k), b))
    ensures Image(FileAt(s, k), es) && !Holds(es, c + 1)
    ensures ReplayOf(b).Loaded? && ReplayOf(b).table == Meaning(Recs(es))
  {
    hide Inv, Image, ByteImage, ClearImage, Unscarred, Reachable, Shaped, PastOk, ReplayOf, Meaning, Survivors;
    ReachableInv(s);
    FileHolds(s, k);
    if Unscarred(FileAt(s, k)) { UnscarredClear(FileAt(s, k), b); }
    es := BytesReplay(FileAt(s, k), b);
    ImageSurvives(FileAt(s, k), es);
    NoTrace(s, FileAt(s, k), es, c);
  }

  lemma NoTrace(s: State, f: File, es: Log, c: nat)
    requires Inv(s) && PastOk(f, s) && Survivors(f, es) && c < |s.calls| && s.calls[c].phase == ToldIo && !s.broken && !s.tainted
    ensures !Holds(es, c + 1)
  {
    hide FilesOk, SyncShape, WaitOk, CrashOk, RecsOk, AckOk, PastKeeps, FileRetracts, FilePairs, FileVerdicts, Ordered, Sure, May;
    assert CallOk(s.calls, s.recs, s.nextSeq, c);
    forall e | e in es ensures e.tag != c + 1 {
      assert Belongs(e, s.calls, s.broken || s.tainted);
    }
  }

  // ---- a retraction that was answered stays ----

  /** A record whose retraction was answered GPTPS_OK is never handed to the engine again, in
      this run or in any that follows: wherever it is in the table it is closed. */
  lemma RetractedStaysClosed(s: State, c: nat, i: nat)
    requires Reachable(s) && c < |s.calls| && s.calls[c].kind == Cancel && s.calls[c].phase == ToldOk
    requires i < |s.recs| && Rid(s.recs[i]) == (s.calls[c].target, s.calls[c].first)
    ensures s.recs[i].row.done && !IsOpen(s.recs[i])
  {
    ReachableInv(s);
    hide FilesOk, SyncShape, WaitOk, CrashOk, RecsOk, AckOk, DurablyRetracted, HasRec;
    assert CallOk(s.calls, s.recs, s.nextSeq, c);
  }

  /** A retraction is answered OK exactly if its 'D' became durable, or its record is closed already or
      not there any more; else GPTPS_E_IO. */
  lemma RetractionAnswered(s: State, c: nat, mark: MarkFate)
    requires Reachable(s) && Enabled(s, AnswerCancel(c, mark))
    ensures var seqno := s.calls[c].first; var calls := Do(s, AnswerCancel(c, mark)).calls;
            && |calls| == |s.calls|
            && calls[c].phase == if MadeDurable(s.calls[c]) || (forall i :: 0 <= i < |s.recs| && s.recs[i].row.seqno == seqno ==> s.recs[i].row.done)
                                 then ToldOk else ToldIo
  {
    hide DoAnswerCancel, Find, MadeDurable, Inv, Reachable;
    ReachableInv(s);
    TableRises(s);
    FindIs(Rows(s.recs), s.calls[c].first);
    CancelAnswerIs(s, c, mark);
  }

  lemma CancelAnswerIs(s: State, c: nat, mark: MarkFate)
    requires HasFile(s) && c < |s.calls|
    ensures var call := s.calls[c]; var i := Find(Rows(s.recs), call.first);
            DoAnswerCancel(s, c, mark).calls ==
            s.calls[c := call.(phase := if i == |s.recs| || MadeDurable(call) || s.recs[i].row.done then ToldOk else ToldIo)]
  {
    hide ApplyVerdict, Find, MadeDurable;
    var i := Find(Rows(s.recs), s.calls[c].first);
    if i < |s.recs| {
      var t := s.recs[i].(retracting := if s.recs[i].retracting > 0 then s.recs[i].retracting - 1 else 0);
      var s2 := s.(recs := s.recs[i := t], calls := s.calls[c := s.calls[c].(phase := ToldIo)]);
      VerdictKeepsCalls(s2, i, t.deferred, mark);
    }
  }

  lemma FindIs(rows: seq<Row>, seqno: nat)
    requires Ascending(rows)
    ensures var i := Find(rows, seqno); i <= |rows| && forall j :: 0 <= j < |rows| ==> (rows[j].seqno == seqno <==> j == i)
  {
  }

  // ---- compaction tells the truth ----

  /** When a compaction returns GPTPS_OK the new journal is the only one a crash can leave, no
      part of it can be lost, and replaying it gives exactly the records it kept, with their
      payloads, crash counts, in-flight and quarantine marks; and the queue is repaired if it
      was broken. */
  lemma CompactionTellsTheTruth(s: State)
    requires Reachable(s) && Enabled(s, Compact(true, true, true))
    ensures var s', kept := DoCompact(s, true, true, true), KeptOf(s.calls, s.recs);
            && |s'.older| == 0 && s'.open && !s'.broken
            && s'.cur == Whole(RewriteAll(kept))
            && (forall b :: ByteImage(s'.cur, b) ==> ReplayOf(b).Loaded? && ReplayOf(b).table.rows == Rows(kept))
            && (forall t :: t in kept <==> t in s.recs && Kept(s.calls, t))
  {
    ReachableInv(s);
    hide Inv, Image, ByteImage, ClearImage, Unscarred, ReplayOf, Meaning, KeptOf, Shaped, RewriteAll, Kept, NotDone;
    var kept := KeptOf(s.calls, s.recs);
    var f := Whole(RewriteAll(kept));
    KeptOfHas(s.calls, s.recs);
    NewJournalMeans(s);
    NewUnscarred(kept);
    forall b | ByteImage(f, b) ensures ReplayOf(b).Loaded? && ReplayOf(b).table.rows == Rows(kept) {
      UnscarredClear(f, b);
      var es := BytesReplay(f, b);
      OnlyImage(RewriteAll(kept), es);
    }
  }

  /** A compaction writes whole records only. */
  /** What a compaction leaves: if the new file was not put in place, all as it was, but that a journal
      that could not be reopened is closed and the queue broken; if it was, a queue as open as the journal
      is, broken if that is not or if it was and the new name is not durable. */
  lemma CompactionLeaves(s: State, renamed: bool, dirSynced: bool, reopened: bool)
    ensures var s' := DoCompact(s, renamed, dirSynced, reopened);
            if renamed then s'.open == reopened && s'.broken == (!reopened || (s.broken && !dirSynced)) && (|s'.older| == 0 <==> dirSynced)
            else && (s'.cur, s'.older, s'.recs, s'.calls, s'.pending, s'.closed) == (s.cur, s.older, s.recs, s.calls, s.pending, s.closed)
                 && s'.open == (s.open && reopened) && s'.broken == (s.broken || (s.open && !reopened))
  {
    hide RewriteAll, KeptOf, NotDone;
  }

  /** A durable write stuck in the file, or an fsync that failed with no durable cut after it. */
  predicate Breaks(step: Step) {
    match step
    case SubmitStep(items, fate) => fate.WriteStuck?
    case CancelStep(i, fate) => fate.WriteStuck?
    case SyncFail(cut) => cut != CutSynced
    case _ => false
  }

  lemma StepBroken(s: State, step: Step)
    requires Enabled(s, step) && s.open && !step.Compact? && !step.Crash?
    ensures Do(s, step).open && (Do(s, step).broken <==> s.broken || Breaks(step))
  {
    hide Image, Extend, WriteMarker, ApplyVerdict, Find, Settle, EndCommit, CountCommitting, MadeDurable;
    match step
    case SubmitStep(items, fate) =>
    case CancelStep(i, fate) =>
    case SyncBegin =>
    case SyncOk(v) =>
    case SyncFail(cut) =>
    case AnswerSubmit(c) =>
    case Hand(i) =>
    case Refuse(i, mark) => MarkerBroken(CloseRec(s, i), D, s.recs[i].row.seqno, mark);
    case AnswerCancel(c, mark) => AnswerBroken(s, c, mark);
    case Started(i, mark) => StartedBroken(s, i, mark);
    case AttemptEnded(i, mark) => StartedBroken(s, i, mark);
    case VerdictStep(i, verdict, mark) => VerdictBroken(s, i, verdict, mark);
    case Drain(i) =>
  }

  lemma MarkerBroken(s: State, typ: Byte, seqno: nat, mark: MarkFate)
    requires HasFile(s)
    ensures WriteMarker(s, typ, seqno, mark).open == s.open && WriteMarker(s, typ, seqno, mark).broken == s.broken
  {
  }

  lemma StartedBroken(s: State, i: nat, mark: MarkFate)
    requires HasFile(s) && i < |s.recs|
    ensures DoStarted(s, i, mark).open == DoAttemptEnded(s, i, mark).open == s.open
    ensures DoStarted(s, i, mark).broken == DoAttemptEnded(s, i, mark).broken == s.broken
  {
    hide Extend;
  }

  lemma VerdictBroken(s: State, i: nat, v: Verdict, mark: MarkFate)
    requires HasFile(s) && i < |s.recs|
    ensures ApplyVerdict(s, i, v, mark).open == s.open && ApplyVerdict(s, i, v, mark).broken == s.broken
  {
    hide Extend;
  }

  lemma AnswerBroken(s: State, c: nat, mark: MarkFate)
    requires HasFile(s) && c < |s.calls|
    ensures DoAnswerCancel(s, c, mark).open == s.open && DoAnswerCancel(s, c, mark).broken == s.broken
  {
    hide ApplyVerdict, Find, MadeDurable;
    var call := s.calls[c];
    var i := Find(Rows(s.recs), call.first);
    if i < |s.recs| {
      var t := s.recs[i].(retracting := if s.recs[i].retracting > 0 then s.recs[i].retracting - 1 else 0);
      VerdictBroken(s.(recs := s.recs[i := t], calls := s.calls[c := call.(phase := ToldIo)]), i, t.deferred, mark);
    }
  }

  /** Between compactions and crashes, a sound queue is broken exactly once a durable write is stuck or an
      fsync fails whose cut does not become durable: no marker, no roll-back and no other failure does it. */
  lemma {:induction false} BrokenExactly(s: State, steps: seq<Step>, s': State)
    requires Reaches(s, steps, s') && s.open && forall k :: 0 <= k < |steps| ==> !steps[k].Compact? && !steps[k].Crash?
    ensures s'.open && (s'.broken <==> s.broken || exists k :: 0 <= k < |steps| && Breaks(steps[k]))
    decreases |steps|
  {
    hide Enabled, Do, Breaks;
    if |steps| > 0 {
      var rest := steps[1..];
      StepBroken(s, steps[0]);
      assert forall k :: 0 <= k < |rest| ==> rest[k] == steps[k + 1];
      assert forall k :: 1 <= k < |steps| ==> steps[k] == rest[k - 1];
      BrokenExactly(Do(s, steps[0]), rest, s');
    }
  }

  lemma NewUnscarred(ts: seq<Live>)
    ensures Unscarred(Whole(RewriteAll(ts)))
  {
    hide RewriteAll;
    forall e | May(Whole(RewriteAll(ts)), e) ensures e.rec.typ != SCRAP { RewriteAllTypes(ts, e); }
  }

  lemma {:induction false} RewriteAllTypes(ts: seq<Live>, e: Entry)
    requires e in RewriteAll(ts)
    ensures e.rec.typ != SCRAP
    decreases |ts|
  {
    if |ts| > 0 && e !in RewriteEntries(ts[|ts| - 1]) { RewriteAllTypes(ts[..|ts| - 1], e); }
  }

  lemma NewJournalMeans(s: State)
    requires Inv(s)
    ensures var kept := KeptOf(s.calls, s.recs);
            Shaped(Whole(RewriteAll(kept))) && Meaning(Recs(RewriteAll(kept))).rows == Rows(kept)
  {
    hide RecsOk, CallsOk, FilesOk, WaitOk, CrashOk, AckOk, SyncShape, Shaped, KeptOf, RewriteAll, Meaning, Rewrite, Rising, WellFormed;
    var kept := KeptOf(s.calls, s.recs);
    NewFile(s, true);
    RecsWellFormed(s);
    KeptFits(s.calls, s.recs, s.nextSeq, s.tainted);
    RisingRows(kept);
    RewriteAllRecs(kept);
    KeptStorable(kept);
    RewriteMeans(Rows(kept));
  }

  lemma KeptStorable(ts: seq<Live>)
    requires forall t :: t in ts ==> Storable(t.row)
    ensures forall i :: 0 <= i < |Rows(ts)| ==> Storable(Rows(ts)[i])
  {
    forall i | 0 <= i < |Rows(ts)| ensures Storable(Rows(ts)[i]) { assert ts[i] in ts; }
  }

  lemma OnlyImage(es: Log, x: Log)
    requires Image(Whole(es), x)
    ensures x == es
  {
  }

  /** The same call, if it was answered then truthfully: a submit is told OK exactly if it was
      made durable, and a retraction that was made durable is told OK. */
  ghost predicate FixedAnswer(call: Call, call': Call) {
    && call' == call.(phase := call'.phase)
    && (call'.phase == call.phase ||
        (call.phase == InFlight && MayAnswer(call)
         && (call'.phase == ToldOk || (call'.phase == ToldIo && !MadeDurable(call)))
         && (call.kind == Submit && call'.phase == ToldOk ==> MadeDurable(call))))
  }

  lemma WriteKeepsCall(s: State, es: Log, call: Call, fate: WriteFate, c: nat)
    requires HasFile(s) && c < |s.calls|
    ensures c < |WriteDurable(s, es, call, fate).calls| && WriteDurable(s, es, call, fate).calls[c] == s.calls[c]
  {
  }

  lemma MarkerKeepsCalls(s: State, typ: Byte, seqno: nat, mark: MarkFate)
    requires HasFile(s)
    ensures WriteMarker(s, typ, seqno, mark).calls == s.calls
  {
  }

  lemma VerdictKeepsCalls(s: State, i: nat, v: Verdict, mark: MarkFate)
    requires HasFile(s) && i < |s.recs|
    ensures ApplyVerdict(s, i, v, mark).calls == s.calls
  {
    hide Marked, Extend;
  }

  lemma AnswerCancelCalls(s: State, c: nat, mark: MarkFate)
    requires HasFile(s) && c < |s.calls|
    ensures var calls' := DoAnswerCancel(s, c, mark).calls;
            && |calls'| == |s.calls| && (forall k :: 0 <= k < |calls'| && k != c ==> calls'[k] == s.calls[k])
            && (calls'[c] == s.calls[c].(phase := ToldOk) || (calls'[c] == s.calls[c].(phase := ToldIo) && !MadeDurable(s.calls[c])))
  {
    hide DoAnswerCancel, MadeDurable;
    AnswerCancelPhase(s, c, mark);
  }

  lemma AnswerCancelPhase(s: State, c: nat, mark: MarkFate)
    requires HasFile(s) && c < |s.calls|
    ensures var calls' := DoAnswerCancel(s, c, mark).calls;
            calls' == s.calls[c := s.calls[c].(phase := ToldOk)] || (calls' == s.calls[c := s.calls[c].(phase := ToldIo)] && !MadeDurable(s.calls[c]))
  {
    hide DoAnswerCancel, Find, MadeDurable;
    CancelAnswerIs(s, c, mark);
  }

  lemma FixedSame(call: Call)
    ensures FixedAnswer(call, call)
  {
  }

  lemma AnswerFixes(s: State, c: nat)
    requires c < |s.calls| && MayAnswer(s.calls[c])
    ensures var calls' := DoAnswerSubmit(s, c).calls;
            |calls'| == |s.calls| && (forall k :: 0 <= k < |calls'| && k != c ==> calls'[k] == s.calls[k]) && FixedAnswer(s.calls[c], calls'[c])
  {
    hide EndCommit, CountCommitting;
  }

  lemma CancelFixes(call: Call, call': Call)
    requires MayAnswer(call) && call.kind == Cancel
    requires call' == call.(phase := ToldOk) || (call' == call.(phase := ToldIo) && !MadeDurable(call))
    ensures FixedAnswer(call, call')
  {
  }

  lemma SettledOnce(s: State, step: Step, c: nat)
    requires Enabled(s, step) && !step.Crash? && c < |s.calls| && !WaitingNow(s.calls[c])
    ensures c < |Do(s, step).calls| && FixedAnswer(s.calls[c], Do(s, step).calls[c])
  {
    hide Image, DoSubmit, DoCancel, WriteMarker, DoVerdict, DoAnswerCancel, DoAnswerSubmit, DoCompact, FixedAnswer, MadeDurable, CloseRec;
    FixedSame(s.calls[c]);
    match step
    case SubmitStep(items, fate) => SubmitKeepsCall(s, items, fate, c);
    case CancelStep(i, fate) => CancelKeepsCall(s, i, fate, c);
    case SyncBegin =>
    case SyncOk(v) =>
    case SyncFail(cut) =>
    case AnswerSubmit(k) => AnswerFixes(s, k);
    case Hand(i) =>
    case Refuse(i, mark) => RefuseKeepsCalls(s, i, mark);
    case AnswerCancel(k, mark) =>
      AnswerCancelCalls(s, k, mark);
      CancelFixes(s.calls[k], DoAnswerCancel(s, k, mark).calls[k]);
    case Started(i, mark) =>
      MarkerKeepsCalls(s.(recs := s.recs[i := s.recs[i].(row := s.recs[i].row.(inflight := true))]), S, s.recs[i].row.seqno, mark);
    case AttemptEnded(i, mark) =>
      MarkerKeepsCalls(s.(recs := s.recs[i := s.recs[i].(row := s.recs[i].row.(inflight := false, crashes := 0))]), F, s.recs[i].row.seqno, mark);
    case VerdictStep(i, verdict, mark) => DecidedKeepsCalls(s, i, verdict, mark);
    case Drain(i) =>
    case Compact(renamed, dirSynced, reopened) => CompactKeepsCalls(s, renamed, dirSynced, reopened);
  }

  lemma RefuseKeepsCalls(s: State, i: nat, mark: MarkFate)
    requires HasFile(s) && i < |s.recs|
    ensures DoRefuse(s, i, mark).calls == s.calls
  {
    hide WriteMarker;
    MarkerKeepsCalls(CloseRec(s, i), D, s.recs[i].row.seqno, mark);
  }

  lemma DecidedKeepsCalls(s: State, i: nat, v: Verdict, mark: MarkFate)
    requires HasFile(s) && i < |s.recs|
    ensures DoVerdict(s, i, v, mark).calls == s.calls
  {
    hide ApplyVerdict;
    VerdictKeepsCalls(s, i, v, mark);
  }

  lemma SubmitKeepsCall(s: State, items: seq<Item>, fate: WriteFate, c: nat)
    requires HasFile(s) && |items| > 0 && c < |s.calls|
    ensures c < |DoSubmit(s, items, fate).calls| && DoSubmit(s, items, fate).calls[c] == s.calls[c]
  {
    hide WriteDurable;
    var ts := NewLives(items, s.nextSeq, |s.calls| + 1);
    WriteKeepsCall(s.(recs := s.recs + ts, nextSeq := s.nextSeq + |items|), PEntries(ts),
                   NewCall(Submit, s.nextSeq, s.nextSeq + |items| - 1, 0, items), fate, c);
  }

  lemma CancelKeepsCall(s: State, i: nat, fate: WriteFate, c: nat)
    requires HasFile(s) && i < |s.recs| && c < |s.calls|
    ensures c < |DoCancel(s, i, fate).calls| && DoCancel(s, i, fate).calls[c] == s.calls[c]
  {
    hide WriteDurable;
    var t := s.recs[i];
    WriteKeepsCall(s.(recs := s.recs[i := t.(retracting := t.retracting + 1)]), [Entry(Marker(D, t.row.seqno), |s.calls| + 1)],
                   NewCall(Cancel, t.row.seqno, t.row.seqno, t.tag, []), fate, c);
  }

  lemma CompactKeepsCalls(s: State, renamed: bool, dirSynced: bool, reopened: bool)
    ensures DoCompact(s, renamed, dirSynced, reopened).calls == s.calls
  {
    hide RewriteAll, KeptOf, NotDone;
  }

  lemma {:induction false} SettledForGood(s: State, steps: seq<Step>, s': State, c: nat)
    requires Reaches(s, steps, s') && (forall k :: 0 <= k < |steps| ==> !steps[k].Crash?)
    requires c < |s.calls| && !WaitingNow(s.calls[c])
    ensures c < |s'.calls| && FixedAnswer(s.calls[c], s'.calls[c])
    decreases |steps|
  {
    hide Enabled, Do;
    if |steps| > 0 {
      SettledOnce(s, steps[0], c);
      SettledForGood(Do(s, steps[0]), steps[1..], s', c);
    }
  }

  /** What a compaction writes agrees with what the callers still waiting will hear, whenever
      they hear it. A record being submitted is in the new journal exactly if its caller will be
      told it is durable. A record being retracted is left out exactly if one of its retractions
      became durable, and that caller will be told so. */
  lemma CompactionAgreesWithAnswers(s: State, steps: seq<Step>, s': State, t: Live)
    requires Reachable(s) && Enabled(s, Compact(true, true, true)) && t in s.recs && !t.row.done
    requires Reaches(DoCompact(s, true, true, true), steps, s') && forall k :: 0 <= k < |steps| ==> !steps[k].Crash?
    ensures t.committing && 1 <= t.tag <= |s'.calls| && s'.calls[t.tag - 1].phase == ToldOk ==> t in KeptOf(s.calls, s.recs)
    ensures t.committing && 1 <= t.tag <= |s'.calls| && s'.calls[t.tag - 1].phase == ToldIo ==> t !in KeptOf(s.calls, s.recs)
    ensures !t.committing ==> (t !in KeptOf(s.calls, s.recs) <==> RetractedDurably(s.calls, t))
    ensures forall c :: 0 <= c < |s.calls| && s.calls[c].phase == InFlight && Retracts(s.calls[c], t.tag, t.row.seqno) && MadeDurable(s.calls[c]) ==>
              c < |s'.calls| && s'.calls[c].phase != ToldIo
  {
    hide Reaches, Reachable, Enabled, KeptOf, Inv, RecOk, RewriteAll, RetractedDurably, CountRetracting;
    ReachableInv(s);
    KeptOfHas(s.calls, s.recs);
    CommittingFacts(s, t);
    CompactSettled(s);
    var s1 := DoCompact(s, true, true, true);
    assert s1.calls == s.calls;
    SettledForGood(s1, steps, s', t.tag - 1);
    forall c | 0 <= c < |s.calls| && s.calls[c].phase == InFlight && Retracts(s.calls[c], t.tag, t.row.seqno) && MadeDurable(s.calls[c])
      ensures c < |s'.calls| && s'.calls[c].phase != ToldIo
    {
      SettledForGood(s1, steps, s', c);
    }
  }

  lemma CommittingFacts(s: State, t: Live)
    requires Inv(s) && t in s.recs
    ensures 1 <= t.tag <= |s.calls| && s.calls[t.tag - 1].kind == Submit
    ensures t.committing <==> s.calls[t.tag - 1].phase == InFlight
    ensures t.committing ==> !RetractedDurably(s.calls, t)
  {
    hide FilesOk, SyncShape, WaitOk, CrashOk, CallsOk, AckOk, CountOpen, CountRetracting, RetractedDurably;
    var k :| 0 <= k < |s.recs| && s.recs[k] == t;
    assert RecOk(t, s.calls, s.nextSeq, s.tainted);
    if t.committing { NoRetraction(s.calls, t); }
  }

  lemma CompactSettled(s: State)
    requires Enabled(s, Compact(true, true, true))
    ensures forall c :: 0 <= c < |s.calls| ==> !WaitingNow(s.calls[c])
  {
  }

  lemma NoRetraction(calls: seq<Call>, t: Live)
    requires CountRetracting(calls, t.tag, t.row.seqno) == 0
    ensures !RetractedDurably(calls, t)
  {
    forall c | 0 <= c < |calls| && calls[c].phase == InFlight ensures !Retracts(calls[c], t.tag, t.row.seqno) {
      if Retracts(calls[c], t.tag, t.row.seqno) { CountsSelf(calls, c, t.tag, t.row.seqno); assert false; }
    }
  }
}
