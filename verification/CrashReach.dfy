/** What a crash may leave: all it might have left before, until an fsync has come back. */
module CrashReach {
  import opened LittleEndian
  import opened Journal
  import opened RecordTable
  import opened Disk
  import opened GroupCommit
  import opened GroupCommitInv
  import opened CommitTheorems

  /** The file has had all the contents it had, and no more of them are known to be durable. */
  ghost predicate Grows(f: File, g: File) {
    f.floor == g.floor && |f.hist| <= |g.hist| && g.hist[..|f.hist|] == f.hist
  }

  lemma GrowsKeeps(f: File, g: File, es: Log)
    requires Grows(f, g) && Image(f, es)
    ensures Image(g, es)
  {
    var j :| f.floor <= j < |f.hist| && Caught(f, j, es);
    assert forall k :: 0 <= k < |f.hist| ==> g.hist[k] == f.hist[k];
    assert Caught(g, j, es);
  }

  /** No fsync of the step's own has come back. */
  predicate Unsynced(step: Step) {
    match step
    case SyncOk(v) => false
    case SyncFail(cut) => cut != CutSynced
    case Compact(renamed, dirSynced, reopened) => !(renamed && dirSynced)
    case Crash(file, es, dirSynced, reopened) => !dirSynced
    case _ => true
  }

  /** In every run, a step in which no fsync has come back takes nothing from what a crash may leave:
      neither of the journal nor of those it has replaced. */
  lemma OnlySyncsSettle(s: State, step: Step, k: nat, es: Log, dirSynced: bool, reopened: bool)
    requires Reachable(s) && Enabled(s, step) && Unsynced(step) && Enabled(s, Crash(k, es, dirSynced, reopened))
    ensures Enabled(Do(s, step), Crash(k, es, dirSynced, reopened))
  {
    hide Do, Image, Inv, Reachable, Unsynced;
    ReachableInv(s);
    StepInv(s, step);
    Sized(Do(s, step));
    StepFiles(s, step, k);
    GrowsKeeps(FileAt(s, k), FileAt(Do(s, step), k), es);
  }

  /** Nor does the fsync of the journal alone, from what it has replaced. */
  lemma OldFilesStay(s: State, v: nat, k: nat, es: Log, dirSynced: bool, reopened: bool)
    requires Reachable(s) && Enabled(s, SyncOk(v)) && !s.sync.dir && k < |s.older| && Enabled(s, Crash(k, es, dirSynced, reopened))
    ensures Enabled(Do(s, SyncOk(v)), Crash(k, es, dirSynced, reopened))
  {
    hide Image, Inv, Reachable, Raise, Settle;
    ReachableInv(s);
    StepInv(s, SyncOk(v));
    Sized(Do(s, SyncOk(v)));
  }

  /** What a write has added may be left in any part, and even a write cut back out. */
  lemma AnyPartMayStay(f: File, es: Log, cut: bool, n: nat)
    requires f.floor < |f.hist| && n <= |es|
    ensures Image(Extend(f, es, cut), Cur(f) + es[..n])
  {
    var g, j, x := Extend(f, es, cut), |f.hist| - 1, Cur(f) + es[..n];
    assert g.hist[j] == Cur(f) && g.hist[j + 1] == Cur(f) + es;
    assert x == (Cur(f) + es)[..|x|] && Cur(f) == x[..|Cur(f)|];
    assert Caught(g, j, x);
  }

  lemma Sized(s: State)
    requires Inv(s)
    ensures HasFile(s) && s.cur.safe <= |Cur(s.cur)|
  {
  }

  // ---- the files of each step ----

  /** The journal has only grown, and it has replaced none. */
  ghost predicate FilesKept(s: State, s': State) {
    s'.older == s.older && Grows(s.cur, s'.cur)
  }

  lemma StepFiles(s: State, step: Step, k: nat)
    requires Enabled(s, step) && Unsynced(step) && k <= |s.older|
    ensures var s' := Do(s, step); k <= |s'.older| && Grows(FileAt(s, k), FileAt(s', k))
  {
    hide Image, Grows, DoSubmit, DoCancel, DoSyncFail, DoAnswerCancel, DoStarted, DoAttemptEnded, DoVerdict, DoRefuse, DoCrash, DoCompact, EndCommit, CountCommitting;
    Same(s.cur);
    Same(FileAt(s, k));
    match step
    case SubmitStep(items, fate) => SubmitFiles(s, items, fate);
    case CancelStep(i, fate) => CancelFiles(s, i, fate);
    case SyncBegin =>
    case SyncOk(v) =>
    case SyncFail(cut) => CutFiles(s, cut);
    case AnswerSubmit(c) =>
    case Hand(i) =>
    case Refuse(i, mark) => MarkedFiles(s, i, mark);
    case AnswerCancel(c, mark) => AnswerFiles(s, c, mark);
    case Started(i, mark) => MarkedFiles(s, i, mark);
    case AttemptEnded(i, mark) => MarkedFiles(s, i, mark);
    case VerdictStep(i, verdict, mark) => VerdictFiles(s, i, verdict, mark);
    case Drain(i) =>
    case Compact(renamed, dirSynced, reopened) => ReplacedFiles(s, step);
    case Crash(file, es, dirSynced, reopened) => ReplacedFiles(s, step);
  }

  lemma Same(f: File)
    ensures Grows(f, f)
  {
    assert f.hist[..|f.hist|] == f.hist;
  }

  lemma ExtendGrows(f: File, es: Log, cut: bool)
    requires |f.hist| > 0
    ensures Grows(f, Extend(f, es, cut))
  {
    assert Extend(f, es, cut).hist[..|f.hist|] == f.hist;
  }

  lemma MarkFiles(s: State, typ: Byte, seqno: nat, mark: MarkFate)
    requires HasFile(s)
    ensures FilesKept(s, WriteMarker(s, typ, seqno, mark))
  {
    hide Grows, Extend;
    Same(s.cur);
    ExtendGrows(s.cur, Marked(Entry(Marker(typ, seqno), 0), mark), mark == MarkCut);
  }

  lemma WriteFiles(s: State, es: Log, call: Call, fate: WriteFate)
    requires HasFile(s)
    ensures FilesKept(s, WriteDurable(s, es, call, fate))
  {
    hide Grows, Extend;
    Same(s.cur);
    ExtendGrows(s.cur, es, fate == WriteCut);
    if fate.WriteStuck? { ExtendGrows(s.cur, Part(es, fate.n), false); }
  }

  lemma SubmitFiles(s: State, items: seq<Item>, fate: WriteFate)
    requires HasFile(s) && |items| > 0
    ensures FilesKept(s, DoSubmit(s, items, fate))
  {
    hide WriteDurable, Grows;
    var ts := NewLives(items, s.nextSeq, |s.calls| + 1);
    WriteFiles(s.(recs := s.recs + ts, nextSeq := s.nextSeq + |items|), PEntries(ts),
               NewCall(Submit, s.nextSeq, s.nextSeq + |items| - 1, 0, items), fate);
  }

  lemma CancelFiles(s: State, i: nat, fate: WriteFate)
    requires HasFile(s) && i < |s.recs|
    ensures FilesKept(s, DoCancel(s, i, fate))
  {
    hide WriteDurable, Grows;
    var t := s.recs[i];
    WriteFiles(s.(recs := s.recs[i := t.(retracting := t.retracting + 1)]), [Entry(Marker(D, t.row.seqno), |s.calls| + 1)],
               NewCall(Cancel, t.row.seqno, t.row.seqno, t.tag, []), fate);
  }

  lemma CutFiles(s: State, cut: CutFate)
    requires HasFile(s) && s.cur.safe <= |Cur(s.cur)| && cut != CutSynced
    ensures FilesKept(s, DoSyncFail(s, cut))
  {
    hide Settle;
    assert Cut(s.cur).hist[..|s.cur.hist|] == s.cur.hist == s.cur.hist[..|s.cur.hist|];
  }

  lemma MarkedFiles(s: State, i: nat, mark: MarkFate)
    requires HasFile(s) && i < |s.recs|
    ensures FilesKept(s, DoStarted(s, i, mark)) && FilesKept(s, DoAttemptEnded(s, i, mark)) && FilesKept(s, DoRefuse(s, i, mark))
  {
    hide WriteMarker, Grows;
    var t := s.recs[i];
    MarkFiles(s.(recs := s.recs[i := t.(row := t.row.(inflight := true))]), S, t.row.seqno, mark);
    MarkFiles(s.(recs := s.recs[i := t.(row := t.row.(inflight := false, crashes := 0))]), F, t.row.seqno, mark);
    MarkFiles(CloseRec(s, i), D, t.row.seqno, mark);
  }

  lemma ClosedFiles(s: State, i: nat, v: Verdict, mark: MarkFate)
    requires HasFile(s) && i < |s.recs|
    ensures FilesKept(s, ApplyVerdict(s, i, v, mark))
  {
    hide WriteMarker, Grows;
    var t := s.recs[i];
    if v == Poison {
      MarkFiles(s.(recs := s.recs[i := t.(row := t.row.(quarantined := true, inflight := false), deferred := NoVerdict)],
                   pending := if s.pending > 0 then s.pending - 1 else 0), Q, t.row.seqno, mark);
    } else {
      MarkFiles(CloseRec(s.(recs := s.recs[i := t.(deferred := NoVerdict)]), i), D, t.row.seqno, mark);
    }
  }

  lemma VerdictFiles(s: State, i: nat, v: Verdict, mark: MarkFate)
    requires HasFile(s) && i < |s.recs|
    ensures FilesKept(s, DoVerdict(s, i, v, mark))
  {
    hide ApplyVerdict, Grows;
    Same(s.cur);
    ClosedFiles(s, i, v, mark);
  }

  lemma AnswerFiles(s: State, c: nat, mark: MarkFate)
    requires HasFile(s) && c < |s.calls|
    ensures FilesKept(s, DoAnswerCancel(s, c, mark))
  {
    hide ApplyVerdict, Grows, Find, MadeDurable;
    Same(s.cur);
    var call := s.calls[c];
    var i := Find(Rows(s.recs), call.first);
    if i < |s.recs| {
      var t := s.recs[i].(retracting := if s.recs[i].retracting > 0 then s.recs[i].retracting - 1 else 0);
      var s2 := s.(recs := s.recs[i := t]).(calls := s.calls[c := call.(phase := ToldIo)]);
      ClosedFiles(s2, i, t.deferred, mark);
    }
  }

  /** A new journal whose name is not durable: the old one is among those replaced. */
  lemma ReplacedFiles(s: State, step: Step)
    requires Enabled(s, step) && Unsynced(step) && (step.Compact? || step.Crash?)
    ensures var s' := Do(s, step); if |s'.older| == |s.older| then FilesKept(s, s') else s'.older == s.older + [s.cur]
  {
    hide Image, Grows, Whole, RewriteAll, KeptOf, NotDone, Load, LoseAll, CountOpen, Meaning;
    Same(s.cur);
  }
}
