/** The durable queue's group commit as a state machine. Each step is what one thread does
    under the locks it holds at once, so every interleaving of submitters, retractions, engine
    events, fsyncs, compactions and crashes is some sequence of these steps. */
module GroupCommit {
  import opened LittleEndian
  import opened Journal
  import opened RecordTable
  import opened Disk

  // ---- durable calls ----

  datatype Item = Item(name: seq<Byte>, payload: seq<Byte>)

  datatype Kind = Submit | Cancel

  /** write_durable's answers 0, -1 and -2. */
  datatype Wrote = Written | CutBack | Nothing

  datatype Settled = Waiting | Durable | Failed

  /** `Lost`: the process died before the call could answer. */
  datatype Phase = InFlight | ToldOk | ToldIo | Lost

  /** A gptps_dq_submit or _submit_batch of the records first..last, or a gptps_dq_cancel of the
      record `first` that the call tagged `target` submitted. A call's tag is its place, from 1.
      `items`: what a submit carries; `pos`: where its records begin; `cutAt`: the content in which its cut first shows. */
  datatype Call = Call(kind: Kind, first: nat, last: nat, target: nat, items: seq<Item>,
                       wrote: Wrote, settled: Settled, phase: Phase, pos: nat, cutAt: nat)

  predicate WaitingNow(c: Call) {
    c.phase == InFlight && c.wrote != Nothing && c.settled == Waiting
  }

  /** Nothing left to wait for: the caller may go on. */
  predicate MayAnswer(c: Call) {
    c.phase == InFlight && (c.wrote == Nothing || c.settled != Waiting)
  }

  predicate MadeDurable(c: Call) {
    c.wrote == Written && c.settled == Durable
  }

  /** Whatever the call wrote has been taken back out. */
  predicate Out(c: Call) {
    c.wrote == Nothing || c.settled == Failed || (c.wrote == CutBack && c.settled == Durable)
  }

  // ---- records ----

  datatype Verdict = NoVerdict | Gone | Poison

  /** A dq_rec: its persistent row, the submit that made it, and what belongs to this run. */
  datatype Live = Live(row: Row, tag: nat, handed: bool, committing: bool, retracting: nat, deferred: Verdict)

  predicate IsOpen(t: Live) {
    !t.row.done && !t.row.quarantined && !t.committing
  }

  function Rows(recs: seq<Live>): (rows: seq<Row>)
    ensures |rows| == |recs| && forall i :: 0 <= i < |recs| ==> rows[i] == recs[i].row
  {
    seq(|recs|, i requires 0 <= i < |recs| => recs[i].row)
  }

  function PEntry(t: Live): Entry {
    Entry(PRec(t.row), t.tag)
  }

  function CountOpen(recs: seq<Live>): nat {
    if |recs| == 0 then 0 else CountOpen(recs[..|recs| - 1]) + if IsOpen(recs[|recs| - 1]) then 1 else 0
  }

  /** A durable retraction of the record `seqno` of call `tag` is on its way to its answer. */
  predicate Retracts(c: Call, tag: nat, seqno: nat) {
    c.kind == Cancel && c.target == tag && c.first == seqno
  }

  function CountRetracting(calls: seq<Call>, tag: nat, seqno: nat): nat {
    if |calls| == 0 then 0
    else
      var c := calls[|calls| - 1];
      CountRetracting(calls[..|calls| - 1], tag, seqno) + if Retracts(c, tag, seqno) && c.phase == InFlight then 1 else 0
  }

  // ---- the queue ----

  /** A running fsync: the calls it covers, the records and the content that were there when
      it began, and whether it includes the directory. */
  datatype Sync = Idle | Running(upto: nat, end: nat, begin: nat, dir: bool)

  /** `cur`: the journal; `older`: every file its name can still come back to after a crash.
      `closed`: the records a verdict, a refusal, a drain or a retraction has closed.
      `tainted`: a crash has struck a broken queue. */
  datatype State = State(older: seq<File>, cur: File, open: bool, broken: bool, dirDirty: bool, lastEnd: nat, sync: Sync,
                         calls: seq<Call>, recs: seq<Live>, nextSeq: nat, pending: nat,
                         closed: set<(nat, nat)>, tainted: bool)

  predicate HasFile(s: State) {
    |s.cur.hist| > 0
  }

  /** The files a crash may leave under the journal's name. */
  function FileAt(s: State, k: nat): File {
    if k < |s.older| then s.older[k] else s.cur
  }

  predicate AnyWaiting(calls: seq<Call>) {
    exists i :: 0 <= i < |calls| && WaitingNow(calls[i])
  }

  /** How a write went: whole, cut back out, or neither, its first `n` bytes still there. */
  datatype WriteFate = WriteOk | WriteCut | WriteStuck(n: nat)
  datatype MarkFate = MarkOk | MarkCut | MarkStuck(n: nat)
  datatype CutFate = CutSynced | CutUnsynced | NotCut

  datatype Step =
    | SubmitStep(items: seq<Item>, fate: WriteFate)
    | CancelStep(i: nat, fate: WriteFate)
    | SyncBegin
    | SyncOk(v: nat)
    | SyncFail(cut: CutFate)
    | AnswerSubmit(c: nat)
    | Hand(i: nat)
    | Refuse(i: nat, mark: MarkFate)
    | AnswerCancel(c: nat, mark: MarkFate)
    | Started(i: nat, mark: MarkFate)
    | AttemptEnded(i: nat, mark: MarkFate)
    | VerdictStep(i: nat, verdict: Verdict, mark: MarkFate)
    | Drain(i: nat)
    | Compact(renamed: bool, dirSynced: bool, reopened: bool)
    | Crash(file: nat, es: Log, dirSynced: bool, reopened: bool)

  ghost predicate Enabled(s: State, step: Step) {
    HasFile(s) && s.cur.safe <= |Cur(s.cur)| &&
    match step
    case SubmitStep(items, fate) =>
      && |items| > 0 && s.nextSeq + |items| - 1 <= MAX_SEQ
      && forall k :: 0 <= k < |items| ==> |items[k].name| <= MAX_NAME && |items[k].payload| <= MAX_PAYLOAD
    case CancelStep(i, fate) => i < |s.recs| && IsOpen(s.recs[i]) && s.recs[i].handed
    case SyncBegin => s.sync == Idle && AnyWaiting(s.calls)
    case SyncOk(v) => s.sync.Running? && s.open && s.sync.begin <= v < |s.cur.hist|
    case SyncFail(cut) => s.sync.Running? && (s.open || cut == NotCut)
    case AnswerSubmit(c) => c < |s.calls| && s.calls[c].kind == Submit && MayAnswer(s.calls[c])
    case Hand(i) => i < |s.recs| && IsOpen(s.recs[i]) && !s.recs[i].handed
    case Refuse(i, mark) => i < |s.recs| && IsOpen(s.recs[i]) && !s.recs[i].handed
    case AnswerCancel(c, mark) => c < |s.calls| && s.calls[c].kind == Cancel && MayAnswer(s.calls[c])
    case Started(i, mark) => i < |s.recs| && IsOpen(s.recs[i]) && s.recs[i].handed
    case AttemptEnded(i, mark) => i < |s.recs| && IsOpen(s.recs[i]) && s.recs[i].handed && s.recs[i].row.inflight
    case VerdictStep(i, verdict, mark) => i < |s.recs| && IsOpen(s.recs[i]) && s.recs[i].handed && verdict != NoVerdict
    case Drain(i) => i < |s.recs| && s.recs[i].row.quarantined && !s.recs[i].row.done
    case Compact(renamed, dirSynced, reopened) => s.sync == Idle && !AnyWaiting(s.calls)
    case Crash(file, es, dirSynced, reopened) => file <= |s.older| && Image(FileAt(s, file), es)
  }

  // ---- journal writes ----

  /** write_durable / write_durable_batch: append `es`, and register the call. */
  function WriteDurable(s: State, es: Log, call: Call, fate: WriteFate): State
    requires HasFile(s)
  {
    var f := s.cur;
    if !s.open || s.broken then s.(calls := s.calls + [call.(wrote := Nothing)])
    else match fate
    case WriteOk =>
      s.(cur := Extend(f, es, false), lastEnd := |Cur(f)| + |es|, calls := s.calls + [call.(wrote := Written, pos := |Cur(f)|)])
    case WriteCut =>
      s.(cur := Extend(f, es, true), calls := s.calls + [call.(wrote := CutBack, cutAt := |f.hist| + 1)])
    case WriteStuck =>
      s.(cur := Extend(f, Part(es, fate.n), false), broken := true, calls := s.calls + [call.(wrote := Nothing)])
  }

  /** What a marker's write leaves to be kept or cut back out. */
  function Marked(e: Entry, mark: MarkFate): Log {
    if mark.MarkStuck? then Left(e, mark.n) else [e]
  }

  /** append_marker: written, or cut back out, or neither, or lost. A stuck one does not break the
      queue: it goes on writing after the scrap. */
  function WriteMarker(s: State, typ: Byte, seqno: nat, mark: MarkFate): State
    requires HasFile(s)
  {
    if !s.open || s.broken then s
    else s.(cur := Extend(s.cur, Marked(Entry(Marker(typ, seqno), 0), mark), mark == MarkCut))
  }

  function NewCall(kind: Kind, first: nat, last: nat, target: nat, items: seq<Item>): Call {
    Call(kind, first, last, target, items, Nothing, Waiting, InFlight, 0, 0)
  }

  // ---- submit and cancel ----

  function NewLives(items: seq<Item>, first: nat, tag: nat): (ts: seq<Live>)
    ensures |ts| == |items|
    ensures forall k :: 0 <= k < |items| ==>
      ts[k] == Live(Row(first + k, items[k].name, items[k].payload, false, false, false, 0), tag, false, true, 0, NoVerdict)
  {
    seq(|items|, k requires 0 <= k < |items| =>
      Live(Row(first + k, items[k].name, items[k].payload, false, false, false, 0), tag, false, true, 0, NoVerdict))
  }

  function PEntries(ts: seq<Live>): (es: Log)
    ensures |es| == |ts| && forall k :: 0 <= k < |ts| ==> es[k] == PEntry(ts[k])
  {
    seq(|ts|, k requires 0 <= k < |ts| => PEntry(ts[k]))
  }

  function DoSubmit(s: State, items: seq<Item>, fate: WriteFate): State
    requires HasFile(s) && |items| > 0
  {
    var ts := NewLives(items, s.nextSeq, |s.calls| + 1);
    var s1 := s.(recs := s.recs + ts, nextSeq := s.nextSeq + |items|);
    WriteDurable(s1, PEntries(ts), NewCall(Submit, s.nextSeq, s.nextSeq + |items| - 1, 0, items), fate)
  }

  function DoCancel(s: State, i: nat, fate: WriteFate): State
    requires HasFile(s) && i < |s.recs|
  {
    var t := s.recs[i];
    var s1 := s.(recs := s.recs[i := t.(retracting := t.retracting + 1)]);
    WriteDurable(s1, [Entry(Marker(D, t.row.seqno), |s.calls| + 1)],
                 NewCall(Cancel, t.row.seqno, t.row.seqno, t.tag, []), fate)
  }

  // ---- the fsync ----

  function DoSyncBegin(s: State): State
    requires HasFile(s)
  {
    s.(sync := Running(|s.calls|, s.lastEnd, |s.cur.hist| - 1, s.dirDirty))
  }

  /** settle: every call among the first `upto` still waiting has ended so. */
  function Settle(calls: seq<Call>, upto: nat, how: Settled): (cs: seq<Call>)
    ensures |cs| == |calls|
    ensures forall i :: 0 <= i < |calls| ==>
      cs[i] == if i < upto && WaitingNow(calls[i]) then calls[i].(settled := how) else calls[i]
  {
    seq(|calls|, i requires 0 <= i < |calls| =>
      if i < upto && WaitingNow(calls[i]) then calls[i].(settled := how) else calls[i])
  }

  function DoSyncOk(s: State, v: nat): State
    requires HasFile(s) && s.sync.Running?
  {
    s.(cur := Raise(s.cur, v, s.sync.end), older := if s.sync.dir then [] else s.older,
       dirDirty := s.dirDirty && !s.sync.dir,
       calls := Settle(s.calls, s.sync.upto, Durable), sync := Idle)
  }

  function DoSyncFail(s: State, cut: CutFate): State
    requires HasFile(s) && s.cur.safe <= |Cur(s.cur)|
  {
    var f := s.cur;
    var g := match cut case CutSynced => CutDurably(f) case CutUnsynced => Cut(f) case NotCut => f;
    s.(cur := g, broken := s.broken || cut != CutSynced, lastEnd := f.safe,
       calls := Settle(s.calls, |s.calls|, Failed), sync := Idle)
  }

  // ---- answering ----

  /** The batch's records, as their submit ends. */
  function EndCommit(recs: seq<Live>, tag: nat, ok: bool): (ts: seq<Live>)
    ensures |ts| == |recs|
    ensures forall i :: 0 <= i < |recs| ==>
      ts[i] == if recs[i].tag == tag && recs[i].committing
               then recs[i].(committing := false, row := recs[i].row.(done := recs[i].row.done || !ok)) else recs[i]
  {
    seq(|recs|, i requires 0 <= i < |recs| =>
      if recs[i].tag == tag && recs[i].committing
      then recs[i].(committing := false, row := recs[i].row.(done := recs[i].row.done || !ok)) else recs[i])
  }

  /** The records a submit is still making durable. */
  function CountCommitting(recs: seq<Live>, tag: nat): nat {
    if |recs| == 0 then 0
    else
      var t := recs[|recs| - 1];
      CountCommitting(recs[..|recs| - 1], tag) + if t.tag == tag && t.committing then 1 else 0
  }

  function DoAnswerSubmit(s: State, c: nat): State
    requires c < |s.calls|
  {
    var call := s.calls[c];
    var ok := MadeDurable(call);
    s.(recs := EndCommit(s.recs, c + 1, ok),
       pending := s.pending + if ok then CountCommitting(s.recs, c + 1) else 0,
       calls := s.calls[c := call.(phase := if ok then ToldOk else ToldIo)])
  }

  function DoHand(s: State, i: nat): State
    requires i < |s.recs|
  {
    s.(recs := s.recs[i := s.recs[i].(handed := true)])
  }

  function Rid(t: Live): (nat, nat) { (t.tag, t.row.seqno) }

  /** The record at `i` closed for good. */
  function CloseRec(s: State, i: nat): State
    requires i < |s.recs|
  {
    var t := s.recs[i];
    s.(recs := s.recs[i := t.(row := t.row.(done := true, inflight := false))],
       pending := if s.pending > 0 then s.pending - 1 else 0, closed := s.closed + {Rid(t)})
  }

  function DoRefuse(s: State, i: nat, mark: MarkFate): State
    requires HasFile(s) && i < |s.recs|
  {
    WriteMarker(CloseRec(s, i), D, s.recs[i].row.seqno, mark)
  }

  /** close_rec: the verdict takes effect. */
  function ApplyVerdict(s: State, i: nat, v: Verdict, mark: MarkFate): State
    requires HasFile(s) && i < |s.recs|
  {
    var t := s.recs[i];
    if v == Poison then
      WriteMarker(s.(recs := s.recs[i := t.(row := t.row.(quarantined := true, inflight := false), deferred := NoVerdict)],
                     pending := if s.pending > 0 then s.pending - 1 else 0), Q, t.row.seqno, mark)
    else
      WriteMarker(CloseRec(s.(recs := s.recs[i := t.(deferred := NoVerdict)]), i), D, t.row.seqno, mark)
  }

  /** gptps_dq_cancel once its write is settled. */
  function DoAnswerCancel(s: State, c: nat, mark: MarkFate): State
    requires HasFile(s) && c < |s.calls|
  {
    var call := s.calls[c];
    var i := Find(Rows(s.recs), call.first);
    if i == |s.recs| then s.(calls := s.calls[c := call.(phase := ToldOk)])
    else
      var t := s.recs[i].(retracting := if s.recs[i].retracting > 0 then s.recs[i].retracting - 1 else 0);
      var s1 := s.(recs := s.recs[i := t]);
      if MadeDurable(call) then
        var s2 := s1.(recs := s1.recs[i := t.(deferred := NoVerdict)], calls := s.calls[c := call.(phase := ToldOk)]);
        if !t.row.done && !t.row.quarantined then CloseRec(s2, i) else s2
      else if t.row.done then s1.(calls := s.calls[c := call.(phase := ToldOk)])
      else
        var s2 := s1.(calls := s.calls[c := call.(phase := ToldIo)]);
        if t.retracting == 0 && t.deferred != NoVerdict then ApplyVerdict(s2, i, t.deferred, mark) else s2
  }

  // ---- engine events ----

  function DoStarted(s: State, i: nat, mark: MarkFate): State
    requires HasFile(s) && i < |s.recs|
  {
    var t := s.recs[i];
    WriteMarker(s.(recs := s.recs[i := t.(row := t.row.(inflight := true))]), S, t.row.seqno, mark)
  }

  function DoAttemptEnded(s: State, i: nat, mark: MarkFate): State
    requires HasFile(s) && i < |s.recs|
  {
    var t := s.recs[i];
    WriteMarker(s.(recs := s.recs[i := t.(row := t.row.(inflight := false, crashes := 0))]), F, t.row.seqno, mark)
  }

  /** close_or_defer. */
  function DoVerdict(s: State, i: nat, v: Verdict, mark: MarkFate): State
    requires HasFile(s) && i < |s.recs|
  {
    var t := s.recs[i];
    if t.retracting > 0 then s.(recs := s.recs[i := t.(deferred := v)]) else ApplyVerdict(s, i, v, mark)
  }

  function DoDrain(s: State, i: nat): State
    requires i < |s.recs|
  {
    var t := s.recs[i];
    s.(recs := s.recs[i := t.(row := t.row.(quarantined := false, done := true))], closed := s.closed + {Rid(t)})
  }

  // ---- compaction ----

  /** A retraction of `t` in flight has been made durable. */
  predicate RetractedDurably(calls: seq<Call>, t: Live) {
    exists c :: 0 <= c < |calls| && calls[c].phase == InFlight && Retracts(calls[c], t.tag, t.row.seqno) && MadeDurable(calls[c])
  }

  /** do_rewrite writes the record: it is not closed, its submit if unanswered became durable,
      and no unanswered retraction of it did. */
  predicate Kept(calls: seq<Call>, t: Live) {
    && !t.row.done
    && (t.committing ==> 1 <= t.tag <= |calls| && MadeDurable(calls[t.tag - 1]))
    && !RetractedDurably(calls, t)
  }

  function KeptOf(calls: seq<Call>, recs: seq<Live>): seq<Live> {
    if |recs| == 0 then []
    else KeptOf(calls, recs[..|recs| - 1]) + if Kept(calls, recs[|recs| - 1]) then [recs[|recs| - 1]] else []
  }

  /** The entries do_rewrite writes for one record: its 'P', then its marks. */
  function RewriteEntries(t: Live): (es: Log)
    ensures |es| >= 1 && es[0] == PEntry(t)
    ensures |es| == |RewriteRow(t.row)| && forall i :: 0 <= i < |es| ==> es[i].rec == RewriteRow(t.row)[i]
    ensures forall i :: 1 <= i < |es| ==> es[i].tag == 0
  {
    var rs := RewriteRow(t.row);
    seq(|rs|, i requires 0 <= i < |rs| => Entry(rs[i], if i == 0 then t.tag else 0))
  }

  function RewriteAll(ts: seq<Live>): Log {
    if |ts| == 0 then [] else RewriteAll(ts[..|ts| - 1]) + RewriteEntries(ts[|ts| - 1])
  }

  function NotDone(recs: seq<Live>): seq<Live> {
    if |recs| == 0 then []
    else NotDone(recs[..|recs| - 1]) + if recs[|recs| - 1].row.done then [] else [recs[|recs| - 1]]
  }

  /** The new journal in place of the old: named durably or not, reopened or not. */
  function Replace(s: State, es: Log, dirSynced: bool, reopened: bool): State {
    s.(older := if dirSynced then [] else s.older + [s.cur], cur := Whole(es), dirDirty := !dirSynced, lastEnd := |es|,
       open := reopened, broken := if !reopened then true else s.broken && !dirSynced,
       recs := if reopened then NotDone(s.recs) else s.recs)
  }

  function DoCompact(s: State, renamed: bool, dirSynced: bool, reopened: bool): State {
    if renamed then Replace(s, RewriteAll(KeptOf(s.calls, s.recs)), dirSynced, reopened)
    else if s.open && !reopened then s.(open := false, broken := true)
    else s
  }

  // ---- crash and reopen ----

  const SUSPECT_AT: nat := 2
  const QUARANTINE_AT: nat := 3

  /** What gptps_dq_open does to a row it loaded: an attempt that never ended was running when
      the process died. */
  function OpenRow(r: Row): Row {
    if r.done || r.quarantined then r
    else
      var crashes := if r.inflight && r.crashes < 0xFFFF_FFFF then r.crashes + 1 else r.crashes;
      r.(inflight := false, crashes := crashes, quarantined := crashes >= QUARANTINE_AT)
  }

  /** The call that wrote the 'P' numbered `seqno`. */
  function TagOf(es: Log, seqno: nat): nat {
    if |es| == 0 then 0
    else if es[|es| - 1].rec.typ == P && es[|es| - 1].rec.seqno == seqno then es[|es| - 1].tag
    else TagOf(es[..|es| - 1], seqno)
  }

  function Load(es: Log): (recs: seq<Live>)
    ensures |recs| == |Meaning(Recs(es)).rows|
    ensures forall i :: 0 <= i < |recs| ==>
      var r := Meaning(Recs(es)).rows[i];
      recs[i] == Live(OpenRow(r), TagOf(es, r.seqno), false, false, 0, NoVerdict)
  {
    var rows := Meaning(Recs(es)).rows;
    seq(|rows|, i requires 0 <= i < |rows| => Live(OpenRow(rows[i]), TagOf(es, rows[i].seqno), false, false, 0, NoVerdict))
  }

  /** The calls the crash cut off. */
  function LoseAll(calls: seq<Call>): (cs: seq<Call>)
    ensures |cs| == |calls|
    ensures forall i :: 0 <= i < |calls| ==>
      cs[i] == if calls[i].phase == InFlight then calls[i].(phase := Lost) else calls[i]
  {
    seq(|calls|, i requires 0 <= i < |calls| =>
      if calls[i].phase == InFlight then calls[i].(phase := Lost) else calls[i])
  }

  /** The crash leaves `es`; the next run opens it: replays it, and compacts. If only the process
      died, what it read need not be on disk yet: so until the new journal's name is durable, every
      file there was may come back, in any content it could have been left with. */
  function DoCrash(s: State, es: Log, dirSynced: bool, reopened: bool): State {
    var calls := LoseAll(s.calls);
    var recs := Load(es);
    var s1 := State(s.older, s.cur, true, false, false, |es|, Idle, calls, recs, Meaning(Recs(es)).nextSeq,
                    CountOpen(recs), s.closed, s.tainted || s.broken);
    Replace(s1, RewriteAll(KeptOf(calls, recs)), dirSynced, reopened)
  }

  ghost function Do(s: State, step: Step): State
    requires Enabled(s, step)
  {
    match step
    case SubmitStep(items, fate) => DoSubmit(s, items, fate)
    case CancelStep(i, fate) => DoCancel(s, i, fate)
    case SyncBegin => DoSyncBegin(s)
    case SyncOk(v) => DoSyncOk(s, v)
    case SyncFail(cut) => DoSyncFail(s, cut)
    case AnswerSubmit(c) => DoAnswerSubmit(s, c)
    case Hand(i) => DoHand(s, i)
    case Refuse(i, mark) => DoRefuse(s, i, mark)
    case AnswerCancel(c, mark) => DoAnswerCancel(s, c, mark)
    case Started(i, mark) => DoStarted(s, i, mark)
    case AttemptEnded(i, mark) => DoAttemptEnded(s, i, mark)
    case VerdictStep(i, verdict, mark) => DoVerdict(s, i, verdict, mark)
    case Drain(i) => DoDrain(s, i)
    case Compact(renamed, dirSynced, reopened) => DoCompact(s, renamed, dirSynced, reopened)
    case Crash(file, es, dirSynced, reopened) => DoCrash(s, es, dirSynced, reopened)
  }

  /** A new queue over an empty journal. */
  const INITIAL: State := State([], Whole([]), true, false, false, 0, Idle, [], [], 1, 0, {}, false)

  /** States the machine reaches. */
  ghost predicate Reaches(s: State, steps: seq<Step>, s': State)
    decreases |steps|
  {
    if |steps| == 0 then s == s'
    else Enabled(s, steps[0]) && Reaches(Do(s, steps[0]), steps[1..], s')
  }
}
