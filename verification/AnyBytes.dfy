/** Runs of the durable queue in which a crash may leave any bytes at all, legible or not: what holds
    of the table whatever was replayed. */
module AnyBytes {
  import opened Sequences
  import opened LittleEndian
  import opened Journal
  import opened RecordTable
  import opened Replay
  import opened Scars
  import opened Disk
  import opened GroupCommit
  import opened GroupCommitInv
  import opened CommitMarkers
  import opened CommitWrites
  import opened CommitAnswers
  import opened CommitCompact
  import opened CommitCrash
  import opened CommitTheorems

  // ---- the machine ----

  /** gptps_dq_open's table of the rows it replayed; `tags` says which call each number is put down to. */
  function LoadRows(rows: seq<Row>, tags: nat -> nat): (recs: seq<Live>)
    ensures |recs| == |rows|
    ensures forall i :: 0 <= i < |rows| ==> recs[i] == Live(OpenRow(rows[i]), tags(rows[i].seqno), false, false, 0, NoVerdict)
  {
    seq(|rows|, i requires 0 <= i < |rows| => Live(OpenRow(rows[i]), tags(rows[i].seqno), false, false, 0, NoVerdict))
  }

  /** The process dies, and the next run opens whatever replays to this table. */
  function DoOpen(s: State, t: Table, tags: nat -> nat, dirSynced: bool, reopened: bool): State {
    var calls := LoseAll(s.calls);
    var recs := LoadRows(t.rows, tags);
    var s1 := State(s.older, s.cur, true, false, false, 0, Idle, calls, recs, t.nextSeq, CountOpen(recs), s.closed, s.tainted || s.broken);
    Replace(s1, RewriteAll(KeptOf(calls, recs)), dirSynced, reopened)
  }

  datatype AnyStep = Own(step: Step) | Opens(b: seq<Byte>, tags: nat -> nat, dirSynced: bool, reopened: bool)

  ghost predicate AnyEnabled(s: State, a: AnyStep) {
    match a
    case Own(step) => !step.Crash? && Enabled(s, step)
    case Opens(b, tags, dirSynced, reopened) => ReplayOf(b).Loaded?
  }

  ghost function AnyDo(s: State, a: AnyStep): State
    requires AnyEnabled(s, a)
  {
    match a
    case Own(step) => Do(s, step)
    case Opens(b, tags, dirSynced, reopened) => DoOpen(s, ReplayOf(b).table, tags, dirSynced, reopened)
  }

  ghost predicate AnyReaches(s: State, steps: seq<AnyStep>, s': State)
    decreases |steps|
  {
    if |steps| == 0 then s == s' else AnyEnabled(s, steps[0]) && AnyReaches(AnyDo(s, steps[0]), steps[1..], s')
  }

  /** The states of every run, whatever its crashes leave. */
  ghost predicate AnyReachable(s: State) {
    exists steps :: AnyReaches(INITIAL, steps, s)
  }

  // ---- what every step keeps ----

  predicate RecFine(t: Live) {
    && (t.committing ==> !t.row.done && !t.row.quarantined)
    && (t.retracting > 0 && !t.row.done ==> !t.row.quarantined && !t.committing)
    && (t.deferred != NoVerdict && !t.row.done ==> t.retracting > 0)
  }

  ghost predicate HasOwn(recs: seq<Live>, c: nat, q: nat) {
    exists t :: t in recs && t.tag == c + 1 && t.row.seqno == q && t.committing
  }

  /** A submit in flight has its records, each still being committed; a retraction in flight is about
      none that is. */
  ghost predicate CallFine(call: Call, c: nat, recs: seq<Live>, nextSeq: nat) {
    call.phase == InFlight ==>
      && call.last < nextSeq && call.first < nextSeq
      && (call.kind == Submit ==> forall q :: call.first <= q <= call.last ==> HasOwn(recs, c, q))
      && (call.kind == Cancel ==> forall t :: t in recs && t.row.seqno == call.first ==> !t.committing)
  }

  ghost predicate CallsFine(calls: seq<Call>, recs: seq<Live>, nextSeq: nat) {
    forall c :: 0 <= c < |calls| ==> CallFine(calls[c], c, recs, nextSeq)
  }

  ghost predicate RecsFine(recs: seq<Live>, nextSeq: nat) {
    Rising(recs) && forall t :: t in recs ==> RecFine(t) && t.row.seqno < nextSeq
  }

  ghost predicate TableInv(s: State) {
    RecsFine(s.recs, s.nextSeq) && CallsFine(s.calls, s.recs, s.nextSeq) && s.pending == CountOpen(s.recs)
  }

  // ---- one record changes ----

  /** The same record as to its number, its call and whether it is being committed. */
  predicate SameKey(t: Live, t': Live) {
    t'.row.seqno == t.row.seqno && t'.tag == t.tag && t'.committing == t.committing
  }

  lemma OneRec(recs: seq<Live>, nextSeq: nat, i: nat, t': Live)
    requires RecsFine(recs, nextSeq) && i < |recs| && SameKey(recs[i], t') && RecFine(t')
    ensures RecsFine(recs[i := t'], nextSeq)
  {
    var recs' := recs[i := t'];
    forall t | t in recs' ensures RecFine(t) && t.row.seqno < nextSeq {
      var k :| 0 <= k < |recs'| && recs'[k] == t;
      assert recs[k] in recs;
    }
  }

  lemma OneCalls(calls: seq<Call>, recs: seq<Live>, nextSeq: nat, i: nat, t': Live)
    requires CallsFine(calls, recs, nextSeq) && i < |recs| && SameKey(recs[i], t')
    ensures CallsFine(calls, recs[i := t'], nextSeq)
  {
    var recs' := recs[i := t'];
    forall c | 0 <= c < |calls| ensures CallFine(calls[c], c, recs', nextSeq) {
      assert CallFine(calls[c], c, recs, nextSeq);
      forall q | HasOwn(recs, c, q) ensures HasOwn(recs', c, q) { OwnStays(recs, i, t', c, q); }
      forall t | t in recs' && t.row.seqno == calls[c].first && (forall u :: u in recs && u.row.seqno == calls[c].first ==> !u.committing)
        ensures !t.committing
      {
        var k :| 0 <= k < |recs'| && recs'[k] == t;
        assert recs[k] in recs;
      }
    }
  }

  lemma OwnStays(recs: seq<Live>, i: nat, t': Live, c: nat, q: nat)
    requires HasOwn(recs, c, q) && i < |recs| && SameKey(recs[i], t')
    ensures HasOwn(recs[i := t'], c, q)
  {
    var t :| t in recs && t.tag == c + 1 && t.row.seqno == q && t.committing;
    var k :| 0 <= k < |recs| && recs[k] == t;
    assert recs[i := t'][k] in recs[i := t'];
  }

  /** One record changed, and the count with it. */
  lemma OneChanged(s: State, i: nat, t': Live, s': State)
    requires TableInv(s) && i < |s.recs| && SameKey(s.recs[i], t') && RecFine(t')
    requires s'.recs == s.recs[i := t'] && s'.calls == s.calls && s'.nextSeq == s.nextSeq
    requires s'.pending == if IsOpen(s.recs[i]) && !IsOpen(t') then (if s.pending > 0 then s.pending - 1 else 0) else s.pending
    requires IsOpen(t') ==> IsOpen(s.recs[i])
    ensures TableInv(s')
  {
    hide RecsFine, CallsFine, SameKey, RecFine, CountOpen;
    OneRec(s.recs, s.nextSeq, i, t');
    OneCalls(s.calls, s.recs, s.nextSeq, i, t');
    CountChange(s.recs, i, t');
    if IsOpen(s.recs[i]) { CountHas(s.recs, i); }
  }

  lemma FineAt(s: State, i: nat)
    requires TableInv(s) && i < |s.recs|
    ensures RecFine(s.recs[i]) && s.recs[i].row.seqno < s.nextSeq
  {
    assert s.recs[i] in s.recs;
  }

  /** Calls settled or answered, none in flight that was not. */
  ghost predicate Fewer(calls: seq<Call>, calls': seq<Call>) {
    |calls'| == |calls| && forall c :: 0 <= c < |calls| && calls'[c].phase == InFlight ==>
      calls[c].phase == InFlight && calls'[c].kind == calls[c].kind && calls'[c].first == calls[c].first && calls'[c].last == calls[c].last
  }

  lemma FewerFine(calls: seq<Call>, calls': seq<Call>, recs: seq<Live>, nextSeq: nat)
    requires CallsFine(calls, recs, nextSeq) && Fewer(calls, calls')
    ensures CallsFine(calls', recs, nextSeq)
  {
    forall c | 0 <= c < |calls'| ensures CallFine(calls'[c], c, recs, nextSeq) { assert CallFine(calls[c], c, recs, nextSeq); }
  }

  lemma SameTable(s: State, s': State)
    requires TableInv(s) && s'.recs == s.recs && s'.nextSeq == s.nextSeq && s'.pending == s.pending && Fewer(s.calls, s'.calls)
    ensures TableInv(s')
  {
    hide RecsFine, CallsFine, CountOpen, Fewer;
    FewerFine(s.calls, s'.calls, s.recs, s.nextSeq);
  }

  // ---- the steps ----

  lemma MarkerTable(s: State, typ: Byte, seqno: nat, mark: MarkFate)
    requires HasFile(s)
    ensures var s' := WriteMarker(s, typ, seqno, mark); s' == s.(cur := s'.cur)
  {
  }

  lemma WroteTable(s: State, es: Log, call: Call, fate: WriteFate)
    requires HasFile(s)
    ensures var s' := WriteDurable(s, es, call, fate);
            && s'.recs == s.recs && s'.nextSeq == s.nextSeq && s'.pending == s.pending && |s'.calls| == |s.calls| + 1
            && s'.calls[..|s.calls|] == s.calls
            && var c := s'.calls[|s.calls|]; c.phase == call.phase && c.kind == call.kind && c.first == call.first && c.last == call.last
  {
  }

  lemma SubmitTable(s: State, items: seq<Item>, fate: WriteFate)
    requires TableInv(s) && HasFile(s) && |items| > 0
    ensures TableInv(DoSubmit(s, items, fate))
  {
    hide RecsFine, CallsFine, CountOpen, WriteDurable;
    var tag := |s.calls| + 1;
    var ts := NewLives(items, s.nextSeq, tag);
    var s1 := s.(recs := s.recs + ts, nextSeq := s.nextSeq + |items|);
    var call := NewCall(Submit, s.nextSeq, s.nextSeq + |items| - 1, 0, items);
    WroteTable(s1, PEntries(ts), call, fate);
    CommittingNotOpen(s.recs, ts);
    MoreRecs(s.recs, ts, s.nextSeq, |items|);
    MoreCalls(s, ts, |items|, DoSubmit(s, items, fate).calls);
  }

  lemma MoreRecs(recs: seq<Live>, ts: seq<Live>, nextSeq: nat, n: nat)
    requires RecsFine(recs, nextSeq) && |ts| == n
    requires forall k :: 0 <= k < n ==> ts[k].row.seqno == nextSeq + k && RecFine(ts[k])
    ensures RecsFine(recs + ts, nextSeq + n)
  {
    var all := recs + ts;
    forall t | t in all ensures RecFine(t) && t.row.seqno < nextSeq + n {
      var k :| 0 <= k < |all| && all[k] == t;
      if k < |recs| { assert recs[k] in recs; }
    }
    forall i, j | 0 <= i < j < |all| ensures all[i].row.seqno < all[j].row.seqno {
      if i < |recs| <= j { assert recs[i] in recs; }
    }
  }

  lemma MoreCalls(s: State, ts: seq<Live>, n: nat, calls': seq<Call>)
    requires CallsFine(s.calls, s.recs, s.nextSeq) && |ts| == n > 0
    requires forall k :: 0 <= k < n ==> ts[k].row.seqno == s.nextSeq + k && ts[k].tag == |s.calls| + 1 && ts[k].committing
    requires |calls'| == |s.calls| + 1 && calls'[..|s.calls|] == s.calls
    requires var c := calls'[|s.calls|]; c.kind == Submit && c.first == s.nextSeq && c.last == s.nextSeq + n - 1
    ensures CallsFine(calls', s.recs + ts, s.nextSeq + n)
  {
    var all := s.recs + ts;
    forall c | 0 <= c < |calls'| ensures CallFine(calls'[c], c, all, s.nextSeq + n) {
      if c < |s.calls| {
        assert calls'[c] == s.calls[c] && CallFine(s.calls[c], c, s.recs, s.nextSeq);
        forall q | HasOwn(s.recs, c, q) ensures HasOwn(all, c, q) {
          var t :| t in s.recs && t.tag == c + 1 && t.row.seqno == q && t.committing;
          assert t in all;
        }
      } else {
        forall q | s.nextSeq <= q <= s.nextSeq + n - 1 ensures HasOwn(all, c, q) { assert ts[q - s.nextSeq] in all; }
      }
    }
  }

  lemma CancelTable(s: State, i: nat, fate: WriteFate)
    requires TableInv(s) && Enabled(s, CancelStep(i, fate))
    ensures TableInv(DoCancel(s, i, fate))
  {
    hide RecsFine, CallsFine, CountOpen, WriteDurable;
    var t := s.recs[i];
    var t' := t.(retracting := t.retracting + 1);
    var s1 := s.(recs := s.recs[i := t']);
    FineAt(s, i);
    OneChanged(s, i, t', s1);
    var call := NewCall(Cancel, t.row.seqno, t.row.seqno, t.tag, []);
    WroteTable(s1, [Entry(Marker(D, t.row.seqno), |s.calls| + 1)], call, fate);
    OneMoreCancel(s1, i, DoCancel(s, i, fate).calls);
  }

  lemma OneMoreCancel(s: State, i: nat, calls': seq<Call>)
    requires RecsFine(s.recs, s.nextSeq) && CallsFine(s.calls, s.recs, s.nextSeq) && i < |s.recs| && !s.recs[i].committing
    requires |calls'| == |s.calls| + 1 && calls'[..|s.calls|] == s.calls
    requires var c := calls'[|s.calls|]; c.kind == Cancel && c.first == c.last == s.recs[i].row.seqno
    ensures CallsFine(calls', s.recs, s.nextSeq)
  {
    forall c | 0 <= c < |calls'| ensures CallFine(calls'[c], c, s.recs, s.nextSeq) {
      if c < |s.calls| {
        assert calls'[c] == s.calls[c] && CallFine(s.calls[c], c, s.recs, s.nextSeq);
      } else {
        assert s.recs[i] in s.recs;
        forall t | t in s.recs && t.row.seqno == s.recs[i].row.seqno ensures !t.committing {
          var k :| 0 <= k < |s.recs| && s.recs[k] == t;
        }
      }
    }
  }

  lemma AnswerSubmitTable(s: State, c: nat)
    requires TableInv(s) && c < |s.calls|
    ensures TableInv(DoAnswerSubmit(s, c))
  {
    hide RecsFine, CallsFine, CountOpen, CountCommitting, EndCommit;
    var s' := DoAnswerSubmit(s, c);
    var ok := MadeDurable(s.calls[c]);
    CommittingClean(s.recs, s.nextSeq);
    EndedCount(s.recs, c + 1, ok);
    EndedRecs(s.recs, s.nextSeq, c + 1, ok);
    EndedCalls(s, c, s'.calls, ok);
  }

  lemma CommittingClean(recs: seq<Live>, nextSeq: nat)
    requires RecsFine(recs, nextSeq)
    ensures forall k :: 0 <= k < |recs| && recs[k].committing ==> !recs[k].row.done && !recs[k].row.quarantined
  {
    forall k | 0 <= k < |recs| && recs[k].committing ensures !recs[k].row.done && !recs[k].row.quarantined { assert recs[k] in recs; }
  }

  lemma EndedRecs(recs: seq<Live>, nextSeq: nat, tag: nat, ok: bool)
    requires RecsFine(recs, nextSeq)
    ensures RecsFine(EndCommit(recs, tag, ok), nextSeq)
  {
    var ts := EndCommit(recs, tag, ok);
    forall t | t in ts ensures RecFine(t) && t.row.seqno < nextSeq {
      var k :| 0 <= k < |ts| && ts[k] == t;
      assert recs[k] in recs;
    }
  }

  lemma EndedCalls(s: State, c: nat, calls': seq<Call>, ok: bool)
    requires CallsFine(s.calls, s.recs, s.nextSeq) && c < |s.calls| && |calls'| == |s.calls| && calls'[c].phase != InFlight
    requires forall d :: 0 <= d < |s.calls| && d != c ==> calls'[d] == s.calls[d]
    ensures CallsFine(calls', EndCommit(s.recs, c + 1, ok), s.nextSeq)
  {
    var ts := EndCommit(s.recs, c + 1, ok);
    forall d | 0 <= d < |calls'| && d != c ensures CallFine(calls'[d], d, ts, s.nextSeq) {
      assert CallFine(s.calls[d], d, s.recs, s.nextSeq);
      forall q | HasOwn(s.recs, d, q) ensures HasOwn(ts, d, q) {
        var t :| t in s.recs && t.tag == d + 1 && t.row.seqno == q && t.committing;
        var k :| 0 <= k < |s.recs| && s.recs[k] == t;
        assert ts[k] in ts;
      }
      forall t | t in ts && t.committing ensures t in s.recs { var k :| 0 <= k < |ts| && ts[k] == t; }
    }
  }

  /** close_rec of an open record. */
  lemma VerdictTable(s: State, i: nat, v: Verdict, mark: MarkFate)
    requires TableInv(s) && HasFile(s) && i < |s.recs| && IsOpen(s.recs[i]) && s.recs[i].retracting == 0
    ensures TableInv(ApplyVerdict(s, i, v, mark))
  {
    hide RecsFine, CallsFine, CountOpen, WriteMarker;
    var t := s.recs[i];
    FineAt(s, i);
    if v == Poison {
      var t' := t.(row := t.row.(quarantined := true, inflight := false), deferred := NoVerdict);
      var s1 := s.(recs := s.recs[i := t'], pending := if s.pending > 0 then s.pending - 1 else 0);
      OneChanged(s, i, t', s1);
      MarkerTable(s1, Q, t.row.seqno, mark);
    } else {
      var s0 := s.(recs := s.recs[i := t.(deferred := NoVerdict)]);
      OneChanged(s, i, t.(deferred := NoVerdict), s0);
      CloseTable(s0, i);
      MarkerTable(CloseRec(s0, i), D, t.row.seqno, mark);
    }
  }

  lemma CloseTable(s: State, i: nat)
    requires TableInv(s) && i < |s.recs| && IsOpen(s.recs[i])
    ensures TableInv(CloseRec(s, i))
  {
    hide RecsFine, CallsFine, CountOpen;
    FineAt(s, i);
    OneChanged(s, i, s.recs[i].(row := s.recs[i].row.(done := true, inflight := false)), CloseRec(s, i));
  }

  lemma AnsweredFewer(calls: seq<Call>, c: nat, phase: Phase)
    requires c < |calls| && phase != InFlight
    ensures Fewer(calls, calls[c := calls[c].(phase := phase)])
  {
  }

  /** The record a retraction in flight is about is not being committed. */
  lemma NotCommitting(s: State, c: nat, i: nat)
    requires TableInv(s) && c < |s.calls| && s.calls[c].kind == Cancel && s.calls[c].phase == InFlight
    requires i < |s.recs| && s.recs[i].row.seqno == s.calls[c].first
    ensures !s.recs[i].committing
  {
    assert CallFine(s.calls[c], c, s.recs, s.nextSeq) && s.recs[i] in s.recs;
  }

  lemma AnswerCancelTable(s: State, c: nat, mark: MarkFate)
    requires TableInv(s) && Enabled(s, AnswerCancel(c, mark))
    ensures TableInv(DoAnswerCancel(s, c, mark))
  {
    hide TableInv, CountOpen, Find, ApplyVerdict, CloseRec, Fewer, RecFine;
    var call := s.calls[c];
    var i := Find(Rows(s.recs), call.first);
    AnsweredFewer(s.calls, c, ToldOk);
    AnsweredFewer(s.calls, c, ToldIo);
    var s0, s1 := s.(calls := s.calls[c := call.(phase := ToldOk)]), s.(calls := s.calls[c := call.(phase := ToldIo)]);
    SameTable(s, s0);
    SameTable(s, s1);
    if i < |s.recs| {
      NotCommitting(s, c, i);
      if MadeDurable(call) { WithdrawnTable(s0, i); } else { StandsTable(s0, s1, i, mark); }
    }
  }

  function Less(t: Live): Live {
    t.(retracting := if t.retracting > 0 then t.retracting - 1 else 0)
  }

  lemma WithdrawnTable(s: State, i: nat)
    requires TableInv(s) && i < |s.recs| && !s.recs[i].committing
    ensures var t := Less(s.recs[i]);
            var s1 := s.(recs := s.recs[i := t][i := t.(deferred := NoVerdict)]);
            TableInv(if !t.row.done && !t.row.quarantined then CloseRec(s1, i) else s1)
  {
    hide TableInv, CountOpen, CloseRec;
    var t := Less(s.recs[i]).(deferred := NoVerdict);
    FineAt(s, i);
    assert s.recs[i := Less(s.recs[i])][i := t] == s.recs[i := t];
    OneChanged(s, i, t, s.(recs := s.recs[i := t]));
    if IsOpen(t) { CloseTable(s.(recs := s.recs[i := t]), i); }
  }

  lemma StandsTable(s0: State, s1: State, i: nat, mark: MarkFate)
    requires TableInv(s0) && TableInv(s1) && HasFile(s1) && s0.recs == s1.recs && i < |s0.recs| && !s0.recs[i].committing
    ensures var t := Less(s0.recs[i]);
            && (t.row.done ==> TableInv(s0.(recs := s0.recs[i := t])))
            && (!t.row.done ==>
                  var s2 := s1.(recs := s1.recs[i := t]);
                  TableInv(if t.retracting == 0 && t.deferred != NoVerdict then ApplyVerdict(s2, i, t.deferred, mark) else s2))
  {
    hide TableInv, CountOpen, ApplyVerdict;
    var t := Less(s0.recs[i]);
    FineAt(s0, i);
    if t.row.done {
      OneChanged(s0, i, t, s0.(recs := s0.recs[i := t]));
    } else if t.retracting == 0 && t.deferred != NoVerdict {
      Applied(s1, i, t, mark);
    } else {
      OneChanged(s1, i, t, s1.(recs := s1.recs[i := t]));
    }
  }

  /** The verdict that waited takes effect. */
  lemma Applied(s: State, i: nat, t: Live, mark: MarkFate)
    requires TableInv(s) && HasFile(s) && i < |s.recs| && t == Less(s.recs[i]) && t.retracting == 0 && IsOpen(t)
    ensures TableInv(ApplyVerdict(s.(recs := s.recs[i := t]), i, t.deferred, mark))
  {
    hide TableInv, CountOpen, ApplyVerdict;
    var clear := t.(deferred := NoVerdict);
    FineAt(s, i);
    OneChanged(s, i, clear, s.(recs := s.recs[i := clear]));
    VerdictTable(s.(recs := s.recs[i := clear]), i, t.deferred, mark);
    SameVerdict(s, i, t, mark);
  }

  lemma SameVerdict(s: State, i: nat, t: Live, mark: MarkFate)
    requires HasFile(s) && i < |s.recs|
    ensures ApplyVerdict(s.(recs := s.recs[i := t]), i, t.deferred, mark)
         == ApplyVerdict(s.(recs := s.recs[i := t.(deferred := NoVerdict)]), i, t.deferred, mark)
  {
    hide WriteMarker;
    var clear := t.(deferred := NoVerdict);
    var shut := t.(row := t.row.(quarantined := true, inflight := false), deferred := NoVerdict);
    UpdateTwice(s.recs, i, t, clear);
    UpdateTwice(s.recs, i, clear, clear);
    UpdateTwice(s.recs, i, t, shut);
    UpdateTwice(s.recs, i, clear, shut);
  }

  lemma RowTable(s: State, i: nat, row: Row, typ: Byte, mark: MarkFate)
    requires TableInv(s) && HasFile(s) && i < |s.recs| && IsOpen(s.recs[i])
    requires row.seqno == s.recs[i].row.seqno && !row.done && !row.quarantined
    ensures TableInv(WriteMarker(s.(recs := s.recs[i := s.recs[i].(row := row)]), typ, row.seqno, mark))
  {
    hide CountOpen, WriteMarker;
    var s1 := s.(recs := s.recs[i := s.recs[i].(row := row)]);
    FineAt(s, i);
    OneChanged(s, i, s.recs[i].(row := row), s1);
    MarkerTable(s1, typ, row.seqno, mark);
  }

  lemma RefuseTable(s: State, i: nat, mark: MarkFate)
    requires TableInv(s) && HasFile(s) && i < |s.recs| && IsOpen(s.recs[i])
    ensures TableInv(DoRefuse(s, i, mark))
  {
    hide CountOpen, WriteMarker, RecsFine, CallsFine;
    CloseTable(s, i);
    MarkerTable(CloseRec(s, i), D, s.recs[i].row.seqno, mark);
  }

  lemma DeferTable(s: State, i: nat, v: Verdict, mark: MarkFate)
    requires TableInv(s) && HasFile(s) && i < |s.recs| && IsOpen(s.recs[i])
    ensures TableInv(DoVerdict(s, i, v, mark))
  {
    hide TableInv, CountOpen, ApplyVerdict;
    FineAt(s, i);
    if s.recs[i].retracting > 0 {
      OneChanged(s, i, s.recs[i].(deferred := v), DoVerdict(s, i, v, mark));
    } else {
      VerdictTable(s, i, v, mark);
    }
  }

  lemma DrainTable(s: State, i: nat)
    requires TableInv(s) && i < |s.recs| && s.recs[i].row.quarantined
    ensures TableInv(DoDrain(s, i))
  {
    hide CountOpen;
    FineAt(s, i);
    OneChanged(s, i, s.recs[i].(row := s.recs[i].row.(quarantined := false, done := true)), DoDrain(s, i));
  }

  /** A compaction drops closed records only. */
  lemma ReplaceTable(s: State, es: Log, dirSynced: bool, reopened: bool)
    requires TableInv(s)
    ensures TableInv(Replace(s, es, dirSynced, reopened))
  {
    hide CountOpen, NotDone;
    var s' := Replace(s, es, dirSynced, reopened);
    MemoryDropped(s.recs, reopened);
    forall c | 0 <= c < |s.calls| ensures CallFine(s.calls[c], c, s'.recs, s.nextSeq) {
      assert CallFine(s.calls[c], c, s.recs, s.nextSeq);
      forall q | HasOwn(s.recs, c, q) ensures HasOwn(s'.recs, c, q) {
        var t :| t in s.recs && t.tag == c + 1 && t.row.seqno == q && t.committing;
        assert t in s'.recs;
      }
    }
  }

  /** Whatever was replayed, the table opens in order, with nothing in flight. */
  lemma OpenTable(s: State, b: seq<Byte>, tags: nat -> nat, dirSynced: bool, reopened: bool)
    requires ReplayOf(b).Loaded?
    ensures TableInv(DoOpen(s, ReplayOf(b).table, tags, dirSynced, reopened))
  {
    hide ReplayOf, CountOpen, Replace, KeptOf, RewriteAll, OpenRow;
    var t := ReplayOf(b).table;
    var recs := LoadRows(t.rows, tags);
    var s1 := State(s.older, s.cur, true, false, false, 0, Idle, LoseAll(s.calls), recs, t.nextSeq, CountOpen(recs), s.closed, s.tainted || s.broken);
    ReplayInOrder(b);
    forall x | x in recs ensures RecFine(x) && x.row.seqno < t.nextSeq {
      var k :| 0 <= k < |recs| && recs[k] == x;
      SameNumber(t.rows[k]);
    }
    forall i, j | 0 <= i < j < |recs| ensures recs[i].row.seqno < recs[j].row.seqno {
      SameNumber(t.rows[i]);
      SameNumber(t.rows[j]);
    }
    ReplaceTable(s1, RewriteAll(KeptOf(LoseAll(s.calls), recs)), dirSynced, reopened);
  }

  lemma SameNumber(r: Row)
    ensures OpenRow(r).seqno == r.seqno
  {
  }

  lemma SyncTable(s: State, step: Step)
    requires TableInv(s) && Enabled(s, step) && (step.SyncBegin? || step.SyncOk? || step.SyncFail?)
    ensures TableInv(Do(s, step))
  {
    hide TableInv;
    SameTable(s, Do(s, step));
  }

  lemma HandTable(s: State, i: nat)
    requires TableInv(s) && i < |s.recs|
    ensures TableInv(DoHand(s, i))
  {
    hide CountOpen;
    FineAt(s, i);
    OneChanged(s, i, s.recs[i].(handed := true), DoHand(s, i));
  }

  lemma CompactTable(s: State, renamed: bool, dirSynced: bool, reopened: bool)
    requires TableInv(s)
    ensures TableInv(DoCompact(s, renamed, dirSynced, reopened))
  {
    hide CountOpen, KeptOf, RewriteAll, Replace;
    if renamed { ReplaceTable(s, RewriteAll(KeptOf(s.calls, s.recs)), dirSynced, reopened); }
  }

  lemma OwnTable(s: State, step: Step)
    requires TableInv(s) && Enabled(s, step) && !step.Crash?
    ensures TableInv(Do(s, step))
  {
    hide TableInv, DoSubmit, DoCancel, DoSyncBegin, DoSyncOk, DoSyncFail, DoAnswerSubmit, DoHand, DoRefuse, DoAnswerCancel, DoVerdict, DoDrain, DoCompact, WriteMarker, Image;
    match step
    case SubmitStep(items, fate) => SubmitTable(s, items, fate);
    case CancelStep(i, fate) => CancelTable(s, i, fate);
    case SyncBegin => SyncTable(s, step);
    case SyncOk(v) => SyncTable(s, step);
    case SyncFail(cut) => SyncTable(s, step);
    case AnswerSubmit(c) => AnswerSubmitTable(s, c);
    case Hand(i) => HandTable(s, i);
    case Refuse(i, mark) => RefuseTable(s, i, mark);
    case AnswerCancel(c, mark) => AnswerCancelTable(s, c, mark);
    case Started(i, mark) => RowTable(s, i, s.recs[i].row.(inflight := true), S, mark);
    case AttemptEnded(i, mark) => RowTable(s, i, s.recs[i].row.(inflight := false, crashes := 0), F, mark);
    case VerdictStep(i, verdict, mark) => DeferTable(s, i, verdict, mark);
    case Drain(i) => DrainTable(s, i);
    case Compact(renamed, dirSynced, reopened) => CompactTable(s, renamed, dirSynced, reopened);
  }

  lemma AnyStepTable(s: State, a: AnyStep)
    requires TableInv(s) && AnyEnabled(s, a)
    ensures TableInv(AnyDo(s, a))
  {
    hide TableInv, Enabled, Do, DoOpen, ReplayOf;
    match a
    case Own(step) => OwnTable(s, step);
    case Opens(b, tags, dirSynced, reopened) => OpenTable(s, b, tags, dirSynced, reopened);
  }

  lemma {:induction false} AnyRunTable(s: State, steps: seq<AnyStep>, s': State)
    requires TableInv(s) && AnyReaches(s, steps, s')
    ensures TableInv(s')
    decreases |steps|
  {
    hide TableInv, AnyEnabled, AnyDo;
    if |steps| > 0 {
      AnyStepTable(s, steps[0]);
      AnyRunTable(AnyDo(s, steps[0]), steps[1..], s');
    }
  }

  lemma AnyReachableTable(s: State)
    requires AnyReachable(s)
    ensures TableInv(s)
  {
    hide TableInv, AnyReaches;
    var steps :| AnyReaches(INITIAL, steps, s);
    InitialTable();
    AnyRunTable(INITIAL, steps, s);
  }

  lemma InitialTable()
    ensures TableInv(INITIAL)
  {
  }

  // ---- the runs whose crashes leave legible bytes are among these ----

  /** The crash step of the other machine opens what legible bytes replay to. */
  lemma CrashIsOpen(s: State, es: Log, t: Table, tags: nat -> nat, dirSynced: bool, reopened: bool)
    requires t == Meaning(Recs(es)) && forall q :: tags(q) == TagOf(es, q)
    ensures LoadRows(t.rows, tags) == Load(es)
    ensures DoOpen(s, t, tags, dirSynced, reopened) == DoCrash(s, es, dirSynced, reopened)
  {
    hide Meaning, OpenRow, CountOpen, KeptOf, RewriteAll, NotDone;
    assert LoadRows(t.rows, tags) == Load(es);
  }

  /** The records of a journal without its scraps. */
  function Wholes(rs: seq<Rec>): seq<Rec> {
    if |rs| == 0 then [] else Wholes(rs[..|rs| - 1]) + if rs[|rs| - 1].typ == SCRAP then [] else [rs[|rs| - 1]]
  }

  lemma {:induction false} WholesAre(rs: seq<Rec>)
    requires AllPieces(rs)
    ensures Meaning(Wholes(rs)) == Meaning(rs) && WriterMade(Wholes(rs)) && forall r :: r in Wholes(rs) ==> r in rs
    decreases |rs|
  {
    hide AllPieces, WriterMade, Meaning, Apply, TableOk, LastP, IsPiece;
    if |rs| == 0 {
      NoneMade();
    } else {
      var n := |rs| - 1;
      var front, w := rs[..n], Wholes(rs[..n]);
      FrontPieces(rs);
      MeaningLast(front, rs[n]);
      Snoc(rs);
      WholesAre(front);
      if rs[n].typ == SCRAP {
        MeaningInOrder(front);
        ScrapNumber(rs);
        NothingApplied(Meaning(front), rs[n], LastP(front));
        assert w + [] == w;
      } else {
        MeaningLast(w, rs[n]);
        MadeMore(rs, w);
      }
    }
  }

  lemma FrontPieces(rs: seq<Rec>)
    requires AllPieces(rs) && |rs| > 0
    ensures AllPieces(rs[..|rs| - 1])
  {
    hide IsPiece;
  }

  lemma MeaningLast(rs: seq<Rec>, r: Rec)
    ensures Meaning(rs + [r]) == Apply(Meaning(rs), r)
  {
    hide Apply;
    assert (rs + [r])[..|rs + [r]| - 1] == rs;
  }

  lemma MeaningInOrder(rs: seq<Rec>)
    requires AllPieces(rs)
    ensures TableOk(Meaning(rs), LastP(rs))
  {
    hide Meaning, LastP, TableOk, IsPiece, RisingPs;
    MeaningOk(rs);
  }

  lemma NoneMade()
    ensures WriterMade([])
  {
  }

  lemma ScrapNumber(rs: seq<Rec>)
    requires AllPieces(rs) && |rs| > 0 && rs[|rs| - 1].typ == SCRAP
    ensures rs[|rs| - 1].seqno == 0
  {
    assert IsPiece(rs[|rs| - 1]);
  }

  lemma MadeMore(rs: seq<Rec>, w: seq<Rec>)
    requires AllPieces(rs) && |rs| > 0 && rs[|rs| - 1].typ != SCRAP && WriterMade(w) && forall r :: r in w ==> r in rs[..|rs| - 1]
    ensures WriterMade(w + [rs[|rs| - 1]])
  {
    hide IsScrap, Writable;
    var n := |rs| - 1;
    assert IsPiece(rs[n]);
    var all := w + [rs[n]];
    forall i, j | 0 <= i < j < |all| && all[i].typ == P && all[j].typ == P ensures all[i].seqno < all[j].seqno {
      if j == |w| {
        assert w[i] in w;
        assert w[i] in rs[..n];
        var k :| 0 <= k < n && rs[k] == w[i];
      }
    }
  }

  /** Some bytes replay to whatever a crash of the other machine leaves. */
  lemma BytesFor(es: Log) returns (b: seq<Byte>)
    requires Ordered(es)
    ensures ReplayOf(b).Loaded? && ReplayOf(b).table == Meaning(Recs(es))
  {
    hide ReplayOf, Meaning, FileOf, IsPiece;
    var rs := Recs(es);
    assert AllPieces(rs);
    WholesAre(rs);
    var w := Wholes(rs);
    b := FileOf(w);
    WholeBytes(w);
  }

  lemma WholeBytes(w: seq<Rec>)
    requires WriterMade(w)
    ensures ReplayOf(FileOf(w)).Loaded? && ReplayOf(FileOf(w)).table == Meaning(w)
  {
    hide ReplayOf, Meaning, EncodeAll;
    var f := FileOf(w);
    assert f[..|f|] == f && w[..|w|] == w;
    TornTail(w, |f|, |w|);
  }

  lemma {:induction false} RunAmong(s: State, steps: seq<Step>, s': State) returns (run: seq<AnyStep>)
    requires Inv(s) && Reaches(s, steps, s')
    ensures AnyReaches(s, run, s')
    decreases |steps|
  {
    hide Inv, Enabled, Do, AnyEnabled, AnyDo;
    if |steps| == 0 {
      run := [];
    } else {
      StepInv(s, steps[0]);
      var rest := RunAmong(Do(s, steps[0]), steps[1..], s');
      var a := StepAmong(s, steps[0]);
      run := [a] + rest;
      assert run[1..] == rest;
    }
  }

  lemma StepAmong(s: State, step: Step) returns (a: AnyStep)
    requires Inv(s) && Enabled(s, step)
    ensures AnyEnabled(s, a) && AnyDo(s, a) == Do(s, step)
  {
    hide Inv, Image, Meaning, DoOpen, DoCrash, ReplayOf;
    if step.Crash? {
      var es := step.es;
      LeftOrdered(s, step.file, es);
      var b := BytesFor(es);
      var tags := (q: nat) => TagOf(es, q);
      a := Opens(b, tags, step.dirSynced, step.reopened);
      CrashIsOpen(s, es, ReplayOf(b).table, tags, step.dirSynced, step.reopened);
    } else {
      a := Own(step);
    }
  }

  lemma LeftOrdered(s: State, k: nat, es: Log)
    requires Inv(s) && k <= |s.older| && Image(FileAt(s, k), es)
    ensures Ordered(es)
  {
    hide Inv, PastOk, Ordered, Image;
    FileHolds(s, k);
    ImageSurvives(FileAt(s, k), es);
  }

  /** Every run of the other machine is one of these. */
  lemma LegibleRunsAmong(s: State)
    requires Reachable(s)
    ensures AnyReachable(s)
  {
    hide Reaches, AnyReaches, Inv;
    var steps :| Reaches(INITIAL, steps, s);
    InitialInv();
    var run := RunAmong(INITIAL, steps, s);
  }

  // ---- what holds in every run ----

  /** gptps_dq_pending always counts exactly the records that are open: not closed, not
      quarantined, and no longer being committed. */
  lemma PendingIsExact(s: State)
    requires AnyReachable(s)
    ensures s.pending == CountOpen(s.recs)
  {
    hide AnyReachable;
    AnyReachableTable(s);
  }

  /** The lookup after a submit's wait cannot miss: the binary search finds every record of the
      batch, and it is that submit's, still being committed. */
  lemma LookupCannotMiss(s: State, c: nat, q: nat)
    requires AnyReachable(s) && c < |s.calls| && s.calls[c].kind == Submit && s.calls[c].phase == InFlight
    requires s.calls[c].first <= q <= s.calls[c].last
    ensures Ascending(Rows(s.recs))
    ensures var i := Find(Rows(s.recs), q);
            i < |s.recs| && s.recs[i].tag == c + 1 && s.recs[i].committing && !s.recs[i].row.done
  {
    hide AnyReachable, CountOpen, Find;
    AnyReachableTable(s);
    RisingRows(s.recs);
    assert CallFine(s.calls[c], c, s.recs, s.nextSeq);
    assert HasOwn(s.recs, c, q);
    var t :| t in s.recs && t.tag == c + 1 && t.row.seqno == q && t.committing;
    var i :| 0 <= i < |s.recs| && s.recs[i] == t;
    AscendingFind(Rows(s.recs), i);
  }
}
