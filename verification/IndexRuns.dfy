/** The index from handle to record, beside the queue it serves: in every run it holds exactly the
    handles of the open records handed over in this run of the process. */
module IndexRuns {
  import opened Sequences
  import opened LittleEndian
  import opened Journal
  import opened RecordTable
  import opened Replay
  import opened Disk
  import opened GroupCommit
  import opened CommitCompact
  import opened AnyBytes

  /** `handles`: the handle each record handed over in this run was given, by its number, though it may be
      closed or compacted away since. `index`: what the table of handles holds. `issued`: every handle the
      engine has given out in this run. */
  datatype Indexed = Indexed(q: State, handles: map<nat, nat>, index: map<nat, nat>, issued: set<nat>)

  // ---- what the index should hold ----

  predicate Busy(t: Live) {
    IsOpen(t) && t.handed
  }

  function BusyNumbers(recs: seq<Live>): set<nat> {
    set t | t in recs && Busy(t) :: t.row.seqno
  }

  /** Exactly the handles of those numbers. */
  ghost predicate Holds(index: map<nat, nat>, busy: set<nat>, handles: map<nat, nat>) {
    && (forall h :: h in index ==> index[h] in busy && index[h] in handles && handles[index[h]] == h)
    && (forall n :: n in busy ==> n in handles && handles[n] in index && index[handles[n]] == n)
  }

  /** A record has a handle exactly if it was handed over, and no two have the same. */
  ghost predicate HandlesOk(recs: seq<Live>, nextSeq: nat, handles: map<nat, nat>, issued: set<nat>) {
    && (forall t :: t in recs ==> (t.handed <==> t.row.seqno in handles) && (t.handed ==> !t.committing))
    && (forall n :: n in handles ==> n < nextSeq && handles[n] != 0 && handles[n] in issued)
    && (forall n, m :: n in handles && m in handles && handles[n] == handles[m] ==> n == m)
  }

  ghost predicate IndexInv(d: Indexed) {
    && TableInv(d.q) && HandlesOk(d.q.recs, d.q.nextSeq, d.handles, d.issued)
    && Holds(d.index, BusyNumbers(d.q.recs), d.handles)
  }

  // ---- the machine ----

  /** The record whose handle the step takes out of the index, if any. */
  function Dropped(s: State, step: Step): Option<nat> {
    match step
    case VerdictStep(i, v, mark) => if i < |s.recs| && s.recs[i].retracting == 0 then Some(s.recs[i].row.seqno) else None
    case AnswerCancel(c, mark) => if c < |s.calls| && ClosesNow(s, c) then Some(s.calls[c].first) else None
    case _ => None
  }

  /** gptps_dq_cancel's end closes the record: withdrawn, or by the verdict that waited. */
  predicate ClosesNow(s: State, c: nat)
    requires c < |s.calls|
  {
    var i := Find(Rows(s.recs), s.calls[c].first);
    i < |s.recs| && !s.recs[i].row.done &&
    if MadeDurable(s.calls[c]) then !s.recs[i].row.quarantined
    else Less(s.recs[i]).retracting == 0 && s.recs[i].deferred != NoVerdict
  }

  /** map_del of the record's handle. */
  function Without(index: map<nat, nat>, handles: map<nat, nat>, gone: Option<nat>): map<nat, nat> {
    if gone.Some? && gone.value in handles then index - {handles[gone.value]} else index
  }

  function StillBusy(busy: set<nat>, gone: Option<nat>): set<nat> {
    if gone.Some? then busy - {gone.value} else busy
  }

  /** `h`: the handle the engine gives, if the step hands a record over. */
  ghost predicate IndexedEnabled(d: Indexed, a: AnyStep, h: nat) {
    AnyEnabled(d.q, a) && (Hands(a) ==> h != 0 && h !in d.issued)
  }

  predicate Hands(a: AnyStep) {
    a.Own? && a.step.Hand?
  }

  ghost function IndexedDo(d: Indexed, a: AnyStep, h: nat): Indexed
    requires IndexedEnabled(d, a, h)
  {
    var q' := AnyDo(d.q, a);
    if a.Opens? then Indexed(q', map[], map[], {})
    else if a.step.Hand? then
      var n := d.q.recs[a.step.i].row.seqno;
      Indexed(q', d.handles[n := h], d.index[h := n], d.issued + {h})
    else d.(q := q', index := Without(d.index, d.handles, Dropped(d.q, a.step)))
  }

  ghost predicate IndexedReaches(d: Indexed, steps: seq<(AnyStep, nat)>, d': Indexed)
    decreases |steps|
  {
    if |steps| == 0 then d == d'
    else IndexedEnabled(d, steps[0].0, steps[0].1) && IndexedReaches(IndexedDo(d, steps[0].0, steps[0].1), steps[1..], d')
  }

  const FRESH: Indexed := Indexed(INITIAL, map[], map[], {})

  // ---- how the busy records change ----

  lemma BusyAt(recs: seq<Live>, i: nat, t': Live)
    requires Rising(recs) && i < |recs| && t'.row.seqno == recs[i].row.seqno
    ensures BusyNumbers(recs[i := t']) == BusyNumbers(recs) - {recs[i].row.seqno} + (if Busy(t') then {recs[i].row.seqno} else {})
  {
    var recs' := recs[i := t'];
    var n, b, b' := recs[i].row.seqno, BusyNumbers(recs), BusyNumbers(recs[i := t']);
    forall x | x in b' ensures x in b - {n} + (if Busy(t') then {n} else {}) {
      var t :| t in recs' && Busy(t) && t.row.seqno == x;
      var k :| 0 <= k < |recs'| && recs'[k] == t;
      if k != i { assert recs[k] in recs; }
    }
    forall x | x in b && x != n ensures x in b' {
      var t :| t in recs && Busy(t) && t.row.seqno == x;
      var k :| 0 <= k < |recs| && recs[k] == t;
      assert recs'[k] in recs';
    }
    assert recs'[i] in recs';
  }

  lemma BusyStays(recs: seq<Live>, i: nat, t': Live)
    requires Rising(recs) && i < |recs| && t'.row.seqno == recs[i].row.seqno && Busy(t') == Busy(recs[i])
    ensures BusyNumbers(recs[i := t']) == BusyNumbers(recs)
  {
    hide BusyNumbers;
    BusyAt(recs, i, t');
    BusyAt(recs, i, recs[i]);
    assert recs[i := recs[i]] == recs;
  }

  lemma BusyMore(recs: seq<Live>, ts: seq<Live>)
    requires forall k :: 0 <= k < |ts| ==> ts[k].committing
    ensures BusyNumbers(recs + ts) == BusyNumbers(recs)
  {
    var all := recs + ts;
    forall t | t in all && Busy(t) ensures t in recs { var k :| 0 <= k < |all| && all[k] == t; }
    assert forall t :: t in recs ==> t in all;
  }

  lemma BusyPart(recs: seq<Live>, recs': seq<Live>)
    requires PartOf(recs, recs')
    ensures BusyNumbers(recs') == BusyNumbers(recs)
  {
  }

  lemma BusyEnded(recs: seq<Live>, tag: nat, ok: bool)
    requires forall t :: t in recs && t.handed ==> !t.committing
    ensures BusyNumbers(EndCommit(recs, tag, ok)) == BusyNumbers(recs)
  {
    var ts := EndCommit(recs, tag, ok);
    forall x | x in BusyNumbers(ts) ensures x in BusyNumbers(recs) {
      var t :| t in ts && Busy(t) && t.row.seqno == x;
      var k :| 0 <= k < |ts| && ts[k] == t;
      assert recs[k] in recs;
    }
    forall x | x in BusyNumbers(recs) ensures x in BusyNumbers(ts) {
      var t :| t in recs && Busy(t) && t.row.seqno == x;
      var k :| 0 <= k < |recs| && recs[k] == t;
      assert ts[k] in ts;
    }
  }

  /** Every record is as it was as to its number and its hand-over, or is new. */
  ghost predicate Like(recs: seq<Live>, recs': seq<Live>, nextSeq: nat) {
    forall t' :: t' in recs' ==> (!t'.handed && t'.row.seqno >= nextSeq) || exists t :: t in recs && Alike(t, t')
  }

  predicate Alike(t: Live, t': Live) {
    t'.row.seqno == t.row.seqno && t'.handed == t.handed && (t'.committing ==> t.committing)
  }

  lemma LikeAt(recs: seq<Live>, i: nat, t': Live, nextSeq: nat)
    requires i < |recs| && Alike(recs[i], t')
    ensures Like(recs, recs[i := t'], nextSeq)
  {
    var recs' := recs[i := t'];
    forall x | x in recs' ensures exists t :: t in recs && Alike(t, x) {
      var k :| 0 <= k < |recs'| && recs'[k] == x;
      assert recs[k] in recs && Alike(recs[k], x);
    }
  }

  lemma LikeSelf(recs: seq<Live>, nextSeq: nat)
    ensures Like(recs, recs, nextSeq)
  {
    assert forall t :: t in recs ==> Alike(t, t);
  }

  lemma LikePart(recs: seq<Live>, recs': seq<Live>, nextSeq: nat)
    requires PartOf(recs, recs')
    ensures Like(recs, recs', nextSeq)
  {
    assert forall t :: t in recs ==> Alike(t, t);
  }

  lemma LikeMore(recs: seq<Live>, ts: seq<Live>, nextSeq: nat)
    requires forall k :: 0 <= k < |ts| ==> !ts[k].handed && ts[k].row.seqno >= nextSeq
    ensures Like(recs, recs + ts, nextSeq)
  {
    var all := recs + ts;
    forall t | t in all ensures (!t.handed && t.row.seqno >= nextSeq) || (t in recs && Alike(t, t)) { var k :| 0 <= k < |all| && all[k] == t; }
  }

  lemma LikeEnded(recs: seq<Live>, tag: nat, ok: bool, nextSeq: nat)
    ensures Like(recs, EndCommit(recs, tag, ok), nextSeq)
  {
    var ts := EndCommit(recs, tag, ok);
    forall x | x in ts ensures exists t :: t in recs && Alike(t, x) {
      var k :| 0 <= k < |ts| && ts[k] == x;
      assert recs[k] in recs && Alike(recs[k], x);
    }
  }

  lemma LikeHandles(recs: seq<Live>, recs': seq<Live>, nextSeq: nat, nextSeq': nat, handles: map<nat, nat>, issued: set<nat>)
    requires HandlesOk(recs, nextSeq, handles, issued) && Like(recs, recs', nextSeq) && nextSeq <= nextSeq'
    ensures HandlesOk(recs', nextSeq', handles, issued)
  {
  }

  /** What the step leaves: the records it had, busy as they were but for the one it drops. */
  ghost predicate Follows(s: State, s': State, gone: Option<nat>) {
    Like(s.recs, s'.recs, s.nextSeq) && s.nextSeq <= s'.nextSeq && BusyNumbers(s'.recs) == StillBusy(BusyNumbers(s.recs), gone)
  }

  lemma FollowsAt(s: State, i: nat, t': Live, s': State, gone: Option<nat>)
    requires Rising(s.recs) && i < |s.recs| && Alike(s.recs[i], t') && s'.recs == s.recs[i := t'] && s'.nextSeq == s.nextSeq
    requires gone == None || gone == Some(s.recs[i].row.seqno)
    requires if gone.Some? then !Busy(t') else Busy(t') == Busy(s.recs[i])
    ensures Follows(s, s', gone)
  {
    hide BusyNumbers, Like, Rising;
    LikeAt(s.recs, i, t', s.nextSeq);
    if gone.Some? { BusyAt(s.recs, i, t'); } else { BusyStays(s.recs, i, t'); }
  }

  lemma FollowsSame(s: State, s': State)
    requires s'.recs == s.recs && s'.nextSeq == s.nextSeq
    ensures Follows(s, s', None)
  {
    LikeSelf(s.recs, s.nextSeq);
  }

  lemma FollowsSubmit(s: State, items: seq<Item>, fate: WriteFate)
    requires HasFile(s) && |items| > 0
    ensures Follows(s, DoSubmit(s, items, fate), None)
  {
    hide BusyNumbers, Like, WriteDurable;
    var ts := NewLives(items, s.nextSeq, |s.calls| + 1);
    WroteTable(s.(recs := s.recs + ts, nextSeq := s.nextSeq + |items|), PEntries(ts),
               NewCall(Submit, s.nextSeq, s.nextSeq + |items| - 1, 0, items), fate);
    LikeMore(s.recs, ts, s.nextSeq);
    BusyMore(s.recs, ts);
  }

  lemma FollowsCancel(s: State, i: nat, fate: WriteFate)
    requires HasFile(s) && i < |s.recs| && Rising(s.recs)
    ensures Follows(s, DoCancel(s, i, fate), None)
  {
    hide Follows, WriteDurable, Rising;
    var t := s.recs[i];
    var t' := t.(retracting := t.retracting + 1);
    WroteTable(s.(recs := s.recs[i := t']), [Entry(Marker(D, t.row.seqno), |s.calls| + 1)],
               NewCall(Cancel, t.row.seqno, t.row.seqno, t.tag, []), fate);
    FollowsAt(s, i, t', DoCancel(s, i, fate), None);
  }

  lemma FollowsAnswer(s: State, c: nat)
    requires c < |s.calls| && forall t :: t in s.recs && t.handed ==> !t.committing
    ensures Follows(s, DoAnswerSubmit(s, c), None)
  {
    hide BusyNumbers, Like, EndCommit, CountCommitting;
    LikeEnded(s.recs, c + 1, MadeDurable(s.calls[c]), s.nextSeq);
    BusyEnded(s.recs, c + 1, MadeDurable(s.calls[c]));
  }

  /** close_rec: the verdict drops its record. */
  lemma FollowsVerdict(s: State, i: nat, t: Live, v: Verdict, mark: MarkFate, s': State)
    requires HasFile(s) && i < |s.recs| && Rising(s.recs) && Alike(s.recs[i], t)
    requires s' == ApplyVerdict(s.(recs := s.recs[i := t]), i, v, mark)
    ensures Follows(s, s', Some(s.recs[i].row.seqno))
  {
    hide Follows, WriteMarker, Rising;
    var shut := t.(row := t.row.(quarantined := true, inflight := false), deferred := NoVerdict);
    var clear := t.(deferred := NoVerdict);
    var gone := clear.(row := t.row.(done := true, inflight := false));
    var s0 := s.(recs := s.recs[i := t]);
    UpdateTwice(s.recs, i, t, shut);
    UpdateTwice(s.recs, i, t, clear);
    UpdateTwice(s.recs, i, clear, gone);
    if v == Poison {
      MarkerTable(s0.(recs := s.recs[i := shut], pending := if s.pending > 0 then s.pending - 1 else 0), Q, t.row.seqno, mark);
      FollowsAt(s, i, shut, s', Some(s.recs[i].row.seqno));
    } else {
      MarkerTable(CloseRec(s.(recs := s.recs[i := clear]), i), D, t.row.seqno, mark);
      FollowsAt(s, i, gone, s', Some(s.recs[i].row.seqno));
    }
  }

  lemma FollowsDecided(s: State, i: nat, v: Verdict, mark: MarkFate)
    requires HasFile(s) && i < |s.recs| && Rising(s.recs) && IsOpen(s.recs[i])
    ensures Follows(s, DoVerdict(s, i, v, mark), Dropped(s, VerdictStep(i, v, mark)))
  {
    hide Follows, ApplyVerdict, Rising;
    if s.recs[i].retracting > 0 {
      FollowsAt(s, i, s.recs[i].(deferred := v), DoVerdict(s, i, v, mark), None);
    } else {
      assert s.recs[i := s.recs[i]] == s.recs;
      FollowsVerdict(s, i, s.recs[i], v, mark, DoVerdict(s, i, v, mark));
    }
  }

  lemma FollowsRetraction(s: State, c: nat, mark: MarkFate)
    requires TableInv(s) && Enabled(s, AnswerCancel(c, mark))
    ensures Follows(s, DoAnswerCancel(s, c, mark), Dropped(s, AnswerCancel(c, mark)))
  {
    hide Follows, ApplyVerdict, Rising, Find, Image, CallsFine, CountOpen, RecFine;
    var call, s' := s.calls[c], DoAnswerCancel(s, c, mark);
    var i := Find(Rows(s.recs), call.first);
    if i == |s.recs| {
      FollowsSame(s, s');
    } else {
      FineAt(s, i);
      if MadeDurable(call) { FollowsWithdrawn(s, c, i, s'); } else { FollowsStanding(s, c, i, mark, s'); }
    }
  }

  lemma FollowsWithdrawn(s: State, c: nat, i: nat, s': State)
    requires HasFile(s) && Rising(s.recs) && c < |s.calls| && i == Find(Rows(s.recs), s.calls[c].first) < |s.recs| && MadeDurable(s.calls[c])
    requires s' == DoAnswerCancel(s, c, MarkOk)
    ensures Follows(s, s', if ClosesNow(s, c) then Some(s.calls[c].first) else None)
  {
    hide Follows, Rising, Find;
    var t := Less(s.recs[i]).(deferred := NoVerdict);
    var gone := t.(row := t.row.(done := true, inflight := false));
    UpdateTwice(s.recs, i, Less(s.recs[i]), t);
    UpdateTwice(s.recs, i, t, gone);
    if ClosesNow(s, c) { FollowsAt(s, i, gone, s', Some(s.calls[c].first)); } else { FollowsAt(s, i, t, s', None); }
  }

  lemma FollowsStanding(s: State, c: nat, i: nat, mark: MarkFate, s': State)
    requires HasFile(s) && Rising(s.recs) && c < |s.calls| && i == Find(Rows(s.recs), s.calls[c].first) < |s.recs| && !MadeDurable(s.calls[c])
    requires s' == DoAnswerCancel(s, c, mark)
    ensures Follows(s, s', if ClosesNow(s, c) then Some(s.calls[c].first) else None)
  {
    hide Follows, Rising, Find, ApplyVerdict;
    var t := Less(s.recs[i]);
    if ClosesNow(s, c) {
      var s1 := s.(calls := s.calls[c := s.calls[c].(phase := ToldIo)]);
      FollowsVerdict(s1, i, t, t.deferred, mark, s');
      SameFollows(s1, s, s', Some(s.calls[c].first));
    } else {
      FollowsAt(s, i, t, s', None);
    }
  }

  lemma SameFollows(s1: State, s: State, s': State, gone: Option<nat>)
    requires Follows(s1, s', gone) && s1.recs == s.recs && s1.nextSeq == s.nextSeq
    ensures Follows(s, s', gone)
  {
  }

  lemma FollowsRow(s: State, i: nat, row: Row, typ: Byte, mark: MarkFate)
    requires HasFile(s) && Rising(s.recs) && i < |s.recs| && IsOpen(s.recs[i]) && row.seqno == s.recs[i].row.seqno && !row.done && !row.quarantined
    ensures Follows(s, WriteMarker(s.(recs := s.recs[i := s.recs[i].(row := row)]), typ, row.seqno, mark), None)
  {
    hide Follows, WriteMarker, Rising;
    var s1 := s.(recs := s.recs[i := s.recs[i].(row := row)]);
    MarkerTable(s1, typ, row.seqno, mark);
    FollowsAt(s, i, s.recs[i].(row := row), WriteMarker(s1, typ, row.seqno, mark), None);
  }

  lemma FollowsRefuse(s: State, i: nat, mark: MarkFate)
    requires HasFile(s) && Rising(s.recs) && i < |s.recs| && !s.recs[i].handed
    ensures Follows(s, DoRefuse(s, i, mark), None)
  {
    hide Follows, WriteMarker, Rising;
    MarkerTable(CloseRec(s, i), D, s.recs[i].row.seqno, mark);
    FollowsAt(s, i, s.recs[i].(row := s.recs[i].row.(done := true, inflight := false)), DoRefuse(s, i, mark), None);
  }

  lemma FollowsDrain(s: State, i: nat)
    requires Rising(s.recs) && i < |s.recs| && s.recs[i].row.quarantined
    ensures Follows(s, DoDrain(s, i), None)
  {
    hide Follows, Rising;
    FollowsAt(s, i, s.recs[i].(row := s.recs[i].row.(quarantined := false, done := true)), DoDrain(s, i), None);
  }

  lemma FollowsCompact(s: State, renamed: bool, dirSynced: bool, reopened: bool)
    requires Rising(s.recs)
    ensures Follows(s, DoCompact(s, renamed, dirSynced, reopened), None)
  {
    hide BusyNumbers, Like, Rising, NotDone, KeptOf, RewriteAll;
    MemoryDropped(s.recs, reopened);
    LikeSelf(s.recs, s.nextSeq);
    LikePart(s.recs, DoCompact(s, renamed, dirSynced, reopened).recs, s.nextSeq);
    BusyPart(s.recs, DoCompact(s, renamed, dirSynced, reopened).recs);
  }

  lemma StepFollows(s: State, step: Step)
    requires TableInv(s) && Enabled(s, step) && !step.Crash? && !step.Hand? && forall t :: t in s.recs && t.handed ==> !t.committing
    ensures Follows(s, Do(s, step), Dropped(s, step))
  {
    hide Follows, Rising, CallsFine, CountOpen, RecFine, Image, ClosesNow, DoSubmit, DoCancel, DoAnswerSubmit, DoRefuse, DoAnswerCancel, DoVerdict, DoDrain, DoCompact, WriteMarker;
    match step
    case SubmitStep(items, fate) => FollowsSubmit(s, items, fate);
    case CancelStep(i, fate) => FollowsCancel(s, i, fate);
    case SyncBegin => FollowsSame(s, Do(s, step));
    case SyncOk(v) => FollowsSame(s, Do(s, step));
    case SyncFail(cut) => FollowsSame(s, Do(s, step));
    case AnswerSubmit(c) => FollowsAnswer(s, c);
    case Refuse(i, mark) => FollowsRefuse(s, i, mark);
    case AnswerCancel(c, mark) => FollowsRetraction(s, c, mark);
    case Started(i, mark) => FollowsRow(s, i, s.recs[i].row.(inflight := true), S, mark);
    case AttemptEnded(i, mark) => FollowsRow(s, i, s.recs[i].row.(inflight := false, crashes := 0), F, mark);
    case VerdictStep(i, verdict, mark) => FollowsDecided(s, i, verdict, mark);
    case Drain(i) => FollowsDrain(s, i);
    case Compact(renamed, dirSynced, reopened) => FollowsCompact(s, renamed, dirSynced, reopened);
  }

  // ---- what every step keeps ----

  lemma DropHolds(index: map<nat, nat>, busy: set<nat>, handles: map<nat, nat>, gone: Option<nat>)
    requires Holds(index, busy, handles) && forall n, m :: n in handles && m in handles && handles[n] == handles[m] ==> n == m
    ensures Holds(Without(index, handles, gone), StillBusy(busy, gone), handles)
  {
  }

  lemma GiveHolds(index: map<nat, nat>, busy: set<nat>, handles: map<nat, nat>, issued: set<nat>, n: nat, h: nat)
    requires Holds(index, busy, handles) && n !in handles && h !in issued && forall m :: m in handles ==> handles[m] in issued
    ensures Holds(index[h := n], busy + {n}, handles[n := h])
  {
    assert h !in index;
    forall m | m in busy + {n} ensures m in handles[n := h] && handles[n := h][m] in index[h := n] && index[h := n][handles[n := h][m]] == m {
      if m != n { assert handles[m] in index; }
    }
  }

  lemma HandsOne(d: Indexed, i: nat, h: nat)
    requires IndexInv(d) && i < |d.q.recs| && IsOpen(d.q.recs[i]) && !d.q.recs[i].handed && h != 0 && h !in d.issued
    ensures var n := d.q.recs[i].row.seqno;
            IndexInv(Indexed(DoHand(d.q, i), d.handles[n := h], d.index[h := n], d.issued + {h}))
  {
    hide TableInv, Holds, BusyNumbers, HandlesOk;
    var n, q' := d.q.recs[i].row.seqno, DoHand(d.q, i);
    var t' := d.q.recs[i].(handed := true);
    HandTable(d.q, i);
    InOrder(d.q);
    FineAt(d.q, i);
    Unhanded(d, i);
    BusyAt(d.q.recs, i, t');
    var busy := BusyNumbers(d.q.recs);
    assert busy - {n} + {n} == busy + {n};
    GiveHolds(d.index, BusyNumbers(d.q.recs), d.handles, d.issued, n, h);
    HandsHandles(d, i, h);
  }

  lemma InOrder(s: State)
    requires TableInv(s)
    ensures Rising(s.recs)
  {
  }

  lemma Unhanded(d: Indexed, i: nat)
    requires HandlesOk(d.q.recs, d.q.nextSeq, d.handles, d.issued) && i < |d.q.recs| && !d.q.recs[i].handed
    ensures d.q.recs[i].row.seqno !in d.handles && forall m :: m in d.handles ==> d.handles[m] in d.issued
  {
    assert d.q.recs[i] in d.q.recs;
  }

  lemma HandsHandles(d: Indexed, i: nat, h: nat)
    requires TableInv(d.q) && HandlesOk(d.q.recs, d.q.nextSeq, d.handles, d.issued)
    requires i < |d.q.recs| && IsOpen(d.q.recs[i]) && !d.q.recs[i].handed && h != 0 && h !in d.issued
    ensures HandlesOk(DoHand(d.q, i).recs, d.q.nextSeq, d.handles[d.q.recs[i].row.seqno := h], d.issued + {h})
  {
    hide CallsFine, CountOpen, RecFine;
    var recs, n := d.q.recs, d.q.recs[i].row.seqno;
    var recs' := DoHand(d.q, i).recs;
    assert recs[i] in recs;
    forall t | t in recs' ensures (t.handed <==> t.row.seqno in d.handles[n := h]) && (t.handed ==> !t.committing) {
      var k :| 0 <= k < |recs'| && recs'[k] == t;
      assert recs[k] in recs;
    }
  }

  lemma OpensNone(rows: seq<Row>, tags: nat -> nat)
    ensures forall t :: t in LoadRows(rows, tags) ==> !t.handed
  {
    var recs := LoadRows(rows, tags);
    forall t | t in recs ensures !t.handed { var k :| 0 <= k < |recs| && recs[k] == t; }
  }

  lemma OpensIndex(s: State, t: Table, tags: nat -> nat, dirSynced: bool, reopened: bool)
    ensures forall x :: x in DoOpen(s, t, tags, dirSynced, reopened).recs ==> !x.handed
  {
    hide KeptOf, RewriteAll, CountOpen;
    OpensNone(t.rows, tags);
    NotDoneHas(LoadRows(t.rows, tags));
  }

  lemma NobodyHanded(q: State)
    requires TableInv(q) && forall t :: t in q.recs ==> !t.handed
    ensures IndexInv(Indexed(q, map[], map[], {}))
  {
    hide TableInv;
  }

  lemma IndexedStepInv(d: Indexed, a: AnyStep, h: nat)
    requires IndexInv(d) && IndexedEnabled(d, a, h)
    ensures IndexInv(IndexedDo(d, a, h))
  {
    hide TableInv, HandlesOk, Holds, Enabled, Do, DoOpen, DoHand, ReplayOf, Dropped, BusyNumbers;
    AnyStepTable(d.q, a);
    if a.Opens? {
      OpensIndex(d.q, ReplayOf(a.b).table, a.tags, a.dirSynced, a.reopened);
      NobodyHanded(AnyDo(d.q, a));
    } else if a.step.Hand? {
      HandEnabled(d.q, a.step);
      HandsOne(d, a.step.i, h);
    } else {
      HandedCommitted(d);
      StepFollows(d.q, a.step);
      KeptIndex(d, Do(d.q, a.step), Dropped(d.q, a.step));
    }
  }

  lemma HandEnabled(s: State, step: Step)
    requires Enabled(s, step) && step.Hand?
    ensures step.i < |s.recs| && IsOpen(s.recs[step.i]) && !s.recs[step.i].handed && Do(s, step) == DoHand(s, step.i)
  {
  }

  lemma HandedCommitted(d: Indexed)
    requires HandlesOk(d.q.recs, d.q.nextSeq, d.handles, d.issued)
    ensures forall t :: t in d.q.recs && t.handed ==> !t.committing
  {
  }

  lemma KeptIndex(d: Indexed, q': State, gone: Option<nat>)
    requires IndexInv(d) && Follows(d.q, q', gone) && TableInv(q')
    ensures IndexInv(d.(q := q', index := Without(d.index, d.handles, gone)))
  {
    hide TableInv, Like, BusyNumbers, Holds, Without;
    LikeHandles(d.q.recs, q'.recs, d.q.nextSeq, q'.nextSeq, d.handles, d.issued);
    DropHolds(d.index, BusyNumbers(d.q.recs), d.handles, gone);
  }

  lemma {:induction false} IndexedRunInv(d: Indexed, steps: seq<(AnyStep, nat)>, d': Indexed)
    requires IndexInv(d) && IndexedReaches(d, steps, d')
    ensures IndexInv(d')
    decreases |steps|
  {
    hide IndexInv, IndexedEnabled, IndexedDo;
    if |steps| > 0 {
      IndexedStepInv(d, steps[0].0, steps[0].1);
      IndexedRunInv(IndexedDo(d, steps[0].0, steps[0].1), steps[1..], d');
    }
  }

  lemma FreshInv()
    ensures IndexInv(FRESH)
  {
    hide TableInv;
    InitialTable();
  }

  // ---- find_open ----

  /** The open record the handle belongs to, or |recs|. */
  function FindOpen(recs: seq<Live>, index: map<nat, nat>, h: nat): nat {
    if h !in index then |recs|
    else
      var i := Find(Rows(recs), index[h]);
      if i < |recs| && !recs[i].row.done && !recs[i].row.quarantined then i else |recs|
  }

  /** The record at `i` is open, and this is the handle it was given. */
  predicate Owns(recs: seq<Live>, handles: map<nat, nat>, i: nat, h: nat) {
    i < |recs| && IsOpen(recs[i]) && recs[i].handed && recs[i].row.seqno in handles && handles[recs[i].row.seqno] == h
  }

  lemma FindOpenExact(d: Indexed, h: nat)
    requires IndexInv(d)
    ensures var i := FindOpen(d.q.recs, d.index, h); i <= |d.q.recs| && (i < |d.q.recs| ==> Owns(d.q.recs, d.handles, i, h))
    ensures forall i :: Owns(d.q.recs, d.handles, i, h) ==> FindOpen(d.q.recs, d.index, h) == i
  {
    hide CallsFine, CountOpen, RecFine, Find;
    var recs := d.q.recs;
    if h in d.index {
      var t :| t in recs && Busy(t) && t.row.seqno == d.index[h];
      var k :| 0 <= k < |recs| && recs[k] == t;
      FindRising(recs, k);
    }
    forall i: nat | Owns(recs, d.handles, i, h) ensures FindOpen(recs, d.index, h) == i {
      assert recs[i] in recs && recs[i].row.seqno in BusyNumbers(recs);
      FindRising(recs, i);
    }
  }

  lemma FindRising(recs: seq<Live>, k: nat)
    requires Rising(recs) && k < |recs|
    ensures Find(Rows(recs), recs[k].row.seqno) == k
  {
    RisingRows(recs);
    AscendingFind(Rows(recs), k);
  }

  /** In every run, whatever its crashes leave, the index holds exactly the handles of the open records
      handed over in this run of the process, each to its own record; and so an event's handle finds its
      record while that is open, finds nothing after, and never finds another. */
  lemma EventsFindTheirRecord(steps: seq<(AnyStep, nat)>, d: Indexed, h: nat)
    requires IndexedReaches(FRESH, steps, d)
    ensures Holds(d.index, BusyNumbers(d.q.recs), d.handles)
    ensures var i := FindOpen(d.q.recs, d.index, h); i <= |d.q.recs| && (i < |d.q.recs| ==> Owns(d.q.recs, d.handles, i, h))
    ensures forall i :: Owns(d.q.recs, d.handles, i, h) ==> FindOpen(d.q.recs, d.index, h) == i
  {
    hide IndexedReaches, TableInv, FindOpen;
    FreshInv();
    IndexedRunInv(FRESH, steps, d);
    FindOpenExact(d, h);
  }
}
