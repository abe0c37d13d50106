/** How many suspects the engine has at a time, those whose records have been withdrawn meanwhile
    included. A retraction ends its suspect's turn before the engine is told to stop the execution,
    so the next suspect can be handed over beside it. */
module CrashLoopTurns {
  import opened Sequences
  import opened LittleEndian
  import opened Journal
  import opened RecordTable
  import opened Disk
  import opened GroupCommit
  import opened GroupCommitInv
  import opened CommitMarkers
  import opened CommitAnswers
  import opened CommitCompact
  import opened CrashLoop
  import opened CrashLoopInv
  import opened CrashLoopRuns

  /** `tried`: the records handed over in a turn in this run of the process, but for those an attempt
      of which has been seen to end since: they are suspects no more. */
  datatype Watch = Watch(g: Guard, tried: set<Id>)

  const OPENING: Watch := Watch(START, {})

  /** The suspects in the engine's hands, whether their records are open or not. */
  function InHand(w: Watch): set<Id> {
    w.g.exec * w.tried
  }

  ghost predicate AtMostOne(w: Watch) {
    forall a, b :: a in InHand(w) && b in InHand(w) ==> a == b
  }

  /** `tried`, up to the end of the record's turn. */
  ghost function KeptTried(w: Watch, m: Move): set<Id>
    requires MainEnabled(w.g, m)
  {
    match m
    case Fail(i, own, retried, next) => w.tried - {Rid(w.g.q.recs[i])}
    case Die(dirSynced) => {}
    case _ => w.tried
  }

  /** The suspects still in the engine's hands when the next one's turn comes. */
  ghost function LeftOver(w: Watch, m: Move): set<Id>
    requires MainEnabled(w.g, m)
  {
    Main(w.g, m).exec * KeptTried(w, m)
  }

  ghost function TurnOf(w: Watch, m: Move): set<Id>
    requires MoveEnabled(w.g, m)
  {
    if NextOf(m).Turn? then
      TakenIsThere(w.g, m);
      {Rid(Main(w.g, m).q.recs[NextOf(m).i])}
    else {}
  }

  lemma TakenIsThere(g: Guard, m: Move)
    requires MoveEnabled(g, m) && NextOf(m).Turn?
    ensures var g1, i := Main(g, m), NextOf(m).i; i < |g1.q.recs| && Candidate(g1.q.recs[i]) && g1.trial == Over(g, m)
    ensures Act(g, m) == TakeNext(Main(g, m).(trial := 0), NextOf(m))
  {
    hide MainEnabled, Main, Over, DoHand;
  }

  ghost function After(w: Watch, m: Move): Watch
    requires MoveEnabled(w.g, m)
  {
    Watch(Act(w.g, m), KeptTried(w, m) + TurnOf(w, m))
  }

  ghost predicate Watches(w: Watch, ms: seq<Move>, w': Watch)
    decreases |ms|
  {
    if |ms| == 0 then w == w' else MoveEnabled(w.g, ms[0]) && Watches(After(w, ms[0]), ms[1..], w')
  }

  /** To watch a run changes nothing of it. */
  lemma {:induction false} WatchedRun(w: Watch, ms: seq<Move>, w': Watch)
    requires Watches(w, ms, w')
    ensures Leads(w.g, ms, w'.g)
    decreases |ms|
  {
    hide MoveEnabled, Act, KeptTried, TurnOf;
    if |ms| > 0 { WatchedRun(After(w, ms[0]), ms[1..], w'); }
  }

  /** Every run can be watched. */
  lemma {:induction false} RunWatched(w: Watch, ms: seq<Move>, g: Guard) returns (w': Watch)
    requires Leads(w.g, ms, g)
    ensures Watches(w, ms, w') && w'.g == g
    decreases |ms|
  {
    hide MoveEnabled, Act, KeptTried, TurnOf;
    if |ms| == 0 { w' := w; } else { w' := RunWatched(After(w, ms[0]), ms[1..], g); }
  }

  // ---- what every move keeps ----

  ghost predicate TriedOne(t: Live, tried: set<Id>) {
    Rid(t) in tried ==> t.handed && !t.committing && (IsOpen(t) ==> Suspect(t))
  }

  ghost predicate Tried(recs: seq<Live>, tried: set<Id>) {
    forall i :: 0 <= i < |recs| ==> TriedOne(recs[i], tried)
  }

  ghost predicate Known(tried: set<Id>, n: nat) {
    forall id :: id in tried ==> id.0 <= n
  }

  ghost predicate WatchInv(w: Watch) {
    GuardInv(w.g) && Tried(w.g.q.recs, w.tried) && Known(w.tried, |w.g.q.calls|)
  }

  /** The same record, no nearer to being a suspect's. */
  predicate Same(t: Live, t': Live) {
    && Rid(t') == Rid(t) && (t.handed ==> t'.handed) && t'.row.crashes == t.row.crashes
    && (!t.committing ==> !t'.committing && (IsOpen(t') ==> IsOpen(t)))
  }

  /** Every tried record was there before. */
  ghost predicate Follows(recs: seq<Live>, recs': seq<Live>, tried: set<Id>) {
    forall t' :: t' in recs' && Rid(t') in tried ==> exists t :: t in recs && Same(t, t')
  }

  lemma FollowTried(recs: seq<Live>, recs': seq<Live>, tried: set<Id>)
    requires Tried(recs, tried) && Follows(recs, recs', tried)
    ensures Tried(recs', tried)
  {
    forall k | 0 <= k < |recs'| ensures TriedOne(recs'[k], tried) {
      if Rid(recs'[k]) in tried {
        assert recs'[k] in recs';
        var t :| t in recs && Same(t, recs'[k]);
        var j :| 0 <= j < |recs| && recs[j] == t;
        assert TriedOne(recs[j], tried);
      }
    }
  }

  lemma FollowOne(recs: seq<Live>, i: nat, t': Live, tried: set<Id>)
    requires i < |recs| && (Same(recs[i], t') || (Rid(t') == Rid(recs[i]) && Rid(t') !in tried))
    ensures Follows(recs, recs[i := t'], tried)
  {
    var recs' := recs[i := t'];
    forall x | x in recs' && Rid(x) in tried ensures exists t :: t in recs && Same(t, x) {
      var k :| 0 <= k < |recs'| && recs'[k] == x;
      assert recs[k] in recs && Same(recs[k], x);
    }
  }

  lemma FollowSelf(recs: seq<Live>, tried: set<Id>)
    ensures Follows(recs, recs, tried)
  {
    assert forall t :: t in recs ==> Same(t, t);
  }

  lemma FollowNew(recs: seq<Live>, ts: seq<Live>, tried: set<Id>, n: nat)
    requires Known(tried, n) && forall t :: t in ts ==> t.tag > n
    ensures Follows(recs, recs + ts, tried)
  {
    assert forall t :: t in recs ==> Same(t, t);
  }

  lemma FollowPart(recs: seq<Live>, recs': seq<Live>, tried: set<Id>)
    requires PartOf(recs, recs')
    ensures Follows(recs, recs', tried)
  {
    assert forall t :: t in recs ==> Same(t, t);
  }

  lemma FollowEnd(recs: seq<Live>, tag: nat, ok: bool, tried: set<Id>)
    requires Tried(recs, tried)
    ensures Follows(recs, EndCommit(recs, tag, ok), tried)
  {
    var recs' := EndCommit(recs, tag, ok);
    forall x | x in recs' && Rid(x) in tried ensures exists t :: t in recs && Same(t, x) {
      var k :| 0 <= k < |recs'| && recs'[k] == x;
      assert TriedOne(recs[k], tried);
      assert recs[k] in recs && Same(recs[k], x);
    }
  }

  lemma SubmitFollows(q: State, items: seq<Item>, fate: WriteFate, tried: set<Id>)
    requires HasFile(q) && |items| > 0 && Known(tried, |q.calls|)
    ensures Follows(q.recs, DoSubmit(q, items, fate).recs, tried) && |q.calls| <= |DoSubmit(q, items, fate).calls|
  {
    hide Follows, WriteDurable, Known;
    var ts := NewLives(items, q.nextSeq, |q.calls| + 1);
    FollowNew(q.recs, ts, tried, |q.calls|);
    WroteRecs(q.(recs := q.recs + ts, nextSeq := q.nextSeq + |items|), PEntries(ts),
              NewCall(Submit, q.nextSeq, q.nextSeq + |items| - 1, 0, items), fate);
  }

  lemma CancelFollows(q: State, i: nat, fate: WriteFate, tried: set<Id>)
    requires HasFile(q) && i < |q.recs|
    ensures Follows(q.recs, DoCancel(q, i, fate).recs, tried) && |q.calls| <= |DoCancel(q, i, fate).calls|
  {
    hide Follows, WriteDurable;
    var t' := q.recs[i].(retracting := q.recs[i].retracting + 1);
    FollowOne(q.recs, i, t', tried);
    WroteRecs(q.(recs := q.recs[i := t']), [Entry(Marker(D, t'.row.seqno), |q.calls| + 1)],
              NewCall(Cancel, t'.row.seqno, t'.row.seqno, t'.tag, []), fate);
  }

  lemma QuietFollows(g: Guard, step: Step, tried: set<Id>)
    requires GuardInv(g) && Lossless(step) && Enabled(g.q, step) && Tried(g.q.recs, tried) && Known(tried, |g.q.calls|)
    ensures Follows(g.q.recs, Do(g.q, step).recs, tried) && |g.q.calls| <= |Do(g.q, step).calls|
  {
    hide GuardInv, Tried, Follows, Image, WriteMarker, DoSubmit, DoCancel, EndCommit, KeptOf, RewriteAll, NotDone, PartOf, Same, Known;
    var q := g.q;
    FollowSelf(q.recs, tried);
    match step {
      case SubmitStep(items, fate) => SubmitFollows(q, items, fate, tried);
      case CancelStep(j, fate) => CancelFollows(q, j, fate, tried);
      case SyncBegin =>
      case SyncOk(v) =>
      case AnswerSubmit(c) => FollowEnd(q.recs, c + 1, MadeDurable(q.calls[c]), tried);
      case Refuse(i, mark) =>
        SameStill(q.recs[i], CloseRec(q, i).recs[i]);
        FollowOne(q.recs, i, CloseRec(q, i).recs[i], tried);
        MarkerOnly(CloseRec(q, i), D, q.recs[i].row.seqno, mark);
      case Drain(i) =>
        SameStill(q.recs[i], DoDrain(q, i).recs[i]);
        FollowOne(q.recs, i, DoDrain(q, i).recs[i], tried);
      case Compact(renamed, dirSynced, reopened) =>
        DroppedOnly(q.recs);
        FollowPart(q.recs, NotDone(q.recs), tried);
      case _ =>
    }
  }

  lemma SameStill(t: Live, t': Live)
    requires Rid(t') == Rid(t) && t'.handed == t.handed && t'.row.crashes == t.row.crashes && t'.committing == t.committing
    requires IsOpen(t') ==> IsOpen(t)
    ensures Same(t, t')
  {
  }

  lemma WroteRecs(s: State, es: Log, call: Call, fate: WriteFate)
    requires HasFile(s)
    ensures WriteDurable(s, es, call, fate).recs == s.recs && |WriteDurable(s, es, call, fate).calls| == |s.calls| + 1
  {
    hide Extend, Part;
  }

  lemma MarkerOnly(s: State, typ: Byte, seqno: nat, mark: MarkFate)
    requires HasFile(s)
    ensures var s' := WriteMarker(s, typ, seqno, mark); s'.recs == s.recs && s'.calls == s.calls && HasFile(s')
  {
  }

  lemma DroppedOnly(recs: seq<Live>)
    ensures PartOf(recs, NotDone(recs))
  {
    NotDoneHas(recs);
  }

  lemma VerdictFollows(q: State, i: nat, v: Verdict, tried: set<Id>)
    requires HasFile(q) && i < |q.recs|
    ensures var q' := DoVerdict(q, i, v, MarkOk); Follows(q.recs, q'.recs, tried) && q'.calls == q.calls
  {
    hide WriteMarker, Follows, Same;
    var t := q.recs[i];
    if t.retracting > 0 {
      SameStill(t, t.(deferred := v));
      FollowOne(q.recs, i, t.(deferred := v), tried);
    } else {
      AppliedFollows(q, i, v, tried);
    }
  }

  lemma AppliedFollows(q: State, i: nat, v: Verdict, tried: set<Id>)
    requires HasFile(q) && i < |q.recs|
    ensures var q' := ApplyVerdict(q, i, v, MarkOk); Follows(q.recs, q'.recs, tried) && q'.calls == q.calls
  {
    hide WriteMarker, Follows, Same;
    var t := q.recs[i];
    if v == Poison {
      var t' := t.(row := t.row.(quarantined := true, inflight := false), deferred := NoVerdict);
      SameStill(t, t');
      FollowOne(q.recs, i, t', tried);
      MarkerOnly(q.(recs := q.recs[i := t'], pending := if q.pending > 0 then q.pending - 1 else 0), Q, t.row.seqno, MarkOk);
    } else {
      var t1 := t.(deferred := NoVerdict);
      var t' := t1.(row := t1.row.(done := true, inflight := false));
      SameStill(t, t');
      FollowOne(q.recs, i, t', tried);
      UpdateTwice(q.recs, i, t1, t');
      MarkerOnly(CloseRec(q.(recs := q.recs[i := t1]), i), D, t.row.seqno, MarkOk);
    }
  }

  lemma WithdrawFollows(g: Guard, c: nat, tried: set<Id>)
    requires GuardInv(g) && c < |g.q.calls| && g.q.calls[c].kind == Cancel && MayAnswer(g.q.calls[c])
    ensures HasFile(g.q)
    ensures var q' := DoAnswerCancel(g.q, c, MarkOk); Follows(g.q.recs, q'.recs, tried) && |q'.calls| == |g.q.calls|
  {
    hide Inv, Mirror, Counted, Trials, Heard, Follows, Same, DoAnswerCancel, Find;
    var q := g.q;
    var i := Find(Rows(q.recs), q.calls[c].first);
    InvHasFile(q);
    FollowSelf(q.recs, tried);
    if i == |q.recs| {
      WithdrawnGone(q, c);
    } else {
      FoundRec(q, c, i);
      FoundState(q.recs[i], q.calls, q.nextSeq, q.tainted);
      Withdrawn(q, c, i);
      SameStill(q.recs[i], Retired(q.recs[i]));
      FollowOne(q.recs, i, Retired(q.recs[i]), tried);
    }
  }

  lemma BegunFollows(q: State, i: nat, tried: set<Id>)
    requires HasFile(q) && i < |q.recs|
    ensures var q' := DoStarted(q, i, MarkOk); Follows(q.recs, q'.recs, tried) && q'.calls == q.calls
  {
    hide WriteMarker, Follows, Same;
    var t' := q.recs[i].(row := q.recs[i].row.(inflight := true));
    SameStill(q.recs[i], t');
    FollowOne(q.recs, i, t', tried);
    MarkerOnly(q.(recs := q.recs[i := t']), S, q.recs[i].row.seqno, MarkOk);
  }

  lemma HandedFollows(q: State, i: nat, tried: set<Id>)
    requires i < |q.recs|
    ensures Follows(q.recs, DoHand(q, i).recs, tried)
  {
    hide Follows;
    FollowOne(q.recs, i, q.recs[i].(handed := true), tried);
  }

  /** A failed attempt leaves its record a suspect no more. */
  lemma FailedTried(q: State, i: nat, own: bool, tried: set<Id>)
    requires HasFile(q) && i < |q.recs| && Tried(q.recs, tried)
    ensures var q1 := DoAttemptEnded(q, i, MarkOk); HasFile(q1) && i < |q1.recs|
    ensures var q1 := DoAttemptEnded(q, i, MarkOk);
            var q' := if own then DoVerdict(q1, i, Gone, MarkOk) else q1;
            Tried(q'.recs, tried - {Rid(q.recs[i])}) && q'.calls == q.calls
  {
    hide DoAttemptEnded, DoVerdict, Follows, Same, Tried;
    var left := tried - {Rid(q.recs[i])};
    EndedAre(q, i);
    var q1 := DoAttemptEnded(q, i, MarkOk);
    FewerTried(q.recs, tried, left);
    FollowOne(q.recs, i, q.recs[i].(row := q.recs[i].row.(inflight := false, crashes := 0)), left);
    FollowTried(q.recs, q1.recs, left);
    if own {
      VerdictFollows(q1, i, Gone, left);
      FollowTried(q1.recs, DoVerdict(q1, i, Gone, MarkOk).recs, left);
    }
  }

  lemma FewerTried(recs: seq<Live>, tried: set<Id>, left: set<Id>)
    requires Tried(recs, tried) && left <= tried
    ensures Tried(recs, left)
  {
    forall k | 0 <= k < |recs| ensures TriedOne(recs[k], left) { assert TriedOne(recs[k], tried); }
  }

  /** What is said of the records tried holds up to the end of the turn. */
  lemma MainTried(w: Watch, m: Move)
    requires WatchInv(w) && MainEnabled(w.g, m)
    ensures Tried(Main(w.g, m).q.recs, KeptTried(w, m)) && |w.g.q.calls| <= |Main(w.g, m).q.calls|
  {
    hide GuardInv, Tried, Follows, DoAttemptEnded, DoVerdict, DoAnswerCancel, DoStarted, DoHand, DoCrash, Do, Image, Known, Enabled;
    var g, q, tried := w.g, w.g.q, w.tried;
    match m {
      case Quiet(step) =>
        QuietFollows(g, step, tried);
        FollowTried(q.recs, Do(q, step).recs, tried);
      case Give(i) =>
        HandedFollows(q, i, tried);
        FollowTried(q.recs, DoHand(q, i).recs, tried);
        HandCalls(q, i);
      case Recover(next) =>
      case Begin(i) =>
        BegunFollows(q, i, tried);
        FollowTried(q.recs, DoStarted(q, i, MarkOk).recs, tried);
      case Fail(i, own, retried, next) => FailedTried(q, i, own, tried);
      case LetGo(i, next) =>
      case Judge(i, v, next) =>
        VerdictFollows(q, i, v, tried);
        FollowTried(q.recs, DoVerdict(q, i, v, MarkOk).recs, tried);
      case Withdraw(c, next) =>
        WithdrawFollows(g, c, tried);
        FollowTried(q.recs, DoAnswerCancel(q, c, MarkOk).recs, tried);
      case Forget(id) =>
      case Die(dirSynced) =>
        NoneTried(DoCrash(q, Cur(q.cur), dirSynced, true).recs);
        CrashCalls(q, Cur(q.cur), dirSynced);
    }
  }

  lemma HandCalls(q: State, i: nat)
    requires i < |q.recs|
    ensures DoHand(q, i).calls == q.calls
  {
  }

  lemma CrashCalls(q: State, es: Log, dirSynced: bool)
    ensures |DoCrash(q, es, dirSynced, true).calls| == |q.calls|
  {
    hide Load, KeptOf, RewriteAll, CountOpen, Meaning, NotDone;
  }

  lemma NoneTried(recs: seq<Live>)
    ensures Tried(recs, {})
  {
  }

  /** A suspect waiting for its turn has not had one. */
  lemma FreshTurn(recs: seq<Live>, tried: set<Id>, i: nat)
    requires Tried(recs, tried) && i < |recs| && Candidate(recs[i])
    ensures Rid(recs[i]) !in tried
  {
    assert TriedOne(recs[i], tried);
  }

  lemma TurnTried(recs: seq<Live>, tried: set<Id>, i: nat)
    requires Tried(recs, tried) && i < |recs| && Candidate(recs[i]) && forall k :: 0 <= k < |recs| && k != i ==> Rid(recs[k]) != Rid(recs[i])
    ensures Tried(recs[i := recs[i].(handed := true)], tried + {Rid(recs[i])})
  {
    var recs' := recs[i := recs[i].(handed := true)];
    forall k | 0 <= k < |recs'| ensures TriedOne(recs'[k], tried + {Rid(recs[i])}) { assert TriedOne(recs[k], tried); }
  }

  lemma StaysPut(g: Guard, m: Move)
    requires MoveEnabled(g, m) && NextOf(m).Nobody?
    ensures Act(g, m).q == Main(g, m).q && Act(g, m).exec == Main(g, m).exec
  {
    hide MainEnabled, Main, Over;
  }

  lemma KeptFewer(w: Watch, m: Move)
    requires MainEnabled(w.g, m)
    ensures KeptTried(w, m) <= w.tried
  {
    hide MainEnabled;
  }

  /** Every move keeps the invariant. */
  lemma NextInv(w: Watch, m: Move)
    requires WatchInv(w) && MoveEnabled(w.g, m)
    ensures WatchInv(After(w, m))
  {
    hide GuardInv, Tried, MainEnabled, MoveEnabled, Main, Act, KeptTried, DoHand;
    MoveInv(w.g, m);
    EnabledMain(w.g, m);
    MainTried(w, m);
    KeptFewer(w, m);
    var g1, kept := Main(w.g, m), KeptTried(w, m);
    if NextOf(m).Turn? {
      var i := NextOf(m).i;
      TakenIsThere(w.g, m);
      MainSound(w.g, m);
      GuardUnique(g1, i);
      TurnTried(g1.q.recs, kept, i);
      HandIs(g1.q, i);
    } else {
      StaysPut(w.g, m);
      assert kept + {} == kept;
    }
  }

  lemma EnabledMain(g: Guard, m: Move)
    requires MoveEnabled(g, m)
    ensures MainEnabled(g, m)
  {
  }

  lemma GuardUnique(g: Guard, i: nat)
    requires GuardInv(g) && i < |g.q.recs|
    ensures forall k :: 0 <= k < |g.q.recs| && k != i ==> Rid(g.q.recs[k]) != Rid(g.q.recs[i])
    ensures 1 <= Rid(g.q.recs[i]).0 <= |g.q.calls|
  {
    hide Inv, Mirror, Counted, Trials, Heard, NoneFailed;
    UniqueIds(g.q, i);
    RecAt(g.q, i);
  }

  lemma HandIs(q: State, i: nat)
    requires i < |q.recs|
    ensures DoHand(q, i).recs == q.recs[i := q.recs[i].(handed := true)] && DoHand(q, i).calls == q.calls
  {
  }

  lemma {:induction false} WatchesInv(w: Watch, ms: seq<Move>, w': Watch)
    requires WatchInv(w) && Watches(w, ms, w')
    ensures WatchInv(w')
    decreases |ms|
  {
    hide WatchInv, MoveEnabled, After;
    if |ms| > 0 {
      NextInv(w, ms[0]);
      WatchesInv(After(w, ms[0]), ms[1..], w');
    }
  }

  lemma OpeningInv()
    ensures WatchInv(OPENING)
  {
    hide GuardInv;
    StartSound();
  }

  // ---- how many there are ----

  /** A suspect whose turn is over when the next one's comes is in the engine's hands still only if
      its record has been withdrawn. */
  lemma LeftOverWithdrawn(w: Watch, m: Move, id: Id, i: nat)
    requires WatchInv(w) && MoveEnabled(w.g, m) && NextOf(m).Turn? && id in LeftOver(w, m)
    requires i < |Main(w.g, m).q.recs| && Rid(Main(w.g, m).q.recs[i]) == id
    ensures !IsOpen(Main(w.g, m).q.recs[i])
  {
    hide GuardInv, MainEnabled, MoveEnabled, Main, KeptTried, Over, Tried;
    EnabledMain(w.g, m);
    MainTried(w, m);
    MainSound(w.g, m);
    TakenIsThere(w.g, m);
    TurnIsOver(w.g, m);
    TriedAt(Main(w.g, m).q.recs, KeptTried(w, m), i);
  }

  lemma TriedAt(recs: seq<Live>, tried: set<Id>, i: nat)
    requires Tried(recs, tried) && i < |recs|
    ensures TriedOne(recs[i], tried)
  {
  }

  lemma TurnIsOver(g: Guard, m: Move)
    requires MoveEnabled(g, m) && NextOf(m).Turn?
    ensures Over(g, m) != 0 || m.Recover?
  {
    hide MainEnabled, Main, Over;
  }

  /** Between turns no suspect joins those in the engine's hands. */
  lemma NoneJoins(w: Watch, m: Move)
    requires WatchInv(w) && MoveEnabled(w.g, m)
    ensures LeftOver(w, m) <= InHand(w)
  {
    hide GuardInv, Tried, MoveEnabled, DoAttemptEnded, DoVerdict, DoAnswerCancel, DoStarted, DoHand, DoCrash, Do, Image, Enabled;
    EnabledMain(w.g, m);
    if m.Give? { GivenNotTried(w, m.i); }
  }

  lemma GivenNotTried(w: Watch, i: nat)
    requires Tried(w.g.q.recs, w.tried) && i < |w.g.q.recs| && !w.g.q.recs[i].handed
    ensures Rid(w.g.q.recs[i]) !in w.tried
  {
    assert TriedOne(w.g.q.recs[i], w.tried);
  }

  lemma HandsAfter(w: Watch, m: Move)
    requires WatchInv(w) && MoveEnabled(w.g, m)
    ensures InHand(After(w, m)) == LeftOver(w, m) + TurnOf(w, m) && TurnOf(w, m) !! LeftOver(w, m)
  {
    hide GuardInv, Tried, MainEnabled, MoveEnabled, Main, KeptTried, DoHand;
    EnabledMain(w.g, m);
    if NextOf(m).Turn? {
      TakenIsThere(w.g, m);
      MainTried(w, m);
      FreshTurn(Main(w.g, m).q.recs, KeptTried(w, m), NextOf(m).i);
    } else {
      StaysPut(w.g, m);
    }
  }

  /** Exactly when a move puts a second suspect into the engine's hands: it hands one over, and one
      whose turn is over is there still. */
  lemma SecondSuspectIff(w: Watch, m: Move)
    requires WatchInv(w) && MoveEnabled(w.g, m) && AtMostOne(w)
    ensures !AtMostOne(After(w, m)) <==> NextOf(m).Turn? && LeftOver(w, m) != {}
  {
    hide WatchInv, MainEnabled, MoveEnabled, Main, KeptTried, After, LeftOver;
    EnabledMain(w.g, m);
    NoneJoins(w, m);
    HandsAfter(w, m);
    if NextOf(m).Turn? && LeftOver(w, m) != {} {
      var a :| a in LeftOver(w, m);
      var b :| b in TurnOf(w, m);
      assert a in InHand(After(w, m)) && b in InHand(After(w, m)) && a != b;
    }
  }

  /** A retraction of the suspect on trial does so exactly if the engine takes the next one while the
      withdrawn one executes still. */
  lemma WithdrawnBesideNext(w: Watch, c: nat, next: Turn)
    requires WatchInv(w) && MoveEnabled(w.g, Withdraw(c, next)) && c < |w.g.q.calls|
    requires var id := (w.g.q.calls[c].target, w.g.q.calls[c].first); id in w.tried && InHand(w) <= {id}
    ensures var id := (w.g.q.calls[c].target, w.g.q.calls[c].first);
            !AtMostOne(After(w, Withdraw(c, next))) <==> next.Turn? && id in w.g.exec
  {
    hide WatchInv, MainEnabled, MoveEnabled, After, DoAnswerCancel;
    var id := (w.g.q.calls[c].target, w.g.q.calls[c].first);
    EnabledMain(w.g, Withdraw(c, next));
    SecondSuspectIff(w, Withdraw(c, next));
    assert LeftOver(w, Withdraw(c, next)) == InHand(w);
    assert InHand(w) != {} <==> id in InHand(w);
  }

  /** Every suspect withdrawn has been forgotten by the engine before the next one's turn. */
  ghost predicate Tidy(w: Watch, ms: seq<Move>)
    decreases |ms|
  {
    |ms| > 0 && MoveEnabled(w.g, ms[0]) ==> TidyTurn(w, ms[0]) && Tidy(After(w, ms[0]), ms[1..])
  }

  ghost predicate TidyTurn(w: Watch, m: Move)
    requires MoveEnabled(w.g, m)
  {
    NextOf(m).Turn? ==> forall id :: id in LeftOver(w, m) ==> HasOpenRec(Main(w.g, m).q.recs, id)
  }

  ghost predicate HasOpenRec(recs: seq<Live>, id: Id) {
    exists i :: 0 <= i < |recs| && Rid(recs[i]) == id && IsOpen(recs[i])
  }

  lemma TidyOne(w: Watch, m: Move)
    requires WatchInv(w) && AtMostOne(w) && MoveEnabled(w.g, m) && TidyTurn(w, m)
    ensures AtMostOne(After(w, m))
  {
    hide WatchInv, MainEnabled, MoveEnabled, Main, KeptTried, After, LeftOver, AtMostOne;
    EnabledMain(w.g, m);
    SecondSuspectIff(w, m);
    if NextOf(m).Turn? && LeftOver(w, m) != {} {
      var id :| id in LeftOver(w, m);
      assert HasOpenRec(Main(w.g, m).q.recs, id);
      var i :| 0 <= i < |Main(w.g, m).q.recs| && Rid(Main(w.g, m).q.recs[i]) == id && IsOpen(Main(w.g, m).q.recs[i]);
      LeftOverWithdrawn(w, m, id, i);
    }
  }

  lemma {:induction false} TidyRun(w: Watch, ms: seq<Move>, w': Watch)
    requires WatchInv(w) && AtMostOne(w) && Watches(w, ms, w') && Tidy(w, ms)
    ensures AtMostOne(w')
    decreases |ms|
  {
    hide WatchInv, MoveEnabled, After, AtMostOne, TidyTurn;
    if |ms| > 0 {
      TidyOne(w, ms[0]);
      NextInv(w, ms[0]);
      TidyRun(After(w, ms[0]), ms[1..], w');
    }
  }

  /** In every run in which each suspect withdrawn has been forgotten by the engine before the next
      one's turn, at most one suspect is in its hands at a time, withdrawn ones included. */
  lemma OneSuspectIfTidy(ms: seq<Move>, w: Watch)
    requires Watches(OPENING, ms, w) && Tidy(OPENING, ms)
    ensures AtMostOne(w)
  {
    hide Watches, Tidy, WatchInv;
    OpeningInv();
    TidyRun(OPENING, ms, w);
  }

  /** And in every run at all, of any two at least one has been withdrawn. */
  lemma AllButOneWithdrawn(ms: seq<Move>, w: Watch, i: nat, j: nat)
    requires Watches(OPENING, ms, w) && i < |w.g.q.recs| && j < |w.g.q.recs| && i != j
    requires Rid(w.g.q.recs[i]) in InHand(w) && Rid(w.g.q.recs[j]) in InHand(w)
    ensures !IsOpen(w.g.q.recs[i]) || !IsOpen(w.g.q.recs[j])
  {
    hide Watches, Inv, Mirror, Counted, Heard, NoneFailed;
    OpeningInv();
    WatchesInv(OPENING, ms, w);
    assert TriedOne(w.g.q.recs[i], w.tried) && TriedOne(w.g.q.recs[j], w.tried);
    assert CrashLoop.OnTrial(w.g.q.recs[i], w.g.exec, w.g.trial) && CrashLoop.OnTrial(w.g.q.recs[j], w.g.exec, w.g.trial);
    Numbered(w.g.q, i);
  }
}
