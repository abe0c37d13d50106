/** A run in which two suspects are in the engine's hands at once. */
module CrashLoopBeside {
  import opened LittleEndian
  import opened Journal
  import opened RecordTable
  import opened Disk
  import opened GroupCommit
  import opened CrashLoop
  import opened CrashLoopTurns

  const NOTHING: Item := Item([], [])
  const FIRST: Id := (1, 1)
  const SECOND: Id := (1, 2)

  function RowAt(k: nat, n: nat, running: bool): Row {
    Row(k, [], [], false, false, running, n)
  }

  /** Record `k` of the batch, after `n` crashes of its own. */
  function RecAt(k: nat, n: nat): Live {
    Live(RowAt(k, n, false), 1, false, false, 0, NoVerdict)
  }

  function Batch(wrote: Settled, phase: Phase): Call {
    Call(Submit, 1, 2, 0, [NOTHING, NOTHING], Written, wrote, phase, 0, 0)
  }

  function PAt(k: nat): Entry {
    Entry(PRec(RowAt(k, 0, false)), 1)
  }

  /** The two records in a queue nothing has yet been handed over of. */
  ghost predicate Holds(w: Watch, n: nat, es: Log) {
    var q := w.g.q;
    && q.recs == [RecAt(1, n), RecAt(2, n)] && HasFile(q) && Cur(q.cur) == es && q.cur.safe <= |es|
    && q.open && !q.broken && q.sync == Idle && q.calls == [Batch(Durable, ToldOk)]
    && w.g.trial == 0 && w.g.exec == {} && w.tried == {}
  }

  // ---- runs put together ----

  /** A move that is nobody's turn's end. */
  lemma Plain(w: Watch, m: Move)
    requires MainEnabled(w.g, m) && (m.Quiet? || m.Give? || m.Begin? || m.Die?)
    ensures MoveEnabled(w.g, m) && After(w, m) == Watch(Main(w.g, m), KeptTried(w, m))
  {
    hide MainEnabled, Main;
    assert Over(w.g, m) == 0;
    assert KeptTried(w, m) + {} == KeptTried(w, m);
  }

  lemma {:induction false} OneWatch(w: Watch, a: seq<Move>, w1: Watch, b: seq<Move>, w2: Watch)
    requires Watches(w, a, w1) && Watches(w1, b, w2)
    ensures Watches(w, a + b, w2)
    decreases |a|
  {
    hide MoveEnabled, After;
    if |a| == 0 {
      assert a + b == b;
    } else {
      OneWatch(After(w, a[0]), a[1..], w1, b, w2);
      assert (a + b)[1..] == a[1..] + b;
    }
  }

  lemma OneMove(w: Watch, m: Move)
    requires MoveEnabled(w.g, m)
    ensures Watches(w, [m], After(w, m))
  {
    hide MoveEnabled, After;
    assert [m][1..] == [];
    assert Watches(After(w, m), [], After(w, m));
  }

  /** The run `ms` from `w` to `w1`, and one move more. */
  lemma Then(w: Watch, ms: seq<Move>, w1: Watch, m: Move)
    requires Watches(w, ms, w1) && MoveEnabled(w1.g, m)
    ensures Watches(w, ms + [m], After(w1, m))
  {
    hide Watches, MoveEnabled, After;
    OneMove(w1, m);
    OneWatch(w, ms, w1, [m], After(w1, m));
  }

  // ---- the batch is acknowledged ----

  function SubmitMoves(): seq<Move> {
    [Quiet(SubmitStep([NOTHING, NOTHING], WriteOk)), Quiet(SyncBegin), Quiet(SyncOk(1)), Quiet(AnswerSubmit(0))]
  }

  lemma Submitted()
    ensures Enabled(INITIAL, SubmitStep([NOTHING, NOTHING], WriteOk))
    ensures DoSubmit(INITIAL, [NOTHING, NOTHING], WriteOk) ==
              State([], File([[], [PAt(1), PAt(2)]], 0, 0), true, false, false, 2, Idle, [Batch(Waiting, InFlight)],
                    [RecAt(1, 0).(committing := true), RecAt(2, 0).(committing := true)], 3, 0, {}, false)
  {
    var ts := NewLives([NOTHING, NOTHING], 1, 1);
    assert ts == [RecAt(1, 0).(committing := true), RecAt(2, 0).(committing := true)];
    assert PEntries(ts) == [PAt(1), PAt(2)];
    assert [] + [PAt(1), PAt(2)] == [PAt(1), PAt(2)];
  }

  lemma Acknowledged(q: State) returns (q1: State, q2: State, q3: State)
    requires q == State([], File([[], [PAt(1), PAt(2)]], 0, 0), true, false, false, 2, Idle, [Batch(Waiting, InFlight)],
                        [RecAt(1, 0).(committing := true), RecAt(2, 0).(committing := true)], 3, 0, {}, false)
    ensures Enabled(q, SyncBegin) && q1 == Do(q, SyncBegin) && Enabled(q1, SyncOk(1)) && q2 == Do(q1, SyncOk(1))
    ensures Enabled(q2, AnswerSubmit(0)) && q3 == Do(q2, AnswerSubmit(0))
    ensures Holds(Watch(Guard(q3, 0, {}, []), {}), 0, [PAt(1), PAt(2)])
  {
    assert WaitingNow(q.calls[0]);
    q1 := DoSyncBegin(q);
    q2 := DoSyncOk(q1, 1);
    assert q2.calls == [Batch(Durable, InFlight)];
    q3 := DoAnswerSubmit(q2, 0);
    assert q3.recs == [RecAt(1, 0), RecAt(2, 0)];
    assert q3.calls == [Batch(Durable, ToldOk)];
  }

  lemma Quietly(w: Watch, ms: seq<Move>, q: State, step: Step)
    requires Watches(w, ms, Watch(Guard(q, 0, {}, []), {})) && Enabled(q, step) && Lossless(step)
    ensures Watches(w, ms + [Quiet(step)], Watch(Guard(Do(q, step), 0, {}, []), {}))
  {
    hide Watches, Enabled, Do, After;
    var w1 := Watch(Guard(q, 0, {}, []), {});
    EnabledHas(q, step);
    Plain(w1, Quiet(step));
    Then(w, ms, w1, Quiet(step));
  }

  lemma EnabledHas(q: State, step: Step)
    requires Enabled(q, step)
    ensures HasFile(q) && q.cur.safe <= |Cur(q.cur)|
  {
  }

  lemma BatchHeld() returns (w: Watch)
    ensures Watches(OPENING, SubmitMoves(), w) && Holds(w, 0, [PAt(1), PAt(2)])
  {
    hide Watches, Enabled, DoSubmit, DoSyncBegin, DoSyncOk, DoAnswerSubmit, Holds;
    Submitted();
    var q := DoSubmit(INITIAL, [NOTHING, NOTHING], WriteOk);
    var q1, q2, q3 := Acknowledged(q);
    NoMoves(OPENING);
    Quietly(OPENING, [], INITIAL, SubmitStep([NOTHING, NOTHING], WriteOk));
    var ms := SubmitMoves();
    assert [] + [ms[0]] == [ms[0]];
    Quietly(OPENING, [ms[0]], q, SyncBegin);
    Quietly(OPENING, [ms[0]] + [ms[1]], q1, SyncOk(1));
    Quietly(OPENING, [ms[0]] + [ms[1]] + [ms[2]], q2, AnswerSubmit(0));
    assert [ms[0]] + [ms[1]] + [ms[2]] + [ms[3]] == ms;
    w := Watch(Guard(q3, 0, {}, []), {});
  }

  lemma NoMoves(w: Watch)
    ensures Watches(w, [], w)
  {
  }

  // ---- both are running when the process dies ----

  ghost predicate Reads(es: Log, n: nat) {
    Meaning(Recs(es)).rows == [RowAt(1, n, false), RowAt(2, n, false)] && TagOf(es, 1) == 1 && TagOf(es, 2) == 1
  }

  function SAt(k: nat): Entry {
    Entry(Marker(S, k), 0)
  }

  function Rewritten(n: nat): Log {
    RewriteAll([RecAt(1, n), RecAt(2, n)])
  }

  lemma MeaningMore(es: Log, e: Entry)
    ensures Meaning(Recs(es + [e])) == Apply(Meaning(Recs(es)), e.rec)
    ensures e.rec.typ != P ==> forall k :: TagOf(es + [e], k) == TagOf(es, k)
    ensures e.rec.typ == P ==> forall k :: TagOf(es + [e], k) == if k == e.rec.seqno then e.tag else TagOf(es, k)
  {
    hide Apply;
    assert (es + [e])[..|es + [e]| - 1] == es;
    assert Recs(es + [e]) == Recs(es) + [e.rec];
    assert Recs(es + [e])[..|Recs(es + [e])| - 1] == Recs(es);
  }

  lemma FirstReads()
    ensures Reads([PAt(1), PAt(2)], 0)
  {
    assert Recs([]) == [];
    MeaningMore([], PAt(1));
    MeaningMore([] + [PAt(1)], PAt(2));
    assert [] + [PAt(1)] + [PAt(2)] == [PAt(1), PAt(2)];
  }

  lemma KAt(k: nat)
    ensures Mark(RowAt(k, 0, false), KRec(RowAt(k, 1, false))) == RowAt(k, 1, false)
  {
    GetPut(1, 4);
  }

  lemma RewrittenIs()
    ensures Rewritten(1) == [PAt(1)] + [Entry(KRec(RowAt(1, 1, false)), 0)] + [PAt(2)] + [Entry(KRec(RowAt(2, 1, false)), 0)]
  {
    hide KRec;
    var a, b := RecAt(1, 1), RecAt(2, 1);
    assert [a, b][..1] == [a] && [a][..0] == [];
    assert RewriteEntries(a) == [PAt(1), Entry(KRec(a.row), 0)];
    assert RewriteEntries(b) == [PAt(2), Entry(KRec(b.row), 0)];
    assert RewriteAll([]) == [];
    assert RewriteAll([a]) == [] + RewriteEntries(a);
    assert RewriteAll([a, b]) == RewriteAll([a]) + RewriteEntries(b);
  }

  lemma ThenReads()
    ensures Reads(Rewritten(1), 1)
  {
    hide KRec, Mark, Rewritten;
    var a, b, c, d := PAt(1), Entry(KRec(RowAt(1, 1, false)), 0), PAt(2), Entry(KRec(RowAt(2, 1, false)), 0);
    RewrittenIs();
    assert Recs([]) == [];
    MeaningMore([], a);
    assert [] + [a] == [a];
    MeaningMore([a], b);
    KAt(1);
    KIs(1);
    assert Meaning(Recs([a] + [b])).rows == [RowAt(1, 1, false)];
    MeaningMore([a] + [b], c);
    assert Meaning(Recs([a] + [b] + [c])).rows == [RowAt(1, 1, false), RowAt(2, 0, false)];
    MeaningMore([a] + [b] + [c], d);
    KAt(2);
    KIs(2);
  }

  lemma KIs(k: nat)
    ensures KRec(RowAt(k, 1, false)).typ == K && KRec(RowAt(k, 1, false)).seqno == k
  {
  }

  lemma KeepsBoth(n: nat)
    ensures var recs, calls := [RecAt(1, n), RecAt(2, n)], [Batch(Durable, ToldOk)];
            LoseAll(calls) == calls && KeptOf(calls, recs) == recs && NotDone(recs) == recs
  {
    var a, b, calls := RecAt(1, n), RecAt(2, n), [Batch(Durable, ToldOk)];
    assert !RetractedDurably(calls, a) && !RetractedDurably(calls, b);
    assert [a, b][..1] == [a] && [a][..0] == [];
    assert KeptOf(calls, [a]) == [] + [a] && NotDone([a]) == [] + [a];
    assert [a] + [b] == [a, b];
  }

  /** The process dies with both running: their counts go up by one. */
  lemma DiesTo(q: State, es: Log, n: nat)
    requires Reads(es, n) && n <= 1 && q.calls == [Batch(Durable, ToldOk)] && !q.broken
    ensures var q' := DoCrash(q, es + [SAt(1)] + [SAt(2)], true, true);
            Holds(Watch(Guard(q', 0, {}, []), {}), n + 1, Rewritten(n + 1))
  {
    hide Meaning, RewriteAll, CountOpen, TagOf, Reads, Load, KeptOf, NotDone, LoseAll;
    LoadsBoth(es, n);
    KeepsBoth(n + 1);
  }

  lemma LoadsBoth(es: Log, n: nat)
    requires Reads(es, n) && n <= 1
    ensures Load(es + [SAt(1)] + [SAt(2)]) == [RecAt(1, n + 1), RecAt(2, n + 1)]
  {
    hide Meaning;
    MeaningMore(es, SAt(1));
    MeaningMore(es + [SAt(1)], SAt(2));
    assert Meaning(Recs(es + [SAt(1)])).rows == [RowAt(1, n, true), RowAt(2, n, false)];
    assert Meaning(Recs(es + [SAt(1)] + [SAt(2)])).rows == [RowAt(1, n, true), RowAt(2, n, true)];
  }

  /** Both handed over. */
  ghost predicate BothOut(w: Watch, a: Live, b: Live, es: Log) {
    var q := w.g.q;
    && q.recs == [a, b] && a.handed && b.handed && IsOpen(a) && IsOpen(b) && Rid(a) == FIRST && Rid(b) == SECOND
    && HasFile(q) && Cur(q.cur) == es && q.cur.safe <= |es| && q.open && !q.broken && q.calls == [Batch(Durable, ToldOk)]
    && w.g.exec == {FIRST, SECOND} && w.g.trial == 0
  }

  lemma BothGiven(w: Watch, n: nat, es: Log) returns (w2: Watch)
    requires Holds(w, n, es) && n <= 1
    ensures Watches(w, [Give(0)] + [Give(1)], w2) && BothOut(w2, RecAt(1, n).(handed := true), RecAt(2, n).(handed := true), es)
  {
    hide Watches, After;
    Plain(w, Give(0));
    var w1 := After(w, Give(0));
    assert w1 == Watch(Main(w.g, Give(0)), w.tried);
    OneMove(w, Give(0));
    Plain(w1, Give(1));
    Then(w, [Give(0)], w1, Give(1));
    w2 := After(w1, Give(1));
  }

  lemma Begun(w: Watch, i: nat, a: Live, b: Live, es: Log)
    requires BothOut(w, a, b, es) && i < 2
    ensures MoveEnabled(w.g, Begin(i))
    ensures BothOut(After(w, Begin(i)), if i == 0 then a.(row := a.row.(inflight := true)) else a,
                    if i == 1 then b.(row := b.row.(inflight := true)) else b, es + [SAt(i + 1)])
  {
    hide After;
    Plain(w, Begin(i));
  }

  lemma BothBegun(w: Watch, n: nat, es: Log) returns (w2: Watch)
    requires BothOut(w, RecAt(1, n).(handed := true), RecAt(2, n).(handed := true), es)
    ensures Watches(w, [Begin(0)] + [Begin(1)], w2)
    ensures w2.g.q.calls == [Batch(Durable, ToldOk)] && !w2.g.q.broken && HasFile(w2.g.q)
    ensures Cur(w2.g.q.cur) == es + [SAt(1)] + [SAt(2)] && w2.g.q.cur.safe <= |Cur(w2.g.q.cur)|
  {
    hide Watches, After, MoveEnabled;
    var a, b := RecAt(1, n).(handed := true), RecAt(2, n).(handed := true);
    Begun(w, 0, a, b, es);
    var w1, a1 := After(w, Begin(0)), a.(row := a.row.(inflight := true));
    OneMove(w, Begin(0));
    Begun(w1, 1, a1, b, es + [SAt(1)]);
    Then(w, [Begin(0)], w1, Begin(1));
    w2 := After(w1, Begin(1));
  }

  function Round(): seq<Move> {
    [Give(0)] + [Give(1)] + ([Begin(0)] + [Begin(1)]) + [Die(true)]
  }

  /** Both are handed over and started, and the process dies. */
  lemma Rounds(w: Watch, n: nat, es: Log) returns (w': Watch)
    requires Holds(w, n, es) && Reads(es, n) && n <= 1
    ensures Watches(w, Round(), w') && Holds(w', n + 1, Rewritten(n + 1))
  {
    hide Watches, After, BothOut, Reads, Rewritten, DoCrash;
    var w2 := BothGiven(w, n, es);
    var w4 := BothBegun(w2, n, es);
    OneWatch(w, [Give(0)] + [Give(1)], w2, [Begin(0)] + [Begin(1)], w4);
    Plain(w4, Die(true));
    Then(w, [Give(0)] + [Give(1)] + ([Begin(0)] + [Begin(1)]), w4, Die(true));
    DiesTo(w4.g.q, es, n);
    w' := After(w4, Die(true));
  }

  // ---- the first one's turn, its retraction, and the second one's ----

  function Retraction(wrote: Settled, pos: nat): Call {
    Call(Cancel, 1, 1, 1, [], Written, wrote, InFlight, pos, 0)
  }

  /** The first has its turn, and its retraction is on its way. */
  ghost predicate Trying(w: Watch, retracting: nat, calls: seq<Call>) {
    var q := w.g.q;
    && q.recs == [RecAt(1, 2).(handed := true, retracting := retracting), RecAt(2, 2)]
    && HasFile(q) && q.cur.safe <= |Cur(q.cur)| && q.open && !q.broken && q.calls == calls
    && w.g.exec == {FIRST} == w.tried && w.g.trial == 1
  }

  lemma FirstTurn(w: Watch, es: Log)
    requires Holds(w, 2, es)
    ensures MoveEnabled(w.g, Recover(Turn(0))) && Trying(After(w, Recover(Turn(0))), 0, w.g.q.calls) && After(w, Recover(Turn(0))).g.q.sync == Idle
  {
    assert {} + {FIRST} == {FIRST};
  }

  lemma Cancelled(w: Watch, call: Call)
    requires Trying(w, 0, [call]) && w.g.q.sync == Idle
    ensures var m := Quiet(CancelStep(0, WriteOk));
            && MoveEnabled(w.g, m) && After(w, m).g.q.sync == Idle && After(w, m).g.q.lastEnd == |Cur(w.g.q.cur)| + 1
            && HasFile(After(w, m).g.q) && |Cur(After(w, m).g.q.cur)| == |Cur(w.g.q.cur)| + 1
            && Trying(After(w, m), 1, [call] + [Retraction(Waiting, |Cur(w.g.q.cur)|)])
  {
    hide After;
    Plain(w, Quiet(CancelStep(0, WriteOk)));
  }

  lemma SyncsBegin(w: Watch, call: Call, pos: nat)
    requires Trying(w, 1, [call] + [Retraction(Waiting, pos)]) && w.g.q.sync == Idle
    ensures var m := Quiet(SyncBegin);
            && MoveEnabled(w.g, m) && Trying(After(w, m), 1, w.g.q.calls) && After(w, m).g.q.cur == w.g.q.cur
            && After(w, m).g.q.sync == Running(2, w.g.q.lastEnd, |w.g.q.cur.hist| - 1, w.g.q.dirDirty)
  {
    hide After;
    assert WaitingNow(w.g.q.calls[1]);
    Plain(w, Quiet(SyncBegin));
  }

  lemma SyncsEnd(w: Watch, call: Call, pos: nat, v: nat, end: nat, dir: bool)
    requires Trying(w, 1, [call] + [Retraction(Waiting, pos)]) && call.phase == ToldOk
    requires w.g.q.sync == Running(2, end, v, dir) && v == |w.g.q.cur.hist| - 1 && end <= |Cur(w.g.q.cur)|
    ensures var m := Quiet(SyncOk(v));
            MoveEnabled(w.g, m) && Trying(After(w, m), 1, [call] + [Retraction(Durable, pos)])
  {
    hide After;
    Plain(w, Quiet(SyncOk(v)));
    assert Settle(w.g.q.calls, 2, Durable) == [call] + [Retraction(Durable, pos)];
  }

  /** The answer to the retraction ends the first one's turn while it executes still, and the second
      one's comes. */
  lemma BothTried(w: Watch, call: Call, pos: nat)
    requires Trying(w, 1, [call] + [Retraction(Durable, pos)])
    ensures var m := Withdraw(1, Turn(1)); MoveEnabled(w.g, m) && InHand(After(w, m)) == {FIRST, SECOND}
  {
    hide After;
    var m := Withdraw(1, Turn(1));
    assert Find(Rows(w.g.q.recs), 1) == 0;
    assert Main(w.g, m).q.recs[1] == RecAt(2, 2);
    TakenIsThere(w.g, m);
    AfterTurn(w, m);
  }

  lemma AfterTurn(w: Watch, m: Move)
    requires MoveEnabled(w.g, m) && NextOf(m).Turn?
    ensures NextOf(m).i < |Main(w.g, m).q.recs|
    ensures InHand(After(w, m)) == (Main(w.g, m).exec + {Rid(Main(w.g, m).q.recs[NextOf(m).i])})
                                   * (KeptTried(w, m) + {Rid(Main(w.g, m).q.recs[NextOf(m).i])})
  {
    hide MoveEnabled, MainEnabled, Main, KeptTried, Act, DoHand;
    TakenIsThere(w.g, m);
  }

  lemma Retracted(w: Watch, es: Log) returns (ms: seq<Move>, w': Watch)
    requires Holds(w, 2, es)
    ensures Watches(w, ms, w') && InHand(w') == {FIRST, SECOND}
  {
    hide Watches, After, MoveEnabled, InHand;
    var call := Batch(Durable, ToldOk);
    FirstTurn(w, es);
    OneMove(w, Recover(Turn(0)));
    ms, w' := [Recover(Turn(0))], After(w, Recover(Turn(0)));
    Cancelled(w', call);
    var pos := |Cur(w'.g.q.cur)|;
    Then(w, ms, w', Quiet(CancelStep(0, WriteOk)));
    ms, w' := ms + [Quiet(CancelStep(0, WriteOk))], After(w', Quiet(CancelStep(0, WriteOk)));
    SyncsBegin(w', call, pos);
    Then(w, ms, w', Quiet(SyncBegin));
    var v := |w'.g.q.cur.hist| - 1;
    var end, dir := w'.g.q.lastEnd, w'.g.q.dirDirty;
    ms, w' := ms + [Quiet(SyncBegin)], After(w', Quiet(SyncBegin));
    SyncsEnd(w', call, pos, v, end, dir);
    Then(w, ms, w', Quiet(SyncOk(v)));
    ms, w' := ms + [Quiet(SyncOk(v))], After(w', Quiet(SyncOk(v)));
    BothTried(w', call, pos);
    Then(w, ms, w', Withdraw(1, Turn(1)));
    ms, w' := ms + [Withdraw(1, Turn(1))], After(w', Withdraw(1, Turn(1)));
  }

  /** Two suspects can be in the engine's hands at once: both records of a batch were running at two
      deaths, the first has its turn, and its retraction is answered while it executes. */
  lemma TwoSuspectsAtOnce() returns (ms: seq<Move>, w: Watch)
    ensures Watches(OPENING, ms, w) && Leads(START, ms, w.g) && FIRST in InHand(w) && SECOND in InHand(w) && FIRST != SECOND
  {
    hide Watches, Leads, Holds, Reads, InHand, Rewritten;
    var w0 := BatchHeld();
    FirstReads();
    var w1 := Rounds(w0, 0, [PAt(1), PAt(2)]);
    ThenReads();
    var w2 := Rounds(w1, 1, Rewritten(1));
    var b, w3 := Retracted(w2, Rewritten(2));
    OneWatch(OPENING, SubmitMoves(), w0, Round(), w1);
    OneWatch(OPENING, SubmitMoves() + Round(), w1, Round(), w2);
    OneWatch(OPENING, SubmitMoves() + Round() + Round(), w2, b, w3);
    ms, w := SubmitMoves() + Round() + Round() + b, w3;
    WatchedRun(OPENING, ms, w);
  }
}
