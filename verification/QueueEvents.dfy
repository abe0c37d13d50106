/** The durable queue and the engine: what opening, recovery, hand-over and the engine's events do to
    the queue, each method one stretch of code under the queue's lock and a step of the machine. */
module QueueEvents {
  import opened LittleEndian
  import opened Journal
  import opened RecordTable
  import opened Replay
  import opened Disk
  import opened GroupCommit
  import opened GroupCommitInv
  import opened CommitMarkers
  import opened CommitCrash
  import opened DurableQueue
  import opened QueueLocks
  import opened AnyBytes
  import Suspects = CrashLoop
  import CrashLoopRuns

  // ---- what the engine reports ----

  /** The events of a record's execution: `own`, cancelled by its own body; `teardown`, imposed by
      the engine's shutdown. */
  datatype EngineEvent = Begun | FailedBy(own: bool) | Finished | DeadLettered(teardown: bool) | DroppedBy(teardown: bool)

  /** dq_on_event's switch, as steps of the machine. */
  function AfterEvent(s: State, i: nat, ev: EngineEvent, mark: MarkFate, mark': MarkFate): State
    requires HasFile(s) && i < |s.recs|
  {
    match ev
    case Begun => DoStarted(s, i, mark)
    case FailedBy(own) =>
      var s1 := if s.recs[i].row.inflight then DoAttemptEnded(s, i, mark) else s;
      if own then DoVerdict(s1, i, Gone, mark') else s1
    case Finished => DoVerdict(s, i, Gone, mark)
    case DeadLettered(teardown) => if teardown then s else DoVerdict(s, i, Poison, mark)
    case DroppedBy(teardown) => if teardown then s else DoVerdict(s, i, Gone, mark)
  }

  /** The first suspect the engine takes, of those waiting for their turn, or |recs|. */
  function FirstTaken(recs: seq<Live>, takes: nat -> bool, from: nat): (n: nat)
    requires from <= |recs|
    ensures from <= n <= |recs| && (n < |recs| ==> Suspects.Candidate(recs[n]) && takes(n))
    ensures forall k :: from <= k < n && Suspects.Candidate(recs[k]) ==> !takes(k)
    decreases |recs| - from
  {
    if from == |recs| || (Suspects.Candidate(recs[from]) && takes(from)) then from else FirstTaken(recs, takes, from + 1)
  }

  /** trial_next: the queue and the suspect on trial after it. */
  function NextOnTrial(s: State, takes: nat -> bool): (State, nat) {
    var n := FirstTaken(s.recs, takes, 0);
    if n < |s.recs| then (DoHand(s, n), s.recs[n].row.seqno) else (s, 0)
  }

  // ---- opening what a crash left ----

  /** gptps_dq_open's loop over the rows: an attempt that never ended was running when the process
      died, and is counted against its record; the third such death quarantines it. */
  method OpenRows(rows: seq<Row>, tags: nat -> nat) returns (recs: seq<Live>, pending: nat)
    ensures recs == LoadRows(rows, tags) && pending == CountOpen(recs)
  {
    recs, pending := [], 0;
    for i := 0 to |rows|
      invariant recs == LoadRows(rows, tags)[..i] && pending == CountOpen(recs)
    {
      var r := rows[i];
      var open := !r.done && !r.quarantined;
      if open {
        if r.inflight {
          r := r.(inflight := false, crashes := if r.crashes < 0xFFFF_FFFF then r.crashes + 1 else r.crashes);
        }
        if r.crashes >= QUARANTINE_AT {
          r, open := r.(quarantined := true), false;
        }
      }
      if open { pending := pending + 1; }
      ghost var before := recs;
      recs := recs + [Live(r, tags(r.seqno), false, false, 0, NoVerdict)];
      assert recs[..|recs| - 1] == before;
    }
  }

  /** do_rewrite when nothing waits: every record that is not closed. */
  method FirstJournal(recs: seq<Live>, ghost calls: seq<Call>) returns (es: Log)
    requires (forall i :: 0 <= i < |recs| ==> !recs[i].committing) && forall c :: 0 <= c < |calls| ==> calls[c].phase != InFlight
    ensures es == RewriteAll(KeptOf(calls, recs))
  {
    hide RewriteEntries, KeptOf;
    es := [];
    NothingKept(calls, recs);
    for i := 0 to |recs|
      invariant es == RewriteAll(KeptOf(calls, recs[..i]))
    {
      KeptNext(calls, recs, i);
      if !recs[i].row.done {
        RewriteNext(KeptOf(calls, recs[..i]), recs[i]);
        es := es + RewriteEntries(recs[i]);
      }
    }
    assert recs[..|recs|] == recs;
  }

  /** gptps_dq_open on any bytes a crash left, with the files `older` and `file` on the disk: NULL exactly
      if their header is not a journal's, else the machine's open step, and a table in order whatever was
      replayed. If the bytes replay to an image `es` of a file of a sound queue, the new queue is sound. */
  method Open(b: seq<Byte>, tags: nat -> nat, older: seq<File>, file: File, made: nat, dirSynced: bool, reopened: bool, ghost s: State, ghost k: nat, ghost es: Log)
    returns (q: Queue?)
    requires made == |s.calls| && older == s.older && file == s.cur
    ensures q == null <==> ReplayOf(b).Unreadable?
    ensures q != null ==> fresh(q) && q.View() == DoOpen(s, ReplayOf(b).table, tags, dirSynced, reopened) && TableInv(q.View()) && q.trial == 0
    ensures q != null && Inv(s) && Enabled(s, Crash(k, es, dirSynced, reopened)) && ReplaysTo(b, es, tags) ==>
              q.Valid() && q.View() == DoCrash(s, es, dirSynced, reopened)
  {
    hide Inv, LoadRows, CountOpen, Meaning, Image, KeptOf, RewriteAll, Replace, Enabled, Linked, Lined, LoseAll, ReplayOf, TableInv, ReplaysTo, DoCrash;
    var o := ReplayFile(b);
    if o.Unreadable? { return null; }
    var rs, n := OpenRows(o.table.rows, tags);
    NobodyListens(s.calls);
    var queue := new Queue.Loaded(older, file, 0, rs, n, o.table.nextSeq, made, LoseAll(s.calls), s.closed, s.tainted || s.broken);
    NoneInFlight(s.calls);
    NoneCommitting(o.table.rows, tags);
    var journal := FirstJournal(rs, LoseAll(s.calls));
    queue.PutInPlace(journal, dirSynced, reopened);
    OpenTable(s, b, tags, dirSynced, reopened);
    OpensSound(s, b, k, es, tags, dirSynced, reopened);
    q := queue;
  }

  /** The bytes replay to the meaning of `es`, each record put down to the call that wrote it. */
  ghost predicate ReplaysTo(b: seq<Byte>, es: Log, tags: nat -> nat) {
    ReplayOf(b).Loaded? && ReplayOf(b).table == Meaning(Recs(es)) && forall q :: tags(q) == TagOf(es, q)
  }

  lemma OpensSound(s: State, b: seq<Byte>, k: nat, es: Log, tags: nat -> nat, dirSynced: bool, reopened: bool)
    requires ReplayOf(b).Loaded?
    ensures Inv(s) && Enabled(s, Crash(k, es, dirSynced, reopened)) && ReplaysTo(b, es, tags) ==>
              && DoOpen(s, ReplayOf(b).table, tags, dirSynced, reopened) == DoCrash(s, es, dirSynced, reopened)
              && Inv(DoCrash(s, es, dirSynced, reopened))
  {
    hide Inv, Meaning, Image, ReplayOf, DoOpen, DoCrash, Enabled;
    if Inv(s) && Enabled(s, Crash(k, es, dirSynced, reopened)) && ReplaysTo(b, es, tags) {
      CrashIsOpen(s, es, ReplayOf(b).table, tags, dirSynced, reopened);
      CrashInv(s, k, es, dirSynced, reopened);
    }
  }

  lemma NoneInFlight(calls: seq<Call>)
    ensures forall c :: 0 <= c < |LoseAll(calls)| ==> LoseAll(calls)[c].phase != InFlight
  {
  }

  lemma NoneCommitting(rows: seq<Row>, tags: nat -> nat)
    ensures forall i :: 0 <= i < |LoadRows(rows, tags)| ==> !LoadRows(rows, tags)[i].committing
  {
  }

  // ---- submission ----

  datatype Admission = Admitted | Empty | Invalid | Full

  predicate Fits(item: Item) {
    |item.name| <= MAX_NAME && |item.payload| <= MAX_PAYLOAD
  }

  /** gptps_dq_submit and _submit_batch up to the wait, with their refusals: GPTPS_E_INVAL for what
      the replay would call damage, GPTPS_E_FULL when the numbers run out. A batch is written whole
      or refused whole. */
  method Submit(q: Queue, items: seq<Item>, fate: WriteFate) returns (a: Admission)
    requires q.Valid()
    modifies q
    ensures q.Valid() && HasFile(old(q.View())) && q.trial == old(q.trial)
    ensures a == Empty <==> |items| == 0
    ensures a == Invalid <==> exists k :: 0 <= k < |items| && !Fits(items[k])
    ensures a == Full <==> |items| > 0 && (forall k :: 0 <= k < |items| ==> Fits(items[k])) && MAX_SEQ < old(q.nextSeq) + |items| - 1
    ensures q.View() == if a == Admitted then DoSubmit(old(q.View()), items, fate) else old(q.View())
  {
    hide Inv, Linked, Lined, Image, DoSubmit;
    FileThere(q.View());
    if |items| == 0 { return Empty; }
    for i := 0 to |items|
      invariant forall k :: 0 <= k < i ==> Fits(items[k])
    {
      if !Fits(items[i]) { return Invalid; }
    }
    if q.nextSeq > MAX_SEQ || |items| - 1 > MAX_SEQ - q.nextSeq { return Full; }
    q.SubmitBatch(items, fate);
    return Admitted;
  }

  // ---- hand-over ----

  /** The engine has taken a record. */
  method HandOver(q: Queue, i: nat)
    requires q.Valid() && i < |q.recs| && IsOpen(q.recs[i]) && !q.recs[i].handed
    modifies q`recs
    ensures q.Valid() && q.View() == DoHand(old(q.View()), i)
  {
    hide Inv, Linked, Lined, Image;
    FileThere(q.View());
    HandInv(q.View(), i);
    q.recs := q.recs[i := q.recs[i].(handed := true)];
  }

  /** The end of gptps_dq_submit when the engine refuses the record. */
  method Refused(q: Queue, i: nat, mark: MarkFate)
    requires q.Valid() && i < |q.recs| && IsOpen(q.recs[i]) && !q.recs[i].handed
    modifies q
    ensures q.Valid() && HasFile(old(q.View())) && q.View() == DoRefuse(old(q.View()), i, mark) && q.trial == old(q.trial)
  {
    hide Inv, Linked, Lined, Image, WriteMarker;
    FileThere(q.View());
    RefuseInv(q.View(), i, mark);
    var seqno := q.recs[i].row.seqno;
    q.CloseRecord(i);
    q.AppendMarker(D, seqno, mark);
  }

  /** trial_next. */
  method TryNext(q: Queue, takes: nat -> bool)
    requires q.Valid()
    modifies q`recs, q`trial
    ensures q.Valid() && (q.View(), q.trial) == NextOnTrial(old(q.View()), takes)
  {
    hide Inv, Linked, Lined, Image, FirstTaken;
    var next := CrashLoopRuns.TrialNext(q.recs, takes);
    FirstIs(q.recs, takes, 0, if next.Turn? then next.i else |q.recs|);
    q.trial := 0;
    if next.Turn? {
      q.trial := q.recs[next.i].row.seqno;
      HandOver(q, next.i);
    }
  }

  /** gptps_dq_recover: every record that waits and is no suspect is offered to the engine, and
      then, if no suspect has its turn, the suspects are. */
  method Recover(q: Queue, takes: nat -> bool, suspects: nat -> bool)
    requires q.Valid()
    modifies q`recs, q`trial
    ensures q.Valid()
    ensures var s1 := old(q.View()).(recs := Recovered(old(q.recs), takes, |old(q.recs)|));
            if old(q.trial) != 0 then q.View() == s1 && q.trial == old(q.trial) else (q.View(), q.trial) == NextOnTrial(s1, suspects)
  {
    hide Inv, Linked, Lined, Image, NextOnTrial, Recovered;
    ghost var s := q.View();
    RecoveredNone(q.recs, takes);
    for i := 0 to |q.recs|
      invariant q.Valid() && q.trial == old(q.trial) && |q.recs| == |s.recs| && q.View() == s.(recs := Recovered(s.recs, takes, i))
    {
      RecoveredNext(s.recs, takes, i);
      if IsOpen(q.recs[i]) && !q.recs[i].handed && !Suspects.Suspect(q.recs[i]) && takes(i) { HandOver(q, i); }
    }
    if q.trial == 0 { TryNext(q, suspects); }
  }

  // ---- events ----

  /** dq_on_event, for the record the event's handle belongs to. */
  method OnEvent(q: Queue, i: nat, ev: EngineEvent, mark: MarkFate, mark': MarkFate, takes: nat -> bool)
    requires q.Valid() && i < |q.recs| && IsOpen(q.recs[i]) && q.recs[i].handed
    modifies q
    ensures q.Valid() && HasFile(old(q.View()))
    ensures var s1 := AfterEvent(old(q.View()), i, ev, mark, mark');
            if ev != Begun && old(q.recs[i].row.seqno) == old(q.trial) then (q.View(), q.trial) == NextOnTrial(s1, takes)
            else q.View() == s1 && q.trial == old(q.trial)
  {
    hide Inv, Linked, Lined, Image, NextOnTrial, AfterEvent;
    var seqno := q.recs[i].row.seqno;
    Switch(q, i, ev, mark, mark');
    if ev != Begun && seqno == q.trial { TryNext(q, takes); }
  }

  /** The arms of the switch. */
  method Switch(q: Queue, i: nat, ev: EngineEvent, mark: MarkFate, mark': MarkFate)
    requires q.Valid() && i < |q.recs| && IsOpen(q.recs[i]) && q.recs[i].handed
    modifies q
    ensures q.Valid() && HasFile(old(q.View())) && q.View() == AfterEvent(old(q.View()), i, ev, mark, mark') && q.trial == old(q.trial)
  {
    hide Inv, Linked, Lined, Image, DoStarted, DoAttemptEnded, DoVerdict;
    FileThere(q.View());
    match ev {
      case Begun => MarkStarted(q, i, mark);
      case FailedBy(own) =>
        if q.recs[i].row.inflight { MarkEnded(q, i, mark); }
        if own { CloseOrDefer(q, i, Gone, mark'); }
      case Finished => CloseOrDefer(q, i, Gone, mark);
      case DeadLettered(teardown) => if !teardown { CloseOrDefer(q, i, Poison, mark); }
      case DroppedBy(teardown) => if !teardown { CloseOrDefer(q, i, Gone, mark); }
    }
  }

  method MarkStarted(q: Queue, i: nat, mark: MarkFate)
    requires q.Valid() && i < |q.recs| && IsOpen(q.recs[i]) && q.recs[i].handed
    modifies q`recs, q`file
    ensures q.Valid() && HasFile(old(q.View())) && q.View() == DoStarted(old(q.View()), i, mark)
  {
    hide Inv, Linked, Lined, Image, WriteMarker;
    FileThere(q.View());
    StartedInv(q.View(), i, mark);
    var t := q.recs[i];
    q.recs := q.recs[i := t.(row := t.row.(inflight := true))];
    q.AppendMarker(S, t.row.seqno, mark);
  }

  method MarkEnded(q: Queue, i: nat, mark: MarkFate)
    requires q.Valid() && i < |q.recs| && IsOpen(q.recs[i]) && q.recs[i].handed && q.recs[i].row.inflight
    modifies q`recs, q`file
    ensures q.Valid() && HasFile(old(q.View())) && q.View() == DoAttemptEnded(old(q.View()), i, mark)
    ensures |q.recs| == |old(q.recs)| && IsOpen(q.recs[i]) && q.recs[i].handed
  {
    hide Inv, Linked, Lined, Image, WriteMarker;
    FileThere(q.View());
    AttemptEndedInv(q.View(), i, mark);
    var t := q.recs[i];
    q.recs := q.recs[i := t.(row := t.row.(inflight := false, crashes := 0))];
    q.AppendMarker(F, t.row.seqno, mark);
  }

  /** close_or_defer. */
  method CloseOrDefer(q: Queue, i: nat, v: Verdict, mark: MarkFate)
    requires q.Valid() && i < |q.recs| && IsOpen(q.recs[i]) && q.recs[i].handed && v != NoVerdict
    modifies q
    ensures q.Valid() && HasFile(old(q.View())) && q.View() == DoVerdict(old(q.View()), i, v, mark) && q.trial == old(q.trial)
  {
    hide Inv, Linked, Lined, Image, ApplyVerdict;
    FileThere(q.View());
    VerdictInv(q.View(), i, v, mark);
    if q.recs[i].retracting > 0 {
      q.recs := q.recs[i := q.recs[i].(deferred := v)];
    } else {
      VerdictKeeps(q.View(), i, v, mark);
      q.CloseWith(i, v, mark);
    }
  }

  /** The move of the crash-loop guard that an event is. `retried`: the engine keeps the record. */
  function MoveOf(g: Suspects.Guard, i: nat, ev: EngineEvent, retried: bool, takes: nat -> bool): Suspects.Move
    requires HasFile(g.q) && i < |g.q.recs|
  {
    var recs := AfterEvent(g.q, i, ev, MarkOk, MarkOk).recs;
    var n := FirstTaken(recs, takes, 0);
    var next := if g.q.recs[i].row.seqno == g.trial && n < |recs| then Suspects.Turn(n) else Suspects.Nobody;
    match ev
    case Begun => Suspects.Begin(i)
    case FailedBy(own) =>
      if g.q.recs[i].row.inflight then Suspects.Fail(i, own, retried, next)
      else if own then Suspects.Judge(i, Gone, next) else Suspects.LetGo(i, next)
    case Finished => Suspects.Judge(i, Gone, next)
    case DeadLettered(teardown) => if teardown then Suspects.LetGo(i, next) else Suspects.Judge(i, Poison, next)
    case DroppedBy(teardown) => if teardown then Suspects.LetGo(i, next) else Suspects.Judge(i, Gone, next)
  }

  /** What dq_on_event does, no marker being lost, is a move of the crash-loop guard: so what holds of
      the deaths charged to a record in every run of the guard holds of the queue under its events. */
  lemma EventIsMove(g: Suspects.Guard, i: nat, ev: EngineEvent, retried: bool, takes: nat -> bool)
    requires HasFile(g.q) && g.q.cur.safe <= |Cur(g.q.cur)| && Suspects.InHands(g, i) && g.q.recs[i].row.seqno > 0
    ensures var m, s1 := MoveOf(g, i, ev, retried, takes), AfterEvent(g.q, i, ev, MarkOk, MarkOk);
            Suspects.MoveEnabled(g, m) &&
            var g' := Suspects.Act(g, m);
            if ev != Begun && g.q.recs[i].row.seqno == g.trial then (g'.q, g'.trial) == NextOnTrial(s1, takes)
            else g'.q == s1 && g'.trial == g.trial
  {
    hide Image, DoStarted, DoAttemptEnded, DoVerdict, FirstTaken, Suspects.Candidate, Do;
    var m, s1 := MoveOf(g, i, ev, retried, takes), AfterEvent(g.q, i, ev, MarkOk, MarkOk);
    assert Suspects.MainEnabled(g, m);
    var g1 := Suspects.Main(g, m);
    assert g1.q == s1 && g1.trial == g.trial;
  }

  /** The end of gptps_dq_cancel, and of the turn of a suspect it withdraws. */
  method EndRetraction(q: Queue, c: nat, seqno: nat, durable: bool, mark: MarkFate, takes: nat -> bool)
    requires q.Valid() && Enabled(q.View(), AnswerCancel(c, mark)) && c < |q.calls|
    requires seqno == q.calls[c].first && durable == MadeDurable(q.calls[c])
    modifies q
    ensures q.Valid() && HasFile(old(q.View()))
    ensures var s1 := DoAnswerCancel(old(q.View()), c, mark);
            if Suspects.Closes(old(q.View()), c) && seqno == old(q.trial) then (q.View(), q.trial) == NextOnTrial(s1, takes)
            else q.View() == s1 && q.trial == old(q.trial)
  {
    hide Inv, Linked, Lined, Enabled, Find, NextOnTrial, DoAnswerCancel, MadeDurable;
    TableRises(q.View());
    var i := FindBySeq(Rows(q.recs), seqno);
    var withdraws := i < |q.recs| && durable && !q.recs[i].row.done && !q.recs[i].row.quarantined;
    q.EndCancel(c, seqno, durable, mark);
    if withdraws && seqno == q.trial { TryNext(q, takes); }
  }

  // ---- recovery, a retraction's answer and an open are moves as well ----

  /** The guard once gptps_dq_recover has offered the first `n` records. */
  function Offered(g: Suspects.Guard, takes: nat -> bool, n: nat): Suspects.Guard
    requires n <= |g.q.recs|
  {
    g.(q := g.q.(recs := Recovered(g.q.recs, takes, n)), exec := g.exec + GivenIds(g.q.recs, takes, n))
  }

  function GivenIds(recs: seq<Live>, takes: nat -> bool, n: nat): set<Suspects.Id>
    requires n <= |recs|
  {
    set i | 0 <= i < n && IsOpen(recs[i]) && !recs[i].handed && !Suspects.Suspect(recs[i]) && takes(i) :: Rid(recs[i])
  }

  lemma OfferOne(g: Suspects.Guard, takes: nat -> bool, i: nat) returns (ms: seq<Suspects.Move>)
    requires HasFile(g.q) && g.q.cur.safe <= |Cur(g.q.cur)| && i < |g.q.recs|
    ensures Suspects.Leads(Offered(g, takes, i), ms, Offered(g, takes, i + 1))
  {
    hide Recovered;
    var g1, t := Offered(g, takes, i), g.q.recs[i];
    RecoveredNext(g.q.recs, takes, i);
    if IsOpen(t) && !t.handed && !Suspects.Suspect(t) && takes(i) {
      ms := [Suspects.Give(i)];
      assert GivenIds(g.q.recs, takes, i + 1) == GivenIds(g.q.recs, takes, i) + {Rid(t)};
      assert Suspects.MainEnabled(g1, ms[0]) && Suspects.Main(g1, ms[0]) == Offered(g, takes, i + 1);
      PlainGive(g1, i);
      assert ms[1..] == [];
    } else {
      ms := [];
      assert GivenIds(g.q.recs, takes, i + 1) == GivenIds(g.q.recs, takes, i);
    }
  }

  lemma PlainGive(g: Suspects.Guard, i: nat)
    requires Suspects.MainEnabled(g, Suspects.Give(i))
    ensures Suspects.MoveEnabled(g, Suspects.Give(i)) && Suspects.Act(g, Suspects.Give(i)) == Suspects.Main(g, Suspects.Give(i))
  {
    hide Suspects.MainEnabled, DoHand;
  }

  lemma {:induction false} OneRun(g: Suspects.Guard, a: seq<Suspects.Move>, g1: Suspects.Guard, b: seq<Suspects.Move>, g2: Suspects.Guard)
    requires Suspects.Leads(g, a, g1) && Suspects.Leads(g1, b, g2)
    ensures Suspects.Leads(g, a + b, g2)
    decreases |a|
  {
    hide Suspects.MoveEnabled, Suspects.Act;
    if |a| == 0 {
      assert a + b == b;
    } else {
      OneRun(Suspects.Act(g, a[0]), a[1..], g1, b, g2);
      assert (a + b)[1..] == a[1..] + b;
    }
  }

  lemma {:induction false} OfferAll(g: Suspects.Guard, takes: nat -> bool, n: nat) returns (ms: seq<Suspects.Move>)
    requires HasFile(g.q) && g.q.cur.safe <= |Cur(g.q.cur)| && n <= |g.q.recs|
    ensures Suspects.Leads(g, ms, Offered(g, takes, n))
    decreases n
  {
    hide Suspects.Leads, Recovered;
    if n == 0 {
      RecoveredNone(g.q.recs, takes);
      assert g.exec + GivenIds(g.q.recs, takes, 0) == g.exec;
      ms := [];
      NoMoves(g);
    } else {
      var a := OfferAll(g, takes, n - 1);
      var b := OfferOne(g, takes, n - 1);
      OneRun(g, a, Offered(g, takes, n - 1), b, Offered(g, takes, n));
      ms := a + b;
    }
  }

  lemma NoMoves(g: Suspects.Guard)
    ensures Suspects.Leads(g, [], g)
  {
  }

  /** What gptps_dq_recover does is a run of the guard: each record it hands over is given, and then
      the suspects are offered if none has its turn. */
  lemma RecoverIsMoves(g: Suspects.Guard, takes: nat -> bool, suspects: nat -> bool) returns (ms: seq<Suspects.Move>, g': Suspects.Guard)
    requires HasFile(g.q) && g.q.cur.safe <= |Cur(g.q.cur)|
    ensures Suspects.Leads(g, ms, g') && g'.history == g.history
    ensures var s1 := g.q.(recs := Recovered(g.q.recs, takes, |g.q.recs|));
            if g.trial != 0 then g'.q == s1 && g'.trial == g.trial else (g'.q, g'.trial) == NextOnTrial(s1, suspects)
  {
    hide Suspects.Leads, Recovered, FirstTaken;
    ms := OfferAll(g, takes, |g.q.recs|);
    g' := Offered(g, takes, |g.q.recs|);
    if g.trial == 0 {
      var n := FirstTaken(g'.q.recs, suspects, 0);
      var m := Suspects.Recover(if n < |g'.q.recs| then Suspects.Turn(n) else Suspects.Nobody);
      OneMove(g', m);
      OneRun(g, ms, g', [m], Suspects.Act(g', m));
      ms, g' := ms + [m], Suspects.Act(g', m);
    }
  }

  lemma OneMove(g: Suspects.Guard, m: Suspects.Move)
    requires Suspects.MoveEnabled(g, m)
    ensures Suspects.Leads(g, [m], Suspects.Act(g, m))
  {
    hide Suspects.MoveEnabled, Suspects.Act;
    assert [m][1..] == [];
    NoMoves(Suspects.Act(g, m));
  }

  /** The answer to a retraction, no marker being lost, is a move of the guard. */
  lemma RetractionIsMove(g: Suspects.Guard, c: nat, takes: nat -> bool) returns (next: Suspects.Turn)
    requires Enabled(g.q, AnswerCancel(c, MarkOk)) && c < |g.q.calls| && g.q.calls[c].first > 0
    ensures var m, s1 := Suspects.Withdraw(c, next), DoAnswerCancel(g.q, c, MarkOk);
            Suspects.MoveEnabled(g, m) &&
            var g' := Suspects.Act(g, m);
            if Suspects.Closes(g.q, c) && g.q.calls[c].first == g.trial then (g'.q, g'.trial) == NextOnTrial(s1, takes)
            else g'.q == s1 && g'.trial == g.trial
  {
    hide Image, DoAnswerCancel, FirstTaken, Suspects.Candidate, Suspects.Closes, Do;
    var recs := DoAnswerCancel(g.q, c, MarkOk).recs;
    var n := FirstTaken(recs, takes, 0);
    next := if Suspects.Closes(g.q, c) && g.q.calls[c].first == g.trial && n < |recs| then Suspects.Turn(n) else Suspects.Nobody;
  }

  lemma DeathIsCrash(g: Suspects.Guard, dirSynced: bool)
    requires Suspects.GuardInv(g)
    ensures HasFile(g.q) && g.q.cur.safe <= |Cur(g.q.cur)| && Enabled(g.q, Crash(|g.q.older|, Cur(g.q.cur), dirSynced, true))
  {
    hide Inv, Image, Suspects.Mirror, Suspects.Counted, Suspects.Trials, Suspects.Heard, Suspects.NoneFailed;
    FileThere(g.q);
    CrashLoopRuns.CurImage(g.q);
  }

  /** The process dies, and the next run opens what it wrote: that is a move of the guard. */
  lemma OpenIsMove(g: Suspects.Guard, dirSynced: bool)
    requires Suspects.GuardInv(g)
    ensures var m, es, k := Suspects.Die(dirSynced), Cur(g.q.cur), |g.q.older|;
            && Enabled(g.q, Crash(k, es, dirSynced, true))
            && Suspects.MoveEnabled(g, m)
            && var g' := Suspects.Act(g, m);
               g'.q == DoCrash(g.q, es, dirSynced, true) && g'.trial == 0 && g'.exec == {} && g'.history == g.history + [Suspects.Died]
  {
    hide Suspects.GuardInv, DoCrash, Enabled;
    DeathIsCrash(g, dirSynced);
  }

  /** gptps_dq_drain_quarantine_ex, for one record. */
  method DrainOne(q: Queue, i: nat)
    requires q.Valid() && i < |q.recs| && q.recs[i].row.quarantined && !q.recs[i].row.done
    modifies q`recs, q`closed
    ensures q.Valid() && q.View() == DoDrain(old(q.View()), i)
  {
    hide Inv, Linked, Lined, Image;
    FileThere(q.View());
    DrainInv(q.View(), i);
    var t := q.recs[i];
    q.closed := q.closed + {Rid(t)};
    q.recs := q.recs[i := t.(row := t.row.(quarantined := false, done := true))];
  }

  /** The first `n` records, as gptps_dq_recover leaves them. */
  function Recovered(recs: seq<Live>, takes: nat -> bool, n: nat): (rs: seq<Live>)
    requires n <= |recs|
  {
    seq(|recs|, i requires 0 <= i < |recs| =>
      if i < n && IsOpen(recs[i]) && !recs[i].handed && !Suspects.Suspect(recs[i]) && takes(i) then recs[i].(handed := true) else recs[i])
  }

  lemma RecoveredNone(recs: seq<Live>, takes: nat -> bool)
    ensures Recovered(recs, takes, 0) == recs
  {
  }

  lemma RecoveredNext(recs: seq<Live>, takes: nat -> bool, i: nat)
    requires i < |recs|
    ensures var rs := Recovered(recs, takes, i);
            && |rs| == |recs| && rs[i] == recs[i]
            && Recovered(recs, takes, i + 1) ==
                 if IsOpen(recs[i]) && !recs[i].handed && !Suspects.Suspect(recs[i]) && takes(i) then rs[i := rs[i].(handed := true)] else rs
  {
  }

  lemma {:induction false} FirstIs(recs: seq<Live>, takes: nat -> bool, from: nat, n: nat)
    requires from <= n <= |recs| && (n < |recs| ==> Suspects.Candidate(recs[n]) && takes(n))
    requires forall k :: from <= k < n && Suspects.Candidate(recs[k]) ==> !takes(k)
    ensures FirstTaken(recs, takes, from) == n
    decreases n - from
  {
    if from < n { FirstIs(recs, takes, from + 1, n); }
  }

  lemma FileThere(s: State)
    requires Inv(s)
    ensures HasFile(s) && s.cur.safe <= |Cur(s.cur)|
  {
    hide WaitOk, CrashOk, RecsOk, CallsOk, AckOk, StableFrom;
  }

  lemma VerdictKeeps(s: State, i: nat, v: Verdict, mark: MarkFate)
    requires HasFile(s) && i < |s.recs|
    ensures var s' := ApplyVerdict(s, i, v, mark); s'.calls == s.calls && s'.sync == s.sync
  {
  }

  lemma NobodyListens(calls: seq<Call>)
    ensures Linked([], 0, LoseAll(calls)) && |LoseAll(calls)| == |calls|
  {
  }
}
