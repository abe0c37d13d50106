/** Crash loops: how many times the process died while a record was running, across any
    number of runs that each end with the process's death. What the process wrote is still
    there (the machine did not go down), and the next run opens it. */
module CrashLoop {
  import opened Sequences
  import opened Journal
  import opened RecordTable
  import opened Disk
  import opened GroupCommit
  import opened GroupCommitInv

  type Id = (nat, nat)

  // ---- what happened to a record, as the engine and the system saw it ----

  datatype Event = Began(id: Id) | Ended(id: Id) | Poisoned(id: Id) | Died

  /** An attempt of the record is running. */
  predicate IsRunning(h: seq<Event>, id: Id) {
    if |h| == 0 then false
    else
      var p := h[..|h| - 1];
      match h[|h| - 1]
      case Began(i) => i == id || IsRunning(p, id)
      case Ended(i) => i != id && IsRunning(p, id)
      case Poisoned(i) => IsRunning(p, id)
      case Died => false
  }

  /** The deaths at which the record was running, since an attempt of it was last seen to end. */
  function Deaths(h: seq<Event>, id: Id): nat {
    if |h| == 0 then 0
    else
      var p := h[..|h| - 1];
      match h[|h| - 1]
      case Began(i) => Deaths(p, id)
      case Ended(i) => if i == id then 0 else Deaths(p, id)
      case Poisoned(i) => Deaths(p, id)
      case Died => Deaths(p, id) + if IsRunning(p, id) then 1 else 0
  }

  /** Dead-lettered, or running at the last three deaths. */
  ghost predicate Condemned(h: seq<Event>, id: Id) {
    Poisoned(id) in h || (Deaths(h, id) == QUARANTINE_AT && !IsRunning(h, id))
  }

  /** Everything that happened is about records of the first `n` calls. */
  ghost predicate Heard(h: seq<Event>, n: nat) {
    forall e :: e in h && !e.Died? ==> e.id.0 <= n
  }

  lemma {:induction false} Unheard(h: seq<Event>, n: nat, id: Id)
    requires Heard(h, n) && id.0 > n
    ensures !IsRunning(h, id) && Deaths(h, id) == 0 && Poisoned(id) !in h
  {
    if |h| > 0 {
      Snoc(h);
      Unheard(h[..|h| - 1], n, id);
    }
  }

  lemma Next(h: seq<Event>, e: Event, id: Id)
    ensures var h' := h + [e];
            && IsRunning(h', id) == (if e == Began(id) then true else if e == Ended(id) || e == Died then false else IsRunning(h, id))
            && Deaths(h', id) == (if e == Ended(id) then 0 else if e == Died && IsRunning(h, id) then Deaths(h, id) + 1 else Deaths(h, id))
            && (Poisoned(id) in h' <==> Poisoned(id) in h || e == Poisoned(id))
            && (Condemned(h, id) && e != Ended(id) && e != Began(id) ==> Condemned(h', id))
  {
    assert (h + [e])[..|h + [e]| - 1] == h;
  }

  // ---- the queue, the suspect on trial, and the executions in the engine's hands ----

  datatype Guard = Guard(q: State, trial: nat, exec: set<Id>, history: seq<Event>)

  predicate Suspect(t: Live) {
    t.row.crashes >= SUSPECT_AT
  }

  /** A suspect waiting for its turn. */
  predicate Candidate(t: Live) {
    IsOpen(t) && Suspect(t) && !t.handed
  }

  /** trial_next: the suspect it hands over, if the engine takes any. */
  datatype Turn = Nobody | Turn(i: nat)

  predicate CanTake(g: Guard, next: Turn) {
    next.Turn? ==> next.i < |g.q.recs| && Candidate(g.q.recs[next.i])
  }

  function TakeNext(g: Guard, next: Turn): Guard
    requires CanTake(g, next)
  {
    match next
    case Nobody => g
    case Turn(i) => Guard(DoHand(g.q, i), g.q.recs[i].row.seqno, g.exec + {Rid(g.q.recs[i])}, g.history)
  }

  /** If the record was on trial, its turn is over. */
  predicate CanEndTurn(g: Guard, seqno: nat, next: Turn) {
    if g.trial == seqno then CanTake(g.(trial := 0), next) else next == Nobody
  }

  function EndTurn(g: Guard, seqno: nat, next: Turn): Guard
    requires CanEndTurn(g, seqno, next)
  {
    if g.trial == seqno then TakeNext(g.(trial := 0), next) else g
  }

  /** `Quiet`: a step of the queue that no event of a record's is. `Fail`: FAILED of a running
      attempt, by its own body's cancel or not, to be retried or not. `LetGo`: FAILED with no
      attempt running, or a teardown's DEAD_LETTERED or DROPPED. `Judge`: any other verdict.
      `Forget`: the engine ends the execution of a record already closed. */
  datatype Move =
    | Quiet(step: Step)
    | Give(i: nat)
    | Recover(next: Turn)
    | Begin(i: nat)
    | Fail(i: nat, own: bool, retried: bool, next: Turn)
    | LetGo(i: nat, next: Turn)
    | Judge(i: nat, verdict: Verdict, next: Turn)
    | Withdraw(c: nat, next: Turn)
    | Forget(id: Id)
    | Die(dirSynced: bool)

  /** A step of the queue's own, in which no write fails. */
  predicate Lossless(step: Step) {
    match step
    case SubmitStep(items, fate) => fate == WriteOk
    case CancelStep(i, fate) => fate == WriteOk
    case SyncBegin => true
    case SyncOk(v) => true
    case AnswerSubmit(c) => true
    case Refuse(i, mark) => mark == MarkOk
    case Drain(i) => true
    case Compact(renamed, dirSynced, reopened) => reopened
    case _ => false
  }

  predicate InHands(g: Guard, i: nat) {
    i < |g.q.recs| && IsOpen(g.q.recs[i]) && g.q.recs[i].handed && Rid(g.q.recs[i]) in g.exec
  }

  /** The move, up to the end of the record's turn. */
  ghost function Main(g: Guard, m: Move): Guard
    requires MainEnabled(g, m)
  {
    match m
    case Quiet(step) => g.(q := Do(g.q, step))
    case Give(i) => g.(q := DoHand(g.q, i), exec := g.exec + {Rid(g.q.recs[i])})
    case Recover(next) => g
    case Begin(i) => g.(q := DoStarted(g.q, i, MarkOk), history := g.history + [Began(Rid(g.q.recs[i]))])
    case Fail(i, own, retried, next) =>
      var id := Rid(g.q.recs[i]);
      var q1 := DoAttemptEnded(g.q, i, MarkOk);
      Guard(if own then DoVerdict(q1, i, Gone, MarkOk) else q1, g.trial,
            if retried && !own then g.exec else g.exec - {id}, g.history + [Ended(id)])
    case LetGo(i, next) => g.(exec := g.exec - {Rid(g.q.recs[i])})
    case Judge(i, v, next) =>
      var id := Rid(g.q.recs[i]);
      Guard(DoVerdict(g.q, i, v, MarkOk), g.trial, g.exec - {id},
            g.history + [Ended(id)] + if v == Poison then [Poisoned(id)] else [])
    case Withdraw(c, next) => g.(q := DoAnswerCancel(g.q, c, MarkOk))
    case Forget(id) => g.(exec := g.exec - {id})
    case Die(dirSynced) =>
      Guard(DoCrash(g.q, Cur(g.q.cur), dirSynced, true), 0, {}, g.history + [Died])
  }

  ghost predicate MainEnabled(g: Guard, m: Move) {
    HasFile(g.q) && g.q.cur.safe <= |Cur(g.q.cur)| &&
    match m
    case Quiet(step) => Lossless(step) && Enabled(g.q, step)
    case Give(i) => i < |g.q.recs| && IsOpen(g.q.recs[i]) && !g.q.recs[i].handed && !Suspect(g.q.recs[i])
    case Recover(next) => g.trial == 0
    case Begin(i) => InHands(g, i)
    case Fail(i, own, retried, next) => InHands(g, i) && g.q.recs[i].row.inflight
    case LetGo(i, next) => InHands(g, i)
    case Judge(i, v, next) => InHands(g, i) && v != NoVerdict
    case Withdraw(c, next) => c < |g.q.calls| && g.q.calls[c].kind == Cancel && MayAnswer(g.q.calls[c])
    case Forget(id) => forall i :: 0 <= i < |g.q.recs| && Rid(g.q.recs[i]) == id ==> !IsOpen(g.q.recs[i])
    case Die(dirSynced) => true
  }

  /** The retraction closes the record, which nothing had closed before. */
  predicate Closes(q: State, c: nat)
    requires c < |q.calls|
  {
    var i := Find(Rows(q.recs), q.calls[c].first);
    i < |q.recs| && MadeDurable(q.calls[c]) && !q.recs[i].row.done && !q.recs[i].row.quarantined
  }

  /** The record whose turn the move ends, if it was on trial. */
  ghost function Over(g: Guard, m: Move): nat
    requires MainEnabled(g, m)
  {
    match m
    case Fail(i, own, retried, next) => g.q.recs[i].row.seqno
    case LetGo(i, next) => g.q.recs[i].row.seqno
    case Judge(i, v, next) => g.q.recs[i].row.seqno
    case Withdraw(c, next) => if Closes(g.q, c) then g.q.calls[c].first else 0
    case _ => 0
  }

  function NextOf(m: Move): Turn {
    match m
    case Recover(next) => next
    case Fail(i, own, retried, next) => next
    case LetGo(i, next) => next
    case Judge(i, v, next) => next
    case Withdraw(c, next) => next
    case _ => Nobody
  }

  ghost predicate MoveEnabled(g: Guard, m: Move) {
    && MainEnabled(g, m) && CanEndTurn(Main(g, m), Over(g, m), NextOf(m))
    && (Over(g, m) == 0 && !m.Recover? ==> NextOf(m) == Nobody)
  }

  ghost function Act(g: Guard, m: Move): Guard
    requires MoveEnabled(g, m)
  {
    EndTurn(Main(g, m), Over(g, m), NextOf(m))
  }

  ghost predicate Leads(g: Guard, ms: seq<Move>, g': Guard)
    decreases |ms|
  {
    if |ms| == 0 then g == g' else MoveEnabled(g, ms[0]) && Leads(Act(g, ms[0]), ms[1..], g')
  }

  const START: Guard := Guard(INITIAL, 0, {}, [])

  // ---- what every move keeps ----

  /** The record of the journal's row, open in memory with the same marks. */
  predicate Twin(t: Live, r: Row, id: Id) {
    Rid(t) == id && !t.row.done && !t.row.quarantined && t.retracting == 0
    && t.row.inflight == r.inflight && t.row.crashes == r.crashes
  }

  /** A row of the journal is closed, or quarantined for cause, or open and mirrored in memory. */
  ghost predicate MirrorRow(r: Row, id: Id, recs: seq<Live>, h: seq<Event>) {
    || r.done
    || (r.quarantined && Condemned(h, id)
        && forall j :: 0 <= j < |recs| && Rid(recs[j]) == id ==> recs[j].row.done || recs[j].row.quarantined)
    || (!r.quarantined && exists j :: 0 <= j < |recs| && Twin(recs[j], r, id))
  }

  ghost predicate Mirror(es: Log, recs: seq<Live>, h: seq<Event>) {
    forall k :: 0 <= k < |es| && es[k].rec.typ == P ==> MirrorRow(RowOf(Recs(es), k), (es[k].tag, es[k].rec.seqno), recs, h)
  }

  /** The record's marks are what happened to it. */
  ghost predicate CountedOne(t: Live, h: seq<Event>) {
    !t.row.done && t.retracting == 0 ==>
      if t.row.quarantined then Condemned(h, Rid(t))
      else && (t.row.inflight <==> IsRunning(h, Rid(t))) && t.row.crashes == Deaths(h, Rid(t)) < QUARANTINE_AT
           && Poisoned(Rid(t)) !in h
  }

  ghost predicate Counted(recs: seq<Live>, h: seq<Event>) {
    forall i :: 0 <= i < |recs| ==> CountedOne(recs[i], h)
  }

  /** No write has failed. */
  ghost predicate NoneFailed(calls: seq<Call>) {
    forall c :: 0 <= c < |calls| && calls[c].phase == InFlight ==> calls[c].wrote == Written && calls[c].settled != Failed
  }

  ghost predicate OnTrial(t: Live, exec: set<Id>, trial: nat) {
    Rid(t) in exec && !t.row.done ==>
      t.handed && (!t.row.quarantined && Suspect(t) ==> t.row.seqno == trial)
  }

  ghost predicate Trials(recs: seq<Live>, exec: set<Id>, trial: nat) {
    forall i :: 0 <= i < |recs| ==> OnTrial(recs[i], exec, trial)
  }

  ghost predicate GuardInv(g: Guard) {
    && Inv(g.q) && g.q.open && !g.q.broken && NoneFailed(g.q.calls)
    && Heard(g.history, |g.q.calls|)
    && Mirror(Cur(g.q.cur), g.q.recs, g.history) && Counted(g.q.recs, g.history)
    && Trials(g.q.recs, g.exec, g.trial)
    && forall id :: id in g.exec ==> id.0 <= |g.q.calls|
  }

  // ---- the journal grows ----

  lemma RowAppend(es: Log, x: Entry, k: nat)
    requires k < |es|
    ensures RowOf(Recs(es + [x]), k) ==
      if x.rec.typ != P && x.rec.seqno == es[k].rec.seqno then Mark(RowOf(Recs(es), k), x.rec) else RowOf(Recs(es), k)
  {
    hide Mark;
    var a, b := Recs(es)[k + 1..], Recs(es + [x])[k + 1..];
    assert b == a + [x.rec];
    assert b[..|b| - 1] == a;
  }

  lemma {:induction false} MarksPs(row: Row, rs: seq<Rec>, ps: seq<Rec>)
    requires forall i :: 0 <= i < |ps| ==> ps[i].typ == P
    ensures Marks(row, rs + ps) == Marks(row, rs)
    decreases |ps|
  {
    if |ps| == 0 {
      assert rs + ps == rs;
    } else {
      var n := |ps| - 1;
      assert (rs + ps)[..|rs + ps| - 1] == rs + ps[..n];
      MarksPs(row, rs, ps[..n]);
    }
  }

  lemma RowAppendPs(es: Log, ps: Log, k: nat)
    requires k < |es + ps| && forall i :: 0 <= i < |ps| ==> ps[i].rec.typ == P
    ensures RowOf(Recs(es + ps), k) == if k < |es| then RowOf(Recs(es), k) else FreshRow(ps[k - |es|].rec)
  {
    var rs, all := Recs(es), Recs(es + ps);
    if k < |es| {
      assert all[k + 1..] == rs[k + 1..] + Recs(ps);
      MarksPs(FreshRow(rs[k]), rs[k + 1..], Recs(ps));
    } else {
      var rest := all[k + 1..];
      assert [] + rest == rest;
      MarksPs(FreshRow(all[k]), [], rest);
    }
  }

  // ---- the mirror ----

  /** The other records are as they were, and so is what happened to them. */
  ghost predicate Elsewhere(id: Id, recs: seq<Live>, recs': seq<Live>, h: seq<Event>, h': seq<Event>) {
    forall r, o :: o != id && MirrorRow(r, o, recs, h) ==> MirrorRow(r, o, recs', h')
  }

  ghost predicate SameElsewhere(id: Id, h: seq<Event>, h': seq<Event>) {
    forall o :: o != id ==> IsRunning(h, o) == IsRunning(h', o) && Deaths(h, o) == Deaths(h', o)
                            && (Poisoned(o) in h <==> Poisoned(o) in h') && (Condemned(h, o) <==> Condemned(h', o))
  }

  lemma OneElsewhere(recs: seq<Live>, i: nat, t': Live, h: seq<Event>, h': seq<Event>)
    requires i < |recs| && Rid(t') == Rid(recs[i]) && SameElsewhere(Rid(recs[i]), h, h')
    ensures Elsewhere(Rid(recs[i]), recs, recs[i := t'], h, h')
  {
    hide Condemned, Deaths, IsRunning;
    var recs' := recs[i := t'];
    forall r, o | o != Rid(recs[i]) && MirrorRow(r, o, recs, h) ensures MirrorRow(r, o, recs', h') {
      if !r.done && !r.quarantined {
        var j :| 0 <= j < |recs| && Twin(recs[j], r, o);
        assert Twin(recs'[j], r, o);
      }
    }
  }

  lemma SameAtAll(id: Id, h: seq<Event>)
    ensures SameElsewhere(id, h, h)
  {
  }

  lemma SameAfter(h: seq<Event>, e: Event, id: Id)
    requires !e.Died? && e.id == id
    ensures SameElsewhere(id, h, h + [e])
  {
    hide Condemned;
    forall o | o != id ensures IsRunning(h, o) == IsRunning(h + [e], o) && Deaths(h, o) == Deaths(h + [e], o)
      && (Poisoned(o) in h <==> Poisoned(o) in h + [e]) && (Condemned(h, o) <==> Condemned(h + [e], o))
    {
      Next(h, e, o);
      CondemnedIs(h, o);
      CondemnedIs(h + [e], o);
    }
  }

  lemma CondemnedIs(h: seq<Event>, id: Id)
    ensures Condemned(h, id) <==> Poisoned(id) in h || (Deaths(h, id) == QUARANTINE_AT && !IsRunning(h, id))
  {
  }

  /** A marker of the record's, appended. */
  lemma MirrorMarker(es: Log, x: Entry, recs: seq<Live>, i: nat, t': Live, h: seq<Event>, h': seq<Event>)
    requires Mirror(es, recs, h) && i < |recs| && Rid(t') == Rid(recs[i]) && x.rec.typ != P && x.rec.seqno == recs[i].row.seqno
    requires forall k :: 0 <= k < |es| && es[k].rec.typ == P && es[k].rec.seqno == recs[i].row.seqno ==> es[k].tag == recs[i].tag
    requires SameElsewhere(Rid(recs[i]), h, h')
    requires forall r :: MirrorRow(r, Rid(recs[i]), recs, h) ==> MirrorRow(Mark(r, x.rec), Rid(recs[i]), recs[i := t'], h')
    ensures Mirror(es + [x], recs[i := t'], h')
  {
    hide MirrorRow, SameElsewhere, RowOf, Elsewhere, Mark;
    var es', recs' := es + [x], recs[i := t'];
    OneElsewhere(recs, i, t', h, h');
    forall k | 0 <= k < |es'| && es'[k].rec.typ == P ensures MirrorRow(RowOf(Recs(es'), k), (es'[k].tag, es'[k].rec.seqno), recs', h') {
      RowAppend(es, x, k);
      var r, o := RowOf(Recs(es), k), (es[k].tag, es[k].rec.seqno);
      assert MirrorRow(r, o, recs, h);
      if o != Rid(recs[i]) { ElsewhereOne(Rid(recs[i]), recs, recs', h, h', r, o); }
    }
  }

  lemma ElsewhereOne(id: Id, recs: seq<Live>, recs': seq<Live>, h: seq<Event>, h': seq<Event>, r: Row, o: Id)
    requires Elsewhere(id, recs, recs', h, h') && o != id && MirrorRow(r, o, recs, h)
    ensures MirrorRow(r, o, recs', h')
  {
  }

  /** A change of one record that the journal does not see. */
  lemma MirrorSilent(es: Log, recs: seq<Live>, i: nat, t': Live, h: seq<Event>, h': seq<Event>)
    requires Mirror(es, recs, h) && i < |recs| && Rid(t') == Rid(recs[i]) && SameElsewhere(Rid(recs[i]), h, h')
    requires forall r :: MirrorRow(r, Rid(recs[i]), recs, h) ==> MirrorRow(r, Rid(recs[i]), recs[i := t'], h')
    ensures Mirror(es, recs[i := t'], h')
  {
    hide MirrorRow, SameElsewhere, RowOf, Elsewhere;
    var recs' := recs[i := t'];
    OneElsewhere(recs, i, t', h, h');
    forall k | 0 <= k < |es| && es[k].rec.typ == P ensures MirrorRow(RowOf(Recs(es), k), (es[k].tag, es[k].rec.seqno), recs', h') {
      var r, o := RowOf(Recs(es), k), (es[k].tag, es[k].rec.seqno);
      assert MirrorRow(r, o, recs, h);
      if o != Rid(recs[i]) { ElsewhereOne(Rid(recs[i]), recs, recs', h, h', r, o); }
    }
  }
}
