/** What the engine's events come to: in the record they are about, in the journal, and in the history
    the crash-loop guard keeps. */
module EventEffects {
  import opened LittleEndian
  import opened Journal
  import opened Disk
  import opened GroupCommit
  import opened QueueEvents
  import Suspects = CrashLoop

  // ---- the steps ----

  /** A marker changes the journal alone, and, if its write is not lost, appends itself. */
  lemma MarkerWrites(s: State, typ: Byte, seqno: nat, mark: MarkFate)
    requires HasFile(s)
    ensures var s' := WriteMarker(s, typ, seqno, mark);
            && HasFile(s') && s'.(cur := s.cur) == s
            && (s.open && !s.broken && mark == MarkOk ==> Cur(s'.cur) == Cur(s.cur) + [Entry(Rec(typ, seqno, [], []), 0)])
  {
  }

  /** Only the record at `i`, what is pending, what is closed and the journal may change; the journal,
      if nothing is lost, by the markers of these types. */
  ghost predicate Becomes(s: State, s': State, i: nat, t: Live, open: bool, mark: MarkFate, letters: string) {
    && HasFile(s) && HasFile(s') && i < |s.recs| && (forall k :: 0 <= k < |letters| ==> letters[k] in "SFDQ")
    && s'.recs == s.recs[i := t] && s'.open == s.open && s'.broken == s.broken
    && s'.pending == (if open || s.pending == 0 then s.pending else s.pending - 1)
    && s'.closed == (if !open && t.row.done then s.closed + {(t.tag, t.row.seqno)} else s.closed)
    && (s.open && !s.broken && mark == MarkOk ==> Cur(s'.cur) == Cur(s.cur) + Lettered(letters, t.row.seqno))
  }

  lemma Starts(s: State, i: nat, mark: MarkFate)
    requires HasFile(s) && i < |s.recs|
    ensures Becomes(s, DoStarted(s, i, mark), i, s.recs[i].(row := s.recs[i].row.(inflight := true)), true, mark, "S")
  {
    hide WriteMarker;
    var t := s.recs[i];
    MarkerWrites(s.(recs := s.recs[i := t.(row := t.row.(inflight := true))]), S, t.row.seqno, mark);
    assert Lettered("S", t.row.seqno) == [Entry(Rec(S, t.row.seqno, [], []), 0)];
  }

  lemma Ends(s: State, i: nat, mark: MarkFate)
    requires HasFile(s) && i < |s.recs|
    ensures Becomes(s, DoAttemptEnded(s, i, mark), i, s.recs[i].(row := s.recs[i].row.(inflight := false, crashes := 0)), true, mark, "F")
  {
    hide WriteMarker;
    var t := s.recs[i];
    MarkerWrites(s.(recs := s.recs[i := t.(row := t.row.(inflight := false, crashes := 0))]), F, t.row.seqno, mark);
    assert Lettered("F", t.row.seqno) == [Entry(Rec(F, t.row.seqno, [], []), 0)];
  }

  lemma Closes(s: State, i: nat, v: Verdict, mark: MarkFate)
    requires HasFile(s) && i < |s.recs| && IsOpen(s.recs[i]) && v != NoVerdict
    ensures var (t, s') := (s.recs[i], DoVerdict(s, i, v, mark));
            if t.retracting > 0 then Becomes(s, s', i, t.(deferred := v), true, mark, "")
            else if v == Poison then
              Becomes(s, s', i, t.(row := t.row.(quarantined := true, inflight := false), deferred := NoVerdict), false, mark, "Q")
            else Becomes(s, s', i, t.(row := t.row.(done := true, inflight := false), deferred := NoVerdict), false, mark, "D")
  {
    hide ApplyVerdict;
    var t := s.recs[i];
    if t.retracting > 0 {
      assert Lettered("", t.row.seqno) == [];
    } else if v == Poison {
      Poisons(s, i, mark);
    } else {
      Finishes(s, i, mark);
    }
  }

  lemma Poisons(s: State, i: nat, mark: MarkFate)
    requires HasFile(s) && i < |s.recs| && IsOpen(s.recs[i])
    ensures var t := s.recs[i];
            Becomes(s, ApplyVerdict(s, i, Poison, mark), i, t.(row := t.row.(quarantined := true, inflight := false), deferred := NoVerdict), false, mark, "Q")
  {
    hide WriteMarker;
    var t := s.recs[i];
    MarkerWrites(s.(recs := s.recs[i := t.(row := t.row.(quarantined := true, inflight := false), deferred := NoVerdict)],
                    pending := if s.pending > 0 then s.pending - 1 else 0), Q, t.row.seqno, mark);
    assert Lettered("Q", t.row.seqno) == [Entry(Rec(Q, t.row.seqno, [], []), 0)];
  }

  lemma Finishes(s: State, i: nat, mark: MarkFate)
    requires HasFile(s) && i < |s.recs|
    ensures var t := s.recs[i];
            Becomes(s, ApplyVerdict(s, i, Gone, mark), i, t.(row := t.row.(done := true, inflight := false), deferred := NoVerdict), false, mark, "D")
  {
    hide WriteMarker;
    var t := s.recs[i];
    MarkerWrites(CloseRec(s.(recs := s.recs[i := t.(deferred := NoVerdict)]), i), D, t.row.seqno, mark);
    assert Lettered("D", t.row.seqno) == [Entry(Rec(D, t.row.seqno, [], []), 0)];
  }

  // ---- the record ----

  /** Only the event's own record changes, and of it never what it is or who has it. Its attempt runs
      from a start to the next end. It is closed by an end that is its own, quarantined by a dead letter,
      left as it was by the engine's shutdown; and with a retraction of it on its way, it is none of
      these yet: the verdict is kept for later. */
  lemma EventOnRecord(s: State, i: nat, ev: EngineEvent, mark: MarkFate, mark': MarkFate)
    requires HasFile(s) && i < |s.recs| && IsOpen(s.recs[i])
    ensures var s' := AfterEvent(s, i, ev, mark, mark');
            && |s'.recs| == |s.recs| && (forall j :: 0 <= j < |s.recs| && j != i ==> s'.recs[j] == s.recs[j])
            && var (t, t') := (s.recs[i], s'.recs[i]);
               && t'.row.seqno == t.row.seqno && t'.row.name == t.row.name && t'.row.payload == t.row.payload
               && t'.tag == t.tag && t'.handed == t.handed && t'.committing == t.committing && t'.retracting == t.retracting
    ensures var s' := AfterEvent(s, i, ev, mark, mark');
            var (t, t') := (s.recs[i], s'.recs[i]);
            var free := t.retracting == 0;
            match ev
            case Begun => t'.row.inflight && !t'.row.done && !t'.row.quarantined && t'.row.crashes == t.row.crashes && t'.deferred == t.deferred
            case FailedBy(own) =>
              && !t'.row.inflight && t'.row.crashes == (if t.row.inflight then 0 else t.row.crashes)
              && t'.row.done == (own && free) && !t'.row.quarantined
              && t'.deferred == (if !own then t.deferred else if free then NoVerdict else Gone)
            case Finished => if free then t'.row.done && !t'.row.inflight && !t'.row.quarantined else t' == t.(deferred := Gone)
            case DeadLettered(teardown) =>
              if teardown then s' == s
              else if free then t'.row.quarantined && !t'.row.inflight && !t'.row.done else t' == t.(deferred := Poison)
            case DroppedBy(teardown) =>
              if teardown then s' == s
              else if free then t'.row.done && !t'.row.inflight && !t'.row.quarantined else t' == t.(deferred := Gone)
  {
    hide DoStarted, DoAttemptEnded, DoVerdict, Extend;
    match ev
    case Begun => Starts(s, i, mark);
    case FailedBy(own) =>
      if s.recs[i].row.inflight { Ends(s, i, mark); }
      if own { Closes(if s.recs[i].row.inflight then DoAttemptEnded(s, i, mark) else s, i, Gone, mark'); }
    case Finished => Closes(s, i, Gone, mark);
    case DeadLettered(teardown) => Closes(s, i, Poison, mark);
    case DroppedBy(teardown) => Closes(s, i, Gone, mark);
  }

  /** What is pending goes down by the record exactly if it is open no more, and what is closed for good
      gains it exactly if it is done. */
  lemma EventOnCounts(s: State, i: nat, ev: EngineEvent, mark: MarkFate, mark': MarkFate)
    requires HasFile(s) && i < |s.recs| && IsOpen(s.recs[i]) && s.pending > 0
    ensures var s' := AfterEvent(s, i, ev, mark, mark');
            && |s'.recs| == |s.recs| && s'.pending == s.pending - (if IsOpen(s'.recs[i]) then 0 else 1)
            && s'.closed == s.closed + (if s'.recs[i].row.done then {(s.recs[i].tag, s.recs[i].row.seqno)} else {})
  {
    hide DoStarted, DoAttemptEnded, DoVerdict, Extend;
    match ev
    case Begun => Starts(s, i, mark);
    case FailedBy(own) =>
      if s.recs[i].row.inflight { Ends(s, i, mark); }
      if own { Closes(if s.recs[i].row.inflight then DoAttemptEnded(s, i, mark) else s, i, Gone, mark'); }
    case Finished => Closes(s, i, Gone, mark);
    case DeadLettered(teardown) => Closes(s, i, Poison, mark);
    case DroppedBy(teardown) => Closes(s, i, Gone, mark);
  }

  // ---- the journal ----

  /** The types of the markers an event is written down with. */
  function Letters(t: Live, ev: EngineEvent): string {
    match ev
    case Begun => "S"
    case FailedBy(own) => (if t.row.inflight then "F" else "") + (if own && t.retracting == 0 then "D" else "")
    case Finished => if t.retracting == 0 then "D" else ""
    case DeadLettered(teardown) => if t.retracting == 0 && !teardown then "Q" else ""
    case DroppedBy(teardown) => if t.retracting == 0 && !teardown then "D" else ""
  }

  function Lettered(letters: string, seqno: nat): Log
    requires forall k :: 0 <= k < |letters| ==> letters[k] in "SFDQ"
  {
    seq(|letters|, k requires 0 <= k < |letters| => Entry(Rec(letters[k] as int, seqno, [], []), 0))
  }

  /** With no write lost, the journal gains those markers, bare and in that order, of the record's number. */
  lemma EventInJournal(s: State, i: nat, ev: EngineEvent)
    requires HasFile(s) && i < |s.recs| && IsOpen(s.recs[i]) && s.open && !s.broken
    ensures var s' := AfterEvent(s, i, ev, MarkOk, MarkOk);
            HasFile(s') && Cur(s'.cur) == Cur(s.cur) + Lettered(Letters(s.recs[i], ev), s.recs[i].row.seqno)
  {
    hide DoStarted, DoAttemptEnded, DoVerdict, Extend;
    match ev
    case Begun => Starts(s, i, MarkOk);
    case FailedBy(own) =>
      if s.recs[i].row.inflight { Ends(s, i, MarkOk); }
      if own { Closes(if s.recs[i].row.inflight then DoAttemptEnded(s, i, MarkOk) else s, i, Gone, MarkOk); }
    case Finished => Closes(s, i, Gone, MarkOk);
    case DeadLettered(teardown) => Closes(s, i, Poison, MarkOk);
    case DroppedBy(teardown) => Closes(s, i, Gone, MarkOk);
  }

  // ---- the history ----

  function Happened(t: Live, ev: EngineEvent): seq<Suspects.Event> {
    var id := (t.tag, t.row.seqno);
    match ev
    case Begun => [Suspects.Began(id)]
    case FailedBy(own) => if t.row.inflight || own then [Suspects.Ended(id)] else []
    case Finished => [Suspects.Ended(id)]
    case DeadLettered(teardown) => if teardown then [] else [Suspects.Ended(id), Suspects.Poisoned(id)]
    case DroppedBy(teardown) => if teardown then [] else [Suspects.Ended(id)]
  }

  /** Whose turn is next is no part of the history. */
  lemma MainFirst(g: Suspects.Guard, m: Suspects.Move)
    requires Suspects.MoveEnabled(g, m)
    ensures Suspects.MainEnabled(g, m) && Suspects.Act(g, m).history == Suspects.Main(g, m).history
  {
    hide Suspects.Main, Suspects.MainEnabled, Suspects.Over, Suspects.NextOf, Suspects.Candidate, DoHand;
  }

  /** What the crash-loop guard's history gains from an event: a start, an end, and a dead letter. */
  lemma EventInHistory(g: Suspects.Guard, i: nat, ev: EngineEvent, retried: bool, takes: nat -> bool)
    requires HasFile(g.q) && g.q.cur.safe <= |Cur(g.q.cur)| && Suspects.InHands(g, i) && g.q.recs[i].row.seqno > 0
    ensures Suspects.MoveEnabled(g, MoveOf(g, i, ev, retried, takes))
    ensures Suspects.Act(g, MoveOf(g, i, ev, retried, takes)).history == g.history + Happened(g.q.recs[i], ev)
  {
    hide Suspects.EndTurn, Suspects.MoveEnabled, Suspects.CanEndTurn, FirstTaken, AfterEvent, NextOnTrial, Do;
    EventIsMove(g, i, ev, retried, takes);
    MainFirst(g, MoveOf(g, i, ev, retried, takes));
    match ev
    case Begun =>
    case FailedBy(own) =>
    case Finished =>
    case DeadLettered(teardown) =>
    case DroppedBy(teardown) =>
  }
}
