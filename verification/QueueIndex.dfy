/** The durable queue with its table of handles, both updated in place: the engine knows a record by
    its handle only. */
module QueueIndex {
  import opened Sequences
  import opened LittleEndian
  import opened Journal
  import opened RecordTable
  import opened Disk
  import opened GroupCommit
  import opened GroupCommitInv
  import opened CommitCompact
  import opened AnyBytes
  import opened IndexRuns
  import opened HandleIndex
  import opened DurableQueue
  import opened QueueLocks
  import opened QueueEvents
  import Suspects = CrashLoop

  class Desk {
    const q: Queue
    const index: Index
    var handles: map<nat, nat>
    ghost var issued: set<nat>

    ghost function View(): Indexed
      reads this, q, index
    {
      Indexed(q.View(), handles, index.entries, issued)
    }

    ghost predicate Valid()
      reads this, q, index, index.slots
    {
      q.Valid() && index.Valid() && IndexInv(View())
    }

    /** A queue just opened has handed over nothing, and its index is empty. */
    constructor (q: Queue, home: (nat, nat) -> nat)
      requires q.Valid() && TableInv(q.View()) && (forall t :: t in q.recs ==> !t.handed)
      requires forall k, cap :: cap > 0 ==> home(k, cap) < cap
      ensures Valid() && this.q == q && fresh(index) && fresh(index.slots) && handles == map[] && issued == {}
    {
      this.q := q;
      handles, issued := map[], {};
      index := new Index(home);
      new;
      NobodyHanded(q.View());
    }

    /** find_open. */
    method Lookup(h: nat) returns (i: nat)
      requires Valid()
      ensures i == FindOpen(q.recs, index.entries, h)
      ensures i <= |q.recs| && (i < |q.recs| ==> Owns(q.recs, handles, i, h))
      ensures forall k :: Owns(q.recs, handles, k, h) ==> k == i
    {
      hide Inv, Linked, Lined, TableInv, HandlesOk, IndexRuns.Holds;
      FindOpenExact(View(), h);
      InOrder(q.View());
      RisingRows(q.recs);
      var n := index.Find(h);
      if n == None { return |q.recs|; }
      i := FindBySeq(Rows(q.recs), n.value);
      if i < |q.recs| && (q.recs[i].row.done || q.recs[i].row.quarantined) { return |q.recs|; }
    }

    /** resubmit, where the engine takes the record and gives it the handle `h`. */
    method Resubmit(i: nat, h: nat)
      requires Valid() && i < |q.recs| && IsOpen(q.recs[i]) && !q.recs[i].handed && h != 0 && h !in issued
      modifies this, q`recs, index, index.slots
      ensures Valid() && q.View() == DoHand(old(q.View()), i) && q.trial == old(q.trial)
      ensures handles == old(handles)[old(q.recs[i].row.seqno) := h] && issued == old(issued) + {h}
      ensures index.slots == old(index.slots) || fresh(index.slots)
    {
      hide Inv, Linked, Lined, TableInv, HandlesOk, IndexRuns.Holds, BusyNumbers;
      ghost var d := View();
      var n := q.recs[i].row.seqno;
      HandsOne(d, i, h);
      NotThere(d, h);
      var ok := index.Reserve(1, true);
      HandOver(q, i);
      index.Put(h, n);
      handles, issued := handles[n := h], issued + {h};
    }

    /** trial_next. `reply`: the handle the engine would give each record, 0 if it would refuse it. */
    method NextTrial(reply: nat -> nat)
      requires Valid() && forall k :: 0 <= k < |q.recs| && reply(k) != 0 ==> reply(k) !in issued
      modifies this, q`recs, q`trial, index, index.slots
      ensures Valid() && (q.View(), q.trial) == NextOnTrial(old(q.View()), Takes(reply))
      ensures index.slots == old(index.slots) || fresh(index.slots)
    {
      hide Inv, Linked, Lined, TableInv, HandlesOk, IndexRuns.Holds, BusyNumbers, FirstTaken;
      q.trial := 0;
      for i := 0 to |q.recs|
        invariant unchanged(q`recs) && unchanged(this) && unchanged(index) && unchanged(index.slots) && q.trial == 0
        invariant q.View() == old(q.View()) && Valid()
        invariant forall k :: 0 <= k < i && Suspects.Candidate(q.recs[k]) ==> !Takes(reply)(k)
      {
        if Suspects.Candidate(q.recs[i]) && reply(i) != 0 {
          FirstIs(q.recs, Takes(reply), 0, i);
          q.trial := q.recs[i].row.seqno;
          Resubmit(i, reply(i));
          return;
        }
      }
      FirstIs(q.recs, Takes(reply), 0, |q.recs|);
    }

    /** dq_on_event: the handle finds its record, or the event is nobody's. */
    method OnEvent(h: nat, ev: EngineEvent, mark: MarkFate, mark': MarkFate, reply: nat -> nat)
      requires Valid() && forall k :: 0 <= k < |q.recs| && reply(k) != 0 ==> reply(k) !in issued
      modifies this, q, index, index.slots
      ensures Valid() && HasFile(old(q.View()))
      ensures var i := FindOpen(old(q.recs), old(index.entries), h);
              if i >= |old(q.recs)| then q.View() == old(q.View()) && q.trial == old(q.trial) && handles == old(handles)
              else
                var s1 := AfterEvent(old(q.View()), i, ev, mark, mark');
                if ev != Begun && old(q.recs)[i].row.seqno == old(q.trial) then (q.View(), q.trial) == NextOnTrial(s1, Takes(reply))
                else q.View() == s1 && q.trial == old(q.trial) && handles == old(handles)
    {
      hide Inv, Linked, Lined, TableInv, HandlesOk, IndexRuns.Holds, BusyNumbers, NextOnTrial, AfterEvent, Follows, FindOpen, OneSettled;
      FileThere(q.View());
      var i := Lookup(h);
      if i == |q.recs| { return; }
      ghost var d := View();
      var n := q.recs[i].row.seqno;
      EventSettled(d.q, i, ev, mark, mark');
      SettledIs(d.q, AfterEvent(d.q, i, ev, mark, mark'), i);
      Switch(q, i, ev, mark, mark');
      Drop(n, if IsOpen(q.recs[i]) then None else Some(n), d);
      if ev != Begun && n == q.trial { NextTrial(reply); }
    }

    /** The end of gptps_dq_cancel, and of the turn of a suspect it withdraws. */
    method EndRetraction(c: nat, seqno: nat, durable: bool, mark: MarkFate, reply: nat -> nat)
      requires Valid() && Enabled(q.View(), AnswerCancel(c, mark)) && c < |q.calls|
      requires seqno == q.calls[c].first && durable == MadeDurable(q.calls[c])
      requires forall k :: 0 <= k < |q.recs| && reply(k) != 0 ==> reply(k) !in issued
      modifies this, q, index, index.slots
      ensures Valid() && HasFile(old(q.View()))
      ensures var s1 := DoAnswerCancel(old(q.View()), c, mark);
              if Suspects.Closes(old(q.View()), c) && seqno == old(q.trial) then (q.View(), q.trial) == NextOnTrial(s1, Takes(reply))
              else q.View() == s1 && q.trial == old(q.trial) && handles == old(handles)
    {
      hide Inv, Linked, Lined, TableInv, HandlesOk, IndexRuns.Holds, BusyNumbers, NextOnTrial, Follows, FindOpen, Enabled, Find, DoAnswerCancel, MadeDurable;
      FileThere(q.View());
      ghost var d := View();
      InOrder(d.q);
      RisingRows(q.recs);
      FollowsRetraction(d.q, c, mark);
      AnswerCancelTable(d.q, c, mark);
      SameLength(d.q, c, mark);
      var i := FindBySeq(Rows(q.recs), seqno);
      var found := i < |q.recs| && !q.recs[i].row.done;
      var withdraws := found && durable && !q.recs[i].row.quarantined;
      var decides := found && !durable && Less(q.recs[i]).retracting == 0 && q.recs[i].deferred != NoVerdict;
      q.EndCancel(c, seqno, durable, mark);
      Drop(seqno, if withdraws || decides then Some(seqno) else None, d);
      if withdraws && seqno == q.trial { NextTrial(reply); }
    }

    /** gptps_dq_recover. The handles the engine gives are new, and each is given once. */
    method Recover(reply: nat -> nat, suspects: nat -> nat)
      requires Valid()
      requires forall k :: 0 <= k < |q.recs| ==> (reply(k) != 0 ==> reply(k) !in issued) && (suspects(k) != 0 ==> suspects(k) !in issued)
      requires forall j, k :: 0 <= j < |q.recs| && 0 <= k < |q.recs| && reply(j) != 0 ==> (reply(j) == reply(k) ==> j == k) && reply(j) != suspects(k)
      modifies this, q`recs, q`trial, index, index.slots
      ensures Valid()
      ensures var s1 := old(q.View()).(recs := Recovered(old(q.recs), Takes(reply), |old(q.recs)|));
              if old(q.trial) != 0 then q.View() == s1 && q.trial == old(q.trial) else (q.View(), q.trial) == NextOnTrial(s1, Takes(suspects))
    {
      hide Inv, Linked, Lined, TableInv, HandlesOk, IndexRuns.Holds, BusyNumbers, NextOnTrial, Recovered;
      ghost var s := q.View();
      RecoveredNone(q.recs, Takes(reply));
      for i := 0 to |q.recs|
        invariant Valid() && q.trial == old(q.trial) && |q.recs| == |s.recs| && q.View() == s.(recs := Recovered(s.recs, Takes(reply), i))
        invariant index.slots == old(index.slots) || fresh(index.slots)
        invariant forall k :: i <= k < |s.recs| && reply(k) != 0 ==> reply(k) !in issued
        invariant forall k :: 0 <= k < |s.recs| && suspects(k) != 0 ==> suspects(k) !in issued
      {
        RecoveredNext(s.recs, Takes(reply), i);
        if IsOpen(q.recs[i]) && !q.recs[i].handed && !Suspects.Suspect(q.recs[i]) && reply(i) != 0 { Resubmit(i, reply(i)); }
      }
      if q.trial == 0 { NextTrial(suspects); }
    }

    /** map_del of the record's handle, once it is closed. */
    method Drop(n: nat, gone: Option<nat>, ghost d: Indexed)
      requires q.Valid() && index.Valid() && IndexInv(d) && d.handles == handles && d.index == index.entries && d.issued == issued
      requires (gone == None || gone == Some(n)) && Follows(d.q, q.View(), gone) && TableInv(q.View())
      modifies index, index.slots
      ensures Valid() && index.slots == old(index.slots)
    {
      hide Inv, Linked, Lined, TableInv, HandlesOk, IndexRuns.Holds, BusyNumbers, Follows;
      KeptIndex(d, q.View(), gone);
      if gone.Some? && n in handles { index.Delete(handles[n]); }
    }
  }

  function Takes(reply: nat -> nat): nat -> bool {
    (k: nat) => reply(k) != 0
  }

  /** What happened to one record, and to the index if it closed. */
  ghost predicate OneSettled(s: State, s': State, i: nat) {
    && TableInv(s') && HasFile(s') && s'.cur.safe <= |Cur(s'.cur)| && i < |s'.recs| == |s.recs|
    && Follows(s, s', if IsOpen(s'.recs[i]) then None else Some(s.recs[i].row.seqno))
  }

  lemma RowSettled(s: State, i: nat, row: Row, typ: Byte, mark: MarkFate)
    requires TableInv(s) && HasFile(s) && s.cur.safe <= |Cur(s.cur)| && i < |s.recs| && IsOpen(s.recs[i])
    requires row.seqno == s.recs[i].row.seqno && !row.done && !row.quarantined
    ensures var s' := WriteMarker(s.(recs := s.recs[i := s.recs[i].(row := row)]), typ, row.seqno, mark);
            OneSettled(s, s', i) && s'.recs[i] == s.recs[i].(row := row)
  {
    hide TableInv, Follows, Marked;
    RowTable(s, i, row, typ, mark);
    InOrder(s);
    FollowsRow(s, i, row, typ, mark);
  }

  lemma VerdictSettled(s: State, i: nat, v: Verdict, mark: MarkFate)
    requires TableInv(s) && HasFile(s) && s.cur.safe <= |Cur(s.cur)| && i < |s.recs| && IsOpen(s.recs[i])
    ensures OneSettled(s, DoVerdict(s, i, v, mark), i)
  {
    hide TableInv, Follows, Marked;
    DeferTable(s, i, v, mark);
    InOrder(s);
    FollowsDecided(s, i, v, mark);
  }

  lemma SettledThen(s: State, s1: State, s': State, i: nat)
    requires OneSettled(s, s1, i) && i < |s.recs| && IsOpen(s1.recs[i]) && s1.recs[i].row.seqno == s.recs[i].row.seqno && OneSettled(s1, s', i)
    ensures OneSettled(s, s', i)
  {
    hide TableInv, BusyNumbers;
    forall t' | t' in s'.recs ensures (!t'.handed && t'.row.seqno >= s.nextSeq) || exists t :: t in s.recs && Alike(t, t') {
      if !(!t'.handed && t'.row.seqno >= s1.nextSeq) {
        var t1 :| t1 in s1.recs && Alike(t1, t');
        if !(!t1.handed && t1.row.seqno >= s.nextSeq) {
          var t :| t in s.recs && Alike(t, t1);
          assert Alike(t, t');
        }
      }
    }
  }

  /** An event drops its record from the index exactly if it closes it. */
  lemma EventSettled(s: State, i: nat, ev: EngineEvent, mark: MarkFate, mark': MarkFate)
    requires TableInv(s) && HasFile(s) && s.cur.safe <= |Cur(s.cur)| && i < |s.recs| && IsOpen(s.recs[i])
    ensures OneSettled(s, AfterEvent(s, i, ev, mark, mark'), i)
  {
    hide TableInv, OneSettled, WriteMarker, DoVerdict, Follows;
    SameSettled(s, i);
    match ev
    case Begun => RowSettled(s, i, s.recs[i].row.(inflight := true), S, mark);
    case FailedBy(own) =>
      var s1 := if s.recs[i].row.inflight then DoAttemptEnded(s, i, mark) else s;
      if s.recs[i].row.inflight { RowSettled(s, i, s.recs[i].row.(inflight := false, crashes := 0), F, mark); }
      if own {
        SettledIs(s, s1, i);
        VerdictSettled(s1, i, Gone, mark');
        SettledThen(s, s1, DoVerdict(s1, i, Gone, mark'), i);
      }
    case Finished => VerdictSettled(s, i, Gone, mark);
    case DeadLettered(teardown) => VerdictSettled(s, i, Poison, mark);
    case DroppedBy(teardown) => VerdictSettled(s, i, Gone, mark);
  }

  lemma SettledIs(s: State, s': State, i: nat)
    requires OneSettled(s, s', i)
    ensures TableInv(s') && HasFile(s') && s'.cur.safe <= |Cur(s'.cur)| && i < |s'.recs| == |s.recs|
    ensures Follows(s, s', if IsOpen(s'.recs[i]) then None else Some(s.recs[i].row.seqno))
  {
  }

  lemma SameSettled(s: State, i: nat)
    requires TableInv(s) && HasFile(s) && s.cur.safe <= |Cur(s.cur)| && i < |s.recs| && IsOpen(s.recs[i])
    ensures OneSettled(s, s, i)
  {
    hide TableInv, Follows;
    FollowsSame(s, s);
  }

  lemma SameLength(s: State, c: nat, mark: MarkFate)
    requires HasFile(s) && c < |s.calls|
    ensures |DoAnswerCancel(s, c, mark).recs| == |s.recs|
  {
    hide Find, ApplyVerdict, MadeDurable;
    var i := Find(Rows(s.recs), s.calls[c].first);
    if i < |s.recs| {
      var t := s.recs[i].(retracting := if s.recs[i].retracting > 0 then s.recs[i].retracting - 1 else 0);
      VerdictLength(s.(recs := s.recs[i := t], calls := s.calls[c := s.calls[c].(phase := ToldIo)]), i, t.deferred, mark);
    }
  }

  lemma VerdictLength(s: State, i: nat, v: Verdict, mark: MarkFate)
    requires HasFile(s) && i < |s.recs|
    ensures |ApplyVerdict(s, i, v, mark).recs| == |s.recs|
  {
    hide Marked, Extend;
  }

  lemma NotThere(d: Indexed, h: nat)
    requires IndexInv(d) && h !in d.issued
    ensures h !in d.index
  {
    hide TableInv, BusyNumbers;
  }
}
