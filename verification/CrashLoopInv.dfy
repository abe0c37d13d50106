/** Every move of a run keeps the count of each record's crashes. */
module CrashLoopInv {
  import opened Sequences
  import opened LittleEndian
  import opened Journal
  import opened RecordTable
  import opened Disk
  import opened GroupCommit
  import opened GroupCommitInv
  import opened CommitMarkers
  import opened CommitCompact
  import opened CommitVerdicts
  import opened CrashLoop

  /** What the invariant says of the queue's own state. */
  ghost predicate Sound(q: State, exec: set<Id>, trial: nat, h: seq<Event>) {
    && Inv(q) && q.open && !q.broken && NoneFailed(q.calls) && Heard(h, |q.calls|)
    && HasFile(q) && Mirror(Cur(q.cur), q.recs, h) && Counted(q.recs, h) && Trials(q.recs, exec, trial)
    && forall id :: id in exec ==> id.0 <= |q.calls|
  }

  lemma SoundIs(g: Guard)
    ensures GuardInv(g) <==> Sound(g.q, g.exec, g.trial, g.history)
  {
    hide Mirror, Counted, Trials, Heard, NoneFailed;
    if Inv(g.q) { InvHasFile(g.q); }
  }

  lemma InvHasFile(q: State)
    requires Inv(q)
    ensures HasFile(q) && q.cur.safe <= |Cur(q.cur)| && Ordered(Cur(q.cur)) && Rising(q.recs)
  {
    hide CrashOk, WaitOk, CallsOk, AckOk, SyncShape, CountOpen, RecOk, Ordered;
    RisingRows(q.recs);
    assert Ordered(q.cur.hist[|q.cur.hist| - 1]);
  }

  /** A 'P' of the journal numbered as a record of the table is that record's. */
  lemma SameTag(q: State, i: nat)
    requires Inv(q) && HasFile(q) && i < |q.recs|
    ensures forall k :: 0 <= k < |Cur(q.cur)| && Cur(q.cur)[k].rec.typ == P && Cur(q.cur)[k].rec.seqno == q.recs[i].row.seqno ==>
              Cur(q.cur)[k].tag == q.recs[i].tag
  {
    hide FilesOk, WaitOk, CallsOk, AckOk, SyncShape, RecsOk, FileKeeps, FileRetracts, FilePairs, TagFits, Out;
    forall k | 0 <= k < |Cur(q.cur)| && Cur(q.cur)[k].rec.typ == P && Cur(q.cur)[k].rec.seqno == q.recs[i].row.seqno
      ensures Cur(q.cur)[k].tag == q.recs[i].tag
    {
      FloorOk(q);
      assert Cur(q.cur)[k] in q.cur.hist[|q.cur.hist| - 1];
      assert May(q.cur, Cur(q.cur)[k]);
      assert Legit(Cur(q.cur)[k], q.calls, q.recs, q.nextSeq, q.broken || q.tainted);
    }
  }

  lemma FloorOk(q: State)
    requires Inv(q)
    ensures q.cur.floor < |q.cur.hist|
  {
    hide CrashOk, WaitOk, CallsOk, AckOk, SyncShape, RecsOk;
  }

  // ---- one record changes ----

  lemma CountedAt(recs: seq<Live>, i: nat, t': Live, h: seq<Event>, h': seq<Event>)
    requires Counted(recs, h) && i < |recs| && SameElsewhere(Rid(recs[i]), h, h') && CountedOne(t', h')
    requires forall k :: 0 <= k < |recs| && k != i ==> Rid(recs[k]) != Rid(recs[i])
    ensures Counted(recs[i := t'], h')
  {
    hide Condemned, IsRunning, Deaths;
    var recs' := recs[i := t'];
    forall k | 0 <= k < |recs'| ensures CountedOne(recs'[k], h') {
      if k != i { assert CountedOne(recs[k], h); }
    }
  }

  lemma TrialsAt(recs: seq<Live>, i: nat, t': Live, exec: set<Id>, trial: nat, exec': set<Id>)
    requires Trials(recs, exec, trial) && i < |recs| && exec' <= exec && OnTrial(t', exec', trial)
    ensures Trials(recs[i := t'], exec', trial)
  {
    var recs' := recs[i := t'];
    forall k | 0 <= k < |recs'| ensures OnTrial(recs'[k], exec', trial) {
      if k != i { assert OnTrial(recs[k], exec, trial); }
    }
  }

  lemma HeardMore(h: seq<Event>, e: Event, n: nat)
    requires Heard(h, n) && !e.Died? && e.id.0 <= n
    ensures Heard(h + [e], n)
  {
  }

  lemma UniqueIds(q: State, i: nat)
    requires Inv(q) && i < |q.recs|
    ensures forall k :: 0 <= k < |q.recs| && k != i ==> Rid(q.recs[k]) != Rid(q.recs[i])
    ensures q.recs[i].row.seqno >= 1 && 1 <= q.recs[i].tag <= |q.calls|
  {
    hide Inv;
    Numbered(q, i);
    RecAt(q, i);
  }

  /** A marker appended with its record. */
  lemma MarkerSound(q: State, i: nat, t': Live, typ: Byte, tag: nat, q': State, exec: set<Id>, exec': set<Id>, trial: nat, h: seq<Event>, h': seq<Event>)
    requires Sound(q, exec, trial, h) && i < |q.recs| && Rid(t') == Rid(q.recs[i]) && typ != P && exec' <= exec
    requires Inv(q') && HasFile(q') && q'.open && !q'.broken && |q'.calls| >= |q.calls| && NoneFailed(q'.calls) && q'.recs == q.recs[i := t']
    requires Cur(q'.cur) == Cur(q.cur) + [Entry(Marker(typ, q.recs[i].row.seqno), tag)]
    requires SameElsewhere(Rid(q.recs[i]), h, h') && Heard(h', |q'.calls|) && CountedOne(t', h') && OnTrial(t', exec', trial)
    requires forall r :: MirrorRow(r, Rid(q.recs[i]), q.recs, h) ==> MirrorRow(Mark(r, Marker(typ, q.recs[i].row.seqno)), Rid(q.recs[i]), q'.recs, h')
    ensures Sound(q', exec', trial, h')
  {
    hide Inv, SameElsewhere, MirrorRow, CountedOne, OnTrial, Counted, Trials, Mirror, Heard, NoneFailed;
    SameTag(q, i);
    UniqueIds(q, i);
    MirrorMarker(Cur(q.cur), Entry(Marker(typ, q.recs[i].row.seqno), tag), q.recs, i, t', h, h');
    CountedAt(q.recs, i, t', h, h');
    TrialsAt(q.recs, i, t', exec, trial, exec');
  }

  /** A change of one record the journal does not see. */
  lemma SilentSound(q: State, i: nat, t': Live, q': State, exec: set<Id>, exec': set<Id>, trial: nat, h: seq<Event>, h': seq<Event>)
    requires Sound(q, exec, trial, h) && i < |q.recs| && Rid(t') == Rid(q.recs[i]) && exec' <= exec
    requires Inv(q') && HasFile(q') && q'.open && !q'.broken && |q'.calls| >= |q.calls| && NoneFailed(q'.calls) && q'.recs == q.recs[i := t']
    requires Cur(q'.cur) == Cur(q.cur)
    requires SameElsewhere(Rid(q.recs[i]), h, h') && Heard(h', |q'.calls|) && CountedOne(t', h') && OnTrial(t', exec', trial)
    requires forall r :: MirrorRow(r, Rid(q.recs[i]), q.recs, h) ==> MirrorRow(r, Rid(q.recs[i]), q'.recs, h')
    ensures Sound(q', exec', trial, h')
  {
    hide Inv, SameElsewhere, MirrorRow, CountedOne, OnTrial, Counted, Trials, Mirror, Heard, NoneFailed;
    UniqueIds(q, i);
    MirrorSilent(Cur(q.cur), q.recs, i, t', h, h');
    CountedAt(q.recs, i, t', h, h');
    TrialsAt(q.recs, i, t', exec, trial, exec');
  }

  lemma AppendedMarker(q: State, typ: Byte, seqno: nat)
    requires HasFile(q) && q.open && !q.broken
    ensures var q' := WriteMarker(q, typ, seqno, MarkOk);
            q' == q.(cur := q'.cur) && HasFile(q') && Cur(q'.cur) == Cur(q.cur) + [Entry(Marker(typ, seqno), 0)]
  {
  }

  // ---- attempts ----

  lemma BeginSound(g: Guard, i: nat)
    requires GuardInv(g) && MainEnabled(g, Begin(i))
    ensures GuardInv(Main(g, Begin(i)))
  {
    hide Inv, Mirror, Counted, Trials, Heard, NoneFailed, WriteMarker, SameElsewhere, MirrorRow;
    var q, id := g.q, Rid(g.q.recs[i]);
    var t' := q.recs[i].(row := q.recs[i].row.(inflight := true));
    var h' := g.history + [Began(id)];
    SoundIs(g);
    SoundIs(Main(g, Begin(i)));
    StartedInv(q, i, MarkOk);
    AppendedMarker(q.(recs := q.recs[i := t']), S, q.recs[i].row.seqno);
    SameAfter(g.history, Began(id), id);
    UniqueIds(q, i);
    HeardMore(g.history, Began(id), |q.calls|);
    Next(g.history, Began(id), id);
    CountedAtOne(q.recs, i, g.history);
    TrialsAtOne(q.recs, i, g.exec, g.trial);
    BeginMirror(q.recs, i, g.history);
    MarkerSound(q, i, t', S, 0, DoStarted(q, i, MarkOk), g.exec, g.exec, g.trial, g.history, h');
  }

  lemma CountedAtOne(recs: seq<Live>, i: nat, h: seq<Event>)
    requires Counted(recs, h) && i < |recs|
    ensures CountedOne(recs[i], h)
  {
  }

  lemma TrialsAtOne(recs: seq<Live>, i: nat, exec: set<Id>, trial: nat)
    requires Trials(recs, exec, trial) && i < |recs|
    ensures OnTrial(recs[i], exec, trial)
  {
  }

  /** The journal's row of an open record is closed, or its twin. */
  lemma OpenMirror(recs: seq<Live>, i: nat, h: seq<Event>, r: Row)
    requires i < |recs| && !recs[i].row.done && !recs[i].row.quarantined && MirrorRow(r, Rid(recs[i]), recs, h)
    requires forall k :: 0 <= k < |recs| && k != i ==> Rid(recs[k]) != Rid(recs[i])
    ensures r.done || (!r.quarantined && Twin(recs[i], r, Rid(recs[i])))
  {
  }

  lemma BeginMirror(recs: seq<Live>, i: nat, h: seq<Event>)
    requires i < |recs| && IsOpen(recs[i])
    requires forall k :: 0 <= k < |recs| && k != i ==> Rid(recs[k]) != Rid(recs[i])
    ensures var id, q := Rid(recs[i]), recs[i].row.seqno; var recs' := recs[i := recs[i].(row := recs[i].row.(inflight := true))];
            forall r :: MirrorRow(r, id, recs, h) ==> MirrorRow(Mark(r, Marker(S, q)), id, recs', h + [Began(id)])
  {
    var id, q := Rid(recs[i]), recs[i].row.seqno;
    var recs' := recs[i := recs[i].(row := recs[i].row.(inflight := true))];
    forall r | MirrorRow(r, id, recs, h) ensures MirrorRow(Mark(r, Marker(S, q)), id, recs', h + [Began(id)]) {
      OpenMirror(recs, i, h, r);
      if !r.done { assert Twin(recs'[i], Mark(r, Marker(S, q)), id); }
    }
  }

  lemma EndedMirror(recs: seq<Live>, i: nat, h: seq<Event>, h': seq<Event>)
    requires i < |recs| && IsOpen(recs[i])
    requires forall k :: 0 <= k < |recs| && k != i ==> Rid(recs[k]) != Rid(recs[i])
    ensures var id, q := Rid(recs[i]), recs[i].row.seqno; var recs' := recs[i := recs[i].(row := recs[i].row.(inflight := false, crashes := 0))];
            forall r :: MirrorRow(r, id, recs, h) ==> MirrorRow(Mark(r, Marker(F, q)), id, recs', h')
  {
    var id, q := Rid(recs[i]), recs[i].row.seqno;
    var recs' := recs[i := recs[i].(row := recs[i].row.(inflight := false, crashes := 0))];
    forall r | MirrorRow(r, id, recs, h) ensures MirrorRow(Mark(r, Marker(F, q)), id, recs', h') {
      OpenMirror(recs, i, h, r);
      if !r.done { assert Twin(recs'[i], Mark(r, Marker(F, q)), id); }
    }
  }

  lemma EndedSound(q: State, i: nat, exec: set<Id>, exec': set<Id>, trial: nat, h: seq<Event>)
    requires Sound(q, exec, trial, h) && i < |q.recs| && IsOpen(q.recs[i]) && q.recs[i].handed && q.recs[i].row.inflight && exec' <= exec
    ensures Sound(DoAttemptEnded(q, i, MarkOk), exec', trial, h + [Ended(Rid(q.recs[i]))])
  {
    hide Inv, Mirror, Counted, Trials, Heard, NoneFailed, WriteMarker, SameElsewhere, MirrorRow;
    var id := Rid(q.recs[i]);
    var t' := q.recs[i].(row := q.recs[i].row.(inflight := false, crashes := 0));
    var h' := h + [Ended(id)];
    InvHasFile(q);
    AttemptEndedInv(q, i, MarkOk);
    AppendedMarker(q.(recs := q.recs[i := t']), F, q.recs[i].row.seqno);
    SameAfter(h, Ended(id), id);
    UniqueIds(q, i);
    HeardMore(h, Ended(id), |q.calls|);
    Next(h, Ended(id), id);
    CountedAtOne(q.recs, i, h);
    TrialsAtOne(q.recs, i, exec, trial);
    EndedMirror(q.recs, i, h, h');
    MarkerSound(q, i, t', F, 0, DoAttemptEnded(q, i, MarkOk), exec, exec', trial, h, h');
  }

  // ---- verdicts ----

  lemma ClosedMirror(recs: seq<Live>, i: nat, t': Live, h: seq<Event>, h': seq<Event>)
    requires i < |recs|
    ensures var id, q := Rid(recs[i]), recs[i].row.seqno;
            forall r :: MirrorRow(r, id, recs, h) ==> MirrorRow(Mark(r, Marker(D, q)), id, recs[i := t'], h')
  {
  }

  lemma PoisonMirror(recs: seq<Live>, i: nat, t': Live, h: seq<Event>, h': seq<Event>)
    requires i < |recs| && t'.row.quarantined && Poisoned(Rid(recs[i])) in h'
    requires forall k :: 0 <= k < |recs| && k != i ==> Rid(recs[k]) != Rid(recs[i])
    ensures var id, q := Rid(recs[i]), recs[i].row.seqno;
            forall r :: MirrorRow(r, id, recs, h) ==> MirrorRow(Mark(r, Marker(Q, q)), id, recs[i := t'], h')
  {
  }

  lemma RetractingMirror(recs: seq<Live>, i: nat, t': Live, h: seq<Event>, h': seq<Event>)
    requires i < |recs| && !recs[i].row.done && !recs[i].row.quarantined && recs[i].retracting > 0
    requires forall k :: 0 <= k < |recs| && k != i ==> Rid(recs[k]) != Rid(recs[i])
    ensures forall r :: MirrorRow(r, Rid(recs[i]), recs, h) ==> MirrorRow(r, Rid(recs[i]), recs[i := t'], h')
  {
    forall r | MirrorRow(r, Rid(recs[i]), recs, h) ensures r.done { OpenMirror(recs, i, h, r); }
  }

  /** A verdict, whatever it says of the attempt that ended with it. */
  lemma VerdictSound(q: State, i: nat, v: Verdict, exec: set<Id>, exec': set<Id>, trial: nat, h: seq<Event>, h': seq<Event>)
    requires Sound(q, exec, trial, h) && i < |q.recs| && IsOpen(q.recs[i]) && q.recs[i].handed && v != NoVerdict
    requires exec' <= exec && Rid(q.recs[i]) !in exec'
    requires SameElsewhere(Rid(q.recs[i]), h, h') && Heard(h', |q.calls|) && (v == Poison ==> Poisoned(Rid(q.recs[i])) in h')
    ensures Sound(DoVerdict(q, i, v, MarkOk), exec', trial, h')
  {
    hide Inv, Mirror, Counted, Trials, Heard, NoneFailed, WriteMarker, SameElsewhere, MirrorRow;
    var id, t := Rid(q.recs[i]), q.recs[i];
    var q' := DoVerdict(q, i, v, MarkOk);
    InvHasFile(q);
    VerdictInv(q, i, v, MarkOk);
    UniqueIds(q, i);
    if t.retracting > 0 {
      var t' := t.(deferred := v);
      RetractingMirror(q.recs, i, t', h, h');
      SilentSound(q, i, t', q', exec, exec', trial, h, h');
    } else if v == Poison {
      var t' := t.(row := t.row.(quarantined := true, inflight := false), deferred := NoVerdict);
      AppendedMarker(q.(recs := q.recs[i := t'], pending := if q.pending > 0 then q.pending - 1 else 0), Q, t.row.seqno);
      PoisonMirror(q.recs, i, t', h, h');
      MarkerSound(q, i, t', Q, 0, q', exec, exec', trial, h, h');
    } else {
      GoneSound(q, i, q', exec, exec', trial, h, h');
    }
  }

  lemma GoneSound(q: State, i: nat, q': State, exec: set<Id>, exec': set<Id>, trial: nat, h: seq<Event>, h': seq<Event>)
    requires Sound(q, exec, trial, h) && i < |q.recs| && Inv(q') && exec' <= exec && q' == ApplyVerdict(q, i, Gone, MarkOk)
    requires SameElsewhere(Rid(q.recs[i]), h, h') && Heard(h', |q.calls|)
    ensures Sound(q', exec', trial, h')
  {
    hide Inv, Mirror, Counted, Trials, Heard, NoneFailed, WriteMarker, SameElsewhere, MirrorRow;
    var t := q.recs[i];
    var s1 := q.(recs := q.recs[i := t.(deferred := NoVerdict)]);
    var t' := CloseRec(s1, i).recs[i];
    UpdateTwice(q.recs, i, t.(deferred := NoVerdict), t');
    AppendedMarker(CloseRec(s1, i), D, t.row.seqno);
    ClosedMirror(q.recs, i, t', h, h');
    MarkerSound(q, i, t', D, 0, q', exec, exec', trial, h, h');
  }

  lemma FailSound(g: Guard, m: Move)
    requires GuardInv(g) && m.Fail? && MainEnabled(g, m)
    ensures GuardInv(Main(g, m)) && (g.trial == Over(g, m) ==> NoneOut(Main(g, m)))
  {
    hide Inv, Mirror, Counted, Trials, Heard, NoneFailed, WriteMarker, SameElsewhere, DoAttemptEnded, DoVerdict, Sound;
    var q, i, id := g.q, m.i, Rid(g.q.recs[m.i]);
    SoundIs(g);
    SoundIs(Main(g, m));
    var g' := Main(g, m);
    var q1 := DoAttemptEnded(q, i, MarkOk);
    EndedSound(q, i, g.exec, if m.own then g.exec - {id} else g'.exec, g.trial, g.history);
    EndedAre(q, i);
    if m.own {
      SoundParts(q1, g.exec - {id}, g.trial, g'.history);
      SameAtAll(id, g'.history);
      VerdictSound(q1, i, Gone, g.exec - {id}, g.exec - {id}, g.trial, g'.history, g'.history);
    }
    if m.own { VerdictAre(q1, i, Gone); }
    if g.trial == Over(g, m) { TurnDone(g', i); }
  }

  lemma SoundParts(q: State, exec: set<Id>, trial: nat, h: seq<Event>)
    requires Sound(q, exec, trial, h)
    ensures Heard(h, |q.calls|) && HasFile(q)
  {
  }

  lemma EndedAre(q: State, i: nat)
    requires HasFile(q) && i < |q.recs|
    ensures var q1 := DoAttemptEnded(q, i, MarkOk);
            HasFile(q1) && q1.recs == q.recs[i := q.recs[i].(row := q.recs[i].row.(inflight := false, crashes := 0))] && q1.calls == q.calls
  {
  }

  /** No suspect is in the engine's hands. */
  ghost predicate NoneOut(g: Guard) {
    forall i :: 0 <= i < |g.q.recs| && Rid(g.q.recs[i]) in g.exec && !g.q.recs[i].row.done && !g.q.recs[i].row.quarantined ==> !Suspect(g.q.recs[i])
  }

  lemma TurnDone(g: Guard, i: nat)
    requires GuardInv(g) && i < |g.q.recs| && g.trial == g.q.recs[i].row.seqno
    requires Rid(g.q.recs[i]) in g.exec ==> g.q.recs[i].row.done || !Suspect(g.q.recs[i])
    ensures NoneOut(g)
  {
    hide Inv, Mirror, Counted, Heard, NoneFailed;
    Numbered(g.q, i);
    forall k | 0 <= k < |g.q.recs| && Rid(g.q.recs[k]) in g.exec && !g.q.recs[k].row.done && !g.q.recs[k].row.quarantined
      ensures !Suspect(g.q.recs[k])
    {
      assert OnTrial(g.q.recs[k], g.exec, g.trial);
    }
  }

  lemma VerdictAre(q: State, i: nat, v: Verdict)
    requires HasFile(q) && i < |q.recs|
    ensures var recs' := DoVerdict(q, i, v, MarkOk).recs;
            |recs'| == |q.recs| && Rid(recs'[i]) == Rid(q.recs[i])
  {
    hide WriteMarker;
    var t := q.recs[i];
    if t.retracting == 0 && v == Poison {
      MarkerRecs(q.(recs := q.recs[i := t.(row := t.row.(quarantined := true, inflight := false), deferred := NoVerdict)],
                    pending := if q.pending > 0 then q.pending - 1 else 0), Q, t.row.seqno, MarkOk);
    } else if t.retracting == 0 {
      MarkerRecs(CloseRec(q.(recs := q.recs[i := t.(deferred := NoVerdict)]), i), D, t.row.seqno, MarkOk);
    }
  }

  lemma JudgeSound(g: Guard, m: Move)
    requires GuardInv(g) && m.Judge? && MainEnabled(g, m)
    ensures GuardInv(Main(g, m)) && (g.trial == Over(g, m) ==> NoneOut(Main(g, m)))
  {
    hide Inv, Mirror, Counted, Trials, Heard, NoneFailed, WriteMarker, SameElsewhere, DoVerdict, Sound;
    var q, i, id, g' := g.q, m.i, Rid(g.q.recs[m.i]), Main(g, m);
    SoundIs(g);
    SoundIs(g');
    InvHasFile(q);
    UniqueIds(q, i);
    JudgeHistory(g.history, id, m.verdict, |q.calls|);
    VerdictSound(q, i, m.verdict, g.exec, g.exec - {id}, g.trial, g.history, g'.history);
    VerdictAre(q, i, m.verdict);
    if g.trial == Over(g, m) { TurnDone(g', i); }
  }

  lemma JudgeHistory(h: seq<Event>, id: Id, v: Verdict, n: nat)
    requires Heard(h, n) && id.0 <= n
    ensures var h' := h + [Ended(id)] + if v == Poison then [Poisoned(id)] else [];
            SameElsewhere(id, h, h') && Heard(h', n) && (v == Poison ==> Poisoned(id) in h')
  {
    hide IsRunning, Deaths, Condemned;
    SameAfter(h, Ended(id), id);
    if v == Poison {
      SameAfter(h + [Ended(id)], Poisoned(id), id);
    } else {
      assert h + [Ended(id)] + [] == h + [Ended(id)];
    }
  }

  lemma FewerOut(recs: seq<Live>, exec: set<Id>, exec': set<Id>, trial: nat)
    requires Trials(recs, exec, trial) && exec' <= exec
    ensures Trials(recs, exec', trial)
  {
    forall k | 0 <= k < |recs| ensures OnTrial(recs[k], exec', trial) { assert OnTrial(recs[k], exec, trial); }
  }

  lemma LetGoSound(g: Guard, m: Move)
    requires GuardInv(g) && m.LetGo? && MainEnabled(g, m)
    ensures GuardInv(Main(g, m)) && (g.trial == Over(g, m) ==> NoneOut(Main(g, m)))
  {
    hide Inv, Mirror, Counted, Trials, Heard, NoneFailed;
    FewerOut(g.q.recs, g.exec, Main(g, m).exec, g.trial);
    if g.trial == Over(g, m) { TurnDone(Main(g, m), m.i); }
  }

  lemma ForgetSound(g: Guard, m: Move)
    requires GuardInv(g) && m.Forget? && MainEnabled(g, m)
    ensures GuardInv(Main(g, m))
  {
    hide Inv, Mirror, Counted, Trials, Heard, NoneFailed;
    FewerOut(g.q.recs, g.exec, Main(g, m).exec, g.trial);
  }

  // ---- handing a record over ----

  lemma HandedMirror(recs: seq<Live>, i: nat, h: seq<Event>)
    requires i < |recs|
    ensures var t' := recs[i].(handed := true);
            forall r :: MirrorRow(r, Rid(recs[i]), recs, h) ==> MirrorRow(r, Rid(recs[i]), recs[i := t'], h)
  {
    hide Condemned;
    var recs' := recs[i := recs[i].(handed := true)];
    forall r | MirrorRow(r, Rid(recs[i]), recs, h) ensures MirrorRow(r, Rid(recs[i]), recs', h) {
      if !r.done && !r.quarantined {
        var j :| 0 <= j < |recs| && Twin(recs[j], r, Rid(recs[i]));
        assert Twin(recs'[j], r, Rid(recs[i]));
      }
    }
  }

  /** The engine takes a record: it is then the one on trial, if it is a suspect. */
  lemma HandSound(q: State, i: nat, exec: set<Id>, trial: nat, trial': nat, h: seq<Event>)
    requires Sound(q, exec, trial, h) && i < |q.recs| && IsOpen(q.recs[i]) && !q.recs[i].handed
    requires if Suspect(q.recs[i]) then trial' == q.recs[i].row.seqno && NoneOut(Guard(q, trial, exec, h)) else trial' == trial
    ensures Sound(DoHand(q, i), exec + {Rid(q.recs[i])}, trial', h)
  {
    hide Inv, Mirror, Counted, Trials, Heard, NoneFailed, SameElsewhere, MirrorRow, Condemned;
    var t', id := q.recs[i].(handed := true), Rid(q.recs[i]);
    InvHasFile(q);
    UniqueIds(q, i);
    HandInv(q, i);
    SameAtAll(id, h);
    HandedMirror(q.recs, i, h);
    MirrorSilent(Cur(q.cur), q.recs, i, t', h, h);
    CountedAtOne(q.recs, i, h);
    CountedAt(q.recs, i, t', h, h);
    HandTrials(q, i, exec, trial, trial', h);
  }

  lemma HandTrials(q: State, i: nat, exec: set<Id>, trial: nat, trial': nat, h: seq<Event>)
    requires Trials(q.recs, exec, trial) && i < |q.recs| && forall k :: 0 <= k < |q.recs| && k != i ==> Rid(q.recs[k]) != Rid(q.recs[i])
    requires if Suspect(q.recs[i]) then trial' == q.recs[i].row.seqno && NoneOut(Guard(q, trial, exec, h)) else trial' == trial
    ensures Trials(q.recs[i := q.recs[i].(handed := true)], exec + {Rid(q.recs[i])}, trial')
  {
    var recs' := q.recs[i := q.recs[i].(handed := true)];
    forall k | 0 <= k < |recs'| ensures OnTrial(recs'[k], exec + {Rid(q.recs[i])}, trial') {
      if k != i { assert OnTrial(q.recs[k], exec, trial); }
    }
  }

  lemma GiveSound(g: Guard, m: Move)
    requires GuardInv(g) && m.Give? && MainEnabled(g, m)
    ensures GuardInv(Main(g, m))
  {
    hide Sound, Inv, Mirror, Counted, Trials, Heard, NoneFailed;
    SoundIs(g);
    SoundIs(Main(g, m));
    HandSound(g.q, m.i, g.exec, g.trial, g.trial, g.history);
  }

  lemma TakeNextSound(g: Guard, next: Turn)
    requires GuardInv(g) && NoneOut(g) && CanTake(g, next)
    ensures GuardInv(TakeNext(g, next))
  {
    hide Sound, Inv, Mirror, Counted, Trials, Heard, NoneFailed;
    SoundIs(g);
    SoundIs(TakeNext(g, next));
    if next.Turn? { HandSound(g.q, next.i, g.exec, g.trial, g.q.recs[next.i].row.seqno, g.history); }
  }

  lemma NobodyOnTrial(g: Guard)
    requires GuardInv(g) && NoneOut(g)
    ensures GuardInv(g.(trial := 0)) && NoneOut(g.(trial := 0))
  {
    hide Inv, Mirror, Counted, Heard, NoneFailed;
    forall k | 0 <= k < |g.q.recs| ensures OnTrial(g.q.recs[k], g.exec, 0) { assert OnTrial(g.q.recs[k], g.exec, g.trial); }
  }

  lemma NoTrialNoneOut(g: Guard)
    requires GuardInv(g) && g.trial == 0
    ensures NoneOut(g)
  {
    hide Inv, Mirror, Counted, Heard, NoneFailed;
    forall k | 0 <= k < |g.q.recs| && Rid(g.q.recs[k]) in g.exec && !g.q.recs[k].row.done && !g.q.recs[k].row.quarantined
      ensures !Suspect(g.q.recs[k])
    {
      assert OnTrial(g.q.recs[k], g.exec, g.trial);
      UniqueIds(g.q, k);
    }
  }
}
