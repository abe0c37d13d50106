/** Crash and reopen: what the next run loads, and the invariant through it. */
module CommitCrash {
  import opened LittleEndian
  import opened Journal
  import opened RecordTable
  import opened Scars
  import opened Disk
  import opened GroupCommit
  import opened GroupCommitInv
  import opened CommitPast
  import opened CommitSync
  import opened CommitCompact

  // ---- what a journal loads ----

  lemma {:induction false} TagOfIs(es: Log, k: nat)
    requires Ordered(es) && k < |es| && es[k].rec.typ == P
    ensures TagOf(es, es[k].rec.seqno) == es[k].tag
    decreases |es|
  {
    var n := |es| - 1;
    if k < n {
      assert Ordered(es[..n]);
      TagOfIs(es[..n], k);
    }
  }

  lemma {:induction false} MarksBounds(row: Row, rs: seq<Rec>)
    requires row.crashes < 0x1_0000_0000 && |row.name| <= MAX_NAME && |row.payload| <= MAX_PAYLOAD
    ensures var m := Marks(row, rs); m.crashes < 0x1_0000_0000 && |m.name| <= MAX_NAME && |m.payload| <= MAX_PAYLOAD
  {
    Widths();
    if |rs| > 0 {
      MarksBounds(row, rs[..|rs| - 1]);
    }
  }

  /** Some 'D' in the log is about record `q`. */
  ghost predicate HasD(es: Log, q: nat) {
    exists d :: d in es && d.rec.typ == D && d.rec.seqno == q
  }

  /** In an ordered log a 'D' counts only after its 'P', and there is always one there. */
  lemma DAfterP(es: Log, k: nat)
    requires Ordered(es) && k < |es| && es[k].rec.typ == P
    ensures var rs := Recs(es)[k + 1..]; var q := es[k].rec.seqno;
            (exists j :: 0 <= j < |rs| && rs[j].typ == D && rs[j].seqno == q) <==> HasD(es, q)
  {
    var rs, q := Recs(es)[k + 1..], es[k].rec.seqno;
    if HasD(es, q) {
      var d :| d in es && d.rec.typ == D && d.rec.seqno == q;
      var i :| 0 <= i < |es| && es[i] == d;
      assert i > k;
      assert rs[i - k - 1] == d.rec;
    }
    if exists j :: 0 <= j < |rs| && rs[j].typ == D && rs[j].seqno == q {
      var j :| 0 <= j < |rs| && rs[j].typ == D && rs[j].seqno == q;
      assert es[k + 1 + j].rec == rs[j] && es[k + 1 + j] in es;
    }
  }

  /** What the row of the 'P' at `k` has become. */
  ghost predicate LoadedFrom(es: Log, row: Row, k: nat) {
    && k < |es| && es[k].rec.typ == P && es[k].rec.seqno == row.seqno
    && (row.done <==> HasD(es, row.seqno))
    && (!row.done ==> PRec(row) == es[k].rec)
    && row.crashes < 0x1_0000_0000 && |row.name| <= MAX_NAME && |row.payload| <= MAX_PAYLOAD
  }

  lemma RowOfLoaded(es: Log, k: nat)
    requires Ordered(es) && k < |es| && es[k].rec.typ == P
    ensures LoadedFrom(es, RowOf(Recs(es), k), k)
  {
    hide HasD, Ordered;
    var rs := Recs(es);
    RecWritable(es, k);
    ClosedByD(FreshRow(rs[k]), rs[k + 1..]);
    MarksBounds(FreshRow(rs[k]), rs[k + 1..]);
    DAfterP(es, k);
  }

  lemma RecWritable(es: Log, k: nat)
    requires Ordered(es) && k < |es| && es[k].rec.typ != SCRAP
    ensures Writable(es[k].rec)
  {
    hide IsScrap;
  }

  lemma LoadRow(es: Log, i: nat) returns (k: nat)
    requires Ordered(es) && i < |Meaning(Recs(es)).rows|
    ensures LoadedFrom(es, Meaning(Recs(es)).rows[i], k)
    ensures TagOf(es, Meaning(Recs(es)).rows[i].seqno) == es[k].tag
  {
    hide Meaning, HasD;
    var rs := Recs(es);
    var rows := Meaning(rs).rows;
    OrderedWrites(es);
    MeaningOnly(rs, i);
    k :| 0 <= k < |rs| && rs[k].typ == P && rs[k].seqno == rows[i].seqno;
    MeaningHas(rs, k);
    MeaningOk(rs);
    AscendingFind(rows, i);
    RowOfLoaded(es, k);
    TagOfIs(es, k);
  }

  lemma LoadHas(es: Log, e: Entry) returns (i: nat)
    requires Ordered(es) && e in es && e.rec.typ == P
    ensures i < |Load(es)| && Load(es)[i].tag == e.tag && Load(es)[i].row.seqno == e.rec.seqno
    ensures Load(es)[i].row.done <==> HasD(es, e.rec.seqno)
  {
    hide Meaning, HasD, OpenRow;
    var rs := Recs(es);
    var k :| 0 <= k < |es| && es[k] == e;
    OrderedWrites(es);
    MeaningHas(rs, k);
    i := Find(Meaning(rs).rows, rs[k].seqno);
    RowOfLoaded(es, k);
    TagOfIs(es, k);
    OpenRowKeeps(Meaning(rs).rows[i]);
  }

  lemma OpenRowKeeps(r: Row)
    ensures var o := OpenRow(r);
            o.seqno == r.seqno && o.name == r.name && o.payload == r.payload && o.done == r.done
            && (r.crashes < 0x1_0000_0000 ==> o.crashes < 0x1_0000_0000)
  {
  }

  /** A loaded record, in terms of the log. */
  lemma LoadRec(es: Log, i: nat) returns (k: nat)
    requires Ordered(es) && i < |Load(es)|
    ensures k < |es| && es[k].rec.typ == P && es[k].tag == Load(es)[i].tag && es[k].rec.seqno == Load(es)[i].row.seqno
    ensures Load(es)[i].row.done <==> HasD(es, Load(es)[i].row.seqno)
    ensures !Load(es)[i].row.done ==> PEntry(Load(es)[i]) == es[k]
    ensures Load(es)[i].row.crashes < 0x1_0000_0000 && |Load(es)[i].row.name| <= MAX_NAME && |Load(es)[i].row.payload| <= MAX_PAYLOAD
  {
    hide Meaning, HasD, OpenRow, Ordered;
    k := LoadRow(es, i);
    OpenRowKeeps(Meaning(Recs(es)).rows[i]);
  }

  lemma LoadNumbers(es: Log)
    requires Ordered(es)
    ensures Rising(Load(es))
    ensures forall i :: 0 <= i < |Load(es)| ==> 1 <= Load(es)[i].row.seqno < Meaning(Recs(es)).nextSeq
    ensures 1 <= Meaning(Recs(es)).nextSeq <= MAX_SEQ + 1
    ensures forall e :: e in es ==> e.rec.seqno < Meaning(Recs(es)).nextSeq
  {
    hide Meaning, OpenRow;
    var rs := Recs(es);
    OrderedWrites(es);
    MeaningOk(rs);
    var rows, recs := Meaning(rs).rows, Load(es);
    forall i | 0 <= i < |recs| ensures recs[i].row.seqno == rows[i].seqno { OpenRowKeeps(rows[i]); }
    forall e | e in es ensures e.rec.seqno < Meaning(rs).nextSeq {
      var k :| 0 <= k < |es| && es[k] == e;
      assert rs[k].seqno < Meaning(rs).nextSeq;
    }
  }

  // ---- the calls a crash cuts off ----

  lemma {:induction false} LostCount(calls: seq<Call>, tag: nat, q: nat)
    ensures CountRetracting(LoseAll(calls), tag, q) == 0
  {
    if |calls| > 0 {
      LostCount(calls[..|calls| - 1], tag, q);
      assert LoseAll(calls)[..|calls| - 1] == LoseAll(calls[..|calls| - 1]);
    }
  }

  lemma LostRetracts(calls: seq<Call>, tag: nat, q: nat)
    requires DurablyRetracted(calls, tag, q)
    ensures DurablyRetracted(LoseAll(calls), tag, q)
  {
    var c :| 0 <= c < |calls| && Retracts(calls[c], tag, q) && MadeDurable(calls[c]);
    assert Retracts(LoseAll(calls)[c], tag, q) && MadeDurable(LoseAll(calls)[c]);
  }

  lemma LostDoubtful(calls: seq<Call>, tainted: bool, tainted': bool, tag: nat, q: nat)
    requires Doubtful(calls, tainted, tag, q) && (tainted ==> tainted')
    ensures Doubtful(LoseAll(calls), tainted', tag, q)
  {
    var c :| 0 <= c < |calls| && Retracts(calls[c], tag, q) && (tainted || (calls[c].phase == Lost && !Out(calls[c])));
    assert Retracts(LoseAll(calls)[c], tag, q);
  }

  // ---- the state just after replay ----

  /** What the crash leaves of file `f`. */
  ghost predicate Survivors(f: File, es: Log) {
    && Ordered(es)
    && (forall e :: Sure(f, e) ==> e in es)
    && (forall e :: e in es ==> May(f, e))
  }

  function AfterReplay(s: State, es: Log): State {
    State([], Whole(es), true, false, false, |es|, Idle, LoseAll(s.calls), Load(es), Meaning(Recs(es)).nextSeq,
          CountOpen(Load(es)), s.closed, s.tainted || s.broken)
  }

  lemma LoadedRecOk(s: State, f: File, es: Log, i: nat)
    requires PastOk(f, s) && Survivors(f, es) && i < |Load(es)|
    ensures RecOk(Load(es)[i], LoseAll(s.calls), Meaning(Recs(es)).nextSeq, s.tainted || s.broken)
  {
    hide Meaning, HasD, Ordered, Sure, PastKeeps, FileRetracts, FilePairs, FileVerdicts, DurablyRetracted, CountRetracting, OpenRow;
    LoadNumbers(es);
    var k := LoadRec(es, i);
    assert es[k] in es;
    assert Belongs(es[k], s.calls, s.broken || s.tainted);
    LostCount(s.calls, Load(es)[i].tag, Load(es)[i].row.seqno);
  }

  lemma LoadedRecsOk(s: State, f: File, es: Log)
    requires PastOk(f, s) && Survivors(f, es)
    ensures RecsOk(AfterReplay(s, es))
  {
    hide PastOk, Survivors, RecOk, Load, CountOpen, Meaning, Rising, Ascending;
    SurvivorsOrdered(f, es);
    LoadNumbers(es);
    RisingRows(Load(es));
    forall i | 0 <= i < |Load(es)| ensures RecOk(Load(es)[i], LoseAll(s.calls), Meaning(Recs(es)).nextSeq, s.tainted || s.broken) {
      LoadedRecOk(s, f, es, i);
    }
  }

  lemma SurvivorsOrdered(f: File, es: Log)
    requires Survivors(f, es)
    ensures Ordered(es)
  {
  }

  lemma LoadedLegit(s: State, f: File, es: Log, e: Entry)
    requires PastOk(f, s) && Survivors(f, es) && e in es
    ensures Legit(e, LoseAll(s.calls), Load(es), Meaning(Recs(es)).nextSeq, s.tainted || s.broken)
  {
    hide Meaning, Ordered, Sure, PastKeeps, FileRetracts, FilePairs, FileVerdicts, OpenRow;
    LoadNumbers(es);
    assert Belongs(e, s.calls, s.broken || s.tainted);
    forall i | 0 <= i < |Load(es)| && Load(es)[i].row.seqno == e.rec.seqno
      ensures (e.rec.typ == D ==> Load(es)[i].row.done) && (e.rec.typ == P ==> Load(es)[i].tag == e.tag)
    {
      var k := LoadRec(es, i);
      if e.rec.typ == P { OnePerNumber(es, k, e); }
    }
  }

  lemma OnePerNumber(es: Log, k: nat, e: Entry)
    requires Ordered(es) && k < |es| && es[k].rec.typ == P && e in es && e.rec.typ == P && e.rec.seqno == es[k].rec.seqno
    ensures es[k] == e
  {
    var j :| 0 <= j < |es| && es[j] == e;
  }

  lemma LoadedKeeps(calls: seq<Call>, es: Log)
    requires Ordered(es)
    ensures FileKeeps(Whole(es), calls, Load(es))
  {
    hide Sure, Kept, Ordered, Meaning, HasD;
    WholeOk(es);
    forall i | 0 <= i < |Load(es)| && Kept(calls, Load(es)[i]) ensures Sure(Whole(es), PEntry(Load(es)[i])) {
      KeptOpen(calls, Load(es)[i]);
      var k := LoadRec(es, i);
      assert es[k] in es;
    }
  }

  lemma KeptOpen(calls: seq<Call>, t: Live)
    requires Kept(calls, t)
    ensures !t.row.done
  {
  }

  lemma LoadedRetracts(f: File, es: Log, calls: seq<Call>)
    requires FileRetracts(f, calls) && Survivors(f, es)
    ensures FileRetracts(Whole(es), LoseAll(calls))
  {
    hide Sure, May, Ordered;
    WholeOk(es);
    forall c | 0 <= c < |calls| && calls[c].kind == Cancel && MadeDurable(LoseAll(calls)[c])
      ensures RetractedIn(Whole(es), calls[c].target, calls[c].first, c + 1)
    {
      assert RetractedIn(f, calls[c].target, calls[c].first, c + 1);
    }
  }

  lemma LoadedFile(s: State, f: File, es: Log)
    requires PastOk(f, s) && Survivors(f, es)
    ensures FileOk(Whole(es), AfterReplay(s, es))
  {
    hide May, Sure, Ordered, FileKeeps, PastMay, PastKeeps, FileRetracts, FilePairs, FileVerdicts, Legit, Load, Meaning, CountOpen;
    var s1 := AfterReplay(s, es);
    WholeOk(es);
    forall e | May(Whole(es), e) ensures Legit(e, s1.calls, s1.recs, s1.nextSeq, s1.broken || s1.tainted) {
      LoadedLegit(s, f, es, e);
    }
    LoadedKeeps(s1.calls, es);
    LoadedRetracts(f, es, s.calls);
    FewerPairs(f, Whole(es), s.calls, s1.calls);
    FewerVerdicts(f, Whole(es), s.closed, s1.closed);
  }

  /** A record whose retraction became durable is loaded closed, or not at all. */
  lemma LoadedClosed(s: State, f: File, es: Log, c: nat, i: nat)
    requires PastOk(f, s) && Survivors(f, es) && c < |s.calls| && s.calls[c].kind == Cancel && MadeDurable(s.calls[c])
    requires i < |Load(es)| && Rid(Load(es)[i]) == (s.calls[c].target, s.calls[c].first)
    ensures Load(es)[i].row.done
  {
    hide May, Sure, Ordered, PastKeeps, PastMay, FilePairs, FileVerdicts, Meaning, OpenRow;
    var k := LoadRec(es, i);
    assert es[k] in es;
    assert RetractedIn(f, s.calls[c].target, s.calls[c].first, c + 1);
    if Sure(f, Entry(Marker(D, s.calls[c].first), c + 1)) {
      assert Entry(Marker(D, s.calls[c].first), c + 1) in es;
    }
  }

  /** The durable retraction behind an answer. */
  lemma Retraction(s: State, c: nat) returns (d: nat)
    requires CallsOk(s) && c < |s.calls| && s.calls[c].kind == Cancel && (s.calls[c].phase == ToldOk || MadeDurable(s.calls[c]))
    ensures d < |s.calls| && s.calls[d].kind == Cancel && MadeDurable(s.calls[d])
    ensures s.calls[d].target == s.calls[c].target && s.calls[d].first == s.calls[c].first
  {
    if MadeDurable(s.calls[c]) { return c; }
    assert CallOk(s.calls, s.recs, s.nextSeq, c);
    d :| 0 <= d < |s.calls| && Retracts(s.calls[d], s.calls[c].target, s.calls[c].first) && MadeDurable(s.calls[d]);
  }

  lemma LoadedCall(s: State, f: File, es: Log, c: nat)
    requires CallsOk(s) && PastOk(f, s) && Survivors(f, es) && c < |s.calls|
    ensures CallOk(LoseAll(s.calls), Load(es), Meaning(Recs(es)).nextSeq, c)
  {
    hide PastOk, Survivors, Load, Meaning, DurablyRetracted, HasRec;
    assert CallOk(s.calls, s.recs, s.nextSeq, c);
    var call := s.calls[c];
    if call.kind == Cancel {
      if call.phase == ToldOk { LostRetracts(s.calls, call.target, call.first); }
      if call.phase == ToldOk || MadeDurable(call) {
        var d := Retraction(s, c);
        forall i | 0 <= i < |Load(es)| && Rid(Load(es)[i]) == (call.target, call.first) ensures Load(es)[i].row.done {
          LoadedClosed(s, f, es, d, i);
        }
      }
    }
  }

  // ---- acknowledged records survive ----

  /** The 'P' of record `q`, as call `c` submitted it. */
  function ItsP(calls: seq<Call>, c: nat, q: nat): Entry
    requires c < |calls| && calls[c].first <= q && q - calls[c].first < |calls[c].items|
  {
    var item := calls[c].items[q - calls[c].first];
    Entry(Rec(P, q, item.name, item.payload), c + 1)
  }

  /** If a record nothing closed comes back closed, some retraction of it had not failed. */
  lemma WhyClosed(s: State, f: File, es: Log, p: Entry)
    requires PastOk(f, s) && Survivors(f, es) && p in es && p.rec.typ == P && (p.tag, p.rec.seqno) !in s.closed && HasD(es, p.rec.seqno)
    ensures exists c :: 0 <= c < |s.calls| && Retracts(s.calls[c], p.tag, p.rec.seqno) && (s.broken || s.tainted || !Out(s.calls[c]))
  {
    hide Sure, Ordered, PastKeeps, FileRetracts, Out, May;
    var d :| d in es && d.rec.typ == D && d.rec.seqno == p.rec.seqno;
    assert Belongs(d, s.calls, s.broken || s.tainted);
    assert !Judged(p, d);
    assert Paired(p, d);
    assert Retracts(s.calls[d.tag - 1], p.tag, p.rec.seqno);
  }

  /** A retraction of an open record that has not failed has not been answered either. */
  lemma Unanswered(s: State, t: Live, c: nat)
    requires CallsOk(s) && t in s.recs && !t.row.done && c < |s.calls| && Retracts(s.calls[c], t.tag, t.row.seqno) && !Out(s.calls[c])
    ensures s.calls[c].phase == InFlight || s.calls[c].phase == Lost
  {
    hide DurablyRetracted, HasRec, Out;
    assert CallOk(s.calls, s.recs, s.nextSeq, c);
    var k :| 0 <= k < |s.recs| && s.recs[k] == t;
    assert Rid(s.recs[k]) == (s.calls[c].target, s.calls[c].first);
  }

  /** It leaves the record in doubt once a crash cuts its answer off. */
  lemma LostInDoubt(s: State, t: Live, c: nat)
    requires CallsOk(s) && t in s.recs && !t.row.done && c < |s.calls| && Retracts(s.calls[c], t.tag, t.row.seqno)
    requires s.broken || s.tainted || !Out(s.calls[c])
    ensures Doubtful(LoseAll(s.calls), s.tainted || s.broken, t.tag, t.row.seqno)
  {
    hide CallsOk;
    var calls' := LoseAll(s.calls);
    if !s.broken && !s.tainted { Unanswered(s, t, c); }
    assert Retracts(calls'[c], t.tag, t.row.seqno);
  }

  lemma LoadedAck(s: State, f: File, es: Log, c: nat, q: nat)
    requires CallsOk(s) && AckOk(s) && PastOk(f, s) && Survivors(f, es) && c < |s.calls|
    ensures AckOne(LoseAll(s.calls), Load(es), s.closed, s.tainted || s.broken, c, q)
  {
    hide CallsOk, PastOk, Survivors, Load, Doubtful, HasOpen;
    assert AckOne(s.calls, s.recs, s.closed, s.tainted, c, q);
    var call := s.calls[c];
    if call.kind == Submit && call.phase == ToldOk && call.first <= q <= call.last && (c + 1, q) !in s.closed {
      if Doubtful(s.calls, s.tainted, c + 1, q) {
        LostDoubtful(s.calls, s.tainted, s.tainted || s.broken, c + 1, q);
      } else {
        AckedLoads(s, f, es, c, q);
      }
    }
  }

  /** An acknowledged record is owed by every file that may come back, unless a retraction of it,
      durable but not answered yet, is about to be lost. */
  lemma AckedOwed(s: State, c: nat, q: nat)
    requires CallsOk(s) && c < |s.calls| && s.calls[c].kind == Submit && s.calls[c].phase == ToldOk && s.calls[c].first <= q <= s.calls[c].last
    requires (c + 1, q) !in s.closed && !Doubtful(s.calls, s.tainted, c + 1, q) && HasOpen(s.recs, c + 1, q)
    ensures Owed(s.calls, s.closed, s.tainted, c, q) || Doubtful(LoseAll(s.calls), s.tainted || s.broken, c + 1, q)
  {
    hide Doubtful;
    assert CallOk(s.calls, s.recs, s.nextSeq, c);
    var k :| 0 <= k < |s.recs| && s.recs[k].tag == c + 1 && s.recs[k].row.seqno == q && !s.recs[k].row.done;
    if DurablyRetracted(s.calls, c + 1, q) {
      var d :| 0 <= d < |s.calls| && Retracts(s.calls[d], c + 1, q) && MadeDurable(s.calls[d]);
      LostInDoubt(s, s.recs[k], d);
    }
  }

  lemma AckedLoads(s: State, f: File, es: Log, c: nat, q: nat)
    requires CallsOk(s) && PastOk(f, s) && Survivors(f, es) && c < |s.calls| && s.calls[c].kind == Submit && s.calls[c].phase == ToldOk
    requires s.calls[c].first <= q <= s.calls[c].last && (c + 1, q) !in s.closed && !Doubtful(s.calls, s.tainted, c + 1, q)
    requires HasOpen(s.recs, c + 1, q)
    ensures Doubtful(LoseAll(s.calls), s.tainted || s.broken, c + 1, q) || HasOpen(Load(es), c + 1, q)
  {
    hide CallsOk, Doubtful, Owed, Load, PastMay, FileRetracts, FilePairs, FileVerdicts, Ordered, Sure, May, HasD;
    AckedOwed(s, c, q);
    if Owed(s.calls, s.closed, s.tainted, c, q) {
      assert HasP(f, s.calls[c], c + 1, q);
      var p := ItsP(s.calls, c, q);
      if HasD(es, q) {
        WhyClosed(s, f, es, p);
        var d :| 0 <= d < |s.calls| && Retracts(s.calls[d], c + 1, q) && (s.broken || s.tainted || !Out(s.calls[d]));
        var k :| 0 <= k < |s.recs| && s.recs[k].tag == c + 1 && s.recs[k].row.seqno == q && !s.recs[k].row.done;
        LostInDoubt(s, s.recs[k], d);
      } else {
        var i := LoadHas(es, p);
        assert Load(es)[i].tag == c + 1 && Load(es)[i].row.seqno == q && !Load(es)[i].row.done;
      }
    }
  }

  // ---- the step ----

  lemma LoadedInv(s: State, f: File, es: Log)
    requires Inv(s) && Shaped(f) && PastOk(f, s) && Image(f, es)
    ensures Inv(AfterReplay(s, es))
  {
    hide Shaped, FileOk, PastOk, Survivors, RecsOk, CallOk, AckOne, Load, Meaning, CountOpen, Image, Ordered, WaitOne;
    var s1 := AfterReplay(s, es);
    ImageSurvives(f, es);
    SurvivorsOrdered(f, es);
    WholeOk(es);
    LoadedRecsOk(s, f, es);
    LoadedFile(s, f, es);
    forall c | 0 <= c < |s1.calls| ensures CallOk(s1.calls, s1.recs, s1.nextSeq, c) { LoadedCall(s, f, es, c); }
    forall c, q | 0 <= c < |s1.calls| ensures AckOne(s1.calls, s1.recs, s1.closed, s1.tainted, c, q) { LoadedAck(s, f, es, c, q); }
  }

  lemma ImageSurvives(f: File, es: Log)
    requires Shaped(f) && Image(f, es)
    ensures Survivors(f, es)
  {
    hide Shaped, Image, Sure, May, Ordered;
    ImageHas(f, es);
  }

  /** Any file that may come back, the journal included. */
  lemma FileHolds(s: State, k: nat)
    requires Inv(s) && k <= |s.older|
    ensures Shaped(FileAt(s, k)) && PastOk(FileAt(s, k), s)
  {
    hide Shaped, PastOk;
    CurPast(s);
  }

  lemma LostOnward(calls: seq<Call>)
    ensures Onward(calls, LoseAll(calls))
    ensures forall c :: 0 <= c < |calls| ==> Out(LoseAll(calls)[c]) == Out(calls[c])
  {
  }

  /** Whatever a crash leaves, the next run that opens it starts from the invariant. */
  lemma CrashInv(s: State, file: nat, es: Log, dirSynced: bool, reopened: bool)
    requires Inv(s) && Enabled(s, Crash(file, es, dirSynced, reopened))
    ensures Inv(DoCrash(s, es, dirSynced, reopened))
  {
    hide Shaped, FileOk, PastOk, Image, RecsOk, CallsOk, AckOk, WaitOk, Load, Meaning, Replace, KeptOf, RewriteAll, CountOpen, Onward;
    FileHolds(s, file);
    LoadedInv(s, FileAt(s, file), es);
    NobodyWaits(s.calls);
    ReplaceInv(AfterReplay(s, es), dirSynced, reopened);
    OtherFiles(s, es, dirSynced, reopened);
  }

  lemma NobodyWaits(calls: seq<Call>)
    ensures !AnyWaiting(LoseAll(calls))
  {
  }

  /** The new run is the one that has only the replayed file behind it, but for the files that may
      still come back. */
  lemma OtherFiles(s: State, es: Log, dirSynced: bool, reopened: bool)
    requires Inv(s) && Inv(Replace(AfterReplay(s, es), RewriteAll(KeptOf(LoseAll(s.calls), Load(es))), dirSynced, reopened))
    ensures Inv(DoCrash(s, es, dirSynced, reopened))
  {
    hide Shaped, FileOk, PastOk, RecsOk, CallsOk, AckOk, Load, Meaning, KeptOf, RewriteAll, CountOpen, Onward, WaitOne, NotDone;
    var one := Replace(AfterReplay(s, es), RewriteAll(KeptOf(LoseAll(s.calls), Load(es))), dirSynced, reopened);
    var s' := DoCrash(s, es, dirSynced, reopened);
    assert s' == one.(older := if dirSynced then [] else s.older + [s.cur]);
    LostOnward(s.calls);
    forall k | 0 <= k < |s'.older| ensures Shaped(s'.older[k]) && PastOk(s'.older[k], s') {
      FileHolds(s, k);
      PastOn(s'.older[k], s, s');
    }
    NobodyWaits(s.calls);
    SameButOlder(one, s');
  }

  lemma SameButOlder(s: State, s': State)
    requires RecsOk(s) && CallsOk(s) && AckOk(s) && FileOk(s.cur, s) && s' == s.(older := s'.older)
    ensures RecsOk(s') && CallsOk(s') && AckOk(s') && FileOk(s'.cur, s')
  {
    hide RecOk, CallOk, AckOne, CountOpen, Ascending, FileMay, FileKeeps, FileRetracts, FilePairs, FileVerdicts;
  }
}
