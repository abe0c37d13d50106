/** What every step of the group commit keeps. */
module GroupCommitInv {
  import opened LittleEndian
  import opened Journal
  import opened RecordTable
  import opened Disk
  import opened GroupCommit

  // ---- the journal files ----

  ghost predicate FilesOk(s: State) {
    && Shaped(s.cur)
    && (forall i :: 0 <= i < |s.older| ==> Shaped(s.older[i]))
    && (!s.dirDirty ==> |s.older| == 0)
    && s.cur.safe <= s.lastEnd <= |Cur(s.cur)|
  }

  ghost predicate SyncShape(s: State) {
    s.sync.Running? ==>
      && s.sync.upto <= |s.calls| && s.sync.end <= s.lastEnd && s.sync.begin < |s.cur.hist|
      && StableFrom(s.cur, s.sync.begin, s.sync.end)
      && s.sync.dir == s.dirDirty
  }

  // ---- calls waiting for an fsync ----

  function Len(call: Call): nat {
    if call.first <= call.last then call.last - call.first + 1 else 0
  }

  /** What a waiting call wrote is where it put it. */
  ghost predicate WroteHere(now: Log, call: Call, recs: seq<Live>, tag: nat) {
    && call.pos + Len(call) <= |now|
    && (call.kind == Cancel ==> call.first == call.last && now[call.pos] == Entry(Marker(D, call.first), tag))
    && (call.kind == Submit ==> forall i :: 0 <= i < |recs| && recs[i].tag == tag ==>
          call.first <= recs[i].row.seqno <= call.last
          && now[call.pos + (recs[i].row.seqno - call.first)] == PEntry(recs[i]))
  }

  /** Nothing before `pos` is the call's. */
  ghost predicate NotBefore(now: Log, pos: nat, tag: nat) {
    forall k :: 0 <= k < |now| && k < pos ==> now[k].tag != tag
  }

  /** The running fsync covers call `c`. */
  predicate Covers(sync: Sync, c: nat) {
    sync.Running? && c < sync.upto
  }

  ghost predicate NotSure(f: File, tag: nat) {
    forall e :: Sure(f, e) ==> e.tag != tag
  }

  ghost predicate NeverIn(older: seq<File>, tag: nat) {
    forall i, e :: 0 <= i < |older| && May(older[i], e) ==> e.tag != tag
  }

  ghost predicate WaitOne(f: File, older: seq<File>, lastEnd: nat, sync: Sync, recs: seq<Live>, call: Call, c: nat) {
    && |f.hist| > 0 && call.first <= call.last
    && (call.wrote == Written ==>
          && f.safe <= call.pos && call.pos + Len(call) <= lastEnd
          && (sync.Running? ==> if c < sync.upto then call.pos + Len(call) <= sync.end else sync.end <= call.pos)
          && WroteHere(Cur(f), call, recs, c + 1) && NotBefore(Cur(f), call.pos, c + 1))
    && (call.wrote == CutBack ==>
          && call.cutAt < |f.hist| && AbsentFrom(f, call.cutAt, c + 1)
          && (Covers(sync, c) ==> call.cutAt <= sync.begin))
    && NotSure(f, c + 1)
    && NeverIn(older, c + 1)
  }

  ghost predicate WaitOk(s: State) {
    forall c :: 0 <= c < |s.calls| && WaitingNow(s.calls[c]) ==>
      WaitOne(s.cur, s.older, s.lastEnd, s.sync, s.recs, s.calls[c], c)
  }

  // ---- what a crash may leave ----

  /** The record numbered `q` that the submit carries. */
  predicate Carries(c: Call, q: nat, name: seq<Byte>, payload: seq<Byte>) {
    c.first <= q <= c.last && q - c.first < |c.items| && c.items[q - c.first] == Item(name, payload)
  }

  predicate TagFits(r: Rec, c: Call) {
    if c.kind == Submit then r.typ == P && Carries(c, r.seqno, r.name, r.payload) else r.typ == D && r.seqno == c.first
  }

  /** An entry the queue can answer for: numbered below the next record; written by the call
      it is tagged with, which has not been told it failed; the same record the table has
      under that number; and if it is a verdict's 'D', about a record that is closed. */
  ghost predicate Legit(e: Entry, calls: seq<Call>, recs: seq<Live>, nextSeq: nat, shaken: bool) {
    && e.rec.seqno < nextSeq && e.tag <= |calls|
    && (e.rec.typ == P ==> e.tag > 0 && forall i :: 0 <= i < |recs| && recs[i].row.seqno == e.rec.seqno ==> recs[i].tag == e.tag)
    && (e.tag > 0 ==> TagFits(e.rec, calls[e.tag - 1]) && (shaken || !Out(calls[e.tag - 1])))
    && (e.tag == 0 && e.rec.typ == D ==>
          forall i :: 0 <= i < |recs| && recs[i].row.seqno == e.rec.seqno ==> recs[i].row.done)
  }

  ghost predicate FileMay(f: File, calls: seq<Call>, recs: seq<Live>, nextSeq: nat, shaken: bool) {
    forall e :: May(f, e) ==> Legit(e, calls, recs, nextSeq, shaken)
  }

  // ---- what a crash cannot take out ----

  ghost predicate FileKeeps(f: File, calls: seq<Call>, recs: seq<Live>) {
    forall k :: 0 <= k < |recs| && Kept(calls, recs[k]) ==> Sure(f, PEntry(recs[k]))
  }

  /** The file never shows the record without its retraction, made by the call tagged `who`. */
  ghost predicate RetractedIn(f: File, tag: nat, seqno: nat, who: nat) {
    || Sure(f, Entry(Marker(D, seqno), who))
    || (forall e :: May(f, e) && e.rec.typ == P ==> !(e.tag == tag && e.rec.seqno == seqno))
  }

  ghost predicate FileRetracts(f: File, calls: seq<Call>) {
    forall c :: 0 <= c < |calls| && calls[c].kind == Cancel && MadeDurable(calls[c]) ==>
      RetractedIn(f, calls[c].target, calls[c].first, c + 1)
  }

  /** A retraction in the file is about the record the file has under that number. */
  ghost predicate FilePairs(f: File, calls: seq<Call>) {
    forall p, d :: May(f, p) && May(f, d) && Paired(p, d) && d.tag <= |calls| ==> calls[d.tag - 1].target == p.tag
  }

  predicate Paired(p: Entry, d: Entry) {
    p.rec.typ == P && d.rec.typ == D && d.tag > 0 && p.rec.seqno == d.rec.seqno
  }

  /** A verdict's 'D' in the file has closed the record the file has under that number. */
  ghost predicate FileVerdicts(f: File, closed: set<(nat, nat)>) {
    forall p, d :: May(f, p) && May(f, d) && Judged(p, d) ==> (p.tag, p.rec.seqno) in closed
  }

  predicate Judged(p: Entry, d: Entry) {
    p.rec.typ == P && d.rec.typ == D && d.tag == 0 && p.rec.seqno == d.rec.seqno
  }

  ghost predicate FileOk(f: File, s: State) {
    && FileMay(f, s.calls, s.recs, s.nextSeq, s.broken || s.tainted)
    && FileKeeps(f, s.calls, s.recs)
    && FileRetracts(f, s.calls)
    && FilePairs(f, s.calls)
    && FileVerdicts(f, s.closed)
  }

  // ---- the files the journal's name can still come back to ----

  /** An entry of such a file: written by the call it is tagged with, which has not been told it
      failed. Numbers may have been used again since. */
  ghost predicate Belongs(e: Entry, calls: seq<Call>, shaken: bool) {
    && e.tag <= |calls| && (e.rec.typ == P ==> e.tag > 0)
    && (e.tag > 0 ==> TagFits(e.rec, calls[e.tag - 1]) && (shaken || !Out(calls[e.tag - 1])))
  }

  ghost predicate PastMay(f: File, calls: seq<Call>, shaken: bool) {
    forall e :: May(f, e) ==> Belongs(e, calls, shaken)
  }

  /** Record `q` of call `c` is durable, and may have been acknowledged, and nothing has closed it. */
  ghost predicate Owed(calls: seq<Call>, closed: set<(nat, nat)>, tainted: bool, c: nat, q: nat)
    requires c < |calls|
  {
    && calls[c].kind == Submit && MadeDurable(calls[c]) && (calls[c].phase == InFlight || calls[c].phase == ToldOk)
    && calls[c].first <= q <= calls[c].last && (c + 1, q) !in closed
    && !Doubtful(calls, tainted, c + 1, q) && !DurablyRetracted(calls, c + 1, q)
  }

  /** No crash takes the record's 'P' out of the file. */
  ghost predicate HasP(f: File, call: Call, tag: nat, q: nat) {
    && call.first <= q && q - call.first < |call.items|
    && Sure(f, Entry(Rec(P, q, call.items[q - call.first].name, call.items[q - call.first].payload), tag))
  }

  ghost predicate PastKeeps(f: File, calls: seq<Call>, closed: set<(nat, nat)>, tainted: bool) {
    forall c, q :: 0 <= c < |calls| && Owed(calls, closed, tainted, c, q) ==> HasP(f, calls[c], c + 1, q)
  }

  ghost predicate PastOk(f: File, s: State) {
    && PastMay(f, s.calls, s.broken || s.tainted)
    && PastKeeps(f, s.calls, s.closed, s.tainted)
    && FileRetracts(f, s.calls)
    && FilePairs(f, s.calls)
    && FileVerdicts(f, s.closed)
  }

  ghost predicate CrashOk(s: State) {
    FileOk(s.cur, s) && forall i :: 0 <= i < |s.older| ==> PastOk(s.older[i], s)
  }

  // ---- the table ----

  ghost predicate DurablyRetracted(calls: seq<Call>, tag: nat, seqno: nat) {
    exists c :: 0 <= c < |calls| && Retracts(calls[c], tag, seqno) && MadeDurable(calls[c])
  }

  ghost predicate RecOk(t: Live, calls: seq<Call>, nextSeq: nat, tainted: bool) {
    && 1 <= t.row.seqno < nextSeq
    && |t.row.name| <= MAX_NAME && |t.row.payload| <= MAX_PAYLOAD && t.row.crashes < 0x1_0000_0000
    && 1 <= t.tag <= |calls|
    && calls[t.tag - 1].kind == Submit && calls[t.tag - 1].first <= t.row.seqno <= calls[t.tag - 1].last
    && (!t.row.done ==> Carries(calls[t.tag - 1], t.row.seqno, t.row.name, t.row.payload))
    && (t.committing <==> calls[t.tag - 1].phase == InFlight)
    && (!t.row.done && !t.committing ==> tainted || !Out(calls[t.tag - 1]))
    && (t.committing ==> !t.row.done && !t.row.quarantined && !t.handed && t.retracting == 0)
    && t.retracting == CountRetracting(calls, t.tag, t.row.seqno)
    && (t.retracting > 0 ==> t.handed && !t.row.quarantined && (t.row.done ==> DurablyRetracted(calls, t.tag, t.row.seqno)))
    && (t.deferred != NoVerdict ==> t.retracting > 0 && !t.row.done)
  }

  ghost predicate RecsOk(s: State) {
    && Ascending(Rows(s.recs))
    && 1 <= s.nextSeq <= MAX_SEQ + 1
    && (forall i :: 0 <= i < |s.recs| ==> RecOk(s.recs[i], s.calls, s.nextSeq, s.tainted))
    && s.pending == CountOpen(s.recs)
  }

  ghost predicate HasRec(recs: seq<Live>, tag: nat, seqno: nat) {
    exists i :: 0 <= i < |recs| && recs[i].tag == tag && recs[i].row.seqno == seqno
  }

  ghost predicate Submitted(recs: seq<Live>, c: nat, q: nat) {
    HasRec(recs, c + 1, q)
  }

  ghost predicate CallOk(calls: seq<Call>, recs: seq<Live>, nextSeq: nat, c: nat)
    requires c < |calls|
  {
    var call := calls[c];
    && call.first <= call.last && (call.phase == ToldIo ==> Out(call)) && (call.kind == Submit && call.phase == ToldOk ==> MadeDurable(call))
    && (call.kind == Submit && call.phase == InFlight ==>
          forall q :: call.first <= q <= call.last ==> Submitted(recs, c, q))
    && (call.kind == Cancel ==>
          && call.first == call.last && 1 <= call.target <= c && calls[call.target - 1].kind == Submit
          && (call.phase == ToldOk ==> DurablyRetracted(calls, call.target, call.first))
          && (call.phase == InFlight ==> Targets(calls, recs, nextSeq, call.target, call.first))
          && (call.phase == ToldOk || (MadeDurable(call) && call.phase != InFlight) ==>
                forall i :: 0 <= i < |recs| && Rid(recs[i]) == (call.target, call.first) ==> recs[i].row.done))
  }

  /** The record a retraction in flight is about: in the table under its own number, unless
      a retraction that became durable has let a compaction drop it. */
  ghost predicate Targets(calls: seq<Call>, recs: seq<Live>, nextSeq: nat, target: nat, seqno: nat) {
    && seqno < nextSeq
    && (forall i :: 0 <= i < |recs| && recs[i].row.seqno == seqno ==> recs[i].tag == target)
    && (HasRec(recs, target, seqno) || DurablyRetracted(calls, target, seqno))
  }

  ghost predicate CallsOk(s: State) {
    forall c :: 0 <= c < |s.calls| ==> CallOk(s.calls, s.recs, s.nextSeq, c)
  }

  // ---- acknowledged records ----

  /** A retraction whose answer a crash cut off, or that a broken queue failed, may have
      closed the record. */
  ghost predicate Doubtful(calls: seq<Call>, tainted: bool, tag: nat, seqno: nat) {
    exists c :: 0 <= c < |calls| && Retracts(calls[c], tag, seqno) && (tainted || (calls[c].phase == Lost && !Out(calls[c])))
  }

  ghost predicate HasOpen(recs: seq<Live>, tag: nat, seqno: nat) {
    exists i :: 0 <= i < |recs| && recs[i].tag == tag && recs[i].row.seqno == seqno && !recs[i].row.done
  }

  /** The record `q` of an acknowledged submit is open still, unless it was closed. */
  ghost predicate AckOne(calls: seq<Call>, recs: seq<Live>, closed: set<(nat, nat)>, tainted: bool, c: nat, q: nat)
    requires c < |calls|
  {
    calls[c].kind == Submit && calls[c].phase == ToldOk && calls[c].first <= q <= calls[c].last
    && (c + 1, q) !in closed ==>
      Doubtful(calls, tainted, c + 1, q) || HasOpen(recs, c + 1, q)
  }

  ghost predicate AckOk(s: State) {
    forall c, q :: 0 <= c < |s.calls| ==> AckOne(s.calls, s.recs, s.closed, s.tainted, c, q)
  }

  ghost predicate Inv(s: State) {
    FilesOk(s) && SyncShape(s) && WaitOk(s) && CrashOk(s) && RecsOk(s) && CallsOk(s) && AckOk(s)
  }

  lemma TableRises(s: State)
    requires Inv(s)
    ensures Ascending(Rows(s.recs))
  {
  }
}
