/** What a crash can leave of a journal file. A file is the history of its contents: a
    crash may reveal any content from the last one known durable onwards, or be caught half
    way between two of them. */
module Disk {
  import opened Sequences
  import opened LittleEndian
  import opened Journal
  import opened RecordTable
  import opened Replay
  import opened Scars

  /** A journal record and the durable call that wrote it (0: a marker, or none). */
  datatype Entry = Entry(rec: Rec, tag: nat)

  type Log = seq<Entry>

  function Recs(es: Log): (rs: seq<Rec>)
    ensures |rs| == |es| && forall i :: 0 <= i < |es| ==> rs[i] == es[i].rec
  {
    seq(|es|, i requires 0 <= i < |es| => es[i].rec)
  }

  lemma RecsTake(es: Log, n: nat)
    requires n <= |es|
    ensures Recs(es)[..n] == Recs(es[..n])
  {
  }

  /** `hist`: every content the file has had. `floor`: the newest of them an fsync has
      made durable. `safe`: the first records, which no cut ever takes out (dq->synced). */
  datatype File = File(hist: seq<Log>, floor: nat, safe: nat)

  function Cur(f: File): Log
    requires |f.hist| > 0
  {
    f.hist[|f.hist| - 1]
  }

  /** Every content from `from` on begins with the same `n` records. */
  ghost predicate StableFrom(f: File, from: nat, n: nat) {
    |f.hist| > 0 && n <= |Cur(f)| &&
    forall j :: from <= j < |f.hist| ==> n <= |f.hist[j]| && f.hist[j][..n] == Cur(f)[..n]
  }

  /** What the queue's own writing makes: records within the format's bounds, or what a write that
      was stuck has left of one, and a 'P' numbered above everything before it. */
  ghost predicate Ordered(es: Log) {
    && (forall i :: 0 <= i < |es| ==> IsPiece(es[i].rec) && es[i].rec.seqno <= MAX_SEQ)
    && (forall i :: 0 <= i < |es| && es[i].rec.typ == P ==> 1 <= es[i].rec.seqno)
    && (forall i, j :: 0 <= i < j < |es| && es[j].rec.typ == P ==> es[i].rec.seqno < es[j].rec.seqno)
  }

  ghost predicate Shaped(f: File) {
    && f.floor < |f.hist|
    && StableFrom(f, f.floor, f.safe)
    && forall j :: f.floor <= j < |f.hist| ==> Ordered(f.hist[j])
  }

  /** A crash may leave `e` in the file. */
  ghost predicate May(f: File, e: Entry) {
    exists j :: f.floor <= j < |f.hist| && e in f.hist[j]
  }

  /** No content from `from` on holds anything written by call `c`. */
  ghost predicate AbsentFrom(f: File, from: nat, c: nat) {
    forall j, k :: from <= j < |f.hist| && 0 <= k < |f.hist[j]| ==> f.hist[j][k].tag != c
  }

  /** `e` is among the records no crash can take out. */
  ghost predicate Sure(f: File, e: Entry) {
    |f.hist| > 0 && exists k :: 0 <= k < f.safe && k < |Cur(f)| && Cur(f)[k] == e
  }

  ghost predicate Between(a: Log, x: Log, b: Log) {
    a <= x <= b
  }

  /** The whole records a crash leaves: some content since the floor, or part of the way
      from one to the next. */
  ghost predicate Caught(f: File, j: nat, es: Log)
    requires j < |f.hist|
  {
    || es == f.hist[j]
    || (j + 1 < |f.hist| && (Between(f.hist[j], es, f.hist[j + 1]) || Between(f.hist[j + 1], es, f.hist[j])))
  }

  ghost predicate Image(f: File, es: Log) {
    exists j :: f.floor <= j < |f.hist| && Caught(f, j, es)
  }

  lemma ImageHas(f: File, es: Log)
    requires Shaped(f) && Image(f, es)
    ensures forall e :: Sure(f, e) ==> e in es
    ensures forall e :: e in es ==> May(f, e)
    ensures Ordered(es)
  {
    var j :| f.floor <= j < |f.hist| && Caught(f, j, es);
    CaughtHas(f, j, es);
    forall e | Sure(f, e) ensures e in es {
      var k :| 0 <= k < f.safe && k < |Cur(f)| && Cur(f)[k] == e;
      assert Cur(f)[..f.safe][k] == e;
      assert es[..f.safe][k] == e;
    }
  }

  lemma CaughtHas(f: File, j: nat, es: Log)
    requires Shaped(f) && f.floor <= j < |f.hist| && Caught(f, j, es)
    ensures f.safe <= |es| && es[..f.safe] == Cur(f)[..f.safe]
    ensures forall e :: e in es ==> May(f, e)
    ensures Ordered(es)
  {
    assert f.safe <= |f.hist[j]| && f.hist[j][..f.safe] == Cur(f)[..f.safe] && Ordered(f.hist[j]);
    if es == f.hist[j] {
      PrefixHas(f, es, j, f.safe);
    } else if Between(f.hist[j], es, f.hist[j + 1]) {
      assert es[..f.safe] == f.hist[j][..f.safe];
      PrefixHas(f, es, j + 1, f.safe);
    } else {
      assert es[..f.safe] == f.hist[j + 1][..f.safe];
      PrefixHas(f, es, j, f.safe);
    }
  }

  lemma PrefixHas(f: File, es: Log, j: nat, n: nat)
    requires f.floor <= j < |f.hist| && es <= f.hist[j] && Ordered(f.hist[j])
    ensures forall e :: e in es ==> May(f, e)
    ensures Ordered(es)
  {
    forall e | e in es ensures May(f, e) {
      var k :| 0 <= k < |es| && es[k] == e;
      assert f.hist[j][k] == e;
    }
  }

  // ---- what the queue does to a file ----

  /** Records appended. */
  function Append(f: File, es: Log): File
    requires |f.hist| > 0
  {
    f.(hist := f.hist + [Cur(f) + es])
  }

  /** Records appended, and cut back off: the cut is not durable yet. */
  function AppendCut(f: File, es: Log): File
    requires |f.hist| > 0
  {
    f.(hist := f.hist + [Cur(f) + es, Cur(f)])
  }

  function Extend(f: File, es: Log, cut: bool): File
    requires |f.hist| > 0
  {
    if cut then AppendCut(f, es) else Append(f, es)
  }

  /** What is in the file of an entry once its first `n` bytes are. */
  function Left(e: Entry, n: nat): Log {
    if n == 0 then [] else if n < RecLen(e.rec) then [Entry(Scrap(e.rec, n), 0)] else [e]
  }

  /** What is in the file of a batch once its first `n` bytes are. */
  function Part(es: Log, n: nat): Log {
    if |es| == 0 then []
    else if n < RecLen(es[0].rec) then Left(es[0], n)
    else [es[0]] + Part(es[1..], n - RecLen(es[0].rec))
  }

  /** An entry that is a scrap: about no record, and no call's. */
  ghost predicate ScrapEntry(e: Entry) {
    e.tag == 0 && e.rec.typ == SCRAP && e.rec.seqno == 0 && IsScrap(e.rec)
  }

  lemma LeftHas(e: Entry, n: nat)
    requires Writable(e.rec)
    ensures Left(e, n) == [] || Left(e, n) == [e] || (|Left(e, n)| == 1 && ScrapEntry(Left(e, n)[0]))
  {
  }

  /** Some of the records of the batch, and then perhaps a scrap. */
  lemma {:induction false} PartIs(es: Log, n: nat) returns (k: nat, x: Log)
    requires forall i :: 0 <= i < |es| ==> Writable(es[i].rec)
    ensures k <= |es| && Part(es, n) == es[..k] + x && (x == [] || (|x| == 1 && ScrapEntry(x[0])))
    decreases |es|
  {
    hide Left, ScrapEntry;
    if |es| == 0 {
      k, x := 0, [];
    } else if n < RecLen(es[0].rec) {
      LeftHas(es[0], n);
      if Left(es[0], n) == [es[0]] {
        k, x := 1, [];
        assert es[..1] == [es[0]];
      } else {
        k, x := 0, Left(es[0], n);
      }
    } else {
      k, x := PartIs(es[1..], n - RecLen(es[0].rec));
      assert es[..k + 1] == [es[0]] + es[1..][..k];
      Assoc([es[0]], es[1..][..k], x);
      k := k + 1;
    }
  }

  lemma PartOrdered(es: Log, now: Log, n: nat)
    requires Ordered(now + es) && forall i :: 0 <= i < |es| ==> Writable(es[i].rec)
    ensures Ordered(now + Part(es, n))
    ensures forall e :: e in Part(es, n) ==> e in es || ScrapEntry(e)
  {
    hide Part, IsPiece, Ordered, ScrapEntry;
    var k, x := PartIs(es, n);
    var before := (now + es)[..|now| + k];
    OrderedPrefix(now + es, |now| + k);
    assert before == now + es[..k];
    Assoc(now, es[..k], x);
    if |x| == 1 { OrderedScrap(before, x); } else { assert before + [] == before; }
    forall e | e in Part(es, n) ensures e in es || ScrapEntry(e) {
      if e in es[..k] { assert e in es; }
    }
  }

  lemma OrderedPrefix(es: Log, n: nat)
    requires Ordered(es) && n <= |es|
    ensures Ordered(es[..n])
  {
    hide IsPiece;
  }

  lemma OrderedScrap(es: Log, x: Log)
    requires Ordered(es) && |x| == 1 && ScrapEntry(x[0])
    ensures Ordered(es + x)
  {
    hide IsPiece, IsScrap;
    ScrapIsPiece(x[0].rec);
  }

  lemma ScrapIsPiece(r: Rec)
    requires r.typ == SCRAP && IsScrap(r)
    ensures IsPiece(r)
  {
  }

  /** An fsync came back: the content `v`, or a later one, is durable, and so are the
      first `end` records. */
  function Raise(f: File, v: nat, end: nat): File {
    f.(floor := if f.floor < v then v else f.floor, safe := if f.safe < end then end else f.safe)
  }

  /** Cut back to the safe records. */
  function Cut(f: File): File
    requires |f.hist| > 0 && f.safe <= |Cur(f)|
  {
    f.(hist := f.hist + [Cur(f)[..f.safe]])
  }

  /** ... and the cut made durable. */
  function CutDurably(f: File): File
    requires |f.hist| > 0 && f.safe <= |Cur(f)|
  {
    Cut(f).(floor := |f.hist|)
  }

  /** A file written whole and fsync'd before anyone could see it. */
  function Whole(es: Log): File {
    File([es], 0, |es|)
  }

  lemma SureSame(f: File, g: File)
    requires |f.hist| > 0 && |g.hist| > 0 && f.safe == g.safe
    requires f.safe <= |Cur(f)| && g.safe <= |Cur(g)| && Cur(f)[..f.safe] == Cur(g)[..f.safe]
    ensures forall e :: Sure(f, e) <==> Sure(g, e)
  {
    forall k | 0 <= k < f.safe ensures Cur(f)[k] == Cur(g)[k] {
      assert Cur(f)[..f.safe][k] == Cur(g)[..f.safe][k];
    }
  }

  lemma AppendOk(f: File, es: Log)
    requires Shaped(f) && Ordered(Cur(f) + es)
    ensures Shaped(Append(f, es))
    ensures forall e :: Sure(Append(f, es), e) <==> Sure(f, e)
    ensures forall e :: May(Append(f, es), e) ==> May(f, e) || e in es
    ensures forall e :: e in Cur(Append(f, es)) ==> May(Append(f, es), e)
  {
    var g := Append(f, es);
    assert Cur(g) == Cur(f) + es;
    assert Cur(g)[..f.safe] == Cur(f)[..f.safe];
    SureSame(f, g);
    forall e | May(g, e) ensures May(f, e) || e in es {
      var j :| g.floor <= j < |g.hist| && e in g.hist[j];
      if j == |f.hist| && e !in es {
        assert e in f.hist[|f.hist| - 1];
      }
    }
  }

  lemma AppendCutOk(f: File, es: Log)
    requires Shaped(f) && Ordered(Cur(f) + es)
    ensures Shaped(AppendCut(f, es)) && Cur(AppendCut(f, es)) == Cur(f)
    ensures forall e :: Sure(AppendCut(f, es), e) <==> Sure(f, e)
    ensures forall e :: May(AppendCut(f, es), e) ==> May(f, e) || e in es
  {
    var g := AppendCut(f, es);
    assert (Cur(f) + es)[..f.safe] == Cur(f)[..f.safe];
    SureSame(f, g);
    forall e | May(g, e) ensures May(f, e) || e in es {
      var j :| g.floor <= j < |g.hist| && e in g.hist[j];
      if j >= |f.hist| && e !in es {
        assert e in f.hist[|f.hist| - 1];
      }
    }
  }

  lemma ExtendOk(f: File, es: Log, cut: bool)
    requires Shaped(f) && Ordered(Cur(f) + es)
    ensures Shaped(Extend(f, es, cut))
    ensures Cur(Extend(f, es, cut)) == if cut then Cur(f) else Cur(f) + es
    ensures forall e :: Sure(Extend(f, es, cut), e) <==> Sure(f, e)
    ensures forall e :: May(Extend(f, es, cut), e) ==> May(f, e) || e in es
  {
    if cut { AppendCutOk(f, es); } else { AppendOk(f, es); }
  }

  lemma ExtendStable(f: File, es: Log, cut: bool, from: nat, n: nat)
    requires StableFrom(f, from, n) && from < |f.hist|
    ensures StableFrom(Extend(f, es, cut), from, n)
  {
    assert (Cur(f) + es)[..n] == Cur(f)[..n];
  }

  lemma ExtendAbsent(f: File, es: Log, cut: bool, from: nat, c: nat)
    requires AbsentFrom(f, from, c) && from < |f.hist| && forall e :: e in es ==> e.tag != c
    ensures AbsentFrom(Extend(f, es, cut), from, c)
  {
    var g := Extend(f, es, cut);
    forall j, k | from <= j < |g.hist| && 0 <= k < |g.hist[j]| ensures g.hist[j][k].tag != c {
      if j >= |f.hist| && k < |Cur(f)| {
        assert f.hist[|f.hist| - 1][k].tag != c;
      }
    }
  }

  lemma RaiseOk(f: File, v: nat, end: nat)
    requires Shaped(f) && v < |f.hist| && StableFrom(f, v, end)
    ensures Shaped(Raise(f, v, end))
    ensures forall e :: Sure(f, e) ==> Sure(Raise(f, v, end), e)
    ensures forall e :: May(Raise(f, v, end), e) ==> May(f, e)
    ensures forall k :: 0 <= k < end ==> Sure(Raise(f, v, end), Cur(f)[k])
  {
    var g := Raise(f, v, end);
    assert StableFrom(g, g.floor, g.safe);
  }

  lemma CutOk(f: File)
    requires Shaped(f)
    ensures Shaped(Cut(f)) && Shaped(CutDurably(f))
    ensures forall e :: Sure(Cut(f), e) <==> Sure(f, e)
    ensures forall e :: Sure(CutDurably(f), e) <==> Sure(f, e)
    ensures forall e :: May(Cut(f), e) ==> May(f, e)
    ensures forall e :: May(CutDurably(f), e) ==> Sure(f, e)
  {
    var s := Cur(f)[..f.safe];
    assert Cur(Cut(f)) == s && s[..f.safe] == s;
    SureSame(f, Cut(f));
    SureSame(f, CutDurably(f));
    forall e | May(Cut(f), e) ensures May(f, e) {
      var j :| f.floor <= j < |Cut(f).hist| && e in Cut(f).hist[j];
      if j == |f.hist| {
        assert e in f.hist[|f.hist| - 1];
      }
    }
    forall e | May(CutDurably(f), e) ensures Sure(f, e) {
      assert e in s;
    }
  }

  lemma WholeOk(es: Log)
    requires Ordered(es)
    ensures Shaped(Whole(es))
    ensures forall e :: Sure(Whole(es), e) <==> e in es
    ensures forall e :: May(Whole(es), e) <==> e in es
  {
    var f := Whole(es);
    forall e | e in es ensures Sure(f, e) && May(f, e) {
      var k :| 0 <= k < |es| && es[k] == e;
      assert Cur(f)[k] == e;
      assert e in f.hist[0];
    }
  }

  // ---- the bytes a crash leaves ----

  /** The bytes of a content, or part of the way, byte by byte, from one content to the next. */
  ghost predicate CaughtBytes(f: File, j: nat, b: seq<Byte>)
    requires j < |f.hist|
  {
    || HalfWay(f.hist[j], b, f.hist[j])
    || (j + 1 < |f.hist| && (HalfWay(f.hist[j], b, f.hist[j + 1]) || HalfWay(f.hist[j + 1], b, f.hist[j])))
  }

  ghost predicate HalfWay(small: Log, b: seq<Byte>, big: Log) {
    small <= big && Marred(Recs(small)) <= b <= Marred(Recs(big))
  }

  ghost predicate ByteImage(f: File, b: seq<Byte>) {
    exists j :: f.floor <= j < |f.hist| && CaughtBytes(f, j, b)
  }

  /** The scraps among the bytes of `big` that are there are legible. */
  ghost predicate Clear(b: seq<Byte>, big: Log) {
    forall k :: 0 <= k <= |big| && PiecesBefore(Recs(big), |b|, k) ==> Legible(b, Recs(big), 0, k)
  }

  /** ... whichever content the bytes are the beginning of. */
  ghost predicate ClearImage(f: File, b: seq<Byte>) {
    forall j :: f.floor <= j < |f.hist| && b <= Marred(Recs(f.hist[j])) ==> Clear(b, f.hist[j])
  }

  /** No scrap is in the file, nor can a crash bring one back. */
  ghost predicate Unscarred(f: File) {
    forall e :: May(f, e) ==> e.rec.typ != SCRAP
  }

  lemma UnscarredClear(f: File, b: seq<Byte>)
    requires Unscarred(f)
    ensures ClearImage(f, b)
  {
    forall j, k | f.floor <= j < |f.hist| && 0 <= k <= |f.hist[j]| ensures Legible(b, Recs(f.hist[j]), 0, k) {
      var rs := Recs(f.hist[j]);
      forall i | 0 <= i < k ensures rs[..k][i].typ != SCRAP { assert f.hist[j][i] in f.hist[j] && May(f, f.hist[j][i]); }
      UnmarredLegible(b, rs, 0, k);
    }
  }

  lemma {:induction false} CountWhole(rs: seq<Rec>, c: nat) returns (k: nat)
    requires FILE_HEADER <= c
    ensures PiecesBefore(rs, c, k)
    decreases |rs|
  {
    hide Marred;
    HasFileHeader(rs);
    var n := |rs|;
    assert rs[..n] == rs;
    if |Marred(rs)| <= c {
      k := n;
    } else {
      assert n > 0;
      k := CountWhole(rs[..n - 1], c);
      assert rs[..n - 1][..k] == rs[..k];
      assert k < n - 1 ==> rs[..n - 1][..k + 1] == rs[..k + 1];
    }
  }

  lemma OrderedWrites(es: Log)
    requires Ordered(es)
    ensures AllPieces(Recs(es)) && RisingPs(Recs(es))
  {
    hide IsPiece;
  }

  lemma HalfWayReplays(small: Log, b: seq<Byte>, big: Log) returns (es: Log)
    requires Ordered(big) && HalfWay(small, b, big) && Clear(b, big)
    ensures Between(small, es, big)
    ensures ReplayOf(b).Loaded? && ReplayOf(b).table == Meaning(Recs(es))
  {
    hide Marred, Meaning, AllPieces, Ordered, ReplayOf, Legible, PiecesBefore;
    var rs := Recs(big);
    OrderedWrites(big);
    HasFileHeader(Recs(small));
    var k := CountWhole(rs, |b|);
    assert big[..|small|] == small;
    RecsTake(big, |small|);
    AtLeast(rs, |b|, |small|, k);
    es := big[..k];
    RecsTake(big, k);
    assert b == Marred(rs)[..|b|];
    MarredReplay(rs, |b|, k);
  }

  lemma AtLeast(rs: seq<Rec>, c: nat, n: nat, k: nat)
    requires n <= |rs| && |Marred(rs[..n])| <= c && PiecesBefore(rs, c, k)
    ensures n <= k <= |rs|
  {
    hide Marred;
    if k < n { MarredGrows(rs, k + 1, n); }
  }

  /** Whatever bytes a crash leaves, if the scraps in them are legible, replay makes of them what some
      whole-record image means. */
  lemma BytesReplay(f: File, b: seq<Byte>) returns (es: Log)
    requires Shaped(f) && ByteImage(f, b) && ClearImage(f, b)
    ensures Image(f, es)
    ensures ReplayOf(b).Loaded? && ReplayOf(b).table == Meaning(Recs(es))
  {
    hide ReplayOf, Meaning, Marred, Ordered, Clear, StableFrom;
    var j :| f.floor <= j < |f.hist| && CaughtBytes(f, j, b);
    if HalfWay(f.hist[j], b, f.hist[j]) {
      es := HalfWayReplays(f.hist[j], b, f.hist[j]);
      assert es == f.hist[j];
    } else if j + 1 < |f.hist| && HalfWay(f.hist[j], b, f.hist[j + 1]) {
      es := HalfWayReplays(f.hist[j], b, f.hist[j + 1]);
    } else {
      es := HalfWayReplays(f.hist[j + 1], b, f.hist[j]);
    }
    assert Caught(f, j, es);
  }
}
