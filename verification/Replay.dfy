/** Opening a journal: replay over any bytes at all, resynchronising past damage. */
module Replay {
  import opened Sequences
  import opened LittleEndian
  import opened Journal
  import opened RecordTable

  /** A record that verifies and may stand at `at` once `lastP` is the highest 'P' read. */
  predicate Acceptable(f: seq<Byte>, at: nat, lastP: nat)
    requires at <= |f|
  {
    var k := ReadRec(f, at);
    k.Ok? && !(k.rec.typ == P && k.rec.seqno <= lastP)
  }

  /** The first acceptable position at or after `from`, or |f| if there is none. */
  function NextGood(f: seq<Byte>, from: nat, lastP: nat): (at: nat)
    requires from <= |f|
    ensures from <= at <= |f|
    ensures at < |f| ==> Acceptable(f, at, lastP)
    ensures forall i :: from <= i < at ==> !Acceptable(f, i, lastP)
    decreases |f| - from
  {
    if from == |f| || Acceptable(f, from, lastP) then from else NextGood(f, from + 1, lastP)
  }

  lemma NextGoodIs(f: seq<Byte>, from: nat, lastP: nat, at: nat)
    requires from <= at <= |f|
    requires at < |f| ==> Acceptable(f, at, lastP)
    requires forall i :: from <= i < at ==> !Acceptable(f, i, lastP)
    ensures NextGood(f, from, lastP) == at
  {
  }

  const CHUNK: nat := 4096

  /** resync: searches the file in overlapping chunks for a record's magic, and finds the
      first acceptable record whatever the chunk boundaries split. -1 for none. */
  method Resync(f: seq<Byte>, bad: nat, lastP: nat) returns (found: int)
    requires bad < |f|
    ensures -1 <= found < |f|
    ensures NextGood(f, bad + 1, lastP) == (if found == -1 then |f| else found)
  {
    hide Get, ReadRec, Acceptable, NextGood;
    var base := bad + 1;
    while |f| - base >= REC_HEADER + 4
      invariant bad + 1 <= base <= |f|
      invariant forall i :: bad + 1 <= i < base ==> !Acceptable(f, i, lastP)
    {
      var want := if CHUNK > |f| - base then |f| - base else CHUNK;
      var buf := f[base..base + want];
      var i := 0;
      while i + 4 <= want
        invariant 0 <= i <= want - 3
        invariant forall j :: bad + 1 <= j < base + i ==> !Acceptable(f, j, lastP)
      {
        var at := base + i;
        if Get(buf[i..i + 4]) == REC_MAGIC {
          var k := ReadRec(f, at);
          AcceptableIs(f, at, lastP);
          if k.Ok? && !(k.rec.typ == P && k.rec.seqno <= lastP) {
            NextGoodIs(f, bad + 1, lastP, at);
            return at;
          }
        } else {
          SliceSlice(f, base, base + want, i, i + 4);
          NoMagic(f, at, lastP);
        }
        i := i + 1;
      }
      base := base + want - 3;
    }
    TooShort(f, base, lastP);
    NextGoodIs(f, bad + 1, lastP, |f|);
    return -1;
  }

  lemma AcceptableIs(f: seq<Byte>, at: nat, lastP: nat)
    requires at <= |f|
    ensures Acceptable(f, at, lastP) <==> var k := ReadRec(f, at); k.Ok? && !(k.rec.typ == P && k.rec.seqno <= lastP)
  {
    hide ReadRec;
  }

  lemma NoMagic(f: seq<Byte>, at: nat, lastP: nat)
    requires at + 4 <= |f| && Get(f[at..at + 4]) != REC_MAGIC
    ensures !Acceptable(f, at, lastP)
  {
    hide Get;
  }

  /** No record fits into less than a header and a checksum. */
  lemma TooShort(f: seq<Byte>, from: nat, lastP: nat)
    requires from <= |f| < from + REC_HEADER + 4
    ensures forall i :: from <= i < |f| ==> !Acceptable(f, i, lastP)
  {
    hide Get;
  }

  /** What replay reports about damage. */
  datatype Damage = Damage(regions: nat, first: nat, bytes: nat, cut: bool) {
    function Region(pos: nat, len: nat): Damage {
      this.(regions := regions + 1, first := if regions == 0 then pos else first, bytes := bytes + len)
    }
  }

  const NO_DAMAGE: Damage := Damage(0, 0, 0, false)

  /** replay's loop variables. */
  datatype Scan = Scan(pos: nat, lastP: nat, table: Table, damage: Damage, stopped: bool)

  const START: Scan := Scan(FILE_HEADER, 0, EMPTY, NO_DAMAGE, false)

  /** One round of replay's loop. */
  function ScanStep(f: seq<Byte>, s: Scan): (s': Scan)
    requires s.pos <= |f| && !s.stopped
    ensures s'.pos <= |f|
    ensures s'.stopped || s.pos < s'.pos
  {
    var k := ReadRec(f, s.pos);
    if k.End? then s.(stopped := true)
    else if k.Ok? then
      var r := k.rec;
      if r.seqno > MAX_SEQ || (r.typ == P && r.seqno <= s.lastP)
      then s.(pos := s.pos + RecLen(r), damage := s.damage.Region(s.pos, RecLen(r)))
      else s.(pos := s.pos + RecLen(r), table := Apply(s.table, r), lastP := if r.typ == P then r.seqno else s.lastP)
    else
      var next := NextGood(f, s.pos + 1, s.lastP);
      if next == |f| then s.(stopped := true)
      else if k.Torn? then s.(damage := s.damage.Region(s.pos, |f| - s.pos).(cut := true), stopped := true)
      else s.(pos := next, damage := s.damage.Region(s.pos, next - s.pos))
  }

  function ScanAll(f: seq<Byte>, s: Scan): (s': Scan)
    requires s.pos <= |f|
    ensures s'.stopped
    decreases |f| - s.pos, !s.stopped
  {
    if s.stopped then s else ScanAll(f, ScanStep(f, s))
  }

  datatype Opened = Loaded(table: Table, damage: Damage) | Unreadable

  /** What replaying the file `f` gives. */
  function ReplayOf(f: seq<Byte>): Opened {
    if |f| == 0 then Loaded(EMPTY, NO_DAMAGE)
    else if |f| < FILE_HEADER || Get(f[0..4]) != FILE_MAGIC || Get(f[4..8]) != VERSION then Unreadable
    else var s := ScanAll(f, START); Loaded(s.table, s.damage)
  }

  /** One round, with the chunked search in place of its specification. */
  method Round(f: seq<Byte>, s: Scan) returns (s': Scan)
    requires s.pos <= |f| && !s.stopped
    ensures s' == ScanStep(f, s)
  {
    hide Apply;
    var k := ReadRec(f, s.pos);
    if k.End? { return s.(stopped := true); }
    if k.Ok? {
      var r := k.rec;
      if r.seqno > MAX_SEQ || (r.typ == P && r.seqno <= s.lastP) {
        return s.(pos := s.pos + RecLen(r), damage := s.damage.Region(s.pos, RecLen(r)));
      }
      return s.(pos := s.pos + RecLen(r), table := Apply(s.table, r), lastP := if r.typ == P then r.seqno else s.lastP);
    }
    var next := Resync(f, s.pos, s.lastP);
    if next == -1 { return s.(stopped := true); }
    if k.Torn? { return s.(damage := s.damage.Region(s.pos, |f| - s.pos).(cut := true), stopped := true); }
    return s.(pos := next, damage := s.damage.Region(s.pos, next - s.pos));
  }

  /** replay: the loop ends on every byte string. */
  method ReplayFile(f: seq<Byte>) returns (o: Opened)
    ensures o == ReplayOf(f)
  {
    if |f| == 0 { return Loaded(EMPTY, NO_DAMAGE); }
    if |f| < FILE_HEADER || Get(f[0..4]) != FILE_MAGIC || Get(f[4..8]) != VERSION { return Unreadable; }
    var s := START;
    while !s.stopped
      invariant s.pos <= |f|
      invariant ScanAll(f, START) == ScanAll(f, s)
      decreases |f| - s.pos, !s.stopped
    {
      s := Round(f, s);
    }
    return Loaded(s.table, s.damage);
  }

  // ---- whatever the bytes, the table is in order ----

  ghost predicate ScanOk(s: Scan) {
    TableOk(s.table, s.lastP)
  }

  lemma ScanStepOk(f: seq<Byte>, s: Scan)
    requires s.pos <= |f| && !s.stopped && ScanOk(s)
    ensures ScanOk(ScanStep(f, s))
  {
    var k := ReadRec(f, s.pos);
    if k.Ok? && k.rec.seqno <= MAX_SEQ && !(k.rec.typ == P && k.rec.seqno <= s.lastP) {
      ApplyOk(s.table, k.rec, s.lastP);
    }
    hide TableOk, Apply;
  }

  lemma {:induction false} ScanAllOk(f: seq<Byte>, s: Scan)
    requires s.pos <= |f| && ScanOk(s)
    ensures ScanOk(ScanAll(f, s))
    decreases |f| - s.pos, !s.stopped
  {
    if !s.stopped {
      ScanStepOk(f, s);
      ScanAllOk(f, ScanStep(f, s));
    }
  }

  /** Any bytes whatever: the table that comes out of replay is strictly ascending, its
      numbers lie in 1..2^63-1, and the next number is above all of them and has not wrapped. */
  lemma ReplayInOrder(f: seq<Byte>)
    requires ReplayOf(f).Loaded?
    ensures TableOk(ReplayOf(f).table, MAX_SEQ)
  {
    if |f| > 0 {
      ScanAllOk(f, START);
    }
  }

  // ---- journals the queue wrote ----

  /** The scan after reading the first `i` records of a journal the queue wrote. */
  function ScanAt(rs: seq<Rec>, i: nat, damage: Damage, shift: nat): Scan
    requires i <= |rs|
  {
    Scan(|FileOf(rs[..i])| + shift, LastP(rs[..i]), Meaning(rs[..i]), damage, false)
  }

  lemma PsRise(rs: seq<Rec>, i: nat)
    requires RisingPs(rs) && i < |rs| && rs[i].typ == P
    ensures LastP(rs[..i]) < rs[i].seqno
  {
    LastPBounds(rs[..i]);
    if LastP(rs[..i]) > 0 {
      var j :| 0 <= j < i && rs[..i][j].typ == P && rs[..i][j].seqno == LastP(rs[..i]);
      assert rs[j] == rs[..i][j];
    }
  }

  lemma PrefixSnoc(rs: seq<Rec>, i: nat)
    requires i < |rs|
    ensures |FileOf(rs[..i + 1])| == |FileOf(rs[..i])| + RecLen(rs[i])
    ensures Meaning(rs[..i + 1]) == Apply(Meaning(rs[..i]), rs[i])
    ensures LastP(rs[..i + 1]) == (if rs[i].typ == P then rs[i].seqno else LastP(rs[..i]))
  {
    assert rs[..i + 1] == rs[..i] + [rs[i]];
    assert rs[..i + 1][..i] == rs[..i];
    EncodeAllSnoc(rs[..i], rs[i]);
    hide EncodeAll, Encode, Apply;
  }

  lemma OneRecord(f: seq<Byte>, rs: seq<Rec>, i: nat, damage: Damage, shift: nat)
    requires WriterMade(rs) && i < |rs|
    requires At(f, |FileOf(rs[..i])| + shift, Encode(rs[i]))
    ensures |FileOf(rs[..i + 1])| == |FileOf(rs[..i])| + RecLen(rs[i])
    ensures ScanStep(f, ScanAt(rs, i, damage, shift)) == ScanAt(rs, i + 1, damage, shift)
  {
    hide WriterMade, FileOf, Encode, Meaning, LastP, Apply, ScanStep, ReadRec, At;
    RecordFits(rs, i);
    ReadEncoded(f, |FileOf(rs[..i])| + shift, rs[i]);
    PrefixSnoc(rs, i);
    TakeRecord(f, ScanAt(rs, i, damage, shift), rs[i]);
  }

  lemma RecordFits(rs: seq<Rec>, i: nat)
    requires WriterMade(rs) && i < |rs|
    ensures Writable(rs[i]) && rs[i].seqno <= MAX_SEQ && (rs[i].typ == P ==> rs[i].seqno > LastP(rs[..i]))
  {
    hide LastP;
    if rs[i].typ == P { PsRise(rs, i); }
  }

  /** A sound record is applied. */
  lemma TakeRecord(f: seq<Byte>, s: Scan, r: Rec)
    requires s.pos <= |f| && !s.stopped && ReadRec(f, s.pos) == Ok(r) && r.seqno <= MAX_SEQ && (r.typ == P ==> r.seqno > s.lastP)
    ensures ScanStep(f, s) == s.(pos := s.pos + RecLen(r), table := Apply(s.table, r), lastP := if r.typ == P then r.seqno else s.lastP)
  {
    hide ReadRec, Apply, NextGood;
  }

  /** The records from `i` up to `k` lie one after another in `f`, from `shift` bytes late. */
  ghost predicate Laid(f: seq<Byte>, rs: seq<Rec>, i: nat, k: nat, shift: nat)
    requires i <= k <= |rs|
  {
    forall j :: i <= j < k ==> At(f, |FileOf(rs[..j])| + shift, Encode(rs[j]))
  }

  lemma {:induction false} ManyRecords(f: seq<Byte>, rs: seq<Rec>, i: nat, k: nat, damage: Damage, shift: nat)
    requires WriterMade(rs) && i <= k <= |rs| && Laid(f, rs, i, k, shift)
    requires |FileOf(rs[..i])| + shift <= |f|
    ensures |FileOf(rs[..k])| + shift <= |f|
    ensures ScanAll(f, ScanAt(rs, i, damage, shift)) == ScanAll(f, ScanAt(rs, k, damage, shift))
    decreases k - i
  {
    if i < k {
      OneRecord(f, rs, i, damage, shift);
      ManyRecords(f, rs, i + 1, k, damage, shift);
    }
  }

  lemma SplitAt(rs: seq<Rec>, j: nat)
    requires j < |rs|
    ensures EncodeAll(rs) == EncodeAll(rs[..j]) + Encode(rs[j]) + EncodeAll(rs[j + 1..])
  {
    hide EncodeAll, Encode;
    SplitOne(rs, j);
    EncodeAllSplit(rs[..j] + [rs[j]], rs[j + 1..]);
    EncodeAllSnoc(rs[..j], rs[j]);
  }

  /** Where each record of a written file lies, and what a cut inside one leaves of it. */
  lemma Place(rs: seq<Rec>, j: nat, c: nat)
    requires j < |rs| && |FileOf(rs[..j])| <= c <= |FileOf(rs)|
    ensures |FileOf(rs[..j])| + RecLen(rs[j]) <= |FileOf(rs)|
    ensures var f := FileOf(rs)[..c]; var pos := |FileOf(rs[..j])|;
            if pos + RecLen(rs[j]) <= c then At(f, pos, Encode(rs[j])) else f[pos..] == Encode(rs[j])[..c - pos]
  {
    SplitAt(rs, j);
    Slices(FileHeader(), EncodeAll(rs[..j]), Encode(rs[j]), EncodeAll(rs[j + 1..]), c);
  }

  lemma Slices(h: seq<Byte>, a: seq<Byte>, e: seq<Byte>, z: seq<Byte>, c: nat)
    requires |h + a| <= c <= |h + (a + e + z)|
    ensures var f := (h + (a + e + z))[..c]; var pos := |h + a|;
            if pos + |e| <= c then f[pos..pos + |e|] == e else f[pos..] == e[..c - pos]
  {
  }

  lemma HeaderReads(f: seq<Byte>)
    requires At(f, 0, FileHeader())
    ensures Get(f[0..4]) == FILE_MAGIC && Get(f[4..8]) == VERSION
  {
    var h := FileHeader();
    AtSlice(f, 0, h, 0, 4);
    AtSlice(f, 0, h, 4, 8);
    assert h[0..4] == Put(FILE_MAGIC, 4) && h[4..8] == Put(VERSION, 4);
    Widths();
    GetPut(FILE_MAGIC, 4);
    GetPut(VERSION, 4);
  }

  lemma NoneNearTheEnd(f: seq<Byte>, from: nat, lastP: nat)
    requires from <= |f| < from + REC_HEADER + 4
    ensures NextGood(f, from, lastP) == |f|
  {
    NextGoodIs(f, from, lastP, |f|);
  }

  /** The records of `rs` that lie whole before byte `c` of their file. */
  ghost predicate WholeBefore(rs: seq<Rec>, c: nat, k: nat) {
    k <= |rs| && |FileOf(rs[..k])| <= c && (k < |rs| ==> c < |FileOf(rs[..k + 1])|)
  }

  lemma {:induction false} FileGrows(rs: seq<Rec>, i: nat, k: nat)
    requires i <= k <= |rs|
    ensures |FileOf(rs[..i])| <= |FileOf(rs[..k])|
    decreases k
  {
    if i < k {
      FileGrows(rs, i, k - 1);
      PrefixSnoc(rs, k - 1);
      hide FileOf;
    }
  }

  lemma TornEnd(f: seq<Byte>, s: Scan, r: Rec)
    requires Writable(r) && !s.stopped && s.pos < |f| < s.pos + RecLen(r)
    requires f[s.pos..] == Encode(r)[..|f| - s.pos]
    ensures ScanAll(f, s).table == s.table
    ensures ScanAll(f, s).damage == s.damage || ScanAll(f, s).damage.cut
  {
    ReadCutShort(f, s.pos, r);
    if |f| - s.pos < REC_HEADER {
      NoneNearTheEnd(f, s.pos + 1, s.lastP);
    }
    hide Encode, NextGood, ReadRec;
  }

  /** Torn-tail recovery. A journal the queue wrote, cut off at any byte past its file
      header, replays to exactly the whole records before the cut: nothing that the torn
      record's name or payload happens to hold is ever applied, and the only damage
      reported is a cut. */
  lemma TornTail(rs: seq<Rec>, c: nat, k: nat)
    requires WriterMade(rs) && FILE_HEADER <= c <= |FileOf(rs)| && WholeBefore(rs, c, k)
    ensures var o := ReplayOf(FileOf(rs)[..c]);
            && o.Loaded? && o.table == Meaning(rs[..k])
            && (o.damage == NO_DAMAGE || o.damage.cut)
  {
    var f := FileOf(rs)[..c];
    assert At(f, 0, FileHeader());
    HeaderReads(f);
    hide FileHeader, EncodeAll, Encode, Meaning, LastP, WriterMade;
    LaidBefore(rs, c, k);
    assert rs[..0] == [];
    StartsEmpty(rs);
    ManyRecords(f, rs, 0, k, NO_DAMAGE, 0);
    CutInside(rs, c, k);
  }

  lemma StartsEmpty(rs: seq<Rec>)
    ensures ScanAt(rs, 0, NO_DAMAGE, 0) == START
  {
  }

  lemma LaidBefore(rs: seq<Rec>, c: nat, k: nat)
    requires c <= |FileOf(rs)| && k <= |rs| && |FileOf(rs[..k])| <= c
    ensures Laid(FileOf(rs)[..c], rs, 0, k, 0)
  {
    hide FileOf, Encode;
    forall j | 0 <= j < k ensures At(FileOf(rs)[..c], |FileOf(rs[..j])| + 0, Encode(rs[j])) {
      FileGrows(rs, j + 1, k);
      PrefixSnoc(rs, j);
      Place(rs, j, c);
    }
  }

  lemma CutInside(rs: seq<Rec>, c: nat, k: nat)
    requires WriterMade(rs) && FILE_HEADER <= c <= |FileOf(rs)| && WholeBefore(rs, c, k)
    ensures var s := ScanAll(FileOf(rs)[..c], ScanAt(rs, k, NO_DAMAGE, 0));
            s.table == Meaning(rs[..k]) && (s.damage == NO_DAMAGE || s.damage.cut)
  {
    var s := ScanAt(rs, k, NO_DAMAGE, 0);
    if s.pos < c {
      assert rs[..|rs|] == rs;
      Place(rs, k, c);
      PrefixSnoc(rs, k);
      assert Writable(rs[k]);
      hide FileOf, Encode, Meaning, LastP, WriterMade;
      TornEnd(FileOf(rs)[..c], s, rs[k]);
    }
  }

  // ---- damage in the middle ----

  /** A journal with the bytes `x` between its records. */
  function Damaged(a: seq<Rec>, x: seq<Byte>, b: seq<Rec>): seq<Byte> {
    FileOf(a) + x + EncodeAll(b)
  }

  lemma LaidBeforeDamage(a: seq<Rec>, x: seq<Byte>, b: seq<Rec>)
    ensures Laid(Damaged(a, x, b), a + b, 0, |a|, 0)
  {
    var f, rs := Damaged(a, x, b), a + b;
    assert f[..|FileOf(a)|] == FileOf(a);
    assert a[..|a|] == a && FileOf(a)[..|FileOf(a)|] == FileOf(a);
    LaidBefore(a, |FileOf(a)|, |a|);
    forall j | 0 <= j < |a| ensures At(f, |FileOf(rs[..j])| + 0, Encode(rs[j])) {
      assert rs[..j] == a[..j] && rs[j] == a[j];
      hide FileOf, EncodeAll, Encode;
      assert At(FileOf(a), |FileOf(a[..j])| + 0, Encode(a[j]));
      AtPrefix(FileOf(a), x + EncodeAll(b), |FileOf(a[..j])| + 0, Encode(a[j]));
      Assoc(FileOf(a), x, EncodeAll(b));
    }
  }

  lemma AtPrefix(f: seq<Byte>, z: seq<Byte>, pos: nat, e: seq<Byte>)
    requires At(f, pos, e)
    ensures At(f + z, pos, e)
  {
    assert (f + z)[pos..pos + |e|] == f[pos..pos + |e|];
  }

  lemma LaidAfterDamageAt(a: seq<Rec>, x: seq<Byte>, b: seq<Rec>, i: nat)
    requires i < |b|
    ensures At(Damaged(a, x, b), |FileOf(a + b[..i])| + |x|, Encode(b[i]))
  {
    hide EncodeAll, Encode, FileHeader;
    EncodeAllSplit(a, b[..i]);
    SplitAt(b, i);
    AtAfter(FileOf(a) + x, EncodeAll(b[..i]), Encode(b[i]), EncodeAll(b[i + 1..]));
  }

  lemma LaidAfterDamage(a: seq<Rec>, x: seq<Byte>, b: seq<Rec>)
    ensures Laid(Damaged(a, x, b), a + b, |a|, |a + b|, |x|)
  {
    hide Damaged, FileOf, Encode;
    var rs := a + b;
    forall j | |a| <= j < |rs| ensures At(Damaged(a, x, b), |FileOf(rs[..j])| + |x|, Encode(rs[j])) {
      TakeConcat(a, b, j - |a|);
      LaidAfterDamageAt(a, x, b, j - |a|);
    }
  }

  lemma AtAfter(h: seq<Byte>, a: seq<Byte>, e: seq<Byte>, z: seq<Byte>)
    ensures At(h + (a + e + z), |h| + |a|, e)
  {
  }

  /** Damage is confined. Put any bytes `x` between two records of a journal the queue wrote:
      if the reader does not take them for a torn write, and no acceptable record begins
      inside them, then every record before and every record after them is recovered, and
      exactly those bytes are reported. */
  lemma ConfinedDamage(a: seq<Rec>, x: seq<Byte>, b: seq<Rec>)
    requires WriterMade(a + b) && |b| > 0
    requires ReadRec(Damaged(a, x, b), |FileOf(a)|).Bad?
    requires forall i :: |FileOf(a)| < i < |FileOf(a)| + |x| ==> !Acceptable(Damaged(a, x, b), i, LastP(a))
    ensures ReplayOf(Damaged(a, x, b)) == Loaded(Meaning(a + b), Damage(1, |FileOf(a)|, |x|, false))
  {
    hide Damaged, FileOf, FileHeader, Encode, Meaning, LastP, WriterMade, ReadRec, Acceptable, ScanStep, Get, At;
    var f, rs, pos := Damaged(a, x, b), a + b, |FileOf(a)|;
    DamagedSizes(a, x, b);
    HeaderReads(f);
    TakeConcat(a, b, 0);
    TakeConcat(a, b, |b|);
    assert a + b[..0] == a && b[..|b|] == b && rs[..0] == [];
    LaidBeforeDamage(a, x, b);
    LaidAfterDamage(a, x, b);
    StartsEmpty(rs);
    ManyRecords(f, rs, 0, |a|, NO_DAMAGE, 0);
    PastDamage(a, x, b);
    ScanOnce(f, ScanAt(rs, |a|, NO_DAMAGE, 0));
    var damage := NO_DAMAGE.Region(pos, |x|);
    ManyRecords(f, rs, |a|, |rs|, damage, |x|);
    AtTheEnd(f, ScanAt(rs, |rs|, damage, |x|));
  }

  lemma DamagedSizes(a: seq<Rec>, x: seq<Byte>, b: seq<Rec>)
    ensures At(Damaged(a, x, b), 0, FileHeader())
    ensures |FileOf([])| == FILE_HEADER <= |FileOf(a)| <= |Damaged(a, x, b)|
    ensures |FileOf(a + b)| + |x| == |Damaged(a, x, b)|
  {
    hide Encode, FileHeader;
    EncodeAllSplit(a, b);
  }

  lemma ScanOnce(f: seq<Byte>, s: Scan)
    requires s.pos <= |f| && !s.stopped
    ensures ScanAll(f, s) == ScanAll(f, ScanStep(f, s))
  {
  }

  lemma AtTheEnd(f: seq<Byte>, s: Scan)
    requires s.pos == |f| && !s.stopped
    ensures ScanAll(f, s) == s.(stopped := true)
  {
  }

  lemma StepOverDamage(f: seq<Byte>, s: Scan, at: nat)
    requires !s.stopped && s.pos < at < |f| && ReadRec(f, s.pos).Bad? && Acceptable(f, at, s.lastP)
    requires forall i :: s.pos < i < at ==> !Acceptable(f, i, s.lastP)
    ensures ScanStep(f, s) == s.(pos := at, damage := s.damage.Region(s.pos, at - s.pos))
  {
    NextGoodIs(f, s.pos + 1, s.lastP, at);
    hide ReadRec, NextGood, Apply;
  }

  lemma FirstAfterDamage(a: seq<Rec>, x: seq<Byte>, b: seq<Rec>)
    requires |b| > 0
    ensures At(Damaged(a, x, b), |FileOf(a)| + |x|, Encode(b[0]))
  {
    hide Damaged, FileOf, Encode, At;
    assert a + b[..0] == a;
    LaidAfterDamageAt(a, x, b, 0);
  }

  lemma RisingAcross(a: seq<Rec>, b: seq<Rec>)
    requires WriterMade(a + b) && |b| > 0
    ensures Writable(b[0])
    ensures b[0].typ == P ==> LastP(a) < b[0].seqno
  {
    assert (a + b)[..|a|] == a && (a + b)[|a|] == b[0];
    if b[0].typ == P { PsRise(a + b, |a|); }
    hide LastP;
  }

  lemma AfterDamageAcceptable(a: seq<Rec>, x: seq<Byte>, b: seq<Rec>)
    requires WriterMade(a + b) && |b| > 0
    ensures |FileOf(a)| + |x| < |Damaged(a, x, b)|
    ensures ReadRec(Damaged(a, x, b), |FileOf(a)| + |x|) == Ok(b[0])
    ensures Acceptable(Damaged(a, x, b), |FileOf(a)| + |x|, LastP(a))
  {
    hide Damaged, FileOf, Encode, LastP, WriterMade, ReadRec, At, Writable;
    RisingAcross(a, b);
    FirstAfterDamage(a, x, b);
    AtInside(Damaged(a, x, b), |FileOf(a)| + |x|, Encode(b[0]));
    ReadEncoded(Damaged(a, x, b), |FileOf(a)| + |x|, b[0]);
  }

  lemma AtInside(f: seq<Byte>, pos: nat, e: seq<Byte>)
    requires At(f, pos, e)
    ensures pos + |e| <= |f|
  {
  }

  lemma PastDamage(a: seq<Rec>, x: seq<Byte>, b: seq<Rec>)
    requires WriterMade(a + b) && |b| > 0
    requires ReadRec(Damaged(a, x, b), |FileOf(a)|).Bad?
    requires forall i :: |FileOf(a)| < i < |FileOf(a)| + |x| ==> !Acceptable(Damaged(a, x, b), i, LastP(a))
    ensures |FileOf(a)| + |x| < |Damaged(a, x, b)|
    ensures ScanStep(Damaged(a, x, b), ScanAt(a + b, |a|, NO_DAMAGE, 0))
         == ScanAt(a + b, |a|, NO_DAMAGE.Region(|FileOf(a)|, |x|), |x|)
  {
    hide Damaged, FileOf, Meaning, LastP, WriterMade, ReadRec, Acceptable, ScanStep;
    AfterDamageAcceptable(a, x, b);
    TakeConcat(a, b, 0);
    assert a + b[..0] == a;
    StepOverDamage(Damaged(a, x, b), ScanAt(a + b, |a|, NO_DAMAGE, 0), |FileOf(a)| + |x|);
  }
}
