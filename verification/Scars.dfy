/** Torn bytes in the middle of a journal. A marker that could be neither written whole nor rolled
    back leaves its first bytes in the file, and the queue goes on writing after them. Replay steps
    over such a scrap if it reads as damage and nothing acceptable begins before the next record;
    when and only when that fails is what follows read otherwise. */
module Scars {
  import opened Sequences
  import opened LittleEndian
  import opened Journal
  import opened RecordTable
  import opened Replay

  // ---- a journal of records and scraps ----

  /** The type, which no record has, of bytes that are not a record. */
  const SCRAP: Byte := 0

  /** The first `n` bytes of a record, held as an entry of its own: it is about no record. */
  function Scrap(r: Rec, n: nat): Rec
    requires n <= RecLen(r)
  {
    Rec(SCRAP, 0, [], Encode(r)[..n])
  }

  ghost predicate IsScrap(r: Rec) {
    exists w: Rec, n: nat :: Writable(w) && 0 < n < RecLen(w) && r == Scrap(w, n)
  }

  ghost predicate IsPiece(r: Rec) {
    if r.typ == SCRAP then IsScrap(r) else Writable(r)
  }

  function Piece(r: Rec): seq<Byte> {
    if r.typ == SCRAP then r.payload else Encode(r)
  }

  function Pieces(rs: seq<Rec>): seq<Byte> {
    if |rs| == 0 then [] else Pieces(rs[..|rs| - 1]) + Piece(rs[|rs| - 1])
  }

  /** A journal file holding exactly these records and scraps. */
  function Marred(rs: seq<Rec>): seq<Byte> {
    FileHeader() + Pieces(rs)
  }

  ghost predicate AllPieces(rs: seq<Rec>) {
    (forall i :: 0 <= i < |rs| ==> IsPiece(rs[i])) && RisingPs(rs)
  }

  predicate NoScraps(rs: seq<Rec>) {
    forall i :: 0 <= i < |rs| ==> rs[i].typ != SCRAP
  }

  lemma PiecesSnoc(rs: seq<Rec>, r: Rec)
    ensures Pieces(rs + [r]) == Pieces(rs) + Piece(r)
  {
    hide Piece;
    assert (rs + [r])[..|rs + [r]| - 1] == rs;
  }

  lemma {:induction false} PiecesSplit(a: seq<Rec>, b: seq<Rec>)
    ensures Pieces(a + b) == Pieces(a) + Pieces(b)
    decreases |b|
  {
    hide Pieces, Piece;
    if |b| == 0 {
      assert a + b == a;
      NoPieces();
    } else {
      var n := |b| - 1;
      PiecesSplit(a, b[..n]);
      Snoc(b);
      Assoc(a, b[..n], [b[n]]);
      PiecesSnoc(a + b[..n], b[n]);
      PiecesSnoc(b[..n], b[n]);
      Assoc(Pieces(a), Pieces(b[..n]), Piece(b[n]));
    }
  }

  lemma NoPieces()
    ensures Pieces([]) == []
  {
  }

  lemma {:induction false} WholeFile(rs: seq<Rec>)
    requires NoScraps(rs)
    ensures Marred(rs) == FileOf(rs)
    decreases |rs|
  {
    if |rs| > 0 {
      WholeFile(rs[..|rs| - 1]);
      hide Encode, FileHeader;
      SameHead(FileHeader(), Pieces(rs[..|rs| - 1]), EncodeAll(rs[..|rs| - 1]));
    }
  }

  lemma SameHead(h: seq<Byte>, a: seq<Byte>, b: seq<Byte>)
    requires h + a == h + b
    ensures a == b
  {
    assert a == (h + a)[|h|..] && b == (h + b)[|h|..];
  }

  // ---- where the pieces lie ----

  lemma NextPiece(rs: seq<Rec>, i: nat)
    requires i < |rs|
    ensures |Marred(rs[..i + 1])| == |Marred(rs[..i])| + |Piece(rs[i])|
    ensures Meaning(rs[..i + 1]) == Apply(Meaning(rs[..i]), rs[i])
    ensures LastP(rs[..i + 1]) == (if rs[i].typ == P then rs[i].seqno else LastP(rs[..i]))
  {
    assert rs[..i + 1][..i] == rs[..i];
    hide Piece, Apply;
  }

  lemma PieceAt(rs: seq<Rec>, j: nat, c: nat)
    requires j < |rs| && |Marred(rs[..j])| <= c <= |Marred(rs)|
    ensures var f, pos, e := Marred(rs)[..c], |Marred(rs[..j])|, Piece(rs[j]);
            if pos + |e| <= c then At(f, pos, e) else f[pos..] == e[..c - pos]
  {
    hide Pieces, Piece;
    SplitOne(rs, j);
    PiecesSplit(rs[..j] + [rs[j]], rs[j + 1..]);
    PiecesSplit(rs[..j], [rs[j]]);
    OnePiece(rs[j]);
    Slices(FileHeader(), Pieces(rs[..j]), Piece(rs[j]), Pieces(rs[j + 1..]), c);
  }

  lemma OnePiece(r: Rec)
    ensures Pieces([r]) == Piece(r)
  {
    hide Piece;
    assert [r][..0] == [];
  }

  lemma {:induction false} MarredGrows(rs: seq<Rec>, i: nat, k: nat)
    requires i <= k <= |rs|
    ensures FILE_HEADER <= |Marred(rs[..i])| <= |Marred(rs[..k])|
    decreases k
  {
    hide Marred, Piece, Meaning, LastP;
    HasFileHeader(rs[..i]);
    if i < k {
      MarredGrows(rs, i, k - 1);
      NextPiece(rs, k - 1);
    }
  }

  lemma HasFileHeader(rs: seq<Rec>)
    ensures FILE_HEADER <= |Marred(rs)|
    ensures |rs| == 0 ==> |Marred(rs)| == FILE_HEADER
  {
    hide Piece, FileHeader;
  }

  lemma PieceOf(rs: seq<Rec>, i: nat)
    requires AllPieces(rs) && i < |rs|
    ensures IsPiece(rs[i]) && rs[i].seqno <= MAX_SEQ && RisingPs(rs)
  {
    hide IsPiece;
  }

  /** The pieces of `rs` that lie whole before byte `c` of their file. */
  ghost predicate PiecesBefore(rs: seq<Rec>, c: nat, k: nat) {
    k <= |rs| && |Marred(rs[..k])| <= c && (k < |rs| ==> c < |Marred(rs[..k + 1])|)
  }

  // ---- reading over scraps ----

  /** The next whole record among the first `k` pieces, or `k`. */
  function NextWhole(rs: seq<Rec>, i: nat, k: nat): (m: nat)
    requires i <= k <= |rs|
    ensures i <= m <= k && (m < k ==> rs[m].typ != SCRAP) && forall j :: i <= j < m ==> rs[j].typ == SCRAP
    decreases k - i
  {
    if i == k || rs[i].typ != SCRAP then i else NextWhole(rs, i + 1, k)
  }

  /** The bytes from `from` to `to` are read as damage, up to the record at `to`. */
  ghost predicate SteppedOver(f: seq<Byte>, from: nat, to: nat, lastP: nat) {
    && from < to < |f| && ReadRec(f, from).Bad?
    && forall x :: from < x < to ==> !Acceptable(f, x, lastP)
  }

  /** Reading stops at `from`. */
  ghost predicate Stops(f: seq<Byte>, from: nat, lastP: nat) {
    && from < |f| && !ReadRec(f, from).Ok?
    && (ReadRec(f, from).Bad? ==> NextGood(f, from + 1, lastP) == |f|)
  }

  /** Replay makes of the scraps, from piece `i` on, what they are. */
  ghost predicate Legible(f: seq<Byte>, rs: seq<Rec>, i: nat, k: nat)
    requires i <= k <= |rs|
    decreases k - i
  {
    if i == k then true
    else if rs[i].typ != SCRAP then Legible(f, rs, i + 1, k)
    else
      var m, from := NextWhole(rs, i, k), |Marred(rs[..i])|;
      if m == k then Stops(f, from, LastP(rs[..i]))
      else SteppedOver(f, from, |Marred(rs[..m])|, LastP(rs[..i])) && Legible(f, rs, m, k)
  }

  lemma {:induction false} UnmarredLegible(f: seq<Byte>, rs: seq<Rec>, i: nat, k: nat)
    requires i <= k <= |rs| && NoScraps(rs[..k])
    ensures Legible(f, rs, i, k)
    decreases k - i
  {
    if i < k {
      assert rs[..k][i] == rs[i];
      UnmarredLegible(f, rs, i + 1, k);
    }
  }

  function PieceScan(rs: seq<Rec>, i: nat, damage: Damage): Scan
    requires i <= |rs|
  {
    Scan(|Marred(rs[..i])|, LastP(rs[..i]), Meaning(rs[..i]), damage, false)
  }

  lemma {:induction false} ScrapsMeanNothing(rs: seq<Rec>, i: nat, m: nat)
    requires AllPieces(rs) && i <= m <= |rs| && forall j :: i <= j < m ==> rs[j].typ == SCRAP
    ensures Meaning(rs[..m]) == Meaning(rs[..i]) && LastP(rs[..m]) == LastP(rs[..i])
    decreases m
  {
    hide Meaning, LastP, AllPieces, RisingPs, Apply, Marred, Piece, Encode;
    if i < m {
      ScrapsMeanNothing(rs, i, m - 1);
      NextPiece(rs, m - 1);
      PieceOf(rs, m - 1);
      RisingPrefix(rs, m - 1);
      MeaningOk(rs[..m - 1]);
      NothingApplied(Meaning(rs[..m - 1]), rs[m - 1], LastP(rs[..m - 1]));
    }
  }

  lemma NothingApplied(t: Table, r: Rec, top: nat)
    requires TableOk(t, top) && r.typ == SCRAP && r.seqno == 0
    ensures Apply(t, r) == t
  {
  }

  lemma RecordRead(f: seq<Byte>, rs: seq<Rec>, i: nat, damage: Damage)
    requires AllPieces(rs) && i < |rs| && rs[i].typ != SCRAP && At(f, |Marred(rs[..i])|, Encode(rs[i]))
    ensures ScanStep(f, PieceScan(rs, i, damage)) == PieceScan(rs, i + 1, damage)
    ensures Acceptable(f, |Marred(rs[..i])|, LastP(rs[..i])) && |Marred(rs[..i])| < |f|
  {
    hide AllPieces, RisingPs, Marred, Encode, Meaning, LastP, Apply, NextGood, ReadRec, At;
    PieceOf(rs, i);
    if rs[i].typ == P { PsRise(rs, i); }
    AtInside(f, |Marred(rs[..i])|, Encode(rs[i]));
    ReadEncoded(f, |Marred(rs[..i])|, rs[i]);
    NextPiece(rs, i);
  }

  lemma TornPiece(f: seq<Byte>, rs: seq<Rec>, k: nat, damage: Damage)
    requires AllPieces(rs) && k < |rs| && |Marred(rs[..k])| < |f| < |Marred(rs[..k])| + |Piece(rs[k])|
    requires f[|Marred(rs[..k])|..] == Piece(rs[k])[..|f| - |Marred(rs[..k])|]
    ensures ScanAll(f, PieceScan(rs, k, damage)).table == Meaning(rs[..k])
  {
    hide AllPieces, RisingPs, Marred, Encode, Meaning, LastP, ScanAll;
    PieceOf(rs, k);
    var pos := |Marred(rs[..k])|;
    if rs[k].typ == SCRAP {
      var w: Rec, n: nat :| Writable(w) && 0 < n < RecLen(w) && rs[k] == Scrap(w, n);
      assert Encode(w)[..n][..|f| - pos] == Encode(w)[..|f| - pos];
      TornEnd(f, PieceScan(rs, k, damage), w);
    } else {
      TornEnd(f, PieceScan(rs, k, damage), rs[k]);
    }
  }

  lemma AtStop(f: seq<Byte>, s: Scan)
    requires !s.stopped && Stops(f, s.pos, s.lastP)
    ensures ScanAll(f, s).table == s.table
  {
    hide ReadRec, NextGood;
  }

  lemma {:induction false} Through(rs: seq<Rec>, c: nat, i: nat, k: nat, damage: Damage)
    requires AllPieces(rs) && c <= |Marred(rs)| && i <= k && PiecesBefore(rs, c, k)
    requires Legible(Marred(rs)[..c], rs, i, k)
    ensures |Marred(rs[..i])| <= c
    ensures ScanAll(Marred(rs)[..c], PieceScan(rs, i, damage)).table == Meaning(rs[..k])
    decreases k - i
  {
    hide AllPieces, Marred, Piece, Meaning, LastP, SteppedOver, Stops, ScanStep, At;
    var f, s := Marred(rs)[..c], PieceScan(rs, i, damage);
    MarredGrows(rs, i, k);
    if i == k {
      AtTheCut(rs, c, k, damage);
    } else if rs[i].typ != SCRAP {
      PieceInside(rs, c, i, k);
      RecordRead(f, rs, i, damage);
      ScanOnce(f, s);
      Through(rs, c, i + 1, k, damage);
    } else {
      var m := NextWhole(rs, i, k);
      ScrapsMeanNothing(rs, i, m);
      if m == k {
        AtStop(f, s);
      } else {
        PieceInside(rs, c, m, k);
        Over(f, rs, i, m, damage);
        ScanOnce(f, s);
        Through(rs, c, m, k, damage.Region(s.pos, |Marred(rs[..m])| - s.pos));
      }
    }
  }

  lemma PieceInside(rs: seq<Rec>, c: nat, i: nat, k: nat)
    requires c <= |Marred(rs)| && i < k && PiecesBefore(rs, c, k) && rs[i].typ != SCRAP
    ensures At(Marred(rs)[..c], |Marred(rs[..i])|, Encode(rs[i]))
  {
    hide Marred, Encode, At;
    MarredGrows(rs, i, k);
    MarredGrows(rs, i + 1, k);
    NextPiece(rs, i);
    PieceAt(rs, i, c);
  }

  lemma Over(f: seq<Byte>, rs: seq<Rec>, i: nat, m: nat, damage: Damage)
    requires AllPieces(rs) && i <= m < |rs| && rs[m].typ != SCRAP && At(f, |Marred(rs[..m])|, Encode(rs[m]))
    requires SteppedOver(f, |Marred(rs[..i])|, |Marred(rs[..m])|, LastP(rs[..i]))
    requires Meaning(rs[..m]) == Meaning(rs[..i]) && LastP(rs[..m]) == LastP(rs[..i])
    ensures ScanStep(f, PieceScan(rs, i, damage))
         == PieceScan(rs, m, damage.Region(|Marred(rs[..i])|, |Marred(rs[..m])| - |Marred(rs[..i])|))
  {
    hide AllPieces, Marred, Encode, Meaning, LastP, At, ReadRec, Acceptable, ScanStep;
    RecordRead(f, rs, m, damage);
    StepOverDamage(f, PieceScan(rs, i, damage), |Marred(rs[..m])|);
  }

  lemma AtTheCut(rs: seq<Rec>, c: nat, k: nat, damage: Damage)
    requires AllPieces(rs) && c <= |Marred(rs)| && PiecesBefore(rs, c, k)
    ensures ScanAll(Marred(rs)[..c], PieceScan(rs, k, damage)).table == Meaning(rs[..k])
  {
    hide AllPieces, Marred, Piece, Meaning, LastP, At;
    var f, s := Marred(rs)[..c], PieceScan(rs, k, damage);
    assert rs[..|rs|] == rs;
    if s.pos == c {
      AtTheEnd(f, s);
    } else {
      NextPiece(rs, k);
      PieceAt(rs, k, c);
      TornPiece(f, rs, k, damage);
    }
  }

  /** A journal of records and scraps, cut at any byte past its file header, replays to exactly the
      whole records before the cut if its scraps are legible there. */
  lemma MarredReplay(rs: seq<Rec>, c: nat, k: nat)
    requires AllPieces(rs) && FILE_HEADER <= c <= |Marred(rs)| && PiecesBefore(rs, c, k)
    requires Legible(Marred(rs)[..c], rs, 0, k)
    ensures var o := ReplayOf(Marred(rs)[..c]); o.Loaded? && o.table == Meaning(rs[..k])
  {
    var f := Marred(rs)[..c];
    assert At(f, 0, FileHeader());
    HeaderReads(f);
    assert rs[..0] == [];
    assert PieceScan(rs, 0, NO_DAMAGE) == START;
    hide AllPieces, Pieces, FileHeader, Meaning, LastP, Legible, ScanAll, PiecesBefore;
    Through(rs, c, 0, k, NO_DAMAGE);
  }

  // ---- any damage, whole records after it, and a torn one at the end ----

  /** A journal with the bytes `x` between its records, cut inside the record `p`. */
  function DamagedAndTorn(a: seq<Rec>, x: seq<Byte>, b: seq<Rec>, p: Rec, n: nat): seq<Byte>
    requires n <= RecLen(p)
  {
    Damaged(a, x, b) + Encode(p)[..n]
  }

  function ReplayFrom(f: seq<Byte>, s: Scan): Opened
    requires s.pos <= |f|
  {
    Loaded(ScanAll(f, s).table, ScanAll(f, s).damage)
  }

  /** Damage, then whole records, then a torn one. The damage costs nothing but itself if a whole
      record follows it; and if none does, exactly if no acceptable record begins in the torn bytes.
      Otherwise replay goes on from the first such record, wherever in the torn record's name or
      payload it lies: what it holds is applied. */
  lemma DamageThenTorn(a: seq<Rec>, x: seq<Byte>, b: seq<Rec>, p: Rec, n: nat)
    requires WriterMade(a + b) && Writable(p) && n < RecLen(p) && |x| > 0
    requires ReadRec(DamagedAndTorn(a, x, b, p, n), |FileOf(a)|).Bad?
    requires forall i :: |FileOf(a)| < i < |FileOf(a)| + |x| ==> !Acceptable(DamagedAndTorn(a, x, b, p, n), i, LastP(a))
    ensures var f, pos := DamagedAndTorn(a, x, b, p, n), |FileOf(a)|;
            var at := NextGood(f, pos + |x|, LastP(a));
            if |b| > 0 then ReplayOf(f).Loaded? && ReplayOf(f).table == Meaning(a + b)
            else if at == |f| then ReplayOf(f) == Loaded(Meaning(a), NO_DAMAGE)
            else ReplayOf(f) == ReplayFrom(f, Scan(at, LastP(a), Meaning(a), NO_DAMAGE.Region(pos, at - pos), false))
  {
    hide DamagedAndTorn, FileOf, FileHeader, Encode, Meaning, LastP, WriterMade, ReadRec, Acceptable, ScanStep, ScanAll, Get, At, Laid, NextGood;
    var f, rs := DamagedAndTorn(a, x, b, p, n), a + b;
    TornSizes(a, x, b, p, n);
    HeaderReads(f);
    TakeConcat(a, b, 0);
    assert a + b[..0] == a && rs[..0] == [];
    LaidTorn(a, x, b, p, n);
    StartsEmpty(rs);
    ManyRecords(f, rs, 0, |a|, NO_DAMAGE, 0);
    ScanOnce(f, ScanAt(rs, |a|, NO_DAMAGE, 0));
    if |b| > 0 {
      AfterTheDamage(a, x, b, p, n);
    } else {
      assert rs == a;
      NothingWhole(f, ScanAt(rs, |a|, NO_DAMAGE, 0), |FileOf(a)| + |x|);
    }
  }

  lemma TornSizes(a: seq<Rec>, x: seq<Byte>, b: seq<Rec>, p: Rec, n: nat)
    requires n <= RecLen(p)
    ensures var f := DamagedAndTorn(a, x, b, p, n);
            At(f, 0, FileHeader()) && |FileOf([])| == FILE_HEADER <= |FileOf(a)| && |f| == |FileOf(a + b)| + |x| + n
    ensures |FileOf(a + b)| >= |FileOf(a)|
  {
    hide Encode, FileHeader, Damaged;
    DamagedSizes(a, x, b);
    AtPrefix(Damaged(a, x, b), Encode(p)[..n], 0, FileHeader());
    EncodeAllSplit(a, b);
  }

  lemma LaidTorn(a: seq<Rec>, x: seq<Byte>, b: seq<Rec>, p: Rec, n: nat)
    requires n <= RecLen(p)
    ensures Laid(DamagedAndTorn(a, x, b, p, n), a + b, 0, |a|, 0)
    ensures Laid(DamagedAndTorn(a, x, b, p, n), a + b, |a|, |a + b|, |x|)
  {
    hide Damaged, Encode, FileOf, At;
    LaidBeforeDamage(a, x, b);
    LaidAfterDamage(a, x, b);
    LaidPrefix(Damaged(a, x, b), Encode(p)[..n], a + b, 0, |a|, 0);
    LaidPrefix(Damaged(a, x, b), Encode(p)[..n], a + b, |a|, |a + b|, |x|);
  }

  lemma LaidPrefix(f: seq<Byte>, z: seq<Byte>, rs: seq<Rec>, i: nat, k: nat, shift: nat)
    requires i <= k <= |rs| && Laid(f, rs, i, k, shift)
    ensures Laid(f + z, rs, i, k, shift)
  {
    hide FileOf, Encode, At;
    forall j | i <= j < k ensures At(f + z, |FileOf(rs[..j])| + shift, Encode(rs[j])) {
      AtPrefix(f, z, |FileOf(rs[..j])| + shift, Encode(rs[j]));
    }
  }

  lemma AfterTheDamage(a: seq<Rec>, x: seq<Byte>, b: seq<Rec>, p: Rec, n: nat)
    requires WriterMade(a + b) && Writable(p) && n < RecLen(p) && |x| > 0 && |b| > 0
    requires ReadRec(DamagedAndTorn(a, x, b, p, n), |FileOf(a)|).Bad?
    requires forall i :: |FileOf(a)| < i < |FileOf(a)| + |x| ==> !Acceptable(DamagedAndTorn(a, x, b, p, n), i, LastP(a))
    ensures var f, s := DamagedAndTorn(a, x, b, p, n), ScanAt(a + b, |a|, NO_DAMAGE, 0);
            s.pos <= |f| && ScanAll(f, ScanStep(f, s)).table == Meaning(a + b)
  {
    hide DamagedAndTorn, FileOf, Encode, Meaning, LastP, WriterMade, ReadRec, Acceptable, ScanStep, ScanAll, At, NextGood, Laid;
    var f, rs, pos := DamagedAndTorn(a, x, b, p, n), a + b, |FileOf(a)|;
    TornSizes(a, x, b, p, n);
    TakeConcat(a, b, 0);
    assert a + b[..0] == a && rs[..|rs|] == rs;
    LaidTorn(a, x, b, p, n);
    FirstLaid(f, a, b, |x|);
    RisingAcross(a, b);
    AtInside(f, pos + |x|, Encode(b[0]));
    ReadEncoded(f, pos + |x|, b[0]);
    IsAcceptable(f, pos + |x|, LastP(a), b[0]);
    var damage := NO_DAMAGE.Region(pos, |x|);
    StepOverDamage(f, ScanAt(rs, |a|, NO_DAMAGE, 0), pos + |x|);
    ManyRecords(f, rs, |a|, |rs|, damage, |x|);
    EndsTorn(a, x, b, p, n, damage);
  }

  lemma FirstLaid(f: seq<Byte>, a: seq<Rec>, b: seq<Rec>, shift: nat)
    requires |b| > 0 && Laid(f, a + b, |a|, |a + b|, shift)
    ensures At(f, |FileOf(a)| + shift, Encode(b[0]))
  {
    hide FileOf, Encode, At;
    assert (a + b)[..|a|] == a && (a + b)[|a|] == b[0];
  }

  lemma IsAcceptable(f: seq<Byte>, at: nat, lastP: nat, r: Rec)
    requires at <= |f| && ReadRec(f, at) == Ok(r) && (r.typ == P ==> lastP < r.seqno)
    ensures Acceptable(f, at, lastP)
  {
    hide ReadRec;
  }

  lemma EndsTorn(a: seq<Rec>, x: seq<Byte>, b: seq<Rec>, p: Rec, n: nat, damage: Damage)
    requires Writable(p) && n < RecLen(p)
    ensures var f, s := DamagedAndTorn(a, x, b, p, n), ScanAt(a + b, |a + b|, damage, |x|);
            s.pos <= |f| && ScanAll(f, s).table == Meaning(a + b)
  {
    hide FileOf, Encode, Meaning, LastP, ScanAll, Damaged;
    var f, s := DamagedAndTorn(a, x, b, p, n), ScanAt(a + b, |a + b|, damage, |x|);
    assert (a + b)[..|a + b|] == a + b;
    DamagedSizes(a, x, b);
    if n == 0 {
      AtTheEnd(f, s);
    } else {
      assert f[s.pos..] == Encode(p)[..n];
      TornEnd(f, s, p);
    }
  }

  /** Nothing acceptable before `from`: the first acceptable record after it is where reading goes on. */
  lemma NothingWhole(f: seq<Byte>, s: Scan, from: nat)
    requires !s.stopped && s.pos < from <= |f| && ReadRec(f, s.pos).Bad?
    requires forall i :: s.pos < i < from ==> !Acceptable(f, i, s.lastP)
    ensures var at := NextGood(f, from, s.lastP);
            ScanStep(f, s) == if at == |f| then s.(stopped := true) else s.(pos := at, damage := s.damage.Region(s.pos, at - s.pos))
    ensures NextGood(f, from, s.lastP) == |f| ==> ScanAll(f, ScanStep(f, s)) == s.(stopped := true)
  {
    hide ReadRec, Acceptable;
    NextGoodIs(f, s.pos + 1, s.lastP, NextGood(f, from, s.lastP));
  }

  // ---- scraps that are always legible ----

  /** Fewer than twelve bytes of a marker, with a whole record after them, are always stepped over:
      read together with that record's first bytes they claim a name or a payload beyond the format's
      bounds, and nothing in them looks like the beginning of a record. */
  lemma ShortScrap(f: seq<Byte>, pos: nat, m: Rec, n: nat, r: Rec, lastP: nat)
    requires 0 < n < 12 && m.name == [] && m.payload == [] && m.typ in {D, Q, S, F, K}
    requires At(f, pos, Encode(m)[..n]) && At(f, pos + n, Encode(r))
    ensures SteppedOver(f, pos, pos + n, lastP)
  {
    hide Encode, RecHeader, ReadRec, Get, Put;
    ShortBytes(m, n);
    HeadBytes(r);
    assert f[pos + n..pos + n + |Encode(r)|][..4] == f[pos + n..pos + n + 4];
    assert f[pos..pos + n + 4] == f[pos..pos + n] + f[pos + n..pos + n + 4];
    ShortHead(f, pos, n, m.typ);
    forall x | pos < x < pos + n ensures !Acceptable(f, x, lastP) {
      assert f[x] == f[pos..pos + n][x - pos] == Encode(m)[..n][x - pos];
      NotAt(f, x);
    }
  }

  lemma HeadBytes(r: Rec)
    ensures |Encode(r)| >= 24 && Encode(r)[..4] == [0x31, 0x52, 0x51, 0x44]
  {
    EncodeParts(r);
    PutMagic();
    assert Encode(r)[..4] == Encode(r)[0..20][..4] == RecHeader(r)[..4];
  }

  lemma ShortBytes(m: Rec, n: nat)
    requires 0 < n < 12 && m.name == [] && m.payload == [] && m.typ in {D, Q, S, F, K}
    ensures |Encode(m)| >= 24 && Encode(m)[..n] == [0x31, 0x52, 0x51, 0x44, m.typ, 0, 0, 0, 0, 0, 0][..n]
    ensures forall i :: 0 < i < n ==> Encode(m)[..n][i] != 0x31
  {
    hide Encode, RecHeader, Fnv, Put;
    EncodeParts(m);
    HeaderStart(m);
    assert Encode(m)[..n] == Encode(m)[0..20][..n];
    assert RecHeader(m)[..n] == RecHeader(m)[..11][..n];
  }

  lemma HeaderStart(m: Rec)
    requires m.name == [] && m.payload == []
    ensures RecHeader(m)[..11] == [0x31, 0x52, 0x51, 0x44, m.typ, 0, 0, 0, 0, 0, 0]
  {
    hide Put;
    PutMagic();
    SmallBytes(0, 2);
    SmallBytes(0, 4);
  }

  /** Such a scrap, and the first bytes of the record after it. */
  function Mixed(t: Byte, n: nat): (g: seq<Byte>)
    requires n < 12
    ensures |g| == n + 4
  {
    [0x31, 0x52, 0x51, 0x44, t, 0, 0, 0, 0, 0, 0][..n] + [0x31, 0x52, 0x51, 0x44]
  }

  /** Its length fields reach into the record after it. */
  lemma ClaimsTooMuch(t: Byte, n: nat)
    requires 4 <= n < 12
    ensures n < 8 ==> Get(Mixed(t, n)[6..8]) > MAX_NAME
    ensures n >= 8 ==> Get(Mixed(t, n)[8..12]) > MAX_PAYLOAD
  {
    hide Get;
    var g := Mixed(t, n);
    if n == 4 {
      assert g[6] == 0x51 && g[7] == 0x44;
    } else if n == 5 {
      assert g[6] == 0x52 && g[7] == 0x51;
    } else if n == 6 {
      assert g[6] == 0x31 && g[7] == 0x52;
    } else if n == 7 {
      assert g[6] == 0 && g[7] == 0x31;
    } else if n == 8 {
      assert g[11] == 0x44;
    } else if n == 9 {
      assert g[11] == 0x51;
    } else if n == 10 {
      assert g[11] == 0x52;
    } else {
      assert g[11] == 0x31;
    }
    if n < 8 { TwoBytes(g[6..8]); } else { FourBytes(g[8..12]); }
  }

  lemma ShortHead(f: seq<Byte>, pos: nat, n: nat, t: Byte)
    requires 0 < n < 12 && pos + n + 24 <= |f| && f[pos..pos + n + 4] == Mixed(t, n)
    ensures ReadRec(f, pos).Bad?
  {
    hide Get, Mixed;
    if n < 4 {
      SliceSlice(f, pos, pos + n + 4, 0, 4);
      MixedMagic(t, n);
    } else {
      ClaimsTooMuch(t, n);
      SliceSlice(f, pos, pos + n + 4, 6, 8);
      if n >= 8 { SliceSlice(f, pos, pos + n + 4, 8, 12); }
    }
  }

  lemma MixedMagic(t: Byte, n: nat)
    requires 0 < n < 4
    ensures Get(Mixed(t, n)[0..4]) != REC_MAGIC
  {
    hide Get;
    NotMagic(Mixed(t, n)[0..4]);
  }

  lemma NotMagic(s: seq<Byte>)
    requires |s| == 4 && !(s[1] == 0x52 && s[2] == 0x51 && s[3] == 0x44)
    ensures Get(s) != REC_MAGIC
  {
    if Get(s) == REC_MAGIC { StartsMagic(s); }
  }

  lemma TwoBytes(s: seq<Byte>)
    requires |s| == 2
    ensures Get(s) == s[0] as int + 256 * (s[1] as int)
  {
    assert Get(s[1..]) == s[1];
  }

  lemma FourBytes(s: seq<Byte>)
    requires |s| == 4
    ensures Get(s) == s[0] as int + 256 * (s[1] as int) + 65536 * (s[2] as int) + 16777216 * (s[3] as int)
  {
    TwoBytes(s[2..]);
    assert s[1..][1..] == s[2..];
    assert Get(s[1..]) == s[1] + 256 * Get(s[2..]);
  }

  // ---- an acknowledged record lost ----

  /** A record whose payload begins with a 'D' for record 1. */
  const ACKED: Rec := Rec(P, 1, [], [])
  const RETRACT: Rec := Rec(D, 1, [], [])
  const HOLDER: Rec := Rec(P, 2, [], Encode(RETRACT) + [0])

  /** Three bytes of a marker for record 1, left in the file, and then record 2, cut off by a crash
      just after the 'D' in its payload: replay applies that 'D'. */
  lemma TornMarkerLosesRecord()
    ensures var f := FileOf([ACKED]) + Encode(Marker(S, 1))[..3] + Encode(HOLDER)[..44];
            ReplayOf(f).Loaded? && ReplayOf(f).table.rows == [Row(1, [], [], true, false, false, 0)]
  {
    hide ReadRec, Encode, Meaning, ReplayOf, NextGood, ScanAll, WriterMade, Acceptable, LastP;
    var a, x := [ACKED], Encode(Marker(S, 1))[..3];
    var f, pos := DamagedAndTorn(a, x, [], HOLDER, 44), |FileOf([ACKED])|;
    LossBytes();
    LossShape();
    LossUnread();
    assert a + [] == a;
    NoneBetween(a, x);
    DamageThenTorn(a, x, [], HOLDER, 44);
    NextGoodIs(f, pos + 3, 1, pos + 23);
    LossEnds(f, Scan(pos + 23, 1, Meaning(a), NO_DAMAGE.Region(pos, 23), false));
  }

  lemma NoneBetween(a: seq<Rec>, x: seq<Byte>)
    ensures Damaged(a, x, []) == FileOf(a) + x
  {
    assert EncodeAll([]) == [];
  }

  lemma LastPart(h: seq<Byte>, x: seq<Byte>, z: seq<Byte>, i: nat, j: nat)
    requires i <= j <= |z|
    ensures (h + x + z)[|h| + |x| + i..|h| + |x| + j] == z[i..j]
  {
  }

  /** What the bytes of the file are. */
  ghost predicate LossAt(f: seq<Byte>, pos: nat) {
    && |f| == pos + 47
    && f[pos] == 0x31 && f[pos + 1] == 0x52 && f[pos + 2] == 0x51
    && At(f, pos + 3, RecHeader(HOLDER)) && At(f, pos + 23, Encode(RETRACT))
  }

  lemma HolderBytes()
    ensures |HOLDER.payload| == 25 && |Encode(HOLDER)| == 49
    ensures Encode(HOLDER)[..44][0..20] == RecHeader(HOLDER) && Encode(HOLDER)[..44][20..44] == Encode(RETRACT)
  {
    hide Encode, Fnv, Put, RecHeader;
    var e := Encode(HOLDER);
    EncodeParts(HOLDER);
    assert |HOLDER.payload| == 25 && HOLDER.payload[..24] == Encode(RETRACT);
    assert e[..44][0..20] == e[0..20];
    assert e[..44][20..44] == e[20..45][..24];
  }

  lemma LossBytes()
    ensures LossAt(DamagedAndTorn([ACKED], Encode(Marker(S, 1))[..3], [], HOLDER, 44), |FileOf([ACKED])|)
  {
    hide Encode, FileOf, Damaged, RecHeader;
    HolderBytes();
    MagicBytes(Marker(S, 1));
    var h, x, z := FileOf([ACKED]), Encode(Marker(S, 1))[..3], Encode(HOLDER)[..44];
    NoneBetween([ACKED], x);
    LossLaid(h, x, z);
  }

  lemma LossLaid(h: seq<Byte>, x: seq<Byte>, z: seq<Byte>)
    requires x == [0x31, 0x52, 0x51] && |z| == 44 && z[0..20] == RecHeader(HOLDER) && z[20..44] == Encode(RETRACT)
    ensures LossAt(h + x + z, |h|)
  {
    hide Encode, RecHeader;
    LastPart(h, x, z, 0, 20);
    LastPart(h, x, z, 20, 44);
  }

  lemma MagicBytes(r: Rec)
    ensures Encode(r)[..3] == [0x31, 0x52, 0x51]
  {
    EncodeParts(r);
    hide Encode, Fnv;
    assert Put(REC_MAGIC, 4) == [0x31, 0x52, 0x51, 0x44] by { PutMagic(); }
    assert Encode(r)[..3] == Encode(r)[0..20][..3] == RecHeader(r)[..3];
  }

  lemma PutMagic()
    ensures Put(REC_MAGIC, 4) == [0x31, 0x52, 0x51, 0x44]
  {
    var v1, v2, v3 := REC_MAGIC / 256, REC_MAGIC / 256 / 256, REC_MAGIC / 256 / 256 / 256;
    assert Put(v3, 1) == [0x44];
    assert Put(v2, 2) == [0x51] + Put(v3, 1);
    assert Put(v1, 3) == [0x52] + Put(v2, 2);
  }

  lemma StartsMagic(s: seq<Byte>)
    requires |s| == 4 && Get(s) == REC_MAGIC
    ensures s[0] == 0x31 && s[1] == 0x52 && s[2] == 0x51 && s[3] == 0x44
  {
    PutGet(s);
    PutMagic();
  }

  lemma LossShape()
    ensures WriterMade([ACKED]) && LastP([ACKED]) == 1 && Writable(HOLDER)
    ensures Meaning([ACKED]).rows == [FreshRow(ACKED)] && Meaning([ACKED]).nextSeq == 2
  {
    assert [ACKED][..0] == [];
  }

  lemma {:induction false} SmallBytes(v: nat, n: nat)
    requires v < 256
    ensures forall i :: 0 <= i < n ==> Put(v, n)[i] == if i == 0 then v else 0
    decreases n
  {
    if n > 0 { SmallBytes(0, n - 1); }
  }

  lemma HolderHeader()
    ensures forall i :: 1 <= i < 20 ==> RecHeader(HOLDER)[i] != 0x31
  {
    PutMagic();
    SmallBytes(0, 2);
    SmallBytes(25, 4);
    SmallBytes(2, 8);
  }

  lemma NotAt(f: seq<Byte>, i: nat)
    requires i < |f| && (f[i] != 0x31 || (i + 4 <= |f| && f[i + 3] != 0x44))
    ensures !ReadRec(f, i).Ok? && !ReadRec(f, i).Torn?
  {
    hide Get;
    if i + REC_HEADER <= |f| && Get(f[i..i + 4]) == REC_MAGIC {
      StartsMagic(f[i..i + 4]);
      assert false;
    }
  }

  lemma LossUnread()
    ensures var f, pos := DamagedAndTorn([ACKED], Encode(Marker(S, 1))[..3], [], HOLDER, 44), |FileOf([ACKED])|;
            && ReadRec(f, pos).Bad? && |f| == pos + 47
            && (forall i :: pos < i < pos + 23 ==> !Acceptable(f, i, 1))
            && ReadRec(f, pos + 23) == Ok(RETRACT)
            && Acceptable(f, pos + 23, 1)
  {
    hide Encode, FileOf, DamagedAndTorn, RecHeader, ReadRec;
    var f, pos := DamagedAndTorn([ACKED], Encode(Marker(S, 1))[..3], [], HOLDER, 44), |FileOf([ACKED])|;
    LossBytes();
    HolderHeader();
    assert f[pos + 3..pos + 23] == RecHeader(HOLDER);
    HolderTorn(f, pos + 3);
    NotAt(f, pos);
    assert ReadRec(f, pos).Bad? by { FirstMagic(f, pos); }
    forall i | pos < i < pos + 23 ensures !Acceptable(f, i, 1) {
      if i < pos + 3 {
        NotAt(f, i);
      } else if i > pos + 3 {
        assert f[i] == f[pos + 3..pos + 23][i - pos - 3];
        NotAt(f, i);
      }
    }
    ReadEncoded(f, pos + 23, RETRACT);
  }

  lemma FirstMagic(f: seq<Byte>, pos: nat)
    requires pos < |f| && !ReadRec(f, pos).Ok? && !ReadRec(f, pos).Torn?
    ensures ReadRec(f, pos).Bad?
  {
  }

  /** The holder's header claims one byte more than the file has. */
  lemma HolderTorn(f: seq<Byte>, pos: nat)
    requires pos + 44 == |f| && At(f, pos, RecHeader(HOLDER))
    ensures f[pos] == 0x31 && !Acceptable(f, pos, 1)
  {
    assert |HOLDER.payload| == 25;
    HeaderFields(f, pos, HOLDER);
    StartsMagic(f[pos..pos + 4]);
  }

  lemma LossEnds(f: seq<Byte>, s: Scan)
    requires s.pos + 24 == |f| && !s.stopped && ReadRec(f, s.pos) == Ok(RETRACT) && s.lastP == 1
    requires s.table.rows == [FreshRow(ACKED)]
    ensures ScanAll(f, s).table.rows == [Row(1, [], [], true, false, false, 0)]
  {
    hide ReadRec, NextGood;
    var s1 := ScanStep(f, s);
    assert s1.pos == |f| && !s1.stopped;
    AtTheEnd(f, s1);
    assert Find(s.table.rows, 1) == 0;
  }
}
