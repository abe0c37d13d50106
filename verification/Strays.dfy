/** Records that verify and that no writer makes, and records one byte of which has changed: what each
    costs the replay. */
module Strays {
  import opened LittleEndian
  import opened Journal
  import opened Checksum
  import opened RecordTable
  import opened Replay

  /** A 'P' whose number does not rise, or any record numbered past the last number there is. */
  predicate Stray(r: Rec, lastP: nat) {
    r.seqno > 0x7FFF_FFFF_FFFF_FFFF || (r.typ == P && r.seqno <= lastP)
  }

  /** A file is no journal exactly if it has bytes and they do not begin with the eight of a header. */
  lemma UnreadableIff(f: seq<Byte>)
    ensures ReplayOf(f).Unreadable? <==> |f| > 0 && !(|f| >= 8 && f[..8] == [0x31, 0x51, 0x44, 0x47, 1, 0, 0, 0])
    ensures |f| == 0 ==> ReplayOf(f) == Loaded(Table([], 1), Damage(0, 0, 0, false))
  {
    hide Get, Put, ScanAll;
    if |f| >= 8 {
      PutGet(f[0..4]);
      PutGet(f[4..8]);
      MagicBytes(FILE_MAGIC, 0x31, 0x51, 0x44, 0x47);
      MagicBytes(VERSION, 1, 0, 0, 0);
      assert f[..8] == f[0..4] + f[4..8];
      var h: seq<Byte> := [0x31, 0x51, 0x44, 0x47, 1, 0, 0, 0];
      assert h[..4] == [0x31, 0x51, 0x44, 0x47] && h[4..] == [1, 0, 0, 0];
      if f[..8] == h {
        Widths();
        GetPut(FILE_MAGIC, 4);
        GetPut(VERSION, 4);
        assert f[0..4] == h[..4] && f[4..8] == h[4..];
      }
    }
  }

  /** Where the search for a sound record stops: at the bytes of a whole record, of any that may be
      written but a 'P' whose number does not rise. */
  lemma AcceptableExact(f: seq<Byte>, at: nat, lastP: nat)
    requires at <= |f|
    ensures Acceptable(f, at, lastP) <==>
              exists r, pad :: Writable(r) && At(f, at, EncodeWith(r, pad)) && !(r.typ == 0x50 && r.seqno <= lastP)
  {
    hide ReadRec, EncodeWith, At;
    if Acceptable(f, at, lastP) { ReadExact(f, at, ReadRec(f, at).rec); }
    if r, pad :| Writable(r) && At(f, at, EncodeWith(r, pad)) && !(r.typ == 0x50 && r.seqno <= lastP) { ReadExact(f, at, r); }
  }

  /** The records without the strays among them. */
  function Sound(rs: seq<Rec>): seq<Rec> {
    if |rs| == 0 then []
    else
      var before := Sound(rs[..|rs| - 1]);
      if Stray(rs[|rs| - 1], LastP(before)) then before else before + [rs[|rs| - 1]]
  }

  /** Where the strays are, among the records. */
  function Places(rs: seq<Rec>): (at: seq<nat>)
    ensures forall i :: 0 <= i < |at| ==> at[i] < |rs|
  {
    if |rs| == 0 then []
    else
      var n := |rs| - 1;
      Places(rs[..n]) + if Stray(rs[n], LastP(Sound(rs[..n]))) then [n] else []
  }

  /** How many bytes the strays are. */
  function Length(rs: seq<Rec>, at: seq<nat>): nat
    requires forall i :: 0 <= i < |at| ==> at[i] < |rs|
  {
    if |at| == 0 then 0 else Length(rs, at[..|at| - 1]) + RecLen(rs[at[|at| - 1]])
  }

  /** How many strays, where the first begins in the file, and how many bytes they are together. */
  function Report(rs: seq<Rec>): Damage {
    var at := Places(rs);
    Damage(|at|, if |at| == 0 then 0 else |FileOf(rs[..at[0]])|, Length(rs, at), false)
  }

  /** Any records at all, whole and one after another: each stray is skipped alone and reported, and all
      the others are replayed. */
  lemma StraysSkippedAlone(rs: seq<Rec>)
    requires forall i :: 0 <= i < |rs| ==> Writable(rs[i])
    ensures ReplayOf(FileOf(rs)) == Loaded(Meaning(Sound(rs)), Report(rs))
  {
    hide FileOf, FileHeader, Encode, Meaning, LastP, ReadRec, ScanStep, Get, At, Sound, Report, Writable;
    var f := FileOf(rs);
    Headed(rs);
    HeaderReads(f);
    assert rs[..0] == [] && rs[..|rs|] == rs;
    NoneRead();
    AllRead(f, rs, 0);
    AtTheEnd(f, SoundAt(rs, |rs|));
  }

  lemma Headed(rs: seq<Rec>)
    ensures At(FileOf(rs), 0, FileHeader()) && |FileOf(rs)| >= FILE_HEADER && |FileHeader()| == FILE_HEADER
  {
    hide EncodeAll;
    assert FileOf(rs)[0..|FileHeader()|] == FileHeader();
  }

  /** The scan after the first `k` records. */
  function SoundAt(rs: seq<Rec>, k: nat): Scan
    requires k <= |rs|
  {
    Scan(|FileOf(rs[..k])|, LastP(Sound(rs[..k])), Meaning(Sound(rs[..k])), Report(rs[..k]), false)
  }

  lemma NoneRead()
    ensures SoundAt([], 0) == Replay.START && |FileOf([])| == FILE_HEADER
  {
    var none: seq<Rec> := [];
    assert none[..0] == none;
  }

  lemma {:induction false} AllRead(f: seq<Byte>, rs: seq<Rec>, k: nat)
    requires f == FileOf(rs) && k <= |rs| && (forall i :: 0 <= i < |rs| ==> Writable(rs[i])) && SoundAt(rs, k).pos <= |f|
    ensures SoundAt(rs, |rs|).pos <= |f| && ScanAll(f, SoundAt(rs, k)) == ScanAll(f, SoundAt(rs, |rs|))
    decreases |rs| - k
  {
    hide FileOf, Encode, SoundAt, ScanStep, Writable;
    if k < |rs| {
      Lies(f, rs, k);
      NextRead(f, rs, k);
      AllRead(f, rs, k + 1);
      ScanOnce(f, SoundAt(rs, k));
    }
  }

  lemma Lies(f: seq<Byte>, rs: seq<Rec>, k: nat)
    requires f == FileOf(rs) && k < |rs| && SoundAt(rs, k).pos <= |f|
    ensures At(f, |FileOf(rs[..k])|, Encode(rs[k])) && SoundAt(rs, k + 1).pos <= |f|
  {
    hide FileOf, Encode, Sound, Report, Meaning, LastP;
    Place(rs, k, |f|);
    assert f[..|f|] == f;
    LongerBy(rs, k);
  }

  lemma NextRead(f: seq<Byte>, rs: seq<Rec>, k: nat)
    requires k < |rs| && Writable(rs[k]) && At(f, |FileOf(rs[..k])|, Encode(rs[k]))
    ensures SoundAt(rs, k).pos <= |f| && ScanStep(f, SoundAt(rs, k)) == SoundAt(rs, k + 1) && !SoundAt(rs, k).stopped
  {
    hide Writable, Encode, FileOf, ReadRec, ScanStep, Meaning, Report, Stray;
    var s, r := SoundAt(rs, k), rs[k];
    ReadEncoded(f, s.pos, r);
    assert rs[..k + 1][..k] == rs[..k];
    LongerBy(rs, k);
    ReportSnoc(rs, k);
    if Stray(r, s.lastP) {
      PastStray(f, s, r);
    } else {
      NotStray(r, s.lastP);
      TakeRecord(f, s, r);
      SoundSnoc(Sound(rs[..k]), r);
    }
  }

  lemma LongerBy(rs: seq<Rec>, k: nat)
    requires k < |rs|
    ensures |FileOf(rs[..k + 1])| == |FileOf(rs[..k])| + RecLen(rs[k])
  {
    hide EncodeAll, Encode;
    assert rs[..k + 1] == rs[..k] + [rs[k]];
    EncodeAllSnoc(rs[..k], rs[k]);
  }

  lemma SoundSnoc(rs: seq<Rec>, r: Rec)
    ensures Meaning(rs + [r]) == Apply(Meaning(rs), r) && LastP(rs + [r]) == if r.typ == P then r.seqno else LastP(rs)
  {
    hide Apply;
    assert (rs + [r])[..|rs + [r]| - 1] == rs;
  }

  lemma ReportSnoc(rs: seq<Rec>, k: nat)
    requires k < |rs|
    ensures Report(rs[..k + 1]) ==
            if Stray(rs[k], LastP(Sound(rs[..k]))) then Report(rs[..k]).Region(|FileOf(rs[..k])|, RecLen(rs[k])) else Report(rs[..k])
  {
    hide FileOf, Stray, LastP, Sound, RecLen, Places, Length;
    var a, b := rs[..k], rs[..k + 1];
    assert b[..k] == a && b[k] == rs[k];
    PlacesSnoc(b);
    LengthSame(a, b, Places(a));
    LengthSnoc(b, Places(a), k);
    if |Places(a)| > 0 { assert a[..Places(a)[0]] == b[..Places(a)[0]]; }
  }

  lemma PlacesSnoc(rs: seq<Rec>)
    requires |rs| > 0
    ensures var n := |rs| - 1; Places(rs) == if Stray(rs[n], LastP(Sound(rs[..n]))) then Places(rs[..n]) + [n] else Places(rs[..n])
  {
    hide Stray, LastP, Sound;
    assert Places(rs[..|rs| - 1]) + [] == Places(rs[..|rs| - 1]);
  }

  lemma LengthSnoc(rs: seq<Rec>, at: seq<nat>, k: nat)
    requires k < |rs| && forall i :: 0 <= i < |at| ==> at[i] < |rs|
    ensures Length(rs, at + [k]) == Length(rs, at) + RecLen(rs[k])
  {
    hide RecLen;
    assert (at + [k])[..|at + [k]| - 1] == at;
  }

  lemma {:induction false} LengthSame(a: seq<Rec>, b: seq<Rec>, at: seq<nat>)
    requires |a| <= |b| && a == b[..|a|] && forall i :: 0 <= i < |at| ==> at[i] < |a|
    ensures Length(b, at) == Length(a, at)
    decreases |at|
  {
    if |at| > 0 {
      var i := at[|at| - 1];
      assert b[i] == a[i];
      LengthSame(a, b, at[..|at| - 1]);
    }
  }

  lemma NotStray(r: Rec, lastP: nat)
    requires !Stray(r, lastP)
    ensures r.seqno <= MAX_SEQ && (r.typ == P ==> r.seqno > lastP)
  {
  }

  lemma PastStray(f: seq<Byte>, s: Scan, r: Rec)
    requires s.pos <= |f| && !s.stopped && ReadRec(f, s.pos) == Ok(r) && Stray(r, s.lastP)
    ensures ScanStep(f, s) == s.(pos := s.pos + RecLen(r), damage := s.damage.Region(s.pos, RecLen(r)))
  {
    hide ReadRec, Apply, NextGood;
  }

  /** A record with a byte changed, any but those of its lengths, is lost alone and reported, if nothing
      acceptable begins inside it and a record follows. */
  lemma ChangedRecordLostAlone(a: seq<Rec>, r: Rec, i: nat, x: Byte, b: seq<Rec>)
    requires WriterMade(a + b) && |b| > 0 && Writable(r) && i < RecLen(r) && !(6 <= i < 12) && x != Encode(r)[i]
    requires var bytes := Encode(r)[i := x];
             forall k :: |FileOf(a)| < k < |FileOf(a)| + |bytes| ==> !Acceptable(Damaged(a, bytes, b), k, LastP(a))
    ensures ReplayOf(Damaged(a, Encode(r)[i := x], b)) == Loaded(Meaning(a + b), Damage(1, |FileOf(a)|, RecLen(r), false))
  {
    hide FileOf, Encode, EncodeAll, Meaning, LastP, WriterMade, ReadRec, Acceptable, ReplayOf;
    var bytes := Encode(r)[i := x];
    ChangedByteIsBad(Damaged(a, bytes, b), |FileOf(a)|, r, i, x);
    ConfinedDamage(a, bytes, b);
  }

  /** ... and lost silently, as a torn tail is, if it is the last one. */
  lemma ChangedLastRecordLost(a: seq<Rec>, r: Rec, i: nat, x: Byte)
    requires WriterMade(a) && Writable(r) && i < RecLen(r) && !(6 <= i < 12) && x != Encode(r)[i]
    requires var f := FileOf(a) + Encode(r)[i := x]; forall k :: |FileOf(a)| < k < |f| ==> !Acceptable(f, k, LastP(a))
    ensures ReplayOf(FileOf(a) + Encode(r)[i := x]) == Loaded(Meaning(a), NO_DAMAGE)
  {
    hide FileOf, FileHeader, Encode, Meaning, LastP, WriterMade, ReadRec, Acceptable, ScanStep, Get, At, EncodeAll, Laid;
    var bytes := Encode(r)[i := x];
    var f := Damaged(a, bytes, []);
    assert f == FileOf(a) + bytes by { NoRecords(); }
    assert a + [] == a && a[..|a|] == a && a[..0] == [];
    DamagedSizes(a, bytes, []);
    HeaderReads(f);
    LaidBeforeDamage(a, bytes, []);
    StartsEmpty(a);
    ManyRecords(f, a, 0, |a|, NO_DAMAGE, 0);
    ChangedAt(a, bytes);
    ChangedByteIsBad(f, |FileOf(a)|, r, i, x);
    var s := ScanAt(a, |a|, NO_DAMAGE, 0);
    NextGoodIs(f, s.pos + 1, s.lastP, |f|);
    StopsAtBad(f, s);
    ScanOnce(f, s);
  }

  lemma NoRecords()
    ensures EncodeAll([]) == []
  {
  }

  lemma ChangedAt(a: seq<Rec>, bytes: seq<Byte>)
    ensures At(Damaged(a, bytes, []), |FileOf(a)|, bytes)
  {
    hide FileOf, EncodeAll;
  }

  lemma StopsAtBad(f: seq<Byte>, s: Scan)
    requires s.pos < |f| && !s.stopped && ReadRec(f, s.pos) == Bad && NextGood(f, s.pos + 1, s.lastP) == |f|
    ensures ScanStep(f, s) == s.(stopped := true)
  {
    hide ReadRec, NextGood;
  }
}
