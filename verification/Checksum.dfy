/** What it takes for bytes to be read as a record: the checksum, and what a changed byte does to it. */
module Checksum {
  import opened LittleEndian
  import opened Journal

  // ---- exclusive or, bit by bit ----

  predicate Bit(x: nat, i: nat) {
    if i == 0 then x % 2 == 1 else Bit(x / 2, i - 1)
  }

  lemma {:induction false} XorBits(a: nat, b: nat, i: nat)
    ensures Bit(Xor(a, b), i) <==> Bit(a, i) != Bit(b, i)
    decreases i
  {
    hide Xor;
    XorHalves(a, b);
    if i == 0 { Parity(a, b); } else { XorBits(a / 2, b / 2, i - 1); }
  }

  lemma Parity(a: nat, b: nat)
    ensures (a + b) % 2 == 1 <==> (a % 2 == 1) != (b % 2 == 1)
  {
  }

  lemma XorHalves(a: nat, b: nat)
    ensures Xor(a, b) / 2 == Xor(a / 2, b / 2) && Xor(a, b) % 2 == (a + b) % 2
  {
  }

  lemma {:induction false} XorTwice(a: nat, b: nat)
    ensures Xor(Xor(a, b), b) == a
    decreases a + b
  {
    hide Xor;
    if a + b == 0 {
      XorZero(a);
    } else {
      XorHalves(a, b);
      XorHalves(Xor(a, b), b);
      XorTwice(a / 2, b / 2);
    }
  }

  lemma {:induction false} XorZero(a: nat)
    ensures Xor(a, 0) == a
    decreases a
  {
    if a > 0 { XorZero(a / 2); }
  }

  lemma {:induction false} XorSwap(a: nat, b: nat)
    ensures Xor(a, b) == Xor(b, a)
    decreases a + b
  {
    if a + b > 0 { XorSwap(a / 2, b / 2); }
  }

  function Pow2(n: nat): nat {
    if n == 0 then 1 else 2 * Pow2(n - 1)
  }

  lemma {:induction false} XorWithin(a: nat, b: nat, n: nat)
    requires a < Pow2(n) && b < Pow2(n)
    ensures Xor(a, b) < Pow2(n)
    decreases n
  {
    if n > 0 { XorWithin(a / 2, b / 2, n - 1); }
  }

  lemma Word()
    ensures Pow2(32) == 0x1_0000_0000
  {
    assert Pow2(8) == 256 by { assert Pow2(4) == 16; }
    assert Pow2(16) == 0x1_0000 by { assert Pow2(12) == 0x1000; }
    assert Pow2(24) == 0x100_0000 by { assert Pow2(20) == 0x10_0000; }
    assert Pow2(28) == 0x1000_0000;
  }

  // ---- one step loses nothing ----

  /** The inverse of the prime among the odd words. */
  const INVERSE: nat := 899433627

  lemma TimesInverse(x: nat)
    requires x < 0x1_0000_0000
    ensures x * FNV_PRIME % 0x1_0000_0000 * INVERSE % 0x1_0000_0000 == x
  {
    var m := 0x1_0000_0000;
    var y := x * FNV_PRIME;
    var q := y / m;
    assert y == q * m + y % m;
    assert y % m * INVERSE == y * INVERSE - q * INVERSE * m;
    assert FNV_PRIME * INVERSE == 3513497 * m + 1;
    assert y * INVERSE == x * (FNV_PRIME * INVERSE);
    assert y % m * INVERSE == (x * 3513497 - q * INVERSE) * m + x;
    Remainder(x * 3513497 - q * INVERSE, x);
  }

  lemma Remainder(k: int, r: nat)
    requires r < 0x1_0000_0000
    ensures (k * 0x1_0000_0000 + r) % 0x1_0000_0000 == r
  {
  }

  lemma StepKeepsApart(h: nat, h': nat, b: Byte, b': Byte)
    requires h < 0x1_0000_0000 && h' < 0x1_0000_0000 && FnvStep(h, b) == FnvStep(h', b')
    ensures h == h' <==> b == b'
  {
    Word();
    var x, x' := Xor(h, b), Xor(h', b');
    assert Pow2(8) == 256 by { assert Pow2(4) == 16; }
    XorWithin(h, b, 32);
    XorWithin(h', b', 32);
    TimesInverse(x);
    TimesInverse(x');
    assert x == x';
    XorTwice(h, b);
    XorTwice(h', b');
    XorSwap(h, b);
    XorSwap(h', b');
    XorTwice(b, h);
    XorTwice(b', h');
  }

  /** Checksums that differ go on differing. */
  lemma {:induction false} FnvKeepsApart(d: seq<Byte>, h: nat, h': nat)
    requires h < 0x1_0000_0000 && h' < 0x1_0000_0000 && h != h'
    ensures Fnv(d, h) != Fnv(d, h')
    decreases |d|
  {
    hide FnvStep;
    if |d| > 0 {
      if FnvStep(h, d[0]) == FnvStep(h', d[0]) { StepKeepsApart(h, h', d[0], d[0]); }
      FnvKeepsApart(d[1..], FnvStep(h, d[0]), FnvStep(h', d[0]));
    }
  }

  /** One changed byte changes the checksum. */
  lemma FnvSeesByte(d: seq<Byte>, i: nat, x: Byte, h: nat)
    requires h < 0x1_0000_0000 && i < |d| && x != d[i]
    ensures Fnv(d[i := x], h) != Fnv(d, h)
  {
    hide FnvStep, Fnv;
    var a, b := d[..i], d[i + 1..];
    assert d == a + ([d[i]] + b) && d[i := x] == a + ([x] + b);
    FnvSplit(a, [d[i]] + b, h);
    FnvSplit(a, [x] + b, h);
    var g := Fnv(a, h);
    FnvFirst(d[i], b, g);
    FnvFirst(x, b, g);
    if FnvStep(g, d[i]) == FnvStep(g, x) { StepKeepsApart(g, g, d[i], x); }
    FnvKeepsApart(b, FnvStep(g, d[i]), FnvStep(g, x));
  }

  lemma FnvFirst(x: Byte, b: seq<Byte>, h: nat)
    requires h < 0x1_0000_0000
    ensures Fnv([x] + b, h) == Fnv(b, FnvStep(h, x))
  {
    assert ([x] + b)[1..] == b;
  }

  // ---- what is read as a record ----

  /** A record read verifies: the four bytes after its name and payload are the FNV-1a of its header, name
      and payload as they lie in the file, their lengths as the header gives them. */
  lemma ReadVerifies(f: seq<Byte>, pos: nat)
    requires pos <= |f| && ReadRec(f, pos).Ok?
    ensures pos + REC_HEADER + 4 <= |f|
    ensures var n, p := Get(f[pos + 6..pos + 8]), Get(f[pos + 8..pos + 12]);
            && pos + REC_HEADER + n + p + 4 <= |f|
            && Get(f[pos + REC_HEADER + n + p..pos + REC_HEADER + n + p + 4]) == Fnv(f[pos..pos + REC_HEADER + n + p], FNV_SEED)
  {
    hide Get, Fnv;
    var n, p := Get(f[pos + 6..pos + 8]), Get(f[pos + 8..pos + 12]);
    var a, b := f[pos..pos + REC_HEADER], f[pos + REC_HEADER..pos + REC_HEADER + n + p];
    assert f[pos..pos + REC_HEADER + n + p] == a + b;
    FnvSplit(a, b, FNV_SEED);
  }

  function BodyWith(r: Rec, pad: Byte): seq<Byte> {
    Put(REC_MAGIC, 4) + [r.typ, pad] + Put(|r.name|, 2) + Put(|r.payload|, 4) + Put(r.seqno, 8) + r.name + r.payload
  }

  /** The record's bytes, with any byte where the writer leaves a zero. */
  function EncodeWith(r: Rec, pad: Byte): (b: seq<Byte>)
    ensures |b| == RecLen(r)
  {
    BodyWith(r, pad) + Put(Fnv(BodyWith(r, pad), FNV_SEED), 4)
  }

  lemma PadOfWriter(r: Rec)
    ensures EncodeWith(r, 0) == Encode(r)
  {
  }

  lemma BodyParts(r: Rec, pad: Byte)
    requires Writable(r)
    ensures var b := BodyWith(r, pad); var n, p := |r.name|, |r.payload|;
            && |b| == REC_HEADER + n + p
            && Get(b[..4]) == REC_MAGIC && b[4] == r.typ && b[5] == pad && Get(b[6..8]) == n && Get(b[8..12]) == p && Get(b[12..20]) == r.seqno
            && b[20..20 + n] == r.name && b[20 + n..20 + n + p] == r.payload
  {
    hide Get, Put;
    var b := BodyWith(r, pad);
    Widths();
    assert b[..4] == Put(REC_MAGIC, 4) && b[6..8] == Put(|r.name|, 2) && b[8..12] == Put(|r.payload|, 4) && b[12..20] == Put(r.seqno, 8);
    GetPut(REC_MAGIC, 4);
    GetPut(|r.name|, 2);
    GetPut(|r.payload|, 4);
    GetPut(r.seqno, 8);
  }

  /** Bytes are read as a record if and only if they are its encoding, checksum included, whatever is in
      the header's spare byte. */
  lemma ReadExact(f: seq<Byte>, pos: nat, r: Rec)
    requires pos <= |f|
    ensures ReadRec(f, pos) == Ok(r) <==> Writable(r) && exists pad: Byte :: At(f, pos, EncodeWith(r, pad))
  {
    hide EncodeWith, BodyWith, Get, Fnv, Put;
    if ReadRec(f, pos) == Ok(r) { ReadOnly(f, pos, r); }
    if Writable(r) && exists pad: Byte :: At(f, pos, EncodeWith(r, pad)) {
      var pad: Byte :| At(f, pos, EncodeWith(r, pad));
      ReadLaid(f, pos, r, pad);
    }
  }

  lemma ReadLaid(f: seq<Byte>, pos: nat, r: Rec, pad: Byte)
    requires Writable(r) && At(f, pos, EncodeWith(r, pad))
    ensures ReadRec(f, pos) == Ok(r)
  {
    hide BodyWith, Get, Fnv, Put, At, ReadRec;
    var b, body := EncodeWith(r, pad), BodyWith(r, pad);
    var n, p := |r.name|, |r.payload|;
    BodyParts(r, pad);
    Slices(b, body, n, p);
    InFile(f, pos, b, n, p);
    Widths();
    GetPut(Fnv(body, FNV_SEED), 4);
    assert b[|body|..] == Put(Fnv(body, FNV_SEED), 4);
    GoodChecksum(f, pos, n, p);
  }

  /** The parts of a record that lies in a file. */
  lemma InFile(f: seq<Byte>, pos: nat, b: seq<Byte>, n: nat, p: nat)
    requires At(f, pos, b) && |b| == REC_HEADER + n + p + 4
    ensures pos + |b| <= |f|
    ensures f[pos..pos + 4] == b[0..4] && f[pos + 4] == b[4] && f[pos + 6..pos + 8] == b[6..8] && f[pos + 8..pos + 12] == b[8..12]
    ensures f[pos + 12..pos + 20] == b[12..20] && f[pos + 20..pos + 20 + n] == b[20..20 + n]
    ensures f[pos + 20 + n..pos + 20 + n + p] == b[20 + n..20 + n + p] && f[pos..pos + 20 + n + p] == b[0..20 + n + p]
    ensures f[pos + 20 + n + p..pos + 24 + n + p] == b[20 + n + p..24 + n + p]
  {
    hide At;
    AtInside(f, pos, b);
    AtSlice(f, pos, b, 0, 4);
    AtSlice(f, pos, b, 4, 5);
    assert f[pos + 4..pos + 5][0] == f[pos + 4] && b[4..5][0] == b[4];
    AtSlice(f, pos, b, 6, 8);
    AtSlice(f, pos, b, 8, 12);
    AtSlice(f, pos, b, 12, 20);
    AtSlice(f, pos, b, 20, 20 + n);
    AtSlice(f, pos, b, 20 + n, 20 + n + p);
    AtSlice(f, pos, b, 0, 20 + n + p);
    AtSlice(f, pos, b, 20 + n + p, 24 + n + p);
  }

  lemma GoodChecksum(f: seq<Byte>, pos: nat, n: nat, p: nat)
    requires pos + REC_HEADER + n + p + 4 <= |f| && Get(f[pos..pos + 4]) == REC_MAGIC && n <= MAX_NAME && p <= MAX_PAYLOAD
    requires Get(f[pos + 6..pos + 8]) == n && Get(f[pos + 8..pos + 12]) == p
    requires Get(f[pos + REC_HEADER + n + p..pos + REC_HEADER + n + p + 4]) == Fnv(f[pos..pos + REC_HEADER + n + p], FNV_SEED)
    ensures ReadRec(f, pos) == Ok(Rec(f[pos + 4], Get(f[pos + 12..pos + 20]), f[pos + 20..pos + 20 + n], f[pos + 20 + n..pos + 20 + n + p]))
  {
    hide Get, Fnv;
    var a, b := f[pos..pos + REC_HEADER], f[pos + REC_HEADER..pos + REC_HEADER + n + p];
    assert f[pos..pos + REC_HEADER + n + p] == a + b;
    FnvSplit(a, b, FNV_SEED);
  }

  lemma Slices(b: seq<Byte>, body: seq<Byte>, n: nat, p: nat)
    requires |body| == REC_HEADER + n + p && |b| == |body| + 4 && body <= b
    ensures b[0..4] == body[..4] && b[6..8] == body[6..8] && b[8..12] == body[8..12] && b[12..20] == body[12..20] && b[4] == body[4]
    ensures b[20..20 + n] == body[20..20 + n] && b[20 + n..20 + n + p] == body[20 + n..20 + n + p]
    ensures b[0..20 + n + p] == body && b[20 + n + p..24 + n + p] == b[|body|..]
  {
  }

  lemma ReadOnly(f: seq<Byte>, pos: nat, r: Rec)
    requires pos <= |f| && ReadRec(f, pos) == Ok(r)
    ensures Writable(r) && pos + 5 < |f| && At(f, pos, EncodeWith(r, f[pos + 5]))
  {
    hide Get, Fnv, Put, ReadRec, BodyWith;
    ReadVerifies(f, pos);
    LengthsRead(f, pos, r);
    var n, p := |r.name|, |r.payload|;
    BodyRead(f, pos, r);
    PutGet(f[pos + 20 + n + p..pos + 24 + n + p]);
    Glue(f, pos, pos + 20 + n + p, pos + 24 + n + p);
  }

  lemma BodyRead(f: seq<Byte>, pos: nat, r: Rec)
    requires pos + RecLen(r) <= |f|
    requires Get(f[pos..pos + 4]) == REC_MAGIC && Get(f[pos + 6..pos + 8]) == |r.name| && Get(f[pos + 8..pos + 12]) == |r.payload|
    requires r.typ == f[pos + 4] && r.seqno == Get(f[pos + 12..pos + 20])
    requires r.name == f[pos + 20..pos + 20 + |r.name|] && r.payload == f[pos + 20 + |r.name|..pos + 20 + |r.name| + |r.payload|]
    ensures BodyWith(r, f[pos + 5]) == f[pos..pos + 20 + |r.name| + |r.payload|]
  {
    hide Get, Put;
    PutGet(f[pos..pos + 4]);
    PutGet(f[pos + 6..pos + 8]);
    PutGet(f[pos + 8..pos + 12]);
    PutGet(f[pos + 12..pos + 20]);
    assert [f[pos + 4], f[pos + 5]] == f[pos + 4..pos + 6];
    Glue(f, pos, pos + 4, pos + 6);
    Glue(f, pos, pos + 6, pos + 8);
    Glue(f, pos, pos + 8, pos + 12);
    Glue(f, pos, pos + 12, pos + 20);
    Glue(f, pos, pos + 20, pos + 20 + |r.name|);
    Glue(f, pos, pos + 20 + |r.name|, pos + 20 + |r.name| + |r.payload|);
  }

  lemma Glue(f: seq<Byte>, a: nat, b: nat, c: nat)
    requires a <= b <= c <= |f|
    ensures f[a..b] + f[b..c] == f[a..c]
  {
  }

  lemma LengthsRead(f: seq<Byte>, pos: nat, r: Rec)
    requires pos <= |f| && ReadRec(f, pos) == Ok(r)
    ensures pos + RecLen(r) <= |f|
    ensures Get(f[pos..pos + 4]) == REC_MAGIC && Get(f[pos + 6..pos + 8]) == |r.name| && Get(f[pos + 8..pos + 12]) == |r.payload|
    ensures r.typ == f[pos + 4] && r.seqno == Get(f[pos + 12..pos + 20])
    ensures r.name == f[pos + 20..pos + 20 + |r.name|] && r.payload == f[pos + 20 + |r.name|..pos + 20 + |r.name| + |r.payload|]
  {
    hide Get, Fnv;
  }

  // ---- a changed byte ----

  lemma GetApart(s: seq<Byte>, t: seq<Byte>)
    requires |s| == |t| && s != t
    ensures Get(s) != Get(t)
  {
    hide Get, Put;
    PutGet(s);
    PutGet(t);
  }

  /** A whole record one byte of which has changed, any but those of its lengths, is read as Bad: its type,
      its number, its name, its payload and its checksum are all covered. */
  lemma ChangedByteIsBad(f: seq<Byte>, pos: nat, r: Rec, i: nat, x: Byte)
    requires Writable(r) && i < RecLen(r) && !(6 <= i < 12) && x != Encode(r)[i] && At(f, pos, Encode(r)[i := x])
    ensures ReadRec(f, pos) == Bad
  {
    hide Encode, Get, Fnv, Put, ReadRec, BodyWith, At;
    var b, body := Encode(r), BodyWith(r, 0);
    var b' := b[i := x];
    BodyParts(r, 0);
    CrcAt(r);
    AtInside(f, pos, b');
    AtSlice(f, pos, b', 0, 4);
    if i < 4 {
      assert b'[0..4][i] == x && b[0..4][i] == b[i];
      GetApart(b'[0..4], b[0..4]);
      assert b[0..4] == body[..4];
      BadMagic(f, pos);
    } else {
      SameLengths(b, b', i);
      FieldsOf(b, body);
      AtSlice(f, pos, b', 6, 8);
      AtSlice(f, pos, b', 8, 12);
      AtSlice(f, pos, b', 0, |body|);
      AtSlice(f, pos, b', |body|, |body| + 4);
      ChangedSum(b, body, i, x);
      BadChecksum(f, pos, |r.name|, |r.payload|);
    }
  }

  lemma AtInside(f: seq<Byte>, pos: nat, b: seq<Byte>)
    requires At(f, pos, b)
    ensures pos + |b| <= |f|
  {
  }

  lemma FieldsOf(b: seq<Byte>, body: seq<Byte>)
    requires |body| >= 20 && |body| <= |b| && b[0..|body|] == body
    ensures b[0..4] == body[..4] && b[6..8] == body[6..8] && b[8..12] == body[8..12]
  {
  }

  /** The checksum of a body and the one written after it, once a byte of either has changed. */
  lemma ChangedSum(b: seq<Byte>, body: seq<Byte>, i: nat, x: Byte)
    requires |b| == |body| + 4 && b[0..|body|] == body && Get(b[|body|..|body| + 4]) == Fnv(body, FNV_SEED) && i < |b| && x != b[i]
    ensures var b' := b[i := x]; Get(b'[|body|..|body| + 4]) != Fnv(b'[0..|body|], FNV_SEED)
  {
    hide Get, Fnv;
    var b', n := b[i := x], |body|;
    if i < n {
      assert body[i] == b[0..n][i] == b[i];
      assert b'[0..n] == body[i := x] && b'[n..n + 4] == b[n..n + 4];
      FnvSeesByte(body, i, x, FNV_SEED);
    } else {
      assert b'[0..n] == b[0..n];
      assert b'[n..n + 4][i - n] == x && b[n..n + 4][i - n] == b[i];
      GetApart(b'[n..n + 4], b[n..n + 4]);
    }
  }

  lemma CrcAt(r: Rec)
    ensures var b, body := Encode(r), BodyWith(r, 0);
            && |body| + 4 == |b| && b[..|body|] == body && b[0..|body|] == body && Get(b[|body|..|body| + 4]) == Fnv(body, FNV_SEED)
  {
    hide Get, Fnv, Put;
    PadOfWriter(r);
    Widths();
    GetPut(Fnv(BodyWith(r, 0), FNV_SEED), 4);
    assert Encode(r)[|BodyWith(r, 0)|..|BodyWith(r, 0)| + 4] == Put(Fnv(BodyWith(r, 0), FNV_SEED), 4);
  }

  lemma SameLengths(b: seq<Byte>, b': seq<Byte>, i: nat)
    requires 4 <= i < |b| == |b'| && |b| >= 24 && !(6 <= i < 12) && forall k :: 0 <= k < |b| && k != i ==> b'[k] == b[k]
    ensures b'[0..4] == b[0..4] && b'[6..8] == b[6..8] && b'[8..12] == b[8..12]
  {
  }

  lemma BadMagic(f: seq<Byte>, pos: nat)
    requires pos + 4 <= |f| && Get(f[pos..pos + 4]) != REC_MAGIC
    ensures ReadRec(f, pos) == Bad
  {
    hide Get, Fnv;
  }

  lemma BadChecksum(f: seq<Byte>, pos: nat, n: nat, p: nat)
    requires pos + REC_HEADER + n + p + 4 <= |f| && Get(f[pos..pos + 4]) == REC_MAGIC
    requires Get(f[pos + 6..pos + 8]) == n && Get(f[pos + 8..pos + 12]) == p
    requires Get(f[pos + REC_HEADER + n + p..pos + REC_HEADER + n + p + 4]) != Fnv(f[pos..pos + REC_HEADER + n + p], FNV_SEED)
    ensures ReadRec(f, pos) == Bad
  {
    hide Get, Fnv;
    var a, b := f[pos..pos + REC_HEADER], f[pos + REC_HEADER..pos + REC_HEADER + n + p];
    assert f[pos..pos + REC_HEADER + n + p] == a + b;
    FnvSplit(a, b, FNV_SEED);
  }

  // ---- the bytes themselves ----

  /** The published test vectors of 32-bit FNV-1a for "a" and "fo". */
  lemma TestVectors()
    ensures Fnv([0x61], FNV_SEED) == 0xE40C292C
    ensures Fnv([0x66, 0x6F], FNV_SEED) == 0x6222E842
  {
    hide FnvStep, Fnv;
    Stepped(FNV_SEED, 0x61, 0x811C9DA4, 0xE40C292C);
    Last(0x61, FNV_SEED);
    Stepped(FNV_SEED, 0x66, 0x811C9DA3, 0xE30C2799);
    Stepped(0xE30C2799, 0x6F, 0xE30C27F6, 0x6222E842);
    Last(0x6F, 0xE30C2799);
    FnvFirst(0x66, [0x6F], FNV_SEED);
    assert [0x66] + [0x6F] == [0x66, 0x6F];
  }

  lemma Stepped(h: nat, b: Byte, x: nat, h': nat)
    requires XorLow(h, b, x, 8) && x * FNV_PRIME % 0x1_0000_0000 == h'
    ensures FnvStep(h, b) == h'
  {
    assert Pow2(8) == 256 by { assert Pow2(4) == 16; }
    XorLowIs(h, b, x, 8);
  }

  /** `x` is `a` with the bits set in `b` turned over, `b` having `n` bits. */
  predicate XorLow(a: nat, b: nat, x: nat, n: nat) {
    if n == 0 then x == a && b == 0 else x % 2 == (a + b) % 2 && XorLow(a / 2, b / 2, x / 2, n - 1)
  }

  lemma {:induction false} XorLowIs(a: nat, b: nat, x: nat, n: nat)
    requires XorLow(a, b, x, n)
    ensures Xor(a, b) == x
    decreases n
  {
    if n == 0 { XorZero(a); } else { XorLowIs(a / 2, b / 2, x / 2, n - 1); }
  }

  lemma Last(x: Byte, h: nat)
    requires h < 0x1_0000_0000
    ensures Fnv([x], h) == FnvStep(h, x)
  {
    hide FnvStep;
    assert [x][1..] == [];
  }

  /** The format, byte by byte: least significant bytes first, the two magics, the version and the types. */
  lemma FormatBytes(seqno: Byte, n: Byte, p: Byte, name: seq<Byte>, payload: seq<Byte>)
    requires |name| == n && |payload| == p
    ensures FileHeader() == [0x31, 0x51, 0x44, 0x47, 1, 0, 0, 0]
    ensures RecHeader(Rec(P, seqno, name, payload)) ==
              [0x31, 0x52, 0x51, 0x44, 0x50, 0, n, 0, p, 0, 0, 0, seqno, 0, 0, 0, 0, 0, 0, 0]
    ensures Put(0x01020304, 4) == [4, 3, 2, 1]
    ensures forall r :: Writable(r) <==> |r.name| <= 4096 && |r.payload| <= 0x1000_0000 && r.seqno < 0x1_0000_0000_0000_0000
    ensures [P, D, Q, S, F, K] == ['P' as int, 'D' as int, 'Q' as int, 'S' as int, 'F' as int, 'K' as int]
  {
    hide Put;
    ByteFirst(n, 2);
    ByteFirst(p, 4);
    ByteFirst(seqno, 8);
    assert Put(FILE_MAGIC, 4) == [0x31, 0x51, 0x44, 0x47] by { MagicBytes(FILE_MAGIC, 0x31, 0x51, 0x44, 0x47); }
    assert Put(REC_MAGIC, 4) == [0x31, 0x52, 0x51, 0x44] by { MagicBytes(REC_MAGIC, 0x31, 0x52, 0x51, 0x44); }
    assert Put(VERSION, 4) == [1, 0, 0, 0] by { MagicBytes(VERSION, 1, 0, 0, 0); }
    MagicBytes(0x01020304, 4, 3, 2, 1);
    assert Zeros(1) == [0] && Zeros(3) == [0, 0, 0] && Zeros(7) == [0, 0, 0, 0, 0, 0, 0];
  }

  lemma MagicBytes(v: nat, a: Byte, b: Byte, c: Byte, d: Byte)
    requires v == a + 256 * (b + 256 * (c + 256 * d))
    ensures Put(v, 4) == [a, b, c, d]
  {
    var v1, v2, v3 := v / 256, v / 256 / 256, v / 256 / 256 / 256;
    assert Put(v3, 1) == [d] + Put(v3 / 256, 0);
    assert Put(v2, 2) == [c] + Put(v3, 1);
    assert Put(v1, 3) == [b] + Put(v2, 2);
  }

  function Zeros(n: nat): seq<Byte> {
    seq(n, _ => 0)
  }

  lemma ByteFirst(v: Byte, n: nat)
    requires n > 0
    ensures Put(v, n) == [v] + Zeros(n - 1)
  {
    NoBytes(n - 1);
  }

  lemma {:induction false} NoBytes(n: nat)
    ensures Put(0, n) == Zeros(n)
    decreases n
  {
    if n > 0 { NoBytes(n - 1); }
  }
}
