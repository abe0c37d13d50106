/** The journal's record format: how a record is laid out, and what the reader makes of
    the bytes at one position. */
module Journal {
  import opened LittleEndian
  import opened Sequences

  const FILE_MAGIC: nat := 0x47445131
  const REC_MAGIC: nat := 0x44515231
  const VERSION: nat := 1
  const FILE_HEADER: nat := 8
  const REC_HEADER: nat := 20
  const FNV_SEED: nat := 2166136261
  const FNV_PRIME: nat := 16777619
  const MAX_NAME: nat := 4096
  const MAX_PAYLOAD: nat := 256 * 1024 * 1024
  const MAX_SEQ: nat := 0x7FFF_FFFF_FFFF_FFFF

  const P: Byte := 0x50
  const D: Byte := 0x44
  const Q: Byte := 0x51
  const S: Byte := 0x53
  const F: Byte := 0x46
  const K: Byte := 0x4B

  datatype Rec = Rec(typ: Byte, seqno: nat, name: seq<Byte>, payload: seq<Byte>)

  function Xor(a: nat, b: nat): nat {
    if a == 0 && b == 0 then 0 else (a + b) % 2 + 2 * Xor(a / 2, b / 2)
  }

  function FnvStep(h: nat, b: Byte): (r: nat)
    ensures r < 0x1_0000_0000
  {
    Xor(h, b) * FNV_PRIME % 0x1_0000_0000
  }

  /** FNV-1a over 32 bits, folded on from `h`. */
  function Fnv(d: seq<Byte>, h: nat): (r: nat)
    requires h < 0x1_0000_0000
    ensures r < 0x1_0000_0000
  {
    if |d| == 0 then h else Fnv(d[1..], FnvStep(h, d[0]))
  }

  /** Checksumming in two pieces, as the reader does, is checksumming the whole. */
  lemma {:induction false} FnvSplit(a: seq<Byte>, b: seq<Byte>, h: nat)
    requires h < 0x1_0000_0000
    ensures Fnv(a + b, h) == Fnv(b, Fnv(a, h))
    decreases |a|
  {
    if |a| == 0 {
      assert a + b == b;
    } else {
      assert (a + b)[1..] == a[1..] + b;
      FnvSplit(a[1..], b, FnvStep(h, a[0]));
    }
  }

  /** What write_record accepts: the reader's own bounds, and a 64-bit number. */
  predicate Writable(r: Rec) {
    |r.name| <= MAX_NAME && |r.payload| <= MAX_PAYLOAD && r.seqno <= 0xFFFF_FFFF_FFFF_FFFF
  }

  function RecHeader(r: Rec): (h: seq<Byte>)
    ensures |h| == REC_HEADER
  {
    Put(REC_MAGIC, 4) + [r.typ, 0] + Put(|r.name|, 2) + Put(|r.payload|, 4) + Put(r.seqno, 8)
  }

  function RecLen(r: Rec): nat {
    REC_HEADER + |r.name| + |r.payload| + 4
  }

  function Encode(r: Rec): (b: seq<Byte>)
    ensures |b| == RecLen(r)
  {
    var body := RecHeader(r) + r.name + r.payload;
    body + Put(Fnv(body, FNV_SEED), 4)
  }

  function FileHeader(): (h: seq<Byte>)
    ensures |h| == FILE_HEADER
  {
    Put(FILE_MAGIC, 4) + Put(VERSION, 4)
  }

  function EncodeAll(rs: seq<Rec>): (b: seq<Byte>) {
    if |rs| == 0 then [] else EncodeAll(rs[..|rs| - 1]) + Encode(rs[|rs| - 1])
  }

  /** A journal file holding exactly the records `rs`. */
  function FileOf(rs: seq<Rec>): (b: seq<Byte>) {
    FileHeader() + EncodeAll(rs)
  }

  /** How reading the record at one position ends. `Torn` is a readable header that claims
      more bytes than the file holds; every other record that does not verify is `Bad`. */
  datatype Read = Ok(rec: Rec) | End | Bad | Torn

  function ReadRec(f: seq<Byte>, pos: nat): (k: Read)
    requires pos <= |f|
    ensures k.Ok? ==> pos + RecLen(k.rec) <= |f| && Writable(k.rec)
  {
    var left := |f| - pos;
    if left == 0 then End
    else if left < REC_HEADER || Get(f[pos..pos + 4]) != REC_MAGIC then Bad
    else
      var nlen := Get(f[pos + 6..pos + 8]);
      var plen := Get(f[pos + 8..pos + 12]);
      if nlen > MAX_NAME || plen > MAX_PAYLOAD then Bad
      else if left < REC_HEADER + nlen + plen + 4 then Torn
      else
        var body := pos + REC_HEADER;
        var crc := Fnv(f[pos..body], FNV_SEED);
        if Fnv(f[body..body + nlen + plen], crc) != Get(f[body + nlen + plen..body + nlen + plen + 4])
        then Bad
        else
          Widths();
          Ok(Rec(f[pos + 4], Get(f[pos + 12..pos + 20]), f[body..body + nlen], f[body + nlen..body + nlen + plen]))
  }

  /** The bytes of `b` lie at `pos` in `f`. */
  predicate At(f: seq<Byte>, pos: nat, b: seq<Byte>) {
    pos + |b| <= |f| && f[pos..pos + |b|] == b
  }

  lemma AtSlice(f: seq<Byte>, pos: nat, b: seq<Byte>, i: nat, j: nat)
    requires At(f, pos, b) && i <= j <= |b|
    ensures f[pos + i..pos + j] == b[i..j]
  {
    forall k | i <= k < j ensures f[pos + k] == b[k] {
      assert f[pos..pos + |b|][k] == f[pos + k];
    }
  }

  /** The header fields, read back from any bytes that begin with a whole header. */
  lemma HeaderFields(f: seq<Byte>, pos: nat, r: Rec)
    requires Writable(r) && At(f, pos, RecHeader(r))
    ensures Get(f[pos..pos + 4]) == REC_MAGIC
    ensures f[pos + 4] == r.typ
    ensures Get(f[pos + 6..pos + 8]) == |r.name|
    ensures Get(f[pos + 8..pos + 12]) == |r.payload|
    ensures Get(f[pos + 12..pos + 20]) == r.seqno
  {
    var h := RecHeader(r);
    Widths();
    AtSlice(f, pos, h, 0, 4); AtSlice(f, pos, h, 6, 8); AtSlice(f, pos, h, 8, 12); AtSlice(f, pos, h, 12, 20);
    assert f[pos..pos + |h|][4] == f[pos + 4];
    assert h[0..4] == Put(REC_MAGIC, 4);
    assert h[6..8] == Put(|r.name|, 2);
    assert h[8..12] == Put(|r.payload|, 4);
    assert h[12..20] == Put(r.seqno, 8);
    GetPut(REC_MAGIC, 4); GetPut(|r.name|, 2); GetPut(|r.payload|, 4); GetPut(r.seqno, 8);
  }

  lemma EncodeParts(r: Rec)
    ensures var b := Encode(r); var n, p := |r.name|, |r.payload|;
            && b[0..20] == RecHeader(r)
            && b[20..20 + n] == r.name
            && b[20 + n..20 + n + p] == r.payload
            && b[20..20 + n + p] == r.name + r.payload
            && b[20 + n + p..24 + n + p] == Put(Fnv(r.name + r.payload, Fnv(RecHeader(r), FNV_SEED)), 4)
  {
    var body := RecHeader(r) + r.name + r.payload;
    assert body == RecHeader(r) + (r.name + r.payload);
    FnvSplit(RecHeader(r), r.name + r.payload, FNV_SEED);
  }

  /** Reading what was written, wherever in a file it lies and whatever surrounds it. */
  lemma ReadEncoded(f: seq<Byte>, pos: nat, r: Rec)
    requires Writable(r) && At(f, pos, Encode(r))
    ensures ReadRec(f, pos) == Ok(r)
  {
    hide Encode, RecHeader, Get, Put, Fnv;
    var b := Encode(r);
    var n, p := |r.name|, |r.payload|;
    EncodeParts(r);
    AtSlice(f, pos, b, 0, 20);
    HeaderFields(f, pos, r);
    AtSlice(f, pos, b, 20, 20 + n);
    AtSlice(f, pos, b, 20 + n, 20 + n + p);
    AtSlice(f, pos, b, 20, 20 + n + p);
    AtSlice(f, pos, b, 20 + n + p, 24 + n + p);
    Widths();
    GetPut(Fnv(r.name + r.payload, Fnv(RecHeader(r), FNV_SEED)), 4);
  }

  /** Reading at a write that was cut short: never a record, and `Torn` once the header
      is whole - whatever the name and the payload hold. */
  lemma ReadCutShort(f: seq<Byte>, pos: nat, r: Rec)
    requires Writable(r) && pos < |f| < pos + RecLen(r)
    requires f[pos..] == Encode(r)[..|f| - pos]
    ensures ReadRec(f, pos) == (if |f| - pos < REC_HEADER then Bad else Torn)
  {
    if |f| - pos >= REC_HEADER {
      assert f[pos..pos + REC_HEADER] == f[pos..][..REC_HEADER] == RecHeader(r);
      HeaderFields(f, pos, r);
    }
  }

  lemma EncodeAllSnoc(rs: seq<Rec>, r: Rec)
    ensures EncodeAll(rs + [r]) == EncodeAll(rs) + Encode(r)
  {
    hide Encode;
    assert (rs + [r])[..|rs + [r]| - 1] == rs;
  }

  lemma {:induction false} EncodeAllSplit(a: seq<Rec>, b: seq<Rec>)
    ensures EncodeAll(a + b) == EncodeAll(a) + EncodeAll(b)
    decreases |b|
  {
    if |b| == 0 {
      assert a + b == a;
    } else {
      var n := |b| - 1;
      EncodeAllSplit(a, b[..n]);
      EncodeAllSnoc(a + b[..n], b[n]);
      EncodeAllSnoc(b[..n], b[n]);
      Snoc(b);
      Assoc(a, b[..n], [b[n]]);
      Assoc(EncodeAll(a), EncodeAll(b[..n]), Encode(b[n]));
      hide EncodeAll, Encode;
    }
  }
}
