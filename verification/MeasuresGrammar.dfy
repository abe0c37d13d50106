/** The reading of a measurement blob against a grammar of its own: which blobs are refused, and what
    the others say. */
module MeasuresGrammar {
  import opened Sequences
  import opened LittleEndian
  import opened Measures

  /** An entry as its bytes: sixteen of numbers, and two strings, each up to the length written before it. */
  datatype Piece = Piece(head: seq<Byte>, name: seq<Byte>, how: seq<Byte>)

  /** At least a NUL, which closes it, and a length that two bytes can say. */
  predicate Closed(s: seq<Byte>) {
    1 <= |s| <= 0xFFFF && s[|s| - 1] == 0
  }

  predicate Fine(p: Piece) {
    |p.head| == 16 && Closed(p.name) && Closed(p.how)
  }

  function Counted(s: seq<Byte>): seq<Byte> {
    Put(|s|, 2) + s
  }

  function Written(p: Piece): seq<Byte> {
    p.head + (Counted(p.name) + Counted(p.how))
  }

  function AllWritten(ps: seq<Piece>): seq<Byte> {
    if |ps| == 0 then [] else Written(ps[0]) + AllWritten(ps[1..])
  }

  /** What the entry says: its numbers in their widths, and each string up to its first NUL. */
  ghost predicate Means(p: Piece, m: Measure) {
    && p.head == Put(m.value, 8) + Put(m.unit, 2) + Put(m.kind, 2) + Put(m.flags, 4) && InRange(m)
    && m.name.Some? && m.name.value + [0] <= p.name && m.how.Some? && m.how.value + [0] <= p.how
  }

  ghost predicate AllMean(ps: seq<Piece>, ms: seq<Measure>) {
    |ms| == |ps| && forall i :: 0 <= i < |ps| ==> Means(ps[i], ms[i])
  }

  /** A blob with entries: at most 64, their number first, then the byte that says some were left out. */
  ghost predicate Blob(b: seq<Byte>, ps: seq<Piece>, cut: Byte) {
    |ps| <= 64 && (forall i :: 0 <= i < |ps| ==> Fine(ps[i])) && b == Put(|ps|, 4) + [cut] + AllWritten(ps)
  }

  /** A blob is read exactly if it is empty or is such a one, to its last byte; and it says what its
      entries say. */
  lemma DecodeExact(b: seq<Byte>)
    ensures Decode(b).Some? <==> b == [] || exists ps, cut :: Blob(b, ps, cut)
    ensures b == [] ==> Decode(b) == Some(([], false))
    ensures forall ps, cut :: Blob(b, ps, cut) ==>
              Decode(b).Some? && AllMean(ps, Decode(b).value.0) && Decode(b).value.1 == (cut != 0)
  {
    hide Decode, Blob, AllMean;
    if b == [] { NoBlob(); }
    forall ps, cut | Blob(b, ps, cut) ensures Decode(b).Some? && AllMean(ps, Decode(b).value.0) && Decode(b).value.1 == (cut != 0) {
      BlobReads(b, ps, cut);
    }
    if Decode(b).Some? && b != [] { var ps := ReadBlob(b); }
  }

  lemma NoBlob()
    ensures Decode([]) == Some(([], false))
  {
  }

  lemma BlobReads(b: seq<Byte>, ps: seq<Piece>, cut: Byte)
    requires Blob(b, ps, cut)
    ensures Decode(b).Some? && AllMean(ps, Decode(b).value.0) && Decode(b).value.1 == (cut != 0)
  {
    hide Put, Get, DecodeAll, AllMean, AllWritten, Fine;
    Widths();
    GetPut(|ps|, 4);
    assert b[..4] == Put(|ps|, 4) && b[4] == cut && b[5..] == AllWritten(ps);
    var ms := PiecesRead(ps);
  }

  lemma {:induction false} PiecesRead(ps: seq<Piece>) returns (ms: seq<Measure>)
    requires forall i :: 0 <= i < |ps| ==> Fine(ps[i])
    ensures DecodeAll(AllWritten(ps), |ps|) == Some(ms) && AllMean(ps, ms)
    decreases |ps|
  {
    hide Fine, Means, DecodeOne, Written;
    if |ps| == 0 {
      ms := [];
    } else {
      var rest := AllWritten(ps[1..]);
      var m := PieceReads(ps[0], rest);
      assert (Written(ps[0]) + rest)[|Written(ps[0])|..] == rest;
      var others := PiecesRead(ps[1..]);
      ms := [m] + others;
      forall i | 0 <= i < |ps| ensures Means(ps[i], ms[i]) {
        if i > 0 { assert ps[i] == ps[1..][i - 1] && ms[i] == others[i - 1]; }
      }
    }
  }

  lemma PieceReads(p: Piece, rest: seq<Byte>) returns (m: Measure)
    requires Fine(p)
    ensures DecodeOne(Written(p) + rest) == Some((m, |Written(p)|)) && Means(p, m)
  {
    hide Get, Put, CStr, DecodeStr, Closed, Counted;
    var r, how := Written(p) + rest, Counted(p.how) + rest;
    assert Written(p) + rest == p.head + (Counted(p.name) + how);
    assert r[..16] == p.head && r[16..] == Counted(p.name) + how;
    CountedReads(p.name, how);
    CountedReads(p.how, rest);
    assert (Counted(p.name) + how)[|Counted(p.name)|..] == how;
    assert r[16 + |Counted(p.name)|..] == how;
    m := Measure(Get(r[..8]), Get(r[8..10]), Get(r[10..12]), Get(r[12..16]), Some(CStr(p.name)), Some(CStr(p.how)));
    HeadMeans(p, m, r);
  }

  lemma HeadMeans(p: Piece, m: Measure, r: seq<Byte>)
    requires |r| >= 16 && r[..16] == p.head && Fine(p)
    requires m == Measure(Get(r[..8]), Get(r[8..10]), Get(r[10..12]), Get(r[12..16]), Some(CStr(p.name)), Some(CStr(p.how)))
    ensures Means(p, m)
  {
    hide Get, Put, CStr, IsString;
    PutGet(r[..8]);
    PutGet(r[8..10]);
    PutGet(r[10..12]);
    PutGet(r[12..16]);
    assert r[..16] == r[..8] + r[8..10] + r[10..12] + r[12..16];
    FirstNul(p.name);
    FirstNul(p.how);
  }

  /** The first NUL ends the string. */
  lemma {:induction false} FirstNul(s: seq<Byte>)
    requires |s| > 0 && s[|s| - 1] == 0
    ensures IsString(CStr(s)) && CStr(s) + [0] <= s
    decreases |s|
  {
    if s[0] != 0 {
      FirstNul(s[1..]);
      assert s == [s[0]] + s[1..];
    }
  }

  lemma CountedReads(s: seq<Byte>, rest: seq<Byte>)
    requires Closed(s)
    ensures |Counted(s)| == 2 + |s| && DecodeStr(Counted(s) + rest) == Some((CStr(s), 2 + |s|))
  {
    hide CStr, Put, Get;
    var r := Counted(s) + rest;
    Widths();
    GetPut(|s|, 2);
    assert r[..2] == Put(|s|, 2) && r[2..2 + |s|] == s;
    assert r[2 + |s| - 1] == s[|s| - 1];
  }

  // ---- and the other way ----

  lemma ReadCounted(r: seq<Byte>) returns (s: seq<Byte>)
    requires DecodeStr(r).Some?
    ensures Closed(s) && DecodeStr(r).value.1 == |Counted(s)| && r == Counted(s) + r[|Counted(s)|..]
  {
    hide CStr, Get, Put;
    var n := Get(r[..2]);
    Widths();
    PutGet(r[..2]);
    s := r[2..2 + n];
    assert r == r[..2] + s + r[2 + n..];
  }

  lemma ReadPiece(r: seq<Byte>) returns (p: Piece)
    requires DecodeOne(r).Some?
    ensures Fine(p) && DecodeOne(r).value.1 == |Written(p)| && r == Written(p) + r[|Written(p)|..]
  {
    hide Get, DecodeStr, Counted, Closed;
    var name := ReadCounted(r[16..]);
    var n := |Counted(name)|;
    var how := ReadCounted(r[16 + n..]);
    var k := |Counted(how)|;
    p := Piece(r[..16], name, how);
    DropMore(r, 16, n);
    DropMore(r, 16 + n, k);
    Join(r, Counted(name), Counted(how));
  }

  lemma DropMore(r: seq<Byte>, a: nat, b: nat)
    requires a + b <= |r|
    ensures r[a..][b..] == r[a + b..]
  {
  }

  lemma Join(r: seq<Byte>, a: seq<Byte>, b: seq<Byte>)
    requires |r| >= 16 + |a| + |b| && r[16..] == a + r[16 + |a|..] && r[16 + |a|..] == b + r[16 + |a| + |b|..]
    ensures r == r[..16] + (a + b) + r[16 + |a| + |b|..]
  {
    assert r == r[..16] + r[16..];
    Assoc(a, b, r[16 + |a| + |b|..]);
    Assoc(r[..16], a + b, r[16 + |a| + |b|..]);
  }

  lemma {:induction false} ReadPieces(r: seq<Byte>, n: nat) returns (ps: seq<Piece>)
    requires DecodeAll(r, n).Some?
    ensures |ps| == n && (forall i :: 0 <= i < n ==> Fine(ps[i])) && r == AllWritten(ps)
    decreases n
  {
    hide DecodeOne, Fine, Written;
    if n == 0 {
      ps := [];
    } else {
      var p := ReadPiece(r);
      var rest := ReadPieces(r[|Written(p)|..], n - 1);
      ps := [p] + rest;
      assert ps[1..] == rest;
    }
  }

  lemma ReadBlob(b: seq<Byte>) returns (ps: seq<Piece>)
    requires Decode(b).Some? && b != []
    ensures |b| > 4 && Blob(b, ps, b[4])
  {
    hide DecodeAll, Get, Put, Fine, AllWritten;
    PutGet(b[..4]);
    ps := ReadPieces(b[5..], Get(b[..4]));
    assert b == b[..4] + [b[4]] + b[5..];
  }

  // ---- what is sent ----

  /** The measurements that may be sent: with a name and a method, each under 256 bytes. */
  function Sendable(ms: seq<Measure>): seq<Measure> {
    if |ms| == 0 then []
    else
      var m, rest := ms[0], Sendable(ms[1..]);
      if m.name.Some? && m.how.Some? && |m.name.value| <= 255 && |m.how.value| <= 255 then [m] + rest else rest
  }

  /** An event's measurements are sent, the first 64 of those that may be, and are received as they were,
      with word of it if any was left out. */
  lemma FirstSixtyFour(ms: seq<Measure>)
    requires forall i :: 0 <= i < |ms| ==> InRange(ms[i])
    ensures var some := Sendable(ms); var sent := if |some| > 64 then some[..64] else some;
            Decode(Encode(ms)) == Some((sent, |sent| < |ms|))
  {
    hide InRange, Sendable, Chosen, Encode, Decode;
    RoundTrip(ms);
    ChosenFirst(ms, 64);
  }

  lemma {:induction false} ChosenFirst(ms: seq<Measure>, room: nat)
    ensures var some := Sendable(ms); Chosen(ms, room) == if |some| > room then some[..room] else some
    decreases |ms|
  {
    if |ms| > 0 {
      ChosenFirst(ms[1..], room);
      if room > 0 { ChosenFirst(ms[1..], room - 1); }
    }
  }
}
