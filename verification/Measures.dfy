/** Measurements on the wire: the blob a worker's reply carries, and the reading of it. */
module Measures {
  import opened Sequences
  import opened LittleEndian

  const MAX_MEASURES: nat := 64
  const MAX_STR: nat := 256
  const HDR: nat := 5
  const ENTRY: nat := 20
  const CAP: nat := HDR + MAX_MEASURES * (ENTRY + 2 * MAX_STR)

  /** A gptps_measure; a name or a method may be missing. */
  datatype Measure = Measure(value: nat, unit: nat, kind: nat, flags: nat, name: Option<seq<Byte>>, how: Option<seq<Byte>>)

  /** A C string: no NUL in it. */
  predicate IsString(s: seq<Byte>) {
    0 !in s
  }

  /** The widths of the struct's fields. */
  ghost predicate InRange(m: Measure) {
    && m.value < Pow256(8) && m.unit < Pow256(2) && m.kind < Pow256(2) && m.flags < Pow256(4)
    && (m.name.Some? ==> IsString(m.name.value)) && (m.how.Some? ==> IsString(m.how.value))
  }

  /** meas_fits. */
  predicate Fits(m: Measure) {
    m.name.Some? && m.how.Some? && |m.name.value| < MAX_STR && |m.how.value| < MAX_STR
  }

  /** A length, then the string with its NUL. */
  function Str(s: seq<Byte>): seq<Byte> {
    Put(|s| + 1, 2) + (s + [0])
  }

  function Head(m: Measure): (h: seq<Byte>)
    ensures |h| == 16
  {
    Put(m.value, 8) + Put(m.unit, 2) + Put(m.kind, 2) + Put(m.flags, 4)
  }

  function EncodeOne(m: Measure): (b: seq<Byte>)
    requires Fits(m)
    ensures |b| == ENTRY + |m.name.value| + 1 + |m.how.value| + 1
  {
    Head(m) + (Str(m.name.value) + Str(m.how.value))
  }

  /** The first `room` measurements that fit, in order. */
  function Chosen(ms: seq<Measure>, room: nat): (c: seq<Measure>)
    ensures |c| <= room && forall i :: 0 <= i < |c| ==> Fits(c[i])
  {
    if |ms| == 0 then []
    else if room == 0 || !Fits(ms[0]) then Chosen(ms[1..], room)
    else [ms[0]] + Chosen(ms[1..], room - 1)
  }

  function EncodeAll(ms: seq<Measure>): (b: seq<Byte>)
    requires forall i :: 0 <= i < |ms| ==> Fits(ms[i])
    ensures |b| <= |ms| * (ENTRY + 2 * MAX_STR)
  {
    if |ms| == 0 then [] else EncodeOne(ms[0]) + EncodeAll(ms[1..])
  }

  /** meas_encode: nothing for an event with no measurements. */
  function Encode(ms: seq<Measure>): seq<Byte> {
    if |ms| == 0 then []
    else
      var c := Chosen(ms, MAX_MEASURES);
      Put(|c|, 4) + [if |c| < |ms| then 1 else 0] + EncodeAll(c)
  }

  // ---- reading ----

  /** The string that starts the bytes: up to the first NUL. */
  function CStr(b: seq<Byte>): seq<Byte> {
    if |b| == 0 || b[0] == 0 then [] else [b[0]] + CStr(b[1..])
  }

  /** A length and a string with its NUL: the string, and how many bytes it took. */
  function DecodeStr(r: seq<Byte>): (o: Option<(seq<Byte>, nat)>)
    ensures o.Some? ==> 2 < o.value.1 <= |r|
  {
    if |r| < 2 then None
    else
      var n := Get(r[..2]);
      if n == 0 || |r| - 2 < n || r[2 + n - 1] != 0 then None
      else Some((CStr(r[2..2 + n]), 2 + n))
  }

  function DecodeOne(r: seq<Byte>): (o: Option<(Measure, nat)>)
    ensures o.Some? ==> 20 < o.value.1 <= |r|
  {
    if |r| < ENTRY then None
    else
      var name := DecodeStr(r[16..]);
      if name.None? then None
      else
        var how := DecodeStr(r[16 + name.value.1..]);
        if how.None? then None
        else Some((Measure(Get(r[..8]), Get(r[8..10]), Get(r[10..12]), Get(r[12..16]), Some(name.value.0), Some(how.value.0)),
                   16 + name.value.1 + how.value.1))
  }

  function DecodeAll(r: seq<Byte>, n: nat): Option<seq<Measure>> {
    if n == 0 then (if |r| == 0 then Some([]) else None)
    else
      var one := DecodeOne(r);
      if one.None? then None
      else
        var rest := DecodeAll(r[one.value.1..], n - 1);
        if rest.None? then None else Some([one.value.0] + rest.value)
  }

  /** meas_decode: the measurements, and whether some were left out. */
  function Decode(b: seq<Byte>): Option<(seq<Measure>, bool)> {
    if |b| == 0 then Some(([], false))
    else if |b| < HDR then None
    else
      var n := Get(b[..4]);
      if n > MAX_MEASURES then None
      else
        var ms := DecodeAll(b[HDR..], n);
        if ms.None? then None else Some((ms.value, b[4] != 0))
  }

  // ---- the round trip ----

  lemma {:induction false} CStrWhole(s: seq<Byte>, rest: seq<Byte>)
    requires IsString(s)
    ensures CStr(s + [0] + rest) == s
  {
    var b := s + [0] + rest;
    if |s| > 0 {
      assert b[1..] == s[1..] + [0] + rest;
      CStrWhole(s[1..], rest);
    }
  }

  lemma Split(a: seq<Byte>, b: seq<Byte>)
    ensures (a + b)[..|a|] == a && (a + b)[|a|..] == b
  {
  }

  lemma ReadStr(s: seq<Byte>, rest: seq<Byte>)
    requires IsString(s) && |s| < MAX_STR
    ensures DecodeStr(Str(s) + rest) == Some((s, |Str(s)|))
  {
    var len, r := Put(|s| + 1, 2), Str(s) + rest;
    Widths();
    GetPut(|s| + 1, 2);
    assert r == len + (s + [0] + rest);
    Split(len, s + [0] + rest);
    assert r[2..2 + (|s| + 1)] == s + [0];
    CStrWhole(s, []);
    assert s + [0] + [] == s + [0];
  }

  lemma ReadHead(m: Measure, rest: seq<Byte>)
    requires InRange(m)
    ensures var r := Head(m) + rest;
            Get(r[..8]) == m.value && Get(r[8..10]) == m.unit && Get(r[10..12]) == m.kind && Get(r[12..16]) == m.flags && r[16..] == rest
  {
    var r := Head(m) + rest;
    GetPut(m.value, 8);
    GetPut(m.unit, 2);
    GetPut(m.kind, 2);
    GetPut(m.flags, 4);
    assert r[..8] == Put(m.value, 8) && r[8..10] == Put(m.unit, 2) && r[10..12] == Put(m.kind, 2) && r[12..16] == Put(m.flags, 4);
  }

  /** What was written for one measurement reads back as it. */
  lemma ReadOne(m: Measure, rest: seq<Byte>)
    requires Fits(m) && InRange(m)
    ensures DecodeOne(EncodeOne(m) + rest) == Some((m, |EncodeOne(m)|))
  {
    hide Get, Head, Str, DecodeStr, InRange;
    var name, how := Str(m.name.value), Str(m.how.value);
    var r := EncodeOne(m) + rest;
    Assoc(Head(m), name + how, rest);
    Assoc(name, how, rest);
    ReadHead(m, name + (how + rest));
    StringsFine(m);
    ReadStr(m.name.value, how + rest);
    Split(name, how + rest);
    assert r[16 + |name|..] == r[16..][|name|..];
    ReadStr(m.how.value, rest);
  }

  lemma StringsFine(m: Measure)
    requires Fits(m) && InRange(m)
    ensures IsString(m.name.value) && IsString(m.how.value)
  {
  }

  lemma {:induction false} ReadAll(ms: seq<Measure>)
    requires forall i :: 0 <= i < |ms| ==> Fits(ms[i]) && InRange(ms[i])
    ensures DecodeAll(EncodeAll(ms), |ms|) == Some(ms)
    decreases |ms|
  {
    hide DecodeOne, EncodeOne, InRange;
    if |ms| > 0 {
      var rest := EncodeAll(ms[1..]);
      ReadOne(ms[0], rest);
      Split(EncodeOne(ms[0]), rest);
      ReadAll(ms[1..]);
      assert EncodeAll(ms) == EncodeOne(ms[0]) + rest;
      assert [ms[0]] + ms[1..] == ms;
    }
  }

  lemma {:induction false} ChosenFrom(ms: seq<Measure>, room: nat)
    ensures forall i :: 0 <= i < |Chosen(ms, room)| ==> Chosen(ms, room)[i] in ms
    decreases |ms|
  {
    if |ms| > 0 {
      if room == 0 || !Fits(ms[0]) { ChosenFrom(ms[1..], room); } else { ChosenFrom(ms[1..], room - 1); }
    }
  }

  /** Nothing is left out exactly if everything fits and there is room for it. */
  lemma {:induction false} ChosenWhole(ms: seq<Measure>, room: nat)
    ensures |Chosen(ms, room)| <= |ms|
    ensures |Chosen(ms, room)| == |ms| <==> |ms| <= room && forall i :: 0 <= i < |ms| ==> Fits(ms[i])
    ensures |Chosen(ms, room)| == |ms| ==> Chosen(ms, room) == ms
    decreases |ms|
  {
    if |ms| > 0 {
      if room == 0 || !Fits(ms[0]) {
        ChosenWhole(ms[1..], room);
      } else {
        ChosenWhole(ms[1..], room - 1);
        assert forall i :: 1 <= i < |ms| ==> ms[i] == ms[1..][i - 1];
      }
    }
  }

  /** Decoding an encoded event yields exactly the first measurements that fit, at most 64, in
      order and unchanged, with `cut` set exactly if some were left out; and the blob is within
      its cap. */
  lemma RoundTrip(ms: seq<Measure>)
    requires forall i :: 0 <= i < |ms| ==> InRange(ms[i])
    ensures var c := Chosen(ms, MAX_MEASURES);
            Decode(Encode(ms)) == Some((c, |c| < |ms|)) && |Encode(ms)| <= CAP
  {
    hide Chosen, EncodeAll, DecodeAll, Get, Put, InRange;
    var c := Chosen(ms, MAX_MEASURES);
    if |ms| == 0 {
      NoneChosen();
    } else {
      ChosenFrom(ms, MAX_MEASURES);
      ReadAll(c);
      Widths();
      GetPut(|c|, 4);
      var b := Encode(ms);
      assert b[..4] == Put(|c|, 4) && b[HDR..] == EncodeAll(c);
      Bounded(c);
    }
  }

  lemma NoneChosen()
    ensures Chosen([], MAX_MEASURES) == []
  {
  }

  lemma Bounded(c: seq<Measure>)
    requires |c| <= MAX_MEASURES && forall i :: 0 <= i < |c| ==> Fits(c[i])
    ensures |EncodeAll(c)| <= MAX_MEASURES * (ENTRY + 2 * MAX_STR)
  {
    assert |EncodeAll(c)| <= |c| * (ENTRY + 2 * MAX_STR);
  }

  // ---- the loops over the buffers ----

  method CopyInto(b: array<Byte>, at: nat, s: seq<Byte>) returns (end: nat)
    requires at + |s| <= b.Length
    modifies b
    ensures end == at + |s| && b[..end] == old(b[..at]) + s
  {
    for i := 0 to |s|
      invariant b[..at] == old(b[..at]) && b[at..at + i] == s[..i]
    {
      b[at + i] := s[i];
    }
    end := at + |s|;
    assert b[..end] == b[..at] + b[at..end];
    assert s[..|s|] == s;
  }

  /** What is still to be chosen from the measurements from `i` on, `n` being taken already. */
  function Left(ms: seq<Measure>, i: nat, n: nat): (c: seq<Measure>)
    requires i <= |ms| && n <= MAX_MEASURES
    ensures forall k :: 0 <= k < |c| ==> Fits(c[k])
  {
    Chosen(ms[i..], MAX_MEASURES - n)
  }

  lemma LeftStep(ms: seq<Measure>, i: nat, n: nat)
    requires i < |ms| && n <= MAX_MEASURES
    ensures if n < MAX_MEASURES && Fits(ms[i])
            then Left(ms, i, n) == [ms[i]] + Left(ms, i + 1, n + 1)
                 && EncodeAll(Left(ms, i, n)) == EncodeOne(ms[i]) + EncodeAll(Left(ms, i + 1, n + 1))
            else Left(ms, i, n) == Left(ms, i + 1, n)
  {
    assert ms[i..][1..] == ms[i + 1..];
    var c := Left(ms, i, n);
    if n < MAX_MEASURES && Fits(ms[i]) { assert c[1..] == Left(ms, i + 1, n + 1); }
  }

  /** The first pass: how many, how large, and whether any is left out. */
  method Measured(ms: seq<Measure>) returns (n: nat, size: nat, cut: bool)
    ensures n == |Left(ms, 0, 0)| && size == HDR + |EncodeAll(Left(ms, 0, 0))| && (cut <==> n < |ms|)
  {
    hide EncodeAll, Chosen, Left;
    n, size, cut := 0, HDR, false;
    for i := 0 to |ms|
      invariant n <= MAX_MEASURES && n + |Left(ms, i, n)| == |Left(ms, 0, 0)|
      invariant size + |EncodeAll(Left(ms, i, n))| == HDR + |EncodeAll(Left(ms, 0, 0))|
      invariant n <= i && (cut <==> n < i)
    {
      LeftStep(ms, i, n);
      if n == MAX_MEASURES || !Fits(ms[i]) {
        cut := true;
      } else {
        size := size + ENTRY + |ms[i].name.value| + 1 + |ms[i].how.value| + 1;
        n := n + 1;
      }
    }
    NoneLeft(ms, n);
  }

  lemma NoneLeft(ms: seq<Measure>, n: nat)
    requires n <= MAX_MEASURES
    ensures Left(ms, |ms|, n) == [] && EncodeAll(Left(ms, |ms|, n)) == []
  {
  }

  /** The second pass, into a buffer of that size. */
  method WriteAll(ms: seq<Measure>, b: array<Byte>, start: nat)
    requires start + |EncodeAll(Left(ms, 0, 0))| == b.Length
    modifies b
    ensures b[..] == old(b[..start]) + EncodeAll(Left(ms, 0, 0))
  {
    hide EncodeAll, Chosen, Left, EncodeOne;
    var at: nat, k: nat := start, 0;
    ghost var whole := b[..start] + EncodeAll(Left(ms, 0, 0));
    for i := 0 to |ms|
      invariant k <= MAX_MEASURES && at + |EncodeAll(Left(ms, i, k))| == b.Length
      invariant b[..at] + EncodeAll(Left(ms, i, k)) == whole
    {
      LeftStep(ms, i, k);
      if k < MAX_MEASURES && Fits(ms[i]) {
        Assoc(b[..at], EncodeOne(ms[i]), EncodeAll(Left(ms, i + 1, k + 1)));
        at := CopyInto(b, at, EncodeOne(ms[i]));
        k := k + 1;
      }
    }
    NoneLeft(ms, k);
    assert b[..at] == b[..];
  }

  /** meas_encode. */
  method EncodeEvent(ms: seq<Measure>) returns (blob: seq<Byte>)
    ensures blob == Encode(ms)
  {
    hide EncodeAll, Chosen;
    if |ms| == 0 { return []; }
    var n, size, cut := Measured(ms);
    assert ms[0..] == ms;
    var b := new Byte[size](_ => 0);
    var at := CopyInto(b, 0, Put(n, 4));
    at := CopyInto(b, at, [if cut then 1 else 0]);
    WriteAll(ms, b, at);
    blob := b[..];
  }

  /** A string at the cursor: the checks come before the bytes they guard are read. */
  method ReadString(b: array<Byte>, at: nat) returns (o: Option<(seq<Byte>, nat)>)
    requires at <= b.Length
    ensures o == DecodeStr(b[at..])
  {
    hide CStr, Get;
    var len := b.Length;
    if len - at < 2 { return None; }
    var n := Get(b[at..at + 2]);
    assert b[at..][..2] == b[at..at + 2];
    if n == 0 || len - (at + 2) < n || b[at + 2 + n - 1] != 0 { return None; }
    assert b[at..][2..2 + n] == b[at + 2..at + 2 + n];
    return Some((CStr(b[at + 2..at + 2 + n]), 2 + n));
  }

  method ReadEntry(b: array<Byte>, at: nat) returns (o: Option<(Measure, nat)>)
    requires at <= b.Length
    ensures o == DecodeOne(b[at..])
  {
    hide DecodeStr, Get;
    if b.Length - at < ENTRY { return None; }
    ghost var r := b[at..];
    var value, unit, kind, flags := Get(b[at..at + 8]), Get(b[at + 8..at + 10]), Get(b[at + 10..at + 12]), Get(b[at + 12..at + 16]);
    assert r[..8] == b[at..at + 8] && r[8..10] == b[at + 8..at + 10] && r[10..12] == b[at + 10..at + 12] && r[12..16] == b[at + 12..at + 16];
    assert r[16..] == b[at + 16..];
    var name := ReadString(b, at + 16);
    if name.None? { return None; }
    assert r[16 + name.value.1..] == b[at + 16 + name.value.1..];
    var how := ReadString(b, at + 16 + name.value.1);
    if how.None? { return None; }
    return Some((Measure(value, unit, kind, flags, Some(name.value.0), Some(how.value.0)), 16 + name.value.1 + how.value.1));
  }

  /** Those read so far, before the rest. */
  function Onto(out: seq<Measure>, rest: Option<seq<Measure>>): Option<seq<Measure>> {
    if rest.None? then None else Some(out + rest.value)
  }

  lemma OntoStep(r: seq<Byte>, n: nat, out: seq<Measure>)
    requires n > 0
    ensures var one := DecodeOne(r);
            Onto(out, DecodeAll(r, n)) == if one.None? then None else Onto(out + [one.value.0], DecodeAll(r[one.value.1..], n - 1))
  {
    hide DecodeOne;
    var one := DecodeOne(r);
    if one.Some? {
      var rest := DecodeAll(r[one.value.1..], n - 1);
      if rest.Some? { Assoc(out, [one.value.0], rest.value); }
    }
  }

  lemma OntoNothing(rest: Option<seq<Measure>>)
    ensures Onto([], rest) == rest
  {
    if rest.Some? { assert [] + rest.value == rest.value; }
  }

  /** meas_decode: a cursor over the blob that never passes its end. The strings copied out of it
      take `used` bytes, within the room made for them. */
  method DecodeBlob(b: array<Byte>) returns (r: Option<(seq<Measure>, bool)>, used: nat)
    ensures r == Decode(b[..]) && used <= b.Length
  {
    hide DecodeOne, Get, DecodeAll, Onto;
    var len := b.Length;
    used := 0;
    if len == 0 { return Some(([], false)), 0; }
    if len < HDR { return None, 0; }
    var n := Get(b[..4]);
    assert b[HDR..] == b[..][HDR..] && b[..4] == b[..][..4];
    if n > MAX_MEASURES { return None, 0; }
    var at: nat, out: seq<Measure> := HDR, [];
    OntoNothing(DecodeAll(b[HDR..], n));
    for i := 0 to n
      invariant HDR <= at <= len && used <= at - HDR
      invariant DecodeAll(b[HDR..], n) == Onto(out, DecodeAll(b[at..], n - i))
    {
      OntoStep(b[at..], n - i, out);
      var one := ReadEntry(b, at);
      if one.None? { return None, used; }
      assert b[at..][one.value.1..] == b[at + one.value.1..];
      out := out + [one.value.0];
      used := used + (one.value.1 - ENTRY);
      at := at + one.value.1;
    }
    AtEnd(b[at..], out);
    r := if at == len then Some((out, b[4] != 0)) else None;
  }

  lemma AtEnd(r: seq<Byte>, out: seq<Measure>)
    ensures Onto(out, DecodeAll(r, 0)) == if |r| == 0 then Some(out) else None
  {
    assert out + [] == out;
  }
}
