/** The in-memory record table as the journal describes it: what applying a record does,
    what a journal means record by record, and the rewriting a compaction does. */
module RecordTable {
  import opened LittleEndian
  import opened Sequences
  import opened Journal

  /** The persistent half of a dq_rec. */
  datatype Row = Row(seqno: nat, name: seq<Byte>, payload: seq<Byte>,
                     done: bool, quarantined: bool, inflight: bool, crashes: nat)

  datatype Table = Table(rows: seq<Row>, nextSeq: nat)

  const EMPTY: Table := Table([], 1)

  ghost predicate Ascending(rows: seq<Row>) {
    forall i, j :: 0 <= i < j < |rows| ==> rows[i].seqno < rows[j].seqno
  }

  /** What every table the queue ever holds satisfies; `top` bounds the numbers in it. */
  ghost predicate TableOk(t: Table, top: nat) {
    && Ascending(t.rows)
    && (forall i :: 0 <= i < |t.rows| ==> 1 <= t.rows[i].seqno <= top && t.rows[i].seqno < t.nextSeq)
    && 1 <= t.nextSeq <= MAX_SEQ + 1
    && top <= MAX_SEQ
  }

  /** The index of the row numbered `s`, or |rows|. */
  function Find(rows: seq<Row>, s: nat): (i: nat)
    ensures i <= |rows|
    ensures i < |rows| ==> rows[i].seqno == s
    ensures forall j :: 0 <= j < i ==> rows[j].seqno != s
  {
    if |rows| == 0 || rows[0].seqno == s then 0 else 1 + Find(rows[1..], s)
  }

  /** find_by_seq: on an ascending table the binary search never misses. */
  method FindBySeq(rows: seq<Row>, s: nat) returns (i: nat)
    requires Ascending(rows)
    ensures i == Find(rows, s)
  {
    var lo, hi := 0, |rows|;
    while lo < hi
      invariant 0 <= lo <= hi <= |rows|
      invariant forall k :: 0 <= k < lo ==> rows[k].seqno < s
      invariant forall k :: hi <= k < |rows| ==> s < rows[k].seqno
    {
      var mid := lo + (hi - lo) / 2;
      if rows[mid].seqno == s { return mid; }
      if rows[mid].seqno < s { lo := mid + 1; } else { hi := mid; }
    }
    return |rows|;
  }

  function FreshRow(r: Rec): Row {
    Row(r.seqno, r.name, r.payload, false, false, false, 0)
  }

  /** What a marker does to its row. A type the reader does not know does nothing. */
  function Mark(row: Row, r: Rec): (m: Row)
    ensures m.seqno == row.seqno
  {
    if r.typ == D then row.(done := true, name := [], payload := [])
    else if r.typ == Q then row.(quarantined := true)
    else if r.typ == S then row.(inflight := true)
    else if r.typ == F then row.(inflight := false, crashes := 0)
    else if r.typ == K && |r.payload| == 4 && |r.name| == 0 then row.(crashes := Get(r.payload))
    else row
  }

  /** apply_rec. */
  function Apply(t: Table, r: Rec): (t': Table) {
    var next := if r.seqno >= t.nextSeq then r.seqno + 1 else t.nextSeq;
    if r.typ == P then Table(t.rows + [FreshRow(r)], next)
    else
      var i := Find(t.rows, r.seqno);
      if i == |t.rows| then Table(t.rows, next)
      else Table(t.rows[i := Mark(t.rows[i], r)], next)
  }

  lemma ApplyOk(t: Table, r: Rec, top: nat)
    requires TableOk(t, top) && r.seqno <= MAX_SEQ
    requires r.typ == P ==> r.seqno > top
    ensures TableOk(Apply(t, r), if r.typ == P then r.seqno else top)
  {
  }

  /** What a whole journal means: its records applied in order. */
  function Meaning(rs: seq<Rec>): (t: Table) {
    if |rs| == 0 then EMPTY else Apply(Meaning(rs[..|rs| - 1]), rs[|rs| - 1])
  }

  /** The number of the last 'P'. */
  function LastP(rs: seq<Rec>): nat {
    if |rs| == 0 then 0
    else if rs[|rs| - 1].typ == P then rs[|rs| - 1].seqno
    else LastP(rs[..|rs| - 1])
  }

  /** The 'P' records are numbered upwards. */
  ghost predicate RisingPs(rs: seq<Rec>) {
    && (forall i :: 0 <= i < |rs| ==> rs[i].seqno <= MAX_SEQ)
    && (forall i :: 0 <= i < |rs| && rs[i].typ == P ==> 1 <= rs[i].seqno)
    && (forall i, j :: 0 <= i < j < |rs| && rs[i].typ == P && rs[j].typ == P ==> rs[i].seqno < rs[j].seqno)
  }

  /** A journal only the queue's own whole writes made: within the format's bounds as well. */
  ghost predicate WriterMade(rs: seq<Rec>) {
    (forall i :: 0 <= i < |rs| ==> Writable(rs[i])) && RisingPs(rs)
  }

  lemma RisingPrefix(rs: seq<Rec>, n: nat)
    requires RisingPs(rs) && n <= |rs|
    ensures RisingPs(rs[..n])
  {
  }

  lemma {:induction false} LastPBounds(rs: seq<Rec>)
    requires RisingPs(rs)
    ensures LastP(rs) <= MAX_SEQ
    ensures forall i :: 0 <= i < |rs| && rs[i].typ == P ==> rs[i].seqno <= LastP(rs)
    ensures LastP(rs) == 0 || exists i :: 0 <= i < |rs| && rs[i].typ == P && rs[i].seqno == LastP(rs)
  {
    if |rs| > 0 && rs[|rs| - 1].typ != P {
      LastPBounds(rs[..|rs| - 1]);
    }
  }

  lemma {:induction false} MeaningOk(rs: seq<Rec>)
    requires RisingPs(rs)
    ensures TableOk(Meaning(rs), LastP(rs))
    ensures forall i :: 0 <= i < |rs| ==> rs[i].seqno < Meaning(rs).nextSeq
  {
    if |rs| > 0 {
      var n := |rs| - 1;
      MeaningOk(rs[..n]);
      LastPBounds(rs[..n]);
      ApplyOk(Meaning(rs[..n]), rs[n], LastP(rs[..n]));
      hide TableOk, Find, Mark;
      assert forall i :: 0 <= i < n ==> rs[i] == rs[..n][i];
    }
  }

  // ---- a journal read record by record ----

  /** The markers of `rs` that are about the row, applied to it in order. */
  function Marks(row: Row, rs: seq<Rec>): (m: Row)
    ensures m.seqno == row.seqno
  {
    if |rs| == 0 then row
    else
      var r := rs[|rs| - 1];
      var before := Marks(row, rs[..|rs| - 1]);
      if r.typ != P && r.seqno == row.seqno then Mark(before, r) else before
  }

  /** The row that the 'P' at `k` has become by the end of the journal, without any table. */
  function RowOf(rs: seq<Rec>, k: nat): Row
    requires k < |rs|
  {
    Marks(FreshRow(rs[k]), rs[k + 1..])
  }

  lemma LastRow(rs: seq<Rec>)
    requires RisingPs(rs) && |rs| > 0 && rs[|rs| - 1].typ == P
    ensures var rows := Meaning(rs).rows; var i := Find(rows, rs[|rs| - 1].seqno);
            i < |rows| && rows[i] == FreshRow(rs[|rs| - 1])
  {
    MeaningOk(rs);
    AscendingFind(Meaning(rs).rows, |Meaning(rs[..|rs| - 1]).rows|);
  }

  /** A later record leaves a row alone, or marks it. */
  lemma EarlierRow(rs: seq<Rec>, i: nat)
    requires RisingPs(rs) && |rs| > 0
    requires i < |Meaning(rs[..|rs| - 1]).rows|
    ensures var row := Meaning(rs[..|rs| - 1]).rows[i]; var r := rs[|rs| - 1]; var rows := Meaning(rs).rows;
            && i < |rows| && Find(rows, row.seqno) == i
            && rows[i] == (if r.typ != P && r.seqno == row.seqno then Mark(row, r) else row)
  {
    MeaningOk(rs);
    MeaningOk(rs[..|rs| - 1]);
    AscendingFind(Meaning(rs).rows, i);
    AscendingFind(Meaning(rs[..|rs| - 1]).rows, i);
  }

  /** Every submitted record has exactly the row its own markers give it. */
  lemma {:induction false} MeaningHas(rs: seq<Rec>, k: nat)
    requires RisingPs(rs) && k < |rs| && rs[k].typ == P
    ensures var rows := Meaning(rs).rows; var i := Find(rows, rs[k].seqno);
            i < |rows| && rows[i] == RowOf(rs, k)
    decreases |rs|
  {
    hide Meaning, RisingPs, Mark, RowOf, Find;
    var n := |rs| - 1;
    RowGrows(rs, k);
    if k == n {
      LastRow(rs);
    } else {
      RisingPrefix(rs, n);
      MeaningHas(rs[..n], k);
      EarlierRow(rs, Find(Meaning(rs[..n]).rows, rs[k].seqno));
    }
  }

  /** The row of a 'P' as the journal grows. */
  lemma RowGrows(rs: seq<Rec>, k: nat)
    requires k < |rs|
    ensures RowOf(rs, k).seqno == rs[k].seqno
    ensures var n, r := |rs| - 1, rs[|rs| - 1];
            RowOf(rs, k) == if k == n then FreshRow(rs[k])
                            else if r.typ != P && r.seqno == rs[k].seqno then Mark(RowOf(rs[..n], k), r) else RowOf(rs[..n], k)
  {
    hide Mark;
    var n := |rs| - 1;
    if k < n { assert rs[..n][k + 1..] == rs[k + 1..][..n - k - 1]; }
  }

  lemma AscendingFind(rows: seq<Row>, i: nat)
    requires Ascending(rows) && i < |rows|
    ensures Find(rows, rows[i].seqno) == i
  {
  }

  /** And there is no other row: each comes from a 'P' of the journal. */
  lemma {:induction false} MeaningOnly(rs: seq<Rec>, i: nat)
    requires RisingPs(rs) && i < |Meaning(rs).rows|
    ensures exists k :: 0 <= k < |rs| && rs[k].typ == P && rs[k].seqno == Meaning(rs).rows[i].seqno
    decreases |rs|
  {
    var n := |rs| - 1;
    var before := Meaning(rs[..n]);
    if i < |before.rows| {
      MeaningOnly(rs[..n], i);
      var k :| 0 <= k < n && rs[..n][k].typ == P && rs[..n][k].seqno == before.rows[i].seqno;
      assert rs[k].typ == P && rs[k].seqno == Meaning(rs).rows[i].seqno;
    }
  }

  /** A record is closed exactly by a later 'D' of its number, and until then keeps its
      name and payload. */
  lemma {:induction false} ClosedByD(row: Row, rs: seq<Rec>)
    requires !row.done
    ensures Marks(row, rs).done <==> exists j :: 0 <= j < |rs| && rs[j].typ == D && rs[j].seqno == row.seqno
    ensures !Marks(row, rs).done ==> Marks(row, rs).name == row.name && Marks(row, rs).payload == row.payload
  {
    if |rs| > 0 {
      var n := |rs| - 1;
      ClosedByD(row, rs[..n]);
      assert forall j :: 0 <= j < n ==> rs[..n][j] == rs[j];
    }
  }

  /** A record is quarantined exactly by a later 'Q' of its number. */
  lemma {:induction false} QuarantinedByQ(row: Row, rs: seq<Rec>)
    requires !row.quarantined
    ensures Marks(row, rs).quarantined <==> exists j :: 0 <= j < |rs| && rs[j].typ == 'Q' as int && rs[j].seqno == row.seqno
    decreases |rs|
  {
    hide Get;
    if |rs| > 0 {
      var n := |rs| - 1;
      QuarantinedByQ(row, rs[..n]);
      assert forall j :: 0 <= j < n ==> rs[..n][j] == rs[j];
    }
  }

  /** It is running exactly if the last 'S' or 'F' of its number is an 'S'. */
  lemma {:induction false} RunningSinceS(row: Row, rs: seq<Rec>)
    requires !row.inflight
    ensures Marks(row, rs).inflight <==> var k := Latest(rs, row.seqno, "SF"); k < |rs| && rs[k].typ == 'S' as int
    decreases |rs|
  {
    hide Get;
    if |rs| > 0 { RunningSinceS(row, rs[..|rs| - 1]); }
  }

  /** The deaths against it are those its last 'K' says, or none if an 'F' came after that. */
  lemma {:induction false} DeathsByK(row: Row, rs: seq<Rec>)
    requires row.crashes == 0
    ensures Marks(row, rs).crashes == var k := Latest(rs, row.seqno, "KF"); if k == |rs| || rs[k].typ == 'F' as int then 0 else Get(rs[k].payload)
    decreases |rs|
  {
    hide Get;
    if |rs| > 0 { DeathsByK(row, rs[..|rs| - 1]); }
  }

  /** The last record of that number and of one of those types, or |rs|. A 'K' is one with four bytes and
      no name. */
  function Latest(rs: seq<Rec>, seqno: nat, letters: string): (k: nat)
    ensures k <= |rs|
  {
    if |rs| == 0 then 0
    else
      var n, r := |rs| - 1, rs[|rs| - 1];
      var before := Latest(rs[..n], seqno, letters);
      if r.seqno == seqno && r.typ as char in letters && (r.typ == 'K' as int ==> |r.payload| == 4 && |r.name| == 0) then n
      else if before == n then |rs| else before
  }

  // ---- compaction ----

  function Optional(on: bool, r: Rec): seq<Rec> {
    if on then [r] else []
  }

  function PRec(row: Row): Rec { Rec(P, row.seqno, row.name, row.payload) }
  function KRec(row: Row): Rec { Rec(K, row.seqno, [], Put(row.crashes, 4)) }
  function Marker(typ: Byte, seqno: nat): Rec { Rec(typ, seqno, [], []) }

  /** The records do_rewrite writes for a row it keeps. */
  function RewriteRow(row: Row): (rs: seq<Rec>)
    ensures |rs| >= 1 && rs[0].typ == P
    ensures forall i :: 0 <= i < |rs| ==> rs[i].seqno == row.seqno && rs[i].typ != D
    ensures forall i :: 1 <= i < |rs| ==> rs[i].typ != P
  {
    [PRec(row)] + Optional(row.crashes != 0, KRec(row))
    + Optional(row.inflight, Marker(S, row.seqno)) + Optional(row.quarantined, Marker(Q, row.seqno))
  }

  function Rewrite(rows: seq<Row>): seq<Rec> {
    if |rows| == 0 then [] else Rewrite(rows[..|rows| - 1]) + RewriteRow(rows[|rows| - 1])
  }

  /** A row a compaction may be asked to keep: open, and within the format's bounds. */
  predicate Storable(row: Row) {
    && !row.done && 1 <= row.seqno <= MAX_SEQ
    && |row.name| <= MAX_NAME && |row.payload| <= MAX_PAYLOAD
    && row.crashes < 0x1_0000_0000
  }

  lemma AppendP(rs: seq<Rec>, p: Rec)
    requires WriterMade(rs) && Writable(p) && p.typ == P && LastP(rs) < p.seqno <= MAX_SEQ
    ensures WriterMade(rs + [p]) && LastP(rs + [p]) == p.seqno
    ensures Meaning(rs + [p]) == Apply(Meaning(rs), p)
  {
    LastPBounds(rs);
    assert (rs + [p])[..|rs + [p]| - 1] == rs;
  }

  /** A marker for the last row, appended if `on`. */
  lemma AppendIf(rs: seq<Rec>, on: bool, m: Rec, rows: seq<Row>, row: Row)
    requires WriterMade(rs) && Writable(m) && m.typ != P && m.seqno <= MAX_SEQ
    requires Meaning(rs).rows == rows + [row] && row.seqno == m.seqno
    ensures var rs' := rs + Optional(on, m);
            && WriterMade(rs') && LastP(rs') == LastP(rs)
            && Meaning(rs') == Table(rows + [if on then Mark(row, m) else row], Meaning(rs).nextSeq)
  {
    if on {
      AppendMarker(rs, |rows|, m);
    } else {
      assert rs + [] == rs;
    }
  }

  lemma Regroup(a: seq<Rec>, b: seq<Rec>, c: seq<Rec>, d: seq<Rec>, e: seq<Rec>)
    ensures a + (b + c + d + e) == a + b + c + d + e
  {
  }

  lemma MarkK(row: Row, on: Row)
    requires row.crashes < 0x1_0000_0000 && row.seqno == on.seqno
    ensures Writable(KRec(row)) || row.seqno > MAX_SEQ
    ensures Mark(on, KRec(row)) == on.(crashes := row.crashes)
  {
    Widths();
    GetPut(row.crashes, 4);
  }

  lemma RewriteRowMeans(rs: seq<Rec>, row: Row)
    requires WriterMade(rs) && Storable(row) && LastP(rs) < row.seqno
    requires Meaning(rs).nextSeq <= row.seqno
    ensures WriterMade(rs + RewriteRow(row)) && LastP(rs + RewriteRow(row)) == row.seqno
    ensures Meaning(rs + RewriteRow(row)) == Table(Meaning(rs).rows + [row], row.seqno + 1)
  {
    var rows := Meaning(rs).rows;
    hide Meaning, WriterMade, LastP;
    AppendP(rs, PRec(row));
    var a := rs + [PRec(row)];
    var row0 := FreshRow(PRec(row));
    MarkK(row, row0);
    AppendIf(a, row.crashes != 0, KRec(row), rows, row0);
    var b := a + Optional(row.crashes != 0, KRec(row));
    var row1 := row0.(crashes := row.crashes);
    AppendIf(b, row.inflight, Marker(S, row.seqno), rows, row1);
    var c := b + Optional(row.inflight, Marker(S, row.seqno));
    var row2 := row1.(inflight := row.inflight);
    AppendIf(c, row.quarantined, Marker(Q, row.seqno), rows, row2);
    Regroup(rs, [PRec(row)], Optional(row.crashes != 0, KRec(row)),
            Optional(row.inflight, Marker(S, row.seqno)), Optional(row.quarantined, Marker(Q, row.seqno)));
  }

  /** A marker for the row at `i`, appended. */
  lemma AppendMarker(rs: seq<Rec>, i: nat, m: Rec)
    requires WriterMade(rs) && Writable(m) && m.typ != P && m.seqno <= MAX_SEQ
    requires i < |Meaning(rs).rows| && Meaning(rs).rows[i].seqno == m.seqno
    ensures WriterMade(rs + [m]) && LastP(rs + [m]) == LastP(rs)
    ensures Meaning(rs + [m]) == Table(Meaning(rs).rows[i := Mark(Meaning(rs).rows[i], m)], Meaning(rs).nextSeq)
  {
    MeaningOk(rs);
    AscendingFind(Meaning(rs).rows, i);
    assert (rs + [m])[..|rs + [m]| - 1] == rs;
  }

  function LastSeq(rows: seq<Row>): nat {
    if |rows| == 0 then 0 else rows[|rows| - 1].seqno
  }

  /** Replaying what a compaction wrote gives back exactly the rows it kept. */
  lemma {:induction false} RewriteMeans(rows: seq<Row>)
    requires Ascending(rows) && forall i :: 0 <= i < |rows| ==> Storable(rows[i])
    ensures WriterMade(Rewrite(rows)) && LastP(Rewrite(rows)) == LastSeq(rows)
    ensures Meaning(Rewrite(rows)) == Table(rows, LastSeq(rows) + 1)
  {
    if |rows| > 0 {
      var n := |rows| - 1;
      RewriteMeans(rows[..n]);
      assert LastSeq(rows[..n]) < rows[n].seqno;
      RewriteRowMeans(Rewrite(rows[..n]), rows[n]);
      Snoc(rows);
      hide Meaning, WriterMade, LastP, RewriteRow;
    }
  }
}
