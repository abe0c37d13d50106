/** Linear probing: what makes a search of an open-addressing table exact. */
module Probing {
  /** A slot: never used, vacated (a tombstone), or holding an entry. */
  datatype Cell<V> = Free | Dead | Used(key: nat, val: V)

  function Next(i: nat, cap: nat): nat {
    if i + 1 == cap then 0 else i + 1
  }

  /** Slot `q` lies on the way from `a` up to, and not including, `b`, going round. */
  predicate OnPath(a: nat, q: nat, b: nat) {
    if a <= b then a <= q < b else a <= q || q < b
  }

  /** The steps from `i` to `e`. */
  function Distance(i: nat, e: nat, cap: nat): nat
    requires i < cap && e < cap
  {
    if i <= e then e - i else cap - i + e
  }

  /** A search from `a` gets as far as `b`. */
  ghost predicate Reach<V>(c: seq<Cell<V>>, a: nat, b: nat) {
    forall q :: 0 <= q < |c| && OnPath(a, q, b) ==> !c[q].Free?
  }

  predicate At<V>(c: seq<Cell<V>>, p: nat, k: nat) {
    p < |c| && c[p].Used? && c[p].key == k
  }

  /** Every entry is where a search for it gets to. */
  ghost predicate Probed<V>(c: seq<Cell<V>>, home: (nat, nat) -> nat) {
    forall p :: 0 <= p < |c| && c[p].Used? ==> home(c[p].key, |c|) < |c| && Reach(c, home(c[p].key, |c|), p)
  }

  ghost predicate Distinct<V>(c: seq<Cell<V>>) {
    forall p, q :: 0 <= p < |c| && 0 <= q < |c| && c[p].Used? && c[q].Used? && c[p].key == c[q].key ==> p == q
  }

  /** The table holds exactly the entries of `m`. */
  ghost predicate Holds<V>(c: seq<Cell<V>>, m: map<nat, V>) {
    && (forall p :: 0 <= p < |c| && c[p].Used? ==> c[p].key in m && m[c[p].key] == c[p].val)
    && (forall k :: k in m ==> exists p :: At(c, p, k))
  }

  ghost predicate HasFree<V>(c: seq<Cell<V>>) {
    exists e :: 0 <= e < |c| && c[e].Free?
  }

  /** The slots a search has passed without finding `k`. */
  ghost predicate Passed<V>(c: seq<Cell<V>>, k: nat, from: nat, i: nat) {
    forall q :: 0 <= q < |c| && OnPath(from, q, i) ==> !c[q].Free? && !At(c, q, k)
  }

  lemma PassOne<V>(c: seq<Cell<V>>, k: nat, from: nat, i: nat)
    requires from < |c| && i < |c| && Passed(c, k, from, i) && !c[i].Free? && !At(c, i, k) && Next(i, |c|) != from
    ensures Passed(c, k, from, Next(i, |c|))
  {
    forall q | 0 <= q < |c| && OnPath(from, q, Next(i, |c|)) ensures !c[q].Free? && !At(c, q, k) {
      assert q == i || OnPath(from, q, i);
    }
  }

  /** A search that meets a free slot has missed nothing. */
  lemma SearchExact<V>(c: seq<Cell<V>>, home: (nat, nat) -> nat, k: nat, i: nat)
    requires Probed(c, home) && home(k, |c|) < |c| && i < |c| && c[i].Free? && Passed(c, k, home(k, |c|), i)
    ensures forall p :: !At(c, p, k)
  {
    var from := home(k, |c|);
    forall p: nat ensures !At(c, p, k) {
      if p < |c| { PathsFrom(from, i, p); }
    }
  }

  /** Of two slots one is on the way to the other. */
  lemma PathsFrom(from: nat, i: nat, p: nat)
    ensures OnPath(from, i, p) || i == p || OnPath(from, p, i)
  {
  }

  /** An entry put in the first slot a search for it finds free. */
  lemma PutFree<V>(c: seq<Cell<V>>, home: (nat, nat) -> nat, m: map<nat, V>, k: nat, v: V, i: nat)
    requires Probed(c, home) && Distinct(c) && Holds(c, m) && home(k, |c|) < |c| && i < |c| && !c[i].Used?
    requires Reach(c, home(k, |c|), i) && (forall p :: !At(c, p, k))
    ensures var c' := c[i := Used(k, v)]; Probed(c', home) && Distinct(c') && Holds(c', m[k := v])
  {
    var c' := c[i := Used(k, v)];
    forall p | 0 <= p < |c'| && c'[p].Used? ensures Reach(c', home(c'[p].key, |c'|), p) {
      if p != i { assert Reach(c, home(c[p].key, |c|), p); }
    }
    var m' := m[k := v];
    forall x | x in m' ensures exists p :: At(c', p, x) {
      if x == k {
        assert At(c', i, k);
      } else {
        var p :| At(c, p, x);
        assert At(c', p, x);
      }
    }
  }

  lemma Overwrite<V>(c: seq<Cell<V>>, home: (nat, nat) -> nat, m: map<nat, V>, i: nat, v: V)
    requires Probed(c, home) && Distinct(c) && Holds(c, m) && i < |c| && c[i].Used?
    ensures var c' := c[i := Used(c[i].key, v)]; Probed(c', home) && Distinct(c') && Holds(c', m[c[i].key := v])
  {
    var c' := c[i := Used(c[i].key, v)];
    forall p | 0 <= p < |c'| && c'[p].Used? ensures Reach(c', home(c'[p].key, |c'|), p) {
      assert Reach(c, home(c[p].key, |c|), p);
    }
    var m' := m[c[i].key := v];
    forall x | x in m' ensures exists p :: At(c', p, x) {
      if x == c[i].key {
        assert At(c', i, x);
      } else {
        var p :| At(c, p, x);
        assert At(c', p, x);
      }
    }
  }

  // ---- counting ----

  function CountUsed<V>(c: seq<Cell<V>>): nat {
    if |c| == 0 then 0 else CountUsed(c[..|c| - 1]) + if c[|c| - 1].Used? then 1 else 0
  }

  function CountDead<V>(c: seq<Cell<V>>): nat {
    if |c| == 0 then 0 else CountDead(c[..|c| - 1]) + if c[|c| - 1].Dead? then 1 else 0
  }

  lemma {:induction false} CountChange<V>(c: seq<Cell<V>>, i: nat, x: Cell<V>)
    requires i < |c|
    ensures CountUsed(c[i := x]) == CountUsed(c) + (if x.Used? then 1 else 0) - (if c[i].Used? then 1 else 0)
    ensures CountDead(c[i := x]) == CountDead(c) + (if x.Dead? then 1 else 0) - (if c[i].Dead? then 1 else 0)
    decreases |c|
  {
    var n := |c| - 1;
    if i == n {
      assert c[i := x][..n] == c[..n];
    } else {
      CountChange(c[..n], i, x);
      assert c[i := x][..n] == c[..n][i := x];
    }
  }

  /** Room left over is a free slot, so every search ends. */
  lemma {:induction false} SomeFree<V>(c: seq<Cell<V>>)
    requires CountUsed(c) + CountDead(c) < |c|
    ensures HasFree(c)
    decreases |c|
  {
    var n := |c| - 1;
    if c[n].Free? {
    } else {
      SomeFree(c[..n]);
      var e :| 0 <= e < n && c[..n][e].Free?;
      assert c[e].Free?;
    }
  }

  lemma {:induction false} AllFree<V>(c: seq<Cell<V>>)
    requires forall p :: 0 <= p < |c| ==> c[p].Free?
    ensures CountUsed(c) == 0 && CountDead(c) == 0
    decreases |c|
  {
    if |c| > 0 { AllFree(c[..|c| - 1]); }
  }

  // ---- deletion by shifting back ----

  /** The slots in order, starting after the free slot `e`, which comes last: no search crosses
      it, so ways round the table become intervals. */
  function Rank(x: nat, e: nat, cap: nat): (r: nat)
    requires x < cap && e < cap
    ensures r < cap
  {
    if x > e then x - e - 1 else x + cap - e - 1
  }

  /** The table with its hole at `i`, all slots after it up to `j` looked at: only an entry
      beyond `j` can have the hole on its way. */
  ghost predicate Shifting<V>(c: seq<Cell<V>>, home: (nat, nat) -> nat, i: nat, j: nat, e: nat) {
    && i < |c| && j < |c| && e < |c| && i != e && j != e && c[i].Free? && c[e].Free?
    && Rank(i, e, |c|) <= Rank(j, e, |c|)
    && (forall q :: 0 <= q < |c| && Rank(i, e, |c|) < Rank(q, e, |c|) <= Rank(j, e, |c|) ==> c[q].Used?)
    && forall p :: 0 <= p < |c| && c[p].Used? ==> Lies(c, home, i, j, e, p)
  }

  ghost predicate Lies<V>(c: seq<Cell<V>>, home: (nat, nat) -> nat, i: nat, j: nat, e: nat, p: nat)
    requires i < |c| && j < |c| && e < |c| && p < |c| && c[p].Used?
  {
    var h := home(c[p].key, |c|);
    && h < |c| && h != e && Rank(h, e, |c|) <= Rank(p, e, |c|)
    && (forall q :: 0 <= q < |c| && q != i && Rank(h, e, |c|) <= Rank(q, e, |c|) < Rank(p, e, |c|) ==> !c[q].Free?)
    && (Rank(h, e, |c|) <= Rank(i, e, |c|) < Rank(p, e, |c|) ==> Rank(j, e, |c|) < Rank(p, e, |c|))
  }

  /** A way that does not cross `e` is an interval of ranks. */
  lemma PathIsInterval(h: nat, q: nat, p: nat, e: nat, cap: nat)
    requires h < cap && q < cap && p < cap && e < cap && p != e && !OnPath(h, e, p)
    ensures h != e && Rank(h, e, cap) <= Rank(p, e, cap)
    ensures OnPath(h, q, p) <==> Rank(h, e, cap) <= Rank(q, e, cap) < Rank(p, e, cap)
  {
  }

  lemma IntervalIsPath(h: nat, q: nat, p: nat, e: nat, cap: nat)
    requires h < cap && q < cap && p < cap && e < cap && p != e && h != e && Rank(h, e, cap) <= Rank(p, e, cap)
    ensures OnPath(h, q, p) <==> Rank(h, e, cap) <= Rank(q, e, cap) < Rank(p, e, cap)
  {
  }

  lemma RankNext(j: nat, e: nat, cap: nat)
    requires j < cap && e < cap && j != e
    ensures Next(j, cap) < cap && Rank(Next(j, cap), e, cap) == Rank(j, e, cap) + 1
  {
  }

  lemma RankInjective(x: nat, y: nat, e: nat, cap: nat)
    requires x < cap && y < cap && e < cap && Rank(x, e, cap) == Rank(y, e, cap)
    ensures x == y
  {
  }

  /** The code's test, in slot numbers, for an entry at `j` that may move to the hole at `i`. */
  predicate MayMove(i: nat, j: nat, h: nat) {
    if i <= j then h <= i || h > j else h <= i && h > j
  }

  lemma MayMoveIs(i: nat, j: nat, h: nat, e: nat, cap: nat)
    requires i < cap && j < cap && h < cap && e < cap && i != e && j != e && h != e
    requires Rank(i, e, cap) < Rank(j, e, cap) && Rank(h, e, cap) <= Rank(j, e, cap)
    ensures MayMove(i, j, h) <==> Rank(h, e, cap) <= Rank(i, e, cap)
  {
  }

  /** Taking an entry out leaves a hole that only entries after it can miss. */
  lemma Vacate<V>(c: seq<Cell<V>>, home: (nat, nat) -> nat, i: nat, e: nat)
    requires Probed(c, home) && i < |c| && c[i].Used? && e < |c| && c[e].Free? && forall p :: 0 <= p < |c| ==> !c[p].Dead?
    ensures Shifting(c[i := Free], home, i, i, e)
  {
    var c' := c[i := Free];
    forall p | 0 <= p < |c'| && c'[p].Used? ensures Lies(c', home, i, i, e, p) {
      var h := home(c[p].key, |c|);
      assert Reach(c, h, p);
      PathIsInterval(h, e, p, e, |c|);
      forall q | 0 <= q < |c'| && q != i && Rank(h, e, |c|) <= Rank(q, e, |c|) < Rank(p, e, |c|) ensures !c'[q].Free? {
        IntervalIsPath(h, q, p, e, |c|);
      }
    }
  }

  /** The next entry does not have the hole on its way: it stays. */
  lemma PassEntry<V>(c: seq<Cell<V>>, home: (nat, nat) -> nat, i: nat, j: nat, e: nat)
    requires Shifting(c, home, i, j, e) && c[Next(j, |c|)].Used? && !MayMove(i, Next(j, |c|), home(c[Next(j, |c|)].key, |c|))
    ensures Shifting(c, home, i, Next(j, |c|), e)
  {
    var j', cap := Next(j, |c|), |c|;
    RankNext(j, e, cap);
    assert Lies(c, home, i, j, e, j');
    MayMoveIs(i, j', home(c[j'].key, cap), e, cap);
    forall q | 0 <= q < cap && Rank(i, e, cap) < Rank(q, e, cap) <= Rank(j', e, cap) ensures c[q].Used? {
      if Rank(q, e, cap) == Rank(j', e, cap) { RankInjective(q, j', e, cap); }
    }
    forall p | 0 <= p < cap && c[p].Used? ensures Lies(c, home, i, j', e, p) {
      assert Lies(c, home, i, j, e, p);
      if Rank(p, e, cap) == Rank(j', e, cap) { RankInjective(p, j', e, cap); }
    }
  }

  /** The next entry has the hole on its way: it moves there, and leaves its slot as the hole. */
  lemma MoveEntry<V>(c: seq<Cell<V>>, home: (nat, nat) -> nat, i: nat, j: nat, e: nat)
    requires Shifting(c, home, i, j, e) && c[Next(j, |c|)].Used? && MayMove(i, Next(j, |c|), home(c[Next(j, |c|)].key, |c|))
    ensures var j' := Next(j, |c|); Shifting(c[i := c[j']][j' := Free], home, j', j', e)
  {
    var j', cap := Next(j, |c|), |c|;
    var c' := c[i := c[j']][j' := Free];
    hide Rank;
    RankNext(j, e, cap);
    assert Lies(c, home, i, j, e, j');
    MayMoveIs(i, j', home(c[j'].key, cap), e, cap);
    forall p | 0 <= p < cap && c'[p].Used? ensures Lies(c', home, j', j', e, p) {
      if p == i { MovedLies(c, home, i, j, e); } else { StaysLies(c, home, i, j, e, p); }
    }
  }

  lemma MovedLies<V>(c: seq<Cell<V>>, home: (nat, nat) -> nat, i: nat, j: nat, e: nat)
    requires Shifting(c, home, i, j, e) && c[Next(j, |c|)].Used? && Rank(home(c[Next(j, |c|)].key, |c|), e, |c|) <= Rank(i, e, |c|)
    requires Rank(i, e, |c|) < Rank(Next(j, |c|), e, |c|)
    ensures var j' := Next(j, |c|); Lies(c[i := c[j']][j' := Free], home, j', j', e, i)
  {
    hide Rank;
    assert Lies(c, home, i, j, e, Next(j, |c|));
  }

  lemma StaysLies<V>(c: seq<Cell<V>>, home: (nat, nat) -> nat, i: nat, j: nat, e: nat, p: nat)
    requires Shifting(c, home, i, j, e) && c[Next(j, |c|)].Used? && p < |c| && c[p].Used? && p != i && p != Next(j, |c|)
    requires Rank(i, e, |c|) < Rank(Next(j, |c|), e, |c|)
    ensures var j' := Next(j, |c|); Lies(c[i := c[j']][j' := Free], home, j', j', e, p)
  {
    hide Rank;
    assert Lies(c, home, i, j, e, p);
  }

  /** A free slot after the hole: no entry has the hole on its way any more. */
  lemma ShiftDone<V>(c: seq<Cell<V>>, home: (nat, nat) -> nat, i: nat, j: nat, e: nat)
    requires Shifting(c, home, i, j, e) && c[Next(j, |c|)].Free?
    ensures Probed(c, home)
  {
    var j', cap := Next(j, |c|), |c|;
    RankNext(j, e, cap);
    forall p | 0 <= p < cap && c[p].Used? ensures home(c[p].key, cap) < cap && Reach(c, home(c[p].key, cap), p) {
      assert Lies(c, home, i, j, e, p);
      var h := home(c[p].key, cap);
      forall q | 0 <= q < cap && OnPath(h, q, p) ensures !c[q].Free? {
        IntervalIsPath(h, q, p, e, cap);
        if q == i { Blocked(c, home, i, j, e, p); }
      }
    }
  }

  lemma Blocked<V>(c: seq<Cell<V>>, home: (nat, nat) -> nat, i: nat, j: nat, e: nat, p: nat)
    requires Shifting(c, home, i, j, e) && c[Next(j, |c|)].Free? && p < |c| && c[p].Used?
    ensures var h := home(c[p].key, |c|); h < |c| && !(Rank(h, e, |c|) <= Rank(i, e, |c|) < Rank(p, e, |c|))
  {
    var j', cap := Next(j, |c|), |c|;
    RankNext(j, e, cap);
    assert Lies(c, home, i, j, e, p);
    if Rank(p, e, cap) == Rank(j', e, cap) { RankInjective(p, j', e, cap); }
  }

  lemma TakeOut<V>(c: seq<Cell<V>>, m: map<nat, V>, i: nat)
    requires Distinct(c) && Holds(c, m) && i < |c| && c[i].Used?
    ensures Distinct(c[i := Free]) && Holds(c[i := Free], m - {c[i].key})
  {
    var c', m' := c[i := Free], m - {c[i].key};
    forall x | x in m' ensures exists p :: At(c', p, x) {
      var p :| At(c, p, x);
      assert At(c', p, x);
    }
  }

  lemma Moved<V>(c: seq<Cell<V>>, m: map<nat, V>, i: nat, j: nat)
    requires Distinct(c) && Holds(c, m) && i < |c| && j < |c| && c[i].Free? && c[j].Used?
    ensures var c' := c[i := c[j]][j := Free]; Distinct(c') && Holds(c', m) && CountUsed(c') == CountUsed(c)
    ensures var c' := c[i := c[j]][j := Free]; (forall p :: 0 <= p < |c| ==> !c[p].Dead?) ==> forall p :: 0 <= p < |c'| ==> !c'[p].Dead?
  {
    var c' := c[i := c[j]][j := Free];
    CountChange(c, i, c[j]);
    CountChange(c[i := c[j]], j, Free);
    forall x | x in m ensures exists p :: At(c', p, x) {
      var p :| At(c, p, x);
      assert At(c', if p == j then i else p, x);
    }
  }
}
