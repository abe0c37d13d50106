/** The router queue: a binary heap by priority, highest first, then by sequence number. */
module RouterHeap {
  datatype Entry = Entry(prio: int, seqno: nat, bh: nat)

  predicate Before(x: Entry, y: Entry) {
    if x.prio != y.prio then x.prio > y.prio else x.seqno < y.seqno
  }

  predicate Child(k: nat, p: nat) {
    k > 0 && (k - 1) / 2 == p
  }

  /** No entry comes before its parent. */
  ghost predicate Heaped(s: seq<Entry>) {
    forall k, p :: 0 <= p < k < |s| && Child(k, p) ==> !Before(s[k], s[p])
  }

  /** Nothing in the heap comes before its top. */
  lemma {:induction false} TopFirst(s: seq<Entry>, i: nat)
    requires Heaped(s) && i < |s|
    ensures !Before(s[i], s[0])
    decreases i
  {
    if i > 0 {
      var p := (i - 1) / 2;
      assert Child(i, p);
      TopFirst(s, p);
    }
  }

  /** A heap but for the hole at `i`, and what is under the hole may go under its parent. */
  ghost predicate Hole(s: seq<Entry>, i: nat) {
    && i < |s|
    && (forall k, p :: 0 <= p < k < |s| && Child(k, p) && k != i && p != i ==> !Before(s[k], s[p]))
    && (forall k, p :: 0 <= p < i < k < |s| && Child(k, i) && Child(i, p) ==> !Before(s[k], s[p]))
  }

  /** `x` may go no lower than the hole. */
  ghost predicate AboveChildren(s: seq<Entry>, i: nat, x: Entry) {
    forall k :: 0 <= k < |s| && Child(k, i) ==> !Before(s[k], x)
  }

  /** `x` need go no higher than the hole. */
  ghost predicate BelowParent(s: seq<Entry>, i: nat, x: Entry) {
    forall p :: 0 <= p < |s| && Child(i, p) ==> !Before(x, s[p])
  }

  lemma Place(s: seq<Entry>, i: nat, x: Entry)
    requires Hole(s, i) && AboveChildren(s, i, x) && BelowParent(s, i, x)
    ensures Heaped(s[i := x])
  {
  }

  lemma MoveUp(s: seq<Entry>, i: nat, p: nat, x: Entry)
    requires Hole(s, i) && AboveChildren(s, i, x) && p < |s| && Child(i, p) && Before(x, s[p])
    ensures Hole(s[i := s[p]], p) && AboveChildren(s[i := s[p]], p, x)
  {
    var t := s[i := s[p]];
    forall k, q | 0 <= q < p < k < |t| && Child(k, p) && Child(p, q) ensures !Before(t[k], t[q]) {
      assert !Before(s[p], s[q]);
      if k != i { assert !Before(s[k], s[p]); }
    }
    forall k | 0 <= k < |t| && Child(k, p) ensures !Before(t[k], x) {
      if k != i { assert !Before(s[k], s[p]); }
    }
  }

  lemma MoveDown(s: seq<Entry>, i: nat, c: nat, x: Entry)
    requires Hole(s, i) && BelowParent(s, i, x) && c < |s| && Child(c, i) && Before(s[c], x) && AboveChildren(s, i, s[c])
    ensures Hole(s[i := s[c]], c) && BelowParent(s[i := s[c]], c, x)
  {
    var t := s[i := s[c]];
    forall k, p | 0 <= p < k < |t| && Child(k, p) && k != c && p != c ensures !Before(t[k], t[p]) {
      if k == i { assert Child(i, p) && !Before(s[c], s[p]); }
    }
    forall k, p | 0 <= p < c < k < |t| && Child(k, c) && Child(c, p) ensures !Before(t[k], t[p]) {
      assert p == i && !Before(s[k], s[c]);
    }
  }

  /** The entries of `s` are those of `m`. */
  ghost predicate Bag(s: seq<Entry>, m: multiset<Entry>) {
    multiset(s) == m
  }

  lemma Swapped(s: seq<Entry>, i: nat, p: nat, x: Entry, m: multiset<Entry>)
    requires i < |s| && p < |s| && i != p && Bag(s[i := x], m)
    ensures Bag(s[i := s[p]][p := x], m)
  {
    var t := s[i := x];
    assert s[i := s[p]][p := x] == t[i := t[p]][p := t[i]];
  }

  class Heap {
    var a: array<Entry>
    var n: nat

    ghost var contents: multiset<Entry>

    ghost predicate Valid()
      reads this, a
    {
      n <= a.Length && Heaped(a[..n]) && Bag(a[..n], contents)
    }

    constructor ()
      ensures Valid() && fresh(a) && contents == multiset{}
    {
      a := new Entry[0];
      n := 0;
      contents := multiset{};
    }

    lemma Nonempty()
      requires Valid()
      ensures |contents| == n
    {
    }

    method Grow()
      requires Valid()
      modifies this
      ensures Valid() && n == old(n) && contents == old(contents) && n < a.Length && fresh(a)
    {
      var b := new Entry[if a.Length == 0 then 64 else a.Length * 2](_ => Entry(0, 0, 0));
      for i := 0 to n
        invariant Valid() && a == old(a) && n == old(n) && contents == old(contents) && fresh(b) && b.Length > n
        invariant b[..i] == a[..i]
      {
        b[i] := a[i];
      }
      assert b[..n] == a[..n];
      a := b;
    }

    /** heap_push. */
    method Push(x: Entry, memory: bool) returns (ok: bool)
      requires Valid()
      modifies this, a
      ensures Valid() && (a == old(a) || fresh(a))
      ensures ok ==> contents == old(contents) + multiset{x}
      ensures !ok ==> !memory && contents == old(contents)
    {
      hide Heaped, Hole, AboveChildren, Bag;
      if n == a.Length {
        if !memory { return false; }
        Grow();
      }
      ghost var s := a[..n];
      n := n + 1;
      AtEnd(s, a[..n], x, contents);
      contents := contents + multiset{x};
      SiftUp(n - 1, x, contents);
      return true;
    }

    method SiftUp(hole: nat, x: Entry, ghost m: multiset<Entry>)
      requires hole < n <= a.Length && Hole(a[..n], hole) && AboveChildren(a[..n], hole, x) && Bag(a[..n][hole := x], m)
      modifies a
      ensures Heaped(a[..n]) && Bag(a[..n], m)
    {
      hide Heaped, Hole, AboveChildren, BelowParent, Child, Before, Bag;
      var i: nat := hole;
      while i > 0
        invariant i < n && Hole(a[..n], i) && AboveChildren(a[..n], i, x) && Bag(a[..n][i := x], m)
      {
        var p := (i - 1) / 2;
        if !Before(x, a[p]) { break; }
        ghost var t := a[..n];
        IsParent(i, p);
        Swapped(t, i, p, x, m);
        MoveUp(t, i, p, x);
        a[i] := a[p];
        assert a[..n] == t[i := t[p]];
        i := p;
      }
      OnlyParent(a[..n], i, x);
      Settle(i, x, m);
    }

    /** heap_pop: takes out an entry of the highest priority there is, and of those the oldest. */
    method Pop() returns (top: Entry)
      requires Valid() && n > 0
      modifies this`n, this`contents, a
      ensures Valid() && a == old(a) && n == old(n) - 1
      ensures top in old(contents) && contents == old(contents) - multiset{top}
      ensures forall x :: x in old(contents) ==> !Before(x, top)
      ensures forall x :: x in old(contents) ==> x.prio <= top.prio && (x.prio == top.prio ==> top.seqno <= x.seqno)
    {
      hide Heaped, Hole, BelowParent, Before;
      ghost var s := a[..n];
      AllAfterTop(s);
      top := a[0];
      contents := contents - multiset{top};
      n := n - 1;
      var last := a[n];
      assert s == a[..n] + [last];
      if n == 0 {
        NoneLeft(a[..n], s);
        return;
      }
      Replaced(s);
      HoleAtTop(a[..n], s, last);
      SiftDown(last, contents);
    }

    method SiftDown(last: Entry, ghost m: multiset<Entry>)
      requires 0 < n <= a.Length && Hole(a[..n], 0) && BelowParent(a[..n], 0, last) && Bag(a[..n][0 := last], m)
      modifies a
      ensures Heaped(a[..n]) && Bag(a[..n], m)
    {
      hide Heaped, Hole, AboveChildren, BelowParent, Child, Before, Bag;
      var i: nat := 0;
      while 2 * i + 1 < n
        invariant i < n && Hole(a[..n], i) && BelowParent(a[..n], i, last) && Bag(a[..n][i := last], m)
        decreases n - i
      {
        var c := FirstChild(i);
        ghost var t := a[..n];
        if !Before(a[c], last) {
          NotBefore(t, i, c, last);
          Settle(i, last, m);
          return;
        }
        Swapped(t, i, c, last, m);
        MoveDown(t, i, c, last);
        a[i] := a[c];
        assert a[..n] == t[i := t[c]];
        i := c;
      }
      Childless(a[..n], i, last);
      Settle(i, last, m);
    }

    /** The child that comes first. */
    method FirstChild(i: nat) returns (c: nat)
      requires 2 * i + 1 < n <= a.Length
      ensures i < c < n && Child(c, i) && AboveChildren(a[..n], i, a[c])
    {
      var l, r := 2 * i + 1, 2 * i + 2;
      c := if r < n && Before(a[r], a[l]) then r else l;
    }

    method Settle(i: nat, x: Entry, ghost m: multiset<Entry>)
      requires i < n <= a.Length && Hole(a[..n], i) && BelowParent(a[..n], i, x) && AboveChildren(a[..n], i, x) && Bag(a[..n][i := x], m)
      modifies a
      ensures Heaped(a[..n]) && Bag(a[..n], m)
    {
      ghost var t := a[..n];
      Place(t, i, x);
      a[i] := x;
      assert a[..n] == t[i := x];
    }
  }

  lemma AllAfterTop(s: seq<Entry>)
    requires Heaped(s) && |s| > 0
    ensures forall x :: x in multiset(s) ==> !Before(x, s[0])
    ensures forall x :: x in multiset(s) ==> x.prio <= s[0].prio && (x.prio == s[0].prio ==> s[0].seqno <= x.seqno)
  {
    forall x | x in multiset(s) ensures !Before(x, s[0]) {
      var i :| 0 <= i < |s| && s[i] == x;
      TopFirst(s, i);
    }
  }

  lemma NoneLeft(t: seq<Entry>, s: seq<Entry>)
    requires |s| == 1 && t == []
    ensures Heaped(t) && multiset(t) == multiset(s) - multiset{s[0]}
  {
    assert s == [s[0]];
  }

  lemma IsParent(i: nat, p: nat)
    requires i > 0 && p == (i - 1) / 2
    ensures Child(i, p)
  {
  }

  lemma OnlyParent(s: seq<Entry>, i: nat, x: Entry)
    requires i < |s| && (i > 0 ==> !Before(x, s[(i - 1) / 2]))
    ensures BelowParent(s, i, x)
  {
  }

  lemma Childless(s: seq<Entry>, i: nat, x: Entry)
    requires 2 * i + 1 >= |s|
    ensures AboveChildren(s, i, x)
  {
  }

  lemma NotBefore(s: seq<Entry>, i: nat, c: nat, x: Entry)
    requires c < |s| && AboveChildren(s, i, s[c]) && !Before(s[c], x)
    ensures AboveChildren(s, i, x)
  {
    forall k | 0 <= k < |s| && Child(k, i) ensures !Before(s[k], x) { assert !Before(s[k], s[c]); }
  }

  /** Room at the end for one more. */
  lemma AtEnd(s: seq<Entry>, t: seq<Entry>, x: Entry, m: multiset<Entry>)
    requires |t| == |s| + 1 && t[..|s|] == s && Heaped(s) && Bag(s, m)
    ensures Hole(t, |s|) && AboveChildren(t, |s|, x) && Bag(t[|s| := x], m + multiset{x})
  {
    hide Heaped, Hole, AboveChildren;
    HoleAtEnd(t, |s|, x);
    assert t[|s| := x] == s + [x];
  }

  lemma HoleAtEnd(s: seq<Entry>, i: nat, x: Entry)
    requires |s| == i + 1 && Heaped(s[..i])
    ensures Hole(s, i) && AboveChildren(s, i, x)
  {
    forall k, p | 0 <= p < k < |s| && Child(k, p) && k != i && p != i ensures !Before(s[k], s[p]) {
      assert s[..i][k] == s[k] && s[..i][p] == s[p];
    }
  }

  lemma HoleAtTop(t: seq<Entry>, s: seq<Entry>, x: Entry)
    requires Heaped(s) && |t| == |s| - 1 > 0 && t == s[..|t|]
    ensures Hole(t, 0) && BelowParent(t, 0, x)
  {
    forall k, p | 0 <= p < k < |t| && Child(k, p) ensures !Before(t[k], t[p]) {
      assert t[k] == s[k] && t[p] == s[p];
    }
  }

  lemma Replaced(s: seq<Entry>)
    requires |s| > 1
    ensures multiset(s[..|s| - 1][0 := s[|s| - 1]]) == multiset(s) - multiset{s[0]}
  {
    var n := |s| - 1;
    var mid := s[1..n];
    assert s == [s[0]] + mid + [s[n]];
    assert s[..n][0 := s[n]] == [s[n]] + mid;
  }
}
