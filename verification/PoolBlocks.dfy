/** The static pool as a row of blocks: what first fit, splitting and merging do to it. */
module PoolBlocks {
  const LEN: nat := 256 * 1024
  const ALIGN: nat := 16
  const HDR: nat := 16

  /** A header at `start`, `size` bytes of payload after it. */
  datatype Block = Block(start: nat, size: nat, free: bool)

  function End(b: Block): nat {
    b.start + HDR + b.size
  }

  predicate Aligned(n: nat) {
    n % ALIGN == 0
  }

  /** The blocks fill the pool from `from` to its end, one after the other. */
  ghost predicate Tiles(bs: seq<Block>, from: nat)
    decreases |bs|
  {
    if |bs| == 0 then from == LEN
    else bs[0].start == from && bs[0].size >= ALIGN && Aligned(bs[0].size) && Aligned(from) && Tiles(bs[1..], End(bs[0]))
  }

  /** No two neighbours are both free. */
  ghost predicate Merged(bs: seq<Block>) {
    forall i :: 0 <= i && i + 1 < |bs| ==> !(bs[i].free && Follows(bs, i).free)
  }

  function Follows(bs: seq<Block>, i: nat): Block
    requires i + 1 < |bs|
  {
    bs[i + 1]
  }

  ghost predicate PoolOk(bs: seq<Block>) {
    |bs| > 0 && Tiles(bs, 0) && Merged(bs)
  }

  // ---- tiling ----

  lemma {:induction false} TileAt(bs: seq<Block>, from: nat, i: nat)
    requires Tiles(bs, from) && i < |bs|
    ensures from <= bs[i].start && End(bs[i]) <= LEN && bs[i].size >= ALIGN && Aligned(bs[i].size) && Aligned(bs[i].start)
    ensures i + 1 < |bs| ==> bs[i + 1].start == End(bs[i])
    ensures i + 1 == |bs| ==> End(bs[i]) == LEN
    decreases |bs|
  {
    if i > 0 {
      TileAt(bs[1..], End(bs[0]), i - 1);
      assert bs[1..][i - 1] == bs[i];
    } else if |bs| > 1 {
      assert bs[1..][0] == bs[1];
      TileAt(bs[1..], End(bs[0]), 0);
    } else {
      assert bs[1..] == [];
    }
    if i > 0 && i + 1 < |bs| { assert bs[1..][i] == bs[i + 1]; }
  }

  /** Blocks do not overlap. */
  lemma {:induction false} Apart(bs: seq<Block>, from: nat, i: nat, j: nat)
    requires Tiles(bs, from) && i < j < |bs|
    ensures End(bs[i]) <= bs[j].start
    decreases i
  {
    if i == 0 {
      TileAt(bs[1..], End(bs[0]), j - 1);
    } else {
      Apart(bs[1..], End(bs[0]), i - 1, j - 1);
    }
  }

  /** The middle of a tiling may be tiled otherwise. */
  lemma {:induction false} Retile(a: seq<Block>, b: seq<Block>, b': seq<Block>, c: seq<Block>, from: nat)
    requires Tiles(a + b + c, from) && |b| > 0
    requires forall f :: Tiles(b + c, f) ==> Tiles(b' + c, f)
    ensures Tiles(a + b' + c, from)
    decreases |a|
  {
    if |a| == 0 {
      assert a + b + c == b + c && a + b' + c == b' + c;
    } else {
      assert (a + b + c)[1..] == a[1..] + b + c && (a + b' + c)[1..] == a[1..] + b' + c;
      Retile(a[1..], b, b', c, End(a[0]));
    }
  }

  // ---- first fit ----

  /** The first free block of at least `want` bytes, or |bs|. */
  function FirstFit(bs: seq<Block>, want: nat): (i: nat)
    ensures i <= |bs| && (i < |bs| ==> bs[i].free && bs[i].size >= want)
    ensures forall k :: 0 <= k < i ==> !(bs[k].free && bs[k].size >= want)
  {
    if |bs| == 0 || (bs[0].free && bs[0].size >= want) then 0 else 1 + FirstFit(bs[1..], want)
  }

  predicate Splits(b: Block, want: nat) {
    b.size >= want + HDR + ALIGN
  }

  /** The block taken, and what is left of it split off if it is worth a block. */
  function Taken(b: Block, want: nat): seq<Block> {
    if Splits(b, want) then [b.(size := want, free := false), Block(b.start + HDR + want, b.size - want - HDR, true)]
    else [b.(free := false)]
  }

  function Allocate(bs: seq<Block>, i: nat, want: nat): seq<Block>
    requires i < |bs|
  {
    bs[..i] + Taken(bs[i], want) + bs[i + 1..]
  }

  /** The block taken begins where the free one did and is too large by less than 32 bytes; what is split
      off of it, if anything, is the rest. */
  lemma TakenTight(b: Block, want: nat)
    requires b.free && b.size >= want
    ensures var t := Taken(b, want);
            && (|t| == 1 || |t| == 2) && t[0].start == b.start && !t[0].free && want <= t[0].size < want + 32 && End(t[|t| - 1]) == End(b)
            && (|t| == 2 ==> t[0].size == want && t[1].free && t[1].start == End(t[0]) && t[1].size >= 16)
  {
  }

  lemma AllocateOk(bs: seq<Block>, i: nat, want: nat)
    requires PoolOk(bs) && i < |bs| && bs[i].free && bs[i].size >= want >= ALIGN && Aligned(want)
    ensures PoolOk(Allocate(bs, i, want))
  {
    TileAt(bs, 0, i);
    var a, b, c := bs[..i], bs[i], bs[i + 1..];
    assert bs == a + [b] + c;
    forall f | Tiles([b] + c, f) ensures Tiles(Taken(b, want) + c, f) { TakenTiles(b, want, c, f); }
    Retile(a, [b], Taken(b, want), c, 0);
    TakenMerged(bs, i, want);
  }

  lemma TakenTiles(b: Block, want: nat, c: seq<Block>, f: nat)
    requires Tiles([b] + c, f) && b.size >= want >= ALIGN && Aligned(want) && Aligned(b.size)
    ensures Tiles(Taken(b, want) + c, f)
  {
    assert ([b] + c)[1..] == c;
    var t := Taken(b, want);
    if Splits(b, want) {
      assert (t + c)[1..] == [t[1]] + c && ([t[1]] + c)[1..] == c;
    } else {
      assert (t + c)[1..] == c;
    }
  }

  lemma TakenMerged(bs: seq<Block>, i: nat, want: nat)
    requires Merged(bs) && i < |bs| && bs[i].free
    ensures Merged(Allocate(bs, i, want))
  {
    var r, n := Allocate(bs, i, want), |Taken(bs[i], want)|;
    forall k | 0 <= k && k + 1 < |r| ensures !(r[k].free && Follows(r, k).free) {
      if k + 1 < i {
        assert !(bs[k].free && Follows(bs, k).free);
      } else if k >= i + n {
        assert !(bs[k - n + 1].free && Follows(bs, k - n + 1).free);
      } else if k == i + n - 1 && i + 1 < |bs| {
        assert !(bs[i].free && Follows(bs, i).free);
      }
    }
  }

  // ---- freeing ----

  function Join(a: Block, b: Block): Block {
    a.(size := a.size + HDR + b.size)
  }

  /** coalesce, from the left: a free block takes in every free block after it. */
  function Coalesce(bs: seq<Block>): seq<Block>
    decreases |bs|
  {
    if |bs| < 2 then bs
    else if bs[0].free && bs[1].free then Coalesce([Join(bs[0], bs[1])] + bs[2..])
    else [bs[0]] + Coalesce(bs[1..])
  }

  lemma {:induction false} CoalesceTiles(bs: seq<Block>, from: nat)
    requires Tiles(bs, from)
    ensures Tiles(Coalesce(bs), from)
    decreases |bs|
  {
    if |bs| >= 2 {
      if bs[0].free && bs[1].free {
        var js := [Join(bs[0], bs[1])] + bs[2..];
        assert js[1..] == bs[2..] && bs[1..][1..] == bs[2..] && bs[1..][0] == bs[1];
        CoalesceTiles(js, from);
      } else {
        CoalesceTiles(bs[1..], End(bs[0]));
        assert ([bs[0]] + Coalesce(bs[1..]))[1..] == Coalesce(bs[1..]);
      }
    }
  }

  lemma {:induction false} CoalesceMerges(bs: seq<Block>)
    ensures Merged(Coalesce(bs)) && (|bs| > 0 ==> |Coalesce(bs)| > 0 && Coalesce(bs)[0].free == bs[0].free)
    decreases |bs|
  {
    if |bs| >= 2 {
      if bs[0].free && bs[1].free {
        CoalesceMerges([Join(bs[0], bs[1])] + bs[2..]);
      } else {
        CoalesceMerges(bs[1..]);
        var c := Coalesce(bs[1..]);
        var r := [bs[0]] + c;
        forall k | 0 <= k && k + 1 < |r| ensures !(r[k].free && Follows(r, k).free) {
          if k > 0 { assert !(c[k - 1].free && Follows(c, k - 1).free); }
        }
      }
    }
  }

  ghost predicate SameLive(bs: seq<Block>, bs': seq<Block>) {
    forall b: Block :: !b.free ==> (b in bs <==> b in bs')
  }

  /** Merging changes nothing of a block in use. */
  lemma {:induction false} CoalesceKeeps(bs: seq<Block>)
    ensures SameLive(bs, Coalesce(bs))
    decreases |bs|
  {
    if |bs| >= 2 {
      if bs[0].free && bs[1].free {
        var js := [Join(bs[0], bs[1])] + bs[2..];
        CoalesceKeeps(js);
        assert bs == [bs[0], bs[1]] + bs[2..];
      } else {
        CoalesceKeeps(bs[1..]);
        assert bs == [bs[0]] + bs[1..];
      }
    }
  }

  function Release(bs: seq<Block>, i: nat): seq<Block>
    requires i < |bs|
  {
    Coalesce(bs[i := bs[i].(free := true)])
  }

  lemma {:induction false} FreedTiles(bs: seq<Block>, from: nat, i: nat)
    requires Tiles(bs, from) && i < |bs|
    ensures Tiles(bs[i := bs[i].(free := true)], from)
    decreases i
  {
    var bs' := bs[i := bs[i].(free := true)];
    if i == 0 {
      assert bs'[1..] == bs[1..];
    } else {
      FreedTiles(bs[1..], End(bs[0]), i - 1);
      assert bs'[1..] == bs[1..][i - 1 := bs[i].(free := true)];
    }
  }

  lemma ReleaseOk(bs: seq<Block>, i: nat)
    requires PoolOk(bs) && i < |bs|
    ensures PoolOk(Release(bs, i))
    ensures SameLive(bs[i := bs[i].(free := true)], Release(bs, i))
  {
    FreedTiles(bs, 0, i);
    CoalesceTiles(bs[i := bs[i].(free := true)], 0);
    CoalesceMerges(bs[i := bs[i].(free := true)]);
    CoalesceKeeps(bs[i := bs[i].(free := true)]);
  }

  /** With nothing in use the pool is one free block of full size, as it was at first. */
  lemma AllFreeIsOneBlock(bs: seq<Block>)
    requires PoolOk(bs) && forall i :: 0 <= i < |bs| ==> bs[i].free
    ensures bs == [Block(0, LEN - HDR, true)]
  {
    FirstPair(bs);
    TileAt(bs, 0, 0);
  }

  lemma FirstPair(bs: seq<Block>)
    requires Merged(bs)
    ensures |bs| > 1 ==> !(bs[0].free && bs[1].free)
  {
    if |bs| > 1 { assert bs[1] == Follows(bs, 0); }
  }

  lemma InitialOk()
    ensures PoolOk([Block(0, LEN - HDR, true)])
  {
    var bs := [Block(0, LEN - HDR, true)];
    assert bs[1..] == [];
  }

  /** Live payloads are disjoint and inside the pool. */
  lemma LiveApart(bs: seq<Block>, i: nat, j: nat)
    requires PoolOk(bs) && i < |bs| && j < |bs| && i != j
    ensures End(bs[i]) <= bs[j].start || End(bs[j]) <= bs[i].start
    ensures End(bs[i]) <= LEN
  {
    TileAt(bs, 0, i);
    if i < j { Apart(bs, 0, i, j); } else { Apart(bs, 0, j, i); }
  }
}
