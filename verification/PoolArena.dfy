/** The static-pool allocator itself: block headers and payloads in one arena of bytes, split,
    marked and merged in place. */
module PoolArena {
  import opened LittleEndian
  import opened PoolBlocks

  // ---- a header's bytes ----

  function SizeAt(m: seq<Byte>, a: nat): nat
    requires a + 12 <= |m|
  {
    Get(m[a..a + 8])
  }

  function FreeAt(m: seq<Byte>, a: nat): bool
    requires a + 12 <= |m|
  {
    Get(m[a + 8..a + 12]) != 0
  }

  ghost predicate HeaderIs(m: seq<Byte>, b: Block) {
    b.start + HDR <= |m| && SizeAt(m, b.start) == b.size && FreeAt(m, b.start) == b.free
  }

  ghost predicate Headers(m: seq<Byte>, bs: seq<Block>) {
    forall i :: 0 <= i < |bs| ==> HeaderIs(m, bs[i])
  }

  /** Nothing outside [lo, hi) has changed. */
  ghost predicate SameOutside(m: seq<Byte>, m': seq<Byte>, lo: nat, hi: nat) {
    |m'| == |m| && forall k :: 0 <= k < |m| && !(lo <= k < hi) ==> m'[k] == m[k]
  }

  lemma HeaderKept(m: seq<Byte>, m': seq<Byte>, lo: nat, hi: nat, b: Block)
    requires SameOutside(m, m', lo, hi) && HeaderIs(m, b) && (b.start + HDR <= lo || hi <= b.start)
    ensures HeaderIs(m', b)
  {
    assert m'[b.start..b.start + 8] == m[b.start..b.start + 8];
    assert m'[b.start + 8..b.start + 12] == m[b.start + 8..b.start + 12];
  }

  function Payload(m: seq<Byte>, b: Block): seq<Byte>
    requires End(b) <= |m|
  {
    m[b.start + HDR..End(b)]
  }

  /** Every block in use has the payload it had. */
  ghost predicate LiveKept(bs: seq<Block>, m: seq<Byte>, m': seq<Byte>) {
    |m| == |m'| == LEN && forall b :: b in bs && !b.free ==> End(b) <= LEN && Payload(m', b) == Payload(m, b)
  }

  /** A change inside one block touches no other block's header or payload. */
  lemma Elsewhere(bs: seq<Block>, i: nat, j: nat, m: seq<Byte>, m': seq<Byte>, lo: nat, hi: nat)
    requires Tiles(bs, 0) && i < |bs| && j < |bs| && i != j && |m| == LEN
    requires bs[i].start <= lo && hi <= End(bs[i]) && SameOutside(m, m', lo, hi) && HeaderIs(m, bs[j])
    ensures HeaderIs(m', bs[j]) && End(bs[j]) <= LEN && Payload(m', bs[j]) == Payload(m, bs[j])
  {
    TileAt(bs, 0, j);
    if i < j { PoolBlocks.Apart(bs, 0, i, j); } else { PoolBlocks.Apart(bs, 0, j, i); }
    HeaderKept(m, m', lo, hi, bs[j]);
  }

  /** ... so if that block is free, every block in use keeps its payload. */
  lemma FreeChange(bs: seq<Block>, i: nat, m: seq<Byte>, m': seq<Byte>, lo: nat, hi: nat)
    requires Tiles(bs, 0) && i < |bs| && bs[i].free && |m| == LEN && Headers(m, bs)
    requires bs[i].start <= lo && hi <= End(bs[i]) && SameOutside(m, m', lo, hi)
    ensures LiveKept(bs, m, m')
  {
    forall b | b in bs && !b.free ensures End(b) <= LEN && Payload(m', b) == Payload(m, b) {
      var j :| 0 <= j < |bs| && bs[j] == b;
      Elsewhere(bs, i, j, m, m', lo, hi);
    }
  }

  lemma SameOutsideTwice(a: seq<Byte>, b: seq<Byte>, c: seq<Byte>, lo: nat, hi: nat)
    requires SameOutside(a, b, lo, hi) && SameOutside(b, c, lo, hi)
    ensures SameOutside(a, c, lo, hi)
  {
  }

  lemma SameWider(a: seq<Byte>, b: seq<Byte>, lo: nat, hi: nat, lo': nat, hi': nat)
    requires SameOutside(a, b, lo, hi) && lo' <= lo && hi <= hi'
    ensures SameOutside(a, b, lo', hi')
  {
  }

  lemma KeptTwice(bs: seq<Block>, a: seq<Byte>, b: seq<Byte>, c: seq<Byte>)
    requires LiveKept(bs, a, b) && LiveKept(bs, b, c)
    ensures LiveKept(bs, a, c)
  {
  }

  lemma KeptThrough(bs: seq<Block>, now: seq<Block>, a: seq<Byte>, b: seq<Byte>, c: seq<Byte>)
    requires LiveKept(bs, a, b) && SameLive(bs, now) && LiveKept(now, b, c)
    ensures LiveKept(bs, a, c)
  {
  }

  /** `q` is the payload of a block in use, of at least `want` bytes, that starts with `data`. */
  ghost predicate InUse(bs: seq<Block>, m: seq<Byte>, q: nat, want: nat, data: seq<Byte>) {
    exists b :: b in bs && !b.free && q == b.start + HDR && b.size >= want && |data| <= b.size && End(b) <= |m| && data <= Payload(m, b)
  }

  /** The blocks with the one at `i` no longer in use. */
  function Without(bs: seq<Block>, i: nat): seq<Block>
    requires i < |bs|
  {
    bs[i := bs[i].(free := true)]
  }

  /** The block at `i` has gone, and the first that will do for `w` has been taken in its place. */
  ghost predicate Moved(bs: seq<Block>, bs': seq<Block>, i: nat, w: nat)
    requires i < |bs|
  {
    var f := FirstFit(bs, w);
    f < |bs| && var r := Allocate(bs, f, w); exists k :: 0 <= k < |r| && r[k] == bs[i] && bs' == Release(r, k)
  }

  // ---- the size asked for ----

  const SIZE_T: nat := 0x1_0000_0000_0000_0000
  const UINT: nat := 0x1_0000_0000

  /** The largest request whose size pool_malloc gets right. */
  const MAX_ASK: nat := 0xFFFF_FFF0

  /** The least size pool_malloc ought to look for. */
  function RoundUp(n: nat): (w: nat)
    ensures w >= n && w >= ALIGN && Aligned(w)
  {
    var w := (n + ALIGN - 1) / ALIGN * ALIGN;
    if w == 0 then ALIGN else w
  }

  /** It is the least multiple of 16 that is not 0 and will do. */
  lemma RoundUpLeast(n: nat, w: nat)
    requires w % 16 == 0 && w > 0 && w >= n
    ensures RoundUp(n) % 16 == 0 && 0 < RoundUp(n) <= w && RoundUp(n) >= n
  {
    assert (n + 15) / 16 <= (w + 15) / 16;
  }

  /** The size it does look for: the sum wraps as a size_t does, and its mask, made of an unsigned int,
      keeps the low 32 bits only. */
  function Asked(n: nat): (w: nat)
    ensures ALIGN <= w < UINT && Aligned(w)
  {
    var w := (n + ALIGN - 1) % SIZE_T % UINT / ALIGN * ALIGN;
    if w == 0 then ALIGN else w
  }

  /** It is large enough exactly up to MAX_ASK, and then it is what it ought to be. */
  lemma AskedIs(n: nat)
    requires n < SIZE_T
    ensures Asked(n) >= n <==> n <= MAX_ASK
    ensures n <= MAX_ASK ==> Asked(n) == RoundUp(n)
  {
  }

  /** Up to there the search fails exactly if no free block would do. */
  lemma FitsIff(bs: seq<Block>, want: nat)
    requires Tiles(bs, 0) && want <= MAX_ASK
    ensures FirstFit(bs, Asked(want)) == |bs| <==> forall b :: b in bs && b.free ==> b.size < want
  {
    hide Asked, RoundUp, FirstFit;
    AskedIs(want);
    forall k | 0 <= k < |bs| ensures bs[k].size >= RoundUp(want) <==> bs[k].size >= want {
      TileAt(bs, 0, k);
      RoundedFits(bs[k].size, want);
    }
    var i := FirstFit(bs, Asked(want));
    FirstIs(bs, Asked(want));
    if i < |bs| { assert bs[i] in bs; }
  }

  lemma FirstIs(bs: seq<Block>, w: nat)
    ensures var i := FirstFit(bs, w); i <= |bs| && (i < |bs| ==> bs[i].free && bs[i].size >= w)
    ensures forall k :: 0 <= k < FirstFit(bs, w) ==> !(bs[k].free && bs[k].size >= w)
  {
  }

  lemma RoundedFits(size: nat, want: nat)
    requires size >= ALIGN && Aligned(size)
    ensures size >= RoundUp(want) <==> size >= want
  {
  }

  /** No block of the pool holds more than that. */
  lemma InUseBound(bs: seq<Block>, m: seq<Byte>, q: nat, want: nat, data: seq<Byte>)
    requires |m| == LEN && InUse(bs, m, q, want, data)
    ensures want <= MAX_ASK
  {
  }

  /** The copy of pool_realloc leaves the block it copies to. */
  predicate Overruns(bs: seq<Block>, i: nat, want: nat)
    requires i < |bs|
  {
    var w := Asked(want);
    var f := FirstFit(bs, w);
    bs[i].size < want && f < |bs| && Taken(bs[f], w)[0].size < bs[i].size
  }

  /** It never does up to MAX_ASK; and when it does it covers the whole header that follows, or leaves
      the pool. */
  lemma OverrunsWhere(bs: seq<Block>, i: nat, want: nat)
    requires Tiles(bs, 0) && i < |bs| && want < SIZE_T && Overruns(bs, i, want)
    ensures want > MAX_ASK
    ensures var f := FirstFit(bs, Asked(want)); End(Taken(bs[f], Asked(want))[0]) + HDR <= bs[f].start + HDR + bs[i].size
  {
    hide FirstFit, Asked;
    AskedIs(want);
    var w := Asked(want);
    var f := FirstFit(bs, w);
    FirstIs(bs, w);
    TileAt(bs, 0, i);
    TileAt(bs, 0, f);
    Wider(Taken(bs[f], w)[0].size, bs[i].size);
  }

  lemma Wider(a: nat, b: nat)
    requires Aligned(a) && Aligned(b) && a < b
    ensures a + ALIGN <= b
  {
  }

  /** Every block in use that lies outside [lo, hi) has the payload it had. */
  ghost predicate KeptOutside(bs: seq<Block>, m: seq<Byte>, m': seq<Byte>, lo: nat, hi: nat) {
    |m| == |m'| == LEN && forall b :: b in bs && !b.free && (End(b) <= lo || hi <= b.start) ==> End(b) <= LEN && Payload(m', b) == Payload(m, b)
  }

  /** What the copy leaves if it overruns: the first that will do has been taken, the old block's bytes
      lie from its payload on as far as they go in the pool, and nothing else has changed. */
  ghost predicate Overrun(bs: seq<Block>, m: seq<Byte>, bs': seq<Block>, m': seq<Byte>, q: nat, i: nat, want: nat)
    requires i < |bs|
  {
    var w := Asked(want);
    var f := FirstFit(bs, w);
    && |m| == |m'| == LEN && f < |bs| && End(bs[i]) <= LEN && q == bs[f].start + HDR <= LEN && bs' == Allocate(bs, f, w)
    && m'[q..q + Written(q, bs[i].size)] == Payload(m, bs[i])[..Written(q, bs[i].size)]
    && KeptOutside(bs, m, m', q, q + bs[i].size)
  }

  /** How much of a copy of `n` bytes to `q` lies in the pool. */
  function Written(q: nat, n: nat): (k: nat)
    requires q <= LEN
    ensures k <= n && q + k <= LEN
  {
    if q + n <= LEN then n else LEN - q
  }

  lemma IsOverrun(bs: seq<Block>, m: seq<Byte>, bs': seq<Block>, m': seq<Byte>, q: nat, i: nat, want: nat)
    requires i < |bs| && |m| == |m'| == LEN && End(bs[i]) <= LEN && q <= LEN
    requires var f := FirstFit(bs, Asked(want)); f < |bs| && q == bs[f].start + HDR && bs' == Allocate(bs, f, Asked(want))
    requires m'[q..q + Written(q, bs[i].size)] == Payload(m, bs[i])[..Written(q, bs[i].size)]
    requires KeptOutside(bs, m, m', q, q + bs[i].size)
    ensures Overrun(bs, m, bs', m', q, i, want)
  {
  }

  lemma OverrunsIff(bs: seq<Block>, i: nat, want: nat)
    requires Tiles(bs, 0) && i < |bs| && want < SIZE_T
    ensures want <= MAX_ASK ==> !Overruns(bs, i, want)
    ensures var w := Asked(want); var f := FirstFit(bs, w);
            && (f == |bs| ==> !Overruns(bs, i, want))
            && (f < |bs| ==> f < |Allocate(bs, f, w)| && (Overruns(bs, i, want) <==> bs[i].size < want && Allocate(bs, f, w)[f].size < bs[i].size))
  {
    hide FirstFit, Asked;
    var w := Asked(want);
    FirstIs(bs, w);
    if FirstFit(bs, w) < |bs| { TakenIn(bs, FirstFit(bs, w), w); }
    if Overruns(bs, i, want) { OverrunsWhere(bs, i, want); }
  }

  lemma KeptThenCopied(bs: seq<Block>, a: seq<Byte>, b: seq<Byte>, c: seq<Byte>, lo: nat, hi: nat)
    requires LiveKept(bs, a, b) && SameOutside(b, c, lo, hi)
    ensures KeptOutside(bs, a, c, lo, hi)
  {
  }

  lemma LiveSame(bs: seq<Block>, m: seq<Byte>)
    requires Tiles(bs, 0) && |m| == LEN
    ensures LiveKept(bs, m, m)
  {
    LiveTiled(bs, m);
  }

  lemma LiveTiled(bs: seq<Block>, m: seq<Byte>)
    requires Tiles(bs, 0) && |m| == LEN
    ensures LiveKept(bs, m, m) && SameLive(bs, bs)
  {
    forall b | b in bs ensures End(b) <= LEN {
      var j :| 0 <= j < |bs| && bs[j] == b;
      TileAt(bs, 0, j);
    }
  }

  lemma Tiled(bs: seq<Block>)
    requires PoolOk(bs)
    ensures Tiles(bs, 0)
  {
  }

  lemma Inside(bs: seq<Block>)
    requires Tiles(bs, 0)
    ensures forall k :: 0 <= k < |bs| ==> bs[k].start < LEN
  {
    forall k | 0 <= k < |bs| ensures bs[k].start < LEN { TileAt(bs, 0, k); }
  }

  lemma StartsAt(bs: seq<Block>)
    requires |bs| > 0 && Tiles(bs, 0)
    ensures bs[0].start == 0
  {
  }

  lemma CoalesceNone()
    ensures Coalesce([]) == []
  {
  }

  /** The header words after a block has been carved. */
  lemma CarvedHeaders(bs: seq<Block>, i: nat, want: nat, m0: seq<Byte>, m1: seq<Byte>, m2: seq<Byte>)
    requires PoolOk(bs) && i < |bs| && bs[i].free && |m0| == |m1| == |m2| == LEN && Headers(m0, bs) && want >= ALIGN
    requires SameOutside(m0, m2, bs[i].start, End(bs[i])) && SameOutside(m1, m2, bs[i].start, bs[i].start + HDR)
    requires bs[i].start + HDR <= LEN && FreeAt(m2, bs[i].start) == false && SizeAt(m2, bs[i].start) == SizeAt(m1, bs[i].start)
    requires if Splits(bs[i], want)
             then HeaderIs(m1, bs[i].(size := want)) && HeaderIs(m1, Taken(bs[i], want)[1])
             else m1 == m0
    ensures Headers(m2, Allocate(bs, i, want))
  {
    hide SizeAt, FreeAt;
    var r, b := Allocate(bs, i, want), bs[i];
    assert HeaderIs(m0, b);
    if Splits(b, want) { HeaderKept(m1, m2, b.start, b.start + HDR, Taken(b, want)[1]); }
    var n := |Taken(b, want)|;
    forall j | 0 <= j < |r| ensures HeaderIs(m2, r[j]) {
      if j < i {
        assert r[j] == bs[j] && HeaderIs(m0, bs[j]);
        Elsewhere(bs, i, j, m0, m2, b.start, End(b));
      } else if j >= i + n {
        assert r[j] == bs[j - n + 1] && HeaderIs(m0, bs[j - n + 1]);
        Elsewhere(bs, i, j - n + 1, m0, m2, b.start, End(b));
      } else {
        assert r[j] == Taken(b, want)[j - i];
      }
    }
  }

  lemma FreedHeaders(bs: seq<Block>, i: nat, m: seq<Byte>, m': seq<Byte>)
    requires PoolOk(bs) && i < |bs| && |m| == |m'| == LEN && Headers(m, bs) && bs[i].start + HDR <= LEN
    requires SameOutside(m, m', bs[i].start, bs[i].start + HDR)
    requires FreeAt(m', bs[i].start) && SizeAt(m', bs[i].start) == SizeAt(m, bs[i].start)
    ensures var freed := bs[i := bs[i].(free := true)]; Headers(m', freed) && LiveKept(freed, m, m')
  {
    hide SizeAt, FreeAt;
    var freed := bs[i := bs[i].(free := true)];
    assert HeaderIs(m, bs[i]);
    forall j | 0 <= j < |bs| && j != i ensures HeaderIs(m', bs[j]) && End(bs[j]) <= LEN && Payload(m', bs[j]) == Payload(m, bs[j]) {
      assert HeaderIs(m, bs[j]);
      Elsewhere(bs, i, j, m, m', bs[i].start, bs[i].start + HDR);
    }
    forall b | b in freed && !b.free ensures End(b) <= LEN && Payload(m', b) == Payload(m, b) {
      var j :| 0 <= j < |freed| && freed[j] == b;
    }
  }

  // ---- the walk of coalesce ----

  lemma JoinStep(bs: seq<Block>, k: nat)
    requires k + 1 < |bs| && bs[k].free && bs[k + 1].free
    ensures var js := bs[..k] + [Join(bs[k], bs[k + 1])] + bs[k + 2..];
            && js[..k] == bs[..k] && Coalesce(js[k..]) == Coalesce(bs[k..]) && |js| == |bs| - 1 && SameLive(bs, js)
            && js[k].start == bs[k].start
  {
    var js := bs[..k] + [Join(bs[k], bs[k + 1])] + bs[k + 2..];
    assert js[k..] == [Join(bs[k], bs[k + 1])] + bs[k + 2..];
    assert bs[k..][0] == bs[k] && bs[k..][1] == bs[k + 1] && bs[k..][2..] == bs[k + 2..];
    assert bs == bs[..k] + [bs[k], bs[k + 1]] + bs[k + 2..];
  }

  lemma PassStep(bs: seq<Block>, k: nat)
    requires k < |bs| && (k + 1 < |bs| ==> !(bs[k].free && bs[k + 1].free))
    ensures bs[..k] + Coalesce(bs[k..]) == bs[..k + 1] + Coalesce(bs[k + 1..])
  {
    assert bs[k..][1..] == bs[k + 1..] && bs[k..][0] == bs[k];
    assert bs[..k + 1] == bs[..k] + [bs[k]];
    if k + 1 < |bs| {
      assert bs[k..][1] == bs[k + 1];
    } else {
      assert bs[k..] == [bs[k]] && bs[k + 1..] == [];
    }
  }

  lemma JoinPair(x: Block, y: Block, c: seq<Block>, f: nat)
    requires Tiles([x, y] + c, f)
    ensures Tiles([Join(x, y)] + c, f)
  {
    assert ([x, y] + c)[1..] == [y] + c && ([y] + c)[1..] == c && ([Join(x, y)] + c)[1..] == c;
    assert Tiles([y] + c, End(x));
  }

  lemma JoinTiles(bs: seq<Block>, k: nat)
    requires Tiles(bs, 0) && k + 1 < |bs|
    ensures Tiles(bs[..k] + [Join(bs[k], bs[k + 1])] + bs[k + 2..], 0)
  {
    var a, b, c := bs[..k], [bs[k], bs[k + 1]], bs[k + 2..];
    var j := [Join(bs[k], bs[k + 1])];
    assert bs == a + b + c;
    forall f | Tiles(b + c, f) ensures Tiles(j + c, f) { JoinPair(bs[k], bs[k + 1], c, f); }
    Retile(a, b, j, c, 0);
  }

  class Arena {
    const mem: array<Byte>
    ghost var blocks: seq<Block>

    ghost predicate Valid()
      reads this, mem
    {
      mem.Length == LEN && PoolOk(blocks) && Headers(mem[..], blocks)
    }

    // ---- one header word ----

    method SetBytes(a: nat, s: seq<Byte>)
      requires a + |s| <= mem.Length
      modifies mem
      ensures mem[a..a + |s|] == s && SameOutside(old(mem[..]), mem[..], a, a + |s|)
    {
      for i := 0 to |s|
        invariant mem[a..a + i] == s[..i]
        invariant forall k :: 0 <= k < mem.Length && !(a <= k < a + i) ==> mem[k] == old(mem[k])
      {
        mem[a + i] := s[i];
      }
      assert s[..|s|] == s;
    }

    method SetSize(a: nat, size: nat)
      requires a + HDR <= mem.Length && size <= LEN
      modifies mem
      ensures SizeAt(mem[..], a) == size && FreeAt(mem[..], a) == FreeAt(old(mem[..]), a)
      ensures SameOutside(old(mem[..]), mem[..], a, a + HDR)
    {
      Widths();
      GetPut(size, 8);
      SetBytes(a, Put(size, 8));
      assert mem[..][a..a + 8] == mem[a..a + 8];
      assert mem[..][a + 8..a + 12] == old(mem[..])[a + 8..a + 12];
    }

    method SetFree(a: nat, free: bool)
      requires a + HDR <= mem.Length
      modifies mem
      ensures FreeAt(mem[..], a) == free && SizeAt(mem[..], a) == SizeAt(old(mem[..]), a)
      ensures SameOutside(old(mem[..]), mem[..], a, a + HDR)
    {
      Widths();
      GetPut(if free then 1 else 0, 4);
      SetBytes(a + 8, Put(if free then 1 else 0, 4));
      assert mem[..][a + 8..a + 12] == mem[a + 8..a + 12];
      assert mem[..][a..a + 8] == old(mem[..])[a..a + 8];
    }

    method Size(a: nat) returns (size: nat)
      requires a + HDR <= mem.Length
      ensures size == SizeAt(mem[..], a)
    {
      assert mem[..][a..a + 8] == mem[a..a + 8];
      size := Get(mem[a..a + 8]);
    }

    method IsFree(a: nat) returns (free: bool)
      requires a + HDR <= mem.Length
      ensures free == FreeAt(mem[..], a)
    {
      assert mem[..][a + 8..a + 12] == mem[a + 8..a + 12];
      free := Get(mem[a + 8..a + 12]) != 0;
    }

    /** pool_init: one free block. */
    constructor ()
      ensures Valid() && blocks == [Block(0, LEN - HDR, true)] && fresh(mem)
    {
      mem := new Byte[LEN](_ => 0);
      blocks := [Block(0, LEN - HDR, true)];
      new;
      SetSize(0, LEN - HDR);
      SetFree(0, true);
      InitialOk();
    }

    /** The walk over the blocks that looks for the first that will do; LEN if none does. */
    method Search(want: nat) returns (a: nat)
      requires Valid()
      ensures var i := FirstFit(blocks, want); a == if i < |blocks| then blocks[i].start else LEN
    {
      a := 0;
      ghost var i: nat := 0;
      TileAt(blocks, 0, 0);
      while a < LEN
        invariant i <= |blocks| && a == (if i < |blocks| then blocks[i].start else LEN)
        invariant FirstFit(blocks, want) == i + FirstFit(blocks[i..], want)
        decreases |blocks| - i
      {
        TileAt(blocks, 0, i);
        assert HeaderIs(mem[..], blocks[i]);
        assert blocks[i..][0] == blocks[i] && blocks[i..][1..] == blocks[i + 1..];
        var free := IsFree(a);
        var size := Size(a);
        if free && size >= want { return; }
        a := a + HDR + size;
        i := i + 1;
      }
      Inside(blocks);
    }

    /** The block at `a` taken, and what is left of it split off if it is worth a block. */
    method Carve(a: nat, want: nat, ghost i: nat)
      requires Valid() && i < |blocks| && blocks[i].start == a && blocks[i].free && blocks[i].size >= want >= ALIGN && Aligned(want)
      modifies this, mem
      ensures Valid() && blocks == Allocate(old(blocks), i, want)
      ensures SameOutside(old(mem[..]), mem[..], a, End(old(blocks)[i]))
    {
      hide SizeAt, FreeAt, Get, PoolOk, Tiles, Allocate;
      ghost var b, m0 := blocks[i], mem[..];
      Tiled(blocks);
      TileAt(blocks, 0, i);
      assert HeaderIs(m0, b);
      var size := Size(a);
      if size >= want + HDR + ALIGN {
        CarveRest(a, want, b);
      }
      ghost var m1 := mem[..];
      SetFree(a, false);
      SameWider(m1, mem[..], a, a + HDR, a, End(b));
      SameOutsideTwice(m0, m1, mem[..], a, End(b));
      CarvedHeaders(blocks, i, want, m0, m1, mem[..]);
      AllocateOk(blocks, i, want);
      blocks := Allocate(blocks, i, want);
    }

    /** The remainder's header, and the block's new size. */
    method CarveRest(a: nat, want: nat, ghost b: Block)
      requires mem.Length == LEN && HeaderIs(mem[..], b) && b.start == a && b.free && Splits(b, want) && End(b) <= LEN && want >= ALIGN
      modifies mem
      ensures SameOutside(old(mem[..]), mem[..], a, End(b))
      ensures HeaderIs(mem[..], b.(size := want)) && HeaderIs(mem[..], Block(a + HDR + want, b.size - want - HDR, true))
    {
      ghost var m0 := mem[..];
      var rest := a + HDR + want;
      var size := Size(a);
      SetSize(rest, size - want - HDR);
      ghost var m1 := mem[..];
      SameWider(m0, m1, rest, rest + HDR, a, End(b));
      HeaderKept(m0, m1, rest, rest + HDR, b);
      SetFree(rest, true);
      ghost var m2 := mem[..];
      SameWider(m1, m2, rest, rest + HDR, a, End(b));
      SameOutsideTwice(m0, m1, m2, a, End(b));
      HeaderKept(m1, m2, rest, rest + HDR, b);
      SetSize(a, want);
      HeaderKept(m2, mem[..], a, a + HDR, Block(rest, b.size - want - HDR, true));
      SameWider(m2, mem[..], a, a + HDR, a, End(b));
      SameOutsideTwice(m0, m2, mem[..], a, End(b));
    }

    /** pool_malloc: 0 if no block will do. The block it returns is large enough exactly if no more than
        MAX_ASK bytes were asked for; and up to there it returns 0 exactly if no free block would do. */
    method Malloc(want: nat) returns (p: nat)
      requires Valid() && want < SIZE_T
      modifies this, mem
      ensures Valid()
      ensures var i := FirstFit(old(blocks), Asked(want));
              if i == |old(blocks)| then p == 0 && blocks == old(blocks) && mem[..] == old(mem[..])
              else p == old(blocks)[i].start + HDR && blocks == Allocate(old(blocks), i, Asked(want))
      ensures p != 0 ==> InUse(blocks, mem[..], p, 0, []) && (InUse(blocks, mem[..], p, want, []) <==> want <= MAX_ASK)
      ensures want <= MAX_ASK ==> (p == 0 <==> forall b :: b in old(blocks) && b.free ==> b.size < want)
      ensures LiveKept(old(blocks), old(mem[..]), mem[..])
    {
      hide Asked, Tiles, Allocate, FirstFit, InUse, Headers, LiveKept;
      var w := Asked(want);
      AskedIs(want);
      Tiled(blocks);
      if want <= MAX_ASK { FitsIff(blocks, want); }
      FirstIs(blocks, w);
      var a := Search(w);
      ghost var i, bs, m := FirstFit(blocks, w), blocks, mem[..];
      LiveSame(bs, m);
      Inside(blocks);
      if a == LEN { return 0; }
      TileAt(blocks, 0, i);
      Carve(a, w, i);
      FreeChange(bs, i, m, mem[..], a, End(bs[i]));
      p := a + HDR;
      IsTaken(bs, blocks, mem[..], i, want);
    }

    /** coalesce: one walk, in which a free block takes in every free block after it. */
    method CoalesceAll()
      requires mem.Length == LEN && |blocks| > 0 && Tiles(blocks, 0) && Headers(mem[..], blocks)
      modifies this, mem
      ensures blocks == Coalesce(old(blocks)) && Tiles(blocks, 0) && Headers(mem[..], blocks)
      ensures LiveKept(old(blocks), old(mem[..]), mem[..])
    {
      hide Tiles, Coalesce, SizeAt, FreeAt, LiveKept, Get;
      ghost var bs, m := blocks, mem[..];
      LiveTiled(bs, m);
      var a := 0;
      ghost var k: nat := 0;
      StartsAt(blocks);
      assert blocks[..0] == [] && blocks[0..] == blocks && [] + Coalesce(blocks) == Coalesce(blocks);
      while a < LEN
        invariant mem.Length == LEN && k <= |blocks| && Tiles(blocks, 0) && Headers(mem[..], blocks)
        invariant a == (if k < |blocks| then blocks[k].start else LEN)
        invariant Coalesce(bs) == blocks[..k] + Coalesce(blocks[k..])
        invariant LiveKept(bs, m, mem[..]) && SameLive(bs, blocks)
        decreases |blocks| - k
      {
        TileAt(blocks, 0, k);
        assert HeaderIs(mem[..], blocks[k]);
        var size := Size(a);
        var free := IsFree(a);
        var n := a + HDR + size;
        var merge := false;
        if free && n < LEN {
          assert k + 1 < |blocks| && HeaderIs(mem[..], blocks[k + 1]);
          TileAt(blocks, 0, k + 1);
          merge := IsFree(n);
        }
        if merge {
          JoinStep(blocks, k);
          ghost var now, before := blocks, mem[..];
          MergeNext(a, n, k);
          KeptThrough(bs, now, m, before, mem[..]);
        } else {
          PassStep(blocks, k);
          a := n;
          k := k + 1;
        }
      }
      Inside(blocks);
      assert blocks[k..] == [] && blocks[..k] == blocks;
      CoalesceNone();
    }

    /** The free block at `a` takes in the one at `n`. */
    method MergeNext(a: nat, n: nat, ghost k: nat)
      requires mem.Length == LEN && Tiles(blocks, 0) && Headers(mem[..], blocks)
      requires k + 1 < |blocks| && blocks[k].start == a && blocks[k].free && blocks[k + 1].start == n && blocks[k + 1].free
      modifies this, mem
      ensures Tiles(blocks, 0) && Headers(mem[..], blocks)
      ensures blocks == old(blocks)[..k] + [Join(old(blocks)[k], old(blocks)[k + 1])] + old(blocks)[k + 2..]
      ensures LiveKept(old(blocks), old(mem[..]), mem[..])
    {
      hide SizeAt, FreeAt, Get;
      ghost var bs, m := blocks, mem[..];
      TileAt(bs, 0, k);
      TileAt(bs, 0, k + 1);
      assert HeaderIs(m, bs[k]) && HeaderIs(m, bs[k + 1]);
      var size := Size(a);
      var more := Size(n);
      SetSize(a, size + HDR + more);
      FreeChange(bs, k, m, mem[..], a, a + HDR);
      JoinTiles(bs, k);
      blocks := bs[..k] + [Join(bs[k], bs[k + 1])] + bs[k + 2..];
      forall j | 0 <= j < |blocks| ensures HeaderIs(mem[..], blocks[j]) {
        if j < k {
          assert HeaderIs(m, bs[j]);
          Elsewhere(bs, k, j, m, mem[..], a, a + HDR);
        } else if j > k {
          assert blocks[j] == bs[j + 1] && HeaderIs(m, bs[j + 1]);
          Elsewhere(bs, k, j + 1, m, mem[..], a, a + HDR);
        }
      }
    }

    /** pool_free. */
    method Free(p: nat, ghost i: nat)
      requires Valid() && (p == 0 || (i < |blocks| && !blocks[i].free && p == blocks[i].start + HDR))
      modifies this, mem
      ensures Valid()
      ensures p == 0 ==> blocks == old(blocks) && mem[..] == old(mem[..])
      ensures p != 0 ==> blocks == Release(old(blocks), i) && LiveKept(Without(old(blocks), i), old(mem[..]), mem[..])
    {
      if p == 0 { return; }
      ghost var bs, m := blocks, mem[..];
      TileAt(bs, 0, i);
      var a := p - HDR;
      assert HeaderIs(m, bs[i]);
      SetFree(a, true);
      ghost var freed := bs[i := bs[i].(free := true)];
      FreedTiles(bs, 0, i);
      FreedHeaders(bs, i, m, mem[..]);
      blocks := freed;
      ghost var m1 := mem[..];
      ReleaseOk(bs, i);
      CoalesceAll();
      KeptTwice(freed, m, m1, mem[..]);
    }

    /** pool_realloc. With no memory for a larger block the old one stands. Unless more than MAX_ASK bytes
        are asked for it never overruns, and the block is large enough. `intact`: the copy stayed inside
        the new block; otherwise other blocks' headers are gone, and this is the pool as the copy leaves it. */
    method Realloc(p: nat, want: nat, ghost i: nat) returns (q: nat, intact: bool)
      requires Valid() && want < SIZE_T && (p == 0 || (i < |blocks| && !blocks[i].free && p == blocks[i].start + HDR))
      modifies this, mem
      ensures p != 0 ==> i < |old(blocks)| && End(old(blocks)[i]) <= LEN
      ensures intact <==> p == 0 || !Overruns(old(blocks), i, want)
      ensures want <= MAX_ASK ==> intact
      ensures intact ==> Valid()
      ensures p != 0 && old(blocks)[i].size >= want ==> q == p && blocks == old(blocks) && mem[..] == old(mem[..])
      ensures p != 0 && q == 0 ==> blocks == old(blocks) && mem[..] == old(mem[..])
      ensures intact && q != 0 ==>
                var was := if p == 0 then [] else Payload(old(mem[..]), old(blocks)[i]);
                InUse(blocks, mem[..], q, 0, was) && (InUse(blocks, mem[..], q, want, was) <==> want <= MAX_ASK)
      ensures q == 0 <==> (p == 0 || old(blocks)[i].size < want) && FirstFit(old(blocks), Asked(want)) == |old(blocks)|
      ensures intact && p != 0 && q != 0 && old(blocks)[i].size < want ==> Moved(old(blocks), blocks, i, Asked(want))
      ensures intact ==> LiveKept(if p == 0 then old(blocks) else Without(old(blocks), i), old(mem[..]), mem[..])
      ensures !intact ==> Overrun(old(blocks), old(mem[..]), blocks, mem[..], q, i, want)
    {
      hide Get, Tiles, Merged, Coalesce, Allocate, RoundUp, Asked, FirstFit, InUse, LiveKept, Moved, Release, Headers, Overruns, Overrun;
      ghost var bs, m := blocks, mem[..];
      LiveSame(bs, m);
      intact := true;
      if p == 0 {
        q := Malloc(want);
        return;
      }
      ghost var b := bs[i];
      TileAt(bs, 0, i);
      HeaderAt(bs, m, i);
      KeptWithout(bs, i, m, m);
      OverrunsIff(bs, i, want);
      var size := Size(p - HDR);
      if size >= want {
        IsInUse(blocks, mem[..], i, want, Payload(m, b));
        IsInUse(blocks, mem[..], i, 0, Payload(m, b));
        InUseBound(blocks, mem[..], p, want, Payload(m, b));
        return p, true;
      }
      q := Malloc(want);
      if q != 0 { intact := Relocate(p, q, size, want, i, bs, m); }
    }

    /** The end of pool_realloc, with a new block at `q`. */
    method Relocate(p: nat, q: nat, size: nat, want: nat, ghost i: nat, ghost bs: seq<Block>, ghost m: seq<Byte>) returns (intact: bool)
      requires Valid() && PoolOk(bs) && i < |bs| && !bs[i].free && p == bs[i].start + HDR && size == bs[i].size < want < SIZE_T
      requires var f := FirstFit(bs, Asked(want)); f < |bs| && q == bs[f].start + HDR && blocks == Allocate(bs, f, Asked(want))
      requires |m| == LEN && End(bs[i]) <= LEN && LiveKept(bs, m, mem[..])
      modifies this, mem
      ensures intact <==> !Overruns(bs, i, want)
      ensures intact ==> Valid() && Moved(bs, blocks, i, Asked(want)) && LiveKept(Without(bs, i), m, mem[..])
      ensures intact ==> var was := Payload(m, bs[i]);
                InUse(blocks, mem[..], q, 0, was) && (InUse(blocks, mem[..], q, want, was) <==> want <= MAX_ASK)
      ensures !intact ==> Overrun(bs, m, blocks, mem[..], q, i, want)
    {
      hide Get, Tiles, Merged, Coalesce, Allocate, RoundUp, Asked, FirstFit, InUse, LiveKept, Moved, Release, Headers, Overruns, Overrun, SizeAt, FreeAt, KeptOutside, SameOutside;
      ghost var w, f, m1, was := Asked(want), FirstFit(bs, Asked(want)), mem[..], Payload(m, bs[i]);
      FirstIs(bs, w);
      TakenIn(bs, f, w);
      ghost var i' := OldIn(bs, f, w, i);
      KeptOne(bs, i, m, m1);
      OverrunsIff(bs, i, want);
      TileAt(blocks, 0, f);
      HeaderAt(blocks, m1, f);
      var room := Size(q - HDR);
      intact := size <= room;
      if intact {
        Move(p, q, size, i', f);
        IsMoved(bs, blocks, i, w, i');
        KeptAround(bs, i, f, w, i', m, m1, mem[..]);
        AskedIs(want);
        EnoughIff(blocks, mem[..], q, room, w, want, was);
      } else {
        SpillsForward(blocks, i', f);
        Spill(p, q, size);
        KeptThenCopied(bs, m, m1, mem[..], q, q + size);
        IsOverrun(bs, m, blocks, mem[..], q, i, want);
      }
    }

    /** The contents copied across to the block of `q`. */
    method CopyAcross(p: nat, q: nat, size: nat, ghost i: nat, ghost f: nat)
      requires Valid() && i < |blocks| && f < |blocks| && i != f
      requires p == blocks[i].start + HDR && q == blocks[f].start + HDR && size == blocks[i].size <= blocks[f].size
      modifies mem
      ensures Valid() && End(old(blocks)[i]) <= LEN && End(blocks[f]) <= LEN
      ensures Payload(old(mem[..]), blocks[i]) <= Payload(mem[..], blocks[f])
      ensures LiveKept(Without(blocks, f), old(mem[..]), mem[..])
    {
      hide SizeAt, FreeAt, Get, Tiles, Merged;
      ghost var m := mem[..];
      TileAt(blocks, 0, i);
      TileAt(blocks, 0, f);
      LiveApart(blocks, i, f);
      CopyWithin(p, q, size);
      CopiedHeaders(blocks, f, m, mem[..], q, size);
      CopiedLive(blocks, f, m, mem[..], q, size);
      assert Payload(mem[..], blocks[f])[..size] == mem[q..q + size];
      assert Payload(m, blocks[i]) == m[p..p + size];
    }

    /** ... and the old block freed. */
    method Move(p: nat, q: nat, size: nat, ghost i: nat, ghost f: nat)
      requires Valid() && i < |blocks| && f < |blocks| && i != f && !blocks[i].free && !blocks[f].free
      requires p == blocks[i].start + HDR && q == blocks[f].start + HDR && size == blocks[i].size <= blocks[f].size
      modifies this, mem
      ensures Valid() && End(old(blocks)[i]) <= LEN
      ensures InUse(blocks, mem[..], q, old(blocks)[f].size, Payload(old(mem[..]), old(blocks)[i]))
      ensures blocks == Release(old(blocks), i) && LiveKept(Without(Without(old(blocks), f), i), old(mem[..]), mem[..])
    {
      hide SizeAt, FreeAt, Get, Tiles, Merged, Headers, Coalesce;
      ghost var bs, taken, m0 := blocks, blocks[f], mem[..];
      ghost var freed := bs[i := bs[i].(free := true)];
      CopyAcross(p, q, size, i, f);
      ghost var m := mem[..];
      ReleaseOk(bs, i);
      Free(p, i);
      assert freed[f] == taken && taken in freed && taken in blocks;
      assert Payload(mem[..], taken) == Payload(m, taken);
      KeptBoth(bs, i, f, m0, m, mem[..]);
    }

    /** A copy that leaves the new block, as far as the pool goes. */
    method Spill(p: nat, q: nat, size: nat)
      requires mem.Length == LEN && p + size <= LEN && q <= LEN && (p + size <= q || q <= p)
      modifies mem
      ensures mem[q..q + Written(q, size)] == old(mem[..])[p..p + size][..Written(q, size)]
      ensures SameOutside(old(mem[..]), mem[..], q, q + size)
    {
      ghost var m, n := mem[..], Written(q, size);
      CopyWithin(p, q, Written(q, size));
      assert m[p..p + size][..n] == m[p..p + n];
      SameWider(m, mem[..], q, q + n, q, q + size);
    }

    /** memcpy, byte by byte from the front. */
    method CopyWithin(from: nat, to: nat, n: nat)
      requires from + n <= mem.Length && to + n <= mem.Length && (from + n <= to || to <= from)
      modifies mem
      ensures mem[to..to + n] == old(mem[from..from + n]) && SameOutside(old(mem[..]), mem[..], to, to + n)
    {
      for k := 0 to n
        invariant mem[to..to + k] == old(mem[from..from + k])
        invariant forall j :: 0 <= j < mem.Length && !(to <= j < to + k) ==> mem[j] == old(mem[j])
      {
        mem[to + k] := mem[from + k];
      }
    }
  }

  lemma IsInUse(bs: seq<Block>, m: seq<Byte>, j: nat, want: nat, data: seq<Byte>)
    requires j < |bs| && !bs[j].free && bs[j].size >= want && |data| <= bs[j].size && End(bs[j]) <= |m| && data <= Payload(m, bs[j])
    ensures InUse(bs, m, bs[j].start + HDR, want, data)
  {
    assert bs[j] in bs;
  }

  lemma Enough(bs: seq<Block>, m: seq<Byte>, q: nat, room: nat, want: nat, data: seq<Byte>)
    requires InUse(bs, m, q, room, data) && want <= room
    ensures InUse(bs, m, q, want, data)
  {
  }

  lemma EnoughIff(bs: seq<Block>, m: seq<Byte>, q: nat, room: nat, w: nat, want: nat, data: seq<Byte>)
    requires |m| == LEN && InUse(bs, m, q, room, data) && w <= room && (w >= want <==> want <= MAX_ASK)
    ensures InUse(bs, m, q, 0, data) && (InUse(bs, m, q, want, data) <==> want <= MAX_ASK)
  {
    hide InUse;
    Enough(bs, m, q, room, 0, data);
    if want <= MAX_ASK { Enough(bs, m, q, room, want, data); } else if InUse(bs, m, q, want, data) { InUseBound(bs, m, q, want, data); }
  }

  /** The block pool_malloc has taken. */
  lemma IsTaken(bs: seq<Block>, r: seq<Block>, m: seq<Byte>, i: nat, want: nat)
    requires |m| == LEN && want < SIZE_T && i < |bs| && bs[i].size >= Asked(want) && r == Allocate(bs, i, Asked(want)) && Tiles(r, 0)
    ensures InUse(r, m, bs[i].start + HDR, 0, []) && (InUse(r, m, bs[i].start + HDR, want, []) <==> want <= MAX_ASK)
  {
    hide Asked, InUse, Allocate;
    AskedIs(want);
    TakenIn(bs, i, Asked(want));
    TileAt(r, 0, i);
    IsInUse(r, m, i, Asked(want), []);
    EnoughIff(r, m, bs[i].start + HDR, Asked(want), Asked(want), want, []);
  }

  /** A copy between two blocks runs into nothing it has yet to copy. */
  lemma SpillsForward(bs: seq<Block>, i: nat, f: nat)
    requires Tiles(bs, 0) && i < |bs| && f < |bs| && i != f
    ensures End(bs[i]) <= bs[f].start + HDR || bs[f].start + HDR <= bs[i].start + HDR
  {
    if i < f { PoolBlocks.Apart(bs, 0, i, f); } else { PoolBlocks.Apart(bs, 0, f, i); TileAt(bs, 0, i); }
  }

  /** The block that was taken is in use, and large enough. */
  lemma TakenIn(bs: seq<Block>, f: nat, w: nat)
    requires f < |bs| && bs[f].size >= w
    ensures var r := Allocate(bs, f, w); f < |r| && r[f] == Taken(bs[f], w)[0] && !r[f].free && r[f].start == bs[f].start && r[f].size >= w
  {
    var r := Allocate(bs, f, w);
    assert r[f] == Taken(bs[f], w)[0];
  }

  /** A block in use is in use still, elsewhere. */
  lemma OldIn(bs: seq<Block>, f: nat, w: nat, i: nat) returns (i': nat)
    requires f < |bs| && i < |bs| && bs[f].free && !bs[i].free
    ensures var r := Allocate(bs, f, w); i' < |r| && r[i'] == bs[i] && i' != f
  {
    i' := if i < f then i else i + |Taken(bs[f], w)| - 1;
  }

  lemma HeaderAt(bs: seq<Block>, m: seq<Byte>, i: nat)
    requires Headers(m, bs) && i < |bs|
    ensures HeaderIs(m, bs[i])
  {
  }

  lemma KeptWithout(bs: seq<Block>, i: nat, m: seq<Byte>, m': seq<Byte>)
    requires LiveKept(bs, m, m') && i < |bs|
    ensures LiveKept(Without(bs, i), m, m')
  {
    forall b | b in Without(bs, i) && !b.free ensures End(b) <= LEN && Payload(m', b) == Payload(m, b) {
      assert b in bs;
    }
  }

  lemma KeptOne(bs: seq<Block>, i: nat, m: seq<Byte>, m': seq<Byte>)
    requires LiveKept(bs, m, m') && i < |bs| && !bs[i].free
    ensures End(bs[i]) <= LEN == |m| == |m'| && Payload(m', bs[i]) == Payload(m, bs[i])
  {
    assert bs[i] in bs;
  }

  lemma KeptBoth(bs: seq<Block>, i: nat, f: nat, a: seq<Byte>, b: seq<Byte>, c: seq<Byte>)
    requires i < |bs| && f < |bs| && i != f && LiveKept(Without(bs, f), a, b) && LiveKept(Without(bs, i), b, c)
    ensures LiveKept(Without(Without(bs, f), i), a, c)
  {
    var rest := Without(Without(bs, f), i);
    forall x | x in rest && !x.free ensures End(x) <= LEN && Payload(c, x) == Payload(a, x) {
      var k :| 0 <= k < |rest| && rest[k] == x;
      assert Without(bs, f)[k] == x && Without(bs, i)[k] == x;
    }
  }

  lemma IsMoved(bs: seq<Block>, bs': seq<Block>, i: nat, w: nat, k: nat)
    requires i < |bs| && FirstFit(bs, w) < |bs|
    requires var r := Allocate(bs, FirstFit(bs, w), w); k < |r| && r[k] == bs[i] && bs' == Release(r, k)
    ensures Moved(bs, bs', i, w)
  {
  }

  /** Every block in use but the one that moved keeps its payload through the move. */
  lemma KeptAround(bs: seq<Block>, i: nat, f: nat, w: nat, i': nat, a: seq<Byte>, b: seq<Byte>, c: seq<Byte>)
    requires Tiles(bs, 0) && i < |bs| && f < |bs| && bs[f].free && !bs[i].free && LiveKept(bs, a, b)
    requires var r := Allocate(bs, f, w); f < |r| && i' < |r| && r[i'] == bs[i] && r[f].start == bs[f].start && LiveKept(Without(Without(r, f), i'), b, c)
    ensures LiveKept(Without(bs, i), a, c)
  {
    var r := Allocate(bs, f, w);
    var rest := Without(Without(r, f), i');
    forall x | x in Without(bs, i) && !x.free ensures End(x) <= LEN && Payload(c, x) == Payload(a, x) {
      var k :| 0 <= k < |bs| && Without(bs, i)[k] == x;
      assert k != i && bs[k] == x && x in bs;
      var k' := OldIn(bs, f, w, k);
      StartsDiffer(bs, k, i);
      assert rest[k'] == x && x in rest;
    }
  }

  lemma StartsDiffer(bs: seq<Block>, k: nat, i: nat)
    requires Tiles(bs, 0) && k < |bs| && i < |bs| && k != i
    ensures bs[k].start != bs[i].start
  {
    TileAt(bs, 0, k);
    TileAt(bs, 0, i);
    if i < k { PoolBlocks.Apart(bs, 0, i, k); } else { PoolBlocks.Apart(bs, 0, k, i); }
  }

  lemma CopiedLive(bs: seq<Block>, f: nat, m: seq<Byte>, m': seq<Byte>, q: nat, n: nat)
    requires Tiles(bs, 0) && Headers(m, bs) && f < |bs| && |m| == LEN && q == bs[f].start + HDR && n <= bs[f].size && SameOutside(m, m', q, q + n)
    ensures LiveKept(Without(bs, f), m, m')
  {
    forall b | b in Without(bs, f) && !b.free ensures End(b) <= LEN && Payload(m', b) == Payload(m, b) {
      var j :| 0 <= j < |bs| && Without(bs, f)[j] == b;
      assert HeaderIs(m, bs[j]);
      Elsewhere(bs, f, j, m, m', q, q + n);
    }
  }

  lemma CopiedHeaders(bs: seq<Block>, f: nat, m: seq<Byte>, m': seq<Byte>, q: nat, n: nat)
    requires Tiles(bs, 0) && Headers(m, bs) && f < |bs| && |m| == LEN && q == bs[f].start + HDR && n <= bs[f].size && SameOutside(m, m', q, q + n)
    ensures Headers(m', bs)
  {
    forall j | 0 <= j < |bs| ensures HeaderIs(m', bs[j]) {
      assert HeaderIs(m, bs[j]);
      if j == f { HeaderKept(m, m', q, q + n, bs[j]); } else { Elsewhere(bs, f, j, m, m', q, q + n); }
    }
  }
}
