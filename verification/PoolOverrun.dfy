/** The static pool asked for more than its mask lets through. */
module PoolOverrun {
  import opened Sequences
  import opened LittleEndian
  import opened PoolBlocks
  import opened PoolArena

  const HUGE: nat := 0x1_0000_0000

  const NEW_POOL: seq<Block> := [Block(0, LEN - HDR, true)]

  /** 2^32 bytes are asked for of a new pool of 256 KiB, and 16 are given. */
  lemma HugeGetsSixteen()
    ensures Asked(HUGE) == 16 && FirstFit(NEW_POOL, Asked(HUGE)) == 0 && FirstFit(NEW_POOL, RoundUp(HUGE)) == 1
    ensures Allocate(NEW_POOL, 0, Asked(HUGE))[0] == Block(0, 16, false)
  {
    assert NEW_POOL[1..] == [];
  }

  method AskHuge() returns (a: Arena, p: nat)
    ensures fresh(a) && fresh(a.mem) && a.Valid() && p == HDR && |a.blocks| > 0 && a.blocks[0] == Block(0, 16, false)
  {
    a := new Arena();
    HugeGetsSixteen();
    p := a.Malloc(HUGE);
  }

  // ---- a copy that leaves its block ----

  /** A free block of 16 bytes, one in use beside it, and a larger one in use after that. */
  const CROWDED: seq<Block> := [Block(0, 16, true), Block(32, 16, false), Block(64, 64, false), Block(144, LEN - 160, true)]

  /** The larger one is to grow to 2^32 bytes: the copy goes to the 16 free ones, and covers the header and
      the payload of the block in use beside them with the larger one's bytes. */
  lemma CopyCoversNeighbour(m: seq<Byte>, bs': seq<Block>, m': seq<Byte>)
    requires |m| == LEN && Overrun(CROWDED, m, bs', m', 16, 2, HUGE)
    ensures PoolOk(CROWDED) && Overruns(CROWDED, 2, HUGE) && CROWDED[1] in bs' && !CROWDED[1].free
    ensures |m'| == LEN && m'[32..48] == Payload(m, CROWDED[2])[16..32] && Payload(m', CROWDED[1]) == Payload(m, CROWDED[2])[32..48]
  {
    hide Asked, KeptOutside, PoolOk;
    Crowded();
    CrowdedOverruns();
    assert Allocate(CROWDED, 0, 16)[1] == CROWDED[1];
    CopiedOver(m, bs', m');
    SliceSlice(m', 16, 80, 16, 32);
    SliceSlice(m', 16, 80, 32, 48);
  }

  lemma CopiedOver(m: seq<Byte>, bs': seq<Block>, m': seq<Byte>)
    requires |m| == LEN && Overrun(CROWDED, m, bs', m', 16, 2, HUGE)
    ensures |m'| == LEN && m'[16..80] == Payload(m, CROWDED[2])
  {
    hide Asked, Allocate, FirstFit, KeptOutside;
    var was := Payload(m, CROWDED[2]);
    assert |was| == 64 && Written(16, 64) == 64;
    assert was[..64] == was;
  }

  lemma Crowded()
    ensures PoolOk(CROWDED)
  {
    var bs := CROWDED;
    assert bs[1..][1..] == bs[2..] && bs[2..][1..] == bs[3..] && bs[3..][1..] == [];
    assert bs[1..][0] == bs[1] && bs[2..][0] == bs[2] && bs[3..][0] == bs[3];
    assert Tiles(bs[3..], 144);
    assert Tiles(bs[2..], 64);
    assert Tiles(bs[1..], 32);
  }

  lemma CrowdedOverruns()
    ensures Asked(HUGE) == 16 && FirstFit(CROWDED, Asked(HUGE)) == 0 && Taken(CROWDED[0], 16)[0].size == 16 && Overruns(CROWDED, 2, HUGE)
  {
    HugeGetsSixteen();
  }

  /** Five calls on a new pool come to it. */
  method ReachOverrun() returns (a: Arena, q: nat, intact: bool)
    ensures fresh(a) && fresh(a.mem) && !intact && q == HDR
  {
    a := new Arena();
    ThreeTaken();
    var x := a.Malloc(16);
    var y := a.Malloc(16);
    var z := a.Malloc(64);
    a.Free(x, 0);
    assert a.blocks == CROWDED;
    CrowdedOverruns();
    q, intact := a.Realloc(z, HUGE, 2);
  }

  const AFTER_ONE: seq<Block> := [Block(0, 16, false), Block(32, LEN - 48, true)]
  const AFTER_TWO: seq<Block> := [Block(0, 16, false), Block(32, 16, false), Block(64, LEN - 80, true)]
  const AFTER_THREE: seq<Block> := [Block(0, 16, false), Block(32, 16, false), Block(64, 64, false), Block(144, LEN - 160, true)]

  lemma ThreeTaken()
    ensures FirstFit(NEW_POOL, Asked(16)) == 0 && Allocate(NEW_POOL, 0, Asked(16)) == AFTER_ONE
    ensures FirstFit(AFTER_ONE, Asked(16)) == 1 && Allocate(AFTER_ONE, 1, Asked(16)) == AFTER_TWO
    ensures FirstFit(AFTER_TWO, Asked(64)) == 2 && Allocate(AFTER_TWO, 2, Asked(64)) == AFTER_THREE
    ensures Release(AFTER_THREE, 0) == CROWDED
  {
    assert Asked(16) == 16 && Asked(64) == 64;
    assert AFTER_ONE[1..][0] == AFTER_ONE[1] && AFTER_TWO[1..][1..][0] == AFTER_TWO[2];
    assert FirstFit(AFTER_ONE[1..], 16) == 0;
    assert FirstFit(AFTER_TWO[1..][1..], 64) == 0 && FirstFit(AFTER_TWO[1..], 64) == 1;
    CoalesceCrowded();
  }

  lemma CoalesceCrowded()
    ensures Release(AFTER_THREE, 0) == CROWDED
  {
    var bs := CROWDED;
    assert AFTER_THREE[0 := AFTER_THREE[0].(free := true)] == bs;
    var b1, b2, b3 := bs[1..], bs[1..][1..], bs[1..][1..][1..];
    assert Coalesce(b3) == b3;
    assert Coalesce(b2) == [b2[0]] + b3;
    assert Coalesce(b1) == [b1[0]] + Coalesce(b2);
    assert Coalesce(bs) == [bs[0]] + Coalesce(b1);
    assert [bs[0]] + ([b1[0]] + ([b2[0]] + b3)) == bs;
  }
}
