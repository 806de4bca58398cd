/** The 64-bit head and tail words of the queue: a 47-bit address below a 17-bit tag. */
module TaggedWord {
  import opened Bits

  const ADDR_LIMIT: nat := 0x8000_0000_0000
  const ADDR_MASK: nat := 0x0000_7FFF_FFFF_FFFF
  const TAG_LIMIT: nat := 0x2_0000
  const WORD_LIMIT: nat := 0x1_0000_0000_0000_0000

  /** A word whose tag counts without wrapping: the version-counted view. */
  datatype Tagged = Tagged(addr: nat, ver: nat)

  /** (Node*)((UINT64)word & 0x00007FFFFFFFFFFF) */
  function RealAddress(word: nat): nat
  {
    BitAnd(word, ADDR_MASK)
  }

  /** ((UINT64)word >> 47) + 1 */
  function NextIndex(word: nat): nat
  {
    word / ADDR_LIMIT + 1
  }

  /** (UINT64)node | ((UINT64)idx << 47), the shift dropping the bits above bit 63 */
  function Join(node: nat, idx: nat): nat
  {
    BitOr(node, (idx * ADDR_LIMIT) % WORD_LIMIT)
  }

  /** The 64-bit word that stands for an address with a version. */
  function Pack(w: Tagged): nat
  {
    w.addr + w.ver % TAG_LIMIT * ADDR_LIMIT
  }

  lemma SmallPowers()
    ensures Pow2(15) == 0x8000 && Pow2(16) == 0x1_0000 && Pow2(17) == 0x2_0000
  {
    assert Pow2(4) == 16;
    Pow2Sum(4, 4);
    Pow2Sum(8, 8);
    assert Pow2(15 + 1) == 2 * Pow2(15) && Pow2(16 + 1) == 2 * Pow2(16);
  }

  /** 47 bits of address and 17 bits of tag in a word of 64. */
  lemma LimitsArePowers()
    ensures Pow2(47) == ADDR_LIMIT == ADDR_MASK + 1
    ensures Pow2(17) == TAG_LIMIT && Pow2(64) == WORD_LIMIT
    ensures ADDR_LIMIT * TAG_LIMIT == WORD_LIMIT
  {
    hide Pow2;
    SmallPowers();
    Pow2Sum(16, 16);
    Pow2Sum(32, 15);
    Pow2Sum(32, 32);
  }

  /** Packing is undone by the mask and the shift, and the tag is the version modulo 2^17. */
  lemma PackRoundTrip(w: Tagged)
    requires w.addr < ADDR_LIMIT
    ensures Pack(w) < WORD_LIMIT == Pow2(64)
    ensures RealAddress(Pack(w)) == w.addr
    ensures NextIndex(Pack(w)) == w.ver % TAG_LIMIT + 1 && TAG_LIMIT == Pow2(17)
  {
    LimitsArePowers();
    var tag := w.ver % TAG_LIMIT;
    assert tag * ADDR_LIMIT <= (TAG_LIMIT - 1) * ADDR_LIMIT;
    MaskIsMod(Pack(w), 47);
    DivModUnique(Pack(w), ADDR_LIMIT, tag, w.addr);
  }

  /** What a swing stores, computed from the word it expects, is the next version. */
  lemma JoinIsNextVersion(w: Tagged, node: nat)
    requires w.addr < ADDR_LIMIT && node < ADDR_LIMIT
    ensures Join(node, NextIndex(Pack(w))) == Pack(Tagged(node, w.ver + 1))
  {
    hide Pow2;
    LimitsArePowers();
    PackRoundTrip(w);
    var tag := w.ver % TAG_LIMIT;
    var tag' := (w.ver + 1) % TAG_LIMIT;
    var q := w.ver / TAG_LIMIT;
    assert w.ver == q * TAG_LIMIT + tag;
    if tag + 1 < TAG_LIMIT {
      DivModUnique(w.ver + 1, TAG_LIMIT, q, tag + 1);
      assert (tag + 1) * ADDR_LIMIT < WORD_LIMIT;
    } else {
      DivModUnique(w.ver + 1, TAG_LIMIT, q + 1, 0);
      assert (tag + 1) * ADDR_LIMIT == WORD_LIMIT;
    }
    assert ((tag + 1) * ADDR_LIMIT) % WORD_LIMIT == tag' * ADDR_LIMIT;
    OrDisjointIsSum(node, tag', 47);
  }

  /** Exactly when two 64-bit words compare equal. */
  lemma PackEqualIff(a: Tagged, b: Tagged)
    requires a.addr < ADDR_LIMIT && b.addr < ADDR_LIMIT
    ensures Pack(a) == Pack(b) <==> a.addr == b.addr && a.ver % TAG_LIMIT == b.ver % TAG_LIMIT
  {
    PackRoundTrip(a);
    PackRoundTrip(b);
  }

  /** With fewer than 2^17 swings in between, a 64-bit comparison is a comparison of versions. */
  lemma PackExactWithinWindow(old': Tagged, now: Tagged)
    requires old'.addr < ADDR_LIMIT && now.addr < ADDR_LIMIT
    requires old'.ver <= now.ver < old'.ver + TAG_LIMIT
    ensures TAG_LIMIT == Pow2(17)
    ensures Pack(old') == Pack(now) <==> old' == now
  {
    hide Pow2;
    LimitsArePowers();
    PackEqualIff(old', now);
    var d := now.ver - old'.ver;
    if old'.ver % TAG_LIMIT == now.ver % TAG_LIMIT {
      var p, q := old'.ver / TAG_LIMIT, now.ver / TAG_LIMIT;
      assert old'.ver == p * TAG_LIMIT + old'.ver % TAG_LIMIT;
      assert now.ver == q * TAG_LIMIT + now.ver % TAG_LIMIT;
      assert d == (q - p) * TAG_LIMIT;
    }
  }
}
