/** The chain of small blocks of the nginx-style pool: first-fit placement, the bounds of a placement, and the failure
    counters that move the search head. */
module NginxChain {

  const HEADER: nat := 32          // sizeof(SmallBlock)
  const ALIGNMENT: nat := 16
  const MAX_ALLOC: nat := 4095
  const MIN_POOL: nat := 80        // AlignSize(sizeof(MemoryPool) + 2 * sizeof(LargeBlock), 16)
  const DEFAULT_POOL: nat := 16384
  const ADDRESSES: nat := 0x1_0000_0000_0000_0000

  /** Both AlignSize and AlignPtr at the pool's alignment. */
  function AlignUp(p: nat): (r: nat)
    ensures r % ALIGNMENT == 0 && p <= r < p + ALIGNMENT
  {
    (p + ALIGNMENT - 1) / ALIGNMENT * ALIGNMENT
  }

  /** Conversion of a pointer difference to size_t: negative values wrap around. */
  function SizeT(d: int): (r: nat)
    ensures 0 <= d < ADDRESSES ==> r == d
  {
    d % ADDRESSES
  }

  /** A small block; `next` is the block after it in the chain. */
  datatype SmallBlock = SmallBlock(base: nat, start: nat, end: nat, failed: nat)

  /** The test AllocateSmall makes. */
  predicate Fits(b: SmallBlock, size: nat) {
    SizeT(b.end - AlignUp(b.start)) >= size
  }

  function Place(b: SmallBlock, size: nat): SmallBlock {
    b.(start := AlignUp(b.start) + size)
  }

  ghost predicate BlockOk(b: SmallBlock, poolSize: nat) {
    && b.base > 0 && b.base % ALIGNMENT == 0 && b.end == b.base + poolSize < ADDRESSES
    && b.base + HEADER <= b.start <= b.end
  }

  // ---------------------------------------------------------------- the size test is not a bounds test

  /** The wrapped difference accepts only what fits exactly when the aligned pointer is still inside the block. */
  lemma FitsIsSafeIff(b: SmallBlock)
    requires b.start <= b.end < ADDRESSES
    ensures (forall size: nat | size <= MAX_ALLOC && Fits(b, size) :: AlignUp(b.start) + size <= b.end)
            <==> AlignUp(b.start) <= b.end
  {
    if AlignUp(b.start) > b.end {
      assert SizeT(b.end - AlignUp(b.start)) == ADDRESSES + b.end - AlignUp(b.start);
      assert Fits(b, 0);
    }
  }

  predicate PlacedInside(base: nat, end: nat, start: nat, size: nat) {
    Fits(SmallBlock(base, start, end, 0), size) ==> AlignUp(start) + size <= end
  }

  /** Every placement in a block of a pool stays inside the block, wherever earlier requests left `start`, if and
      only if the pool size is a multiple of 16. */
  lemma PoolSizeIsSafeIff(base: nat, end: nat, poolSize: nat)
    requires base > 0 && base % ALIGNMENT == 0 && HEADER <= poolSize && end == base + poolSize < ADDRESSES
    ensures (forall start, size | base + HEADER <= start <= end && 0 <= size <= MAX_ALLOC :: PlacedInside(base, end, start, size))
            <==> poolSize % ALIGNMENT == 0
  {
    if poolSize % ALIGNMENT == 0 {
      forall start, size | base + HEADER <= start <= end && 0 <= size <= MAX_ALLOC
        ensures PlacedInside(base, end, start, size)
      {
        AlignedInside(start, end);
        FitsIsSafeIff(SmallBlock(base, start, end, 0));
      }
    } else {
      assert AlignUp(end) > end;
      assert SizeT(end - AlignUp(end)) == ADDRESSES + end - AlignUp(end);
      assert !PlacedInside(base, end, end, 0);
    }
  }

  lemma AlignedInside(start: nat, end: nat)
    requires start <= end && end % ALIGNMENT == 0
    ensures AlignUp(start) <= end
  {
  }

  // ---------------------------------------------------------------- first fit

  /** The first block from `i` on that takes `size` bytes, or |blocks|. */
  function FirstFit(blocks: seq<SmallBlock>, i: nat, size: nat): (j: nat)
    requires i <= |blocks|
    ensures i <= j <= |blocks|
    ensures forall k | i <= k < j :: !Fits(blocks[k], size)
    ensures j < |blocks| ==> Fits(blocks[j], size)
    decreases |blocks| - i
  {
    if i == |blocks| || Fits(blocks[i], size) then i else FirstFit(blocks, i + 1, size)
  }

  lemma {:induction false} FirstFitIs(blocks: seq<SmallBlock>, i: nat, size: nat, j: nat)
    requires i <= j <= |blocks| && forall k | i <= k < j :: !Fits(blocks[k], size)
    requires j < |blocks| ==> Fits(blocks[j], size)
    ensures FirstFit(blocks, i, size) == j
  {
  }

  // ---------------------------------------------------------------- failure counters

  /** Failures of block `i` when the chain has `n` blocks and had `m` at the last Reset. */
  function Failures(n: nat, m: nat, i: nat): int {
    var late := n - (if i + 1 < m then m else i + 1);
    if late < 6 then late else 6
  }

  /** Index of `current_block_` in that situation. */
  function Head(n: nat, m: nat): nat {
    if n >= m + 6 then n - 6 else 0
  }

  ghost predicate Profile(blocks: seq<SmallBlock>, current: nat, m: nat) {
    && 1 <= m <= |blocks|
    && current == Head(|blocks|, m)
    && forall i | 0 <= i < |blocks| :: blocks[i].failed == Failures(|blocks|, m, i)
  }

  /** What the counters look like in every reachable pool. */
  lemma ProfileShape(blocks: seq<SmallBlock>, current: nat, m: nat)
    requires Profile(blocks, current, m)
    ensures current < |blocks|
    ensures forall i | 0 <= i < current :: blocks[i].failed == 6
    ensures forall i | current <= i < |blocks| :: blocks[i].failed <= 5
    ensures forall i, j | current <= i <= j < |blocks| :: blocks[i].failed >= blocks[j].failed
    ensures blocks[|blocks| - 1].failed == 0
    ensures |blocks| - current <= m + 5
  {
  }

  /** One more failure for every block from `c` on. */
  function AddFailure(blocks: seq<SmallBlock>, c: nat): (r: seq<SmallBlock>)
    ensures |r| == |blocks|
    ensures forall i | 0 <= i < |blocks| :: r[i] == if i < c then blocks[i] else blocks[i].(failed := blocks[i].failed + 1)
  {
    seq(|blocks|, i requires 0 <= i < |blocks| => if i < c then blocks[i] else blocks[i].(failed := blocks[i].failed + 1))
  }

  lemma ProfileGrows(blocks: seq<SmallBlock>, current: nat, m: nat, added: SmallBlock)
    requires Profile(blocks, current, m) && added.failed == 0
    ensures Profile(AddFailure(blocks, current) + [added], Head(|blocks| + 1, m), m)
  {
  }

  /** The head of the search after a failed one, as the loop over the chain computes it: past every block but the
      last that already had more than four failures, and past the last if this failure is its fifth. */
  function HeadAfter(blocks: seq<SmallBlock>, p: nat, head: nat): nat
    requires p < |blocks|
    decreases |blocks| - p
  {
    if p + 1 == |blocks| then
      if blocks[p].failed + 1 > 4 then |blocks| else head
    else
      HeadAfter(blocks, p + 1, if blocks[p].failed > 4 then p + 1 else head)
  }

  /** In a reachable pool that is the closed form: the head trails the tail by six blocks added since Reset. */
  lemma {:induction false} HeadAfterIs(blocks: seq<SmallBlock>, current: nat, m: nat, p: nat, head: nat)
    requires Profile(blocks, current, m) && current <= p < |blocks|
    requires head == if |blocks| < m + 5 then 0 else if p < |blocks| - 5 then p else |blocks| - 5
    ensures HeadAfter(blocks, p, head) == Head(|blocks| + 1, m)
    decreases |blocks| - p
  {
    if p + 1 < |blocks| {
      HeadAfterIs(blocks, current, m, p + 1, if blocks[p].failed > 4 then p + 1 else head);
    }
  }

  // ---------------------------------------------------------------- whole requests

  datatype Chain = Chain(blocks: seq<SmallBlock>, current: nat)

  /** A block from malloc that already holds its first request. */
  function NewBlock(base: nat, poolSize: nat, size: nat): SmallBlock {
    SmallBlock(base, AlignUp(base + HEADER) + size, base + poolSize, 0)
  }

  /** AllocateSmall on the chain; `base` is what malloc would answer. */
  function SmallAlloc(c: Chain, poolSize: nat, size: nat, base: nat): (r: (Chain, nat))
    requires c.current < |c.blocks|
    ensures r.0.current < |r.0.blocks|
  {
    var j := FirstFit(c.blocks, c.current, size);
    if j < |c.blocks| then
      (Chain(c.blocks[j := Place(c.blocks[j], size)], c.current), AlignUp(c.blocks[j].start))
    else if base == 0 then
      (c, 0)
    else
      HeadAfterInside(c.blocks, c.current, c.current);
      (Chain(AddFailure(c.blocks, c.current) + [NewBlock(base, poolSize, size)], HeadAfter(c.blocks, c.current, c.current)),
       AlignUp(base + HEADER))
  }

  lemma {:induction false} HeadAfterInside(blocks: seq<SmallBlock>, p: nat, head: nat)
    requires head <= p < |blocks|
    ensures HeadAfter(blocks, p, head) <= |blocks|
    decreases |blocks| - p
  {
    if p + 1 < |blocks| {
      HeadAfterInside(blocks, p + 1, if blocks[p].failed > 4 then p + 1 else head);
    }
  }

  /** A reachable chain. */
  ghost predicate ChainOk(c: Chain, poolSize: nat, m: nat) {
    && poolSize % ALIGNMENT == 0 && MIN_POOL <= poolSize
    && Profile(c.blocks, c.current, m)
    && (forall i | 0 <= i < |c.blocks| :: BlockOk(c.blocks[i], poolSize))
    && (forall i, j | 0 <= i < j < |c.blocks| :: BasesApart(c.blocks[i].base, c.blocks[j].base, poolSize))
  }

  predicate BasesApart(a: nat, b: nat, poolSize: nat) {
    a + poolSize <= b || b + poolSize <= a
  }

  /** An answer malloc may give for a new block. */
  ghost predicate BlockAnswer(c: Chain, poolSize: nat, base: nat) {
    base != 0 ==>
      && base % ALIGNMENT == 0 && base + poolSize < ADDRESSES
      && forall i | 0 <= i < |c.blocks| :: BasesApart(c.blocks[i].base, base, poolSize)
  }

  /** Requests AllocateSmall is made for: line 157 puts the first request of a new block without a test. */
  predicate RequestOk(poolSize: nat, size: nat) {
    size + HEADER <= poolSize
  }

  /** The first block from the current one on whose end lies `size` bytes past its aligned free part takes the request
      there, and nothing else changes. */
  lemma SmallAllocTakes(c: Chain, poolSize: nat, m: nat, size: nat, base: nat, i: nat)
    requires ChainOk(c, poolSize, m) && c.current <= i < |c.blocks|
    requires AlignUp(c.blocks[i].start) + size <= c.blocks[i].end
    requires forall k | c.current <= k < i :: AlignUp(c.blocks[k].start) + size > c.blocks[k].end
    ensures var p := AlignUp(c.blocks[i].start);
            p > 0 && SmallAlloc(c, poolSize, size, base) == (c.(blocks := c.blocks[i := c.blocks[i].(start := p + size)]), p)
  {
    hide AlignUp, Profile;
    forall k | c.current <= k <= i
      ensures Fits(c.blocks[k], size) <==> k == i
    {
      assert BlockOk(c.blocks[k], poolSize);
      FitsInside(c.blocks[k], poolSize, size);
    }
    hide Fits;
    FirstFitIs(c.blocks, c.current, size, i);
  }

  /** When no block has room, a refusal of malloc changes nothing; otherwise a block joins at the end and takes the
      request behind its header, every block from the current one on counts a failure, and the search head is six
      blocks before the new end once six were added since Reset. */
  lemma SmallAllocAdds(c: Chain, poolSize: nat, m: nat, size: nat, base: nat)
    requires ChainOk(c, poolSize, m)
    requires forall k | c.current <= k < |c.blocks| :: AlignUp(c.blocks[k].start) + size > c.blocks[k].end
    ensures c.current < |c.blocks| && (base == 0 ==> SmallAlloc(c, poolSize, size, 0) == (c, 0))
    ensures base != 0 ==>
              var (c', p) := SmallAlloc(c, poolSize, size, base);
              p == AlignUp(base + HEADER) > 0 && |c'.blocks| == |c.blocks| + 1
              && c'.blocks[|c.blocks|] == SmallBlock(base, p + size, base + poolSize, 0)
              && (forall k | 0 <= k < |c.blocks| ::
                    c'.blocks[k] == if k < c.current then c.blocks[k] else c.blocks[k].(failed := c.blocks[k].failed + 1))
              && c'.current == if |c.blocks| + 1 >= m + 6 then |c.blocks| + 1 - 6 else 0
  {
    ProfileShape(c.blocks, c.current, m);
    HeadAfterIs(c.blocks, c.current, m, c.current, c.current);
    assert HeadAfter(c.blocks, c.current, c.current) == if |c.blocks| + 1 >= m + 6 then |c.blocks| + 1 - 6 else 0;
    hide AlignUp, Profile, HeadAfter;
    forall k | c.current <= k < |c.blocks|
      ensures !Fits(c.blocks[k], size)
    {
      assert BlockOk(c.blocks[k], poolSize);
      FitsInside(c.blocks[k], poolSize, size);
    }
    hide Fits, ChainOk;
    FirstFitIs(c.blocks, c.current, size, |c.blocks|);
  }

  lemma FitsInside(b: SmallBlock, poolSize: nat, size: nat)
    requires BlockOk(b, poolSize) && poolSize % ALIGNMENT == 0
    ensures Fits(b, size) <==> AlignUp(b.start) + size <= b.end
    ensures Fits(b, size) ==> BlockOk(Place(b, size), poolSize)
  {
    AlignedInside(b.start, b.end);
  }

  lemma PlaceOk(c: Chain, poolSize: nat, m: nat, j: nat, size: nat)
    requires ChainOk(c, poolSize, m) && j < |c.blocks| && Fits(c.blocks[j], size)
    ensures ChainOk(Chain(c.blocks[j := Place(c.blocks[j], size)], c.current), poolSize, m)
  {
    FitsInside(c.blocks[j], poolSize, size);
    hide Fits, Head, BlockOk, Failures, AlignUp;
  }

  lemma NewBlockOk(c: Chain, poolSize: nat, size: nat, base: nat)
    requires poolSize % ALIGNMENT == 0 && RequestOk(poolSize, size) && BlockAnswer(c, poolSize, base) && base != 0
    ensures BlockOk(NewBlock(base, poolSize, size), poolSize) && AlignUp(base + HEADER) == base + HEADER
  {
  }

  /** Line 157 puts a new block's first request without a test: it stays inside exactly when header and request fit the
      pool size. */
  lemma NewBlockSafeIff(base: nat, poolSize: nat, size: nat)
    requires base % ALIGNMENT == 0
    ensures NewBlock(base, poolSize, size).start <= NewBlock(base, poolSize, size).end <==> RequestOk(poolSize, size)
  {
  }

  lemma GrowOk(c: Chain, poolSize: nat, m: nat, size: nat, base: nat)
    requires ChainOk(c, poolSize, m) && RequestOk(poolSize, size) && BlockAnswer(c, poolSize, base) && base != 0
    ensures c.current < |c.blocks|
    ensures ChainOk(Chain(AddFailure(c.blocks, c.current) + [NewBlock(base, poolSize, size)],
                          HeadAfter(c.blocks, c.current, c.current)), poolSize, m)
  {
    ProfileShape(c.blocks, c.current, m);
    HeadAfterIs(c.blocks, c.current, m, c.current, c.current);
    hide HeadAfter;
    NewBlockOk(c, poolSize, size, base);
    ProfileGrows(c.blocks, c.current, m, NewBlock(base, poolSize, size));
    hide Profile, Head, RequestOk, AlignUp;
  }

  lemma SmallAllocOk(c: Chain, poolSize: nat, m: nat, size: nat, base: nat)
    requires ChainOk(c, poolSize, m) && RequestOk(poolSize, size) && BlockAnswer(c, poolSize, base)
    ensures c.current < |c.blocks| && ChainOk(SmallAlloc(c, poolSize, size, base).0, poolSize, m)
  {
    ProfileShape(c.blocks, c.current, m);
    hide ChainOk, Fits, BlockAnswer, RequestOk, AddFailure, NewBlock, HeadAfter, Profile;
    var j := FirstFit(c.blocks, c.current, size);
    if j < |c.blocks| {
      PlaceOk(c, poolSize, m, j, size);
    } else if base != 0 {
      GrowOk(c, poolSize, m, size, base);
    }
  }
}
