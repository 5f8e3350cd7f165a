/** The nginx-style pool: its chain of small blocks, the lists threaded through them, and its dealings with libc. */
module NginxPool {
  import opened Options
  import opened NginxChain
  import opened NginxReplay
  import opened NginxLedger

  const LARGE_NODE: nat := 16      // sizeof(LargeBlock)
  const CLEANUP_NODE: nat := 24    // sizeof(CleanupBlock)

  /** List nodes, newest first; `node` is their own address inside a small block. */
  datatype LargeBlock = LargeBlock(node: nat, alloc: nat)
  datatype CleanupBlock = CleanupBlock(node: nat, handler: nat, data: nat)

  /** A region handed out of block `i` since the last Reset. */
  datatype Given = Given(lo: nat, len: nat, i: nat)

  ghost predicate GivenApart(r: Given, s: Given) {
    r.lo + r.len <= s.lo || s.lo + s.len <= r.lo
  }

  ghost predicate InBlock(r: Given, blocks: seq<SmallBlock>) {
    && r.i < |blocks| && r.lo % ALIGNMENT == 0
    && blocks[r.i].base + HEADER <= r.lo && r.lo + r.len <= blocks[r.i].start
  }

  /** Everything handed out is aligned, past the header of its block, before the block's free part, and disjoint. */
  ghost predicate GivenOk(given: seq<Given>, blocks: seq<SmallBlock>) {
    && (forall k | 0 <= k < |given| :: InBlock(given[k], blocks))
    && (forall k, l | 0 <= k < l < |given| :: GivenApart(given[k], given[l]))
  }

  lemma GivenInBlock(given: seq<Given>, c: Chain, poolSize: nat, m: nat, j: nat, size: nat)
    requires GivenOk(given, c.blocks) && ChainOk(c, poolSize, m) && j < |c.blocks| && Fits(c.blocks[j], size)
    ensures GivenOk(given + [Given(AlignUp(c.blocks[j].start), size, j)], c.blocks[j := Place(c.blocks[j], size)])
  {
    var b, r, blocks' := c.blocks[j], Given(AlignUp(c.blocks[j].start), size, j), c.blocks[j := Place(c.blocks[j], size)];
    FitsInside(b, poolSize, size);
    forall k | 0 <= k < |given|
      ensures InBlock(given[k], blocks') && GivenApart(given[k], r)
    {
      assert InBlock(given[k], c.blocks) && BlockOk(c.blocks[given[k].i], poolSize);
    }
  }

  lemma GivenInNewBlock(given: seq<Given>, c: Chain, poolSize: nat, m: nat, size: nat, base: nat)
    requires GivenOk(given, c.blocks) && ChainOk(c, poolSize, m) && BlockAnswer(c, poolSize, base) && base != 0
    requires RequestOk(poolSize, size)
    ensures GivenOk(given + [Given(AlignUp(base + HEADER), size, |c.blocks|)],
                    AddFailure(c.blocks, c.current) + [NewBlock(base, poolSize, size)])
  {
    var r, blocks' := Given(AlignUp(base + HEADER), size, |c.blocks|), AddFailure(c.blocks, c.current) + [NewBlock(base, poolSize, size)];
    NewBlockOk(c, poolSize, size, base);
    forall k | 0 <= k < |given|
      ensures InBlock(given[k], blocks') && GivenApart(given[k], r)
    {
      assert InBlock(given[k], c.blocks) && BlockOk(c.blocks[given[k].i], poolSize);
    }
  }

  // ---------------------------------------------------------------- what is held

  ghost function Bases(blocks: seq<SmallBlock>): set<nat> {
    set i | 0 <= i < |blocks| :: blocks[i].base
  }

  ghost function Allocs(large: seq<LargeBlock>): set<nat> {
    set i | 0 <= i < |large| && large[i].alloc != 0 :: large[i].alloc
  }

  ghost predicate Gettable(blocks: seq<SmallBlock>, large: seq<LargeBlock>, hand: set<nat>, p: nat) {
    p != 0 ==> p !in Bases(blocks) + Allocs(large) + hand
  }

  ghost predicate Addable(c: Chain, poolSize: nat, large: seq<LargeBlock>, hand: set<nat>, base: nat) {
    BlockAnswer(c, poolSize, base) && Gettable(c.blocks, large, hand, base)
  }

  ghost predicate OwnNodes(large: seq<LargeBlock>, cleanup: seq<CleanupBlock>, nodes: set<nat>) {
    && (forall i | 0 <= i < |large| :: large[i].node in nodes)
    && (forall i | 0 <= i < |cleanup| :: cleanup[i].node in nodes)
  }

  /** Live large allocations are pairwise distinct; none is a small block; the call in progress holds neither. */
  ghost predicate AllocsDistinct(large: seq<LargeBlock>, blocks: seq<SmallBlock>, hand: set<nat>) {
    && (forall i, j | 0 <= i < j < |large| && large[i].alloc != 0 :: large[i].alloc != large[j].alloc)
    && Bases(blocks) !! Allocs(large) && Bases(blocks) !! hand && Allocs(large) !! hand
  }

  ghost predicate Spans(held: map<nat, nat>, blocks: seq<SmallBlock>) {
    forall i | 0 <= i < |blocks| :: blocks[i].base in held && blocks[i].base + held[blocks[i].base] == blocks[i].end
  }

  /** Inside a small block, past its header. */
  ghost predicate InSomeBlock(a: nat, blocks: seq<SmallBlock>) {
    exists i | 0 <= i < |blocks| :: blocks[i].base <= a < blocks[i].end
  }

  lemma InBlockIsCovered(held: map<nat, nat>, blocks: seq<SmallBlock>, a: nat)
    requires Spans(held, blocks) && InSomeBlock(a, blocks)
    ensures Covered(held, a)
  {
  }

  lemma GivenIsInBlock(given: seq<Given>, blocks: seq<SmallBlock>, poolSize: nat, a: nat, len: nat)
    requires NodeGiven(a, len, given) && len > 0 && GivenOk(given, blocks)
    requires forall i | 0 <= i < |blocks| :: BlockOk(blocks[i], poolSize)
    ensures InSomeBlock(a, blocks)
  {
    var k :| 0 <= k < |given| && given[k].lo == a && given[k].len == len;
    assert InBlock(given[k], blocks) && BlockOk(blocks[given[k].i], poolSize);
  }

  /** The event log is legal and ends with exactly the pool's blocks, its live large allocations and what the call in
      progress has malloc'd held. */
  ghost predicate Audited(log: seq<Event>, blocks: seq<SmallBlock>, large: seq<LargeBlock>, cleanup: seq<CleanupBlock>, hand: set<nat>) {
    && Audit(log).Some?
    && Audit(log).value.held.Keys == Bases(blocks) + Allocs(large) + hand
    && Spans(Audit(log).value.held, blocks)
    && OwnNodes(large, cleanup, Audit(log).value.nodes)
  }

  /** Every list node lies in memory that was handed out for it, so no client region overlaps it. */
  ghost predicate NodesGiven(large: seq<LargeBlock>, cleanup: seq<CleanupBlock>, given: seq<Given>) {
    && (forall i | 0 <= i < |large| :: NodeGiven(large[i].node, LARGE_NODE, given))
    && (forall i | 0 <= i < |cleanup| :: NodeGiven(cleanup[i].node, CLEANUP_NODE, given))
  }

  ghost predicate NodeGiven(node: nat, len: nat, given: seq<Given>) {
    exists k | 0 <= k < |given| :: given[k].lo == node && given[k].len == len
  }

  lemma NodeStaysGiven(node: nat, len: nat, given: seq<Given>, given': seq<Given>)
    requires NodeGiven(node, len, given) && given <= given'
    ensures NodeGiven(node, len, given')
  {
    var k :| 0 <= k < |given| && given[k].lo == node && given[k].len == len;
    assert given'[k] == given[k];
  }

  lemma NodesStayGiven(large: seq<LargeBlock>, cleanup: seq<CleanupBlock>, given: seq<Given>, given': seq<Given>)
    requires NodesGiven(large, cleanup, given) && given <= given'
    ensures NodesGiven(large, cleanup, given')
  {
    forall i | 0 <= i < |large|
      ensures NodeGiven(large[i].node, LARGE_NODE, given')
    {
      NodeStaysGiven(large[i].node, LARGE_NODE, given, given');
    }
    forall i | 0 <= i < |cleanup|
      ensures NodeGiven(cleanup[i].node, CLEANUP_NODE, given')
    {
      NodeStaysGiven(cleanup[i].node, CLEANUP_NODE, given, given');
    }
  }

  /** `len` bytes at `p` joined what was handed out. */
  ghost predicate GotSmall(given: seq<Given>, given': seq<Given>, p: nat, len: nat) {
    |given'| == |given| + 1 && given <= given' && given'[|given|].lo == p && given'[|given|].len == len
  }

  lemma GivenPrefix(given: seq<Given>, given': seq<Given>, p: nat, len: nat)
    ensures GotSmall(given, given', p, len) ==> given <= given'
  {
  }

  lemma Joined(given: seq<Given>, given': seq<Given>, p: nat, len: nat, i: nat)
    requires given' == given + [Given(p, len, i)]
    ensures GotSmall(given, given', p, len)
  {
  }

  lemma FitsNow(b: SmallBlock, bytes: nat)
    ensures Fits(b, bytes) <==> SizeT(b.end - AlignUp(b.start)) >= bytes
  {
  }

  /** A new block joins the chain and the log. */
  lemma AuditedBlock(log: seq<Event>, blocks: seq<SmallBlock>, large: seq<LargeBlock>, cleanup: seq<CleanupBlock>,
                     hand: set<nat>, blocks': seq<SmallBlock>, base: nat, len: nat)
    requires Audited(log, blocks, large, cleanup, hand) && AllocsDistinct(large, blocks, hand)
    requires base != 0 && Gettable(blocks, large, hand, base)
    requires |blocks'| == |blocks| + 1 && blocks'[|blocks|].base == base && blocks'[|blocks|].end == base + len
    requires forall i | 0 <= i < |blocks| :: blocks'[i].base == blocks[i].base && blocks'[i].end == blocks[i].end
    ensures Audited(log + [Malloc(base, len)], blocks', large, cleanup, hand) && AllocsDistinct(large, blocks', hand)
    ensures Runs(log + [Malloc(base, len)]) == Runs(log)
  {
    AuditNext(log, Malloc(base, len));
    RunsNext(log, Malloc(base, len));
    assert Bases(blocks') == Bases(blocks) + {base} by {
      forall b | b in Bases(blocks) + {base}
        ensures b in Bases(blocks')
      {
        var i :| 0 <= i < |blocks'| && blocks'[i].base == b;
      }
    }
  }

  lemma AuditedSameBases(log: seq<Event>, blocks: seq<SmallBlock>, large: seq<LargeBlock>, cleanup: seq<CleanupBlock>,
                         hand: set<nat>, blocks': seq<SmallBlock>)
    requires Audited(log, blocks, large, cleanup, hand) && AllocsDistinct(large, blocks, hand) && |blocks'| == |blocks|
    requires forall i | 0 <= i < |blocks| :: blocks'[i].base == blocks[i].base && blocks'[i].end == blocks[i].end
    ensures Audited(log, blocks', large, cleanup, hand) && AllocsDistinct(large, blocks', hand)
  {
    assert Bases(blocks') == Bases(blocks);
  }

  /** Any size between 80 and 16384 is taken as it is; others become the nearer bound. */
  function Clamp(size: nat): (r: nat)
    ensures MIN_POOL <= r <= DEFAULT_POOL
    ensures MIN_POOL <= size <= DEFAULT_POOL ==> r == size
    ensures size < MIN_POOL ==> r == MIN_POOL
    ensures size > DEFAULT_POOL ==> r == DEFAULT_POOL
  {
    var s := if size < MIN_POOL then MIN_POOL else size;
    if s > DEFAULT_POOL then DEFAULT_POOL else s
  }

  // ---------------------------------------------------------------- events on the lists

  lemma AuditedTouch(log: seq<Event>, blocks: seq<SmallBlock>, large: seq<LargeBlock>, cleanup: seq<CleanupBlock>,
                     hand: set<nat>, a: nat)
    requires Audited(log, blocks, large, cleanup, hand)
    requires (exists i :: 0 <= i < |large| && large[i].node == a) || (exists i :: 0 <= i < |cleanup| && cleanup[i].node == a)
    ensures Audited(log + [Touch(a)], blocks, large, cleanup, hand) && Runs(log + [Touch(a)]) == Runs(log)
  {
    AuditNext(log, Touch(a));
    RunsNext(log, Touch(a));
  }

  /** malloc into the hand. */
  /** Regions other than the blocks may come and go. */
  lemma SpansKeep(held: map<nat, nat>, held': map<nat, nat>, blocks: seq<SmallBlock>, p: nat)
    requires Spans(held, blocks) && p !in Bases(blocks) && held' - {p} == held - {p}
    ensures Spans(held', blocks)
  {
    forall i | 0 <= i < |blocks|
      ensures blocks[i].base in held' && blocks[i].base + held'[blocks[i].base] == blocks[i].end
    {
      var b := blocks[i].base;
      assert b in Bases(blocks) && b in held - {p};
      assert (held' - {p})[b] == (held - {p})[b];
    }
  }

  lemma AuditedGet(log: seq<Event>, blocks: seq<SmallBlock>, large: seq<LargeBlock>, cleanup: seq<CleanupBlock>,
                   hand: set<nat>, p: nat, len: nat)
    requires Audited(log, blocks, large, cleanup, hand) && AllocsDistinct(large, blocks, hand)
    requires p != 0 && Gettable(blocks, large, hand, p)
    ensures Audited(log + [Malloc(p, len)], blocks, large, cleanup, hand + {p}) && AllocsDistinct(large, blocks, hand + {p})
    ensures Runs(log + [Malloc(p, len)]) == Runs(log)
  {
    assert p !in Bases(blocks);
    SpansKeep(Audit(log).value.held, Audit(log).value.held[p := len], blocks, p);
    AuditNext(log, Malloc(p, len));
    RunsNext(log, Malloc(p, len));
  }

  /** free from the hand. */
  lemma AuditedPutBack(log: seq<Event>, blocks: seq<SmallBlock>, large: seq<LargeBlock>, cleanup: seq<CleanupBlock>,
                       hand: set<nat>, p: nat)
    requires Audited(log, blocks, large, cleanup, hand) && AllocsDistinct(large, blocks, hand) && p in hand
    ensures Audited(log + [Free(p, 0)], blocks, large, cleanup, hand - {p}) && AllocsDistinct(large, blocks, hand - {p})
    ensures Runs(log + [Free(p, 0)]) == Runs(log)
  {
    SpansKeep(Audit(log).value.held, Audit(log).value.held - {p}, blocks, p);
    AuditNext(log, Free(p, 0));
    RunsNext(log, Free(p, 0));
    assert Bases(blocks) + Allocs(large) + hand - {p} == Bases(blocks) + Allocs(large) + (hand - {p});
  }

  lemma AllocsSet(large: seq<LargeBlock>, i: nat, p: nat)
    requires i < |large| && large[i].alloc == 0 && p != 0
    ensures Allocs(large[i := large[i].(alloc := p)]) == Allocs(large) + {p}
  {
    var large' := large[i := large[i].(alloc := p)];
    forall a | a in Allocs(large) + {p}
      ensures a in Allocs(large')
    {
      if a in Allocs(large) {
        var k :| 0 <= k < |large| && large[k].alloc != 0 && large[k].alloc == a;
        assert large'[k].alloc == a;
      } else {
        assert large'[i].alloc == p;
      }
    }
  }

  lemma AllocsClear(large: seq<LargeBlock>, i: nat)
    requires i < |large| && large[i].alloc != 0
    requires forall k, l | 0 <= k < l < |large| && large[k].alloc != 0 :: large[k].alloc != large[l].alloc
    ensures Allocs(large[i := large[i].(alloc := 0)]) == Allocs(large) - {large[i].alloc}
  {
    var large' := large[i := large[i].(alloc := 0)];
    forall a | a in Allocs(large) - {large[i].alloc}
      ensures a in Allocs(large')
    {
      var k :| 0 <= k < |large| && large[k].alloc != 0 && large[k].alloc == a;
      assert large'[k].alloc == a;
    }
  }

  lemma AllocsPush(large: seq<LargeBlock>, b: LargeBlock)
    requires b.alloc != 0
    ensures Allocs([b] + large) == Allocs(large) + {b.alloc}
  {
    var large' := [b] + large;
    forall a | a in Allocs(large) + {b.alloc}
      ensures a in Allocs(large')
    {
      if a in Allocs(large) {
        var k :| 0 <= k < |large| && large[k].alloc != 0 && large[k].alloc == a;
        assert large'[k + 1].alloc == a;
      } else {
        assert large'[0].alloc == a;
      }
    }
  }

  /** A freed header takes what is in the hand. */
  lemma AuditedReuse(log: seq<Event>, blocks: seq<SmallBlock>, large: seq<LargeBlock>, cleanup: seq<CleanupBlock>,
                     hand: set<nat>, i: nat, p: nat)
    requires Audited(log, blocks, large, cleanup, hand) && AllocsDistinct(large, blocks, hand)
    requires p in hand && p != 0 && i < |large| && large[i].alloc == 0
    ensures Audited(log, blocks, large[i := large[i].(alloc := p)], cleanup, hand - {p})
    ensures AllocsDistinct(large[i := large[i].(alloc := p)], blocks, hand - {p})
  {
    AllocsSet(large, i, p);
    assert forall k | 0 <= k < |large| && large[k].alloc != 0 :: large[k].alloc in Allocs(large);
    assert Bases(blocks) + Allocs(large) + hand == Bases(blocks) + (Allocs(large) + {p}) + (hand - {p});
  }

  /** A new header takes what is in the hand. */
  lemma AuditedPush(log: seq<Event>, blocks: seq<SmallBlock>, large: seq<LargeBlock>, cleanup: seq<CleanupBlock>,
                    hand: set<nat>, node: nat, p: nat)
    requires Audited(log, blocks, large, cleanup, hand) && AllocsDistinct(large, blocks, hand) && p in hand && p != 0
    requires InSomeBlock(node, blocks)
    ensures Audited(log + [Node(node)], blocks, [LargeBlock(node, p)] + large, cleanup, hand - {p})
    ensures AllocsDistinct([LargeBlock(node, p)] + large, blocks, hand - {p}) && Runs(log + [Node(node)]) == Runs(log)
  {
    InBlockIsCovered(Audit(log).value.held, blocks, node);
    AuditNext(log, Node(node));
    RunsNext(log, Node(node));
    AllocsPush(large, LargeBlock(node, p));
    assert forall k | 0 <= k < |large| && large[k].alloc != 0 :: large[k].alloc in Allocs(large);
    assert Bases(blocks) + Allocs(large) + hand == Bases(blocks) + (Allocs(large) + {p}) + (hand - {p});
  }

  /** A live large allocation is freed and its header kept. */
  lemma AuditedRelease(log: seq<Event>, blocks: seq<SmallBlock>, large: seq<LargeBlock>, cleanup: seq<CleanupBlock>,
                       hand: set<nat>, i: nat)
    requires Audited(log, blocks, large, cleanup, hand) && AllocsDistinct(large, blocks, hand)
    requires i < |large| && large[i].alloc != 0
    ensures Audited(log + [Free(large[i].alloc, 0)], blocks, large[i := large[i].(alloc := 0)], cleanup, hand)
    ensures AllocsDistinct(large[i := large[i].(alloc := 0)], blocks, hand)
    ensures Runs(log + [Free(large[i].alloc, 0)]) == Runs(log)
  {
    var p := large[i].alloc;
    assert p in Allocs(large);
    SpansKeep(Audit(log).value.held, Audit(log).value.held - {p}, blocks, p);
    AuditNext(log, Free(p, 0));
    RunsNext(log, Free(p, 0));
    assert p in Allocs(large);
    AllocsClear(large, i);
    assert Bases(blocks) + Allocs(large) + hand - {p} == Bases(blocks) + (Allocs(large) - {p}) + hand;
  }

  lemma NodesOfUpdate(large: seq<LargeBlock>, cleanup: seq<CleanupBlock>, given: seq<Given>, i: nat, p: nat)
    requires NodesGiven(large, cleanup, given) && i < |large|
    ensures NodesGiven(large[i := large[i].(alloc := p)], cleanup, given)
  {
  }

  lemma NodesOfPush(large: seq<LargeBlock>, cleanup: seq<CleanupBlock>, before: seq<Given>, given: seq<Given>, node: nat, p: nat)
    requires NodesGiven(large, cleanup, given) && GotSmall(before, given, node, LARGE_NODE)
    ensures NodesGiven([LargeBlock(node, p)] + large, cleanup, given)
  {
    var large' := [LargeBlock(node, p)] + large;
    assert NodeGiven(node, LARGE_NODE, given);
    forall i | 0 <= i < |large'|
      ensures NodeGiven(large'[i].node, LARGE_NODE, given)
    {
      if i > 0 {
        assert large'[i] == large[i - 1];
      }
    }
  }

  lemma NodesOfCleanup(large: seq<LargeBlock>, cleanup: seq<CleanupBlock>, given0: seq<Given>, given1: seq<Given>,
                       given: seq<Given>, c: nat, data: nat)
    requires NodesGiven(large, cleanup, given) && GotSmall(given0, given1, c, CLEANUP_NODE) && given1 <= given
    ensures NodesGiven(large, [CleanupBlock(c, 0, data)] + cleanup, given)
  {
    var cleanup' := [CleanupBlock(c, 0, data)] + cleanup;
    assert NodeGiven(c, CLEANUP_NODE, given1);
    NodeStaysGiven(c, CLEANUP_NODE, given1, given);
    forall i | 0 <= i < |cleanup'|
      ensures NodeGiven(cleanup'[i].node, CLEANUP_NODE, given)
    {
      if i > 0 {
        assert cleanup'[i] == cleanup[i - 1];
      }
    }
  }

  /** A fresh cleanup node at `c` in front of the list, with its handler unset and data of `bytes` bytes: a region of
      the small blocks, or the answer of malloc. */
  ghost predicate Linked(cleanup: seq<CleanupBlock>, cleanup': seq<CleanupBlock>, c: nat, bytes: nat, memory: nat, given: seq<Given>) {
    && cleanup' != [] && cleanup'[1..] == cleanup && cleanup'[0].node == c && cleanup'[0].handler == 0
    && (cleanup'[0].data == 0 <==> bytes == 0)
    && (0 < bytes <= MAX_ALLOC ==> NodeGiven(cleanup'[0].data, bytes, given))
    && (bytes > MAX_ALLOC ==> cleanup'[0].data == memory)
  }

  lemma LinkedIs(cleanup: seq<CleanupBlock>, cleanup': seq<CleanupBlock>, c: nat, data: nat, bytes: nat, memory: nat, given: seq<Given>)
    requires cleanup' == [CleanupBlock(c, 0, data)] + cleanup && (data == 0 <==> bytes == 0)
    requires 0 < bytes <= MAX_ALLOC ==> NodeGiven(data, bytes, given)
    requires bytes > MAX_ALLOC ==> data == memory
    ensures Linked(cleanup, cleanup', c, bytes, memory, given)
  {
  }

  lemma DataGiven(before: seq<Given>, given: seq<Given>, p: nat, len: nat)
    ensures GotSmall(before, given, p, len) ==> NodeGiven(p, len, given)
  {
  }

  /** The first header whose allocation was freed, or |large|. */
  function FirstFreed(large: seq<LargeBlock>, i: nat): (j: nat)
    requires i <= |large|
    ensures i <= j <= |large|
    ensures forall k | i <= k < j :: large[k].alloc != 0
    ensures j < |large| ==> large[j].alloc == 0
    decreases |large| - i
  {
    if i == |large| || large[i].alloc == 0 then i else FirstFreed(large, i + 1)
  }

  /** Whether AllocateLarge finds a header to reuse: it looks at five at most. */
  predicate Reuses(large: seq<LargeBlock>) {
    var k := FirstFreed(large, 0);
    k < |large| && k <= 4
  }

  function Reused(large: seq<LargeBlock>, p: nat): seq<LargeBlock> {
    var k := FirstFreed(large, 0);
    if k < |large| then large[k := large[k].(alloc := p)] else large
  }

  /** The chain after a small request and the address it gets. */
  function PlacementIn(c: Chain, poolSize: nat, bytes: nat, base: nat): (Chain, nat) {
    if c.current < |c.blocks| then SmallAlloc(c, poolSize, bytes, base) else (c, 0)
  }

  /** What a request does: chain and large list after it, its answer, and the events it adds to the log. */
  datatype Effect = Effect(chain: Chain, large: seq<LargeBlock>, p: nat, events: seq<Event>)

  function Added(before: Chain, after: Chain, base: nat, poolSize: nat): seq<Event> {
    if |after.blocks| > |before.blocks| then [Malloc(base, poolSize)] else []
  }

  /** The headers AllocateLarge looks at: up to the first freed one, and five at most. */
  function Looked(large: seq<LargeBlock>): (k: nat)
    ensures k <= |large| && k <= 5
  {
    if Reuses(large) then FirstFreed(large, 0) + 1 else if |large| < 5 then |large| else 5
  }

  function TouchLog(large: seq<LargeBlock>, k: nat): seq<Event>
    requires k <= |large|
  {
    if k == 0 then [] else TouchLog(large, k - 1) + [Touch(large[k - 1].node)]
  }

  function SmallEffect(c: Chain, poolSize: nat, large: seq<LargeBlock>, bytes: nat, base: nat): Effect {
    var (chain, p) := PlacementIn(c, poolSize, bytes, base);
    Effect(chain, large, p, Added(c, chain, base, poolSize))
  }

  /** The memory at `p` gets a header, or is freed again. */
  function HeaderEffect(c: Chain, poolSize: nat, large: seq<LargeBlock>, p: nat, base: nat): Effect {
    var (chain, node) := PlacementIn(c, poolSize, LARGE_NODE, base);
    var added := Added(c, chain, base, poolSize);
    if node == 0 then Effect(chain, large, 0, added + [Free(p, 0)])
    else Effect(chain, [LargeBlock(node, p)] + large, p, added + [Node(node)])
  }

  function LargeEffect(c: Chain, poolSize: nat, large: seq<LargeBlock>, bytes: nat, memory: nat, base: nat): Effect {
    var looked := [Malloc(memory, bytes)] + TouchLog(large, Looked(large));
    if memory == 0 then Effect(c, large, 0, [])
    else if Reuses(large) then Effect(c, Reused(large, memory), memory, looked)
    else
      var e := HeaderEffect(c, poolSize, large, memory, base);
      e.(events := looked + e.events)
  }

  function RequestEffect(c: Chain, poolSize: nat, large: seq<LargeBlock>, bytes: nat, memory: nat, base: nat): Effect {
    if bytes <= MAX_ALLOC then SmallEffect(c, poolSize, large, bytes, base)
    else LargeEffect(c, poolSize, large, bytes, memory, base)
  }

  /** The data of a cleanup node, if any is asked for. */
  function DataEffect(c: Chain, poolSize: nat, large: seq<LargeBlock>, bytes: nat, memory: nat, base: nat): Effect {
    if bytes == 0 then Effect(c, large, 0, []) else RequestEffect(c, poolSize, large, bytes, memory, base)
  }

  /** The data of the cleanup node at `node`, and the node itself in front of the list unless its data is refused. */
  function LinkEffect(c: Chain, poolSize: nat, large: seq<LargeBlock>, cleanup: seq<CleanupBlock>,
                      node: nat, bytes: nat, memory: nat, base: nat): (Effect, seq<CleanupBlock>)
  {
    var e := DataEffect(c, poolSize, large, bytes, memory, base);
    if bytes != 0 && e.p == 0 then (e, cleanup)
    else (e.(p := node, events := e.events + [Node(node)]), [CleanupBlock(node, 0, e.p)] + cleanup)
  }

  function CleanupEffect(c: Chain, poolSize: nat, large: seq<LargeBlock>, cleanup: seq<CleanupBlock>,
                         bytes: nat, base0: nat, memory: nat, base1: nat): (Effect, seq<CleanupBlock>)
  {
    var e := SmallEffect(c, poolSize, large, CLEANUP_NODE, base0);
    if e.p == 0 then (e, cleanup)
    else
      var (d, cleanup') := LinkEffect(e.chain, poolSize, large, cleanup, e.p, bytes, memory, base1);
      (d.(events := e.events + d.events), cleanup')
  }

  /** The first of the first five headers whose allocation was freed takes the new one.  The chain and every other
      header stay; the headers up to that one are looked at. */
  lemma LargeReuses(c: Chain, poolSize: nat, large: seq<LargeBlock>, bytes: nat, memory: nat, base: nat, i: nat)
    requires memory != 0 && i < |large| && i < 5 && large[i].alloc == 0
    requires forall k | 0 <= k < i :: large[k].alloc != 0
    ensures var e := LargeEffect(c, poolSize, large, bytes, memory, base);
            e.chain == c && e.large == large[i := large[i].(alloc := memory)] && e.p == memory
            && |e.events| == i + 2 && e.events[0] == Malloc(memory, bytes)
            && forall k | 0 <= k <= i :: e.events[k + 1] == Touch(large[k].node)
  {
    hide HeaderEffect, TouchLog;
    assert FirstFreed(large, 0) == i;
    TouchesInOrder(large, i + 1);
  }

  /** Without such a header a new one is taken from the small blocks and goes in front of the list; if none can be had
      the memory is freed again.  Five headers at most are looked at. */
  lemma LargeNeedsHeader(c: Chain, poolSize: nat, large: seq<LargeBlock>, bytes: nat, memory: nat, base: nat)
    requires memory != 0 && c.current < |c.blocks|
    requires forall k | 0 <= k < |large| && k < 5 :: large[k].alloc != 0
    ensures var e := LargeEffect(c, poolSize, large, bytes, memory, base);
            var (c', node) := SmallAlloc(c, poolSize, LARGE_NODE, base);
            var n := if |large| < 5 then |large| else 5;
            var grown := if |c'.blocks| > |c.blocks| then [Malloc(base, poolSize)] else [];
            e.chain == c' && |e.events| > n && e.events[0] == Malloc(memory, bytes)
            && (forall k | 0 <= k < n :: e.events[k + 1] == Touch(large[k].node))
            && e.events[n + 1..] == grown + (if node == 0 then [Free(memory, 0)] else [Node(node)])
            && e.large == (if node == 0 then large else [LargeBlock(node, memory)] + large)
            && e.p == if node == 0 then 0 else memory
  {
    hide SmallAlloc, TouchLog;
    var n := if |large| < 5 then |large| else 5;
    TouchesInOrder(large, n);
  }

  /** The same about the log the events are added to. */
  lemma LargeReusesLog(c: Chain, poolSize: nat, large: seq<LargeBlock>, bytes: nat, memory: nat, base: nat, log: seq<Event>)
    ensures var e := LargeEffect(c, poolSize, large, bytes, memory, base);
            var log' := log + e.events;
            memory != 0 ==> forall i | 0 <= i < |large| && i < 5 && large[i].alloc == 0 && (forall k | 0 <= k < i :: large[k].alloc != 0) ::
              e.p == memory && e.chain == c && e.large == large[i := large[i].(alloc := memory)]
              && |log'| == |log| + i + 2 && log'[|log|] == Malloc(memory, bytes)
              && forall k | 0 <= k <= i :: log'[|log| + 1 + k] == Touch(large[k].node)
  {
    var e := LargeEffect(c, poolSize, large, bytes, memory, base);
    var log' := log + e.events;
    forall i: nat | memory != 0 && i < |large| && i < 5 && large[i].alloc == 0 && (forall k | 0 <= k < i :: large[k].alloc != 0)
      ensures e.p == memory && e.chain == c && e.large == large[i := large[i].(alloc := memory)]
      ensures |log'| == |log| + i + 2 && log'[|log|] == Malloc(memory, bytes)
      ensures forall k | 0 <= k <= i :: log'[|log| + 1 + k] == Touch(large[k].node)
    {
      LargeReuses(c, poolSize, large, bytes, memory, base, i);
      hide LargeEffect;
      forall k | 0 <= k <= i
        ensures log'[|log| + 1 + k] == Touch(large[k].node)
      {
        assert log'[|log| + 1 + k] == e.events[k + 1];
      }
    }
  }

  lemma LargeNeedsLog(s: State, bytes: nat, memory: nat, base: nat)
    requires Sound(s)
    ensures var e := LargeEffect(s.chain, s.size, s.large, bytes, memory, base);
            var log := s.log + e.events;
            && (memory == 0 ==> e == Effect(s.chain, s.large, 0, []) && log == s.log)
            && (memory != 0 && (forall i | 0 <= i < |s.large| && i < 5 :: s.large[i].alloc != 0) ==>
                  if e.p == 0 then base == 0 && e.large == s.large && e.chain == s.chain && |log| > 0 && log[|log| - 1] == Free(memory, 0)
                  else e.p == memory && |e.large| == |s.large| + 1 && e.large[1..] == s.large && e.large[0].alloc == memory
                       && |log| > 0 && log[|log| - 1] == Node(e.large[0].node))
  {
    hide Sound, SmallAlloc, HeaderEffect, Reuses, Reused, Looked;
    var e := LargeEffect(s.chain, s.size, s.large, bytes, memory, base);
    SmallRefusals(s, LARGE_NODE, base);
    if memory != 0 && forall i | 0 <= i < |s.large| && i < 5 :: s.large[i].alloc != 0 {
      LargeNeedsHeader(s.chain, s.size, s.large, bytes, memory, base);
      hide LargeEffect;
      var n := if |s.large| < 5 then |s.large| else 5;
      var last := e.events[n + 1..];
      assert |last| > 0 && e.events[|e.events| - 1] == last[|last| - 1];
    }
  }

  lemma SmallRefusals(s: State, bytes: nat, base: nat)
    requires Sound(s)
    ensures s.chain.current < |s.chain.blocks|
    ensures var (c', p) := SmallAlloc(s.chain, s.size, bytes, base);
            p == 0 ==> base == 0 && c' == s.chain
  {
    SoundProfile(s);
    BlocksAreOk(s);
    hide Sound, HeadAfter, Fits, Profile;
    var j := FirstFit(s.chain.blocks, s.chain.current, bytes);
    assert j < |s.chain.blocks| ==> BlockOk(s.chain.blocks[j], s.size);
  }

  lemma {:induction false} TouchesInOrder(large: seq<LargeBlock>, n: nat)
    requires n <= |large|
    ensures |TouchLog(large, n)| == n && forall k | 0 <= k < n :: TouchLog(large, n)[k] == Touch(large[k].node)
  {
    if n > 0 {
      TouchesInOrder(large, n - 1);
    }
  }

  /** What a cleanup node takes: 24 bytes from the small blocks, then its data, which if refused leaves the list
      alone; otherwise the node goes in front with its handler unset. */
  lemma CleanupEffectIs(c: Chain, poolSize: nat, large: seq<LargeBlock>, cleanup: seq<CleanupBlock>,
                        bytes: nat, base0: nat, memory: nat, base1: nat)
    requires c.current < |c.blocks|
    ensures var (e, cleanup') := CleanupEffect(c, poolSize, large, cleanup, bytes, base0, memory, base1);
            var (c1, node) := SmallAlloc(c, poolSize, 24, base0);
            var first := if |c1.blocks| > |c.blocks| then [Malloc(base0, poolSize)] else [];
            if node == 0 then e == Effect(c1, large, 0, first) && cleanup' == cleanup
            else if bytes == 0 then e == Effect(c1, large, node, first + [Node(node)]) && cleanup' == [CleanupBlock(node, 0, 0)] + cleanup
            else if bytes <= 4095 then
              var (c2, data) := SmallAlloc(c1, poolSize, bytes, base1);
              var second := if |c2.blocks| > |c1.blocks| then [Malloc(base1, poolSize)] else [];
              if data == 0 then e == Effect(c2, large, 0, first + second) && cleanup' == cleanup
              else e == Effect(c2, large, node, first + second + [Node(node)]) && cleanup' == [CleanupBlock(node, 0, data)] + cleanup
            else
              var l := LargeEffect(c1, poolSize, large, bytes, memory, base1);
              if l.p == 0 then e == l.(events := first + l.events) && cleanup' == cleanup
              else e == l.(p := node, events := first + l.events + [Node(node)])
                   && cleanup' == [CleanupBlock(node, 0, l.p)] + cleanup
  {
    hide SmallAlloc, LargeEffect;
  }

  /** What malloc may still answer after a small request that could have used `base0`. */
  lemma AnswersStay(c: Chain, c': Chain, poolSize: nat, m: nat, large: seq<LargeBlock>, hand: set<nat>,
                    bytes: nat, base0: nat, base1: nat, memory: nat)
    requires ChainOk(c, poolSize, m) && c.current < |c.blocks| && c' == SmallAlloc(c, poolSize, bytes, base0).0
    requires Addable(c, poolSize, large, hand, base1) && Gettable(c.blocks, large, hand, memory)
    requires base0 != 0 && base1 != 0 ==> BasesApart(base0, base1, poolSize)
    requires memory != 0 ==> memory != base0
    ensures Addable(c', poolSize, large, hand, base1) && Gettable(c'.blocks, large, hand, memory)
  {
    forall i | 0 <= i < |c'.blocks|
      ensures (i < |c.blocks| && c'.blocks[i].base == c.blocks[i].base) || (base0 != 0 && c'.blocks[i].base == base0)
    {
    }
    assert Bases(c'.blocks) <= Bases(c.blocks) + {base0};
    assert base0 == 0 ==> Bases(c'.blocks) <= Bases(c.blocks);
  }

  // ---------------------------------------------------------------- the whole state

  /** The pool with its books: `m` blocks at the last Reset, the regions handed out since, every event so far, and
      what the call in progress has malloc'd and not linked yet. */
  datatype State = State(chain: Chain, size: nat, large: seq<LargeBlock>, cleanup: seq<CleanupBlock>,
                         m: nat, given: seq<Given>, log: seq<Event>, hand: set<nat>)

  ghost predicate Sound(s: State) {
    && ChainOk(s.chain, s.size, s.m)
    && GivenOk(s.given, s.chain.blocks)
    && Audited(s.log, s.chain.blocks, s.large, s.cleanup, s.hand)
    && AllocsDistinct(s.large, s.chain.blocks, s.hand)
    && NodesGiven(s.large, s.cleanup, s.given)
  }

  lemma BlocksAreOk(s: State)
    requires Sound(s)
    ensures forall i | 0 <= i < |s.chain.blocks| :: BlockOk(s.chain.blocks[i], s.size)
  {
    hide Audited, AllocsDistinct, NodesGiven, GivenOk, Profile;
  }

  lemma SoundPlaces(s: State, bytes: nat, j: nat)
    requires Sound(s) && j < |s.chain.blocks| && Fits(s.chain.blocks[j], bytes)
    ensures Sound(s.(chain := Chain(s.chain.blocks[j := Place(s.chain.blocks[j], bytes)], s.chain.current),
                     given := s.given + [Given(AlignUp(s.chain.blocks[j].start), bytes, j)]))
    ensures 0 < AlignUp(s.chain.blocks[j].start)
  {
    var blocks, given := s.chain.blocks, s.given + [Given(AlignUp(s.chain.blocks[j].start), bytes, j)];
    assert BlockOk(blocks[j], s.size);
    hide Audited, AllocsDistinct, NodesGiven, GivenOk, ChainOk, Fits;
    PlaceOk(s.chain, s.size, s.m, j, bytes);
    GivenInBlock(s.given, s.chain, s.size, s.m, j, bytes);
    AuditedSameBases(s.log, blocks, s.large, s.cleanup, s.hand, blocks[j := Place(blocks[j], bytes)]);
    NodesStayGiven(s.large, s.cleanup, s.given, given);
  }

  lemma SoundGrows(s: State, bytes: nat, base: nat)
    requires Sound(s) && RequestOk(s.size, bytes) && base != 0 && Addable(s.chain, s.size, s.large, s.hand, base)
    ensures s.chain.current < |s.chain.blocks|
    ensures Sound(s.(chain := Chain(AddFailure(s.chain.blocks, s.chain.current) + [NewBlock(base, s.size, bytes)],
                                    HeadAfter(s.chain.blocks, s.chain.current, s.chain.current)),
                     given := s.given + [Given(AlignUp(base + HEADER), bytes, |s.chain.blocks|)],
                     log := s.log + [Malloc(base, s.size)]))
    ensures Runs(s.log + [Malloc(base, s.size)]) == Runs(s.log) && AlignUp(base + HEADER) == base + HEADER
  {
    NewBlockOk(s.chain, s.size, bytes, base);
    hide Audited, AllocsDistinct, NodesGiven, GivenOk, ChainOk, Gettable, BlockAnswer, RequestOk, Runs, HeadAfter, AlignUp;
    GrowOk(s.chain, s.size, s.m, bytes, base);
    GivenInNewBlock(s.given, s.chain, s.size, s.m, bytes, base);
    AuditedBlock(s.log, s.chain.blocks, s.large, s.cleanup, s.hand,
                 AddFailure(s.chain.blocks, s.chain.current) + [NewBlock(base, s.size, bytes)], base, s.size);
    NodesStayGiven(s.large, s.cleanup, s.given, s.given + [Given(AlignUp(base + HEADER), bytes, |s.chain.blocks|)]);
  }

  lemma SoundTouches(s: State, i: nat)
    requires Sound(s) && i < |s.large|
    ensures Sound(s.(log := s.log + [Touch(s.large[i].node)])) && Runs(s.log + [Touch(s.large[i].node)]) == Runs(s.log)
  {
    hide Audited, AllocsDistinct, NodesGiven, GivenOk, ChainOk, Runs;
    AuditedTouch(s.log, s.chain.blocks, s.large, s.cleanup, s.hand, s.large[i].node);
  }

  lemma SoundGets(s: State, p: nat, len: nat)
    requires Sound(s) && p != 0 && Gettable(s.chain.blocks, s.large, s.hand, p)
    ensures Sound(s.(log := s.log + [Malloc(p, len)], hand := s.hand + {p})) && Runs(s.log + [Malloc(p, len)]) == Runs(s.log)
  {
    hide Audited, AllocsDistinct, NodesGiven, GivenOk, ChainOk, Runs, Gettable;
    AuditedGet(s.log, s.chain.blocks, s.large, s.cleanup, s.hand, p, len);
  }

  lemma SoundPutsBack(s: State, p: nat)
    requires Sound(s) && p in s.hand
    ensures Sound(s.(log := s.log + [Free(p, 0)], hand := s.hand - {p})) && Runs(s.log + [Free(p, 0)]) == Runs(s.log)
  {
    hide Audited, AllocsDistinct, NodesGiven, GivenOk, ChainOk, Runs;
    AuditedPutBack(s.log, s.chain.blocks, s.large, s.cleanup, s.hand, p);
  }

  lemma SoundReuses(s: State, i: nat, p: nat)
    requires Sound(s) && p in s.hand && p != 0 && i < |s.large| && s.large[i].alloc == 0
    ensures Sound(s.(large := s.large[i := s.large[i].(alloc := p)], hand := s.hand - {p}))
  {
    hide Audited, AllocsDistinct, NodesGiven, GivenOk, ChainOk;
    AuditedReuse(s.log, s.chain.blocks, s.large, s.cleanup, s.hand, i, p);
    NodesOfUpdate(s.large, s.cleanup, s.given, i, p);
  }

  lemma SoundReleases(s: State, i: nat)
    requires Sound(s) && i < |s.large| && s.large[i].alloc != 0
    ensures Sound(s.(log := s.log + [Free(s.large[i].alloc, 0)], large := s.large[i := s.large[i].(alloc := 0)]))
    ensures Runs(s.log + [Free(s.large[i].alloc, 0)]) == Runs(s.log)
  {
    hide Audited, AllocsDistinct, NodesGiven, GivenOk, ChainOk, Runs;
    AuditedRelease(s.log, s.chain.blocks, s.large, s.cleanup, s.hand, i);
    NodesOfUpdate(s.large, s.cleanup, s.given, i, 0);
  }

  lemma SoundPushes(s: State, before: seq<Given>, node: nat, p: nat)
    requires Sound(s) && GotSmall(before, s.given, node, LARGE_NODE) && p in s.hand && p != 0
    ensures Sound(s.(log := s.log + [Node(node)], large := [LargeBlock(node, p)] + s.large, hand := s.hand - {p}))
    ensures Runs(s.log + [Node(node)]) == Runs(s.log)
  {
    DataGiven(before, s.given, node, LARGE_NODE);
    BlocksAreOk(s);
    GivenIsInBlock(s.given, s.chain.blocks, s.size, node, LARGE_NODE);
    hide Audited, AllocsDistinct, NodesGiven, GivenOk, ChainOk, Runs, GotSmall;
    AuditedPush(s.log, s.chain.blocks, s.large, s.cleanup, s.hand, node, p);
    NodesOfPush(s.large, s.cleanup, before, s.given, node, p);
  }

  lemma SoundLinks(s: State, given0: seq<Given>, given1: seq<Given>, c: nat, data: nat)
    requires Sound(s) && GotSmall(given0, given1, c, CLEANUP_NODE) && given1 <= s.given
    ensures Sound(s.(log := s.log + [Node(c)], cleanup := [CleanupBlock(c, 0, data)] + s.cleanup))
    ensures Runs(s.log + [Node(c)]) == Runs(s.log)
  {
    DataGiven(given0, given1, c, CLEANUP_NODE);
    NodeStaysGiven(c, CLEANUP_NODE, given1, s.given);
    BlocksAreOk(s);
    GivenIsInBlock(s.given, s.chain.blocks, s.size, c, CLEANUP_NODE);
    InBlockIsCovered(Audit(s.log).value.held, s.chain.blocks, c);
    NodesOfCleanup(s.large, s.cleanup, given0, given1, s.given, c, data);
    hide AllocsDistinct, NodesGiven, GivenOk, ChainOk, Runs, GotSmall, Covered, Spans, NodeGiven, InSomeBlock, Bases, Allocs, Audit;
    AuditNext(s.log, Node(c));
    RunsNext(s.log, Node(c));
  }

  /** A new pool's root block of `size` bytes. */
  lemma RootSound(base: nat, size: nat)
    requires base > 0 && base % ALIGNMENT == 0 && size % ALIGNMENT == 0 && MIN_POOL <= size && base + size < ADDRESSES
    ensures Sound(State(Chain([SmallBlock(base, base + HEADER, base + size, 0)], 0), size, [], [], 1, [], [Malloc(base, size)], {}))
  {
    hide AlignUp;
    var blocks := [SmallBlock(base, base + HEADER, base + size, 0)];
    AuditNext([], Malloc(base, size));
    assert [] + [Malloc(base, size)] == [Malloc(base, size)];
    assert blocks[0].base == base && Bases(blocks) == {base} && Allocs([]) == {};
  }

  lemma SoundProfile(s: State)
    requires Sound(s)
    ensures s.chain.current < |s.chain.blocks| && |s.chain.blocks| - s.chain.current <= s.m + 5
    ensures ChainOk(s.chain, s.size, s.m)
  {
    ProfileShape(s.chain.blocks, s.chain.current, s.m);
  }

  lemma SoundSize(s: State)
    requires Sound(s)
    ensures RequestOk(s.size, LARGE_NODE) && RequestOk(s.size, CLEANUP_NODE)
  {
  }

  lemma StillGettable(blocks: seq<SmallBlock>, large: seq<LargeBlock>, hand: set<nat>, base: nat, memory: nat)
    requires Gettable(blocks, large, hand, base) && (memory != 0 ==> memory != base)
    ensures memory != 0 ==> Gettable(blocks, large, hand + {memory}, base)
  {
  }

  // ---------------------------------------------------------------- clearing the lists

  /** A walk over the first `k` cleanup nodes: each is read, its handler run if set, its link read. */
  ghost function CleanupLog(cleanup: seq<CleanupBlock>, k: nat): seq<Event>
    requires k <= |cleanup|
  {
    if k == 0 then [] else CleanupLog(cleanup, k - 1) + CleanupVisit(cleanup[k - 1])
  }

  ghost function CleanupVisit(c: CleanupBlock): seq<Event> {
    [Touch(c.node)] + (if c.handler != 0 then [Run(c.handler, c.data)] else []) + [Touch(c.node)]
  }

  /** The registered handlers among the first `k` nodes, newest first. */
  ghost function Handlers(cleanup: seq<CleanupBlock>, k: nat): seq<(nat, nat)>
    requires k <= |cleanup|
  {
    if k == 0 then []
    else Handlers(cleanup, k - 1) + if cleanup[k - 1].handler != 0 then [(cleanup[k - 1].handler, cleanup[k - 1].data)] else []
  }

  /** A walk over the first `k` large headers that frees every live allocation. */
  ghost function LargeLog(large: seq<LargeBlock>, k: nat): seq<Event>
    requires k <= |large|
  {
    if k == 0 then [] else LargeLog(large, k - 1) + LargeVisit(large[k - 1])
  }

  ghost function LargeVisit(l: LargeBlock): seq<Event> {
    [Touch(l.node)] + (if l.alloc != 0 then [Free(l.alloc, 0)] else []) + [Touch(l.node)]
  }

  /** A walk over the first `k` large headers that frees the allocation at `p`. */
  ghost function SweepLog(large: seq<LargeBlock>, p: nat, k: nat): seq<Event>
    requires k <= |large|
  {
    if k == 0 then [] else SweepLog(large, p, k - 1) + SweepVisit(large[k - 1], p)
  }

  ghost function SweepVisit(l: LargeBlock, p: nat): seq<Event> {
    [Touch(l.node)] + (if l.alloc == p != 0 then [Free(p, 0)] else [])
  }

  function Swept(large: seq<LargeBlock>, p: nat): (r: seq<LargeBlock>)
    ensures |r| == |large|
    ensures forall i | 0 <= i < |large| :: r[i] == if large[i].alloc == p then large[i].(alloc := 0) else large[i]
  {
    seq(|large|, i requires 0 <= i < |large| => if large[i].alloc == p then large[i].(alloc := 0) else large[i])
  }

  /** A walk over the first `k` blocks that reads each link before freeing its block. */
  ghost function BlockLog(blocks: seq<SmallBlock>, poolSize: nat, k: nat): seq<Event>
    requires k <= |blocks|
  {
    if k == 0 then [] else BlockLog(blocks, poolSize, k - 1) + [Header(blocks[k - 1].base), Free(blocks[k - 1].base, poolSize)]
  }

  /** The walk over the cleanup nodes starts at the newest one: it looks at the node, runs its handler on its data if one
      is set, goes on from the node to the next, and so runs the handlers newest first, each once. */
  lemma {:induction false} HandlersNewestFirst(c: CleanupBlock, older: seq<CleanupBlock>, k: nat)
    requires k <= |older|
    ensures Handlers([c] + older, k + 1) == (if c.handler != 0 then [(c.handler, c.data)] else []) + Handlers(older, k)
    ensures Handlers(older, 0) == []
  {
    var cleanup := [c] + older;
    if k == 0 {
      assert Handlers(cleanup, 0) == [];
    } else {
      HandlersNewestFirst(c, older, k - 1);
      assert cleanup[k] == older[k - 1];
    }
  }

  lemma {:induction false} CleanupFront(c: CleanupBlock, older: seq<CleanupBlock>, k: nat)
    requires k <= |older|
    ensures CleanupLog([c] + older, k + 1) == CleanupVisit(c) + CleanupLog(older, k)
  {
    hide CleanupVisit;
    var cleanup := [c] + older;
    if k == 0 {
      assert CleanupLog(cleanup, 0) == [];
    } else {
      CleanupFront(c, older, k - 1);
      assert cleanup[k] == older[k - 1];
      LogLonger(CleanupVisit(c), CleanupLog(older, k - 1), CleanupVisit(older[k - 1]));
    }
  }

  lemma CleanupNewestFirst(c: CleanupBlock, older: seq<CleanupBlock>, k: nat)
    requires k <= |older|
    ensures CleanupLog([c] + older, k + 1)
            == [Touch(c.node)] + (if c.handler != 0 then [Run(c.handler, c.data)] else []) + [Touch(c.node)] + CleanupLog(older, k)
    ensures CleanupLog(older, 0) == []
  {
    CleanupFront(c, older, k);
  }

  lemma {:induction false} LargeFront(l: LargeBlock, older: seq<LargeBlock>, k: nat)
    requires k <= |older|
    ensures LargeLog([l] + older, k + 1) == LargeVisit(l) + LargeLog(older, k)
  {
    hide LargeVisit;
    var large := [l] + older;
    if k == 0 {
      assert LargeLog(large, 0) == [];
    } else {
      LargeFront(l, older, k - 1);
      assert large[k] == older[k - 1];
      LogLonger(LargeVisit(l), LargeLog(older, k - 1), LargeVisit(older[k - 1]));
    }
  }

  /** The walk over the large headers starts at the newest one and frees every live allocation once. */
  lemma LargeNewestFirst(l: LargeBlock, older: seq<LargeBlock>, k: nat)
    requires k <= |older|
    ensures LargeLog([l] + older, k + 1)
            == [Touch(l.node)] + (if l.alloc != 0 then [Free(l.alloc, 0)] else []) + [Touch(l.node)] + LargeLog(older, k)
    ensures LargeLog(older, 0) == []
  {
    LargeFront(l, older, k);
  }

  lemma {:induction false} SweepFront(l: LargeBlock, older: seq<LargeBlock>, p: nat, k: nat)
    requires k <= |older|
    ensures SweepLog([l] + older, p, k + 1) == SweepVisit(l, p) + SweepLog(older, p, k)
  {
    hide SweepVisit;
    var large := [l] + older;
    if k == 0 {
      assert SweepLog(large, p, 0) == [];
    } else {
      SweepFront(l, older, p, k - 1);
      assert large[k] == older[k - 1];
      LogLonger(SweepVisit(l, p), SweepLog(older, p, k - 1), SweepVisit(older[k - 1], p));
    }
  }

  /** LargeFree's walk looks at every header, newest first, and frees what it finds at `p`. */
  lemma SweepNewestFirst(l: LargeBlock, older: seq<LargeBlock>, p: nat, k: nat)
    requires k <= |older|
    ensures SweepLog([l] + older, p, k + 1)
            == [Touch(l.node)] + (if p != 0 && l.alloc == p then [Free(p, 0)] else []) + SweepLog(older, p, k)
    ensures SweepLog(older, p, 0) == []
  {
    SweepFront(l, older, p, k);
  }

  /** The walk over the blocks starts at the root; each link is read before its block is freed. */
  lemma {:induction false} BlocksFromRoot(b: SmallBlock, rest: seq<SmallBlock>, poolSize: nat, k: nat)
    requires k <= |rest|
    ensures BlockLog([b] + rest, poolSize, k + 1) == [Header(b.base), Free(b.base, poolSize)] + BlockLog(rest, poolSize, k)
    ensures BlockLog(rest, poolSize, 0) == []
  {
    if k > 0 {
      BlocksFromRoot(b, rest, poolSize, k - 1);
    }
  }

  lemma SoundVisitsCleanup(s: State, i: nat)
    requires Sound(s) && i < |s.cleanup|
    ensures Sound(s.(log := s.log + CleanupVisit(s.cleanup[i])))
    ensures Runs(s.log + CleanupVisit(s.cleanup[i]))
            == Runs(s.log) + if s.cleanup[i].handler != 0 then [(s.cleanup[i].handler, s.cleanup[i].data)] else []
  {
    hide AllocsDistinct, NodesGiven, GivenOk, ChainOk, Runs, Audit;
    var c := s.cleanup[i];
    var log1 := s.log + [Touch(c.node)];
    var log2 := log1 + if c.handler != 0 then [Run(c.handler, c.data)] else [];
    AuditNext(s.log, Touch(c.node));
    RunsNext(s.log, Touch(c.node));
    AuditNext(log1, Run(c.handler, c.data));
    RunsNext(log1, Run(c.handler, c.data));
    assert c.handler == 0 ==> log2 == log1;
    AuditNext(log2, Touch(c.node));
    RunsNext(log2, Touch(c.node));
    assert s.log + CleanupVisit(c) == log2 + [Touch(c.node)];
  }

  /** The first large header is visited and dropped. */
  lemma SoundDropsLarge(s: State)
    requires Sound(s) && s.large != []
    ensures Sound(s.(log := s.log + LargeVisit(s.large[0]), large := s.large[1..]))
    ensures Runs(s.log + LargeVisit(s.large[0])) == Runs(s.log)
  {
    hide Sound, Runs, Audit;
    var l := s.large[0];
    SoundTouches(s, 0);
    var s1 := s.(log := s.log + [Touch(l.node)]);
    var s2 := s1;
    if l.alloc != 0 {
      SoundReleases(s1, 0);
      s2 := s1.(log := s1.log + [Free(l.alloc, 0)], large := s.large[0 := l.(alloc := 0)]);
    }
    SoundTouches(s2, 0);
    var s3 := s2.(log := s2.log + [Touch(l.node)]);
    assert s3.log == s.log + LargeVisit(l);
    assert s3.large[1..] == s.large[1..];
    SoundForgets(s3);
  }

  lemma SoundForgets(s: State)
    requires Sound(s) && s.large != [] && s.large[0].alloc == 0
    ensures Sound(s.(large := s.large[1..]))
  {
    var rest := s.large[1..];
    hide Audit, ChainOk, GivenOk, NodeGiven, Bases;
    assert Allocs(rest) == Allocs(s.large) by {
      forall a | a in Allocs(s.large)
        ensures a in Allocs(rest)
      {
        var k :| 0 <= k < |s.large| && s.large[k].alloc != 0 && s.large[k].alloc == a;
        assert rest[k - 1].alloc == a;
      }
    }
  }

  /** All lists are dropped and every block is empty again. */
  lemma SoundRecycles(s: State)
    requires Sound(s) && s.large == []
    ensures Sound(s.(chain := ResetChain(s.chain), cleanup := [], m := |s.chain.blocks|, given := [], log := s.log + [Recycle]))
    ensures Runs(s.log + [Recycle]) == Runs(s.log)
  {
    AuditNext(s.log, Recycle);
    RunsNext(s.log, Recycle);
    ResetOk(s.chain, s.size, s.m);
    hide Audit, Runs, ChainOk;
    assert Bases(ResetChain(s.chain).blocks) == Bases(s.chain.blocks);
  }

  lemma SoundSets(s: State, i: nat, handler: nat)
    requires Sound(s) && i < |s.cleanup|
    ensures Sound(s.(cleanup := s.cleanup[i := s.cleanup[i].(handler := handler)], log := s.log + [Touch(s.cleanup[i].node)]))
    ensures Runs(s.log + [Touch(s.cleanup[i].node)]) == Runs(s.log)
  {
    hide AllocsDistinct, GivenOk, ChainOk, Runs, Audit;
    AuditNext(s.log, Touch(s.cleanup[i].node));
    RunsNext(s.log, Touch(s.cleanup[i].node));
  }

  /** While the chain is freed: the blocks from `k` on, and nothing else, are held. */
  ghost predicate BlocksHeld(log: seq<Event>, blocks: seq<SmallBlock>, k: nat)
    requires k <= |blocks|
  {
    Audit(log).Some? && Audit(log).value.held.Keys == Bases(blocks[k..])
  }

  lemma FreesBlock(log: seq<Event>, blocks: seq<SmallBlock>, k: nat, poolSize: nat)
    requires k < |blocks| && BlocksHeld(log, blocks, k)
    requires forall i, j | 0 <= i < j < |blocks| :: blocks[i].base != blocks[j].base
    ensures var e := [Header(blocks[k].base), Free(blocks[k].base, poolSize)];
            BlocksHeld(log + e, blocks, k + 1) && Runs(log + e) == Runs(log)
  {
    var b := blocks[k].base;
    AuditNext(log, Header(b));
    RunsNext(log, Header(b));
    AuditNext(log + [Header(b)], Free(b, poolSize));
    RunsNext(log + [Header(b)], Free(b, poolSize));
    assert log + [Header(b), Free(b, poolSize)] == log + [Header(b)] + [Free(b, poolSize)];
    assert b == blocks[k..][0].base;
    assert Bases(blocks[k..]) == Bases(blocks[k + 1..]) + {b} by {
      forall x | x in Bases(blocks[k + 1..])
        ensures x in Bases(blocks[k..])
      {
        var i :| 0 <= i < |blocks[k + 1..]| && blocks[k + 1..][i].base == x;
        assert blocks[k..][i + 1].base == x;
      }
      forall x | x in Bases(blocks[k..])
        ensures x in Bases(blocks[k + 1..]) + {b}
      {
        var i :| 0 <= i < |blocks[k..]| && blocks[k..][i].base == x;
        assert i > 0 ==> blocks[k + 1..][i - 1].base == x;
      }
    }
    assert b !in Bases(blocks[k + 1..]);
  }

  lemma SoundEnds(s: State)
    requires Sound(s) && s.large == [] && s.hand == {}
    ensures BlocksHeld(s.log, s.chain.blocks, 0)
    ensures forall i, j | 0 <= i < j < |s.chain.blocks| :: s.chain.blocks[i].base != s.chain.blocks[j].base
  {
    assert s.chain.blocks[0..] == s.chain.blocks;
    assert Allocs([]) == {};
    forall i, j | 0 <= i < j < |s.chain.blocks|
      ensures s.chain.blocks[i].base != s.chain.blocks[j].base
    {
      assert BasesApart(s.chain.blocks[i].base, s.chain.blocks[j].base, s.size);
    }
  }

  lemma LogLonger(log: seq<Event>, x: seq<Event>, y: seq<Event>)
    ensures log + x + y == log + (x + y)
  {
  }

  lemma HeaderAnswers(c: Chain, poolSize: nat, large: seq<LargeBlock>, p: nat, base: nat)
    ensures HeaderEffect(c, poolSize, large, p, base).p == 0 || HeaderEffect(c, poolSize, large, p, base).p == p
  {
  }

  /** Some block is filled past its end. */
  predicate Overrun(blocks: seq<SmallBlock>) {
    exists i | 0 <= i < |blocks| :: blocks[i].start > blocks[i].end
  }

  lemma LastOverruns(blocks: seq<SmallBlock>)
    requires blocks != []
    ensures blocks[|blocks| - 1].start > blocks[|blocks| - 1].end ==> Overrun(blocks)
  {
  }

  /** A request that cannot overrun a block: a large one, one that fits beside the header, or one that malloc refuses
      a new block. */
  predicate Fitting(poolSize: nat, bytes: nat, base: nat) {
    bytes > MAX_ALLOC || RequestOk(poolSize, bytes) || base == 0
  }

  lemma NothingFits(s: State, base: nat)
    requires Sound(s)
    ensures Fitting(s.size, 0, base)
  {
  }

  lemma AddableAligned(c: Chain, poolSize: nat, large: seq<LargeBlock>, hand: set<nat>, base: nat)
    requires Addable(c, poolSize, large, hand, base)
    ensures base % ALIGNMENT == 0
  {
  }

  lemma SmallAllocGrows(c: Chain, poolSize: nat, bytes: nat, base: nat)
    requires c.current < |c.blocks| && FirstFit(c.blocks, c.current, bytes) == |c.blocks| && base != 0
    ensures SmallAlloc(c, poolSize, bytes, base)
            == (Chain(AddFailure(c.blocks, c.current) + [NewBlock(base, poolSize, bytes)], HeadAfter(c.blocks, c.current, c.current)),
                AlignUp(base + HEADER))
    ensures 0 < AlignUp(base + HEADER)
  {
    hide FirstFit, HeadAfter, AddFailure, NewBlock;
  }

  /** What an existing block takes fits beside a header. */
  lemma FitsBesideHeader(s: State, i: nat, bytes: nat)
    requires Sound(s) && i < |s.chain.blocks| && Fits(s.chain.blocks[i], bytes)
    ensures RequestOk(s.size, bytes)
  {
    assert BlockOk(s.chain.blocks[i], s.size);
    FitsInside(s.chain.blocks[i], s.size, bytes);
  }

  class MemoryPool {
    var blocks: seq<SmallBlock>      // the chain from root_block_; empty when the pool could not be built
    var current: nat                 // index of current_block_
    var size: nat
    var large: seq<LargeBlock>
    var cleanup: seq<CleanupBlock>
    ghost var m: nat
    ghost var given: seq<Given>
    ghost var log: seq<Event>
    ghost var hand: set<nat>

    ghost function Now(): State
      reads this
    {
      State(Chain(blocks, current), size, large, cleanup, m, given, log, hand)
    }

    ghost predicate Valid()
      reads this
    {
      Sound(Now())
    }

    /** `base` may be malloc's answer for a new small block. */
    ghost predicate MayAdd(base: nat)
      reads this
    {
      Addable(Chain(blocks, current), size, large, hand, base)
    }

    /** `p` may be malloc's answer: null, or not held. */
    ghost predicate MayGet(p: nat)
      reads this
    {
      Gettable(blocks, large, hand, p)
    }

    /** The chain after a small request and the address it gets. */
    function Placement(bytes: nat, base: nat): (Chain, nat)
      reads this
    {
      PlacementIn(Chain(blocks, current), size, bytes, base)
    }

    constructor (bytes: nat, base: nat)
      requires Clamp(bytes) % ALIGNMENT == 0
      requires base != 0 ==> base % ALIGNMENT == 0 && base + Clamp(bytes) < ADDRESSES
      ensures bytes == 0 || base == 0 ==> blocks == [] && log == []
      ensures bytes != 0 && base != 0 ==> Valid() && Empty(Chain(blocks, current)) && |blocks| == m == 1 && given == []
      ensures bytes != 0 && base != 0 ==> 80 <= size <= 16384 && (80 <= bytes <= 16384 ==> size == bytes)
      ensures bytes != 0 && base != 0 ==> size == Clamp(bytes) && log == [Malloc(base, size)]
                                          && blocks == [SmallBlock(base, base + HEADER, base + Clamp(bytes), 0)]
      ensures large == [] && cleanup == [] && hand == {}
    {
      blocks, current, size, large, cleanup := [], 0, 0, [], [];
      m, given, log, hand := 1, [], [], {};
      if bytes != 0 && base != 0 {
        size := Clamp(bytes);
        blocks := [SmallBlock(base, base + HEADER, base + Clamp(bytes), 0)];
        log := [Malloc(base, Clamp(bytes))];
      }
      new;
      if bytes != 0 && base != 0 {
        RootSound(base, Clamp(bytes));
      }
    }

    /** Lines 160-173: every block that was searched gets a failure, and the head moves past those that had enough. */
    method CountFailures()
      requires current < |blocks|
      modifies this`blocks, this`current
      ensures blocks == AddFailure(old(blocks), old(current))
      ensures current == HeadAfter(old(blocks), old(current), old(current))
    {
      ghost var before, c := blocks, current;
      var i := current;
      while i + 1 < |blocks|
        invariant c <= i < |blocks| == |before|
        invariant HeadAfter(before, i, current) == HeadAfter(before, c, c)
        invariant forall k | 0 <= k < |blocks| ::
                    blocks[k] == if c <= k < i then before[k].(failed := before[k].failed + 1) else before[k]
      {
        var failed := blocks[i].failed;
        blocks := blocks[i := blocks[i].(failed := failed + 1)];
        if failed > 4 {
          current := i + 1;
        }
        i := i + 1;
      }
      blocks := blocks[i := blocks[i].(failed := blocks[i].failed + 1)];
      if blocks[i].failed > 4 {
        current := |blocks|;
      }
    }

    /** A new block for a request no existing block took: every block searched gets a failure, and the head of the
        search moves on.  A request that does not fit beside the header overruns the block. */
    method AllocateSmallBlock(bytes: nat, base: nat) returns (p: nat)
      requires Valid() && MayAdd(base)
      requires current < |blocks| && FirstFit(blocks, current, bytes) == |blocks|
      modifies this
      ensures RequestOk(size, bytes) || base == 0 ==> Valid()
      ensures !RequestOk(size, bytes) && base != 0 ==> Overrun(blocks)
      ensures current < |blocks| && (Chain(blocks, current), p) == old(Placement(bytes, base))
      ensures large == old(large) && cleanup == old(cleanup) && m == old(m) && size == old(size) && hand == old(hand)
      ensures p == 0 <==> base == 0
      ensures p == 0 ==> given == old(given) && log == old(log)
      ensures p != 0 ==> GotSmall(old(given), given, p, bytes) && log == old(log) + [Malloc(base, size)] && |blocks| == old(|blocks|) + 1
    {
      if base == 0 {
        return 0;
      }
      ghost var s := Now();
      AddableAligned(s.chain, s.size, large, hand, base);
      NewBlockSafeIff(base, size, bytes);
      SmallAllocGrows(s.chain, size, bytes, base);
      hide Sound, Fits, GotSmall, Addable, AddFailure, RequestOk, AlignUp, Overrun, SmallAlloc, FirstFit;
      if RequestOk(size, bytes) {
        SoundGrows(s, bytes, base);
      }
      p := AlignUp(base + HEADER);
      HeadAfterInside(blocks, current, current);
      CountFailures();
      hide HeadAfter;
      blocks := blocks + [NewBlock(base, size, bytes)];
      log := log + [Malloc(base, size)];
      given := given + [Given(p, bytes, |s.chain.blocks|)];
      Joined(s.given, given, p, bytes, |s.chain.blocks|);
      LastOverruns(blocks);
    }

    /** Line 128, with the bookkeeping of what is handed out. */
    method TakePlace(bytes: nat, j: nat)
      requires Valid() && current <= j < |blocks| && Fits(blocks[j], bytes)
      modifies this`blocks, this`given
      ensures Valid() && blocks == old(blocks[j := Place(blocks[j], bytes)])
      ensures GotSmall(old(given), given, old(AlignUp(blocks[j].start)), bytes) && 0 < old(AlignUp(blocks[j].start))
    {
      hide Sound, Fits, GotSmall, AlignUp;
      SoundPlaces(Now(), bytes, j);
      Joined(given, given + [Given(AlignUp(blocks[j].start), bytes, j)], AlignUp(blocks[j].start), bytes, j);
      given := given + [Given(AlignUp(blocks[j].start), bytes, j)];
      blocks := blocks[j := Place(blocks[j], bytes)];
    }

    /** Lines 118-133: the first block from the current one on that takes `bytes`.  `visited` counts the blocks
        looked at. */
    method Search(bytes: nat) returns (i: nat, ghost visited: nat)
      requires current < |blocks|
      ensures i == FirstFit(blocks, current, bytes)
      ensures 1 <= visited <= |blocks| - current
    {
      hide Fits;
      i := current;
      visited := 0;
      while i < |blocks|
        invariant current <= i <= |blocks| && visited == i - current
        invariant forall k | current <= k < i :: !Fits(blocks[k], bytes)
        modifies {}
      {
        visited := visited + 1;
        FitsNow(blocks[i], bytes);
        if SizeT(blocks[i].end - AlignUp(blocks[i].start)) >= bytes {
          break;
        }
        i := i + 1;
      }
      FirstFitIs(blocks, current, bytes, i);
    }

    /** First fit from the current block; a new block if nothing fits. */
    method AllocateSmall(bytes: nat, base: nat) returns (p: nat, ghost visited: nat)
      requires Valid() && MayAdd(base)
      modifies this
      ensures RequestOk(size, bytes) || base == 0 ==> Valid()
      ensures !RequestOk(size, bytes) && base != 0 ==> Overrun(blocks)
      ensures (Chain(blocks, current), p) == old(Placement(bytes, base))
      ensures large == old(large) && cleanup == old(cleanup) && m == old(m) && size == old(size) && hand == old(hand)
      ensures p == 0 ==> base == 0 && given == old(given) && log == old(log) && blocks == old(blocks)
      ensures p != 0 ==> GotSmall(old(given), given, p, bytes)
      ensures log == old(log) + Added(old(Chain(blocks, current)), Chain(blocks, current), base, size)
      ensures Runs(log) == old(Runs(log))
      ensures 1 <= visited <= m + 5
    {
      SoundProfile(Now());
      hide Sound, Fits, GotSmall, RequestOk, HeadAfter, AddFailure, FirstFit, Runs, Addable, AlignUp, Overrun;
      RunsNext(log, Malloc(base, size));
      var i;
      i, visited := Search(bytes);
      if i < |blocks| {
        FitsBesideHeader(Now(), i, bytes);
        p := AlignUp(blocks[i].start);
        TakePlace(bytes, i);
      } else {
        p := AllocateSmallBlock(bytes, base);
      }
    }

    /** Lines 192-202: among the first five headers, one whose allocation was freed takes `p`. */
    method ReuseHeader(p: nat) returns (reused: bool, ghost looked: nat)
      requires Valid() && p in hand && p != 0
      modifies this`large, this`log, this`hand
      ensures Valid() && Runs(log) == old(Runs(log))
      ensures reused == Reuses(old(large)) && log == old(log) + TouchLog(old(large), Looked(old(large)))
      ensures large == if reused then Reused(old(large), p) else old(large)
      ensures looked <= |old(large)| && looked <= 5 && log == old(log) + TouchLog(old(large), looked)
      ensures forall k | 0 <= k < looked :: old(large)[k].alloc == 0 <==> reused && k + 1 == looked
      ensures reused ==> looked > 0 && large == old(large)[looked - 1 := old(large)[looked - 1].(alloc := p)]
      ensures !reused ==> large == old(large) && (looked == 5 || looked == |old(large)|)
      ensures hand == if reused then old(hand) - {p} else old(hand)
    {
      hide Sound, FirstFreed, Runs;
      ghost var k := FirstFreed(large, 0);
      var i, n := 0, 0;
      while i < |large|
        invariant 0 <= i <= |large| && n == i <= 4 && i <= k
        invariant large == old(large) && hand == old(hand) && log == old(log) + TouchLog(large, i)
        invariant Valid() && Runs(log) == old(Runs(log))
      {
        SoundTouches(Now(), i);
        log := log + [Touch(large[i].node)];
        assert log == old(log) + TouchLog(old(large), i + 1);
        if large[i].alloc == 0 {
          SoundReuses(Now(), i, p);
          large := large[i := large[i].(alloc := p)];
          hand := hand - {p};
          return true, i + 1;
        }
        n := n + 1;
        if n - 1 > 3 {
          break;
        }
        i := i + 1;
      }
      reused, looked := false, if i < |large| then i + 1 else i;
    }

    /** Lines 205-213: a header for `p` in the chain of small blocks, or `p` is freed again. */
    method NewHeader(p: nat, base: nat) returns (linked: bool)
      requires Valid() && RequestOk(size, LARGE_NODE) && MayAdd(base) && p in hand && p != 0
      modifies this
      ensures Valid() && hand == old(hand) - {p}
      ensures cleanup == old(cleanup) && m == old(m) && size == old(size) && Runs(log) == old(Runs(log)) && old(given) <= given
      ensures var e := HeaderEffect(old(Chain(blocks, current)), size, old(large), p, base);
              Chain(blocks, current) == e.chain && large == e.large && linked == (e.p != 0) && log == old(log) + e.events
    {
      hide Sound, Runs, RequestOk, Addable, GotSmall, PlacementIn, Added;
      var node, _ := AllocateSmall(LARGE_NODE, base);
      GivenPrefix(old(given), given, node, LARGE_NODE);
      if node == 0 {
        SoundPutsBack(Now(), p);
        log := log + [Free(p, 0)];
        hand := hand - {p};
        return false;
      }
      SoundPushes(Now(), old(given), node, p);
      log := log + [Node(node)];
      hand := hand - {p};
      large := [LargeBlock(node, p)] + large;
      linked := true;
    }

    /** malloc for the client, managed by a header in the chain of small blocks: the first of the first five headers
        that lost its allocation, otherwise a new one, in front; without one the memory goes back. */
    method AllocateLarge(bytes: nat, memory: nat, base: nat) returns (p: nat)
      requires Valid() && hand == {}
      requires MayGet(memory) && MayAdd(base) && (memory != 0 ==> memory != base)
      modifies this
      ensures Valid() && hand == {}
      ensures cleanup == old(cleanup) && m == old(m) && size == old(size) && Runs(log) == old(Runs(log)) && old(given) <= given
      ensures var e := LargeEffect(old(Chain(blocks, current)), size, old(large), bytes, memory, base);
              Chain(blocks, current) == e.chain && large == e.large && p == e.p && log == old(log) + e.events
      ensures memory == 0 ==> p == 0 && Now() == old(Now())
      ensures forall i | memory != 0 && 0 <= i < |old(large)| && i < 5 && old(large)[i].alloc == 0
                         && (forall k | 0 <= k < i :: old(large)[k].alloc != 0) ::
                p == memory && blocks == old(blocks) && current == old(current)
                && large == old(large)[i := old(large)[i].(alloc := memory)]
                && |log| == |old(log)| + i + 2 && log[|old(log)|] == Malloc(memory, bytes)
                && forall k | 0 <= k <= i :: log[|old(log)| + 1 + k] == Touch(old(large)[k].node)
      ensures memory != 0 && (forall i | 0 <= i < |old(large)| && i < 5 :: old(large)[i].alloc != 0) ==>
                if p == 0 then base == 0 && large == old(large) && blocks == old(blocks) && current == old(current)
                               && |log| > 0 && log[|log| - 1] == Free(memory, 0)
                else p == memory && |large| == |old(large)| + 1 && large[1..] == old(large) && large[0].alloc == memory
                     && |log| > 0 && log[|log| - 1] == Node(large[0].node)
    {
      hide Sound, LargeEffect, Runs, Addable, Gettable;
      LargeReusesLog(Chain(blocks, current), size, large, bytes, memory, base, log);
      LargeNeedsLog(Now(), bytes, memory, base);
      p := GetLarge(bytes, memory, base);
    }

    /** Lines 183-215. */
    method GetLarge(bytes: nat, memory: nat, base: nat) returns (p: nat)
      requires Valid() && hand == {}
      requires MayGet(memory) && MayAdd(base) && (memory != 0 ==> memory != base)
      modifies this
      ensures Valid() && hand == {}
      ensures cleanup == old(cleanup) && m == old(m) && size == old(size) && Runs(log) == old(Runs(log)) && old(given) <= given
      ensures memory == 0 ==> given == old(given)
      ensures var e := LargeEffect(old(Chain(blocks, current)), size, old(large), bytes, memory, base);
              Chain(blocks, current) == e.chain && large == e.large && p == e.p && log == old(log) + e.events
    {
      SoundSize(Now());
      hide Sound, Reuses, Reused, Runs, RequestOk, BlockAnswer, PlacementIn, Bases, Allocs, ChainOk, TouchLog, Looked, HeaderEffect;
      if memory == 0 {
        return 0;
      }
      SoundGets(Now(), memory, bytes);
      StillGettable(blocks, large, hand, base, memory);
      hide Gettable;
      log := log + [Malloc(memory, bytes)];
      hand := hand + {memory};
      assert hand - {memory} == {};
      var reused, _ := ReuseHeader(memory);
      LogLonger(old(log), [Malloc(memory, bytes)], TouchLog(old(large), Looked(old(large))));
      if reused {
        return memory;
      }
      ghost var log1 := log;
      assert large == old(large) && Chain(blocks, current) == old(Chain(blocks, current));
      var header := NewHeader(memory, base);
      LogLonger(old(log), [Malloc(memory, bytes)] + TouchLog(old(large), Looked(old(large))), log[|log1|..]);
      HeaderAnswers(old(Chain(blocks, current)), size, old(large), memory, base);
      assert hand == {};
      p := if header then memory else 0;
    }

    /** The public entry: small requests from the chain, others from malloc. */
    method Allocate(bytes: nat, memory: nat, base: nat) returns (p: nat)
      requires Valid() && hand == {}
      requires MayGet(memory) && MayAdd(base) && (memory != 0 ==> memory != base)
      modifies this
      ensures hand == {} && (Fitting(size, bytes, base) ==> Valid())
      ensures !Fitting(size, bytes, base) ==> Overrun(blocks)
      ensures cleanup == old(cleanup) && m == old(m) && size == old(size) && Runs(log) == old(Runs(log)) && old(given) <= given
      ensures var e := RequestEffect(old(Chain(blocks, current)), size, old(large), bytes, memory, base);
              Chain(blocks, current) == e.chain && large == e.large && p == e.p && log == old(log) + e.events
      ensures old(log) <= log
      ensures bytes <= MAX_ALLOC && p != 0 ==> GotSmall(old(given), given, p, bytes)
      ensures bytes > MAX_ALLOC && p != 0 ==> p == memory
    {
      hide Sound, Reuses, Reused, Runs, RequestOk, Addable, Gettable, PlacementIn, GotSmall, TouchLog, Looked, HeaderEffect, Added, Overrun;
      if bytes <= MAX_ALLOC {
        ghost var visited;
        p, visited := AllocateSmall(bytes, base);
        GivenPrefix(old(given), given, p, bytes);
      } else {
        HeaderAnswers(Chain(blocks, current), size, large, memory, base);
        p := AllocateLarge(bytes, memory, base);
      }
    }

    /** A cleanup node with `bytes` of data, linked in front.  `base0` and `base1` answer for new blocks needed by the
        node and by its data. */
    method AddCleanup(bytes: nat, base0: nat, memory: nat, base1: nat) returns (c: nat)
      requires Valid() && hand == {}
      requires MayAdd(base0) && MayAdd(base1) && MayGet(memory)
      requires base0 != 0 && base1 != 0 ==> BasesApart(base0, base1, size)
      requires memory != 0 ==> memory != base0 && memory != base1
      modifies this
      ensures hand == {} && (Fitting(size, bytes, base1) ==> Valid())
      ensures c != 0 && !Fitting(size, bytes, base1) ==> Overrun(blocks)
      ensures m == old(m) && size == old(size) && Runs(log) == old(Runs(log)) && old(log) <= log
      ensures var (e, cleanup') := CleanupEffect(old(Chain(blocks, current)), size, old(large), old(cleanup), bytes, base0, memory, base1);
              Chain(blocks, current) == e.chain && large == e.large && cleanup == cleanup' && c == e.p && log == old(log) + e.events
      ensures c == 0 ==> cleanup == old(cleanup)
      ensures c != 0 ==> |cleanup| == |old(cleanup)| + 1 && cleanup[1..] == old(cleanup)
                         && cleanup[0].node == c && cleanup[0].handler == 0
      ensures c != 0 ==> Linked(old(cleanup), cleanup, c, bytes, memory, given)
    {
      SoundSize(Now());
      SoundProfile(Now());
      ghost var before := Chain(blocks, current);
      hide Sound, ChainOk, Runs, RequestOk, GotSmall, Linked, Addable, Gettable, SmallAlloc, LinkEffect, Added, Overrun, Fitting;
      ghost var visited;
      c, visited := AllocateSmall(CLEANUP_NODE, base0);
      if c == 0 {
        return;
      }
      AnswersStay(before, Chain(blocks, current), size, m, large, hand, CLEANUP_NODE, base0, base1, memory);
      ghost var log1 := log;
      var linked := LinkCleanup(c, old(given), bytes, memory, base1);
      LogLonger(old(log), Added(before, old(Placement(CLEANUP_NODE, base0)).0, base0, size), log[|log1|..]);
      if !linked {
        c := 0;
      }
    }

    /** Lines 229-240: the data of the node at `c`, and the node in front of the list. */
    method LinkCleanup(c: nat, ghost before: seq<Given>, bytes: nat, memory: nat, base: nat) returns (linked: bool)
      requires Valid() && hand == {} && c != 0
      requires MayGet(memory) && MayAdd(base) && (memory != 0 ==> memory != base)
      requires GotSmall(before, given, c, CLEANUP_NODE)
      modifies this
      ensures hand == {} && (Fitting(size, bytes, base) ==> Valid())
      ensures linked && !Fitting(size, bytes, base) ==> Overrun(blocks)
      ensures m == old(m) && size == old(size) && Runs(log) == old(Runs(log))
      ensures var (e, cleanup') := LinkEffect(old(Chain(blocks, current)), size, old(large), old(cleanup), c, bytes, memory, base);
              Chain(blocks, current) == e.chain && large == e.large && cleanup == cleanup' && log == old(log) + e.events
              && e.p == if linked then c else 0
      ensures linked ==> Linked(old(cleanup), cleanup, c, bytes, memory, given)
      ensures !linked ==> cleanup == old(cleanup) && bytes != 0
    {
      NothingFits(Now(), base);
      ghost var e := DataEffect(Chain(blocks, current), size, large, bytes, memory, base);
      hide Sound, GotSmall, Addable, Gettable, Runs, RequestOk, NodeGiven, Linked, DataEffect, Fitting, Overrun;
      var data := AllocateData(bytes, memory, base);
      if bytes != 0 && data == 0 {
        return false;
      }
      assert log == old(log) + e.events && Chain(blocks, current) == e.chain && large == e.large && data == e.p;
      PushCleanup(c, data, before, old(given));
      LogLonger(old(log), e.events, [Node(c)]);
      LinkedIs(old(cleanup), cleanup, c, data, bytes, memory, given);
      linked := true;
    }

    /** Lines 229-236. */
    method AllocateData(bytes: nat, memory: nat, base: nat) returns (data: nat)
      requires Valid() && hand == {} && Fitting(size, 0, base)
      requires MayGet(memory) && MayAdd(base) && (memory != 0 ==> memory != base)
      modifies this
      ensures hand == {} && (Fitting(size, bytes, base) ==> Valid())
      ensures !Fitting(size, bytes, base) ==> Overrun(blocks)
      ensures cleanup == old(cleanup) && m == old(m) && size == old(size) && Runs(log) == old(Runs(log)) && old(given) <= given
      ensures var e := DataEffect(old(Chain(blocks, current)), size, old(large), bytes, memory, base);
              Chain(blocks, current) == e.chain && large == e.large && data == e.p && log == old(log) + e.events
      ensures old(log) <= log && (bytes == 0 ==> data == 0)
      ensures 0 < bytes <= MAX_ALLOC && data != 0 ==> NodeGiven(data, bytes, given)
      ensures bytes > MAX_ALLOC && data != 0 ==> data == memory
    {
      hide Sound, GotSmall, Addable, Gettable, Runs, RequestOk, NodeGiven, RequestEffect, Fitting, Overrun;
      data := 0;
      if bytes != 0 {
        data := Allocate(bytes, memory, base);
        DataGiven(old(given), given, data, bytes);
      }
    }

    method PushCleanup(c: nat, data: nat, ghost given0: seq<Given>, ghost given1: seq<Given>)
      requires GotSmall(given0, given1, c, CLEANUP_NODE) && given1 <= given
      modifies this`cleanup, this`log
      ensures old(Valid()) ==> Valid()
      ensures cleanup == [CleanupBlock(c, 0, data)] + old(cleanup) && Runs(log) == old(Runs(log))
      ensures log == old(log) + [Node(c)]
    {
      hide Sound, Runs, GotSmall;
      RunsNext(log, Node(c));
      if Sound(Now()) {
        SoundLinks(Now(), given0, given1, c, data);
      }
      log := log + [Node(c)];
      cleanup := [CleanupBlock(c, 0, data)] + cleanup;
    }

    /** What a client does with a node that AddCleanup returned. */
    method SetHandler(i: nat, handler: nat)
      requires Valid() && i < |cleanup|
      modifies this`cleanup, this`log
      ensures Valid() && Runs(log) == old(Runs(log))
      ensures cleanup == old(cleanup[i := cleanup[i].(handler := handler)])
    {
      hide Sound, Runs;
      SoundSets(Now(), i, handler);
      log := log + [Touch(cleanup[i].node)];
      cleanup := cleanup[i := cleanup[i].(handler := handler)];
    }

    /** Frees the large allocation at `p`; its header stays for reuse. */
    method LargeFree(p: nat)
      requires Valid()
      modifies this`large, this`log
      ensures Valid() && Runs(log) == old(Runs(log))
      ensures large == Swept(old(large), p) && log == old(log) + SweepLog(old(large), p, |old(large)|)
    {
      hide Sound, Runs, Swept;
      ghost var was, log0 := large, log;
      var i := 0;
      while i < |large|
        invariant 0 <= i <= |large| == |was|
        invariant forall k | 0 <= k < |large| :: large[k] == if k < i && was[k].alloc == p then was[k].(alloc := 0) else was[k]
        invariant log == log0 + SweepLog(was, p, i)
        invariant Valid() && Runs(log) == old(Runs(log))
      {
        SoundTouches(Now(), i);
        log := log + [Touch(large[i].node)];
        if p == large[i].alloc {
          if p != 0 {
            SoundReleases(Now(), i);
            log := log + [Free(p, 0)];
          }
          assert p == 0 ==> large[i := large[i].(alloc := 0)] == large;
          large := large[i := large[i].(alloc := 0)];
        }
        i := i + 1;
      }
    }

    /** Lines 44-48 and 82-86. */
    method RunHandlers()
      requires Valid()
      modifies this`log
      ensures Valid() && log == old(log) + CleanupLog(cleanup, |cleanup|)
      ensures Runs(log) == old(Runs(log)) + Handlers(cleanup, |cleanup|)
    {
      hide Sound, Runs, CleanupVisit;
      ghost var log0 := log;
      var i := 0;
      while i < |cleanup|
        invariant 0 <= i <= |cleanup|
        invariant Valid() && log == log0 + CleanupLog(cleanup, i)
        invariant Runs(log) == Runs(log0) + Handlers(cleanup, i)
      {
        SoundVisitsCleanup(Now(), i);
        log := log + CleanupVisit(cleanup[i]);
        i := i + 1;
      }
    }

    /** Handlers run, large memory goes back, and every block is handed out afresh. */
    method Reset()
      requires Valid() && hand == {}
      modifies this
      ensures Valid() && hand == {}
      ensures Chain(blocks, current) == ResetChain(old(Chain(blocks, current)))
      ensures current == 0 && |blocks| == |old(blocks)|
      ensures forall i | 0 <= i < |blocks| :: blocks[i] == SmallBlock(old(blocks)[i].base, old(blocks)[i].base + 32, old(blocks)[i].end, 0)
      ensures m == |blocks| && size == old(size) && large == [] && cleanup == [] && given == []
      ensures log == old(log) + CleanupLog(old(cleanup), |old(cleanup)|) + LargeLog(old(large), |old(large)|) + [Recycle]
      ensures Runs(log) == old(Runs(log)) + Handlers(old(cleanup), |old(cleanup)|)
    {
      hide Sound, Runs, LargeVisit, CleanupLog, Handlers, ResetChain;
      RunHandlers();
      ghost var was, s := large, Now();
      var i := 0;
      while i < |large|
        invariant 0 <= i <= |large| == |was| && large[i..] == was[i..]
        invariant log == s.log + LargeLog(was, i) && Runs(log) == Runs(s.log)
        invariant Sound(Now().(large := large[i..]))
        invariant blocks == old(blocks) && current == old(current) && size == old(size) && cleanup == old(cleanup) && hand == {}
      {
        SoundDropsLarge(Now().(large := large[i..]));
        assert large[i..][0] == was[i] && large[i..][1..] == large[i + 1..];
        log := log + LargeVisit(large[i]);
        if large[i].alloc != 0 {
          large := large[i := large[i].(alloc := 0)];
        }
        i := i + 1;
      }
      SoundRecycles(Now().(large := []));
      ClearBlocks();
      current := 0;
      cleanup := [];
      large := [];
      m := |blocks|;
      given := [];
      log := log + [Recycle];
    }

    /** Lines 97-100. */
    method ClearBlocks()
      modifies this`blocks
      ensures blocks == ResetChain(Chain(old(blocks), current)).blocks
    {
      ghost var was := blocks;
      var i := 0;
      while i < |blocks|
        invariant 0 <= i <= |blocks| == |was|
        invariant forall k | 0 <= k < |was| :: blocks[k] == if k < i then Cleared(was[k]) else was[k]
      {
        blocks := blocks[i := blocks[i].(start := blocks[i].base + HEADER, failed := 0)];
        i := i + 1;
      }
    }

    /** Destruction: handlers, then large memory, then the blocks themselves. */
    method DestroyPool()
      requires Valid() && hand == {}
      modifies this
      ensures blocks == [] && current == 0 && large == [] && cleanup == []
      ensures log == old(log) + CleanupLog(old(cleanup), |old(cleanup)|) + LargeLog(old(large), |old(large)|)
                     + BlockLog(old(blocks), old(size), |old(blocks)|)
      ensures Runs(log) == old(Runs(log)) + Handlers(old(cleanup), |old(cleanup)|)
      ensures Audit(log).Some? && Audit(log).value.held == map[]
      ensures forall p :: Mallocs(log, p) == Frees(log, p)
    {
      hide Sound, Runs, LargeVisit, Audit, CleanupLog, Handlers, Mallocs, Frees;
      RunHandlers();
      ghost var s := Now();
      var i := 0;
      while i < |large|
        invariant 0 <= i <= |large|
        invariant log == s.log + LargeLog(large, i) && Runs(log) == Runs(s.log)
        invariant Sound(Now().(large := large[i..]))
        invariant blocks == old(blocks) && size == old(size) && hand == {} && large == old(large)
      {
        SoundDropsLarge(Now().(large := large[i..]));
        assert large[i..][0] == large[i] && large[i..][1..] == large[i + 1..];
        log := log + LargeVisit(large[i]);
        i := i + 1;
      }
      SoundEnds(Now().(large := []));
      ghost var log1 := log;
      i := 0;
      while i < |blocks|
        invariant 0 <= i <= |blocks| && blocks == old(blocks) && size == old(size)
        invariant log == log1 + BlockLog(blocks, size, i) && Runs(log) == Runs(s.log)
        invariant BlocksHeld(log, blocks, i)
      {
        FreesBlock(log, blocks, i, size);
        log := log + [Header(blocks[i].base), Free(blocks[i].base, size)];
        i := i + 1;
      }
      forall p
        ensures Mallocs(log, p) == Frees(log, p)
      {
        FreedOncePerMalloc(log, p);
      }
      blocks, current, cleanup, large := [], 0, [], [];
    }
  }

  lemma NullMay(c: Chain, poolSize: nat, large: seq<LargeBlock>, hand: set<nat>)
    ensures Addable(c, poolSize, large, hand, 0) && Gettable(c.blocks, large, hand, 0)
  {
  }

  lemma OnlyRoot(c: Chain, large: seq<LargeBlock>, root: SmallBlock, memory: nat)
    requires c.blocks == [root] && large == [] && memory != root.base
    ensures Gettable(c.blocks, large, {}, memory)
  {
  }

  /** The one node of a list, its handler set. */
  lemma OneHandler(cleanup: seq<CleanupBlock>)
    requires |cleanup| <= 1
    ensures Handlers(cleanup, |cleanup|)
            == if cleanup != [] && cleanup[0].handler != 0 then [(cleanup[0].handler, cleanup[0].data)] else []
  {
    if cleanup != [] {
      assert Handlers(cleanup, 0) == [];
    }
  }

  /** A pool from construction to destruction: a registered handler runs once, at the Reset, and everything malloc'd has
      been freed once in the end. */
  method Lifetime(bytes: nat, base: nat, n: nat, memory: nat, handler: nat) returns (pool: MemoryPool, registered: bool)
    requires bytes > 0 && Clamp(bytes) % ALIGNMENT == 0 && n > MAX_ALLOC
    requires base > 0 && base % ALIGNMENT == 0 && base + Clamp(bytes) < ADDRESSES && memory != base
    ensures fresh(pool) && Runs(pool.log) == if registered && handler != 0 then [(handler, 0)] else []
    ensures forall p :: Mallocs(pool.log, p) == Frees(pool.log, p)
  {
    hide Addable, Gettable, Sound, Handlers, CleanupLog, LargeLog, BlockLog, PlacementIn, Reuses, Reused, Mallocs, Frees, Audit, Runs,
      ResetChain, RequestOk;
    pool := new MemoryPool(bytes, base);
    OnlyRoot(Chain(pool.blocks, pool.current), pool.large, pool.blocks[0], memory);
    NullMay(Chain(pool.blocks, pool.current), pool.size, pool.large, pool.hand);
    RunsNext([], Malloc(base, Clamp(bytes)));
    NoRuns();
    assert pool.log == [] + [Malloc(base, Clamp(bytes))];
    var p := pool.Allocate(n, memory, 0);
    NullMay(Chain(pool.blocks, pool.current), pool.size, pool.large, pool.hand);
    assert Fitting(pool.size, n, 0) && Fitting(pool.size, 0, 0);
    var c := pool.AddCleanup(0, 0, 0, 0);
    registered := c != 0;
    if registered {
      LinkedHead([], pool.cleanup, c, pool.given);
      pool.SetHandler(0, handler);
    }
    OneHandler(pool.cleanup);
    pool.Reset();
    OneHandler(pool.cleanup);
    pool.DestroyPool();
  }

  lemma NoRuns()
    ensures Runs([]) == []
  {
  }

  lemma LinkedHead(cleanup: seq<CleanupBlock>, cleanup': seq<CleanupBlock>, c: nat, given: seq<Given>)
    requires Linked(cleanup, cleanup', c, 0, 0, given)
    ensures |cleanup'| == |cleanup| + 1 && cleanup'[0].data == 0
  {
  }
}
