/** Which pools never overrun a block: over every run of small requests on a new pool. */
module NginxBounds {
  import opened NginxChain
  import opened NginxReplay

  /** A new pool: the root block alone, filled up to `start`. */
  function Root(base: nat, poolSize: nat, start: nat): Chain {
    Chain([SmallBlock(base, start, base + poolSize, 0)], 0)
  }

  /** Requests a client may make, and answers malloc may give, null included. */
  ghost predicate Asked(c: Chain, poolSize: nat, reqs: seq<Request>)
    requires c.current < |c.blocks|
    decreases |reqs|
  {
    reqs != [] ==>
      && reqs[0].size <= MAX_ALLOC && BlockAnswer(c, poolSize, reqs[0].base)
      && Asked(SmallAlloc(c, poolSize, reqs[0].size, reqs[0].base).0, poolSize, reqs[1..])
  }

  /** Every request fits a block beside its header. */
  predicate AllFit(poolSize: nat, reqs: seq<Request>) {
    forall i | 0 <= i < |reqs| :: RequestOk(poolSize, reqs[i].size)
  }

  /** No block is filled past its end. */
  predicate Inside(c: Chain) {
    forall i | 0 <= i < |c.blocks| :: c.blocks[i].start <= c.blocks[i].end
  }

  lemma {:induction false} AlignedStaysInside(c: Chain, poolSize: nat, m: nat, reqs: seq<Request>)
    requires ChainOk(c, poolSize, m) && c.current < |c.blocks| && Asked(c, poolSize, reqs) && AllFit(poolSize, reqs)
    ensures Inside(Exec(c, poolSize, reqs).0)
    decreases |reqs|
  {
    if reqs == [] {
      assert forall i | 0 <= i < |c.blocks| :: BlockOk(c.blocks[i], poolSize);
    } else {
      SmallAllocOk(c, poolSize, m, reqs[0].size, reqs[0].base);
      hide SmallAlloc, ChainOk, RequestOk, BlockAnswer, Inside;
      AlignedStaysInside(SmallAlloc(c, poolSize, reqs[0].size, reqs[0].base).0, poolSize, m, reqs[1..]);
    }
  }

  /** One request that the root takes. */
  lemma RootTakes(base: nat, poolSize: nat, start: nat, size: nat)
    requires Fits(Root(base, poolSize, start).blocks[0], size)
    ensures SmallAlloc(Root(base, poolSize, start), poolSize, size, 0).0 == Root(base, poolSize, AlignUp(start) + size)
  {
    var c := Root(base, poolSize, start);
    FirstFitIs(c.blocks, 0, size, 0);
    assert c.blocks[0 := Place(c.blocks[0], size)] == Root(base, poolSize, AlignUp(start) + size).blocks;
  }

  lemma AsksFirst(base: nat, poolSize: nat, start: nat, size: nat, rest: seq<Request>)
    requires Fits(Root(base, poolSize, start).blocks[0], size) && size <= MAX_ALLOC && RequestOk(poolSize, size)
    requires Asked(Root(base, poolSize, AlignUp(start) + size), poolSize, rest) && AllFit(poolSize, rest)
    ensures var c, reqs := Root(base, poolSize, start), [Request(size, 0)] + rest;
            Asked(c, poolSize, reqs) && AllFit(poolSize, reqs) && Exec(c, poolSize, reqs).0 == Exec(Root(base, poolSize, AlignUp(start) + size), poolSize, rest).0
  {
    RootTakes(base, poolSize, start, size);
    hide Fits, SmallAlloc, RequestOk, AlignUp;
    assert ([Request(size, 0)] + rest)[1..] == rest;
  }

  lemma FitsTail(base: nat, poolSize: nat, start: nat, size: nat)
    requires start % ALIGNMENT == 0 && start + size <= base + poolSize < ADDRESSES
    ensures Fits(Root(base, poolSize, start).blocks[0], size) && AlignUp(start) == start
  {
  }

  /** A request that an aligned fill level leaves room for, before others. */
  lemma AsksAligned(base: nat, poolSize: nat, start: nat, size: nat, rest: seq<Request>)
    requires start % ALIGNMENT == 0 && base + HEADER <= start && start + size <= base + poolSize < ADDRESSES && size <= MAX_ALLOC
    requires Asked(Root(base, poolSize, start + size), poolSize, rest) && AllFit(poolSize, rest)
    ensures var c, reqs := Root(base, poolSize, start), [Request(size, 0)] + rest;
            Asked(c, poolSize, reqs) && AllFit(poolSize, reqs) && Exec(c, poolSize, reqs).0 == Exec(Root(base, poolSize, start + size), poolSize, rest).0
  {
    FitsTail(base, poolSize, start, size);
    assert RequestOk(poolSize, size);
    hide Fits, AlignUp, RequestOk, Asked, AllFit, Exec;
    AsksFirst(base, poolSize, start, size, rest);
  }

  /** At an unaligned end the wrapped test takes a byte that lies outside. */
  lemma TakesOutside(base: nat, poolSize: nat)
    requires (base + poolSize) % ALIGNMENT != 0 && base + poolSize < ADDRESSES
    ensures Fits(Root(base, poolSize, base + poolSize).blocks[0], 1)
    ensures !Inside(Root(base, poolSize, AlignUp(base + poolSize) + 1))
  {
    var end := base + poolSize;
    assert SizeT(end - AlignUp(end)) == ADDRESSES + end - AlignUp(end);
    var over := Root(base, poolSize, AlignUp(end) + 1);
    assert over.blocks[0].start > over.blocks[0].end;
  }

  lemma LastTwo(base: nat, poolSize: nat, start: nat) returns (reqs: seq<Request>)
    requires (base + poolSize) % ALIGNMENT != 0 && MIN_POOL <= poolSize && base + poolSize < ADDRESSES
    requires start % ALIGNMENT == 0 && base + HEADER <= start <= base + poolSize <= start + MAX_ALLOC
    ensures Asked(Root(base, poolSize, start), poolSize, reqs) && AllFit(poolSize, reqs)
    ensures !Inside(Exec(Root(base, poolSize, start), poolSize, reqs).0)
  {
    hide Inside, Asked, AllFit, Exec, Root;
    var over := Last(base, poolSize);
    var tail := base + poolSize - start;
    assert start + tail == base + poolSize;
    AsksAligned(base, poolSize, start, tail, over);
    reqs := [Request(tail, 0)] + over;
  }

  lemma Last(base: nat, poolSize: nat) returns (reqs: seq<Request>)
    requires (base + poolSize) % ALIGNMENT != 0 && MIN_POOL <= poolSize && base + poolSize < ADDRESSES
    ensures Asked(Root(base, poolSize, base + poolSize), poolSize, reqs) && AllFit(poolSize, reqs)
    ensures !Inside(Exec(Root(base, poolSize, base + poolSize), poolSize, reqs).0)
  {
    var end := base + poolSize;
    TakesOutside(base, poolSize);
    assert RequestOk(poolSize, 1);
    hide Fits, AlignUp, Inside, RequestOk;
    AsksFirst(base, poolSize, end, 1, []);
    reqs := [Request(1, 0)] + [];
  }

  /** A pool whose end is not aligned can be filled to its end, and one more byte then lies outside. */
  lemma {:induction false} Overruns(base: nat, poolSize: nat, start: nat) returns (reqs: seq<Request>)
    requires (base + poolSize) % ALIGNMENT != 0 && MIN_POOL <= poolSize && base + poolSize < ADDRESSES
    requires start % ALIGNMENT == 0 && base + HEADER <= start <= base + poolSize
    ensures Asked(Root(base, poolSize, start), poolSize, reqs) && AllFit(poolSize, reqs)
    ensures !Inside(Exec(Root(base, poolSize, start), poolSize, reqs).0)
    decreases base + poolSize - start
  {
    hide Inside, Asked, AllFit, Exec, Root;
    if base + poolSize - start <= MAX_ALLOC {
      reqs := LastTwo(base, poolSize, start);
    } else {
      var rest := Overruns(base, poolSize, start + 4080);
      AsksAligned(base, poolSize, start, 4080, rest);
      reqs := [Request(4080, 0)] + rest;
    }
  }

  ghost predicate NeverOverruns(c: Chain, poolSize: nat)
    requires c.current < |c.blocks|
  {
    forall reqs | Asked(c, poolSize, reqs) :: Inside(Exec(c, poolSize, reqs).0)
  }

  ghost predicate NeverOverrunsFitting(c: Chain, poolSize: nat)
    requires c.current < |c.blocks|
  {
    forall reqs | Asked(c, poolSize, reqs) && AllFit(poolSize, reqs) :: Inside(Exec(c, poolSize, reqs).0)
  }

  lemma RootOk(base: nat, poolSize: nat)
    requires base > 0 && base % ALIGNMENT == 0 && MIN_POOL <= poolSize && base + poolSize < ADDRESSES && poolSize % ALIGNMENT == 0
    ensures ChainOk(Root(base, poolSize, base + HEADER), poolSize, 1)
  {
  }

  /** As long as every request fits a block beside its header, no run of small requests on a new pool fills a block past
      its end, if and only if the pool size is a multiple of 16. */
  lemma FittingPoolIsSafeIff(base: nat, poolSize: nat)
    requires base > 0 && base % ALIGNMENT == 0 && MIN_POOL <= poolSize && base + poolSize < ADDRESSES
    ensures NeverOverrunsFitting(Root(base, poolSize, base + HEADER), poolSize) <==> poolSize % ALIGNMENT == 0
  {
    var c := Root(base, poolSize, base + HEADER);
    hide ChainOk, Inside, Asked, AllFit, Exec;
    if poolSize % ALIGNMENT == 0 {
      RootOk(base, poolSize);
      forall reqs | Asked(c, poolSize, reqs) && AllFit(poolSize, reqs)
        ensures Inside(Exec(c, poolSize, reqs).0)
      {
        AlignedStaysInside(c, poolSize, 1, reqs);
      }
    } else {
      var reqs := Overruns(base, poolSize, base + HEADER);
      assert Asked(c, poolSize, reqs) && AllFit(poolSize, reqs) && !Inside(Exec(c, poolSize, reqs).0);
    }
  }

  /** Somewhere a block beside the root can lie. */
  lemma SecondBlock(base: nat, poolSize: nat) returns (b: nat)
    requires base > 0 && base % ALIGNMENT == 0 && poolSize % ALIGNMENT == 0 && poolSize < MAX_ALLOC + HEADER
    requires base + poolSize < ADDRESSES
    ensures b != 0 && b % ALIGNMENT == 0 && b + poolSize < ADDRESSES && BasesApart(base, b, poolSize)
  {
    b := if base + 2 * poolSize < ADDRESSES then base + poolSize else ALIGNMENT;
  }

  lemma RootRefuses(base: nat, poolSize: nat, size: nat)
    requires base % ALIGNMENT == 0 && base + poolSize < ADDRESSES && HEADER <= poolSize && !RequestOk(poolSize, size)
    ensures !Fits(Root(base, poolSize, base + HEADER).blocks[0], size)
  {
  }

  /** A request that does not fit a block beside its header gets a new block all the same, and fills it past its end. */
  lemma Oversized(base: nat, poolSize: nat, size: nat, b: nat)
    requires base % ALIGNMENT == 0 && base + poolSize < ADDRESSES && HEADER <= poolSize && !RequestOk(poolSize, size)
    requires b != 0 && b % ALIGNMENT == 0
    ensures !Inside(SmallAlloc(Root(base, poolSize, base + HEADER), poolSize, size, b).0)
  {
    var c := Root(base, poolSize, base + HEADER);
    RootRefuses(base, poolSize, size);
    FirstFitIs(c.blocks, 0, size, 1);
    NewBlockSafeIff(b, poolSize, size);
    hide Fits, RequestOk, NewBlock, HeadAfter, AddFailure;
    var c' := SmallAlloc(c, poolSize, size, b).0;
    assert c'.blocks[1] == NewBlock(b, poolSize, size);
  }

  lemma RunOfOne(c: Chain, poolSize: nat, r: Request)
    requires c.current < |c.blocks| && r.size <= MAX_ALLOC && BlockAnswer(c, poolSize, r.base)
    ensures Asked(c, poolSize, [r]) && Exec(c, poolSize, [r]).0 == SmallAlloc(c, poolSize, r.size, r.base).0
  {
    hide SmallAlloc, BlockAnswer;
    assert [r][1..] == [];
  }

  /** No run of small requests on a new pool fills a block past its end, if and only if the pool size is a multiple of 16
      and leaves room for the largest small request beside the header. */
  lemma PoolIsSafeIff(base: nat, poolSize: nat)
    requires base > 0 && base % ALIGNMENT == 0 && MIN_POOL <= poolSize && base + poolSize < ADDRESSES
    ensures NeverOverruns(Root(base, poolSize, base + HEADER), poolSize)
            <==> poolSize % ALIGNMENT == 0 && MAX_ALLOC + HEADER <= poolSize
  {
    var c := Root(base, poolSize, base + HEADER);
    if poolSize % ALIGNMENT != 0 {
      hide Inside, Asked, AllFit, Exec;
      var reqs := Overruns(base, poolSize, base + HEADER);
      assert Asked(c, poolSize, reqs) && !Inside(Exec(c, poolSize, reqs).0);
    } else if poolSize < MAX_ALLOC + HEADER {
      var b := SecondBlock(base, poolSize);
      assert BlockAnswer(c, poolSize, b);
      hide Inside, Asked, Exec, SmallAlloc, BlockAnswer;
      Oversized(base, poolSize, MAX_ALLOC, b);
      RunOfOne(c, poolSize, Request(MAX_ALLOC, b));
    } else {
      RootOk(base, poolSize);
      hide ChainOk, Inside, Exec;
      forall reqs | Asked(c, poolSize, reqs)
        ensures Inside(Exec(c, poolSize, reqs).0)
      {
        SmallRequestsFit(c, poolSize, reqs);
        AlignedStaysInside(c, poolSize, 1, reqs);
      }
    }
  }

  lemma {:induction false} SmallRequestsFit(c: Chain, poolSize: nat, reqs: seq<Request>)
    requires c.current < |c.blocks| && Asked(c, poolSize, reqs) && MAX_ALLOC + HEADER <= poolSize
    ensures AllFit(poolSize, reqs)
    decreases |reqs|
  {
    if reqs != [] {
      hide SmallAlloc, BlockAnswer;
      SmallRequestsFit(SmallAlloc(c, poolSize, reqs[0].size, reqs[0].base).0, poolSize, reqs[1..]);
      forall i | 0 <= i < |reqs|
        ensures RequestOk(poolSize, reqs[i].size)
      {
        if i > 0 {
          assert reqs[i] == reqs[1..][i - 1];
        }
      }
    }
  }
}
