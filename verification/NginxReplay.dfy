/** When Reset followed by the same requests gives the same addresses.  Without refusals it does exactly when no request
    fits a block that the search head has passed: growing a chain block by block and searching an already grown chain
    first-fit then place alike. */
module NginxReplay {
  import opened NginxChain

  /** A request of `size` bytes, and what malloc would answer should a new block be needed for it. */
  datatype Request = Request(size: nat, base: nat)

  /** A run of small requests: the final chain and the addresses handed out. */
  function Exec(c: Chain, poolSize: nat, reqs: seq<Request>): (Chain, seq<nat>)
    requires c.current < |c.blocks|
    decreases |reqs|
  {
    if reqs == [] then (c, [])
    else
      var (c', a) := SmallAlloc(c, poolSize, reqs[0].size, reqs[0].base);
      var (c'', as') := Exec(c', poolSize, reqs[1..]);
      (c'', [a] + as')
  }

  /** Every request is in range and malloc never refuses. */
  ghost predicate Served(c: Chain, poolSize: nat, reqs: seq<Request>)
    requires c.current < |c.blocks|
    decreases |reqs|
  {
    reqs != [] ==>
      && RequestOk(poolSize, reqs[0].size) && reqs[0].base != 0 && BlockAnswer(c, poolSize, reqs[0].base)
      && Served(SmallAlloc(c, poolSize, reqs[0].size, reqs[0].base).0, poolSize, reqs[1..])
  }

  function Cleared(b: SmallBlock): SmallBlock {
    b.(start := b.base + HEADER, failed := 0)
  }

  /** What Reset leaves of the chain. */
  function ResetChain(c: Chain): (r: Chain)
    ensures r.current == 0 && |r.blocks| == |c.blocks| && forall i | 0 <= i < |c.blocks| :: r.blocks[i] == Cleared(c.blocks[i])
  {
    Chain(seq(|c.blocks|, i requires 0 <= i < |c.blocks| => Cleared(c.blocks[i])), 0)
  }

  /** New, or just Reset. */
  ghost predicate Empty(c: Chain) {
    c.current == 0 && forall i | 0 <= i < |c.blocks| :: c.blocks[i] == Cleared(c.blocks[i])
  }

  lemma ResetOk(c: Chain, poolSize: nat, m: nat)
    requires ChainOk(c, poolSize, m)
    ensures ChainOk(ResetChain(c), poolSize, |c.blocks|) && Empty(ResetChain(c))
  {
  }

  ghost predicate SameBase(b: SmallBlock, b': SmallBlock) {
    b'.base == b.base && b'.end == b.end
  }

  /** A run only appends blocks. */
  ghost predicate Extends(c: Chain, c': Chain) {
    |c.blocks| <= |c'.blocks| && forall i | 0 <= i < |c.blocks| :: SameBase(c.blocks[i], c'.blocks[i])
  }

  lemma StepExtends(c: Chain, poolSize: nat, size: nat, base: nat)
    requires c.current < |c.blocks|
    ensures Extends(c, SmallAlloc(c, poolSize, size, base).0)
  {
  }

  lemma {:induction false} ExecExtends(c: Chain, poolSize: nat, reqs: seq<Request>)
    requires c.current < |c.blocks|
    ensures Extends(c, Exec(c, poolSize, reqs).0)
    decreases |reqs|
  {
    if reqs != [] {
      StepExtends(c, poolSize, reqs[0].size, reqs[0].base);
      ExecExtends(SmallAlloc(c, poolSize, reqs[0].size, reqs[0].base).0, poolSize, reqs[1..]);
    }
  }

  /** Every request is in range, and every answer is one malloc may give, null included. */
  ghost predicate Legal(c: Chain, poolSize: nat, reqs: seq<Request>)
    requires c.current < |c.blocks|
    decreases |reqs|
  {
    reqs != [] ==>
      && RequestOk(poolSize, reqs[0].size) && BlockAnswer(c, poolSize, reqs[0].base)
      && Legal(SmallAlloc(c, poolSize, reqs[0].size, reqs[0].base).0, poolSize, reqs[1..])
  }

  lemma {:induction false} ServedIsLegal(c: Chain, poolSize: nat, reqs: seq<Request>)
    requires c.current < |c.blocks| && Served(c, poolSize, reqs)
    ensures Legal(c, poolSize, reqs)
    decreases |reqs|
  {
    if reqs != [] {
      hide SmallAlloc, RequestOk, BlockAnswer;
      ServedIsLegal(SmallAlloc(c, poolSize, reqs[0].size, reqs[0].base).0, poolSize, reqs[1..]);
    }
  }

  lemma {:induction false} ExecOk(c: Chain, poolSize: nat, m: nat, reqs: seq<Request>)
    requires ChainOk(c, poolSize, m) && c.current < |c.blocks| && Legal(c, poolSize, reqs)
    ensures ChainOk(Exec(c, poolSize, reqs).0, poolSize, m)
    decreases |reqs|
  {
    if reqs != [] {
      SmallAllocOk(c, poolSize, m, reqs[0].size, reqs[0].base);
      hide SmallAlloc, ChainOk, RequestOk, BlockAnswer;
      ExecOk(SmallAlloc(c, poolSize, reqs[0].size, reqs[0].base).0, poolSize, m, reqs[1..]);
    }
  }

  /** No block from the search head on takes the request, and malloc refuses one. */
  predicate Refused(c: Chain, r: Request)
    requires c.current < |c.blocks|
  {
    r.base == 0 && FirstFit(c.blocks, c.current, r.size) == |c.blocks|
  }

  /** At every request of the run, no block that the search head has passed would take it; and where it is refused, no
      block is added later, up to `total` in all, and the second run is refused as well if it asks. */
  predicate Replayable(c: Chain, poolSize: nat, reqs: seq<Request>, again: seq<Request>, total: nat)
    requires c.current < |c.blocks| && |again| == |reqs|
    decreases |reqs|
  {
    reqs != [] ==>
      && PassedRefuse(c, reqs[0].size)
      && (Refused(c, reqs[0]) ==> |c.blocks| == total && again[0].base == 0)
      && Replayable(SmallAlloc(c, poolSize, reqs[0].size, reqs[0].base).0, poolSize, reqs[1..], again[1..], total)
  }

  /** The same for a run that malloc never refuses. */
  predicate NonePassed(c: Chain, poolSize: nat, reqs: seq<Request>)
    requires c.current < |c.blocks|
    decreases |reqs|
  {
    reqs != [] ==>
      && PassedRefuse(c, reqs[0].size)
      && NonePassed(SmallAlloc(c, poolSize, reqs[0].size, reqs[0].base).0, poolSize, reqs[1..])
  }

  lemma {:induction false} ServedReplayable(c: Chain, poolSize: nat, reqs: seq<Request>, again: seq<Request>, total: nat)
    requires c.current < |c.blocks| && |again| == |reqs| && Served(c, poolSize, reqs)
    ensures Replayable(c, poolSize, reqs, again, total) <==> NonePassed(c, poolSize, reqs)
    decreases |reqs|
  {
    if reqs != [] {
      hide SmallAlloc, RequestOk, BlockAnswer, PassedRefuse;
      ServedReplayable(SmallAlloc(c, poolSize, reqs[0].size, reqs[0].base).0, poolSize, reqs[1..], again[1..], total);
    }
  }

  predicate PassedRefuse(c: Chain, size: nat) {
    forall i | 0 <= i < c.current && i < |c.blocks| :: !Fits(c.blocks[i], size)
  }

  /** The second run is ahead of the first: same placements so far, and it owns, still empty, the blocks the first
      run has yet to add.  Its search begins at the root. */
  ghost predicate Ahead(c: Chain, d: Chain) {
    && c.current < |c.blocks| <= |d.blocks| && d.current == 0
    && (forall i | 0 <= i < |c.blocks| :: SameBase(c.blocks[i], d.blocks[i]) && d.blocks[i].start == c.blocks[i].start)
    && (forall i | |c.blocks| <= i < |d.blocks| :: d.blocks[i].start == d.blocks[i].base + HEADER)
  }

  /** A block the second run owns takes what the first run must add a block for. */
  lemma FitsInAdded(c: Chain, d: Chain, poolSize: nat, r: Request)
    requires Ahead(c, d) && |c.blocks| < |d.blocks| && poolSize % ALIGNMENT == 0
    requires RequestOk(poolSize, r.size) && r.base != 0 && BlockAnswer(c, poolSize, r.base)
    requires SameBase(NewBlock(r.base, poolSize, r.size), d.blocks[|c.blocks|])
    ensures Fits(d.blocks[|c.blocks|], r.size) && AlignUp(d.blocks[|c.blocks|].start) == r.base + HEADER
  {
    NewBlockOk(c, poolSize, r.size, r.base);
  }

  lemma FitsAlike(c: Chain, d: Chain, size: nat)
    requires Ahead(c, d)
    ensures forall i | 0 <= i < |c.blocks| :: Fits(d.blocks[i], size) <==> Fits(c.blocks[i], size)
  {
    hide AlignUp, SizeT;
    forall i | 0 <= i < |c.blocks|
      ensures Fits(d.blocks[i], size) <==> Fits(c.blocks[i], size)
    {
      assert SameBase(c.blocks[i], d.blocks[i]);
    }
  }

  lemma FirstFitAlike(c: Chain, d: Chain, size: nat)
    requires Ahead(c, d) && PassedRefuse(c, size)
    requires FirstFit(c.blocks, c.current, size) == |c.blocks| < |d.blocks| ==> Fits(d.blocks[|c.blocks|], size)
    ensures FirstFit(c.blocks, c.current, size) < |d.blocks| ==> FirstFit(d.blocks, 0, size) == FirstFit(c.blocks, c.current, size)
  {
    FitsAlike(c, d, size);
    hide Fits;
    var j := FirstFit(c.blocks, c.current, size);
    if j < |d.blocks| {
      FirstFitIs(d.blocks, 0, size, j);
    }
  }

  /** Both runs put the request into the same block. */
  lemma PlaceAhead(c: Chain, d: Chain, j: nat, size: nat)
    requires Ahead(c, d) && j < |c.blocks|
    ensures Ahead(Chain(c.blocks[j := Place(c.blocks[j], size)], c.current), Chain(d.blocks[j := Place(d.blocks[j], size)], 0))
    ensures AlignUp(c.blocks[j].start) == AlignUp(d.blocks[j].start)
    ensures forall i | 0 <= i < |d.blocks| :: SameBase(d.blocks[i], d.blocks[j := Place(d.blocks[j], size)][i])
  {
    hide AlignUp;
    assert SameBase(c.blocks[j], d.blocks[j]);
  }

  /** The first run adds the block that the second has. */
  lemma GrowAhead(c: Chain, d: Chain, c': Chain, poolSize: nat, r: Request)
    requires Ahead(c, d) && |c.blocks| < |d.blocks| && AlignUp(d.blocks[|c.blocks|].start) == r.base + HEADER
    requires c'.blocks == AddFailure(c.blocks, c.current) + [NewBlock(r.base, poolSize, r.size)] && c'.current < |c'.blocks|
    requires SameBase(NewBlock(r.base, poolSize, r.size), d.blocks[|c.blocks|]) && AlignUp(r.base + HEADER) == r.base + HEADER
    ensures Ahead(c', Chain(d.blocks[|c.blocks| := Place(d.blocks[|c.blocks|], r.size)], 0))
    ensures forall i | 0 <= i < |d.blocks| :: SameBase(d.blocks[i], d.blocks[|c.blocks| := Place(d.blocks[|c.blocks|], r.size)][i])
  {
    hide AlignUp;
    var d' := Chain(d.blocks[|c.blocks| := Place(d.blocks[|c.blocks|], r.size)], 0);
    forall i | 0 <= i < |c.blocks|
      ensures SameBase(c'.blocks[i], d'.blocks[i]) && d'.blocks[i].start == c'.blocks[i].start
    {
      assert SameBase(c.blocks[i], d.blocks[i]);
    }
  }

  /** One request placed alike by both runs. */
  lemma StepAhead(c: Chain, d: Chain, poolSize: nat, m: nat, r: Request, base: nat)
    requires ChainOk(c, poolSize, m) && Ahead(c, d) && PassedRefuse(c, r.size)
    requires RequestOk(poolSize, r.size) && BlockAnswer(c, poolSize, r.base) && !Refused(c, r)
    requires var c' := SmallAlloc(c, poolSize, r.size, r.base).0;
             |c'.blocks| <= |d.blocks| && forall i | 0 <= i < |c'.blocks| :: SameBase(c'.blocks[i], d.blocks[i])
    ensures var (c', a), (d', b) := SmallAlloc(c, poolSize, r.size, r.base), SmallAlloc(d, poolSize, r.size, base);
            a == b && Ahead(c', d') && |d'.blocks| == |d.blocks|
            && forall i | 0 <= i < |d.blocks| :: SameBase(d.blocks[i], d'.blocks[i])
  {
    var n, j := |c.blocks|, FirstFit(c.blocks, c.current, r.size);
    var c' := SmallAlloc(c, poolSize, r.size, r.base).0;
    if j == n {
      NewBlockOk(c, poolSize, r.size, r.base);
      assert c'.blocks[n] == NewBlock(r.base, poolSize, r.size);
      assert SameBase(c'.blocks[n], d.blocks[n]);
      FitsInAdded(c, d, poolSize, r);
      FirstFitAlike(c, d, r.size);
      hide Fits, FirstFit, AlignUp, ChainOk, BlockAnswer, HeadAfter, RequestOk, Ahead, SameBase, AddFailure, NewBlock, Place, PassedRefuse;
      GrowAhead(c, d, c', poolSize, r);
    } else {
      FirstFitAlike(c, d, r.size);
      hide Fits, FirstFit, AlignUp, ChainOk, BlockAnswer, HeadAfter, RequestOk, SameBase, AddFailure, NewBlock, Place, PassedRefuse;
      PlaceAhead(c, d, j, r.size);
    }
  }

  /** Where a block's placements lie. */
  lemma PlacedWithin(b: SmallBlock, poolSize: nat, size: nat)
    requires BlockOk(b, poolSize) && poolSize % ALIGNMENT == 0 && Fits(b, size)
    ensures b.base + HEADER <= AlignUp(b.start) <= b.base + poolSize
  {
    FitsInside(b, poolSize, size);
  }

  /** Where the second run puts a request that fits a passed block. */
  lemma PlacesInPassed(c: Chain, d: Chain, poolSize: nat, m: nat, size: nat, base: nat) returns (k: nat)
    requires ChainOk(c, poolSize, m) && Ahead(c, d) && !PassedRefuse(c, size)
    ensures k < c.current < |c.blocks| && BlockOk(c.blocks[k], poolSize)
    ensures c.blocks[k].base + HEADER <= SmallAlloc(d, poolSize, size, base).1 <= c.blocks[k].base + poolSize
  {
    var i :| 0 <= i < c.current && i < |c.blocks| && Fits(c.blocks[i], size);
    FitsAlike(c, d, size);
    k := FirstFit(d.blocks, 0, size);
    assert k <= i;
    assert SameBase(c.blocks[k], d.blocks[k]) && BlockOk(c.blocks[k], poolSize) && Fits(c.blocks[k], size);
    PlacedWithin(c.blocks[k], poolSize, size);
    hide Fits, FirstFit, AlignUp, HeadAfter, AddFailure, ChainOk;
  }

  /** Where the first run puts it: in a block that lies apart from the passed ones, or nowhere. */
  lemma PlacesElsewhere(c: Chain, poolSize: nat, m: nat, r: Request, k: nat)
    requires ChainOk(c, poolSize, m) && k < c.current < |c.blocks|
    requires RequestOk(poolSize, r.size) && BlockAnswer(c, poolSize, r.base)
    ensures var a := SmallAlloc(c, poolSize, r.size, r.base).1;
            a == 0 || a < c.blocks[k].base + HEADER || c.blocks[k].base + poolSize < a
  {
    var j := FirstFit(c.blocks, c.current, r.size);
    if j < |c.blocks| {
      assert BlockOk(c.blocks[j], poolSize) && BasesApart(c.blocks[k].base, c.blocks[j].base, poolSize);
      PlacedWithin(c.blocks[j], poolSize, r.size);
    } else if r.base != 0 {
      NewBlockOk(c, poolSize, r.size, r.base);
      assert BasesApart(c.blocks[k].base, r.base, poolSize);
    }
    hide Fits, FirstFit, AlignUp, HeadAfter, AddFailure, ChainOk, BlockAnswer, RequestOk;
  }

  /** A passed block that fits gets the request in the second run, and so another address. */
  lemma StepApart(c: Chain, d: Chain, poolSize: nat, m: nat, r: Request, base: nat)
    requires ChainOk(c, poolSize, m) && Ahead(c, d) && !PassedRefuse(c, r.size)
    requires RequestOk(poolSize, r.size) && BlockAnswer(c, poolSize, r.base)
    ensures SmallAlloc(c, poolSize, r.size, r.base).1 != SmallAlloc(d, poolSize, r.size, base).1
  {
    hide SmallAlloc, ChainOk, PassedRefuse, RequestOk, BlockAnswer;
    var k := PlacesInPassed(c, d, poolSize, m, r.size, base);
    PlacesElsewhere(c, poolSize, m, r, k);
  }

  lemma EmptyBlockFits(b: SmallBlock, poolSize: nat, size: nat)
    requires b.base % ALIGNMENT == 0 && b.end == b.base + poolSize < ADDRESSES && b.start == b.base + HEADER
    requires RequestOk(poolSize, size)
    ensures Fits(b, size)
  {
  }

  /** A request that the first run is refused.  The second run is refused too exactly if it owns no further block and
      malloc refuses it one. */
  lemma StepRefused(c: Chain, d: Chain, poolSize: nat, m: nat, r: Request, base: nat)
    requires ChainOk(c, poolSize, m) && Ahead(c, d) && PassedRefuse(c, r.size) && Refused(c, r) && RequestOk(poolSize, r.size)
    requires forall i | 0 <= i < |d.blocks| :: d.blocks[i].base % ALIGNMENT == 0 && d.blocks[i].end == d.blocks[i].base + poolSize < ADDRESSES
    ensures SmallAlloc(c, poolSize, r.size, r.base) == (c, 0)
    ensures var (d', b) := SmallAlloc(d, poolSize, r.size, base);
            && (b == 0 <==> |c.blocks| == |d.blocks| && base == 0)
            && (b == 0 ==> d' == d)
  {
    FitsAlike(c, d, r.size);
    var n, k := |c.blocks|, FirstFit(d.blocks, 0, r.size);
    assert forall i | 0 <= i < n :: !Fits(c.blocks[i], r.size);
    if n < |d.blocks| {
      EmptyBlockFits(d.blocks[n], poolSize, r.size);
    }
    hide Fits, ChainOk, RequestOk, HeadAfter, AddFailure, NewBlock, PassedRefuse;
    assert k >= n;
    assert k == |d.blocks| <==> n == |d.blocks|;
    if k < |d.blocks| {
      assert d.blocks[k].start == d.blocks[k].base + HEADER;
    }
  }

  lemma {:induction false} RunAhead(c: Chain, d: Chain, poolSize: nat, m: nat, reqs: seq<Request>, again: seq<Request>)
    requires ChainOk(c, poolSize, m) && Ahead(c, d) && Legal(c, poolSize, reqs)
    requires |again| == |reqs| && forall i | 0 <= i < |reqs| :: again[i].size == reqs[i].size
    requires Extends(d, Exec(c, poolSize, reqs).0) && |d.blocks| == |Exec(c, poolSize, reqs).0.blocks|
    ensures Exec(d, poolSize, again).1 == Exec(c, poolSize, reqs).1 <==> Replayable(c, poolSize, reqs, again, |d.blocks|)
    ensures Replayable(c, poolSize, reqs, again, |d.blocks|) ==> |Exec(d, poolSize, again).0.blocks| == |d.blocks|
    decreases |reqs|
  {
    if reqs != [] {
      var r, s := reqs[0], again[0];
      var (c', a) := SmallAlloc(c, poolSize, r.size, r.base);
      var (d', b) := SmallAlloc(d, poolSize, s.size, s.base);
      SmallAllocOk(c, poolSize, m, r.size, r.base);
      if !PassedRefuse(c, r.size) {
        StepApart(c, d, poolSize, m, r, s.base);
        hide SmallAlloc, ChainOk, PassedRefuse, Refused;
        assert Exec(c, poolSize, reqs).1[0] == a && Exec(d, poolSize, again).1[0] == b;
      } else if Refused(c, r) {
        LaidOut(c, d, poolSize, m, reqs);
        StepRefused(c, d, poolSize, m, r, s.base);
        hide SmallAlloc, ChainOk, PassedRefuse, Refused, RequestOk, BlockAnswer, Extends;
        if b == 0 {
          RunAhead(c', d', poolSize, m, reqs[1..], again[1..]);
          AddressesAlike(a, Exec(c', poolSize, reqs[1..]).1, Exec(d', poolSize, again[1..]).1);
        } else {
          assert Exec(c, poolSize, reqs).1[0] == a && Exec(d, poolSize, again).1[0] == b;
        }
      } else {
        StepOwned(c, c', d, poolSize, reqs);
        StepAhead(c, d, poolSize, m, r, s.base);
        StillExtends(d, d', Exec(c, poolSize, reqs).0);
        hide SmallAlloc, ChainOk, PassedRefuse, Refused, RequestOk, BlockAnswer, Extends;
        RunAhead(c', d', poolSize, m, reqs[1..], again[1..]);
        AddressesAlike(a, Exec(c', poolSize, reqs[1..]).1, Exec(d', poolSize, again[1..]).1);
      }
    }
  }

  /** The blocks of the second run lie as those of the first run's end do. */
  lemma LaidOut(c: Chain, d: Chain, poolSize: nat, m: nat, reqs: seq<Request>)
    requires ChainOk(c, poolSize, m) && c.current < |c.blocks| && Legal(c, poolSize, reqs) && Extends(d, Exec(c, poolSize, reqs).0)
    ensures forall i | 0 <= i < |d.blocks| :: d.blocks[i].base % ALIGNMENT == 0 && d.blocks[i].end == d.blocks[i].base + poolSize < ADDRESSES
  {
    ExecOk(c, poolSize, m, reqs);
    var last := Exec(c, poolSize, reqs).0;
    hide Exec, Legal, Profile;
    forall i | 0 <= i < |d.blocks|
      ensures d.blocks[i].base % ALIGNMENT == 0 && d.blocks[i].end == d.blocks[i].base + poolSize < ADDRESSES
    {
      assert SameBase(d.blocks[i], last.blocks[i]) && BlockOk(last.blocks[i], poolSize);
    }
  }

  /** What the first run owns after a request the second run owns from the start. */
  lemma StepOwned(c: Chain, c': Chain, d: Chain, poolSize: nat, reqs: seq<Request>)
    requires c.current < |c.blocks| && reqs != [] && c' == SmallAlloc(c, poolSize, reqs[0].size, reqs[0].base).0
    requires Extends(d, Exec(c, poolSize, reqs).0) && |d.blocks| == |Exec(c, poolSize, reqs).0.blocks|
    ensures |c'.blocks| <= |d.blocks| && forall i | 0 <= i < |c'.blocks| :: SameBase(c'.blocks[i], d.blocks[i])
  {
    hide SmallAlloc;
    ExecExtends(c', poolSize, reqs[1..]);
    var last := Exec(c, poolSize, reqs).0;
    assert last == Exec(c', poolSize, reqs[1..]).0;
    forall i | 0 <= i < |c'.blocks|
      ensures SameBase(c'.blocks[i], d.blocks[i])
    {
      assert SameBase(c'.blocks[i], last.blocks[i]) && SameBase(d.blocks[i], last.blocks[i]);
    }
  }

  lemma StillExtends(d: Chain, d': Chain, last: Chain)
    requires Extends(d, last) && |d'.blocks| == |d.blocks| && forall i | 0 <= i < |d.blocks| :: SameBase(d.blocks[i], d'.blocks[i])
    ensures Extends(d', last)
  {
    forall i | 0 <= i < |d'.blocks|
      ensures SameBase(d'.blocks[i], last.blocks[i])
    {
      assert SameBase(d.blocks[i], last.blocks[i]) && SameBase(d.blocks[i], d'.blocks[i]);
    }
  }

  lemma AddressesAlike(a: nat, x: seq<nat>, y: seq<nat>)
    ensures [a] + x == [a] + y <==> x == y
  {
    if [a] + x == [a] + y {
      assert x == ([a] + x)[1..] && y == ([a] + y)[1..];
    }
  }

  /** Take any pool that is new or was just Reset, run any requests, some of which malloc may refuse, Reset, and run
      requests of the same sizes: the same addresses come back if and only if the first run was Replayable; and then no
      block is added. */
  lemma ResetReplaysIff(c: Chain, poolSize: nat, reqs: seq<Request>, again: seq<Request>)
    requires ChainOk(c, poolSize, |c.blocks|) && Empty(c) && 0 < |c.blocks| && Legal(c, poolSize, reqs)
    requires |again| == |reqs| && forall i | 0 <= i < |reqs| :: again[i].size == reqs[i].size
    ensures var last := Exec(c, poolSize, reqs).0;
            var replayable := Replayable(c, poolSize, reqs, again, |last.blocks|);
            && 0 < |last.blocks|
            && (Exec(ResetChain(last), poolSize, again).1 == Exec(c, poolSize, reqs).1 <==> replayable)
            && (replayable ==> |Exec(ResetChain(last), poolSize, again).0.blocks| == |last.blocks|)
  {
    var last := Exec(c, poolSize, reqs).0;
    ExecExtends(c, poolSize, reqs);
    var d := ResetChain(last);
    forall i | 0 <= i < |c.blocks|
      ensures SameBase(c.blocks[i], d.blocks[i]) && d.blocks[i].start == c.blocks[i].start
    {
      assert SameBase(c.blocks[i], last.blocks[i]);
      assert c.blocks[i] == Cleared(c.blocks[i]);
    }
    RunAhead(c, d, poolSize, |c.blocks|, reqs, again);
  }

  /** Without refusals: if and only if no request of the first run fits a block its search head had passed, whatever
      malloc would say to the second run. */
  lemma ServedReplaysIff(c: Chain, poolSize: nat, reqs: seq<Request>, again: seq<Request>)
    requires ChainOk(c, poolSize, |c.blocks|) && Empty(c) && 0 < |c.blocks| && Served(c, poolSize, reqs)
    requires |again| == |reqs| && forall i | 0 <= i < |reqs| :: again[i].size == reqs[i].size
    ensures var last := Exec(c, poolSize, reqs).0;
            && 0 < |last.blocks|
            && (Exec(ResetChain(last), poolSize, again).1 == Exec(c, poolSize, reqs).1 <==> NonePassed(c, poolSize, reqs))
            && (NonePassed(c, poolSize, reqs) ==> |Exec(ResetChain(last), poolSize, again).0.blocks| == |last.blocks|)
  {
    ServedIsLegal(c, poolSize, reqs);
    ServedReplayable(c, poolSize, reqs, again, |Exec(c, poolSize, reqs).0.blocks|);
    ResetReplaysIff(c, poolSize, reqs, again);
  }

  /** While at most five blocks are added the search head stays at the root and passes none. */
  lemma {:induction false} FiveNeverPass(c: Chain, poolSize: nat, m: nat, reqs: seq<Request>)
    requires ChainOk(c, poolSize, m) && c.current < |c.blocks| && Served(c, poolSize, reqs)
    requires |Exec(c, poolSize, reqs).0.blocks| <= m + 5
    ensures NonePassed(c, poolSize, reqs)
    decreases |reqs|
  {
    ExecExtends(c, poolSize, reqs);
    assert c.current == 0;
    if reqs != [] {
      var r := reqs[0];
      SmallAllocOk(c, poolSize, m, r.size, r.base);
      hide SmallAlloc, ChainOk, Fits;
      FiveNeverPass(SmallAlloc(c, poolSize, r.size, r.base).0, poolSize, m, reqs[1..]);
    }
  }

  /** So runs that add at most five blocks, and are refused none, are always replayed. */
  lemma ResetReplays(c: Chain, poolSize: nat, reqs: seq<Request>, again: seq<Request>)
    requires ChainOk(c, poolSize, |c.blocks|) && Empty(c) && 0 < |c.blocks| && Served(c, poolSize, reqs)
    requires |again| == |reqs| && forall i | 0 <= i < |reqs| :: again[i].size == reqs[i].size
    requires |Exec(c, poolSize, reqs).0.blocks| <= |c.blocks| + 5
    ensures var last := Exec(c, poolSize, reqs).0;
            0 < |last.blocks| && Exec(ResetChain(last), poolSize, again).1 == Exec(c, poolSize, reqs).1
            && |Exec(ResetChain(last), poolSize, again).0.blocks| == |last.blocks|
  {
    FiveNeverPass(c, poolSize, |c.blocks|, reqs);
    ServedReplaysIff(c, poolSize, reqs, again);
  }

  // ---------------------------------------------------------------- five is the most

  /** A block of 80 bytes at `base` with `used` of its 48 bytes taken. */
  function Block80(base: nat, used: nat, failed: nat): SmallBlock {
    SmallBlock(base, base + HEADER + used, base + 80, failed)
  }

  /** The root and `k` more blocks, in the run below. */
  function Full80(k: nat): (r: seq<SmallBlock>)
    requires k <= 5
    ensures |r| == k + 1
  {
    [Block80(80, 32, k)] + seq(k, i requires 0 <= i < k => Block80(160 + 80 * i, 48, k - 1 - i))
  }

  lemma Fits80(base: nat, used: nat, failed: nat, size: nat)
    requires base % ALIGNMENT == 0 && used % ALIGNMENT == 0 && used <= 48 && base + 80 < ADDRESSES && size < ADDRESSES
    ensures Fits(Block80(base, used, failed), size) <==> used + size <= 48
    ensures AlignUp(base + HEADER + used) == base + HEADER + used
    ensures used + size <= 48 ==> Place(Block80(base, used, failed), size) == Block80(base, used + size, failed)
  {
  }

  /** A request that block `j`, which has `used` bytes taken, is the first to take. */
  lemma Places80(c: Chain, size: nat, base: nat, j: nat, at: nat, used: nat)
    requires c.current <= j < |c.blocks| && c.blocks[j] == Block80(at, used, 0) && used + size <= 48
    requires at % ALIGNMENT == 0 && used % ALIGNMENT == 0 && at + 80 < ADDRESSES
    requires forall k | c.current <= k < j :: !Fits(c.blocks[k], size)
    ensures SmallAlloc(c, 80, size, base) == (Chain(c.blocks[j := Block80(at, used + size, 0)], c.current), at + HEADER + used)
  {
    Fits80(at, used, 0, size);
    hide Fits, AlignUp, Place;
    FirstFitIs(c.blocks, c.current, size, j);
  }

  /** A request no block takes while the head is at the root. */
  lemma Adds80(c: Chain, size: nat, base: nat)
    requires c.current == 0 < |c.blocks| && Profile(c.blocks, 0, 1) && base != 0 && base % ALIGNMENT == 0 && size <= 48
    requires base + 80 < ADDRESSES && forall k | 0 <= k < |c.blocks| :: !Fits(c.blocks[k], size)
    ensures SmallAlloc(c, 80, size, base)
            == (Chain(AddFailure(c.blocks, 0) + [Block80(base, size, 0)], Head(|c.blocks| + 1, 1)), base + HEADER)
  {
    Fits80(base, 0, 0, size);
    assert NewBlock(base, 80, size) == Block80(base, size, 0);
    hide Fits, AlignUp;
    FirstFitIs(c.blocks, 0, size, |c.blocks|);
    HeadAfterIs(c.blocks, 0, 1, 0, 0);
    hide HeadAfter, NewBlock, Profile, Head, AddFailure;
  }

  lemma Full80Tight(k: nat, size: nat)
    requires k <= 5 && 16 < size <= 48
    ensures Profile(Full80(k), 0, 1) && forall i | 0 <= i < |Full80(k)| :: !Fits(Full80(k)[i], size)
  {
    forall i | 0 <= i < |Full80(k)|
      ensures !Fits(Full80(k)[i], size)
    {
      if i == 0 { Fits80(80, 32, k, size); } else { Fits80(80 + 80 * i, 48, k - i, size); }
    }
  }

  lemma Full80Step(k: nat)
    requires k < 5
    ensures SmallAlloc(Chain(Full80(k), 0), 80, 48, 160 + 80 * k) == (Chain(Full80(k + 1), 0), 192 + 80 * k)
  {
    Full80Tight(k, 48);
    hide Fits, Profile;
    Adds80(Chain(Full80(k), 0), 48, 160 + 80 * k);
    hide SmallAlloc;
    assert AddFailure(Full80(k), 0) + [Block80(160 + 80 * k, 48, 0)] == Full80(k + 1);
  }

  /** What is still to come once the run below has added `k` blocks. */
  function Tail80(k: nat): seq<Request>
    requires k <= 5
    decreases 5 - k
  {
    if k == 5 then [Request(32, 560), Request(16, 1)] else [Request(48, 160 + 80 * k)] + Tail80(k + 1)
  }

  function Last(s: seq<nat>): nat {
    if s == [] then 0 else s[|s| - 1]
  }

  predicate Seven80(blocks: seq<SmallBlock>) {
    |blocks| == 7 && forall i | 0 <= i < 7 :: blocks[i].base == 80 + 80 * i && blocks[i].end == 160 + 80 * i
  }

  /** One request, then the others. */
  lemma ExecFirst(c: Chain, r: Request, rest: seq<Request>, c': Chain, a: nat)
    requires c.current < |c.blocks| && SmallAlloc(c, 80, r.size, r.base) == (c', a)
    ensures Exec(c, 80, [r] + rest).0 == Exec(c', 80, rest).0
    ensures Exec(c, 80, [r] + rest).1 == [a] + Exec(c', 80, rest).1
  {
    assert ([r] + rest)[1..] == rest;
  }

  lemma Two80(c: Chain, c1: Chain, a1: nat, c2: Chain, a2: nat)
    requires c.current < |c.blocks| && c1.current < |c1.blocks|
    requires SmallAlloc(c, 80, 32, 560) == (c1, a1) && SmallAlloc(c1, 80, 16, 1) == (c2, a2)
    ensures Exec(c, 80, Tail80(5)).0 == c2 && Exec(c, 80, Tail80(5)).1 == [a1, a2]
  {
    hide SmallAlloc;
    assert Tail80(5) == [Request(32, 560)] + [Request(16, 1)];
    ExecFirst(c, Request(32, 560), [Request(16, 1)], c1, a1);
    assert [Request(16, 1)] == [Request(16, 1)] + [];
    ExecFirst(c1, Request(16, 1), [], c2, a2);
  }

  /** Six added blocks, the last with a request of 32 bytes. */
  function Six80(): (r: seq<SmallBlock>)
    ensures |r| == 7
  {
    [Block80(80, 32, 6)] + seq(5, i requires 0 <= i < 5 => Block80(160 + 80 * i, 48, 5 - i)) + [Block80(560, 32, 0)]
  }

  /** The sixth added block moves the head to the block after the root, so the last request never sees the root. */
  lemma AddsSixth80()
    ensures SmallAlloc(Chain(Full80(5), 0), 80, 32, 560) == (Chain(Six80(), 1), 592)
  {
    Full80Tight(5, 32);
    hide Fits, Profile;
    Adds80(Chain(Full80(5), 0), 32, 560);
    hide SmallAlloc;
    assert AddFailure(Full80(5), 0) + [Block80(560, 32, 0)] == Six80();
  }

  lemma SkipsRoot80()
    ensures SmallAlloc(Chain(Six80(), 1), 80, 16, 1) == (Chain(Six80()[6 := Block80(560, 48, 0)], 1), 624)
  {
    forall i | 1 <= i < 6
      ensures !Fits(Six80()[i], 16)
    {
      Fits80(80 + 80 * i, 48, 6 - i, 16);
    }
    hide Fits, SmallAlloc;
    Places80(Chain(Six80(), 1), 16, 1, 6, 560, 32);
  }

  lemma {:induction false} Grows80(k: nat)
    requires k <= 5
    ensures Seven80(Exec(Chain(Full80(k), 0), 80, Tail80(k)).0.blocks) && Last(Exec(Chain(Full80(k), 0), 80, Tail80(k)).1) == 624
    ensures Exec(Chain(Full80(k), 0), 80, Tail80(k)).1 != []
    decreases 5 - k
  {
    hide SmallAlloc, Exec, Full80;
    if k == 5 {
      AddsSixth80();
      SkipsRoot80();
      Two80(Chain(Full80(5), 0), Chain(Six80(), 1), 592, Chain(Six80()[6 := Block80(560, 48, 0)], 1), 624);
    } else {
      Full80Step(k);
      Grows80(k + 1);
      ExecFirst(Chain(Full80(k), 0), Request(48, 160 + 80 * k), Tail80(k + 1), Chain(Full80(k + 1), 0), 192 + 80 * k);
    }
  }

  /** The second run after `k` of the requests for 48 bytes. */
  function Again80(k: nat): (r: seq<SmallBlock>)
    ensures |r| == 7
  {
    seq(7, i requires 0 <= i < 7 => Block80(80 + 80 * i, if i == 0 then 32 else if i <= k then 48 else 0, 0))
  }

  lemma Again80Step(k: nat, base: nat)
    requires k < 5
    ensures SmallAlloc(Chain(Again80(k), 0), 80, 48, base) == (Chain(Again80(k + 1), 0), 192 + 80 * k)
  {
    var b := Again80(k);
    forall i | 0 <= i < k + 1
      ensures !Fits(b[i], 48)
    {
      Fits80(80 + 80 * i, if i == 0 then 32 else 48, 0, 48);
    }
    hide Fits, SmallAlloc;
    Places80(Chain(b, 0), 48, base, k + 1, 160 + 80 * k, 0);
    assert b[k + 1 := Block80(160 + 80 * k, 48, 0)] == Again80(k + 1);
  }

  lemma Again80Ends()
    ensures Exec(Chain(Again80(5), 0), 80, Tail80(5)).1 == [592, 144]
  {
    var b := Again80(5);
    forall i | 0 <= i < 6
      ensures !Fits(b[i], 32)
    {
      Fits80(80 + 80 * i, if i == 0 then 32 else 48, 0, 32);
    }
    hide Fits, SmallAlloc, Exec;
    Places80(Chain(b, 0), 32, 560, 6, 560, 0);
    var b1 := b[6 := Block80(560, 32, 0)];
    Places80(Chain(b1, 0), 16, 1, 0, 80, 32);
    Two80(Chain(b, 0), Chain(b1, 0), 592, Chain(b1[0 := Block80(80, 48, 0)], 0), 144);
  }

  lemma {:induction false} Replays80(k: nat)
    requires k <= 5
    ensures Last(Exec(Chain(Again80(k), 0), 80, Tail80(k)).1) == 144 && Exec(Chain(Again80(k), 0), 80, Tail80(k)).1 != []
    decreases 5 - k
  {
    hide SmallAlloc, Exec, Again80;
    if k == 5 {
      Again80Ends();
    } else {
      Again80Step(k, 160 + 80 * k);
      Replays80(k + 1);
      ExecFirst(Chain(Again80(k), 0), Request(48, 160 + 80 * k), Tail80(k + 1), Chain(Again80(k + 1), 0), 192 + 80 * k);
    }
  }

  /** Six added blocks move the search head off the root, and the replay of these requests ends elsewhere. */
  lemma SixBlocksNotReplayed(c: Chain, reqs: seq<Request>)
    requires c == Chain([Block80(80, 0, 0)], 0) && reqs == [Request(32, 1)] + Tail80(0)
    ensures var last := Exec(c, 80, reqs).0;
            Empty(c) && |last.blocks| == |c.blocks| + 6 && Exec(ResetChain(last), 80, reqs).1 != Exec(c, 80, reqs).1
  {
    hide SmallAlloc, Exec, Tail80, Fits;
    var first := Request(32, 1);
    Places80(c, 32, 1, 0, 80, 0);
    assert c.blocks[0 := Block80(80, 32, 0)] == Full80(0);
    ExecFirst(c, first, Tail80(0), Chain(Full80(0), 0), 112);
    Grows80(0);
    var d := ResetChain(Exec(c, 80, reqs).0);
    Places80(d, 32, 1, 0, 80, 0);
    assert d.blocks[0 := Block80(80, 32, 0)] == Again80(0);
    ExecFirst(d, first, Tail80(0), Chain(Again80(0), 0), 112);
    Replays80(0);
    assert Last(Exec(d, 80, reqs).1) == 144 && Last(Exec(c, 80, reqs).1) == 624;
  }
}
