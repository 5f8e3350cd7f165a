/** The pool itself: Allocate, Refill, AllocChunk, Deallocate and Reallocate over one address space. */
module SgiPool {
  import opened SgiMemory
  import opened SgiTiling
  import opened SgiLists

  const REFILL: nat := 20

  function RoundUp(bytes: nat): (r: nat)
    ensures r % ALIGN == 0 && bytes <= r < bytes + ALIGN
  {
    (bytes + ALIGN - 1) / ALIGN * ALIGN
  }

  function Min(a: nat, b: nat): nat {
    if a < b then a else b
  }

  function FreelistIndex(bytes: nat): (k: nat)
    requires bytes > 0
    ensures ALIGN * k < bytes <= ALIGN * (k + 1)
  {
    (bytes + ALIGN - 1) / ALIGN - 1
  }

  /** FreelistIndex for the sizes the pool calls it with; class 0 otherwise. */
  function ClassOf(bytes: nat): nat {
    if bytes == 0 then 0 else FreelistIndex(bytes)
  }

  /** What AllocChunk asks malloc for when the bump region cannot hold one object. */
  function BytesToGet(size: nat, heapSize: nat): nat {
    2 * (size * REFILL) + RoundUp(heapSize / 16)
  }

  /** Outcome of a request: a block (null when malloc refused a large one) or a dereferenced null. */
  datatype Outcome = Block(p: nat) | Fault

  /** Ghost view of who owns which byte. */
  datatype Layout = Layout(
    blocks: map<nat, nat>,     // every carved block and its size
    lists: seq<seq<nat>>,      // the chains, front first
    live: set<nat>,            // blocks in the hands of clients
    arenas: map<nat, nat>,     // regions malloc'd by AllocChunk
    large: map<nat, nat>,      // regions malloc'd for requests above MAX_BYTES, at requested size
    regions: map<nat, nat>)    // both kinds, at the length they occupy

  ghost predicate Clear(r: Region, regions: map<nat, nat>) {
    forall b | b in regions :: Apart(r, Region(b, regions[b]))
  }

  ghost predicate Usable(mem: Memory, p: nat, n: nat) {
    NULL_GUARD <= p && p % WORD == 0 && 0 < n && Mapped(mem, p, n)
  }

  /** Regions got from malloc are mapped, aligned and pairwise disjoint. */
  ghost predicate Platform(mem: Memory, regions: map<nat, nat>) {
    && (forall a | a in mem :: NULL_GUARD <= a && a % WORD == 0)
    && (forall b | b in regions :: Usable(mem, b, regions[b]))
    && Separate(regions)
  }

  ghost predicate Issued(arenas: map<nat, nat>, large: map<nat, nat>, regions: map<nat, nat>) {
    && arenas.Keys !! large.Keys
    && (forall b | b in arenas :: b in regions && regions[b] == arenas[b])
    && (forall b | b in large :: b in regions && regions[b] == RoundUp(large[b]))
  }

  ghost predicate NullUnmapped(mem: Memory) {
    forall a | a in mem :: NULL_GUARD <= a
  }

  /** `p` is an answer malloc(n) may give: null, or a fresh aligned region. */
  ghost predicate Answer(g: Layout, p: nat, n: nat) {
    p != 0 ==> NULL_GUARD <= p && p % WORD == 0 && Clear(Region(p, RoundUp(n)), g.regions)
  }

  function Pow(b: nat, e: nat): nat {
    if e == 0 then 1 else b * Pow(b, e - 1)
  }

  /** After k arenas the heap has grown by a factor 17/16 at least k - 1 times. */
  ghost predicate Grown(k: nat, heapSize: nat) {
    if k == 0 then heapSize == 0
    else 320 * Pow(17, k - 1) <= Pow(16, k - 1) * heapSize
  }

  lemma GrowthStep(k: nat, heapSize: nat, size: nat)
    requires Grown(k, heapSize) && ALIGN <= size
    ensures Grown(k + 1, heapSize + BytesToGet(size, heapSize))
  {
    var heap' := heapSize + BytesToGet(size, heapSize);
    assert 16 * heap' >= 17 * heapSize && heap' >= 320;
    if k > 0 {
      var p, q := Pow(17, k - 1), Pow(16, k - 1);
      assert 320 * p <= q * heapSize;
      assert q * (17 * heapSize) <= q * (16 * heap');
      assert 320 * (17 * p) <= q * (17 * heapSize);
      assert Pow(17, k) == 17 * p && Pow(16, k) == 16 * q;
      assert q * (16 * heap') == (16 * q) * heap';
    }
  }

  /** The pool as a value. */
  datatype State = State(mem: Memory, heads: seq<nat>, start: nat, end: nat, heapSize: nat, g: Layout)

  /** No cell of a block that a client holds differs between the two memories. */
  ghost predicate Untouched(g: Layout, mem: Memory, mem': Memory) {
    && (forall b | b in g.live && b in g.blocks :: KeepsCells(Region(b, g.blocks[b]), mem, mem'))
    && (forall b | b in g.large :: KeepsCells(Region(b, g.large[b]), mem, mem'))
  }

  ghost predicate KeepsCells(r: Region, mem: Memory, mem': Memory) {
    forall a | r.lo <= a < r.lo + r.len && a in mem :: a in mem' && mem'[a] == mem[a]
  }

  /** What the clients hold is the same before and after. */
  ghost predicate KeepsLive(g: Layout, g': Layout) {
    && g'.live == g.live && g'.large == g.large
    && forall b | b in g.live && b in g.blocks :: b in g'.blocks && g'.blocks[b] == g.blocks[b]
  }

  ghost predicate Inv(s: State, hand: Region) {
    && s.start <= s.end
    && Tiling(s.g.blocks, s.g.arenas, Region(s.start, s.end - s.start), hand)
    && Filed(s.g.blocks, s.g.lists, s.g.live)
    && Threaded(s.mem, s.heads, s.g.lists)
    && Platform(s.mem, s.g.regions) && Issued(s.g.arenas, s.g.large, s.g.regions)
    && s.heapSize == Sum(s.g.arenas)
    && Grown(|s.g.arenas|, s.heapSize)
  }

  /** The head of list `k`; null beyond the table. */
  function Head(heads: seq<nat>, k: nat): nat {
    if k < |heads| then heads[k] else 0
  }

  /** The first class from `k` up with something on its list, or FREE_LISTS. */
  function FirstStocked(heads: seq<nat>, k: nat): (j: nat)
    ensures j <= FREE_LISTS && (j < FREE_LISTS ==> k <= j && Head(heads, j) != 0)
    ensures forall i | k <= i < j :: Head(heads, i) == 0
    decreases FREE_LISTS - k
  {
    if k >= FREE_LISTS then FREE_LISTS
    else if Head(heads, k) != 0 then k
    else FirstStocked(heads, k + 1)
  }

  // ---------------------------------------------------------------- steps of AllocChunk

  lemma EmptyTiling(blocks: map<nat, nat>, arenas: map<nat, nat>)
    requires blocks == arenas == map[]
    ensures Tiling(blocks, arenas, NOTHING, NOTHING) && Sum(arenas) == 0
  {
  }

  lemma EmptyLists(mem: Memory, heads: seq<nat>, g: Layout)
    requires |heads| == |g.lists| == FREE_LISTS && g.blocks == map[] && g.live == {}
    requires forall k | 0 <= k < FREE_LISTS :: heads[k] == 0 && g.lists[k] == []
    ensures Filed(g.blocks, g.lists, g.live) && Threaded(mem, heads, g.lists)
  {
  }

  lemma EmptyInv(heads: seq<nat>, g: Layout)
    requires |heads| == |g.lists| == FREE_LISTS
    requires forall k | 0 <= k < FREE_LISTS :: heads[k] == 0 && g.lists[k] == []
    requires g.blocks == map[] && g.arenas == map[] && g.large == map[] && g.regions == map[] && g.live == {}
    ensures Inv(State(map[], heads, 0, 0, 0, g), NOTHING)
  {
    hide Sum, Tiling, Filed, Threaded;
    EmptyTiling(g.blocks, g.arenas);
    EmptyLists(map[], heads, g);
  }

  lemma Nothing(g: Layout, mem: Memory)
    ensures Untouched(g, mem, mem) && Invisible(g, mem, g, mem)
  {
  }

  lemma TakeInv(s: State, n: nat)
    requires Inv(s, NOTHING) && n % ALIGN == 0 && n <= s.end - s.start
    ensures Inv(s.(start := s.start + n), Region(s.start, n))
    ensures n > 0 ==> NULL_GUARD <= s.start
  {
    hide Threaded, Filed, Platform, Issued, Tiling, Grown, Sum;
    if n > 0 {
      HoleCell(s.g.blocks, s.g.arenas, Region(s.start, s.end - s.start), NOTHING, Region(s.start, s.end - s.start), s.start);
      BumpAligned(s.g.blocks, s.g.arenas, Region(s.start, s.end - s.start), NOTHING);
      ArenaCell(s.mem, s.g.arenas, s.g.large, s.g.regions, Region(s.start, s.end - s.start), s.start);
      MappedAboveNull(s.mem, s.g.regions);
    }
    Carve(s.g.blocks, s.g.arenas, Region(s.start, s.end - s.start), n);
  }

  lemma MappedAboveNull(mem: Memory, regions: map<nat, nat>)
    requires Platform(mem, regions)
    ensures NullUnmapped(mem)
  {
  }

  /** An address inside an arena is mapped and belongs to no large region. */
  lemma ArenaCell(mem: Memory, arenas: map<nat, nat>, large: map<nat, nat>, regions: map<nat, nat>, r: Region, a: nat)
    requires Platform(mem, regions) && Issued(arenas, large, regions) && InArena(arenas, r)
    requires r.lo <= a < r.lo + r.len && a % WORD == 0
    ensures a in mem
    ensures forall c | c in large :: !(c <= a < c + large[c])
  {
    var b :| b in arenas && Within(r, Region(b, arenas[b]));
    assert Usable(mem, b, regions[b]) && a in Cells(b, regions[b]);
    forall c | c in large
      ensures !(c <= a < c + large[c])
    {
      assert Apart(Region(b, regions[b]), Region(c, regions[c]));
    }
  }

  /** An address inside a hole belongs to no block. */
  lemma HoleCell(blocks: map<nat, nat>, arenas: map<nat, nat>, bump: Region, hand: Region, r: Region, a: nat)
    requires Tiling(blocks, arenas, bump, hand)
    requires r == bump || r == hand
    requires r.lo <= a < r.lo + r.len
    ensures InArena(arenas, r) && a !in blocks
    ensures forall b | b in blocks :: !(b <= a < b + blocks[b])
  {
    forall b | b in blocks
      ensures !(b <= a < b + blocks[b]) && b != a
    {
      assert Apart(r, Region(b, blocks[b]));
    }
  }

  lemma SameKeysPlatform(mem: Memory, mem': Memory, regions: map<nat, nat>)
    requires Platform(mem, regions) && mem'.Keys == mem.Keys
    ensures Platform(mem', regions)
  {
    forall p: nat, n | Usable(mem, p, n)
      ensures Usable(mem', p, n)
    {
    }
  }

  ghost predicate NotFiled(lists: seq<seq<nat>>, a: nat) {
    forall k | 0 <= k < |lists| :: a !in lists[k]
  }

  lemma NoBlockNotFiled(blocks: map<nat, nat>, lists: seq<seq<nat>>, live: set<nat>, a: nat)
    requires Filed(blocks, lists, live) && a !in blocks
    ensures NotFiled(lists, a)
  {
  }

  lemma FiledAreBlocks(blocks: map<nat, nat>, lists: seq<seq<nat>>, live: set<nat>)
    requires Filed(blocks, lists, live)
    ensures |lists| == FREE_LISTS && forall k, a | 0 <= k < FREE_LISTS && a in lists[k] :: a in blocks
  {
  }

  lemma BumpAligned(blocks: map<nat, nat>, arenas: map<nat, nat>, bump: Region, hand: Region)
    requires Tiling(blocks, arenas, bump, hand) && bump.len > 0
    ensures bump.lo % ALIGN == 0 && bump.len % ALIGN == 0
  {
  }

  lemma StockedList(mem: Memory, heads: seq<nat>, lists: seq<seq<nat>>, k: nat)
    requires Threaded(mem, heads, lists) && k < FREE_LISTS
    ensures heads[k] != 0 ==> lists[k] != []
  {
  }

  lemma ThreadWrite(mem: Memory, heads: seq<nat>, lists: seq<seq<nat>>, a: nat, c: Cell)
    requires Threaded(mem, heads, lists) && NotFiled(lists, a)
    ensures Threaded(mem[a := c], heads, lists)
  {
    ThreadFrame(mem, mem[a := c], heads, lists);
  }

  /** A single write into a hole: lists, platform and client data stay as they are. */
  lemma HoleWrite(s: State, hand: Region, r: Region, a: nat, c: Cell)
    requires Inv(s, hand)
    requires r == Region(s.start, s.end - s.start) || r == hand
    requires r.lo <= a < r.lo + r.len && a % ALIGN == 0
    ensures a in s.mem && a !in s.g.blocks && NotFiled(s.g.lists, a)
    ensures Inv(s.(mem := s.mem[a := c]), hand)
    ensures Untouched(s.g, s.mem, s.mem[a := c])
  {
    hide Tiling, Platform, Issued, Filed, Threaded, Grown;
    HoleCell(s.g.blocks, s.g.arenas, Region(s.start, s.end - s.start), hand, r, a);
    ArenaCell(s.mem, s.g.arenas, s.g.large, s.g.regions, r, a);
    SameKeysPlatform(s.mem, s.mem[a := c], s.g.regions);
    NoBlockNotFiled(s.g.blocks, s.g.lists, s.g.live, a);
    ThreadWrite(s.mem, s.heads, s.g.lists, a, c);
  }

  lemma LeftoverInv(s: State, k: nat)
    requires Inv(s, NOTHING)
    requires k < FREE_LISTS && s.end - s.start == ALIGN * (k + 1)
    ensures s.start in s.mem && s.start !in s.g.blocks && Untouched(s.g, s.mem, s.mem[s.start := Link(s.heads[k])])
    ensures KeepsLive(s.g, s.g.(blocks := s.g.blocks[s.start := s.end - s.start], lists := s.g.lists[k := [s.start] + s.g.lists[k]]))
    ensures Inv(State(s.mem[s.start := Link(s.heads[k])], s.heads[k := s.start], 0, 0, s.heapSize,
                      s.g.(blocks := s.g.blocks[s.start := s.end - s.start], lists := s.g.lists[k := [s.start] + s.g.lists[k]])),
                NOTHING)
  {
    hide Tiling, Platform, Issued, Filed, Grown;
    var bump := Region(s.start, s.end - s.start);
    BumpAligned(s.g.blocks, s.g.arenas, bump, NOTHING);
    HoleWrite(s, NOTHING, bump, s.start, Link(s.heads[k]));
    FileLeftover(s.g.blocks, s.g.arenas, bump);
    FileNew(s.g.blocks, s.g.lists, s.g.live, k, s.start);
    hide Threaded;
    ThreadPush(s.mem, s.heads, s.g.lists, k, s.start);
  }

  /** The leftover is smaller than the object asked for, so it is filed on a smaller class. */
  lemma LeftoverClass(s: State, size: nat)
    requires Inv(s, NOTHING)
    requires 0 < s.end - s.start < size <= MAX_BYTES
    ensures |s.heads| == FREE_LISTS && |s.g.lists| == FREE_LISTS
    ensures s.end - s.start == ALIGN * (FreelistIndex(s.end - s.start) + 1) && FreelistIndex(s.end - s.start) < FreelistIndex(size)
  {
    hide Filed, Platform, Issued, Tiling, Grown;
    BumpAligned(s.g.blocks, s.g.arenas, Region(s.start, s.end - s.start), NOTHING);
  }

  lemma DrainedInv(mem: Memory, heads: seq<nat>, start: nat, heapSize: nat, g: Layout)
    requires Inv(State(mem, heads, start, start, heapSize, g), NOTHING)
    ensures Inv(State(mem, heads, 0, 0, heapSize, g), NOTHING)
  {
    Rebase(g.blocks, g.arenas, Region(start, 0), NOTHING);
  }

  lemma StealInv(mem: Memory, heads: seq<nat>, heapSize: nat, g: Layout, k: nat)
    requires Inv(State(mem, heads, 0, 0, heapSize, g), NOTHING)
    requires k < FREE_LISTS && |heads| == FREE_LISTS && heads[k] != 0
    ensures heads[k] in mem && mem[heads[k]].Link? && |g.lists| == FREE_LISTS && g.lists[k] != []
    ensures KeepsLive(g, g.(blocks := g.blocks - {heads[k]}, lists := g.lists[k := g.lists[k][1..]]))
    ensures Inv(State(mem, heads[k := mem[heads[k]].next], heads[k], heads[k] + ALIGN * (k + 1), heapSize,
                      g.(blocks := g.blocks - {heads[k]}, lists := g.lists[k := g.lists[k][1..]])),
                NOTHING)
  {
    hide Tiling, Platform, Issued, Filed, Grown, Threaded;
    FiledAreBlocks(g.blocks, g.lists, g.live);
    StockedList(mem, heads, g.lists, k);
    ThreadPop(mem, heads, g.lists, k);
    FileSteal(g.blocks, g.lists, g.live, k);
    Steal(g.blocks, g.arenas, heads[k]);
  }

  /** Mapping a fresh region changes no cell of an earlier region. */
  lemma FreshCell(mem: Memory, regions: map<nat, nat>, p: nat, n: nat, fill: nat -> Word, b: nat, a: nat)
    requires Platform(mem, regions) && Clear(Region(p, n), regions)
    requires b in regions && b <= a < b + regions[b] && a in mem
    ensures a in MapRegion(mem, p, n, fill) && MapRegion(mem, p, n, fill)[a] == mem[a]
  {
    assert Apart(Region(p, n), Region(b, regions[b]));
  }

  lemma FreshRegion(mem: Memory, regions: map<nat, nat>, p: nat, n: nat, fill: nat -> Word)
    requires Platform(mem, regions) && p % WORD == 0 && NULL_GUARD <= p && n > 0
    requires Clear(Region(p, n), regions)
    ensures p !in regions && Platform(MapRegion(mem, p, n, fill), regions[p := n])
  {
    var mem' := MapRegion(mem, p, n, fill);
    forall b: nat, m | Usable(mem, b, m)
      ensures Usable(mem', b, m)
    {
    }
    forall b | b in regions
      ensures b != p && Apart(Region(p, n), Region(b, regions[b]))
    {
      assert Usable(mem, b, regions[b]);
    }
    assert Usable(mem', p, n);
  }

  /** So no block, and no large region, loses a cell. */
  lemma FreshForBlock(mem: Memory, g: Layout, bump: Region, p: nat, n: nat, fill: nat -> Word, b: nat)
    requires Platform(mem, g.regions) && Clear(Region(p, n), g.regions)
    requires Issued(g.arenas, g.large, g.regions) && Tiling(g.blocks, g.arenas, bump, NOTHING) && b in g.blocks
    ensures KeepsCells(Region(b, g.blocks[b]), mem, MapRegion(mem, p, n, fill)) && g.blocks[b] > 0
  {
    assert InArena(g.arenas, Region(b, g.blocks[b])) && g.blocks[b] > 0;
    hide Tiling;
    var c :| c in g.arenas && Within(Region(b, g.blocks[b]), Region(c, g.arenas[c]));
    forall a | b <= a < b + g.blocks[b] && a in mem
      ensures a in MapRegion(mem, p, n, fill) && MapRegion(mem, p, n, fill)[a] == mem[a]
    {
      FreshCell(mem, g.regions, p, n, fill, c, a);
    }
  }

  lemma FreshForBlocks(mem: Memory, g: Layout, bump: Region, p: nat, n: nat, fill: nat -> Word)
    requires Platform(mem, g.regions) && Clear(Region(p, n), g.regions)
    requires Issued(g.arenas, g.large, g.regions) && Tiling(g.blocks, g.arenas, bump, NOTHING)
    ensures Untouched(g, mem, MapRegion(mem, p, n, fill))
    ensures SameOn(g.blocks.Keys, mem, MapRegion(mem, p, n, fill))
  {
    hide Tiling, MapRegion, Platform, Clear;
    forall b | b in g.blocks
      ensures KeepsCells(Region(b, g.blocks[b]), mem, MapRegion(mem, p, n, fill)) && g.blocks[b] > 0
    {
      FreshForBlock(mem, g, bump, p, n, fill, b);
    }
    forall b, a | b in g.large && b <= a < b + g.large[b] && a in mem
      ensures a in MapRegion(mem, p, n, fill) && MapRegion(mem, p, n, fill)[a] == mem[a]
    {
      FreshCell(mem, g.regions, p, n, fill, b, a);
    }
  }

  ghost predicate SameOn(s: set<nat>, mem: Memory, mem': Memory) {
    forall a | a in s && a in mem :: a in mem' && mem'[a] == mem[a]
  }

  lemma ThreadSameOn(mem: Memory, mem': Memory, heads: seq<nat>, blocks: map<nat, nat>, lists: seq<seq<nat>>, live: set<nat>)
    requires Threaded(mem, heads, lists) && Filed(blocks, lists, live) && SameOn(blocks.Keys, mem, mem')
    ensures Threaded(mem', heads, lists)
  {
    FiledAreBlocks(blocks, lists, live);
    hide Filed, Threaded;
    ThreadFrame(mem, mem', heads, lists);
  }

  lemma IssuedGrows(arenas: map<nat, nat>, large: map<nat, nat>, regions: map<nat, nat>, p: nat, n: nat)
    requires Issued(arenas, large, regions) && p !in regions && Clear(Region(p, n), regions)
    ensures p !in arenas && Issued(arenas[p := n], large, regions[p := n])
    ensures forall b | b in arenas :: Apart(Region(p, n), Region(b, arenas[b]))
  {
  }

  lemma GrowInv(mem: Memory, heads: seq<nat>, heapSize: nat, g: Layout, p: nat, n: nat, fill: nat -> Word)
    requires Inv(State(mem, heads, 0, 0, heapSize, g), NOTHING)
    requires n > 0 && n % ALIGN == 0 && Grown(|g.arenas| + 1, heapSize + n)
    requires NULL_GUARD <= p && p % WORD == 0 && Clear(Region(p, n), g.regions)
    ensures p !in g.arenas && Untouched(g, mem, MapRegion(mem, p, n, fill))
    ensures Inv(State(MapRegion(mem, p, n, fill), heads, p, p + n, heapSize + n,
                      g.(arenas := g.arenas[p := n], regions := g.regions[p := n])),
                NOTHING)
  {
    hide MapRegion, Tiling, Platform, Issued, Filed, Grown, Threaded, Untouched, SameOn, Clear, Sum, Apart;
    FreshRegion(mem, g.regions, p, n, fill);
    FreshForBlocks(mem, g, NOTHING, p, n, fill);
    IssuedGrows(g.arenas, g.large, g.regions, p, n);
    Grow(g.blocks, g.arenas, p, n);
    SumWith(g.arenas, p, n);
    assert |g.arenas[p := n]| == |g.arenas| + 1;
    ThreadSameOn(mem, MapRegion(mem, p, n, fill), heads, g.blocks, g.lists, g.live);
  }

  /** An arena is a multiple of 8, holds a full batch, and is forty objects and a sixteenth of the heap, rounded up. */
  lemma ArenaBounds(heapSize: nat, size: nat)
    requires ALIGN <= size <= MAX_BYTES && size % ALIGN == 0
    ensures var n := BytesToGet(size, heapSize);
            n % ALIGN == 0 && RoundUp(n) == n && size * REFILL <= n
            && 2 * REFILL * size + heapSize / 16 <= n < 2 * REFILL * size + heapSize / 16 + ALIGN
  {
  }

  lemma BytesToGetFacts(mem: Memory, heads: seq<nat>, heapSize: nat, g: Layout, size: nat)
    requires Inv(State(mem, heads, 0, 0, heapSize, g), NOTHING) && ALIGN <= size <= MAX_BYTES && size % ALIGN == 0
    ensures var n := BytesToGet(size, heapSize);
            n % ALIGN == 0 && RoundUp(n) == n && size * REFILL <= n && Grown(|g.arenas| + 1, heapSize + n)
  {
    ArenaBounds(heapSize, size);
    hide BytesToGet, RoundUp, Tiling, Filed, Threaded, Platform, Issued, Sum, Grown;
    GrowthStep(|g.arenas|, heapSize, size);
  }

  lemma InvParts(s: State, hand: Region)
    requires Inv(s, hand)
    ensures s.start <= s.end && Tiling(s.g.blocks, s.g.arenas, Region(s.start, s.end - s.start), hand)
    ensures Filed(s.g.blocks, s.g.lists, s.g.live) && Threaded(s.mem, s.heads, s.g.lists)
    ensures Platform(s.mem, s.g.regions) && Issued(s.g.arenas, s.g.large, s.g.regions)
  {
    hide Tiling, Platform, Issued, Filed, Grown, Threaded, Sum;
  }

  lemma InvBasics(s: State, hand: Region)
    requires Inv(s, hand)
    ensures s.start <= s.end && |s.heads| == |s.g.lists| == FREE_LISTS && NullUnmapped(s.mem)
  {
  }

  /** How many objects one call cuts from `len` bytes. */
  function Batch(len: nat, size: nat): nat
    requires size > 0
  {
    if len / size < REFILL then len / size else REFILL
  }

  lemma Quotient(len: nat, size: nat)
    requires size > 0
    ensures size * (len / size) <= len < size * (len / size) + size
  {
  }

  lemma SpanGrows(size: nat, a: nat, b: nat)
    requires a <= b
    ensures Span(size, a) <= Span(size, b)
    decreases b
  {
    if a < b {
      SpanGrows(size, a, b - 1);
    }
  }

  lemma SpanAligned(size: nat, n: nat)
    requires size % ALIGN == 0
    ensures Span(size, n) % ALIGN == 0
  {
  }

  /** As many objects as fit: at least one, and a multiple of the alignment altogether. */
  lemma PartialBatch(left: nat, size: nat, q: nat)
    requires ALIGN <= size && size % ALIGN == 0 && size <= left < size * REFILL && q == left / size
    ensures 1 <= q < REFILL && Batch(left, size) == q
    ensures Span(size, q) == size * q && size <= Span(size, q) <= left && Span(size, q) % ALIGN == 0
  {
    Quotient(left, size);
    SpanIsProduct(size, q);
    SpanIsProduct(size, REFILL);
    SpanAligned(size, q);
    hide Batch;
    assert q > 0 by {
      assert q == 0 ==> Span(size, q) == 0;
    }
    assert q < REFILL by {
      if q >= REFILL {
        SpanGrows(size, REFILL, q);
      }
    }
    SpanGrows(size, 1, q);
  }

  lemma FullBatch(len: nat, size: nat)
    requires 0 < size && size * REFILL <= len
    ensures Batch(len, size) == REFILL && Span(size, REFILL) == size * REFILL
  {
    var q := len / size;
    Quotient(len, size);
    SpanIsProduct(size, REFILL);
    SpanIsProduct(size, q);
    if q < REFILL {
      SpanGrows(size, q, REFILL - 1);
    }
  }

  /** A call in progress has changed nothing a client can see. */
  ghost predicate Invisible(g: Layout, mem: Memory, g': Layout, mem': Memory) {
    KeepsLive(g, g') && Untouched(g, mem, mem')
  }

  lemma InvisibleTwice(g0: Layout, m0: Memory, g1: Layout, m1: Memory, g2: Layout, m2: Memory)
    requires Invisible(g0, m0, g1, m1) && Invisible(g1, m1, g2, m2)
    ensures Invisible(g0, m0, g2, m2)
  {
    hide Untouched;
    UntouchedTwice(g0, g1, m0, m1, m2);
    KeptTwice(g0, g1, g2);
  }

  lemma UntouchedTwice(g: Layout, g': Layout, m0: Memory, m1: Memory, m2: Memory)
    requires Untouched(g, m0, m1) && KeepsLive(g, g') && Untouched(g', m1, m2)
    ensures Untouched(g, m0, m2)
  {
    assert forall b | b in g.live && b in g.blocks :: b in g'.live && b in g'.blocks && g'.blocks[b] == g.blocks[b];
    assert g.large == g'.large;
  }

  /** What malloc may answer depends on the regions it has given out, not on how the pool cut them. */
  lemma AnswerSame(g: Layout, g': Layout, n: nat)
    requires g'.regions == g.regions
    ensures forall p: nat | Answer(g, p, n) :: Answer(g', p, n)
  {
  }

  lemma AnswerFacts(g: Layout, p: nat, n: nat)
    requires Answer(g, p, n) && p != 0
    ensures NULL_GUARD <= p && p % WORD == 0 && Clear(Region(p, RoundUp(n)), g.regions)
  {
  }

  lemma NullAnswer(g: Layout, n: nat)
    ensures Answer(g, 0, n)
  {
  }

  lemma KeptTwice(g0: Layout, g1: Layout, g2: Layout)
    requires KeepsLive(g0, g1) && KeepsLive(g1, g2)
    ensures KeepsLive(g0, g2)
  {
  }

  /** Where the next bump region comes from when the current one cannot hold an object of `size` bytes: malloc
      first, then the first stocked larger class, then malloc once more. */
  function NewRegion(heads: seq<nat>, heapSize: nat, size: nat, first: nat, retry: nat): Region {
    var c := FirstStocked(heads, ClassOf(size));
    if first != 0 then Region(first, BytesToGet(size, heapSize))
    else if c < FREE_LISTS then Region(Head(heads, c), ALIGN * (c + 1))
    else Region(retry, BytesToGet(size, heapSize))
  }

  /** Heap size after that. */
  function NewHeap(heads: seq<nat>, heapSize: nat, size: nat, first: nat): nat {
    if first == 0 && FirstStocked(heads, ClassOf(size)) < FREE_LISTS then heapSize
    else heapSize + BytesToGet(size, heapSize)
  }

  /** The three sources in the source's order: malloc's first answer with all its bytes counted as heap; the head of
      the first larger class, all of its chunk and no new heap; malloc's second answer, null included. */
  lemma SourceOfRegion(heads: seq<nat>, heapSize: nat, size: nat, first: nat, retry: nat)
    requires ALIGN <= size <= MAX_BYTES && size % ALIGN == 0
    ensures var r, heap := NewRegion(heads, heapSize, size, first, retry), NewHeap(heads, heapSize, size, first);
            if first != 0 then r.lo == first && r.len == heap - heapSize == BytesToGet(size, heapSize)
            else if forall j | size <= ALIGN * (j + 1) <= MAX_BYTES :: Head(heads, j) == 0
            then r.lo == retry && r.len == heap - heapSize == BytesToGet(size, heapSize)
            else heap == heapSize && exists c | size <= ALIGN * (c + 1) <= MAX_BYTES ::
                   r == Region(Head(heads, c), ALIGN * (c + 1)) && r.lo != 0
                   && forall j | size <= ALIGN * (j + 1) < ALIGN * (c + 1) :: Head(heads, j) == 0
  {
    hide BytesToGet, Head;
    assert ClassOf(size) < FREE_LISTS && ALIGN * (ClassOf(size) + 1) == size;
    var c := FirstStocked(heads, ClassOf(size));
    assert forall j: nat {:trigger Head(heads, j)} :: size <= ALIGN * (j + 1) <==> ClassOf(size) <= j;
    assert c < FREE_LISTS ==> ALIGN * (c + 1) <= MAX_BYTES;
  }

  lemma FirstIs(heads: seq<nat>, k: nat, c: nat)
    requires k <= c <= FREE_LISTS && forall j | k <= j < c :: Head(heads, j) == 0
    requires c < FREE_LISTS ==> Head(heads, c) != 0
    ensures FirstStocked(heads, k) == c
  {
  }

  /** Equal heads from `k` up give the same first stocked class. */
  lemma SameStock(heads: seq<nat>, heads': seq<nat>, k: nat)
    requires forall j | k <= j < FREE_LISTS :: Head(heads', j) == Head(heads, j)
    ensures FirstStocked(heads', k) == FirstStocked(heads, k)
  {
  }

  // ---------------------------------------------------------------- steps of Refill

  lemma {:induction false} RowIncreases(lo: nat, size: nat, n: nat)
    requires size > 0
    ensures forall i | 0 <= i < n :: lo <= Row(lo, size, n)[i]
    ensures Distinct(Row(lo, size, n))
    decreases n
  {
    if n > 0 {
      RowIncreases(lo + size, size, n - 1);
    }
  }

  /** The `i`-th object of a row, its successor, and where both lie. */
  lemma {:induction false} RowStep(lo: nat, size: nat, n: nat, i: nat)
    requires size > 0 && size % ALIGN == 0 && i < n
    ensures lo <= Row(lo, size, n)[i] && Row(lo, size, n)[i] + size <= lo + Span(size, n)
    ensures lo % ALIGN == 0 ==> Row(lo, size, n)[i] % ALIGN == 0
    ensures i + 1 < n ==> Row(lo, size, n)[i + 1] == Row(lo, size, n)[i] + size
    decreases n
  {
    if i > 0 {
      RowStep(lo + size, size, n - 1, i - 1);
    }
  }

  lemma EmptyHand(blocks: map<nat, nat>, arenas: map<nat, nat>, bump: Region, hand: Region)
    requires Tiling(blocks, arenas, bump, hand) && hand.len == 0
    ensures Tiling(blocks, arenas, bump, NOTHING)
  {
  }

  lemma ThreadNew(mem: Memory, heads: seq<nat>, lists: seq<seq<nat>>, k: nat, head: nat, l: seq<nat>)
    requires Threaded(mem, heads, lists) && k < FREE_LISTS && Chained(mem, head, l)
    ensures Threaded(mem, heads[k := head], lists[k := l])
  {
  }

  lemma RowFirst(lo: nat, size: nat, n: nat)
    requires n > 0
    ensures Row(lo, size, n) == [lo] + Row(lo + size, size, n - 1)
  {
  }

  /** The objects in the hand become blocks: the first for the caller, the others the list of their class. */
  lemma RefillInv(s: State, chunk: nat, size: nat, n: nat, k: nat, head: nat)
    requires Inv(s, Region(chunk, Span(size, n)))
    requires k < FREE_LISTS && size == ALIGN * (k + 1) && n > 0 && |s.g.lists| == |s.heads| == FREE_LISTS && s.g.lists[k] == []
    requires Chained(s.mem, head, Row(chunk + size, size, n - 1))
    ensures var g' := s.g.(blocks := Carved(s.g.blocks, chunk, size, n),
                         lists := s.g.lists[k := Row(chunk + size, size, n - 1)],
                         live := s.g.live + {chunk});
            Inv(s.(heads := s.heads[k := head], g := g'), NOTHING) && GivenOut(s.g, g', chunk, size)
  {
    hide Tiling, Filed, Platform, Issued, Threaded, Grown, Chained, Span, Sum, Row, Carved;
    var hand, row := Region(chunk, Span(size, n)), Row(chunk + size, size, n - 1);
    assert Row(chunk, size, n) == [chunk] + row by { RowFirst(chunk, size, n); }
    SettleRow(s.g.blocks, s.g.arenas, Region(s.start, s.end - s.start), hand, size, n);
    RowIsNew(s.g.blocks, s.g.arenas, Region(s.start, s.end - s.start), hand, chunk, size, n);
    CarvedContents(s.g.blocks, chunk, size, n);
    RowIncreases(chunk, size, n);
    EmptyHand(Carved(s.g.blocks, chunk, size, n), s.g.arenas, Region(s.start, s.end - s.start), Region(chunk + Span(size, n), 0));
    LiveAreBlocks(s.g.blocks, s.g.lists, s.g.live);
    FileRow(s.g.blocks, Carved(s.g.blocks, chunk, size, n), s.g.lists, s.g.live, k, chunk, row);
    ThreadNew(s.mem, s.heads, s.g.lists, k, head, row);
  }

  /** The first `m` chunks of the row point at their successors. */
  ghost predicate LinkedUpTo(mem: Memory, row: seq<nat>, m: nat) {
    forall j | 0 <= j < m && j + 1 < |row| :: row[j] in mem && mem[row[j]] == Link(row[j + 1])
  }

  lemma LinkNext(mem: Memory, row: seq<nat>, m: nat)
    requires Distinct(row) && LinkedUpTo(mem, row, m) && m + 1 < |row|
    ensures LinkedUpTo(mem[row[m] := Link(row[m + 1])], row, m + 1)
  {
  }

  lemma LinkLast(mem: Memory, row: seq<nat>)
    requires Distinct(row) && row != [] && LinkedUpTo(mem, row, |row| - 1)
    ensures Chained(mem[row[|row| - 1] := Link(0)], row[0], row)
  {
  }

  /** Writing the link of one chunk in the hand. */
  lemma HandWrite(s: State, chunk: nat, size: nat, n: nat, j: nat, next: nat)
    requires Inv(s, Region(chunk, Span(size, n)))
    requires 0 < size && size % ALIGN == 0 && j < n
    ensures var a := Row(chunk, size, n)[j];
            a in s.mem && Inv(s.(mem := s.mem[a := Link(next)]), Region(chunk, Span(size, n)))
            && Untouched(s.g, s.mem, s.mem[a := Link(next)])
  {
    var hand, a := Region(chunk, Span(size, n)), Row(chunk, size, n)[j];
    RowStep(chunk, size, n, j);
    assert hand.len > 0;
    InvParts(s, hand);
    hide Inv, Row, Span, Filed, Threaded, Platform, Issued, Tiling, Untouched;
    HandAligned(s.g.blocks, s.g.arenas, Region(s.start, s.end - s.start), hand);
    HoleWrite(s, hand, hand, a, Link(next));
  }

  lemma HandAligned(blocks: map<nat, nat>, arenas: map<nat, nat>, bump: Region, hand: Region)
    requires Tiling(blocks, arenas, bump, hand) && hand.len > 0
    ensures hand.lo % ALIGN == 0
  {
  }

  lemma EmptyList(s: State, hand: Region, k: nat)
    requires Inv(s, hand) && k < FREE_LISTS && Head(s.heads, k) == 0
    ensures |s.g.lists| == |s.heads| == FREE_LISTS && s.g.lists[k] == []
  {
    hide Tiling, Filed, Platform, Issued, Grown;
    if s.g.lists[k] != [] {
      ThreadPop(s.mem, s.heads, s.g.lists, k);
      MappedAboveNull(s.mem, s.g.regions);
    }
  }

  lemma EmptyRow(mem: Memory, lo: nat, size: nat)
    ensures Chained(mem, 0, Row(lo + size, size, 0)) && Row(lo, size, 1) == [lo] + Row(lo + size, size, 0)
  {
  }

  lemma NothingLinked(mem: Memory, row: seq<nat>)
    ensures LinkedUpTo(mem, row, 0)
  {
  }

  lemma RowFacts(chunk: nat, size: nat, n: nat)
    requires 0 < size && size % ALIGN == 0 && n > 1
    ensures var row := Row(chunk + size, size, n - 1);
            Row(chunk, size, n) == [chunk] + row && row[0] == chunk + size && Distinct(row)
  {
    RowIncreases(chunk + size, size, n - 1);
  }

  lemma GivenAfterKept(g0: Layout, g1: Layout, g2: Layout, p: nat, size: nat)
    requires KeepsLive(g0, g1) && GivenOut(g1, g2, p, size)
    ensures GivenOut(g0, g2, p, size)
  {
  }

  /** A walk through the links finds the list, however much fuel beyond its length it is given. */
  lemma WalkOfList(s: State, k: nat)
    requires Inv(s, NOTHING) && k < FREE_LISTS
    ensures |s.heads| == |s.g.lists| == FREE_LISTS
    ensures forall fuel: nat | |s.g.lists[k]| <= fuel :: Walk(s.mem, s.heads[k], fuel) == s.g.lists[k]
  {
    hide Tiling, Filed, Platform, Issued, Grown;
    MappedAboveNull(s.mem, s.g.regions);
    assert Chained(s.mem, s.heads[k], s.g.lists[k]);
    hide Inv, Threaded;
    assert 0 !in s.g.lists[k];
    forall fuel: nat | |s.g.lists[k]| <= fuel
      ensures Walk(s.mem, s.heads[k], fuel) == s.g.lists[k]
    {
      WalkFindsChain(s.mem, s.heads[k], s.g.lists[k], fuel);
    }
  }

  lemma LiveAreBlocks(blocks: map<nat, nat>, lists: seq<seq<nat>>, live: set<nat>)
    requires Filed(blocks, lists, live)
    ensures live <= blocks.Keys
  {
  }

  /** The client got `p`, of `size` bytes, and everything it had before. */
  ghost predicate GivenOut(g: Layout, g': Layout, p: nat, size: nat) {
    && p !in g.live && g'.live == g.live + {p} && g'.large == g.large
    && p in g'.blocks && g'.blocks[p] == size
    && forall b | b in g.live && b in g.blocks :: b in g'.blocks && g'.blocks[b] == g.blocks[b]
  }

  // ---------------------------------------------------------------- what a client holds

  /** A client may use `n` bytes at `p`: a large region, or a block of the class of `n`. */
  ghost predicate Holds(g: Layout, p: nat, n: nat) {
    if n > MAX_BYTES then p in g.large && g.large[p] == n
    else 0 < n && p in g.live && p in g.blocks && g.blocks[p] == RoundUp(n)
  }

  /** The layout with `p` out of the client's hands. */
  ghost function Without(g: Layout, p: nat): Layout {
    g.(live := g.live - {p}, large := g.large - {p})
  }

  /** A cell of a held small block. */
  lemma SmallHeldCell(s: State, p: nat, n: nat, a: nat)
    requires Inv(s, NOTHING) && Holds(s.g, p, n) && n <= MAX_BYTES && a in Cells(p, n)
    ensures p % WORD == 0 && NULL_GUARD <= p && a in s.mem
    ensures forall b | b in s.g.blocks && b != p :: !(b <= a < b + s.g.blocks[b])
    ensures forall b | b in s.g.large :: !(b <= a < b + s.g.large[b])
    ensures p !in s.g.large
  {
    hide Filed, Threaded, Grown, Sum, RoundUp, Tiling, Cells, Platform, Issued, InArena;
    CellIn(p, n, a);
    BlockCell(s.g.blocks, s.g.arenas, Region(s.start, s.end - s.start), p, p);
    BlockCell(s.g.blocks, s.g.arenas, Region(s.start, s.end - s.start), p, a);
    hide Inv;
    ArenaCell(s.mem, s.g.arenas, s.g.large, s.g.regions, Region(p, s.g.blocks[p]), p);
    ArenaCell(s.mem, s.g.arenas, s.g.large, s.g.regions, Region(p, s.g.blocks[p]), a);
    MappedAboveNull(s.mem, s.g.regions);
    if p in s.g.large {
      LargeNotEmpty(s.mem, s.g.large, s.g.arenas, s.g.regions, p);
    }
  }

  lemma CellIn(p: nat, n: nat, a: nat)
    requires a in Cells(p, n)
    ensures p <= a < p + RoundUp(n) && a % WORD == 0
  {
  }

  lemma LargeNotEmpty(mem: Memory, large: map<nat, nat>, arenas: map<nat, nat>, regions: map<nat, nat>, p: nat)
    requires Platform(mem, regions) && Issued(arenas, large, regions) && p in large
    ensures large[p] > 0
  {
    assert Usable(mem, p, regions[p]);
  }

  /** A cell of a held block or region is mapped and belongs to no other block or large region. */
  lemma HeldCell(s: State, p: nat, n: nat, a: nat)
    requires Inv(s, NOTHING) && Holds(s.g, p, n) && a in Cells(p, n)
    ensures p % WORD == 0 && NULL_GUARD <= p && a in s.mem
    ensures forall b | b in s.g.blocks && b != p :: !(b <= a < b + s.g.blocks[b])
    ensures forall b | b in s.g.large && b != p :: !(b <= a < b + s.g.large[b])
    ensures n > MAX_BYTES ==> p !in s.g.blocks
    ensures n <= MAX_BYTES ==> p !in s.g.large
  {
    hide Filed, Threaded, Grown, Sum, Tiling, Platform, Issued, RoundUp, Cells;
    if n <= MAX_BYTES {
      hide Inv, Holds;
      SmallHeldCell(s, p, n, a);
    } else {
      LargeCell(s.mem, s.g, Region(s.start, s.end - s.start), p, a);
    }
  }

  lemma BlockCell(blocks: map<nat, nat>, arenas: map<nat, nat>, bump: Region, p: nat, a: nat)
    requires Tiling(blocks, arenas, bump, NOTHING) && p in blocks && p <= a < p + blocks[p]
    ensures p % ALIGN == 0 && InArena(arenas, Region(p, blocks[p]))
    ensures forall b | b in blocks && b != p :: !(b <= a < b + blocks[b])
  {
    forall b | b in blocks && b != p
      ensures !(b <= a < b + blocks[b])
    {
      assert Apart(Region(b, blocks[b]), Region(p, blocks[p]));
    }
  }

  lemma LargeCell(mem: Memory, g: Layout, bump: Region, p: nat, a: nat)
    requires Tiling(g.blocks, g.arenas, bump, NOTHING) && Platform(mem, g.regions) && Issued(g.arenas, g.large, g.regions)
    requires p in g.large && a in Cells(p, g.large[p])
    ensures p % WORD == 0 && NULL_GUARD <= p && a in mem && p !in g.blocks
    ensures forall b | b in g.blocks :: !(b <= a < b + g.blocks[b])
    ensures forall b | b in g.large && b != p :: !(b <= a < b + g.large[b])
  {
    assert Usable(mem, p, g.regions[p]) && a in Cells(p, g.regions[p]);
    LargeApart(g.large, g.arenas, g.regions, mem, p, a);
    hide Platform, Issued, Cells, RoundUp;
    forall b | b in g.blocks
      ensures !(b <= a < b + g.blocks[b]) && b != p
    {
      assert InArena(g.arenas, Region(b, g.blocks[b])) && g.blocks[b] > 0;
      hide Tiling;
      var c :| c in g.arenas && Within(Region(b, g.blocks[b]), Region(c, g.arenas[c]));
    }
  }

  /** A large region meets no arena and no other large region. */
  lemma LargeApart(large: map<nat, nat>, arenas: map<nat, nat>, regions: map<nat, nat>, mem: Memory, p: nat, a: nat)
    requires Platform(mem, regions) && Issued(arenas, large, regions)
    requires p in large && p <= a < p + large[p]
    ensures forall b | b in large && b != p :: !(b <= a < b + large[b])
    ensures forall c | c in arenas :: !(c <= a < c + arenas[c]) && !(c <= p < c + arenas[c])
  {
    forall b | b in large && b != p
      ensures !(b <= a < b + large[b])
    {
      assert Apart(Region(p, regions[p]), Region(b, regions[b]));
    }
    forall c | c in arenas
      ensures !(c <= a < c + arenas[c]) && !(c <= p < c + arenas[c])
    {
      assert Apart(Region(p, regions[p]), Region(c, regions[c]));
    }
  }

  /** A client writing what it holds disturbs neither the pool nor what other clients hold. */
  lemma OwnWrite(s: State, mem': Memory, p: nat, n: nat)
    requires Inv(s, NOTHING) && Holds(s.g, p, n) && SameOutside(s.mem, mem', p, n)
    ensures Inv(s.(mem := mem'), NOTHING)
    ensures Untouched(Without(s.g, p), s.mem, mem')
  {
    hide Tiling, Filed, Threaded, Platform, Issued, Grown, Sum;
    SameKeysPlatform(s.mem, mem', s.g.regions);
    forall a | a in Cells(p, n)
      ensures (forall b | b in s.g.blocks && b != p :: !(b <= a < b + s.g.blocks[b]))
              && (forall b | b in s.g.large && b != p :: !(b <= a < b + s.g.large[b]))
    {
      HeldCell(s, p, n, a);
    }
    FiledApart(s, mem', p, n);
  }

  lemma FiledFacts(blocks: map<nat, nat>, lists: seq<seq<nat>>, live: set<nat>, k: nat, a: nat)
    requires Filed(blocks, lists, live) && k < FREE_LISTS && a in lists[k]
    ensures a in blocks && a !in live && blocks[a] >= ALIGN
  {
  }

  lemma FiledNotHeld(s: State, p: nat, n: nat, k: nat, a: nat)
    requires Inv(s, NOTHING) && Holds(s.g, p, n)
    requires k < FREE_LISTS && |s.g.lists| == FREE_LISTS && a in s.g.lists[k]
    ensures a !in Cells(p, n)
  {
    hide Tiling, Threaded, Platform, Issued, Grown, Sum, Filed, RoundUp;
    FiledFacts(s.g.blocks, s.g.lists, s.g.live, k, a);
    if a in Cells(p, n) {
      HeldCell(s, p, n, a);
    }
  }

  lemma FiledApart(s: State, mem': Memory, p: nat, n: nat)
    requires Inv(s, NOTHING) && Holds(s.g, p, n) && SameOutside(s.mem, mem', p, n)
    ensures Threaded(mem', s.heads, s.g.lists)
  {
    hide Tiling, Threaded, Platform, Issued, Grown, Sum;
    FiledAreBlocks(s.g.blocks, s.g.lists, s.g.live);
    forall k, a | 0 <= k < FREE_LISTS && a in s.g.lists[k] && a in s.mem
      ensures a in mem' && mem'[a] == s.mem[a]
    {
      FiledNotHeld(s, p, n, k, a);
    }
    hide Filed;
    ThreadFrame(s.mem, mem', s.heads, s.g.lists);
  }

  /** The client got `n` bytes at `p` and kept everything else. */
  ghost predicate Gained(g: Layout, g': Layout, p: nat, n: nat) {
    if n > MAX_BYTES then p !in g.large && g'.large == g.large[p := n] && g'.live == g.live && g'.blocks == g.blocks
    else GivenOut(g, g', p, RoundUp(n))
  }

  /** The client gave up `p` and kept everything else. */
  ghost predicate GaveUp(g: Layout, g': Layout, p: nat) {
    && g'.live == g.live - {p} && g'.large == g.large - {p}
    && forall b | b in g'.live && b in g.blocks :: b in g'.blocks && g'.blocks[b] == g.blocks[b]
  }

  lemma PopInv(s: State, k: nat)
    requires Inv(s, NOTHING) && k < FREE_LISTS && Head(s.heads, k) != 0
    ensures |s.heads| == |s.g.lists| == FREE_LISTS && s.g.lists[k] != [] && s.heads[k] in s.mem && s.mem[s.heads[k]].Link?
    ensures var g' := s.g.(lists := s.g.lists[k := s.g.lists[k][1..]], live := s.g.live + {s.heads[k]});
            Inv(s.(heads := s.heads[k := s.mem[s.heads[k]].next], g := g'), NOTHING)
            && GivenOut(s.g, g', s.heads[k], ALIGN * (k + 1))
  {
    hide Tiling, Platform, Issued, Filed, Grown, Threaded;
    FiledAreBlocks(s.g.blocks, s.g.lists, s.g.live);
    InvBasics(s, NOTHING);
    StockedList(s.mem, s.heads, s.g.lists, k);
    ThreadPop(s.mem, s.heads, s.g.lists, k);
    FilePop(s.g.blocks, s.g.lists, s.g.live, k);
  }

  /** Memory and large regions may change as long as the arenas stay. */
  lemma Remaps(s: State, mem: Memory, g: Layout)
    requires Inv(s, NOTHING) && Platform(mem, g.regions) && Issued(g.arenas, g.large, g.regions) && Threaded(mem, s.heads, g.lists)
    requires g.blocks == s.g.blocks && g.lists == s.g.lists && g.live == s.g.live && g.arenas == s.g.arenas
    ensures Inv(s.(mem := mem, g := g), NOTHING)
  {
    hide Tiling, Platform, Issued, Filed, Grown, Threaded, Sum;
  }

  lemma LargeGained(g: Layout, p: nat, n: nat)
    requires n > MAX_BYTES && p !in g.large
    ensures Gained(g, g.(large := g.large[p := n], regions := g.regions[p := RoundUp(n)]), p, n)
  {
    hide RoundUp;
  }

  lemma LargeInv(s: State, p: nat, n: nat, fill: nat -> Word)
    requires Inv(s, NOTHING) && n > MAX_BYTES && p != 0 && Answer(s.g, p, n)
    ensures var g' := s.g.(large := s.g.large[p := n], regions := s.g.regions[p := RoundUp(n)]);
            Inv(s.(mem := MapRegion(s.mem, p, RoundUp(n), fill), g := g'), NOTHING)
            && Gained(s.g, g', p, n) && Untouched(s.g, s.mem, MapRegion(s.mem, p, RoundUp(n), fill))
  {
    AnswerFacts(s.g, p, n);
    InvParts(s, NOTHING);
    hide Inv, MapRegion, Tiling, Platform, Issued, Filed, Threaded, Untouched, SameOn, Clear, Apart, Answer, Gained, RoundUp;
    var mem', g' := MapRegion(s.mem, p, RoundUp(n), fill), s.g.(large := s.g.large[p := n], regions := s.g.regions[p := RoundUp(n)]);
    FreshRegion(s.mem, s.g.regions, p, RoundUp(n), fill);
    FreshForBlocks(s.mem, s.g, Region(s.start, s.end - s.start), p, RoundUp(n), fill);
    IssuedLarge(s.g.arenas, s.g.large, s.g.regions, p, n);
    ThreadSameOn(s.mem, mem', s.heads, s.g.blocks, s.g.lists, s.g.live);
    LargeGained(s.g, p, n);
    Remaps(s, mem', g');
  }

  lemma IssuedLarge(arenas: map<nat, nat>, large: map<nat, nat>, regions: map<nat, nat>, p: nat, n: nat)
    requires Issued(arenas, large, regions) && p !in regions
    ensures p !in large && Issued(arenas, large[p := n], regions[p := RoundUp(n)])
  {
  }

  lemma FreeInv(s: State, p: nat, n: nat)
    requires Inv(s, NOTHING) && n > MAX_BYTES && Holds(s.g, p, n)
    ensures var g' := s.g.(large := s.g.large - {p}, regions := s.g.regions - {p});
            Inv(s.(g := g'), NOTHING) && GaveUp(s.g, g', p)
  {
    hide Tiling, Filed, Grown, Threaded, Sum, RoundUp, Platform, Issued;
    HeldAligned(s, p, n);
    HeldCell(s, p, n, p);
    LiveAreBlocks(s.g.blocks, s.g.lists, s.g.live);
    PlatformFrees(s.mem, s.g.arenas, s.g.large, s.g.regions, p);
  }

  lemma PlatformFrees(mem: Memory, arenas: map<nat, nat>, large: map<nat, nat>, regions: map<nat, nat>, p: nat)
    requires Platform(mem, regions) && Issued(arenas, large, regions) && p in large
    ensures Platform(mem, regions - {p}) && Issued(arenas, large - {p}, regions - {p})
  {
    hide RoundUp;
  }

  /** The lists once `p` is pushed. */
  lemma PushedLists(s: State, k: nat, p: nat)
    requires Inv(s, NOTHING) && k < FREE_LISTS && p in s.g.blocks && s.g.blocks[p] == ALIGN * (k + 1) && p in s.g.live
    requires p in s.mem && |s.heads| == |s.g.lists| == FREE_LISTS
    ensures Filed(s.g.blocks, s.g.lists[k := [p] + s.g.lists[k]], s.g.live - {p})
    ensures Threaded(s.mem[p := Link(s.heads[k])], s.heads[k := p], s.g.lists[k := [p] + s.g.lists[k]])
  {
    hide Tiling, Platform, Issued, Filed, Grown, Threaded, Sum;
    LiveNotFiled(s.g.blocks, s.g.lists, s.g.live, p);
    FilePush(s.g.blocks, s.g.lists, s.g.live, k, p);
    ThreadPush(s.mem, s.heads, s.g.lists, k, p);
  }

  /** Lists and live set may change as long as they fit the blocks. */
  lemma Relists(s: State, heads: seq<nat>, g: Layout)
    requires Inv(s, NOTHING) && Filed(g.blocks, g.lists, g.live) && Threaded(s.mem, heads, g.lists)
    requires g.blocks == s.g.blocks && g.arenas == s.g.arenas && g.large == s.g.large && g.regions == s.g.regions
    ensures Inv(s.(heads := heads, g := g), NOTHING)
  {
    hide Tiling, Platform, Issued, Filed, Grown, Threaded, Sum;
  }

  lemma PushInv(s: State, k: nat, p: nat, n: nat)
    requires Inv(s, NOTHING) && Holds(s.g, p, n) && n <= MAX_BYTES
    requires k == FreelistIndex(n)
    ensures p in s.mem && |s.heads| == |s.g.lists| == FREE_LISTS && p !in s.g.large
    ensures var g' := s.g.(lists := s.g.lists[k := [p] + s.g.lists[k]], live := s.g.live - {p});
            Inv(s.(mem := s.mem[p := Link(s.heads[k])], heads := s.heads[k := p], g := g'), NOTHING)
            && GaveUp(s.g, g', p) && Untouched(g', s.mem, s.mem[p := Link(s.heads[k])])
  {
    InvBasics(s, NOTHING);
    ClassSize(n);
    assert p in s.g.blocks && s.g.blocks[p] == ALIGN * (k + 1) && p in s.g.live;
    hide Inv, Holds, Filed, Threaded, RoundUp, FreelistIndex, NullUnmapped, Untouched, GaveUp, Without, SameOutside;
    var mem', heads' := s.mem[p := Link(s.heads[k])], s.heads[k := p];
    var g' := s.g.(lists := s.g.lists[k := [p] + s.g.lists[k]], live := s.g.live - {p});
    PushedCell(s, p, n, Link(s.heads[k]));
    OwnWrite(s, mem', p, n);
    PushedLists(s, k, p);
    Relists(s.(mem := mem'), heads', g');
    PushedView(s.g, g', p, s.mem, mem');
  }

  lemma PushedCell(s: State, p: nat, n: nat, c: Cell)
    requires Inv(s, NOTHING) && Holds(s.g, p, n) && 0 < n <= MAX_BYTES
    ensures p in s.mem && p !in s.g.large && SameOutside(s.mem, s.mem[p := c], p, n)
  {
    hide Inv, Holds;
    SmallNotLarge(s, p, n);
    HeldMapped(s, p, n, n);
    assert p in Cells(p, n);
  }

  lemma PushedView(g: Layout, g': Layout, p: nat, mem: Memory, mem': Memory)
    requires p !in g.large && g'.live == g.live - {p} && g'.large == g.large && g'.blocks == g.blocks
    requires Untouched(Without(g, p), mem, mem')
    ensures GaveUp(g, g', p) && Untouched(g', mem, mem')
  {
    hide KeepsCells;
    var w := Without(g, p);
    assert forall b | b in g'.live && b in g'.blocks :: b in w.live && w.blocks[b] == g'.blocks[b];
    assert forall b | b in g'.large :: b in w.large && w.large[b] == g'.large[b];
  }

  lemma ClassSize(n: nat)
    requires 0 < n <= MAX_BYTES
    ensures FreelistIndex(n) < FREE_LISTS && RoundUp(n) == ALIGN * (FreelistIndex(n) + 1)
    ensures ClassOf(n) == ClassOf(RoundUp(n)) == FreelistIndex(n) && ALIGN <= RoundUp(n) <= MAX_BYTES
  {
  }

  lemma LiveNotFiled(blocks: map<nat, nat>, lists: seq<seq<nat>>, live: set<nat>, p: nat)
    requires Filed(blocks, lists, live) && p in live
    ensures forall j | 0 <= j < FREE_LISTS :: p !in lists[j]
  {
  }

  lemma HeldAligned(s: State, p: nat, n: nat)
    requires Inv(s, NOTHING) && Holds(s.g, p, n)
    ensures p % WORD == 0
  {
    hide Filed, Threaded, Grown, Sum;
    if n > MAX_BYTES {
      assert Usable(s.mem, p, s.g.regions[p]);
    } else {
      assert WellSized(s.g.blocks);
    }
  }

  lemma HeldMapped(s: State, p: nat, n: nat, m: nat)
    requires Inv(s, NOTHING) && Holds(s.g, p, n) && m <= n
    ensures Mapped(s.mem, p, m) && p % WORD == 0
  {
    hide Tiling, Platform, Issued, Filed, Grown, Threaded, Sum, Holds, RoundUp;
    HeldAligned(s, p, n);
    forall a | a in Cells(p, m)
      ensures a in s.mem
    {
      HeldCell(s, p, n, a);
    }
  }

  /** Bytes that are held stay the same when what is held stays untouched. */
  lemma KeptBytes(mem: Memory, mem': Memory, g: Layout, p: nat, n: nat, m: nat)
    requires Mapped(mem, p, m) && p % WORD == 0 && Holds(g, p, n) && m <= n && Untouched(g, mem, mem')
    ensures SameBytes(mem', p, mem, p, m)
  {
    forall i: nat | i < m
      ensures SameByte(mem', p, mem, p, i)
    {
      ByteInCell(p, m, i);
      assert CellOf(p + i) in mem;
    }
  }

  /** The moves of Reallocate seen by the client: allocate `q`, copy into it, give `p` up. */
  lemma MovedGain(g0: Layout, g1: Layout, g2: Layout, p: nat, q: nat, m: nat)
    requires m > 0 && Gained(g0, g1, q, m) && q != p && GaveUp(g1, g2, p) && g0.live <= g0.blocks.Keys && g2.blocks == g1.blocks
    ensures Gained(Without(g0, p), g2, q, m)
  {
    hide RoundUp;
  }

  lemma GivesUpNothing(g: Layout)
    requires 0 !in g.live && 0 !in g.large
    ensures GaveUp(g, g, 0)
  {
    assert g.live - {0} == g.live && g.large - {0} == g.large;
  }

  lemma NullNotHeld(s: State)
    requires Inv(s, NOTHING)
    ensures 0 !in s.g.live && 0 !in s.g.large && s.g.live <= s.g.blocks.Keys && GaveUp(s.g, s.g, 0)
  {
    InvParts(s, NOTHING);
    hide Inv, RoundUp, Tiling, Platform, Issued, Filed, Threaded, GaveUp;
    LiveAreBlocks(s.g.blocks, s.g.lists, s.g.live);
    NullNoBlock(s.mem, s.g.blocks, s.g.arenas, s.g.regions, s.g.large, Region(s.start, s.end - s.start));
    GivesUpNothing(s.g);
  }

  lemma NullNoBlock(mem: Memory, blocks: map<nat, nat>, arenas: map<nat, nat>, regions: map<nat, nat>, large: map<nat, nat>, bump: Region)
    requires Tiling(blocks, arenas, bump, NOTHING) && Platform(mem, regions) && Issued(arenas, large, regions)
    ensures 0 !in blocks && 0 !in large
  {
    assert forall b | b in arenas :: Usable(mem, b, regions[b]) && b != 0;
    assert forall b | b in large :: Usable(mem, b, regions[b]) && b != 0;
  }

  lemma MovedUntouched(g0: Layout, g1: Layout, g2: Layout, p: nat, q: nat, m: nat, m0: Memory, m1: Memory, m2: Memory, m3: Memory)
    requires m > 0 && Gained(g0, g1, q, m) && GaveUp(g1, g2, p) && g0.live <= g0.blocks.Keys && g2.blocks == g1.blocks
    requires q !in g0.live && q !in g0.large
    requires Untouched(g0, m0, m1) && Untouched(Without(g1, q), m1, m2) && Untouched(g2, m2, m3)
    ensures Untouched(Without(g0, p), m0, m3)
  {
    hide RoundUp, KeepsCells;
    var w, v := Without(g0, p), Without(g1, q);
    forall b | b in w.live && b in w.blocks
      ensures KeepsCells(Region(b, w.blocks[b]), m0, m3)
    {
      assert b in g0.live && b in v.live && b in v.blocks && b in g2.live && v.blocks[b] == w.blocks[b];
      CellsTwice(Region(b, w.blocks[b]), m0, m1, m2);
      CellsTwice(Region(b, w.blocks[b]), m0, m2, m3);
    }
    forall b | b in w.large
      ensures KeepsCells(Region(b, w.large[b]), m0, m3)
    {
      assert b in g0.large && b in v.large && b in g2.large && v.large[b] == w.large[b];
      CellsTwice(Region(b, w.large[b]), m0, m1, m2);
      CellsTwice(Region(b, w.large[b]), m0, m2, m3);
    }
  }

  /** Between two large sizes: the old region goes, the new one comes with the old bytes. */
  lemma ReallocMapped(s: State, p: nat, n: nat, q: nat, m: nat, fill: nat -> Word)
    requires Inv(s, NOTHING) && n > MAX_BYTES && m > MAX_BYTES && Holds(s.g, p, n)
    requires q != 0 && Answer(s.g.(regions := s.g.regions - {p}), q, m)
    ensures p % WORD == 0 && q % WORD == 0 && Mapped(MapRegion(s.mem, q, RoundUp(m), fill), q, Min(m, n)) && Mapped(s.mem, p, Min(m, n))
  {
    AnswerFacts(s.g.(regions := s.g.regions - {p}), q, m);
    hide Inv, RoundUp;
    HeldMapped(s, p, n, Min(m, n));
  }

  lemma LargeNotLive(s: State, q: nat, m: nat)
    requires Inv(s, NOTHING) && Holds(s.g, q, m) && m > MAX_BYTES
    ensures q !in s.g.live
  {
    hide Tiling, Platform, Issued, Filed, Grown, Threaded, Sum;
    HeldAligned(s, q, m);
    HeldCell(s, q, m, q);
    LiveAreBlocks(s.g.blocks, s.g.lists, s.g.live);
  }

  lemma LargeHeld(h: Layout, g': Layout, q: nat, m: nat)
    requires m > MAX_BYTES && Gained(h, g', q, m)
    ensures Holds(g', q, m)
  {
  }

  lemma LargeMoved(g: Layout, h: Layout, g': Layout, p: nat, q: nat, m: nat, m0: Memory, m1: Memory, m2: Memory)
    requires m > MAX_BYTES && h.blocks == g.blocks && GaveUp(g, h, p) && Gained(h, g', q, m) && q !in h.live
    requires Untouched(h, m0, m1) && Untouched(Without(g', q), m1, m2)
    ensures Gained(Without(g, p), g', q, m) && Untouched(Without(g, p), m0, m2)
  {
    hide RoundUp, KeepsCells;
    var w, v := Without(g, p), Without(g', q);
    forall b | b in w.live && b in w.blocks
      ensures KeepsCells(Region(b, w.blocks[b]), m0, m2)
    {
      assert b in h.live && b in v.live && v.blocks[b] == w.blocks[b];
      CellsTwice(Region(b, w.blocks[b]), m0, m1, m2);
    }
    forall b | b in w.large
      ensures KeepsCells(Region(b, w.large[b]), m0, m2)
    {
      assert b in h.large && b in v.large && v.large[b] == w.large[b];
      CellsTwice(Region(b, w.large[b]), m0, m1, m2);
    }
  }

  lemma CellsTwice(r: Region, m0: Memory, m1: Memory, m2: Memory)
    ensures KeepsCells(r, m0, m1) && KeepsCells(r, m1, m2) ==> KeepsCells(r, m0, m2)
  {
  }

  /** Copying into a held block keeps the pool and what others hold. */
  lemma CopyInv(s: State, from: Memory, p: nat, q: nat, m: nat, k: nat)
    requires Inv(s, NOTHING) && Holds(s.g, q, m) && k <= m
    requires p % WORD == 0 && q % WORD == 0 && Mapped(s.mem, q, k) && Mapped(from, p, k)
    ensures var mem' := Copy(s.mem, q, from, p, k);
            Inv(s.(mem := mem'), NOTHING) && Untouched(Without(s.g, q), s.mem, mem')
            && SameBytes(mem', q, from, p, k) && Mapped(mem', q, k)
  {
    hide Inv, Holds, Copy, SameBytes, Untouched;
    CopyIsExact(s.mem, q, from, p, k);
    OwnWrite(s, Copy(s.mem, q, from, p, k), q, m);
  }

  lemma SameClass(s: State, p: nat, n: nat, m: nat)
    requires Inv(s, NOTHING) && m > 0 && RoundUp(n) == RoundUp(m)
    requires (p == 0 && n == 0) || Holds(s.g, p, n)
    requires !(n > MAX_BYTES && m > MAX_BYTES)
    ensures p != 0 && Gained(Without(s.g, p), s.g, p, m) && Untouched(Without(s.g, p), s.mem, s.mem)
    ensures SameBytes(s.mem, p, s.mem, p, Min(m, n))
  {
    hide Inv, SameBytes, Mapped, Untouched;
    assert 0 < n <= MAX_BYTES && m <= MAX_BYTES;
    GivenNotNull(s, p, n);
    NullNotHeld(s);
    HeldMapped(s, p, n, Min(m, n));
    SmallNotLarge(s, p, n);
    hide RoundUp;
    Nothing(s.g, s.mem);
    Nothing(Without(s.g, p), s.mem);
    KeptBytes(s.mem, s.mem, s.g, p, n, Min(m, n));
  }

  lemma SmallNotLarge(s: State, p: nat, n: nat)
    requires Inv(s, NOTHING) && Holds(s.g, p, n) && 0 < n <= MAX_BYTES
    ensures p !in s.g.large
  {
    hide Inv, Holds;
    HeldAligned(s, p, n);
    HeldCell(s, p, n, p);
  }

  /** After Allocate: what Reallocate still holds at `p`, and where it may copy. */
  lemma MoveHeld(s: State, mem0: Memory, g0: Layout, p: nat, n: nat, q: nat, m: nat, k: nat)
    requires Inv(s, NOTHING) && Gained(g0, s.g, q, m) && Untouched(g0, mem0, s.mem)
    requires (p == 0 && n == 0) || (p != 0 && Holds(g0, p, n) && Mapped(mem0, p, k) && p % WORD == 0)
    requires k <= n && k <= m && m > 0 && g0.live <= g0.blocks.Keys
    ensures p % WORD == 0 && q % WORD == 0 && Mapped(s.mem, q, k) && Mapped(s.mem, p, k) && Holds(s.g, q, m)
    ensures q !in g0.live && q !in g0.large && q != p
    ensures if p == 0 then n == 0 && GaveUp(s.g, s.g, 0) else Holds(s.g, p, n)
    ensures SameBytes(s.mem, p, mem0, p, k)
  {
    StillHeld(g0, s.g, p, n, q, m);
    hide Gained, Holds, SameBytes, Untouched, Mapped, RoundUp, Inv, KeepsCells;
    HeldMapped(s, q, m, k);
    NullNotHeld(s);
    if m <= MAX_BYTES {
      SmallNotLarge(s, q, m);
    } else {
      LargeNotLive(s, q, m);
    }
    FreshHolding(g0, s.g, q, m);
    if p != 0 {
      HeldMapped(s, p, n, k);
      KeptBytes(mem0, s.mem, g0, p, n, k);
      HeldBefore(g0, p, n);
    } else {
      NoBytes(s.mem, mem0);
      NullNotGained(s.g, q, m);
    }
  }

  lemma FreshHolding(g0: Layout, g: Layout, q: nat, m: nat)
    requires m > 0 && Gained(g0, g, q, m) && (if m <= MAX_BYTES then q !in g.large else q !in g.live)
    ensures q !in g0.live && q !in g0.large
  {
  }

  lemma NullHasNothing(g: Layout, n: nat)
    requires 0 !in g.live && 0 !in g.large
    ensures !Holds(g, 0, n)
  {
  }

  lemma HeldBefore(g0: Layout, p: nat, n: nat)
    requires Holds(g0, p, n)
    ensures n > 0 && (p in g0.live || p in g0.large)
  {
  }

  lemma WithoutLive(g: Layout, p: nat)
    requires g.live <= g.blocks.Keys
    ensures Without(g, p).live <= g.blocks.Keys
  {
  }

  /** The bytes at `q` after Reallocate are those that were at `p` before. */
  lemma MoveBytes(m0: Memory, m1: Memory, m2: Memory, m3: Memory, g0: Layout, g2: Layout, p: nat, q: nat, m: nat, k: nat)
    requires m > 0 && k <= m && q % WORD == 0 && Mapped(m2, q, k)
    requires SameBytes(m1, p, m0, p, k) && SameBytes(m2, q, m1, p, k)
    requires Gained(Without(g0, p), g2, q, m) && Without(g0, p).live <= g0.blocks.Keys && Untouched(g2, m2, m3)
    ensures SameBytes(m3, q, m0, p, k)
  {
    StillHeld(Without(g0, p), g2, q, m, q, m);
    hide Gained, Holds, SameBytes, Untouched, Mapped, RoundUp;
    KeptBytes(m2, m3, g2, q, m, k);
    SameBytesTwice(m3, q, m2, q, m1, p, k);
    SameBytesTwice(m3, q, m1, p, m0, p, k);
  }

  lemma StillHeld(g0: Layout, g: Layout, p: nat, n: nat, q: nat, m: nat)
    requires m > 0 && Gained(g0, g, q, m) && g0.live <= g0.blocks.Keys
    ensures Holds(g, q, m) && (Holds(g0, p, n) ==> Holds(g, p, n))
  {
    hide RoundUp;
  }

  lemma NoBytes(mem: Memory, mem0: Memory)
    ensures Mapped(mem, 0, 0) && SameBytes(mem, 0, mem0, 0, 0)
  {
  }

  lemma NullNotGained(g: Layout, q: nat, m: nat)
    requires Holds(g, q, m) && 0 !in g.live && 0 !in g.large
    ensures q != 0
  {
  }

  lemma SmallGain(g: Layout, g': Layout, p: nat, n: nat)
    requires 0 < n <= MAX_BYTES && GivenOut(g, g', p, RoundUp(n))
    ensures Gained(g, g', p, n) && Holds(g', p, n)
  {
  }

  lemma GivenNotNull(s: State, p: nat, n: nat)
    requires Inv(s, NOTHING) && Holds(s.g, p, n) && n > 0
    ensures p != 0
  {
    hide Tiling, Platform, Issued, Filed, Grown, Threaded, RoundUp, Sum;
    HeldAligned(s, p, n);
    HeldCell(s, p, n, p);
  }

  lemma Stocked(heads: seq<nat>, k: nat)
    requires k < FREE_LISTS && Head(heads, k) != 0
    ensures FirstStocked(heads, k) < FREE_LISTS
  {
  }

  // ---------------------------------------------------------------- what the invariant says

  /** Live blocks, the chunks on the sixteen lists and the bump region add up to exactly what was malloc'd. */
  lemma HeapAccounting(s: State)
    requires Inv(s, NOTHING)
    ensures s.start <= s.end && |s.g.lists| == FREE_LISTS
    ensures Sum(Only(s.g.blocks, s.g.live)) + FreeBytes(s.g.lists, 0) + (s.end - s.start) == s.heapSize
  {
    hide Platform, Issued, Threaded, Grown;
    BlocksAreLiveOrFiled(s.g.blocks, s.g.lists, s.g.live);
  }

  /** Any two holdings of clients are disjoint, and no holding meets a chunk on a free list or the bump region. */
  lemma HoldingsApart(s: State, p: nat, n: nat, a: nat)
    requires Inv(s, NOTHING) && Holds(s.g, p, n) && a in Cells(p, n)
    ensures forall q, m | Holds(s.g, q, m) && q != p :: a !in Cells(q, m)
    ensures forall k, c | 0 <= k < |s.g.lists| && c in s.g.lists[k] :: !(c <= a < c + ALIGN * (k + 1))
    ensures !(s.start <= a < s.end)
  {
    hide Inv;
    HeldCell(s, p, n, a);
    OutsideFiled(s, p, n, a);
    hide RoundUp;
    forall q, m | Holds(s.g, q, m) && q != p
      ensures a !in Cells(q, m)
    {
      HeldWithin(s.g, q, m);
    }
  }

  lemma HeldWithin(g: Layout, q: nat, m: nat)
    requires Holds(g, q, m)
    ensures m > MAX_BYTES ==> q in g.large && g.large[q] == m
    ensures m <= MAX_BYTES ==> q in g.blocks && m <= g.blocks[q]
  {
  }

  lemma OutsideFiled(s: State, p: nat, n: nat, a: nat)
    requires Inv(s, NOTHING) && Holds(s.g, p, n) && a in Cells(p, n)
    ensures forall k, c | 0 <= k < |s.g.lists| && c in s.g.lists[k] :: !(c <= a < c + ALIGN * (k + 1))
    ensures !(s.start <= a < s.end)
  {
    hide Tiling, Platform, Issued, Threaded, Grown, RoundUp;
    HeldCell(s, p, n, a);
    forall k, c | 0 <= k < |s.g.lists| && c in s.g.lists[k]
      ensures !(c <= a < c + ALIGN * (k + 1))
    {
      FiledFacts(s.g.blocks, s.g.lists, s.g.live, k, c);
      assert c in s.g.blocks && s.g.blocks[c] == ALIGN * (k + 1);
    }
    hide Filed;
    if s.start <= a < s.end {
      HoleCell(s.g.blocks, s.g.arenas, Region(s.start, s.end - s.start), NOTHING, Region(s.start, s.end - s.start), a);
      ArenaCell(s.mem, s.g.arenas, s.g.large, s.g.regions, Region(s.start, s.end - s.start), a);
      HeldWithin(s.g, p, n);
    }
  }

  /** The head of list `k` was taken off, by the link stored in it, and memory is as it was. */
  predicate Popped(mem: Memory, heads: seq<nat>, mem': Memory, heads': seq<nat>, k: nat) {
    && k < |heads| && heads[k] in mem && mem[heads[k]].Link?
    && heads' == heads[k := mem[heads[k]].next] && mem' == mem
  }

  class MemoryPool {
    var mem: Memory
    var freeList: seq<nat>
    var startFree: nat
    var endFree: nat
    var heapSize: nat
    ghost var g: Layout

    ghost function Now(): State
      reads this
    {
      State(mem, freeList, startFree, endFree, heapSize, g)
    }

    ghost predicate Busy(hand: Region)
      reads this
    {
      Inv(Now(), hand)
    }

    /** Between calls nothing is in the pool's hand. */
    ghost predicate Valid()
      reads this
    {
      Busy(NOTHING)
    }

    /** Nothing left for an object of `size` bytes: not in the bump region, not on a list from its class up. */
    predicate OutOf(size: nat)
      reads this
    {
      endFree - startFree < size && FirstStocked(freeList, ClassOf(size)) == FREE_LISTS
    }

    /** The region the next batch of `size`-byte objects is cut from. */
    function Supply(size: nat, first: nat, retry: nat): Region
      reads this
    {
      if startFree + size <= endFree then Region(startFree, endFree - startFree)
      else NewRegion(freeList, heapSize, size, first, retry)
    }

    constructor ()
      ensures Valid() && mem == map[] && g.live == {} && g.large == map[] && g.regions == map[] && heapSize == 0
      ensures startFree == endFree == 0 && forall k | 0 <= k < |freeList| :: freeList[k] == 0
    {
      hide Inv;
      mem, heapSize := map[], 0;
      freeList := seq(FREE_LISTS, _ => 0);
      startFree, endFree := 0, 0;
      g := Layout(map[], seq(FREE_LISTS, _ => []), {}, map[], map[], map[]);
      new;
      EmptyInv(freeList, g);
    }

    /** Lines 106-112: what is left of the bump region goes to the list of its size. */
    method FileRest(size: nat)
      requires ALIGN <= size <= MAX_BYTES && size % ALIGN == 0 && Valid() && endFree - startFree < size
      modifies this
      ensures Inv(Now().(start := 0, end := 0), NOTHING) && |freeList| == FREE_LISTS && NullUnmapped(mem)
      ensures Invisible(old(g), old(mem), g, mem)
      ensures heapSize == old(heapSize) && g.arenas == old(g.arenas) && g.regions == old(g.regions)
      ensures |freeList| == |old(freeList)| && forall k | 0 <= k < |freeList| ::
                freeList[k] == if ALIGN * (k + 1) == old(endFree - startFree) then old(startFree) else old(freeList)[k]
      ensures Head(freeList, ClassOf(size)) == old(Head(freeList, ClassOf(size)))
      ensures var c := FirstStocked(old(freeList), ClassOf(size));
              FirstStocked(freeList, ClassOf(size)) == c && Head(freeList, c) == Head(old(freeList), c)
    {
      hide Inv, KeepsLive, Untouched, NullUnmapped;
      InvBasics(Now(), NOTHING);
      var left := endFree - startFree;
      if left > 0 {
        LeftoverClass(Now(), size);
        var j := FreelistIndex(left);
        LeftoverInv(Now(), j);
        mem := mem[startFree := Link(freeList[j])];
        freeList := freeList[j := startFree];
        g := g.(blocks := g.blocks[startFree := left], lists := g.lists[j := [startFree] + g.lists[j]]);
      } else {
        DrainedInv(mem, freeList, startFree, heapSize, g);
        Nothing(g, mem);
      }
      InvBasics(Now().(start := 0, end := 0), NOTHING);
      SameStock(old(freeList), freeList, ClassOf(size));
    }

    /** Lines 121-136: the first stocked list from the class of `size` up gives its head as the new bump region. */
    method StealLarger(size: nat) returns (found: bool)
      requires ALIGN <= size <= MAX_BYTES && size % ALIGN == 0 && |freeList| == FREE_LISTS
      requires Inv(Now().(start := 0, end := 0), NOTHING)
      modifies this
      ensures found <==> FirstStocked(old(freeList), ClassOf(size)) < FREE_LISTS
      ensures mem == old(mem) && heapSize == old(heapSize) && g.arenas == old(g.arenas)
      ensures !found ==> freeList == old(freeList) && g == old(g)
      ensures found ==> Valid() && Invisible(old(g), old(mem), g, mem)
      ensures found ==> Popped(old(mem), old(freeList), mem, freeList, FirstStocked(old(freeList), ClassOf(size)))
      ensures found ==> var c := FirstStocked(old(freeList), ClassOf(size));
                        startFree == old(Head(freeList, c)) && endFree == startFree + ALIGN * (c + 1)
                        && startFree + size <= endFree
      ensures old(Head(freeList, ClassOf(size))) == 0 ==> Head(freeList, ClassOf(size)) == 0
    {
      hide Inv, KeepsLive, FirstStocked;
      ghost var k := FreelistIndex(size);
      var i := size;
      while i <= MAX_BYTES && freeList[FreelistIndex(i)] == 0
        invariant size <= i <= MAX_BYTES + ALIGN && i == ALIGN * (FreelistIndex(i) + 1)
        invariant forall j | k <= j < FreelistIndex(i) :: Head(freeList, j) == 0
      {
        i := i + ALIGN;
      }
      found := i <= MAX_BYTES;
      FirstIs(freeList, k, FreelistIndex(i));
      if found {
        var c := FreelistIndex(i);
        StealInv(mem, freeList, heapSize, g, c);
        var p := freeList[c];
        g := g.(blocks := g.blocks - {p}, lists := g.lists[c := g.lists[c][1..]]);
        freeList := freeList[c := mem[p].next];
        startFree := p;
        endFree := startFree + i;
      }
    }

    /** Lines 115-118 and 143-144 when malloc answers: a fresh arena becomes the bump region. */
    method TakeArena(size: nat, p: nat, fill: nat -> Word)
      requires ALIGN <= size <= MAX_BYTES && size % ALIGN == 0
      requires Inv(Now().(start := 0, end := 0), NOTHING)
      requires p != 0 && Answer(g, p, BytesToGet(size, heapSize))
      modifies this
      ensures Valid() && freeList == old(freeList) && Invisible(old(g), old(mem), g, mem)
      ensures g.arenas == old(g.arenas)[p := old(BytesToGet(size, heapSize))] && p !in old(g.arenas)
      ensures startFree == p && endFree == p + old(BytesToGet(size, heapSize)) && startFree + size <= endFree
      ensures heapSize == old(heapSize + BytesToGet(size, heapSize))
    {
      hide Inv, BytesToGet, Untouched, MapRegion, Answer;
      var bytes := BytesToGet(size, heapSize);
      BytesToGetFacts(mem, freeList, heapSize, g, size);
      AnswerFacts(g, p, bytes);
      GrowInv(mem, freeList, heapSize, g, p, bytes, fill);
      mem := MapRegion(mem, p, bytes, fill);
      g := g.(arenas := g.arenas[p := bytes], regions := g.regions[p := bytes]);
      startFree := p;
      heapSize := heapSize + bytes;
      endFree := startFree + bytes;
    }

    /** Lines 106-144: a bump region with room for at least one object, from malloc, from a larger class, or
        from the second malloc.  `lost` tells that all three failed and the region starts at null. */
    method Replenish(size: nat, first: nat, retry: nat, fill: nat -> Word) returns (ghost lost: bool)
      requires ALIGN <= size <= MAX_BYTES && size % ALIGN == 0 && Valid() && endFree - startFree < size
      requires Answer(g, first, BytesToGet(size, heapSize)) && Answer(g, retry, BytesToGet(size, heapSize))
      modifies this
      ensures lost <==> old(OutOf(size)) && first == 0 && retry == 0
      ensures lost ==> startFree == 0 && size * REFILL <= endFree && NullUnmapped(mem)
      ensures startFree <= endFree && Region(startFree, endFree - startFree) == old(NewRegion(freeList, heapSize, size, first, retry))
      ensures heapSize == old(NewHeap(freeList, heapSize, size, first))
      ensures !lost ==> Valid() && startFree + size <= endFree
      ensures !lost ==> Invisible(old(g), old(mem), g, mem)
      ensures !lost && old(Head(freeList, ClassOf(size))) == 0 ==> Head(freeList, ClassOf(size)) == 0
    {
      hide Inv, BytesToGet, RoundUp, Invisible, NullUnmapped, FirstStocked, Head, ClassOf, Answer;
      FileRest(size);
      ghost var g1, mem1 := g, mem;
      AnswerSame(old(g), g, BytesToGet(size, heapSize));
      lost := false;
      if first != 0 {
        TakeArena(size, first, fill);
      } else {
        var found := StealLarger(size);
        if !found {
          if retry != 0 {
            TakeArena(size, retry, fill);
          } else {
            BytesToGetFacts(mem, freeList, heapSize, g, size);
            startFree := 0;
            endFree := BytesToGet(size, heapSize);
            heapSize := heapSize + BytesToGet(size, heapSize);
            lost := true;
          }
        }
      }
      if !lost {
        InvisibleTwice(old(g), old(mem), g1, mem1, g, mem);
      }
    }

    /** Lines 91-104: a full batch if the bump region has it, otherwise as many objects as fit. */
    method Cut(size: nat, ghost lost: bool) returns (result: nat, nobjs: nat)
      requires ALIGN <= size <= MAX_BYTES && size % ALIGN == 0 && startFree + size <= endFree
      requires if lost then startFree == 0 && size * REFILL <= endFree else Valid()
      modifies this`startFree
      ensures result == old(startFree) && nobjs == Batch(endFree - result, size) && 1 <= nobjs <= REFILL
      ensures startFree == result + Span(size, nobjs) <= endFree
      ensures if lost then nobjs == REFILL else result != 0 && Busy(Region(result, Span(size, nobjs)))
    {
      hide Inv, Batch, Span;
      nobjs := REFILL;
      var total: nat, left: nat := size * REFILL, endFree - startFree;
      if left >= total {
        FullBatch(left, size);
      } else {
        nobjs := left / size;
        PartialBatch(left, size, nobjs);
        total := size * nobjs;
      }
      assert total == Span(size, nobjs) && total % ALIGN == 0 && 0 < total <= left;
      result := startFree;
      startFree := startFree + total;
      if !lost {
        TakeInv(Now().(start := result), total);
      }
    }

    /** Cuts up to REFILL objects of `size` bytes off the bump region, after replenishing it if it cannot hold
        one.  `first` and `retry` are what malloc answers if it is asked; `lost` marks the inner call made after
        everything failed, on a bump region that starts at null. */
    method AllocChunk(size: nat, first: nat, retry: nat, fill: nat -> Word, ghost lost: bool)
      returns (result: nat, nobjs: nat, ghost nested: nat)
      requires ALIGN <= size <= MAX_BYTES && size % ALIGN == 0
      requires if lost then startFree == 0 && size * REFILL <= endFree else Valid()
      requires !lost ==> Answer(g, first, BytesToGet(size, heapSize)) && Answer(g, retry, BytesToGet(size, heapSize))
      modifies this
      ensures 1 <= nobjs <= REFILL && (lost ==> result == 0 && nobjs == REFILL)
      ensures nested <= 1 && (nested == 0 <==> size <= old(endFree) - old(startFree))
      ensures nested == 0 ==> result == old(startFree) && nobjs == Batch(old(endFree) - old(startFree), size)
                              && mem == old(mem) && freeList == old(freeList) && heapSize == old(heapSize)
      ensures nested == 1 ==> var r := old(NewRegion(freeList, heapSize, size, first, retry));
                              result == r.lo && nobjs == Batch(r.len, size)
                              && heapSize == old(NewHeap(freeList, heapSize, size, first))
      ensures !lost ==> (result == 0 <==> old(OutOf(size)) && first == 0 && retry == 0)
      ensures !lost && result == 0 ==> nobjs == REFILL && NullUnmapped(mem)
      ensures !lost && result != 0 ==> Busy(Region(result, Span(size, nobjs)))
      ensures !lost && result != 0 ==> Invisible(old(g), old(mem), g, mem)
      ensures !lost && result != 0 && old(Head(freeList, ClassOf(size))) == 0 ==> Head(freeList, ClassOf(size)) == 0
      decreases if endFree - startFree >= size then 0 else 1
    {
      hide Inv, BytesToGet, RoundUp, Invisible, Untouched, Answer, NullUnmapped, NewRegion, NewHeap, FirstStocked, Head, ClassOf, Batch, Span, Sum;
      if !lost {
        InvBasics(Now(), NOTHING);
      }
      nested := 0;
      if endFree - startFree >= size {
        result, nobjs := Cut(size, lost);
        Nothing(g, mem);
        return;
      }
      ghost var gone := Replenish(size, first, retry, fill);
      ghost var g1, mem1 := g, mem;
      NullAnswer(g, BytesToGet(size, heapSize));
      result, nobjs, nested := AllocChunk(size, 0, 0, fill, gone);
      nested := nested + 1;
      if !gone {
        InvisibleTwice(old(g), old(mem), g1, mem1, g, mem);
      }
    }

    /** Lines 70-80: the objects after the first become a null-terminated list in address order.  `heads` are the
        list heads from before the batch was put at the head of its own list. */
    method LinkRow(chunk: nat, size: nat, nobjs: nat, ghost heads: seq<nat>)
      requires ALIGN <= size && size % ALIGN == 0 && nobjs > 1
      requires Inv(Now().(heads := heads), Region(chunk, Span(size, nobjs)))
      modifies this`mem
      ensures Inv(Now().(heads := heads), Region(chunk, Span(size, nobjs)))
      ensures Chained(mem, chunk + size, Row(chunk + size, size, nobjs - 1))
      ensures Untouched(g, old(mem), mem)
    {
      hide Inv, Untouched, Span, Row, LinkedUpTo, Distinct, Chained;
      ghost var hand, row := Region(chunk, Span(size, nobjs)), Row(chunk + size, size, nobjs - 1);
      RowFacts(chunk, size, nobjs);
      NothingLinked(mem, row);
      Nothing(g, mem);
      var current, i := chunk + size, 2;
      while i < nobjs
        invariant 2 <= i <= nobjs && current == row[i - 2]
        invariant Inv(Now().(heads := heads), hand) && Untouched(g, old(mem), mem)
        invariant LinkedUpTo(mem, row, i - 2)
      {
        ghost var before := mem;
        HandWrite(Now().(heads := heads), chunk, size, nobjs, i - 1, current + size);
        RowStep(chunk + size, size, nobjs - 1, i - 2);
        LinkNext(mem, row, i - 2);
        var next := current + size;
        mem := mem[current := Link(next)];
        current := next;
        i := i + 1;
        Nothing(g, mem);
        UntouchedTwice(g, g, old(mem), before, mem);
      }
      HandWrite(Now().(heads := heads), chunk, size, nobjs, nobjs - 1, 0);
      LinkLast(mem, row);
      ghost var before := mem;
      mem := mem[current := Link(0)];
      Nothing(g, mem);
      UntouchedTwice(g, g, old(mem), before, mem);
    }

    /** A batch of objects: the first is the answer, the others are chained, in address order, as the list of
        their class.  A null batch faults at the first link written. */
    method Refill(size: nat, first: nat, retry: nat, fill: nat -> Word) returns (out: Outcome)
      requires ALIGN <= size <= MAX_BYTES && size % ALIGN == 0 && Valid()
      requires Head(freeList, ClassOf(size)) == 0
      requires Answer(g, first, BytesToGet(size, heapSize)) && Answer(g, retry, BytesToGet(size, heapSize))
      modifies this
      ensures out.Fault? <==> old(OutOf(size)) && first == 0 && retry == 0
      ensures out.Block? ==> Valid() && GivenOut(old(g), g, out.p, size) && Untouched(old(g), old(mem), mem)
      ensures out.Block? ==> var r := old(Supply(size, first, retry));
                             out.p == r.lo
                             && [out.p] + Walk(mem, Head(freeList, ClassOf(size)), REFILL) == Row(r.lo, size, Batch(r.len, size))
    {
      hide Inv, BytesToGet, RoundUp, KeepsLive, Untouched, Answer, NewRegion, NewHeap, FirstStocked, Batch, Span, Row, LinkedUpTo, GivenOut, Distinct, Chained, Walk;
      InvBasics(Now(), NOTHING);
      var chunk, nobjs, _ := AllocChunk(size, first, retry, fill, false);
      var k := FreelistIndex(size);
      ghost var g1, mem1, heads1 := g, mem, freeList;
      ghost var row := Row(chunk + size, size, nobjs - 1);
      if chunk != 0 {
        EmptyList(Now().(heads := heads1), Region(chunk, Span(size, nobjs)), k);
      }
      if nobjs == 1 {
        EmptyRow(mem, chunk, size);
        out := Block(chunk);
      } else {
        if chunk != 0 {
          RowFacts(chunk, size, nobjs);
          HandWrite(Now().(heads := heads1, g := g1), chunk, size, nobjs, 1, 0);
        }
        if chunk + size !in mem {
          return Fault;
        }
        freeList := freeList[k := chunk + size];
        LinkRow(chunk, size, nobjs, heads1);
        Nothing(g1, mem);
        UntouchedTwice(old(g), g1, old(mem), mem1, mem);
        out := Block(chunk);
      }
      RefillInv(Now().(heads := heads1, g := g1), chunk, size, nobjs, k, freeList[k]);
      g := g1.(blocks := Carved(g1.blocks, chunk, size, nobjs), lists := g1.lists[k := row], live := g1.live + {chunk});
      GivenAfterKept(old(g), g1, g, chunk, size);
      assert freeList == heads1[k := freeList[k]];
      WalkOfList(Now(), k);
    }

    /** `n` bytes for a client.  Large requests go to malloc; small ones pop the list of their class or refill it.
        The only failure of a small request is a fault, and it happens exactly when malloc fails twice and no
        list from the class up, nor the bump region, has an object. */
    method Allocate(n: nat, first: nat, retry: nat, fill: nat -> Word) returns (out: Outcome)
      requires n > 0 && Valid()
      requires n > MAX_BYTES ==> Answer(g, first, n)
      requires n <= MAX_BYTES ==> Answer(g, first, BytesToGet(RoundUp(n), heapSize)) && Answer(g, retry, BytesToGet(RoundUp(n), heapSize))
      modifies this
      ensures out.Fault? <==> n <= MAX_BYTES && old(OutOf(RoundUp(n))) && first == 0 && retry == 0
      ensures out == Block(0) ==> n > MAX_BYTES && first == 0 && Valid() && g == old(g) && mem == old(mem)
      ensures out.Block? && out.p != 0 ==> Valid() && Gained(old(g), g, out.p, n) && Untouched(old(g), old(mem), mem)
      ensures out.Block? ==> out.p == old(if n > MAX_BYTES then first
                                          else if Head(freeList, ClassOf(n)) != 0 then Head(freeList, ClassOf(n))
                                          else Supply(RoundUp(n), first, retry).lo)
      ensures n <= MAX_BYTES && old(Head(freeList, ClassOf(n))) != 0 ==> Popped(old(mem), old(freeList), mem, freeList, ClassOf(n))
      ensures n > MAX_BYTES ==> freeList == old(freeList)
                                && g.regions == if first == 0 then old(g.regions) else old(g.regions)[first := RoundUp(n)]
      ensures n > MAX_BYTES || old(Head(freeList, ClassOf(n))) != 0 ==>
                startFree == old(startFree) && endFree == old(endFree) && heapSize == old(heapSize)
    {
      hide Inv, BytesToGet, RoundUp, Untouched, Answer, NewRegion, FirstStocked, Batch, Row, GivenOut, Walk, MapRegion, Gained, FreelistIndex;
      InvBasics(Now(), NOTHING);
      if n > MAX_BYTES {
        if first != 0 {
          LargeInv(Now(), first, n, fill);
          mem := MapRegion(mem, first, RoundUp(n), fill);
          g := g.(large := g.large[first := n], regions := g.regions[first := RoundUp(n)]);
        }
        out := Block(first);
      } else {
        ClassSize(n);
        var k := FreelistIndex(n);
        var result := freeList[k];
        if result == 0 {
          out := Refill(RoundUp(n), first, retry, fill);
          if out.Block? {
            SmallGain(old(g), g, out.p, n);
            GivenNotNull(Now(), out.p, n);
          }
        } else {
          Stocked(freeList, k);
          PopInv(Now(), k);
          SmallGain(g, g.(lists := g.lists[k := g.lists[k][1..]], live := g.live + {result}), result, n);
          Nothing(g, mem);
          freeList := freeList[k := mem[result].next];
          g := g.(lists := g.lists[k := g.lists[k][1..]], live := g.live + {result});
          out := Block(result);
        }
      }
    }

    /** Gives `n` bytes at `p` back: to libc, or to the front of the list of its class.  Null and zero-length calls
        do nothing. */
    method Deallocate(p: nat, n: nat)
      requires Valid() && (p == 0 || n == 0 || Holds(g, p, n))
      modifies this
      ensures Valid()
      ensures p == 0 || n == 0 ==> g == old(g) && mem == old(mem) && freeList == old(freeList)
      ensures p != 0 && n != 0 ==> GaveUp(old(g), g, p) && Untouched(g, old(mem), mem)
      ensures g.blocks == old(g.blocks)
      ensures p != 0 && n > MAX_BYTES ==> mem == old(mem) && freeList == old(freeList) && g.regions == old(g.regions) - {p}
      ensures p == 0 || n <= MAX_BYTES ==> g.regions == old(g.regions)
      ensures p != 0 && 0 < n <= MAX_BYTES ==>
                var k := ClassOf(n);
                k < FREE_LISTS == |old(freeList)| && freeList == old(freeList)[k := p] && mem == old(mem)[p := Link(old(freeList)[k])]
      ensures startFree == old(startFree) && endFree == old(endFree) && heapSize == old(heapSize) && g.arenas == old(g.arenas)
    {
      hide Inv, RoundUp, Untouched, Answer, FreelistIndex;
      InvBasics(Now(), NOTHING);
      if p == 0 || n == 0 {
        return;
      }
      if n > MAX_BYTES {
        FreeInv(Now(), p, n);
        g := g.(large := g.large - {p}, regions := g.regions - {p});
        Nothing(g, mem);
        return;
      }
      ClassSize(n);
      var k := FreelistIndex(n);
      PushInv(Now(), k, p, n);
      mem := mem[p := Link(freeList[k])];
      g := g.(lists := g.lists[k := [p] + g.lists[k]], live := g.live - {p});
      freeList := freeList[k := p];
    }

    /** libc's realloc between two large sizes: a refusal, or the same bytes in the region `q`. */
    method Realloc(p: nat, n: nat, q: nat, m: nat, fill: nat -> Word)
      requires Valid() && Holds(g, p, n) && n > MAX_BYTES && m > MAX_BYTES
      requires Answer(g.(regions := g.regions - {p}), q, m)
      modifies this`mem, this`g
      ensures Valid()
      ensures q == 0 ==> g == old(g) && mem == old(mem)
      ensures q != 0 ==> g.regions == (old(g.regions) - {p})[q := RoundUp(m)]
      ensures q != 0 ==> Gained(Without(old(g), p), g, q, m) && Untouched(Without(old(g), p), old(mem), mem)
                         && SameBytes(mem, q, old(mem), p, Min(m, n))
    {
      hide Inv, Holds, Answer, MapRegion, Mapped, SameBytes, Copy, Gained, Untouched, GaveUp, RoundUp;
      if q == 0 {
        return;
      }
      ReallocMapped(Now(), p, n, q, m, fill);
      var grown := MapRegion(mem, q, RoundUp(m), fill);
      FreeInv(Now(), p, n);
      ghost var freed := g.(large := g.large - {p}, regions := g.regions - {p});
      AnswerSame(g.(regions := g.regions - {p}), freed, m);
      LargeInv(Now().(g := freed), q, m, fill);
      g := freed.(large := freed.large[q := m], regions := freed.regions[q := RoundUp(m)]);
      LargeHeld(freed, g, q, m);
      CopyInv(Now().(mem := grown), mem, p, q, m, Min(m, n));
      LargeNotLive(Now().(mem := grown), q, m);
      mem := Copy(grown, q, mem, p, Min(m, n));
      LargeMoved(old(g), freed, g, p, q, m, old(mem), grown, mem);
    }

    /** Moves a block to another size, keeping the first min(oldSize, newSize) bytes.  Between two large sizes libc's
        realloc answers `first`, which may be null, `p` itself or a fresh region; within one size class the block
        stays; otherwise it is allocated, copied and the old one given back. */
    method Reallocate(p: nat, oldSize: nat, newSize: nat, first: nat, retry: nat, fill: nat -> Word) returns (out: Outcome)
      requires newSize > 0 && Valid()
      requires (p == 0 && oldSize == 0) || Holds(g, p, oldSize)
      requires oldSize > MAX_BYTES && newSize > MAX_BYTES ==> Answer(g.(regions := g.regions - {p}), first, newSize)
      requires newSize > MAX_BYTES && oldSize <= MAX_BYTES ==> Answer(g, first, newSize)
      requires newSize <= MAX_BYTES ==> Answer(g, first, BytesToGet(RoundUp(newSize), heapSize)) && Answer(g, retry, BytesToGet(RoundUp(newSize), heapSize))
      modifies this
      ensures out.Fault? <==> newSize <= MAX_BYTES && RoundUp(oldSize) != RoundUp(newSize) && old(OutOf(RoundUp(newSize))) && first == 0 && retry == 0
      ensures out == Block(0) ==> newSize > MAX_BYTES && first == 0 && Valid() && g == old(g) && mem == old(mem)
      ensures out.Block? && out.p != 0 ==> Valid() && Gained(Without(old(g), p), g, out.p, newSize)
      ensures out.Block? && out.p != 0 ==> Untouched(Without(old(g), p), old(mem), mem)
      ensures out.Block? && out.p != 0 ==> SameBytes(mem, out.p, old(mem), p, Min(newSize, oldSize))
      ensures RoundUp(oldSize) == RoundUp(newSize) && (oldSize <= MAX_BYTES || newSize <= MAX_BYTES) ==>
                out == Block(p) && Now() == old(Now())
      ensures oldSize > MAX_BYTES && newSize > MAX_BYTES ==>
                out == Block(first) && Now() == old(Now()).(mem := mem, g := g)
                && g.regions == if first == 0 then old(g.regions) else (old(g.regions) - {p})[first := RoundUp(newSize)]
      ensures out.Block? && RoundUp(oldSize) != RoundUp(newSize) && (oldSize <= MAX_BYTES || newSize <= MAX_BYTES) ==>
                out.p == old(if newSize > MAX_BYTES then first
                             else if Head(freeList, ClassOf(newSize)) != 0 then Head(freeList, ClassOf(newSize))
                             else Supply(RoundUp(newSize), first, retry).lo)
      ensures out.Block? && out.p != 0 && p != 0 && RoundUp(oldSize) != RoundUp(newSize) && (oldSize <= MAX_BYTES || newSize <= MAX_BYTES) ==>
                if oldSize > MAX_BYTES then p !in g.regions else Head(freeList, ClassOf(oldSize)) == p
    {
      hide Inv, BytesToGet, RoundUp, Untouched, Answer, FirstStocked, MapRegion, Gained, Holds, GaveUp, Without, Copy, SameBytes, Mapped, SameOutside;
      NullNotHeld(Now());
      var n := Min(newSize, oldSize);
      if oldSize > MAX_BYTES && newSize > MAX_BYTES {
        Realloc(p, oldSize, first, newSize, fill);
        return Block(first);
      }
      if RoundUp(oldSize) == RoundUp(newSize) {
        SameClass(Now(), p, oldSize, newSize);
        return Block(p);
      }
      NullHasNothing(g, oldSize);
      if p != 0 {
        HeldBefore(g, p, oldSize);
        HeldMapped(Now(), p, oldSize, n);
      }
      out := Allocate(newSize, first, retry, fill);
      if out.Fault? || out.p == 0 {
        return;
      }
      var result := out.p;
      ghost var g1, mem1 := g, mem;
      MoveHeld(Now(), old(mem), old(g), p, oldSize, result, newSize, n);
      CopyInv(Now(), mem, p, result, newSize, n);
      mem := Copy(mem, result, mem, p, n);
      ghost var mem2 := mem;
      Nothing(g, mem);
      Deallocate(p, oldSize);
      MovedGain(old(g), g1, g, p, result, newSize);
      MovedUntouched(old(g), g1, g, p, result, newSize, old(mem), mem1, mem2, mem);
      WithoutLive(old(g), p);
      MoveBytes(old(mem), mem1, mem2, mem, old(g), g, p, result, newSize, n);
    }
  }

  /** Give `p` up, gain it again: everything else is as it was. */
  lemma RegainedGain(g0: Layout, g1: Layout, g2: Layout, p: nat, m: nat)
    requires GaveUp(g0, g1, p) && Gained(g1, g2, p, m) && m <= MAX_BYTES && g1.blocks == g0.blocks
    ensures Gained(Without(g0, p), g2, p, m)
  {
    hide RoundUp;
  }

  /** Giving a small block back and asking for any size of its class returns the same block and undoes the change of the
      lists: the free lists are last in, first out. */
  method FreeThenAllocate(pool: MemoryPool, p: nat, n: nat, m: nat, fill: nat -> Word) returns (out: Outcome)
    requires pool.Valid() && p != 0 && 0 < n <= MAX_BYTES && Holds(pool.g, p, n)
    requires 0 < m <= MAX_BYTES && ClassOf(m) == ClassOf(n)
    modifies pool
    ensures pool.Valid() && out == Block(p) && Gained(Without(old(pool.g), p), pool.g, p, m)
    ensures pool.freeList == old(pool.freeList)
    ensures pool.startFree == old(pool.startFree) && pool.endFree == old(pool.endFree) && pool.heapSize == old(pool.heapSize)
  {
    hide Inv, Holds, Gained, BytesToGet, FirstStocked, RoundUp, GaveUp, Without;
    ghost var g0 := pool.g;
    pool.Deallocate(p, n);
    ghost var g1 := pool.g;
    NullAnswer(pool.g, BytesToGet(RoundUp(m), pool.heapSize));
    out := pool.Allocate(m, 0, 0, fill);
    RegainedGain(g0, g1, pool.g, p, m);
  }

  /** A client's first steps, whatever sizes of one class it asks for and wherever malloc puts the first arena. */
  method FirstSteps(n: nat, m: nat, arena: nat, fill: nat -> Word) returns (pool: MemoryPool, a: Outcome, b: Outcome)
    requires 0 < n <= MAX_BYTES && 0 < m <= MAX_BYTES && ClassOf(m) == ClassOf(n)
    requires NULL_GUARD <= arena && arena % WORD == 0 && arena > 0
    ensures fresh(pool) && pool.Valid() && a == b == Block(arena) && Holds(pool.g, arena, m)
  {
    hide Inv, BytesToGet, RoundUp, Untouched, ClassOf;
    pool := new MemoryPool();
    a := pool.Allocate(n, arena, 0, fill);
    b := FreeThenAllocate(pool, arena, n, m, fill);
  }

  /** A new pool whose two calls of malloc are refused faults on every small request, whichever way it is made. */
  method FirstFault(n: nat, fill: nat -> Word) returns (a: Outcome, b: Outcome)
    requires 0 < n <= MAX_BYTES
    ensures a == b == Fault
  {
    hide Inv, BytesToGet, RoundUp, Untouched, ClassOf;
    RoundsToSomething(n);
    var pool := new MemoryPool();
    a := pool.Allocate(n, 0, 0, fill);
    pool := new MemoryPool();
    b := pool.Reallocate(0, 0, n, 0, 0, fill);
  }

  lemma RoundsToSomething(n: nat)
    requires n > 0
    ensures RoundUp(n) > 0 && RoundUp(0) == 0
  {
  }
}
