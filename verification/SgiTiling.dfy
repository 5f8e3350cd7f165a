/** How the SGI pool cuts its arenas into blocks.

    A layout keeps every byte obtained from the first-level allocator in exactly one place: a carved
    block, the bump region, or the region a call in progress holds in its hand.  The lemmas below are
    the six moves of the pool between those places. */
module SgiTiling {

  const ALIGN: nat := 8
  const MAX_BYTES: nat := 128
  const FREE_LISTS: nat := 16

  datatype Region = Region(lo: nat, len: nat)

  const NOTHING := Region(0, 0)

  predicate Apart(r: Region, s: Region) {
    r.len == 0 || s.len == 0 || r.lo + r.len <= s.lo || s.lo + s.len <= r.lo
  }

  predicate Within(r: Region, s: Region) {
    s.lo <= r.lo && r.lo + r.len <= s.lo + s.len
  }

  /** Total length of a set of regions given as start to length. */
  ghost function Sum(m: map<nat, nat>): nat
    decreases |m|
  {
    if m == map[] then 0
    else
      var k :| k in m;
      assert (m - {k}).Keys == m.Keys - {k};
      m[k] + Sum(m - {k})
  }

  lemma {:induction false} SumWithout(m: map<nat, nat>, k: nat)
    requires k in m
    ensures Sum(m) == m[k] + Sum(m - {k})
    decreases |m|
  {
    var j :| j in m && Sum(m) == m[j] + Sum(m - {j});
    if j != k {
      assert (m - {j}).Keys == m.Keys - {j} && (m - {k}).Keys == m.Keys - {k};
      SumWithout(m - {j}, k);
      SumWithout(m - {k}, j);
      assert m - {j} - {k} == m - {k} - {j};
    }
  }

  lemma SumWith(m: map<nat, nat>, k: nat, v: nat)
    requires k !in m
    ensures Sum(m[k := v]) == Sum(m) + v
  {
    SumWithout(m[k := v], k);
    assert m[k := v] - {k} == m;
  }

  lemma UnionWithout(m: map<nat, nat>, n: map<nat, nat>, k: nat)
    requires m.Keys !! n.Keys && k in n
    ensures (n - {k}).Keys == n.Keys - {k} && k !in m + (n - {k}) && m + n == (m + (n - {k}))[k := n[k]]
  {
  }

  lemma {:induction false} SumUnion(m: map<nat, nat>, n: map<nat, nat>)
    requires m.Keys !! n.Keys
    ensures Sum(m + n) == Sum(m) + Sum(n)
    decreases |n|
  {
    if n == map[] {
      assert m + n == m;
    } else {
      var k :| k in n;
      hide Sum;
      UnionWithout(m, n, k);
      SumWith(m + (n - {k}), k, n[k]);
      SumWithout(n, k);
      assert |(n - {k}).Keys| == |n.Keys| - 1;
      SumUnion(m, n - {k});
    }
  }

  // ---------------------------------------------------------------- the partition

  ghost predicate WellSized(blocks: map<nat, nat>) {
    forall a | a in blocks :: a % ALIGN == 0 && blocks[a] % ALIGN == 0 && ALIGN <= blocks[a] <= MAX_BYTES
  }

  ghost predicate Separate(regions: map<nat, nat>) {
    forall a, b | a in regions && b in regions && a != b ::
      Apart(Region(a, regions[a]), Region(b, regions[b]))
  }

  ghost predicate InArena(arenas: map<nat, nat>, r: Region) {
    exists b | b in arenas :: Within(r, Region(b, arenas[b]))
  }

  /** An uncarved, aligned stretch of an arena that no block overlaps. */
  ghost predicate Hole(blocks: map<nat, nat>, arenas: map<nat, nat>, r: Region) {
    r.len > 0 ==>
      && r.lo % ALIGN == 0 && r.len % ALIGN == 0
      && InArena(arenas, r)
      && forall a | a in blocks :: Apart(r, Region(a, blocks[a]))
  }

  /** Blocks, bump region and hand are pairwise disjoint, aligned, inside arenas, and fill the arenas. */
  ghost predicate Tiling(blocks: map<nat, nat>, arenas: map<nat, nat>, bump: Region, hand: Region) {
    && WellSized(blocks)
    && Separate(blocks)
    && (forall a | a in blocks :: InArena(arenas, Region(a, blocks[a])))
    && Hole(blocks, arenas, bump)
    && Hole(blocks, arenas, hand)
    && Apart(bump, hand)
    && Sum(blocks) + bump.len + hand.len == Sum(arenas)
  }

  // ---------------------------------------------------------------- moves

  lemma InArenaPart(arenas: map<nat, nat>, r: Region, s: Region)
    requires InArena(arenas, r) && Within(s, r)
    ensures InArena(arenas, s)
  {
    var b :| b in arenas && Within(r, Region(b, arenas[b]));
    assert Within(s, Region(b, arenas[b]));
  }

  /** Part of a hole is a hole. */
  lemma HolePart(blocks: map<nat, nat>, arenas: map<nat, nat>, r: Region, s: Region)
    requires Hole(blocks, arenas, r) && Within(s, r) && s.lo % ALIGN == 0 && s.len % ALIGN == 0
    ensures Hole(blocks, arenas, s)
  {
    if s.len > 0 {
      InArenaPart(arenas, r, s);
    }
  }

  /** Taking `n` bytes off the front of the bump region. */
  lemma Carve(blocks: map<nat, nat>, arenas: map<nat, nat>, bump: Region, n: nat)
    requires Tiling(blocks, arenas, bump, NOTHING) && n % ALIGN == 0 && n <= bump.len
    ensures Tiling(blocks, arenas, Region(bump.lo + n, bump.len - n), Region(bump.lo, n))
  {
    if bump.len > 0 {
      HolePart(blocks, arenas, bump, Region(bump.lo + n, bump.len - n));
      HolePart(blocks, arenas, bump, Region(bump.lo, n));
    }
  }

  /** A new block next to a hole leaves the hole a hole. */
  lemma HoleBeside(blocks: map<nat, nat>, arenas: map<nat, nat>, r: Region, h: nat, size: nat)
    requires Hole(blocks, arenas, r) && Apart(r, Region(h, size))
    ensures Hole(blocks[h := size], arenas, r)
  {
    hide InArena;
  }

  lemma BlockJoins(blocks: map<nat, nat>, arenas: map<nat, nat>, h: nat, size: nat)
    requires WellSized(blocks) && Separate(blocks)
    requires h % ALIGN == 0 && size % ALIGN == 0 && ALIGN <= size <= MAX_BYTES
    requires forall a | a in blocks :: Apart(Region(h, size), Region(a, blocks[a]))
    ensures h !in blocks && WellSized(blocks[h := size]) && Separate(blocks[h := size])
  {
  }

  /** Turning the front of the hand into a block. */
  lemma Settle(blocks: map<nat, nat>, arenas: map<nat, nat>, bump: Region, hand: Region, size: nat)
    requires Tiling(blocks, arenas, bump, hand)
    requires size % ALIGN == 0 && ALIGN <= size <= MAX_BYTES && size <= hand.len
    ensures hand.lo !in blocks
    ensures Tiling(blocks[hand.lo := size], arenas, bump, Region(hand.lo + size, hand.len - size))
  {
    var h, rest := hand.lo, Region(hand.lo + size, hand.len - size);
    HolePart(blocks, arenas, hand, Region(h, size));
    HolePart(blocks, arenas, hand, rest);
    hide InArena, Sum;
    BlockJoins(blocks, arenas, h, size);
    SumWith(blocks, h, size);
    assert Apart(bump, Region(h, size)) && Apart(bump, rest);
    hide WellSized, Separate;
    HoleBeside(blocks, arenas, bump, h, size);
    HoleBeside(blocks, arenas, rest, h, size);
    hide Hole;
  }

  /** The whole bump region becomes one block: the leftover that is filed on a smaller list. */
  lemma FileLeftover(blocks: map<nat, nat>, arenas: map<nat, nat>, bump: Region)
    requires Tiling(blocks, arenas, bump, NOTHING) && 0 < bump.len <= MAX_BYTES
    ensures bump.lo !in blocks
    ensures Tiling(blocks[bump.lo := bump.len], arenas, NOTHING, NOTHING)
  {
    Carve(blocks, arenas, bump, bump.len);
    Settle(blocks, arenas, Region(bump.lo + bump.len, 0), Region(bump.lo, bump.len), bump.len);
  }

  /** Whatever an exhausted bump pointer is set to, the blocks still fill the arenas. */
  lemma Rebase(blocks: map<nat, nat>, arenas: map<nat, nat>, bump: Region, bump': Region)
    requires Tiling(blocks, arenas, bump, NOTHING) && bump.len == bump'.len == 0
    ensures Tiling(blocks, arenas, bump', NOTHING)
  {
  }

  /** A fresh arena becomes the bump region. */
  lemma Grow(blocks: map<nat, nat>, arenas: map<nat, nat>, p: nat, n: nat)
    requires Tiling(blocks, arenas, NOTHING, NOTHING)
    requires p !in arenas && p % ALIGN == 0 && n % ALIGN == 0
    requires forall b | b in arenas :: Apart(Region(p, n), Region(b, arenas[b]))
    ensures Tiling(blocks, arenas[p := n], Region(p, n), NOTHING)
  {
    var arenas' := arenas[p := n];
    SumWith(arenas, p, n);
    forall r: Region | InArena(arenas, r)
      ensures InArena(arenas', r) && Apart(Region(p, n), r)
    {
      var b :| b in arenas && Within(r, Region(b, arenas[b]));
      assert b in arenas' && Within(r, Region(b, arenas'[b]));
    }
    forall a | a in blocks
      ensures InArena(arenas', Region(a, blocks[a])) && Apart(Region(p, n), Region(a, blocks[a]))
    {
      assert InArena(arenas, Region(a, blocks[a]));
    }
    assert p in arenas' && Within(Region(p, n), Region(p, arenas'[p]));
  }

  /** A block taken back from a larger class becomes the bump region. */
  lemma Steal(blocks: map<nat, nat>, arenas: map<nat, nat>, p: nat)
    requires Tiling(blocks, arenas, NOTHING, NOTHING) && p in blocks
    ensures Tiling(blocks - {p}, arenas, Region(p, blocks[p]), NOTHING)
  {
    SumWithout(blocks, p);
  }

  // ---------------------------------------------------------------- a row of equal blocks

  /** Length of `n` objects of `size` bytes, counted one object at a time. */
  function Span(size: nat, n: nat): nat {
    if n == 0 then 0 else size + Span(size, n - 1)
  }

  lemma {:induction false} SpanIsProduct(size: nat, n: nat)
    ensures Span(size, n) == size * n
  {
    if n > 0 {
      SpanIsProduct(size, n - 1);
    }
  }

  /** The addresses of `n` consecutive objects of `size` bytes. */
  function Row(lo: nat, size: nat, n: nat): (r: seq<nat>)
    ensures |r| == n
    decreases n
  {
    if n == 0 then [] else [lo] + Row(lo + size, size, n - 1)
  }

  ghost function Carved(blocks: map<nat, nat>, lo: nat, size: nat, n: nat): map<nat, nat>
    decreases n
  {
    if n == 0 then blocks else Carved(blocks[lo := size], lo + size, size, n - 1)
  }

  /** Objects cut from the front of the hand one after the other. */
  lemma {:induction false} SettleRow(blocks: map<nat, nat>, arenas: map<nat, nat>, bump: Region, hand: Region,
                                     size: nat, n: nat)
    requires Tiling(blocks, arenas, bump, hand)
    requires size % ALIGN == 0 && ALIGN <= size <= MAX_BYTES && Span(size, n) <= hand.len
    ensures Tiling(Carved(blocks, hand.lo, size, n), arenas, bump,
                   Region(hand.lo + Span(size, n), hand.len - Span(size, n)))
    decreases n
  {
    hide Tiling;
    if n > 0 {
      Settle(blocks, arenas, bump, hand, size);
      SettleRow(blocks[hand.lo := size], arenas, bump, Region(hand.lo + size, hand.len - size), size, n - 1);
    }
  }

  /** None of those objects was a block before. */
  lemma {:induction false} RowIsNew(blocks: map<nat, nat>, arenas: map<nat, nat>, bump: Region, hand: Region, lo: nat,
                                    size: nat, n: nat)
    requires Tiling(blocks, arenas, bump, hand) && size > 0
    requires hand.lo <= lo && lo + Span(size, n) <= hand.lo + hand.len
    ensures forall a | a in Row(lo, size, n) :: a !in blocks
    decreases n
  {
    hide Tiling;
    if n > 0 {
      HoleStart(blocks, arenas, bump, hand, lo);
      RowIsNew(blocks, arenas, bump, hand, lo + size, size, n - 1);
    }
  }

  lemma HoleStart(blocks: map<nat, nat>, arenas: map<nat, nat>, bump: Region, hand: Region, a: nat)
    requires Tiling(blocks, arenas, bump, hand) && hand.lo <= a < hand.lo + hand.len
    ensures a !in blocks
  {
    assert forall b | b in blocks :: Apart(hand, Region(b, blocks[b])) && blocks[b] > 0;
  }

  lemma {:induction false} CarvedContents(blocks: map<nat, nat>, lo: nat, size: nat, n: nat)
    ensures forall a :: a in Carved(blocks, lo, size, n) <==> a in blocks || a in Row(lo, size, n)
    ensures forall a | a in Row(lo, size, n) :: Carved(blocks, lo, size, n)[a] == size
    ensures forall a | a in blocks && a !in Row(lo, size, n) :: Carved(blocks, lo, size, n)[a] == blocks[a]
    decreases n
  {
    if n > 0 {
      CarvedContents(blocks[lo := size], lo + size, size, n - 1);
    }
  }

  lemma {:induction false} RowAt(lo: nat, size: nat, n: nat, i: nat)
    requires i < n
    decreases n
    ensures Row(lo, size, n)[i] == lo + Span(size, i)
  {
    if i > 0 {
      RowAt(lo + size, size, n - 1, i - 1);
    }
  }
}
