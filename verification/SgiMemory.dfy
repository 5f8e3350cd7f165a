/** The address space seen by the SGI pool: 8-byte cells that hold either a free-list link or data.

    A chunk's `next` pointer is its own first cell, so a free list exists nowhere but in free memory. */
module SgiMemory {

  type byte = x: int | 0 <= x < 256
  type Word = w: seq<byte> | |w| == 8 witness [0, 0, 0, 0, 0, 0, 0, 0]

  datatype Cell = Link(next: nat) | Data(word: Word)

  /** Cells by byte address; only multiples of 8 are keys. */
  type Memory = map<nat, Cell>

  const WORD: nat := 8

  /** Nothing below this address is ever mapped, so a link through a null pointer faults. */
  const NULL_GUARD: nat := 4096

  function Digit(n: nat, i: nat): byte {
    if i == 0 then n % 256 else Digit(n / 256, i - 1)
  }

  /** The bytes a cell shows to a reader that ignores what it holds, low byte first. */
  function Bytes(c: Cell): Word {
    match c
    case Data(w) => w
    case Link(next) => seq(8, i requires 0 <= i < 8 => Digit(next, i))
  }

  function CellOf(a: nat): nat {
    a - a % WORD
  }

  function ByteAt(mem: Memory, a: nat): byte
    requires CellOf(a) in mem
  {
    Bytes(mem[CellOf(a)])[a % WORD]
  }

  /** The cells of [p, p + n), the last one possibly in part. */
  function Cells(p: nat, n: nat): set<nat> {
    set a: nat | p <= a < p + n && a % WORD == 0
  }

  /** A region as the first-level allocator hands it out: mapped, with arbitrary contents. */
  function MapRegion(mem: Memory, p: nat, n: nat, fill: nat -> Word): Memory {
    map a | a in mem.Keys + Cells(p, n) :: if a in Cells(p, n) then Data(fill(a)) else mem[a]
  }

  predicate Mapped(mem: Memory, p: nat, n: nat) {
    forall a | a in Cells(p, n) :: a in mem
  }

  /** The `n` bytes at `src` in one memory written to `dst` in another, both aligned.  memcpy is the case of equal
      memories. */
  function Copy(onto: Memory, dst: nat, from: Memory, src: nat, n: nat): Memory
    requires dst % WORD == 0 && src % WORD == 0
    requires Mapped(onto, dst, n) && Mapped(from, src, n)
  {
    map a | a in onto ::
      if a in Cells(dst, n) then
        assert src + (a - dst) in Cells(src, n);
        Data(Splice(from[src + (a - dst)], onto[a], dst + n - a))
      else onto[a]
  }

  /** The first `n` bytes of one cell followed by the rest of another. */
  function Splice(from: Cell, onto: Cell, n: nat): Word
  {
    var k := if n < 8 then n else 8;
    Bytes(from)[..k] + Bytes(onto)[k..]
  }

  predicate SameByte(mem: Memory, p: nat, mem': Memory, q: nat, i: nat) {
    CellOf(p + i) in mem && CellOf(q + i) in mem' && ByteAt(mem, p + i) == ByteAt(mem', q + i)
  }

  /** The `n` bytes from `p` in one memory are the `n` bytes from `q` in another. */
  ghost predicate SameBytes(mem: Memory, p: nat, mem': Memory, q: nat, n: nat) {
    forall i: nat | i < n :: SameByte(mem, p, mem', q, i)
  }

  lemma ByteInCell(p: nat, n: nat, i: nat)
    requires p % WORD == 0 && i < n
    ensures CellOf(p + i) in Cells(p, n) && CellOf(p + i) == p + CellOf(i) && (p + i) % WORD == i % WORD
  {
  }

  lemma CopyByte(onto: Memory, dst: nat, from: Memory, src: nat, n: nat, i: nat)
    requires dst % WORD == 0 && src % WORD == 0 && i < n
    requires Mapped(onto, dst, n) && Mapped(from, src, n)
    ensures SameByte(Copy(onto, dst, from, src, n), dst, from, src, i)
  {
    ByteInCell(dst, n, i);
    ByteInCell(src, n, i);
    var a, b := CellOf(dst + i), CellOf(src + i);
    assert b == src + (a - dst);
    assert Copy(onto, dst, from, src, n)[a] == Data(Splice(from[b], onto[a], dst + n - a));
    assert i % WORD < dst + n - a;
  }

  /** The copied bytes are the source's, and nothing outside the destination cells changes. */
  lemma CopyIsExact(onto: Memory, dst: nat, from: Memory, src: nat, n: nat)
    requires dst % WORD == 0 && src % WORD == 0
    requires Mapped(onto, dst, n) && Mapped(from, src, n)
    ensures SameBytes(Copy(onto, dst, from, src, n), dst, from, src, n)
    ensures SameOutside(onto, Copy(onto, dst, from, src, n), dst, n)
  {
    forall i: nat | i < n
      ensures SameByte(Copy(onto, dst, from, src, n), dst, from, src, i)
    {
      CopyByte(onto, dst, from, src, n, i);
    }
  }

  /** Only cells of [p, p + n) differ. */
  ghost predicate SameOutside(mem: Memory, mem': Memory, p: nat, n: nat) {
    mem'.Keys == mem.Keys && forall a | a in mem && a !in Cells(p, n) :: mem'[a] == mem[a]
  }

  lemma SameBytesTwice(m0: Memory, p0: nat, m1: Memory, p1: nat, m2: Memory, p2: nat, n: nat)
    requires SameBytes(m0, p0, m1, p1, n) && SameBytes(m1, p1, m2, p2, n)
    ensures SameBytes(m0, p0, m2, p2, n)
  {
    forall i: nat | i < n
      ensures SameByte(m0, p0, m2, p2, i)
    {
      assert SameByte(m0, p0, m1, p1, i) && SameByte(m1, p1, m2, p2, i);
    }
  }

  // ---------------------------------------------------------------- intrusive lists

  /** The link stored in the `i`-th chunk of a chain: its successor, or null in the last one. */
  function NextIn(l: seq<nat>, i: nat): nat
    requires i < |l|
  {
    if i + 1 < |l| then l[i + 1] else 0
  }

  /** Following `next` from `head` through memory visits exactly the chunks of `l` and ends in null. */
  predicate Chained(mem: Memory, head: nat, l: seq<nat>) {
    && head == (if l == [] then 0 else l[0])
    && forall i | 0 <= i < |l| :: l[i] in mem && mem[l[i]] == Link(NextIn(l, i))
  }

  /** The walk a client of the list would do, with at most `fuel` steps. */
  function Walk(mem: Memory, head: nat, fuel: nat): seq<nat>
    decreases fuel
  {
    if head == 0 || fuel == 0 || head !in mem || !mem[head].Link? then []
    else [head] + Walk(mem, mem[head].next, fuel - 1)
  }

  /** A chain is what a walk through the links finds, however much fuel it is given: no cycle, null at the end. */
  lemma {:induction false} WalkFindsChain(mem: Memory, head: nat, l: seq<nat>, fuel: nat)
    requires Chained(mem, head, l) && 0 !in l && |l| <= fuel
    ensures Walk(mem, head, fuel) == l
    decreases fuel
  {
    if l != [] {
      ChainedTail(mem, head, l);
      WalkFindsChain(mem, mem[head].next, l[1..], fuel - 1);
    }
  }

  lemma ChainedTail(mem: Memory, head: nat, l: seq<nat>)
    requires Chained(mem, head, l) && l != []
    ensures head in mem && mem[head].Link? && Chained(mem, mem[head].next, l[1..])
  {
    forall i | 0 <= i < |l[1..]|
      ensures l[1..][i] in mem && mem[l[1..][i]] == Link(NextIn(l[1..], i))
    {
      assert l[1..][i] == l[i + 1];
    }
  }

  lemma ChainedPush(mem: Memory, head: nat, l: seq<nat>, p: nat)
    requires Chained(mem, head, l) && p !in l
    ensures Chained(mem[p := Link(head)], p, [p] + l)
  {
    var mem', l' := mem[p := Link(head)], [p] + l;
    forall i | 0 <= i < |l'|
      ensures l'[i] in mem' && mem'[l'[i]] == Link(NextIn(l', i))
    {
      if i > 0 {
        assert l'[i] == l[i - 1];
      }
    }
  }

  lemma ChainedFrame(mem: Memory, mem': Memory, head: nat, l: seq<nat>)
    requires Chained(mem, head, l)
    requires forall a | a in l && a in mem :: a in mem' && mem'[a] == mem[a]
    ensures Chained(mem', head, l)
  {
    forall i | 0 <= i < |l|
      ensures l[i] in mem' && mem'[l[i]] == Link(NextIn(l, i))
    {
      assert l[i] in l;
    }
  }
}
