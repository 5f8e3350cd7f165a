/** Which block is where: every carved block is live or sits on the free list of its own size class. */
module SgiLists {
  import opened SgiMemory
  import opened SgiTiling

  ghost predicate Distinct(l: seq<nat>) {
    forall i, j | 0 <= i < j < |l| :: l[i] != l[j]
  }

  /** List `k` holds, without repetition, exactly the blocks of 8(k+1) bytes that are not live. */
  ghost predicate Filed(blocks: map<nat, nat>, lists: seq<seq<nat>>, live: set<nat>) {
    && |lists| == FREE_LISTS
    && live <= blocks.Keys
    && (forall k | 0 <= k < FREE_LISTS :: Distinct(lists[k]))
    && (forall k, a | 0 <= k < FREE_LISTS :: a in lists[k] <==> a in blocks && a !in live && blocks[a] == ALIGN * (k + 1))
  }

  /** The heads of the lists and the links in memory spell out the chains. */
  ghost predicate Threaded(mem: Memory, heads: seq<nat>, lists: seq<seq<nat>>) {
    && |heads| == |lists| == FREE_LISTS
    && forall k | 0 <= k < FREE_LISTS :: Chained(mem, heads[k], lists[k])
  }

  lemma FilePop(blocks: map<nat, nat>, lists: seq<seq<nat>>, live: set<nat>, k: nat)
    requires Filed(blocks, lists, live) && k < FREE_LISTS && lists[k] != []
    ensures Filed(blocks, lists[k := lists[k][1..]], live + {lists[k][0]})
    ensures lists[k][0] in blocks && lists[k][0] !in live && blocks[lists[k][0]] == ALIGN * (k + 1)
  {
    var p := lists[k][0];
    assert p in lists[k];
    assert lists[k] == [p] + lists[k][1..];
  }

  lemma FilePush(blocks: map<nat, nat>, lists: seq<seq<nat>>, live: set<nat>, k: nat, p: nat)
    requires Filed(blocks, lists, live) && k < FREE_LISTS
    requires p in live && blocks[p] == ALIGN * (k + 1)
    ensures Filed(blocks, lists[k := [p] + lists[k]], live - {p})
  {
    assert p !in lists[k];
  }

  /** A new block goes to the list of its size. */
  lemma FileNew(blocks: map<nat, nat>, lists: seq<seq<nat>>, live: set<nat>, k: nat, p: nat)
    requires Filed(blocks, lists, live) && k < FREE_LISTS && p !in blocks
    ensures Filed(blocks[p := ALIGN * (k + 1)], lists[k := [p] + lists[k]], live)
  {
    assert p !in lists[k];
  }

  /** A block taken off its list to be cut up again is no block any more. */
  lemma FileSteal(blocks: map<nat, nat>, lists: seq<seq<nat>>, live: set<nat>, k: nat)
    requires Filed(blocks, lists, live) && k < FREE_LISTS && lists[k] != []
    ensures Filed(blocks - {lists[k][0]}, lists[k := lists[k][1..]], live)
    ensures lists[k][0] in blocks && lists[k][0] !in live && blocks[lists[k][0]] == ALIGN * (k + 1)
  {
    FilePop(blocks, lists, live, k);
    var p, lists' := lists[k][0], lists[k := lists[k][1..]];
    forall j, a | 0 <= j < FREE_LISTS
      ensures a in lists'[j] <==> a in blocks - {p} && a !in live && blocks[a] == ALIGN * (j + 1)
    {
      assert a in lists'[j] <==> a in blocks && a !in live + {p} && blocks[a] == ALIGN * (j + 1);
    }
  }

  /** A row of new blocks: the first is handed out, the others become the list of their class. */
  lemma FileRow(blocks: map<nat, nat>, blocks': map<nat, nat>, lists: seq<seq<nat>>, live: set<nat>,
                k: nat, p: nat, row: seq<nat>)
    requires Filed(blocks, lists, live) && k < FREE_LISTS && lists[k] == []
    requires Distinct([p] + row) && forall a | a in [p] + row :: a !in blocks
    requires forall a :: a in blocks' <==> a in blocks || a in [p] + row
    requires forall a | a in [p] + row :: blocks'[a] == ALIGN * (k + 1)
    requires forall a | a in blocks :: blocks'[a] == blocks[a]
    ensures Filed(blocks', lists[k := row], live + {p})
  {
    assert forall a :: a in [p] + row <==> a == p || a in row;
    assert p !in row by {
      assert forall i | 0 <= i < |row| :: row[i] == ([p] + row)[i + 1];
      assert ([p] + row)[0] == p;
    }
    assert Distinct(row) by {
      assert forall i | 0 <= i < |row| :: row[i] == ([p] + row)[i + 1];
    }
    assert forall a | a in live :: a in blocks;
  }

  lemma ThreadPop(mem: Memory, heads: seq<nat>, lists: seq<seq<nat>>, k: nat)
    requires Threaded(mem, heads, lists) && k < FREE_LISTS && lists[k] != []
    ensures heads[k] == lists[k][0] && heads[k] in mem && mem[heads[k]].Link?
    ensures Threaded(mem, heads[k := mem[heads[k]].next], lists[k := lists[k][1..]])
  {
    ChainedTail(mem, heads[k], lists[k]);
  }

  lemma ThreadPush(mem: Memory, heads: seq<nat>, lists: seq<seq<nat>>, k: nat, p: nat)
    requires Threaded(mem, heads, lists) && k < FREE_LISTS
    requires forall j | 0 <= j < FREE_LISTS :: p !in lists[j]
    ensures Threaded(mem[p := Link(heads[k])], heads[k := p], lists[k := [p] + lists[k]])
  {
    var mem', heads', lists' := mem[p := Link(heads[k])], heads[k := p], lists[k := [p] + lists[k]];
    forall j | 0 <= j < FREE_LISTS
      ensures Chained(mem', heads'[j], lists'[j])
    {
      if j == k {
        ChainedPush(mem, heads[k], lists[k], p);
      } else {
        ChainedFrame(mem, mem', heads[j], lists[j]);
      }
    }
  }

  /** Writes that leave the filed chunks alone leave the lists alone. */
  lemma ThreadFrame(mem: Memory, mem': Memory, heads: seq<nat>, lists: seq<seq<nat>>)
    requires Threaded(mem, heads, lists)
    requires forall k, a | 0 <= k < FREE_LISTS && a in lists[k] && a in mem :: a in mem' && mem'[a] == mem[a]
    ensures Threaded(mem', heads, lists)
  {
    forall k | 0 <= k < FREE_LISTS
      ensures Chained(mem', heads[k], lists[k])
    {
      ChainedFrame(mem, mem', heads[k], lists[k]);
    }
  }

  // ---------------------------------------------------------------- exact accounting

  ghost function Only(blocks: map<nat, nat>, s: set<nat>): map<nat, nat> {
    map a | a in blocks && a in s :: blocks[a]
  }

  function Elements(l: seq<nat>): set<nat> {
    set a | a in l
  }

  /** Bytes on the free lists from class `k` up, each chunk counted at the size of its class. */
  function FreeBytes(lists: seq<seq<nat>>, k: nat): nat
    requires |lists| == FREE_LISTS && k <= FREE_LISTS
    decreases FREE_LISTS - k
  {
    if k == FREE_LISTS then 0 else Span(ALIGN * (k + 1), |lists[k]|) + FreeBytes(lists, k + 1)
  }

  lemma OnlyMore(blocks: map<nat, nat>, p: nat, t: seq<nat>)
    requires p in blocks && p !in t
    ensures Only(blocks, Elements([p] + t)) == Only(blocks, Elements(t))[p := blocks[p]] && p !in Only(blocks, Elements(t))
  {
  }

  lemma DistinctTail(l: seq<nat>)
    requires Distinct(l) && l != []
    ensures l == [l[0]] + l[1..] && l[0] in l && l[0] !in l[1..] && Distinct(l[1..])
    ensures forall a | a in l[1..] :: a in l
  {
  }

  lemma {:induction false} SumOfList(blocks: map<nat, nat>, l: seq<nat>, size: nat)
    requires Distinct(l) && forall a | a in l :: a in blocks && blocks[a] == size
    ensures Sum(Only(blocks, Elements(l))) == Span(size, |l|)
  {
    if l == [] {
      assert Only(blocks, Elements(l)) == map[];
    } else {
      hide Sum, Only, Elements, Distinct;
      DistinctTail(l);
      SumOfList(blocks, l[1..], size);
      OnlyMore(blocks, l[0], l[1..]);
      SumWith(Only(blocks, Elements(l[1..])), l[0], size);
    }
  }

  ghost function FiledFrom(lists: seq<seq<nat>>, k: nat): set<nat>
    requires |lists| == FREE_LISTS && k <= FREE_LISTS
    decreases FREE_LISTS - k
  {
    if k == FREE_LISTS then {} else Elements(lists[k]) + FiledFrom(lists, k + 1)
  }

  lemma {:induction false} FiledFromIs(lists: seq<seq<nat>>, k: nat)
    requires |lists| == FREE_LISTS && k <= FREE_LISTS
    ensures forall a :: a in FiledFrom(lists, k) <==> exists j | k <= j < FREE_LISTS :: a in lists[j]
    decreases FREE_LISTS - k
  {
    if k < FREE_LISTS {
      FiledFromIs(lists, k + 1);
    }
  }

  /** The chunks of one list, and those of the lists above it. */
  lemma OneListMore(blocks: map<nat, nat>, lists: seq<seq<nat>>, live: set<nat>, k: nat)
    requires Filed(blocks, lists, live) && k < FREE_LISTS
    ensures Distinct(lists[k]) && forall a | a in lists[k] :: a in blocks && blocks[a] == ALIGN * (k + 1)
    ensures var here, rest := Only(blocks, Elements(lists[k])), Only(blocks, FiledFrom(lists, k + 1));
            here.Keys !! rest.Keys && Only(blocks, FiledFrom(lists, k)) == here + rest
  {
    FiledFromIs(lists, k + 1);
  }

  lemma {:induction false} SumOfLists(blocks: map<nat, nat>, lists: seq<seq<nat>>, live: set<nat>, k: nat)
    requires Filed(blocks, lists, live) && k <= FREE_LISTS
    ensures Sum(Only(blocks, FiledFrom(lists, k))) == FreeBytes(lists, k)
    decreases FREE_LISTS - k
  {
    if k == FREE_LISTS {
      assert Only(blocks, FiledFrom(lists, k)) == map[];
    } else {
      SumOfLists(blocks, lists, live, k + 1);
      OneListMore(blocks, lists, live, k);
      hide Filed, Only, Elements, FiledFrom, Distinct, Sum;
      SumOfList(blocks, lists[k], ALIGN * (k + 1));
      SumUnion(Only(blocks, Elements(lists[k])), Only(blocks, FiledFrom(lists, k + 1)));
    }
  }

  lemma FiledKeys(blocks: map<nat, nat>, lists: seq<seq<nat>>, live: set<nat>)
    requires Filed(blocks, lists, live) && WellSized(blocks)
    ensures FiledFrom(lists, 0) == blocks.Keys - live
  {
    FiledFromIs(lists, 0);
    forall a | a in blocks && a !in live
      ensures a in FiledFrom(lists, 0)
    {
      var j := blocks[a] / ALIGN - 1;
      assert blocks[a] == ALIGN * (j + 1) && a in lists[j];
    }
  }

  lemma LiveAndFiled(blocks: map<nat, nat>, lists: seq<seq<nat>>, live: set<nat>)
    requires Filed(blocks, lists, live) && WellSized(blocks)
    ensures var used, free := Only(blocks, live), Only(blocks, FiledFrom(lists, 0));
            used.Keys !! free.Keys && blocks == used + free
  {
    FiledKeys(blocks, lists, live);
    hide FiledFrom, Filed;
  }

  /** The sizes of all blocks are those of the live ones plus what the sixteen lists hold. */
  lemma BlocksAreLiveOrFiled(blocks: map<nat, nat>, lists: seq<seq<nat>>, live: set<nat>)
    requires Filed(blocks, lists, live) && WellSized(blocks)
    ensures Sum(blocks) == Sum(Only(blocks, live)) + FreeBytes(lists, 0)
  {
    assert |lists| == FREE_LISTS;
    hide Sum, Only, Filed, FiledFrom, WellSized;
    SumOfLists(blocks, lists, live, 0);
    LiveAndFiled(blocks, lists, live);
    SumUnion(Only(blocks, live), Only(blocks, FiledFrom(lists, 0)));
  }
}
