/**
 The allocator object of src/allocator/fixed_size_block.rs: one free list per size class over a fallback
 heap, with `alloc`, `dealloc` and `realloc`.
 */
module FixedSizeBlock {
  import opened Wrappers
  import opened ByteMemory
  import opened FreeList
  import opened SizeClass

  /** The layout asked of the fallback heap. */
  function FallbackLayout(l: Layout): Layout {
    var k := ListIndex(l);
    if k.Some? then Layout(BLOCK_SIZES[k.value], BLOCK_SIZES[k.value]) else l
  }

  /** What `allocate_first_fit` promises of the address it returns. */
  predicate Promise(blocks: seq<Block>, l: Layout, ptr: nat, lo: nat, hi: nat) {
    && 0 < lo <= ptr && ptr + l.size <= hi && l.align > 0 && ptr % l.align == 0
    && forall i :: 0 <= i < |blocks| ==> BlockApart(blocks[i], Block(ptr, l.size, InList(0)))
  }

  lemma PromiseIsFresh(blocks: seq<Block>, l: Layout, ptr: nat, lo: nat, hi: nat)
    requires LayoutOk(l) && Promise(blocks, FallbackLayout(l), ptr, lo, hi)
    ensures FreshAt(blocks, Block(ptr, Extent(l), Live(l)), lo, hi) && Extent(l) >= l.size
  {
    var k := ListIndex(l);
    if k.Some? { ClassServes(Block(ptr, Extent(l), Live(l)), l, k.value, lo, hi); }
    forall i | 0 <= i < |blocks| ensures BlockApart(blocks[i], Block(ptr, Extent(l), Live(l))) {
      assert BlockApart(blocks[i], Block(ptr, FallbackLayout(l).size, InList(0)));
    }
  }

  /** Block `x` was not live and now serves `layout`; every other block is as before. */
  ghost predicate Obtained(before: seq<Block>, after: seq<Block>, x: nat, layout: Layout) {
    && x < |after| && |before| <= |after| <= |before| + 1
    && (x < |before| ==> before[x].use.InList?)
    && (forall i :: 0 <= i < |before| && i != x ==> after[i] == before[i])
    && after[x].use == Live(layout) && after[x].size >= layout.size && layout.align > 0 && after[x].start % layout.align == 0
  }

  /** Some block of the class is free. */
  ghost predicate HasFree(blocks: seq<Block>, k: Option<nat>) {
    k.Some? && exists i :: 0 <= i < |blocks| && blocks[i].use == InList(k.value)
  }

  lemma HeadMeansFree(mem: Memory, heads: seq<nat>, blocks: seq<Block>, lists: seq<seq<nat>>, k: nat, lo: nat, hi: nat)
    requires BlocksOk(blocks, lo, hi) && ListsOk(mem, heads, blocks, lists) && k < |BLOCK_SIZES|
    ensures k < |heads| && (heads[k] != 0 <==> HasFree(blocks, Some(k)))
  {
    HeadOrEmpty(mem, heads, blocks, lists, k, lo, hi);
    assert ListOk(blocks, lists[k], k);
    if lists[k] != [] { assert blocks[lists[k][0]].use == InList(k); }
  }

  lemma NoClass(blocks: seq<Block>)
    ensures !HasFree(blocks, None)
  {
  }

  lemma PoppedIsObtained(blocks: seq<Block>, x: nat, layout: Layout, lo: nat, hi: nat)
    requires x < |blocks| && blocks[x].use.InList? && BlocksOk(SetUse(blocks, x, Live(layout)), lo, hi)
    ensures Obtained(blocks, SetUse(blocks, x, Live(layout)), x, layout)
  {
    assert BlockOk(SetUse(blocks, x, Live(layout))[x], lo, hi);
  }

  lemma NewIsObtained(blocks: seq<Block>, b: Block, layout: Layout, lo: nat, hi: nat)
    requires BlockOk(b, lo, hi) && b.use == Live(layout) && b.size >= layout.size
    ensures Obtained(blocks, blocks + [b], |blocks|, layout)
  {
  }

  /** A head is null exactly when its list is empty. */
  lemma HeadOrEmpty(mem: Memory, heads: seq<nat>, blocks: seq<Block>, lists: seq<seq<nat>>, k: nat, lo: nat, hi: nat)
    requires BlocksOk(blocks, lo, hi) && ListsOk(mem, heads, blocks, lists) && k < |BLOCK_SIZES|
    ensures k < |heads| && k < |lists| && (heads[k] == 0 <==> lists[k] == [])
    ensures lists[k] != [] ==> lists[k][0] < |blocks| && blocks[lists[k][0]].use.InList?
  {
    assert ListOk(blocks, lists[k], k) && ChainOk(mem, heads[k], blocks, lists[k]);
    if lists[k] != [] { assert BlockOk(blocks[lists[k][0]], lo, hi); }
  }

  lemma ListsSized(mem: Memory, heads: seq<nat>, blocks: seq<Block>, lists: seq<seq<nat>>)
    requires ListsOk(mem, heads, blocks, lists)
    ensures |heads| == |lists| == |BLOCK_SIZES|
  {
  }

  lemma SameKept(mem: Memory, blocks: seq<Block>, x: int)
    ensures KeptBut(mem, mem, blocks, x)
  {
  }

  lemma KeptTwice(a: Memory, b: Memory, c: Memory, blocks: seq<Block>, x: int)
    requires KeptBut(a, b, blocks, x) && KeptBut(b, c, blocks, x)
    ensures KeptBut(a, c, blocks, x)
  {
    forall i | 0 <= i < |blocks| && i != x && !blocks[i].use.Gone? ensures KeptBlock(a, c, blocks[i]) {
      assert KeptBlock(a, b, blocks[i]) && KeptBlock(b, c, blocks[i]);
    }
  }

  lemma SourceKept(a: Memory, b: Memory, blocks: seq<Block>, x: nat, y: nat, addr: nat)
    requires KeptBut(a, b, blocks, y) && x < |blocks| && x != y && blocks[x].use.Live? && blocks[x].start <= addr < blocks[x].End()
    ensures Get(b, addr) == Get(a, addr)
  {
    assert KeptBlock(a, b, blocks[x]);
  }

  function Byte(mem: Memory, base: nat, off: nat): nat {
    Get(mem, base + off)
  }

  /** The `n` bytes at `dst` are those that were at `src`. */
  ghost predicate Copied(mem: Memory, dst: nat, was: Memory, src: nat, n: nat) {
    forall b: nat :: b < n ==> Byte(mem, dst, b) == Byte(was, src, b)
  }

  lemma CopiedNone(mem: Memory, dst: nat, was: Memory, src: nat)
    ensures Copied(mem, dst, was, src, 0) && SameBelow(mem, mem, dst)
  {
  }

  /** Bytes below `start` are those of `was`. */
  ghost predicate SameBelow(mem: Memory, was: Memory, start: nat) {
    forall b: nat :: b < start ==> Get(mem, b) == Get(was, b)
  }

  lemma CopiedMore(was: Memory, mem: Memory, dst: nat, src: nat, i: nat)
    requires Copied(mem, dst, was, src, i) && SameBelow(mem, was, dst)
    ensures Copied(mem[dst + i := Get(was, src + i)], dst, was, src, i + 1) && SameBelow(mem[dst + i := Get(was, src + i)], was, dst)
  {
    var mem' := mem[dst + i := Get(was, src + i)];
    forall b: nat | b < i + 1 ensures Byte(mem', dst, b) == Byte(was, src, b) {
      assert b < i ==> Byte(mem, dst, b) == Byte(was, src, b);
    }
  }

  lemma LiveHolds(blocks: seq<Block>, x: nat, lo: nat, hi: nat)
    requires BlocksOk(blocks, lo, hi) && x < |blocks| && blocks[x].use.Live?
    ensures blocks[x].size >= blocks[x].use.layout.size && blocks[x].start > 0
  {
    assert BlockOk(blocks[x], lo, hi);
  }

  /** A write into a live block leaves every list intact. */
  lemma WriteKept(mem: Memory, heads: seq<nat>, blocks: seq<Block>, lists: seq<seq<nat>>, x: nat, a: nat, v: nat, lo: nat, hi: nat)
    requires BlocksOk(blocks, lo, hi) && ListsOk(mem, heads, blocks, lists)
    requires x < |blocks| && blocks[x].use.Live? && blocks[x].start <= a < blocks[x].End()
    ensures ListsOk(mem[a := v], heads, blocks, lists) && KeptBut(mem, mem[a := v], blocks, x)
  {
    forall i | 0 <= i < |blocks| && i != x && !blocks[i].use.Gone? ensures KeptBlock(mem, mem[a := v], blocks[i]) {
      assert BlockApart(blocks[i], blocks[x]);
    }
    LiveWrite(mem, mem[a := v], heads, blocks, lists, x, lo, hi);
  }

  /** No list passes through a live block. */
  lemma LiveWrite(mem: Memory, mem': Memory, heads: seq<nat>, blocks: seq<Block>, lists: seq<seq<nat>>, x: nat, lo: nat, hi: nat)
    requires BlocksOk(blocks, lo, hi) && ListsOk(mem, heads, blocks, lists)
    requires x < |blocks| && blocks[x].use.Live? && KeptBut(mem, mem', blocks, x)
    ensures ListsOk(mem', heads, blocks, lists)
  {
    hide Load;
    forall j | 0 <= j < |lists| ensures ChainOk(mem', heads[j], blocks, lists[j]) {
      assert ListOk(blocks, lists[j], j) && ChainOk(mem, heads[j], blocks, lists[j]);
      ChainKept(mem, mem', heads[j], blocks, blocks, lists[j], j, x, lo, hi);
    }
  }

  /** Allocate, copy, free: the copied bytes and every other live block come through. */
  lemma Relocated(mem0: Memory, mem1: Memory, mem2: Memory, mem3: Memory, blocks0: seq<Block>, blocks1: seq<Block>,
                  x: nat, y: nat, src: nat, dst: nat, n: nat)
    requires x < |blocks0| <= |blocks1| && y < |blocks1| && x != y && blocks0[x].use.Live? && blocks1[y].use.Live?
    requires (y < |blocks0| ==> blocks0[y].use.InList?) && forall i :: 0 <= i < |blocks0| && i != y ==> blocks1[i] == blocks0[i]
    requires KeptBut(mem0, mem1, blocks0, y) && KeptBut(mem1, mem2, blocks1, y) && KeptBut(mem2, mem3, blocks1, x)
    requires blocks0[x].start <= src && src + n <= blocks0[x].End() && blocks1[y].start <= dst && dst + n <= blocks1[y].End()
    requires Copied(mem2, dst, mem1, src, n)
    ensures Copied(mem3, dst, mem0, src, n)
    ensures forall i :: 0 <= i < |blocks0| && blocks0[i].use.Live? && i != x ==> KeptBlock(mem0, mem3, blocks0[i])
  {
    forall b: nat | b < n ensures Byte(mem3, dst, b) == Byte(mem0, src, b) {
      assert Byte(mem2, dst, b) == Byte(mem1, src, b);
      assert KeptBlock(mem2, mem3, blocks1[y]) && KeptBlock(mem0, mem1, blocks0[x]);
    }
    forall i | 0 <= i < |blocks0| && blocks0[i].use.Live? && i != x ensures KeptBlock(mem0, mem3, blocks0[i]) {
      assert KeptBlock(mem0, mem1, blocks0[i]) && KeptBlock(mem1, mem2, blocks1[i]) && KeptBlock(mem2, mem3, blocks1[i]);
    }
  }

  class FixedSizeBlockAllocator {
    var mem: Memory
    var heads: seq<nat>                 // list_heads, 0 for None
    ghost const lo: nat
    ghost const hi: nat
    ghost var blocks: seq<Block>        // every block obtained from the fallback heap
    ghost var lists: seq<seq<nat>>      // the blocks of each free list, in order

    ghost predicate Valid()
      reads this
    {
      BlocksOk(blocks, lo, hi) && ListsOk(mem, heads, blocks, lists)
    }

    constructor (start: nat, size: nat, contents: Memory)
      requires 0 < start && start + size <= ISIZE_MAX + 1
      ensures Valid() && blocks == [] && lo == start && hi == start + size
    {
      mem, heads := contents, seq(|BLOCK_SIZES|, _ => 0);
      lo, hi, blocks, lists := start, start + size, [], seq(|BLOCK_SIZES|, _ => []);
    }

    /** The fallback heap keeps its own books in memory that no block covers. */
    method FallbackWrites(scratch: Memory)
      requires Valid() && KeptBut(mem, scratch, blocks, -1)
      modifies `mem
      ensures Valid() && mem == scratch
    {
      hide Load;
      forall j | 0 <= j < |lists| ensures ChainOk(scratch, heads[j], blocks, lists[j]) {
        assert ListOk(blocks, lists[j], j) && ChainOk(mem, heads[j], blocks, lists[j]);
        ChainKept(mem, scratch, heads[j], blocks, blocks, lists[j], j, -1, lo, hi);
      }
      mem := scratch;
    }

    /** A block that was not live, of sufficient size and alignment, or null; `fb` is the fallback's answer if it is asked. */
    method Alloc(layout: Layout, fb: Option<nat>) returns (p: nat, ghost x: nat)
      requires Valid() && LayoutOk(layout)
      requires fb.Some? ==> Promise(blocks, FallbackLayout(layout), fb.value, lo, hi)
      modifies this
      ensures Valid()
      ensures p == 0 ==> mem == old(mem) && blocks == old(blocks)
      ensures p != 0 ==> Obtained(old(blocks), blocks, x, layout) && blocks[x].start == p && KeptBut(old(mem), mem, old(blocks), x)
      ensures p == 0 <==> fb.None? && !HasFree(old(blocks), ListIndex(layout))
      ensures |old(heads)| == 9
      ensures ListIndex(layout).Some? && old(heads)[ListIndex(layout).value] != 0 ==> p == old(heads)[ListIndex(layout).value]
      ensures ListIndex(layout).None? || old(heads)[ListIndex(layout).value] == 0 ==> p == if fb.Some? then fb.value else 0
    {
      hide Load, Store, Extent, FallbackLayout, BlocksOk, ListsOk, KeptBut, HasFree;
      assert fb.Some? ==> fb.value > 0;
      NoClass(blocks);
      var index := ListIndex(layout);
      x := 0;
      ListsSized(mem, heads, blocks, lists);
      if index.Some? {
        var k := index.value;
        HeadOrEmpty(mem, heads, blocks, lists, k, lo, hi);
        HeadMeansFree(mem, heads, blocks, lists, k, lo, hi);
        if heads[k] != 0 {
          PopList(mem, heads, blocks, lists, k, layout, lo, hi);
          x := lists[k][0];
          p := heads[k];
          var next := Load8(mem, p);
          mem := Store8(mem, p, 0);
          heads := heads[k := next];
          PoppedIsObtained(blocks, x, layout, lo, hi);
          blocks := SetUse(blocks, x, Live(layout));
          lists := lists[k := lists[k][1..]];
          return;
        }
      }
      if fb.None? { return 0, 0; }
      p := fb.value;
      PromiseIsFresh(blocks, layout, p, lo, hi);
      SameKept(mem, blocks, |blocks|);
      SameKept(mem, blocks, -1);
      NewBlock(mem, mem, heads, blocks, lists, Block(p, Extent(layout), Live(layout)), lo, hi);
      x := |blocks|;
      NewIsObtained(blocks, Block(p, Extent(layout), Live(layout)), layout, lo, hi);
      blocks := blocks + [Block(p, Extent(layout), Live(layout))];
    }

    /** Returns live block `x` with the layout it was allocated with; no other block changes. */
    method Dealloc(ptr: nat, layout: Layout, ghost x: nat)
      requires Valid() && x < |blocks| && blocks[x].start == ptr && blocks[x].use == Live(layout)
      modifies this
      ensures Valid() && KeptBut(old(mem), mem, old(blocks), x)
      ensures blocks == SetUse(old(blocks), x, if ListIndex(layout).Some? then InList(ListIndex(layout).value) else Gone)
      ensures |heads| == |BLOCK_SIZES| && (ListIndex(layout).Some? ==> heads[ListIndex(layout).value] == ptr)
    {
      hide Load, Store, BlocksOk, ListsOk, KeptBut;
      var index := ListIndex(layout);
      if index.Some? {
        var k := index.value;
        ListsSized(mem, heads, blocks, lists);
        PushList(mem, heads, blocks, lists, k, x, lo, hi);
        mem := Store8(mem, ptr, heads[k]);
        heads := heads[k := ptr];
        blocks := SetUse(blocks, x, InList(k));
        lists := lists[k := [x] + lists[k]];
      } else {
        SameKept(mem, blocks, x);
        ListsSized(mem, heads, blocks, lists);
        DropBlock(mem, mem, heads, blocks, lists, x, lo, hi);
        blocks := SetUse(blocks, x, Gone);
      }
    }

    /** Writing inside live block `x`. */
    method Write(a: nat, v: nat, ghost x: nat)
      requires Valid() && x < |blocks| && blocks[x].use.Live? && blocks[x].start <= a < blocks[x].End()
      modifies `mem
      ensures Valid() && mem == old(mem)[a := v] && KeptBut(old(mem), mem, blocks, x)
    {
      WriteKept(mem, heads, blocks, lists, x, a, v, lo, hi);
      mem := mem[a := v];
    }

    /** A word store at the start of live block `x`. */
    method WriteWord(v: nat, ptr: nat, ghost x: nat)
      requires Valid() && x < |blocks| && blocks[x].use.Live? && blocks[x].start == ptr && blocks[x].size >= 8 && v < Pow256(8)
      modifies `mem
      ensures Valid() && KeptBut(old(mem), mem, blocks, x) && Load8(mem, ptr) == v
    {
      hide Load, Store, Pow256, KeptBut, BlocksOk, ListsOk;
      WordOfBlock(mem, blocks, x, v, lo, hi);
      LiveWrite(mem, Store8(mem, ptr, v), heads, blocks, lists, x, lo, hi);
      mem := Store8(mem, ptr, v);
    }

    /** `copy_nonoverlapping` of `n` bytes from block `x` to block `y`. */
    method Copy(src: nat, dst: nat, n: nat, ghost x: nat, ghost y: nat)
      requires Valid() && x < |blocks| && y < |blocks| && x != y && blocks[x].use.Live? && blocks[y].use.Live?
      requires blocks[x].start <= src && src + n <= blocks[x].End() && blocks[y].start <= dst && dst + n <= blocks[y].End()
      modifies `mem
      ensures Valid() && KeptBut(old(mem), mem, blocks, y)
      ensures Copied(mem, dst, old(mem), src, n) && SameBelow(mem, old(mem), dst)
    {
      hide BlocksOk, ListsOk, KeptBut, Copied;
      var i := 0;
      CopiedNone(mem, dst, mem, src);
      hide SameBelow;
      SameKept(mem, blocks, y);
      while i < n
        invariant i <= n && Valid() && KeptBut(old(mem), mem, blocks, y)
        invariant Copied(mem, dst, old(mem), src, i) && SameBelow(mem, old(mem), dst)
      {
        SourceKept(old(mem), mem, blocks, x, y, src + i);
        var v := Get(mem, src + i);
        ghost var before := mem;
        Write(dst + i, v, y);
        KeptTwice(old(mem), before, mem, blocks, y);
        CopiedMore(old(mem), before, dst, src, i);
        i := i + 1;
      }
    }

    /** What is freed is what the next allocation of its class gets. */
    method Reuse(ptr: nat, layout: Layout, next: Layout, fb: Option<nat>, ghost x: nat) returns (p: nat)
      requires Valid() && x < |blocks| && blocks[x].start == ptr && blocks[x].use == Live(layout) && LayoutOk(next)
      requires ListIndex(layout).Some? && ListIndex(next) == ListIndex(layout)
      requires fb.Some? ==> Promise(SetUse(blocks, x, InList(ListIndex(layout).value)), FallbackLayout(next), fb.value, lo, hi)
      modifies this
      ensures Valid() && p == ptr
    {
      hide BlocksOk, ListsOk, Promise, FallbackLayout, LayoutOk, ListIndex;
      LiveHolds(blocks, x, lo, hi);
      Dealloc(ptr, layout, x);
      ghost var y;
      p, y := Alloc(next, fb);
    }

    /** Keeps the first `min(old, new)` bytes in the new block, or leaves everything as it was. */
    method Realloc(ptr: nat, layout: Layout, newSize: nat, fb: Option<nat>, ghost x: nat) returns (p: nat, ghost y: nat)
      requires Valid() && LayoutOk(layout) && x < |blocks| && blocks[x].start == ptr && blocks[x].use == Live(layout)
      requires fb.Some? ==> Promise(blocks, FallbackLayout(Layout(newSize, layout.align)), fb.value, lo, hi)
      modifies this
      ensures Valid()
      ensures p == 0 ==> mem == old(mem) && blocks == old(blocks)
      ensures newSize + layout.align > 0x8000_0000_0000_0000 ==> p == 0
      ensures newSize + layout.align <= 0x8000_0000_0000_0000 ==>
        (p == 0 <==> fb.None? && !HasFree(old(blocks), ListIndex(Layout(newSize, layout.align))))
      ensures p != 0 ==>
        && y < |blocks| && y != x && blocks[y].start == p && blocks[y].use == Live(Layout(newSize, layout.align))
        && Copied(mem, p, old(mem), ptr, if layout.size < newSize then layout.size else newSize)
        && (forall i :: 0 <= i < |old(blocks)| && old(blocks)[i].use.Live? && i != x ==>
              i < |blocks| && blocks[i] == old(blocks)[i] && KeptBlock(old(mem), mem, blocks[i]))
    {
      p, y := 0, 0;
      if newSize + layout.align - 1 > ISIZE_MAX { return; }
      ghost var blocks0 := blocks;
      ghost var mem0 := mem;
      LiveHolds(blocks, x, lo, hi);
      p, y := Alloc(Layout(newSize, layout.align), fb);
      if p == 0 { return; }
      hide BlocksOk, ListsOk, Load, Store, Extent;
      ghost var mem1 := mem;
      var n := if layout.size < newSize then layout.size else newSize;
      Copy(ptr, p, n, x, y);
      ghost var mem2 := mem;
      ghost var blocks1 := blocks;
      Dealloc(ptr, layout, x);
      Relocated(mem0, mem1, mem2, mem, blocks0, blocks1, x, y, ptr, p, n);
    }
  }
}
