/**
 The C heap of src/ffi/stubs.c over the size-class allocator: every block starts with a 16-byte header
 whose first word is the requested size, and `size_t` arithmetic wraps.
 */
module CHeap {
  import opened Wrappers
  import opened Alignment
  import opened ByteMemory
  import opened FreeList
  import opened SizeClass
  import opened FixedSizeBlock

  const HDR: nat := 16                            // MALLOC_HDR
  const WORD: nat := 0x1_0000_0000_0000_0000      // size_t is taken modulo this

  /** `Overrun` stands for a copy that would leave its block, which C leaves undefined. */
  datatype Answer = Panicked | Null | Overrun | Ptr(addr: nat)

  function Requested(size: nat): nat { if size == 0 then 1 else size }

  /** The layout `malloc` asks for and `free` hands back. */
  function HeaderLayout(size: nat): Layout { Layout((size + HDR) % WORD, HDR) }

  /** What is asked of the allocator for `size` bytes, header included, as `size_t`. */
  function Total(size: nat): nat { if size == 0 then 17 else (size + 16) % 0x1_0000_0000_0000_0000 }

  /** The block of `size` requested bytes at `ptr` heads the list of its class, or has gone back to the fallback heap. */
  ghost predicate Returned(heads: seq<nat>, use: Use, size: nat, ptr: nat) {
    var k := ListIndex(Layout(Total(size), 16));
    if k.Some? then use == InList(k.value) && |heads| == 9 && heads[k.value] + 16 == ptr else use == Gone
  }

  /** `addr` is 16 past the head of the class's list, or past the fallback's answer if that list is empty. */
  ghost predicate Chosen(heads: seq<nat>, size: nat, fb: Option<nat>, addr: nat) {
    var k := ListIndex(Layout(Total(size), 16));
    if k.Some? && |heads| == 9 && heads[k.value] != 0 then addr == heads[k.value] + 16 else fb.Some? && addr == fb.value + 16
  }

  /** Every C allocation is live with the layout its header names. */
  ghost predicate HeadersOk(mem: Memory, blocks: seq<Block>, user: map<nat, nat>) {
    forall x :: x in user ==>
      x < |blocks| && user[x] < WORD && blocks[x].use == Live(HeaderLayout(user[x])) && Load8(mem, blocks[x].start) == user[x]
  }

  /** `before` and `after` agree on every C allocation but `x`. */
  ghost predicate UserKept(mem: Memory, mem': Memory, before: seq<Block>, after: seq<Block>, user: map<nat, nat>, x: nat) {
    forall i :: i in user && i != x && i < |before| ==> i < |after| && after[i] == before[i] && KeptBlock(mem, mem', before[i])
  }

  lemma HeaderIs(size: nat)
    requires 0 < size < WORD
    ensures HeaderLayout(size) == Layout(Total(size), 16)
  {
  }

  lemma LayoutFits(size: nat)
    requires size < WORD
    ensures LayoutOk(HeaderLayout(size)) <==> (size + HDR) % WORD + HDR - 1 <= ISIZE_MAX
  {
    assert IsPow2(16) by { ClassIsPow2(1); }
  }

  /** A header block starts at a multiple of 16, has room for the header, and holds `size` bytes exactly when the sum did not wrap. */
  lemma HeaderBlock(b: Block, size: nat, lo: nat, hi: nat)
    requires BlockOk(b, lo, hi) && b.use == Live(HeaderLayout(size)) && 0 < size < WORD
    ensures b.start % HDR == 0 && b.size >= HDR && (HDR + size <= b.size <==> size + HDR < WORD)
    ensures size + HDR >= WORD ==> b.size == HDR
  {
    hide ListIndex, BLOCK_SIZES;
    Wrapped(size);
    ExtentBounds(HeaderLayout(size));
  }

  lemma Wrapped(size: nat)
    requires size < WORD
    ensures (size + HDR) % WORD == if size + HDR < WORD then size + HDR else size + HDR - WORD
  {
  }

  /** A block of alignment 16 is at least 16 bytes and at least what was asked; exactly 16 when no more was asked. */
  lemma ExtentBounds(l: Layout)
    requires l.align == HDR
    ensures Extent(l) >= HDR && Extent(l) >= l.size && (l.size <= HDR ==> Extent(l) == HDR)
  {
  }

  lemma LiveOk(blocks: seq<Block>, x: nat, size: nat, lo: nat, hi: nat)
    requires BlocksOk(blocks, lo, hi) && x < |blocks| && blocks[x].use == Live(HeaderLayout(size)) && 0 < size < WORD
    ensures var b := blocks[x]; b.start % HDR == 0 && b.size >= HDR && (HDR + size <= b.size <==> size + HDR < WORD)
    ensures size + HDR >= WORD ==> blocks[x].size == HDR
  {
    assert BlockOk(blocks[x], lo, hi);
    HeaderBlock(blocks[x], size, lo, hi);
  }

  lemma WordWidth()
    ensures Pow256(8) == WORD
  {
    assert Pow256(4) == 0x1_0000_0000;
  }

  lemma HeaderKept(mem: Memory, mem': Memory, b: Block)
    requires KeptBlock(mem, mem', b) && b.size >= 8
    ensures Load8(mem', b.start) == Load8(mem, b.start)
  {
    LoadSame(mem, mem', b.start, 8);
  }

  /** The headers of the other allocations survive whatever keeps their blocks. */
  lemma HeadersKept(mem: Memory, mem': Memory, before: seq<Block>, after: seq<Block>, user: map<nat, nat>, x: nat, lo: nat, hi: nat)
    requires BlocksOk(before, lo, hi) && HeadersOk(mem, before, user) && UserKept(mem, mem', before, after, user, x)
    requires forall i :: i in user ==> 0 < user[i]
    ensures HeadersOk(mem', after, user - {x})
  {
    hide Load;
    forall i | i in user && i != x
      ensures i < |after| && after[i] == before[i] && Load8(mem', before[i].start) == user[i]
    {
      assert BlockOk(before[i], lo, hi);
      HeaderBlock(before[i], user[i], lo, hi);
      HeaderKept(mem, mem', before[i]);
    }
  }

  /** Allocating block `x` and writing its header. */
  lemma HeaderAdded(mem: Memory, mem1: Memory, mem': Memory, before: seq<Block>, after: seq<Block>, user: map<nat, nat>,
                    x: nat, size: nat, lo: nat, hi: nat)
    requires BlocksOk(before, lo, hi) && HeadersOk(mem, before, user) && (forall i :: i in user ==> 0 < user[i])
    requires 0 < size < WORD && Obtained(before, after, x, HeaderLayout(size)) && Load8(mem', after[x].start) == size
    requires KeptBut(mem, mem1, before, x) && KeptBut(mem1, mem', after, x)
    ensures x !in user && HeadersOk(mem', after, user[x := size]) && UserKept(mem, mem', before, after, user, x)
  {
    hide Load, BlocksOk;
    forall i | i in user
      ensures i != x && after[i] == before[i] && KeptBlock(mem, mem', before[i])
    {
      assert before[i].use.Live?;
      assert KeptBlock(mem, mem1, before[i]) && KeptBlock(mem1, mem', after[i]);
    }
    HeadersKept(mem, mem', before, after, user, x, lo, hi);
    assert user - {x} == user;
  }

  /** Returning block `x`. */
  lemma HeaderRemoved(mem: Memory, mem': Memory, before: seq<Block>, user: map<nat, nat>, x: nat, u: Use, lo: nat, hi: nat)
    requires BlocksOk(before, lo, hi) && HeadersOk(mem, before, user) && (forall i :: i in user ==> 0 < user[i])
    requires x < |before| && KeptBut(mem, mem', before, x)
    ensures UserKept(mem, mem', before, SetUse(before, x, u), user, x) && HeadersOk(mem', SetUse(before, x, u), user - {x})
  {
    hide Load, BlocksOk;
    forall i | i in user && i != x ensures KeptBlock(mem, mem', before[i]) {
      assert before[i].use.Live?;
    }
    HeadersKept(mem, mem', before, SetUse(before, x, u), user, x, lo, hi);
  }

  lemma OldKept(mem: Memory, mem1: Memory, before: seq<Block>, after: seq<Block>, user: map<nat, nat>, x: nat, y: nat)
    requires UserKept(mem, mem1, before, after, user, y) && x in user && x < |before| && y !in user
    ensures x < |after| && after[x] == before[x] && KeptBlock(mem, mem1, before[x])
  {
  }

  lemma OthersKept(mem: Memory, mem': Memory, blocks: seq<Block>, user: map<nat, nat>, x: nat)
    requires HeadersOk(mem, blocks, user) && KeptBut(mem, mem', blocks, x)
    ensures UserKept(mem, mem', blocks, blocks, user, x)
  {
    forall i | i in user && i != x ensures KeptBlock(mem, mem', blocks[i]) {
      assert blocks[i].use.Live?;
    }
  }

  lemma FallbackKeeps(mem: Memory, mem': Memory, blocks: seq<Block>, user: map<nat, nat>, lo: nat, hi: nat)
    requires BlocksOk(blocks, lo, hi) && HeadersOk(mem, blocks, user) && (forall i :: i in user ==> 0 < user[i])
    requires KeptBut(mem, mem', blocks, -1)
    ensures HeadersOk(mem', blocks, user)
  {
    hide Load, BlocksOk;
    forall i | i in user ensures KeptBlock(mem, mem', blocks[i]) {
      assert blocks[i].use.Live?;
    }
    HeadersKept(mem, mem', blocks, blocks, user, |blocks|, lo, hi);
    assert user - {|blocks|} == user;
  }

  lemma HeaderAt(mem: Memory, blocks: seq<Block>, user: map<nat, nat>, x: nat)
    requires HeadersOk(mem, blocks, user) && x in user
    ensures x < |blocks| && user[x] < WORD && blocks[x].use == Live(HeaderLayout(user[x])) && Load8(mem, blocks[x].start) == user[x]
  {
  }

  lemma UsersLive(mem: Memory, blocks: seq<Block>, user: map<nat, nat>)
    requires HeadersOk(mem, blocks, user)
    ensures forall i :: i in user ==> i < |blocks| && blocks[i].use.Live?
  {
  }

  /** Copying into block `y` above its header disturbs no header. */
  lemma HeaderStays(mem: Memory, mem': Memory, blocks: seq<Block>, user: map<nat, nat>, y: nat, dst: nat, lo: nat, hi: nat)
    requires BlocksOk(blocks, lo, hi) && HeadersOk(mem, blocks, user) && (forall i :: i in user ==> 0 < user[i])
    requires y in user && KeptBut(mem, mem', blocks, y) && SameBelow(mem', mem, dst) && blocks[y].start + HDR <= dst
    ensures HeadersOk(mem', blocks, user)
  {
    hide Load, BlocksOk;
    forall i | i in user && i != y ensures KeptBlock(mem, mem', blocks[i]) {
      assert blocks[i].use.Live?;
    }
    HeadersKept(mem, mem', blocks, blocks, user, y, lo, hi);
    LoadSame(mem, mem', blocks[y].start, 8);
    assert Load8(mem', blocks[y].start) == user[y];
    forall i | i in user
      ensures i < |blocks| && user[i] < WORD && blocks[i].use == Live(HeaderLayout(user[i])) && Load8(mem', blocks[i].start) == user[i]
    {
      assert i != y ==> i in user - {y} && (user - {y})[i] == user[i];
    }
  }

  /** Allocate, copy, free: the copied bytes and every other allocation come through. */
  lemma Moved(mem0: Memory, mem1: Memory, mem2: Memory, mem3: Memory, blocks0: seq<Block>, blocks1: seq<Block>, blocks2: seq<Block>,
              user: map<nat, nat>, size: nat, x: nat, y: nat, src: nat, dst: nat, n: nat)
    requires |blocks0| <= |blocks1| && (forall i :: i in user ==> i < |blocks0| && blocks0[i].use.Live?)
    requires x in user && y !in user && y < |blocks1| && UserKept(mem0, mem1, blocks0, blocks1, user, y)
    requires KeptBut(mem1, mem2, blocks1, y) && UserKept(mem2, mem3, blocks1, blocks2, user[y := size], x)
    requires blocks0[x].start <= src && src + n <= blocks0[x].End() && blocks1[y].start <= dst && dst + n <= blocks1[y].End()
    requires Copied(mem2, dst, mem1, src, n)
    ensures Copied(mem3, dst, mem0, src, n) && UserKept(mem0, mem3, blocks0, blocks2, user, x)
    ensures y < |blocks2| && blocks2[y] == blocks1[y]
  {
    assert y in user[y := size];
    assert KeptBlock(mem2, mem3, blocks1[y]) && KeptBlock(mem0, mem1, blocks0[x]);
    forall b: nat | b < n ensures Byte(mem3, dst, b) == Byte(mem0, src, b) {
      assert Byte(mem2, dst, b) == Byte(mem1, src, b);
    }
    forall i | i in user && i != x ensures i < |blocks2| && blocks2[i] == blocks0[i] && KeptBlock(mem0, mem3, blocks0[i]) {
      assert i in user[y := size] && blocks1[i] == blocks0[i];
      assert KeptBlock(mem0, mem1, blocks0[i]) && KeptBlock(mem1, mem2, blocks1[i]) && KeptBlock(mem2, mem3, blocks1[i]);
    }
  }

  class Malloc {
    const a: FixedSizeBlockAllocator
    ghost var user: map<nat, nat>       // block index of each C allocation, and the size in its header

    ghost predicate Valid()
      reads this, a
    {
      a.Valid() && HeadersOk(a.mem, a.blocks, user) && forall i :: i in user ==> 0 < user[i]
    }

    constructor (alloc: FixedSizeBlockAllocator)
      requires alloc.Valid()
      ensures Valid() && a == alloc && user == map[]
    {
      a, user := alloc, map[];
    }

    /** The address is 16-aligned, belongs to no other allocation, and has room for `size` bytes exactly when `size + 16` does not wrap. */
    method Alloc(size: nat, fb: Option<nat>) returns (r: Answer, ghost x: nat)
      requires Valid() && size < WORD
      requires fb.Some? ==> Promise(a.blocks, FallbackLayout(HeaderLayout(Requested(size))), fb.value, a.lo, a.hi)
      modifies this, a
      ensures Valid()
      ensures !r.Overrun?
      ensures r.Panicked? <==> Total(size) > 0x7FFF_FFFF_FFFF_FFF0
      ensures !r.Panicked? ==>
        && |old(a.heads)| == 9 && (r.Null? <==> fb.None? && !HasFree(old(a.blocks), ListIndex(Layout(Total(size), 16))))
        && (r.Ptr? ==> Chosen(old(a.heads), size, fb, r.addr))
      ensures !r.Ptr? ==> a.mem == old(a.mem) && a.blocks == old(a.blocks) && user == old(user)
      ensures r.Ptr? ==>
        && x !in old(user) && user == old(user)[x := if size == 0 then 1 else size] && x < |a.blocks| && r.addr == a.blocks[x].start + HDR
        && r.addr % HDR == 0 && (r.addr + Requested(size) <= a.blocks[x].End() <==> Requested(size) + HDR < WORD)
        && |old(a.blocks)| <= |a.blocks| && UserKept(old(a.mem), a.mem, old(a.blocks), a.blocks, old(user), x)
    {
      hide Load, BlocksOk, ListsOk, KeptBut, HeadersOk, UserKept, Pow256, ListIndex, HasFree;
      x := 0;
      var n := Requested(size);
      LayoutFits(n);
      assert HeaderLayout(n) == Layout(Total(size), 16);
      if (n + HDR) % WORD + HDR - 1 > ISIZE_MAX { return Panicked, 0; }
      ghost var mem0, blocks0 := a.mem, a.blocks;
      var raw;
      raw, x := a.Alloc(HeaderLayout(n), fb);
      if raw == 0 { return Null, x; }
      ghost var mem1 := a.mem;
      LiveOk(a.blocks, x, n, a.lo, a.hi);
      WordWidth();
      a.WriteWord(n, raw, x);
      HeaderAdded(mem0, mem1, a.mem, blocks0, a.blocks, user, x, n, a.lo, a.hi);
      user := user[x := n];
      r := Ptr(raw + HDR);
    }

    /** Hands back exactly the layout the block was allocated with. */
    method Free(ptr: nat, ghost x: nat)
      requires Valid() && (ptr != 0 ==> x in user && x < |a.blocks| && a.blocks[x].start + HDR == ptr)
      modifies this, a
      ensures Valid()
      ensures ptr == 0 ==> a.mem == old(a.mem) && a.blocks == old(a.blocks) && user == old(user)
      ensures ptr != 0 ==>
        && user == old(user) - {x} && |a.blocks| == |old(a.blocks)| && Returned(a.heads, a.blocks[x].use, old(user)[x], ptr)
        && UserKept(old(a.mem), a.mem, old(a.blocks), a.blocks, old(user), x)
    {
      hide Load, BlocksOk, ListsOk, KeptBut, UserKept, HeadersOk, HeaderLayout, ListIndex;
      if ptr == 0 { return; }
      var raw := ptr - HDR;
      HeaderAt(a.mem, a.blocks, user, x);
      var size := Load8(a.mem, raw);
      HeaderIs(size);
      ghost var mem0, blocks0 := a.mem, a.blocks;
      a.Dealloc(raw, HeaderLayout(size), x);
      HeaderRemoved(mem0, a.mem, blocks0, user, x, a.blocks[x].use, a.lo, a.hi);
      user := user - {x};
    }

    /** The fallback heap's own writes outside all blocks disturb no allocation. */
    method FallbackWrites(scratch: Memory)
      requires Valid() && KeptBut(a.mem, scratch, a.blocks, -1)
      modifies a
      ensures Valid() && a.mem == scratch && a.blocks == old(a.blocks)
    {
      hide Load, BlocksOk, ListsOk, HeadersOk, KeptBut;
      FallbackKeeps(a.mem, scratch, a.blocks, user, a.lo, a.hi);
      a.FallbackWrites(scratch);
    }

    /** A client writes a byte it asked for; its header and every other allocation stay as they were. */
    method Write(ptr: nat, off: nat, v: nat, ghost x: nat)
      requires Valid() && x in user && x < |a.blocks| && a.blocks[x].start + HDR == ptr && user[x] + HDR < WORD && off < user[x]
      modifies a
      ensures Valid() && a.mem == old(a.mem)[ptr + off := v] && a.blocks == old(a.blocks)
      ensures UserKept(old(a.mem), a.mem, a.blocks, a.blocks, user, x)
    {
      hide Load, BlocksOk, ListsOk, KeptBut, UserKept, HeadersOk, HeaderLayout;
      HeaderAt(a.mem, a.blocks, user, x);
      LiveOk(a.blocks, x, user[x], a.lo, a.hi);
      ghost var mem0 := a.mem;
      a.Write(ptr + off, v, x);
      HeaderStays(mem0, a.mem, a.blocks, user, x, ptr + off, a.lo, a.hi);
      OthersKept(mem0, a.mem, a.blocks, user, x);
    }

    method Relocate(ptr: nat, newSize: nat, fb: Option<nat>, ghost x: nat) returns (r: Answer, ghost y: nat)
      requires Valid() && 0 < newSize < WORD
      requires ptr != 0 && x in user && x < |a.blocks| && a.blocks[x].start + HDR == ptr
      requires fb.Some? ==> Promise(a.blocks, FallbackLayout(HeaderLayout(Requested(newSize))), fb.value, a.lo, a.hi)
      modifies this, a
      ensures Valid()
      ensures r.Panicked? || r.Null? ==> a.mem == old(a.mem) && a.blocks == old(a.blocks) && user == old(user)
      ensures r.Panicked? <==> Total(newSize) > 0x7FFF_FFFF_FFFF_FFF0
      ensures !r.Panicked? ==> (r.Null? <==> fb.None? && !HasFree(old(a.blocks), ListIndex(Layout(Total(newSize), 16))))
      ensures r.Overrun? ==> old(user)[x] + HDR >= WORD || newSize + HDR >= WORD
      ensures r.Ptr? ==> old(user)[x] + HDR < WORD && newSize + HDR < WORD && Chosen(old(a.heads), newSize, fb, r.addr)
      ensures r.Ptr? ==>
        && y !in old(user) && user == old(user)[y := newSize] - {x} && y < |a.blocks| && r.addr == a.blocks[y].start + HDR
        && Copied(a.mem, r.addr, old(a.mem), ptr, if old(user)[x] < newSize then old(user)[x] else newSize)
        && UserKept(old(a.mem), a.mem, old(a.blocks), a.blocks, old(user), x)
    {
      hide Load, BlocksOk, ListsOk, KeptBut, UserKept, Copied, HeadersOk, HeaderLayout, FallbackLayout, Promise, SameBelow, ListIndex, HasFree, Total, Chosen, Returned;
      HeaderAt(a.mem, a.blocks, user, x);
      var oldSize := Load8(a.mem, ptr - HDR);
      LiveOk(a.blocks, x, oldSize, a.lo, a.hi);
      ghost var mem0, blocks0, user0 := a.mem, a.blocks, user;
      r, y := Alloc(newSize, fb);
      if !r.Ptr? { return; }
      ghost var mem1, blocks1 := a.mem, a.blocks;
      OldKept(mem0, mem1, blocks0, blocks1, user0, x, y);
      var n := if oldSize < newSize then oldSize else newSize;
      HeaderAt(a.mem, a.blocks, user, y);
      LiveOk(a.blocks, y, newSize, a.lo, a.hi);
      if oldSize + HDR >= WORD || newSize + HDR >= WORD {
        assert ptr + n > a.blocks[x].End() || r.addr + n > a.blocks[y].End();
        return Overrun, y;
      }
      a.Copy(ptr, r.addr, n, x, y);
      ghost var mem2 := a.mem;
      HeaderStays(mem1, mem2, a.blocks, user, y, r.addr, a.lo, a.hi);
      UsersLive(mem0, blocks0, user0);
      Free(ptr, x);
      Moved(mem0, mem1, mem2, a.mem, blocks0, blocks1, a.blocks, user0, newSize, x, y, ptr, r.addr, n);
    }

    /**
     Keeps the first `min(old, new)` bytes although `Free` overwrites the old block; on failure nothing changes.
     The copy leaves its block exactly when one of the two sizes wrapped with its header.
     */
    method Realloc(ptr: nat, newSize: nat, fb: Option<nat>, ghost x: nat) returns (r: Answer, ghost y: nat)
      requires Valid() && newSize < WORD
      requires ptr != 0 ==> x in user && x < |a.blocks| && a.blocks[x].start + HDR == ptr
      requires fb.Some? ==> Promise(a.blocks, FallbackLayout(HeaderLayout(Requested(newSize))), fb.value, a.lo, a.hi)
      modifies this, a
      ensures Valid()
      ensures r.Overrun? ==> ptr != 0 && newSize != 0 && (old(user)[x] + HDR >= WORD || newSize + HDR >= WORD)
      ensures ptr != 0 && r.Ptr? ==> old(user)[x] + HDR < WORD && newSize + HDR < WORD
      ensures r.Ptr? ==> Chosen(old(a.heads), newSize, fb, r.addr)
      ensures ptr == 0 || newSize != 0 ==>
        && (r.Panicked? <==> Total(newSize) > 0x7FFF_FFFF_FFFF_FFF0)
        && (!r.Panicked? ==> (r.Null? <==> fb.None? && !HasFree(old(a.blocks), ListIndex(Layout(Total(newSize), 16)))))
      ensures (r.Panicked? || r.Null?) && (ptr == 0 || newSize != 0) ==> a.mem == old(a.mem) && a.blocks == old(a.blocks) && user == old(user)
      ensures ptr != 0 && newSize == 0 ==> r == Null && user == old(user) - {x}
      ensures ptr != 0 && r.Ptr? ==>
        && y != x && user == old(user)[y := newSize] - {x} && y < |a.blocks| && r.addr == a.blocks[y].start + HDR
        && Copied(a.mem, r.addr, old(a.mem), ptr, if old(user)[x] < newSize then old(user)[x] else newSize)
      ensures !r.Overrun? ==> forall i :: i in old(user) && (ptr == 0 || i != x) && i < |old(a.blocks)| ==>
        i in user && user[i] == old(user)[i] && i < |a.blocks| && a.blocks[i] == old(a.blocks)[i]
        && KeptBlock(old(a.mem), a.mem, old(a.blocks)[i])
    {
      hide Load, BlocksOk, ListsOk, Copied, HeadersOk, HeaderLayout, FallbackLayout, Promise, ListIndex, HasFree, Total, Chosen, Returned;
      y := 0;
      if ptr == 0 {
        r, y := Alloc(newSize, fb);
        return;
      }
      if newSize == 0 {
        Free(ptr, x);
        return Null, 0;
      }
      r, y := Relocate(ptr, newSize, fb, x);
    }
  }
}
