/**
 The allocator object of src/allocator/linked_list.rs. The list lives inside the free memory: every
 free region starts with a node holding its size and the address of the next node.
 */
module LinkedList {
  import opened Wrappers
  import opened Alignment
  import opened ByteMemory
  import opened FreeList

  /** The node fields of region `r` in memory. */
  predicate NodeAt(mem: Memory, r: Region, next: nat) {
    Load8(mem, r.start) == r.size && Load8(mem, r.start + 8) == next
  }

  function Addr(free: seq<Region>, i: nat): nat {
    if i < |free| then free[i].start else 0
  }

  /** Following the links from `head` visits exactly the regions of `free`, in order, and ends. */
  predicate Linked(mem: Memory, head: nat, free: seq<Region>) {
    head == Addr(free, 0) && forall i :: 0 <= i < |free| ==> NodeAt(mem, free[i], Addr(free, i + 1))
  }

  /** Bytes of a region are the same in both memories. */
  ghost predicate Kept(mem: Memory, mem': Memory, r: Region) {
    forall b: nat :: r.start <= b < r.End() ==> Get(mem', b) == Get(mem, b)
  }

  lemma NodeKept(mem: Memory, mem': Memory, r: Region, next: nat)
    requires NodeAt(mem, r, next) && Kept(mem, mem', r) && r.size >= NODE_SIZE
    ensures NodeAt(mem', r, next)
  {
    hide Load;
    LoadSame(mem, mem', r.start, 8);
    LoadSame(mem, mem', r.start + 8, 8);
  }

  lemma Fits64(r: Region, lo: nat, hi: nat)
    requires RegionOk(r, lo, hi) && hi <= ISIZE_MAX + 1
    ensures r.size < Pow256(8) && r.start < Pow256(8)
  {
    assert Pow256(8) == 0x1_0000_0000_0000_0000;
  }

  /** Memory is unchanged outside region `r`. */
  ghost predicate OnlyIn(mem: Memory, mem': Memory, r: Region) {
    forall b: nat :: b < r.start || b >= r.End() ==> Get(mem', b) == Get(mem, b)
  }

  function WriteNode(mem: Memory, r: Region, next: nat): Memory {
    Store8(Store8(mem, r.start, r.size), r.start + 8, next)
  }

  function WriteNext(mem: Memory, r: Region, next: nat): Memory {
    Store8(mem, r.start + 8, next)
  }

  lemma WriteNodeEffect(mem: Memory, r: Region, next: nat)
    requires r.size < Pow256(8) && next < Pow256(8)
    ensures NodeAt(WriteNode(mem, r, next), r, next)
    ensures OnlyIn(mem, WriteNode(mem, r, next), Region(r.start, NODE_SIZE))
  {
    hide Load, Store, Pow256;
    Store8Effect(mem, r.start, r.size);
    Store8Effect(Store8(mem, r.start, r.size), r.start + 8, next);
  }

  lemma WriteNextEffect(mem: Memory, r: Region, old_: nat, next: nat)
    requires NodeAt(mem, r, old_) && next < Pow256(8)
    ensures NodeAt(WriteNext(mem, r, next), r, next)
    ensures OnlyIn(mem, WriteNext(mem, r, next), Region(r.start, NODE_SIZE))
  {
    hide Load, Store, Pow256;
    Store8Effect(mem, r.start + 8, next);
  }

  /** A node away from the written region is untouched. */
  lemma NodeApart(mem: Memory, mem': Memory, w: Region, r: Region, next: nat)
    requires NodeAt(mem, r, next) && OnlyIn(mem, mem', Region(w.start, NODE_SIZE)) && Apart(w, r)
    requires r.size >= NODE_SIZE && w.size >= NODE_SIZE
    ensures NodeAt(mem', r, next)
  {
    hide NodeAt;
    NodeKept(mem, mem', r, next);
  }

  /** Writing a node at the start of a fresh region and making it the head. */
  lemma PushNode(mem: Memory, head: nat, free: seq<Region>, r: Region, lo: nat, hi: nat)
    requires Linked(mem, head, free) && AllOk(free, lo, hi) && RegionOk(r, lo, hi) && ApartFrom(r, free)
    requires 0 < lo && hi <= ISIZE_MAX + 1
    ensures Linked(WriteNode(mem, r, head), r.start, [r] + free)
    ensures OnlyIn(mem, WriteNode(mem, r, head), Region(r.start, NODE_SIZE))
  {
    hide NodeAt, WriteNode, OnlyIn, Pow256;
    Fits64(r, lo, hi);
    if free != [] { Fits64(free[0], lo, hi); }
    var mem' := WriteNode(mem, r, head);
    WriteNodeEffect(mem, r, head);
    var free' := [r] + free;
    forall i | 0 <= i < |free'| ensures NodeAt(mem', free'[i], Addr(free', i + 1)) {
      if i > 0 {
        assert free'[i] == free[i - 1] && Addr(free', i + 1) == Addr(free, i);
        NodeApart(mem, mem', r, free[i - 1], Addr(free, i));
      }
    }
  }

  /** The predecessor of region `i` skips it, or the head does when `i` is first. */
  function Skip(mem: Memory, free: seq<Region>, i: nat): Memory
    requires i < |free|
  {
    var cleared := WriteNext(mem, free[i], 0);
    if i == 0 then cleared else WriteNext(cleared, free[i - 1], Addr(free, i + 1))
  }

  /** Taking region `i` out: its link is cleared and its predecessor skips it. */
  lemma Unlink(mem: Memory, head: nat, free: seq<Region>, i: nat, lo: nat, hi: nat)
    requires Linked(mem, head, free) && AllOk(free, lo, hi) && AllApart(free) && i < |free|
    requires 0 < lo && hi <= ISIZE_MAX + 1
    ensures Linked(Skip(mem, free, i), if i == 0 then Addr(free, 1) else head, Without(free, i))
    ensures NodeAt(Skip(mem, free, i), free[i], 0)
  {
    hide NodeAt, WriteNext, OnlyIn, Pow256;
    Fits64(free[i], lo, hi);
    if i + 1 < |free| { Fits64(free[i + 1], lo, hi); }
    var next := Addr(free, i + 1);
    var cleared := WriteNext(mem, free[i], 0);
    ZeroFits();
    WriteNextEffect(mem, free[i], next, 0);
    forall k | 0 <= k < |free| && k != i ensures NodeAt(cleared, free[k], Addr(free, k + 1)) {
      assert RegionOk(free[k], lo, hi);
      assert Apart(free[i], free[k]);
      NodeApart(mem, cleared, free[i], free[k], Addr(free, k + 1));
    }
    if i > 0 { SkipBefore(cleared, free, i, lo, hi); }
    hide AllOk, AllApart;
    LinkedWithout(Skip(mem, free, i), free, i);
  }

  lemma WithoutAddr(free: seq<Region>, i: nat, k: nat)
    requires i < |free| && k < |free|
    ensures var w := Without(free, i);
      && |w| == |free| - 1 && (k < |w| ==> w[k] == free[if k < i then k else k + 1])
      && Addr(w, k) == if k < i then Addr(free, k) else Addr(free, k + 1)
  {
  }

  lemma LinkedWithout(mem: Memory, free: seq<Region>, i: nat)
    requires i < |free|
    requires forall k :: 0 <= k < |free| && k != i ==> NodeAt(mem, free[k], Addr(free, if k + 1 == i then i + 1 else k + 1))
    ensures Linked(mem, if i == 0 then Addr(free, 1) else Addr(free, 0), Without(free, i))
  {
    hide NodeAt, Addr, Without;
    WithoutAddr(free, i, 0);
    var w := Without(free, i);
    forall k | 0 <= k < |w| ensures NodeAt(mem, w[k], Addr(w, k + 1)) {
      WithoutAddr(free, i, k);
      WithoutAddr(free, i, k + 1);
      var j := if k < i then k else k + 1;
      assert NodeAt(mem, free[j], Addr(free, if j + 1 == i then i + 1 else j + 1));
    }
  }

  lemma ZeroFits()
    ensures 0 < Pow256(8)
  {
  }

  lemma SkipBefore(cleared: Memory, free: seq<Region>, i: nat, lo: nat, hi: nat)
    requires 0 < i < |free| && AllOk(free, lo, hi) && AllApart(free) && 0 < lo && hi <= ISIZE_MAX + 1
    requires NodeAt(cleared, free[i], 0)
    requires forall k :: 0 <= k < |free| && k != i ==> NodeAt(cleared, free[k], Addr(free, k + 1))
    ensures var mem' := WriteNext(cleared, free[i - 1], Addr(free, i + 1));
      && (forall k :: 0 <= k < |free| && k != i && k != i - 1 ==> NodeAt(mem', free[k], Addr(free, k + 1)))
      && NodeAt(mem', free[i - 1], Addr(free, i + 1)) && NodeAt(mem', free[i], 0)
  {
    hide NodeAt, WriteNext, OnlyIn, Pow256;
    var p, next := free[i - 1], Addr(free, i + 1);
    if i + 1 < |free| { Fits64(free[i + 1], lo, hi); }
    ZeroFits();
    WriteNextEffect(cleared, p, Addr(free, i), next);
    var mem' := WriteNext(cleared, p, next);
    forall k | 0 <= k < |free| && k != i - 1 ensures NodeAt(mem', free[k], if k == i then 0 else Addr(free, k + 1)) {
      assert RegionOk(free[k], lo, hi) && RegionOk(p, lo, hi);
      assert Apart(p, free[k]);
      NodeApart(cleared, mem', p, free[k], if k == i then 0 else Addr(free, k + 1));
    }
  }

  lemma OutsideKept(mem: Memory, mem': Memory, w: Region, live: Region)
    requires OnlyIn(mem, mem', Region(w.start, NODE_SIZE)) && w.size >= NODE_SIZE && Apart(w, live)
    ensures Kept(mem, mem', live)
  {
  }

  lemma KeptOn(a: Memory, b: Memory, c: Memory, live: Region)
    requires Kept(a, b, live) && Kept(b, c, live)
    ensures Kept(a, c, live)
  {
  }

  /** Unlinking writes only inside free regions. */
  lemma SkipFrame(mem: Memory, head: nat, free: seq<Region>, i: nat, lo: nat, hi: nat, live: Region)
    requires Linked(mem, head, free) && AllOk(free, lo, hi) && AllApart(free) && i < |free| && 0 < lo && hi <= ISIZE_MAX + 1
    requires forall k :: 0 <= k < |free| ==> Apart(free[k], live)
    ensures Kept(mem, Skip(mem, free, i), live)
  {
    hide WriteNext, Pow256, NodeAt, OnlyIn, Kept;
    var cleared := WriteNext(mem, free[i], 0);
    assert RegionOk(free[i], lo, hi) && Apart(free[i], live);
    assert NodeAt(mem, free[i], Addr(free, i + 1));
    ZeroFits();
    WriteNextEffect(mem, free[i], Addr(free, i + 1), 0);
    OutsideKept(mem, cleared, free[i], live);
    if i > 0 {
      var p := free[i - 1];
      assert RegionOk(p, lo, hi) && Apart(p, live) && Apart(p, free[i]);
      assert NodeAt(mem, p, Addr(free, i));
      NodeApart(mem, cleared, free[i], p, Addr(free, i));
      if i + 1 < |free| { Fits64(free[i + 1], lo, hi); }
      WriteNextEffect(cleared, p, Addr(free, i), Addr(free, i + 1));
      OutsideKept(cleared, WriteNext(cleared, p, Addr(free, i + 1)), p, live);
      KeptOn(mem, cleared, WriteNext(cleared, p, Addr(free, i + 1)), live);
    }
  }

  /** The walk starts at the first region, and every region has a non-null address. */
  ghost predicate HeadOf(mem: Memory, head: nat, free: seq<Region>) {
    && head == Addr(free, 0)
    && (forall k :: 0 <= k < |free| ==> free[k].start != 0)
    && (forall k :: 0 <= k < |free| ==> NodeAt(mem, free[k], Addr(free, k + 1)))
  }

  lemma LinkedHead(mem: Memory, head: nat, h: Heap, lo: nat, hi: nat)
    requires HeapOk(h, lo, hi) && Linked(mem, head, h.free)
    ensures HeadOf(mem, head, h.free)
  {
    hide NodeAt;
    assert forall k :: 0 <= k < |h.free| ==> RegionOk(h.free[k], lo, hi);
  }

  lemma TakenOut(mem: Memory, head: nat, h: Heap, i: nat, lo: nat, hi: nat)
    requires HeapOk(h, lo, hi) && Linked(mem, head, h.free) && i < |h.free|
    ensures Linked(Skip(mem, h.free, i), if i == 0 then Addr(h.free, 1) else head, Without(h.free, i))
    ensures Load8(Skip(mem, h.free, i), h.free[i].start) == h.free[i].size
  {
    hide Load, Store;
    Unlink(mem, head, h.free, i, lo, hi);
  }

  lemma AddRegionOk(h: Heap, r: Region, lo: nat, hi: nat)
    requires HeapOk(h, lo, hi) && RegionOk(r, lo, hi) && ApartFrom(r, h.free) && ApartFrom(r, h.live)
    ensures HeapOk(h.(free := [r] + h.free), lo, hi)
  {
  }

  lemma RegionAdded(mem: Memory, head: nat, h: Heap, r: Region, lo: nat, hi: nat)
    requires HeapOk(h, lo, hi) && Linked(mem, head, h.free)
    requires RegionOk(r, lo, hi) && ApartFrom(r, h.free) && ApartFrom(r, h.live)
    ensures HeapOk(h.(free := [r] + h.free), lo, hi)
    ensures Linked(WriteNode(mem, r, head), r.start, [r] + h.free)
    ensures OnlyIn(mem, WriteNode(mem, r, head), Region(r.start, NODE_SIZE))
  {
    AddRegionOk(h, r, lo, hi);
    PushNode(mem, head, h.free, r, lo, hi);
  }

  /** `align_up(addr, 8)` leaves an 8-aligned heap address alone. */
  lemma AddrIsAligned(addr: nat)
    requires addr <= ISIZE_MAX
    ensures NODE_ALIGN <= Pow2(64)
    ensures AlignUp(addr, NODE_ALIGN) == addr <==> addr % NODE_ALIGN == 0
  {
    WordBits();
    EightIsPow2();
    hide Pow2, And;
    AlignUpRounds(addr, NODE_ALIGN);
  }

  /** What `alloc` hands back. */
  datatype Allocation = Panicked | Null | Ptr(addr: nat)

  class LinkedListAllocator {
    var mem: Memory                  // all of memory
    var head: nat                    // head.next, 0 for None
    ghost const lo: nat
    ghost const hi: nat
    ghost var heap: Heap             // the regions the list holds and the blocks handed out

    ghost predicate Valid()
      reads this
    {
      HeapOk(heap, lo, hi) && Linked(mem, head, heap.free)
    }

    /** `new` followed by `init` on an unused, 8-aligned range that can hold a node. */
    constructor (start: nat, size: nat, contents: Memory)
      requires start % 8 == 0 && size >= NODE_SIZE && 0 < start && start + size <= ISIZE_MAX + 1
      ensures Valid() && lo == start && hi == start + size
      ensures heap == Heap([Region(start, size)], [], 0)
    {
      mem, head := contents, 0;
      lo, hi := start, start + size;
      heap := Heap([], [], 0);
      new;
      AddFreeRegion(start, size);
    }

    /** The two asserts at its head hold at every call: `AddrIsAligned` for the first, the precondition for the second. */
    method AddFreeRegion(addr: nat, size: nat)
      requires Valid() && addr % NODE_ALIGN == 0 && size >= NODE_SIZE
      requires RegionOk(Region(addr, size), lo, hi) && ApartFrom(Region(addr, size), heap.free)
      requires ApartFrom(Region(addr, size), heap.live)
      modifies this
      ensures Valid() && heap == old(heap).(free := [Region(addr, size)] + old(heap).free)
      ensures OnlyIn(old(mem), mem, Region(addr, NODE_SIZE))
    {
      hide Load, Store, HeapOk, Linked, OnlyIn, RegionOk, ApartFrom;
      RegionAdded(mem, head, heap, Region(addr, size), lo, hi);
      mem := Store8(mem, addr, size);
      mem := Store8(mem, addr + 8, head);
      head := addr;
      heap := heap.(free := [Region(addr, size)] + heap.free);
    }

    /** `current.next.take()` and relinking: region `i` leaves the list. */
    method TakeNext(current: nat, region: nat, ghost i: nat)
      requires Valid() && i < |heap.free| && region == heap.free[i].start
      requires current == if i == 0 then 0 else heap.free[i - 1].start
      modifies `mem, `head
      ensures mem == Skip(old(mem), heap.free, i) && Linked(mem, head, Without(heap.free, i))
      ensures Load8(mem, heap.free[i].start) == heap.free[i].size
    {
      hide Load, Store, HeapOk, Linked;
      LinkedHead(mem, head, heap, lo, hi);
      TakenOut(mem, head, heap, i, lo, hi);
      assert NodeAt(mem, heap.free[i], Addr(heap.free, i + 1));
      var next := Load8(mem, region + 8);
      mem := Store8(mem, region + 8, 0);
      if current == 0 { head := next; } else { mem := Store8(mem, current + 8, next); }
    }

    /** Walks the list and takes the first fitting region out of it. */
    method FindRegion(size: nat, align: nat) returns (r: Option<(nat, nat)>, ghost i: nat)
      requires Valid() && 1 <= align <= Pow2(64)
      modifies `mem, `head
      ensures r.None? <==> FirstFit(heap.free, size, align, 0).None?
      ensures r.None? ==> mem == old(mem) && head == old(head)
      ensures r.Some? ==>
        && FirstFit(heap.free, size, align, 0) == Some(i) && i < |heap.free|
        && r.value == (heap.free[i].start, Fit(heap.free[i], size, align).value)
        && mem == Skip(old(mem), heap.free, i)
        && Linked(mem, head, Without(heap.free, i))
        && Load8(mem, heap.free[i].start) == heap.free[i].size
    {
      hide Pow2, Load, Store, Fit, HeapOk, Linked;
      ghost var free := heap.free;
      LinkedHead(mem, head, heap, lo, hi);
      var current := 0;                // 0 stands for the head node
      i := 0;
      var region := head;
      while region != 0
        invariant i <= |free| && region == Addr(free, i) && free == heap.free
        invariant current == if i == 0 then 0 else free[i - 1].start
        invariant mem == old(mem) && head == old(head)
        invariant FirstFit(free, size, align, 0) == FirstFit(free, size, align, i)
        decreases |free| - i
      {
        var node := Region(region, Load8(mem, region));
        assert NodeAt(mem, free[i], Addr(free, i + 1)) && node == free[i];
        var start := Fit(node, size, align);
        if start.Some? {
          TakeNext(current, region, i);
          return Some((region, start.value)), i;
        }
        current := region;
        region := Load8(mem, region + 8);
        i := i + 1;
      }
      r := None;
    }

    /** A block of the requested size and alignment from free memory, or null; live blocks keep their bytes. */
    method Alloc(layout: Layout) returns (p: Allocation)
      requires Valid() && LayoutOk(layout)
      modifies this
      ensures Valid() && LiveKept(old(mem), mem, old(heap).live)
      ensures p.Panicked? <==> layout.size + (if layout.align < 8 then 8 else layout.align) > 0x8000_0000_0000_0000
      ensures p.Panicked? || p.Null? ==> heap == old(heap)
      ensures p.Panicked? <==> SizeAlign(layout).None?
      ensures !p.Panicked? ==>
        var (size, align) := SizeAlign(layout).value;
        && Rounded(layout, size, align)
        && (p.Null? <==> forall i :: 0 <= i < |old(heap).free| ==> !Serves(old(heap).free[i], size, align))
        && (p.Ptr? ==> exists i: nat :: FirstServes(old(heap).free, i, size, align, p.addr) && Cut(old(heap), heap, i, p.addr, size))
      ensures SizeAlign(layout).Some? ==>
        var (size, align) := SizeAlign(layout).value;
        && 1 <= align <= Pow2(64)
        && FreeList.Alloc(old(heap), size, align) == (heap, if p.Ptr? then Some(p.addr) else None)
      ensures Bytes(heap) == Bytes(old(heap))
      ensures p.Ptr? ==> p.addr % layout.align == 0
    {
      var sa := SizeAlign(layout);
      SizeAlignExactly(layout);
      if sa.None? { LiveKeptSame(mem, heap.live); return Panicked; }
      var (size, align) := sa.value;
      SizeAlignRounds(layout);
      hide Pow2, AlignUp, SizeAlign, HeapOk, Linked, LiveKept, IsPow2, FreeList.Alloc, Bytes, Serves, FirstServes, Cut, Rounded;
      AllocKeeps(heap, size, align, lo, hi);
      AllocExactly(heap, size, align, lo, hi);
      var r := AllocRounded(size, align);
      if r.None? { return Null; }
      AlignedTo(r.value, align, layout.align);
      return Ptr(r.value);
    }

    method AllocRounded(size: nat, align: nat) returns (r: Option<nat>)
      requires Valid() && IsPow2(align) && align % 8 == 0 && 1 <= align <= Pow2(64) && align <= ISIZE_MAX + 1
      requires size >= NODE_SIZE && size % 8 == 0
      modifies this
      ensures Valid() && FreeList.Alloc(old(heap), size, align) == (heap, r)
      ensures LiveKept(old(mem), mem, old(heap).live)
    {
      hide Pow2, Fit, HeapOk, Linked, Kept;
      var found, i := FindRegion(size, align);
      if found.None? { LiveKeptSame(mem, heap.live); return None; }
      var (region, start) := found.value;
      Carved(old(mem), old(head), heap, i, size, align, lo, hi);
      PlaceBlock(region, start, size, i);
      LiveKeptTwice(old(mem), Skip(old(mem), old(heap).free, i), mem, old(heap).live);
      return Some(start);
    }

    /** Region `i` is out of the list: hand out the block and put the rest of the region back. */
    method PlaceBlock(region: nat, start: nat, size: nat, ghost i: nat)
      requires i < |heap.free| && region == heap.free[i].start && Load8(mem, region) == heap.free[i].size
      requires Linked(mem, head, Without(heap.free, i)) && Carvable(heap, i, Region(start, size), lo, hi)
      modifies this
      ensures Valid() && LiveKept(old(mem), mem, old(heap).live)
      ensures heap == Heap(Split(old(heap).free, i, start, size), old(heap).live + [Region(start, size)],
                           old(heap).lost + (start - region))
    {
      hide Load, Store, HeapOk, Linked, OnlyIn, RegionOk, ApartFrom, Kept;
      var end := start + size;
      var excess := region + Load8(mem, region) - end;
      heap := Heap(Without(heap.free, i), heap.live + [Region(start, size)], heap.lost + (start - region));
      if excess > 0 {
        AddFreeRegion(end, excess);
        LiveAfterTail(old(mem), mem, Region(end, excess), old(heap).live, Region(start, size));
      } else {
        LiveKeptSame(mem, old(heap).live);
      }
    }

    /** Returns live block `i`; the other live blocks keep their bytes. */
    method Dealloc(ptr: nat, layout: Layout, ghost i: nat)
      requires Valid() && LayoutOk(layout) && SizeAlign(layout).Some?
      requires i < |heap.live| && heap.live[i] == Region(ptr, SizeAlign(layout).value.0)
      modifies this
      ensures Valid() && heap == FreeList.Dealloc(old(heap), i) && Bytes(heap) == Bytes(old(heap))
      ensures forall k :: 0 <= k < |old(heap).live| && k != i ==> Kept(old(mem), mem, old(heap).live[k])
    {
      hide Pow2, AlignUp, Load, Store, SizeAlign;
      var size := SizeAlign(layout).value.0;
      DeallocKeeps(heap, i, lo, hi);
      ghost var h := heap;
      ghost var mem0 := mem;
      WithoutApart(heap.live, i, lo, hi);
      assert forall j :: 0 <= j < |h.free| ==> Apart(h.free[j], h.live[i]);
      heap := heap.(live := Without(heap.live, i));
      forall j | 0 <= j < |h.free| ensures ApartFrom(h.free[j], heap.live) {
        assert forall k :: 0 <= k < |heap.live| ==> heap.live[k] in h.live;
      }
      AddFreeRegion(ptr, size);
      forall k | 0 <= k < |h.live| && k != i ensures Kept(mem0, mem, h.live[k]) {
        assert Apart(h.live[i], h.live[k]) && RegionOk(h.live[i], lo, hi);
      }
    }

    /** A client writes a byte of its own live block. */
    method ClientWrite(a: nat, v: nat, ghost i: nat)
      requires Valid() && i < |heap.live| && heap.live[i].start <= a < heap.live[i].End()
      modifies `mem
      ensures Valid() && mem == old(mem)[a := v]
    {
      ghost var mem0 := mem;
      mem := mem[a := v];
      hide Load;
      forall k | 0 <= k < |heap.free| ensures NodeAt(mem, heap.free[k], Addr(heap.free, k + 1)) {
        assert Apart(heap.free[k], heap.live[i]) && RegionOk(heap.free[k], lo, hi);
        NodeKept(mem0, mem, heap.free[k], Addr(heap.free, k + 1));
      }
    }
  }

  /**
   Any permitted sequence of operations: the list in memory stays a finite chain of regions that
   overlap neither each other nor any live block, and it is the list of the specification.
   */
  method Exec(a: LinkedListAllocator, ops: seq<Op>)
    requires a.Valid() && PermittedRun(a.heap, ops)
    modifies a
    ensures a.Valid() && a.heap == Run(old(a.heap), ops)
  {
    hide Apply, HeapOk, Linked, SizeAlign, Pow2;
    var k := 0;
    while k < |ops|
      invariant k <= |ops| && a.Valid() && PermittedRun(a.heap, ops[k..])
      invariant Run(a.heap, ops[k..]) == Run(old(a.heap), ops)
    {
      assert ops[k..][0] == ops[k] && ops[k..][1..] == ops[k + 1..];
      ExecOne(a, ops[k]);
      k := k + 1;
    }
  }

  method ExecOne(a: LinkedListAllocator, op: Op)
    requires a.Valid() && Permitted(a.heap, op)
    modifies a
    ensures a.Valid() && a.heap == Apply(old(a.heap), op)
  {
    hide HeapOk, Linked, SizeAlign, Pow2, FreeList.Alloc;
    match op {
      case OpAlloc(l) => var p := a.Alloc(l);
      case OpDealloc(i, ptr, l) => a.Dealloc(ptr, l, i);
      case OpWrite(i, addr, v) => a.ClientWrite(addr, v, i);
    }
  }

  /** Every live block has the same bytes in both memories. */
  ghost predicate LiveKept(mem: Memory, mem': Memory, live: seq<Region>) {
    forall k :: 0 <= k < |live| ==> Kept(mem, mem', live[k])
  }

  lemma LiveKeptSame(mem: Memory, live: seq<Region>)
    ensures LiveKept(mem, mem, live)
  {
  }

  lemma LiveKeptTwice(a: Memory, b: Memory, c: Memory, live: seq<Region>)
    requires LiveKept(a, b, live) && LiveKept(b, c, live)
    ensures LiveKept(a, c, live)
  {
    forall k | 0 <= k < |live| ensures Kept(a, c, live[k]) { assert Kept(a, b, live[k]) && Kept(b, c, live[k]); }
  }

  lemma LiveAfterTail(mem: Memory, mem': Memory, tail: Region, live: seq<Region>, block: Region)
    requires OnlyIn(mem, mem', Region(tail.start, NODE_SIZE)) && tail.size >= NODE_SIZE && ApartFrom(tail, live + [block])
    ensures LiveKept(mem, mem', live)
  {
    forall k | 0 <= k < |live| ensures Kept(mem, mem', live[k]) { assert Apart(tail, (live + [block])[k]); }
  }

  /** Region `i` can give `block`: what remains is a safe heap, and the rest of the region can be put back. */
  ghost predicate Carvable(h: Heap, i: nat, block: Region, lo: nat, hi: nat)
    requires i < |h.free|
  {
    var r := h.free[i];
    && r.start <= block.start && block.End() <= r.End()
    && HeapOk(Heap(Without(h.free, i), h.live + [block], h.lost + (block.start - r.start)), lo, hi)
    && (r.End() > block.End() ==>
          var tail := Region(block.End(), r.End() - block.End());
          && RegionOk(tail, lo, hi) && tail.start % NODE_ALIGN == 0 && tail.size >= NODE_SIZE
          && ApartFrom(tail, Without(h.free, i)) && ApartFrom(tail, h.live + [block]))
  }

  lemma Carved(mem: Memory, head: nat, h: Heap, i: nat, size: nat, align: nat, lo: nat, hi: nat)
    requires HeapOk(h, lo, hi) && Linked(mem, head, h.free) && i < |h.free|
    requires IsPow2(align) && align % 8 == 0 && 1 <= align <= Pow2(64) && align <= ISIZE_MAX + 1
    requires size >= NODE_SIZE && size % 8 == 0 && Fit(h.free[i], size, align).Some?
    ensures Carvable(h, i, Region(Fit(h.free[i], size, align).value, size), lo, hi)
    ensures LiveKept(mem, Skip(mem, h.free, i), h.live)
  {
    hide Pow2, Fit, Carvable, Skip, LiveKept, Linked;
    assert RegionOk(h.free[i], lo, hi);
    FitIsInside(h.free[i], size, align, lo, hi);
    InsideIsCarvable(h, i, Region(Fit(h.free[i], size, align).value, size), lo, hi);
    LiveAfterSkip(mem, head, h, i, lo, hi);
  }

  lemma InsideIsCarvable(h: Heap, i: nat, block: Region, lo: nat, hi: nat)
    requires HeapOk(h, lo, hi) && i < |h.free| && h.free[i].start <= block.start && block.End() <= h.free[i].End()
    requires block.start % 8 == 0 && block.size >= NODE_SIZE
    requires h.free[i].End() > block.End() ==> h.free[i].End() - block.End() >= NODE_SIZE && block.End() % 8 == 0
    ensures Carvable(h, i, block, lo, hi)
  {
    WithoutApart(h.free, i, lo, hi);
    RestApart(h, i);
    TakeBlock(Heap(Without(h.free, i), h.live, h.lost), h.free[i], block, lo, hi);
    if h.free[i].End() > block.End() { TailApart(h, i, block, lo, hi); }
  }

  lemma LiveAfterSkip(mem: Memory, head: nat, h: Heap, i: nat, lo: nat, hi: nat)
    requires HeapOk(h, lo, hi) && Linked(mem, head, h.free) && i < |h.free|
    ensures LiveKept(mem, Skip(mem, h.free, i), h.live)
  {
    hide Skip, Kept, Linked;
    forall k | 0 <= k < |h.live| ensures Kept(mem, Skip(mem, h.free, i), h.live[k]) {
      forall j | 0 <= j < |h.free| ensures Apart(h.free[j], h.live[k]) { assert ApartFrom(h.free[j], h.live); }
      SkipFrame(mem, head, h.free, i, lo, hi, h.live[k]);
    }
  }

  lemma EightIsPow2()
    ensures IsPow2(8)
  {
    assert Pow2(3) == 8;
  }

  lemma AlignedTo(x: nat, align: nat, small: nat)
    requires IsPow2(align) && IsPow2(small) && small <= align && x % align == 0
    ensures x % small == 0
  {
    hide Pow2;
    var j :| 0 <= j < 64 && Pow2(j) == small;
    var k :| 0 <= k < 64 && Pow2(k) == align;
    if k < j { Pow2Strict(k, j); }
    Pow2Add(j, k - j);
    var q := Pow2(k - j);
    assert x == (small * q) * (x / align);
    assert (small * q) * (x / align) == small * (q * (x / align));
    ModUnique(x, small, q * (x / align), 0);
  }

  lemma {:induction false} Pow2Strict(j: nat, k: nat)
    requires j < k
    ensures Pow2(j) < Pow2(k)
  {
    if j + 1 < k { Pow2Strict(j, k - 1); }
  }

  lemma RestApart(h: Heap, i: nat)
    requires i < |h.free| && forall k :: 0 <= k < |h.free| ==> ApartFrom(h.free[k], h.live)
    ensures forall j :: 0 <= j < |Without(h.free, i)| ==> ApartFrom(Without(h.free, i)[j], h.live)
  {
    var w := Without(h.free, i);
    assert forall j :: 0 <= j < |w| ==> w[j] == if j < i then h.free[j] else h.free[j + 1];
  }

  lemma TailApart(h: Heap, i: nat, block: Region, lo: nat, hi: nat)
    requires HeapOk(h, lo, hi) && i < |h.free| && h.free[i].start <= block.start && block.End() < h.free[i].End()
    ensures var tail := Region(block.End(), h.free[i].End() - block.End());
      ApartFrom(tail, Without(h.free, i)) && ApartFrom(tail, h.live + [block])
  {
    var tail := Region(block.End(), h.free[i].End() - block.End());
    WithoutApart(h.free, i, lo, hi);
    PartApart(h.free[i], tail, Without(h.free, i));
    PartApart(h.free[i], tail, h.live);
  }
}
