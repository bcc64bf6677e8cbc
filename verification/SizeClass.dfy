/**
 The size-class allocator of src/allocator/fixed_size_block.rs: one free list per block size, linked
 through the first word of each free block, over a general-purpose fallback heap. The fallback heap
 belongs to another library; its answers are parameters, constrained by what it promises.
 */
module SizeClass {
  import opened Wrappers
  import opened Alignment
  import opened ByteMemory
  import opened FreeList
  import LinkedList

  const BLOCK_SIZES: seq<nat> := [8, 16, 32, 64, 128, 256, 512, 1024, 2048]

  /** The first class at or after `k` of at least `required` bytes. */
  function Position(required: nat, k: nat): (r: Option<nat>)
    requires k <= |BLOCK_SIZES|
    ensures r.Some? ==> k <= r.value < |BLOCK_SIZES| && BLOCK_SIZES[r.value] >= required
    ensures r.Some? ==> forall j :: k <= j < r.value ==> BLOCK_SIZES[j] < required
    ensures r.None? ==> forall j :: k <= j < |BLOCK_SIZES| ==> BLOCK_SIZES[j] < required
    decreases |BLOCK_SIZES| - k
  {
    if k == |BLOCK_SIZES| then None
    else if BLOCK_SIZES[k] >= required then Some(k)
    else Position(required, k + 1)
  }

  /** `list_index`. */
  function ListIndex(l: Layout): Option<nat> { Position(Max(l.size, l.align), 0) }

  /** Bytes set aside for a layout. */
  function Extent(l: Layout): nat {
    var k := ListIndex(l);
    if k.Some? then BLOCK_SIZES[k.value] else l.size
  }

  /**
   A layout has a class exactly when neither size nor alignment exceeds 2048; its blocks then have the least power of
   two, from 8 up, that is below neither.
   */
  lemma ClassExactly(l: Layout)
    ensures ListIndex(l).Some? <==> l.size <= 2048 && l.align <= 2048
    ensures ListIndex(l).Some? ==>
      && Extent(l) == Pow2(ListIndex(l).value + 3) && l.size <= Extent(l) && l.align <= Extent(l)
      && (Extent(l) > 8 ==> Extent(l) < 2 * l.size || Extent(l) < 2 * l.align)
    ensures ListIndex(l).None? ==> Extent(l) == l.size
  {
    ClassSizes();
    hide Pow2;
    assert |BLOCK_SIZES| == 9;
    if ListIndex(l).Some? && ListIndex(l).value > 0 {
      assert BLOCK_SIZES[ListIndex(l).value - 1] < Max(l.size, l.align);
    }
  }

  lemma ClassSizes()
    ensures forall k :: 0 <= k < |BLOCK_SIZES| ==> BLOCK_SIZES[k] == Pow2(k + 3)
  {
    assert Pow2(3) == 8 && Pow2(4) == 16 && Pow2(5) == 32 && Pow2(6) == 64 && Pow2(7) == 128;
    assert Pow2(8) == 256 && Pow2(9) == 512 && Pow2(10) == 1024 && Pow2(11) == 2048;
  }

  lemma ClassIsPow2(k: nat)
    requires k < |BLOCK_SIZES|
    ensures IsPow2(BLOCK_SIZES[k]) && 8 <= BLOCK_SIZES[k] <= 2048
  {
    assert Pow2(3) == 8 && Pow2(4) == 16 && Pow2(5) == 32 && Pow2(6) == 64 && Pow2(7) == 128 && Pow2(8) == 256
           && Pow2(9) == 512 && Pow2(10) == 1024 && Pow2(11) == 2048;
  }

  // ---------------------------------------------------------------------------
  // Blocks obtained from the fallback heap
  // ---------------------------------------------------------------------------

  datatype Use = InList(k: nat) | Live(layout: Layout) | Gone

  /** A block obtained from the fallback heap and what it is used for now. */
  datatype Block = Block(start: nat, size: nat, use: Use) {
    function End(): nat { start + size }
  }

  predicate BlockApart(a: Block, b: Block) {
    a.use.Gone? || b.use.Gone? || a.End() <= b.start || b.End() <= a.start
  }

  predicate BlockOk(b: Block, lo: nat, hi: nat) {
    b.use.Gone? ||
    (&& 0 < lo <= b.start && b.End() <= hi
     && match b.use
        case InList(k) => k < |BLOCK_SIZES| && b.size == BLOCK_SIZES[k] && b.start % BLOCK_SIZES[k] == 0
        case Live(l) =>
          && l.align > 0 && b.start % l.align == 0 && b.size == Extent(l)
          && (ListIndex(l).Some? ==> b.start % BLOCK_SIZES[ListIndex(l).value] == 0)
        case Gone => true)
  }

  predicate BlocksOk(blocks: seq<Block>, lo: nat, hi: nat) {
    && hi <= ISIZE_MAX + 1
    && (forall i :: 0 <= i < |blocks| ==> BlockOk(blocks[i], lo, hi))
    && (forall i, j :: 0 <= i < j < |blocks| ==> BlockApart(blocks[i], blocks[j]))
  }

  predicate Members(blocks: seq<Block>, list: seq<nat>, k: nat) {
    forall i :: 0 <= i < |list| ==> list[i] < |blocks| && blocks[list[i]].use == InList(k)
  }

  /** List `k` holds exactly the free blocks of its class, each once. */
  predicate ListOk(blocks: seq<Block>, list: seq<nat>, k: nat) {
    && Members(blocks, list, k)
    && (forall i, j :: 0 <= i < j < |list| ==> list[i] != list[j])
    && (forall b :: 0 <= b < |blocks| && blocks[b].use == InList(k) ==> b in list)
  }

  function Addr(blocks: seq<Block>, list: seq<nat>, i: nat): nat {
    if i < |list| && list[i] < |blocks| then blocks[list[i]].start else 0
  }

  /** The links in memory visit the blocks of the list in order. */
  predicate ChainOk(mem: Memory, head: nat, blocks: seq<Block>, list: seq<nat>) {
    && head == Addr(blocks, list, 0)
    && forall i :: 0 <= i < |list| && list[i] < |blocks| ==> Load8(mem, blocks[list[i]].start) == Addr(blocks, list, i + 1)
  }

  predicate ListsOk(mem: Memory, heads: seq<nat>, blocks: seq<Block>, lists: seq<seq<nat>>) {
    && |heads| == |lists| == |BLOCK_SIZES|
    && forall k :: 0 <= k < |lists| ==> ListOk(blocks, lists[k], k) && ChainOk(mem, heads[k], blocks, lists[k])
  }

  /** The bytes of every block but number `x` are the same. */
  ghost predicate KeptBut(mem: Memory, mem': Memory, blocks: seq<Block>, x: int) {
    forall i :: 0 <= i < |blocks| && i != x && !blocks[i].use.Gone? ==> KeptBlock(mem, mem', blocks[i])
  }

  ghost predicate KeptBlock(mem: Memory, mem': Memory, b: Block) {
    forall a: nat :: b.start <= a < b.End() ==> Get(mem', a) == Get(mem, a)
  }

  lemma ClassOfUse(b: Block, lo: nat, hi: nat)
    requires BlockOk(b, lo, hi) && b.use.InList?
    ensures b.size >= 8
  {
    ClassIsPow2(b.use.k);
  }

  /** A chain that does not contain block `x` survives whatever happens to `x` and to memory outside blocks. */
  lemma ChainKept(mem: Memory, mem': Memory, head: nat, blocks: seq<Block>, blocks': seq<Block>, list: seq<nat>, k: nat, x: int, lo: nat, hi: nat)
    requires ChainOk(mem, head, blocks, list) && Members(blocks, list, k) && BlocksOk(blocks, lo, hi)
    requires KeptBut(mem, mem', blocks, x) && x !in list
    requires |blocks| <= |blocks'| && forall i :: 0 <= i < |blocks| && i != x ==> blocks'[i] == blocks[i]
    ensures ChainOk(mem', head, blocks', list)
  {
    hide Load;
    forall i | 0 <= i < |list| ensures Load8(mem', blocks[list[i]].start) == Addr(blocks, list, i + 1) && Addr(blocks', list, i) == Addr(blocks, list, i) {
      ClassOfUse(blocks[list[i]], lo, hi);
      assert KeptBlock(mem, mem', blocks[list[i]]);
      LoadSame(mem, mem', blocks[list[i]].start, 8);
    }
    assert forall i :: 0 <= i <= |list| ==> Addr(blocks', list, i) == Addr(blocks, list, i);
  }

  /** Writing the first word of block `x` touches no other block. */
  lemma WordOfBlock(mem: Memory, blocks: seq<Block>, x: nat, v: nat, lo: nat, hi: nat)
    requires BlocksOk(blocks, lo, hi) && x < |blocks| && !blocks[x].use.Gone? && blocks[x].size >= 8 && v < Pow256(8)
    ensures KeptBut(mem, Store8(mem, blocks[x].start, v), blocks, x)
    ensures Load8(Store8(mem, blocks[x].start, v), blocks[x].start) == v
  {
    hide Load, Store, Pow256;
    Store8Effect(mem, blocks[x].start, v);
    forall i | 0 <= i < |blocks| && i != x && !blocks[i].use.Gone? ensures KeptBlock(mem, Store8(mem, blocks[x].start, v), blocks[i]) {
      assert BlockApart(blocks[i], blocks[x]) || BlockApart(blocks[x], blocks[i]);
    }
  }

  function SetUse(blocks: seq<Block>, x: nat, u: Use): seq<Block>
    requires x < |blocks|
  {
    blocks[x := blocks[x].(use := u)]
  }

  lemma SetUseOk(blocks: seq<Block>, x: nat, u: Use, lo: nat, hi: nat)
    requires BlocksOk(blocks, lo, hi) && x < |blocks| && !blocks[x].use.Gone? && BlockOk(blocks[x].(use := u), lo, hi)
    ensures BlocksOk(SetUse(blocks, x, u), lo, hi)
  {
  }

  /** A list whose class block `x` neither leaves nor joins. */
  lemma OtherList(mem: Memory, mem': Memory, head: nat, blocks: seq<Block>, x: nat, u: Use, list: seq<nat>, j: nat, lo: nat, hi: nat)
    requires BlocksOk(blocks, lo, hi) && x < |blocks| && ListOk(blocks, list, j) && ChainOk(mem, head, blocks, list)
    requires KeptBut(mem, mem', blocks, x) && blocks[x].use != InList(j) && u != InList(j)
    ensures var blocks' := SetUse(blocks, x, u); ListOk(blocks', list, j) && ChainOk(mem', head, blocks', list)
  {
    hide Load;
    ChainKept(mem, mem', head, blocks, SetUse(blocks, x, u), list, j, x, lo, hi);
  }

  /** A block of class `k` meets every layout of that class. */
  lemma ClassServes(b: Block, l: Layout, k: nat, lo: nat, hi: nat)
    requires LayoutOk(l) && ListIndex(l) == Some(k) && 0 < lo <= b.start && b.End() <= hi
    requires b.size == BLOCK_SIZES[k] && b.start % BLOCK_SIZES[k] == 0
    ensures BlockOk(b.(use := Live(l)), lo, hi) && b.size >= l.size && b.size >= 8
  {
    ClassIsPow2(k);
    LinkedList.AlignedTo(b.start, BLOCK_SIZES[k], l.align);
  }

  /** Taking the first block of list `k` for a layout of that class. */
  lemma PopList(mem: Memory, heads: seq<nat>, blocks: seq<Block>, lists: seq<seq<nat>>, k: nat, l: Layout, lo: nat, hi: nat)
    requires BlocksOk(blocks, lo, hi) && ListsOk(mem, heads, blocks, lists) && k < |lists| && lists[k] != []
    requires LayoutOk(l) && ListIndex(l) == Some(k)
    ensures var x := lists[k][0];
      && x < |blocks| && heads[k] == blocks[x].start && heads[k] != 0
      && var mem' := Store8(mem, heads[k], 0);
         && BlocksOk(SetUse(blocks, x, Live(l)), lo, hi)
         && ListsOk(mem', heads[k := Load8(mem, heads[k])], SetUse(blocks, x, Live(l)), lists[k := lists[k][1..]])
         && KeptBut(mem, mem', blocks, x)
  {
    hide Load, Store;
    var list := lists[k];
    assert ListOk(blocks, list, k) && ChainOk(mem, heads[k], blocks, list);
    var x := list[0];
    var b := blocks[x];
    assert BlockOk(b, lo, hi) && b.use == InList(k);
    ClassServes(b, l, k, lo, hi);
    SetUseOk(blocks, x, Live(l), lo, hi);
    LinkedList.ZeroFits();
    WordOfBlock(mem, blocks, x, 0, lo, hi);
    var mem' := Store8(mem, b.start, 0);
    PopSelf(mem, mem', heads[k], blocks, list, k, l, lo, hi);
    forall j | 0 <= j < |lists| && j != k
      ensures ListOk(SetUse(blocks, x, Live(l)), lists[j], j) && ChainOk(mem', heads[j], SetUse(blocks, x, Live(l)), lists[j])
    {
      assert ListOk(blocks, lists[j], j) && ChainOk(mem, heads[j], blocks, lists[j]);
      OtherList(mem, mem', heads[j], blocks, x, Live(l), lists[j], j, lo, hi);
    }
  }

  lemma PopSelf(mem: Memory, mem': Memory, head: nat, blocks: seq<Block>, list: seq<nat>, k: nat, l: Layout, lo: nat, hi: nat)
    requires BlocksOk(blocks, lo, hi) && list != [] && ListOk(blocks, list, k) && ChainOk(mem, head, blocks, list)
    requires KeptBut(mem, mem', blocks, list[0])
    ensures var blocks' := SetUse(blocks, list[0], Live(l));
      ListOk(blocks', list[1..], k) && ChainOk(mem', Load8(mem, head), blocks', list[1..])
  {
    hide Load;
    ChainTail(mem, head, blocks, list, k);
    ListTail(blocks, list, k, Live(l));
    hide BlocksOk, KeptBut, ListOk, ChainOk;
    ChainKept(mem, mem', Load8(mem, head), blocks, SetUse(blocks, list[0], Live(l)), list[1..], k, list[0], lo, hi);
  }

  lemma ChainTail(mem: Memory, head: nat, blocks: seq<Block>, list: seq<nat>, k: nat)
    requires list != [] && Members(blocks, list, k) && ChainOk(mem, head, blocks, list)
    ensures ChainOk(mem, Load8(mem, head), blocks, list[1..])
  {
    hide Load;
    var rest := list[1..];
    assert forall i :: 0 <= i < |rest| ==> rest[i] == list[i + 1];
    assert forall i :: 0 <= i <= |rest| ==> Addr(blocks, rest, i) == Addr(blocks, list, i + 1);
  }

  lemma ListTail(blocks: seq<Block>, list: seq<nat>, k: nat, u: Use)
    requires list != [] && ListOk(blocks, list, k) && u != InList(k)
    ensures list[0] < |blocks| && list[0] !in list[1..] && Members(blocks, list[1..], k)
    ensures ListOk(SetUse(blocks, list[0], u), list[1..], k)
  {
    var rest := list[1..];
    assert forall i :: 0 <= i < |rest| ==> rest[i] == list[i + 1];
    var blocks' := SetUse(blocks, list[0], u);
    forall b | 0 <= b < |blocks'| && blocks'[b].use == InList(k) ensures b in rest {
      assert b in list;
    }
  }

  /** Putting a live block back in front of the list of its class. */
  lemma PushList(mem: Memory, heads: seq<nat>, blocks: seq<Block>, lists: seq<seq<nat>>, k: nat, x: nat, lo: nat, hi: nat)
    requires BlocksOk(blocks, lo, hi) && ListsOk(mem, heads, blocks, lists) && k < |lists| && x < |blocks|
    requires blocks[x].use.Live? && ListIndex(blocks[x].use.layout) == Some(k)
    ensures var mem' := Store8(mem, blocks[x].start, heads[k]);
      && BlocksOk(SetUse(blocks, x, InList(k)), lo, hi)
      && ListsOk(mem', heads[k := blocks[x].start], SetUse(blocks, x, InList(k)), lists[k := [x] + lists[k]])
      && KeptBut(mem, mem', blocks, x)
  {
    hide Load, Store;
    var list := lists[k];
    assert ListOk(blocks, list, k) && ChainOk(mem, heads[k], blocks, list);
    var b := blocks[x];
    assert BlockOk(b, lo, hi);
    ClassIsPow2(k);
    SetUseOk(blocks, x, InList(k), lo, hi);
    HeadFits(heads[k], blocks, list, k, lo, hi);
    WordOfBlock(mem, blocks, x, heads[k], lo, hi);
    var mem' := Store8(mem, b.start, heads[k]);
    PushSelf(mem, mem', heads[k], blocks, list, k, x, lo, hi);
    forall j | 0 <= j < |lists| && j != k
      ensures ListOk(SetUse(blocks, x, InList(k)), lists[j], j) && ChainOk(mem', heads[j], SetUse(blocks, x, InList(k)), lists[j])
    {
      assert ListOk(blocks, lists[j], j) && ChainOk(mem, heads[j], blocks, lists[j]);
      OtherList(mem, mem', heads[j], blocks, x, InList(k), lists[j], j, lo, hi);
    }
  }

  lemma HeadFits(head: nat, blocks: seq<Block>, list: seq<nat>, k: nat, lo: nat, hi: nat)
    requires head == Addr(blocks, list, 0) && ListOk(blocks, list, k) && BlocksOk(blocks, lo, hi)
    ensures head < Pow256(8)
  {
    assert Pow256(8) == 0x1_0000_0000_0000_0000;
    if list != [] { assert BlockOk(blocks[list[0]], lo, hi); }
  }

  lemma PushSelf(mem: Memory, mem': Memory, head: nat, blocks: seq<Block>, list: seq<nat>, k: nat, x: nat, lo: nat, hi: nat)
    requires BlocksOk(blocks, lo, hi) && ListOk(blocks, list, k) && ChainOk(mem, head, blocks, list)
    requires x < |blocks| && blocks[x].use.Live? && KeptBut(mem, mem', blocks, x) && Load8(mem', blocks[x].start) == head
    ensures var blocks' := SetUse(blocks, x, InList(k));
      ListOk(blocks', [x] + list, k) && ChainOk(mem', blocks[x].start, blocks', [x] + list)
  {
    hide Load;
    var blocks' := SetUse(blocks, x, InList(k));
    assert x !in list;
    ListFront(blocks, list, k, x);
    ChainKept(mem, mem', head, blocks, blocks', list, k, x, lo, hi);
    hide BlocksOk, KeptBut, ListOk;
    ChainFront(mem', head, blocks', list, k, x);
  }

  lemma ListFront(blocks: seq<Block>, list: seq<nat>, k: nat, x: nat)
    requires x < |blocks| && blocks[x].use != InList(k) && ListOk(blocks, list, k)
    ensures ListOk(SetUse(blocks, x, InList(k)), [x] + list, k) && Members(SetUse(blocks, x, InList(k)), list, k)
  {
    var blocks' := SetUse(blocks, x, InList(k));
    forall b | 0 <= b < |blocks'| && blocks'[b].use == InList(k) ensures b in [x] + list {
      if b != x { assert b in list; }
    }
  }

  lemma ChainFront(mem: Memory, head: nat, blocks: seq<Block>, list: seq<nat>, k: nat, x: nat)
    requires ChainOk(mem, head, blocks, list) && Members(blocks, list, k) && x < |blocks| && Load8(mem, blocks[x].start) == head
    ensures ChainOk(mem, blocks[x].start, blocks, [x] + list)
  {
    hide Load;
    var list' := [x] + list;
    assert forall i :: 0 <= i <= |list| ==> Addr(blocks, list', i + 1) == Addr(blocks, list, i);
    forall i | 0 <= i < |list'| ensures Load8(mem, blocks[list'[i]].start) == Addr(blocks, list', i + 1) {
      if i > 0 { assert list'[i] == list[i - 1]; }
    }
  }

  // ---------------------------------------------------------------------------
  // The fallback heap
  // ---------------------------------------------------------------------------

  /** What a successful `allocate_first_fit` promises: aligned memory in the heap that no block uses. */
  predicate FreshAt(blocks: seq<Block>, b: Block, lo: nat, hi: nat) {
    BlockOk(b, lo, hi) && forall i :: 0 <= i < |blocks| ==> BlockApart(blocks[i], b)
  }

  /** A new block from the fallback heap, which may rearrange memory outside the blocks. */
  lemma NewBlock(mem: Memory, mem': Memory, heads: seq<nat>, blocks: seq<Block>, lists: seq<seq<nat>>, b: Block, lo: nat, hi: nat)
    requires BlocksOk(blocks, lo, hi) && ListsOk(mem, heads, blocks, lists) && FreshAt(blocks, b, lo, hi) && b.use.Live?
    requires KeptBut(mem, mem', blocks, -1)
    ensures BlocksOk(blocks + [b], lo, hi) && ListsOk(mem', heads, blocks + [b], lists)
  {
    hide Load;
    forall j | 0 <= j < |lists| ensures ListOk(blocks + [b], lists[j], j) && ChainOk(mem', heads[j], blocks + [b], lists[j]) {
      assert ListOk(blocks, lists[j], j) && ChainOk(mem, heads[j], blocks, lists[j]);
      ChainKept(mem, mem', heads[j], blocks, blocks + [b], lists[j], j, -1, lo, hi);
    }
  }

  /** A block returned to the fallback heap. */
  lemma DropBlock(mem: Memory, mem': Memory, heads: seq<nat>, blocks: seq<Block>, lists: seq<seq<nat>>, x: nat, lo: nat, hi: nat)
    requires BlocksOk(blocks, lo, hi) && ListsOk(mem, heads, blocks, lists) && x < |blocks| && blocks[x].use.Live?
    requires KeptBut(mem, mem', blocks, x)
    ensures BlocksOk(SetUse(blocks, x, Gone), lo, hi) && ListsOk(mem', heads, SetUse(blocks, x, Gone), lists)
  {
    hide Load;
    forall j | 0 <= j < |lists| ensures ListOk(SetUse(blocks, x, Gone), lists[j], j) && ChainOk(mem', heads[j], SetUse(blocks, x, Gone), lists[j]) {
      assert ListOk(blocks, lists[j], j) && ChainOk(mem, heads[j], blocks, lists[j]);
      OtherList(mem, mem', heads[j], blocks, x, Gone, lists[j], j, lo, hi);
    }
  }
}
