/**
 First-fit allocation on lists of regions: the specification of src/allocator/linked_list.rs and
 what every sequence of operations keeps.
 */
module FreeList {
  import opened Wrappers
  import opened Alignment

  const NODE_SIZE: nat := 16      // size_of::<ListNode>()
  const NODE_ALIGN: nat := 8      // align_of::<ListNode>()
  const ISIZE_MAX: nat := 0x7FFF_FFFF_FFFF_FFFF
  const USIZE_MAX: nat := 0xFFFF_FFFF_FFFF_FFFF

  datatype Layout = Layout(size: nat, align: nat)

  /** What `Layout` values guarantee. */
  ghost predicate LayoutOk(l: Layout) { IsPow2(l.align) && l.size + l.align - 1 <= ISIZE_MAX }

  datatype Region = Region(start: nat, size: nat) {
    function End(): nat { start + size }
  }

  /** Free regions in list order, live blocks, and bytes lost in front of over-aligned blocks. */
  datatype Heap = Heap(free: seq<Region>, live: seq<Region>, lost: int)

  function Max(a: nat, b: nat): nat { if a < b then b else a }

  lemma WordBits()
    ensures Pow2(64) == USIZE_MAX + 1 && Pow2(63) == ISIZE_MAX + 1 && Pow2(3) == 8
  {
    hide Pow2;
    SmallPowers();
    Pow2Add(8, 8);
    Pow2Add(16, 15);
    Pow2Add(31, 32);
    Pow2Add(32, 32);
    Pow2Add(15, 1);
    Pow2Add(16, 16);
  }

  lemma SmallPowers()
    ensures Pow2(1) == 2 && Pow2(3) == 8 && Pow2(8) == 256
  {
  }

  lemma {:induction false} Pow2Add(a: nat, b: nat)
    ensures Pow2(a + b) == Pow2(a) * Pow2(b)
  {
    if b > 0 {
      Pow2Add(a, b - 1);
      assert Pow2(a) * (2 * Pow2(b - 1)) == 2 * (Pow2(a) * Pow2(b - 1));
    }
  }

  lemma {:induction false} Pow2Multiple(k: nat)
    requires k >= 3
    ensures Pow2(k) % 8 == 0 && Pow2(k) >= 8
  {
    if k > 3 {
      Pow2Multiple(k - 1);
      EightTwice(Pow2(k - 1));
    } else {
      assert Pow2(3) == 8;
    }
  }

  lemma EightTwice(x: nat)
    requires x % 8 == 0
    ensures 2 * x % 8 == 0
  {
  }

  lemma {:induction false} Pow2Below(k: nat)
    requires k < 3
    ensures Pow2(k) < 8
  {
    assert Pow2(0) == 1 && Pow2(1) == 2 && Pow2(2) == 4;
  }

  lemma {:induction false} Pow2Mono(j: nat, k: nat)
    requires j <= k
    ensures Pow2(j) <= Pow2(k)
  {
    if j < k { Pow2Mono(j, k - 1); }
  }

  /** The alignment used is a power of two and a multiple of 8, and small enough to add to an address. */
  lemma RoundedAlign(align: nat)
    requires IsPow2(align)
    ensures var a := Max(align, NODE_ALIGN); IsPow2(a) && a % 8 == 0 && a <= ISIZE_MAX + 1
  {
    hide Pow2;
    WordBits();
    var k :| 0 <= k < 64 && Pow2(k) == align;
    if k >= 3 { Pow2Multiple(k); Pow2Mono(k, 63); } else { Pow2Below(k); assert Pow2(3) == 8; }
  }

  /** `size_align`: None is the "alignment failed" panic. */
  function SizeAlign(l: Layout): Option<(nat, nat)> {
    var align := Max(l.align, NODE_ALIGN);
    if l.size + align - 1 > ISIZE_MAX || align > Pow2(64) then None
    else Some((Max(AlignUp(l.size, align), NODE_SIZE), align))
  }

  /** Rounded sizes hold the request and a node, and keep addresses aligned to 8. */
  lemma SizeAlignRounds(l: Layout)
    requires LayoutOk(l) && SizeAlign(l).Some?
    ensures var (size, align) := SizeAlign(l).value;
      && IsPow2(align) && align % 8 == 0 && align <= ISIZE_MAX + 1 && align >= l.align
      && l.size <= size && size >= NODE_SIZE && size % 8 == 0 && size <= ISIZE_MAX
      && (l.align <= 8 ==> align == 8)
  {
    hide Pow2, AlignUp;
    WordBits();
    RoundedAlign(l.align);
    var align := Max(l.align, NODE_ALIGN);
    AlignUpRounds(l.size, align);
    MultipleOfMultiple(AlignUp(l.size, align), align);
    AlignUpBelow(l.size, align);
  }

  lemma MultipleOfMultiple(x: nat, a: nat)
    requires a > 0 && a % 8 == 0 && x % a == 0
    ensures x % 8 == 0
  {
    var b := a / 8;
    assert x == a * (x / a) && a == 8 * b;
    assert x == 8 * (b * (x / a)) by { assert (8 * b) * (x / a) == 8 * (b * (x / a)); }
  }

  lemma AlignUpBelow(x: nat, a: nat)
    requires IsPow2(a) && x + a - 1 <= ISIZE_MAX && x + a - 1 < Pow2(64)
    ensures a <= Pow2(64) && AlignUp(x, a) <= ISIZE_MAX
  {
    hide Pow2, And;
    AlignUpRounds(x, a);
  }

  /** `alloc_from_region`. */
  function Fit(r: Region, size: nat, align: nat): Option<nat>
    requires 1 <= align <= Pow2(64)
  {
    var start := AlignUp(r.start, align);
    if start + size > USIZE_MAX then None
    else if start + size > r.End() then None
    else
      var excess := r.End() - (start + size);
      if excess > 0 && excess < NODE_SIZE then None else Some(start)
  }

  /** The first region at or after `k` that fits. */
  function FirstFit(free: seq<Region>, size: nat, align: nat, k: nat): (r: Option<nat>)
    requires 1 <= align <= Pow2(64) && k <= |free|
    ensures r.Some? ==> k <= r.value < |free| && Fit(free[r.value], size, align).Some?
    decreases |free| - k
  {
    if k == |free| then None
    else if Fit(free[k], size, align).Some? then Some(k)
    else FirstFit(free, size, align, k + 1)
  }

  lemma {:induction false} FirstFitFinds(free: seq<Region>, size: nat, align: nat, k: nat)
    requires 1 <= align <= Pow2(64) && k <= |free|
    ensures var r := FirstFit(free, size, align, k);
      && (r.None? ==> forall i :: k <= i < |free| ==> Fit(free[i], size, align).None?)
      && (r.Some? ==> k <= r.value < |free| && Fit(free[r.value], size, align).Some?
                      && forall i :: k <= i < r.value ==> Fit(free[i], size, align).None?)
    decreases |free| - k
  {
    hide Fit;
    if k < |free| && Fit(free[k], size, align).None? { FirstFitFinds(free, size, align, k + 1); }
  }

  function Without(rs: seq<Region>, i: nat): seq<Region>
    requires i < |rs|
  {
    rs[..i] + rs[i + 1..]
  }

  /** The list after region `i` gave the block at `start`: the rest of the region goes to the front. */
  function Split(free: seq<Region>, i: nat, start: nat, size: nat): seq<Region>
    requires i < |free|
  {
    var end := start + size;
    if free[i].End() > end then [Region(end, free[i].End() - end)] + Without(free, i) else Without(free, i)
  }

  /** `alloc` on the lists; None is a null pointer. */
  function Alloc(h: Heap, size: nat, align: nat): (Heap, Option<nat>)
    requires 1 <= align <= Pow2(64)
  {
    var f := FirstFit(h.free, size, align, 0);
    if f.None? then (h, None)
    else
      var i := f.value;
      var start := Fit(h.free[i], size, align).value;
      (Heap(Split(h.free, i, start, size), h.live + [Region(start, size)], h.lost + (start - h.free[i].start)), Some(start))
  }

  /** `dealloc` of live block `i`. */
  function Dealloc(h: Heap, i: nat): Heap
    requires i < |h.live|
  {
    Heap([h.live[i]] + h.free, Without(h.live, i), h.lost)
  }

  // ---------------------------------------------------------------------------
  // Safety
  // ---------------------------------------------------------------------------

  predicate RegionOk(r: Region, lo: nat, hi: nat) {
    lo <= r.start && r.End() <= hi && r.start % 8 == 0 && r.size >= NODE_SIZE
  }

  predicate Apart(a: Region, b: Region) { a.End() <= b.start || b.End() <= a.start }

  predicate AllOk(rs: seq<Region>, lo: nat, hi: nat) {
    forall i :: 0 <= i < |rs| ==> RegionOk(rs[i], lo, hi)
  }

  predicate AllApart(rs: seq<Region>) {
    forall i, j :: 0 <= i < j < |rs| ==> Apart(rs[i], rs[j])
  }

  predicate ApartFrom(r: Region, rs: seq<Region>) {
    forall i :: 0 <= i < |rs| ==> Apart(r, rs[i])
  }

  /**
   Free regions and live blocks lie in the heap, are aligned and large enough for a node, and no
   two of them overlap.
   */
  predicate HeapOk(h: Heap, lo: nat, hi: nat) {
    && 0 < lo <= hi <= ISIZE_MAX + 1
    && AllOk(h.free, lo, hi) && AllOk(h.live, lo, hi)
    && AllApart(h.free) && AllApart(h.live)
    && (forall i :: 0 <= i < |h.free| ==> ApartFrom(h.free[i], h.live))
  }

  function Sum(rs: seq<Region>): nat {
    if rs == [] then 0 else rs[0].size + Sum(rs[1..])
  }

  /** Free, live and lost bytes: constant over every operation. */
  function Bytes(h: Heap): int { Sum(h.free) + Sum(h.live) + h.lost }

  lemma {:induction false} SumWithout(rs: seq<Region>, i: nat)
    requires i < |rs|
    ensures Sum(Without(rs, i)) + rs[i].size == Sum(rs)
  {
    if i == 0 {
      assert Without(rs, 0) == rs[1..];
    } else {
      SumWithout(rs[1..], i - 1);
      assert Without(rs, i)[1..] == Without(rs[1..], i - 1);
    }
  }

  lemma {:induction false} SumAppend(rs: seq<Region>, r: Region)
    ensures Sum(rs + [r]) == Sum(rs) + r.size
  {
    if rs != [] {
      SumAppend(rs[1..], r);
      assert (rs + [r])[1..] == rs[1..] + [r];
    }
  }

  lemma FitAt(r: Region, size: nat, align: nat, start: nat, lo: nat, hi: nat)
    requires RegionOk(r, lo, hi) && hi <= ISIZE_MAX + 1 && 1 <= align <= Pow2(64) && size >= NODE_SIZE && size % 8 == 0
    requires start == AlignUp(r.start, align) && r.start <= start && start % 8 == 0
    ensures Fit(r, size, align).Some? ==>
      && Fit(r, size, align).value == start && start + size <= r.End()
      && (r.End() > start + size ==> r.End() - (start + size) >= NODE_SIZE && (start + size) % 8 == 0)
    ensures start == r.start && size == r.size ==> Fit(r, size, align) == Some(r.start)
  {
    hide Pow2, AlignUp;
    EightAdds(start, size);
  }

  lemma EightAdds(a: nat, b: nat)
    requires a % 8 == 0 && b % 8 == 0
    ensures (a + b) % 8 == 0
  {
  }

  /** Where a fitting block lies in its region. */
  lemma FitIsInside(r: Region, size: nat, align: nat, lo: nat, hi: nat)
    requires RegionOk(r, lo, hi) && hi <= ISIZE_MAX + 1 && IsPow2(align) && align % 8 == 0 && align <= ISIZE_MAX + 1
    requires size >= NODE_SIZE && size % 8 == 0
    ensures align <= Pow2(64)
    ensures Fit(r, size, align).Some? ==>
      var start := Fit(r, size, align).value;
      && r.start <= start && start + size <= r.End() && start % align == 0 && start % 8 == 0
      && (r.End() > start + size ==> r.End() - (start + size) >= NODE_SIZE && (start + size) % 8 == 0)
      && (align == 8 ==> start == r.start)
    ensures r.start % align == 0 && size == r.size ==> Fit(r, size, align) == Some(r.start)
  {
    hide Pow2, AlignUp;
    WordBits();
    AlignUpRounds(r.start, align);
    MultipleOfMultiple(AlignUp(r.start, align), align);
    FitAt(r, size, align, AlignUp(r.start, align), lo, hi);
    hide Fit;
  }

  // ---------------------------------------------------------------------------
  // When a region serves a request
  // ---------------------------------------------------------------------------

  /** The least multiple of `align` in the region, with room for the block and for a node in whatever is left. */
  predicate ServesAt(r: Region, size: nat, align: nat, start: nat) {
    && r.start <= start < r.start + align && start % align == 0 && start + size <= r.start + r.size
    && (start + size == r.start + r.size || start + size + 16 <= r.start + r.size)
  }

  ghost predicate Serves(r: Region, size: nat, align: nat) { exists start :: ServesAt(r, size, align, start) }

  lemma OneMultiple(base: nat, align: nat, a: nat, b: nat)
    requires align > 0 && base <= a < base + align && base <= b < base + align && a % align == 0 && b % align == 0
    ensures a == b
  {
    var (i, j) := (a / align, b / align);
    assert a == align * i && b == align * j;
    if i < j { Multiples(align, i, j); }
    if j < i { Multiples(align, j, i); }
  }

  lemma Multiples(align: nat, i: nat, j: nat)
    requires i < j
    ensures align * i + align <= align * j
  {
    assert align * j == align * i + align * (j - i);
    assert align * (j - i) == align + align * (j - i - 1);
  }

  /** A region is accepted, and at which address, exactly as `ServesAt` says. */
  lemma FitExactly(r: Region, size: nat, align: nat, x: nat)
    requires r.End() <= ISIZE_MAX + 1 && IsPow2(align) && align <= ISIZE_MAX + 1
    ensures align <= Pow2(64) && (Fit(r, size, align) == Some(x) <==> ServesAt(r, size, align, x))
  {
    hide Pow2, AlignUp;
    WordBits();
    AlignUpRounds(r.start, align);
    var start := AlignUp(r.start, align);
    if ServesAt(r, size, align, x) { OneMultiple(r.start, align, start, x); }
  }

  lemma NoFitExactly(r: Region, size: nat, align: nat)
    requires r.End() <= ISIZE_MAX + 1 && IsPow2(align) && align <= ISIZE_MAX + 1
    ensures align <= Pow2(64) && (Fit(r, size, align).Some? <==> Serves(r, size, align))
  {
    hide Fit, ServesAt;
    FitExactly(r, size, align, 0);
    if Fit(r, size, align).Some? { FitExactly(r, size, align, Fit(r, size, align).value); }
    if Serves(r, size, align) {
      var x :| ServesAt(r, size, align, x);
      FitExactly(r, size, align, x);
    }
  }

  /** The rounded request: alignment at least 8; the least multiple of it that holds the size, but 16 where that is less than 16. */
  predicate Rounded(l: Layout, size: nat, align: nat) {
    && align == (if l.align < 8 then 8 else l.align)
    && if l.size == 0 || (align == 8 && l.size <= 8) then size == 16
       else size % align == 0 && l.size <= size < l.size + align
  }

  /** Rounding panics exactly when the padded size would exceed the largest `isize`, and otherwise rounds. */
  lemma SizeAlignExactly(l: Layout)
    requires LayoutOk(l)
    ensures SizeAlign(l).None? <==> l.size + (if l.align < 8 then 8 else l.align) > 0x8000_0000_0000_0000
    ensures SizeAlign(l).Some? ==> Rounded(l, SizeAlign(l).value.0, SizeAlign(l).value.1)
  {
    hide Pow2, AlignUp;
    WordBits();
    RoundedAlign(l.align);
    var align := Max(l.align, NODE_ALIGN);
    if SizeAlign(l).Some? {
      AlignUpRounds(l.size, align);
      hide IsPow2;
      RoundsTo(l, AlignUp(l.size, align), align);
    }
  }

  lemma RoundsTo(l: Layout, m: nat, align: nat)
    requires align == Max(l.align, NODE_ALIGN) && align % 8 == 0 && m % align == 0 && l.size <= m < l.size + align
    ensures Rounded(l, Max(m, NODE_SIZE), align)
  {
    if l.size == 0 { OneMultiple(0, align, m, 0); }
    else if align == 8 && l.size <= 8 { OneMultiple(l.size, align, m, 8); }
    else if align > 8 { BigMultiple(m, align); }
  }

  lemma BigMultiple(m: nat, align: nat)
    requires align > 8 && align % 8 == 0 && m > 0 && m % align == 0
    ensures m >= 16
  {
    assert m == align * (m / align);
    assert m / align >= 1;
    assert align * (m / align) >= align;
  }

  /** Region `i` is the first that serves, at `start`. */
  ghost predicate FirstServes(free: seq<Region>, i: nat, size: nat, align: nat, start: nat) {
    i < |free| && ServesAt(free[i], size, align, start) && forall j :: 0 <= j < i ==> !Serves(free[j], size, align)
  }

  /**
   An allocation fails exactly when no free region serves it. Otherwise it takes the block from the first region
   that does; what lies behind the block stays free, what lies before it is lost, every other region stays free.
   */
  lemma AllocExactly(h: Heap, size: nat, align: nat, lo: nat, hi: nat)
    requires HeapOk(h, lo, hi) && IsPow2(align) && align <= ISIZE_MAX + 1
    ensures align <= Pow2(64) && align >= 1
    ensures var (h', p) := Alloc(h, size, align);
      && (p.None? <==> forall i :: 0 <= i < |h.free| ==> !Serves(h.free[i], size, align))
      && (p.Some? ==> exists i: nat :: FirstServes(h.free, i, size, align, p.value) && Cut(h, h', i, p.value, size))
  {
    WordBits();
    hide Pow2;
    AlignPositive(align);
    FirstFitFinds(h.free, size, align, 0);
    var f := FirstFit(h.free, size, align, 0);
    hide Fit, FirstFit, Serves, ServesAt;
    forall i | 0 <= i < |h.free| ensures Fit(h.free[i], size, align).Some? <==> Serves(h.free[i], size, align) {
      assert RegionOk(h.free[i], lo, hi);
      NoFitExactly(h.free[i], size, align);
    }
    if f.Some? {
      var i := f.value;
      var start := Fit(h.free[i], size, align).value;
      assert RegionOk(h.free[i], lo, hi);
      FitExactly(h.free[i], size, align, start);
      CutKeeps(h, i, start, size);
      assert FirstServes(h.free, i, size, align, start);
    }
  }

  lemma AlignPositive(align: nat)
    requires IsPow2(align)
    ensures align >= 1
  {
  }

  /** The bytes before the block are lost, those behind it are a free region of their own, all other regions remain. */
  ghost predicate Cut(h: Heap, h': Heap, i: nat, start: nat, size: nat) {
    && i < |h.free| && h'.live == h.live + [Region(start, size)] && h'.lost == h.lost + (start - h.free[i].start)
    && (forall j :: 0 <= j < |h.free| && j != i ==> h.free[j] in h'.free)
    && (h.free[i].End() > start + size ==> Region(start + size, h.free[i].End() - (start + size)) in h'.free)
  }

  lemma CutKeeps(h: Heap, i: nat, start: nat, size: nat)
    requires i < |h.free|
    ensures Cut(h, Heap(Split(h.free, i, start, size), h.live + [Region(start, size)], h.lost + (start - h.free[i].start)), i, start, size)
  {
    var rest := Without(h.free, i);
    forall j | 0 <= j < |h.free| && j != i ensures h.free[j] in rest {
      assert rest[if j < i then j else j - 1] == h.free[j];
    }
  }

  lemma WithoutApart(rs: seq<Region>, i: nat, lo: nat, hi: nat)
    requires i < |rs| && AllOk(rs, lo, hi) && AllApart(rs)
    ensures AllOk(Without(rs, i), lo, hi) && AllApart(Without(rs, i)) && ApartFrom(rs[i], Without(rs, i))
    ensures forall j :: 0 <= j < |Without(rs, i)| ==> Without(rs, i)[j] in rs
  {
    var w := Without(rs, i);
    assert forall j :: 0 <= j < |w| ==> w[j] == if j < i then rs[j] else rs[j + 1];
  }

  /** A part of a region is apart from whatever the region was apart from. */
  lemma PartApart(r: Region, part: Region, rs: seq<Region>)
    requires r.start <= part.start && part.End() <= r.End() && ApartFrom(r, rs)
    ensures ApartFrom(part, rs)
  {
  }

  /** Every allocation keeps the heap safe, conserves bytes, and returns an aligned block of free memory. */
  lemma AllocKeeps(h: Heap, size: nat, align: nat, lo: nat, hi: nat)
    requires HeapOk(h, lo, hi) && IsPow2(align) && align % 8 == 0 && align <= ISIZE_MAX + 1
    requires size >= NODE_SIZE && size % 8 == 0
    ensures align <= Pow2(64)
    ensures var (h', p) := Alloc(h, size, align);
      && HeapOk(h', lo, hi) && Bytes(h') == Bytes(h)
      && h.lost <= h'.lost && (align == 8 ==> h'.lost == h.lost)
      && (p.None? ==> h' == h)
      && (p.Some? ==> h'.live == h.live + [Region(p.value, size)] && p.value % align == 0)
  {
    WordBits();
    hide Pow2;
    assert align <= Pow2(64);
    FirstFitFinds(h.free, size, align, 0);
    hide Fit, FirstFit;
    var f := FirstFit(h.free, size, align, 0);
    if f.Some? {
      FitIsInside(h.free[f.value], size, align, lo, hi);
      SplitKeeps(h, f.value, Fit(h.free[f.value], size, align).value, size, lo, hi);
    }
  }

  lemma SplitKeeps(h: Heap, i: nat, start: nat, size: nat, lo: nat, hi: nat)
    requires HeapOk(h, lo, hi) && i < |h.free| && h.free[i].start <= start && start + size <= h.free[i].End()
    requires start % 8 == 0 && size >= NODE_SIZE
    requires h.free[i].End() > start + size ==> h.free[i].End() - (start + size) >= NODE_SIZE && (start + size) % 8 == 0
    ensures var h' := Heap(Split(h.free, i, start, size), h.live + [Region(start, size)], h.lost + (start - h.free[i].start));
      HeapOk(h', lo, hi) && Bytes(h') == Bytes(h)
  {
    var r := h.free[i];
    var rest := Without(h.free, i);
    WithoutApart(h.free, i, lo, hi);
    SplitBytes(h, i, start, size);
    forall j | 0 <= j < |rest| ensures ApartFrom(rest[j], h.live) {
      assert rest[j] in h.free;
    }
    TakeBlock(Heap(rest, h.live, h.lost), r, Region(start, size), lo, hi);
    if r.End() > start + size {
      AddTail(Heap(rest, h.live, h.lost), r, Region(start, size), lo, hi);
    }
  }

  lemma SplitBytes(h: Heap, i: nat, start: nat, size: nat)
    requires i < |h.free| && h.free[i].start <= start && start + size <= h.free[i].End()
    ensures Bytes(Heap(Split(h.free, i, start, size), h.live + [Region(start, size)], h.lost + (start - h.free[i].start))) == Bytes(h)
  {
    var r := h.free[i];
    SumWithout(h.free, i);
    SumAppend(h.live, Region(start, size));
    if r.End() > start + size {
      var tail := Region(start + size, r.End() - (start + size));
      assert ([tail] + Without(h.free, i))[1..] == Without(h.free, i);
    }
  }

  /** A block cut from memory that nothing else uses becomes live. */
  lemma TakeBlock(h: Heap, r: Region, block: Region, lo: nat, hi: nat)
    requires HeapOk(h, lo, hi) && ApartFrom(r, h.free) && ApartFrom(r, h.live)
    requires r.start <= block.start && block.End() <= r.End() && RegionOk(block, lo, hi)
    ensures HeapOk(h.(live := h.live + [block]), lo, hi)
  {
    PartApart(r, block, h.free);
    PartApart(r, block, h.live);
    forall j | 0 <= j < |h.free| ensures ApartFrom(h.free[j], h.live + [block]) { assert Apart(block, h.free[j]); }
  }

  /** The part of that memory behind the block becomes a free region. */
  lemma AddTail(h: Heap, r: Region, block: Region, lo: nat, hi: nat)
    requires HeapOk(h.(live := h.live + [block]), lo, hi) && ApartFrom(r, h.free) && ApartFrom(r, h.live)
    requires r.start <= block.start && block.End() < r.End() && r.End() <= hi
    requires block.End() % 8 == 0 && r.End() - block.End() >= NODE_SIZE && lo <= block.start
    ensures HeapOk(h.(free := [Region(block.End(), r.End() - block.End())] + h.free, live := h.live + [block]), lo, hi)
  {
    var tail := Region(block.End(), r.End() - block.End());
    PartApart(r, tail, h.free);
    PartApart(r, tail, h.live);
    assert ApartFrom(tail, h.live + [block]);
  }

  /** Every deallocation of a live block keeps the heap safe and conserves bytes. */
  lemma DeallocKeeps(h: Heap, i: nat, lo: nat, hi: nat)
    requires HeapOk(h, lo, hi) && i < |h.live|
    ensures HeapOk(Dealloc(h, i), lo, hi) && Bytes(Dealloc(h, i)) == Bytes(h)
  {
    WithoutApart(h.live, i, lo, hi);
    SumWithout(h.live, i);
    assert ([h.live[i]] + h.free)[1..] == h.free;
    forall j | 0 <= j < |h.free| ensures ApartFrom(h.free[j], Without(h.live, i)) && Apart(h.live[i], h.free[j]) {}
  }

  /** Freeing a block and allocating the same layout again gives back the address and the previous free list. */
  lemma DeallocAllocInverse(h: Heap, i: nat, align: nat, lo: nat, hi: nat)
    requires HeapOk(h, lo, hi) && i < |h.live| && IsPow2(align) && align % 8 == 0 && align <= ISIZE_MAX + 1
    requires h.live[i].start % align == 0 && h.live[i].size % 8 == 0
    ensures align <= Pow2(64)
    ensures Alloc(Dealloc(h, i), h.live[i].size, align) ==
      (Heap(h.free, Without(h.live, i) + [h.live[i]], h.lost), Some(h.live[i].start))
  {
    var b := h.live[i];
    FitIsInside(b, b.size, align, lo, hi);
    hide Fit;
    var free := [b] + h.free;
    assert Without(free, 0) == h.free;
    assert FirstFit(free, b.size, align, 0) == Some(0);
  }

  // ---------------------------------------------------------------------------
  // Runs
  // ---------------------------------------------------------------------------

  datatype Op =
    | OpAlloc(layout: Layout)
    | OpDealloc(block: nat, ptr: nat, layout: Layout)   // returns the live block at that position
    | OpWrite(block: nat, addr: nat, v: nat)            // a client writes into its own block

  /** What clients may do: free a live block with the layout it was made with, write inside a live block. */
  ghost predicate Permitted(h: Heap, op: Op) {
    match op
    case OpAlloc(l) => LayoutOk(l)
    case OpDealloc(i, ptr, l) =>
      LayoutOk(l) && i < |h.live| && SizeAlign(l).Some? && h.live[i] == Region(ptr, SizeAlign(l).value.0)
    case OpWrite(i, addr, v) => i < |h.live| && h.live[i].start <= addr < h.live[i].End()
  }

  function Apply(h: Heap, op: Op): Heap {
    match op
    case OpAlloc(l) =>
      var sa := SizeAlign(l);
      if sa.None? || sa.value.1 > Pow2(64) then h else Alloc(h, sa.value.0, sa.value.1).0
    case OpDealloc(i, _, _) => if i < |h.live| then Dealloc(h, i) else h
    case OpWrite(_, _, _) => h
  }

  ghost predicate PermittedRun(h: Heap, ops: seq<Op>)
    decreases |ops|
  {
    ops == [] || (Permitted(h, ops[0]) && PermittedRun(Apply(h, ops[0]), ops[1..]))
  }

  function Run(h: Heap, ops: seq<Op>): Heap
    decreases |ops|
  {
    if ops == [] then h else Run(Apply(h, ops[0]), ops[1..])
  }

  predicate SmallAligns(ops: seq<Op>) {
    forall k :: 0 <= k < |ops| && ops[k].OpAlloc? ==> ops[k].layout.align <= 8
  }

  lemma ApplyKeeps(h: Heap, op: Op, lo: nat, hi: nat)
    requires HeapOk(h, lo, hi) && Permitted(h, op)
    ensures var h' := Apply(h, op);
      HeapOk(h', lo, hi) && Bytes(h') == Bytes(h) && h.lost <= h'.lost
      && ((op.OpAlloc? ==> op.layout.align <= 8) ==> h'.lost == h.lost)
  {
    hide Pow2, Fit, HeapOk, Bytes, IsPow2;
    match op
    case OpAlloc(l) =>
      if SizeAlign(l).Some? {
        SizeAlignRounds(l);
        AllocKeeps(h, SizeAlign(l).value.0, SizeAlign(l).value.1, lo, hi);
      }
    case OpDealloc(i, _, _) => DeallocKeeps(h, i, lo, hi);
    case OpWrite(_, _, _) =>
  }

  /**
   After any permitted run on a fresh heap nothing overlaps, free and live bytes never exceed the
   heap, and they equal it when no alignment above 8 was asked for.
   */
  lemma RunConserves(start: nat, size: nat, ops: seq<Op>)
    requires 0 < start && start + size <= ISIZE_MAX + 1 && start % 8 == 0 && size >= NODE_SIZE
    requires PermittedRun(Heap([Region(start, size)], [], 0), ops)
    ensures var h := Run(Heap([Region(start, size)], [], 0), ops);
      && HeapOk(h, start, start + size)
      && Sum(h.free) + Sum(h.live) <= size
      && (SmallAligns(ops) ==> Sum(h.free) + Sum(h.live) == size)
  {
    var h0 := Heap([Region(start, size)], [], 0);
    assert [Region(start, size)][1..] == [];
    assert Sum([Region(start, size)]) == size;
    RunKeeps(h0, ops, start, start + size);
  }

  lemma {:induction false} RunKeeps(h: Heap, ops: seq<Op>, lo: nat, hi: nat)
    requires HeapOk(h, lo, hi) && PermittedRun(h, ops)
    ensures var h' := Run(h, ops);
      HeapOk(h', lo, hi) && Bytes(h') == Bytes(h) && h.lost <= h'.lost && (SmallAligns(ops) ==> h'.lost == h.lost)
    decreases |ops|
  {
    hide HeapOk, Bytes, Apply, Permitted;
    if ops != [] {
      ApplyKeeps(h, ops[0], lo, hi);
      RunKeeps(Apply(h, ops[0]), ops[1..], lo, hi);
    }
  }
}
