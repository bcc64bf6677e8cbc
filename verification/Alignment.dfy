/** `align_up` of src/allocator.rs: a bit mask that rounds up to a power of two. */
module Alignment {
  function Pow2(k: nat): (p: nat)
    ensures p >= 1
  {
    if k == 0 then 1 else 2 * Pow2(k - 1)
  }

  /** Bitwise and of the low `n` bits. */
  function And(x: nat, y: nat, n: nat): nat {
    if n == 0 then 0 else (x % 2) * (y % 2) + 2 * And(x / 2, y / 2, n - 1)
  }

  lemma {:induction false} AndAllOnes(x: nat, n: nat)
    requires x < Pow2(n)
    ensures And(x, Pow2(n) - 1, n) == x
  {
    if n > 0 {
      AndAllOnes(x / 2, n - 1);
      assert (Pow2(n) - 1) / 2 == Pow2(n - 1) - 1 && (Pow2(n) - 1) % 2 == 1;
    }
  }

  lemma HalfMod(x: nat, p: nat)
    requires p > 0
    ensures x % (2 * p) == x % 2 + 2 * ((x / 2) % p)
  {
    var q, r := (x / 2) / p, (x / 2) % p;
    assert x == 2 * (x / 2) + x % 2;
    assert x / 2 == p * q + r;
    assert x == (2 * p) * q + (x % 2 + 2 * r);
    ModUnique(x, 2 * p, q, x % 2 + 2 * r);
  }

  lemma ModUnique(x: nat, d: nat, q: nat, r: nat)
    requires d > 0 && x == d * q + r && r < d
    ensures x % d == r && x / d == q
  {
    var t := x / d - q;
    assert d * t == r - x % d;
    assert t >= 1 ==> d * t >= d;
    assert t <= -1 ==> d * t + d <= 0;
  }

  /** Clearing the low `k` bits subtracts the remainder. */
  lemma {:induction false} AndHighMask(x: nat, k: nat, n: nat)
    requires k <= n && x < Pow2(n)
    ensures Pow2(k) <= Pow2(n)
    ensures And(x, Pow2(n) - Pow2(k), n) == x - x % Pow2(k)
  {
    if k == 0 {
      AndAllOnes(x, n);
    } else {
      AndHighMask(x / 2, k - 1, n - 1);
      assert (Pow2(n) - Pow2(k)) / 2 == Pow2(n - 1) - Pow2(k - 1) && (Pow2(n) - Pow2(k)) % 2 == 0;
      HalfMod(x, Pow2(k - 1));
    }
  }

  ghost predicate IsPow2(a: nat) { exists k :: 0 <= k < 64 && Pow2(k) == a }

  /** `(addr + align - 1) & !(align - 1)` on 64 bits. */
  function AlignUp(addr: nat, align: nat): nat
    requires 1 <= align <= Pow2(64)
  {
    And(addr + align - 1, Pow2(64) - align, 64)
  }

  /** The result is the least multiple of `align` that is not below `addr`. */
  lemma AlignUpRounds(addr: nat, align: nat)
    requires IsPow2(align) && addr + align - 1 < Pow2(64)
    ensures align <= Pow2(64)
    ensures AlignUp(addr, align) % align == 0
    ensures addr <= AlignUp(addr, align) < addr + align
    ensures AlignUp(addr, align) == addr <==> addr % align == 0
  {
    hide And, Pow2;
    var k :| 0 <= k < 64 && Pow2(k) == align;
    AndHighMask(addr + align - 1, k, 64);
    Rounding(addr, align);
  }

  lemma Rounding(addr: nat, align: nat)
    requires align > 0
    ensures var up := addr + align - 1 - (addr + align - 1) % align;
      up % align == 0 && addr <= up < addr + align && (up == addr <==> addr % align == 0)
  {
    var x := addr + align - 1;
    assert x == align * (x / align) + x % align;
    ModUnique(x - x % align, align, x / align, 0);
    if addr % align == 0 {
      assert addr == align * (addr / align);
      assert x == align * (addr / align) + (align - 1);
      ModUnique(x, align, addr / align, align - 1);
    }
  }
}
