/** Byte-addressed memory with little-endian words. */
module ByteMemory {
  type Memory = map<nat, nat>

  function Get(mem: Memory, a: nat): nat { if a in mem then mem[a] % 256 else 0 }

  function Pow256(n: nat): (p: nat)
    ensures p >= 1
  {
    if n == 0 then 1 else 256 * Pow256(n - 1)
  }

  /** Write the low `n` bytes of `v` at `a`, least significant first. */
  function Store(mem: Memory, a: nat, v: nat, n: nat): Memory
    decreases n
  {
    if n == 0 then mem else Store(mem[a := v % 256], a + 1, v / 256, n - 1)
  }

  function Load(mem: Memory, a: nat, n: nat): nat
    decreases n
  {
    if n == 0 then 0 else Get(mem, a) + 256 * Load(mem, a + 1, n - 1)
  }

  /** The two memories agree on the `n` bytes at `a`. */
  ghost predicate Same(mem: Memory, mem': Memory, a: nat, n: nat) {
    forall b: nat :: a <= b < a + n ==> Get(mem', b) == Get(mem, b)
  }

  lemma {:induction false} LoadSame(mem: Memory, mem': Memory, a: nat, n: nat)
    requires Same(mem, mem', a, n)
    ensures Load(mem', a, n) == Load(mem, a, n)
    decreases n
  {
    if n > 0 { LoadSame(mem, mem', a + 1, n - 1); }
  }

  lemma {:induction false} StoreOutside(mem: Memory, a: nat, v: nat, n: nat)
    ensures forall b: nat :: b < a || b >= a + n ==> Get(Store(mem, a, v, n), b) == Get(mem, b)
    decreases n
  {
    if n > 0 { StoreOutside(mem[a := v % 256], a + 1, v / 256, n - 1); }
  }

  /** What is stored is what is loaded. */
  lemma {:induction false} LoadStore(mem: Memory, a: nat, v: nat, n: nat)
    requires v < Pow256(n)
    ensures Load(Store(mem, a, v, n), a, n) == v
    decreases n
  {
    if n > 0 {
      var mem1 := mem[a := v % 256];
      LoadStore(mem1, a + 1, v / 256, n - 1);
      StoreOutside(mem1, a + 1, v / 256, n - 1);
      assert v == 256 * (v / 256) + v % 256;
    }
  }

  function Load8(mem: Memory, a: nat): nat { Load(mem, a, 8) }
  function Store8(mem: Memory, a: nat, v: nat): Memory { Store(mem, a, v, 8) }

  /** A 64-bit store changes the eight bytes it covers and nothing else. */
  lemma Store8Effect(mem: Memory, a: nat, v: nat)
    requires v < Pow256(8)
    ensures Load8(Store8(mem, a, v), a) == v
    ensures forall b: nat :: b < a || b >= a + 8 ==> Get(Store8(mem, a, v), b) == Get(mem, b)
    ensures forall b: nat :: b + 8 <= a || a + 8 <= b ==> Load8(Store8(mem, a, v), b) == Load8(mem, b)
  {
    hide Store, Load, Pow256;
    LoadStore(mem, a, v, 8);
    StoreOutside(mem, a, v, 8);
    forall b: nat | b + 8 <= a || a + 8 <= b ensures Load8(Store8(mem, a, v), b) == Load8(mem, b) {
      LoadSame(mem, Store8(mem, a, v), b, 8);
    }
  }
}
