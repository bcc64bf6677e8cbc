/**
 Saving and restoring register state: src/thread/context.rs (`context_switch`, `context_switch_to`),
 src/interrupts.rs (`IrqFrame`, the entry stubs, `irq_preempt`) and src/thread/stack.rs
 (`init_context`). Memory is a map from 8-byte-aligned addresses to 64-bit words; words and
 addresses are unbounded integers here.
 */
module Context {
  datatype Regs = Regs(
    rax: int, rcx: int, rdx: int, rbx: int, rbp: int, rsi: int, rdi: int,
    r8: int, r9: int, r10: int, r11: int, r12: int, r13: int, r14: int, r15: int,
    rsp: int, rip: int, rflags: int)

  datatype ThreadContext = ThreadContext(
    rsp: int, rip: int, rbx: int, rbp: int, r12: int, r13: int, r14: int, r15: int,
    rax: int, rcx: int, rdx: int, rsi: int, rdi: int, r8: int, r9: int, r10: int, r11: int, rflags: int)

  type Memory = map<int, int>

  function Load(mem: Memory, a: int): int { if a in mem then mem[a] else 0 }

  // The interrupt flag is bit 9 of rflags.
  predicate HasIF(f: int) { (f / 512) % 2 == 1 }
  function ClearIF(f: int): int { if HasIF(f) then f - 512 else f }
  function SetIF(f: int): int { if HasIF(f) then f else f + 512 }

  lemma FlagRoundTrip(f: int)
    ensures !HasIF(ClearIF(f)) && HasIF(SetIF(f))
    ensures SetIF(ClearIF(f)) == SetIF(f)
    ensures HasIF(f) ==> SetIF(ClearIF(f)) == f
  {
    assert (f - 512) / 512 == f / 512 - 1 && (f + 512) / 512 == f / 512 + 1;
  }

  /** The flag is the bit worth 512, whatever stands above and below it, and nothing else changes. */
  lemma FlagExactly(high: int, on: bool, low: nat)
    requires low < 512
    ensures var f := 1024 * high + (if on then 512 else 0) + low;
      (HasIF(f) <==> on) && ClearIF(f) == 1024 * high + low && SetIF(f) == 1024 * high + 512 + low
  {
    var f := 1024 * high + (if on then 512 else 0) + low;
    assert f / 512 == 2 * high + if on then 1 else 0;
  }

  // ---------------------------------------------------------------------------
  // The two switch routines
  // ---------------------------------------------------------------------------

  /** What `context_switch` saves: the callee-saved registers, rsp, the return address at [rsp] and rflags. */
  function SaveYield(c: ThreadContext, r: Regs, mem: Memory): ThreadContext {
    c.(rsp := r.rsp, rip := Load(mem, r.rsp), rbx := r.rbx, rbp := r.rbp, r12 := r.r12, r13 := r.r13,
       r14 := r.r14, r15 := r.r15, rflags := r.rflags)
  }

  /** The registers after either routine has restored `c`: everything, with interrupts on, at the address on the stack. */
  function Restored(c: ThreadContext, mem: Memory): Regs {
    Regs(c.rax, c.rcx, c.rdx, c.rbx, c.rbp, c.rsi, c.rdi, c.r8, c.r9, c.r10, c.r11, c.r12, c.r13, c.r14, c.r15,
         c.rsp + 8, Load(mem, c.rsp), SetIF(ClearIF(c.rflags)))
  }

  /** Restoring passes rflags through the word below the new stack pointer. */
  function RestoreMem(c: ThreadContext, mem: Memory): Memory {
    mem[c.rsp - 8 := ClearIF(c.rflags)]
  }

  /** The CPU, memory and the context slots, changed instruction by instruction. */
  class Cpu {
    var r: Regs
    var mem: Memory
    var ctx: seq<ThreadContext>

    method Push(v: int)
      modifies `r, `mem
      ensures r == old(r).(rsp := old(r).rsp - 8) && mem == old(mem)[old(r).rsp - 8 := v]
    {
      r := r.(rsp := r.rsp - 8);
      mem := mem[r.rsp := v];
    }

    method Pop() returns (v: int)
      modifies `r
      ensures v == Load(mem, old(r).rsp) && r == old(r).(rsp := old(r).rsp + 8)
    {
      v := Load(mem, r.rsp);
      r := r.(rsp := r.rsp + 8);
    }

    /** The restoring half that both routines share; `slot` is in rdi. */
    method RestoreFrom(slot: nat)
      requires slot < |ctx| && r.rdi == slot
      modifies `r, `mem
      ensures r == Restored(ctx[slot], old(mem)) && mem == RestoreMem(ctx[slot], old(mem))
    {
      var c := ctx[slot];
      r := r.(rsp := c.rsp);
      r := r.(rbx := c.rbx);
      r := r.(rbp := c.rbp);
      r := r.(r12 := c.r12);
      r := r.(r13 := c.r13);
      r := r.(r14 := c.r14);
      r := r.(r15 := c.r15);
      r := r.(rax := c.rax);
      r := r.(rcx := c.rcx);
      r := r.(rdx := c.rdx);
      r := r.(rsi := c.rsi);
      r := r.(r8 := c.r8);
      r := r.(r9 := c.r9);
      r := r.(r10 := c.r10);
      r := r.(r11 := c.r11);
      Push(c.rflags);
      mem := mem[r.rsp := ClearIF(Load(mem, r.rsp))];   // btr qword ptr [rsp], 9
      var f := Pop();
      r := r.(rflags := f);                             // popfq
      r := r.(rdi := c.rdi);
      r := r.(rflags := SetIF(r.rflags));               // sti
      var ip := Pop();
      r := r.(rip := ip);                               // ret
    }

    /** `context_switch_to(new)`. */
    method ContextSwitchTo(slot: nat)
      requires slot < |ctx| && r.rdi == slot
      modifies `r, `mem
      ensures r == Restored(ctx[slot], old(mem)) && mem == RestoreMem(ctx[slot], old(mem))
    {
      RestoreFrom(slot);
    }

    /** `context_switch(old, new)`: entered with the return address at [rsp]. */
    method ContextSwitch(from: nat, to: nat)
      requires from < |ctx| && to < |ctx| && r.rdi == from && r.rsi == to
      modifies this
      ensures ctx == old(ctx)[from := SaveYield(old(ctx)[from], old(r), old(mem))]
      ensures var below := old(mem)[old(r).rsp - 8 := old(r).rflags];
        r == Restored(ctx[to], below) && mem == RestoreMem(ctx[to], below)
    {
      Push(r.rflags);                                   // pushfq
      var f := Pop();
      ctx := ctx[from := ctx[from].(rflags := f)];
      r := r.(rflags := ClearIF(r.rflags));             // cli
      ctx := ctx[from := ctx[from].(rsp := r.rsp)];
      r := r.(rax := Load(mem, r.rsp));
      ctx := ctx[from := ctx[from].(rip := r.rax)];
      ctx := ctx[from := ctx[from].(rbx := r.rbx)];
      ctx := ctx[from := ctx[from].(rbp := r.rbp)];
      ctx := ctx[from := ctx[from].(r12 := r.r12)];
      ctx := ctx[from := ctx[from].(r13 := r.r13)];
      ctx := ctx[from := ctx[from].(r14 := r.r14)];
      ctx := ctx[from := ctx[from].(r15 := r.r15)];
      r := r.(rdi := r.rsi);                            // rdi = new
      RestoreFrom(to);
    }

    /** `irq_preempt(from, to, frame)`: copy the interrupted registers out of the frame, then switch. */
    method IrqPreempt(from: nat, to: nat, frame: int)
      requires from < |ctx| && to < |ctx|
      modifies this
      ensures ctx == old(ctx)[from := SaveFrame(old(ctx)[from], old(mem), frame)]
      ensures var m := old(mem)[FrameWord(old(mem), frame, RSP) - 8 := FrameWord(old(mem), frame, RIP)];
        r == Restored(ctx[to], m) && mem == RestoreMem(ctx[to], m)
    {
      var c := ctx[from];
      c := c.(rip := FrameWord(mem, frame, RIP));
      c := c.(rax := FrameWord(mem, frame, RAX));
      c := c.(rcx := FrameWord(mem, frame, RCX));
      c := c.(rdx := FrameWord(mem, frame, RDX));
      c := c.(rbx := FrameWord(mem, frame, RBX));
      c := c.(rbp := FrameWord(mem, frame, RBP));
      c := c.(rsi := FrameWord(mem, frame, RSI));
      c := c.(rdi := FrameWord(mem, frame, RDI));
      c := c.(r8 := FrameWord(mem, frame, R8));
      c := c.(r9 := FrameWord(mem, frame, R9));
      c := c.(r10 := FrameWord(mem, frame, R10));
      c := c.(r11 := FrameWord(mem, frame, R11));
      c := c.(r12 := FrameWord(mem, frame, R12));
      c := c.(r13 := FrameWord(mem, frame, R13));
      c := c.(r14 := FrameWord(mem, frame, R14));
      c := c.(r15 := FrameWord(mem, frame, R15));
      c := c.(rflags := FrameWord(mem, frame, RFLAGS));
      var resume := FrameWord(mem, frame, RSP) - 8;
      mem := mem[resume := FrameWord(mem, frame, RIP)];
      c := c.(rsp := resume);
      ctx := ctx[from := c];
      r := r.(rdi := to);
      ContextSwitchTo(to);
    }
  }

  // ---------------------------------------------------------------------------
  // The interrupt frame
  // ---------------------------------------------------------------------------

  // Offsets of `IrqFrame`, in words.
  const RAX := 0
  const RCX := 1
  const RDX := 2
  const RBX := 3
  const RBP := 4
  const RSI := 5
  const RDI := 6
  const R8 := 7
  const R9 := 8
  const R10 := 9
  const R11 := 10
  const R12 := 11
  const R13 := 12
  const R14 := 13
  const R15 := 14
  const RIP := 15
  const CS := 16
  const RFLAGS := 17
  const RSP := 18
  const SS := 19

  function FrameWord(mem: Memory, frame: int, offset: int): int { Load(mem, frame + 8 * offset) }

  function SaveFrame(c: ThreadContext, mem: Memory, frame: int): ThreadContext {
    ThreadContext(FrameWord(mem, frame, RSP) - 8, FrameWord(mem, frame, RIP),
      FrameWord(mem, frame, RBX), FrameWord(mem, frame, RBP), FrameWord(mem, frame, R12), FrameWord(mem, frame, R13),
      FrameWord(mem, frame, R14), FrameWord(mem, frame, R15), FrameWord(mem, frame, RAX), FrameWord(mem, frame, RCX),
      FrameWord(mem, frame, RDX), FrameWord(mem, frame, RSI), FrameWord(mem, frame, RDI), FrameWord(mem, frame, R8),
      FrameWord(mem, frame, R9), FrameWord(mem, frame, R10), FrameWord(mem, frame, R11), FrameWord(mem, frame, RFLAGS))
  }

  /** Push the words of `vs` in order, the first at `sp - 8`. */
  function PushAll(mem: Memory, sp: int, vs: seq<int>): Memory
    decreases |vs|
  {
    if vs == [] then mem else PushAll(mem[sp - 8 := vs[0]], sp - 8, vs[1..])
  }

  /** What the CPU and then the entry stub push: ss, rsp, rflags, cs, rip, r15 down to rax. */
  function FrameValues(r: Regs, cs: int, ss: int): seq<int> {
    [ss, r.rsp, r.rflags, cs, r.rip, r.r15, r.r14, r.r13, r.r12, r.r11, r.r10, r.r9, r.r8,
     r.rdi, r.rsi, r.rbp, r.rbx, r.rdx, r.rcx, r.rax]
  }

  /** The CPU aligns the stack pointer to 16 bytes before pushing. */
  function FrameAddr(r: Regs): int { r.rsp - r.rsp % 16 - 160 }

  function Interrupted(r: Regs, mem: Memory, cs: int, ss: int): Memory {
    PushAll(mem, FrameAddr(r) + 160, FrameValues(r, cs, ss))
  }

  lemma {:induction false} PushAllLoads(mem: Memory, sp: int, vs: seq<int>)
    ensures forall k :: 0 <= k < |vs| ==> Load(PushAll(mem, sp, vs), sp - 8 * (k + 1)) == vs[k]
    ensures forall a :: a >= sp || a < sp - 8 * |vs| ==> Load(PushAll(mem, sp, vs), a) == Load(mem, a)
    decreases |vs|
  {
    if vs != [] {
      var mem1 := mem[sp - 8 := vs[0]];
      PushAllLoads(mem1, sp - 8, vs[1..]);
      forall k | 0 <= k < |vs| ensures Load(PushAll(mem, sp, vs), sp - 8 * (k + 1)) == vs[k] {
        if k > 0 {
          assert sp - 8 * (k + 1) == (sp - 8) - 8 * ((k - 1) + 1);
          assert vs[k] == vs[1..][k - 1];
        }
      }
    }
  }
}
