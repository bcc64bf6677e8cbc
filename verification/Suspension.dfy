/**
 Suspend and resume over whole runs: with disjoint stacks, every thread comes back with the registers
 and the stack it was suspended with, whichever routine suspended it and whichever resumes it.
 */
module Suspension {
  import opened Context

  /** A thread's stack: the words at addresses `lo` up to but not including `hi`. */
  datatype Stack = Stack(lo: int, hi: int)

  predicate Within(st: Stack, a: int) { st.lo <= a < st.hi }

  ghost predicate DisjointStacks(sts: seq<Stack>) {
    forall i, j, a :: 0 <= i < |sts| && 0 <= j < |sts| && Within(sts[i], a) && Within(sts[j], a) ==> i == j
  }

  /** How a suspended thread left the CPU: never started, interrupted, or in a call of context_switch; and memory then. */
  datatype Past =
    | Fresh(entry: int, top: int, was: Memory)
    | Preempted(r: Regs, was: Memory)
    | Yielded(r: Regs, ret: int, was: Memory)        // registers at the call, and its return address

  /** The stack pointer a suspended thread will run with. */
  function StackAt(p: Past): int {
    match p
    case Fresh(_, top, _) => top + 8
    case Preempted(r, _) => r.rsp
    case Yielded(r, _, _) => r.rsp
  }

  /** From its stack pointer up, the thread's stack is as it left it. */
  ghost predicate OwnStack(p: Past, mem: Memory, st: Stack) {
    forall a :: StackAt(p) <= a < st.hi ==> Load(mem, a) == Load(p.was, a)
  }

  /** What a thread must find in its registers when it runs again. */
  predicate Resumes(p: Past, r: Regs) {
    match p
    case Preempted(q, _) => r == q
    case Yielded(q, ret, _) =>
      && r.rsp == q.rsp && r.rip == ret && HasIF(r.rflags) && SetIF(q.rflags) == r.rflags
      && r.rbx == q.rbx && r.rbp == q.rbp && r.r12 == q.r12 && r.r13 == q.r13 && r.r14 == q.r14 && r.r15 == q.r15
    case Fresh(entry, top, _) =>
      r == Regs(0, 0, 0, 0, 0, 0, 0, 0, 0, 0, 0, 0, 0, 0, 0, top + 8, entry, 514)
  }

  /** The context and the thread's stack hold exactly that. */
  ghost predicate Holds(c: ThreadContext, mem: Memory, p: Past, st: Stack) {
    && Load(mem, c.rsp) == c.rip && OwnStack(p, mem, st)
    && Within(st, c.rsp) && Within(st, c.rsp - 8)
    && match p
       case Preempted(q, _) =>
         && HasIF(q.rflags) && c.rflags == q.rflags && c.rsp == q.rsp - 8 && c.rip == q.rip
         && c.rax == q.rax && c.rcx == q.rcx && c.rdx == q.rdx && c.rbx == q.rbx && c.rbp == q.rbp
         && c.rsi == q.rsi && c.rdi == q.rdi && c.r8 == q.r8 && c.r9 == q.r9 && c.r10 == q.r10 && c.r11 == q.r11
         && c.r12 == q.r12 && c.r13 == q.r13 && c.r14 == q.r14 && c.r15 == q.r15
       case Yielded(q, ret, _) =>
         && c.rflags == q.rflags && c.rsp == q.rsp - 8 && c.rip == ret
         && c.rbx == q.rbx && c.rbp == q.rbp && c.r12 == q.r12 && c.r13 == q.r13 && c.r14 == q.r14 && c.r15 == q.r15
       case Fresh(entry, top, _) =>
         && c.rsp == top && c.rip == entry && c.rflags == 514
         && c.rax == 0 && c.rcx == 0 && c.rdx == 0 && c.rbx == 0 && c.rbp == 0
         && c.rsi == 0 && c.rdi == 0 && c.r8 == 0 && c.r9 == 0 && c.r10 == 0 && c.r11 == 0
         && c.r12 == 0 && c.r13 == 0 && c.r14 == 0 && c.r15 == 0
  }

  /** Either restore routine gives a suspended thread what it must find. */
  lemma RestoreResumes(c: ThreadContext, mem: Memory, p: Past, st: Stack)
    requires Holds(c, mem, p, st)
    ensures Resumes(p, Restored(c, mem))
  {
    FlagRoundTrip(c.rflags);
    FlagExactly(0, true, 2);
  }

  /** Writing elsewhere does not disturb a suspended thread. */
  ghost predicate SameOn(mem: Memory, mem': Memory, st: Stack) {
    forall a :: Within(st, a) ==> Load(mem', a) == Load(mem, a)
  }

  // ---------------------------------------------------------------------------
  // Fresh threads
  // ---------------------------------------------------------------------------

  /** `KernelStack::top`: clear bit 4 of the end address, then subtract 16. */
  function Top(end: int): int { (if (end / 16) % 2 == 1 then end - 16 else end) - 16 }

  /** The stack pointer is 16-byte aligned exactly when the end of the storage is. */
  lemma TopAligned(end: int)
    ensures Top(end) % 16 == 0 <==> end % 16 == 0
    ensures end - 32 <= Top(end) <= end - 16
  {
  }

  /** Storage that ends `m` past a multiple of 32. */
  lemma TopExactly(q: int, m: nat)
    requires m < 32
    ensures Top(32 * q + m) == 32 * q + m - if m < 16 then 16 else 32
  {
    assert (32 * q + m) / 16 == 2 * q + if m < 16 then 0 else 1;
  }

  /** Storage that ends at 0x1008, eight past a multiple of 16. */
  lemma TopMisaligned()
    ensures Top(0x1008) == 0xFF8 && Top(0x1008) % 16 == 8
  {
  }

  /** `init_context` on a default context. */
  function InitContext(top: int, entry: int): ThreadContext {
    ThreadContext(top, entry, 0, 0, 0, 0, 0, 0, 0, 0, 0, 0, 0, 0, 0, 0, 0, 0x202)
  }

  /** A thread that has never run holds its entry point, on every stack of at least 40 bytes. */
  lemma FreshHolds(mem: Memory, st: Stack, entry: int)
    requires st.lo + 40 <= st.hi
    ensures Holds(InitContext(Top(st.hi), entry), mem[Top(st.hi) := entry], Fresh(entry, Top(st.hi), mem), st)
  {
    TopAligned(st.hi);
  }

  // ---------------------------------------------------------------------------
  // Preemption
  // ---------------------------------------------------------------------------

  /** Room below the stack pointer for the interrupt frame and the resume address. */
  predicate Room(r: Regs, st: Stack) {
    r.rsp % 8 == 0 && st.lo + 176 <= r.rsp <= st.hi
  }

  /** The handler works below the frame on the interrupted stack and outside the stacks of other threads. */
  ghost predicate HandlerOk(mem: Memory, mem': Memory, frame: int, sts: seq<Stack>, running: nat) {
    && (forall a :: frame <= a < frame + 160 ==> Load(mem', a) == Load(mem, a))
    && (running < |sts| ==> forall a :: frame + 160 <= a < sts[running].hi ==> Load(mem', a) == Load(mem, a))
    && (forall i :: 0 <= i < |sts| && i != running ==> SameOn(mem, mem', sts[i]))
  }

  /** The frame in memory is the interrupted register state. */
  lemma FrameHasRegs(r: Regs, mem: Memory, mem': Memory, cs: int, ss: int)
    requires forall a :: FrameAddr(r) <= a < FrameAddr(r) + 160 ==> Load(mem', a) == Load(Interrupted(r, mem, cs, ss), a)
    ensures var f := FrameAddr(r);
      && FrameWord(mem', f, RAX) == r.rax && FrameWord(mem', f, RCX) == r.rcx && FrameWord(mem', f, RDX) == r.rdx
      && FrameWord(mem', f, RBX) == r.rbx && FrameWord(mem', f, RBP) == r.rbp && FrameWord(mem', f, RSI) == r.rsi
      && FrameWord(mem', f, RDI) == r.rdi && FrameWord(mem', f, R8) == r.r8 && FrameWord(mem', f, R9) == r.r9
      && FrameWord(mem', f, R10) == r.r10 && FrameWord(mem', f, R11) == r.r11 && FrameWord(mem', f, R12) == r.r12
      && FrameWord(mem', f, R13) == r.r13 && FrameWord(mem', f, R14) == r.r14 && FrameWord(mem', f, R15) == r.r15
      && FrameWord(mem', f, RIP) == r.rip && FrameWord(mem', f, RFLAGS) == r.rflags && FrameWord(mem', f, RSP) == r.rsp
  {
    var f := FrameAddr(r);
    var vs := FrameValues(r, cs, ss);
    PushAllLoads(mem, f + 160, vs);
    forall j | 0 <= j < 20 ensures FrameWord(mem', f, j) == vs[19 - j] {
      assert f + 160 - 8 * ((19 - j) + 1) == f + 8 * j;
    }
    assert FrameWord(mem', f, 0) == vs[19] && FrameWord(mem', f, 1) == vs[18] && FrameWord(mem', f, 2) == vs[17];
    assert FrameWord(mem', f, 3) == vs[16] && FrameWord(mem', f, 4) == vs[15] && FrameWord(mem', f, 5) == vs[14];
    assert FrameWord(mem', f, 6) == vs[13] && FrameWord(mem', f, 7) == vs[12] && FrameWord(mem', f, 8) == vs[11];
    assert FrameWord(mem', f, 9) == vs[10] && FrameWord(mem', f, 10) == vs[9] && FrameWord(mem', f, 11) == vs[8];
    assert FrameWord(mem', f, 12) == vs[7] && FrameWord(mem', f, 13) == vs[6] && FrameWord(mem', f, 14) == vs[5];
    assert FrameWord(mem', f, 15) == vs[4] && FrameWord(mem', f, 17) == vs[2] && FrameWord(mem', f, 18) == vs[1];
  }

  /** The frame as the handler sees it, from the word pushed last to the word pushed first. */
  function Layout(r: Regs, cs: int, ss: int): (s: seq<int>) {
    [r.rax, r.rcx, r.rdx, r.rbx, r.rbp, r.rsi, r.rdi, r.r8, r.r9, r.r10, r.r11, r.r12, r.r13, r.r14, r.r15,
     r.rip, cs, r.rflags, r.rsp, ss]
  }

  lemma FrameAligned(r: Regs)
    ensures FrameAddr(r) % 16 == 0 && r.rsp - 176 < FrameAddr(r) <= r.rsp - 160
  {
  }

  lemma LayoutReverses(r: Regs, cs: int, ss: int)
    ensures |FrameValues(r, cs, ss)| == 20 == |Layout(r, cs, ss)|
    ensures forall j :: 0 <= j < 20 ==> Layout(r, cs, ss)[j] == FrameValues(r, cs, ss)[19 - j]
  {
  }

  /** Memory at the frame holds exactly these words. */
  lemma FrameLayout(r: Regs, mem: Memory, cs: int, ss: int)
    ensures |Layout(r, cs, ss)| == 20
    ensures forall j :: 0 <= j < 20 ==> Load(Interrupted(r, mem, cs, ss), FrameAddr(r) + 8 * j) == Layout(r, cs, ss)[j]
  {
    hide Load, PushAll, FrameAddr, Layout, FrameValues;
    LayoutReverses(r, cs, ss);
    WordsPushed(mem, FrameAddr(r), FrameValues(r, cs, ss));
  }

  lemma WordsPushed(mem: Memory, f: int, vs: seq<int>)
    requires |vs| == 20
    ensures forall j :: 0 <= j < 20 ==> Load(PushAll(mem, f + 160, vs), f + 8 * j) == vs[19 - j]
  {
    PushAllLoads(mem, f + 160, vs);
    hide Load, PushAll;
    forall j | 0 <= j < 20 ensures Load(PushAll(mem, f + 160, vs), f + 8 * j) == vs[19 - j] {
      assert f + 160 - 8 * ((19 - j) + 1) == f + 8 * j;
    }
  }

  /** Leaving the handler without a switch pops the same registers. */
  function Iret(mem: Memory, f: int): Regs {
    Regs(FrameWord(mem, f, RAX), FrameWord(mem, f, RCX), FrameWord(mem, f, RDX), FrameWord(mem, f, RBX),
      FrameWord(mem, f, RBP), FrameWord(mem, f, RSI), FrameWord(mem, f, RDI), FrameWord(mem, f, R8), FrameWord(mem, f, R9),
      FrameWord(mem, f, R10), FrameWord(mem, f, R11), FrameWord(mem, f, R12), FrameWord(mem, f, R13), FrameWord(mem, f, R14),
      FrameWord(mem, f, R15), FrameWord(mem, f, RSP), FrameWord(mem, f, RIP), FrameWord(mem, f, RFLAGS))
  }

  // ---------------------------------------------------------------------------
  // Runs
  // ---------------------------------------------------------------------------

  /** The running thread, the CPU, memory, the context slots, and how each thread last left the CPU. */
  datatype Sys = Sys(running: nat, r: Regs, mem: Memory, ctx: seq<ThreadContext>, past: seq<Past>)

  datatype Event =
    | Work(r: Regs, mem: Memory)                               // the running thread computes
    | Stay(cs: int, ss: int, mem: Memory)                      // interrupt without a switch
    | Preempt(cs: int, ss: int, mem: Memory, to: nat)          // interrupt that switches
    | Yield(ret: int, to: nat)                                 // call of context_switch

  ghost predicate Possible(s: Sys, e: Event, sts: seq<Stack>)
    requires s.running < |sts|
  {
    match e
    case Work(r, mem) =>
      Room(r, sts[s.running]) && forall i :: 0 <= i < |sts| && i != s.running ==> SameOn(s.mem, mem, sts[i])
    case Stay(cs, ss, mem) =>
      HasIF(s.r.rflags) && HandlerOk(Interrupted(s.r, s.mem, cs, ss), mem, FrameAddr(s.r), sts, s.running)
    case Preempt(cs, ss, mem, to) =>
      && HasIF(s.r.rflags) && HandlerOk(Interrupted(s.r, s.mem, cs, ss), mem, FrameAddr(s.r), sts, s.running)
      && to < |sts| && to != s.running
    case Yield(ret, to) => to < |sts| && to != s.running
  }

  /** Load thread `to` from its slot. */
  function Resume(s: Sys, mem: Memory, ctx: seq<ThreadContext>, past: seq<Past>, to: nat): Sys
    requires to < |ctx|
  {
    Sys(to, Restored(ctx[to], mem), RestoreMem(ctx[to], mem), ctx, past)
  }

  function Step(s: Sys, e: Event): Sys
    requires s.running < |s.ctx| == |s.past|
    requires (e.Preempt? || e.Yield?) ==> e.to < |s.ctx|
  {
    match e
    case Work(r, mem) => s.(r := r, mem := mem)
    case Stay(cs, ss, mem) => s.(r := Iret(mem, FrameAddr(s.r)), mem := mem)
    case Preempt(cs, ss, mem, to) =>
      var f := FrameAddr(s.r);
      var ctx := s.ctx[s.running := SaveFrame(s.ctx[s.running], mem, f)];
      Resume(s, mem[FrameWord(mem, f, RSP) - 8 := FrameWord(mem, f, RIP)], ctx, s.past[s.running := Preempted(s.r, s.mem)], to)
    case Yield(ret, to) =>
      var called := s.mem[s.r.rsp - 8 := ret];
      var r := s.r.(rsp := s.r.rsp - 8, rdi := s.running, rsi := to);
      var ctx := s.ctx[s.running := SaveYield(s.ctx[s.running], r, called)];
      Resume(s, called[r.rsp - 8 := r.rflags], ctx, s.past[s.running := Yielded(s.r, ret, s.mem)], to)
  }

  /** Every suspended thread's context and stack hold what it must find. */
  ghost predicate Ok(s: Sys, sts: seq<Stack>) {
    && s.running < |sts| == |s.ctx| == |s.past|
    && DisjointStacks(sts)
    && forall i :: 0 <= i < |sts| && i != s.running ==> Holds(s.ctx[i], s.mem, s.past[i], sts[i])
  }

  lemma HoldsKept(c: ThreadContext, mem: Memory, mem': Memory, p: Past, st: Stack)
    requires Holds(c, mem, p, st) && SameOn(mem, mem', st)
    ensures Holds(c, mem', p, st)
  {
  }

  /** A thread is resumed only with what it must find, and everyone else stays resumable. */
  lemma ResumeOk(s: Sys, mem: Memory, ctx: seq<ThreadContext>, past: seq<Past>, to: nat, sts: seq<Stack>)
    requires |sts| == |ctx| == |past| && to < |sts| && DisjointStacks(sts)
    requires forall i :: 0 <= i < |sts| ==> Holds(ctx[i], mem, past[i], sts[i])
    ensures Ok(Resume(s, mem, ctx, past, to), sts)
    ensures Resumes(past[to], Resume(s, mem, ctx, past, to).r) && OwnStack(past[to], Resume(s, mem, ctx, past, to).mem, sts[to])
  {
    RestoreResumes(ctx[to], mem, past[to], sts[to]);
    forall i | 0 <= i < |sts| && i != to ensures Holds(ctx[i], RestoreMem(ctx[to], mem), past[i], sts[i]) {
      HoldsKept(ctx[i], mem, RestoreMem(ctx[to], mem), past[i], sts[i]);
    }
  }

  lemma PreemptHolds(s: Sys, cs: int, ss: int, mem: Memory, sts: seq<Stack>, c: ThreadContext)
    requires s.running < |sts| && Room(s.r, sts[s.running]) && HasIF(s.r.rflags)
    requires HandlerOk(Interrupted(s.r, s.mem, cs, ss), mem, FrameAddr(s.r), sts, s.running)
    ensures var f := FrameAddr(s.r);
      && FrameWord(mem, f, RSP) == s.r.rsp && FrameWord(mem, f, RIP) == s.r.rip
      && Holds(SaveFrame(c, mem, f), mem[s.r.rsp - 8 := s.r.rip], Preempted(s.r, s.mem), sts[s.running])
  {
    FrameHasRegs(s.r, s.mem, mem, cs, ss);
    AboveKept(s, cs, ss, mem, sts);
  }

  /** Nothing at or above the interrupted stack pointer changes on the interrupted stack. */
  lemma AboveKept(s: Sys, cs: int, ss: int, mem: Memory, sts: seq<Stack>)
    requires s.running < |sts| && HandlerOk(Interrupted(s.r, s.mem, cs, ss), mem, FrameAddr(s.r), sts, s.running)
    ensures forall a :: s.r.rsp <= a < sts[s.running].hi ==> Load(mem, a) == Load(s.mem, a)
  {
    PushAllLoads(s.mem, FrameAddr(s.r) + 160, FrameValues(s.r, cs, ss));
    forall a | s.r.rsp <= a < sts[s.running].hi ensures Load(mem, a) == Load(s.mem, a) {
      assert Load(mem, a) == Load(Interrupted(s.r, s.mem, cs, ss), a);
    }
  }

  lemma YieldHolds(s: Sys, ret: int, to: nat, st: Stack, c: ThreadContext)
    requires Room(s.r, st)
    ensures var called := s.mem[s.r.rsp - 8 := ret];
      var r := s.r.(rsp := s.r.rsp - 8, rdi := s.running, rsi := to);
      Holds(SaveYield(c, r, called), called[r.rsp - 8 := r.rflags], Yielded(s.r, ret, s.mem), st)
  {
  }

  /** The running thread's stack from its stack pointer up. */
  ghost predicate SameAbove(s: Sys, mem: Memory, sts: seq<Stack>)
    requires s.running < |sts|
  {
    forall a :: s.r.rsp <= a < sts[s.running].hi ==> Load(mem, a) == Load(s.mem, a)
  }

  /** One event: what it resumes is exact, and the system stays resumable. */
  lemma StepOk(s: Sys, e: Event, sts: seq<Stack>)
    requires Ok(s, sts) && Possible(s, e, sts) && (!e.Work? ==> Room(s.r, sts[s.running]))
    ensures Ok(Step(s, e), sts)
    ensures e.Stay? ==> Step(s, e).r == s.r && Step(s, e).running == s.running && SameAbove(s, Step(s, e).mem, sts)
    ensures e.Preempt? || e.Yield? ==>
      && Step(s, e).running == e.to && Resumes(s.past[e.to], Step(s, e).r) && OwnStack(s.past[e.to], Step(s, e).mem, sts[e.to])
      && Step(s, e).past == s.past[s.running := if e.Preempt? then Preempted(s.r, s.mem) else Yielded(s.r, e.ret, s.mem)]
  {
    hide Holds, Resumes, OwnStack;
    match e
    case Work(r, mem) =>
      forall i | 0 <= i < |sts| && i != s.running ensures Holds(s.ctx[i], mem, s.past[i], sts[i]) {
        HoldsKept(s.ctx[i], s.mem, mem, s.past[i], sts[i]);
      }
    case Stay(cs, ss, mem) =>
      OthersKept(s, cs, ss, mem, sts);
      FrameHasRegs(s.r, s.mem, mem, cs, ss);
      AboveKept(s, cs, ss, mem, sts);
    case Preempt(cs, ss, mem, to) =>
      PreemptOk(s, cs, ss, mem, to, sts);
    case Yield(ret, to) =>
      YieldOk(s, ret, to, sts);
  }

  /** An interrupt and its handler leave the other threads' contexts and stacks intact. */
  lemma OthersKept(s: Sys, cs: int, ss: int, mem: Memory, sts: seq<Stack>)
    requires Ok(s, sts) && Room(s.r, sts[s.running])
    requires HandlerOk(Interrupted(s.r, s.mem, cs, ss), mem, FrameAddr(s.r), sts, s.running)
    ensures forall i :: 0 <= i < |sts| && i != s.running ==> Holds(s.ctx[i], mem, s.past[i], sts[i])
  {
    hide Holds;
    var f := FrameAddr(s.r);
    PushAllLoads(s.mem, f + 160, FrameValues(s.r, cs, ss));
    forall i | 0 <= i < |sts| && i != s.running ensures Holds(s.ctx[i], mem, s.past[i], sts[i]) {
      forall a | Within(sts[i], a) ensures Load(mem, a) == Load(s.mem, a) {
        assert Load(mem, a) == Load(Interrupted(s.r, s.mem, cs, ss), a);
        assert !Within(sts[s.running], a);
      }
      HoldsKept(s.ctx[i], s.mem, mem, s.past[i], sts[i]);
    }
  }

  lemma PreemptOk(s: Sys, cs: int, ss: int, mem: Memory, to: nat, sts: seq<Stack>)
    requires Ok(s, sts) && Possible(s, Preempt(cs, ss, mem, to), sts) && Room(s.r, sts[s.running])
    ensures var s' := Step(s, Preempt(cs, ss, mem, to));
      && Ok(s', sts) && Resumes(s.past[to], s'.r) && OwnStack(s.past[to], s'.mem, sts[to]) && s'.running == to
      && s'.past == s.past[s.running := Preempted(s.r, s.mem)]
  {
    hide Holds, Resumes, OwnStack;
    var f := FrameAddr(s.r);
    OthersKept(s, cs, ss, mem, sts);
    PreemptHolds(s, cs, ss, mem, sts, s.ctx[s.running]);
    var mem' := mem[s.r.rsp - 8 := s.r.rip];
    var ctx := s.ctx[s.running := SaveFrame(s.ctx[s.running], mem, f)];
    var past := s.past[s.running := Preempted(s.r, s.mem)];
    forall i | 0 <= i < |sts| ensures Holds(ctx[i], mem', past[i], sts[i]) {
      if i != s.running { HoldsKept(ctx[i], mem, mem', past[i], sts[i]); }
    }
    ResumeOk(s, mem', ctx, past, to, sts);
  }

  lemma YieldOk(s: Sys, ret: int, to: nat, sts: seq<Stack>)
    requires Ok(s, sts) && to < |sts| && to != s.running && Room(s.r, sts[s.running])
    ensures var s' := Step(s, Yield(ret, to));
      && Ok(s', sts) && Resumes(s.past[to], s'.r) && OwnStack(s.past[to], s'.mem, sts[to]) && s'.running == to
      && s'.past == s.past[s.running := Yielded(s.r, ret, s.mem)]
  {
    hide Holds, Resumes, OwnStack;
    var called := s.mem[s.r.rsp - 8 := ret];
    var r := s.r.(rsp := s.r.rsp - 8, rdi := s.running, rsi := to);
    var mem' := called[r.rsp - 8 := r.rflags];
    YieldHolds(s, ret, to, sts[s.running], s.ctx[s.running]);
    var ctx := s.ctx[s.running := SaveYield(s.ctx[s.running], r, called)];
    var past := s.past[s.running := Yielded(s.r, ret, s.mem)];
    forall i | 0 <= i < |sts| ensures Holds(ctx[i], mem', past[i], sts[i]) {
      if i != s.running { HoldsKept(ctx[i], s.mem, mem', past[i], sts[i]); }
    }
    ResumeOk(s, mem', ctx, past, to, sts);
  }

  /** Memory after the threads below `k`, other than the booting one, have been created. */
  function BootMem(mem: Memory, sts: seq<Stack>, entries: seq<int>, k: nat): Memory
    requires k <= |sts| == |entries|
  {
    if k <= 1 then mem
    else BootMem(mem, sts, entries, k - 1)[Top(sts[k - 1].hi) := entries[k - 1]]
  }

  function Unstarted(mem: Memory, sts: seq<Stack>, entries: seq<int>, i: nat): Past
    requires i < |sts| == |entries|
  {
    Fresh(entries[i], Top(sts[i].hi), BootMem(mem, sts, entries, i))
  }

  lemma {:induction false} BootHolds(mem: Memory, sts: seq<Stack>, entries: seq<int>, k: nat)
    requires k <= |sts| == |entries| && DisjointStacks(sts) && forall i :: 0 <= i < |sts| ==> sts[i].lo + 40 <= sts[i].hi
    ensures forall i :: 1 <= i < k ==>
      Holds(InitContext(Top(sts[i].hi), entries[i]), BootMem(mem, sts, entries, k), Unstarted(mem, sts, entries, i), sts[i])
  {
    hide Holds, InitContext, OwnStack;
    if k > 1 {
      BootHolds(mem, sts, entries, k - 1);
      var before := BootMem(mem, sts, entries, k - 1);
      FreshHolds(before, sts[k - 1], entries[k - 1]);
      TopAligned(sts[k - 1].hi);
      var top := Top(sts[k - 1].hi);
      assert Within(sts[k - 1], top);
      hide Top;
      forall i | 1 <= i < k - 1
        ensures Holds(InitContext(Top(sts[i].hi), entries[i]), before[top := entries[k - 1]], Unstarted(mem, sts, entries, i), sts[i])
      {
        assert SameOn(before, before[top := entries[k - 1]], sts[i]);
        HoldsKept(InitContext(Top(sts[i].hi), entries[i]), before, before[top := entries[k - 1]], Unstarted(mem, sts, entries, i), sts[i]);
      }
    }
  }

  /** The system as the bootstrap code leaves it, with every other thread fresh. */
  function Booted(r: Regs, mem: Memory, sts: seq<Stack>, entries: seq<int>): Sys
    requires |sts| == |entries|
  {
    Sys(0, r, BootMem(mem, sts, entries, |sts|),
        seq(|sts|, i requires 0 <= i < |sts| => InitContext(Top(sts[i].hi), entries[i])),
        seq(|sts|, i requires 0 <= i < |sts| => Unstarted(mem, sts, entries, i)))
  }

  lemma BootedOk(r: Regs, mem: Memory, sts: seq<Stack>, entries: seq<int>)
    requires 0 < |sts| == |entries| && DisjointStacks(sts) && forall i :: 0 <= i < |sts| ==> sts[i].lo + 40 <= sts[i].hi
    ensures Ok(Booted(r, mem, sts, entries), sts)
  {
    BootHolds(mem, sts, entries, |sts|);
  }

  /** Every switch resumes its thread with its registers and its stack, and every interrupt without a switch is invisible. */
  ghost predicate Faithful(s: Sys, events: seq<Event>, sts: seq<Stack>)
    requires Ok(s, sts)
    decreases |events|
  {
    events == [] ||
    (Possible(s, events[0], sts) && (!events[0].Work? ==> Room(s.r, sts[s.running])) ==>
       var s' := Step(s, events[0]);
       && (events[0].Stay? ==> s'.r == s.r && SameAbove(s, s'.mem, sts))
       && (s'.running != s.running ==>
             Resumes(s.past[s'.running], s'.r) && s'.running < |sts| && OwnStack(s.past[s'.running], s'.mem, sts[s'.running]))
       && Ok(s', sts)
       && Faithful(s', events[1..], sts))
  }

  lemma {:induction false} RoundTrips(s: Sys, events: seq<Event>, sts: seq<Stack>)
    requires Ok(s, sts)
    ensures Faithful(s, events, sts)
    decreases |events|
  {
    hide Resumes, Holds, OwnStack, SameAbove, Iret, SaveFrame, SaveYield, Restored, RestoreMem, HandlerOk, SameOn;
    if events != [] && Possible(s, events[0], sts) && (!events[0].Work? ==> Room(s.r, sts[s.running])) {
      StepOk(s, events[0], sts);
      RoundTrips(Step(s, events[0]), events[1..], sts);
    }
  }
}
