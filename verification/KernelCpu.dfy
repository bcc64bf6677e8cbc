/**
 Interrupt flag, SCHEDULER spinlock, `current` and context slots: what every step of the
 kernel machine keeps about the CPU.
 */
module KernelCpu {
  import opened Wrappers
  import opened KernelMachine

  /** Code that runs with interrupts disabled. */
  predicate Off(pc: Pc) {
    match pc
    case Locking(_, l) => !(l.Fast? || l.Irq? || l.Cli? || l.Resume? || l.Dead?)
    case Dropping(_, d) => d.WakeSpin? || d.Wake? || d.Woken? || d.WokenIrq?
    case Booting(b) => !(b.BIrq? || b.BCli? || b.BHlt?)
    case _ => false
  }

  /** Code that holds the SCHEDULER spinlock. */
  predicate HasSched(pc: Pc) {
    match pc
    case Locking(_, l) => l.Slow? || l.Got? || l.Id? || l.NoId? || l.Queue? || l.Push? || l.Block? || l.Release?
    case Dropping(_, d) => d.Wake? || d.Woken?
    case Booting(b) => b.BPick? || b.BRelease?
    case _ => false
  }

  /** Every saved interrupt flag says that interrupts were on. */
  predicate WasOn(pc: Pc) {
    match pc
    case Locking(_, l) =>
      (l.Cli? || l.Spin? || l.Slow? || l.Got? || l.GotIrq? || l.Id? || l.NoId? || l.NoIdIrq?) ==> l.was
    case Dropping(_, d) => (d.WakeCli? || d.WakeSpin? || d.Wake? || d.Woken? || d.WokenIrq?) ==> d.was
    case _ => true
  }

  function PcPending(pc: Pc): Option<Switch> {
    match pc
    case Locking(_, l) => LockPending(l)
    case Booting(b) => BootPending(b)
    case _ => None
  }

  predicate QueuesSized(waitq: seq<seq<nat>>, actors: nat) {
    forall m, i :: 0 <= m < |waitq| && 0 <= i < |waitq[m]| ==> waitq[m][i] < actors
  }

  predicate AllSized(s: State) {
    && Sized(s)
    && QueuesSized(s.waitq, |s.pc|)
    && (forall a :: 0 <= a < |s.pc| ==> |s.incs[a]| == |s.locked| && PcSized(s.pc[a], |s.pc|, |s.locked|))
  }

  /**
   `current` is the actor on the CPU, except while a prepared switch away from it is pending;
   a pending switch saves into the running actor's own slot and loads the new `current`.
   */
  predicate CurrentOk(cpu: nat, current: nat, sw: Option<Switch>) {
    if sw.Some? then sw.value == Switch(cpu, current) && current != 0 else current == cpu
  }

  function Pending(s: State): Option<Switch>
    requires Sized(s)
  {
    if s.irq.NoIrq? then PcPending(s.pc[s.cpu]) else IrqPending(s.irq)
  }

  predicate FlagOk(s: State)
    requires Sized(s)
  {
    && s.iflag == (s.irq.NoIrq? && !Off(s.pc[s.cpu]))
    && (!s.irq.NoIrq? ==> !Off(s.pc[s.cpu]))
    && s.sched == (if s.irq.NoIrq? then HasSched(s.pc[s.cpu]) else s.irq.HPick? || s.irq.HRelease?)
  }

  /** Suspended actors are at interruptible points and their contexts are in their own slots. */
  predicate SuspendedOk(s: State)
    requires Sized(s)
  {
    && (forall a :: 0 <= a < |s.pc| && a != s.cpu ==> !Off(s.pc[a]) && s.slots[a] == a)
    && (forall a :: 0 <= a < |s.pc| ==> WasOn(s.pc[a]) && (s.pc[a].Booting? ==> a == 0))
  }

  predicate CpuOk(s: State) {
    AllSized(s) && FlagOk(s) && SuspendedOk(s) && CurrentOk(s.cpu, s.current, Pending(s))
  }

  /** Only the CPU's own program point, flag, spinlock and shared data change. */
  lemma Move(s: State, s': State, pc: Pc)
    requires CpuOk(s) && s.irq.NoIrq? && s'.irq.NoIrq?
    requires s'.cpu == s.cpu && s'.slots == s.slots && s'.pc == s.pc[s.cpu := pc]
    requires |s'.blocked| == |s'.held| == |s'.incs| == |s'.woken| == |s.pc|
    requires |s'.locked| == |s'.waitq| == |s'.wlock| == |s'.data| == |s.locked|
    requires forall a :: 0 <= a < |s.pc| ==> |s'.incs[a]| == |s.locked|
    requires s'.current < |s.pc| && QueuesSized(s'.waitq, |s.pc|)
    requires PcSized(pc, |s.pc|, |s.locked|) && WasOn(pc) && (pc.Booting? ==> s.cpu == 0)
    requires s'.iflag == !Off(pc) && s'.sched == HasSched(pc)
    requires CurrentOk(s.cpu, s'.current, PcPending(pc))
    ensures CpuOk(s')
  {
  }

  /** A pending switch moves the CPU to the new `current` and leaves every other slot alone. */
  lemma SwitchKeeps(s: State, s': State, pc: Pc, sw: Switch)
    requires CpuOk(s) && Pending(s) == Some(sw)
    requires !Off(pc) && WasOn(pc) && PcPending(pc).None? && (pc.Booting? ==> s.cpu == 0)
    requires PcSized(pc, |s.pc|, |s.locked|)
    requires !s.sched && s' == SwitchCpu(Goto(s, pc).(irq := NoIrq), sw)
    ensures CpuOk(s') && s'.cpu == s.current
  {
  }

  lemma CpuStep(s: State, e: Event)
    requires CpuOk(s) && Enabled(s, e)
    ensures CpuOk(Next(s, e))
  {
    if e.Exec? {
      if !s.irq.NoIrq? { CpuHandler(s, e.pick); }
      else {
        match s.pc[s.cpu]
        case Idle =>
        case Inc(m, seen) => Move(s, Next(s, e), Idle);
        case Locking(m, l) => CpuLock(s, m, l, e.pick);
        case Dropping(m, d) => CpuDrop(s, m, d);
        case Booting(b) => CpuBoot(s, b, e.pick);
      }
    } else {
      CpuCall(s, e);
    }
  }

  lemma CpuCall(s: State, e: Event)
    requires CpuOk(s) && Enabled(s, e) && !e.Exec?
    ensures CpuOk(Next(s, e))
  {
    var s' := Next(s, e);
    match e
    case Interrupt =>
    case StartLock(m) => Move(s, s', Locking(m, Fast));
    case StartDrop(m) => Move(s, s', Dropping(m, Store));
    case StartInc(m) => Move(s, s', Inc(m, s.data[m]));
    case Enter => Move(s, s', Booting(BIrq));
    case Spawn =>
  }

  lemma CpuHandler(s: State, p: Pick)
    requires CpuOk(s) && !s.irq.NoIrq? && HandlerEnabled(s, s.irq, p)
    ensures CpuOk(HandlerStep(s, p))
  {
    match s.irq
    case HSwitch(sw) =>
      if sw.Some? && sw.value.from != sw.value.to {
        assert Goto(s, s.pc[s.cpu]) == s;
        SwitchKeeps(s, HandlerStep(s, p), s.pc[s.cpu], sw.value);
      }
    case _ =>
  }

  lemma CpuLock(s: State, m: nat, l: LockPc, p: Pick)
    requires CpuOk(s) && s.irq.NoIrq? && s.pc[s.cpu] == Locking(m, l) && LockEnabled(s, m, l, p)
    ensures CpuOk(LockStep(s, m, l, p))
  {
    if l.Queue? || l.Push? || l.Block? || l.Release? || l.SwitchOut? || l.Resume? || l.Dead? {
      CpuLockWait(s, m, l, p);
    } else {
      CpuLockTry(s, m, l, p);
    }
  }

  lemma CpuLockTry(s: State, m: nat, l: LockPc, p: Pick)
    requires CpuOk(s) && s.irq.NoIrq? && s.pc[s.cpu] == Locking(m, l) && LockEnabled(s, m, l, p)
    requires !(l.Queue? || l.Push? || l.Block? || l.Release? || l.SwitchOut? || l.Resume? || l.Dead?)
    ensures CpuOk(LockStep(s, m, l, p))
  {
    Move(s, LockStep(s, m, l, p), LockStep(s, m, l, p).pc[s.cpu]);
  }

  lemma CpuLockWait(s: State, m: nat, l: LockPc, p: Pick)
    requires CpuOk(s) && s.irq.NoIrq? && s.pc[s.cpu] == Locking(m, l) && LockEnabled(s, m, l, p)
    requires l.Queue? || l.Push? || l.Block? || l.Release? || l.SwitchOut? || l.Resume? || l.Dead?
    ensures CpuOk(LockStep(s, m, l, p))
  {
    hide CpuOk, LockStep;
    if l.Queue? || l.Push? || l.Block? { CpuLockQueue(s, m, l, p); } else { CpuLockLeave(s, m, l, p); }
  }

  lemma CpuLockQueue(s: State, m: nat, l: LockPc, p: Pick)
    requires CpuOk(s) && s.irq.NoIrq? && s.pc[s.cpu] == Locking(m, l) && LockEnabled(s, m, l, p)
    requires l.Queue? || l.Push? || l.Block?
    ensures CpuOk(LockStep(s, m, l, p))
  {
    hide SuspendedOk, AllBlocked;
    Move(s, LockStep(s, m, l, p), LockStep(s, m, l, p).pc[s.cpu]);
  }

  lemma CpuLockLeave(s: State, m: nat, l: LockPc, p: Pick)
    requires CpuOk(s) && s.irq.NoIrq? && s.pc[s.cpu] == Locking(m, l)
    requires l.Release? || l.SwitchOut? || l.Resume? || l.Dead?
    ensures CpuOk(LockStep(s, m, l, p))
  {
    hide SuspendedOk, AllBlocked, QueuesSized;
    var s' := LockStep(s, m, l, p);
    if l.SwitchOut? && l.sw.Some? {
      SwitchKeeps(s, s', Locking(m, Resume), l.sw.value);
    } else if !l.Dead? {
      Move(s, s', s'.pc[s.cpu]);
    }
  }

  lemma CpuDrop(s: State, m: nat, d: DropPc)
    requires CpuOk(s) && s.irq.NoIrq? && s.pc[s.cpu] == Dropping(m, d) && DropEnabled(s, m, d)
    ensures CpuOk(DropStep(s, m, d))
  {
    hide DropStep, CpuOk;
    if d.WSpin? || d.WUnlock? || d.Store? || d.Pop? { CpuDropPop(s, m, d); } else { CpuDropWake(s, m, d); }
  }

  lemma CpuDropPop(s: State, m: nat, d: DropPc)
    requires CpuOk(s) && s.irq.NoIrq? && s.pc[s.cpu] == Dropping(m, d) && (d.WSpin? || d.WUnlock? || d.Store? || d.Pop?)
    ensures CpuOk(DropStep(s, m, d))
  {
    hide SuspendedOk;
    Move(s, DropStep(s, m, d), DropStep(s, m, d).pc[s.cpu]);
  }

  lemma CpuDropWake(s: State, m: nat, d: DropPc)
    requires CpuOk(s) && s.irq.NoIrq? && s.pc[s.cpu] == Dropping(m, d) && DropEnabled(s, m, d)
    requires !(d.WSpin? || d.WUnlock? || d.Store? || d.Pop?)
    ensures CpuOk(DropStep(s, m, d))
  {
    hide QueuesSized;
    Move(s, DropStep(s, m, d), DropStep(s, m, d).pc[s.cpu]);
  }

  lemma CpuBoot(s: State, b: BootPc, p: Pick)
    requires CpuOk(s) && s.irq.NoIrq? && s.pc[s.cpu] == Booting(b) && BootEnabled(s, b, p)
    ensures CpuOk(BootStep(s, b, p))
  {
    var s' := BootStep(s, b, p);
    if b.BSwitch? && b.sw.Some? {
      SwitchKeeps(s, s', Booting(BIrq), b.sw.value);
    } else {
      Move(s, s', s'.pc[s.cpu]);
    }
  }
}
