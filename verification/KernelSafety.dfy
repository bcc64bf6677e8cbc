/** The invariant of the kernel machine, kept by every step from every state. */
module KernelSafety {
  import opened Wrappers
  import opened KernelMachine
  import opened KernelCpu
  import opened KernelQueue
  import opened KernelMutex

  /** After the failed second compare_exchange, until the thread has blocked itself. */
  function MustLock(pc: Pc): Option<nat> {
    match pc
    case Locking(m, l) => if l.Id? || l.Queue? || l.Push? || l.Block? then Some(m) else None
    case _ => None
  }

  predicate LockedOk(pc: seq<Pc>, locked: seq<bool>) {
    forall a :: 0 <= a < |pc| && MustLock(pc[a]).Some? ==> MustLock(pc[a]).value < |locked| && locked[MustLock(pc[a]).value]
  }

  predicate LeavingCpu(pc: Pc) {
    pc.Locking? && (pc.l.Release? || pc.l.SwitchOut? || pc.l.Dead?)
  }

  /** The thread on the CPU, or about to get it, is not blocked, unless it is just leaving. */
  predicate RunOk(s: State)
    requires Sized(s)
  {
    && !s.blocked[0]
    && (if Pending(s).Some? then !s.blocked[s.current] else s.blocked[s.cpu] ==> LeavingCpu(s.pc[s.cpu]))
  }

  predicate IsDead(pc: Pc) { pc.Locking? && pc.l.Dead? }

  predicate NoWayOut(pc: Pc) {
    pc.Locking? && (pc.l.Dead? || ((pc.l.Release? || pc.l.SwitchOut?) && pc.l.sw.None?))
  }

  /** The DEADLOCK branch is entered only when every thread is blocked, and then nothing leaves it. */
  predicate DeadOk(s: State)
    requires Sized(s)
  {
    && (forall a :: 0 <= a < |s.pc| && IsDead(s.pc[a]) ==> a == s.cpu)
    && (NoWayOut(s.pc[s.cpu]) ==> AllBlocked(s.blocked) && Pending(s).None?)
  }

  /** The bootstrap context runs only until the first switch, so before any thread can wait. */
  predicate QuietOk(s: State) { s.cpu == 0 ==> forall m :: 0 <= m < |s.waitq| ==> s.waitq[m] == [] }

  predicate Inv(s: State) {
    && CpuOk(s)
    && RunOk(s) && DeadOk(s)
    && QueueOk(s.pc, s.blocked, s.waitq)
    && OwnOk(s.pc, s.locked, s.held)
    && LockedOk(s.pc, s.locked)
    && WakeOk(s.pc, s.blocked, s.woken, s.locked, s.waitq)
    && QuietOk(s)
    && WlockOk(s.pc, s.wlock)
    && DataOk(s.pc, s.data, s.incs)
  }

  // ---------------------------------------------------------------------------
  // Queues
  // ---------------------------------------------------------------------------

  lemma QueueStep(s: State, e: Event)
    requires CpuOk(s) && RunOk(s) && DeadOk(s) && QueueOk(s.pc, s.blocked, s.waitq) && Enabled(s, e)
    ensures QueueOk(Next(s, e).pc, Next(s, e).blocked, Next(s, e).waitq)
  {
    hide QueueOk, LockStep, DropStep, AllBlocked, SuspendedOk, QueuesSized, RunOk, DeadOk, LockEnabled, DropEnabled, Prepared, NewCurrent;
    if e.Spawn? {
      QueueSpawn(s.pc, s.blocked, s.waitq);
    } else if e.Exec? && s.irq.NoIrq? && s.pc[s.cpu].Locking? {
      QueueLock(s, s.pc[s.cpu].m, s.pc[s.cpu].l, e.pick);
    } else if e.Exec? && s.irq.NoIrq? && s.pc[s.cpu].Dropping? {
      QueueDrop(s, s.pc[s.cpu].m, s.pc[s.cpu].d);
    } else if s.irq.NoIrq? && !e.Interrupt? {
      QueueMove(s.pc, s.blocked, s.waitq, s.cpu, Next(s, e).pc[s.cpu]);
    }
  }

  lemma QueueLock(s: State, m: nat, l: LockPc, p: Pick)
    requires CpuOk(s) && RunOk(s) && QueueOk(s.pc, s.blocked, s.waitq)
    requires s.irq.NoIrq? && s.pc[s.cpu] == Locking(m, l) && LockEnabled(s, m, l, p)
    ensures var s' := LockStep(s, m, l, p); QueueOk(s'.pc, s'.blocked, s'.waitq)
  {
    hide QueueOk, AllBlocked, SuspendedOk, QueuesSized;
    if l.Push? || l.Block? {
      QueueEnqueue(s, m, l, p);
    } else if l.Resume? {
      assert !s.blocked[s.cpu];
      QueueResume(s.pc, s.blocked, s.waitq, s.cpu, m);
    } else if !l.Dead? {
      QueueStay(s, m, l, p);
    }
  }

  lemma QueueStay(s: State, m: nat, l: LockPc, p: Pick)
    requires CpuOk(s) && QueueOk(s.pc, s.blocked, s.waitq)
    requires s.irq.NoIrq? && s.pc[s.cpu] == Locking(m, l) && !l.Push? && !l.Block? && !l.Resume? && !l.Dead?
    ensures var s' := LockStep(s, m, l, p); QueueOk(s'.pc, s'.blocked, s'.waitq)
  {
    hide QueueOk, AllBlocked, SuspendedOk, QueuesSized, Prepared, NewCurrent, Blocking;
    OwnId(s, m, l);
    var pc := LockStep(s, m, l, p).pc[s.cpu];
    assert SameRole(s.cpu, s.pc[s.cpu], pc);
    QueueMove(s.pc, s.blocked, s.waitq, s.cpu, pc);
  }

  lemma QueueEnqueue(s: State, m: nat, l: LockPc, p: Pick)
    requires CpuOk(s) && RunOk(s) && QueueOk(s.pc, s.blocked, s.waitq)
    requires s.irq.NoIrq? && s.pc[s.cpu] == Locking(m, l) && LockEnabled(s, m, l, p) && (l.Push? || l.Block?)
    ensures var s' := LockStep(s, m, l, p); QueueOk(s'.pc, s'.blocked, s'.waitq)
  {
    assert EnqueueOk(s.pc, s.waitq);
    hide AllBlocked, SuspendedOk, QueuesSized, Prepared, NewCurrent;
    if l.Push? { QueuePush(s.pc, s.blocked, s.waitq, s.cpu, m); }
    else { QueueBlock(s.pc, s.blocked, s.waitq, s.cpu, m, Prepared(Blocking(s.blocked, s.current), s.current, p)); }
  }

  /** Only scheduled threads queue, and each its own id. */
  lemma OwnId(s: State, m: nat, l: LockPc)
    requires CpuOk(s) && QueueOk(s.pc, s.blocked, s.waitq) && s.pc[s.cpu] == Locking(m, l)
    ensures (l.Queue? || l.Push?) ==> l.id == s.cpu && s.cpu >= 1
  {
    assert EnqueueOk(s.pc, s.waitq);
  }

  lemma QueueDrop(s: State, m: nat, d: DropPc)
    requires CpuOk(s) && DeadOk(s) && QueueOk(s.pc, s.blocked, s.waitq)
    requires s.irq.NoIrq? && s.pc[s.cpu] == Dropping(m, d) && DropEnabled(s, m, d)
    ensures var s' := DropStep(s, m, d); QueueOk(s'.pc, s'.blocked, s'.waitq)
  {
    if d.Pop? && s.waitq[m] != [] {
      HeadResumes(s, m);
      QueuePop(s.pc, s.blocked, s.waitq, s.cpu, m);
    } else if d.Wake? {
      QueueWake(s.pc, s.blocked, s.waitq, s.cpu, m, d.id, d.was);
    } else {
      hide QueueOk;
      QueueMove(s.pc, s.blocked, s.waitq, s.cpu, DropStep(s, m, d).pc[s.cpu]);
    }
  }

  /** A queued thread other than the one on the CPU is suspended in `context_switch`. */
  lemma HeadResumes(s: State, m: nat)
    requires CpuOk(s) && DeadOk(s) && QueueOk(s.pc, s.blocked, s.waitq)
    requires s.pc[s.cpu].Dropping? && m < |s.waitq| && s.waitq[m] != []
    ensures s.waitq[m][0] < |s.pc| && s.pc[s.waitq[m][0]] == Locking(m, Resume)
  {
    assert QueuedAt(s.pc, s.blocked, m, s.waitq[m][0]);
  }

  // ---------------------------------------------------------------------------
  // Running and blocked threads
  // ---------------------------------------------------------------------------

  lemma RunStep(s: State, e: Event)
    requires CpuOk(s) && RunOk(s) && DeadOk(s) && QueueOk(s.pc, s.blocked, s.waitq) && Enabled(s, e)
    ensures Sized(Next(s, e)) && RunOk(Next(s, e)) && DeadOk(Next(s, e))
  {
    CpuStep(s, e);
    if e.Exec? && !s.irq.NoIrq? {
      RunHandler(s, e.pick);
    } else if e.Exec? && s.pc[s.cpu].Locking? {
      RunLock(s, s.pc[s.cpu].m, s.pc[s.cpu].l, e.pick);
    } else if e.Exec? && s.pc[s.cpu].Dropping? {
      RunDrop(s, s.pc[s.cpu].m, s.pc[s.cpu].d);
    } else if e.Exec? && s.pc[s.cpu].Booting? {
      RunBoot(s, s.pc[s.cpu].b, e.pick);
    }
  }

  lemma RunHandler(s: State, p: Pick)
    requires CpuOk(s) && RunOk(s) && DeadOk(s) && !s.irq.NoIrq? && HandlerEnabled(s, s.irq, p) && CpuOk(HandlerStep(s, p))
    ensures RunOk(HandlerStep(s, p)) && DeadOk(HandlerStep(s, p))
  {
  }

  lemma RunMove(s: State, s': State, pc: Pc)
    requires Sized(s) && Sized(s') && RunOk(s) && DeadOk(s) && s.irq.NoIrq? && s'.irq.NoIrq?
    requires s'.cpu == s.cpu && s'.pc == s.pc[s.cpu := pc] && s'.blocked == s.blocked
    requires s'.current == s.current && PcPending(pc) == PcPending(s.pc[s.cpu])
    requires LeavingCpu(s.pc[s.cpu]) ==> LeavingCpu(pc)
    requires NoWayOut(pc) ==> NoWayOut(s.pc[s.cpu])
    ensures RunOk(s') && DeadOk(s')
  {
  }

  lemma RunLock(s: State, m: nat, l: LockPc, p: Pick)
    requires CpuOk(s) && RunOk(s) && DeadOk(s) && QueueOk(s.pc, s.blocked, s.waitq)
    requires s.irq.NoIrq? && s.pc[s.cpu] == Locking(m, l) && LockEnabled(s, m, l, p)
    requires CpuOk(LockStep(s, m, l, p))
    ensures RunOk(LockStep(s, m, l, p)) && DeadOk(LockStep(s, m, l, p))
  {
    hide QueueOk, AllBlocked, PickOk, FlagOk, SuspendedOk, QueuesSized, RunOk, DeadOk, LockStep;
    if l.Block? {
      BlockIsThread(s, m);
      RunBlock(s, m, p);
    } else if l.SwitchOut? && l.sw.Some? {
      RunSwitch(s, m, l.sw.value, p);
    } else if Trying(l) {
      RunTry(s, m, l, p);
    } else {
      RunWait(s, m, l, p);
    }
  }

  lemma BlockIsThread(s: State, m: nat)
    requires Sized(s) && QueueOk(s.pc, s.blocked, s.waitq) && s.pc[s.cpu] == Locking(m, Block)
    ensures s.cpu >= 1
  {
    assert EnqueueOk(s.pc, s.waitq);
  }

  lemma RunTry(s: State, m: nat, l: LockPc, p: Pick)
    requires CpuOk(s) && RunOk(s) && DeadOk(s) && s.irq.NoIrq? && s.pc[s.cpu] == Locking(m, l) && Trying(l)
    requires CpuOk(LockStep(s, m, l, p))
    ensures RunOk(LockStep(s, m, l, p)) && DeadOk(LockStep(s, m, l, p))
  {
    hide AllBlocked, RunOk, DeadOk, SuspendedOk, QueuesSized;
    RunMove(s, LockStep(s, m, l, p), LockStep(s, m, l, p).pc[s.cpu]);
  }

  lemma RunWait(s: State, m: nat, l: LockPc, p: Pick)
    requires CpuOk(s) && RunOk(s) && DeadOk(s) && s.irq.NoIrq? && s.pc[s.cpu] == Locking(m, l)
    requires !Trying(l) && !l.Block? && !(l.SwitchOut? && l.sw.Some?)
    requires CpuOk(LockStep(s, m, l, p))
    ensures RunOk(LockStep(s, m, l, p)) && DeadOk(LockStep(s, m, l, p))
  {
    hide AllBlocked, RunOk, DeadOk, SuspendedOk, QueuesSized, Prepared, NewCurrent, Blocking;
    if !l.Dead? { RunMove(s, LockStep(s, m, l, p), LockStep(s, m, l, p).pc[s.cpu]); }
  }

  lemma RunBlock(s: State, m: nat, p: Pick)
    requires CpuOk(s) && RunOk(s) && DeadOk(s) && s.cpu >= 1
    requires s.irq.NoIrq? && s.pc[s.cpu] == Locking(m, Block) && LockEnabled(s, m, Block, p)
    requires CpuOk(LockStep(s, m, Block, p))
    ensures RunOk(LockStep(s, m, Block, p)) && DeadOk(LockStep(s, m, Block, p))
  {
  }

  lemma RunSwitch(s: State, m: nat, sw: Switch, p: Pick)
    requires CpuOk(s) && RunOk(s) && DeadOk(s)
    requires s.irq.NoIrq? && s.pc[s.cpu] == Locking(m, SwitchOut(Some(sw)))
    requires CpuOk(LockStep(s, m, SwitchOut(Some(sw)), p))
    ensures RunOk(LockStep(s, m, SwitchOut(Some(sw)), p)) && DeadOk(LockStep(s, m, SwitchOut(Some(sw)), p))
  {
  }

  lemma RunDrop(s: State, m: nat, d: DropPc)
    requires CpuOk(s) && RunOk(s) && DeadOk(s)
    requires s.irq.NoIrq? && s.pc[s.cpu] == Dropping(m, d) && DropEnabled(s, m, d)
    requires CpuOk(DropStep(s, m, d))
    ensures RunOk(DropStep(s, m, d)) && DeadOk(DropStep(s, m, d))
  {
  }

  lemma RunBoot(s: State, b: BootPc, p: Pick)
    requires CpuOk(s) && RunOk(s) && DeadOk(s)
    requires s.irq.NoIrq? && s.pc[s.cpu] == Booting(b) && BootEnabled(s, b, p)
    requires CpuOk(BootStep(s, b, p))
    ensures RunOk(BootStep(s, b, p)) && DeadOk(BootStep(s, b, p))
  {
  }

  // ---------------------------------------------------------------------------
  // Ownership
  // ---------------------------------------------------------------------------

  lemma OwnStep(s: State, e: Event)
    requires CpuOk(s) && OwnOk(s.pc, s.locked, s.held) && LockedOk(s.pc, s.locked) && Enabled(s, e)
    ensures OwnOk(Next(s, e).pc, Next(s, e).locked, Next(s, e).held) && LockedOk(Next(s, e).pc, Next(s, e).locked)
  {
    hide OwnOk, LockedOk, SuspendedOk, QueuesSized, AllBlocked, LockStep, DropStep;
    var s' := Next(s, e);
    if e.Spawn? {
      OwnSpawn(s.pc, s.locked, s.held);
      LockedSpawn(s.pc, s.locked);
    } else if e.Exec? && s.irq.NoIrq? && s.pc[s.cpu].Locking? {
      OwnLock(s, s.pc[s.cpu].m, s.pc[s.cpu].l, e.pick);
    } else if e.Exec? && s.irq.NoIrq? && s.pc[s.cpu].Dropping? {
      OwnDrop(s, s.pc[s.cpu].m, s.pc[s.cpu].d);
    } else if s.irq.NoIrq? && !e.Interrupt? {
      OwnMove(s.pc, s.locked, s.held, s.cpu, s'.pc[s.cpu]);
      LockedMove(s.pc, s.locked, s.locked, s.cpu, s'.pc[s.cpu]);
    }
  }

  lemma LockedSpawn(pcs: seq<Pc>, locked: seq<bool>)
    requires LockedOk(pcs, locked)
    ensures LockedOk(pcs + [Idle], locked)
  {
  }

  lemma OwnLock(s: State, m: nat, l: LockPc, p: Pick)
    requires CpuOk(s) && OwnOk(s.pc, s.locked, s.held) && LockedOk(s.pc, s.locked)
    requires s.irq.NoIrq? && s.pc[s.cpu] == Locking(m, l) && LockEnabled(s, m, l, p)
    ensures var s' := LockStep(s, m, l, p); OwnOk(s'.pc, s'.locked, s'.held) && LockedOk(s'.pc, s'.locked)
  {
    hide OwnOk, LockedOk, FlagOk, SuspendedOk, QueuesSized, LockStep, LockEnabled;
    if Trying(l) { OwnTry(s, m, l, p); } else { OwnWait(s, m, l, p); }
  }

  lemma OwnTry(s: State, m: nat, l: LockPc, p: Pick)
    requires Sized(s) && OwnOk(s.pc, s.locked, s.held) && LockedOk(s.pc, s.locked) && s.pc[s.cpu] == Locking(m, l) && Trying(l)
    ensures var s' := LockStep(s, m, l, p); OwnOk(s'.pc, s'.locked, s'.held) && LockedOk(s'.pc, s'.locked)
  {
    hide OwnOk, LockedOk;
    if l.Fast? || l.Slow? {
      OwnTake(s, m, l, p);
    } else {
      var pc := LockStep(s, m, l, p).pc[s.cpu];
      LockedMove(s.pc, s.locked, s.locked, s.cpu, pc);
      OwnMoveKeeps(s.pc, s.locked, s.held, s.cpu, pc);
    }
  }

  lemma OwnTake(s: State, m: nat, l: LockPc, p: Pick)
    requires Sized(s) && OwnOk(s.pc, s.locked, s.held) && LockedOk(s.pc, s.locked) && s.pc[s.cpu] == Locking(m, l) && (l.Fast? || l.Slow?)
    ensures var s' := LockStep(s, m, l, p); OwnOk(s'.pc, s'.locked, s'.held) && LockedOk(s'.pc, s'.locked)
  {
    hide OwnOk, LockedOk;
    var s' := LockStep(s, m, l, p);
    var pc := s'.pc[s.cpu];
    LockedMove(s.pc, s.locked, s'.locked, s.cpu, pc);
    if s.locked[m] { OwnMoveKeeps(s.pc, s.locked, s.held, s.cpu, pc); } else { OwnAcquire(s.pc, s.locked, s.held, s.cpu, pc, m); }
  }

  lemma OwnWait(s: State, m: nat, l: LockPc, p: Pick)
    requires Sized(s) && OwnOk(s.pc, s.locked, s.held) && LockedOk(s.pc, s.locked) && s.pc[s.cpu] == Locking(m, l) && !Trying(l)
    ensures var s' := LockStep(s, m, l, p); OwnOk(s'.pc, s'.locked, s'.held) && LockedOk(s'.pc, s'.locked)
  {
    hide OwnOk, LockedOk, LockStep;
    if l.Release? || l.SwitchOut? || l.Resume? || l.Dead? { OwnLeave(s, m, l, p); } else { OwnQueue(s, m, l, p); }
  }

  lemma OwnQueue(s: State, m: nat, l: LockPc, p: Pick)
    requires Sized(s) && OwnOk(s.pc, s.locked, s.held) && LockedOk(s.pc, s.locked) && s.pc[s.cpu] == Locking(m, l)
    requires l.Id? || l.NoId? || l.NoIdIrq? || l.Queue? || l.Push? || l.Block?
    ensures var s' := LockStep(s, m, l, p); OwnOk(s'.pc, s'.locked, s'.held) && LockedOk(s'.pc, s'.locked)
  {
    hide OwnOk, LockedOk, AllBlocked, Prepared, NewCurrent, Blocking;
    MustBeLocked(s.pc, s.locked, s.cpu);
    var pc := LockStep(s, m, l, p).pc[s.cpu];
    LockedMove(s.pc, s.locked, s.locked, s.cpu, pc);
    OwnMoveKeeps(s.pc, s.locked, s.held, s.cpu, pc);
  }

  lemma OwnLeave(s: State, m: nat, l: LockPc, p: Pick)
    requires Sized(s) && OwnOk(s.pc, s.locked, s.held) && LockedOk(s.pc, s.locked) && s.pc[s.cpu] == Locking(m, l)
    requires l.Release? || l.SwitchOut? || l.Resume? || l.Dead?
    ensures var s' := LockStep(s, m, l, p); OwnOk(s'.pc, s'.locked, s'.held) && LockedOk(s'.pc, s'.locked)
  {
    hide OwnOk, LockedOk;
    if !l.Dead? {
      var pc := LockStep(s, m, l, p).pc[s.cpu];
      LockedMove(s.pc, s.locked, s.locked, s.cpu, pc);
      OwnMoveKeeps(s.pc, s.locked, s.held, s.cpu, pc);
    }
  }

  lemma MustBeLocked(pcs: seq<Pc>, locked: seq<bool>, a: nat)
    requires LockedOk(pcs, locked) && a < |pcs|
    ensures MustLock(pcs[a]).Some? ==> MustLock(pcs[a]).value < |locked| && locked[MustLock(pcs[a]).value]
  {
  }

  lemma LockedMove(pcs: seq<Pc>, locked: seq<bool>, locked': seq<bool>, a: nat, pc: Pc)
    requires LockedOk(pcs, locked) && a < |pcs|
    requires |locked'| == |locked| && forall m :: 0 <= m < |locked| && locked[m] ==> locked'[m]
    requires MustLock(pc).Some? ==> MustLock(pc).value < |locked| && locked[MustLock(pc).value]
    ensures LockedOk(pcs[a := pc], locked')
  {
  }

  lemma OwnMoveKeeps(pcs: seq<Pc>, locked: seq<bool>, held: seq<set<nat>>, a: nat, pc: Pc)
    requires OwnOk(pcs, locked, held) && a < |pcs| && (Owns(pc).Some? ==> Owns(pcs[a]) == Owns(pc))
    ensures OwnOk(pcs[a := pc], locked, held)
  {
    OwnMove(pcs, locked, held, a, pc);
  }

  lemma OwnDrop(s: State, m: nat, d: DropPc)
    requires CpuOk(s) && OwnOk(s.pc, s.locked, s.held) && LockedOk(s.pc, s.locked)
    requires s.irq.NoIrq? && s.pc[s.cpu] == Dropping(m, d) && DropEnabled(s, m, d)
    ensures var s' := DropStep(s, m, d); OwnOk(s'.pc, s'.locked, s'.held) && LockedOk(s'.pc, s'.locked)
  {
    assert Owns(s.pc[s.cpu]).Some? ==> m in s.held[s.cpu];
    hide OwnOk, LockedOk;
    var pc := DropStep(s, m, d).pc[s.cpu];
    if d.Store? {
      OwnStore(s.pc, s.locked, s.held, s.cpu, pc, m);
      LockedStore(s, pc, m);
    } else {
      OwnMoveKeeps(s.pc, s.locked, s.held, s.cpu, pc);
      LockedMove(s.pc, s.locked, s.locked, s.cpu, pc);
    }
  }

  /** While a drop runs, no actor is between its failed compare_exchange and its block. */
  lemma LockedStore(s: State, pc: Pc, m: nat)
    requires CpuOk(s) && s.pc[s.cpu].Dropping? && pc.Dropping? && m < |s.locked|
    ensures LockedOk(s.pc[s.cpu := pc], s.locked[m := false])
  {
    forall a | 0 <= a < |s.pc| ensures MustLock(s.pc[a]).Some? ==> Off(s.pc[a]) {}
  }

  // ---------------------------------------------------------------------------
  // Wakeups
  // ---------------------------------------------------------------------------

  lemma WakeStep(s: State, e: Event)
    requires CpuOk(s) && LockedOk(s.pc, s.locked) && WakeOk(s.pc, s.blocked, s.woken, s.locked, s.waitq) && QuietOk(s)
    requires QueueOk(s.pc, s.blocked, s.waitq) && RunOk(s) && Enabled(s, e)
    ensures WakeOk(Next(s, e).pc, Next(s, e).blocked, Next(s, e).woken, Next(s, e).locked, Next(s, e).waitq)
  {
    hide QueueOk, WakeOk, LockStep, DropStep, AllBlocked, SuspendedOk, QueuesSized, LockedOk, RunOk;
    if e.Spawn? {
      WakeSpawn(s.pc, s.blocked, s.woken, s.locked, s.waitq);
    } else if e.Exec? && s.irq.NoIrq? && s.pc[s.cpu].Locking? {
      WakeLock(s, s.pc[s.cpu].m, s.pc[s.cpu].l, e.pick);
    } else if e.Exec? && s.irq.NoIrq? && s.pc[s.cpu].Dropping? {
      WakeDrop(s, s.pc[s.cpu].m, s.pc[s.cpu].d);
    } else if e.StartLock? {
      assert s.blocked[s.cpu := s.blocked[s.cpu]] == s.blocked;
      WakeMove(s.pc, s.blocked, s.woken, s.locked, s.waitq, s.cpu, Locking(e.m, Fast), s.blocked[s.cpu], false);
    } else if s.irq.NoIrq? && !e.Interrupt? {
      WakeGoto(s.pc, s.blocked, s.woken, s.locked, s.waitq, s.cpu, Next(s, e).pc[s.cpu]);
    }
  }

  lemma WakeLock(s: State, m: nat, l: LockPc, p: Pick)
    requires CpuOk(s) && LockedOk(s.pc, s.locked) && WakeOk(s.pc, s.blocked, s.woken, s.locked, s.waitq)
    requires QueueOk(s.pc, s.blocked, s.waitq) && RunOk(s)
    requires s.irq.NoIrq? && s.pc[s.cpu] == Locking(m, l) && LockEnabled(s, m, l, p)
    ensures var s' := LockStep(s, m, l, p); WakeOk(s'.pc, s'.blocked, s'.woken, s'.locked, s'.waitq)
  {
    hide WakeOk, QueueOk, AllBlocked, SuspendedOk, QueuesSized, LockedOk;
    var s' := LockStep(s, m, l, p);
    if l.Push? || l.Block? || l.Resume? {
      WakeWait(s, m, l, p);
    } else if (l.Fast? || l.Slow?) && !s.locked[m] {
      WakeAcquire(s.pc, s.blocked, s.woken, s.locked, s.waitq, s.cpu, s'.pc[s.cpu], m);
    } else if !l.Dead? {
      WakeGoto(s.pc, s.blocked, s.woken, s.locked, s.waitq, s.cpu, s'.pc[s.cpu]);
    }
  }

  /** Queueing, blocking and resuming. */
  lemma WakeWait(s: State, m: nat, l: LockPc, p: Pick)
    requires CpuOk(s) && LockedOk(s.pc, s.locked) && WakeOk(s.pc, s.blocked, s.woken, s.locked, s.waitq)
    requires QueueOk(s.pc, s.blocked, s.waitq) && RunOk(s)
    requires s.irq.NoIrq? && s.pc[s.cpu] == Locking(m, l) && (l.Push? || l.Block? || l.Resume?)
    ensures var s' := LockStep(s, m, l, p); WakeOk(s'.pc, s'.blocked, s'.woken, s'.locked, s'.waitq)
  {
    hide WakeOk, QueueOk, AllBlocked, SuspendedOk, QueuesSized, LockedOk, LockStep;
    if l.Push? {
      MustBeLocked(s.pc, s.locked, s.cpu);
      WakePush(s, m, l, p);
    } else if l.Block? {
      BlockIsThread(s, m);
      WakeBlock(s, m, p);
    } else {
      WakeResume(s, m, p);
    }
  }

  lemma WakePush(s: State, m: nat, l: LockPc, p: Pick)
    requires Sized(s) && WakeOk(s.pc, s.blocked, s.woken, s.locked, s.waitq)
    requires s.pc[s.cpu] == Locking(m, l) && l.Push? && s.locked[m]
    ensures var s' := LockStep(s, m, l, p); WakeOk(s'.pc, s'.blocked, s'.woken, s'.locked, s'.waitq)
  {
    hide WakeOk;
    var s' := LockStep(s, m, l, p);
    WakeGoto(s.pc, s.blocked, s.woken, s.locked, s.waitq, s.cpu, s'.pc[s.cpu]);
    WakeQueue(s'.pc, s.blocked, s.woken, s.locked, s.waitq, m, s'.waitq[m]);
  }

  lemma WakeBlock(s: State, m: nat, p: Pick)
    requires Sized(s) && WakeOk(s.pc, s.blocked, s.woken, s.locked, s.waitq)
    requires s.pc[s.cpu] == Locking(m, Block) && s.cpu == s.current >= 1
    ensures var s' := LockStep(s, m, Block, p); WakeOk(s'.pc, s'.blocked, s'.woken, s'.locked, s'.waitq)
  {
    hide WakeOk, Prepared, NewCurrent;
    assert s.woken[s.cpu := s.woken[s.cpu]] == s.woken;
    WakeMove(s.pc, s.blocked, s.woken, s.locked, s.waitq, s.cpu, LockStep(s, m, Block, p).pc[s.cpu], true, s.woken[s.cpu]);
  }

  lemma WakeResume(s: State, m: nat, p: Pick)
    requires Sized(s) && WakeOk(s.pc, s.blocked, s.woken, s.locked, s.waitq) && s.pc[s.cpu] == Locking(m, Resume)
    ensures var s' := LockStep(s, m, Resume, p); WakeOk(s'.pc, s'.blocked, s'.woken, s'.locked, s'.waitq)
  {
    hide WakeOk;
    assert s.blocked[s.cpu := s.blocked[s.cpu]] == s.blocked;
    WakeMove(s.pc, s.blocked, s.woken, s.locked, s.waitq, s.cpu, Locking(m, Fast), s.blocked[s.cpu], true);
  }

  lemma WakeDrop(s: State, m: nat, d: DropPc)
    requires CpuOk(s) && WakeOk(s.pc, s.blocked, s.woken, s.locked, s.waitq) && QuietOk(s)
    requires QueueOk(s.pc, s.blocked, s.waitq)
    requires s.irq.NoIrq? && s.pc[s.cpu] == Dropping(m, d) && DropEnabled(s, m, d)
    ensures var s' := DropStep(s, m, d); WakeOk(s'.pc, s'.blocked, s'.woken, s'.locked, s'.waitq)
  {
    hide WakeOk, QueueOk, SuspendedOk, QueuesSized;
    var s' := DropStep(s, m, d);
    if d.Store? {
      WakeStore(s.pc, s.blocked, s.woken, s.locked, s.waitq, s.cpu, m);
    } else if d.Wake? {
      PoppedWaits(s, m, d);
      WakeWake(s.pc, s.blocked, s.woken, s.locked, s.waitq, s.cpu, m, d.id, d.was);
    } else {
      WakeGoto(s.pc, s.blocked, s.woken, s.locked, s.waitq, s.cpu, s'.pc[s.cpu]);
      if d.Pop? && s.waitq[m] != [] {
        assert Helps(s'.pc[s.cpu], s.blocked[s.cpu], s.woken[s.cpu], m);
        WakeQueue(s'.pc, s.blocked, s.woken, s.locked, s.waitq, m, s'.waitq[m]);
      }
    }
  }

  lemma PoppedWaits(s: State, m: nat, d: DropPc)
    requires Sized(s) && QueueOk(s.pc, s.blocked, s.waitq) && s.pc[s.cpu] == Dropping(m, d) && d.Wake?
    ensures 1 <= d.id < |s.pc| && s.pc[d.id] == Locking(m, Resume)
  {
    assert PoppedBy(s.pc[s.cpu]) == Some(d.id);
    assert PoppedOk(s.pc, s.blocked, s.waitq);
  }

  /** The CPU never goes back to the bootstrap context, and the bootstrap context never queues. */
  lemma QuietStep(s: State, e: Event)
    requires CpuOk(s) && QueueOk(s.pc, s.blocked, s.waitq) && QuietOk(s) && Enabled(s, e)
    ensures QuietOk(Next(s, e)) && (s.cpu != 0 ==> Next(s, e).cpu != 0)
  {
    hide QueueOk, LockStep, AllBlocked, SuspendedOk, QueuesSized;
    if e.Exec? && s.irq.NoIrq? && s.pc[s.cpu].Locking? { QuietLock(s, s.pc[s.cpu].m, s.pc[s.cpu].l, e.pick); }
    else if e.Exec? { OwnSlot(s); }
  }

  lemma OwnSlot(s: State)
    requires CpuOk(s)
    ensures Pending(s).Some? ==> Pending(s).value.from == s.cpu && Pending(s).value.to == s.current != 0
    ensures Pending(s).Some? && s.current != s.cpu ==> s.slots[s.current] == s.current
  {
  }

  lemma QuietLock(s: State, m: nat, l: LockPc, p: Pick)
    requires CpuOk(s) && QueueOk(s.pc, s.blocked, s.waitq) && QuietOk(s)
    requires s.irq.NoIrq? && s.pc[s.cpu] == Locking(m, l)
    ensures QuietOk(LockStep(s, m, l, p)) && (s.cpu != 0 ==> LockStep(s, m, l, p).cpu != 0)
  {
    hide QueueOk, AllBlocked, SuspendedOk, QueuesSized, Prepared, NewCurrent, Blocking;
    OwnId(s, m, l);
    OwnSlot(s);
  }

  // ---------------------------------------------------------------------------
  // The waiters spinlock and the data
  // ---------------------------------------------------------------------------

  lemma WlockStep(s: State, e: Event)
    requires CpuOk(s) && WlockOk(s.pc, s.wlock) && Enabled(s, e)
    ensures WlockOk(Next(s, e).pc, Next(s, e).wlock)
  {
    hide WlockOk, SuspendedOk, QueuesSized, AllBlocked, LockStep, DropStep, Prepared, NewCurrent;
    var s' := Next(s, e);
    if e.Spawn? {
      WlockSpawn(s.pc, s.wlock);
    } else if e.Exec? && s.irq.NoIrq? && s.pc[s.cpu].Locking? {
      WlockLock(s, s.pc[s.cpu].m, s.pc[s.cpu].l, e.pick);
    } else if e.Exec? && s.irq.NoIrq? && s.pc[s.cpu].Dropping? {
      WlockDrop(s, s.pc[s.cpu].m, s.pc[s.cpu].d);
    } else if s.irq.NoIrq? && !e.Interrupt? {
      WlockMove(s.pc, s.wlock, s.cpu, s'.pc[s.cpu], s'.wlock);
    }
  }

  lemma WlockDrop(s: State, m: nat, d: DropPc)
    requires Sized(s) && WlockOk(s.pc, s.wlock) && s.pc[s.cpu] == Dropping(m, d) && DropEnabled(s, m, d)
    ensures var s' := DropStep(s, m, d); WlockOk(s'.pc, s'.wlock)
  {
    hide WlockOk, DropStep;
    if d.WSpin? || d.WUnlock? || d.Store? || d.Pop? { WlockPop(s, m, d); } else { WlockWake(s, m, d); }
  }

  lemma WlockPop(s: State, m: nat, d: DropPc)
    requires Sized(s) && WlockOk(s.pc, s.wlock) && s.pc[s.cpu] == Dropping(m, d) && DropEnabled(s, m, d)
    requires d.WSpin? || d.WUnlock? || d.Store? || d.Pop?
    ensures var s' := DropStep(s, m, d); WlockOk(s'.pc, s'.wlock)
  {
    hide WlockOk;
    WlockMove(s.pc, s.wlock, s.cpu, DropStep(s, m, d).pc[s.cpu], DropStep(s, m, d).wlock);
  }

  lemma WlockWake(s: State, m: nat, d: DropPc)
    requires Sized(s) && WlockOk(s.pc, s.wlock) && s.pc[s.cpu] == Dropping(m, d)
    requires !(d.WSpin? || d.WUnlock? || d.Store? || d.Pop?)
    ensures var s' := DropStep(s, m, d); WlockOk(s'.pc, s'.wlock)
  {
    hide WlockOk;
    WlockMove(s.pc, s.wlock, s.cpu, DropStep(s, m, d).pc[s.cpu], s.wlock);
  }

  lemma WlockLock(s: State, m: nat, l: LockPc, p: Pick)
    requires CpuOk(s) && WlockOk(s.pc, s.wlock)
    requires s.irq.NoIrq? && s.pc[s.cpu] == Locking(m, l) && LockEnabled(s, m, l, p)
    ensures var s' := LockStep(s, m, l, p); WlockOk(s'.pc, s'.wlock)
  {
    hide WlockOk;
    if !l.Dead? { WlockMove(s.pc, s.wlock, s.cpu, LockStep(s, m, l, p).pc[s.cpu], LockStep(s, m, l, p).wlock); }
  }

  lemma DataStep(s: State, e: Event)
    requires CpuOk(s) && OwnOk(s.pc, s.locked, s.held) && DataOk(s.pc, s.data, s.incs) && Enabled(s, e)
    ensures DataOk(Next(s, e).pc, Next(s, e).data, Next(s, e).incs)
  {
    if e.Spawn? {
      DataSpawn(s.pc, s.data, s.incs, seq(|s.locked|, _ => 0));
    } else if e.Exec? && s.irq.NoIrq? && s.pc[s.cpu].Inc? {
      DataInc(s.pc, s.locked, s.held, s.data, s.incs, s.cpu, s.pc[s.cpu].m, s.pc[s.cpu].seen);
    } else if e.StartInc? {
      DataMove(s.pc, s.data, s.incs, s.cpu, Inc(e.m, s.data[e.m]));
    } else {
      hide DataOk, OwnOk, SuspendedOk;
      OnlyPcMoves(s, e);
      DataMove(s.pc, s.data, s.incs, s.cpu, Next(s, e).pc[s.cpu]);
    }
  }

  lemma OnlyPcMoves(s: State, e: Event)
    requires Sized(s) && Enabled(s, e) && !e.Spawn? && !e.StartInc?
    requires !(e.Exec? && s.irq.NoIrq? && s.pc[s.cpu].Inc?)
    ensures var s' := Next(s, e);
      && s'.data == s.data && s'.incs == s.incs && |s'.pc| == |s.pc| && s'.pc == s.pc[s.cpu := s'.pc[s.cpu]]
      && (s'.pc[s.cpu].Inc? ==> s'.pc[s.cpu] == s.pc[s.cpu])
  {
    hide LockStep, DropStep, BootStep, AllBlocked, PickOk, NewCurrent, Prepared, LockEnabled, DropEnabled, BootEnabled;
    if e.Exec? && s.irq.NoIrq? && s.pc[s.cpu].Locking? { OnlyPcMovesLock(s, s.pc[s.cpu].m, s.pc[s.cpu].l, e.pick); }
    else if e.Exec? && s.irq.NoIrq? && s.pc[s.cpu].Dropping? { OnlyPcMovesDrop(s, s.pc[s.cpu].m, s.pc[s.cpu].d); }
    else if e.Exec? && s.irq.NoIrq? && s.pc[s.cpu].Booting? { OnlyPcMovesBoot(s, s.pc[s.cpu].b, e.pick); }
  }

  lemma OnlyPcMovesBoot(s: State, b: BootPc, p: Pick)
    requires Sized(s) && s.pc[s.cpu] == Booting(b)
    ensures var s' := BootStep(s, b, p);
      && s'.data == s.data && s'.incs == s.incs && |s'.pc| == |s.pc| && s'.pc == s.pc[s.cpu := s'.pc[s.cpu]]
      && !s'.pc[s.cpu].Inc?
  {
    hide Prepared, NewCurrent;
  }

  lemma OnlyPcMovesLock(s: State, m: nat, l: LockPc, p: Pick)
    requires Sized(s) && s.pc[s.cpu] == Locking(m, l)
    ensures var s' := LockStep(s, m, l, p);
      && s'.data == s.data && s'.incs == s.incs && |s'.pc| == |s.pc| && s'.pc == s.pc[s.cpu := s'.pc[s.cpu]]
      && !s'.pc[s.cpu].Inc?
  {
    hide LockStep;
    if Trying(l) { OnlyPcMovesTry(s, m, l, p); } else { OnlyPcMovesWait(s, m, l, p); }
  }

  lemma OnlyPcMovesTry(s: State, m: nat, l: LockPc, p: Pick)
    requires Sized(s) && s.pc[s.cpu] == Locking(m, l) && Trying(l)
    ensures var s' := LockStep(s, m, l, p);
      && s'.data == s.data && s'.incs == s.incs && |s'.pc| == |s.pc| && s'.pc == s.pc[s.cpu := s'.pc[s.cpu]]
      && !s'.pc[s.cpu].Inc?
  {
  }

  lemma OnlyPcMovesWait(s: State, m: nat, l: LockPc, p: Pick)
    requires Sized(s) && s.pc[s.cpu] == Locking(m, l) && !Trying(l)
    ensures var s' := LockStep(s, m, l, p);
      && s'.data == s.data && s'.incs == s.incs && |s'.pc| == |s.pc| && s'.pc == s.pc[s.cpu := s'.pc[s.cpu]]
      && !s'.pc[s.cpu].Inc?
  {
    hide Blocking, NewCurrent, Prepared, AllBlocked;
  }

  lemma OnlyPcMovesDrop(s: State, m: nat, d: DropPc)
    requires Sized(s) && s.pc[s.cpu] == Dropping(m, d)
    ensures var s' := DropStep(s, m, d);
      && s'.data == s.data && s'.incs == s.incs && |s'.pc| == |s.pc| && s'.pc == s.pc[s.cpu := s'.pc[s.cpu]]
      && !s'.pc[s.cpu].Inc?
  {
  }

  lemma DataMove(pcs: seq<Pc>, data: seq<int>, incs: seq<seq<nat>>, a: nat, pc: Pc)
    requires DataOk(pcs, data, incs) && a < |pcs|
    requires pc.Inc? ==> pc == pcs[a] || (pc.m < |data| && pc.seen == data[pc.m])
    ensures DataOk(pcs[a := pc], data, incs)
  {
  }

  // ---------------------------------------------------------------------------
  // The invariant
  // ---------------------------------------------------------------------------

  lemma InvInit(mutexes: nat)
    ensures Inv(Init(mutexes))
  {
    var s := Init(mutexes);
    forall m | 0 <= m < mutexes ensures Total(s.incs, m, 1) == 0 { assert Total(s.incs, m, 0) == 0; }
  }

  lemma InvStep(s: State, e: Event)
    requires Inv(s) && Enabled(s, e)
    ensures Inv(Next(s, e))
  {
    CpuStep(s, e);
    RunStep(s, e);
    QueueStep(s, e);
    OwnStep(s, e);
    WakeStep(s, e);
    QuietStep(s, e);
    WlockStep(s, e);
    DataStep(s, e);
    hide Next, CpuOk, RunOk, DeadOk, QueueOk, OwnOk, LockedOk, WakeOk, WlockOk, DataOk, QuietOk;
  }
}
