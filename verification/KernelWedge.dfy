/**
 The one way the CPU can get stuck does happen: three threads on one mutex. A drop holds the
 `waiters` spinlock with interrupts enabled and is preempted there; a second thread takes the freed
 mutex; a third finds it locked and spins on `waiters` with interrupts disabled.
 */
module KernelWedge {
  import opened Wrappers
  import opened KernelMachine
  import opened KernelCpu
  import opened KernelQueue
  import opened KernelMutex
  import opened KernelSafety
  import opened KernelTheorems

  const Any := Pick(0, false)

  lemma {:induction false} Extend(s: State, events: seq<Event>, e: Event)
    requires Run(s, events).Some? && Sized(Run(s, events).value) && Enabled(Run(s, events).value, e)
    ensures Run(s, events + [e]) == Some(Next(Run(s, events).value, e))
    decreases |events|
  {
    hide Next, Enabled;
    if events == [] {
      assert events + [e] == [e] && [e][1..] == [];
      assert Run(Next(s, e), []) == Some(Next(s, e));
    } else {
      Extend(Next(s, events[0]), events[1..], e);
      assert (events + [e])[1..] == events[1..] + [e];
    }
  }

  /** An interrupt that switches: five events move the CPU to thread `to` and save the interrupted actor. */
  lemma Preempt(start: State, events: seq<Event>, s: State, to: nat) returns (more: seq<Event>)
    requires Run(start, events) == Some(s) && Inv(s) && s.iflag && to != s.cpu && CanRun(s.blocked, to)
    ensures Run(start, more) == Some(s.(cpu := to, current := to, slots := s.slots[s.cpu := s.cpu]))
  {
    hide Run, QueueOk, OwnOk, WakeOk, WlockOk, DataOk, LockedOk, RunOk, DeadOk;
    more := PreemptPick(start, events, s, to);
    var pick := Exec(Pick(to, false));
    var s3 := s.(iflag := false, sched := true, current := to, irq := HRelease(Some(Switch(s.cpu, to))));
    Extend(start, more, pick);
    more := more + [pick];
    var s4 := s3.(sched := false, irq := HSwitch(Some(Switch(s.cpu, to))));
    assert Run(start, more) == Some(s4);
    Extend(start, more, pick);
    more := more + [pick];
    assert s.slots[to] == to;
  }

  lemma PreemptPick(start: State, events: seq<Event>, s: State, to: nat) returns (more: seq<Event>)
    requires Run(start, events) == Some(s) && CpuOk(s) && s.iflag && to != s.cpu && CanRun(s.blocked, to)
    ensures Run(start, more) == Some(s.(iflag := false, sched := true, current := to, irq := HRelease(Some(Switch(s.cpu, to)))))
  {
    hide Run;
    var pick := Exec(Pick(to, false));
    Extend(start, events, Interrupt);
    var s1 := s.(iflag := false, irq := HLock);
    more := events + [Interrupt];
    assert Run(start, more) == Some(s1);
    Extend(start, more, pick);
    var s2 := s1.(sched := true, irq := HPick);
    more := more + [pick];
    assert Run(start, more) == Some(s2);
    Extend(start, more, pick);
    more := more + [pick];
  }

  /** Locking a free mutex takes the fast path. */
  lemma LockFree(start: State, events: seq<Event>, s: State, m: nat) returns (more: seq<Event>)
    requires Run(start, events) == Some(s) && Sized(s) && AtRest(s) && m < |s.locked| && !s.locked[m] && !s.woken[s.cpu]
    ensures Run(start, more) == Some(Acquire(s, m))
  {
    assert s.woken[s.cpu := false] == s.woken;
    Extend(start, events, StartLock(m));
    var s1 := Goto(s, Locking(m, Fast));
    more := events + [StartLock(m)];
    Extend(start, more, Exec(Any));
    more := more + [Exec(Any)];
    assert s.pc[s.cpu := Idle] == s.pc;
    assert Goto(s1, Idle) == s;
  }

  /** Dropping a guard up to the point where the drop holds the waiters spinlock. */
  lemma DropToPop(start: State, events: seq<Event>, s: State, m: nat) returns (more: seq<Event>)
    requires Run(start, events) == Some(s) && Sized(s) && AtRest(s) && m < |s.locked| && m in s.held[s.cpu] && !s.wlock[m]
    ensures Run(start, more) == Some(Goto(s, Dropping(m, Pop)).(locked := s.locked[m := false],
                                       held := s.held[s.cpu := s.held[s.cpu] - {m}], wlock := s.wlock[m := true]))
  {
    Extend(start, events, StartDrop(m));
    more := events + [StartDrop(m)];
    var s1 := Goto(s, Dropping(m, Store));
    Extend(start, more, Exec(Any));
    more := more + [Exec(Any)];
    var s2 := Goto(s, Dropping(m, WSpin)).(locked := s.locked[m := false], held := s.held[s.cpu := s.held[s.cpu] - {m}]);
    assert Next(s1, Exec(Any)) == s2;
    Extend(start, more, Exec(Any));
    more := more + [Exec(Any)];
    assert s2.pc[s.cpu := Dropping(m, Pop)] == s.pc[s.cpu := Dropping(m, Pop)];
  }

  function At(s: State, l: LockPc, m: nat, iflag: bool, sched: bool): State
    requires s.cpu < |s.pc|
  {
    s.(pc := s.pc[s.cpu := Locking(m, l)], iflag := iflag, sched := sched)
  }

  /** One step of the lock path that changes only the program point, the flag and the spinlock. */
  lemma Along(start: State, events: seq<Event>, s: State, m: nat, l: LockPc, i: bool, k: bool, l': LockPc, i': bool, k': bool)
    requires Sized(s) && s.irq.NoIrq? && m < |s.locked| && s.locked[m] && s.current == s.cpu != 0
    requires Run(start, events) == Some(At(s, l, m, i, k))
    requires
      || (l == Fast && l' == Irq && i' == i && k' == k)
      || (l == Irq && l' == Cli(i) && i' == i && k' == k)
      || (l.Cli? && l' == Spin(l.was) && !i' && k' == k)
      || (l.Spin? && l' == Slow(l.was) && i' == i && !k && k')
      || (l.Slow? && l' == Id(l.was) && i' == i && k' == k)
      || (l.Id? && l' == Queue(s.cpu) && i' == i && k' == k)
    ensures Run(start, events + [Exec(Any)]) == Some(At(s, l', m, i', k'))
  {
    var s1 := At(s, l, m, i, k);
    assert s1.pc[s.cpu := Locking(m, l')] == s.pc[s.cpu := Locking(m, l')];
    assert LockStep(s1, m, l, Any) == At(s, l', m, i', k');
    assert Enabled(s1, Exec(Any));
    Extend(start, events, Exec(Any));
  }

  /** Locking a held mutex, up to the spin on the waiters spinlock with interrupts off. */
  lemma LockToQueue(start: State, events: seq<Event>, s: State, m: nat) returns (more: seq<Event>)
    requires Run(start, events) == Some(s) && Sized(s) && AtRest(s) && m < |s.locked| && s.locked[m] && !s.woken[s.cpu]
    requires s.cpu != 0 && s.iflag && !s.sched && s.current == s.cpu
    ensures Run(start, more) == Some(At(s, Queue(s.cpu), m, false, true))
  {
    assert s.woken[s.cpu := false] == s.woken;
    Extend(start, events, StartLock(m));
    more := events + [StartLock(m)];
    assert Run(start, more) == Some(At(s, Fast, m, true, false));
    hide Run, At;
    Along(start, more, s, m, Fast, true, false, Irq, true, false);
    more := more + [Exec(Any)];
    Along(start, more, s, m, Irq, true, false, Cli(true), true, false);
    more := more + [Exec(Any)];
    Along(start, more, s, m, Cli(true), true, false, Spin(true), false, false);
    more := more + [Exec(Any)];
    Along(start, more, s, m, Spin(true), false, false, Slow(true), false, true);
    more := more + [Exec(Any)];
    Along(start, more, s, m, Slow(true), false, true, Id(true), false, true);
    more := more + [Exec(Any)];
    Along(start, more, s, m, Id(true), false, true, Queue(s.cpu), false, true);
    more := more + [Exec(Any)];
  }

  /** A run that ends with the CPU stuck: from there no event, not even an interrupt, is possible. */
  lemma WedgeHappens() returns (events: seq<Event>)
    ensures var r := Run(Init(1), events); r.Some? && Sized(r.value) && Wedged(r.value) && forall e :: !Enabled(r.value, e)
  {
    hide Inv, Run, Enabled, Next;
    var start := Init(1);
    events := SpawnThree();
    Reached(1, events);
    var s := Run(start, events).value;
    events := Preempt(start, events, s, 1);
    Reached(1, events);
    s := Run(start, events).value;
    events := LockFree(start, events, s, 0);
    Reached(1, events);
    s := Run(start, events).value;
    events := DropToPop(start, events, s, 0);
    Reached(1, events);
    s := Run(start, events).value;
    events := Preempt(start, events, s, 2);
    Reached(1, events);
    s := Run(start, events).value;
    events := LockFree(start, events, s, 0);
    Reached(1, events);
    s := Run(start, events).value;
    events := Preempt(start, events, s, 3);
    Reached(1, events);
    s := Run(start, events).value;
    events := LockToQueue(start, events, s, 0);
    StuckExactly(1, events);
  }

  /** The last two steps into the DEADLOCK branch. */
  lemma ReleaseToDead(start: State, events: seq<Event>, s: State, m: nat) returns (more: seq<Event>)
    requires Run(start, events) == Some(s) && Sized(s) && s.irq.NoIrq? && s.pc[s.cpu] == Locking(m, Release(None))
    ensures Run(start, more).Some? && s.cpu < |Run(start, more).value.pc| && IsDead(Run(start, more).value.pc[s.cpu])
  {
    hide Run;
    Extend(start, events, Exec(Any));
    more := events + [Exec(Any)];
    var s' := Goto(s, Locking(m, SwitchOut(None))).(sched := false);
    assert Run(start, more) == Some(s');
    Extend(start, more, Exec(Any));
    more := more + [Exec(Any)];
  }

  lemma BlockToDead(start: State, events: seq<Event>, s: State, m: nat) returns (more: seq<Event>)
    requires Run(start, events) == Some(s) && Sized(s) && s.irq.NoIrq? && s.pc[s.cpu] == Locking(m, Block) && s.current == s.cpu != 0
    requires forall t :: 1 <= t < |s.blocked| && t != s.cpu ==> s.blocked[t]
    ensures Run(start, more).Some? && s.cpu < |Run(start, more).value.pc| && IsDead(Run(start, more).value.pc[s.cpu])
  {
    hide Run;
    assert AllBlocked(Blocking(s.blocked, s.current));
    Extend(start, events, Exec(Any));
    var s' := Goto(s, Locking(m, Release(None))).(blocked := s.blocked[s.cpu := true]);
    assert Next(s, Exec(Any)) == s';
    more := ReleaseToDead(start, events + [Exec(Any)], s', m);
  }

  /** A thread that finds its mutex locked while every other thread is blocked ends in the DEADLOCK branch. */
  lemma QueueToDead(start: State, events: seq<Event>, s: State, m: nat) returns (more: seq<Event>)
    requires Run(start, events) == Some(s) && Sized(s) && s.irq.NoIrq? && s.pc[s.cpu] == Locking(m, Queue(s.cpu))
    requires s.current == s.cpu != 0 && !s.wlock[m]
    requires forall t :: 1 <= t < |s.blocked| && t != s.cpu ==> s.blocked[t]
    ensures Run(start, more).Some? && s.cpu < |Run(start, more).value.pc| && IsDead(Run(start, more).value.pc[s.cpu])
  {
    hide Run;
    Extend(start, events, Exec(Any));
    more := events + [Exec(Any)];
    var s1 := Goto(s, Locking(m, Push(s.cpu))).(wlock := s.wlock[m := true]);
    assert Run(start, more) == Some(s1);
    Extend(start, more, Exec(Any));
    var s2 := Next(s1, Exec(Any));
    assert s2.pc[s.cpu] == Locking(m, Block);
    more := BlockToDead(start, more + [Exec(Any)], s2, m);
  }

  /** The rank discipline of `NoDeadlock` cannot be dropped: a lone thread that locks a mutex twice reaches DEADLOCK. */
  lemma RelockDeadlocks() returns (events: seq<Event>)
    ensures var r := Run(Init(1), events); r.Some? && 1 < |r.value.pc| && IsDead(r.value.pc[1])
  {
    hide Inv, Run, Enabled, Next;
    var start := Init(1);
    events := SpawnOne();
    Reached(1, events);
    var s := Run(start, events).value;
    events := Preempt(start, events, s, 1);
    Reached(1, events);
    s := Run(start, events).value;
    events := LockFree(start, events, s, 0);
    Reached(1, events);
    s := Run(start, events).value;
    events := LockToQueue(start, events, s, 0);
    Reached(1, events);
    s := Run(start, events).value;
    events := QueueToDead(start, events, s, 0);
  }

  /** Queueing on `waiters`, two steps from the spin. */
  lemma QueueToWait(start: State, events: seq<Event>, s: State, m: nat) returns (more: seq<Event>)
    requires Run(start, events) == Some(s) && Sized(s) && s.irq.NoIrq? && s.pc[s.cpu] == Locking(m, Queue(s.cpu)) && !s.wlock[m]
    ensures Run(start, more) == Some(Goto(s, Locking(m, Block)).(waitq := s.waitq[m := s.waitq[m] + [s.cpu]]))
  {
    hide Run;
    Extend(start, events, Exec(Any));
    more := events + [Exec(Any)];
    var s1 := Goto(s, Locking(m, Push(s.cpu))).(wlock := s.wlock[m := true]);
    assert Run(start, more) == Some(s1);
    Extend(start, more, Exec(Any));
    more := more + [Exec(Any)];
    assert s1.wlock[m := false] == s.wlock && s1.pc[s.cpu := Locking(m, Block)] == s.pc[s.cpu := Locking(m, Block)];
  }

  /** A thread does get to wait for the bootstrap context: it locks, is switched away from, and the thread queues for ever. */
  lemma BootStrandsThread() returns (events: seq<Event>)
    ensures var r := Run(Init(1), events);
      r.Some? && Sized(r.value) && r.value.cpu == 1 && r.value.held[0] == {0} && r.value.waitq == [[1]]
  {
    hide Inv, Run, Enabled, Next;
    var start := Init(1);
    events := SpawnOne();
    Reached(1, events);
    var s := Run(start, events).value;
    events := LockFree(start, events, s, 0);
    Reached(1, events);
    s := Run(start, events).value;
    events := Preempt(start, events, s, 1);
    Reached(1, events);
    s := Run(start, events).value;
    events := LockToQueue(start, events, s, 0);
    Reached(1, events);
    s := Run(start, events).value;
    assert s.waitq == [[]] && s.waitq[0] + [1] == [1] && s.cpu == 1;
    events := QueueToWait(start, events, s, 0);
    assert Run(start, events).value.waitq == [[1]];
  }

  lemma SpawnOne() returns (events: seq<Event>)
    ensures Run(Init(1), events) ==
      Some(State(0, true, NoIrq, false, 0, [false, false], [0, 1], [Idle, Idle], [{}, {}], [false], [[]], [false], [0], [[0], [0]], [false, false]))
  {
    var start := Init(1);
    Extend(start, [], Spawn);
    events := [] + [Spawn];
    var s := Next(start, Spawn);
    assert s.locked == [false] && s.waitq == [[]] && s.wlock == [false] && s.data == [0];
    assert s.incs == [[0], [0]] && s.blocked == [false, false] && s.slots == [0, 1];
    assert s.woken == [false, false] && s.held == [{}, {}] && s.pc == [Idle, Idle];
  }

  lemma SpawnThree() returns (events: seq<Event>)
    ensures Run(Init(1), events) ==
      Some(State(0, true, NoIrq, false, 0, [false, false, false, false], [0, 1, 2, 3], [Idle, Idle, Idle, Idle],
                 [{}, {}, {}, {}], [false], [[]], [false], [0], [[0], [0], [0], [0]], [false, false, false, false]))
  {
    var start := Init(1);
    Extend(start, [], Spawn);
    assert Run(start, [Spawn]).value.slots == [0, 1] && Run(start, [Spawn]).value.pc == [Idle, Idle];
    Extend(start, [Spawn], Spawn);
    assert [Spawn] + [Spawn] == [Spawn, Spawn];
    Extend(start, [Spawn, Spawn], Spawn);
    events := [Spawn, Spawn] + [Spawn];
    var s := Next(Next(Next(start, Spawn), Spawn), Spawn);
    assert s.locked == [false] && s.waitq == [[]] && s.wlock == [false] && s.data == [0];
    assert s.incs == [[0], [0], [0], [0]];
    assert s.blocked == [false, false, false, false] && s.slots == [0, 1, 2, 3];
    assert s.woken == [false, false, false, false] && s.held == [{}, {}, {}, {}] && s.pc == [Idle, Idle, Idle, Idle];
  }
}
