/**
 The bootstrap context as a lock owner: it runs only until the first switch, so what it holds then it holds
 for ever, and who waits for that is never woken. Everything else is owned and woken by scheduled threads
 exactly when it held nothing.
 */
module KernelBoot {
  import opened Wrappers
  import opened KernelMachine
  import opened KernelCpu
  import opened KernelQueue
  import opened KernelMutex
  import opened KernelSafety
  import opened KernelTheorems

  /** Before the first switch no thread has run; and no thread ever drops what the bootstrap context holds. */
  predicate BootFirst(s: State)
    requires Sized(s)
  {
    && (s.cpu == 0 ==> forall a :: 1 <= a < |s.pc| ==> s.pc[a].Idle?)
    && (forall a :: 1 <= a < |s.pc| && s.pc[a].Dropping? ==> s.pc[a].m !in s.held[0])
  }

  // ---------------------------------------------------------------------------
  // What a step leaves alone
  // ---------------------------------------------------------------------------

  /** Other actors' program points and guards, and the mutex of a drop in progress. */
  predicate StepFrame(s: State, s': State, drops: set<nat>)
    requires s.cpu < |s.pc| == |s.held|
  {
    && |s.pc| <= |s'.pc| == |s'.held|
    && (forall a :: 0 <= a < |s.pc| && a != s.cpu ==> s'.pc[a] == s.pc[a] && s'.held[a] == s.held[a])
    && (forall a :: |s.pc| <= a < |s'.pc| ==> s'.pc[a] == Idle && s'.held[a] == {})
    && (s'.pc[s.cpu].Dropping? ==> (s.pc[s.cpu].Dropping? && s'.pc[s.cpu].m == s.pc[s.cpu].m) || s'.pc[s.cpu].m in drops)
  }

  /** Queues grow at the end, except the one a drop pops. */
  predicate QueueFrame(s: State, s': State)
    requires s.cpu < |s.pc|
  {
    && |s'.waitq| == |s.waitq|
    && forall m :: 0 <= m < |s.waitq| ==>
         s.waitq[m] <= s'.waitq[m] || (s.pc[s.cpu].Dropping? && s.pc[s.cpu].m == m)
  }

  lemma FrameTry(s: State, m: nat, l: LockPc, p: Pick)
    requires Sized(s) && s.pc[s.cpu] == Locking(m, l) && Trying(l)
    ensures var s' := LockStep(s, m, l, p); StepFrame(s, s', {}) && QueueFrame(s, s')
  {
  }

  lemma FrameWait(s: State, m: nat, l: LockPc, p: Pick)
    requires Sized(s) && s.pc[s.cpu] == Locking(m, l) && !Trying(l)
    ensures var s' := LockStep(s, m, l, p); StepFrame(s, s', {}) && QueueFrame(s, s')
  {
    hide AllBlocked, Prepared, NewCurrent, Blocking;
  }

  lemma FrameDrop(s: State, m: nat, d: DropPc)
    requires Sized(s) && s.pc[s.cpu] == Dropping(m, d)
    ensures var s' := DropStep(s, m, d); StepFrame(s, s', {}) && QueueFrame(s, s')
  {
  }

  lemma FrameOther(s: State, e: Event)
    requires Sized(s) && Enabled(s, e) && !(e.Exec? && s.irq.NoIrq? && (s.pc[s.cpu].Locking? || s.pc[s.cpu].Dropping?))
    ensures var s' := Next(s, e); StepFrame(s, s', if e.StartDrop? then {e.m} else {}) && QueueFrame(s, s')
  {
    hide LockStep, DropStep, BootStep, HandlerStep, AllBlocked, LockEnabled, DropEnabled, BootEnabled, HandlerEnabled;
    if e.Exec? && !s.irq.NoIrq? { FrameHandler(s, e.pick); }
    else if e.Exec? && s.pc[s.cpu].Booting? { FrameBoot(s, s.pc[s.cpu].b, e.pick); }
  }

  lemma FrameBoot(s: State, b: BootPc, p: Pick)
    requires Sized(s) && s.pc[s.cpu] == Booting(b)
    ensures var s' := BootStep(s, b, p); StepFrame(s, s', {}) && QueueFrame(s, s')
  {
    hide Prepared, NewCurrent;
  }

  lemma FrameHandler(s: State, p: Pick)
    requires Sized(s) && !s.irq.NoIrq?
    ensures var s' := HandlerStep(s, p); StepFrame(s, s', {}) && QueueFrame(s, s')
  {
    hide Prepared, NewCurrent;
  }

  lemma Frame(s: State, e: Event)
    requires Sized(s) && Enabled(s, e)
    ensures var s' := Next(s, e); StepFrame(s, s', if e.StartDrop? then {e.m} else {}) && QueueFrame(s, s')
  {
    hide LockStep, DropStep, StepFrame, QueueFrame, AllBlocked;
    if e.Exec? && s.irq.NoIrq? && s.pc[s.cpu].Locking? {
      if Trying(s.pc[s.cpu].l) { FrameTry(s, s.pc[s.cpu].m, s.pc[s.cpu].l, e.pick); }
      else { FrameWait(s, s.pc[s.cpu].m, s.pc[s.cpu].l, e.pick); }
    } else if e.Exec? && s.irq.NoIrq? && s.pc[s.cpu].Dropping? {
      FrameDrop(s, s.pc[s.cpu].m, s.pc[s.cpu].d);
    } else {
      FrameOther(s, e);
    }
  }

  // ---------------------------------------------------------------------------
  // Steps
  // ---------------------------------------------------------------------------

  lemma DroppedIsHeld(s: State, e: Event)
    requires Inv(s) && Enabled(s, e) && e.StartDrop? && s.cpu != 0
    ensures e.m !in s.held[0]
  {
    SizedOf(s);
    assert e.m in s.held[s.cpu];
    hide CpuOk, QueueOk, RunOk, DeadOk, LockedOk, WakeOk, WlockOk, DataOk, QuietOk;
  }

  lemma BootFirstStep(s: State, e: Event)
    requires Inv(s) && BootFirst(s) && Enabled(s, e)
    ensures Sized(Next(s, e)) && BootFirst(Next(s, e))
    ensures s.cpu != 0 ==> Next(s, e).cpu != 0 && Next(s, e).held[0] == s.held[0]
  {
    hide Next, Enabled, BootFirst, StepFrame, QueueFrame;
    Frame(s, e);
    QuietStep(s, e);
    InvStep(s, e);
    if e.StartDrop? && s.cpu != 0 { DroppedIsHeld(s, e); }
    hide Inv;
    SizedOf(s);
    SizedOf(Next(s, e));
    BootFirstKept(s, Next(s, e), if e.StartDrop? then {e.m} else {});
  }

  lemma BootFirstKept(s: State, s': State, drops: set<nat>)
    requires Sized(s) && Sized(s') && BootFirst(s) && StepFrame(s, s', drops) && (s.cpu != 0 ==> s'.cpu != 0)
    requires s.cpu != 0 ==> forall m :: m in drops ==> m !in s.held[0]
    ensures BootFirst(s') && (s.cpu != 0 ==> s'.held[0] == s.held[0])
  {
  }

  lemma SizedOf(s: State)
    requires Inv(s)
    ensures Sized(s)
  {
    hide QueueOk, OwnOk, RunOk, DeadOk, LockedOk, WakeOk, WlockOk, DataOk, QuietOk;
  }

  /** The queue of a mutex the bootstrap context holds only grows. */
  lemma StrandedStep(s: State, e: Event, m: nat)
    requires Inv(s) && BootFirst(s) && s.cpu != 0 && Enabled(s, e) && m in s.held[0] && m < |s.waitq|
    ensures m < |Next(s, e).waitq| && s.waitq[m] <= Next(s, e).waitq[m]
  {
    Frame(s, e);
    hide Next, Enabled;
  }

  // ---------------------------------------------------------------------------
  // Runs
  // ---------------------------------------------------------------------------

  lemma {:induction false} BootFirstRun(s: State, events: seq<Event>)
    requires Inv(s) && BootFirst(s) && Run(s, events).Some?
    ensures Inv(Run(s, events).value) && Sized(Run(s, events).value) && BootFirst(Run(s, events).value)
    decreases |events|
  {
    SizedOf(s);
    if events != [] {
      BootFirstStep(s, events[0]);
      InvStep(s, events[0]);
      hide Inv, Next, Enabled, BootFirst;
      BootFirstRun(Next(s, events[0]), events[1..]);
    }
  }

  /** Once switched away from, the bootstrap context keeps exactly its guards, whatever happens. */
  lemma {:induction false} BootKeepsGuards(s: State, events: seq<Event>)
    requires Inv(s) && BootFirst(s) && s.cpu != 0 && Run(s, events).Some?
    ensures Run(s, events).value.cpu != 0 && Run(s, events).value.held != [] && Run(s, events).value.held[0] == s.held[0]
    decreases |events|
  {
    SizedOf(s);
    if events != [] {
      BootFirstStep(s, events[0]);
      InvStep(s, events[0]);
      hide Inv, Next, Enabled, BootFirst;
      BootKeepsGuards(Next(s, events[0]), events[1..]);
    }
  }

  /** Whoever waits for one of them waits in every continuation: no waiter is ever removed. */
  lemma {:induction false} StrandedForEver(s: State, events: seq<Event>, m: nat)
    requires Inv(s) && BootFirst(s) && s.cpu != 0 && Run(s, events).Some? && m in s.held[0] && m < |s.waitq|
    ensures m < |Run(s, events).value.waitq| && s.waitq[m] <= Run(s, events).value.waitq[m]
    decreases |events|
  {
    SizedOf(s);
    if events != [] {
      BootFirstStep(s, events[0]);
      StrandedStep(s, events[0], m);
      InvStep(s, events[0]);
      hide Inv, Next, Enabled, BootFirst;
      StrandedForEver(Next(s, events[0]), events[1..], m);
    }
  }

  lemma BootInit(mutexes: nat)
    ensures Inv(Init(mutexes)) && BootFirst(Init(mutexes))
  {
    InvInit(mutexes);
  }

  /** Every locked mutex is owned by a scheduled thread. */
  predicate ThreadsOwn(s: State) {
    forall m :: 0 <= m < |s.locked| && s.locked[m] ==> exists a :: 1 <= a < |s.held| && m in s.held[a]
  }

  lemma OwnersExactly(s: State)
    requires Inv(s)
    ensures s.held != [] && (ThreadsOwn(s) <==> s.held[0] == {})
  {
    SizedOf(s);
    hide CpuOk, QueueOk, RunOk, DeadOk, LockedOk, WakeOk, WlockOk, DataOk, QuietOk;
    if s.held[0] == {} {
      forall m | 0 <= m < |s.locked| && s.locked[m] ensures exists a :: 1 <= a < |s.held| && m in s.held[a] {
        assert Owned(s.held, m);
        var a :| 0 <= a < |s.held| && m in s.held[a];
      }
    } else {
      var m :| m in s.held[0];
      assert s.locked[m];
    }
  }

  /**
   With the state `s` of a run at or after the first switch and any later state `u`: the bootstrap context holds in
   `u` exactly what it held in `s`; every locked mutex of `u` is owned by a scheduled thread if and only if that
   was nothing; a mutex with waiters is held by the bootstrap context since then, or owned by a scheduled thread,
   or seen to by one that can run; and in the first of these cases its waiters of `s` still wait.
   */
  lemma WakersAreThreads(mutexes: nat, first: seq<Event>, rest: seq<Event>, s: State, u: State)
    requires Run(Init(mutexes), first) == Some(s) && s.cpu != 0 && Run(s, rest) == Some(u)
    ensures s.held != [] && u.held != [] && u.held[0] == s.held[0] && |u.waitq| == |u.locked| && |u.woken| == |u.blocked| == |u.pc|
    ensures ThreadsOwn(u) <==> s.held[0] == {}
    ensures forall m :: 0 <= m < |u.waitq| && u.waitq[m] != [] && m !in s.held[0] ==>
      || (exists a :: 1 <= a < |u.held| && m in u.held[a])
      || (exists a: nat :: CanRun(u.blocked, a) && Helps(u.pc[a], u.blocked[a], u.woken[a], m))
    ensures forall m :: m in s.held[0] ==> m < |s.waitq| == |u.waitq| && s.waitq[m] <= u.waitq[m]
  {
    BootInit(mutexes);
    BootFirstRun(Init(mutexes), first);
    BootFirstRun(s, rest);
    BootKeepsGuards(s, rest);
    OwnersExactly(u);
    hide Run, Init, BootFirst;
    SizedOf(s);
    SizedOf(u);
    forall m | m in s.held[0] ensures m < |s.waitq| == |u.waitq| && s.waitq[m] <= u.waitq[m] {
      HeldExists(s, m);
      HeldExists(u, m);
      StrandedForEver(s, rest, m);
      SameMutexes(s, rest);
    }
    forall m | 0 <= m < |u.waitq| && u.waitq[m] != [] && m !in s.held[0]
      ensures || (exists a :: 1 <= a < |u.held| && m in u.held[a])
              || (exists a: nat :: CanRun(u.blocked, a) && Helps(u.pc[a], u.blocked[a], u.woken[a], m))
    {
      WaitersSeenTo(u, m);
    }
  }

  lemma HeldExists(s: State, m: nat)
    requires Inv(s) && s.held != [] && m in s.held[0]
    ensures m < |s.waitq|
  {
    SizedOf(s);
    hide CpuOk, QueueOk, RunOk, DeadOk, LockedOk, WakeOk, WlockOk, DataOk, QuietOk;
  }

  lemma {:induction false} SameMutexes(s: State, events: seq<Event>)
    requires Inv(s) && Run(s, events).Some?
    ensures |Run(s, events).value.waitq| == |s.waitq|
    decreases |events|
  {
    SizedOf(s);
    if events != [] {
      Frame(s, events[0]);
      InvStep(s, events[0]);
      hide Inv, Next, Enabled, StepFrame;
      SameMutexes(Next(s, events[0]), events[1..]);
    }
  }

  lemma WaitersSeenTo(u: State, m: nat)
    requires Inv(u) && Sized(u) && m < |u.waitq| && u.waitq[m] != [] && m !in u.held[0]
    ensures || (exists a :: 1 <= a < |u.held| && m in u.held[a])
            || (exists a: nat :: CanRun(u.blocked, a) && Helps(u.pc[a], u.blocked[a], u.woken[a], m))
  {
    if u.locked[m] {
      var a := OwnerOf(u, m);
      assert a >= 1 && m in u.held[a];
    } else {
      var a := RunningHelper(u, m);
    }
  }
}
