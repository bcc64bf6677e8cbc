/** What the kernel guarantees over whole runs: any number of threads and mutexes, any schedule, any interrupts. */
module KernelTheorems {
  import opened Wrappers
  import opened KernelMachine
  import opened KernelCpu
  import opened KernelQueue
  import opened KernelMutex
  import opened KernelSafety

  /** The state after `events`; None when one of them cannot happen. */
  function Run(s: State, events: seq<Event>): Option<State>
    decreases |events|
  {
    if events == [] then Some(s)
    else if Sized(s) && Enabled(s, events[0]) then Run(Next(s, events[0]), events[1..])
    else None
  }

  lemma {:induction false} RunKeepsInv(s: State, events: seq<Event>)
    requires Inv(s)
    ensures Run(s, events).Some? ==> Inv(Run(s, events).value)
    decreases |events|
  {
    hide Inv, Next, Enabled;
    if events != [] && Sized(s) && Enabled(s, events[0]) {
      InvStep(s, events[0]);
      RunKeepsInv(Next(s, events[0]), events[1..]);
    }
  }

  lemma Reached(mutexes: nat, events: seq<Event>)
    ensures Run(Init(mutexes), events).Some? ==> Inv(Run(Init(mutexes), events).value)
  {
    InvInit(mutexes);
    RunKeepsInv(Init(mutexes), events);
  }

  /**
   No lost wakeup: a mutex with waiters is locked, or some scheduled thread that can run is inside its
   drop after the store or has been woken from its wait and is still in its lock loop; queued ids are distinct; a thread is blocked exactly when it is queued or has
   been popped and is about to be unblocked; and it is queued on the mutex it waits for only.
   */
  lemma NoLostWakeup(mutexes: nat, events: seq<Event>)
    requires Run(Init(mutexes), events).Some?
    ensures var s := Run(Init(mutexes), events).value;
      && Sized(s)
      && (forall m :: 0 <= m < |s.waitq| && s.waitq[m] != [] ==>
            s.locked[m] || exists a: nat :: CanRun(s.blocked, a) && Helps(s.pc[a], s.blocked[a], s.woken[a], m))
      && (forall m :: 0 <= m < |s.waitq| ==> KernelQueue.Distinct(s.waitq[m]))
      && (forall m, n, i, j :: 0 <= m < n < |s.waitq| && 0 <= i < |s.waitq[m]| && 0 <= j < |s.waitq[n]| ==>
            s.waitq[m][i] != s.waitq[n][j])
      && (s.iflag ==> forall t :: 1 <= t < |s.pc| ==> (s.blocked[t] <==> IsQueued(s.waitq, t) || IsPopped(s.pc, t)))
  {
    Reached(mutexes, events);
    var s := Run(Init(mutexes), events).value;
    forall m | 0 <= m < |s.waitq| && s.waitq[m] != [] && !s.locked[m]
      ensures exists a: nat :: CanRun(s.blocked, a) && Helps(s.pc[a], s.blocked[a], s.woken[a], m)
    {
      var a := RunningHelper(s, m);
    }
    forall m, n, i, j | 0 <= m < n < |s.waitq| && 0 <= i < |s.waitq[m]| && 0 <= j < |s.waitq[n]|
      ensures s.waitq[m][i] != s.waitq[n][j]
    {
      assert QueuedAt(s.pc, s.blocked, m, s.waitq[m][i]) && QueuedAt(s.pc, s.blocked, n, s.waitq[n][j]);
    }
    if s.iflag {
      forall t | 1 <= t < |s.pc| ensures s.blocked[t] <==> IsQueued(s.waitq, t) || IsPopped(s.pc, t) {
        BlockedExactly(s, t);
      }
    }
  }

  lemma RunningHelper(s: State, m: nat) returns (a: nat)
    requires Inv(s) && m < |s.waitq| && s.waitq[m] != [] && !s.locked[m]
    ensures CanRun(s.blocked, a) && Helps(s.pc[a], s.blocked[a], s.woken[a], m)
  {
    assert Helped(s.pc, s.blocked, s.woken, m);
    a :| 1 <= a < |s.pc| && Helps(s.pc[a], s.blocked[a], s.woken[a], m);
    assert BlockedOk(s.pc, s.blocked, s.waitq);
  }

  /** The CPU, once switched away from the bootstrap context, never executes it again. */
  lemma {:induction false} BootNeverReturns(s: State, events: seq<Event>)
    requires Inv(s) && s.cpu != 0 && Run(s, events).Some?
    ensures Run(s, events).value.cpu != 0
    decreases |events|
  {
    if events != [] {
      assert Sized(s) && Enabled(s, events[0]);
      QuietStep(s, events[0]);
      InvStep(s, events[0]);
      hide Inv, Next, Enabled;
      BootNeverReturns(Next(s, events[0]), events[1..]);
    }
  }

  predicate IsQueued(waitq: seq<seq<nat>>, t: nat) {
    exists m :: 0 <= m < |waitq| && t in waitq[m]
  }

  lemma BlockedExactly(s: State, t: nat)
    requires Inv(s) && s.iflag && 1 <= t < |s.pc|
    ensures s.blocked[t] <==> IsQueued(s.waitq, t) || IsPopped(s.pc, t)
  {
    if IsQueued(s.waitq, t) {
      var m :| 0 <= m < |s.waitq| && t in s.waitq[m];
      var i :| 0 <= i < |s.waitq[m]| && s.waitq[m][i] == t;
      assert QueuedAt(s.pc, s.blocked, m, s.waitq[m][i]);
      assert !Off(s.pc[t]);
    }
    if IsPopped(s.pc, t) {
      var a :| 0 <= a < |s.pc| && PoppedBy(s.pc[a]) == Some(t);
    }
  }

  /** At most one live guard per mutex, and a mutex is locked exactly while one exists. */
  lemma MutualExclusion(mutexes: nat, events: seq<Event>, m: nat)
    requires Run(Init(mutexes), events).Some? && m < |Run(Init(mutexes), events).value.locked|
    ensures var s := Run(Init(mutexes), events).value;
      && (forall a, b :: 0 <= a < |s.held| && 0 <= b < |s.held| && m in s.held[a] && m in s.held[b] ==> a == b)
      && (s.locked[m] <==> exists a :: 0 <= a < |s.held| && m in s.held[a])
  {
    Reached(mutexes, events);
    var s := Run(Init(mutexes), events).value;
    assert s.locked[m] ==> Owned(s.held, m);
  }

  function Sum(counts: seq<nat>): nat {
    if counts == [] then 0 else Sum(counts[..|counts| - 1]) + counts[|counts| - 1]
  }

  /** No lost updates: when actor `a` has completed `counts[a]` increments, the data is their sum. */
  lemma NoLostUpdates(mutexes: nat, events: seq<Event>, m: nat, counts: seq<nat>)
    requires Run(Init(mutexes), events).Some? && m < |Run(Init(mutexes), events).value.data|
    requires var s := Run(Init(mutexes), events).value;
      |counts| == |s.incs| && forall a :: 0 <= a < |counts| ==> m < |s.incs[a]| && s.incs[a][m] == counts[a]
    ensures Run(Init(mutexes), events).value.data[m] == Sum(counts)
  {
    Reached(mutexes, events);
    SumIsTotal(Run(Init(mutexes), events).value.incs, m, counts, |counts|);
    assert counts[..|counts|] == counts;
  }

  lemma {:induction false} SumIsTotal(incs: seq<seq<nat>>, m: nat, counts: seq<nat>, k: nat)
    requires k <= |counts| == |incs| && forall a :: 0 <= a < |counts| ==> m < |incs[a]| && incs[a][m] == counts[a]
    ensures Total(incs, m, k) == Sum(counts[..k])
  {
    if k > 0 {
      SumIsTotal(incs, m, counts, k - 1);
      assert counts[..k][..k - 1] == counts[..k - 1];
    }
  }

  /**
   Whenever interrupts are enabled `current` is the actor on the CPU and SCHEDULER is free; a handler
   never finds SCHEDULER held; a prepared switch always saves into the running actor's own slot; and
   no step overwrites the context of a suspended actor or resumes an actor from a foreign slot.
   */
  lemma CurrentIsRunning(mutexes: nat, events: seq<Event>, e: Event)
    requires Run(Init(mutexes), events).Some?
    ensures var s := Run(Init(mutexes), events).value;
      && Sized(s)
      && (s.iflag ==> s.current == s.cpu && !s.sched)
      && (s.irq.HLock? ==> !s.sched)
      && (Pending(s).Some? ==> Pending(s).value.from == s.cpu && Pending(s).value.to == s.current)
      && (forall a :: 0 <= a < |s.slots| && a != s.cpu ==> s.slots[a] == a)
      && (Enabled(s, e) ==>
            var s' := Next(s, e);
            && (forall a :: 0 <= a < |s.slots| && a != s.cpu && a < |s'.slots| ==> s'.slots[a] == s.slots[a])
            && (s'.cpu != s.cpu ==> s'.cpu == s.current && s'.slots[s.cpu] == s.cpu && s'.iflag))
  {
    Reached(mutexes, events);
    var s := Run(Init(mutexes), events).value;
    if Enabled(s, e) { SwitchesProperly(s, e); }
  }

  lemma SwitchesProperly(s: State, e: Event)
    requires Inv(s) && Enabled(s, e)
    ensures var s' := Next(s, e);
      && |s.slots| <= |s'.slots| && s.cpu < |s'.slots|
      && (forall a :: 0 <= a < |s.slots| && a != s.cpu ==> s'.slots[a] == s.slots[a])
      && (s'.cpu != s.cpu ==> s'.cpu == s.current && s'.slots[s.cpu] == s.cpu && s'.iflag)
  {
    hide QueueOk, OwnOk, WakeOk, WlockOk, DataOk, LockedOk, RunOk, DeadOk;
    if e.Exec? && s.irq.NoIrq? && s.pc[s.cpu].Locking? { SwitchesLock(s, s.pc[s.cpu].m, s.pc[s.cpu].l, e.pick); }
    hide LockStep, AllBlocked;
  }

  lemma SwitchesLock(s: State, m: nat, l: LockPc, p: Pick)
    requires CpuOk(s) && s.irq.NoIrq? && s.pc[s.cpu] == Locking(m, l)
    ensures var s' := LockStep(s, m, l, p);
      && |s.slots| == |s'.slots|
      && (forall a :: 0 <= a < |s.slots| && a != s.cpu ==> s'.slots[a] == s.slots[a])
      && (s'.cpu != s.cpu ==> s'.cpu == s.current && s'.slots[s.cpu] == s.cpu && s'.iflag)
  {
    hide AllBlocked, Prepared, NewCurrent, Blocking;
  }

  // ---------------------------------------------------------------------------
  // Where the CPU can get stuck
  // ---------------------------------------------------------------------------

  /** Spinning on `waiters` with interrupts off while a suspended drop holds it. */
  predicate Wedged(s: State)
    requires Sized(s)
  {
    s.irq.NoIrq? && s.pc[s.cpu].Locking? && s.pc[s.cpu].l.Queue? && s.wlock[s.pc[s.cpu].m]
  }

  /**
   In every reachable state some event is possible, except exactly when the CPU spins on a held
   `waiters` lock in the slow path of `lock`; and then the holder is a suspended drop.
   */
  lemma StuckExactly(mutexes: nat, events: seq<Event>)
    requires Run(Init(mutexes), events).Some?
    ensures var s := Run(Init(mutexes), events).value;
      && Sized(s)
      && ((forall e :: !Enabled(s, e)) <==> Wedged(s))
      && (Wedged(s) ==> exists a :: 0 <= a < |s.pc| && a != s.cpu && s.pc[a].Dropping? && HoldsW(s.pc[a]) == Some(s.pc[s.cpu].m))
  {
    Reached(mutexes, events);
    var s := Run(Init(mutexes), events).value;
    hide Run, Init, AllBlocked, QueueOk, OwnOk, WakeOk, DataOk, LockedOk, RunOk, DeadOk, Enabled;
    if Wedged(s) { WedgeHolder(s); } else { var e := SomeEvent(s); }
  }

  lemma WedgeHolder(s: State)
    requires CpuOk(s) && WlockOk(s.pc, s.wlock) && Wedged(s)
    ensures forall e :: !Enabled(s, e)
    ensures exists a :: 0 <= a < |s.pc| && a != s.cpu && s.pc[a].Dropping? && HoldsW(s.pc[a]) == Some(s.pc[s.cpu].m)
  {
    assert WHeld(s.pc, s.pc[s.cpu].m);
    var a :| 0 <= a < |s.pc| && HoldsW(s.pc[a]) == Some(s.pc[s.cpu].m);
    assert a != s.cpu && !Off(s.pc[a]);
    assert !s.iflag;
  }

  lemma SomePick(blocked: seq<bool>, current: nat) returns (p: Pick)
    ensures PickOk(blocked, current, p)
  {
    if AllBlocked(blocked) { p := Pick(0, false); }
    else { var t :| 1 <= t < |blocked| && !blocked[t]; p := Pick(t, false); }
  }

  lemma SomeEvent(s: State) returns (e: Event)
    requires CpuOk(s) && !Wedged(s)
    ensures Enabled(s, e)
  {
    if s.iflag { return Interrupt; }
    var p := SomePick(s.blocked, s.current);
    if s.irq.NoIrq? && s.pc[s.cpu].Locking? && s.pc[s.cpu].l.Block? {
      p := SomePick(Blocking(s.blocked, s.current), s.current);
    }
    return Exec(p);
  }

  // ---------------------------------------------------------------------------
  // The DEADLOCK branch
  // ---------------------------------------------------------------------------

  /** Only scheduled threads lock, each in strictly increasing rank. */
  predicate Disciplined(s: State, e: Event, rank: seq<nat>)
    requires Sized(s)
  {
    e.StartLock? ==>
      s.cpu >= 1 && e.m < |rank| && forall h :: h in s.held[s.cpu] ==> h < |rank| && rank[h] < rank[e.m]
  }

  predicate DisciplinedRun(s: State, events: seq<Event>, rank: seq<nat>)
    decreases |events|
  {
    events == [] ||
    (Sized(s) && Enabled(s, events[0]) && Disciplined(s, events[0], rank) && DisciplinedRun(Next(s, events[0]), events[1..], rank))
  }

  /** The mutex an actor wants and does not have yet. */
  function Wants(pc: Pc): Option<nat> {
    match pc
    case Locking(m, l) => if l.Got? || l.GotIrq? then None else Some(m)
    case _ => None
  }

  predicate RankOk(pc: seq<Pc>, held: seq<set<nat>>, rank: seq<nat>) {
    && |pc| == |held| && |pc| >= 1
    && (pc[0].Idle? || pc[0].Booting?) && held[0] == {}
    && forall a, h {:trigger h in held[a]} :: 0 <= a < |pc| && h in held[a] && Wants(pc[a]).Some? ==>
         h < |rank| && Wants(pc[a]).value < |rank| && rank[h] < rank[Wants(pc[a]).value]
  }

  lemma RankStep(s: State, e: Event, rank: seq<nat>)
    requires Inv(s) && Enabled(s, e) && Disciplined(s, e, rank) && RankOk(s.pc, s.held, rank)
    ensures RankOk(Next(s, e).pc, Next(s, e).held, rank)
  {
    hide QueueOk, OwnOk, WakeOk, WlockOk, DataOk, LockedOk, RunOk, DeadOk, QuietOk, LockStep, DropStep, AllBlocked, QueuesSized, RankOk, SuspendedOk;
    if e.Exec? && s.irq.NoIrq? && s.pc[s.cpu].Locking? { RankLock(s, s.pc[s.cpu].m, s.pc[s.cpu].l, e.pick, rank); }
    else if e.Exec? && s.irq.NoIrq? && s.pc[s.cpu].Dropping? { RankDrop(s, s.pc[s.cpu].m, s.pc[s.cpu].d, rank); }
    else { RankOther(s, e, rank); }
  }

  lemma RankOther(s: State, e: Event, rank: seq<nat>)
    requires Sized(s) && SuspendedOk(s) && Enabled(s, e) && Disciplined(s, e, rank) && RankOk(s.pc, s.held, rank)
    requires !(e.Exec? && s.irq.NoIrq? && (s.pc[s.cpu].Locking? || s.pc[s.cpu].Dropping?))
    ensures RankOk(Next(s, e).pc, Next(s, e).held, rank)
  {
    if e.Spawn? {
      RankSpawn(s.pc, s.held, rank);
    } else if e.StartLock? {
      RankStart(s.pc, s.held, rank, s.cpu, e.m);
    } else if s.irq.NoIrq? && !e.Interrupt? {
      RankCall(s, e, rank);
    }
    hide RankOk, LockStep, DropStep, AllBlocked, Prepared, NewCurrent, LockEnabled, DropEnabled, BootEnabled, HandlerEnabled;
  }

  lemma RankSpawn(pcs: seq<Pc>, held: seq<set<nat>>, rank: seq<nat>)
    requires RankOk(pcs, held, rank)
    ensures RankOk(pcs + [Idle], held + [{}], rank)
  {
  }

  lemma RankStart(pcs: seq<Pc>, held: seq<set<nat>>, rank: seq<nat>, a: nat, m: nat)
    requires RankOk(pcs, held, rank) && 1 <= a < |pcs| && m < |rank| && forall h :: h in held[a] ==> h < |rank| && rank[h] < rank[m]
    ensures RankOk(pcs[a := Locking(m, Fast)], held, rank)
  {
  }

  /** Any other call by the CPU's actor; it asks for no mutex. */
  lemma RankCall(s: State, e: Event, rank: seq<nat>)
    requires Sized(s) && SuspendedOk(s) && Enabled(s, e) && RankOk(s.pc, s.held, rank) && s.irq.NoIrq?
    requires !e.Spawn? && !e.Interrupt? && !e.StartLock? && !(e.Exec? && (s.pc[s.cpu].Locking? || s.pc[s.cpu].Dropping?))
    ensures RankOk(Next(s, e).pc, Next(s, e).held, rank)
  {
    assert s.cpu == 0 ==> e.Enter? || (e.Exec? && s.pc[0].Booting?);
    hide RankOk, Prepared, NewCurrent, AllBlocked;
    assert s.held[s.cpu := s.held[s.cpu]] == s.held;
    if s.cpu == 0 { RankBoot(s.pc, s.held, rank, Next(s, e).pc[0]); }
    else { RankMove(s.pc, s.held, rank, s.cpu, Next(s, e).pc[s.cpu], s.held[s.cpu]); }
  }

  lemma RankBoot(pcs: seq<Pc>, held: seq<set<nat>>, rank: seq<nat>, pc: Pc)
    requires RankOk(pcs, held, rank) && (pc.Idle? || pc.Booting?)
    ensures RankOk(pcs[0 := pc], held, rank)
  {
  }

  lemma RankLock(s: State, m: nat, l: LockPc, p: Pick, rank: seq<nat>)
    requires Sized(s) && s.pc[s.cpu] == Locking(m, l) && RankOk(s.pc, s.held, rank)
    ensures var s' := LockStep(s, m, l, p); RankOk(s'.pc, s'.held, rank)
  {
    assert s.cpu != 0;
    hide RankOk, LockStep;
    if Trying(l) { RankTry(s, m, l, p, rank); } else { RankWait(s, m, l, p, rank); }
  }

  lemma RankTry(s: State, m: nat, l: LockPc, p: Pick, rank: seq<nat>)
    requires Sized(s) && s.pc[s.cpu] == Locking(m, l) && RankOk(s.pc, s.held, rank) && s.cpu != 0 && Trying(l)
    ensures var s' := LockStep(s, m, l, p); RankOk(s'.pc, s'.held, rank)
  {
    hide RankOk;
    var s' := LockStep(s, m, l, p);
    assert s.held[s.cpu := s.held[s.cpu]] == s.held;
    RankMove(s.pc, s.held, rank, s.cpu, s'.pc[s.cpu], s'.held[s.cpu]);
  }

  lemma RankWait(s: State, m: nat, l: LockPc, p: Pick, rank: seq<nat>)
    requires Sized(s) && s.pc[s.cpu] == Locking(m, l) && RankOk(s.pc, s.held, rank) && s.cpu != 0 && !Trying(l)
    ensures var s' := LockStep(s, m, l, p); RankOk(s'.pc, s'.held, rank)
  {
    hide RankOk, AllBlocked, Prepared, NewCurrent, Blocking;
    assert s.held[s.cpu := s.held[s.cpu]] == s.held;
    if !l.Dead? { RankMove(s.pc, s.held, rank, s.cpu, LockStep(s, m, l, p).pc[s.cpu], s.held[s.cpu]); }
  }

  lemma RankMove(pcs: seq<Pc>, held: seq<set<nat>>, rank: seq<nat>, a: nat, pc: Pc, mine: set<nat>)
    requires RankOk(pcs, held, rank) && 1 <= a < |pcs|
    requires Wants(pc).None? || (Wants(pc) == Wants(pcs[a]) && mine == held[a])
    ensures RankOk(pcs[a := pc], held[a := mine], rank)
  {
  }

  lemma RankDrop(s: State, m: nat, d: DropPc, rank: seq<nat>)
    requires Sized(s) && s.pc[s.cpu] == Dropping(m, d) && RankOk(s.pc, s.held, rank)
    ensures var s' := DropStep(s, m, d); RankOk(s'.pc, s'.held, rank)
  {
    var s' := DropStep(s, m, d);
    assert s.cpu != 0;
    hide RankOk;
    RankMove(s.pc, s.held, rank, s.cpu, s'.pc[s.cpu], s'.held[s.cpu]);
    assert s.held[s.cpu := s.held[s.cpu]] == s.held;
  }

  /** A blocked owner waits for a mutex of higher rank, which is locked or seen to by a thread that can run. */
  lemma NextHop(s: State, rank: seq<nat>, t: nat, o: nat, m: nat) returns (n: nat, u: nat)
    requires Inv(s) && RankOk(s.pc, s.held, rank) && |s.locked| == |rank|
    requires t < |s.pc| && s.pc[t].Locking? && s.pc[t].l.Block?
    requires 1 <= o < |s.pc| && m in s.held[o] && s.blocked[o]
    ensures n < |rank| && m < |rank| && rank[m] < rank[n]
    ensures s.locked[n] || (u != t && CanRun(s.blocked, u))
  {
    assert MayBeBlocked(s.pc[o]) by { assert BlockedOk(s.pc, s.blocked, s.waitq); }
    n, u := s.pc[o].m, 0;
    assert Wants(s.pc[o]) == Some(n);
    if !s.locked[n] {
      if IsPopped(s.pc, o) {
        u :| 0 <= u < |s.pc| && PoppedBy(s.pc[u]) == Some(o);
        DropperRuns(s, rank, u);
      } else {
        assert o in s.waitq[n];
        u := RunningHelper(s, n);
      }
    }
  }

  /** Actors inside `drop` are unblocked threads. */
  lemma DropperRuns(s: State, rank: seq<nat>, u: nat)
    requires |s.pc| == |s.blocked| && BlockedOk(s.pc, s.blocked, s.waitq) && RankOk(s.pc, s.held, rank)
    requires u < |s.pc| && PoppedBy(s.pc[u]).Some?
    ensures CanRun(s.blocked, u)
  {
  }

  /** Following owners upwards in rank from a locked mutex that thread `t` wants: some other thread can run. */
  lemma {:induction false} SomeoneRuns(s: State, rank: seq<nat>, top: nat, t: nat, own: nat, m: nat) returns (u: nat)
    requires Inv(s) && RankOk(s.pc, s.held, rank) && t < |s.pc| && s.pc[t] == Locking(own, Block)
    requires m < |s.locked| == |rank| && own < |rank| && s.locked[m] && rank[own] <= rank[m]
    requires forall n :: 0 <= n < |rank| ==> rank[n] <= top
    ensures u != t && CanRun(s.blocked, u)
    decreases top - rank[m]
  {
    var o := OwnerOf(s, m);
    assert o != t && o >= 1 by { assert Wants(s.pc[t]) == Some(own); }
    hide Inv, RankOk;
    if !s.blocked[o] { return o; }
    var n;
    n, u := NextHop(s, rank, t, o, m);
    if s.locked[n] { u := SomeoneRuns(s, rank, top, t, own, n); }
  }

  lemma OwnerOf(s: State, m: nat) returns (o: nat)
    requires Inv(s) && m < |s.locked| && s.locked[m]
    ensures o < |s.pc| == |s.held| == |s.blocked| && m in s.held[o]
  {
    assert Owned(s.held, m);
    o :| 0 <= o < |s.held| && m in s.held[o];
  }

  lemma BlockIsSafe(s: State, m: nat, rank: seq<nat>, top: nat)
    requires Inv(s) && RankOk(s.pc, s.held, rank) && |rank| == |s.locked|
    requires forall n :: 0 <= n < |rank| ==> rank[n] <= top
    requires s.irq.NoIrq? && s.pc[s.cpu] == Locking(m, Block)
    ensures s.current >= 1 && !AllBlocked(Blocking(s.blocked, s.current))
  {
    assert s.cpu >= 1 by { assert EnqueueOk(s.pc, s.waitq); }
    assert s.locked[m] by { assert MustLock(s.pc[s.cpu]) == Some(m); }
    var u := SomeoneRuns(s, rank, top, s.cpu, m, m);
    hide QueueOk, OwnOk, WakeOk, WlockOk, DataOk, LockedOk, RankOk;
    assert CanRun(Blocking(s.blocked, s.current), u);
  }

  lemma AliveStep(s: State, e: Event, rank: seq<nat>, top: nat)
    requires Inv(s) && Enabled(s, e) && RankOk(s.pc, s.held, rank) && |rank| == |s.locked|
    requires forall n :: 0 <= n < |rank| ==> rank[n] <= top
    requires Alive(s)
    ensures Alive(Next(s, e))
  {
    hide QueueOk, OwnOk, WakeOk, WlockOk, DataOk, LockedOk, RunOk, DeadOk, RankOk, LockStep, SuspendedOk, AllBlocked;
    if e.Exec? && s.irq.NoIrq? && s.pc[s.cpu].Locking? {
      if s.pc[s.cpu].l.Block? { BlockIsSafe(s, s.pc[s.cpu].m, rank, top); }
      AliveLock(s, s.pc[s.cpu].m, s.pc[s.cpu].l, e.pick);
    }
  }

  /** No thread is in, or on its way into, the DEADLOCK branch. */
  predicate Alive(s: State) {
    forall a :: 0 <= a < |s.pc| ==> !NoWayOut(s.pc[a])
  }

  lemma AliveLock(s: State, m: nat, l: LockPc, p: Pick)
    requires CpuOk(s) && s.irq.NoIrq? && s.pc[s.cpu] == Locking(m, l) && LockEnabled(s, m, l, p) && Alive(s)
    requires l.Block? ==> s.current >= 1 && !AllBlocked(Blocking(s.blocked, s.current))
    ensures Alive(LockStep(s, m, l, p))
  {
  }

  /** The step in which the last thread that can run blocks itself. */
  predicate BlocksLast(s: State, e: Event)
    requires Sized(s)
  {
    && e.Exec? && s.irq.NoIrq? && s.pc[s.cpu].Locking? && s.pc[s.cpu].l.Block?
    && forall t :: 1 <= t < |s.blocked| && t != s.cpu ==> s.blocked[t]
  }

  /** The exact way into the DEADLOCK branch: from a state outside it, a step enters it if and only if it blocks the last thread. */
  lemma DeadlockExactly(s: State, e: Event)
    requires Inv(s) && Enabled(s, e) && Alive(s)
    ensures Alive(Next(s, e)) <==> !BlocksLast(s, e)
  {
    hide QueueOk, OwnOk, WakeOk, WlockOk, DataOk, LockedOk, RunOk, DeadOk, LockStep, SuspendedOk, QueuesSized, AllBlocked;
    if e.Exec? && s.irq.NoIrq? && s.pc[s.cpu].Locking? {
      if s.pc[s.cpu].l.Block? { BlockExactly(s, s.pc[s.cpu].m, e.pick); }
      else { AliveLock(s, s.pc[s.cpu].m, s.pc[s.cpu].l, e.pick); }
    }
  }

  lemma BlockExactly(s: State, m: nat, p: Pick)
    requires Inv(s) && s.irq.NoIrq? && s.pc[s.cpu] == Locking(m, Block) && LockEnabled(s, m, Block, p) && Alive(s)
    ensures Alive(LockStep(s, m, Block, p)) <==> !(forall t :: 1 <= t < |s.blocked| && t != s.cpu ==> s.blocked[t])
  {
    hide QueueOk, OwnOk, WakeOk, WlockOk, DataOk, LockedOk, RunOk, DeadOk, QuietOk, SuspendedOk, QueuesSized, LockStep, AllBlocked, Alive;
    BlockIsThread(s, m);
    LastBlocked(s.blocked, s.cpu);
    if AllBlocked(Blocking(s.blocked, s.current)) { BlockDies(s, m, p); } else { AliveLock(s, m, Block, p); }
  }

  lemma LastBlocked(blocked: seq<bool>, t: nat)
    requires 1 <= t < |blocked|
    ensures AllBlocked(Blocking(blocked, t)) <==> forall u :: 1 <= u < |blocked| && u != t ==> blocked[u]
  {
  }

  lemma BlockDies(s: State, m: nat, p: Pick)
    requires Sized(s) && s.pc[s.cpu] == Locking(m, Block) && AllBlocked(Blocking(s.blocked, s.current))
    ensures !Alive(LockStep(s, m, Block, p))
  {
    hide AllBlocked, Blocking;
    assert NoWayOut(LockStep(s, m, Block, p).pc[s.cpu]);
  }

  /** In every run in which only scheduled threads lock, in increasing rank, DEADLOCK is never reached. */
  lemma NoDeadlock(mutexes: nat, events: seq<Event>, rank: seq<nat>, top: nat)
    requires |rank| == mutexes && (forall n :: 0 <= n < |rank| ==> rank[n] <= top)
    requires DisciplinedRun(Init(mutexes), events, rank)
    ensures Run(Init(mutexes), events).Some?
    ensures forall a :: 0 <= a < |Run(Init(mutexes), events).value.pc| ==> !IsDead(Run(Init(mutexes), events).value.pc[a])
  {
    InvInit(mutexes);
    AliveRun(Init(mutexes), events, rank, top);
  }

  lemma {:induction false} AliveRun(s: State, events: seq<Event>, rank: seq<nat>, top: nat)
    requires Inv(s) && RankOk(s.pc, s.held, rank) && Alive(s) && |rank| == |s.locked|
    requires (forall n :: 0 <= n < |rank| ==> rank[n] <= top)
    requires DisciplinedRun(s, events, rank)
    ensures Run(s, events).Some? && Alive(Run(s, events).value)
    decreases |events|
  {
    if events != [] {
      InvStep(s, events[0]);
      RankStep(s, events[0], rank);
      AliveStep(s, events[0], rank, top);
      LockedSize(s, events[0]);
      hide Inv, RankOk, Alive, Next, Disciplined;
      AliveRun(Next(s, events[0]), events[1..], rank, top);
    }
  }

  lemma LockedSize(s: State, e: Event)
    requires Sized(s) && Enabled(s, e)
    ensures |Next(s, e).locked| == |s.locked|
  {
    hide AllBlocked, PickOk, Prepared, NewCurrent, Blocking, LockStep;
    if e.Exec? && s.irq.NoIrq? && s.pc[s.cpu].Locking? { LockedSizeLock(s, s.pc[s.cpu].m, s.pc[s.cpu].l, e.pick); }
  }

  lemma LockedSizeLock(s: State, m: nat, l: LockPc, p: Pick)
    requires Sized(s) && s.pc[s.cpu] == Locking(m, l)
    ensures |LockStep(s, m, l, p).locked| == |s.locked|
  {
    hide AllBlocked, PickOk, Prepared, NewCurrent, Blocking;
  }
}
