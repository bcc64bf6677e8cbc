/**
 Order and effect of locking, read off states alone: waiters are woken in the order in which they queued, `lock`
 returns exactly with the guard, and `drop` gives it up.
 */
module KernelFifo {
  import opened Wrappers
  import opened KernelMachine
  import opened KernelCpu
  import opened KernelQueue
  import opened KernelMutex
  import opened KernelSafety
  import opened KernelTheorems
  import opened KernelBoot

  // ---------------------------------------------------------------------------
  // What a step does to the waiters of a mutex
  // ---------------------------------------------------------------------------

  /** The thread that has queued for `m` in the step from `s` to `s'`: it now stands before its block. */
  function Joined(s: State, s': State, m: nat): seq<nat>
    requires s.cpu < |s.pc| <= |s'.pc|
  {
    if s.pc[s.cpu] != Locking(m, Block) && s'.pc[s.cpu] == Locking(m, Block) then [s.cpu] else []
  }

  /** The threads below `k` that wait in a lock of `m` and have lost their blocked mark in the step. */
  function Unblocked(pc: seq<Pc>, before: seq<bool>, after: seq<bool>, m: nat, k: nat): seq<nat>
    requires k <= |pc| && k <= |before| && k <= |after|
  {
    if k == 0 then []
    else
      var t := k - 1;
      Unblocked(pc, before, after, m, t) + if before[t] && !after[t] && pc[t].Locking? && pc[t].m == m then [t] else []
  }

  /** The waiter of `m` that this program point has popped and not yet unblocked. */
  function PoppedFor(pc: Pc, m: nat): seq<nat> {
    if PoppedBy(pc).Some? && pc.Dropping? && pc.m == m then [PoppedBy(pc).value] else []
  }

  function InFlight(pcs: seq<Pc>, m: nat, k: nat): seq<nat>
    requires k <= |pcs|
  {
    if k == 0 then [] else InFlight(pcs, m, k - 1) + PoppedFor(pcs[k - 1], m)
  }

  /** Everyone who has queued for `m` and has not been unblocked, longest wait first. */
  function Line(s: State, m: nat): seq<nat>
    requires m < |s.waitq|
  {
    InFlight(s.pc, m, |s.pc|) + s.waitq[m]
  }

  /** Who joined goes to the end of the line, who is woken leaves from its front. */
  predicate LineMoves(s: State, s': State, m: nat) {
    && s.cpu < |s.pc| <= |s'.pc| && m < |s.waitq| == |s'.waitq| && |s.pc| <= |s.blocked| && |s.pc| <= |s'.blocked|
    && Line(s, m) + Joined(s, s', m) == Unblocked(s.pc, s.blocked, s'.blocked, m, |s.pc|) + Line(s', m)
  }

  // ---------------------------------------------------------------------------
  // The two lists
  // ---------------------------------------------------------------------------

  lemma {:induction false} FlightSame(pcs: seq<Pc>, pcs': seq<Pc>, m: nat, k: nat)
    requires k <= |pcs| && k <= |pcs'| && forall a :: 0 <= a < k ==> PoppedFor(pcs'[a], m) == PoppedFor(pcs[a], m)
    ensures InFlight(pcs', m, k) == InFlight(pcs, m, k)
  {
    hide PoppedFor;
    if k > 0 { FlightSame(pcs, pcs', m, k - 1); }
  }

  lemma {:induction false} FlightOne(pcs: seq<Pc>, m: nat, a: nat, k: nat)
    requires k <= |pcs| && a < |pcs| && forall b :: 0 <= b < k && b != a ==> PoppedFor(pcs[b], m) == []
    ensures InFlight(pcs, m, k) == if a < k then PoppedFor(pcs[a], m) else []
  {
    hide PoppedFor;
    if k > 0 { FlightOne(pcs, m, a, k - 1); }
  }

  lemma {:induction false} NobodyUnblocked(pc: seq<Pc>, before: seq<bool>, after: seq<bool>, m: nat, k: nat)
    requires k <= |pc| && k <= |before| && k <= |after| && forall t :: 0 <= t < k && before[t] ==> after[t]
    ensures Unblocked(pc, before, after, m, k) == []
  {
    if k > 0 { NobodyUnblocked(pc, before, after, m, k - 1); }
  }

  lemma {:induction false} OneUnblocked(pc: seq<Pc>, before: seq<bool>, id: nat, m: nat, k: nat)
    requires k <= |pc| && k <= |before| && id < |before| && id < |pc| && before[id] && pc[id].Locking?
    ensures Unblocked(pc, before, before[id := false], m, k) == if id < k && pc[id].m == m then [id] else []
  {
    if k > 0 { OneUnblocked(pc, before, id, m, k - 1); }
  }

  // ---------------------------------------------------------------------------
  // One step
  // ---------------------------------------------------------------------------

  /** Nobody joins, pops or wakes. */
  lemma LineStays(s: State, s': State, m: nat)
    requires s.cpu < |s.pc| == |s'.pc| && m < |s.waitq| == |s'.waitq| && |s.pc| <= |s.blocked| && |s.pc| <= |s'.blocked|
    requires forall a :: 0 <= a < |s.pc| && a != s.cpu ==> s'.pc[a] == s.pc[a]
    requires PoppedFor(s'.pc[s.cpu], m) == PoppedFor(s.pc[s.cpu], m)
    requires s'.pc[s.cpu] == Locking(m, Block) ==> s.pc[s.cpu] == Locking(m, Block)
    requires s'.waitq[m] == s.waitq[m] && forall t :: 0 <= t < |s.pc| && s.blocked[t] ==> s'.blocked[t]
    ensures LineMoves(s, s', m)
  {
    FlightSame(s.pc, s'.pc, m, |s.pc|);
    NobodyUnblocked(s.pc, s.blocked, s'.blocked, m, |s.pc|);
    hide InFlight, Unblocked, PoppedFor;
  }

  lemma LineTry(s: State, n: nat, l: LockPc, p: Pick, m: nat)
    requires Sized(s) && s.pc[s.cpu] == Locking(n, l) && Trying(l) && m < |s.waitq|
    ensures LineMoves(s, LockStep(s, n, l, p), m)
  {
    hide LineMoves;
    LineStays(s, LockStep(s, n, l, p), m);
  }

  lemma LineWait(s: State, n: nat, l: LockPc, p: Pick, m: nat)
    requires Sized(s) && s.pc[s.cpu] == Locking(n, l) && !Trying(l) && !l.Push? && m < |s.waitq|
    ensures LineMoves(s, LockStep(s, n, l, p), m)
  {
    hide LineMoves, AllBlocked, Prepared, NewCurrent;
    LineStays(s, LockStep(s, n, l, p), m);
  }

  lemma LinePush(s: State, n: nat, l: LockPc, p: Pick, m: nat)
    requires Sized(s) && s.pc[s.cpu] == Locking(n, l) && l.Push? && l.id == s.cpu && m < |s.waitq|
    ensures LineMoves(s, LockStep(s, n, l, p), m)
  {
    var s' := LockStep(s, n, l, p);
    if n != m {
      LineStays(s, s', m);
    } else {
      FlightSame(s.pc, s'.pc, m, |s.pc|);
      NobodyUnblocked(s.pc, s.blocked, s'.blocked, m, |s.pc|);
      hide InFlight, Unblocked;
      var f := InFlight(s.pc, m, |s.pc|);
      assert f + s.waitq[m] + [s.cpu] == [] + (f + (s.waitq[m] + [s.cpu]));
    }
  }

  /** While the CPU is inside the `waiters` lock of `m`, nobody else has popped a waiter of `m`. */
  lemma OnlyFlight(s: State, m: nat)
    requires s.cpu < |s.pc| && WlockOk(s.pc, s.wlock) && HoldsW(s.pc[s.cpu]) == Some(m)
    ensures forall b :: 0 <= b < |s.pc| && b != s.cpu ==> PoppedFor(s.pc[b], m) == []
  {
    forall b | 0 <= b < |s.pc| && b != s.cpu ensures PoppedFor(s.pc[b], m) == [] {
      assert HoldsW(s.pc[b]) != Some(m);
    }
  }

  lemma LinePop(s: State, n: nat, m: nat)
    requires Sized(s) && WlockOk(s.pc, s.wlock) && s.pc[s.cpu] == Dropping(n, Pop) && m < |s.waitq|
    ensures LineMoves(s, DropStep(s, n, Pop), m)
  {
    hide WlockOk, LineMoves;
    if n != m || s.waitq[m] == [] { LineStays(s, DropStep(s, n, Pop), m); } else { LinePopHead(s, m); }
  }

  lemma LinePopHead(s: State, m: nat)
    requires Sized(s) && WlockOk(s.pc, s.wlock) && s.pc[s.cpu] == Dropping(m, Pop) && s.waitq[m] != []
    ensures LineMoves(s, DropStep(s, m, Pop), m)
  {
    hide WlockOk, InFlight, Unblocked;
    var s' := DropStep(s, m, Pop);
    OnlyFlight(s, m);
    OwnFlight(s.pc, s.cpu, s'.pc[s.cpu], m);
    NobodyUnblocked(s.pc, s.blocked, s'.blocked, m, |s.pc|);
    var q := s.waitq[m];
    assert [] + q + [] == [] + ([q[0]] + q[1..]);
  }

  /** The only actor with a popped waiter of `m` is `a`, before and after it moves. */
  lemma OwnFlight(pcs: seq<Pc>, a: nat, pc: Pc, m: nat)
    requires a < |pcs| && forall b :: 0 <= b < |pcs| && b != a ==> PoppedFor(pcs[b], m) == []
    ensures InFlight(pcs, m, |pcs|) == PoppedFor(pcs[a], m) && InFlight(pcs[a := pc], m, |pcs|) == PoppedFor(pc, m)
  {
    hide PoppedFor, InFlight;
    FlightOne(pcs, m, a, |pcs|);
    FlightOne(pcs[a := pc], m, a, |pcs|);
  }

  lemma LineWake(s: State, n: nat, d: DropPc, m: nat)
    requires Sized(s) && WlockOk(s.pc, s.wlock) && s.pc[s.cpu] == Dropping(n, d) && d.Wake? && m < |s.waitq|
    requires s.blocked[d.id] && s.pc[d.id] == Locking(n, Resume)
    ensures LineMoves(s, DropStep(s, n, d), m)
  {
    hide WlockOk, InFlight, Unblocked;
    var s' := DropStep(s, n, d);
    OneUnblocked(s.pc, s.blocked, d.id, m, |s.pc|);
    var q := s.waitq[m];
    if n != m {
      FlightSame(s.pc, s'.pc, m, |s.pc|);
      assert Line(s, m) + [] == [] + Line(s', m);
    } else {
      OnlyFlight(s, m);
      OwnFlight(s.pc, s.cpu, s'.pc[s.cpu], m);
      assert [d.id] + q + [] == [d.id] + ([] + q);
    }
  }

  lemma LineDrop(s: State, n: nat, d: DropPc, m: nat)
    requires Sized(s) && s.pc[s.cpu] == Dropping(n, d) && !d.Pop? && !d.Wake? && m < |s.waitq|
    ensures LineMoves(s, DropStep(s, n, d), m)
  {
    hide LineMoves;
    LineStays(s, DropStep(s, n, d), m);
  }

  lemma LineBoot(s: State, b: BootPc, p: Pick, m: nat)
    requires Sized(s) && s.pc[s.cpu] == Booting(b) && m < |s.waitq|
    ensures LineMoves(s, BootStep(s, b, p), m)
  {
    hide LineMoves, Prepared, NewCurrent;
    LineStays(s, BootStep(s, b, p), m);
  }

  lemma LineSpawn(s: State, s': State, m: nat)
    requires s.cpu < |s.pc| && m < |s.waitq| && |s.pc| == |s.blocked|
    requires s'.pc == s.pc + [Idle] && s'.blocked == s.blocked + [false] && s'.waitq == s.waitq
    ensures LineMoves(s, s', m)
  {
    FlightSame(s.pc, s'.pc, m, |s.pc|);
    NobodyUnblocked(s.pc, s.blocked, s'.blocked, m, |s.pc|);
    assert InFlight(s'.pc, m, |s'.pc|) == InFlight(s'.pc, m, |s.pc|) + PoppedFor(Idle, m);
  }

  /** Interrupts, handler steps and calls from outside the kernel code. */
  lemma LineOther(s: State, e: Event, m: nat)
    requires Sized(s) && Enabled(s, e) && m < |s.waitq| && !e.Spawn?
    requires e.Exec? && s.irq.NoIrq? ==> s.pc[s.cpu].Inc?
    ensures LineMoves(s, Next(s, e), m)
  {
    hide LineMoves, LockStep, DropStep, BootStep, Prepared, NewCurrent, AllBlocked, LockEnabled, DropEnabled, BootEnabled, HandlerEnabled;
    LineStays(s, Next(s, e), m);
  }

  lemma LineStep(s: State, e: Event, m: nat)
    requires Inv(s) && Enabled(s, e) && m < |s.waitq|
    ensures LineMoves(s, Next(s, e), m)
  {
    hide LineMoves, LockStep, DropStep, BootStep, AllBlocked, QueueOk, OwnOk, WakeOk, WlockOk, DataOk, LockedOk, RunOk, DeadOk, QuietOk,
         SuspendedOk, QueuesSized;
    if e.Spawn? {
      LineSpawn(s, Next(s, e), m);
    } else if e.Exec? && s.irq.NoIrq? {
      match s.pc[s.cpu]
      case Locking(n, l) =>
        if Trying(l) { LineTry(s, n, l, e.pick, m); }
        else if l.Push? { OwnId(s, n, l); LinePush(s, n, l, e.pick, m); }
        else { LineWait(s, n, l, e.pick, m); }
      case Dropping(n, d) =>
        if d.Pop? { LinePop(s, n, m); }
        else if d.Wake? { PoppedWaits(s, n, d); PoppedBlocked(s, n, d); LineWake(s, n, d, m); }
        else { LineDrop(s, n, d, m); }
      case Booting(b) => LineBoot(s, b, e.pick, m);
      case _ => LineOther(s, e, m);
    } else {
      LineOther(s, e, m);
    }
  }

  lemma PoppedBlocked(s: State, m: nat, d: DropPc)
    requires Sized(s) && QueueOk(s.pc, s.blocked, s.waitq) && s.pc[s.cpu] == Dropping(m, d) && d.Wake?
    ensures d.id < |s.blocked| && s.blocked[d.id]
  {
    assert PoppedBy(s.pc[s.cpu]) == Some(d.id);
    assert PoppedOk(s.pc, s.blocked, s.waitq);
  }

  // ---------------------------------------------------------------------------
  // Runs
  // ---------------------------------------------------------------------------

  /** In order, who queues for `m` during a run. */
  function JoinOrder(s: State, events: seq<Event>, m: nat): seq<nat>
    decreases |events|
  {
    if events == [] || !Sized(s) || !Enabled(s, events[0]) then []
    else
      var s' := Next(s, events[0]);
      (if |s.pc| <= |s'.pc| then Joined(s, s', m) else []) + JoinOrder(s', events[1..], m)
  }

  /** In order, who is unblocked from waiting for `m` during a run. */
  function WakeOrder(s: State, events: seq<Event>, m: nat): seq<nat>
    decreases |events|
  {
    if events == [] || !Sized(s) || !Enabled(s, events[0]) then []
    else
      var s' := Next(s, events[0]);
      (if |s.pc| <= |s'.blocked| then Unblocked(s.pc, s.blocked, s'.blocked, m, |s.pc|) else []) + WakeOrder(s', events[1..], m)
  }

  lemma Rearrange(a: seq<nat>, j: seq<nat>, u: seq<nat>, b: seq<nat>, js: seq<nat>, us: seq<nat>, c: seq<nat>)
    requires a + j == u + b && b + js == us + c
    ensures a + (j + js) == (u + us) + c
  {
    assert a + (j + js) == (a + j) + js == (u + b) + js == u + (b + js) == u + (us + c) == (u + us) + c;
  }

  /** From any state with the invariant: who waited or queues since is woken strictly in that order. */
  lemma {:induction false} WokenInOrder(s: State, events: seq<Event>, m: nat)
    requires Inv(s) && Run(s, events).Some? && m < |s.waitq|
    ensures var u := Run(s, events).value;
      m < |u.waitq| && Line(s, m) + JoinOrder(s, events, m) == WakeOrder(s, events, m) + Line(u, m)
    decreases |events|
  {
    SizedOf(s);
    if events == [] {
      assert Line(s, m) + [] == [] + Line(s, m);
    } else {
      var s' := Next(s, events[0]);
      LineStep(s, events[0], m);
      InvStep(s, events[0]);
      hide Inv, Next, Enabled, Line, Joined, Unblocked;
      WokenInOrder(s', events[1..], m);
      Rearrange(Line(s, m), Joined(s, s', m), Unblocked(s.pc, s.blocked, s'.blocked, m, |s.pc|), Line(s', m),
                JoinOrder(s', events[1..], m), WakeOrder(s', events[1..], m), Line(Run(s, events).value, m));
    }
  }

  /**
   First come, first served, over every run from boot: those ever unblocked from waiting for `m`, then those popped and
   about to be unblocked, then the queue, are together exactly those who ever queued for `m`, in that order.
   */
  lemma FirstComeFirstServed(mutexes: nat, events: seq<Event>, m: nat)
    requires Run(Init(mutexes), events).Some? && m < mutexes
    ensures var (s0, s) := (Init(mutexes), Run(Init(mutexes), events).value);
      m < |s.waitq| && JoinOrder(s0, events, m) == WakeOrder(s0, events, m) + InFlight(s.pc, m, |s.pc|) + s.waitq[m]
  {
    var s0 := Init(mutexes);
    InvInit(mutexes);
    WokenInOrder(s0, events, m);
    assert InFlight(s0.pc, m, 1) == InFlight(s0.pc, m, 0) + PoppedFor(Idle, m) == [];
    assert Line(s0, m) == [];
    hide Inv, Run, JoinOrder, WakeOrder, InFlight, Init;
    var s := Run(Init(mutexes), events).value;
    assert WakeOrder(s0, events, m) + Line(s, m) == WakeOrder(s0, events, m) + InFlight(s.pc, m, |s.pc|) + s.waitq[m];
  }

  /** At most one waiter of a mutex is popped and not yet unblocked. */
  lemma OneInFlight(s: State, m: nat)
    requires Inv(s)
    ensures |InFlight(s.pc, m, |s.pc|)| <= 1
  {
    hide CpuOk, QueueOk, OwnOk, RunOk, DeadOk, LockedOk, WakeOk, DataOk, QuietOk;
    if a :| 0 <= a < |s.pc| && PoppedFor(s.pc[a], m) != [] {
      assert HoldsW(s.pc[a]) == Some(m);
      forall b | 0 <= b < |s.pc| && b != a ensures PoppedFor(s.pc[b], m) == [] {
        assert HoldsW(s.pc[b]) != Some(m);
      }
      FlightOne(s.pc, m, a, |s.pc|);
    } else {
      NoFlight(s.pc, m, |s.pc|);
    }
  }

  lemma {:induction false} NoFlight(pcs: seq<Pc>, m: nat, k: nat)
    requires k <= |pcs| && forall a :: 0 <= a < k ==> PoppedFor(pcs[a], m) == []
    ensures InFlight(pcs, m, k) == []
  {
    hide PoppedFor;
    if k > 0 { NoFlight(pcs, m, k - 1); }
  }

  // ---------------------------------------------------------------------------
  // What lock and drop do for their caller
  // ---------------------------------------------------------------------------

  /** A call of `lock(m)` ends only by giving its caller the guard of `m`, which it did not have. */
  lemma LockReturnsGuard(s: State, e: Event, a: nat)
    requires Inv(s) && Enabled(s, e) && a < |s.pc| && s.pc[a].Locking?
    ensures var s' := Next(s, e);
      && a < |s'.pc| && a < |s'.held| && a < |s.held|
      && (s'.pc[a].Locking? ==> s'.pc[a].m == s.pc[a].m)
      && (!s'.pc[a].Locking? ==> s'.pc[a] == Idle && s.pc[a].m in s'.held[a])
      && s'.held[a] <= s.held[a] + {s.pc[a].m} && s.held[a] <= s'.held[a]
  {
    assert Sized(s) by { SizedOf(s); }
    assert a == s.cpu && Owns(s.pc[a]).Some? ==> Owns(s.pc[a]).value in s.held[a];
    Frame(s, e);
    hide Inv, OwnOk, QueueOk, LockStep, DropStep, AllBlocked;
    if a == s.cpu && e.Exec? && s.irq.NoIrq? {
      if Trying(s.pc[a].l) { LockGives(s, s.pc[a].m, s.pc[a].l, e.pick); } else { LockKeepsOn(s, s.pc[a].m, s.pc[a].l, e.pick); }
    }
  }

  lemma LockGives(s: State, m: nat, l: LockPc, p: Pick)
    requires Sized(s) && s.pc[s.cpu] == Locking(m, l) && Trying(l) && (Owns(s.pc[s.cpu]).Some? ==> m in s.held[s.cpu])
    ensures var s' := LockStep(s, m, l, p);
      && (s'.pc[s.cpu].Locking? ==> s'.pc[s.cpu].m == m) && (!s'.pc[s.cpu].Locking? ==> s'.pc[s.cpu] == Idle && m in s'.held[s.cpu])
      && s.held[s.cpu] <= s'.held[s.cpu] <= s.held[s.cpu] + {m}
  {
  }

  lemma LockKeepsOn(s: State, m: nat, l: LockPc, p: Pick)
    requires Sized(s) && s.pc[s.cpu] == Locking(m, l) && !Trying(l)
    ensures var s' := LockStep(s, m, l, p); s'.pc[s.cpu].Locking? && s'.pc[s.cpu].m == m && s'.held == s.held
  {
    hide AllBlocked, Prepared, NewCurrent, Blocking;
  }

  /** Locking a free mutex takes the call and one step, and changes nothing else. */
  lemma UncontendedLock(s: State, m: nat, p: Pick)
    requires Sized(s) && Enabled(s, StartLock(m)) && !s.locked[m]
    ensures var s1 := Next(s, StartLock(m));
      && Sized(s1) && Enabled(s1, Exec(p))
      && Next(s1, Exec(p)) == s.(locked := s.locked[m := true], held := s.held[s.cpu := s.held[s.cpu] + {m}], woken := s.woken[s.cpu := false])
  {
    assert s.pc[s.cpu := Locking(m, Fast)][s.cpu := Idle] == s.pc;
  }

  /** A woken waiter, or an actor that is no thread, tries again at once: if the mutex is free two steps give it the guard. */
  lemma RetryTakes(s: State, m: nat, p: Pick)
    requires Sized(s) && s.irq.NoIrq? && m < |s.locked| && !s.locked[m]
    requires s.pc[s.cpu] == Locking(m, Resume) || (s.pc[s.cpu].Locking? && s.pc[s.cpu].m == m && s.pc[s.cpu].l.NoIdIrq?)
    ensures Enabled(s, Exec(p))
    ensures var s1 := Next(s, Exec(p));
      && Sized(s1) && Enabled(s1, Exec(p))
      && var s2 := Next(s1, Exec(p)); s2.pc == s.pc[s.cpu := Idle] && s2.held == s.held[s.cpu := s.held[s.cpu] + {m}] && s2.locked == s.locked[m := true]
  {
    assert s.pc[s.cpu := Locking(m, Fast)][s.cpu := Idle] == s.pc[s.cpu := Idle];
  }

  /** A call of `drop` gives up its guard with its first step, so returns without it, and takes no other away. */
  lemma DropGivesUp(s: State, e: Event, a: nat)
    requires Inv(s) && Enabled(s, e) && a < |s.pc| && s.pc[a].Dropping?
    ensures var s' := Next(s, e);
      && a < |s'.pc| && a < |s'.held| && a < |s.held|
      && (!s'.pc[a].Dropping? ==> s'.pc[a] == Idle && !s.pc[a].d.Store?)
      && (s'.pc[a].Dropping? ==> s'.pc[a].m == s.pc[a].m)
      && (s'.pc[a] != s.pc[a] && s.pc[a].d.Store? ==>
            s'.held[a] == s.held[a] - {s.pc[a].m} && s.pc[a].m < |s'.locked| && !s'.locked[s.pc[a].m])
      && (!s.pc[a].d.Store? ==> s'.held[a] == s.held[a])
  {
    assert Sized(s) by { SizedOf(s); }
    Frame(s, e);
    hide Inv, LockStep, DropStep, BootStep, AllBlocked, Prepared, NewCurrent;
    if a == s.cpu && e.Exec? && s.irq.NoIrq? { DropLets(s, s.pc[a].m, s.pc[a].d); }
    else { DropSuspended(s, e, a); }
  }

  lemma DropLets(s: State, m: nat, d: DropPc)
    requires Sized(s) && s.pc[s.cpu] == Dropping(m, d)
    ensures var s' := DropStep(s, m, d);
      && |s'.pc| == |s.pc| && |s'.held| == |s.held| && |s'.locked| == |s.locked|
      && (!s'.pc[s.cpu].Dropping? ==> s'.pc[s.cpu] == Idle && !d.Store?)
      && (s'.pc[s.cpu].Dropping? ==> s'.pc[s.cpu].m == m)
      && (d.Store? ==> s'.held[s.cpu] == s.held[s.cpu] - {m} && !s'.locked[m])
      && (!d.Store? ==> s'.held == s.held)
  {
  }

  lemma DropSuspended(s: State, e: Event, a: nat)
    requires Sized(s) && Enabled(s, e) && a < |s.pc| && s.pc[a].Dropping? && !(a == s.cpu && e.Exec? && s.irq.NoIrq?)
    ensures var s' := Next(s, e); a < |s'.pc| && a < |s'.held| && s'.pc[a] == s.pc[a] && s'.held[a] == s.held[a]
  {
    Frame(s, e);
    hide LockStep, DropStep, BootStep, AllBlocked, Prepared, NewCurrent, LockEnabled, DropEnabled, BootEnabled, HandlerEnabled;
  }
}
