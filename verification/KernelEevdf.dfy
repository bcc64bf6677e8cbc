/**
 The kernel with its real scheduler: every step that asks EEVDF for a decision is a step of the
 kernel machine, so all theorems about the machine hold of the kernel.
 */
module KernelEevdf {
  import opened Wrappers
  import opened KernelMachine
  import opened KernelCpu
  import opened KernelQueue
  import opened KernelSafety
  import opened KernelTheorems
  import E = Eevdf
  import EevdfFairness
  import EevdfLedger

  /** The machine state, the EEVDF scheduler and the tick counter. */
  datatype Kernel = Kernel(s: State, k: E.Sched, tick: nat)

  /** Actor number of `scheduler.current`. */
  function ActorOf(current: Option<nat>): nat { if current.None? then 0 else current.value + 1 }

  function Marks(meta: seq<E.ThreadMeta>): seq<bool> {
    seq(|meta| + 1, i requires 0 <= i <= |meta| => if i == 0 then false else meta[i - 1].blocked)
  }

  function SlotActor(slot: E.Slot): nat { if slot.Bootstrap? then 0 else slot.index + 1 }

  function SwitchOf(r: E.Result): Option<Switch> {
    if r.Go? then Some(Switch(SlotActor(r.from), r.to + 1)) else None
  }

  /** The bookkeeping of the machine is that of the scheduler. */
  predicate Matches(s: State, k: E.Sched) {
    s.blocked == Marks(k.meta) && s.current == ActorOf(k.current)
  }

  /** The program points that call tick_prepare. */
  predicate AsksScheduler(s: State)
    requires Sized(s)
  {
    s.irq.HPick? || (s.irq.NoIrq? && (s.pc[s.cpu] == Booting(BPick) || (s.pc[s.cpu].Locking? && s.pc[s.cpu].l.Block?)))
  }

  function Decision(c: Kernel): E.Result
    requires Sized(c.s) && E.Wf(c.k)
  {
    if c.s.irq.NoIrq? && c.s.pc[c.s.cpu].Locking? then E.Block(c.k, c.tick) else E.Tick(c.k, c.tick)
  }

  /** The machine state after a call whose answer was `r`. */
  function Answered(s: State, r: E.Result): State
    requires Sized(s) && AsksScheduler(s) && !r.Panic?
  {
    var sw := SwitchOf(r);
    var current := ActorOf(r.next.current);
    if s.irq.HPick? then s.(current := current, irq := HRelease(sw))
    else if s.pc[s.cpu].Booting? then Goto(s, Booting(BRelease(sw))).(current := current)
    else Goto(s, Locking(s.pc[s.cpu].m, Release(sw))).(current := current, blocked := Marks(r.next.meta))
  }

  datatype Move =
    | Ask                                  // the CPU calls the scheduler
    | Other(e: Event, timer: bool)         // any other machine event; a timer interrupt advances the tick
    | SpawnThread(id: nat, weight: nat)

  predicate MoveEnabled(c: Kernel, v: Move)
    requires Sized(c.s) && E.Wf(c.k)
  {
    match v
    case Ask => AsksScheduler(c.s) && !Decision(c).Panic?
    case Other(e, timer) => Enabled(c.s, e) && !(e.Exec? && AsksScheduler(c.s)) && !e.Spawn? && (timer ==> e.Interrupt? && c.tick < E.U64_MAX)
    case SpawnThread(id, weight) => Enabled(c.s, Spawn) && id !in c.k.ids && weight <= E.U64_MAX
  }

  /** The thread that the CPU is about to unblock, if any. */
  predicate Waking(s: State, e: Event)
    requires Sized(s)
  {
    e.Exec? && s.irq.NoIrq? && s.pc[s.cpu].Dropping? && s.pc[s.cpu].d.Wake?
  }

  function KNext(c: Kernel, v: Move): Kernel
    requires Sized(c.s) && E.Wf(c.k) && MoveEnabled(c, v)
  {
    match v
    case Ask => Kernel(Answered(c.s, Decision(c)), Decision(c).next, c.tick)
    case SpawnThread(id, weight) => Kernel(Next(c.s, Spawn), E.Spawn(c.k, id, weight), c.tick)
    case Other(e, timer) =>
      var k := if Waking(c.s, e) && 1 <= c.s.pc[c.s.cpu].d.id <= |c.k.ids|
               then E.Unblock(c.k, c.k.ids[c.s.pc[c.s.cpu].d.id - 1]) else c.k;
      Kernel(Next(c.s, e), k, if timer then c.tick + 1 else c.tick)
  }

  ghost predicate KOk(c: Kernel) { Inv(c.s) && E.Wf(c.k) && Matches(c.s, c.k) && c.tick <= E.U64_MAX }

  /** The pick that stands for an EEVDF decision. */
  function PickFor(k: E.Sched, r: E.Result): Pick
  {
    if r.Go? then Pick(r.to + 1, false) else Pick(ActorOf(k.current), true)
  }

  /** EEVDF is one of the policies the machine allows. */
  lemma TickIsAPick(k: E.Sched, tick: nat)
    requires E.Wf(k) && tick <= E.U64_MAX && !E.Tick(k, tick).Panic?
    ensures var r := E.Tick(k, tick);
      var p := PickFor(k, r);
      && PickOk(Marks(k.meta), ActorOf(k.current), p)
      && NewCurrent(Marks(k.meta), ActorOf(k.current), p) == ActorOf(r.next.current)
      && Prepared(Marks(k.meta), ActorOf(k.current), p) == SwitchOf(r)
      && Marks(r.next.meta) == Marks(k.meta)
      && E.Wf(r.next)
  {
    hide E.Tick, E.IsEarliest, E.SelectsFrom, E.Charged, E.SumWeights, Marks;
    EevdfFairness.TickFrame(k, tick);
    E.TickSelects(k, tick);
    var r := E.Tick(k, tick);
    MarksAre(k.meta);
    MarksAgree(k.meta, r.next.meta);
    if E.SomeRunnable(k.meta) {
      assert E.Runnable(k.meta, r.next.current.value);
    } else {
      E.AllBlockedStays(k, tick);
    }
  }

  lemma MarksAre(meta: seq<E.ThreadMeta>)
    ensures AllBlocked(Marks(meta)) <==> !E.SomeRunnable(meta)
    ensures forall i :: E.Runnable(meta, i) ==> CanRun(Marks(meta), i + 1)
  {
    if E.SomeRunnable(meta) {
      var i :| E.Runnable(meta, i);
      assert !Marks(meta)[i + 1];
    } else {
      forall t | 1 <= t < |Marks(meta)| ensures Marks(meta)[t] { assert !E.Runnable(meta, t - 1); }
    }
  }

  lemma MarksAgree(a: seq<E.ThreadMeta>, b: seq<E.ThreadMeta>)
    requires |a| == |b| && forall i :: E.Runnable(a, i) <==> E.Runnable(b, i)
    ensures Marks(a) == Marks(b)
  {
    forall i | 0 <= i < |a| ensures a[i].blocked == b[i].blocked { assert E.Runnable(a, i) <==> E.Runnable(b, i); }
  }

  lemma BlockMarks(k: E.Sched)
    requires E.Wf(k)
    ensures Marks(E.BlockCurrent(k).meta) == Blocking(Marks(k.meta), ActorOf(k.current))
  {
  }

  /** A call of the scheduler is a machine step. */
  lemma AskIsAStep(c: Kernel) returns (e: Event)
    requires KOk(c) && MoveEnabled(c, Ask)
    ensures e.Exec? && Enabled(c.s, e) && Next(c.s, e) == KNext(c, Ask).s && KOk(KNext(c, Ask))
  {
    var s := c.s;
    var k := if s.irq.NoIrq? && s.pc[s.cpu].Locking? then E.BlockCurrent(c.k) else c.k;
    EevdfLedger.BlockCurrentWf(c.k);
    BlockMarks(c.k);
    hide E.Tick, E.BlockCurrent;
    TickIsAPick(k, c.tick);
    e := Exec(PickFor(k, E.Tick(k, c.tick)));
    AskUnfolds(c, k, e);
    InvStep(s, e);
  }

  lemma AskUnfolds(c: Kernel, k: E.Sched, e: Event)
    requires CpuOk(c.s) && E.Wf(c.k) && E.Wf(k) && AsksScheduler(c.s) && Matches(c.s, c.k)
    requires k == if c.s.irq.NoIrq? && c.s.pc[c.s.cpu].Locking? then E.BlockCurrent(c.k) else c.k
    requires k.current == c.k.current
    requires Marks(k.meta) == if c.s.irq.NoIrq? && c.s.pc[c.s.cpu].Locking? then Blocking(c.s.blocked, c.s.current) else c.s.blocked
    requires var r := E.Tick(k, c.tick);
      && !r.Panic? && e == Exec(PickFor(k, r))
      && PickOk(Marks(k.meta), ActorOf(k.current), e.pick)
      && NewCurrent(Marks(k.meta), ActorOf(k.current), e.pick) == ActorOf(r.next.current)
      && Prepared(Marks(k.meta), ActorOf(k.current), e.pick) == SwitchOf(r)
      && Marks(r.next.meta) == Marks(k.meta)
    ensures Decision(c) == E.Tick(k, c.tick)
    ensures Enabled(c.s, e) && Next(c.s, e) == Answered(c.s, Decision(c))
    ensures Matches(Next(c.s, e), Decision(c).next)
  {
    hide E.Tick, E.BlockCurrent, Marks, NewCurrent, Prepared, PickOk, PickFor, SwitchOf, SuspendedOk;
  }

  lemma UnblockMarks(k: E.Sched, t: nat)
    requires E.Wf(k) && 1 <= t <= |k.ids|
    ensures Marks(E.Unblock(k, k.ids[t - 1]).meta) == Marks(k.meta)[t := false]
    ensures E.Wf(E.Unblock(k, k.ids[t - 1])) && E.Unblock(k, k.ids[t - 1]).current == k.current
  {
    EevdfLedger.UnblockClears(k, k.ids[t - 1], 0);
  }

  lemma OtherKeeps(c: Kernel, e: Event, timer: bool)
    requires KOk(c) && MoveEnabled(c, Other(e, timer))
    ensures KOk(KNext(c, Other(e, timer)))
  {
    hide Inv, Next, Enabled, E.Unblock, E.Wf, Marks;
    InvSized(c.s);
    InvStep(c.s, e);
    if Waking(c.s, e) {
      WokenThread(c.s);
      MarksSize(c.k);
      UnblockMarks(c.k, c.s.pc[c.s.cpu].d.id);
    }
    OtherFrame(c.s, e);
  }

  lemma InvSized(s: State)
    requires Inv(s)
    ensures Sized(s)
  {
    hide QueueOk, RunOk, DeadOk, LockedOk, SuspendedOk;
  }

  lemma MarksSize(k: E.Sched)
    requires E.Wf(k)
    ensures |Marks(k.meta)| == |k.ids| + 1
  {
  }

  lemma WokenThread(s: State)
    requires Inv(s) && s.pc[s.cpu].Dropping? && s.pc[s.cpu].d.Wake?
    ensures 1 <= s.pc[s.cpu].d.id < |s.pc| && |s.pc| == |s.blocked|
  {
    assert PoppedBy(s.pc[s.cpu]) == Some(s.pc[s.cpu].d.id);
    assert PoppedOk(s.pc, s.blocked, s.waitq);
    hide RunOk, DeadOk, LockedOk;
  }

  lemma OtherFrame(s: State, e: Event)
    requires Sized(s) && Enabled(s, e) && !e.Spawn? && !(e.Exec? && AsksScheduler(s))
    ensures Next(s, e).current == s.current
    ensures Next(s, e).blocked == if Waking(s, e) then s.blocked[s.pc[s.cpu].d.id := false] else s.blocked
  {
    if e.Exec? && s.irq.NoIrq? && s.pc[s.cpu].Locking? { OtherFrameLock(s, s.pc[s.cpu].m, s.pc[s.cpu].l, e.pick); }
    hide LockStep, AllBlocked, PickOk, NewCurrent, Prepared;
  }

  lemma OtherFrameLock(s: State, m: nat, l: LockPc, p: Pick)
    requires Sized(s) && s.pc[s.cpu] == Locking(m, l) && !l.Block?
    ensures LockStep(s, m, l, p).current == s.current && LockStep(s, m, l, p).blocked == s.blocked
  {
    hide AllBlocked, PickOk, NewCurrent, Prepared, Blocking;
  }

  lemma SpawnKeeps(c: Kernel, id: nat, weight: nat)
    requires KOk(c) && MoveEnabled(c, SpawnThread(id, weight))
    ensures KOk(KNext(c, SpawnThread(id, weight)))
  {
    hide Inv, E.Wf, Marks;
    InvStep(c.s, Spawn);
    EevdfLedger.StepKeepsWf(c.k, EevdfLedger.OpSpawn(id, weight), 0);
    MarksGrow(c.k, id, weight);
  }

  lemma MarksGrow(k: E.Sched, id: nat, weight: nat)
    ensures Marks(E.Spawn(k, id, weight).meta) == Marks(k.meta) + [false]
  {
  }

  /** Runs of the kernel. */
  ghost function KRun(c: Kernel, moves: seq<Move>): Option<Kernel>
    decreases |moves|
  {
    if moves == [] then Some(c)
    else if Sized(c.s) && E.Wf(c.k) && MoveEnabled(c, moves[0]) then KRun(KNext(c, moves[0]), moves[1..])
    else None
  }

  function Boot(mutexes: nat): Kernel { Kernel(Init(mutexes), E.Empty, 0) }

  /** The machine run `events` makes the steps of `moves` one by one, through the same states. */
  ghost predicate StepByStep(c: Kernel, moves: seq<Move>, events: seq<Event>)
    decreases |moves|
  {
    if moves == [] then events == []
    else
      && events != [] && Sized(c.s) && E.Wf(c.k) && MoveEnabled(c, moves[0]) && Enabled(c.s, events[0])
      && Next(c.s, events[0]) == KNext(c, moves[0]).s
      && (moves[0].Other? ==> events[0] == moves[0].e) && (!moves[0].Other? ==> events[0].Exec? || events[0].Spawn?)
      && StepByStep(KNext(c, moves[0]), moves[1..], events[1..])
  }

  /** Every run of the kernel with EEVDF is a run of the machine, step by step. */
  lemma KernelRefinesMachine(mutexes: nat, moves: seq<Move>) returns (events: seq<Event>)
    requires KRun(Boot(mutexes), moves).Some?
    ensures StepByStep(Boot(mutexes), moves, events)
    ensures Run(Init(mutexes), events) == Some(KRun(Boot(mutexes), moves).value.s)
    ensures KOk(KRun(Boot(mutexes), moves).value)
  {
    BootOk(mutexes);
    events := Refines(Boot(mutexes), moves);
  }

  lemma BootOk(mutexes: nat)
    ensures KOk(Boot(mutexes))
  {
    InvInit(mutexes);
    assert Marks([]) == [false];
  }

  lemma MoveIsAStep(c: Kernel, v: Move) returns (e: Event)
    requires KOk(c) && Sized(c.s) && E.Wf(c.k) && MoveEnabled(c, v)
    ensures Enabled(c.s, e) && Next(c.s, e) == KNext(c, v).s && KOk(KNext(c, v))
    ensures (v.Other? ==> e == v.e) && (!v.Other? ==> e.Exec? || e.Spawn?)
  {
    hide KOk, Next, Enabled, E.Wf, Sized, E.Tick, E.Spawn, E.Unblock, Answered;
    match v {
      case Ask => e := AskIsAStep(c);
      case Other(e0, timer) => e := e0; OtherKeeps(c, e0, timer);
      case SpawnThread(id, weight) => e := Spawn; SpawnKeeps(c, id, weight);
    }
  }

  lemma {:induction false} Refines(c: Kernel, moves: seq<Move>) returns (events: seq<Event>)
    requires KOk(c) && KRun(c, moves).Some?
    ensures StepByStep(c, moves, events)
    ensures Run(c.s, events) == Some(KRun(c, moves).value.s)
    ensures KOk(KRun(c, moves).value)
    decreases |moves|
  {
    hide KNext, KOk, Next, Enabled, MoveEnabled, E.Wf, Sized;
    if moves == [] { return []; }
    var e := MoveIsAStep(c, moves[0]);
    var rest := Refines(KNext(c, moves[0]), moves[1..]);
    events := [e] + rest;
    assert events[1..] == rest;
  }

  // ---------------------------------------------------------------------------
  // The rank discipline under EEVDF
  // ---------------------------------------------------------------------------

  /** Only scheduled threads lock, each in strictly increasing rank, throughout a run of the kernel. */
  ghost predicate KDisciplined(c: Kernel, moves: seq<Move>, rank: seq<nat>)
    decreases |moves|
  {
    moves == [] ||
    (Sized(c.s) && E.Wf(c.k) && MoveEnabled(c, moves[0]) ==>
       && (moves[0].Other? ==> Disciplined(c.s, moves[0].e, rank))
       && KDisciplined(KNext(c, moves[0]), moves[1..], rank))
  }

  lemma {:induction false} DisciplineCarries(c: Kernel, moves: seq<Move>, events: seq<Event>, rank: seq<nat>)
    requires StepByStep(c, moves, events) && KDisciplined(c, moves, rank)
    ensures DisciplinedRun(c.s, events, rank)
    decreases |moves|
  {
    hide KNext, Next, Enabled;
    if moves != [] { DisciplineCarries(KNext(c, moves[0]), moves[1..], events[1..], rank); }
  }

  /** Under the discipline the kernel with EEVDF never reaches the DEADLOCK branch. */
  lemma NoDeadlockUnderEevdf(mutexes: nat, moves: seq<Move>, rank: seq<nat>, top: nat)
    requires |rank| == mutexes && (forall n :: 0 <= n < |rank| ==> rank[n] <= top)
    requires KRun(Boot(mutexes), moves).Some? && KDisciplined(Boot(mutexes), moves, rank)
    ensures var s := KRun(Boot(mutexes), moves).value.s; forall a :: 0 <= a < |s.pc| ==> !IsDead(s.pc[a])
  {
    hide Run, KRun, StepByStep, KDisciplined, DisciplinedRun;
    var events := KernelRefinesMachine(mutexes, moves);
    DisciplineCarries(Boot(mutexes), moves, events, rank);
    NoDeadlock(mutexes, events, rank, top);
  }
}
