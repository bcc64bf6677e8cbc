/**
 Threads, the scheduler's bookkeeping and the sleeping mutex as one single-core step machine:
 src/sync.rs (`IrqMutex`, `KMutex`), src/thread/mod.rs (`enter_scheduler`) and the switching
 part of the timer and keyboard handlers of src/interrupts.rs.

 Actor 0 is the bootstrap context; actors 1, 2, ... are the scheduled threads. `current` is an
 actor, with 0 for the source's `None`. A step is one access to shared state by whatever the CPU
 executes; an interrupt may arrive before any step while the interrupt flag is set.
 */
module KernelMachine {
  import opened Wrappers

  /** A prepared switch: save the CPU into slot `from`, load it from slot `to`. */
  datatype Switch = Switch(from: nat, to: nat)

  /** Inside `KMutex::lock`; `was` is the interrupt flag saved by SCHEDULER.lock(). */
  datatype LockPc =
    | Fast                          // first compare_exchange
    | Irq                           // SCHEDULER.lock(): read the interrupt flag
    | Cli(was: bool)                // SCHEDULER.lock(): disable interrupts
    | Spin(was: bool)               // SCHEDULER.lock(): spin
    | Slow(was: bool)               // second compare_exchange
    | Got(was: bool)                // acquired; release SCHEDULER
    | GotIrq(was: bool)             // acquired; restore interrupts
    | Id(was: bool)                 // current_thread_id()
    | NoId(was: bool)               // not a scheduled thread; release SCHEDULER
    | NoIdIrq(was: bool)            // not a scheduled thread; restore interrupts
    | Queue(id: nat)                // waiters.lock(): spin with interrupts off
    | Push(id: nat)                 // push_back(id), release waiters
    | Block                         // block_current_and_prepare_switch
    | Release(sw: Option<Switch>)   // release_without_irq_restore
    | SwitchOut(sw: Option<Switch>) // context_switch, or the DEADLOCK branch
    | Resume                        // context_switch has returned
    | Dead                          // the DEADLOCK loop

  /** Inside `KMutexGuard::drop`; `id` is the popped waiter. */
  datatype DropPc =
    | Store                         // locked.store(false)
    | WSpin                         // waiters.lock(): spin with interrupts on
    | Pop                           // pop_front()
    | WakeIrq(id: nat)              // SCHEDULER.lock() while holding waiters
    | WakeCli(id: nat, was: bool)
    | WakeSpin(id: nat, was: bool)
    | Wake(id: nat, was: bool)      // unblock_thread(id)
    | Woken(was: bool)              // release SCHEDULER
    | WokenIrq(was: bool)           // restore interrupts
    | WUnlock                       // release waiters

  /** Inside `enter_scheduler`. */
  datatype BootPc =
    | BIrq | BCli | BSpin
    | BPick                         // tick_prepare
    | BRelease(sw: Option<Switch>)
    | BSwitch(sw: Option<Switch>)
    | BHlt                          // enable_and_hlt

  datatype Pc =
    | Idle                          // outside the mutex and scheduler code
    | Inc(m: nat, seen: int)        // `*guard += 1` between its read and its write
    | Locking(m: nat, l: LockPc)
    | Dropping(m: nat, d: DropPc)
    | Booting(b: BootPc)

  /** The interrupt handler, running with interrupts disabled on top of the interrupted actor. */
  datatype Handler = NoIrq | HLock | HPick | HRelease(sw: Option<Switch>) | HSwitch(sw: Option<Switch>)

  datatype State = State(
    cpu: nat,                // the actor whose code the CPU executes
    iflag: bool,             // interrupts enabled
    irq: Handler,
    sched: bool,             // the SCHEDULER spinlock is held
    current: nat,            // scheduler.current
    blocked: seq<bool>,      // metadata[..].blocked, by actor
    slots: seq<nat>,         // whose execution each context slot holds
    pc: seq<Pc>,
    held: seq<set<nat>>,     // the mutexes each actor has a live guard of
    locked: seq<bool>,       // KMutex.locked
    waitq: seq<seq<nat>>,    // KMutex.waiters
    wlock: seq<bool>,        // the spinlock around waiters
    data: seq<int>,          // KMutex.data
    incs: seq<seq<nat>>,     // completed increments, by actor and mutex
    woken: seq<bool>)        // history: the actor was woken from a wait in its last call of lock

  // ---------------------------------------------------------------------------
  // tick_prepare, for any selection policy
  // ---------------------------------------------------------------------------

  /** The answer of the policy: the chosen thread, and whether the current thread is just kept. */
  datatype Pick = Pick(next: nat, keep: bool)

  predicate CanRun(blocked: seq<bool>, t: nat) {
    1 <= t < |blocked| && !blocked[t]
  }

  predicate AllBlocked(blocked: seq<bool>) {
    forall t :: 1 <= t < |blocked| ==> blocked[t]
  }

  /** A policy chooses a runnable thread, and keeps the current thread only if it is the choice. */
  predicate PickOk(blocked: seq<bool>, current: nat, p: Pick) {
    AllBlocked(blocked) || (CanRun(blocked, p.next) && (p.keep ==> p.next == current))
  }

  function NewCurrent(blocked: seq<bool>, current: nat, p: Pick): nat {
    if AllBlocked(blocked) || p.keep then current else p.next
  }

  function Prepared(blocked: seq<bool>, current: nat, p: Pick): Option<Switch> {
    if AllBlocked(blocked) || p.keep then None else Some(Switch(current, p.next))
  }

  /** block_current_and_prepare_switch marks the current thread first. */
  function Blocking(blocked: seq<bool>, current: nat): seq<bool>
    requires current < |blocked|
  {
    if current == 0 then blocked else blocked[current := true]
  }

  // ---------------------------------------------------------------------------
  // Steps
  // ---------------------------------------------------------------------------

  predicate SwitchSized(sw: Option<Switch>, actors: nat) {
    sw.Some? ==> sw.value.from < actors && sw.value.to < actors
  }

  /** Indices mentioned by a program point exist. */
  predicate PcSized(pc: Pc, actors: nat, mutexes: nat) {
    match pc
    case Idle => true
    case Inc(m, _) => m < mutexes
    case Locking(m, l) => m < mutexes && SwitchSized(LockPending(l), actors) && ((l.Queue? || l.Push?) ==> l.id < actors)
    case Dropping(m, d) => m < mutexes && (Popped(d).Some? ==> Popped(d).value < actors)
    case Booting(b) => SwitchSized(BootPending(b), actors)
  }

  function LockPending(l: LockPc): Option<Switch> { if l.Release? || l.SwitchOut? then l.sw else None }
  function BootPending(b: BootPc): Option<Switch> { if b.BRelease? || b.BSwitch? then b.sw else None }
  function IrqPending(h: Handler): Option<Switch> { if h.HRelease? || h.HSwitch? then h.sw else None }

  /** The waiter a drop has popped and not yet unblocked. */
  function Popped(d: DropPc): Option<nat> {
    if d.WakeIrq? || d.WakeCli? || d.WakeSpin? || d.Wake? then Some(d.id) else None
  }

  /** The shape every reachable state has; enough to execute a step. */
  predicate Sized(s: State) {
    && |s.pc| == |s.blocked| == |s.slots| == |s.held| == |s.incs| == |s.woken|
    && |s.locked| == |s.waitq| == |s.wlock| == |s.data|
    && s.cpu < |s.pc| && s.current < |s.pc|
    && |s.incs[s.cpu]| == |s.locked|
    && PcSized(s.pc[s.cpu], |s.pc|, |s.locked|)
    && SwitchSized(IrqPending(s.irq), |s.pc|)
  }

  function Goto(s: State, pc: Pc): State
    requires s.cpu < |s.pc|
  {
    s.(pc := s.pc[s.cpu := pc])
  }

  /** Save the CPU into slot `from`, load it from slot `to`, enable interrupts. */
  function SwitchCpu(s: State, sw: Switch): State
    requires SwitchSized(Some(sw), |s.slots|)
  {
    var slots := s.slots[sw.from := s.cpu];
    s.(slots := slots, cpu := slots[sw.to], iflag := true)
  }

  /** A successful compare_exchange on `locked` by the CPU's actor. */
  function Acquire(s: State, m: nat): State
    requires m < |s.locked| && s.cpu < |s.held|
  {
    s.(locked := s.locked[m := true], held := s.held[s.cpu := s.held[s.cpu] + {m}])
  }

  /** The part of `lock` up to taking the mutex; the rest is waiting for it. */
  predicate Trying(l: LockPc) {
    l.Fast? || l.Irq? || l.Cli? || l.Spin? || l.Slow? || l.Got? || l.GotIrq?
  }

  predicate LockEnabled(s: State, m: nat, l: LockPc, p: Pick)
    requires m < |s.wlock| && s.current < |s.blocked|
  {
    match l
    case Spin(_) => !s.sched
    case Queue(_) => !s.wlock[m]
    case Block => PickOk(Blocking(s.blocked, s.current), s.current, p)
    case Dead => false
    case _ => true
  }

  function LockStep(s: State, m: nat, l: LockPc, p: Pick): State
    requires Sized(s) && s.pc[s.cpu] == Locking(m, l)
  {
    match l
    case Fast => if s.locked[m] then Goto(s, Locking(m, Irq)) else Acquire(Goto(s, Idle), m)
    case Irq => Goto(s, Locking(m, Cli(s.iflag)))
    case Cli(was) => Goto(s, Locking(m, Spin(was))).(iflag := false)
    case Spin(was) => Goto(s, Locking(m, Slow(was))).(sched := true)
    case Slow(was) => if s.locked[m] then Goto(s, Locking(m, Id(was))) else Acquire(Goto(s, Locking(m, Got(was))), m)
    case Got(was) => Goto(s, Locking(m, GotIrq(was))).(sched := false)
    case GotIrq(was) => Goto(s, Idle).(iflag := was || s.iflag)
    case Id(was) => Goto(s, Locking(m, if s.current == 0 then NoId(was) else Queue(s.current)))
    case NoId(was) => Goto(s, Locking(m, NoIdIrq(was))).(sched := false)
    case NoIdIrq(was) => Goto(s, Locking(m, Fast)).(iflag := was || s.iflag)
    case Queue(id) => Goto(s, Locking(m, Push(id))).(wlock := s.wlock[m := true])
    case Push(id) =>
      Goto(s, Locking(m, Block)).(waitq := s.waitq[m := s.waitq[m] + [id]], wlock := s.wlock[m := false])
    case Block =>
      var blocked := Blocking(s.blocked, s.current);
      Goto(s, Locking(m, Release(Prepared(blocked, s.current, p))))
        .(blocked := blocked, current := NewCurrent(blocked, s.current, p))
    case Release(sw) => Goto(s, Locking(m, SwitchOut(sw))).(sched := false)
    case SwitchOut(sw) =>
      if sw.Some? then SwitchCpu(Goto(s, Locking(m, Resume)), sw.value)
      else Goto(s, Locking(m, Dead)).(iflag := true)
    case Resume => Goto(s, Locking(m, Fast)).(woken := s.woken[s.cpu := true])
    case Dead => s
  }

  predicate DropEnabled(s: State, m: nat, d: DropPc)
    requires m < |s.wlock|
  {
    match d
    case WSpin => !s.wlock[m]
    case WakeSpin(_, _) => !s.sched
    case _ => true
  }

  function DropStep(s: State, m: nat, d: DropPc): State
    requires Sized(s) && s.pc[s.cpu] == Dropping(m, d)
  {
    match d
    case Store =>
      Goto(s, Dropping(m, WSpin)).(locked := s.locked[m := false], held := s.held[s.cpu := s.held[s.cpu] - {m}])
    case WSpin => Goto(s, Dropping(m, Pop)).(wlock := s.wlock[m := true])
    case Pop =>
      if s.waitq[m] == [] then Goto(s, Dropping(m, WUnlock))
      else Goto(s, Dropping(m, WakeIrq(s.waitq[m][0]))).(waitq := s.waitq[m := s.waitq[m][1..]])
    case WakeIrq(id) => Goto(s, Dropping(m, WakeCli(id, s.iflag)))
    case WakeCli(id, was) => Goto(s, Dropping(m, WakeSpin(id, was))).(iflag := false)
    case WakeSpin(id, was) => Goto(s, Dropping(m, Wake(id, was))).(sched := true)
    case Wake(id, was) => Goto(s, Dropping(m, Woken(was))).(blocked := s.blocked[id := false])
    case Woken(was) => Goto(s, Dropping(m, WokenIrq(was))).(sched := false)
    case WokenIrq(was) => Goto(s, Dropping(m, WUnlock)).(iflag := was || s.iflag)
    case WUnlock => Goto(s, Idle).(wlock := s.wlock[m := false])
  }

  predicate BootEnabled(s: State, b: BootPc, p: Pick) {
    match b
    case BSpin => !s.sched
    case BPick => PickOk(s.blocked, s.current, p)
    case _ => true
  }

  function BootStep(s: State, b: BootPc, p: Pick): State
    requires Sized(s) && s.pc[s.cpu] == Booting(b)
  {
    match b
    case BIrq => Goto(s, Booting(BCli))
    case BCli => Goto(s, Booting(BSpin)).(iflag := false)
    case BSpin => Goto(s, Booting(BPick)).(sched := true)
    case BPick =>
      Goto(s, Booting(BRelease(Prepared(s.blocked, s.current, p)))).(current := NewCurrent(s.blocked, s.current, p))
    case BRelease(sw) => Goto(s, Booting(BSwitch(sw))).(sched := false)
    case BSwitch(sw) =>
      if sw.Some? then SwitchCpu(Goto(s, Booting(BIrq)), sw.value) else Goto(s, Booting(BHlt)).(iflag := true)
    case BHlt => Goto(s, Booting(BIrq))
  }

  predicate HandlerEnabled(s: State, h: Handler, p: Pick) {
    match h
    case HLock => !s.sched
    case HPick => PickOk(s.blocked, s.current, p)
    case _ => true
  }

  function HandlerStep(s: State, p: Pick): State
    requires Sized(s) && !s.irq.NoIrq?
  {
    match s.irq
    case HLock => s.(sched := true, irq := HPick)
    case HPick =>
      s.(current := NewCurrent(s.blocked, s.current, p), irq := HRelease(Prepared(s.blocked, s.current, p)))
    case HRelease(sw) => s.(sched := false, irq := HSwitch(sw))
    case HSwitch(sw) =>
      if sw.None? || sw.value.from == sw.value.to then s.(irq := NoIrq, iflag := true)
      else SwitchCpu(s.(irq := NoIrq), sw.value)
  }

  function IncStep(s: State, m: nat, seen: int): State
    requires Sized(s) && s.pc[s.cpu] == Inc(m, seen)
  {
    var mine := s.incs[s.cpu];
    Goto(s, Idle).(data := s.data[m := seen + 1], incs := s.incs[s.cpu := mine[m := mine[m] + 1]])
  }

  datatype Event =
    | Interrupt              // timer or keyboard
    | Exec(pick: Pick)       // the CPU executes its next step; `pick` answers a tick_prepare call
    | StartLock(m: nat)      // an actor outside the kernel code calls lock(m)
    | StartDrop(m: nat)      // ... drops its guard of m
    | StartInc(m: nat)       // ... begins `*guard += 1`
    | Enter                  // the bootstrap context calls enter_scheduler()
    | Spawn                  // SCHEDULER.lock().spawn(thread)

  predicate AtRest(s: State)
    requires Sized(s)
  {
    s.irq.NoIrq? && s.pc[s.cpu].Idle?
  }

  predicate Enabled(s: State, e: Event)
    requires Sized(s)
  {
    match e
    case Interrupt => s.iflag
    case Exec(p) =>
      if !s.irq.NoIrq? then HandlerEnabled(s, s.irq, p)
      else (match s.pc[s.cpu]
        case Idle => false
        case Inc(_, _) => true
        case Locking(m, l) => LockEnabled(s, m, l, p)
        case Dropping(m, d) => DropEnabled(s, m, d)
        case Booting(b) => BootEnabled(s, b, p))
    case StartLock(m) => AtRest(s) && m < |s.locked|
    case StartDrop(m) => AtRest(s) && m in s.held[s.cpu] && m < |s.locked|
    case StartInc(m) => AtRest(s) && m in s.held[s.cpu] && m < |s.locked|
    case Enter => AtRest(s) && s.cpu == 0
    case Spawn => AtRest(s) && !s.sched
  }

  function Next(s: State, e: Event): State
    requires Sized(s) && Enabled(s, e)
  {
    match e
    case Interrupt => s.(iflag := false, irq := HLock)
    case Exec(p) =>
      if !s.irq.NoIrq? then HandlerStep(s, p)
      else (match s.pc[s.cpu]
        case Idle => s
        case Inc(m, seen) => IncStep(s, m, seen)
        case Locking(m, l) => LockStep(s, m, l, p)
        case Dropping(m, d) => DropStep(s, m, d)
        case Booting(b) => BootStep(s, b, p))
    case StartLock(m) => Goto(s, Locking(m, Fast)).(woken := s.woken[s.cpu := false])
    case StartDrop(m) => Goto(s, Dropping(m, Store))
    case StartInc(m) => Goto(s, Inc(m, s.data[m]))
    case Enter => Goto(s, Booting(BIrq))
    case Spawn =>
      s.(blocked := s.blocked + [false], slots := s.slots + [|s.pc|], pc := s.pc + [Idle], held := s.held + [{}],
         incs := s.incs + [seq(|s.locked|, _ => 0)], woken := s.woken + [false])
  }

  /** Booted: no threads yet, `mutexes` free mutexes, interrupts on. */
  function Init(mutexes: nat): State {
    State(0, true, NoIrq, false, 0, [false], [0], [Idle], [{}],
          seq(mutexes, _ => false), seq(mutexes, _ => []), seq(mutexes, _ => false), seq(mutexes, _ => 0),
          [seq(mutexes, _ => 0)], [false])
  }
}
