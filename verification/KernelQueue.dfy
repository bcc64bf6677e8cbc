/**
 Who is blocked and why: wait queues, popped waiters and the `blocked` marks agree in every
 reachable state of the kernel machine.
 */
module KernelQueue {
  import opened Wrappers
  import opened KernelMachine

  /** The mutex in whose queue this actor may be. */
  function WaitsOn(pc: Pc): Option<nat> {
    match pc
    case Locking(m, l) => if l.Block? || l.Release? || l.SwitchOut? || l.Resume? || l.Dead? then Some(m) else None
    case _ => None
  }

  /** Past block_current_and_prepare_switch, where the actor may be marked blocked. */
  predicate MayBeBlocked(pc: Pc) {
    pc.Locking? && (pc.l.Release? || pc.l.SwitchOut? || pc.l.Resume? || pc.l.Dead?)
  }

  /** The waiter this actor has popped and not yet unblocked. */
  function PoppedBy(pc: Pc): Option<nat> {
    match pc
    case Dropping(_, d) => Popped(d)
    case _ => None
  }

  predicate IsPopped(pcs: seq<Pc>, t: int) {
    t >= 0 && exists a :: 0 <= a < |pcs| && PoppedBy(pcs[a]) == Some(t)
  }

  predicate Distinct(q: seq<nat>) {
    forall i, j :: 0 <= i < j < |q| ==> q[i] != q[j]
  }

  /** Thread `t`, queued on `m`, waits there and is blocked or about to block itself. */
  predicate QueuedAt(pc: seq<Pc>, blocked: seq<bool>, m: nat, t: nat)
    requires |pc| == |blocked|
  {
    1 <= t < |pc| && WaitsOn(pc[t]) == Some(m) && (blocked[t] || pc[t] == Locking(m, Block))
  }

  /** Every queue entry is such a thread, and no thread is queued twice. */
  predicate QueuedOk(pc: seq<Pc>, blocked: seq<bool>, waitq: seq<seq<nat>>)
    requires |pc| == |blocked|
  {
    && (forall m :: 0 <= m < |waitq| ==> Distinct(waitq[m]))
    && (forall m, i :: 0 <= m < |waitq| && 0 <= i < |waitq[m]| ==> QueuedAt(pc, blocked, m, waitq[m][i]))
  }

  /** A popped waiter is blocked in `context_switch`, out of the queue, and popped by one drop only. */
  predicate PoppedOk(pc: seq<Pc>, blocked: seq<bool>, waitq: seq<seq<nat>>)
    requires |pc| == |blocked|
  {
    && (forall a :: 0 <= a < |pc| && PoppedBy(pc[a]).Some? ==>
          var t := PoppedBy(pc[a]).value;
          && 1 <= t < |pc| && pc[t] == Locking(pc[a].m, Resume) && blocked[t]
          && pc[a].m < |waitq| && t !in waitq[pc[a].m])
    && (forall a, b :: 0 <= a < b < |pc| && PoppedBy(pc[a]).Some? ==> PoppedBy(pc[a]) != PoppedBy(pc[b]))
  }

  /** A blocked thread is in the queue of the mutex it waits for, or popped from it. */
  predicate BlockedOk(pc: seq<Pc>, blocked: seq<bool>, waitq: seq<seq<nat>>)
    requires |pc| == |blocked|
  {
    forall t :: 1 <= t < |pc| && blocked[t] ==>
      MayBeBlocked(pc[t]) && pc[t].m < |waitq| && (t in waitq[pc[t].m] || IsPopped(pc, t))
  }

  /** About to queue itself, or queued and about to block. */
  predicate EnqueueOk(pc: seq<Pc>, waitq: seq<seq<nat>>) {
    && (forall a :: 0 <= a < |pc| && pc[a].Locking? && (pc[a].l.Queue? || pc[a].l.Push?) ==> pc[a].l.id == a && a >= 1)
    && (forall a :: 0 <= a < |pc| && pc[a].Locking? && pc[a].l.Block? ==>
          a >= 1 && pc[a].m < |waitq| && a in waitq[pc[a].m])
  }

  predicate QueueOk(pc: seq<Pc>, blocked: seq<bool>, waitq: seq<seq<nat>>) {
    && |pc| == |blocked|
    && QueuedOk(pc, blocked, waitq)
    && PoppedOk(pc, blocked, waitq)
    && BlockedOk(pc, blocked, waitq)
    && EnqueueOk(pc, waitq)
  }

  // ---------------------------------------------------------------------------
  // Steps that do not touch queues or marks
  // ---------------------------------------------------------------------------

  /** Two program points of actor `a` that the queue invariant does not tell apart. */
  predicate SameRole(a: nat, pc: Pc, pc': Pc) {
    && WaitsOn(pc') == WaitsOn(pc)
    && MayBeBlocked(pc') == MayBeBlocked(pc)
    && PoppedBy(pc') == PoppedBy(pc)
    && (PoppedBy(pc).Some? ==> pc'.m == pc.m)
    && (pc'.Locking? && pc'.l.Block? ==> pc' == pc)
    && (pc.Locking? && (pc.l.Resume? || pc.l.Block?) ==> pc' == pc)
    && (pc'.Locking? && (pc'.l.Queue? || pc'.l.Push?) ==> pc'.l.id == a && a >= 1)
  }

  lemma PoppedKept(pcs: seq<Pc>, a: nat, pc: Pc)
    requires a < |pcs| && (PoppedBy(pcs[a]) == None || PoppedBy(pc) == PoppedBy(pcs[a]))
    ensures forall t :: IsPopped(pcs, t) ==> IsPopped(pcs[a := pc], t)
  {
    forall t | IsPopped(pcs, t) ensures IsPopped(pcs[a := pc], t) {
      var b :| 0 <= b < |pcs| && PoppedBy(pcs[b]) == Some(t);
      assert PoppedBy(pcs[a := pc][b]) == Some(t);
    }
  }

  lemma QueueMove(pcs: seq<Pc>, blocked: seq<bool>, waitq: seq<seq<nat>>, a: nat, pc: Pc)
    requires QueueOk(pcs, blocked, waitq) && a < |pcs| && SameRole(a, pcs[a], pc)
    ensures QueueOk(pcs[a := pc], blocked, waitq)
  {
    hide QueuedOk, PoppedOk, BlockedOk, EnqueueOk, SameRole;
    QueuedMove(pcs, blocked, waitq, a, pc);
    PoppedMove(pcs, blocked, waitq, a, pc);
    BlockedMove(pcs, blocked, waitq, a, pc);
    EnqueueMove(pcs, waitq, a, pc);
  }

  lemma QueuedMove(pcs: seq<Pc>, blocked: seq<bool>, waitq: seq<seq<nat>>, a: nat, pc: Pc)
    requires |pcs| == |blocked| && QueuedOk(pcs, blocked, waitq) && a < |pcs| && SameRole(a, pcs[a], pc)
    ensures QueuedOk(pcs[a := pc], blocked, waitq)
  {
    hide WaitsOn, PoppedBy, MayBeBlocked;
    var pcs' := pcs[a := pc];
    forall m, i | 0 <= m < |waitq| && 0 <= i < |waitq[m]| ensures QueuedAt(pcs', blocked, m, waitq[m][i]) {
      assert QueuedAt(pcs, blocked, m, waitq[m][i]);
    }
  }

  lemma PoppedMove(pcs: seq<Pc>, blocked: seq<bool>, waitq: seq<seq<nat>>, a: nat, pc: Pc)
    requires |pcs| == |blocked| && PoppedOk(pcs, blocked, waitq) && a < |pcs| && SameRole(a, pcs[a], pc)
    ensures PoppedOk(pcs[a := pc], blocked, waitq)
  {
    hide WaitsOn, MayBeBlocked;
  }

  lemma BlockedMove(pcs: seq<Pc>, blocked: seq<bool>, waitq: seq<seq<nat>>, a: nat, pc: Pc)
    requires |pcs| == |blocked| && BlockedOk(pcs, blocked, waitq) && a < |pcs| && SameRole(a, pcs[a], pc)
    ensures BlockedOk(pcs[a := pc], blocked, waitq)
  {
    PoppedKept(pcs, a, pc);
    hide IsPopped, PoppedBy;
  }

  lemma EnqueueMove(pcs: seq<Pc>, waitq: seq<seq<nat>>, a: nat, pc: Pc)
    requires EnqueueOk(pcs, waitq) && a < |pcs| && SameRole(a, pcs[a], pc)
    ensures EnqueueOk(pcs[a := pc], waitq)
  {
    hide WaitsOn, MayBeBlocked, PoppedBy;
  }

  // ---------------------------------------------------------------------------
  // Steps that do
  // ---------------------------------------------------------------------------

  /** LockPc.Push: the thread queues its own id. */
  lemma QueuePush(pcs: seq<Pc>, blocked: seq<bool>, waitq: seq<seq<nat>>, a: nat, m: nat)
    requires QueueOk(pcs, blocked, waitq) && a < |pcs| && m < |waitq| && pcs[a] == Locking(m, Push(a))
    ensures QueueOk(pcs[a := Locking(m, Block)], blocked, waitq[m := waitq[m] + [a]])
  {
    var waitq' := waitq[m := waitq[m] + [a]];
    PoppedKept(pcs, a, Locking(m, Block));
    assert forall n, t :: 0 <= n < |waitq| && t in waitq[n] ==> t in waitq'[n];
    assert waitq'[m][|waitq[m]|] == a;
    forall n, i | 0 <= n < |waitq| && 0 <= i < |waitq[n]| ensures waitq[n][i] != a {
      assert QueuedAt(pcs, blocked, n, waitq[n][i]);
    }
  }

  /** LockPc.Block: the queued thread is marked. */
  lemma QueueBlock(pcs: seq<Pc>, blocked: seq<bool>, waitq: seq<seq<nat>>, a: nat, m: nat, sw: Option<Switch>)
    requires QueueOk(pcs, blocked, waitq) && a < |pcs| && m < |waitq| && pcs[a] == Locking(m, Block)
    ensures QueueOk(pcs[a := Locking(m, Release(sw))], blocked[a := true], waitq)
  {
    PoppedKept(pcs, a, Locking(m, Release(sw)));
    assert WaitsOn(pcs[a]) == Some(m);
  }

  /** LockPc.Resume: an unblocked thread goes round the loop again. */
  lemma QueueResume(pcs: seq<Pc>, blocked: seq<bool>, waitq: seq<seq<nat>>, a: nat, m: nat)
    requires QueueOk(pcs, blocked, waitq) && a < |pcs| && pcs[a] == Locking(m, Resume) && !blocked[a]
    ensures QueueOk(pcs[a := Locking(m, Fast)], blocked, waitq)
  {
    PoppedKept(pcs, a, Locking(m, Fast));
  }

  lemma PopQueued(pcs: seq<Pc>, blocked: seq<bool>, waitq: seq<seq<nat>>, a: nat, m: nat, pc: Pc)
    requires |pcs| == |blocked| && QueuedOk(pcs, blocked, waitq) && a < |pcs| && WaitsOn(pcs[a]) == None
    requires m < |waitq| && waitq[m] != []
    ensures var waitq' := waitq[m := waitq[m][1..]];
      && QueuedOk(pcs[a := pc], blocked, waitq')
      && waitq[m][0] !in waitq'[m]
      && (forall n, t :: 0 <= n < |waitq| && t in waitq'[n] ==> t in waitq[n])
      && (forall n, t :: 0 <= n < |waitq| && t in waitq[n] && t != waitq[m][0] ==> t in waitq'[n])
  {
    var waitq' := waitq[m := waitq[m][1..]];
    assert waitq[m] == [waitq[m][0]] + waitq'[m];
    forall n, i | 0 <= n < |waitq'| && 0 <= i < |waitq'[n]| ensures QueuedAt(pcs[a := pc], blocked, n, waitq'[n][i]) {
      assert waitq'[n][i] == if n == m then waitq[n][i + 1] else waitq[n][i];
    }
  }

  /** DropPc.Pop: the head of the queue is now popped. */
  lemma QueuePop(pcs: seq<Pc>, blocked: seq<bool>, waitq: seq<seq<nat>>, a: nat, m: nat)
    requires QueueOk(pcs, blocked, waitq) && a < |pcs| && m < |waitq| && pcs[a] == Dropping(m, Pop) && waitq[m] != []
    requires waitq[m][0] < |pcs| && pcs[waitq[m][0]] == Locking(m, Resume)
    ensures QueueOk(pcs[a := Dropping(m, WakeIrq(waitq[m][0]))], blocked, waitq[m := waitq[m][1..]])
  {
    var id := waitq[m][0];
    var pc := Dropping(m, WakeIrq(id));
    assert QueuedAt(pcs, blocked, m, waitq[m][0]);
    PopQueued(pcs, blocked, waitq, a, m, pc);
    hide QueuedOk;
    PoppedKept(pcs, a, pc);
    assert PoppedBy(pcs[a := pc][a]) == Some(id);
    assert id in waitq[m];
    assert forall b :: 0 <= b < |pcs| && PoppedBy(pcs[b]).Some? ==> PoppedBy(pcs[b]) != Some(id);
  }

  lemma WakeQueued(pcs: seq<Pc>, blocked: seq<bool>, waitq: seq<seq<nat>>, a: nat, m: nat, id: nat, was: bool)
    requires QueueOk(pcs, blocked, waitq) && a < |pcs| && id < |pcs| && pcs[a] == Dropping(m, Wake(id, was))
    ensures QueuedOk(pcs[a := Dropping(m, Woken(was))], blocked[id := false], waitq)
  {
    assert PoppedBy(pcs[a]) == Some(id);
    assert WaitsOn(pcs[a]) == None && WaitsOn(pcs[id]) == Some(m);
    forall n, i | 0 <= n < |waitq| && 0 <= i < |waitq[n]|
      ensures QueuedAt(pcs[a := Dropping(m, Woken(was))], blocked[id := false], n, waitq[n][i])
    {
      assert QueuedAt(pcs, blocked, n, waitq[n][i]);
      assert waitq[n][i] in waitq[n];
    }
  }

  /** DropPc.Wake: the popped waiter becomes runnable. */
  lemma QueueWake(pcs: seq<Pc>, blocked: seq<bool>, waitq: seq<seq<nat>>, a: nat, m: nat, id: nat, was: bool)
    requires QueueOk(pcs, blocked, waitq) && a < |pcs| && id < |pcs| && pcs[a] == Dropping(m, Wake(id, was))
    ensures QueueOk(pcs[a := Dropping(m, Woken(was))], blocked[id := false], waitq)
  {
    hide QueuedOk;
    var pcs' := pcs[a := Dropping(m, Woken(was))];
    assert PoppedBy(pcs[a]) == Some(id);
    forall t | IsPopped(pcs, t) && t != id ensures IsPopped(pcs', t) {
      var b :| 0 <= b < |pcs| && PoppedBy(pcs[b]) == Some(t);
      assert PoppedBy(pcs'[b]) == Some(t);
    }
    WakeQueued(pcs, blocked, waitq, a, m, id, was);
  }

  lemma QueueSpawn(pcs: seq<Pc>, blocked: seq<bool>, waitq: seq<seq<nat>>)
    requires QueueOk(pcs, blocked, waitq)
    ensures QueueOk(pcs + [Idle], blocked + [false], waitq)
  {
    forall t | IsPopped(pcs, t) ensures IsPopped(pcs + [Idle], t) {
      var b :| 0 <= b < |pcs| && PoppedBy(pcs[b]) == Some(t);
      assert PoppedBy((pcs + [Idle])[b]) == Some(t);
    }
  }
}
