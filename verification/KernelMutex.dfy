/**
 Ownership, wakeups, the waiters spinlock and the protected data: per-step facts about the
 sleeping mutex, on the parts of the state they concern.
 */
module KernelMutex {
  import opened Wrappers
  import opened KernelMachine

  // ---------------------------------------------------------------------------
  // Ownership
  // ---------------------------------------------------------------------------

  /** The mutex this program point requires its actor to own. */
  function Owns(pc: Pc): Option<nat> {
    match pc
    case Inc(m, _) => Some(m)
    case Locking(m, l) => if l.Got? || l.GotIrq? then Some(m) else None
    case Dropping(m, d) => if d.Store? then Some(m) else None
    case _ => None
  }

  predicate Owned(held: seq<set<nat>>, m: nat) {
    exists a :: 0 <= a < |held| && m in held[a]
  }

  /** A mutex is locked exactly when an actor holds its guard, and no two actors hold it. */
  predicate OwnOk(pc: seq<Pc>, locked: seq<bool>, held: seq<set<nat>>) {
    && |pc| == |held|
    && (forall a, m {:trigger m in held[a]} :: 0 <= a < |held| && m in held[a] ==> m < |locked| && locked[m])
    && (forall a, b, m {:trigger m in held[a], m in held[b]} ::
          0 <= a < |held| && 0 <= b < |held| && m in held[a] && m in held[b] ==> a == b)
    && (forall m :: 0 <= m < |locked| && locked[m] ==> Owned(held, m))
    && (forall a :: 0 <= a < |pc| && Owns(pc[a]).Some? ==> Owns(pc[a]).value in held[a])
  }

  lemma OwnMove(pcs: seq<Pc>, locked: seq<bool>, held: seq<set<nat>>, a: nat, pc: Pc)
    requires OwnOk(pcs, locked, held) && a < |pcs| && (Owns(pc).Some? ==> Owns(pc).value in held[a])
    ensures OwnOk(pcs[a := pc], locked, held)
  {
  }

  lemma OwnAcquire(pcs: seq<Pc>, locked: seq<bool>, held: seq<set<nat>>, a: nat, pc: Pc, m: nat)
    requires OwnOk(pcs, locked, held) && a < |pcs| && m < |locked| && !locked[m]
    requires Owns(pc).Some? ==> Owns(pc).value == m
    ensures OwnOk(pcs[a := pc], locked[m := true], held[a := held[a] + {m}])
  {
    var held' := held[a := held[a] + {m}];
    assert m in held'[a];
    forall n | 0 <= n < |locked| && Owned(held, n) ensures Owned(held', n) {
      var b :| 0 <= b < |held| && n in held[b];
      assert n in held'[b];
    }
  }

  lemma OwnStore(pcs: seq<Pc>, locked: seq<bool>, held: seq<set<nat>>, a: nat, pc: Pc, m: nat)
    requires OwnOk(pcs, locked, held) && a < |pcs| && m < |locked| && m in held[a] && Owns(pc).None?
    ensures OwnOk(pcs[a := pc], locked[m := false], held[a := held[a] - {m}])
  {
    var held' := held[a := held[a] - {m}];
    forall n | 0 <= n < |locked| && n != m && Owned(held, n) ensures Owned(held', n) {
      var b :| 0 <= b < |held| && n in held[b];
      assert n in held'[b];
    }
    forall b | 0 <= b < |pcs| && b != a && Owns(pcs[b]).Some? ensures Owns(pcs[b]).value != m {
      assert Owns(pcs[b]).value in held[b];
    }
  }

  lemma OwnSpawn(pcs: seq<Pc>, locked: seq<bool>, held: seq<set<nat>>)
    requires OwnOk(pcs, locked, held)
    ensures OwnOk(pcs + [Idle], locked, held + [{}])
  {
    forall n | 0 <= n < |locked| && Owned(held, n) ensures Owned(held + [{}], n) {
      var b :| 0 <= b < |held| && n in held[b];
      assert n in (held + [{}])[b];
    }
  }

  // ---------------------------------------------------------------------------
  // Wakeups
  // ---------------------------------------------------------------------------

  /**
   A thread that will see to the waiters of `m`: it is dropping `m` and has not finished waking a
   waiter, or it has been woken from its wait for `m` and is still in the lock loop, on its way to
   get the mutex or to find it locked.
   */
  predicate Helps(pc: Pc, blocked: bool, woken: bool, m: nat) {
    match pc
    case Locking(n, l) =>
      n == m && (if l.Resume? then !blocked else woken && (l.Fast? || l.Irq? || l.Cli? || l.Spin? || l.Slow?))
    case Dropping(n, d) => n == m && (d.WSpin? || d.Pop? || Popped(d).Some?)
    case _ => false
  }

  /** A scheduled thread helps; the bootstrap context would not do, since it never runs again. */
  predicate Helped(pc: seq<Pc>, blocked: seq<bool>, woken: seq<bool>, m: nat)
    requires |pc| == |blocked| == |woken|
  {
    exists a :: 1 <= a < |pc| && Helps(pc[a], blocked[a], woken[a], m)
  }

  /** No lost wakeup. */
  predicate WakeOk(pc: seq<Pc>, blocked: seq<bool>, woken: seq<bool>, locked: seq<bool>, waitq: seq<seq<nat>>) {
    && |pc| == |blocked| == |woken| && |locked| == |waitq|
    && forall m :: 0 <= m < |waitq| && waitq[m] != [] ==> locked[m] || Helped(pc, blocked, woken, m)
  }

  lemma HelpedKept(pcs: seq<Pc>, blocked: seq<bool>, woken: seq<bool>, a: nat, pc: Pc, b: bool, w: bool, m: nat)
    requires |pcs| == |blocked| == |woken| && a < |pcs| && Helped(pcs, blocked, woken, m)
    requires a >= 1 && Helps(pcs[a], blocked[a], woken[a], m) ==> Helps(pc, b, w, m)
    ensures Helped(pcs[a := pc], blocked[a := b], woken[a := w], m)
  {
    var h :| 1 <= h < |pcs| && Helps(pcs[h], blocked[h], woken[h], m);
    assert Helps(pcs[a := pc][h], blocked[a := b][h], woken[a := w][h], m);
  }

  /** An actor may stop helping with a mutex only when that mutex is locked or has no waiters. */
  lemma WakeMove(pcs: seq<Pc>, blocked: seq<bool>, woken: seq<bool>, locked: seq<bool>, waitq: seq<seq<nat>>, a: nat, pc: Pc, b: bool, w: bool)
    requires WakeOk(pcs, blocked, woken, locked, waitq) && a < |pcs|
    requires forall m :: 0 <= m < |waitq| && Helps(pcs[a], blocked[a], woken[a], m) ==>
      Helps(pc, b, w, m) || locked[m] || waitq[m] == []
    ensures WakeOk(pcs[a := pc], blocked[a := b], woken[a := w], locked, waitq)
  {
    forall m | 0 <= m < |waitq| && waitq[m] != [] && !locked[m] ensures Helped(pcs[a := pc], blocked[a := b], woken[a := w], m) {
      HelpedKept(pcs, blocked, woken, a, pc, b, w, m);
    }
  }

  /** The same when only the program point moves. */
  lemma WakeGoto(pcs: seq<Pc>, blocked: seq<bool>, woken: seq<bool>, locked: seq<bool>, waitq: seq<seq<nat>>, a: nat, pc: Pc)
    requires WakeOk(pcs, blocked, woken, locked, waitq) && a < |pcs|
    requires forall m :: 0 <= m < |waitq| && Helps(pcs[a], blocked[a], woken[a], m) ==>
      Helps(pc, blocked[a], woken[a], m) || locked[m] || waitq[m] == []
    ensures WakeOk(pcs[a := pc], blocked, woken, locked, waitq)
  {
    WakeMove(pcs, blocked, woken, locked, waitq, a, pc, blocked[a], woken[a]);
    assert blocked[a := blocked[a]] == blocked && woken[a := woken[a]] == woken;
  }

  lemma WakeAcquire(pcs: seq<Pc>, blocked: seq<bool>, woken: seq<bool>, locked: seq<bool>, waitq: seq<seq<nat>>, a: nat, pc: Pc, m: nat)
    requires WakeOk(pcs, blocked, woken, locked, waitq) && a < |pcs| && m < |locked|
    requires forall n :: n != m ==> !Helps(pcs[a], blocked[a], woken[a], n)
    ensures WakeOk(pcs[a := pc], blocked, woken, locked[m := true], waitq)
  {
    assert blocked[a := blocked[a]] == blocked && woken[a := woken[a]] == woken;
    forall n | 0 <= n < |waitq| && waitq[n] != [] && !locked[m := true][n] ensures Helped(pcs[a := pc], blocked, woken, n) {
      HelpedKept(pcs, blocked, woken, a, pc, blocked[a], woken[a], n);
    }
  }

  /** The thread that unlocks takes care of the waiters; the bootstrap context has none to take care of. */
  lemma WakeStore(pcs: seq<Pc>, blocked: seq<bool>, woken: seq<bool>, locked: seq<bool>, waitq: seq<seq<nat>>, a: nat, m: nat)
    requires WakeOk(pcs, blocked, woken, locked, waitq) && a < |pcs| && m < |locked| && pcs[a] == Dropping(m, Store)
    requires a >= 1 || waitq[m] == []
    ensures WakeOk(pcs[a := Dropping(m, WSpin)], blocked, woken, locked[m := false], waitq)
  {
    var pcs' := pcs[a := Dropping(m, WSpin)];
    assert Helps(pcs'[a], blocked[a], woken[a], m);
    assert blocked[a := blocked[a]] == blocked && woken[a := woken[a]] == woken;
    forall n | 0 <= n < |waitq| && waitq[n] != [] && !locked[m := false][n] ensures Helped(pcs', blocked, woken, n) {
      if n != m { HelpedKept(pcs, blocked, woken, a, Dropping(m, WSpin), blocked[a], woken[a], n); }
    }
  }

  /** The queue of a locked mutex, or of one with a helper, may change freely. */
  lemma WakeQueue(pcs: seq<Pc>, blocked: seq<bool>, woken: seq<bool>, locked: seq<bool>, waitq: seq<seq<nat>>, m: nat, q: seq<nat>)
    requires WakeOk(pcs, blocked, woken, locked, waitq) && m < |locked| && (locked[m] || Helped(pcs, blocked, woken, m))
    ensures WakeOk(pcs, blocked, woken, locked, waitq[m := q])
  {
  }

  /** The unblocked waiter takes over from the drop that woke it. */
  lemma WakeWake(pcs: seq<Pc>, blocked: seq<bool>, woken: seq<bool>, locked: seq<bool>, waitq: seq<seq<nat>>, a: nat, m: nat, id: nat, was: bool)
    requires WakeOk(pcs, blocked, woken, locked, waitq) && a < |pcs| && 1 <= id < |pcs| && id != a
    requires pcs[a] == Dropping(m, Wake(id, was)) && pcs[id] == Locking(m, Resume)
    ensures WakeOk(pcs[a := Dropping(m, Woken(was))], blocked[id := false], woken, locked, waitq)
  {
    var pcs' := pcs[a := Dropping(m, Woken(was))];
    var blocked' := blocked[id := false];
    assert Helps(pcs'[id], blocked'[id], woken[id], m);
    forall n | 0 <= n < |waitq| && waitq[n] != [] && !locked[n] ensures Helped(pcs', blocked', woken, n) {
      if n != m {
        var h :| 1 <= h < |pcs| && Helps(pcs[h], blocked[h], woken[h], n);
        assert Helps(pcs'[h], blocked'[h], woken[h], n);
      }
    }
  }

  lemma WakeSpawn(pcs: seq<Pc>, blocked: seq<bool>, woken: seq<bool>, locked: seq<bool>, waitq: seq<seq<nat>>)
    requires WakeOk(pcs, blocked, woken, locked, waitq)
    ensures WakeOk(pcs + [Idle], blocked + [false], woken + [false], locked, waitq)
  {
    forall m | 0 <= m < |waitq| && Helped(pcs, blocked, woken, m) ensures Helped(pcs + [Idle], blocked + [false], woken + [false], m) {
      var h :| 1 <= h < |pcs| && Helps(pcs[h], blocked[h], woken[h], m);
      assert Helps((pcs + [Idle])[h], (blocked + [false])[h], (woken + [false])[h], m);
    }
  }

  // ---------------------------------------------------------------------------
  // The spinlock around `waiters`
  // ---------------------------------------------------------------------------

  function HoldsW(pc: Pc): Option<nat> {
    match pc
    case Locking(m, l) => if l.Push? then Some(m) else None
    case Dropping(m, d) => if d.Store? || d.WSpin? then None else Some(m)
    case _ => None
  }

  predicate WHeld(pc: seq<Pc>, m: nat) {
    exists a :: 0 <= a < |pc| && HoldsW(pc[a]) == Some(m)
  }

  /** The waiters spinlock is held exactly when one actor is inside it. */
  predicate WlockOk(pc: seq<Pc>, wlock: seq<bool>) {
    && (forall a :: 0 <= a < |pc| && HoldsW(pc[a]).Some? ==> HoldsW(pc[a]).value < |wlock| && wlock[HoldsW(pc[a]).value])
    && (forall a, b :: 0 <= a < b < |pc| && HoldsW(pc[a]).Some? ==> HoldsW(pc[a]) != HoldsW(pc[b]))
    && (forall m :: 0 <= m < |wlock| && wlock[m] ==> WHeld(pc, m))
  }

  /** Moving without taking or releasing it, taking a free one, or releasing the one held. */
  lemma WlockMove(pcs: seq<Pc>, wlock: seq<bool>, a: nat, pc: Pc, wlock': seq<bool>)
    requires WlockOk(pcs, wlock) && a < |pcs|
    requires
      || (HoldsW(pc) == HoldsW(pcs[a]) && wlock' == wlock)
      || (HoldsW(pcs[a]).None? && HoldsW(pc).Some? && HoldsW(pc).value < |wlock|
          && !wlock[HoldsW(pc).value] && wlock' == wlock[HoldsW(pc).value := true])
      || (HoldsW(pcs[a]).Some? && HoldsW(pc).None? && HoldsW(pcs[a]).value < |wlock|
          && wlock' == wlock[HoldsW(pcs[a]).value := false])
    ensures WlockOk(pcs[a := pc], wlock')
  {
    assert HoldsW(pcs[a := pc][a]) == HoldsW(pc);
    forall m | 0 <= m < |wlock| && wlock'[m] && HoldsW(pc) != Some(m) ensures WHeld(pcs[a := pc], m) {
      var h :| 0 <= h < |pcs| && HoldsW(pcs[h]) == Some(m);
      assert HoldsW(pcs[a := pc][h]) == Some(m);
    }
  }

  lemma WlockSpawn(pcs: seq<Pc>, wlock: seq<bool>)
    requires WlockOk(pcs, wlock)
    ensures WlockOk(pcs + [Idle], wlock)
  {
    forall m | 0 <= m < |wlock| && WHeld(pcs, m) ensures WHeld(pcs + [Idle], m) {
      var h :| 0 <= h < |pcs| && HoldsW(pcs[h]) == Some(m);
      assert HoldsW((pcs + [Idle])[h]) == Some(m);
    }
  }

  // ---------------------------------------------------------------------------
  // The protected data
  // ---------------------------------------------------------------------------

  /** Increments of mutex `m` completed by the actors below `k`. */
  function Total(incs: seq<seq<nat>>, m: nat, k: nat): nat
    requires k <= |incs| && forall a :: 0 <= a < |incs| ==> m < |incs[a]|
  {
    if k == 0 then 0 else Total(incs, m, k - 1) + incs[k - 1][m]
  }

  predicate IncsSized(incs: seq<seq<nat>>, mutexes: nat) {
    forall a :: 0 <= a < |incs| ==> |incs[a]| == mutexes
  }

  /** The data is the number of completed increments, and an increment in progress saw it. */
  predicate DataOk(pc: seq<Pc>, data: seq<int>, incs: seq<seq<nat>>) {
    && IncsSized(incs, |data|)
    && (forall m :: 0 <= m < |data| ==> data[m] == Total(incs, m, |incs|))
    && (forall a :: 0 <= a < |pc| && pc[a].Inc? ==> pc[a].m < |data| && data[pc[a].m] == pc[a].seen)
  }

  lemma {:induction false} TotalBump(incs: seq<seq<nat>>, incs': seq<seq<nat>>, a: nat, m: nat, n: nat, k: nat)
    requires k <= |incs| == |incs'| && a < |incs|
    requires forall b :: 0 <= b < |incs| ==> |incs[b]| == |incs'[b]| && m < |incs[b]| && n < |incs[b]|
    requires incs' == incs[a := incs[a][n := incs[a][n] + 1]]
    ensures Total(incs', m, k) == Total(incs, m, k) + (if a < k && m == n then 1 else 0)
  {
    if k > 0 { TotalBump(incs, incs', a, m, n, k - 1); }
  }

  /** Writing back `seen + 1` is an increment, because only the owner can be in progress. */
  lemma DataInc(pcs: seq<Pc>, locked: seq<bool>, held: seq<set<nat>>, data: seq<int>, incs: seq<seq<nat>>, a: nat, m: nat, seen: int)
    requires OwnOk(pcs, locked, held) && DataOk(pcs, data, incs) && |incs| == |pcs| && a < |pcs| && m < |data|
    requires pcs[a] == Inc(m, seen)
    ensures DataOk(pcs[a := Idle], data[m := seen + 1], incs[a := incs[a][m := incs[a][m] + 1]])
  {
    var incs' := incs[a := incs[a][m := incs[a][m] + 1]];
    forall n | 0 <= n < |data| ensures data[m := seen + 1][n] == Total(incs', n, |incs'|) {
      TotalBump(incs, incs', a, n, m, |incs|);
    }
    forall b | 0 <= b < |pcs| && b != a && pcs[b].Inc? ensures pcs[b].m != m {
      assert Owns(pcs[b]).value in held[b] && Owns(pcs[a]).value in held[a];
    }
  }

  lemma DataSpawn(pcs: seq<Pc>, data: seq<int>, incs: seq<seq<nat>>, zero: seq<nat>)
    requires DataOk(pcs, data, incs) && |zero| == |data| && forall m :: 0 <= m < |data| ==> zero[m] == 0
    ensures DataOk(pcs + [Idle], data, incs + [zero])
  {
    forall m | 0 <= m < |data| ensures data[m] == Total(incs + [zero], m, |incs| + 1) {
      TotalPrefix(incs, zero, m, |incs|);
    }
  }

  lemma {:induction false} TotalPrefix(incs: seq<seq<nat>>, more: seq<nat>, m: nat, k: nat)
    requires k <= |incs| && m < |more| && forall a :: 0 <= a < |incs| ==> m < |incs[a]|
    ensures Total(incs + [more], m, k) == Total(incs, m, k)
  {
    if k > 0 { TotalPrefix(incs, more, m, k - 1); }
  }
}
