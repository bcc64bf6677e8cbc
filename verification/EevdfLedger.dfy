/**
 Accounting over any mix of spawn, tick, block and unblock calls: where every unit of
 vruntime came from, how the charged time adds up, and when no 64-bit operation overflows.
 */
module EevdfLedger {
  import opened Wrappers
  import opened Eevdf
  import opened EevdfFairness

  datatype Op =
    | OpSpawn(id: nat, weight: nat)
    | OpTick(tick: nat)
    | OpBlock(tick: nat)
    | OpUnblock(id: nat)

  /** One charge: the thread, the time slice, and the sum of runnable weights it was divided by. */
  datatype Charge = Charge(thread: nat, slice: nat, sum: nat)

  /** Every charge so far, how many had no elapsed time, and the tick of the first switch. */
  datatype Ledger = Ledger(charges: seq<Charge>, zeros: nat, first: nat)

  const NoCharges := Ledger([], 0, 0)

  predicate Calls(op: Op) { op.OpTick? || op.OpBlock? }

  /** The state `tick_prepare` sees in a tick or block call. */
  function Entry(s: Sched, op: Op): Sched
    requires s.current.Some? ==> s.current.value < |s.meta|
  {
    if op.OpBlock? then BlockCurrent(s) else s
  }

  /** One operation; None is a panic. */
  function Step(s: Sched, op: Op): Option<Sched>
    requires Wf(s)
  {
    match op
    case OpSpawn(id, weight) => Some(Spawn(s, id, weight))
    case OpUnblock(id) => Some(Unblock(s, id))
    case _ =>
      var r := Tick(Entry(s, op), op.tick);
      if r.Panic? then None else Some(r.next)
  }

  function Record(s: Sched, l: Ledger, op: Op): Ledger
    requires Wf(s)
  {
    if !Calls(op) then l
    else
      var e := Entry(s, op);
      if s.current.None? then l.(first := op.tick)
      else if SumWeights(e.meta) == 0 then l
      else Ledger(l.charges + [Charge(s.current.value, TimeSlice(e, op.tick), SumWeights(e.meta))],
                  l.zeros + (if op.tick == s.lastTick then 1 else 0), l.first)
  }

  /** Spawned threads have fresh ids and 64-bit weights; ticks are 64-bit and do not run backwards. */
  ghost predicate OpOk(s: Sched, op: Op, now: nat) {
    match op
    case OpSpawn(id, weight) => id !in s.ids && weight <= U64_MAX
    case OpUnblock(_) => true
    case _ => now <= op.tick <= U64_MAX
  }

  function Now(op: Op, now: nat): nat {
    if Calls(op) then op.tick else now
  }

  // ---------------------------------------------------------------------------
  // Every operation keeps the state well formed
  // ---------------------------------------------------------------------------

  lemma {:induction false} UnblockClears(s: Sched, id: nat, k: nat)
    requires |s.ids| == |s.meta| && k <= |s.ids|
    ensures var s' := Unblock(s, id, k);
      && s'.ids == s.ids && |s'.meta| == |s.meta|
      && s' == s.(meta := s'.meta)
      && (forall i :: 0 <= i < |s.meta| ==> s'.meta[i] == s.meta[i] || (i >= k && s.ids[i] == id && s'.meta[i] == s.meta[i].(blocked := false)))
      && (forall i :: k <= i < |s.meta| && s.ids[i] == id && Distinct(s.ids) ==> !s'.meta[i].blocked)
    decreases |s.ids| - k
  {
    if k < |s.ids| && s.ids[k] != id { UnblockClears(s, id, k + 1); }
  }

  lemma BlockCurrentWf(s: Sched)
    requires Wf(s)
    ensures Wf(BlockCurrent(s)) && BlockCurrent(s).current == s.current && BlockCurrent(s).lastTick == s.lastTick
    ensures forall i :: 0 <= i < |s.meta| ==>
      BlockCurrent(s).meta[i].vruntime == s.meta[i].vruntime && BlockCurrent(s).meta[i].weight == s.meta[i].weight
  {
  }

  lemma StepKeepsWf(s: Sched, op: Op, now: nat)
    requires Wf(s) && OpOk(s, op, now)
    ensures Step(s, op).Some? ==> Wf(Step(s, op).value)
  {
    hide Tick;
    match op
    case OpSpawn(_, _) =>
    case OpUnblock(id) => UnblockClears(s, id, 0);
    case _ =>
      BlockCurrentWf(s);
      if Step(s, op).Some? { TickFrame(Entry(s, op), op.tick); }
  }

  // ---------------------------------------------------------------------------
  // The books
  // ---------------------------------------------------------------------------

  function TotalSlices(charges: seq<Charge>): nat {
    if charges == [] then 0 else TotalSlices(charges[..|charges| - 1]) + charges[|charges| - 1].slice
  }

  ghost predicate ChargesOk(charges: seq<Charge>) {
    forall k :: 0 <= k < |charges| ==> charges[k].sum > 0
  }

  /** The vruntime that the charges give thread `i` of weight `w`. */
  function Earned(charges: seq<Charge>, i: nat, w: nat): nat
    requires ChargesOk(charges)
  {
    if charges == [] then 0
    else
      var last := charges[|charges| - 1];
      Earned(charges[..|charges| - 1], i, w) + (if last.thread == i then Delta(last.slice, w, last.sum) else 0)
  }

  /**
   Each vruntime is what the recorded charges give that thread, and the charged time is the
   time since the first switch plus one tick for every charged call without elapsed time.
   */
  ghost predicate Balanced(s: Sched, l: Ledger, now: nat) {
    && s.lastTick <= now
    && ChargesOk(l.charges)
    && (forall k :: 0 <= k < |l.charges| ==> l.charges[k].thread < |s.meta|)
    && (s.current.None? ==> l.charges == [] && l.zeros == 0)
    && (s.current.Some? ==> l.first <= s.lastTick && TotalSlices(l.charges) == s.lastTick - l.first + l.zeros)
    && (forall i :: 0 <= i < |s.meta| ==> s.meta[i].vruntime == Earned(l.charges, i, s.meta[i].weight))
  }

  lemma {:induction false} EarnedNothing(charges: seq<Charge>, i: nat, w: nat)
    requires ChargesOk(charges) && forall k :: 0 <= k < |charges| ==> charges[k].thread != i
    ensures Earned(charges, i, w) == 0
  {
    if charges != [] { EarnedNothing(charges[..|charges| - 1], i, w); }
  }

  lemma Append(charges: seq<Charge>, c: Charge, i: nat, w: nat)
    requires ChargesOk(charges) && c.sum > 0
    ensures ChargesOk(charges + [c])
    ensures TotalSlices(charges + [c]) == TotalSlices(charges) + c.slice
    ensures Earned(charges + [c], i, w) == Earned(charges, i, w) + (if c.thread == i then Delta(c.slice, w, c.sum) else 0)
  {
    hide Delta;
    assert (charges + [c])[..|charges|] == charges;
  }

  lemma ChargedEarned(e: Sched, tick: nat, charges: seq<Charge>)
    requires Wf(e) && ChargesOk(charges) && e.current.Some? && SumWeights(e.meta) > 0
    requires forall i :: 0 <= i < |e.meta| ==> e.meta[i].vruntime == Earned(charges, i, e.meta[i].weight)
    ensures var c := Charge(e.current.value, TimeSlice(e, tick), SumWeights(e.meta));
      && ChargesOk(charges + [c])
      && TotalSlices(charges + [c]) == TotalSlices(charges) + c.slice
      && var meta := Charged(e, tick);
         forall i :: 0 <= i < |meta| ==> meta[i].vruntime == Earned(charges + [c], i, meta[i].weight)
  {
    hide Delta, TimeSlice;
    var c := Charge(e.current.value, TimeSlice(e, tick), SumWeights(e.meta));
    var meta := Charged(e, tick);
    Append(charges, c, 0, 0);
    forall i | 0 <= i < |meta| ensures meta[i].vruntime == Earned(charges + [c], i, meta[i].weight) {
      Append(charges, c, i, meta[i].weight);
    }
  }

  lemma NothingCharged(e: Sched, tick: nat)
    requires e.current.Some? ==> e.current.value < |e.meta|
    ensures e.current.None? ==> Charged(e, tick) == e.meta
    ensures TotalSlices([]) == 0
  {
  }

  lemma CallBalances(s: Sched, l: Ledger, op: Op, now: nat)
    requires Wf(s) && Balanced(s, l, now) && OpOk(s, op, now) && Calls(op)
    requires Step(s, op).Some? && s.meta != []
    ensures Balanced(Step(s, op).value, Record(s, l, op), op.tick)
  {
    hide Tick, Delta, Charged, Earned, TotalSlices, SumWeights, IsEarliest, SelectsFrom;
    var e := Entry(s, op);
    NothingCharged(e, op.tick);
    BlockCurrentWf(s);
    TickFrame(e, op.tick);
    TickSelects(e, op.tick);
    if !SomeRunnable(e.meta) {
      SumWeightsZero(e.meta);
      AllBlockedStays(e, op.tick);
    } else {
      var i :| Runnable(e.meta, i);
      SumWeightsAtLeast(e.meta, i);
      if s.current.Some? { ChargedEarned(e, op.tick, l.charges); }
    }
  }

  /** Conservation, one operation at a time. */
  lemma StepBalances(s: Sched, l: Ledger, op: Op, now: nat)
    requires Wf(s) && Balanced(s, l, now) && OpOk(s, op, now) && Step(s, op).Some?
    ensures Balanced(Step(s, op).value, Record(s, l, op), Now(op, now))
  {
    hide Tick, Delta;
    match op
    case OpSpawn(id, weight) => EarnedNothing(l.charges, |s.meta|, Max(weight, 1));
    case OpUnblock(id) => UnblockClears(s, id, 0);
    case _ =>
      if s.meta == [] { EmptyStays(s, op.tick); } else { CallBalances(s, l, op, now); }
  }

  lemma EmptyStays(s: Sched, tick: nat)
    requires Wf(s) && s.meta == []
    ensures s.current.None? && Tick(s, tick) == Stay(s)
  {
  }

  // ---------------------------------------------------------------------------
  // Whole runs
  // ---------------------------------------------------------------------------

  ghost predicate OpsOk(s: Sched, ops: seq<Op>, now: nat)
    requires Wf(s)
    decreases |ops|
  {
    ops == [] ||
    (&& OpOk(s, ops[0], now)
     && (Step(s, ops[0]).Some? ==>
           && Wf(Step(s, ops[0]).value)
           && OpsOk(Step(s, ops[0]).value, ops[1..], Now(ops[0], now))))
  }

  /** The state and ledger after `ops`; None when an operation panics. */
  ghost function Run(s: Sched, l: Ledger, ops: seq<Op>, now: nat): Option<(Sched, Ledger, nat)>
    requires Wf(s) && OpsOk(s, ops, now)
    decreases |ops|
  {
    if ops == [] then Some((s, l, now))
    else if Step(s, ops[0]).None? then None
    else Run(Step(s, ops[0]).value, Record(s, l, ops[0]), ops[1..], Now(ops[0], now))
  }

  /** CPU-time conservation after any run from the empty scheduler. */
  lemma TimeIsConserved(ops: seq<Op>)
    requires Wf(Empty) && OpsOk(Empty, ops, 0)
    ensures Run(Empty, NoCharges, ops, 0).Some? ==>
      var (s, l, now) := Run(Empty, NoCharges, ops, 0).value;
      && Wf(s) && Balanced(s, l, now) && l.zeros <= |ops|
  {
    RunBalances(Empty, NoCharges, ops, 0);
  }

  lemma {:induction false} RunBalances(s: Sched, l: Ledger, ops: seq<Op>, now: nat)
    requires Wf(s) && OpsOk(s, ops, now) && Balanced(s, l, now)
    ensures Run(s, l, ops, now).Some? ==>
      var (s', l', now') := Run(s, l, ops, now).value;
      && Wf(s') && Balanced(s', l', now') && l'.zeros <= l.zeros + |ops|
    decreases |ops|
  {
    hide Balanced, Step;
    if ops != [] && Step(s, ops[0]).Some? {
      StepBalances(s, l, ops[0], now);
      RunBalances(Step(s, ops[0]).value, Record(s, l, ops[0]), ops[1..], Now(ops[0], now));
    }
  }

  // ---------------------------------------------------------------------------
  // No overflow
  // ---------------------------------------------------------------------------

  function TotalWeight(meta: seq<ThreadMeta>): nat {
    if meta == [] then 0 else TotalWeight(meta[..|meta| - 1]) + meta[|meta| - 1].weight
  }

  /** Weight that the remaining operations will add. */
  function ComingWeight(ops: seq<Op>): nat {
    if ops == [] then 0
    else (if ops[0].OpSpawn? then Max(ops[0].weight, 1) else 0) + ComingWeight(ops[1..])
  }

  ghost predicate TicksBelow(ops: seq<Op>, last: nat) {
    forall k :: 0 <= k < |ops| && Calls(ops[k]) ==> ops[k].tick <= last
  }

  lemma {:induction false} TotalWeightBounds(meta: seq<ThreadMeta>)
    ensures SumWeights(meta) <= TotalWeight(meta)
    ensures forall i :: 0 <= i < |meta| ==> meta[i].weight <= TotalWeight(meta)
  {
    if meta != [] { TotalWeightBounds(meta[..|meta| - 1]); }
  }

  lemma {:induction false} TotalWeightSame(a: seq<ThreadMeta>, b: seq<ThreadMeta>)
    requires |a| == |b| && forall i :: 0 <= i < |a| ==> a[i].weight == b[i].weight
    ensures TotalWeight(a) == TotalWeight(b)
  {
    if a != [] { TotalWeightSame(a[..|a| - 1], b[..|b| - 1]); }
  }

  lemma MulMono(a: nat, b: nat, c: nat, d: nat)
    requires a <= c && b <= d
    ensures a * b <= c * d
  {
    assert a * b <= c * b <= c * d;
  }

  lemma DivAtMost(a: nat, b: nat)
    requires b > 0
    ensures a / b <= a
  {
    MulMono(a, 1, a, b);
    DivBounds(a, b, a);
  }

  lemma Distribute(a: nat, b: nat, u: nat)
    ensures (a + b) * u == a * u + b * u
  {
  }

  lemma DeltaCrude(slice: nat, w: nat, sum: nat)
    requires sum > 0
    ensures slice * w * 1024 == slice * (w * 1024)
    ensures Delta(slice, w, sum) <= slice * (w * 1024)
  {
    DivAtMost(slice * w * 1024, sum);
  }

  /** No charge can give a thread more than the charged time at full weight. */
  lemma {:induction false} EarnedAtMost(charges: seq<Charge>, i: nat, w: nat)
    requires ChargesOk(charges)
    ensures Earned(charges, i, w) <= TotalSlices(charges) * (w * 1024)
  {
    hide Delta;
    if charges != [] {
      var init := charges[..|charges| - 1];
      var last := charges[|charges| - 1];
      EarnedAtMost(init, i, w);
      DeltaCrude(last.slice, w, last.sum);
      Distribute(TotalSlices(init), last.slice, w * 1024);
    }
  }

  /** The bound below which everything stays: `n` slices of time at the total weight. */
  ghost predicate Room(n: nat, weight: nat) { n * (weight * 1024) <= U64_MAX }

  lemma CallFits(s: Sched, l: Ledger, tick: nat, now: nat, last: nat, calls: nat, weight: nat)
    requires Wf(s) && Balanced(s, l, now) && now <= tick <= last
    requires TotalWeight(s.meta) <= weight && l.zeros <= calls
    requires Room(2 * last + calls + 2, weight)
    ensures Tick(s, tick) != Panic
  {
    if s.meta != [] {
      var u := weight * 1024;
      TotalWeightBounds(s.meta);
      SumWeightsCharged(s, tick);
      ChargeIsSmall(s, l, tick, now, last, calls, u);
      var meta := Charged(s, tick);
      var slice := TimeSlice(s, tick);
      assert slice <= last + 1;
      hide Delta, Charged, SumWeights, DeadlineFits, Choice, Deadlines, Balanced, TimeSlice, ChargeFits, Limit;
      Distribute(last + calls + 1, last + 1, u);
      forall i | 0 <= i < |meta| ensures DeadlineFits(meta[i], slice, SumWeights(meta)) {
        DeadlineIsSmall(meta[i], slice, SumWeights(meta), last, calls, u);
      }
    }
  }

  lemma DeadlineIsSmall(m: ThreadMeta, slice: nat, sum: nat, last: nat, calls: nat, u: nat)
    requires m.weight > 0 && slice <= last + 1 && sum * 1024 <= u
    requires m.vruntime <= (last + calls + 1) * u
    requires (last + calls + 1) * u + (last + 1) * u <= U64_MAX
    ensures DeadlineFits(m, slice, sum)
  {
    var top := slice * sum * 1024;
    DeltaCrude(slice, sum, 1);
    MulMono(slice, sum * 1024, last + 1, u);
    DivAtMost(top, m.weight);
  }

  lemma ChargeIsSmall(s: Sched, l: Ledger, tick: nat, now: nat, last: nat, calls: nat, u: nat)
    requires Wf(s) && s.meta != [] && Balanced(s, l, now) && now <= tick <= last && l.zeros <= calls
    requires SumWeights(s.meta) * 1024 <= u
    requires forall i :: 0 <= i < |s.meta| ==> s.meta[i].weight * 1024 <= u
    requires (2 * last + calls + 2) * u <= U64_MAX
    ensures ChargeFits(s, tick)
    ensures forall i :: 0 <= i < |s.meta| ==> Charged(s, tick)[i].vruntime <= (last + calls + 1) * u
  {
    var slice := TimeSlice(s, tick);
    var charges := l.charges;
    assert slice <= last + 1 && TotalSlices(charges) <= s.lastTick + calls;
    if s.current.Some? && SumWeights(s.meta) > 0 {
      ChargedEarned(s, tick, charges);
      charges := charges + [Charge(s.current.value, slice, SumWeights(s.meta))];
      ProductIsSmall(slice, s.meta[s.current.value].weight, last, calls, u);
    }
    assert TotalSlices(charges) <= last + calls + 1;
    hide Delta, Earned, SumWeights, TotalSlices, TimeSlice;
    Smaller(last, calls, u);
    var meta := Charged(s, tick);
    forall i | 0 <= i < |meta| ensures meta[i].vruntime <= (last + calls + 1) * u {
      EarnedAtMost(charges, i, meta[i].weight);
      MulMono(TotalSlices(charges), meta[i].weight * 1024, last + calls + 1, u);
    }
  }

  lemma Smaller(last: nat, calls: nat, u: nat)
    ensures u <= (2 * last + calls + 2) * u
    ensures (last + calls + 1) * u <= (2 * last + calls + 2) * u
  {
    MulMono(1, u, 2 * last + calls + 2, u);
    MulMono(last + calls + 1, u, 2 * last + calls + 2, u);
  }

  lemma ProductIsSmall(slice: nat, w: nat, last: nat, calls: nat, u: nat)
    requires slice <= last + 1 && w * 1024 <= u
    ensures slice * w * 1024 <= (2 * last + calls + 2) * u
  {
    DeltaCrude(slice, w, 1);
    MulMono(slice, w * 1024, 2 * last + calls + 2, u);
  }

  /**
   With ticks up to `last`, `|ops|` operations and total weight `weight`, no operation of the
   run overflows when `2 * last + |ops| + 2` slices at 1024 times the weight fit in 64 bits.
   */
  lemma NoOverflow(ops: seq<Op>, last: nat, weight: nat)
    requires Wf(Empty) && OpsOk(Empty, ops, 0) && TicksBelow(ops, last) && ComingWeight(ops) <= weight
    requires Room(2 * last + |ops| + 2, weight)
    ensures Run(Empty, NoCharges, ops, 0).Some?
  {
    RunFits(Empty, NoCharges, ops, 0, last, |ops|, weight);
  }

  lemma {:induction false} RunFits(s: Sched, l: Ledger, ops: seq<Op>, now: nat, last: nat, calls: nat, weight: nat)
    requires Wf(s) && OpsOk(s, ops, now) && Balanced(s, l, now) && TicksBelow(ops, last)
    requires TotalWeight(s.meta) + ComingWeight(ops) <= weight && l.zeros + |ops| <= calls
    requires Room(2 * last + calls + 2, weight)
    ensures Run(s, l, ops, now).Some?
    decreases |ops|
  {
    if ops != [] {
      var op := ops[0];
      StepFits(s, l, op, now, last, calls, weight);
      StepBalances(s, l, op, now);
      StepWeight(s, op, now);
      hide Balanced, Step, Room;
      RunFits(Step(s, op).value, Record(s, l, op), ops[1..], Now(op, now), last, calls, weight);
    }
  }

  lemma StepFits(s: Sched, l: Ledger, op: Op, now: nat, last: nat, calls: nat, weight: nat)
    requires Wf(s) && OpOk(s, op, now) && Balanced(s, l, now) && (Calls(op) ==> op.tick <= last)
    requires TotalWeight(s.meta) <= weight && l.zeros <= calls
    requires Room(2 * last + calls + 2, weight)
    ensures Step(s, op).Some?
  {
    hide Tick;
    if Calls(op) {
      BlockCurrentWf(s);
      TotalWeightSame(s.meta, Entry(s, op).meta);
      CallFits(Entry(s, op), l, op.tick, now, last, calls, weight);
    }
  }

  lemma StepWeight(s: Sched, op: Op, now: nat)
    requires Wf(s) && OpOk(s, op, now) && Step(s, op).Some?
    ensures TotalWeight(Step(s, op).value.meta) == TotalWeight(s.meta) + (if op.OpSpawn? then Max(op.weight, 1) else 0)
  {
    hide Tick, Charged;
    var s' := Step(s, op).value;
    match op
    case OpSpawn(_, _) => assert s'.meta[..|s.meta|] == s.meta;
    case OpUnblock(id) =>
      UnblockClears(s, id, 0);
      TotalWeightSame(s.meta, s'.meta);
    case _ =>
      BlockCurrentWf(s);
      TickFrame(Entry(s, op), op.tick);
      TotalWeightSame(s.meta, s'.meta);
  }
}
