/**
 Exactly when waiting threads get the CPU: over runs of calls one tick apart, every waiting runnable
 thread is picked within its bound, from every point of the run, if and only if no runnable weight is
 below a 1024th of the sum.
 */
module EevdfStarvation {
  import opened Wrappers
  import opened Eevdf
  import opened EevdfFairness

  // ---------------------------------------------------------------------------
  // Calls one tick apart
  // ---------------------------------------------------------------------------

  predicate CurrentIn(s: Sched) { s.current.Some? ==> s.current.value < |s.meta| }

  /** The state after a call one tick after the last switch; a panic leaves it as it was. */
  function NextCall(s: Sched): Sched {
    if CurrentIn(s) && !Tick(s, s.lastTick + 1).Panic? then Tick(s, s.lastTick + 1).next else s
  }

  function After(s: Sched, k: nat): Sched
    decreases k
  {
    if k == 0 then s else After(NextCall(s), k - 1)
  }

  /** None of the next `n` calls overflows, and the tick counter does not either. */
  predicate NeverPanics(s: Sched, n: nat)
    decreases n
  {
    n == 0 || (s.lastTick < U64_MAX && CurrentIn(s) && !Tick(s, s.lastTick + 1).Panic? && NeverPanics(NextCall(s), n - 1))
  }

  /** One of the next `n` calls picks thread `i`. */
  predicate PickedIn(s: Sched, i: nat, n: nat)
    decreases n
  {
    n > 0 && (NextCall(s).current == Some(i) || PickedIn(NextCall(s), i, n - 1))
  }

  /** How many calls thread `i` waits at most. */
  function Wait(meta: seq<ThreadMeta>, i: nat): nat
    requires i < |meta|
  {
    1 + Backlog(meta, i, Cap(meta, i), |meta|)
  }

  ghost predicate WaitersPicked(s: Sched, n: nat) {
    forall i: nat :: Runnable(s.meta, i) && s.current != Some(i) && n >= Wait(s.meta, i) ==> PickedIn(s, i, n)
  }

  /** From every point of the next `n` calls, every waiting runnable thread is picked within its bound. */
  ghost predicate FairRun(s: Sched, n: nat)
    decreases n
  {
    WaitersPicked(s, n) && (n > 0 ==> FairRun(NextCall(s), n - 1))
  }

  function OneTicks(t: nat, n: nat): (ticks: seq<nat>)
    ensures |ticks| == n
    decreases n
  {
    if n == 0 then [] else [t + 1] + OneTicks(t + 1, n - 1)
  }

  /** What one such call does. */
  lemma CallFrame(s: Sched)
    requires Wf(s) && SomeRunnable(s.meta) && NeverPanics(s, 1)
    ensures var s' := NextCall(s);
      && Wf(s') && s'.lastTick == s.lastTick + 1 && |s'.meta| == |s.meta| && SumWeights(s'.meta) == SumWeights(s.meta)
      && s'.meta == Charged(s, s.lastTick + 1)
      && (forall i :: Runnable(s'.meta, i) <==> Runnable(s.meta, i)) && SomeRunnable(s'.meta)
      && (forall i :: 0 <= i < |s.meta| ==> s'.meta[i].weight == s.meta[i].weight && s'.meta[i].blocked == s.meta[i].blocked)
      && s'.current.Some? && Runnable(s'.meta, s'.current.value)
      && (forall j :: Runnable(s'.meta, j) ==> s'.meta[s'.current.value].vruntime <= s'.meta[j].vruntime + SumWeights(s.meta))
  {
    hide Tick, Charged, SumWeights, Wf;
    GoesOn(s);
    TicksFit(s);
    TickFrame(s, s.lastTick + 1);
    var i :| Runnable(s.meta, i);
    assert Runnable(NextCall(s).meta, i);
  }

  lemma TicksFit(s: Sched)
    requires Wf(s) && NeverPanics(s, 1)
    ensures s.lastTick + 1 <= U64_MAX && CurrentIn(s) && !Tick(s, s.lastTick + 1).Panic?
  {
  }

  lemma GoesOn(s: Sched)
    requires Wf(s) && SomeRunnable(s.meta) && NeverPanics(s, 1)
    ensures Tick(s, s.lastTick + 1).Go? && NextCall(s).lastTick == s.lastTick + 1 && |NextCall(s).meta| == |s.meta|
  {
    TicksFit(s);
    hide Tick, SelectsFrom, IsEarliest, Wf;
    TickSelects(s, s.lastTick + 1);
    GoLength(s);
  }

  lemma GoLength(s: Sched)
    requires CurrentIn(s) && Tick(s, s.lastTick + 1).Go?
    ensures |NextCall(s).meta| == |s.meta|
  {
    hide Choice, DeadlinesFit, ChargeFits, NewMin, Limit;
  }

  // ---------------------------------------------------------------------------
  // Chargeable weights are enough
  // ---------------------------------------------------------------------------

  lemma {:induction false} OneTicksRun(s: Sched, i: nat, n: nat)
    requires Wf(s) && SomeRunnable(s.meta) && NeverPanics(s, n)
    ensures TicksOk(OneTicks(s.lastTick, n)) && NoPanic(s, OneTicks(s.lastTick, n))
    ensures PickedWithin(s, i, OneTicks(s.lastTick, n)) <==> PickedIn(s, i, n)
    decreases n
  {
    hide Tick, Wf;
    if n > 0 {
      assert NeverPanics(s, 1);
      CallFrame(s);
      var ticks := OneTicks(s.lastTick, n);
      assert ticks[0] == s.lastTick + 1 && ticks[1..] == OneTicks(s.lastTick + 1, n - 1);
      OneTicksRun(NextCall(s), i, n - 1);
      WfCurrent(s);
      WfCurrent(NextCall(s));
    }
  }

  lemma WfCurrent(s: Sched)
    requires Wf(s)
    ensures CurrentIn(s)
  {
  }

  lemma {:induction false} FairIfChargeable(s: Sched, n: nat)
    requires Wf(s) && SomeRunnable(s.meta) && NeverPanics(s, n) && WeightsChargeable(s.meta)
    ensures FairRun(s, n)
    decreases n
  {
    hide Tick, Wf, Backlog, PickedIn, SumWeights, NoPanic, PickedWithin;
    forall i: nat | Runnable(s.meta, i) && s.current != Some(i) && n >= Wait(s.meta, i) ensures PickedIn(s, i, n) {
      OneTicksRun(s, i, n);
      StarvationBound(s, i, OneTicks(s.lastTick, n));
    }
    if n > 0 {
      assert NeverPanics(s, 1);
      CallFrame(s);
      WeightsKept(s, NextCall(s));
      FairIfChargeable(NextCall(s), n - 1);
    }
  }

  // ---------------------------------------------------------------------------
  // A weight that is not chargeable takes the CPU for ever
  // ---------------------------------------------------------------------------

  /** The one-tick charge of this runnable thread rounds to zero. */
  predicate Light(meta: seq<ThreadMeta>, c: nat) {
    Runnable(meta, c) && meta[c].weight * 1024 < SumWeights(meta)
  }

  /** A light thread is not charged, any other runnable thread is, by at most 1024. */
  lemma OneTickCharge(s: Sched)
    requires Wf(s) && s.current.Some? && Runnable(s.meta, s.current.value) && NeverPanics(s, 1)
    ensures var p := s.current.value; var meta := Charged(s, s.lastTick + 1);
      && s.meta[p].vruntime <= meta[p].vruntime <= s.meta[p].vruntime + 1024
      && meta == s.meta[p := s.meta[p].(vruntime := meta[p].vruntime)]
      && (Light(s.meta, p) <==> meta[p].vruntime == s.meta[p].vruntime)
  {
    hide Delta, SumWeights, Tick, Charged, Wf;
    var p := s.current.value;
    TicksFit(s);
    TickCharges(s, s.lastTick + 1);
    SumWeightsAtLeast(s.meta, p);
    assert TimeSlice(s, s.lastTick + 1) == 1;
    DeltaOne(s.meta[p].weight, SumWeights(s.meta));
  }

  lemma DeltaOne(weight: nat, sum: nat)
    requires 0 < sum && weight <= sum
    ensures Delta(1, weight, sum) <= 1024 && (Delta(1, weight, sum) == 0 <==> weight * 1024 < sum)
  {
    assert 1 * weight * 1024 == weight * 1024;
    DivBounds(weight * 1024, sum, 1024);
  }

  /** Picking a light thread puts the scheduler where `ZeroChargeStarvesOthers` holds it. */
  lemma PickedLight(s: Sched)
    requires Wf(s) && SomeRunnable(s.meta) && NeverPanics(s, 1)
    requires var s' := NextCall(s); s'.current.Some? && Light(s'.meta, s'.current.value)
    ensures ZeroCharge(NextCall(s), NextCall(s).current.value)
  {
    CallFrame(s);
    GoesOn(s);
    var s' := NextCall(s);
    MinVruntimeIsMin(s'.meta);
    hide Deadlines, Limit, Choice, MinVruntime, SumWeights, Charged, DeadlinesFit, ChargeFits;
    assert TimeSlice(s, s.lastTick + 1) == 1;
  }

  /** The backlog in front of thread `c`. */
  function Ahead(meta: seq<ThreadMeta>, c: nat): nat
    requires c < |meta|
  {
    Backlog(meta, c, Cap(meta, c), |meta|)
  }

  /** Charging another thread never lengthens it, and shortens it if that thread was below the cap and was charged anything. */
  lemma AheadCharge(meta: seq<ThreadMeta>, c: nat, p: nat, v: nat)
    requires c < |meta| && p < |meta| && p != c && meta[p].vruntime <= v
    ensures var meta' := meta[p := meta[p].(vruntime := v)];
      && Ahead(meta', c) <= Ahead(meta, c)
      && (Runnable(meta, p) && meta[p].vruntime < Cap(meta, c) && meta[p].vruntime < v ==> Ahead(meta', c) < Ahead(meta, c))
  {
    hide Backlog, SumWeights;
    SumWeightsUpdate(meta, p, meta[p].(vruntime := v));
    BacklogCharge(meta, c, Cap(meta, c), |meta|, p, v);
  }

  /** A runnable thread whose one-tick charge is positive and that stands below the cap of light thread `c`. */
  predicate HeavyBelow(s: Sched, c: nat)
    requires c < |s.meta|
  {
    && s.current.Some? && Runnable(s.meta, s.current.value) && !Light(s.meta, s.current.value)
    && s.meta[s.current.value].vruntime < Cap(s.meta, c)
  }

  /** The backlog in front of light thread `c` never grows, and falls when a thread that is not light was running. */
  lemma BacklogFalls(s: Sched, c: nat)
    requires Wf(s) && NeverPanics(s, 1) && Light(s.meta, c)
    ensures var s' := NextCall(s);
      && Light(s'.meta, c) && Ahead(s'.meta, c) <= Ahead(s.meta, c)
      && (HeavyBelow(s, c) ==> Ahead(s'.meta, c) < Ahead(s.meta, c))
  {
    assert Runnable(s.meta, c);
    CallFrame(s);
    if s.current.Some? && Runnable(s.meta, s.current.value) { OneTickCharge(s); }
    if s.current.Some? { ChargedOnly(s); }
    hide Tick, Ahead, SumWeights, Wf, NextCall, NeverPanics, Charged, Cap, Delta;
    assert s.current.None? ==> Charged(s, s.lastTick + 1) == s.meta by { ChargedNobody(s); }
    AheadStep(s.meta, NextCall(s).meta, c, s.current);
  }

  lemma ChargedNobody(s: Sched)
    ensures s.current.None? ==> Charged(s, s.lastTick + 1) == s.meta
  {
  }

  lemma AheadStep(meta: seq<ThreadMeta>, meta': seq<ThreadMeta>, c: nat, cur: Option<nat>)
    requires Light(meta, c) && |meta'| == |meta| && SumWeights(meta') == SumWeights(meta)
    requires cur.None? ==> meta' == meta
    requires cur.Some? ==> cur.value < |meta| && meta[cur.value].vruntime <= meta'[cur.value].vruntime
    requires cur.Some? ==> meta' == meta[cur.value := meta[cur.value].(vruntime := meta'[cur.value].vruntime)]
    requires cur.Some? && Runnable(meta, cur.value) ==> (Light(meta, cur.value) <==> meta'[cur.value].vruntime == meta[cur.value].vruntime)
    ensures Light(meta', c) && Ahead(meta', c) <= Ahead(meta, c)
    ensures cur.Some? && Runnable(meta, cur.value) && !Light(meta, cur.value) && meta[cur.value].vruntime < Cap(meta, c) ==>
      Ahead(meta', c) < Ahead(meta, c)
  {
    hide Ahead, SumWeights, Cap;
    if cur.Some? {
      if cur.value == c { assert meta' == meta; } else { AheadCharge(meta, c, cur.value, meta'[cur.value].vruntime); }
    }
  }

  lemma ChargedOnly(s: Sched)
    requires s.current.Some? && s.current.value < |s.meta|
    ensures var p, meta := s.current.value, Charged(s, s.lastTick + 1); meta == s.meta[p := s.meta[p].(vruntime := meta[p].vruntime)]
  {
    hide Delta, SumWeights;
  }

  /** Within one call more than the backlog in front of it, thread `c` or another light thread has the CPU. */
  lemma LightPicked(s: Sched, c: nat, n: nat) returns (k: nat)
    requires Wf(s) && NeverPanics(s, n) && Light(s.meta, c) && n >= Wait(s.meta, c)
    ensures 1 <= k <= Wait(s.meta, c)
    ensures var u := After(s, k); u.current.Some? && ZeroCharge(u, u.current.value)
  {
    hide Tick, Backlog, Wf, ZeroCharge, Light, NextCall;
    NextBelow(s, c);
    BacklogFalls(s, c);
    var s' := NextCall(s);
    if Light(s'.meta, s'.current.value) {
      PickedLight(s);
      k := 1;
      assert After(s, 1) == After(s', 0);
    } else {
      var j := HeavyRuns(s', c, n - 1);
      k := j + 1;
      assert After(s, k) == After(s', j);
    }
  }

  lemma SomeoneAhead(s: Sched, c: nat)
    requires Light(s.meta, c) && HeavyBelow(s, c)
    ensures Ahead(s.meta, c) >= 1
  {
    hide SumWeights;
    BacklogTerm(s.meta, c, Cap(s.meta, c), |s.meta|, s.current.value);
  }

  /** Whoever is picked stands below the cap of light thread `c`. */
  lemma NextBelow(s: Sched, c: nat)
    requires Wf(s) && NeverPanics(s, 1) && Light(s.meta, c)
    ensures var s' := NextCall(s);
      && SomeRunnable(s.meta) && Wf(s') && Light(s'.meta, c) && s'.current.Some?
      && (!Light(s'.meta, s'.current.value) ==> HeavyBelow(s', c))
  {
    assert Runnable(s.meta, c);
    CallFrame(s);
    BacklogFalls(s, c);
    hide Tick, SumWeights, Wf, NextCall, Backlog;
    assert Runnable(NextCall(s).meta, c);
  }

  lemma {:induction false} HeavyRuns(s: Sched, c: nat, n: nat) returns (k: nat)
    requires Wf(s) && NeverPanics(s, n) && Light(s.meta, c) && HeavyBelow(s, c) && n >= Ahead(s.meta, c)
    ensures 1 <= k <= Ahead(s.meta, c)
    ensures var u := After(s, k); u.current.Some? && ZeroCharge(u, u.current.value)
    decreases n
  {
    hide Tick, Ahead, Wf, ZeroCharge, Light, NextCall;
    SomeoneAhead(s, c);
    NextBelow(s, c);
    BacklogFalls(s, c);
    var s' := NextCall(s);
    if Light(s'.meta, s'.current.value) {
      PickedLight(s);
      k := 1;
      assert After(s, 1) == After(s', 0);
    } else {
      var j := HeavyRuns(s', c, n - 1);
      k := j + 1;
      assert After(s, k) == After(s', j);
    }
  }

  /** While one thread holds the CPU no other is picked. */
  lemma {:induction false} HeldNotPicked(s: Sched, c: nat, i: nat, n: nat)
    requires CurrentIn(s) && HoldsCpu(s, c, n) && NeverPanics(s, n) && i != c
    ensures !PickedIn(s, i, n)
    decreases n
  {
    hide Tick;
    if n > 0 { HeldNotPicked(NextCall(s), c, i, n - 1); }
  }

  // ---------------------------------------------------------------------------
  // The bounds in terms of the first state
  // ---------------------------------------------------------------------------

  /** What `k` calls keep, and how far they raise runnable vruntimes. */
  lemma {:induction false} AfterFrame(s: Sched, k: nat, n: nat)
    requires Wf(s) && SomeRunnable(s.meta) && NeverPanics(s, n) && k <= n
    ensures var u := After(s, k);
      && Wf(u) && |u.meta| == |s.meta| && SumWeights(u.meta) == SumWeights(s.meta) && u.lastTick == s.lastTick + k
      && NeverPanics(u, n - k) && u.lastTick + (n - k) <= U64_MAX
      && (forall i :: Runnable(u.meta, i) <==> Runnable(s.meta, i))
      && (forall i :: Runnable(s.meta, i) ==> u.meta[i].vruntime <= s.meta[i].vruntime + 1024 * k)
    decreases k
  {
    hide Tick, Wf, SumWeights, Charged;
    if k > 0 {
      assert NeverPanics(s, 1);
      CallFrame(s);
      if s.current.Some? && Runnable(s.meta, s.current.value) { OneTickCharge(s); }
      CallRaises(s);
      AfterFrame(NextCall(s), k - 1, n - 1);
    } else {
      TicksLeft(s, n);
    }
  }

  lemma CallRaises(s: Sched)
    requires Wf(s) && SomeRunnable(s.meta) && NeverPanics(s, 1)
    ensures |NextCall(s).meta| == |s.meta|
    ensures forall i :: Runnable(s.meta, i) ==> NextCall(s).meta[i].vruntime <= s.meta[i].vruntime + 1024
  {
    CallFrame(s);
    if s.current.Some? && Runnable(s.meta, s.current.value) { OneTickCharge(s); }
    hide Tick, Wf, SumWeights;
  }

  lemma {:induction false} TicksLeft(s: Sched, n: nat)
    requires Wf(s) && SomeRunnable(s.meta) && NeverPanics(s, n)
    ensures s.lastTick + n <= U64_MAX
    decreases n
  {
    hide Tick;
    if n > 0 {
      assert NeverPanics(s, 1);
      CallFrame(s);
      TicksLeft(NextCall(s), n - 1);
    }
  }

  lemma {:induction false} FairLater(s: Sched, k: nat, n: nat)
    requires FairRun(s, n) && k <= n
    ensures FairRun(After(s, k), n - k)
    decreases k
  {
    hide NextCall, WaitersPicked;
    if k > 0 { FairLater(NextCall(s), k - 1, n - 1); }
  }

  lemma {:induction false} BacklogAtMost(meta: seq<ThreadMeta>, i: nat, cap: nat, k: nat)
    requires k <= |meta|
    ensures Backlog(meta, i, cap, k) <= k * cap
  {
    if k > 0 {
      BacklogAtMost(meta, i, cap, k - 1);
      assert k * cap == (k - 1) * cap + cap;
    }
  }

  /** Bound on `Wait` when runnable vruntimes are at most `top`. */
  function LongestWait(threads: nat, sum: nat, top: nat): nat { 1 + threads * (top + sum + 1) }

  lemma WaitAtMost(meta: seq<ThreadMeta>, i: nat, top: nat)
    requires i < |meta| && meta[i].vruntime <= top
    ensures Wait(meta, i) <= LongestWait(|meta|, SumWeights(meta), top)
  {
    hide Backlog, SumWeights;
    BacklogAtMost(meta, i, Cap(meta, i), |meta|);
    Scale(|meta|, Cap(meta, i), top + SumWeights(meta) + 1);
  }

  lemma Scale(n: nat, a: nat, b: nat)
    requires a <= b
    ensures n * a <= n * b
  {
  }

  /** Long enough for a light thread to take the CPU and for another thread to wait beyond its bound. */
  function Horizon(threads: nat, sum: nat, top: nat): nat {
    var k := LongestWait(threads, sum, top);
    k + LongestWait(threads, sum, top + 1024 * k)
  }

  lemma {:induction false} OnlyRunnable(meta: seq<ThreadMeta>, c: nat)
    requires c < |meta| && forall i :: Runnable(meta, i) ==> i == c
    ensures SumWeights(meta) <= meta[c].weight
  {
    var init := meta[..|meta| - 1];
    if c < |meta| - 1 {
      forall i ensures Runnable(init, i) ==> Runnable(meta, i) {}
      assert !Runnable(meta, |meta| - 1);
      OnlyRunnable(init, c);
    } else {
      forall i ensures Runnable(init, i) ==> Runnable(meta, i) && i != c {}
      SumWeightsZero(init);
    }
  }

  lemma LightHasCompany(meta: seq<ThreadMeta>, c: nat) returns (i: nat)
    requires Light(meta, c)
    ensures Runnable(meta, i) && i != c
  {
    if forall j :: Runnable(meta, j) ==> j == c { OnlyRunnable(meta, c); }
    i :| Runnable(meta, i) && i != c;
  }

  lemma UnfairOtherwise(s: Sched, top: nat, n: nat, c: nat)
    requires Wf(s) && NeverPanics(s, n) && Light(s.meta, c)
    requires (forall i :: Runnable(s.meta, i) ==> s.meta[i].vruntime <= top) && n >= Horizon(|s.meta|, SumWeights(s.meta), top)
    ensures !FairRun(s, n)
  {
    hide Tick, Backlog, SumWeights, Wf, FairRun;
    assert Runnable(s.meta, c);
    WaitAtMost(s.meta, c, top);
    var k := LightPicked(s, c, n);
    AfterFrame(s, k, n);
    var u := After(s, k);
    var p := u.current.value;
    ZeroChargeStarvesOthers(u, p, n - k);
    ZeroIsLight(u, p);
    var i := LightHasCompany(u.meta, p);
    assert Runnable(s.meta, i);
    var k0 := LongestWait(|s.meta|, SumWeights(s.meta), top);
    WaitAtMost(u.meta, i, top + 1024 * k0);
    HeldNotPicked(u, p, i, n - k);
    assert !WaitersPicked(u, n - k);
    if FairRun(s, n) { FairLater(s, k, n); FairNow(u, n - k); }
  }

  lemma FairNow(s: Sched, n: nat)
    requires FairRun(s, n)
    ensures WaitersPicked(s, n)
  {
  }

  lemma ZeroIsLight(s: Sched, c: nat)
    requires ZeroCharge(s, c)
    ensures Light(s.meta, c) && CurrentIn(s) && s.current == Some(c)
  {
  }

  /**
   The exact condition: over a long enough run of calls one tick apart, every waiting runnable thread is
   picked within its bound from every point of the run if and only if no runnable weight is below a
   1024th of the sum.
   */
  lemma FairExactly(s: Sched, top: nat, n: nat)
    requires Wf(s) && SomeRunnable(s.meta) && NeverPanics(s, n)
    requires (forall i :: Runnable(s.meta, i) ==> s.meta[i].vruntime <= top) && n >= Horizon(|s.meta|, SumWeights(s.meta), top)
    ensures FairRun(s, n) <==> WeightsChargeable(s.meta)
  {
    hide FairRun, NeverPanics, SumWeights, Wf;
    if WeightsChargeable(s.meta) {
      FairIfChargeable(s, n);
    } else {
      var c :| Runnable(s.meta, c) && s.meta[c].weight * 1024 < SumWeights(s.meta);
      UnfairOtherwise(s, top, n, c);
    }
  }

  // ---------------------------------------------------------------------------
  // It does happen
  // ---------------------------------------------------------------------------

  /** Two threads, of weights 2048 and 1, just spawned. */
  function HeavyAndLight(): Sched { Spawn(Spawn(Empty, 0, 2048), 1, 1) }

  /** The two threads when the heavy one has been charged `v` and thread `cur` was picked at tick `t`. */
  function TwoThreads(v: nat, cur: Option<nat>, t: nat): Sched {
    Sched([0, 1], [ThreadMeta(v, 2048, false), ThreadMeta(0, 1, false)], cur, 0, t)
  }

  lemma TwoSums(v: nat, w: nat)
    ensures var meta := [ThreadMeta(v, 2048, false), ThreadMeta(w, 1, false)];
      SumWeights(meta) == 2049 && MinVruntime(meta) == Some(if v <= w then v else w)
  {
    var meta := [ThreadMeta(v, 2048, false), ThreadMeta(w, 1, false)];
    assert meta[..1] == [meta[0]] && [meta[0]][..0] == [];
    assert SumWeights([meta[0]]) == 2048 && MinVruntime([meta[0]]) == Some(v);
  }

  /** One call: the running thread is charged 1023 or nothing, and the heavy one is eligible up to 2049. */
  lemma TwoCall(v: nat, cur: Option<nat>, t: nat)
    requires v <= 4096 && t < U64_MAX && (cur == Some(0) || cur == Some(1) || (cur == None && v == 0))
    ensures var v' := if cur == Some(0) then v + 1023 else v;
      && !Tick(TwoThreads(v, cur, t), t + 1).Panic?
      && NextCall(TwoThreads(v, cur, t)) == TwoThreads(v', Some(if v' <= 2049 then 0 else 1), t + 1)
  {
    var s := TwoThreads(v, cur, t);
    var v' := if cur == Some(0) then v + 1023 else v;
    TwoSums(v, 0);
    TwoSums(v', 0);
    var meta := [ThreadMeta(v', 2048, false), ThreadMeta(0, 1, false)];
    TwoDeltas();
    hide SumWeights, MinVruntime;
    assert TimeSlice(s, t + 1) == 1;
    assert Charged(s, t + 1) == meta;
    hide Charged, Delta;
    TwoChoice(v');
  }

  lemma TwoDeltas()
    ensures Delta(1, 2048, 2049) == 1023 && Delta(1, 1, 2049) == 0
  {
  }

  lemma TwoChoice(v: nat)
    requires v <= 8192
    ensures var meta := [ThreadMeta(v, 2048, false), ThreadMeta(0, 1, false)];
      && Limit(meta, 0) == 2049 && DeadlinesFit(meta, 2049, 1, 2049)
      && Choice(meta, Deadlines(meta, 1, 2049), 2049) == Some(if v <= 2049 then 0 else 1)
  {
    var meta := [ThreadMeta(v, 2048, false), ThreadMeta(0, 1, false)];
    TwoSums(v, 0);
    hide SumWeights, MinVruntime;
    var d := Deadlines(meta, 1, 2049);
    assert d[0] == v + 1024 && d[1] == 2098176;
    assert Earliest(meta, d, 2049, 0) == None;
    assert Earliest(meta, d, 2049, 1) == if v <= 2049 then Some(0) else None;
  }

  /** No call of either thread overflows. */
  lemma {:induction false} TwoNeverPanic(v: nat, cur: Option<nat>, t: nat, n: nat)
    requires t + n <= U64_MAX && v <= 4096 && ((cur == Some(0) && v <= 2049) || cur == Some(1) || (cur == None && v == 0))
    ensures NeverPanics(TwoThreads(v, cur, t), n)
    decreases n
  {
    hide Tick, NextCall;
    if n > 0 {
      TwoCall(v, cur, t);
      var v' := if cur == Some(0) then v + 1023 else v;
      TwoNeverPanic(v', Some(if v' <= 2049 then 0 else 1), t + 1, n - 1);
    }
  }

  /** Once picked, the light thread keeps the CPU at every later call. */
  lemma {:induction false} LightKeeps(t: nat, n: nat)
    requires t + n <= U64_MAX
    ensures !PickedIn(TwoThreads(3069, Some(1), t), 0, n)
    decreases n
  {
    hide Tick, NextCall;
    if n > 0 {
      TwoCall(3069, Some(1), t);
      LightKeeps(t + 1, n - 1);
    }
  }

  lemma FourCalls()
    ensures After(TwoThreads(0, None, 0), 4) == TwoThreads(3069, Some(1), 4)
  {
    hide Tick, NextCall;
    TwoCall(0, None, 0);
    TwoCall(0, Some(0), 1);
    TwoCall(1023, Some(0), 2);
    TwoCall(2046, Some(0), 3);
    assert After(TwoThreads(2046, Some(0), 3), 1) == TwoThreads(3069, Some(1), 4);
    assert After(TwoThreads(1023, Some(0), 2), 2) == TwoThreads(3069, Some(1), 4);
    assert After(TwoThreads(0, Some(0), 1), 3) == TwoThreads(3069, Some(1), 4);
  }

  /**
   Weights 2048 and 1: after four calls the light thread has the CPU and from then on the heavy thread is
   never picked again, for as long as the tick counter lasts.
   */
  lemma HeavyStarves(n: nat)
    requires 4 <= n <= U64_MAX
    ensures NeverPanics(HeavyAndLight(), n) && !WeightsChargeable(HeavyAndLight().meta)
    ensures After(HeavyAndLight(), 4).current == Some(1) && !PickedIn(After(HeavyAndLight(), 4), 0, n - 4)
  {
    var s := HeavyAndLight();
    assert s == TwoThreads(0, None, 0);
    TwoSums(0, 0);
    assert Runnable(s.meta, 1) && s.meta[1].weight * 1024 < SumWeights(s.meta);
    hide Tick, SumWeights, NextCall, After, PickedIn, NeverPanics;
    TwoNeverPanic(0, None, 0, n);
    FourCalls();
    LightKeeps(4, n - 4);
  }
}
