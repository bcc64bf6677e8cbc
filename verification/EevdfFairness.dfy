/**
 Bounds over whole runs of `tick_prepare`: how long a runnable thread can wait, how
 far runnable vruntimes spread, and when the charge rounds to nothing.
 */
module EevdfFairness {
  import opened Wrappers
  import opened Eevdf

  // ---------------------------------------------------------------------------
  // The charge
  // ---------------------------------------------------------------------------

  lemma DivBounds(a: nat, b: nat, k: nat)
    requires 0 < b
    ensures b <= a ==> a / b >= 1
    ensures a < b ==> a / b == 0
    ensures a <= k * b ==> a / b <= k
  {
    assert a == b * (a / b) + a % b;
    if a / b > k {
      assert b * (a / b) >= b * (k + 1);
    }
  }

  /** The charge is at least one when the weight is not below a 1024th of the sum. */
  lemma DeltaPositive(slice: nat, weight: nat, sum: nat)
    requires slice >= 1 && 0 < sum <= weight * 1024
    ensures Delta(slice, weight, sum) >= 1
  {
    assert slice * weight * 1024 == slice * (weight * 1024);
    assert slice * (weight * 1024) >= weight * 1024;
    DivBounds(slice * weight * 1024, sum, 0);
  }

  lemma DeltaAtMost(slice: nat, weight: nat, sum: nat, most: nat)
    requires slice <= most && 0 < sum && weight <= sum
    ensures Delta(slice, weight, sum) <= 1024 * most
  {
    assert slice * weight <= most * sum by {
      assert slice * weight <= most * weight <= most * sum;
    }
    assert (1024 * most) * sum == (most * sum) * 1024;
    DivBounds(slice * weight * 1024, sum, 1024 * most);
  }

  lemma FloorOfSum(x: nat, y: nat, m: nat)
    requires m > 0
    ensures x / m <= (x + y) / m
    ensures x / m < (x + y) / m <==> x % m + y >= m
  {
    var q, r := x / m, x % m;
    assert x == m * q + r;
    var q', r' := (x + y) / m, (x + y) % m;
    assert x + y == m * q' + r';
    FloorStep(q, q', r, r', y, m);
  }

  /** Of two quotients by `m` whose numbers differ by `y`. */
  lemma FloorStep(q: nat, q': nat, r: nat, r': nat, y: nat, m: nat)
    requires m > 0 && r < m && r' < m && m * q + r + y == m * q' + r'
    ensures q <= q' && (q < q' <==> r + y >= m)
  {
    assert q' < q ==> m * q' + m <= m * q by { if q' < q { Multiples(m, q' + 1, q); } }
    assert q < q' ==> m * q + m <= m * q' by { if q < q' { Multiples(m, q + 1, q'); } }
  }

  lemma Multiples(m: nat, a: nat, b: nat)
    requires a <= b
    ensures m * a <= m * b
  {
  }

  /**
   The charge never falls with the weight, and grows from weight `v` to weight `w` exactly when the difference
   carries the product over the next multiple of the sum.
   */
  lemma ChargeGrowsWithWeight(slice: nat, v: nat, w: nat, sum: nat)
    requires sum > 0 && v <= w
    ensures Delta(slice, v, sum) <= Delta(slice, w, sum)
    ensures Delta(slice, v, sum) < Delta(slice, w, sum) <==> (slice * v * 1024) % sum + slice * (w - v) * 1024 >= sum
  {
    assert slice * w * 1024 == slice * v * 1024 + slice * (w - v) * 1024 by { assert slice * w == slice * v + slice * (w - v); }
    FloorOfSum(slice * v * 1024, slice * (w - v) * 1024, sum);
  }

  /** In any state: had the heavier of two runnable threads been running, its vruntime would have grown at least as much. */
  lemma HeavierGrowsFaster(s: Sched, i: nat, j: nat, tick: nat)
    requires Wf(s) && Runnable(s.meta, i) && Runnable(s.meta, j) && s.meta[i].weight <= s.meta[j].weight
    ensures var (a, b) := (Charged(s.(current := Some(i)), tick), Charged(s.(current := Some(j)), tick));
      a[i].vruntime - s.meta[i].vruntime <= b[j].vruntime - s.meta[j].vruntime
  {
    SumWeightsAtLeast(s.meta, i);
    ChargeGrowsWithWeight(TimeSlice(s.(current := Some(i)), tick), s.meta[i].weight, s.meta[j].weight, SumWeights(s.meta));
    hide Delta, SumWeights;
  }

  /** One tick of a thread of the default weight, and of one twice as heavy beside it. */
  lemma DoubleWeightDoubleCharge()
    ensures Delta(1, DEFAULT_WEIGHT, 3 * DEFAULT_WEIGHT) == 341 && Delta(1, 2 * DEFAULT_WEIGHT, 3 * DEFAULT_WEIGHT) == 682
  {
  }

  // ---------------------------------------------------------------------------
  // One call
  // ---------------------------------------------------------------------------

  /** What a call leaves alone, and where the new current thread stood when it was picked. */
  lemma TickFrame(s: Sched, tick: nat)
    requires Wf(s) && tick <= U64_MAX && Tick(s, tick) != Panic
    ensures var s' := Tick(s, tick).next;
      && Wf(s') && s'.ids == s.ids && |s'.meta| == |s.meta|
      && s'.meta == Charged(s, tick)
      && SumWeights(s'.meta) == SumWeights(s.meta)
      && (forall i :: Runnable(s'.meta, i) <==> Runnable(s.meta, i))
      && (SomeRunnable(s.meta) ==>
            && s'.current.Some? && Runnable(s'.meta, s'.current.value)
            && (forall j :: Runnable(s'.meta, j) ==> s'.minV <= s'.meta[j].vruntime)
            && (exists j :: Runnable(s'.meta, j) && s'.minV == s'.meta[j].vruntime)
            && s'.meta[s'.current.value].vruntime <= s'.minV + SumWeights(s.meta))
  {
    var s' := Tick(s, tick).next;
    if s.meta != [] {
      ChargedKeepsRunnable(s, tick);
      SumWeightsCharged(s, tick);
      ChargedFits(s, tick);
      TickSelects(s, tick);
      MinVruntimeIsMin(s'.meta);
      assert s'.minV <= U64_MAX;
      if SomeRunnable(s.meta) {
        var d, limit :| SelectsFrom(s, tick, s'.meta, d, limit) && IsEarliest(s'.meta, d, limit, s'.current.value);
        SumWeightsAtLeast(s.meta, s'.current.value);
      }
    }
  }

  /** Nobody but the previous thread is charged, and it gains the full delta. */
  lemma TickCharges(s: Sched, tick: nat)
    requires Wf(s) && s.current.Some? && Runnable(s.meta, s.current.value) && Tick(s, tick) != Panic
    ensures var p := s.current.value;
      && SumWeights(s.meta) > 0
      && Charged(s, tick) == s.meta[p := s.meta[p].(vruntime :=
           s.meta[p].vruntime + Delta(TimeSlice(s, tick), s.meta[p].weight, SumWeights(s.meta)))]
  {
    SumWeightsAtLeast(s.meta, s.current.value);
  }

  // ---------------------------------------------------------------------------
  // Starvation bound
  // ---------------------------------------------------------------------------

  predicate TicksOk(ticks: seq<nat>) {
    forall k :: 0 <= k < |ticks| ==> ticks[k] <= U64_MAX
  }

  /** No call of the run overflows. */
  ghost predicate NoPanic(s: Sched, ticks: seq<nat>)
    requires s.current.Some? ==> s.current.value < |s.meta|
    decreases |ticks|
  {
    ticks == [] ||
    (&& Tick(s, ticks[0]) != Panic
     && var s' := Tick(s, ticks[0]).next;
        && (s'.current.Some? ==> s'.current.value < |s'.meta|)
        && NoPanic(s', ticks[1..]))
  }

  /** Some call of the run leaves thread `i` on the CPU. */
  ghost predicate PickedWithin(s: Sched, i: nat, ticks: seq<nat>)
    requires s.current.Some? ==> s.current.value < |s.meta|
    requires NoPanic(s, ticks)
    decreases |ticks|
  {
    && ticks != []
    && var s' := Tick(s, ticks[0]).next;
       s'.current == Some(i) || PickedWithin(s', i, ticks[1..])
  }

  /** How far runnable threads other than `i`, below index `k`, must still run to reach `cap`. */
  function Backlog(meta: seq<ThreadMeta>, i: nat, cap: nat, k: nat): nat
    requires k <= |meta|
  {
    if k == 0 then 0
    else Backlog(meta, i, cap, k - 1) +
         (if k - 1 == i || meta[k - 1].blocked then 0 else SatSub(cap, meta[k - 1].vruntime))
  }

  lemma {:induction false} BacklogTerm(meta: seq<ThreadMeta>, i: nat, cap: nat, k: nat, p: nat)
    requires k <= |meta| && p < k && p != i && Runnable(meta, p)
    ensures Backlog(meta, i, cap, k) >= SatSub(cap, meta[p].vruntime)
  {
    if p < k - 1 { BacklogTerm(meta, i, cap, k - 1, p); }
  }

  /** Charging a thread below the cap shortens the backlog; charging any thread never lengthens it. */
  lemma {:induction false} BacklogCharge(meta: seq<ThreadMeta>, i: nat, cap: nat, k: nat, p: nat, v: nat)
    requires k <= |meta| && p < |meta| && p != i && meta[p].vruntime <= v
    ensures var meta' := meta[p := meta[p].(vruntime := v)];
      && Backlog(meta', i, cap, k) <= Backlog(meta, i, cap, k)
      && (p < k && Runnable(meta, p) && meta[p].vruntime < cap && meta[p].vruntime < v ==>
            Backlog(meta', i, cap, k) < Backlog(meta, i, cap, k))
  {
    if k > 0 { BacklogCharge(meta, i, cap, k - 1, p, v); }
  }

  ghost predicate WeightsChargeable(meta: seq<ThreadMeta>) {
    forall j :: Runnable(meta, j) ==> meta[j].weight * 1024 >= SumWeights(meta)
  }

  function Cap(meta: seq<ThreadMeta>, i: nat): nat
    requires i < |meta|
  {
    meta[i].vruntime + SumWeights(meta) + 1
  }

  /**
   A waiting runnable thread is on the CPU after at most one call more than the backlog
   ahead of it, whatever the ticks are, when no runnable weight is below a 1024th of the sum.
   */
  lemma StarvationBound(s: Sched, i: nat, ticks: seq<nat>)
    requires Wf(s) && Runnable(s.meta, i) && s.current != Some(i)
    requires WeightsChargeable(s.meta)
    requires TicksOk(ticks) && NoPanic(s, ticks)
    requires |ticks| >= 1 + Backlog(s.meta, i, Cap(s.meta, i), |s.meta|)
    ensures PickedWithin(s, i, ticks)
  {
    hide Tick, Delta, SumWeights, Backlog;
    var s' := Tick(s, ticks[0]).next;
    TickFrame(s, ticks[0]);
    if s.current.Some? {
      var p := s.current.value;
      BacklogCharge(s.meta, i, Cap(s.meta, i), |s.meta|, p, s'.meta[p].vruntime);
      assert s'.meta == s.meta[p := s.meta[p].(vruntime := s'.meta[p].vruntime)];
    }
    if s'.current != Some(i) {
      assert Runnable(s'.meta, i);
      WeightsKept(s, s');
      StarvationStep(s', i, ticks[1..]);
    }
  }

  lemma WeightsKept(s: Sched, s': Sched)
    requires |s.meta| == |s'.meta| && WeightsChargeable(s.meta)
    requires SumWeights(s'.meta) == SumWeights(s.meta)
    requires forall i :: 0 <= i < |s.meta| ==> s'.meta[i].weight == s.meta[i].weight && s'.meta[i].blocked == s.meta[i].blocked
    ensures WeightsChargeable(s'.meta)
  {
    forall j | Runnable(s'.meta, j) ensures s'.meta[j].weight * 1024 >= SumWeights(s'.meta) {
      assert Runnable(s.meta, j);
    }
  }

  lemma {:induction false} StarvationStep(s: Sched, i: nat, ticks: seq<nat>)
    requires Wf(s) && Runnable(s.meta, i) && s.current.Some? && s.current != Some(i)
    requires Runnable(s.meta, s.current.value) && s.meta[s.current.value].vruntime < Cap(s.meta, i)
    requires WeightsChargeable(s.meta)
    requires TicksOk(ticks) && NoPanic(s, ticks)
    requires |ticks| >= Backlog(s.meta, i, Cap(s.meta, i), |s.meta|)
    ensures PickedWithin(s, i, ticks)
    decreases |ticks|
  {
    hide Tick, Delta, SumWeights, Backlog;
    var p := s.current.value;
    var cap := Cap(s.meta, i);
    BacklogTerm(s.meta, i, cap, |s.meta|, p);
    var s' := Tick(s, ticks[0]).next;
    TickFrame(s, ticks[0]);
    TickCharges(s, ticks[0]);
    DeltaPositive(TimeSlice(s, ticks[0]), s.meta[p].weight, SumWeights(s.meta));
    BacklogCharge(s.meta, i, cap, |s.meta|, p, s'.meta[p].vruntime);
    if s'.current != Some(i) {
      assert Runnable(s'.meta, i);
      WeightsKept(s, s');
      StarvationStep(s', i, ticks[1..]);
    }
  }

  // ---------------------------------------------------------------------------
  // When the charge rounds to zero
  // ---------------------------------------------------------------------------

  /** `n` calls, one tick apart, starting one tick after the last switch. */
  ghost predicate HoldsCpu(s: Sched, c: nat, n: nat)
    requires s.current.Some? ==> s.current.value < |s.meta|
    decreases n
  {
    n == 0 ||
    (Tick(s, s.lastTick + 1) != Panic ==>
       var s' := Tick(s, s.lastTick + 1).next;
       && s'.current == Some(c) && c < |s'.meta|
       && HoldsCpu(s', c, n - 1))
  }

  /** Thread `c` is on the CPU, its one-tick charge rounds to zero, and it is the earliest eligible thread. */
  ghost predicate ZeroCharge(s: Sched, c: nat) {
    && Wf(s) && s.current == Some(c) && Runnable(s.meta, c)
    && s.meta[c].weight * 1024 < SumWeights(s.meta)
    && s.minV == NewMin(s.meta, s.minV)
    && Choice(s.meta, Deadlines(s.meta, 1, SumWeights(s.meta)), Limit(s.meta, s.minV)) == Some(c)
  }

  lemma ZeroChargeStep(s: Sched, c: nat)
    requires ZeroCharge(s, c) && Tick(s, s.lastTick + 1) != Panic
    ensures Tick(s, s.lastTick + 1).next == s.(lastTick := s.lastTick + 1)
  {
    hide Deadlines, Limit, Choice, NewMin;
    TickCharges(s, s.lastTick + 1);
    DivBounds(s.meta[c].weight * 1024, SumWeights(s.meta), 0);
    assert 1 * s.meta[c].weight * 1024 == s.meta[c].weight * 1024;
    assert Charged(s, s.lastTick + 1) == s.meta;
  }

  /**
   The weight condition of `StarvationBound` cannot be dropped: a thread whose one-tick charge
   rounds to zero and that is picked once is picked at every later one-tick call, for ever.
   */
  lemma {:induction false} ZeroChargeStarvesOthers(s: Sched, c: nat, n: nat)
    requires ZeroCharge(s, c)
    requires s.lastTick + n <= U64_MAX
    ensures HoldsCpu(s, c, n)
    decreases n
  {
    hide Tick, Choice, NewMin;
    if n > 0 && Tick(s, s.lastTick + 1) != Panic {
      ZeroChargeStep(s, c);
      ZeroChargeStarvesOthers(s.(lastTick := s.lastTick + 1), c, n - 1);
    }
  }

  // ---------------------------------------------------------------------------
  // Spread of vruntimes
  // ---------------------------------------------------------------------------

  /** No call of the run charges more than `most` ticks. */
  ghost predicate SlicesAtMost(s: Sched, ticks: seq<nat>, most: nat)
    requires s.current.Some? ==> s.current.value < |s.meta|
    requires NoPanic(s, ticks)
    decreases |ticks|
  {
    ticks == [] ||
    (&& TimeSlice(s, ticks[0]) <= most
     && SlicesAtMost(Tick(s, ticks[0]).next, ticks[1..], most))
  }

  ghost predicate SpreadAtMost(meta: seq<ThreadMeta>, most: nat) {
    forall i, j :: Runnable(meta, i) && Runnable(meta, j) ==>
      meta[i].vruntime <= meta[j].vruntime + SumWeights(meta) + 1024 * most
  }

  /** The thread on the CPU was within the lag tolerance of every runnable thread when picked. */
  ghost predicate CurrentWithinLag(s: Sched) {
    s.current.Some? ==>
      && Runnable(s.meta, s.current.value)
      && forall j :: Runnable(s.meta, j) ==> s.meta[s.current.value].vruntime <= s.meta[j].vruntime + SumWeights(s.meta)
  }

  ghost predicate MinIsLow(s: Sched) {
    forall j :: Runnable(s.meta, j) ==> s.minV <= s.meta[j].vruntime
  }

  lemma SpreadStep(s: Sched, tick: nat, most: nat)
    requires Wf(s) && tick <= U64_MAX && SomeRunnable(s.meta) && Tick(s, tick) != Panic
    requires TimeSlice(s, tick) <= most
    requires SpreadAtMost(s.meta, most) && CurrentWithinLag(s) && MinIsLow(s)
    ensures var s' := Tick(s, tick).next;
      && SpreadAtMost(s'.meta, most) && CurrentWithinLag(s') && MinIsLow(s')
      && s.minV <= s'.minV
  {
    hide Tick, Delta, TimeSlice;
    var s' := Tick(s, tick).next;
    TickFrame(s, tick);
    if s.current.Some? {
      var p := s.current.value;
      TickCharges(s, tick);
      SumWeightsAtLeast(s.meta, p);
      DeltaAtMost(TimeSlice(s, tick), s.meta[p].weight, SumWeights(s.meta), most);
    }
    forall i, j | Runnable(s'.meta, i) && Runnable(s'.meta, j)
      ensures s'.meta[i].vruntime <= s'.meta[j].vruntime + SumWeights(s'.meta) + 1024 * most
    {
      assert Runnable(s.meta, i) && Runnable(s.meta, j);
    }
    var j :| Runnable(s'.meta, j) && s'.minV == s'.meta[j].vruntime;
    assert Runnable(s.meta, j);
  }

  /** The least runnable vruntime recorded never decreases along the run. */
  ghost predicate MinGrows(s: Sched, ticks: seq<nat>)
    requires s.current.Some? ==> s.current.value < |s.meta|
    requires NoPanic(s, ticks)
    decreases |ticks|
  {
    ticks == [] ||
    (&& s.minV <= Tick(s, ticks[0]).next.minV
     && MinGrows(Tick(s, ticks[0]).next, ticks[1..]))
  }

  ghost predicate SpreadHolds(s: Sched, ticks: seq<nat>, most: nat)
    requires s.current.Some? ==> s.current.value < |s.meta|
    requires NoPanic(s, ticks)
    decreases |ticks|
  {
    && SpreadAtMost(s.meta, most)
    && (ticks == [] || SpreadHolds(Tick(s, ticks[0]).next, ticks[1..], most))
  }

  /** Nothing has run yet; any set of threads may be blocked. */
  ghost predicate Fresh(s: Sched) {
    s.current.None? && s.minV == 0 && forall i :: 0 <= i < |s.meta| ==> s.meta[i].vruntime == 0
  }

  /**
   From a fresh state, at every point of every run whose slices are at most `most`, runnable
   vruntimes differ by at most the sum of the runnable weights plus 1024 slices, and the
   recorded minimum never decreases.
   */
  lemma SpreadBound(s: Sched, ticks: seq<nat>, most: nat)
    requires Wf(s) && Fresh(s) && SomeRunnable(s.meta)
    requires TicksOk(ticks) && NoPanic(s, ticks) && SlicesAtMost(s, ticks, most)
    ensures SpreadHolds(s, ticks, most) && MinGrows(s, ticks)
  {
    SpreadRun(s, ticks, most);
  }

  lemma {:induction false} SpreadRun(s: Sched, ticks: seq<nat>, most: nat)
    requires Wf(s) && SomeRunnable(s.meta)
    requires TicksOk(ticks) && NoPanic(s, ticks) && SlicesAtMost(s, ticks, most)
    requires SpreadAtMost(s.meta, most) && CurrentWithinLag(s) && MinIsLow(s)
    ensures SpreadHolds(s, ticks, most) && MinGrows(s, ticks)
    decreases |ticks|
  {
    hide Tick;
    if ticks != [] {
      SpreadStep(s, ticks[0], most);
      TickFrame(s, ticks[0]);
      var s' := Tick(s, ticks[0]).next;
      var i :| Runnable(s.meta, i);
      assert Runnable(s'.meta, i);
      SpreadRun(s', ticks[1..], most);
    }
  }
}
