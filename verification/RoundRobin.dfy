/**
 The round-robin scheduler of src/thread/schedulers/round_robin.rs, and the proof that
 EEVDF with equal weights behaves like it, exactly up to 1024 threads.
 */
module RoundRobin {
  import opened Wrappers
  import opened Eevdf
  import opened EevdfFairness

  function Next(current: Option<nat>, n: nat): (next: nat)
    requires n > 0
    ensures next < n
  {
    if current.None? then 0 else (current.value + 1) % n
  }

  class RoundRobinScheduler {
    var threads: seq<nat>
    var current: Option<nat>

    constructor ()
      ensures threads == [] && current == None
    {
      threads, current := [], None;
    }

    method Spawn(id: nat)
      modifies `threads
      ensures threads == old(threads) + [id]
    {
      threads := threads + [id];
    }

    method TickPrepare() returns (r: Option<(Slot, nat)>)
      modifies `current
      ensures threads == [] ==> r == None && current == old(current)
      ensures threads != [] ==>
        r == Some((SlotOf(old(current)), Next(old(current), |threads|))) && current == Some(r.value.1)
    {
      var n := |threads|;
      if n == 0 { return None; }
      var prev := current;
      var next := match prev case None => 0 case Some(i) => (i + 1) % n;
      current := Some(next);
      var from := match prev case None => Bootstrap case Some(p) => ThreadSlot(p);
      return Some((from, next));
    }
  }

  /** `n` threads of weight `w`, nothing run yet. */
  function Equal(n: nat, w: nat): Sched {
    Sched(seq(n, i => i), seq(n, _ => ThreadMeta(0, w, false)), None, 0, 0)
  }

  /** The next `k` EEVDF calls, one tick apart, return the slots that round robin returns. */
  ghost predicate Agree(e: Sched, rr: Option<nat>, tick: nat, k: nat)
    requires e.meta != [] && (e.current.Some? ==> e.current.value < |e.meta|)
    decreases k
  {
    k == 0 ||
    match Tick(e, tick)
    case Panic => true
    case Stay(_) => false
    case Go(e', from, to) =>
      && from == SlotOf(rr) && to == Next(rr, |e.meta|)
      && e'.meta != [] && (e'.current.Some? ==> e'.current.value < |e'.meta|)
      && Agree(e', Some(to), tick + 1, k - 1)
  }

  lemma {:induction false} SumWeightsEqual(meta: seq<ThreadMeta>, w: nat)
    requires forall i :: 0 <= i < |meta| ==> meta[i].weight == w && !meta[i].blocked
    ensures SumWeights(meta) == |meta| * w
  {
    if meta != [] {
      SumWeightsEqual(meta[..|meta| - 1], w);
      assert |meta| * w == (|meta| - 1) * w + w;
    }
  }

  /** Thread `r` runs; the threads before it have been charged `d` once more than the rest. */
  ghost predicate Lap(e: Sched, w: nat, sum: nat, base: nat, d: nat, r: nat) {
    && Wf(e) && r < |e.meta| && e.current == Some(r)
    && SumWeights(e.meta) == sum > 0
    && d == Delta(1, w, sum)
    && forall i :: 0 <= i < |e.meta| ==> e.meta[i] == ThreadMeta(base + (if i < r then d else 0), w, false)
  }

  /** With equal weights the earliest deadline is the least vruntime. */
  lemma EqualDeadlines(meta: seq<ThreadMeta>, slice: nat, sum: nat, w: nat)
    requires w > 0 && forall i :: 0 <= i < |meta| ==> meta[i].weight == w
    ensures var d := Deadlines(meta, slice, sum);
      forall i, j :: 0 <= i < |meta| && 0 <= j < |meta| ==> (d[i] <= d[j] <==> meta[i].vruntime <= meta[j].vruntime)
  {
  }

  lemma ChoosesLeast(meta: seq<ThreadMeta>, w: nat, old_: nat, slice: nat, x: nat)
    requires MetaOk(meta) && x < |meta|
    requires forall i :: 0 <= i < |meta| ==> meta[i].weight == w && !meta[i].blocked
    requires forall i :: 0 <= i < |meta| ==> meta[x].vruntime <= meta[i].vruntime
    requires forall i :: 0 <= i < x ==> meta[x].vruntime < meta[i].vruntime
    ensures Choice(meta, Deadlines(meta, slice, SumWeights(meta)), Limit(meta, NewMin(meta, old_))) == Some(x)
  {
    hide Deadlines, Choice, MinVruntime, SumWeights, Earliest;
    var d := Deadlines(meta, slice, SumWeights(meta));
    var limit := Limit(meta, NewMin(meta, old_));
    EqualDeadlines(meta, slice, SumWeights(meta), w);
    assert Runnable(meta, x);
    MinVruntimeIsMin(meta);
    assert Eligible(meta, x, limit);
    ChoiceIsEarliest(meta, d, old_);
    hide NewMin, Limit, Deadline;
    var c := Choice(meta, d, limit).value;
    assert d[c] <= d[x] && d[x] <= d[c];
  }

  lemma TickGoesTo(s: Sched, tick: nat, x: nat)
    requires Wf(s) && Tick(s, tick) != Panic && s.meta != []
    requires var meta := Charged(s, tick);
      Choice(meta, Deadlines(meta, TimeSlice(s, tick), SumWeights(meta)), Limit(meta, NewMin(meta, s.minV))) == Some(x)
    requires s.current.None? || tick > s.lastTick
    ensures Tick(s, tick) ==
      Go(Sched(s.ids, Charged(s, tick), Some(x), NewMin(Charged(s, tick), s.minV), tick), SlotOf(s.current), x)
  {
    hide Deadlines, Delta, Choice, Limit, NewMin, DeadlinesFit, SumWeights, Charged, ChargeFits;
  }

  /** After charging thread `r`, its successor is the first thread of least vruntime. */
  lemma LapCharged(e: Sched, w: nat, sum: nat, base: nat, d: nat, r: nat)
    requires Lap(e, w, sum, base, d, r) && Tick(e, e.lastTick + 1) != Panic
    ensures var meta := Charged(e, e.lastTick + 1);
      |meta| == |e.meta| && forall i :: 0 <= i < |meta| ==> meta[i] == ThreadMeta(base + (if i <= r then d else 0), w, false)
  {
    hide Tick, Delta;
    assert Runnable(e.meta, r);
    TickCharges(e, e.lastTick + 1);
    assert TimeSlice(e, e.lastTick + 1) == 1;
  }

  lemma LapStep(e: Sched, w: nat, sum: nat, base: nat, d: nat, r: nat)
    requires Lap(e, w, sum, base, d, r) && d > 0 && e.lastTick < U64_MAX
    ensures var x := (r + 1) % |e.meta|;
      match Tick(e, e.lastTick + 1)
      case Panic => true
      case Stay(_) => false
      case Go(e', from, to) =>
        && from == ThreadSlot(r) && to == x
        && |e'.meta| == |e.meta| && e'.lastTick == e.lastTick + 1
        && Lap(e', w, sum, if x == 0 then base + d else base, d, x)
  {
    hide Tick, Wf;
    NextIndex(r, |e.meta|);
    LapStepTo(e, w, sum, base, d, r, if r + 1 < |e.meta| then r + 1 else 0);
  }

  lemma NextIndex(r: nat, n: nat)
    requires r < n
    ensures (r + 1) % n == if r + 1 < n then r + 1 else 0
  {
  }

  lemma LapStepTo(e: Sched, w: nat, sum: nat, base: nat, d: nat, r: nat, x: nat)
    requires Lap(e, w, sum, base, d, r) && d > 0 && e.lastTick < U64_MAX && x == if r + 1 < |e.meta| then r + 1 else 0
    ensures match Tick(e, e.lastTick + 1)
      case Panic => true
      case Stay(_) => false
      case Go(e', from, to) =>
        && from == ThreadSlot(r) && to == x
        && |e'.meta| == |e.meta| && e'.lastTick == e.lastTick + 1
        && Lap(e', w, sum, if x == 0 then base + d else base, d, x)
  {
    hide Tick, Deadlines, Delta, Choice, Limit, NewMin, Charged, SumWeights;
    var tick := e.lastTick + 1;
    if Tick(e, tick) != Panic {
      TickFrame(e, tick);
      LapCharged(e, w, sum, base, d, r);
      ChoosesLeast(Charged(e, tick), w, e.minV, 1, x);
      TickGoesTo(e, tick, x);
    }
  }

  lemma {:induction false} LapsAgree(e: Sched, w: nat, sum: nat, base: nat, d: nat, r: nat, k: nat)
    requires Lap(e, w, sum, base, d, r) && d > 0 && e.lastTick + k <= U64_MAX
    ensures Agree(e, Some(r), e.lastTick + 1, k)
    decreases k
  {
    hide Tick, Delta;
    if k > 0 {
      LapStep(e, w, sum, base, d, r);
      match Tick(e, e.lastTick + 1)
      case Go(e', _, x) => LapsAgree(e', w, sum, if x == 0 then base + d else base, d, x, k - 1);
      case _ =>
    }
  }

  lemma FirstPick(n: nat, w: nat, sum: nat, tick: nat)
    requires n > 0 && 1 <= w <= U64_MAX && tick <= U64_MAX && sum == n * w
    ensures var e := Equal(n, w);
      && Wf(e) && sum > 0 && SumWeights(e.meta) == sum
      && match Tick(e, tick)
         case Panic => true
         case Stay(_) => false
         case Go(e', from, to) =>
           from == Bootstrap && to == 0 && Lap(e', w, sum, 0, Delta(1, w, sum), 0) && e'.lastTick == tick && |e'.meta| == n
  {
    hide Tick, Deadlines, Delta, Choice, Limit, NewMin;
    var e := Equal(n, w);
    SumWeightsEqual(e.meta, w);
    assert n * w >= w;
    assert Wf(e);
    if Tick(e, tick) != Panic {
      TickFrame(e, tick);
      ChoosesLeast(e.meta, w, 0, 1, 0);
      TickGoesTo(e, tick, 0);
    }
  }

  lemma ProductBounds(n: nat, w: nat)
    requires n > 0 && w > 0
    ensures w <= n * w
    ensures n <= 1024 <==> n * w <= w * 1024
  {
    if n <= 1024 { assert n * w <= 1024 * w; } else { assert n * w >= 1025 * w; }
  }

  /** Up to 1024 threads of one weight, every call returns round robin's slots. */
  lemma RefinesRoundRobin(n: nat, w: nat, tick: nat, k: nat)
    requires 0 < n <= 1024 && 1 <= w <= U64_MAX && tick + k <= U64_MAX
    ensures Agree(Equal(n, w), None, tick, k)
  {
    hide Tick, Delta;
    var sum := n * w;
    FirstPick(n, w, sum, tick);
    ProductBounds(n, w);
    DeltaPositive(1, w, sum);
    if k > 0 {
      match Tick(Equal(n, w), tick)
      case Go(e', _, _) => LapsAgree(e', w, sum, 0, Delta(1, w, sum), 0, k - 1);
      case _ =>
    }
  }

  /** The same without overflow: each of the next `k` calls switches, to round robin's slots. */
  ghost predicate Follows(e: Sched, rr: Option<nat>, tick: nat, k: nat)
    requires e.meta != [] && (e.current.Some? ==> e.current.value < |e.meta|)
    decreases k
  {
    k == 0 ||
    match Tick(e, tick)
    case Go(e', from, to) =>
      && from == SlotOf(rr) && to == Next(rr, |e.meta|)
      && e'.meta != [] && (e'.current.Some? ==> e'.current.value < |e'.meta|)
      && Follows(e', Some(to), tick + 1, k - 1)
    case _ => false
  }

  /** Threads of one weight below `top` do not overflow when there is room for one charge and one deadline. */
  lemma EqualFits(e: Sched, w: nat, sum: nat, tick: nat, top: nat)
    requires Wf(e) && e.meta != [] && SumWeights(e.meta) == sum && 1 <= w <= sum && top + 1024 + 1024 * sum <= U64_MAX
    requires forall i :: 0 <= i < |e.meta| ==> e.meta[i].weight == w && !e.meta[i].blocked && e.meta[i].vruntime <= top
    requires TimeSlice(e, tick) == 1
    ensures Tick(e, tick) != Panic
  {
    hide Choice, Limit, NewMin, Delta, SumWeights, DeadlineFits;
    DeltaAtMost(1, w, sum, 1);
    SumWeightsCharged(e, tick);
    assert 1 * w * 1024 <= 1024 * sum;
    var meta := Charged(e, tick);
    assert forall i :: 0 <= i < |meta| ==> meta[i].weight == w && meta[i].vruntime <= top + 1024;
    hide Charged;
    forall i | 0 <= i < |meta| ensures DeadlineFits(meta[i], 1, sum) {
      OneDeadlineFits(meta[i], sum, top + 1024);
    }
  }

  lemma OneDeadlineFits(m: ThreadMeta, sum: nat, top: nat)
    requires m.weight >= 1 && m.vruntime <= top && top + 1024 * sum <= U64_MAX
    ensures DeadlineFits(m, 1, sum)
  {
    assert 1 * sum * 1024 == 1024 * sum;
    DivSmall(1024 * sum, m.weight);
  }

  lemma DivSmall(a: nat, b: nat)
    requires b >= 1
    ensures a / b <= a
  {
    assert a * b == a * (b - 1) + a;
    DivBounds(a, b, a);
  }

  lemma {:induction false} LapsFollow(e: Sched, w: nat, sum: nat, base: nat, d: nat, r: nat, k: nat)
    requires Lap(e, w, sum, base, d, r) && 0 < d <= 1024 && e.lastTick + k <= U64_MAX && 1 <= w <= sum
    requires base + 1024 * (k + 1) + 1024 * sum <= U64_MAX
    ensures Follows(e, Some(r), e.lastTick + 1, k)
    decreases k
  {
    hide Tick, Delta, SumWeights;
    if k > 0 {
      EqualFits(e, w, sum, e.lastTick + 1, base + 1024);
      LapStep(e, w, sum, base, d, r);
      match Tick(e, e.lastTick + 1)
      case Go(e', _, x) => LapsFollow(e', w, sum, if x == 0 then base + d else base, d, x, k - 1);
      case _ =>
    }
  }

  /** Under one product bound nothing overflows, so every one of the `k` calls is round robin's. */
  lemma FollowsRoundRobin(n: nat, w: nat, tick: nat, k: nat)
    requires 0 < n <= 1024 && 1 <= w && tick + k <= U64_MAX && 1024 * (n * w) + 1024 * (k + 1) <= U64_MAX
    ensures Follows(Equal(n, w), None, tick, k)
  {
    hide Tick, Delta, SumWeights;
    var sum := n * w;
    ProductBounds(n, w);
    FirstPick(n, w, sum, tick);
    DeltaPositive(1, w, sum);
    DeltaAtMost(1, w, sum, 1);
    if k > 0 {
      EqualFits(Equal(n, w), w, sum, tick, 0);
      match Tick(Equal(n, w), tick)
      case Go(e', _, _) => LapsFollow(e', w, sum, 0, Delta(1, w, sum), 0, k - 1);
      case _ =>
    }
  }

  lemma ZeroDelta(w: nat, sum: nat)
    requires w * 1024 < sum
    ensures Delta(1, w, sum) == 0
  {
    assert 1 * w * 1024 == w * 1024;
    DivBounds(w * 1024, sum, 0);
  }

  /** Nothing overflows in the first two calls. */
  lemma FirstCallsFit(e: Sched, w: nat, sum: nat, tick: nat)
    requires Wf(e) && e.meta != [] && SumWeights(e.meta) == sum && sum * 1024 <= U64_MAX && w <= sum
    requires forall i :: 0 <= i < |e.meta| ==> e.meta[i] == ThreadMeta(0, w, false)
    requires TimeSlice(e, tick) == 1
    requires e.current.Some? ==> Delta(1, w, sum) == 0
    ensures Tick(e, tick) != Panic && Charged(e, tick) == e.meta
  {
    hide Choice, Limit, NewMin;
    assert 1 * sum * 1024 == sum * 1024;
    assert Charged(e, tick) == e.meta;
    DivBounds(sum * 1024, w, sum * 1024);
    assert forall i :: 0 <= i < |e.meta| ==> DeadlineFits(e.meta[i], 1, sum);
  }

  /** Beyond 1024 threads the one-tick charge is zero and the second call already differs. */
  lemma LeavesRoundRobin(n: nat, w: nat, tick: nat)
    requires n > 1024 && 1 <= w && n * w * 1024 <= U64_MAX && tick < U64_MAX
    ensures !Agree(Equal(n, w), None, tick, 2)
  {
    hide Tick, Choice, Limit, NewMin, Deadlines, Charged, Delta;
    var e := Equal(n, w);
    var sum := n * w;
    ProductBounds(n, w);
    FirstPick(n, w, sum, tick);
    ZeroDelta(w, sum);
    FirstCallsFit(e, w, sum, tick);
    var e' := Tick(e, tick).next;
    FirstCallsFit(e', w, sum, tick + 1);
    ChoosesLeast(e'.meta, w, e'.minV, 1, 0);
    TickGoesTo(e', tick + 1, 0);
  }
}
