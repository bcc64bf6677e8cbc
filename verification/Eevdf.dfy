/**
 The EEVDF scheduler of src/thread/schedulers/eevdf.rs.

 `Tick` and `Block` are the specification of `tick_prepare` and
 `block_current_and_prepare_switch` on values; module `Scheduling` carries the
 same operations out on mutable fields. Arithmetic is unsigned 64-bit with the
 overflow checks of a development build: an operation that would overflow gives
 the outcome `Panic`.
 */
module Eevdf {
  import opened Wrappers

  const U64_MAX: nat := 0xFFFF_FFFF_FFFF_FFFF
  const DEFAULT_WEIGHT: nat := 1024
  const MIN_TIME_SLICE: nat := 1

  datatype ThreadMeta = ThreadMeta(vruntime: nat, weight: nat, blocked: bool)

  /** Where a context is saved: the bootstrap slot or the slot of a thread. */
  datatype Slot = Bootstrap | ThreadSlot(index: nat)

  datatype Sched = Sched(ids: seq<nat>, meta: seq<ThreadMeta>, current: Option<nat>, minV: nat, lastTick: nat)

  /** `Stay` is the source's `None`; the bookkeeping may still have changed. */
  datatype Result = Panic | Stay(next: Sched) | Go(next: Sched, from: Slot, to: nat)

  const Empty := Sched([], [], None, 0, 0)

  ghost predicate Distinct(ids: seq<nat>) {
    forall i, j :: 0 <= i < j < |ids| ==> ids[i] != ids[j]
  }

  ghost predicate MetaOk(meta: seq<ThreadMeta>) {
    forall i :: 0 <= i < |meta| ==> meta[i].vruntime <= U64_MAX && 1 <= meta[i].weight <= U64_MAX
  }

  /** What every reachable scheduler state satisfies (see `StepKeepsWf`). */
  ghost predicate Wf(s: Sched) {
    && |s.ids| == |s.meta|
    && MetaOk(s.meta)
    && (s.current.Some? ==> s.current.value < |s.meta|)
    && s.minV <= U64_MAX
    && s.lastTick <= U64_MAX
    && Distinct(s.ids)
  }

  predicate Runnable(meta: seq<ThreadMeta>, i: int) {
    0 <= i < |meta| && !meta[i].blocked
  }

  ghost predicate SomeRunnable(meta: seq<ThreadMeta>) {
    exists i :: Runnable(meta, i)
  }

  function SatSub(a: nat, b: nat): nat { if a < b then 0 else a - b }
  function SatAdd(a: nat, b: nat): nat { if a + b > U64_MAX then U64_MAX else a + b }
  function Max(a: nat, b: nat): nat { if a < b then b else a }

  /** Sum of the weights of the runnable threads. */
  function SumWeights(meta: seq<ThreadMeta>): nat {
    if meta == [] then 0
    else
      var last := meta[|meta| - 1];
      SumWeights(meta[..|meta| - 1]) + (if last.blocked then 0 else last.weight)
  }

  /** Least vruntime of the runnable threads. */
  function MinVruntime(meta: seq<ThreadMeta>): Option<nat> {
    if meta == [] then None
    else
      var rest := MinVruntime(meta[..|meta| - 1]);
      var last := meta[|meta| - 1];
      if last.blocked then rest
      else if rest.Some? && rest.value <= last.vruntime then rest
      else Some(last.vruntime)
  }

  function Deadline(m: ThreadMeta, slice: nat, sum: nat): nat {
    if m.weight == 0 then U64_MAX else m.vruntime + (slice * sum * 1024) / m.weight
  }

  function Deadlines(meta: seq<ThreadMeta>, slice: nat, sum: nat): (d: seq<nat>)
    ensures |d| == |meta|
    ensures forall i :: 0 <= i < |meta| ==> d[i] == Deadline(meta[i], slice, sum)
  {
    seq(|meta|, i requires 0 <= i < |meta| => Deadline(meta[i], slice, sum))
  }

  predicate DeadlineFits(m: ThreadMeta, slice: nat, sum: nat) {
    m.weight == 0 || (slice * sum * 1024 <= U64_MAX && Deadline(m, slice, sum) <= U64_MAX)
  }

  predicate Eligible(meta: seq<ThreadMeta>, i: int, limit: nat) {
    Runnable(meta, i) && meta[i].vruntime <= limit
  }

  /** `min_by` over the eligible threads below index `k`: the first of the least deadlines `d`. */
  function Earliest(meta: seq<ThreadMeta>, d: seq<nat>, limit: nat, k: nat): (r: Option<nat>)
    requires k <= |meta| == |d|
    ensures r.Some? ==> r.value < k && Eligible(meta, r.value, limit)
  {
    if k == 0 then None
    else
      var best := Earliest(meta, d, limit, k - 1);
      if !Eligible(meta, k - 1, limit) then best
      else if best.Some? && d[best.value] <= d[k - 1] then best
      else Some(k - 1)
  }

  /** The fallback search: the first runnable thread at or after index `k`. */
  function FirstRunnable(meta: seq<ThreadMeta>, k: nat): Option<nat>
    requires k <= |meta|
    decreases |meta| - k
  {
    if k == |meta| then None
    else if !meta[k].blocked then Some(k)
    else FirstRunnable(meta, k + 1)
  }

  function Choice(meta: seq<ThreadMeta>, d: seq<nat>, limit: nat): Option<nat>
    requires |meta| == |d|
  {
    var best := Earliest(meta, d, limit, |meta|);
    if best.Some? then best else FirstRunnable(meta, 0)
  }

  /** Least runnable vruntime plus the lag tolerance: the vruntime up to which threads are eligible. */
  function Limit(meta: seq<ThreadMeta>, minV: nat): nat {
    SatAdd(minV, Max(SumWeights(meta), 1))
  }

  /** Comparing deadlines happens only when two threads are eligible. */
  predicate DeadlinesFit(meta: seq<ThreadMeta>, limit: nat, slice: nat, sum: nat) {
    (exists i, j :: 0 <= i < j < |meta| && Eligible(meta, i, limit) && Eligible(meta, j, limit)) ==>
      forall i :: 0 <= i < |meta| && Eligible(meta, i, limit) ==> DeadlineFits(meta[i], slice, sum)
  }

  function TimeSlice(s: Sched, tick: nat): nat {
    if s.current.Some? then Max(SatSub(tick, s.lastTick), MIN_TIME_SLICE) else MIN_TIME_SLICE
  }

  /** The increase of vruntime for `slice` ticks at `weight` among runnable weights `sum`. */
  function Delta(slice: nat, weight: nat, sum: nat): nat
    requires sum > 0
  {
    (slice * weight * 1024) / sum
  }

  /** The metadata after the thread being switched away from has been charged. */
  function Charged(s: Sched, tick: nat): (meta: seq<ThreadMeta>)
    requires s.current.Some? ==> s.current.value < |s.meta|
    ensures |meta| == |s.meta|
    ensures forall i :: 0 <= i < |meta| ==>
      meta[i].weight == s.meta[i].weight && meta[i].blocked == s.meta[i].blocked && s.meta[i].vruntime <= meta[i].vruntime
    ensures forall i :: 0 <= i < |meta| && s.current != Some(i) ==> meta[i] == s.meta[i]
  {
    var sum := SumWeights(s.meta);
    if s.current.None? || sum == 0 then s.meta
    else
      var p := s.current.value;
      var m := s.meta[p];
      s.meta[p := m.(vruntime := m.vruntime + Delta(TimeSlice(s, tick), m.weight, sum))]
  }

  predicate ChargeFits(s: Sched, tick: nat)
    requires s.current.Some? ==> s.current.value < |s.meta|
  {
    && SumWeights(s.meta) <= U64_MAX
    && (s.current.Some? && SumWeights(s.meta) > 0 ==>
          && TimeSlice(s, tick) * s.meta[s.current.value].weight * 1024 <= U64_MAX
          && Charged(s, tick)[s.current.value].vruntime <= U64_MAX)
  }

  function NewMin(meta: seq<ThreadMeta>, old_: nat): nat {
    var m := MinVruntime(meta);
    if m.Some? then m.value else old_
  }

  function SlotOf(current: Option<nat>): Slot {
    if current.Some? then ThreadSlot(current.value) else Bootstrap
  }

  /** `tick_prepare`. */
  function Tick(s: Sched, tick: nat): Result
    requires s.current.Some? ==> s.current.value < |s.meta|
  {
    if s.meta == [] then Stay(s)
    else if !ChargeFits(s, tick) then Panic
    else
      var slice := TimeSlice(s, tick);
      var meta := Charged(s, tick);
      var minV := NewMin(meta, s.minV);
      var sum := SumWeights(meta);
      if !DeadlinesFit(meta, Limit(meta, minV), slice, sum) then Panic
      else
        var next := Choice(meta, Deadlines(meta, slice, sum), Limit(meta, minV));
        var s' := s.(meta := meta, minV := minV);
        if next.None? then Stay(s')
        else if s.current == next && tick != 0 && SatSub(tick, s.lastTick) < MIN_TIME_SLICE then Stay(s')
        else Go(s'.(current := next, lastTick := tick), SlotOf(s.current), next.value)
  }

  function BlockCurrent(s: Sched): Sched
    requires s.current.Some? ==> s.current.value < |s.meta|
  {
    if s.current.None? then s
    else s.(meta := s.meta[s.current.value := s.meta[s.current.value].(blocked := true)])
  }

  /** `block_current_and_prepare_switch`. */
  function Block(s: Sched, tick: nat): Result
    requires s.current.Some? ==> s.current.value < |s.meta|
  {
    Tick(BlockCurrent(s), tick)
  }

  /** `unblock_thread`: the first thread with that id becomes runnable; an unknown id changes nothing. */
  function Unblock(s: Sched, id: nat, k: nat := 0): Sched
    requires |s.ids| == |s.meta| && k <= |s.ids|
    decreases |s.ids| - k
  {
    if k == |s.ids| then s
    else if s.ids[k] == id then s.(meta := s.meta[k := s.meta[k].(blocked := false)])
    else Unblock(s, id, k + 1)
  }

  function Spawn(s: Sched, id: nat, weight: nat): Sched {
    s.(ids := s.ids + [id], meta := s.meta + [ThreadMeta(0, Max(weight, 1), false)])
  }

  // ---------------------------------------------------------------------------
  // Sums and minima
  // ---------------------------------------------------------------------------

  lemma {:induction false} SumWeightsUpdate(meta: seq<ThreadMeta>, i: nat, m: ThreadMeta)
    requires i < |meta| && m.weight == meta[i].weight && m.blocked == meta[i].blocked
    ensures SumWeights(meta[i := m]) == SumWeights(meta)
  {
    var n := |meta| - 1;
    if i < n {
      SumWeightsUpdate(meta[..n], i, m);
      assert meta[i := m][..n] == meta[..n][i := m];
    } else {
      assert meta[i := m][..n] == meta[..n];
    }
  }

  lemma SumWeightsCharged(s: Sched, tick: nat)
    requires s.current.Some? ==> s.current.value < |s.meta|
    ensures SumWeights(Charged(s, tick)) == SumWeights(s.meta)
  {
    if s.current.Some? && SumWeights(s.meta) != 0 {
      SumWeightsUpdate(s.meta, s.current.value, Charged(s, tick)[s.current.value]);
    }
  }

  lemma {:induction false} SumWeightsAtLeast(meta: seq<ThreadMeta>, i: nat)
    requires Runnable(meta, i)
    ensures meta[i].weight <= SumWeights(meta)
  {
    var n := |meta| - 1;
    if i < n {
      SumWeightsAtLeast(meta[..n], i);
    }
  }

  lemma {:induction false} SumWeightsZero(meta: seq<ThreadMeta>)
    requires !SomeRunnable(meta)
    ensures SumWeights(meta) == 0
  {
    if meta != [] {
      var n := |meta| - 1;
      forall i ensures Runnable(meta[..n], i) ==> Runnable(meta, i) {}
      SumWeightsZero(meta[..n]);
      assert !Runnable(meta, n);
    }
  }

  lemma {:induction false} MinVruntimeIsMin(meta: seq<ThreadMeta>)
    ensures MinVruntime(meta).Some? <==> SomeRunnable(meta)
    ensures MinVruntime(meta).Some? ==>
      && (exists i :: Runnable(meta, i) && meta[i].vruntime == MinVruntime(meta).value)
      && forall i :: Runnable(meta, i) ==> MinVruntime(meta).value <= meta[i].vruntime
  {
    if meta != [] {
      var n := |meta| - 1;
      var init := meta[..n];
      MinVruntimeIsMin(init);
      forall i | Runnable(meta, i) ensures i == n || (Runnable(init, i) && init[i] == meta[i]) {}
      forall i | Runnable(init, i) ensures Runnable(meta, i) && init[i] == meta[i] {}
      assert Runnable(meta, n) <==> !meta[n].blocked;
    }
  }

  lemma {:induction false} EarliestIsFirstMin(meta: seq<ThreadMeta>, d: seq<nat>, limit: nat, k: nat)
    requires k <= |meta| == |d|
    ensures var r := Earliest(meta, d, limit, k);
      && (r.None? ==> forall i :: 0 <= i < k ==> !Eligible(meta, i, limit))
      && (r.Some? ==>
           && (forall i :: 0 <= i < k && Eligible(meta, i, limit) ==> d[r.value] <= d[i])
           && (forall i :: 0 <= i < r.value && Eligible(meta, i, limit) ==> d[r.value] < d[i]))
  {
    if k > 0 {
      EarliestIsFirstMin(meta, d, limit, k - 1);
    }
  }

  lemma {:induction false} FirstRunnableFinds(meta: seq<ThreadMeta>, k: nat)
    requires k <= |meta|
    ensures var r := FirstRunnable(meta, k);
      && (r.None? ==> forall i :: k <= i < |meta| ==> meta[i].blocked)
      && (r.Some? ==> k <= r.value && Runnable(meta, r.value))
    decreases |meta| - k
  {
    if k < |meta| && meta[k].blocked {
      FirstRunnableFinds(meta, k + 1);
    }
  }

  // ---------------------------------------------------------------------------
  // Selection
  // ---------------------------------------------------------------------------

  /** The state `tick_prepare` selects from. */
  ghost predicate SelectsFrom(s: Sched, tick: nat, meta: seq<ThreadMeta>, d: seq<nat>, limit: nat)
    requires s.current.Some? ==> s.current.value < |s.meta|
  {
    && meta == Charged(s, tick)
    && limit == Limit(meta, NewMin(meta, s.minV))
    && d == Deadlines(meta, TimeSlice(s, tick), SumWeights(meta))
  }

  /** The lowest-index eligible thread of earliest deadline. */
  ghost predicate IsEarliest(meta: seq<ThreadMeta>, d: seq<nat>, limit: nat, i: nat)
    requires |d| == |meta|
  {
    && Eligible(meta, i, limit)
    && (forall j :: Eligible(meta, j, limit) ==> d[i] <= d[j])
    && (forall j :: j < i && Eligible(meta, j, limit) ==> d[i] < d[j])
  }

  lemma ChargedKeepsRunnable(s: Sched, tick: nat)
    requires s.current.Some? ==> s.current.value < |s.meta|
    ensures forall i :: Runnable(Charged(s, tick), i) <==> Runnable(s.meta, i)
    ensures SomeRunnable(Charged(s, tick)) <==> SomeRunnable(s.meta)
  {
    if i :| Runnable(s.meta, i) { assert Runnable(Charged(s, tick), i); }
  }

  /** Some thread is eligible whenever some thread is runnable, so the fallback search never supplies the choice. */
  lemma ChoiceIsEarliest(meta: seq<ThreadMeta>, d: seq<nat>, old_: nat)
    requires |d| == |meta|
    requires forall i :: 0 <= i < |meta| ==> meta[i].vruntime <= U64_MAX
    ensures var limit := Limit(meta, NewMin(meta, old_));
      var r := Choice(meta, d, limit);
      && (SomeRunnable(meta) <==> exists i :: Eligible(meta, i, limit))
      && (r.Some? <==> SomeRunnable(meta))
      && (r.Some? ==> IsEarliest(meta, d, limit, r.value) && Earliest(meta, d, limit, |meta|) == r)
  {
    var limit := Limit(meta, NewMin(meta, old_));
    MinVruntimeIsMin(meta);
    EarliestIsFirstMin(meta, d, limit, |meta|);
    FirstRunnableFinds(meta, 0);
    if SomeRunnable(meta) {
      var i :| Runnable(meta, i) && meta[i].vruntime == MinVruntime(meta).value;
      assert Eligible(meta, i, limit);
    }
    if i :| Eligible(meta, i, limit) { assert Runnable(meta, i); }
  }

  /** Every non-panicking `tick_prepare` keeps or moves `current` to the earliest eligible thread. */
  lemma TickSelects(s: Sched, tick: nat)
    requires Wf(s)
    ensures var r := Tick(s, tick);
      match r
      case Panic => s.meta != []
      case Stay(s') =>
        && s'.current == s.current && s'.lastTick == s.lastTick
        && (SomeRunnable(s.meta) ==>
              && s.current.Some?
              && tick != 0 && tick <= s.lastTick
              && (exists d, limit :: SelectsFrom(s, tick, s'.meta, d, limit)
                    && IsEarliest(s'.meta, d, limit, s.current.value)))
      case Go(s', from, to) =>
        && from == SlotOf(s.current) && s'.current == Some(to) && s'.lastTick == tick
        && (exists d, limit :: SelectsFrom(s, tick, s'.meta, d, limit)
              && IsEarliest(s'.meta, d, limit, to))
  {
    if s.meta != [] && Tick(s, tick) != Panic {
      var meta := Charged(s, tick);
      var slice := TimeSlice(s, tick);
      ChargedKeepsRunnable(s, tick);
      ChargedFits(s, tick);
      var d := Deadlines(meta, slice, SumWeights(meta));
      ChoiceIsEarliest(meta, d, s.minV);
      assert SelectsFrom(s, tick, meta, d, Limit(meta, NewMin(meta, s.minV)));
    }
  }

  lemma ChargedFits(s: Sched, tick: nat)
    requires Wf(s) && ChargeFits(s, tick)
    ensures MetaOk(Charged(s, tick))
  {
  }

  /** Blocking: no switch exactly when nothing else can run; otherwise the two slots differ. */
  lemma BlockSwitchesAway(s: Sched, tick: nat)
    requires Wf(s) && s.current.Some?
    ensures var others := exists i :: Runnable(s.meta, i) && i != s.current.value;
      match Block(s, tick)
      case Panic => others
      case Stay(s') => !others && s' == BlockCurrent(s)
      case Go(s', from, to) =>
        && others
        && from == ThreadSlot(s.current.value) && from != ThreadSlot(to)
        && Runnable(s.meta, to)
        && s'.current == Some(to)
        && s'.meta[s.current.value].blocked
        && forall i :: 0 <= i < |s.meta| && i != s.current.value ==> s'.meta[i] == s.meta[i]
  {
    var b := BlockCurrent(s);
    assert Wf(b);
    var c := s.current.value;
    forall i ensures Runnable(b.meta, i) <==> (Runnable(s.meta, i) && i != c) {}
    if i :| Runnable(s.meta, i) && i != c { assert Runnable(b.meta, i); }
    TickSelects(b, tick);
    ChargedKeepsRunnable(b, tick);
    if !SomeRunnable(b.meta) {
      SumWeightsZero(b.meta);
      AllBlockedStays(b, tick);
    }
  }

  lemma AllBlockedStays(s: Sched, tick: nat)
    requires Wf(s) && !SomeRunnable(s.meta)
    ensures Tick(s, tick) == Stay(s)
  {
    SumWeightsZero(s.meta);
    MinVruntimeIsMin(s.meta);
    ChoiceIsEarliest(s.meta, Deadlines(s.meta, TimeSlice(s, tick), 0), s.minV);
    assert Charged(s, tick) == s.meta;
    forall i, l ensures Eligible(s.meta, i, l) ==> Runnable(s.meta, i) {}
  }
}
