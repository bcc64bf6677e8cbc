/** The scheduler object of src/thread/schedulers/eevdf.rs, each method proved against its specification in `Eevdf`. */
module Scheduling {
  import opened Wrappers
  import opened Eevdf
  import EevdfFairness
  import EevdfLedger

  /** What a caller of `tick_prepare` gets back. */
  datatype Prepared = Panicked | NoSwitch | SwitchTo(from: Slot, to: nat)

  function Answer(r: Result): Prepared {
    match r
    case Panic => Panicked
    case Stay(_) => NoSwitch
    case Go(_, from, to) => SwitchTo(from, to)
  }

  // ---------------------------------------------------------------------------
  // The iterator chains of `tick_prepare`
  // ---------------------------------------------------------------------------

  lemma {:induction false} PrefixWeight(meta: seq<ThreadMeta>, i: nat)
    requires i <= |meta|
    ensures SumWeights(meta[..i]) <= SumWeights(meta)
    decreases |meta| - i
  {
    if i == |meta| {
      assert meta[..i] == meta;
    } else {
      PrefixWeight(meta, i + 1);
      assert meta[..i + 1][..i] == meta[..i];
    }
  }

  /** The sum of the weights that are not blocked, or None when it overflows. */
  method RunnableWeight(meta: seq<ThreadMeta>) returns (sum: Option<nat>)
    ensures sum == if SumWeights(meta) <= U64_MAX then Some(SumWeights(meta)) else None
  {
    var total := 0;
    for i := 0 to |meta|
      invariant total == SumWeights(meta[..i]) <= U64_MAX
    {
      assert meta[..i + 1][..i] == meta[..i];
      if !meta[i].blocked {
        PrefixWeight(meta, i + 1);
        if total + meta[i].weight > U64_MAX { return None; }
        total := total + meta[i].weight;
      }
    }
    assert meta[..|meta|] == meta;
    sum := Some(total);
  }

  /** The least vruntime that is not blocked, or `old_` when there is none. */
  method LeastVruntime(meta: seq<ThreadMeta>, old_: nat) returns (m: nat)
    ensures m == NewMin(meta, old_)
  {
    var least: Option<nat> := None;
    for i := 0 to |meta|
      invariant least == MinVruntime(meta[..i])
    {
      assert meta[..i + 1][..i] == meta[..i];
      if !meta[i].blocked && (least.None? || meta[i].vruntime < least.value) { least := Some(meta[i].vruntime); }
    }
    assert meta[..|meta|] == meta;
    m := if least.Some? then least.value else old_;
  }

  method DivideCharge(slice: nat, weight: nat, sum: nat) returns (delta: nat)
    requires sum > 0
    ensures delta == Delta(slice, weight, sum)
  {
    delta := (slice * weight * 1024) / sum;
  }

  lemma Rounds(x: nat, w: nat)
    requires w > 0
    ensures w * (x / w) <= x < w * (x / w + 1)
  {
    assert x == w * (x / w) + x % w;
  }

  /** `virtual_deadline`, or None when it overflows. */
  method VirtualDeadline(m: ThreadMeta, slice: nat, sum: nat) returns (d: Option<nat>)
    ensures d.Some? <==> DeadlineFits(m, slice, sum)
    ensures d.Some? ==> d.value == Deadline(m, slice, sum)
    ensures d.Some? && m.weight > 0 ==>
      m.vruntime <= d.value && m.weight * (d.value - m.vruntime) <= slice * sum * 1024 < m.weight * (d.value - m.vruntime + 1)
  {
    if m.weight == 0 { return Some(U64_MAX); }
    if slice * sum * 1024 > U64_MAX { return None; }
    var deadline := m.vruntime + (slice * sum * 1024) / m.weight;
    Rounds(slice * sum * 1024, m.weight);
    d := if deadline > U64_MAX then None else Some(deadline);
  }

  /** Deadlines are compared, so computed, only once two of the first `n` threads are eligible. */
  ghost predicate Compared(meta: seq<ThreadMeta>, limit: nat, slice: nat, sum: nat, n: nat)
    requires n <= |meta|
  {
    (exists i, j :: 0 <= i < j < n && Eligible(meta, i, limit) && Eligible(meta, j, limit)) ==>
      forall i :: 0 <= i < n && Eligible(meta, i, limit) ==> DeadlineFits(meta[i], slice, sum)
  }

  /** The filter and `min_by`: the first eligible thread of least deadline; false on an overflow. */
  method FindEarliest(meta: seq<ThreadMeta>, limit: nat, slice: nat, sum: nat) returns (ok: bool, best: Option<nat>)
    ensures ok <==> DeadlinesFit(meta, limit, slice, sum)
    ensures ok ==> best == Earliest(meta, Deadlines(meta, slice, sum), limit, |meta|)
  {
    hide Deadline, DeadlineFits, Eligible;
    best := None;
    ghost var d := Deadlines(meta, slice, sum);
    for i := 0 to |meta|
      invariant best == Earliest(meta, d, limit, i) && Compared(meta, limit, slice, sum, i)
    {
      EarliestIsFirstMin(meta, d, limit, i);
      if !meta[i].blocked && meta[i].vruntime <= limit {
        EligibleAt(meta, i, limit);
        if best.None? {
          best := Some(i);
        } else {
          var mine := VirtualDeadline(meta[best.value], slice, sum);
          if mine.None? { return false, None; }
          var other := VirtualDeadline(meta[i], slice, sum);
          if other.None? { return false, None; }
          if mine.value > other.value { best := Some(i); }
        }
      } else {
        EligibleAt(meta, i, limit);
      }
    }
    ok := true;
  }

  lemma EligibleAt(meta: seq<ThreadMeta>, i: nat, limit: nat)
    requires i < |meta|
    ensures Eligible(meta, i, limit) <==> !meta[i].blocked && meta[i].vruntime <= limit
  {
  }

  /** The fallback search. */
  method FindRunnable(meta: seq<ThreadMeta>) returns (r: Option<nat>)
    ensures r == FirstRunnable(meta, 0)
  {
    for i := 0 to |meta|
      invariant FirstRunnable(meta, 0) == FirstRunnable(meta, i)
    {
      if !meta[i].blocked { return Some(i); }
    }
    r := None;
  }

  lemma ChoiceUnfolds(meta: seq<ThreadMeta>, d: seq<nat>, limit: nat)
    requires |d| == |meta|
    ensures Choice(meta, d, limit) ==
      var best := Earliest(meta, d, limit, |meta|); if best.Some? then best else FirstRunnable(meta, 0)
  {
  }

  class EevdfScheduler {
    var ids: seq<nat>
    var metadata: seq<ThreadMeta>
    var current: Option<nat>
    var minVruntime: nat
    var lastSwitchTick: nat

    ghost function View(): Sched
      reads this
    {
      Sched(ids, metadata, current, minVruntime, lastSwitchTick)
    }

    ghost predicate Valid()
      reads this
    {
      Wf(View())
    }

    constructor ()
      ensures Valid() && View() == Empty
    {
      ids, metadata, current, minVruntime, lastSwitchTick := [], [], None, 0, 0;
    }

    method Spawn(id: nat)
      requires Valid() && id !in ids
      modifies this
      ensures Valid() && View() == Eevdf.Spawn(old(View()), id, 1024)
      ensures ids == old(ids) + [id] && metadata == old(metadata) + [ThreadMeta(0, 1024, false)]
      ensures current == old(current) && minVruntime == old(minVruntime) && lastSwitchTick == old(lastSwitchTick)
    {
      ids := ids + [id];
      metadata := metadata + [ThreadMeta(0, DEFAULT_WEIGHT, false)];
    }

    method SpawnWithWeight(id: nat, weight: nat)
      requires Valid() && id !in ids && weight <= U64_MAX
      modifies this
      ensures Valid() && View() == Eevdf.Spawn(old(View()), id, weight)
      ensures ids == old(ids) + [id] && metadata == old(metadata) + [ThreadMeta(0, if weight == 0 then 1 else weight, false)]
      ensures current == old(current) && minVruntime == old(minVruntime) && lastSwitchTick == old(lastSwitchTick)
    {
      ids := ids + [id];
      var meta := ThreadMeta(0, DEFAULT_WEIGHT, false);
      meta := meta.(weight := Max(weight, 1));
      metadata := metadata + [meta];
    }

    method CurrentThreadId() returns (id: Option<nat>)
      requires Valid()
      ensures current.None? <==> id.None?
      ensures id.Some? ==> ids[current.value] == id.value
    {
      id := if current.None? then None else Some(ids[current.value]);
    }

    /** Exactly the thread with that id becomes runnable; every other thread is left alone. */
    method UnblockThread(id: nat)
      requires Valid()
      modifies this
      ensures Valid() && View() == Unblock(old(View()), id)
      ensures |metadata| == |old(metadata)|
      ensures forall i :: 0 <= i < |metadata| ==>
        metadata[i] == if ids[i] == id then old(metadata)[i].(blocked := false) else old(metadata)[i]
    {
      EevdfLedger.UnblockClears(View(), id, 0);
      var i := 0;
      while i < |ids|
        invariant 0 <= i <= |ids| == |metadata|
        invariant View() == old(View())
        invariant Unblock(View(), id) == Unblock(View(), id, i)
        invariant forall j :: 0 <= j < i ==> ids[j] != id
      {
        if ids[i] == id {
          metadata := metadata[i := metadata[i].(blocked := false)];
          return;
        }
        i := i + 1;
      }
    }

    method TickPrepare(tick: nat) returns (r: Prepared)
      requires Valid() && tick <= U64_MAX
      modifies this
      ensures r == Answer(Tick(old(View()), tick))
      ensures r != Panicked ==> Valid() && View() == Tick(old(View()), tick).next
    {
      hide Delta, Charged, Choice, Deadlines, DeadlinesFit, NewMin, SumWeights;
      if metadata == [] { return NoSwitch; }
      ghost var before := View();
      if Tick(before, tick) != Panic { EevdfFairness.TickFrame(before, tick); }
      SumWeightsCharged(before, tick);

      var slice := if current.Some? then Max(SatSub(tick, lastSwitchTick), MIN_TIME_SLICE) else MIN_TIME_SLICE;

      var charged := Charge(slice, tick);
      if !charged { return Panicked; }

      minVruntime := LeastVruntime(metadata, minVruntime);
      var sum := RunnableWeight(metadata);
      if sum.None? { return Panicked; }
      var limit := SatAdd(minVruntime, Max(sum.value, 1));
      var fits, next := FindEarliest(metadata, limit, slice, sum.value);
      if !fits { return Panicked; }
      if next.None? { next := FindRunnable(metadata); }
      ChoiceUnfolds(metadata, Deadlines(metadata, slice, sum.value), limit);
      if next.None? { return NoSwitch; }

      var prev := current;
      if prev == next {
        if tick != 0 {
          if SatSub(tick, lastSwitchTick) < MIN_TIME_SLICE { return NoSwitch; }
        }
      }
      current := next;
      lastSwitchTick := tick;
      return SwitchTo(SlotOf(prev), next.value);
    }

    /** Charges the thread being switched away from; false on an overflow. */
    method Charge(slice: nat, tick: nat) returns (ok: bool)
      requires Valid() && slice == TimeSlice(View(), tick)
      modifies `metadata
      ensures ok ==> metadata == Charged(old(View()), tick)
      ensures ok && current.Some? ==> ChargeFits(old(View()), tick)
      ensures !ok ==> !ChargeFits(old(View()), tick)
      ensures current.None? ==> ok
    {
      hide SumWeights, Delta;
      if current.Some? {
        var prev := current.value;
        var sum := RunnableWeight(metadata);
        if sum.None? { return false; }
        if sum.value > 0 {
          var weight := metadata[prev].weight;
          if slice * weight * 1024 > U64_MAX { return false; }
          var delta := DivideCharge(slice, weight, sum.value);
          var vruntime := metadata[prev].vruntime + delta;
          if vruntime > U64_MAX { return false; }
          metadata := metadata[prev := metadata[prev].(vruntime := vruntime)];
        }
      }
      ok := true;
    }

    method BlockCurrentAndPrepareSwitch(tick: nat) returns (r: Prepared)
      requires Valid() && tick <= U64_MAX
      modifies this
      ensures r == Answer(Block(old(View()), tick))
      ensures r != Panicked ==> Valid() && View() == Block(old(View()), tick).next
    {
      hide Tick;
      if current.Some? {
        metadata := metadata[current.value := metadata[current.value].(blocked := true)];
      }
      r := TickPrepare(tick);
    }
  }
}
