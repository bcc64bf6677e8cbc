/**
 What the numbers of `tick_prepare` mean, apart from how they are computed: deadlines and charges by their bounds,
 eligibility by distance from the slowest thread, when a call keeps the current thread, and, for two threads of
 any weights, exactly how long the first one keeps the CPU.
 */
module EevdfLaws {
  import opened Wrappers
  import opened Eevdf
  import opened EevdfFairness
  import opened EevdfStarvation

  lemma QuotientBounds(x: nat, w: nat)
    requires w > 0
    ensures w * (x / w) <= x < w * (x / w + 1)
  {
    assert x == w * (x / w) + x % w;
  }

  /** A deadline lies past the vruntime by the slice scaled with 1024 times the sum over the weight, rounded down. */
  lemma DeadlineExactly(m: ThreadMeta, slice: nat, sum: nat)
    requires m.weight > 0
    ensures var ahead := Deadline(m, slice, sum) - m.vruntime;
      ahead >= 0 && m.weight * ahead <= slice * sum * 1024 < m.weight * (ahead + 1)
  {
    var x := slice * sum * 1024;
    QuotientBounds(x, m.weight);
    assert Deadline(m, slice, sum) - m.vruntime == x / m.weight;
  }

  /** A charge is the slice scaled with 1024 times the weight over the sum, rounded down. */
  lemma ChargeExactly(s: Sched, tick: nat)
    requires Wf(s) && s.current.Some? && Runnable(s.meta, s.current.value)
    ensures var p, slice := s.current.value, (if tick > s.lastTick + 1 then tick - s.lastTick else 1);
      var gain := Charged(s, tick)[p].vruntime - s.meta[p].vruntime;
      gain >= 0 && SumWeights(s.meta) * gain <= slice * s.meta[p].weight * 1024 < SumWeights(s.meta) * (gain + 1)
  {
    var p := s.current.value;
    SumWeightsAtLeast(s.meta, p);
    QuotientBounds(TimeSlice(s, tick) * s.meta[p].weight * 1024, SumWeights(s.meta));
  }

  /** A runnable thread is eligible exactly when it is no further than the sum of weights ahead of every runnable thread. */
  lemma EligibleExactly(meta: seq<ThreadMeta>, old_: nat, i: nat)
    requires MetaOk(meta) && Runnable(meta, i)
    ensures Eligible(meta, i, Limit(meta, NewMin(meta, old_))) <==>
      forall j :: Runnable(meta, j) ==> meta[i].vruntime <= meta[j].vruntime + SumWeights(meta)
  {
    MinVruntimeIsMin(meta);
    SumWeightsAtLeast(meta, i);
    hide SumWeights, MinVruntime;
    var j :| Runnable(meta, j) && meta[j].vruntime == MinVruntime(meta).value;
  }

  /** A call makes no switch exactly when nothing can run, or when the choice is the current thread and no tick has passed. */
  lemma StaysExactly(s: Sched, tick: nat)
    requires Wf(s) && !Tick(s, tick).Panic?
    ensures Tick(s, tick).Stay? <==>
      || !SomeRunnable(s.meta)
      || (&& s.current.Some? && 0 < tick <= s.lastTick
          && exists d, limit :: SelectsFrom(s, tick, Charged(s, tick), d, limit) && IsEarliest(Charged(s, tick), d, limit, s.current.value))
  {
    if s.meta == [] { assert forall i :: !Runnable(s.meta, i); }
    else { StayCases(s, tick); }
  }

  lemma StayCases(s: Sched, tick: nat)
    requires Wf(s) && !Tick(s, tick).Panic? && s.meta != []
    ensures Tick(s, tick).Stay? <==>
      || !SomeRunnable(s.meta)
      || (&& s.current.Some? && 0 < tick <= s.lastTick
          && exists d, limit :: SelectsFrom(s, tick, Charged(s, tick), d, limit) && IsEarliest(Charged(s, tick), d, limit, s.current.value))
  {
    var meta := Charged(s, tick);
    var d, limit := Deadlines(meta, TimeSlice(s, tick), SumWeights(meta)), Limit(meta, NewMin(meta, s.minV));
    ChargedKeepsRunnable(s, tick);
    ChargedFits(s, tick);
    ChoiceIsEarliest(meta, d, s.minV);
    hide Choice, Deadlines, Limit, NewMin, SumWeights, Charged, DeadlinesFit, ChargeFits, Wf, Earliest;
    assert SelectsFrom(s, tick, meta, d, limit);
    if s.current.Some? && IsEarliest(meta, d, limit, s.current.value) && SomeRunnable(s.meta) {
      OneEarliest(meta, d, limit, s.current.value, Choice(meta, d, limit).value);
    }
  }

  lemma OneEarliest(meta: seq<ThreadMeta>, d: seq<nat>, limit: nat, i: nat, j: nat)
    requires |d| == |meta| && IsEarliest(meta, d, limit, i) && IsEarliest(meta, d, limit, j)
    ensures i == j
  {
  }

  // ---------------------------------------------------------------------------
  // Two threads
  // ---------------------------------------------------------------------------

  /** What `n` charges of `c` add up to. */
  function Spent(n: nat, c: nat): nat { n * c }

  /** One tick of the first thread costs it this much vruntime. */
  function Cost(w0: nat, w1: nat): nat
    requires w0 + w1 > 0
  {
    (w0 * 1024) / (w0 + w1)
  }

  /** How far ahead of its vruntime the deadline of a thread of weight `w` lies. */
  function Ahead(w: nat, sum: nat): nat
    requires w > 0
  {
    (sum * 1024) / w
  }

  /** How far the first thread may run ahead: to the lag tolerance, and to the deadline of the second. */
  function Slack(w0: nat, w1: nat): nat
    requires w0 > 0 && w1 > 0
  {
    var lead := Eevdf.SatSub(Ahead(w1, w0 + w1), Ahead(w0, w0 + w1));
    if lead < w0 + w1 then lead else w0 + w1
  }

  /** The number of one-tick calls, from a fresh start, that keep the first of two threads. */
  function Kept(w0: nat, w1: nat): nat
    requires w0 > 0 && w1 > 0
  {
    if Ahead(w0, w0 + w1) > Ahead(w1, w0 + w1) || Cost(w0, w1) == 0 then 0 else 1 + Slack(w0, w1) / Cost(w0, w1)
  }

  /** A thread that is picked first is charged: a cost of zero goes with a later deadline. */
  lemma FirstIsCharged(w0: nat, w1: nat)
    requires w0 > 0 && w1 > 0 && Ahead(w0, w0 + w1) <= Ahead(w1, w0 + w1)
    ensures Cost(w0, w1) > 0
  {
    var sum := w0 + w1;
    DivBounds(w0 * 1024, sum, 0);
    if w0 * 1024 < sum {
      DivBounds(sum * 1024, w1, 2048);
      QuotientBounds(sum * 1024, w0);
      FarAhead(w0, sum, Ahead(w0, sum));
      assert false;
    }
  }

  lemma FarAhead(w0: nat, sum: nat, q: nat)
    requires w0 > 0 && w0 * 1024 < sum && sum * 1024 < w0 * (q + 1)
    ensures q > 2048
  {
    assert q <= 2048 ==> w0 * (q + 1) <= w0 * 2049;
  }

  function Pair(w0: nat, w1: nat, v: nat, cur: Option<nat>, t: nat): Sched {
    Sched([0, 1], [ThreadMeta(v, w0, false), ThreadMeta(0, w1, false)], cur, 0, t)
  }

  predicate PairRoom(w0: nat, w1: nat) { w0 > 0 && w1 > 0 && 1025 * (w0 + w1) + 2048 <= U64_MAX }

  lemma PairSums(v: nat, w0: nat, w1: nat)
    ensures var meta := [ThreadMeta(v, w0, false), ThreadMeta(0, w1, false)];
      SumWeights(meta) == w0 + w1 && MinVruntime(meta) == Some(0)
  {
    var meta := [ThreadMeta(v, w0, false), ThreadMeta(0, w1, false)];
    assert meta[..1] == [meta[0]];
    OneSum(meta[0]);
  }

  lemma OneSum(m: ThreadMeta)
    requires !m.blocked
    ensures SumWeights([m]) == m.weight && MinVruntime([m]) == Some(m.vruntime)
  {
    var s := [m];
    assert s[..|s| - 1] == [];
    assert SumWeights([]) == 0 && MinVruntime([]) == None;
  }

  lemma PairChoice(w0: nat, w1: nat, v: nat)
    requires PairRoom(w0, w1) && v <= w0 + w1 + 1024
    ensures var meta, sum := [ThreadMeta(v, w0, false), ThreadMeta(0, w1, false)], w0 + w1;
      && Limit(meta, 0) == sum && DeadlinesFit(meta, sum, 1, sum)
      && Choice(meta, Deadlines(meta, 1, sum), sum) == Some(if v <= sum && v + Ahead(w0, sum) <= Ahead(w1, sum) then 0 else 1)
  {
    var meta, sum := [ThreadMeta(v, w0, false), ThreadMeta(0, w1, false)], w0 + w1;
    PairSums(v, w0, w1);
    AheadSmall(w0, sum);
    AheadSmall(w1, sum);
    hide SumWeights, MinVruntime;
    var d := Deadlines(meta, 1, sum);
    assert 1 * sum * 1024 == sum * 1024;
    assert d[0] == v + Ahead(w0, sum) && d[1] == Ahead(w1, sum);
    hide Ahead;
    assert v <= sum ==> DeadlineFits(meta[0], 1, sum) && DeadlineFits(meta[1], 1, sum);
    assert Earliest(meta, d, sum, 0) == None;
    assert Earliest(meta, d, sum, 1) == if v <= sum then Some(0) else None;
  }

  lemma Grows(q: nat, w: nat)
    requires w > 0
    ensures q <= w * q
  {
    assert w * q == (w - 1) * q + q;
  }

  lemma AheadSmall(w: nat, sum: nat)
    requires w > 0
    ensures Ahead(w, sum) <= sum * 1024
  {
    var x := sum * 1024;
    QuotientBounds(x, w);
    Grows(x / w, w);
  }

  /** The charge of one call. */
  lemma PairCharged(w0: nat, w1: nat, v: nat, cur: Option<nat>, t: nat)
    requires PairRoom(w0, w1) && v <= w0 + w1 && (cur == Some(0) || (cur == None && v == 0))
    ensures var (s, v') := (Pair(w0, w1, v, cur, t), if cur == Some(0) then v + Cost(w0, w1) else v);
      && TimeSlice(s, t + 1) == 1 && ChargeFits(s, t + 1) && v' <= w0 + w1 + 1024
      && Charged(s, t + 1) == [ThreadMeta(v', w0, false), ThreadMeta(0, w1, false)]
  {
    var s := Pair(w0, w1, v, cur, t);
    PairSums(v, w0, w1);
    assert 1 * w0 * 1024 == w0 * 1024;
    DivBounds(w0 * 1024, w0 + w1, 1024);
    hide SumWeights, MinVruntime;
    assert TimeSlice(s, t + 1) == 1;
  }

  /** One call while the first thread has been kept so far. */
  lemma PairCall(w0: nat, w1: nat, v: nat, cur: Option<nat>, t: nat)
    requires PairRoom(w0, w1) && v <= w0 + w1 && t < U64_MAX && (cur == Some(0) || (cur == None && v == 0))
    ensures var v' := if cur == Some(0) then v + Cost(w0, w1) else v;
      && !Tick(Pair(w0, w1, v, cur, t), t + 1).Panic?
      && NextCall(Pair(w0, w1, v, cur, t)) ==
           Pair(w0, w1, v', Some(if v' <= w0 + w1 && v' + Ahead(w0, w0 + w1) <= Ahead(w1, w0 + w1) then 0 else 1), t + 1)
  {
    hide SumWeights, MinVruntime, Charged, ChargeFits, TimeSlice, Ahead, Cost, Choice, Limit, DeadlinesFit, Deadlines;
    var v' := if cur == Some(0) then v + Cost(w0, w1) else v;
    PairCharged(w0, w1, v, cur, t);
    PairSums(v', w0, w1);
    PairChoice(w0, w1, v');
  }

  lemma QuotientReach(k: nat, m: nat, c: nat)
    requires c > 0
    ensures k <= m / c <==> k * c <= m
  {
    QuotientBounds(m, c);
    if k <= m / c { MulMono(k, m / c, c); } else { MulMono(m / c + 1, k, c); }
  }

  lemma MulMono(a: nat, b: nat, c: nat)
    requires a <= b
    ensures a * c <= b * c
  {
  }

  /** After `k` calls more. */
  lemma {:induction false} PairRun(w0: nat, w1: nat, j: nat, k: nat)
    requires PairRoom(w0, w1) && Ahead(w0, w0 + w1) <= Ahead(w1, w0 + w1) && Cost(w0, w1) > 0
    requires Spent(j + k, Cost(w0, w1)) <= Slack(w0, w1)
    ensures After(Pair(w0, w1, Spent(j, Cost(w0, w1)), Some(0), j + 1), k) == Pair(w0, w1, Spent(j + k, Cost(w0, w1)), Some(0), j + k + 1)
    decreases k
  {
    hide Tick, NextCall, Ahead, Cost, Spent;
    if k > 0 {
      var c := Cost(w0, w1);
      Spread(j, k, c);
      PairCall(w0, w1, Spent(j, c), Some(0), j + 1);
      PairRun(w0, w1, j + 1, k - 1);
    }
  }

  lemma Spread(j: nat, k: nat, c: nat)
    requires k > 0 && c > 0
    ensures Spent(j + 1, c) == Spent(j, c) + c && Spent(j + 1, c) <= Spent(j + k, c) && j <= Spent(j, c) && j < Spent(j + k, c)
  {
    assert (j + k) * c == (j + 1) * c + (k - 1) * c;
    assert j * c == j * (c - 1) + j;
  }

  lemma KeptReach(w0: nat, w1: nat, k: nat)
    requires w0 > 0 && w1 > 0 && Kept(w0, w1) > 0 && k > 0
    ensures Ahead(w0, w0 + w1) <= Ahead(w1, w0 + w1) && Cost(w0, w1) > 0
    ensures k <= Kept(w0, w1) <==> Spent(k - 1, Cost(w0, w1)) <= Slack(w0, w1)
  {
    hide Ahead, Cost, Slack;
    QuotientReach(k - 1, Slack(w0, w1), Cost(w0, w1));
  }

  /** The next thread to run after `k` calls: the first one exactly as long as `Kept` says. */
  lemma PairStart(w0: nat, w1: nat, k: nat)
    requires PairRoom(w0, w1) && 1 <= k <= Kept(w0, w1)
    ensures After(Spawn(Spawn(Empty, 0, w0), 1, w1), k) == Pair(w0, w1, Spent(k - 1, Cost(w0, w1)), Some(0), k)
    ensures Spent(k - 1, Cost(w0, w1)) <= Slack(w0, w1)
  {
    hide Tick, NextCall, Ahead, Cost, Slack, Kept, Pair, Eevdf.Spawn, After, Spent;
    KeptReach(w0, w1, k);
    FirstCall(w0, w1);
    PairFrom(w0, w1, k - 1);
    AfterFirst(Spawn(Spawn(Empty, 0, w0), 1, w1), k);
  }

  lemma AfterFirst(s: Sched, k: nat)
    requires k > 0
    ensures After(s, k) == After(NextCall(s), k - 1)
  {
  }

  lemma FirstCall(w0: nat, w1: nat)
    requires PairRoom(w0, w1) && Ahead(w0, w0 + w1) <= Ahead(w1, w0 + w1)
    ensures NextCall(Spawn(Spawn(Empty, 0, w0), 1, w1)) == Pair(w0, w1, 0, Some(0), 1)
  {
    hide Tick, NextCall, Ahead, Cost;
    assert Spawn(Spawn(Empty, 0, w0), 1, w1) == Pair(w0, w1, 0, None, 0);
    PairCall(w0, w1, 0, None, 0);
  }

  lemma PairFrom(w0: nat, w1: nat, k: nat)
    requires PairRoom(w0, w1) && Ahead(w0, w0 + w1) <= Ahead(w1, w0 + w1) && Cost(w0, w1) > 0 && Spent(k, Cost(w0, w1)) <= Slack(w0, w1)
    ensures After(Pair(w0, w1, 0, Some(0), 1), k) == Pair(w0, w1, Spent(k, Cost(w0, w1)), Some(0), k + 1)
  {
    hide After, Pair, Ahead, Cost, Slack;
    assert Spent(0, Cost(w0, w1)) == 0;
    PairRun(w0, w1, 0, k);
  }

  /**
   Two threads from the spawned state, one tick a call, for all weights that leave room: exactly the first
   `Kept(w0, w1)` calls pick the first thread, and the next one picks the second.
   */
  lemma KeptExactly(w0: nat, w1: nat)
    requires PairRoom(w0, w1)
    ensures var s, n := Spawn(Spawn(Empty, 0, w0), 1, w1), Kept(w0, w1);
      && (forall k :: 1 <= k <= n ==> After(s, k).current == Some(0))
      && After(s, n + 1).current == Some(1)
  {
    var s, n := Spawn(Spawn(Empty, 0, w0), 1, w1), Kept(w0, w1);
    assert s == Pair(w0, w1, 0, None, 0);
    forall k | 1 <= k <= n ensures After(s, k).current == Some(0) { PairStart(w0, w1, k); }
    if n == 0 {
      FirstLater(w0, w1);
      PairCall(w0, w1, 0, None, 0);
      assert After(s, 1) == After(NextCall(s), 0);
    } else {
      PairStart(w0, w1, n);
      PairEnds(w0, w1, n);
      AfterOne(s, n);
    }
  }

  lemma FirstLater(w0: nat, w1: nat)
    requires w0 > 0 && w1 > 0 && Kept(w0, w1) == 0
    ensures Ahead(w0, w0 + w1) > Ahead(w1, w0 + w1)
  {
    if Ahead(w0, w0 + w1) <= Ahead(w1, w0 + w1) { FirstIsCharged(w0, w1); }
  }

  lemma PairEnds(w0: nat, w1: nat, n: nat)
    requires PairRoom(w0, w1) && n == Kept(w0, w1) > 0 && Spent(n - 1, Cost(w0, w1)) <= Slack(w0, w1)
    ensures NextCall(Pair(w0, w1, Spent(n - 1, Cost(w0, w1)), Some(0), n)).current == Some(1)
  {
    hide Tick, NextCall, Ahead, Cost, Kept, Slack, Pair;
    KeptReach(w0, w1, n + 1);
    Few(n, Cost(w0, w1));
    PairLeaves(w0, w1, Spent(n - 1, Cost(w0, w1)), n);
  }

  /** With its slack used up the first thread loses the CPU. */
  lemma PairLeaves(w0: nat, w1: nat, v: nat, t: nat)
    requires PairRoom(w0, w1) && Ahead(w0, w0 + w1) <= Ahead(w1, w0 + w1) && t <= v + 1
    requires v <= Slack(w0, w1) < v + Cost(w0, w1)
    ensures NextCall(Pair(w0, w1, v, Some(0), t)).current == Some(1)
  {
    hide Tick, NextCall, Ahead, Cost;
    PairCall(w0, w1, v, Some(0), t);
  }

  lemma Few(n: nat, c: nat)
    requires n > 0 && c > 0
    ensures n - 1 <= Spent(n - 1, c) && Spent(n, c) == Spent(n - 1, c) + c
  {
    var k := n - 1;
    Grows(k, c);
    assert (k + 1) * c == k * c + c;
  }

  lemma {:induction false} AfterOne(s: Sched, n: nat)
    ensures After(s, n + 1) == NextCall(After(s, n))
    decreases n
  {
    hide NextCall;
    if n > 0 { AfterOne(NextCall(s), n - 1); }
    else { assert After(s, 1) == After(NextCall(s), 0); }
  }

  /** Weights 2048 and 512: four calls keep the first thread, the fifth goes to the second. */
  lemma KeptAtOnePoint()
    ensures Kept(2048, 512) == 4
  {
    assert Cost(2048, 512) == 819 && Ahead(2048, 2560) == 1280 && Ahead(512, 2560) == 5120;
    assert Slack(2048, 512) == 2560;
  }
}
