/**
 Async sleeps under the cooperative executor (src/task/sleep.rs, src/task/executor.rs), for tasks that
 await nothing but sleeps. A task's token is its id in the ready queue or its waker in SLEEPERS.
 */
module AsyncSleep {
  import opened Wrappers

  const U64_MAX: nat := 0xFFFF_FFFF_FFFF_FFFF
  const CAPACITY: nat := 100

  function SaturatingAdd(a: nat, b: nat): nat { if a + b > U64_MAX then U64_MAX else a + b }

  /** A sleep that is over, with the ticks at which it was created and seen complete. */
  datatype Nap = Nap(start: nat, ticks: nat, end: nat)

  /** `at` is history: which reading of the clock gave `start`. */
  datatype Sleep = Sleep(start: nat, target: nat, registered: bool, at: nat)

  /** A task sleeps for `program[0]`, `program[1]`, ... ticks and ends; `next` sleeps have been created. */
  datatype Task = Task(program: seq<nat>, next: nat, sleep: Option<Sleep>, log: seq<Nap>)

  datatype Entry = Entry(target: nat, id: nat)

  function Ids(s: seq<Entry>): (r: seq<nat>)
    ensures |r| == |s|
  {
    seq(|s|, i requires 0 <= i < |s| => s[i].id)
  }

  // ---- Tasks ----

  /** `ticks` ticks passed from `start` to `end`; where that would not fit in 64 bits, the clock reached its last value. */
  predicate Passed(start: nat, ticks: nat, end: nat) {
    if start + ticks < 0x1_0000_0000_0000_0000 then end - start >= ticks else end >= 0xFFFF_FFFF_FFFF_FFFF
  }

  ghost predicate NapsOk(log: seq<Nap>, program: seq<nat>) {
    && |log| <= |program|
    && (forall k :: 0 <= k < |log| ==> log[k].ticks == program[k] && Passed(log[k].start, log[k].ticks, log[k].end))
    && (forall k :: 0 < k < |log| ==> log[k - 1].end <= log[k].start)
  }

  /** Sleeps ran in program order, each for at least its length, and the current one is the next in line. */
  ghost predicate TaskOk(t: Task) {
    && t.next <= |t.program| && NapsOk(t.log, t.program)
    && (t.sleep.None? ==> |t.log| == t.next)
    && (t.sleep.Some? ==> |t.log| + 1 == t.next && t.sleep.value.start <= t.sleep.value.target && t.sleep.value.target == SaturatingAdd(t.sleep.value.start, t.program[t.next - 1])
                          && (t.log != [] ==> t.log[|t.log| - 1].end <= t.sleep.value.start))
  }

  ghost predicate Finished(t: Task) { TaskOk(t) && t.sleep.None? && t.next == |t.program| }

  /** `u` is a later state of task `t`. */
  ghost predicate Later(t: Task, u: Task) {
    && u.program == t.program && u.next >= t.next && t.log <= u.log
    && (u.next == t.next && t.sleep.Some? && u.sleep.Some? ==>
          u.sleep.value.target == t.sleep.value.target && u.sleep.value.at == t.sleep.value.at)
  }

  lemma LaterTrans(t: Task, u: Task, v: Task)
    requires Later(t, u) && Later(u, v) && TaskOk(t) && TaskOk(u) && TaskOk(v)
    ensures Later(t, v)
  {
    if v.next == t.next && t.sleep.Some? && v.sleep.Some? {
      assert u.next == t.next && |u.log| <= |v.log|;
    }
  }

  /** A sleep created before has completed once its task is seen in a later state that does not wait for it. */
  lemma Completed(t: Task, u: Task)
    requires TaskOk(t) && TaskOk(u) && Later(t, u) && t.sleep.Some?
    requires u.sleep.Some? ==> u.sleep.value.target > t.sleep.value.target || u.next > t.next
    ensures |u.log| >= t.next
  {
  }

  function Sum(s: seq<nat>, n: nat): nat
    requires n <= |s|
  {
    if n == 0 then 0 else Sum(s, n - 1) + s[n - 1]
  }

  /** Over a whole log a task slept at least as long as it asked for. */
  lemma {:induction false} TotalTime(log: seq<Nap>, program: seq<nat>, n: nat)
    requires NapsOk(log, program) && 0 < n <= |log|
    ensures Passed(log[0].start, Sum(program, n), log[n - 1].end)
  {
    if n > 1 {
      TotalTime(log, program, n - 1);
      assert log[n - 2].end <= log[n - 1].start;
    }
  }

  // ---- Waking ----

  /** Ids of the entries due at `now`, in order. */
  function Due(s: seq<Entry>, now: nat): seq<nat> {
    if s == [] then []
    else var e := s[|s| - 1]; Due(s[..|s| - 1], now) + if e.target <= now then [e.id] else []
  }

  function Waiting(s: seq<Entry>, now: nat): seq<Entry> {
    if s == [] then []
    else var e := s[|s| - 1]; Waiting(s[..|s| - 1], now) + if e.target <= now then [] else [e]
  }

  lemma IdsAppend(s: seq<Entry>, e: Entry)
    ensures Ids(s + [e]) == Ids(s) + [e.id]
  {
  }

  /** Waking moves tokens and neither makes nor loses one. */
  lemma {:induction false} WakeConserves(s: seq<Entry>, now: nat)
    ensures multiset(Due(s, now)) + multiset(Ids(Waiting(s, now))) == multiset(Ids(s))
    ensures |Due(s, now)| + |Waiting(s, now)| == |s|
  {
    if s != [] {
      var s', e := s[..|s| - 1], s[|s| - 1];
      WakeConserves(s', now);
      assert s == s' + [e];
      IdsAppend(s', e);
      if e.target > now {
        IdsAppend(Waiting(s', now), e);
        assert Due(s, now) == Due(s', now);
      } else {
        assert Waiting(s, now) == Waiting(s', now);
      }
    }
  }

  ghost predicate HasDue(s: seq<Entry>, id: nat, now: nat) { exists e :: e in s && e.id == id && e.target <= now }

  lemma HasDueAppend(s: seq<Entry>, e: Entry, id: nat, now: nat)
    ensures HasDue(s + [e], id, now) <==> HasDue(s, id, now) || (e.id == id && e.target <= now)
  {
    assert e in s + [e];
    assert forall x :: x in s ==> x in s + [e];
  }

  /** What stays is exactly what is not due, and what goes is exactly what is. */
  lemma {:induction false} WakeSplits(s: seq<Entry>, now: nat)
    ensures forall e :: e in Waiting(s, now) <==> e in s && e.target > now
    ensures forall id :: id in Due(s, now) <==> HasDue(s, id, now)
  {
    if s != [] {
      var s', e := s[..|s| - 1], s[|s| - 1];
      WakeSplits(s', now);
      assert s == s' + [e];
      forall id ensures id in Due(s, now) <==> HasDue(s, id, now) {
        HasDueAppend(s', e, id, now);
      }
    }
  }

  /** How many of the first `i` entries have their target at or before `now`. */
  function DueBefore(s: seq<Entry>, now: nat, i: nat): (n: nat)
    requires i <= |s|
    ensures n <= i
  {
    if i == 0 then 0 else DueBefore(s, now, i - 1) + if s[i - 1].target <= now then 1 else 0
  }

  /** Where entry `i` goes: its id after the ids of the due entries before it, or itself after the entries before it that stay. */
  ghost predicate Lands(s: seq<Entry>, now: nat, i: nat, due: seq<nat>, waiting: seq<Entry>)
    requires i < |s|
  {
    var d := DueBefore(s, now, i);
    if s[i].target <= now then d < |due| && due[d] == s[i].id else i - d < |waiting| && waiting[i - d] == s[i]
  }

  /** Waking keeps the order of the entries, both among those that are due and among those that stay. */
  lemma {:induction false} WakeOrder(s: seq<Entry>, now: nat)
    ensures |Due(s, now)| == DueBefore(s, now, |s|) && |Waiting(s, now)| == |s| - DueBefore(s, now, |s|)
    ensures forall i: nat :: i < |s| ==> Lands(s, now, i, Due(s, now), Waiting(s, now))
  {
    if s != [] {
      var s', e := s[..|s| - 1], s[|s| - 1];
      WakeOrder(s', now);
      forall i: nat | i <= |s'| ensures DueBefore(s, now, i) == DueBefore(s', now, i) { DueBeforePrefix(s, now, i); }
      forall i: nat | i < |s| ensures Lands(s, now, i, Due(s, now), Waiting(s, now)) {
        if i < |s'| { assert s[i] == s'[i] && Lands(s', now, i, Due(s', now), Waiting(s', now)); }
      }
    }
  }

  lemma {:induction false} DueBeforePrefix(s: seq<Entry>, now: nat, i: nat)
    requires i < |s|
    ensures DueBefore(s, now, i) == DueBefore(s[..|s| - 1], now, i)
  {
    if i > 0 { DueBeforePrefix(s, now, i - 1); }
  }

  // ---- Tokens ----

  /** Every live task has exactly one token. */
  ghost predicate Tokens(queue: seq<nat>, sleepers: seq<Entry>, live: set<nat>) {
    multiset(queue) + multiset(Ids(sleepers)) == multiset(live)
  }

  /** A queued task is not waiting for anything beyond `now`; a sleeper's task waits for exactly its entry. */
  ghost predicate Parked(tasks: map<nat, Task>, queue: seq<nat>, sleepers: seq<Entry>, now: nat) {
    && (forall i :: 0 <= i < |queue| ==> queue[i] in tasks && Woken(tasks[queue[i]], now))
    && (forall i :: 0 <= i < |sleepers| ==> sleepers[i].id in tasks && Dozing(tasks[sleepers[i].id], sleepers[i].target))
  }

  ghost predicate Woken(t: Task, now: nat) {
    if t.sleep.Some? then t.sleep.value.registered && t.sleep.value.target <= now else t.log == []
  }

  ghost predicate Dozing(t: Task, target: nat) { t.sleep.Some? && t.sleep.value.registered && t.sleep.value.target == target }

  lemma TokensCount(queue: seq<nat>, sleepers: seq<Entry>, live: set<nat>)
    requires Tokens(queue, sleepers, live)
    ensures |queue| + |sleepers| == |live|
  {
    assert |multiset(queue) + multiset(Ids(sleepers))| == |queue| + |Ids(sleepers)|;
    assert |multiset(live)| == |live|;
  }

  lemma TokenOwner(queue: seq<nat>, sleepers: seq<Entry>, live: set<nat>, id: nat)
    requires Tokens(queue, sleepers, live)
    ensures id in live <==> id in queue || id in Ids(sleepers)
    ensures forall i :: 0 <= i < |sleepers| ==> sleepers[i].id in live
  {
    assert id in multiset(live) <==> id in multiset(queue) + multiset(Ids(sleepers));
    forall i | 0 <= i < |sleepers| ensures sleepers[i].id in live {
      assert Ids(sleepers)[i] in multiset(queue) + multiset(Ids(sleepers));
    }
  }

  lemma Cancel(m: multiset<nat>, a: multiset<nat>, b: multiset<nat>)
    requires m + a == m + b
    ensures a == b
  {
    forall k: nat ensures a[k] == b[k] {
      assert (m + a)[k] == (m + b)[k];
    }
  }

  /** Taking the first token leaves its task with none. */
  lemma TokensPop(queue: seq<nat>, sleepers: seq<Entry>, live: set<nat>)
    requires Tokens(queue, sleepers, live) && queue != []
    ensures queue[0] in live && Tokens(queue[1..], sleepers, live - {queue[0]})
  {
    assert queue == [queue[0]] + queue[1..];
    assert multiset(queue) == multiset{queue[0]} + multiset(queue[1..]);
    TokenOwner(queue, sleepers, live, queue[0]);
    assert multiset(live) == multiset{queue[0]} + multiset(live - {queue[0]});
    assert multiset(queue) + multiset(Ids(sleepers)) == multiset{queue[0]} + (multiset(queue[1..]) + multiset(Ids(sleepers)));
    Cancel(multiset{queue[0]}, multiset(queue[1..]) + multiset(Ids(sleepers)), multiset(live - {queue[0]}));
  }

  lemma TokensSleep(queue: seq<nat>, sleepers: seq<Entry>, live: set<nat>, e: Entry)
    requires Tokens(queue, sleepers, live) && e.id !in live
    ensures Tokens(queue, sleepers + [e], live + {e.id})
  {
    IdsAppend(sleepers, e);
    assert multiset(live + {e.id}) == multiset(live) + multiset{e.id};
  }

  lemma TokensPush(queue: seq<nat>, sleepers: seq<Entry>, live: set<nat>, id: nat)
    requires Tokens(queue, sleepers, live) && id !in live
    ensures Tokens(queue + [id], sleepers, live + {id})
  {
    assert multiset(live + {id}) == multiset(live) + multiset{id};
  }

  // ---- The executor ----

  ghost predicate Steady(clock: nat -> nat) {
    (forall i: nat, j: nat :: i <= j ==> clock(i) <= clock(j)) && forall i: nat :: clock(i) <= U64_MAX
  }

  ghost predicate TasksOk(tasks: map<nat, Task>) { forall id :: id in tasks ==> TaskOk(tasks[id]) }

  ghost predicate AllFinished(done: map<nat, Task>) { forall id :: id in done ==> Finished(done[id]) }

  /** Every task of `before` is live or finished, in a later state. */
  ghost predicate Accounted(before: map<nat, Task>, tasks: map<nat, Task>, done: map<nat, Task>) {
    forall id :: id in before ==>
      (id in tasks && Later(before[id], tasks[id])) || (id in done && Later(before[id], done[id]))
  }

  lemma FreshOk(program: seq<nat>)
    ensures TaskOk(Task(program, 0, None, []))
  {
  }

  lemma {:induction false} DueGrows(s: seq<Entry>, p: nat, now: nat)
    requires p <= |s|
    ensures |Due(s[..p], now)| <= |Due(s, now)|
    decreases |s| - p
  {
    if p == |s| {
      assert s[..p] == s;
    } else {
      DueGrows(s, p + 1, now);
      assert s[..p + 1][..p] == s[..p];
    }
  }

  lemma WakeNone(s: seq<Entry>, now: nat)
    ensures Waiting(s[..0], now) == [] && Due(s[..0], now) == [] && s[0..] == s
  {
  }

  lemma WakeUnfold(s: seq<Entry>, p: nat, now: nat)
    requires p < |s|
    ensures Due(s[..p + 1], now) == Due(s[..p], now) + if s[p].target <= now then [s[p].id] else []
    ensures Waiting(s[..p + 1], now) == Waiting(s[..p], now) + if s[p].target <= now then [] else [s[p]]
  {
    assert s[..p + 1][..p] == s[..p] && s[..p + 1][p] == s[p];
  }

  /** One turn of the waking loop: `rest` is the list with the first `p` entries already sifted. */
  lemma WakeStep(s: seq<Entry>, p: nat, i: nat, now: nat, rest: seq<Entry>)
    requires p <= |s| && rest == Waiting(s[..p], now) + s[p..] && |Waiting(s[..p], now)| < |rest|
    requires i == |Waiting(s[..p], now)|
    ensures p < |s| && |Due(s[..p + 1], now)| <= |Due(s, now)| && rest[i] == s[p]
    ensures s[p].target <= now ==>
      && Due(s[..p + 1], now) == Due(s[..p], now) + [s[p].id] && |Waiting(s[..p + 1], now)| == i
      && rest[..i] + rest[i + 1..] == Waiting(s[..p + 1], now) + s[p + 1..]
    ensures s[p].target > now ==>
      && Due(s[..p + 1], now) == Due(s[..p], now) && |Waiting(s[..p + 1], now)| == i + 1
      && rest == Waiting(s[..p + 1], now) + s[p + 1..]
  {
    hide Due, Waiting;
    WakeUnfold(s, p, now);
    DueGrows(s, p + 1, now);
  }

  lemma WakeKeeps(tasks: map<nat, Task>, queue: seq<nat>, sleepers: seq<Entry>, now: nat, before: nat, after: nat)
    requires Tokens(queue, sleepers, tasks.Keys) && Parked(tasks, queue, sleepers, before) && before <= after && now <= after
    ensures var q, s := queue + Due(sleepers, now), Waiting(sleepers, now);
      Tokens(q, s, tasks.Keys) && Parked(tasks, q, s, after)
  {
    hide Due, Waiting;
    var d, s := Due(sleepers, now), Waiting(sleepers, now);
    WakeConserves(sleepers, now);
    WakeSplits(sleepers, now);
    assert multiset(queue + d) + multiset(Ids(s)) == multiset(queue) + (multiset(d) + multiset(Ids(s)));
    forall i | 0 <= i < |d| ensures d[i] in tasks && Woken(tasks[d[i]], after) {
      assert d[i] in d;
      var e :| e in sleepers && e.id == d[i] && e.target <= now;
    }
    forall i | 0 <= i < |s| ensures s[i].id in tasks && Dozing(tasks[s[i].id], s[i].target) {
      assert s[i] in s && s[i] in sleepers;
    }
  }

  /** No entry is due at `floor`. */
  ghost predicate NoneDue(sleepers: seq<Entry>, floor: nat) { forall i :: 0 <= i < |sleepers| ==> sleepers[i].target > floor }

  /** The last completed sleep ended by `now`. */
  ghost predicate Settled(t: Task, now: nat) { t.log != [] ==> t.log[|t.log| - 1].end <= now }

  /** `Sleep::new`, reached after the previous await returned. */
  function Begin(t: Task, now: nat, at: nat): Task
    requires t.next < |t.program|
  {
    t.(next := t.next + 1, sleep := Some(Sleep(now, SaturatingAdd(now, t.program[t.next]), false, at)))
  }

  lemma BeginOk(t: Task, now: nat, at: nat)
    requires TaskOk(t) && t.sleep.None? && t.next < |t.program| && Settled(t, now) && now <= U64_MAX
    ensures var u := Begin(t, now, at); TaskOk(u) && Later(t, u) && Settled(u, now)
  {
  }

  /** The await of the current sleep returns. */
  function End(t: Task, now: nat): Task
    requires t.sleep.Some? && 0 < t.next <= |t.program|
  {
    t.(sleep := None, log := t.log + [Nap(t.sleep.value.start, t.program[t.next - 1], now)])
  }

  lemma EndOk(t: Task, now: nat)
    requires TaskOk(t) && t.sleep.Some? && t.sleep.value.target <= now
    ensures var u := End(t, now); TaskOk(u) && Later(t, u) && Settled(u, now) && |u.log| == t.next
  {
  }

  function Register(t: Task): Task
    requires t.sleep.Some?
  {
    t.(sleep := Some(t.sleep.value.(registered := true)))
  }

  lemma RegisterOk(t: Task)
    requires TaskOk(t) && t.sleep.Some?
    ensures TaskOk(Register(t)) && Later(t, Register(t)) && Dozing(Register(t), t.sleep.value.target)
  {
  }

  lemma WokenSettled(t: Task, now: nat)
    requires TaskOk(t) && Woken(t, now)
    ensures Settled(t, now) && Later(t, t)
  {
  }

  lemma LogBound(t: Task)
    requires TaskOk(t)
    ensures |t.log| <= |t.program| && t.next <= |t.program| && (t.sleep.Some? ==> |t.log| < |t.program| && t.next > 0)
    ensures t.sleep.None? && t.next == |t.program| ==> Finished(t)
  {
  }

  lemma PopKeeps(tasks: map<nat, Task>, queue: seq<nat>, sleepers: seq<Entry>, before: nat, after: nat)
    requires Tokens(queue, sleepers, tasks.Keys) && Parked(tasks, queue, sleepers, before) && queue != [] && before <= after
    ensures var rest := tasks - {queue[0]}; queue[0] in tasks && rest.Keys == tasks.Keys - {queue[0]}
    ensures var rest := tasks - {queue[0]}; Tokens(queue[1..], sleepers, rest.Keys) && Parked(rest, queue[1..], sleepers, after)
  {
    var id := queue[0];
    TokensPop(queue, sleepers, tasks.Keys);
    assert (tasks - {id}).Keys == tasks.Keys - {id};
    TokenOwner(queue[1..], sleepers, tasks.Keys - {id}, id);
    hide Tokens;
    forall i | 0 <= i < |queue[1..]| ensures queue[1..][i] in tasks - {id} && Woken((tasks - {id})[queue[1..][i]], after) {
      assert queue[1..][i] in queue[1..] && queue[1..][i] == queue[i + 1];
    }
  }

  lemma SleepKeeps(tasks: map<nat, Task>, queue: seq<nat>, sleepers: seq<Entry>, before: nat, after: nat, u: Task, target: nat)
    requires Tokens(queue, sleepers, tasks.Keys) && Parked(tasks, queue, sleepers, before) && queue != [] && before <= after
    requires Dozing(u, target)
    ensures var tasks', s := tasks[queue[0] := u], sleepers + [Entry(target, queue[0])];
      && queue[0] in tasks && tasks'.Keys == tasks.Keys && Tokens(queue[1..], s, tasks'.Keys) && Parked(tasks', queue[1..], s, after)
  {
    var id := queue[0];
    PopKeeps(tasks, queue, sleepers, before, after);
    TokensSleep(queue[1..], sleepers, tasks.Keys - {id}, Entry(target, id));
    assert tasks[id := u].Keys == tasks.Keys && tasks.Keys - {id} + {id} == tasks.Keys;
    hide Tokens;
    var (q, s, tasks') := (queue[1..], sleepers + [Entry(target, id)], tasks[id := u]);
    forall i | 0 <= i < |q| ensures q[i] in tasks' && Woken(tasks'[q[i]], after) {
      assert q[i] in tasks - {id};
    }
    forall i | 0 <= i < |s| ensures s[i].id in tasks' && Dozing(tasks'[s[i].id], s[i].target) {
      assert i < |sleepers| ==> sleepers[i].id in tasks - {id};
    }
  }

  ghost predicate KeptDone(before: map<nat, Task>, after: map<nat, Task>) {
    forall i :: i in before ==> i in after && after[i] == before[i]
  }

  lemma AccountSelf(tasks: map<nat, Task>, done: map<nat, Task>)
    ensures Accounted(tasks, tasks, done)
  {
  }

  lemma AccountFor(tasks: map<nat, Task>, id: nat, u: Task, done: map<nat, Task>)
    requires id in tasks && Later(tasks[id], u)
    ensures Accounted(tasks, tasks[id := u], done) && Accounted(tasks, tasks - {id}, done[id := u])
  {
  }

  lemma AccountTrans(a: map<nat, Task>, b: map<nat, Task>, doneB: map<nat, Task>, c: map<nat, Task>, doneC: map<nat, Task>)
    requires Accounted(a, b, doneB) && Accounted(b, c, doneC) && TasksOk(a) && TasksOk(b) && TasksOk(c) && AllFinished(doneC)
    requires KeptDone(doneB, doneC)
    ensures Accounted(a, c, doneC)
  {
    hide Later, TaskOk;
    forall id | id in a ensures (id in c && Later(a[id], c[id])) || (id in doneC && Later(a[id], doneC[id])) {
      if id in b && Later(a[id], b[id]) {
        if id in c && Later(b[id], c[id]) { LaterTrans(a[id], b[id], c[id]); }
        else { LaterTrans(a[id], b[id], doneC[id]); }
      }
    }
  }

  lemma WakeFloor(s: seq<Entry>, now: nat)
    ensures NoneDue(Waiting(s, now), now)
  {
    WakeSplits(s, now);
    hide Waiting;
    var w := Waiting(s, now);
    forall i | 0 <= i < |w| ensures w[i].target > now { assert w[i] in w; }
  }

  lemma ClockMoves(clock: nat -> nat, i: nat, j: nat)
    requires Steady(clock) && i <= j
    ensures clock(i) <= clock(j) <= U64_MAX
  {
  }

  /** A sleep due at `floor` is over once every live task dozes beyond `floor`. */
  lemma SleepOver(t: Task, id: nat, tasks: map<nat, Task>, done: map<nat, Task>, queue: seq<nat>, sleepers: seq<Entry>, floor: nat, now: nat)
    requires TaskOk(t) && t.sleep.Some? && t.sleep.value.target <= floor && TasksOk(tasks) && AllFinished(done)
    requires (id in tasks && Later(t, tasks[id])) || (id in done && Later(t, done[id]))
    requires queue == [] && Tokens(queue, sleepers, tasks.Keys) && Parked(tasks, queue, sleepers, now) && NoneDue(sleepers, floor)
    requires done.Keys !! tasks.Keys
    ensures var u := if id in tasks then tasks[id] else done[id]; |u.log| >= t.next
  {
    if id in tasks {
      TokenOwner(queue, sleepers, tasks.Keys, id);
      var i :| 0 <= i < |sleepers| && Ids(sleepers)[i] == id;
      assert Dozing(tasks[id], sleepers[i].target) && sleepers[i].target > floor;
      Completed(t, tasks[id]);
    }
  }

  /** The sleep in progress began at least its length of ticks before `now`. */
  predicate Over(t: Task, now: nat) {
    t.sleep.Some? && 0 < t.next <= |t.program| && Passed(t.sleep.value.start, t.program[t.next - 1], now)
  }

  lemma OverDue(t: Task, now: nat)
    requires TaskOk(t) && now <= U64_MAX
    ensures Over(t, now) <==> t.sleep.Some? && t.sleep.value.target <= now
  {
  }

  lemma Shrinks(a: set<nat>, b: set<nat>)
    requires a <= b
    ensures |a| <= |b|
  {
    assert b == a + (b - a);
  }

  /** What a task has before it: its sleeps still to complete, and being started. */
  function Left(t: Task): int { |t.program| - |t.log| + if t.sleep.None? then 1 else 0 }

  /** Every sleep in progress has reached its target. */
  ghost predicate AllDue(tasks: map<nat, Task>, now: nat) {
    forall id :: id in tasks && tasks[id].sleep.Some? ==> tasks[id].sleep.value.target <= now
  }

  /** No live task has more before it than `less` below what it had. */
  ghost predicate Advanced(before: map<nat, Task>, tasks: map<nat, Task>, less: nat) {
    forall id :: id in tasks ==> id in before && Left(tasks[id]) + less <= Left(before[id])
  }

  /** A turn sets no task back, and advances each of them when it began with every sleep due. */
  lemma TurnAdvances(before: map<nat, Task>, tasks: map<nat, Task>, done: map<nat, Task>, queue: seq<nat>, sleepers: seq<Entry>, floor: nat, now: nat)
    requires TasksOk(before) && TasksOk(tasks) && Accounted(before, tasks, done) && tasks.Keys <= before.Keys && done.Keys !! tasks.Keys
    requires queue == [] && Tokens(queue, sleepers, tasks.Keys) && Parked(tasks, queue, sleepers, now)
    requires forall id :: id in tasks && before[id].sleep.Some? && before[id].sleep.value.target <= floor ==> |tasks[id].log| >= before[id].next
    ensures Advanced(before, tasks, 0) && (AllDue(before, floor) ==> Advanced(before, tasks, 1))
  {
    forall id | id in tasks
      ensures Left(tasks[id]) <= Left(before[id]) && (AllDue(before, floor) ==> Left(tasks[id]) + 1 <= Left(before[id]))
    {
      TokenOwner(queue, sleepers, tasks.Keys, id);
      var i :| 0 <= i < |sleepers| && Ids(sleepers)[i] == id;
      assert Dozing(tasks[id], sleepers[i].target);
      assert TaskOk(before[id]) && TaskOk(tasks[id]) && Later(before[id], tasks[id]);
    }
  }

  /** Every program is shorter than `n`. */
  ghost predicate ShorterThan(tasks: map<nat, Task>, n: nat) { forall id :: id in tasks ==> |tasks[id].program| < n }

  lemma NobodyLeft(before: map<nat, Task>, tasks: map<nat, Task>, passed: nat)
    requires TasksOk(before) && TasksOk(tasks) && Advanced(before, tasks, passed) && ShorterThan(before, passed)
    ensures tasks == map[]
  {
    forall id ensures id !in tasks {}
  }

  // ---- How many turns a task takes ----

  /** The clock gains at least one tick every `period` readings, until it saturates. */
  ghost predicate Ticking(clock: nat -> nat, period: nat) {
    forall i: nat :: clock(i + period) >= SaturatingAdd(clock(i), 1)
  }

  lemma {:induction false} TicksAdd(clock: nat -> nat, period: nat, i: nat, n: nat)
    requires Ticking(clock, period)
    ensures clock(i + period * n) >= SaturatingAdd(clock(i), n) || clock(i) > U64_MAX
    decreases n
  {
    if n == 0 {
      assert i + period * 0 == i;
    } else {
      TicksAdd(clock, period, i, n - 1);
      assert i + period * n == (i + period * (n - 1)) + period;
      assert clock(i + period * n) >= SaturatingAdd(clock(i + period * (n - 1)), 1);
    }
  }

  /** The current sleep began at reading `at`, which has been taken. */
  predicate SleepClocked(t: Task, clock: nat -> nat, readings: nat) {
    t.sleep.Some? ==> t.sleep.value.at < readings && t.sleep.value.start == clock(t.sleep.value.at)
  }

  ghost predicate Clocked(tasks: map<nat, Task>, clock: nat -> nat, readings: nat) {
    forall id :: id in tasks ==> SleepClocked(tasks[id], clock, readings)
  }

  predicate SameSleep(t: Task, u: Task) {
    t.sleep.Some? && u.sleep.Some? && u.next == t.next && u.sleep.value.at == t.sleep.value.at
  }

  /** A sleep in progress is one that was in progress before, or began at reading `r` or later. */
  ghost predicate Recent(before: map<nat, Task>, tasks: map<nat, Task>, r: nat) {
    forall id :: id in tasks && tasks[id].sleep.Some? ==>
      id in before && (tasks[id].sleep.value.at >= r || SameSleep(before[id], tasks[id]))
  }

  lemma RecentSelf(tasks: map<nat, Task>, r: nat)
    ensures Recent(tasks, tasks, r)
  {
  }

  lemma RecentFor(tasks: map<nat, Task>, id: nat, u: Task, r: nat)
    requires id in tasks && (u.sleep.Some? ==> u.sleep.value.at >= r)
    ensures Recent(tasks, tasks[id := u], r) && Recent(tasks, tasks - {id}, r)
  {
  }

  lemma ClockedFor(tasks: map<nat, Task>, id: nat, u: Task, clock: nat -> nat, r: nat, r': nat)
    requires Clocked(tasks, clock, r) && r <= r'
    ensures SleepClocked(u, clock, r') ==> Clocked(tasks[id := u], clock, r')
    ensures Clocked(tasks - {id}, clock, r')
  {
  }

  lemma SpawnKeeps(tasks: map<nat, Task>, queue: seq<nat>, sleepers: seq<Entry>, now: nat, id: nat, program: seq<nat>)
    requires Parked(tasks, queue, sleepers, now) && id !in tasks
    ensures Parked(tasks[id := Task(program, 0, None, [])], queue + [id], sleepers, now)
  {
  }

  lemma FreshClocked(tasks: map<nat, Task>, id: nat, program: seq<nat>, clock: nat -> nat, r: nat)
    requires Clocked(tasks, clock, r)
    ensures Clocked(tasks[id := Task(program, 0, None, [])], clock, r)
  {
  }

  lemma HeadWoken(tasks: map<nat, Task>, queue: seq<nat>, sleepers: seq<Entry>, now: nat)
    requires Parked(tasks, queue, sleepers, now) && queue != []
    ensures queue[0] in tasks && Woken(tasks[queue[0]], now)
  {
  }

  lemma NoneDueAppend(s: seq<Entry>, e: Entry, floor: nat)
    requires NoneDue(s, floor) && e.target > floor
    ensures NoneDue(s + [e], floor)
  {
  }

  lemma RecentTrans(a: map<nat, Task>, b: map<nat, Task>, c: map<nat, Task>, r: nat, r': nat)
    requires Recent(a, b, r) && Recent(b, c, r') && r <= r' && b.Keys <= a.Keys
    ensures Recent(a, c, r)
  {
  }

  lemma RecentEarlier(before: map<nat, Task>, tasks: map<nat, Task>, r: nat, r': nat)
    requires Recent(before, tasks, r') && r <= r'
    ensures Recent(before, tasks, r)
  {
  }

  /** Turns for the sleeps from `from` on, each counted with the turn that completes it. */
  function Budget(program: seq<nat>, from: nat, period: nat): nat
    requires from <= |program|
    decreases |program| - from
  {
    if from == |program| then 0 else period * program[from] + 1 + Budget(program, from + 1, period)
  }

  lemma {:induction false} BudgetSplit(program: seq<nat>, i: nat, j: nat, period: nat)
    requires i < j <= |program|
    ensures Budget(program, i, period) >= period * program[j - 1] + 1 + Budget(program, j, period)
    decreases j - i
  {
    if i + 1 < j { BudgetSplit(program, i + 1, j, period); }
  }

  /** An upper bound, computed from the program, on the turns a task still takes when the next reading is `r`. */
  ghost function TurnsLeft(t: Task, r: nat, period: nat): nat
    requires TaskOk(t)
  {
    var due := if t.sleep.None? then 0 else t.sleep.value.at + period * t.program[t.next - 1];
    1 + (if due > r then due - r else 0) + Budget(t.program, t.next, period)
  }

  ghost predicate DoneWithin(tasks: map<nat, Task>, r: nat, period: nat, turns: nat)
    requires TasksOk(tasks)
  {
    forall id :: id in tasks ==> TurnsLeft(tasks[id], r, period) <= turns
  }

  /** After `k` turns every live task is at least `k` turns nearer to its end. */
  ghost predicate Nearer(before: map<nat, Task>, r: nat, tasks: map<nat, Task>, r': nat, period: nat, k: nat)
    requires TasksOk(before) && TasksOk(tasks)
  {
    forall id :: id in tasks ==> id in before && TurnsLeft(tasks[id], r', period) + k <= TurnsLeft(before[id], r, period)
  }

  /** One turn of one task: it is due by then and completes, or is a reading nearer to being due. */
  lemma TaskNears(t: Task, u: Task, r: nat, r': nat, clock: nat -> nat, period: nat)
    requires TaskOk(t) && TaskOk(u) && Later(t, u) && u.sleep.Some? && r < r' && Steady(clock) && Ticking(clock, period)
    requires SleepClocked(t, clock, r) && SleepClocked(u, clock, r')
    requires t.sleep.Some? && t.sleep.value.target <= clock(r) ==> |u.log| >= t.next
    requires u.sleep.value.at >= r || SameSleep(t, u)
    ensures TurnsLeft(u, r', period) + 1 <= TurnsLeft(t, r, period)
  {
    hide Steady, Ticking, Budget, NapsOk;
    if u.next == t.next {
      assert t.sleep.Some? && |u.log| < t.next;
      NotDueYet(t, r, clock, period);
      WaitNears(t, u, r, r', period);
    } else {
      BudgetSplit(t.program, t.next, u.next, period);
      Multiple(period, t.program[u.next - 1]);
    }
  }

  lemma Multiple(period: nat, d: nat)
    ensures period * d >= 0
  {
  }

  /** A sleep that is not due yet began fewer than `period` readings per tick ago. */
  lemma NotDueYet(t: Task, r: nat, clock: nat -> nat, period: nat)
    requires TaskOk(t) && t.sleep.Some? && Steady(clock) && Ticking(clock, period) && SleepClocked(t, clock, r)
    requires t.sleep.value.target > clock(r)
    ensures r < t.sleep.value.at + period * t.program[t.next - 1]
  {
    var d := t.program[t.next - 1];
    TicksAdd(clock, period, t.sleep.value.at, d);
    hide Ticking, NapsOk;
    var due := t.sleep.value.at + period * d;
    assert clock(due) >= t.sleep.value.target;
  }

  lemma WaitNears(t: Task, u: Task, r: nat, r': nat, period: nat)
    requires TaskOk(t) && TaskOk(u) && SameSleep(t, u) && u.program == t.program && r < r'
    requires r < t.sleep.value.at + period * t.program[t.next - 1]
    ensures TurnsLeft(u, r', period) + 1 <= TurnsLeft(t, r, period)
  {
    hide NapsOk, Budget;
  }

  lemma TurnNears(before: map<nat, Task>, r: nat, tasks: map<nat, Task>, done: map<nat, Task>, queue: seq<nat>, sleepers: seq<Entry>,
                  r': nat, clock: nat -> nat, period: nat)
    requires TasksOk(before) && TasksOk(tasks) && Accounted(before, tasks, done) && tasks.Keys <= before.Keys && done.Keys !! tasks.Keys
    requires queue == [] && Tokens(queue, sleepers, tasks.Keys) && Parked(tasks, queue, sleepers, clock(r')) && r < r'
    requires Clocked(before, clock, r) && Clocked(tasks, clock, r') && Recent(before, tasks, r) && Steady(clock) && Ticking(clock, period)
    requires forall id :: id in tasks && before[id].sleep.Some? && before[id].sleep.value.target <= clock(r) ==> |tasks[id].log| >= before[id].next
    ensures Nearer(before, r, tasks, r', period, 1)
  {
    hide TurnsLeft, TaskOk, Later, Steady, Ticking;
    forall id | id in tasks ensures TurnsLeft(tasks[id], r', period) + 1 <= TurnsLeft(before[id], r, period) {
      TokenOwner(queue, sleepers, tasks.Keys, id);
      var i :| 0 <= i < |sleepers| && Ids(sleepers)[i] == id;
      assert Dozing(tasks[id], sleepers[i].target);
      assert TaskOk(before[id]) && TaskOk(tasks[id]) && Later(before[id], tasks[id]);
      TaskNears(before[id], tasks[id], r, r', clock, period);
    }
  }

  lemma NearerOn(a: map<nat, Task>, ra: nat, b: map<nat, Task>, rb: nat, c: map<nat, Task>, rc: nat, period: nat, k: nat)
    requires TasksOk(a) && TasksOk(b) && TasksOk(c) && Nearer(a, ra, b, rb, period, k) && Nearer(b, rb, c, rc, period, 1)
    ensures Nearer(a, ra, c, rc, period, k + 1)
  {
    hide TurnsLeft, TaskOk;
  }

  lemma NobodyNear(before: map<nat, Task>, r: nat, tasks: map<nat, Task>, r': nat, period: nat, turns: nat)
    requires TasksOk(before) && TasksOk(tasks) && Nearer(before, r, tasks, r', period, turns) && DoneWithin(before, r, period, turns)
    ensures tasks == map[]
  {
    forall id ensures id !in tasks {}
  }

  /** All sleeps of the program were taken, in order, and together lasted long enough. */
  ghost predicate Served(t: Task) {
    && |t.log| == |t.program|
    && (forall k :: 0 <= k < |t.log| ==> t.log[k].ticks == t.program[k] && Passed(t.log[k].start, t.log[k].ticks, t.log[k].end))
    && (forall k :: 0 < k < |t.log| ==> t.log[k - 1].end <= t.log[k].start)
    && (t.log != [] ==> Passed(t.log[0].start, Sum(t.program, |t.program|), t.log[|t.log| - 1].end))
  }

  lemma FinishedServed(t: Task)
    requires Finished(t)
    ensures Served(t)
  {
    if t.log != [] { TotalTime(t.log, t.program, |t.log|); }
  }

  class Executor {
    const clock: nat -> nat             // successive readings of uptime_ticks
    var readings: nat
    var tasks: map<nat, Task>
    var queue: seq<nat>
    var sleepers: seq<Entry>
    ghost var done: map<nat, Task>      // tasks whose future returned Ready, in their last state
    ghost var dueTurns: nat             // how many turns began with every sleep due

    ghost predicate Valid()
      reads this
    {
      && |queue| <= CAPACITY && Steady(clock) && TasksOk(tasks) && AllFinished(done) && done.Keys !! tasks.Keys
      && Tokens(queue, sleepers, tasks.Keys) && Parked(tasks, queue, sleepers, clock(readings))
      && Clocked(tasks, clock, readings)
    }

    constructor (ticks: nat -> nat)
      requires Steady(ticks)
      ensures Valid() && tasks == map[] && queue == [] && sleepers == [] && done == map[] && clock == ticks
    {
      clock, readings, tasks, queue, sleepers, done, dueTurns := ticks, 0, map[], [], [], map[], 0;
      new;
      assert multiset(queue) + multiset(Ids(sleepers)) == multiset(tasks.Keys);
    }

    method UptimeTicks() returns (now: nat)
      requires Steady(clock)
      modifies `readings
      ensures now == clock(old(readings)) <= clock(readings) && readings == old(readings) + 1
    {
      now := clock(readings);
      readings := readings + 1;
    }

    /** A full queue is the only panic, and it cannot happen while at most 100 tasks live. */
    method Spawn(id: nat, program: seq<nat>) returns (ok: bool)
      requires Valid() && id !in tasks && id !in done
      modifies this
      ensures ok <==> |old(queue)| < 100
      ensures |old(tasks)| < 100 ==> ok
      ensures ok ==> Valid() && tasks == old(tasks)[id := Task(program, 0, None, [])] && queue == old(queue) + [id]
      ensures ok ==> sleepers == old(sleepers) && done == old(done) && readings == old(readings) && dueTurns == old(dueTurns)
    {
      hide TaskOk, Tokens, Parked, Clocked, Steady;
      TokensCount(queue, sleepers, tasks.Keys);
      FreshOk(program);
      SpawnKeeps(tasks, queue, sleepers, clock(readings), id, program);
      FreshClocked(tasks, id, program, clock, readings);
      ghost var live := tasks.Keys;
      tasks := tasks[id := Task(program, 0, None, [])];
      ok := |queue| < CAPACITY;
      if !ok { return; }
      TokensPush(queue, sleepers, live, id);
      assert tasks.Keys == live + {id};
      queue := queue + [id];
    }

    /** Exactly the due entries leave, in order, and become ready. */
    method WakeSleepers() returns (ok: bool)
      requires Valid()
      modifies `readings, `queue, `sleepers
      ensures ok <==> |old(queue)| + |Due(old(sleepers), clock(old(readings)))| <= 100
      ensures |tasks| <= 100 ==> ok
      ensures ok ==> Valid() && readings == old(readings) + 1
      ensures ok ==> sleepers == Waiting(old(sleepers), clock(old(readings))) && queue == old(queue) + Due(old(sleepers), clock(old(readings)))
    {
      hide Parked, TasksOk, Tokens, Due, Waiting, AllFinished;
      ghost var s0, q0 := sleepers, queue;
      TokensCount(q0, s0, tasks.Keys);
      WakeConserves(s0, clock(readings));
      var now := UptimeTicks();
      ok := Sift(now);
      WakeKeeps(tasks, q0, s0, now, now, clock(readings));
    }

    /** The loop of `wake_sleepers`: entries are removed in place while the index stays. */
    method Sift(now: nat) returns (ok: bool)
      requires |queue| <= CAPACITY
      modifies `queue, `sleepers
      ensures ok <==> |old(queue)| + |Due(old(sleepers), now)| <= CAPACITY
      ensures ok ==> sleepers == Waiting(old(sleepers), now) && queue == old(queue) + Due(old(sleepers), now)
    {
      hide Due, Waiting;
      ghost var s0, q0 := sleepers, queue;
      var i := 0;
      ghost var p := 0;
      WakeNone(s0, now);
      while i < |sleepers|
        invariant 0 <= p <= |s0| && i == |Waiting(s0[..p], now)| && |queue| <= CAPACITY
        invariant sleepers == Waiting(s0[..p], now) + s0[p..] && queue == q0 + Due(s0[..p], now)
        decreases |s0| - p
      {
        WakeStep(s0, p, i, now, sleepers);
        if sleepers[i].target <= now {
          var id := sleepers[i].id;
          sleepers := sleepers[..i] + sleepers[i + 1..];
          if |queue| >= CAPACITY { return false; }
          queue := queue + [id];
        } else {
          i := i + 1;
        }
        p := p + 1;
      }
      assert p == |s0| && s0[..p] == s0;
      ok := true;
    }

    /**
     Polls a task's future: awaits return one after another until one has to wait. A sleep whose entry
     was consumed is always over; a new one is registered once, for a tick still to come.
     */
    method PollFuture(id: nat, t: Task) returns (ready: bool, u: Task)
      requires Steady(clock) && TaskOk(t) && Woken(t, clock(readings))
      modifies `readings, `sleepers
      ensures TaskOk(u) && Later(t, u) && clock(old(readings)) <= clock(readings)
      ensures t.sleep.Some? ==> |u.log| >= t.next
      ensures ready ==> Finished(u) && sleepers == old(sleepers)
      ensures !ready ==> u.sleep.Some? && Dozing(u, u.sleep.value.target) && u.sleep.value.target > clock(old(readings))
      ensures !ready ==> sleepers == old(sleepers) + [Entry(u.sleep.value.target, id)]
      ensures readings >= old(readings) && (!ready ==> old(readings) <= u.sleep.value.at && SleepClocked(u, clock, readings))
    {
      hide TaskOk, Later;
      u := t;
      WokenSettled(t, clock(readings));
      while true
        invariant TaskOk(u) && Later(t, u) && Settled(u, clock(readings)) && clock(old(readings)) <= clock(readings)
        invariant u == t || (u.sleep.None? && (t.sleep.Some? ==> |u.log| >= t.next))
        invariant u.sleep.Some? ==> u.sleep.value.target <= clock(readings)
        invariant sleepers == old(sleepers) && readings >= old(readings)
        decreases |u.program| - |u.log|
      {
        LogBound(u);
        if u.sleep.None? {
          if u.next == |u.program| { return true, u; }
          var at := readings;
          var start := UptimeTicks();
          BeginOk(u, start, at);
          LaterTrans(t, u, Begin(u, start, at));
          u := Begin(u, start, at);
        }
        var now := UptimeTicks();
        LogBound(u);
        if now >= u.sleep.value.target {
          EndOk(u, now);
          LaterTrans(t, u, End(u, now));
          u := End(u, now);
        } else {
          RegisterOk(u);
          LaterTrans(t, u, Register(u));
          if !u.sleep.value.registered {
            sleepers := sleepers + [Entry(u.sleep.value.target, id)];
            u := Register(u);
          }
          return false, u;
        }
      }
    }

    /** One ready task: its token is consumed, and returned to SLEEPERS unless its future is over. */
    method RunOne(ghost floor: nat)
      requires Valid() && queue != [] && NoneDue(sleepers, floor) && floor <= clock(readings)
      modifies this
      ensures Valid() && queue == old(queue)[1..] && NoneDue(sleepers, floor) && floor <= clock(readings) && tasks.Keys <= old(tasks).Keys
      ensures Accounted(old(tasks), tasks, done) && KeptDone(old(done), done)
      ensures Recent(old(tasks), tasks, old(readings)) && readings >= old(readings) && dueTurns == old(dueTurns)
      ensures tasks - {old(queue)[0]} == old(tasks) - {old(queue)[0]} && done - {old(queue)[0]} == old(done) - {old(queue)[0]}
    {
      hide Tokens, TaskOk, Later, Steady, Recent, Clocked, Accounted, Parked, NoneDue;
      ghost var tasks0, q0, s0, c0, r0 := tasks, queue, sleepers, clock(readings), readings;
      var id := queue[0];
      queue := queue[1..];
      TokensPop(q0, s0, tasks.Keys);
      HeadWoken(tasks, q0, s0, c0);
      if id in tasks {
        var ready, u := PollFuture(id, tasks[id]);
        if ready {
          PopKeeps(tasks0, q0, s0, c0, clock(readings));
          AccountFor(tasks0, id, u, done);
          RecentFor(tasks0, id, u, r0);
          ClockedFor(tasks0, id, u, clock, r0, readings);
          tasks := tasks - {id};
          done := done[id := u];
        } else {
          SleepKeeps(tasks0, q0, s0, c0, clock(readings), u, u.sleep.value.target);
          AccountFor(tasks0, id, u, done);
          RecentFor(tasks0, id, u, r0);
          ClockedFor(tasks0, id, u, clock, r0, readings);
          NoneDueAppend(s0, Entry(u.sleep.value.target, id), floor);
          tasks := tasks[id := u];
        }
      }
    }

    /** The pop loop: afterwards the queue is empty and every live task dozes. */
    method RunReadyTasks(ghost floor: nat)
      requires Valid() && NoneDue(sleepers, floor) && floor <= clock(readings)
      modifies this
      ensures Valid() && queue == [] && NoneDue(sleepers, floor) && tasks.Keys <= old(tasks).Keys
      ensures Accounted(old(tasks), tasks, done) && KeptDone(old(done), done)
      ensures Recent(old(tasks), tasks, old(readings)) && readings >= old(readings) && dueTurns == old(dueTurns)
    {
      hide Tokens, TaskOk, Later, Steady, Parked, NoneDue, Clocked, Recent;
      AccountSelf(tasks, done);
      RecentSelf(tasks, readings);
      while queue != []
        invariant Valid() && NoneDue(sleepers, floor) && floor <= clock(readings) && tasks.Keys <= old(tasks).Keys
        invariant Accounted(old(tasks), tasks, done) && KeptDone(old(done), done)
        invariant Recent(old(tasks), tasks, old(readings)) && readings >= old(readings) && dueTurns == old(dueTurns)
        decreases |queue|
      {
        ghost var tasks1, done1, r1 := tasks, done, readings;
        RunOne(floor);
        RecentTrans(old(tasks), tasks1, tasks, old(readings), r1);
        AccountTrans(old(tasks), tasks1, done1, tasks, done);
      }
    }

    /**
     One turn of `run`: with at most 100 live tasks it never panics, and every sleep that was due when the
     turn began completes in it.
     */
    method RunOnce() returns (ok: bool)
      requires Valid()
      modifies this
      ensures |old(tasks)| <= 100 ==> ok
      ensures ok ==> tasks.Keys <= old(tasks).Keys
      ensures ok ==> Valid() && queue == [] && NoneDue(sleepers, clock(old(readings)))
      ensures ok ==> Accounted(old(tasks), tasks, done) && KeptDone(old(done), done)
      ensures ok ==> Recent(old(tasks), tasks, old(readings)) && readings > old(readings)
      ensures ok ==> dueTurns == old(dueTurns) + if AllDue(old(tasks), clock(old(readings))) then 1 else 0
      ensures ok ==> forall id :: id in old(tasks) && old(tasks)[id].sleep.Some? && old(tasks)[id].sleep.value.target <= clock(old(readings)) ==>
        var u := if id in tasks then tasks[id] else done[id]; |u.log| >= old(tasks)[id].next
      ensures ok ==> forall id :: id in old(tasks) && Over(old(tasks)[id], clock(old(readings))) ==>
        var u := if id in tasks then tasks[id] else done[id]; |u.log| >= old(tasks)[id].next
    {
      hide Tokens, TaskOk, Later, Steady, Parked, Due, Waiting, Clocked, Recent, AllDue, Over;
      ghost var tasks0, floor := tasks, clock(readings);
      ghost var s0 := sleepers;
      ok := WakeSleepers();
      if !ok { return; }
      WakeFloor(s0, floor);
      ClockMoves(clock, readings - 1, readings);
      ghost var r1 := readings;
      RunReadyTasks(floor);
      RecentEarlier(tasks0, tasks, r1 - 1, r1);
      if AllDue(tasks0, floor) { dueTurns := dueTurns + 1; }
      forall id | id in tasks0 ensures Over(tasks0[id], floor) <==> tasks0[id].sleep.Some? && tasks0[id].sleep.value.target <= floor {
        OverDue(tasks0[id], floor);
      }
      forall id | id in tasks0 && tasks0[id].sleep.Some? && tasks0[id].sleep.value.target <= floor
        ensures id in tasks || id in done
        ensures var u := if id in tasks then tasks[id] else done[id]; |u.log| >= tasks0[id].next
      {
        SleepOver(tasks0[id], id, tasks, done, queue, sleepers, floor, clock(readings));
      }
    }

    /**
     Any number of turns from at most 100 live tasks: no panic, and every finished task slept through its
     program in order, at least as long in all as it asked for. No task is left once more turns began with every
     sleep due than any program is long; and on a clock that gains a tick every `period` readings, no task is
     left after the number of turns `TurnsLeft` computes from the programs.
     */
    method Run(turns: nat, ghost period: nat)
      requires Valid() && |tasks| <= 100 && done == map[]
      modifies this
      ensures Valid() && Accounted(old(tasks), tasks, done)
      ensures forall id :: id in done ==> Served(done[id])
      ensures dueTurns >= old(dueTurns) && (ShorterThan(old(tasks), dueTurns - old(dueTurns)) ==> tasks == map[])
      ensures Ticking(clock, period) && DoneWithin(old(tasks), old(readings), period, turns) ==> tasks == map[]
    {
      hide Tokens, TaskOk, Later, Steady, Parked, NoneDue, Left, AllDue, Clocked, Recent, Ticking, TurnsLeft;
      AccountSelf(tasks, done);
      for k := 0 to turns
        invariant Valid() && |tasks| <= CAPACITY && Accounted(old(tasks), tasks, done)
        invariant dueTurns >= old(dueTurns) && Advanced(old(tasks), tasks, dueTurns - old(dueTurns))
        invariant Ticking(clock, period) ==> Nearer(old(tasks), old(readings), tasks, readings, period, k)
      {
        ghost var tasks1, done1, r1 := tasks, done, readings;
        ghost var now := clock(readings);
        var ok := RunOnce();
        Shrinks(tasks.Keys, tasks1.Keys);
        AccountTrans(old(tasks), tasks1, done1, tasks, done);
        TurnAdvances(tasks1, tasks, done, queue, sleepers, now, clock(readings));
        if Ticking(clock, period) {
          TurnNears(tasks1, r1, tasks, done, queue, sleepers, readings, clock, period);
          NearerOn(old(tasks), old(readings), tasks1, r1, tasks, readings, period, k);
        }
      }
      if ShorterThan(old(tasks), dueTurns - old(dueTurns)) { NobodyLeft(old(tasks), tasks, dueTurns - old(dueTurns)); }
      if Ticking(clock, period) && DoneWithin(old(tasks), old(readings), period, turns) {
        NobodyNear(old(tasks), old(readings), tasks, readings, period, turns);
      }
      forall id | id in done ensures Served(done[id]) { FinishedServed(done[id]); }
    }
  }
}
