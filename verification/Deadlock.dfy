/** When the kernel stops: the ASSERT before list_pop in schedule fails exactly at a deadlock, and
    without lock order some run gets there. */
module Deadlock {
  import opened Paging
  import opened Sched
  import opened SchedInvariant
  import opened SchedRuns

  // A stuck thread waits in a circle.

  /** The owner of the lock that t waits for. */
  function Next(s: State, t: int): int {
    if t in s.task && AtSema(s.task[t].pc) && s.task[t].pc.l in s.owner then s.owner[s.task[t].pc.l] else t
  }

  /** Where following the owners leads in n steps. */
  function Follow(s: State, t: int, n: nat): int {
    if n == 0 then t else Next(s, Follow(s, t, n - 1))
  }

  /** t waits for a lock that u, another thread, has taken. */
  ghost predicate WaitsOn(s: State, t: int, u: int) {
    && t in s.task && u in s.task && t != u
    && AtSema(s.task[t].pc) && s.task[t].pc.l in s.owner && s.owner[s.task[t].pc.l] == u
  }

  /** With nobody ready only the running thread can be on its way to a free lock. */
  lemma OnlyCurAwake(s: State, l: int)
    requires Inv(s) && s.ready == [] && l in s.lock && s.lock[l].value == 1 && s.lock[l].waiters != []
    ensures s.task[s.cur].pc == Down(l)
  {
    hide NoRepeats, Words, Places, Owners, Waiting, Clock, Listed;
    var u :| Woken(s, l, u);
    assert u !in s.ready;
  }

  /** When a thread has to wait and nobody is ready every thread waits for another. */
  lemma AllWait(s: State, t: int)
    requires Inv(s) && WellFormed(s) && Stuck(s, Advance) && t in s.task
    ensures WaitsOn(s, t, Next(s, t))
  {
    hide NoRepeats, Words, Clock, Listed;
    var l := s.task[t].pc.l;
    if t != s.cur {
      assert s.task[t].status == Blocked;
      assert s.lock[l].waiters != [];
      if s.lock[l].value == 1 { OnlyCurAwake(s, l); }
    }
    assert s.lock[l].value == 0 && l in s.owner;
    assert PlaceOk(s.task[t]) && !InSection(s.task[t], l);
  }

  lemma {:induction false} FollowIn(s: State, t: int, n: nat)
    requires Inv(s) && WellFormed(s) && Stuck(s, Advance) && t in s.task
    ensures Follow(s, t, n) in s.task
  {
    hide Inv, WellFormed, Stuck, Next;
    if n > 0 {
      FollowIn(s, t, n - 1);
      AllWait(s, Follow(s, t, n - 1));
    }
  }

  /** A sequence longer than the set its elements come from repeats one. */
  lemma {:induction false} Pigeonhole(q: seq<int>, z: set<int>) returns (i: nat, j: nat)
    requires |q| > |z| && forall k :: 0 <= k < |q| ==> q[k] in z
    ensures i < j < |q| && q[i] == q[j]
    decreases |q|
  {
    var last := |q| - 1;
    if k :| 0 <= k < last && q[k] == q[last] {
      i, j := k, last;
    } else {
      var rest := z - {q[last]};
      assert |rest| == |z| - 1;
      i, j := Pigeonhole(q[..last], rest);
    }
  }

  /** The ASSERT before list_pop fails only at a deadlock: from the thread that blocks, the owners
      of the locks waited for lead round a circle. */
  lemma StuckIsDeadlock(s: State) returns (i: nat, j: nat)
    requires Inv(s) && WellFormed(s) && Stuck(s, Advance)
    ensures i < j <= |s.task| && Follow(s, s.cur, i) == Follow(s, s.cur, j)
    ensures forall k: nat :: WaitsOn(s, Follow(s, s.cur, k), Follow(s, s.cur, k + 1))
  {
    hide Inv, WellFormed, Stuck, Next, WaitsOn;
    CurIsTask(s);
    var n := |s.task| + 1;
    forall k: nat ensures WaitsOn(s, Follow(s, s.cur, k), Follow(s, s.cur, k + 1)) {
      FollowIn(s, s.cur, k);
      AllWait(s, Follow(s, s.cur, k));
    }
    var q := seq(n, k requires k >= 0 => Follow(s, s.cur, k));
    forall k | 0 <= k < |q| ensures q[k] in s.task.Keys { FollowIn(s, s.cur, k); }
    assert |s.task.Keys| == |s.task|;
    i, j := Pigeonhole(q, s.task.Keys);
  }

  lemma CurIsTask(s: State)
    requires WellFormed(s)
    ensures s.cur in s.task
  {
  }

  // A run that gets stuck.

  /** The run leads from s to s', by the rules for clients. */
  predicate Leads(s: State, run: seq<Action>, s': State) {
    WellFormed(s) && WellFormed(s') && Allowed(s, run) && After(s, run) == Some(s')
  }

  lemma LeadsOne(s: State, a: Action)
    requires WellFormed(s) && Enabled(s, a) && Step(s, a).Some? && WellFormed(Step(s, a).value)
    ensures Leads(s, [a], Step(s, a).value)
  {
    hide WellFormed, Enabled, Step;
    var s' := Step(s, a).value;
    assert [a][1..] == [];
    assert After(s', []) == Some(s') && Allowed(s', []);
  }

  lemma {:induction false} LeadsJoin(s: State, r1: seq<Action>, s1: State, r2: seq<Action>, s2: State)
    requires Leads(s, r1, s1) && Leads(s1, r2, s2)
    ensures Leads(s, r1 + r2, s2)
    decreases |r1|
  {
    hide WellFormed, Enabled, Step;
    if r1 == [] {
      assert r1 + r2 == r2;
    } else {
      var s' := Step(s, r1[0]).value;
      LeadsJoin(s', r1[1..], s1, r2, s2);
      assert (r1 + r2)[0] == r1[0] && (r1 + r2)[1..] == r1[1..] + r2;
    }
  }

  /** One more step. */
  lemma LeadsOn(s: State, run: seq<Action>, s1: State, a: Action)
    requires Leads(s, run, s1) && Enabled(s1, a) && Step(s1, a).Some? && WellFormed(Step(s1, a).value)
    ensures Leads(s, run + [a], Step(s1, a).value)
  {
    hide WellFormed, Enabled, Step, Leads;
    LeadsWell(s, run, s1);
    LeadsOne(s1, a);
    LeadsJoin(s, run, s1, [a], Step(s1, a).value);
  }

  lemma LeadsWell(s: State, run: seq<Action>, s1: State)
    requires Leads(s, run, s1)
    ensures WellFormed(s) && WellFormed(s1)
  {
  }

  /** A run that ends where the next step fails. */
  lemma {:induction false} LeadsNowhere(s: State, run: seq<Action>, s1: State, a: Action)
    requires Leads(s, run, s1) && Enabled(s1, a) && Step(s1, a) == None
    ensures Allowed(s, run + [a]) && After(s, run + [a]) == None
    decreases |run|
  {
    hide WellFormed, Enabled, Step;
    if run == [] {
      assert (run + [a])[0] == a;
    } else {
      LeadsNowhere(Step(s, run[0]).value, run[1..], s1, a);
      assert (run + [a])[0] == run[0] && (run + [a])[1..] == run[1..] + [a];
    }
  }

  /** One more step of a run from a state of the invariant. */
  lemma Onward(s: State, run: seq<Action>, s1: State, a: Action) returns (run': seq<Action>, s': State)
    requires Leads(s, run, s1) && Inv(s1) && Enabled(s1, a) && !Stuck(s1, a)
    ensures run' == run + [a] && Step(s1, a) == Some(s') && Leads(s, run', s') && Inv(s') && WellFormed(s')
  {
    hide Inv, WellFormed, Enabled, Step, Stuck, Leads;
    LeadsWell(s, run, s1);
    StepKeeps(s1, a);
    LeadsOn(s, run, s1, a);
    run', s' := run + [a], Step(s1, a).value;
  }

  /** The running thread has come to the door of lock l, which it does not hold. */
  ghost predicate Came(s: State, s': State, l: int) {
    && s'.cur == s.cur && s'.ready == s.ready && s'.lock == s.lock && s.cur in s.task && s.cur in s'.task
    && (forall t :: t in s.task && t != s.cur ==> t in s'.task && s'.task[t] == s.task[t])
    && s'.task[s.cur] == s.task[s.cur].(pc := Entering(l))
  }

  lemma TryLock(s0: State, run0: seq<Action>, s: State, l: int) returns (run: seq<Action>, s': State)
    requires Leads(s0, run0, s) && Inv(s) && WellFormed(s) && s.task[s.cur].pc == Client
    requires l in s.lock && Depth(s.task[s.cur], l) == 0
    ensures Leads(s0, run, s') && Inv(s') && WellFormed(s') && Came(s, s', l)
  {
    hide Inv, Leads;
    run, s' := Onward(s0, run0, s, Acquire(l));
    HolderIsCur(s', l);
    run, s' := Onward(s0, run, s', Advance);
  }

  /** The running thread has taken lock l, once, and nothing else has happened. */
  ghost predicate Took(s: State, s': State, l: int) {
    && s'.cur == s.cur && s'.ready == s.ready && s.cur in s.task && s.cur in s'.task
    && (forall t :: t in s.task && t != s.cur ==> t in s'.task && s'.task[t] == s.task[t])
    && (var x, y := s.task[s.cur], s'.task[s.cur];
      y == x.(pc := Client, depth := y.depth) && forall m :: m != l ==> Depth(y, m) == Depth(x, m))
    && (forall m :: m in s.lock && m != l ==> m in s'.lock && s'.lock[m] == s.lock[m])
    && l in s'.lock && s'.lock[l].value == 0
  }

  lemma TakeLock(s0: State, run0: seq<Action>, s: State, l: int) returns (run: seq<Action>, s': State)
    requires Leads(s0, run0, s) && Inv(s) && WellFormed(s) && s.task[s.cur].pc == Client
    requires l in s.lock && s.lock[l] == Lock(1, [], None, 0) && Depth(s.task[s.cur], l) == 0
    ensures Leads(s0, run, s') && Inv(s') && WellFormed(s') && Took(s, s', l)
  {
    hide Inv, Leads, WellFormed, Execute;
    run, s' := TryLock(s0, run0, s, l);
    var s1 := s';
    run, s' := PassLock(s0, run, s1, l);
    var s2 := s';
    run, s' := HoldLock(s0, run, s2, l);
  }

  /** The semaphore is free and is taken. */
  lemma PassLock(s0: State, run0: seq<Action>, s: State, l: int) returns (run: seq<Action>, s': State)
    requires Leads(s0, run0, s) && Inv(s) && WellFormed(s) && s.task[s.cur].pc == Entering(l)
    requires l in s.lock && s.lock[l] == Lock(1, [], None, 0)
    ensures Leads(s0, run, s') && Inv(s') && WellFormed(s')
    ensures s'.cur == s.cur && s'.ready == s.ready && s'.lock == s.lock[l := Lock(0, [], None, 0)]
    ensures s'.task == s.task[s.cur := s.task[s.cur].(pc := Taken(l))]
  {
    hide Inv, Leads;
    run, s' := Onward(s0, run0, s, Advance);
  }

  /** Holder and count are set. */
  lemma HoldLock(s0: State, run0: seq<Action>, s: State, l: int) returns (run: seq<Action>, s': State)
    requires Leads(s0, run0, s) && Inv(s) && WellFormed(s) && s.task[s.cur].pc == Taken(l)
    requires l in s.lock && s.lock[l] == Lock(0, [], None, 0)
    ensures Leads(s0, run, s') && Inv(s') && WellFormed(s') && Took(s, s', l)
  {
    hide Inv, Leads;
    run, s' := Onward(s0, run0, s, Advance);
    run, s' := Onward(s0, run, s', Advance);
    assert s'.task[s.cur].pc == Marking(l);
    run, s' := Onward(s0, run, s', Advance);
  }

  /** It waits, and the one ready thread runs. */
  lemma WaitFor(s0: State, run0: seq<Action>, s: State, l: int, u: int) returns (run: seq<Action>, s': State)
    requires Leads(s0, run0, s) && Inv(s) && WellFormed(s) && s.task[s.cur].pc == Entering(l)
    requires l in s.lock && s.lock[l].value == 0 && s.ready == [u] && u != s.cur && u in s.task
    ensures Leads(s0, run, s') && Inv(s') && WellFormed(s') && s'.cur == u && s'.ready == []
    ensures s'.task[u] == s.task[u].(status := Running)
    ensures forall m :: m in s.lock ==> m in s'.lock && s'.lock[m].value == s.lock[m].value
  {
    hide Inv, Leads, Schedule;
    run, s' := Onward(s0, run0, s, Advance);
    CurWaits(s, l);
    ScheduleOnly(Waited(s, l), u);
  }

  lemma CurWaits(s: State, l: int)
    requires Inv(s) && WellFormed(s) && s.task[s.cur].pc == Entering(l) && l in s.lock && s.lock[l].value == 0
    ensures Execute(s) == Schedule(Waited(s, l))
  {
    WaitedQueues(s, l);
    hide Inv, Schedule;
  }

  lemma ScheduleOnly(s: State, u: int)
    requires s.cur in s.task && s.task[s.cur].status == Blocked && s.ready == [u] && u in s.task
    ensures Schedule(s).Some?
    ensures var s' := Schedule(s).value;
      s'.cur == u && s'.ready == [] && u in s'.task && s'.task[u] == s.task[u].(status := Running) && s'.lock == s.lock
  {
  }

  /** A second thread is started, the first takes lock 0, and the timer brings on the second. */
  lemma FirstHalf() returns (run: seq<Action>, s: State)
    ensures Leads(Boot(0, {0, 1}), run, s) && Inv(s) && WellFormed(s)
    ensures s.cur == 1 && s.ready == [0] && s.task[1].pc == Client && 0 in s.task && s.task[0].pc == Client
    ensures 0 in s.lock && s.lock[0].value == 0 && 1 in s.lock && s.lock[1] == Lock(1, [], None, 0)
    ensures Depth(s.task[1], 0) == 0 && Depth(s.task[1], 1) == 0 && Depth(s.task[0], 1) == 0
  {
    var b := Boot(0, {0, 1});
    BootKeeps(0, {0, 1});
    hide Inv, Leads;
    assert Leads(b, [], b) by { LeadsNone(b); }
    run, s := Onward(b, [], b, Start(1, 1));
    run, s := Onward(b, run, s, Advance);
    var s1 := s;
    assert s1.ready == [1] && s1.task[1] == Task(Ready, Client, 1, 1, 0, MAGIC, map[]) && s1.lock == b.lock;
    assert s1.task[0] == Task(Running, Client, 1, 1, 0, MAGIC, map[]);
    run, s := TakeLock(b, run, s, 0);
    var s2 := s;
    run, s := Onward(b, run, s, Timer);
    assert s.task[0].ticks == 0 && s.lock == s2.lock && s.ready == [1] && s.cur == 0;
    run, s := Onward(b, run, s, Timer);
  }

  lemma LeadsNone(s: State)
    requires WellFormed(s)
    ensures Leads(s, [], s)
  {
  }

  /** Lock order is needed: two threads that take two locks in opposite orders, by the rules for
      clients otherwise, bring the ASSERT before list_pop to fail in a run from boot. */
  lemma OutOfOrder() returns (run: seq<Action>)
    ensures WellFormed(Boot(0, {0, 1})) && Allowed(Boot(0, {0, 1}), run) && After(Boot(0, {0, 1}), run) == None
  {
    hide Inv, Leads, Boot;
    var b := Boot(0, {0, 1});
    var s;
    run, s := FirstHalf();
    var s1 := s;
    run, s := TakeLock(b, run, s, 1);
    assert s.task[0] == s1.task[0] && s.lock[0].value == 0;
    run, s := TryLock(b, run, s, 0);
    run, s := WaitFor(b, run, s, 0, 0);
    assert s.lock[1].value == 0;
    run, s := TryLock(b, run, s, 1);
    StepKeeps(s, Advance);
    LeadsWell(b, run, s);
    LeadsNowhere(b, run, s, Advance);
    run := run + [Advance];
  }
}
