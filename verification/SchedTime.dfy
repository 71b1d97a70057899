/** How long a queued thread waits, and what share of the time each thread gets. */
module SchedTime {
  import opened Paging
  import opened Sched
  import opened SchedInvariant
  import opened SchedRuns

  /** Timer interrupts that the threads of q ahead of t take before t's turn. */
  function Ahead(task: map<int, Task>, q: seq<int>, t: int): (w: int)
    requires forall i :: 0 <= i < |q| ==> q[i] in task
  {
    if q == [] || q[0] == t then 0 else task[q[0]].ticks + 1 + Ahead(task, q[1..], t)
  }

  lemma {:induction false} AheadBound(task: map<int, Task>, q: seq<int>, t: int)
    requires forall i :: 0 <= i < |q| ==> q[i] in task && task[q[i]].ticks >= 0
    ensures Ahead(task, q, t) >= 0
  {
    if q != [] { AheadBound(task, q[1..], t); }
  }

  lemma {:induction false} AheadSame(task: map<int, Task>, task': map<int, Task>, q: seq<int>, t: int)
    requires forall i :: 0 <= i < |q| ==> q[i] in task && q[i] in task' && task'[q[i]].ticks == task[q[i]].ticks
    ensures Ahead(task', q, t) == Ahead(task, q, t)
  {
    if q != [] { AheadSame(task, task', q[1..], t); }
  }

  lemma {:induction false} AheadAppend(task: map<int, Task>, q: seq<int>, t: int, u: int)
    requires t in q && u in task && forall i :: 0 <= i < |q| ==> q[i] in task
    ensures Ahead(task, q + [u], t) == Ahead(task, q, t)
  {
    assert (q + [u])[0] == q[0];
    if q[0] != t {
      assert (q + [u])[1..] == q[1..] + [u];
      AheadAppend(task, q[1..], t, u);
    }
  }

  ghost predicate Queued(s: State, t: int) {
    && s.cur in s.task && (forall i :: 0 <= i < |s.ready| ==> s.ready[i] in s.task) && t in s.ready
  }

  /** The potential of queued thread t. */
  function W(s: State, t: int): int
    requires Queued(s, t)
  {
    s.task[s.cur].ticks + 1 + Ahead(s.task, s.ready, t)
  }

  lemma InvQueued(s: State, t: int)
    requires Inv(s) && t in s.ready
    ensures Queued(s, t) && W(s, t) >= s.task[s.cur].ticks + 1 >= 1
    ensures forall i :: 0 <= i < |s.ready| ==>
      s.ready[i] in s.task && s.ready[i] != s.cur && s.task[s.ready[i]].ticks >= 0
  {
    hide NoRepeats, Listed, Waiting, Owners, Words, Places, Awake, Clock;
    forall i | 0 <= i < |s.ready|
      ensures s.ready[i] in s.task && s.ready[i] != s.cur && s.task[s.ready[i]].ticks >= 0
    {
      var u := s.ready[i];
      assert u in s.ready;
    }
    AheadBound(s.task, s.ready, t);
  }

  /** W when the thread at the head is taken off: by schedule, whoever ran before. */
  lemma Switch(s: State, s': State, t: int)
    requires Queued(s, t) && s.ready != [] && s.ready[0] != t
    requires s'.cur == s.ready[0] && (s'.ready == s.ready[1..] || (s.cur != t && s'.ready == s.ready[1..] + [s.cur]))
    requires s.cur in s'.task
    requires forall i :: 0 <= i < |s.ready| ==>
      s.ready[i] in s'.task && s'.task[s.ready[i]].ticks == s.task[s.ready[i]].ticks
    ensures Queued(s', t) && W(s', t) == W(s, t) - s.task[s.cur].ticks - 1
  {
    var q := s.ready[1..];
    assert s.ready == [s.ready[0]] + q;
    assert forall i :: 0 <= i < |q| ==> q[i] == s.ready[i + 1];
    AheadSame(s.task, s'.task, q, t);
    if s'.ready != q { AheadAppend(s'.task, q, t, s.cur); }
  }

  /** Each timer interrupt brings t nearer by exactly 1. */
  lemma TimerLowers(s: State, t: int)
    requires Inv(s) && WellFormed(s) && t in s.ready && Tick(s).Some?
    ensures Queued(s, t)
    ensures var s' := Tick(s).value;
      if W(s, t) == 1 then s'.cur == t else Queued(s', t) && W(s', t) == W(s, t) - 1
  {
    InvQueued(s, t);
    hide Inv, Waiting, NoRepeats;
    var s' := Tick(s).value;
    if s.task[s.cur].ticks == 0 {
      HeadOrBehind(s, t);
      var q := s.ready + [s.cur];
      assert q[0] == s.ready[0] && q[1..] == s.ready[1..] + [s.cur];
      if s.ready[0] != t { Switch(s, s', t); }
    } else {
      AheadSame(s.task, s'.task, s.ready, t);
    }
  }

  lemma HeadOrBehind(s: State, t: int)
    requires Inv(s) && t in s.ready && s.task[s.cur].ticks == 0
    ensures Queued(s, t) && (W(s, t) == 1 <==> s.ready[0] == t)
  {
    InvQueued(s, t);
    if s.ready[0] != t { AheadBound(s.task, s.ready[1..], t); }
  }

  /** thread_start does not delay the threads already queued. */
  lemma StartWait(s: State, t: int, u: int, prio: int)
    requires Inv(s) && t in s.ready && s.cur in s.task && u !in s.task
    ensures Queued(s, t) && StartThread(s, u, prio).Some?
    ensures var s' := StartThread(s, u, prio).value; Queued(s', t) && W(s', t) == W(s, t)
  {
    InvQueued(s, t);
    NotQueued(s, u);
    hide Inv, W;
    var s' := StartThread(s, u, prio).value;
    SameAhead(s, s', t);
    AheadAppend(s'.task, s.ready, t, u);
    assert W(s', t) == s'.task[s.cur].ticks + 1 + Ahead(s'.task, s.ready + [u], t);
    assert W(s, t) == s.task[s.cur].ticks + 1 + Ahead(s.task, s.ready, t);
  }

  /** Nor does process_execute. */
  lemma ProcessWait(s: State, t: int, u: int, prio: int)
    requires Inv(s) && WellFormed(s) && t in s.ready && u !in s.task && s.task[s.cur].pc == Client
    ensures Queued(s, t) && StartProcess(s, u, prio).Some?
    ensures var s' := StartProcess(s, u, prio).value; Queued(s', t) && W(s', t) == W(s, t)
  {
    hide Inv, W;
    StartWait(s, t, u, prio);
    ProcessKeeps(s, u, prio);
    ProcessIsThread(s, u, prio);
    SameWait(StartThread(s, u, prio).value, StartProcess(s, u, prio).value, t);
  }

  lemma NotQueued(s: State, u: int)
    requires Inv(s) && u !in s.task
    ensures u !in s.ready && u != s.cur
  {
    hide NoRepeats, Listed, Waiting, Owners, Words, Places, Awake, Clock;
  }

  lemma SameAhead(s: State, s': State, t: int)
    requires Queued(s, t)
    requires forall i :: 0 <= i < |s.ready| ==>
      s.ready[i] in s'.task && s'.task[s.ready[i]].ticks == s.task[s.ready[i]].ticks
    ensures Ahead(s'.task, s.ready, t) == Ahead(s.task, s.ready, t)
  {
    AheadSame(s.task, s'.task, s.ready, t);
  }

  /** A thread that blocks gives up its quantum: the wait of every other queued thread falls. */
  lemma BlockWait(s: State, t: int, l: int)
    requires Inv(s) && t in s.ready && AtDown(s, l) && s.lock[l].value == 0
    ensures Queued(s, t) && SemaDown(s, l).Some?
    ensures var s' := SemaDown(s, l).value;
      s'.cur == t || (Queued(s', t) && W(s', t) == W(s, t) - s.task[s.cur].ticks - 1)
  {
    WaitKeeps(s, l);
    InvQueued(s, t);
    hide Inv, SemaDown, AtDown;
    if s.ready[0] != t { Switch(s, SemaDown(s, l).value, t); }
  }

  lemma FrontWait(s: State, s': State, t: int, w: int)
    requires Queued(s, t) && w != t && s'.cur == s.cur && s'.ready == [w] + s.ready && w in s'.task && s.cur in s'.task
    requires s'.task[s.cur].ticks == s.task[s.cur].ticks
    requires forall i :: 0 <= i < |s.ready| ==>
      s.ready[i] in s'.task && s'.task[s.ready[i]].ticks == s.task[s.ready[i]].ticks
    ensures Queued(s', t) && W(s', t) == W(s, t) + s'.task[w].ticks + 1
  {
    AheadSame(s.task, s'.task, s.ready, t);
    assert s'.ready[0] == w && s'.ready[1..] == s.ready;
  }

  lemma FirstWaiter(s: State, l: int)
    requires Inv(s) && l in s.lock && s.lock[l].waiters != []
    ensures var w := s.lock[l].waiters[0];
      w in s.task && s.task[w].status == Blocked && w != s.cur && w !in s.ready && s.task[w].ticks <= s.task[w].prio
    ensures forall t :: t in s.lock[l].waiters ==> t in s.task
  {
    hide NoRepeats, Listed, Owners, Words, Places, Awake, Clock;
    var w := s.lock[l].waiters[0];
    assert w in s.lock[l].waiters;
  }

  /** A thread woken by sema_up goes to the front: the others wait for its quantum, at most its
      priority + 1. */
  lemma WakeWait(s: State, t: int, l: int)
    requires Inv(s) && t in s.ready && AtUp(s, l) && s.lock[l].waiters != []
    ensures Queued(s, t) && s.lock[l].waiters[0] in s.task && (forall u :: u in s.lock[l].waiters ==> u in s.task)
    ensures Wake(s, l).Some?
    ensures var s', w := Wake(s, l).value, s.lock[l].waiters[0];
      Queued(s', t) && W(s', t) == W(s, t) + s.task[w].ticks + 1 <= W(s, t) + s.task[w].prio + 1
  {
    FirstWaiter(s, l);
    InvQueued(s, t);
    hide Inv, AtUp, W;
    FrontWait(s, Wake(s, l).value, t, s.lock[l].waiters[0]);
  }

  lemma SameWait(s: State, s': State, t: int)
    requires Queued(s, t) && s'.cur == s.cur && s'.ready == s.ready && s.cur in s'.task
    requires s'.task[s.cur].ticks == s.task[s.cur].ticks
    requires forall i :: 0 <= i < |s.ready| ==>
      s.ready[i] in s'.task && s'.task[s.ready[i]].ticks == s.task[s.ready[i]].ticks
    ensures Queued(s', t) && W(s', t) == W(s, t)
  {
    AheadSame(s.task, s'.task, s.ready, t);
  }

  /** What a step can add to the waits of queued threads: the quantum of a thread it wakes. */
  function WakeCost(s: State, a: Action): int
    requires WellFormed(s)
  {
    var pc := s.task[s.cur].pc;
    if a == Advance && pc.Upping? && s.lock[pc.l].waiters != [] then
      var w := s.lock[pc.l].waiters[0];
      assert w in s.lock[pc.l].waiters;
      s.task[w].prio + 1
    else 0
  }

  lemma FreedWait(s: State, t: int, l: int)
    requires Queued(s, t) && l in s.lock
    ensures Queued(Freed(s, l), t) && W(Freed(s, l), t) == W(s, t)
  {
    var s' := Freed(s, l);
    forall i | 0 <= i < |s.ready|
      ensures s.ready[i] in s'.task && s'.task[s.ready[i]].ticks == s.task[s.ready[i]].ticks
    {}
    SameWait(s, s', t);
  }

  lemma UpIs(s: State, l: int)
    requires Inv(s) && WellFormed(s) && s.task[s.cur].pc == Upping(l)
    ensures l in s.lock && AtUp(s, l) && (forall t :: t in s.lock[l].waiters ==> t in s.task) && Wake(s, l).Some?
    ensures AtUp(Wake(s, l).value, l) && Execute(s) == Some(Freed(Wake(s, l).value, l))
  {
    hide Inv, Listed, Words, Places, Awake, Clock, NoRepeats;
    CurPlace(s);
    CurOwns(s, l);
    if s.lock[l].waiters != [] { WakeQueues(s, l); }
  }

  lemma UpWait(s: State, t: int, l: int)
    requires Inv(s) && WellFormed(s) && t in s.ready && s.task[s.cur].pc == Upping(l) && Execute(s).Some?
    ensures Queued(s, t)
    ensures var s' := Execute(s).value; Queued(s', t) && W(s', t) <= W(s, t) + WakeCost(s, Advance)
  {
    UpIs(s, l);
    InvQueued(s, t);
    if s.lock[l].waiters != [] { WakeWait(s, t, l); }
    FreedWait(Wake(s, l).value, t, l);
    hide Inv, Freed, AtUp, Unblock, Execute;
  }

  /** The running thread goes on running, and the queue stays. */
  ghost predicate Plain(s: State, s': State) {
    && s'.cur == s.cur && s'.ready == s.ready && s.cur in s.task && s.cur in s'.task
    && s'.task[s.cur].ticks == s.task[s.cur].ticks
    && (forall t :: t in s.task && t != s.cur ==> t in s'.task && s'.task[t] == s.task[t])
  }

  lemma ExecutePlain(s: State)
    requires WellFormed(s) && Execute(s).Some? && !s.task[s.cur].pc.Upping?
    requires !(AtSema(s.task[s.cur].pc) && s.lock[s.task[s.cur].pc.l].value == 0)
    ensures Plain(s, Execute(s).value)
  {
    hide Depth, Block, SemaUp;
  }

  lemma PlainSame(s: State, s': State, t: int)
    requires Queued(s, t) && Plain(s, s') && s.cur !in s.ready
    ensures Queued(s', t) && W(s', t) == W(s, t)
  {
    forall i | 0 <= i < |s.ready|
      ensures s.ready[i] in s'.task && s'.task[s.ready[i]].ticks == s.task[s.ready[i]].ticks
    {
      var u := s.ready[i];
      assert u != s.cur && u in s.task;
    }
    SameWait(s, s', t);
  }

  /** A statement that neither blocks nor wakes. */
  lemma PlainWait(s: State, t: int)
    requires Inv(s) && WellFormed(s) && t in s.ready && Execute(s).Some? && !s.task[s.cur].pc.Upping?
    requires !(AtSema(s.task[s.cur].pc) && s.lock[s.task[s.cur].pc.l].value == 0)
    ensures Queued(s, t) && Queued(Execute(s).value, t) && W(Execute(s).value, t) == W(s, t)
  {
    InvQueued(s, t);
    ExecutePlain(s);
    FifoCur(s);
    hide Inv, Execute, Plain, W;
    PlainSame(s, Execute(s).value, t);
  }

  lemma AdvanceWait(s: State, t: int)
    requires Inv(s) && WellFormed(s) && t in s.ready && s.task[s.cur].pc != Client && Execute(s).Some?
    ensures Queued(s, t)
    ensures var s' := Execute(s).value;
      s'.cur == t || (Queued(s', t) && W(s', t) <= W(s, t) + WakeCost(s, Advance))
  {
    var pc := s.task[s.cur].pc;
    InvQueued(s, t);
    if pc.Upping? {
      UpWait(s, t, pc.l);
    } else if AtSema(pc) && s.lock[pc.l].value == 0 {
      BlockWait(s, t, pc.l);
    } else {
      PlainWait(s, t);
    }
  }

  /** One step of any kind: a timer interrupt lowers the wait by 1, a wakeup may raise it, nothing
      else does. */
  lemma StepWait(s: State, a: Action, t: int)
    requires Inv(s) && WellFormed(s) && Enabled(s, a) && t in s.ready && Step(s, a).Some?
    ensures Queued(s, t)
    ensures var s' := Step(s, a).value;
      s'.cur == t ||
      (Queued(s', t) && W(s', t) + (if a == Timer then 1 else 0) <= W(s, t) + WakeCost(s, a))
  {
    hide Inv, Execute, Tick, StartThread;
    InvQueued(s, t);
    match a
    case Timer => TimerLowers(s, t);
    case Start(u, prio) => StartWait(s, t, u, prio);
    case Spawn(u, prio) => ProcessWait(s, t, u, prio);
    case Advance => AdvanceWait(s, t);
    case Acquire(l) => CallWait(s, t, Acquiring(l));
    case Release(l) => CallWait(s, t, Releasing(l));
  }

  lemma CallWait(s: State, t: int, pc: Pc)
    requires Inv(s) && t in s.ready
    ensures Queued(s, t) && Queued(SetPc(s, pc), t) && W(SetPc(s, pc), t) == W(s, t)
  {
    InvQueued(s, t);
    hide Inv;
    var s' := SetPc(s, pc);
    forall i | 0 <= i < |s.ready|
      ensures s.ready[i] in s'.task && s'.task[s.ready[i]].ticks == s.task[s.ready[i]].ticks
    {}
    SameWait(s, s', t);
  }

  // Runs.

  function Timers(run: seq<Action>): nat {
    if run == [] then 0 else (if run[0] == Timer then 1 else 0) + Timers(run[1..])
  }

  lemma StepClock(s: State, a: Action)
    requires Inv(s) && WellFormed(s) && Step(s, a).Some?
    ensures Step(s, a).value.clock == (s.clock + if a == Timer then 1 else 0) % WORD
  {
    hide Partition, Listed, Waiting, Owners, Words, Places, Awake, Elapsed;
  }

  lemma {:induction false} ClockCounts(s: State, run: seq<Action>)
    requires Inv(s) && WellFormed(s) && Allowed(s, run) && After(s, run).Some?
    ensures After(s, run).value.clock == (s.clock + Timers(run)) % WORD
    decreases |run|
  {
    hide Inv, Step, Enabled, WellFormed;
    if run != [] {
      StepKeeps(s, run[0]);
      StepClock(s, run[0]);
      ClockCounts(Step(s, run[0]).value, run[1..]);
    } else {
      ClockRange(s);
    }
  }

  lemma ClockRange(s: State)
    requires Inv(s)
    ensures 0 <= s.clock < WORD
  {
    hide Partition, Listed, Waiting, Owners, Words, Places, Awake, Elapsed;
  }

  /** Conservation: over any run from boot the elapsed_ticks of all threads add up, modulo 2^32,
      to the global ticks, and these to the timer interrupts that came. */
  lemma TicksAddUp(main: int, locks: set<int>, run: seq<Action>)
    requires WellFormed(Boot(main, locks)) && Allowed(Boot(main, locks), run) && After(Boot(main, locks), run).Some?
    ensures var s := After(Boot(main, locks), run).value;
      && (forall i :: 0 <= i < |s.made| ==> s.made[i] in s.task) && (forall t :: t in s.task ==> t in s.made)
      && NoRepeats(s.made) && Elapsed(s.task, s.made) % WORD == s.clock == Timers(run) % WORD
  {
    hide Step, Enabled, WellFormed, Partition, Listed, Waiting, Owners, Words, Places, Awake, Elapsed;
    BootKeeps(main, locks);
    RunKeeps(Boot(main, locks), run);
    ClockCounts(Boot(main, locks), run);
  }

  /** The priorities of the threads woken along a run, each with 1 added. */
  function WakeCosts(s: State, run: seq<Action>): int
    requires WellFormed(s) && After(s, run).Some?
    decreases |run|
  {
    if run == [] then 0 else WakeCost(s, run[0]) + WakeCosts(Step(s, run[0]).value, run[1..])
  }

  /** t does not get to run along a run. */
  predicate Starved(s: State, run: seq<Action>, t: int)
    requires WellFormed(s) && After(s, run).Some?
    decreases |run|
  {
    s.cur != t && (run == [] || Starved(Step(s, run[0]).value, run[1..], t))
  }

  /** The waiting bound: while a queued thread waits, the timer interrupts are fewer than its
      potential and what wakeups have added. */
  lemma {:induction false} WaitBound(s: State, run: seq<Action>, t: int)
    requires Inv(s) && WellFormed(s) && Allowed(s, run) && t in s.ready && After(s, run).Some?
    requires Starved(s, run, t)
    ensures Queued(s, t) && Queued(After(s, run).value, t)
    ensures Timers(run) + W(After(s, run).value, t) <= W(s, t) + WakeCosts(s, run)
    ensures Timers(run) < W(s, t) + WakeCosts(s, run)
    decreases |run|
  {
    hide Inv, Step, Enabled, WakeCost, W;
    InvQueued(s, t);
    if run != [] {
      StepKeeps(s, run[0]);
      StepWait(s, run[0], t);
      var s1 := Step(s, run[0]).value;
      assert s1.cur != t;
      WaitBound(s1, run[1..], t);
    }
  }

  // Timer interrupts alone.

  /** n timer interrupts. */
  function TickN(s: State, n: nat): Option<State>
    requires WellFormed(s)
    decreases n
  {
    if n == 0 then Some(s)
    else if Tick(s).Some? && WellFormed(Tick(s).value) then TickN(Tick(s).value, n - 1)
    else None
  }

  /** Nobody who could run has interrupts off. */
  ghost predicate Quiet(s: State) {
    forall t :: t in s.task && s.task[t].status != Blocked ==> !s.task[t].pc.Down?
  }

  lemma QuietTick(s: State)
    requires Inv(s) && WellFormed(s) && Quiet(s)
    ensures Tick(s).Some? && Inv(Tick(s).value) && WellFormed(Tick(s).value)
    ensures Quiet(Tick(s).value) && Enabled(s, Timer)
  {
    hide Inv, Tick;
    CurIn(s);
    TickKeeps(s);
    StepKeepsTick(s);
    var s' := Tick(s).value;
    forall t | t in s'.task && s'.task[t].status != Blocked ensures !s'.task[t].pc.Down? {
      assert SameTask(s.task[t], s'.task[t]);
    }
  }

  lemma StepKeepsTick(s: State)
    requires Inv(s) && WellFormed(s)
    ensures Tick(s).Some? && Inv(Tick(s).value) && WellFormed(Tick(s).value)
  {
    hide Inv, Tick;
    TickKeeps(s);
    PartitionCur(Tick(s).value);
  }

  lemma {:induction false} TickNKeeps(s: State, n: nat)
    requires Inv(s) && WellFormed(s)
    ensures TickN(s, n).Some? && Inv(TickN(s, n).value) && WellFormed(TickN(s, n).value)
    decreases n
  {
    hide Inv, Tick;
    if n > 0 {
      StepKeepsTick(s);
      TickNKeeps(Tick(s).value, n - 1);
    }
  }

  function Quanta(n: nat): seq<Action> { seq(n, _ => Timer) }

  /** While nobody is on the way out of sema_down, timer interrupts alone make a run. */
  lemma {:induction false} TickNIsRun(s: State, n: nat)
    requires Inv(s) && WellFormed(s) && Quiet(s)
    ensures Allowed(s, Quanta(n)) && After(s, Quanta(n)) == TickN(s, n)
    decreases n
  {
    hide Inv, Tick, Quiet;
    if n > 0 {
      QuietTick(s);
      TickNIsRun(Tick(s).value, n - 1);
      assert Quanta(n)[1..] == Quanta(n - 1) && Quanta(n)[0] == Timer;
    }
  }

  /** A queued thread runs after exactly W timer interrupts, and not before. */
  lemma {:induction false} ExactWait(s: State, t: int, n: nat)
    requires Inv(s) && WellFormed(s) && t in s.ready
    ensures Queued(s, t) && TickN(s, n).Some?
    ensures n < W(s, t) ==> t in TickN(s, n).value.ready && TickN(s, n).value.cur != t
    ensures n == W(s, t) ==> TickN(s, n).value.cur == t
    decreases n
  {
    hide Inv, Tick, W;
    InvQueued(s, t);
    TickNKeeps(s, n);
    if n == 0 {
      ReadyNotCur(s, t);
    } else {
      StepKeepsTick(s);
      TimerLowers(s, t);
      if W(s, t) != 1 { ExactWait(Tick(s).value, t, n - 1); }
    }
  }

  lemma ReadyNotCur(s: State, t: int)
    requires Inv(s) && t in s.ready
    ensures t != s.cur
  {
    hide NoRepeats, Listed, Waiting, Owners, Words, Places, Awake, Clock;
  }

  // Round robin.

  /** A uint32_t counter after k increments. */
  function Plus(e: int, k: int): int { (e + k) % WORD }

  lemma PlusPlus(e: int, j: int, k: int)
    ensures Plus(Plus(e, j), k) == Plus(e, j + k)
  {
  }

  /** The queue, the running thread first. */
  function Line(s: State): seq<int> { [s.cur] + s.ready }

  /** Every thread in line has its whole quantum. */
  ghost predicate Whole(s: State) {
    forall t :: t in s.task && s.task[t].status != Blocked ==> s.task[t].ticks == s.task[t].prio
  }

  /** The running thread has used k of its ticks, and nothing else has happened. */
  ghost predicate Ran(s: State, s': State, k: int) {
    && s.cur in s.task && s'.cur == s.cur && s'.ready == s.ready && s'.task.Keys == s.task.Keys
    && (forall t :: t in s.task && t != s.cur ==> s'.task[t] == s.task[t])
    && var x, y := s.task[s.cur], s'.task[s.cur];
      y == x.(ticks := x.ticks - k, elapsed := Plus(x.elapsed, k))
  }

  lemma RanNone(s: State)
    requires Inv(s)
    ensures Ran(s, s, 0)
  {
    hide NoRepeats, Listed, Waiting, Owners, Words, Places, Awake, Clock;
    assert Counters(s.task[s.cur]);
  }

  lemma RanFirst(s: State, s': State, k: nat)
    requires Inv(s) && WellFormed(s) && s.task[s.cur].ticks > 0 && Tick(s).Some? && Ran(Tick(s).value, s', k)
    ensures Ran(s, s', k + 1)
  {
    hide Inv;
    PlusPlus(s.task[s.cur].elapsed, 1, k);
  }

  lemma {:induction false} RanTicks(s: State, k: nat)
    requires Inv(s) && WellFormed(s) && k <= s.task[s.cur].ticks
    ensures TickN(s, k).Some? && Ran(s, TickN(s, k).value, k)
    decreases k
  {
    hide Inv, Ran;
    if k > 0 {
      StepKeepsTick(s);
      RanTicks(Tick(s).value, k - 1);
      RanFirst(s, TickN(s, k).value, k - 1);
    } else {
      RanNone(s);
    }
  }

  lemma {:induction false} TickNSum(s: State, m: nat, n: nat)
    requires Inv(s) && WellFormed(s)
    ensures TickN(s, m).Some? && WellFormed(TickN(s, m).value)
    ensures TickN(s, m + n) == TickN(TickN(s, m).value, n)
    decreases m
  {
    hide Inv, Tick;
    TickNKeeps(s, m);
    if m > 0 {
      StepKeepsTick(s);
      TickNSum(Tick(s).value, m - 1, n);
    }
  }

  /** After the turn of the running thread it is last in line, with its quantum whole again and
      its priority + 1 added to its elapsed_ticks; all else is as before. */
  ghost predicate Turned(s: State, s': State) {
    && s.cur in s.task && s'.task.Keys == s.task.Keys && Line(s') == s.ready + [s.cur]
    && (forall t :: t in s.task ==> SameShare(s.task[t], s'.task[t], if t == s.cur then s.task[t].prio + 1 else 0))
  }

  predicate SameShare(x: Task, y: Task, gain: int) {
    && y.prio == x.prio && y.ticks == x.ticks && y.elapsed == Plus(x.elapsed, gain)
    && (y.status == Blocked <==> x.status == Blocked)
  }

  lemma LastLine(s: State, s1: State)
    requires Inv(s) && Whole(s) && WellFormed(s1) && Ran(s, s1, s.task[s.cur].prio) && Tick(s1).Some?
    ensures Line(Tick(s1).value) == s.ready + [s.cur]
    ensures Tick(s1).value.task.Keys == s.task.Keys
  {
    hide Listed, Waiting, Owners, Words, Places, Awake, Clock, NoRepeats;
    var q := s.ready + [s.cur];
    assert q == [q[0]] + q[1..];
    assert forall t :: t in Tick(s1).value.task <==> t in s.task;
  }

  /** What the timer interrupt at the end of a quantum does to each task. */
  lemma TickTask(s: State, t: int)
    requires WellFormed(s) && Tick(s).Some? && t in s.task && s.cur !in s.ready
    requires s.task[s.cur].ticks == 0 && s.task[s.cur].status == Running
    requires forall u :: u in s.ready ==> s.task[u].status == Ready
    ensures t in Tick(s).value.task
    ensures var x, y := s.task[t], Tick(s).value.task[t];
      && y.prio == x.prio && y.ticks == (if t == s.cur then x.prio else x.ticks)
      && y.elapsed == (if t == s.cur then Plus(x.elapsed, 1) else x.elapsed)
      && (y.status == Blocked <==> x.status == Blocked)
  {
  }

  lemma NoPlus(x: Task)
    requires Counters(x)
    ensures Plus(x.elapsed, 0) == x.elapsed
  {
  }

  lemma LastShare(s: State, s1: State, t: int)
    requires Inv(s) && Whole(s) && WellFormed(s1) && Ran(s, s1, s.task[s.cur].prio) && Tick(s1).Some? && t in s.task
    ensures t in Tick(s1).value.task
    ensures SameShare(s.task[t], Tick(s1).value.task[t], if t == s.cur then s.task[t].prio + 1 else 0)
  {
    hide Inv, Whole, Tick, WellFormed, Plus, Counters;
    QueueFacts(s, t);
    CurIn(s);
    assert forall u :: u in s1.ready ==> s1.task[u] == s.task[u];
    TickTask(s1, t);
    NoPlus(s.task[t]);
    PlusPlus(s.task[t].elapsed, s.task[t].prio, 1);
  }

  lemma QueueFacts(s: State, t: int)
    requires Inv(s) && t in s.task
    ensures Counters(s.task[t]) && forall u :: u in s.ready ==> u in s.task && s.task[u].status == Ready
    ensures s.cur in s.task && s.cur !in s.ready
  {
    hide Listed, Waiting, Owners, Words, Places, Awake, Clock, NoRepeats, Counters;
  }

  /** The timer interrupt that ends a quantum. */
  lemma LastTick(s: State, s1: State)
    requires Inv(s) && Whole(s) && WellFormed(s1) && Ran(s, s1, s.task[s.cur].prio) && Tick(s1).Some?
    ensures Turned(s, Tick(s1).value)
  {
    hide Inv, Tick, Ran, SameShare, Whole, Line;
    LastLine(s, s1);
    forall t | t in s.task
      ensures t in Tick(s1).value.task
      ensures SameShare(s.task[t], Tick(s1).value.task[t], if t == s.cur then s.task[t].prio + 1 else 0)
    {
      LastShare(s, s1, t);
    }
    CurIn(s);
  }

  lemma CurIn(s: State)
    requires Inv(s)
    ensures s.cur in s.task && s.task[s.cur].status == Running && 0 <= s.task[s.cur].prio
    ensures Whole(s) ==> s.task[s.cur].ticks == s.task[s.cur].prio
  {
    hide Listed, Waiting, Owners, Words, Places, Awake, Clock, NoRepeats;
    assert Counters(s.task[s.cur]);
  }

  /** A whole turn takes priority + 1 timer interrupts. */
  lemma Turn(s: State)
    requires Inv(s) && WellFormed(s) && Whole(s)
    ensures s.task[s.cur].prio >= 0 && TickN(s, s.task[s.cur].prio + 1).Some?
    ensures var s' := TickN(s, s.task[s.cur].prio + 1).value;
      Inv(s') && WellFormed(s') && Whole(s') && Turned(s, s')
  {
    hide Inv, Tick, Ran, Turned, Whole;
    CurIn(s);
    var p := s.task[s.cur].prio;
    RanTicks(s, p);
    TickNKeeps(s, p);
    var s1 := TickN(s, p).value;
    StepKeepsTick(s1);
    TickNSum(s, p, 1);
    assert TickN(s1, 1) == TickN(Tick(s1).value, 0);
    LastTick(s, s1);
    StillWhole(s, Tick(s1).value);
  }

  lemma StillWhole(s: State, s': State)
    requires Whole(s) && Turned(s, s')
    ensures Whole(s')
  {
    hide Line;
    forall t | t in s'.task && s'.task[t].status != Blocked ensures s'.task[t].ticks == s'.task[t].prio {
      assert SameShare(s.task[t], s'.task[t], if t == s.cur then s.task[t].prio + 1 else 0);
    }
  }

  /** Timer interrupts that the first k threads in line take, each for its whole quantum. */
  function Quota(task: map<int, Task>, q: seq<int>, k: nat): int
    requires k <= |q| && forall i :: 0 <= i < |q| ==> q[i] in task
  {
    if k == 0 then 0 else Quota(task, q, k - 1) + task[q[k - 1]].prio + 1
  }

  /** After the turns of the first k in line they are last in line, each with its priority + 1
      added to its elapsed_ticks. */
  ghost predicate Rotated(s: State, s': State, k: nat) {
    var q := Line(s);
    && k <= |q| && s'.task.Keys == s.task.Keys && Line(s') == q[k..] + q[..k]
    && (forall t :: t in s.task ==> SameShare(s.task[t], s'.task[t], if t in q[..k] then s.task[t].prio + 1 else 0))
  }

  lemma RotateLine(q: seq<int>, q1: seq<int>, q': seq<int>, k: nat)
    requires k < |q| && q1 == q[k..] + q[..k] && q' == q1[1..] + [q1[0]]
    ensures q1[0] == q[k] && q' == q[k + 1..] + q[..k + 1] && q[..k + 1] == q[..k] + [q[k]]
  {
  }

  /** One thread's share after k turns and one more, that of the thread at place k. */
  lemma RotateShare(x: Task, y: Task, z: Task, before: bool, now: bool)
    requires SameShare(x, y, if before then x.prio + 1 else 0) && SameShare(y, z, if now then y.prio + 1 else 0)
    requires !(before && now)
    ensures SameShare(x, z, if before || now then x.prio + 1 else 0)
  {
    ShareAdds(x, y, z, if before then x.prio + 1 else 0, if now then y.prio + 1 else 0);
    hide Plus;
  }

  lemma RotateNext(s: State, s1: State, s': State, k: nat)
    requires Inv(s) && Rotated(s, s1, k) && k < |Line(s)| && Turned(s1, s')
    ensures Rotated(s, s', k + 1)
  {
    hide Inv, SameShare;
    var q := Line(s);
    RotateLine(q, Line(s1), Line(s'), k);
    LineDistinct(s, k);
    assert s1.cur == q[k] == Line(s1)[0];
    forall t | t in s.task
      ensures t in s'.task && SameShare(s.task[t], s'.task[t], if t in q[..k + 1] then s.task[t].prio + 1 else 0)
    {
      assert t in q[..k + 1] <==> t in q[..k] || t == q[k];
      RotateShare(s.task[t], s1.task[t], s'.task[t], t in q[..k], t == q[k]);
    }
  }

  lemma ShareAdds(x: Task, y: Task, z: Task, g: int, h: int)
    requires SameShare(x, y, g) && SameShare(y, z, h)
    ensures SameShare(x, z, g + h)
  {
    PlusPlus(x.elapsed, g, h);
    hide Plus;
  }

  lemma LineDistinct(s: State, k: nat)
    requires Inv(s) && k < |Line(s)|
    ensures Line(s)[k] !in Line(s)[..k] && Line(s)[k] in s.task
  {
    hide Listed, Waiting, Owners, Words, Places, Awake, Clock;
    var q := Line(s);
    if k > 0 {
      var u := s.ready[k - 1];
      assert u in s.ready && q[k] == u;
      forall i | 0 <= i < k ensures q[i] != u {
        if i > 0 { assert q[i] == s.ready[i - 1]; }
      }
    }
  }

  lemma LineTasks(s: State)
    requires Inv(s)
    ensures forall i :: 0 <= i < |Line(s)| ==> Line(s)[i] in s.task && 0 <= s.task[Line(s)[i]].prio
  {
    hide Listed, Waiting, Owners, Words, Places, Awake, Clock, NoRepeats;
    forall i | 0 <= i < |Line(s)| ensures Line(s)[i] in s.task && 0 <= s.task[Line(s)[i]].prio {
      var u := Line(s)[i];
      assert u == s.cur || u in s.ready by { if i > 0 { assert u == s.ready[i - 1]; } }
      assert Counters(s.task[u]);
    }
  }

  lemma {:induction false} Rotate(s: State, k: nat)
    requires Inv(s) && WellFormed(s) && Whole(s) && k <= |Line(s)|
    ensures forall i :: 0 <= i < |Line(s)| ==> Line(s)[i] in s.task
    ensures Quota(s.task, Line(s), k) >= 0 && TickN(s, Quota(s.task, Line(s), k)).Some?
    ensures var s' := TickN(s, Quota(s.task, Line(s), k)).value;
      Inv(s') && WellFormed(s') && Whole(s') && Rotated(s, s', k)
    decreases k
  {
    hide Inv, Tick, Whole, Turned, Rotated, TickN;
    LineTasks(s);
    if k == 0 {
      RotateNone(s);
      TickNone(s);
    } else {
      Rotate(s, k - 1);
      var n := Quota(s.task, Line(s), k - 1);
      var s1 := TickN(s, n).value;
      Turn(s1);
      NextInLine(s, s1, k - 1);
      TickNSum(s, n, s1.task[s1.cur].prio + 1);
      RotateNext(s, s1, TickN(s1, s1.task[s1.cur].prio + 1).value, k - 1);
    }
  }

  lemma TickNone(s: State)
    requires WellFormed(s)
    ensures TickN(s, 0) == Some(s)
  {
  }

  lemma RotateNone(s: State)
    requires Inv(s)
    ensures Rotated(s, s, 0)
  {
    hide Listed, Waiting, Owners, Words, Places, Awake, Clock, NoRepeats;
    forall t | t in s.task ensures SameShare(s.task[t], s.task[t], 0) {
      assert Counters(s.task[t]);
    }
    assert Line(s)[0..] + Line(s)[..0] == Line(s);
  }

  lemma NextInLine(s: State, s1: State, k: nat)
    requires Inv(s) && Inv(s1) && Rotated(s, s1, k) && k < |Line(s)|
    ensures s1.cur == Line(s)[k] && s1.cur in s.task && s1.cur in s1.task
    ensures s1.task[s1.cur].prio == s.task[s1.cur].prio
  {
    assert Line(s1)[0] == Line(s)[k];
    LineDistinct(s, k);
    hide Inv;
  }

  lemma FullCircle(s: State, s': State)
    requires Rotated(s, s', |Line(s)|) && forall t :: t in Line(s) ==> t in s.task
    ensures s'.cur == s.cur && s'.ready == s.ready
    ensures forall t :: t in Line(s) ==>
      t in s'.task && s'.task[t].elapsed == Plus(s.task[t].elapsed, s.task[t].prio + 1)
  {
    hide Plus;
    var q := Line(s);
    assert q[|q|..] + q[..|q|] == q && q[..|q|] == q;
    assert Line(s')[0] == s'.cur && Line(s')[1..] == s'.ready && q[0] == s.cur && q[1..] == s.ready;
    forall t | t in q ensures t in s'.task && s'.task[t].elapsed == Plus(s.task[t].elapsed, s.task[t].prio + 1) {
      assert SameShare(s.task[t], s'.task[t], s.task[t].prio + 1);
    }
  }

  /** One full rotation restores the order of the queue and gives every thread in it its
      priority + 1 ticks. */
  lemma RoundRobin(s: State)
    requires Inv(s) && WellFormed(s) && Whole(s)
    ensures forall i :: 0 <= i < |Line(s)| ==> Line(s)[i] in s.task
    ensures var n := Quota(s.task, Line(s), |Line(s)|);
      n >= 0 && TickN(s, n).Some? && var s' := TickN(s, n).value;
      s'.cur == s.cur && s'.ready == s.ready && Whole(s') &&
      forall t :: t in Line(s) ==>
        t in s'.task && s'.task[t].elapsed == Plus(s.task[t].elapsed, s.task[t].prio + 1)
  {
    hide Inv, TickN, Whole, WellFormed, Quota, Plus, Rotated, Line;
    var n := |Line(s)|;
    Rotate(s, n);
    InLine(s);
    FullCircle(s, TickN(s, Quota(s.task, Line(s), n)).value);
  }

  lemma InLine(s: State)
    requires Inv(s)
    ensures forall t :: t in Line(s) ==> t in s.task
  {
    hide Listed, Waiting, Owners, Words, Places, Awake, Clock, NoRepeats, Counters;
  }

  // A new thread.

  /** t is a new thread at the end of the ready list, with the low 8 bits of prio for priority and ticks. */
  ghost predicate Begins(s: State, s': State, t: int, prio: int) {
    && t in s'.task && s'.ready == s.ready + [t] && s'.task[t].status == Ready && s'.task[t].elapsed == 0
    && s'.task[t].ticks == s'.task[t].prio && 0 <= s'.task[t].prio <= 255 && (s'.task[t].prio - prio) % 256 == 0
  }

  /** thread_start and process_execute begin a thread with the priority they are given, modulo 256. */
  lemma StartBegins(s: State, t: int, prio: int)
    requires Inv(s) && WellFormed(s) && t !in s.task && s.task[s.cur].pc == Client
    ensures StartThread(s, t, prio).Some? && StartProcess(s, t, prio).Some?
    ensures forall s' :: s' == StartThread(s, t, prio).value || s' == StartProcess(s, t, prio).value ==>
      Begins(s, s', t, prio) && (0 <= prio < 256 ==> s'.task[t].prio == prio)
  {
    NotListedYet(s, t);
    hide Inv;
    assert (prio % 256 - prio) % 256 == 0 by { LowByte(prio); }
  }

  lemma LowByte(p: int)
    ensures (p % 256 - p) % 256 == 0
  {
    assert p % 256 - p == 256 * -(p / 256);
  }

  lemma {:induction false} AheadOfNext(task: map<int, Task>, q: seq<int>, t: int, u: int)
    requires t in task && u !in q && t != u && t !in q && forall i :: 0 <= i < |q| ==> q[i] in task
    ensures forall i :: 0 <= i < |q + [t]| ==> (q + [t])[i] in task
    ensures u in task ==> Ahead(task, q + [t] + [u], u) == Ahead(task, q + [t], t) + task[t].ticks + 1
  {
    if u in task {
      if q == [] {
        assert [t] + [u] == [t, u] && [t, u][1..] == [u];
      } else {
        AheadOfNext(task, q[1..], t, u);
        assert (q + [t])[0] == q[0] && (q + [t])[1..] == q[1..] + [t];
        assert (q + [t] + [u])[0] == q[0] && (q + [t] + [u])[1..] == q[1..] + [t] + [u];
      }
    }
  }

  /** The thread started next after t waits for t's whole quantum longer than t. */
  lemma StartsNext(s: State, t: int, prio: int, u: int, prio': int)
    requires Inv(s) && WellFormed(s) && t !in s.task && u !in s.task && t != u && s.task[s.cur].pc == Client
    requires 0 <= prio < 256
    ensures StartProcess(s, t, prio).Some? && StartProcess(StartProcess(s, t, prio).value, u, prio').Some?
    ensures var s' := StartProcess(StartProcess(s, t, prio).value, u, prio').value;
      Queued(s', t) && Queued(s', u) && W(s', u) == W(s', t) + prio + 1
  {
    hide Inv, WellFormed, Ahead;
    InvReady(s);
    StartBegins(s, t, prio);
    ProcessKeeps(s, t, prio);
    var s1 := StartProcess(s, t, prio).value;
    InvReady(s1);
    PartitionCur(s1);
    NotQueued(s, t);
    NotQueued(s, u);
    StartBegins(s1, u, prio');
    ProcessWait(s1, t, u, prio');
    var s' := StartProcess(s1, u, prio').value;
    assert s'.task[t] == s1.task[t];
    AheadOfNext(s'.task, s.ready, t, u);
    AheadAppend(s'.task, s.ready + [t], t, u);
  }

  lemma InvReady(s: State)
    requires Inv(s)
    ensures s.cur in s.task && forall i :: 0 <= i < |s.ready| ==> s.ready[i] in s.task
  {
    hide NoRepeats, Listed, Waiting, Owners, Words, Places, Awake, Clock;
    forall i | 0 <= i < |s.ready| ensures s.ready[i] in s.task {
      var u := s.ready[i];
      assert u in s.ready;
    }
  }

  /** With timer interrupts alone the first rotation gives a new thread its priority + 1 ticks. */
  lemma FirstRound(s: State, s': State, t: int, prio: int)
    requires Inv(s) && WellFormed(s) && Whole(s) && t !in s.task && s.task[s.cur].pc == Client && 0 <= prio < 256
    requires Some(s') == StartThread(s, t, prio) || Some(s') == StartProcess(s, t, prio)
    ensures Inv(s') && WellFormed(s') && Whole(s') && t in s'.task
    ensures forall i :: 0 <= i < |Line(s')| ==> Line(s')[i] in s'.task
    ensures var n := Quota(s'.task, Line(s'), |Line(s')|);
      n >= 0 && TickN(s', n).Some? && t in TickN(s', n).value.task
      && TickN(s', n).value.task[t].elapsed == s'.task[t].elapsed + prio + 1 == prio + 1
  {
    hide Inv, WellFormed, Whole, Quota, TickN, StartThread, StartProcess, Line;
    CurIn(s);
    StartBegins(s, t, prio);
    StepKeeps(s, Start(t, prio));
    StepKeeps(s, Spawn(t, prio));
    WholeWith(s, s', t, prio);
    RoundRobin(s');
    LineHas(s', t);
  }

  lemma LineHas(s: State, t: int)
    requires t in s.ready
    ensures t in Line(s)
  {
  }

  lemma WholeWith(s: State, s': State, t: int, prio: int)
    requires Whole(s) && s.cur in s.task && t !in s.task
    requires Some(s') == StartThread(s, t, prio) || Some(s') == StartProcess(s, t, prio)
    ensures Whole(s')
  {
  }
}
