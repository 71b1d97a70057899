/** What the scheduler's invariant gives for whole runs. */
module SchedRuns {
  import opened Paging
  import opened Sched
  import opened SchedInvariant

  /** After thread_init and lock_init: the main thread runs, with priority 1, and every lock is free. */
  function Boot(main: int, locks: set<int>): State {
    State(main, [], [main], map[main := Task(Running, Client, 1, 1, 0, MAGIC, map[])],
          map l | l in locks :: Lock(1, [], None, 0), map[], [main], 0)
  }

  lemma BootQueues(main: int, locks: set<int>)
    ensures var s := Boot(main, locks); WellFormed(s) && Partition(s) && Listed(s) && Clock(s) && Ranked(s)
  {
    var s := Boot(main, locks);
    assert s.made[0] == main && s.made[1..] == [];
    assert Elapsed(s.task, s.made) == 0;
  }

  lemma BootLocks(main: int, locks: set<int>)
    ensures var s := Boot(main, locks); Waiting(s) && Owners(s) && Words(s) && Places(s) && Awake(s)
  {
    NewPlace(Boot(main, locks).task[main]);
    hide PlaceOk;
  }

  lemma BootFields(main: int, locks: set<int>)
    ensures var s := Boot(main, locks);
      && s.cur == main && s.task.Keys == {main} && s.task[main].prio == s.task[main].ticks == 1
      && s.ready == [] && s.all == [main] && s.clock == 0 && s.lock.Keys == locks
      && forall l :: l in locks ==> s.lock[l] == Lock(1, [], None, 0)
  {
  }

  lemma BootKeeps(main: int, locks: set<int>)
    ensures Inv(Boot(main, locks)) && WellFormed(Boot(main, locks)) && Ranked(Boot(main, locks))
    ensures var s := Boot(main, locks);
      && s.cur == main && s.task.Keys == {main} && s.task[main].prio == s.task[main].ticks == 1
      && s.ready == [] && s.all == [main] && s.clock == 0 && s.lock.Keys == locks
      && forall l :: l in locks ==> s.lock[l] == Lock(1, [], None, 0)
  {
    BootFields(main, locks);
    hide Boot, Partition, Listed, Waiting, Owners, Words, Places, Awake, Clock, Ranked;
    BootQueues(main, locks);
    BootLocks(main, locks);
  }

  /** A run in which clients keep the rules. */
  predicate Allowed(s: State, run: seq<Action>)
    requires WellFormed(s)
    decreases |run|
  {
    run == [] || (Enabled(s, run[0]) && (Step(s, run[0]).Some? && WellFormed(Step(s, run[0]).value) ==>
      Allowed(Step(s, run[0]).value, run[1..])))
  }

  /** A run in which they take locks in rank order. */
  ghost predicate InOrder(s: State, run: seq<Action>)
    requires WellFormed(s)
    decreases |run|
  {
    run == [] || (Ordered(s, run[0]) && (Step(s, run[0]).Some? && WellFormed(Step(s, run[0]).value) ==>
      InOrder(Step(s, run[0]).value, run[1..])))
  }

  /** The state after a run, or None once an ASSERT fails. */
  function After(s: State, run: seq<Action>): Option<State>
    requires WellFormed(s)
    decreases |run|
  {
    if run == [] then Some(s)
    else if Step(s, run[0]).Some? && WellFormed(Step(s, run[0]).value) then After(Step(s, run[0]).value, run[1..])
    else None
  }

  /** Along the run a thread has to wait while nobody is ready. */
  predicate GetsStuck(s: State, run: seq<Action>)
    requires WellFormed(s)
    decreases |run|
  {
    run != [] && (Stuck(s, run[0]) ||
      (Step(s, run[0]).Some? && WellFormed(Step(s, run[0]).value) && GetsStuck(Step(s, run[0]).value, run[1..])))
  }

  /** The invariant holds all along every run, and an ASSERT fails in a run if and only if a thread
      has to wait while nobody is ready. */
  lemma {:induction false} RunKeeps(s: State, run: seq<Action>)
    requires Inv(s) && WellFormed(s) && Allowed(s, run)
    ensures After(s, run) == None <==> GetsStuck(s, run)
    ensures After(s, run).Some? ==> Inv(After(s, run).value) && WellFormed(After(s, run).value)
    decreases |run|
  {
    hide Inv, WellFormed, Step, Enabled, Stuck;
    if run != [] {
      StepKeeps(s, run[0]);
      if Step(s, run[0]).Some? { RunKeeps(Step(s, run[0]).value, run[1..]); }
    }
  }

  /** With locks taken in rank order no ASSERT fails in any run. */
  lemma {:induction false} OrderedRunKeeps(s: State, run: seq<Action>)
    requires Inv(s) && WellFormed(s) && Ranked(s) && Allowed(s, run) && InOrder(s, run)
    ensures After(s, run).Some?
    ensures var s' := After(s, run).value; Inv(s') && WellFormed(s') && Ranked(s')
    decreases |run|
  {
    hide Inv, WellFormed, Step, Enabled, Stuck, Ranked, Ordered;
    if run != [] {
      StepKeeps(s, run[0]);
      RankedKeeps(s, run[0]);
      OrderedRunKeeps(Step(s, run[0]).value, run[1..]);
    }
  }

  /** Mutual exclusion: of the value of a lock's semaphore and the threads between the end of
      their sema_down and their sema_up, there is exactly one. */
  lemma MutualExclusion(s: State, l: int)
    requires Inv(s) && l in s.lock
    ensures s.lock[l].value + |set t | t in s.task && InSection(s.task[t], l)| == 1
    ensures s.lock[l].holder.Some? ==> var t := s.lock[l].holder.value; t in s.task && InSection(s.task[t], l)
  {
    hide NoRepeats, Waiting, Awake, Clock, Places, InSection, Partition;
    var inside := set t | t in s.task && InSection(s.task[t], l);
    if l in s.owner {
      assert forall t :: t in inside <==> t in {s.owner[l]};
      assert inside == {s.owner[l]};
      assert OwnWords(s.lock[l], l, s.owner[l], s.task[s.owner[l]]);
    } else {
      assert forall t :: t in inside <==> t in {};
      assert inside == {};
    }
  }

  /** No lost wakeup: while a lock is free and has waiters, a thread woken from it is running or
      queued and has still to test the value again. */
  lemma NoLostWakeup(s: State, l: int) returns (t: int)
    requires Inv(s) && l in s.lock && s.lock[l].value == 1 && s.lock[l].waiters != []
    ensures Woken(s, l, t) && (t == s.cur || t in s.ready)
  {
    hide NoRepeats, Waiting, Owners, Words, Places, Clock;
    t :| Woken(s, l, t);
  }

  /** What a step can do to the waiters of a lock: the running thread joins at the end and blocks,
      or the first leaves and goes to the front of the ready list. */
  ghost predicate Fifo(s: State, s': State, w: seq<int>, w': seq<int>) {
    || w' == w
    || (w' == w + [s.cur] && s.cur in s'.task && s'.task[s.cur].status == Blocked)
    || (w != [] && w' == w[1..] && s'.ready == [w[0]] + s.ready && s'.cur == s.cur)
  }

  lemma FifoDown(s: State, m: int, l: int)
    requires Inv(s) && WellFormed(s) && AtDown(s, m) && SemaDown(s, m).Some? && l in s.lock
    ensures l in SemaDown(s, m).value.lock
    ensures Fifo(s, SemaDown(s, m).value, s.lock[l].waiters, SemaDown(s, m).value.lock[l].waiters)
  {
    if s.lock[m].value == 0 {
      FifoCur(s);
      assert s.ready != [] ==> s.ready[0] in s.ready;
    }
    hide Inv;
  }

  lemma FifoUp(s: State, m: int, l: int)
    requires WellFormed(s) && m in s.lock && (forall t :: t in s.lock[m].waiters ==> t in s.task)
    requires SemaUp(s, m).Some? && l in s.lock
    ensures l in SemaUp(s, m).value.lock
    ensures Fifo(s, Return(SemaUp(s, m).value, m, 0), s.lock[l].waiters, SemaUp(s, m).value.lock[l].waiters)
  {
  }

  lemma FifoAdvance(s: State, l: int)
    requires Inv(s) && WellFormed(s) && s.task[s.cur].pc != Client && Execute(s).Some? && l in s.lock
    ensures l in Execute(s).value.lock
    ensures Fifo(s, Execute(s).value, s.lock[l].waiters, Execute(s).value.lock[l].waiters)
  {
    var pc := s.task[s.cur].pc;
    if pc.Entering? || pc.Down? { FifoDown(s, pc.l, l); }
    if pc.Upping? { if SemaUp(s, pc.l).Some? { FifoUp(s, pc.l, l); } }
    hide Inv, SemaDown, SemaUp;
  }

  lemma FifoCur(s: State)
    requires Inv(s)
    ensures s.cur !in s.ready
  {
    hide NoRepeats, Listed, Waiting, Owners, Words, Places, Clock, Awake;
  }

  /** Waiters of a lock are woken in the order in which they began to wait. */
  lemma WaitersAreFifo(s: State, a: Action, l: int)
    requires Inv(s) && WellFormed(s) && Enabled(s, a) && Step(s, a).Some? && l in s.lock
    ensures l in Step(s, a).value.lock
    ensures Fifo(s, Step(s, a).value, s.lock[l].waiters, Step(s, a).value.lock[l].waiters)
  {
    hide Inv, Execute, Fifo, Above, Holds;
    if a == Advance { FifoAdvance(s, l); } else { FifoElsewhere(s, a, l); }
  }

  lemma FifoElsewhere(s: State, a: Action, l: int)
    requires WellFormed(s) && a != Advance && Step(s, a).Some? && l in s.lock
    ensures Step(s, a).value.lock == s.lock
    ensures Fifo(s, Step(s, a).value, s.lock[l].waiters, s.lock[l].waiters)
  {
    hide Execute;
  }

  // The lists a thread's general_tag can be in.
  ghost predicate InReady(s: State, t: int) { t in s.ready }
  ghost predicate InWaiters(s: State, t: int, l: int) { l in s.lock && t in s.lock[l].waiters }

  /** A thread is in the ready list exactly when it is READY, in one waiter list exactly when it
      is BLOCKED, and in no list while it runs; never in two. */
  lemma OneList(s: State, t: int)
    requires Inv(s) && t in s.task
    ensures s.task[t].status == Running ==> !InReady(s, t) && forall l :: !InWaiters(s, t, l)
    ensures s.task[t].status == Ready ==> InReady(s, t) && forall l :: !InWaiters(s, t, l)
    ensures s.task[t].status == Blocked ==>
      !InReady(s, t) && s.task[t].pc.Down? && forall l :: InWaiters(s, t, l) <==> l == s.task[t].pc.l
  {
    hide NoRepeats, Owners, Words, Places, Awake, Clock;
  }

  /** Between calls into sync.c holder and holder_repeat_nr of a lock that a thread holds are
      that thread and its nesting depth. */
  lemma Settled(s: State, t: int, l: int)
    requires Inv(s) && t in s.task && s.task[t].pc == Client && Holds(s.task[t], l)
    ensures l in s.lock && s.lock[l].value == 0
    ensures s.lock[l].holder == Some(t) && s.lock[l].repeat == Depth(s.task[t], l)
  {
    hide NoRepeats, Waiting, Awake, Clock, Places, Partition;
    assert InSection(s.task[t], l);
    assert OwnWords(s.lock[l], l, t, s.task[t]);
  }

  /** What the running thread's next statement adds to the depth of l. */
  function DepthGain(pc: Pc, l: int): int {
    if pc == Marking(l) || pc == Again(l) then 1 // lock_acquire returns
    else if pc == Lowering(l) || pc == Upping(l) then -1 // lock_release returns
    else 0
  }

  lemma DepthElsewhere(s: State, a: Action, t: int)
    requires Inv(s) && WellFormed(s) && Enabled(s, a) && t in s.task && Step(s, a).Some? && (t != s.cur || a != Advance)
    ensures t in Step(s, a).value.task && Step(s, a).value.task[t].depth == s.task[t].depth
  {
    hide Inv, Execute, Tick;
    if a == Timer { TickStays(s); } else if t != s.cur { OthersStay(s, a, t); }
  }

  lemma DepthOfCur(s: State, l: int)
    requires Inv(s) && WellFormed(s) && s.task[s.cur].pc != Client && Execute(s).Some?
    ensures s.cur in Execute(s).value.task
    ensures Depth(Execute(s).value.task[s.cur], l) == Depth(s.task[s.cur], l) + DepthGain(s.task[s.cur].pc, l)
  {
    CurPlace(s);
    var pc := s.task[s.cur].pc;
    if AtSema(pc) { SemaDownStays(s, pc.l); }
    if pc.Upping? { SemaUpStays(s, pc.l); }
    hide Inv, SemaDown, SemaUp, NoRepeats, Listed, Waiting, Owners, Words, Awake, Clock;
  }

  /** A step changes the depth of l for the running thread only: by 1 when it returns from
      lock_acquire(l), by -1 when it returns from lock_release(l), and otherwise not. */
  lemma DepthSteps(s: State, a: Action, t: int, l: int)
    requires Inv(s) && WellFormed(s) && Enabled(s, a) && t in s.task && Step(s, a).Some?
    ensures t in Step(s, a).value.task
    ensures Depth(Step(s, a).value.task[t], l) ==
      Depth(s.task[t], l) + if t == s.cur && a == Advance then DepthGain(s.task[t].pc, l) else 0
  {
    hide Inv, Execute, Tick, StartThread, DepthGain;
    if t == s.cur && a == Advance { DepthOfCur(s, l); } else { DepthElsewhere(s, a, t); }
  }

  /** lock_release goes on to sema_up at the release that ends the outermost acquisition, and at
      no other. */
  lemma ReleaseBranches(s: State, l: int)
    requires Inv(s) && WellFormed(s) && s.task[s.cur].pc == Testing(l)
    ensures Execute(s).Some?
    ensures Execute(s).value.task[s.cur].pc == if Depth(s.task[s.cur], l) == 1 then Checking(l) else Lowering(l)
  {
    hide Partition, Listed, Waiting, Owners, Words, Places, Awake, Clock;
    CurPlace(s);
    CurOwns(s, l);
  }
}
