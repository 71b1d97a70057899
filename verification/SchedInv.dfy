/** The scheduler's invariant holds in every run, and no ASSERT on the way fails. */
module SchedInvariant {
  import opened Paging
  import opened Sched

  /** s' differs from s in who runs, who is queued and in ticks at most. */
  ghost predicate SameCode(s: State, s': State) {
    && s'.lock == s.lock && s'.owner == s.owner && s'.all == s.all
    && (forall t :: t in s'.task <==> t in s.task)
    && (forall t :: t in s.task ==> SameTask(s.task[t], s'.task[t]))
  }

  predicate SameTask(x: Task, y: Task) {
    y.pc == x.pc && y.depth == x.depth && (y.status == Blocked <==> x.status == Blocked)
  }

  /** The same values, holders and counts, and the same places of threads. */
  ghost predicate SameWords(s: State, s': State) {
    && s'.owner == s.owner
    && (forall l :: l in s'.lock <==> l in s.lock)
    && (forall l :: l in s.lock ==> SameLock(s.lock[l], s'.lock[l]))
    && (forall t :: t in s'.task <==> t in s.task)
    && (forall t :: t in s.task ==> SameSpot(s.task[t], s'.task[t]))
  }

  /** The thread is at the same place in lock_acquire or lock_release, or in neither. */
  predicate SameSpot(x: Task, y: Task) {
    y.depth == x.depth && (y.pc == x.pc || (!InSync(x.pc) && !InSync(y.pc)))
  }

  predicate SameLock(k: Lock, k': Lock) {
    k'.value == k.value && k'.holder == k.holder && k'.repeat == k.repeat
  }

  ghost predicate SameTime(s: State, s': State) {
    && s'.made == s.made && s'.clock == s.clock
    && (forall t :: t in s'.task <==> t in s.task)
    && (forall t :: t in s.task ==> s'.task[t].elapsed == s.task[t].elapsed)
  }

  /** The list of all threads and the threads about to append to it are as before. */
  ghost predicate SameListing(s: State, s': State) {
    && s'.all == s.all && (forall t :: t in s'.task <==> t in s.task)
    && (forall t :: t in s.task ==> SameStarter(s.task[t].pc, s'.task[t].pc))
  }

  predicate SameStarter(pc: Pc, pc': Pc) { pc' == pc || (!pc.Listing? && !pc'.Listing?) }

  /** The part of the invariant about semaphores and locks. */
  ghost predicate Code(s: State) {
    Waiting(s) && Owners(s) && Words(s) && Places(s) && Awake(s)
  }

  lemma {:induction false} ElapsedSame(task: map<int, Task>, task': map<int, Task>, q: seq<int>)
    requires forall i :: 0 <= i < |q| ==> q[i] in task && q[i] in task' && task'[q[i]].elapsed == task[q[i]].elapsed
    ensures Elapsed(task', q) == Elapsed(task, q)
  {
    if q != [] { ElapsedSame(task, task', q[1..]); }
  }

  lemma {:induction false} ElapsedChange(task: map<int, Task>, q: seq<int>, t: int, x: Task)
    requires NoRepeats(q) && t in q && forall i :: 0 <= i < |q| ==> q[i] in task
    ensures Elapsed(task[t := x], q) == Elapsed(task, q) - task[t].elapsed + x.elapsed
  {
    if q[0] == t {
      ElapsedSame(task, task[t := x], q[1..]);
    } else {
      ElapsedChange(task, q[1..], t, x);
    }
  }

  lemma {:induction false} ElapsedAppend(task: map<int, Task>, q: seq<int>, t: int)
    requires forall i :: 0 <= i < |q| ==> q[i] in task
    requires t in task
    ensures Elapsed(task, q + [t]) == Elapsed(task, q) + task[t].elapsed
  {
    if q != [] {
      assert (q + [t])[1..] == q[1..] + [t];
      ElapsedAppend(task, q[1..], t);
    }
  }

  lemma CodeFrame(s: State, s': State)
    requires Code(s) && SameCode(s, s')
    ensures Code(s')
  {
    hide Waiting, Owners, Words, Places;
    assert SameWords(s, s') by {
      forall t | t in s.task ensures SameSpot(s.task[t], s'.task[t]) {
        assert SameTask(s.task[t], s'.task[t]);
      }
    }
    QueueFrame(s, s');
    OwnerFrame(s, s');
    PlaceFrame(s, s');
  }

  lemma ClockFrame(s: State, s': State)
    requires Clock(s) && SameTime(s, s')
    ensures Clock(s')
  {
    hide NoRepeats;
    forall i | 0 <= i < |s.made|
      ensures s.made[i] in s.task && s.made[i] in s'.task && s'.task[s.made[i]].elapsed == s.task[s.made[i]].elapsed
    {
      var t := s.made[i];
      assert t in s.task;
    }
    ElapsedSame(s.task, s'.task, s.made);
  }

  lemma ListedFrame(s: State, s': State)
    requires Listed(s) && SameListing(s, s')
    ensures Listed(s')
  {
    hide NoRepeats;
    forall u | u in s.task ensures SameStarter(s.task[u].pc, s'.task[u].pc) {}
    forall t | t in s'.task && t !in s'.all ensures exists u :: Lists(s', u, t) {
      var u :| Lists(s, u, t);
      assert Lists(s', u, t);
    }
  }

  lemma CodeListing(s: State, s': State)
    requires SameCode(s, s')
    ensures SameListing(s, s')
  {
    forall t | t in s.task ensures SameStarter(s.task[t].pc, s'.task[t].pc) {
      assert SameTask(s.task[t], s'.task[t]);
    }
  }

  lemma QueueFrame(s: State, s': State)
    requires Waiting(s) && Awake(s) && SameCode(s, s')
    ensures Waiting(s') && Awake(s')
  {
    hide NoRepeats;
    forall l | l in s'.lock && s'.lock[l].value == 1 && s'.lock[l].waiters != [] ensures exists t :: Woken(s', l, t) {
      var t :| Woken(s, l, t);
      assert Woken(s', l, t);
    }
  }

  lemma OwnerFrame(s: State, s': State)
    requires Owners(s) && Words(s) && SameWords(s, s')
    ensures Owners(s') && Words(s')
  {
    hide LockWords, Between, InSection, Depth;
    forall t, l | t in s.task
      ensures Depth(s'.task[t], l) == Depth(s.task[t], l)
      ensures InSection(s'.task[t], l) <==> InSection(s.task[t], l)
      ensures Between(s'.task[t].pc, l) <==> Between(s.task[t].pc, l)
    {
      SpotFrame(s.task[t], s'.task[t], l);
    }
    forall l | l in s.lock ensures SameLock(s.lock[l], s'.lock[l]) {}
    forall l, t | l in s.lock && t in s.task
      ensures LockWords(s'.lock[l], l, t, s'.task[t].pc) <==> LockWords(s.lock[l], l, t, s.task[t].pc)
    {
      SameLockWords(s.lock[l], s'.lock[l], l, t, s.task[t].pc, s'.task[t].pc);
    }
  }

  lemma SpotFrame(x: Task, y: Task, l: int)
    requires SameSpot(x, y)
    ensures Depth(y, l) == Depth(x, l) && (InSection(y, l) <==> InSection(x, l))
    ensures Between(y.pc, l) <==> Between(x.pc, l)
  {
  }

  lemma SameLockWords(k: Lock, k': Lock, l: int, t: int, pc: Pc, pc': Pc)
    requires SameLock(k, k') && (pc' == pc || (!InSync(pc) && !InSync(pc')))
    ensures LockWords(k', l, t, pc') <==> LockWords(k, l, t, pc)
  {
  }

  lemma PlaceFrame(s: State, s': State)
    requires Places(s) && SameWords(s, s')
    ensures Places(s')
  {
    hide PlaceOk;
    forall t | t in s.task ensures PlaceOk(s'.task[t]) {
      SamePlace(s.task[t], s'.task[t]);
    }
  }

  lemma SamePlace(x: Task, y: Task)
    requires PlaceOk(x) && SameSpot(x, y)
    ensures PlaceOk(y)
  {
    assert forall l :: Depth(y, l) == Depth(x, l);
  }

  // Queues.

  lemma Popped(q: seq<int>)
    requires NoRepeats(q) && q != []
    ensures NoRepeats(q[1..]) && forall t :: t in q[1..] <==> t in q && t != q[0]
  {
    forall t | t in q && t != q[0] ensures t in q[1..] {
      var i :| 0 <= i < |q| && q[i] == t;
      assert q[1..][i - 1] == t;
    }
  }

  lemma Appended(q: seq<int>, t: int)
    requires NoRepeats(q) && t !in q
    ensures NoRepeats(q + [t]) && forall u :: u in q + [t] <==> u in q || u == t
  {
  }

  lemma Pushed(q: seq<int>, t: int)
    requires NoRepeats(q) && t !in q
    ensures NoRepeats([t] + q) && forall u :: u in [t] + q <==> u in q || u == t
  {
  }

  lemma Recharged(x: Task)
    ensures Counters(x) ==> Counters(x.(ticks := x.prio, status := Ready))
    ensures Counters(x) ==> Counters(x.(status := Running)) && Counters(x.(ticks := x.prio, status := Running))
  {
  }

  /** schedule from the timer: the running thread goes to the end, the first of the list runs. */
  lemma ScheduleKeeps(s: State)
    requires Partition(s)
    ensures Schedule(s).Some? && Partition(Schedule(s).value)
    ensures SameCode(s, Schedule(s).value) && SameTime(s, Schedule(s).value)
  {
    hide Partition, SameCode, SameTime, Schedule;
    ScheduleQueue(s);
    ScheduleTasks(s);
  }

  lemma ScheduleQueue(s: State)
    requires Partition(s)
    ensures Schedule(s).Some? && Partition(Schedule(s).value)
  {
    var q := s.ready + [s.cur];
    Appended(s.ready, s.cur);
    Popped(q);
    Recharged(s.task[s.cur]);
    Recharged(s.task[q[0]]);
    hide NoRepeats, Counters;
  }

  lemma ScheduleTasks(s: State)
    requires Partition(s) && Schedule(s).Some?
    ensures SameCode(s, Schedule(s).value) && SameTime(s, Schedule(s).value)
  {
    hide NoRepeats, Counters;
  }

  /** The running thread has just blocked; everything else is in its place. */
  ghost predicate Vacant(s: State) {
    && s.cur in s.task && s.task[s.cur].status == Blocked
    && (forall t :: t in s.task ==> s.task[t].status != Running)
    && NoRepeats(s.ready) && (forall t :: t in s.ready <==> t in s.task && s.task[t].status == Ready)
    && (forall t :: t in s.task ==> Counters(s.task[t]))
  }

  /** The first ready thread has been taken off the list and runs. */
  ghost predicate Dispatched(s: State, s': State) {
    && s.ready != [] && s'.cur == s.ready[0] && s'.ready == s.ready[1..]
    && forall t :: t in s.task ==> t in s'.task && s'.task[t].ticks == s.task[t].ticks
  }

  /** schedule from thread_block, when some thread is ready. */
  lemma ScheduleVacant(s: State)
    requires Vacant(s) && s.ready != []
    ensures Schedule(s).Some? && Partition(Schedule(s).value)
    ensures SameCode(s, Schedule(s).value) && SameTime(s, Schedule(s).value)
    ensures Dispatched(s, Schedule(s).value)
  {
    Popped(s.ready);
    hide NoRepeats;
    assert s.ready[0] in s.ready;
  }

  /** The timer: quantum accounting, and a switch when the quantum is used up. */
  lemma TickKeeps(s: State)
    requires Inv(s)
    ensures Tick(s).Some? && Inv(Tick(s).value) && SameCode(s, Tick(s).value)
  {
    hide Waiting, Owners, Words, Places, Awake, NoRepeats, Clock, Schedule, SameCode, SameTime, Listed, SameListing;
    CurPlace(s);
    var s1 := Elapse(s);
    ElapseKeeps(s);
    CodeFrame(s, s1);
    if s.task[s.cur].ticks == 0 {
      ScheduleKeeps(s1);
    } else {
      CountDown(s1);
    }
    CodeFrame(s1, Tick(s).value);
    ClockFrame(s1, Tick(s).value);
    SameCodeTrans(s, s1, Tick(s).value);
    CodeListing(s, Tick(s).value);
    ListedFrame(s, Tick(s).value);
  }

  lemma SameCodeTrans(a: State, b: State, c: State)
    requires SameCode(a, b) && SameCode(b, c)
    ensures SameCode(a, c)
  {
    forall t | t in a.task ensures SameTask(a.task[t], c.task[t]) {
      assert SameTask(a.task[t], b.task[t]) && SameTask(b.task[t], c.task[t]);
    }
  }

  /** The counters of a timer interrupt. */
  function Elapse(s: State): State
    requires s.cur in s.task
  {
    WithCur(s, s.task[s.cur].(elapsed := (s.task[s.cur].elapsed + 1) % WORD)).(clock := (s.clock + 1) % WORD)
  }

  lemma ElapseKeeps(s: State)
    requires Partition(s) && Clock(s)
    ensures Partition(Elapse(s)) && Clock(Elapse(s)) && SameCode(s, Elapse(s))
  {
    hide Elapsed, NoRepeats;
    ElapsedChange(s.task, s.made, s.cur, Elapse(s).task[s.cur]);
  }

  lemma CountDown(s: State)
    requires Partition(s) && s.task[s.cur].ticks > 0
    ensures var s' := WithCur(s, s.task[s.cur].(ticks := s.task[s.cur].ticks - 1));
      Partition(s') && SameCode(s, s') && SameTime(s, s')
  {
    hide NoRepeats;
  }

  // With locks in rank order the ready list is never empty when a thread blocks.

  lemma {:induction false} Greatest(z: set<int>, k: int) returns (m: int)
    requires k in z
    ensures m in z && forall j :: j in z ==> j <= m
    decreases |z|
  {
    m := k;
    var rest := z - {k};
    assert forall i :: i in z <==> i == k || i in rest;
    if j :| j in rest {
      assert |rest| < |z|;
      var n := Greatest(rest, j);
      if n > m { m := n; }
    }
  }

  lemma AwakeIsReady(s: State, t: int)
    requires Partition(s) && t in s.task && t != s.cur && s.task[t].status != Blocked
    ensures t in s.ready
  {
    hide NoRepeats;
  }

  /** A lock's owner that is blocked waits for a lock of higher rank. */
  lemma OwnerWaitsHigher(s: State, m: int)
    requires Waiting(s) && Owners(s) && Ranked(s) && m in s.owner && s.task[s.owner[m]].status == Blocked
    ensures var x := s.task[s.owner[m]];
      x.pc.Down? && x.pc.l > m && x.pc.l in s.lock && s.owner[m] in s.lock[x.pc.l].waiters
  {
    hide NoRepeats;
    var t := s.owner[m];
    assert InSection(s.task[t], m);
    assert RankOk(s.task[t]);
  }

  /** A thread about to block for l holds only locks below l. */
  lemma CurHoldsLower(s: State, l: int, m: int)
    requires Partition(s) && Owners(s) && Ranked(s) && m in s.owner && s.owner[m] == s.cur
    requires s.task[s.cur].pc == Entering(l) || s.task[s.cur].pc == Down(l)
    ensures m < l
  {
    hide NoRepeats;
    assert InSection(s.task[s.cur], m);
    assert RankOk(s.task[s.cur]);
  }

  /** Of the locks taken, let m be the one of highest rank: its owner is ready, or a thread woken
      from the free lock its owner waits for is. */
  lemma TopOwner(s: State, l: int, m: int) returns (u: int)
    requires Partition(s) && Code(s) && Ranked(s) && l in s.lock && s.lock[l].value == 0
    requires s.task[s.cur].pc == Entering(l) || s.task[s.cur].pc == Down(l)
    requires m in s.owner && s.owner[m] != s.cur && forall k :: k in s.lock && s.lock[k].value == 0 ==> k <= m
    ensures u in s.ready
  {
    hide Words, Places, NoRepeats, Partition, RankOk;
    u := s.owner[m];
    if s.task[u].status == Blocked {
      OwnerWaitsHigher(s, m);
      var h := s.task[u].pc.l;
      assert s.lock[h].value == 1 && s.lock[h].waiters != [];
      u :| Woken(s, h, u);
    }
    AwakeIsReady(s, u);
  }

  /** When a thread blocks and locks are taken in rank order some other thread is ready. */
  lemma BlockingLeavesReady(s: State, l: int)
    requires Partition(s) && Code(s) && Ranked(s) && l in s.lock && s.lock[l].value == 0
    requires s.task[s.cur].pc == Entering(l) || s.task[s.cur].pc == Down(l)
    ensures s.ready != []
  {
    hide Words, Places, NoRepeats, Waiting, Awake, Partition, InSection;
    var taken := set k | k in s.lock && s.lock[k].value == 0;
    assert l in taken;
    var m := Greatest(taken, l);
    assert m in s.owner && l <= m;
    assert forall k :: k in s.lock && s.lock[k].value == 0 ==> k in taken;
    if s.owner[m] == s.cur { CurHoldsLower(s, l, m); }
    var u := TopOwner(s, l, m);
  }

  // sema_down.

  /** The running thread about to test the semaphore of l. */
  ghost predicate AtDown(s: State, l: int) {
    s.cur in s.task && l in s.lock && (s.task[s.cur].pc == Entering(l) || s.task[s.cur].pc == Down(l))
  }

  /** s with the running thread appended to the waiters of l and BLOCKED. */
  function Waited(s: State, l: int): State
    requires s.cur in s.task && l in s.lock
  {
    var k := s.lock[l];
    var s1 := SetPc(WithLock(s, l, k.(waiters := k.waiters + [s.cur])), Down(l));
    WithCur(s1, s1.task[s.cur].(status := Blocked))
  }

  lemma DownPlace(x: Task, y: Task, l: int)
    requires PlaceOk(x) && (x.pc == Entering(l) || x.pc == Down(l)) && y.depth == x.depth
    ensures !Holds(x, l) && forall m :: Depth(y, m) == Depth(x, m)
    ensures y.pc == Down(l) || y.pc == Taken(l) ==> PlaceOk(y)
  {
    assert forall m :: Depth(y, m) == Depth(x, m);
  }

  lemma WaitedQueues(s: State, l: int)
    requires Partition(s) && Waiting(s) && Awake(s) && AtDown(s, l) && s.lock[l].value == 0
    ensures s.cur !in s.lock[l].waiters
    ensures Vacant(Waited(s, l)) && Waiting(Waited(s, l)) && Awake(Waited(s, l))
  {
    Appended(s.lock[l].waiters, s.cur);
    hide NoRepeats;
    var s1 := Waited(s, l);
    forall m | m in s1.lock && s1.lock[m].value == 1 && s1.lock[m].waiters != [] ensures exists t :: Woken(s1, m, t) {
      var t :| Woken(s, m, t);
      assert Woken(s1, m, t);
    }
  }

  lemma WaitedOwners(s: State, l: int)
    requires Owners(s) && Words(s) && Places(s) && AtDown(s, l)
    ensures Owners(Waited(s, l)) && Words(Waited(s, l)) && Places(Waited(s, l))
  {
    hide NoRepeats, PlaceOk;
    var s1 := Waited(s, l);
    DownPlace(s.task[s.cur], s1.task[s.cur], l);
  }

  lemma WaitKeeps(s: State, l: int)
    requires Inv(s) && AtDown(s, l) && s.lock[l].value == 0 && s.ready != []
    ensures SemaDown(s, l).Some? && Inv(SemaDown(s, l).value) && Dispatched(s, SemaDown(s, l).value)
  {
    hide Waiting, Owners, Words, Places, Awake, NoRepeats, Schedule, Listed;
    var s1 := Waited(s, l);
    WaitedQueues(s, l);
    WaitedOwners(s, l);
    ClockFrame(s, s1);
    ListedFrame(s, s1);
    ScheduleVacant(s1);
    assert SemaDown(s, l) == Schedule(s1);
    CodeFrame(s1, Schedule(s1).value);
    ClockFrame(s1, Schedule(s1).value);
    CodeListing(s1, Schedule(s1).value);
    ListedFrame(s1, Schedule(s1).value);
  }

  lemma TakeOwners(s: State, l: int)
    requires Partition(s) && Owners(s) && Words(s) && Places(s) && AtDown(s, l) && s.lock[l].value == 1
    ensures SemaDown(s, l).Some?
    ensures Owners(SemaDown(s, l).value) && Words(SemaDown(s, l).value) && Places(SemaDown(s, l).value)
  {
    hide NoRepeats, PlaceOk;
    var s1 := SemaDown(s, l).value;
    DownPlace(s.task[s.cur], s1.task[s.cur], l);
  }

  lemma TakeQueues(s: State, l: int)
    requires Inv(s) && AtDown(s, l) && s.lock[l].value == 1
    ensures var s1 := SemaDown(s, l).value; Partition(s1) && Listed(s1) && Waiting(s1) && Awake(s1) && Clock(s1)
  {
    hide NoRepeats, Owners, Words, Places, Listed;
    var s1 := SemaDown(s, l).value;
    ClockFrame(s, s1);
    ListedFrame(s, s1);
    forall m | m in s1.lock && s1.lock[m].value == 1 && s1.lock[m].waiters != [] ensures exists t :: Woken(s1, m, t) {
      var t :| Woken(s, m, t);
      assert Woken(s1, m, t);
    }
  }

  /** A thread that has to wait while nobody is ready stops the kernel. */
  lemma WaitStuck(s: State, l: int)
    requires Partition(s) && AtDown(s, l) && s.lock[l].value == 0 && s.ready == []
    ensures SemaDown(s, l) == None
  {
    hide NoRepeats;
  }

  lemma DownKeeps(s: State, l: int)
    requires Inv(s) && AtDown(s, l) && forall t :: t in s.ready ==> t in s.task
    ensures SemaDown(s, l) == None <==> s.lock[l].value == 0 && s.ready == []
    ensures SemaDown(s, l).Some? ==> Inv(SemaDown(s, l).value)
  {
    hide Partition, Listed, Waiting, Words, Places, Awake, Clock, SemaDown;
    assert s.lock[l].value == 0 || s.lock[l].value == 1;
    if s.lock[l].value == 0 {
      if s.ready == [] { WaitStuck(s, l); } else { WaitKeeps(s, l); }
    } else {
      TakeOwners(s, l);
      TakeQueues(s, l);
    }
  }

  // Statements that touch the lock's own words.

  ghost predicate OwnWords(k: Lock, l: int, t: int, x: Task) {
    && LockWords(k, l, t, x.pc)
    && (!Between(x.pc, l) ==> k.holder == Some(t) && k.repeat == Depth(x, l))
  }

  predicate At(pc: Pc, l: int) { pc == Client || (InSync(pc) && pc.l == l) }

  /** The running thread goes from x to y, at another statement about lock l, whose words become k. */
  ghost predicate Local(s: State, l: int, k: Lock, y: Task)
    requires s.cur in s.task && l in s.lock
  {
    var x := s.task[s.cur];
    && k.value == s.lock[l].value && k.waiters == s.lock[l].waiters
    && y == x.(pc := y.pc, depth := y.depth)
    && !x.pc.Down? && !y.pc.Down? && At(x.pc, l) && At(y.pc, l)
    && (forall m :: m != l ==> Depth(y, m) == Depth(x, m))
    && (InSection(y, l) <==> InSection(x, l)) && PlaceOk(y)
    && if l in s.owner && s.owner[l] == s.cur then OwnWords(k, l, s.cur, y) else k == s.lock[l]
  }

  function Moved(s: State, l: int, k: Lock, y: Task): State {
    WithCur(WithLock(s, l, k), y)
  }

  lemma LocalQueues(s: State, l: int, k: Lock, y: Task)
    requires Inv(s) && l in s.lock && Local(s, l, k, y)
    ensures var s1 := Moved(s, l, k, y); Partition(s1) && Listed(s1) && Waiting(s1) && Awake(s1) && Clock(s1)
  {
    hide NoRepeats, Owners, Words, Places, PlaceOk, OwnWords, InSection, Depth, Listed;
    var s1 := Moved(s, l, k, y);
    ClockFrame(s, s1);
    ListedFrame(s, s1);
    forall m | m in s1.lock && s1.lock[m].value == 1 && s1.lock[m].waiters != [] ensures exists t :: Woken(s1, m, t) {
      var t :| Woken(s, m, t);
      assert Woken(s1, m, t);
    }
  }

  lemma LocalOwners(s: State, l: int, k: Lock, y: Task)
    requires Inv(s) && l in s.lock && Local(s, l, k, y)
    ensures var s1 := Moved(s, l, k, y); Owners(s1) && Words(s1) && Places(s1)
  {
    hide NoRepeats, Waiting, Awake, Clock, PlaceOk, Depth, Listed;
    var s1 := Moved(s, l, k, y);
    var x := s.task[s.cur];
    forall m ensures InSection(y, m) <==> InSection(x, m) {}
    assert Owners(s1);
    forall m | m in s1.lock && m in s1.owner
      ensures OwnWords(s1.lock[m], m, s1.owner[m], s1.task[s1.owner[m]])
    {
      if m != l || s.owner[m] != s.cur { assert OwnWords(s.lock[m], m, s.owner[m], s.task[s.owner[m]]); }
    }
  }

  lemma LocalKeeps(s: State, l: int, k: Lock, y: Task)
    requires Inv(s) && l in s.lock && Local(s, l, k, y)
    ensures Inv(Moved(s, l, k, y))
  {
    hide Partition, Listed, Waiting, Owners, Words, Places, Awake, Clock, Local;
    LocalQueues(s, l, k, y);
    LocalOwners(s, l, k, y);
  }

  // sema_up.

  /** The caller of sema_up on l has given up the lock's words; its value is still 0. */
  ghost predicate AtUp(s: State, l: int) {
    && s.cur in s.task && l in s.lock && l in s.owner && s.owner[l] == s.cur && s.task[s.cur].pc == Upping(l)
  }

  /** The first waiter of l, if any, is made ready. */
  function Wake(s: State, l: int): Option<State>
    requires l in s.lock && forall t :: t in s.lock[l].waiters ==> t in s.task
  {
    var k := s.lock[l];
    if k.waiters == [] then Some(s) else Unblock(WithLock(s, l, k.(waiters := k.waiters[1..])), k.waiters[0])
  }

  lemma WakeQueues(s: State, l: int)
    requires AtUp(s, l) && s.lock[l].waiters != [] && forall t :: t in s.lock[l].waiters ==> t in s.task
    requires Inv(s)
    ensures Wake(s, l).Some?
    ensures var s1 := Wake(s, l).value;
      Partition(s1) && Waiting(s1) && Woken(s1, l, s.lock[l].waiters[0]) && AtUp(s1, l)
  {
    hide Words, Places, Owners, Awake, Clock, Listed;
    var k := s.lock[l];
    Popped(k.waiters);
    assert k.waiters[0] in k.waiters;
    Pushed(s.ready, k.waiters[0]);
    hide NoRepeats;
  }

  lemma WakeOwners(s: State, l: int)
    requires AtUp(s, l) && s.lock[l].waiters != [] && forall t :: t in s.lock[l].waiters ==> t in s.task
    requires Wake(s, l).Some? && Inv(s)
    ensures var s1 := Wake(s, l).value; Listed(s1) && Owners(s1) && Words(s1) && Places(s1) && Clock(s1)
  {
    hide NoRepeats, Owners, Words, Places, Awake, Listed;
    var s1 := Wake(s, l).value;
    ClockFrame(s, s1);
    ListedFrame(s, s1);
    OwnerFrame(s, s1);
    PlaceFrame(s, s1);
  }

  lemma WakeAwake(s: State, l: int)
    requires AtUp(s, l) && s.lock[l].waiters != [] && forall t :: t in s.lock[l].waiters ==> t in s.task
    requires Wake(s, l).Some? && Inv(s)
    ensures Awake(Wake(s, l).value)
  {
    hide NoRepeats, Words, Places, Clock;
    var s1 := Wake(s, l).value;
    forall m | m in s1.lock && s1.lock[m].value == 1 && s1.lock[m].waiters != [] ensures exists t :: Woken(s1, m, t) {
      var t :| Woken(s, m, t);
      assert Woken(s1, m, t);
    }
  }

  /** The semaphore is free again and the caller is back in its client. */
  function Freed(s: State, l: int): State
    requires s.cur in s.task && l in s.lock
  {
    Return(WithLock(s, l, s.lock[l].(value := s.lock[l].value + 1)).(owner := s.owner - {l}), l, 0)
  }

  lemma UpPlace(x: Task, y: Task, l: int)
    requires PlaceOk(x) && x.pc == Upping(l) && y.pc == Client && y.depth == x.depth[l := 0]
    ensures PlaceOk(y) && !InSection(y, l) && forall m :: m != l ==> Depth(y, m) == Depth(x, m)
  {
    assert forall m :: Depth(y, m) == if m == l then 0 else Depth(x, m);
  }

  lemma FreedOwners(s: State, l: int)
    requires Owners(s) && Words(s) && Places(s) && AtUp(s, l)
    ensures Owners(Freed(s, l)) && Words(Freed(s, l)) && Places(Freed(s, l))
  {
    hide PlaceOk, Depth;
    var s1 := Freed(s, l);
    UpPlace(s.task[s.cur], s1.task[s.cur], l);
  }

  lemma FreedQueues(s: State, l: int)
    requires Inv(s) && AtUp(s, l) && (s.lock[l].waiters != [] ==> exists t :: Woken(s, l, t))
    ensures var s1 := Freed(s, l); Partition(s1) && Listed(s1) && Waiting(s1) && Awake(s1) && Clock(s1)
  {
    hide Words, Places, NoRepeats, PlaceOk, Depth, Listed, Clock;
    var s1 := Freed(s, l);
    ClockFrame(s, s1);
    ListedFrame(s, s1);
    forall m | m in s1.lock && s1.lock[m].value == 1 && s1.lock[m].waiters != [] ensures exists t :: Woken(s1, m, t) {
      var t :| Woken(s, m, t);
      assert Woken(s1, m, t);
    }
  }

  lemma FreedKeeps(s: State, l: int)
    requires Inv(s) && AtUp(s, l) && (s.lock[l].waiters != [] ==> exists t :: Woken(s, l, t))
    ensures Inv(Freed(s, l))
  {
    hide Partition, Listed, Waiting, Owners, Words, Places, Awake, Clock;
    FreedQueues(s, l);
    FreedOwners(s, l);
  }

  lemma UpKeeps(s: State, l: int)
    requires Inv(s) && AtUp(s, l) && forall t :: t in s.lock[l].waiters ==> t in s.task
    ensures SemaUp(s, l).Some? && Inv(Return(SemaUp(s, l).value, l, 0))
  {
    hide Partition, Listed, Waiting, Words, Places, Awake, Clock, Unblock;
    assert s.lock[l].value == 0;
    if s.lock[l].waiters == [] {
      FreedKeeps(s, l);
    } else {
      WakeQueues(s, l);
      WakeOwners(s, l);
      WakeAwake(s, l);
      FreedKeeps(Wake(s, l).value, l);
    }
  }

  // Every statement.

  lemma CurOwns(s: State, l: int)
    requires Inv(s) && InSection(s.task[s.cur], l)
    ensures l in s.lock && l in s.owner && s.owner[l] == s.cur && OwnWords(s.lock[l], l, s.cur, s.task[s.cur])
    ensures s.lock[l].value == 0
  {
    hide NoRepeats, Waiting, Awake, Clock, Places;
  }

  /** The test of lock_acquire is right wherever other threads are. */
  lemma HolderIsCur(s: State, l: int)
    requires Inv(s) && l in s.lock && s.task[s.cur].pc == Acquiring(l)
    ensures s.lock[l].holder == Some(s.cur) <==> Holds(s.task[s.cur], l)
    ensures l in s.owner && s.owner[l] == s.cur <==> Holds(s.task[s.cur], l)
  {
    hide NoRepeats, Waiting, Awake, Clock, Places, Depth;
    var x := s.task[s.cur];
    assert InSection(x, l) <==> Holds(x, l);
    if l in s.owner && s.owner[l] != s.cur {
      var t := s.owner[l];
      assert OwnWords(s.lock[l], l, t, s.task[t]);
    }
  }

  lemma SamePut(s: State, l: int, y: Task)
    requires l in s.lock
    ensures Moved(s, l, s.lock[l], y) == WithCur(s, y)
  {
    var a, b := s.lock[l := s.lock[l]], s.lock;
    assert forall u :: u in a <==> u in b;
    assert forall u :: u in a ==> a[u] == b[u];
  }

  lemma CurPlace(s: State)
    requires Inv(s)
    ensures PlaceOk(s.task[s.cur]) && s.task[s.cur].status == Running
    ensures InSync(s.task[s.cur].pc) ==> s.task[s.cur].pc.l in s.lock
    ensures Counters(s.task[s.cur])
  {
    hide NoRepeats, Owners, Words, Awake, Clock, PlaceOk;
  }

  /** lock_acquire is called, or lock_release. */
  lemma CallKeeps(s: State, l: int, pc: Pc)
    requires Inv(s) && l in s.lock && s.task[s.cur].pc == Client
    requires pc == Acquiring(l) || pc == Releasing(l)
    requires pc == Acquiring(l) ==> Depth(s.task[s.cur], l) < WORD - 1
    requires pc == Releasing(l) ==> Holds(s.task[s.cur], l)
    ensures Inv(SetPc(s, pc))
  {
    hide Partition, Listed, Waiting, Owners, Words, Places, Awake, Clock;
    PartitionCur(s);
    CurPlace(s);
    var x, y := s.task[s.cur], s.task[s.cur].(pc := pc);
    assert forall m :: Depth(y, m) == Depth(x, m);
    if InSection(x, l) { CurOwns(s, l); } else { NotOwner(s, l); }
    LocalKeeps(s, l, s.lock[l], y);
    SamePut(s, l, y);
  }

  lemma PartitionCur(s: State)
    requires Inv(s)
    ensures WellFormed(s)
  {
    hide NoRepeats, Owners, Words, Places, Awake, Clock;
  }

  lemma NotOwner(s: State, l: int)
    requires Inv(s) && !InSection(s.task[s.cur], l)
    ensures !(l in s.owner && s.owner[l] == s.cur)
  {
    hide NoRepeats, Waiting, Awake, Clock, Places, Words;
  }

  lemma AcquiringKeeps(s: State, l: int)
    requires Inv(s) && WellFormed(s) && s.task[s.cur].pc == Acquiring(l)
    ensures Execute(s).Some? && Inv(Execute(s).value)
  {
    hide Partition, Listed, Waiting, Owners, Words, Places, Awake, Clock;
    CurPlace(s);
    HolderIsCur(s, l);
    var x := s.task[s.cur];
    var y := x.(pc := if s.lock[l].holder != Some(s.cur) then Entering(l) else Again(l));
    assert forall m :: Depth(y, m) == Depth(x, m);
    if Holds(x, l) { CurOwns(s, l); }
    LocalKeeps(s, l, s.lock[l], y);
    SamePut(s, l, y);
  }

  // The statements of a thread that owns the lock and keeps it.

  lemma TakenKeeps(s: State, l: int)
    requires Inv(s) && WellFormed(s) && s.task[s.cur].pc == Taken(l)
    ensures Execute(s).Some? && Inv(Execute(s).value)
  {
    hide Partition, Listed, Waiting, Owners, Words, Places, Awake, Clock;
    CurPlace(s);
    CurOwns(s, l);
    var x, y := s.task[s.cur], s.task[s.cur].(pc := Held(l));
    assert forall m :: Depth(y, m) == Depth(x, m);
    LocalKeeps(s, l, s.lock[l].(holder := Some(s.cur)), y);
  }

  lemma HeldKeeps(s: State, l: int)
    requires Inv(s) && WellFormed(s) && s.task[s.cur].pc == Held(l)
    ensures Execute(s).Some? && Inv(Execute(s).value)
  {
    hide Partition, Listed, Waiting, Owners, Words, Places, Awake, Clock;
    CurPlace(s);
    CurOwns(s, l);
    var x, y := s.task[s.cur], s.task[s.cur].(pc := Marking(l));
    assert forall m :: Depth(y, m) == Depth(x, m);
    LocalKeeps(s, l, s.lock[l], y);
    SamePut(s, l, y);
  }

  lemma MarkingKeeps(s: State, l: int)
    requires Inv(s) && WellFormed(s) && s.task[s.cur].pc == Marking(l)
    ensures Execute(s).Some? && Inv(Execute(s).value)
  {
    hide Partition, Listed, Waiting, Owners, Words, Places, Awake, Clock;
    CurPlace(s);
    CurOwns(s, l);
    var x := s.task[s.cur];
    var y := x.(pc := Client, depth := x.depth[l := 1]);
    assert forall m :: Depth(y, m) == if m == l then 1 else Depth(x, m);
    LocalKeeps(s, l, s.lock[l].(repeat := 1), y);
  }

  lemma AgainKeeps(s: State, l: int)
    requires Inv(s) && WellFormed(s) && s.task[s.cur].pc == Again(l)
    ensures Execute(s).Some? && Inv(Execute(s).value)
  {
    hide Partition, Listed, Waiting, Owners, Words, Places, Awake, Clock;
    CurPlace(s);
    CurOwns(s, l);
    var x := s.task[s.cur];
    var y := x.(pc := Client, depth := x.depth[l := Depth(x, l) + 1]);
    assert forall m :: Depth(y, m) == if m == l then Depth(x, l) + 1 else Depth(x, m);
    LocalKeeps(s, l, s.lock[l].(repeat := (s.lock[l].repeat + 1) % WORD), y);
  }

  lemma ReleasingKeeps(s: State, l: int)
    requires Inv(s) && WellFormed(s) && s.task[s.cur].pc == Releasing(l)
    ensures Execute(s).Some? && Inv(Execute(s).value)
  {
    hide Partition, Listed, Waiting, Owners, Words, Places, Awake, Clock;
    CurPlace(s);
    CurOwns(s, l);
    var x := s.task[s.cur];
    var y := x.(pc := Testing(l));
    assert forall m :: Depth(y, m) == Depth(x, m);
    LocalKeeps(s, l, s.lock[l], y);
    SamePut(s, l, y);
  }

  lemma TestingKeeps(s: State, l: int)
    requires Inv(s) && WellFormed(s) && s.task[s.cur].pc == Testing(l)
    ensures Execute(s).Some? && Inv(Execute(s).value)
  {
    hide Partition, Listed, Waiting, Owners, Words, Places, Awake, Clock;
    CurPlace(s);
    CurOwns(s, l);
    var x := s.task[s.cur];
    var y := x.(pc := if s.lock[l].repeat > 1 then Lowering(l) else Checking(l));
    assert forall m :: Depth(y, m) == Depth(x, m);
    LocalKeeps(s, l, s.lock[l], y);
    SamePut(s, l, y);
  }

  lemma CheckingKeeps(s: State, l: int)
    requires Inv(s) && WellFormed(s) && s.task[s.cur].pc == Checking(l)
    ensures Execute(s).Some? && Inv(Execute(s).value)
  {
    hide Partition, Listed, Waiting, Owners, Words, Places, Awake, Clock;
    CurPlace(s);
    CurOwns(s, l);
    var x := s.task[s.cur];
    var y := x.(pc := Dropping(l));
    assert forall m :: Depth(y, m) == Depth(x, m);
    LocalKeeps(s, l, s.lock[l], y);
    SamePut(s, l, y);
  }

  lemma LoweringKeeps(s: State, l: int)
    requires Inv(s) && WellFormed(s) && s.task[s.cur].pc == Lowering(l)
    ensures Execute(s).Some? && Inv(Execute(s).value)
  {
    hide Partition, Listed, Waiting, Owners, Words, Places, Awake, Clock;
    CurPlace(s);
    CurOwns(s, l);
    var x := s.task[s.cur];
    var y := x.(pc := Client, depth := x.depth[l := Depth(x, l) - 1]);
    assert forall m :: Depth(y, m) == if m == l then Depth(x, l) - 1 else Depth(x, m);
    LocalKeeps(s, l, s.lock[l].(repeat := s.lock[l].repeat - 1), y);
  }

  lemma DroppingKeeps(s: State, l: int)
    requires Inv(s) && WellFormed(s) && s.task[s.cur].pc == Dropping(l)
    ensures Execute(s).Some? && Inv(Execute(s).value)
  {
    hide Partition, Listed, Waiting, Owners, Words, Places, Awake, Clock;
    CurPlace(s);
    CurOwns(s, l);
    var x, y := s.task[s.cur], s.task[s.cur].(pc := Zeroing(l));
    assert forall m :: Depth(y, m) == Depth(x, m);
    LocalKeeps(s, l, s.lock[l].(holder := None), y);
  }

  lemma ZeroingKeeps(s: State, l: int)
    requires Inv(s) && WellFormed(s) && s.task[s.cur].pc == Zeroing(l)
    ensures Execute(s).Some? && Inv(Execute(s).value)
  {
    hide Partition, Listed, Waiting, Owners, Words, Places, Awake, Clock;
    CurPlace(s);
    CurOwns(s, l);
    var x, y := s.task[s.cur], s.task[s.cur].(pc := Upping(l));
    assert forall m :: Depth(y, m) == Depth(x, m);
    LocalKeeps(s, l, s.lock[l].(repeat := 0), y);
  }

  lemma UppingKeeps(s: State, l: int)
    requires Inv(s) && WellFormed(s) && s.task[s.cur].pc == Upping(l)
    ensures Execute(s).Some? && Inv(Execute(s).value)
  {
    hide Partition, Listed, Waiting, Owners, Words, Places, Awake, Clock, SemaUp, Return;
    CurPlace(s);
    CurOwns(s, l);
    UpKeeps(s, l);
  }

  lemma SemaphoreKeeps(s: State, l: int)
    requires Inv(s) && WellFormed(s) && (s.task[s.cur].pc == Entering(l) || s.task[s.cur].pc == Down(l))
    ensures Execute(s) == None <==> Stuck(s, Advance)
    ensures Execute(s).Some? ==> Inv(Execute(s).value)
  {
    hide Partition, Listed, Waiting, Owners, Words, Places, Awake, Clock, SemaDown;
    CurPlace(s);
    DownKeeps(s, l);
  }

  // thread_start.

  /** A new thread joins the ready list, and its starter is to list it. */
  lemma StartKeeps(s: State, t: int, prio: int)
    requires Inv(s) && s.cur in s.task && t !in s.task && s.task[s.cur].pc == Client
    ensures StartThread(s, t, prio).Some? && Inv(StartThread(s, t, prio).value)
    ensures StartThread(s, t, prio).value.all == s.all
  {
    hide Partition, Listed, Waiting, Owners, Words, Places, Awake, Clock;
    StartQueues(s, t, prio);
    StartListed(s, t, prio);
    StartOwners(s, t, prio);
    StartClock(s, t, prio);
  }

  lemma StartQueues(s: State, t: int, prio: int)
    requires Inv(s) && s.cur in s.task && t !in s.task && s.task[s.cur].pc == Client
    ensures StartThread(s, t, prio).Some?
    ensures var s1 := StartThread(s, t, prio).value; Partition(s1) && Waiting(s1) && Awake(s1)
  {
    hide Owners, Words, Places, Clock, Listed;
    Appended(s.ready, t);
    hide NoRepeats;
    var s1 := StartThread(s, t, prio).value;
    forall m | m in s1.lock && s1.lock[m].value == 1 && s1.lock[m].waiters != [] ensures exists u :: Woken(s1, m, u) {
      var u :| Woken(s, m, u);
      assert Woken(s1, m, u);
    }
  }

  lemma StartListed(s: State, t: int, prio: int)
    requires Inv(s) && s.cur in s.task && t !in s.task && s.task[s.cur].pc == Client && StartThread(s, t, prio).Some?
    ensures Listed(StartThread(s, t, prio).value)
  {
    hide Partition, Waiting, Owners, Words, Places, Clock, Awake, NoRepeats;
    var s1 := StartThread(s, t, prio).value;
    forall u | u in s1.task && u !in s1.all ensures exists v :: Lists(s1, v, u) {
      if u == t {
        assert Lists(s1, s.cur, t);
      } else {
        var v :| Lists(s, v, u);
        assert Lists(s1, v, u);
      }
    }
  }

  lemma StartClock(s: State, t: int, prio: int)
    requires Inv(s) && s.cur in s.task && t !in s.task && StartThread(s, t, prio).Some?
    ensures Clock(StartThread(s, t, prio).value)
  {
    hide Partition, Listed, Waiting, Owners, Words, Places, Awake, Elapsed;
    var s1 := StartThread(s, t, prio).value;
    forall i | 0 <= i < |s.made| ensures s.made[i] in s.task && s.made[i] != t {}
    assert t !in s.made;
    Appended(s.made, t);
    hide NoRepeats;
    ElapsedSame(s.task, s1.task, s.made);
    ElapsedAppend(s1.task, s.made, t);
  }

  lemma StartOwners(s: State, t: int, prio: int)
    requires Inv(s) && s.cur in s.task && t !in s.task && s.task[s.cur].pc == Client && StartThread(s, t, prio).Some?
    ensures var s1 := StartThread(s, t, prio).value; Owners(s1) && Words(s1) && Places(s1)
  {
    hide Partition, Listed, Waiting, Awake, Clock, Owners, Words, Places;
    var s0 := SetPc(s, Listing(t));
    OwnerFrame(s, s0);
    PlaceFrame(s, s0);
    NewOwners(s0, StartThread(s, t, prio).value, t);
  }

  /** A thread that holds nothing joins. */
  lemma NewOwners(s: State, s1: State, t: int)
    requires Owners(s) && Words(s) && Places(s) && t !in s.task && s1.lock == s.lock && s1.owner == s.owner
    requires t in s1.task && s1.task == s.task[t := s1.task[t]] && s1.task[t].pc == Client && s1.task[t].depth == map[]
    ensures Owners(s1) && Words(s1) && Places(s1)
  {
    hide LockWords, Between, PlaceOk;
    assert PlaceOk(s1.task[t]) by { NewPlace(s1.task[t]); }
  }

  lemma NewPlace(x: Task)
    requires x.pc == Client && x.depth == map[]
    ensures PlaceOk(x)
  {
  }

  lemma ListingAppends(s: State, t: int)
    requires WellFormed(s) && s.task[s.cur].pc == Listing(t) && t !in s.all
    ensures Execute(s).Some? && Execute(s).value.all == s.all + [t] && Execute(s).value.ready == s.ready
  {
    hide SemaDown, SemaUp;
  }

  lemma ToBeListed(s: State, t: int)
    requires Listed(s) && s.cur in s.task && s.task[s.cur].pc == Listing(t)
    ensures t !in s.all
  {
    hide NoRepeats;
  }

  /** The starter lists the thread, at the end. */
  lemma ListingKeeps(s: State, t: int)
    requires Inv(s) && WellFormed(s) && s.task[s.cur].pc == Listing(t)
    ensures Execute(s).Some? && Inv(Execute(s).value)
    ensures Execute(s).value.all == s.all + [t] && Execute(s).value.ready == s.ready
  {
    ToBeListed(s, t);
    ListingAppends(s, t);
    hide Partition, Listed, Waiting, Owners, Words, Places, Awake, Clock, Execute;
    ListingQueues(s, t);
    ListingListed(s, t);
    ListingOwners(s, t);
  }

  lemma ListingQueues(s: State, t: int)
    requires Inv(s) && WellFormed(s) && s.task[s.cur].pc == Listing(t)
    ensures Execute(s).Some?
    ensures var s1 := Execute(s).value; Partition(s1) && Waiting(s1) && Awake(s1) && Clock(s1)
  {
    hide NoRepeats, Owners, Words, Places, Clock, Counters, PlaceOk, Depth, SemaDown, SemaUp, Return, WithLock;
    var s1 := Execute(s).value;
    assert Counters(s1.task[s.cur]) by { MovedCounters(s.task[s.cur], Client); }
    ClockFrame(s, s1);
    forall m | m in s1.lock && s1.lock[m].value == 1 && s1.lock[m].waiters != [] ensures exists u :: Woken(s1, m, u) {
      var u :| Woken(s, m, u);
      assert Woken(s1, m, u);
    }
  }

  lemma MovedCounters(x: Task, pc: Pc)
    ensures Counters(x.(pc := pc)) <==> Counters(x)
  {
  }

  lemma ListingListed(s: State, t: int)
    requires Inv(s) && WellFormed(s) && s.task[s.cur].pc == Listing(t) && Execute(s).Some?
    ensures Listed(Execute(s).value)
  {
    hide Partition, Waiting, Owners, Words, Places, Clock, Awake;
    var s1 := Execute(s).value;
    Appended(s.all, t);
    hide NoRepeats;
    forall u | u in s1.task && u !in s1.all ensures exists v :: Lists(s1, v, u) {
      var v :| Lists(s, v, u);
      assert Lists(s1, v, u);
    }
  }

  lemma ListingOwners(s: State, t: int)
    requires Inv(s) && WellFormed(s) && s.task[s.cur].pc == Listing(t) && Execute(s).Some?
    ensures var s1 := Execute(s).value; Owners(s1) && Words(s1) && Places(s1)
  {
    hide Partition, Listed, Waiting, Awake, Clock, Owners, Words, Places;
    OwnerFrame(s, Execute(s).value);
    PlaceFrame(s, Execute(s).value);
  }

  /** A process is queued as thread_start would do it, if no interrupt came between its two appends. */
  lemma ProcessIsThread(s: State, t: int, prio: int)
    requires Inv(s) && WellFormed(s) && t !in s.task && s.task[s.cur].pc == Client
    ensures StartThread(s, t, prio).Some?
    ensures var s1 := StartThread(s, t, prio).value;
      Inv(s1) && WellFormed(s1) && s1.task[s1.cur].pc == Listing(t) && Execute(s1) == StartProcess(s, t, prio)
  {
    hide Inv;
    StartKeeps(s, t, prio);
    NotListedYet(s, t);
    var s1 := StartThread(s, t, prio).value;
    PartitionCur(s1);
    assert s1.task[s.cur := s.task[s.cur]] == s.task[t := s1.task[t]];
  }

  lemma NotListedYet(s: State, t: int)
    requires Inv(s) && t !in s.task
    ensures t !in s.all && t !in s.ready
  {
    hide NoRepeats, Waiting, Owners, Words, Places, Awake, Clock;
  }

  /** The appends of process_execute find the process in neither list and keep the invariant. */
  lemma ProcessKeeps(s: State, t: int, prio: int)
    requires Inv(s) && WellFormed(s) && t !in s.task && s.task[s.cur].pc == Client
    ensures StartProcess(s, t, prio).Some? && Inv(StartProcess(s, t, prio).value)
    ensures StartProcess(s, t, prio).value.all == s.all + [t]
  {
    hide Inv, Execute, StartThread, StartProcess;
    StartKeeps(s, t, prio);
    ProcessIsThread(s, t, prio);
    ListingKeeps(StartThread(s, t, prio).value, t);
  }

  lemma ExecuteKeeps(s: State)
    requires Inv(s) && WellFormed(s) && s.task[s.cur].pc != Client
    ensures Execute(s) == None <==> Stuck(s, Advance)
    ensures Execute(s).Some? ==> Inv(Execute(s).value)
  {
    hide Inv, Execute;
    match s.task[s.cur].pc
    case Acquiring(l) => AcquiringKeeps(s, l);
    case Entering(l) => SemaphoreKeeps(s, l);
    case Down(l) => SemaphoreKeeps(s, l);
    case Taken(l) => TakenKeeps(s, l);
    case Held(l) => HeldKeeps(s, l);
    case Marking(l) => MarkingKeeps(s, l);
    case Again(l) => AgainKeeps(s, l);
    case Releasing(l) => ReleasingKeeps(s, l);
    case Testing(l) => TestingKeeps(s, l);
    case Lowering(l) => LoweringKeeps(s, l);
    case Checking(l) => CheckingKeeps(s, l);
    case Dropping(l) => DroppingKeeps(s, l);
    case Zeroing(l) => ZeroingKeeps(s, l);
    case Upping(l) => UppingKeeps(s, l);
    case Listing(t) => ListingKeeps(s, t);
  }

  /** Every enabled step passes all its ASSERTs and keeps the invariant, but for a thread that has
      to wait while nobody is ready. */
  lemma StepKeeps(s: State, a: Action)
    requires Inv(s) && WellFormed(s) && Enabled(s, a)
    ensures Step(s, a) == None <==> Stuck(s, a)
    ensures Step(s, a).Some? ==> Inv(Step(s, a).value) && WellFormed(Step(s, a).value)
  {
    hide Inv, Execute, Tick, StartThread, StartProcess;
    match a {
      case Timer => TickKeeps(s);
      case Acquire(l) => CallKeeps(s, l, Acquiring(l));
      case Release(l) => CallKeeps(s, l, Releasing(l));
      case Advance => ExecuteKeeps(s);
      case Start(t, prio) => StartKeeps(s, t, prio);
      case Spawn(t, prio) => ProcessKeeps(s, t, prio);
    }
    if Step(s, a).Some? { PartitionCur(Step(s, a).value); }
  }

  // Lock order is kept, and then no thread is ever stuck.

  /** The thread is where it was and holds what it held. */
  ghost predicate Stays(s: State, s': State, t: int)
    requires t in s.task
  {
    t in s'.task && s'.task[t].pc == s.task[t].pc && s'.task[t].depth == s.task[t].depth
  }

  lemma ScheduleStays(s: State)
    requires s.cur in s.task && (forall t :: t in s.ready ==> t in s.task) && Schedule(s).Some?
    ensures forall t :: t in s.task ==> Stays(s, Schedule(s).value, t)
  {
  }

  lemma SemaDownStays(s: State, l: int)
    requires s.cur in s.task && l in s.lock && (forall t :: t in s.ready ==> t in s.task) && SemaDown(s, l).Some?
    ensures forall t :: t in s.task && t != s.cur ==> Stays(s, SemaDown(s, l).value, t)
    ensures s.cur in SemaDown(s, l).value.task
    ensures var y := SemaDown(s, l).value.task[s.cur];
      y.depth == s.task[s.cur].depth && (y.pc == Down(l) || y.pc == Taken(l))
  {
    hide Schedule;
    if s.lock[l].value == 0 {
      ScheduleStays(Waited(s, l));
      assert SemaDown(s, l) == Schedule(Waited(s, l));
      assert forall t :: t in s.task ==> Stays(Waited(s, l), SemaDown(s, l).value, t);
    }
  }

  lemma SemaUpStays(s: State, l: int)
    requires l in s.lock && (forall t :: t in s.lock[l].waiters ==> t in s.task) && SemaUp(s, l).Some?
    ensures forall t :: t in s.task ==> Stays(s, SemaUp(s, l).value, t)
  {
  }

  lemma TickStays(s: State)
    requires s.cur in s.task && (forall t :: t in s.ready ==> t in s.task) && Tick(s).Some?
    ensures forall t :: t in s.task ==> Stays(s, Tick(s).value, t)
  {
    hide Schedule;
    if s.task[s.cur].ticks == 0 {
      ScheduleStays(Elapse(s));
      assert forall t :: t in s.task ==> Stays(Elapse(s), Tick(s).value, t);
    }
  }

  lemma ExecuteStays(s: State, t: int)
    requires WellFormed(s) && Execute(s).Some? && t in s.task && t != s.cur
    ensures Stays(s, Execute(s).value, t)
  {
    hide SemaDown, SemaUp;
    var pc := s.task[s.cur].pc;
    if AtSema(pc) { SemaDownStays(s, pc.l); }
    if pc.Upping? { SemaUpStays(s, pc.l); }
  }

  /** A step moves no thread but the running one. */
  lemma OthersStay(s: State, a: Action, t: int)
    requires WellFormed(s) && Step(s, a).Some? && t in s.task && t != s.cur && (a.Start? || a.Spawn? ==> a.t != t)
    ensures Stays(s, Step(s, a).value, t)
  {
    hide Execute, Tick;
    if a == Timer { TickStays(s); }
    if a == Advance { ExecuteStays(s, t); }
  }

  lemma SameRank(x: Task, y: Task)
    requires y.depth == x.depth && RankOk(x)
    requires y.pc == x.pc || !InSync(y.pc)
      || (AtSema(x.pc) && (y.pc == Down(x.pc.l) || y.pc == Taken(x.pc.l)))
      || (x.pc.Taken? && y.pc == Held(x.pc.l)) || (x.pc.Held? && y.pc == Marking(x.pc.l))
      || (x.pc.Acquiring? && !Holds(x, x.pc.l) && y.pc == Entering(x.pc.l))
      || y.pc.Again? || y.pc.Releasing? || y.pc.Testing? || y.pc.Lowering? || y.pc.Checking? || y.pc.Dropping?
      || y.pc.Zeroing? || y.pc.Upping?
    ensures RankOk(y)
  {
    assert forall l :: Depth(y, l) == Depth(x, l);
  }

  lemma CurRank(s: State)
    requires Inv(s) && WellFormed(s) && RankOk(s.task[s.cur]) && InSync(s.task[s.cur].pc) && Execute(s).Some?
    ensures s.cur in Execute(s).value.task && RankOk(Execute(s).value.task[s.cur])
  {
    var x := s.task[s.cur];
    var l := x.pc.l;
    if x.pc.Acquiring? { HolderIsCur(s, l); }
    if AtSema(x.pc) { SemaDownStays(s, l); }
    hide Inv, SemaDown, SemaUp, RankOk;
    var y := Execute(s).value.task[s.cur];
    if y.pc == Client { ClientRank(y); } else { SameRank(x, y); }
  }

  lemma ClientRank(x: Task)
    requires !InSync(x.pc)
    ensures RankOk(x)
  {
  }

  /** Locks taken in order stay in order, and the kernel does not stop. */
  lemma RankedKeeps(s: State, a: Action)
    requires Inv(s) && WellFormed(s) && Ranked(s) && Enabled(s, a) && Ordered(s, a)
    ensures Step(s, a).Some? && Ranked(Step(s, a).value)
  {
    hide Inv, Execute, Tick, RankOk, StartThread, StartProcess;
    NotStuck(s, a);
    StepKeeps(s, a);
    var s1 := Step(s, a).value;
    forall t | t in s1.task ensures RankOk(s1.task[t]) {
      RankedTask(s, a, t);
    }
  }

  lemma NotStuck(s: State, a: Action)
    requires Inv(s) && WellFormed(s) && Ranked(s)
    ensures !Stuck(s, a)
  {
    if Stuck(s, a) {
      BlockingLeavesReady(s, s.task[s.cur].pc.l);
      assert false;
    }
  }

  lemma RankedTask(s: State, a: Action, t: int)
    requires Inv(s) && WellFormed(s) && Ranked(s) && Enabled(s, a) && Ordered(s, a) && Step(s, a).Some?
    requires t in Step(s, a).value.task
    ensures RankOk(Step(s, a).value.task[t])
  {
    hide Inv, RankOk, Execute, Tick;
    var s1 := Step(s, a).value;
    if t !in s.task {
      NewTask(s, a, t);
    } else if t != s.cur {
      OthersStay(s, a, t);
      SameRank(s.task[t], s1.task[t]);
    } else if a == Advance && InSync(s.task[s.cur].pc) {
      CurRank(s);
    } else {
      CurCalls(s, a);
    }
  }

  lemma NewTask(s: State, a: Action, t: int)
    requires Inv(s) && WellFormed(s) && Enabled(s, a) && Step(s, a).Some? && t !in s.task && t in Step(s, a).value.task
    ensures RankOk(Step(s, a).value.task[t])
  {
    hide NoRepeats, Waiting, Owners, Words, Places, Awake, Clock, Listed;
  }

  lemma CurCalls(s: State, a: Action)
    requires WellFormed(s) && RankOk(s.task[s.cur]) && Enabled(s, a) && Ordered(s, a) && Step(s, a).Some?
    requires !(a == Advance && InSync(s.task[s.cur].pc))
    ensures s.cur in Step(s, a).value.task && RankOk(Step(s, a).value.task[s.cur])
  {
    hide Tick, SemaDown, SemaUp, Above, Depth;
    if a == Timer { TickStays(s); }
    var x, y := s.task[s.cur], Step(s, a).value.task[s.cur];
    assert y.depth == x.depth;
    if y.pc == x.pc { SameRank(x, y); } else if a.Acquire? { SameHolds(x, y, a.l); }
  }

  lemma SameHolds(x: Task, y: Task, l: int)
    requires y.depth == x.depth
    ensures (Holds(y, l) <==> Holds(x, l)) && (Above(y, l) <==> Above(x, l))
  {
    assert forall k :: Depth(y, k) == Depth(x, k);
  }
}
