/** The scheduler and the locks as the kernel runs them: the lists in the words of kernel memory, task
    fields and lock fields updated in place, statement by statement, each ASSERT where the source has it. */
module SchedMachine {
  import opened Paging
  import opened Views
  import opened Lists
  import opened Sched
  import opened SchedInvariant
  import opened SchedRuns
  import opened TagLists
  import opened TaskStructs
  import Spec = Sched

  /** The fields of a lock, but for its waiters. */
  datatype Sync = Sync(value: int, holder: Option<int>, repeat: int)

  function With(k: Lock, x: Sync): Lock { k.(value := x.value, holder := x.holder, repeat := x.repeat) }

  class Machine {
    const heads: Heads
    var words: Words            // kernel memory
    var cur: int                // running_thread()
    var task: map<int, Task>    // by the address of the PCB, without its tags
    var sync: map<int, Sync>    // by the address of the lock
    var clock: int              // ticks
    ghost var ready: seq<int>   // what the lists hold
    ghost var all: seq<int>
    ghost var lock: map<int, Lock>
    ghost var owner: map<int, int>
    ghost var made: seq<int>

    ghost function View(): State
      reads this
    {
      State(cur, ready, all, task, lock, owner, made, clock)
    }

    ghost predicate Synced()
      reads this`sync, this`lock
    {
      sync.Keys == lock.Keys && forall l :: l in lock ==> sync[l] == Sync(lock[l].value, lock[l].holder, lock[l].repeat)
    }

    /** The words of memory hold the lists. */
    ghost predicate Valid()
      reads this
    {
      Synced() && InWords(words, heads, View())
    }

    /** There is room for a PCB at t. */
    ghost predicate HasRoom(t: int)
      reads this
    {
      Room(words, heads, View(), t)
    }

    /** Other fields have changed. */
    lemma Still(s: State)
      requires Synced() && InWords(words, heads, s) && View().ready == s.ready && View().all == s.all
      requires View().task.Keys == s.task.Keys && View().lock.Keys == s.lock.Keys
      requires forall l :: l in s.lock ==> View().lock[l].waiters == s.lock[l].waiters
      ensures Valid()
    {
      hide InWords;
      SameQueues(words, heads, s, View());
    }

    /** What the words of lock l say. */
    lemma Fields(l: int)
      requires Synced()
      ensures l in lock <==> l in sync
      ensures l in lock ==> sync[l] == Sync(lock[l].value, lock[l].holder, lock[l].repeat)
    {
    }

    /** Stores to the PCB of thread t. */
    method StoreTask(t: int, x: Task)
      requires Valid() && t in task
      modifies this`task
      ensures Valid() && View() == old(View()).(task := old(task)[t := x])
    {
      hide InWords, Synced;
      ghost var s := View();
      task := task[t := x];
      Still(s);
    }

    /** Stores to lock l. */
    method StoreLock(l: int, k: Sync)
      requires Valid() && l in lock
      modifies this`sync, this`lock
      ensures Valid() && View() == WithLock(old(View()), l, With(old(lock[l]), k))
    {
      hide InWords;
      ghost var s := View();
      sync := sync[l := k];
      lock := lock[l := With(lock[l], k)];
      Still(s);
    }

    /** The history of queue x. */
    ghost method Note(x: Queue, q: seq<int>)
      requires Has(View(), x) && Synced()
      modifies this`ready, this`all, this`lock
      ensures View() == WithQueue(old(View()), x, q) && Synced()
    {
      match x {
        case ReadyQueue => ready := q;
        case AllQueue => all := q;
        case WaitQueue(l) => lock := lock[l := lock[l].(waiters := q)];
      }
    }

    /** ASSERT(!elem_find(...)) and list_append. */
    method Append(x: Queue, t: int)
      requires Valid() && Has(View(), x) && t in task && Loose(View(), x, t)
      modifies this`words, this`ready, this`all, this`lock
      ensures Valid() && View() == WithQueue(old(View()), x, old(Threads(View(), x)) + [t])
      ensures words.Keys == old(words.Keys)
    {
      hide InWords, IsList, Elems, Loose, Outside, OnlyQueue, Head, WithQueue, Synced, InsertBefore, Within;
      ghost var s, w := View(), words;
      CanJoin(w, heads, s, x, t);
      LooseHere(s, x, t);
      assert t !in Threads(s, x);
      AppendStores(w, Head(heads, x), Elems(s, x), t + Tag(x));
      words := InsertBefore(words, Head(heads, x) + 8, t + Tag(x));
      WithQueueOnly(s, x, Threads(s, x) + [t]);
      AppendKeeps(w, words, heads, s, WithQueue(s, x, Threads(s, x) + [t]), x, t);
      Note(x, Threads(s, x) + [t]);
    }

    /** The ASSERT and the PANIC of thread_unblock, and list_push to the ready list. */
    method Push(t: int)
      requires Valid() && t in task && Loose(View(), ReadyQueue, t)
      modifies this`words, this`ready, this`all, this`lock
      ensures Valid() && View() == old(View()).(ready := [t] + old(ready))
      ensures words.Keys == old(words.Keys)
    {
      hide InWords, IsList, Elems, Loose, Outside, OnlyQueue, Synced, InsertBefore, Within;
      ghost var s, w, x := View(), words, ReadyQueue;
      CanJoin(w, heads, s, x, t);
      LooseHere(s, x, t);
      assert t !in ready;
      PushStores(w, heads.ready, Elems(s, x), t + GENERAL_TAG);
      words := InsertBefore(words, words[heads.ready + 4], t + GENERAL_TAG);
      WithQueueOnly(s, x, [t] + ready);
      PushKeeps(w, words, heads, s, WithQueue(s, x, [t] + ready), x, t);
      Note(x, [t] + ready);
    }

    /** list_pop and elem2entry. */
    method Pop(x: Queue) returns (t: int)
      requires Valid() && Has(View(), x) && Threads(View(), x) != []
      modifies this`words, this`ready, this`all, this`lock
      ensures Valid() && t == old(Threads(View(), x)[0]) && Loose(View(), x, t)
      ensures View() == WithQueue(old(View()), x, old(Threads(View(), x))[1..])
      ensures words.Keys == old(words.Keys)
    {
      hide InWords, IsList, Elems, Loose, Outside, OnlyQueue, Head, WithQueue, Synced, Unlink, Within;
      ghost var s, w := View(), words;
      ListOf(w, heads, s, x);
      TagIn(s, x, 0);
      PopStores(w, Head(heads, x), Elems(s, x));
      var tag := words[Head(heads, x) + 4];
      words := Unlink(words, tag);
      t := tag - Tag(x);
      WithQueueOnly(s, x, Threads(s, x)[1..]);
      PopKeeps(w, words, heads, s, WithQueue(s, x, Threads(s, x)[1..]), x);
      Note(x, Threads(s, x)[1..]);
    }

    /** list_empty */
    method Empty(x: Queue) returns (b: bool)
      requires Valid() && Has(View(), x)
      ensures b <==> Threads(View(), x) == []
    {
      hide InWords, IsList, Elems, Head, Synced;
      ListOf(words, heads, View(), x);
      TagIn(View(), x, 0);
      Along(words, Head(heads, x), Elems(View(), x), 0);
      b := words[Head(heads, x) + 4] == Head(heads, x) + 8;
    }

    /** thread_init with the main thread, and lock_init of every lock. */
    constructor (words: Words, heads: Heads, main: int, locks: seq<int>)
      requires Sited(words, heads, Boot(main, set l | l in locks))
      requires HeadWords(words, heads.ready) && HeadWords(words, heads.all)
      requires forall l :: l in locks ==> HeadWords(words, l + WAITERS)
      ensures this.heads == heads && Valid() && this.words.Keys == words.Keys
      ensures View() == Boot(main, set l | l in locks) && Inv(View()) && WellFormed(View()) && Ranked(View())
    {
      hide Inv, Ranked, Sited, InWords, IsList, Loose, Init;
      this.heads := heads;
      cur, ready, all, clock := main, [], [], 0;
      task := map[main := Task(Running, Client, 1, 1, 0, MAGIC, map[])];
      sync := map l | l in locks :: Sync(1, None, 0);
      lock := map l | l in locks :: Lock(1, [], None, 0);
      owner, made := map[], [main];
      BootHeads(words, heads, main, locks);
      var w := ListsInit(words, heads, locks);
      this.words := w;
      new;
      BootLists(words, this.words, heads, View(), main, locks);
      Append(AllQueue, main);
      BootKeeps(main, set l | l in locks);
    }

    /** schedule */
    method Schedule()
      requires Valid() && cur in task && (forall t :: t in ready ==> t in task) && Spec.Schedule(View()).Some?
      requires task[cur].status == Running ==> Loose(View(), ReadyQueue, cur)
      modifies this`cur, this`ready, this`all, this`lock, this`task, this`words
      ensures Valid() && Some(View()) == Spec.Schedule(old(View())) && words.Keys == old(words.Keys)
    {
      hide InWords, Loose, Synced;
      var x := task[cur];
      if x.status == Running {
        Append(ReadyQueue, cur);
        x := x.(ticks := x.prio);
        x := x.(status := Ready);
        StoreTask(cur, x);
      }
      var empty := Empty(ReadyQueue);
      assert !empty;
      var next := Pop(ReadyQueue);
      StoreTask(next, task[next].(status := Running));
      ghost var s := View();
      cur := next;
      Still(s);
    }

    /** thread_block(TASK_BLOCKED) */
    method ThreadBlock()
      requires Valid() && cur in task && (forall t :: t in ready ==> t in task) && Spec.Block(View()).Some?
      modifies this`cur, this`ready, this`all, this`lock, this`task, this`words
      ensures Valid() && Some(View()) == Spec.Block(old(View())) && words.Keys == old(words.Keys)
    {
      hide InWords, Loose, Synced;
      StoreTask(cur, task[cur].(status := Blocked));
      Schedule();
    }

    /** thread_unblock */
    method ThreadUnblock(t: int)
      requires Valid() && t in task && Spec.Unblock(View(), t).Some? && Loose(View(), ReadyQueue, t)
      modifies this`ready, this`all, this`lock, this`task, this`words
      ensures Valid() && Some(View()) == Spec.Unblock(old(View()), t) && words.Keys == old(words.Keys)
    {
      hide InWords, Loose, Synced;
      assert task[t].status == Blocked;
      if task[t].status != Ready {
        Push(t);
        StoreTask(t, task[t].(status := Ready));
      }
    }

    /** A pass of the loop of sema_down, and what follows the loop. */
    method SemaDown(l: int)
      requires Valid() && cur in task && l in lock && (forall t :: t in ready ==> t in task)
      requires Spec.SemaDown(View(), l).Some? && Loose(View(), ReadyQueue, cur)
      modifies this
      ensures Valid() && Some(View()) == Spec.SemaDown(old(View()), l) && words.Keys == old(words.Keys)
    {
      hide InWords, Loose, Synced;
      Fields(l);
      if sync[l].value == 0 {
        SameTag(View(), ReadyQueue, WaitQueue(l), cur);
        Append(WaitQueue(l), cur);
        StoreTask(cur, task[cur].(pc := Down(l)));
        ThreadBlock();
      } else {
        StoreLock(l, sync[l].(value := sync[l].value - 1));
        Fields(l);
        assert sync[l].value == 0;
        StoreTask(cur, task[cur].(pc := Taken(l)));
        ghost var s := View();
        owner := owner[l := cur];
        Still(s);
      }
    }

    /** sema_up */
    method SemaUp(l: int)
      requires Valid() && l in lock && (forall t :: t in lock[l].waiters ==> t in task)
      requires Spec.SemaUp(View(), l).Some?
      modifies this`ready, this`all, this`task, this`lock, this`sync, this`owner, this`words
      ensures Valid() && Some(View()) == Spec.SemaUp(old(View()), l) && words.Keys == old(words.Keys)
    {
      hide InWords, Loose, Synced;
      Fields(l);
      assert sync[l].value == 0;
      var empty := Empty(WaitQueue(l));
      if !empty {
        var woken := Pop(WaitQueue(l));
        assert woken in old(lock[l].waiters);
        SameTag(View(), WaitQueue(l), ReadyQueue, woken);
        ThreadUnblock(woken);
      }
      Fields(l);
      StoreLock(l, sync[l].(value := sync[l].value + 1));
      Fields(l);
      assert sync[l].value == 1;
      ghost var s := View();
      owner := owner - {l};
      Still(s);
    }

    /** intr_timer_handler */
    method IntrTimerHandler()
      requires Valid() && cur in task && (forall t :: t in ready ==> t in task) && Spec.Tick(View()).Some?
      requires Loose(View(), ReadyQueue, cur)
      modifies this
      ensures Valid() && Some(View()) == Spec.Tick(old(View())) && words.Keys == old(words.Keys)
    {
      hide InWords, Synced;
      ghost var s := View();
      assert task[cur].magic == MAGIC;
      var x := task[cur].(elapsed := (task[cur].elapsed + 1) % WORD);
      task := task[cur := x];
      clock := (clock + 1) % WORD;
      Still(s);
      if x.ticks == 0 {
        Schedule();
      } else {
        task := task[cur := x.(ticks := x.ticks - 1)];
        Still(s);
      }
    }

    /** init_thread and the first append of thread_start. */
    method ThreadStart(t: int, prio: int)
      requires Valid() && cur in task && t !in task && Spec.StartThread(View(), t, prio).Some? && HasRoom(t)
      modifies this`ready, this`all, this`lock, this`made, this`task, this`words
      ensures Valid() && Some(View()) == Spec.StartThread(old(View()), t, prio)
      ensures words.Keys == old(words.Keys)
    {
      hide InWords, Loose, Synced, Room;
      ghost var s := View();
      var p := prio % 256;
      task := task[cur := task[cur].(pc := Listing(t))];
      task := task[t := Task(Ready, Client, p, p, 0, MAGIC, map[])];
      made := made + [t];
      NewThread(words, heads, s, View(), t);
      Append(ReadyQueue, t);
    }

    /** The second append of thread_start. */
    method ThreadListed()
      requires Valid() && cur in task && task[cur].pc.Listing? && WellFormed(View()) && Execute(View()).Some?
      requires task[cur].pc.t in task
      modifies this`ready, this`all, this`lock, this`task, this`words
      ensures Valid() && Some(View()) == Execute(old(View())) && words.Keys == old(words.Keys)
    {
      hide InWords, Synced;
      Append(AllQueue, task[cur].pc.t);
      StoreTask(cur, task[cur].(pc := Client));
    }

    /** init_thread and the two appends of process_execute. */
    method ProcessExecute(t: int, prio: int)
      requires Valid() && t !in task && Spec.StartProcess(View(), t, prio).Some? && HasRoom(t)
      modifies this`ready, this`all, this`lock, this`made, this`task, this`words
      ensures Valid() && Some(View()) == Spec.StartProcess(old(View()), t, prio)
      ensures words.Keys == old(words.Keys)
    {
      hide InWords, Synced, Room;
      ghost var s := View();
      var p := prio % 256;
      task := task[t := Task(Ready, Client, p, p, 0, MAGIC, map[])];
      made := made + [t];
      NewThread(words, heads, s, View(), t);
      Append(ReadyQueue, t);
      Append(AllQueue, t);
    }

    /** The next statement of lock_acquire. */
    method LockAcquireStatement()
      requires Valid() && Inv(View()) && WellFormed(View())
      requires match task[cur].pc
        case Acquiring(_) => true case Entering(_) => true case Down(_) => true
        case Taken(_) => true case Held(_) => true case Marking(_) => true case Again(_) => true case _ => false
      requires !Stuck(View(), Advance)
      modifies this
      ensures Valid() && Inv(View()) && Some(View()) == Execute(old(View())) && words.Keys == old(words.Keys)
    {
      hide Inv, Spec.SemaDown, InWords, Loose, Synced;
      ExecuteKeeps(View());
      CurIsLoose(View());
      var x := task[cur];
      var l := x.pc.l;
      Fields(l);
      match x.pc {
        case Acquiring(_) =>
          if sync[l].holder != Some(cur) { x := x.(pc := Entering(l)); } else { x := x.(pc := Again(l)); }
          StoreTask(cur, x);
        case Entering(_) => SemaDown(l);
        case Down(_) => SemaDown(l);
        case Taken(_) =>
          StoreLock(l, sync[l].(holder := Some(cur)));
          StoreTask(cur, x.(pc := Held(l)));
        case Held(_) =>
          assert sync[l].repeat == 0;
          StoreTask(cur, x.(pc := Marking(l)));
        case Marking(_) =>
          StoreLock(l, sync[l].(repeat := 1));
          StoreTask(cur, x.(pc := Client, depth := x.depth[l := 1]));
        case Again(_) =>
          StoreLock(l, sync[l].(repeat := (sync[l].repeat + 1) % WORD));
          StoreTask(cur, x.(pc := Client, depth := x.depth[l := Depth(x, l) + 1]));
      }
    }

    /** The next statement of lock_release. */
    method LockReleaseStatement()
      requires Valid() && Inv(View()) && WellFormed(View())
      requires match task[cur].pc
        case Releasing(_) => true case Testing(_) => true case Lowering(_) => true case Checking(_) => true
        case Dropping(_) => true case Zeroing(_) => true case Upping(_) => true case _ => false
      modifies this
      ensures Valid() && Inv(View()) && Some(View()) == Execute(old(View())) && words.Keys == old(words.Keys)
    {
      hide Inv, Spec.SemaUp, InWords, Loose, Synced;
      ExecuteKeeps(View());
      var x := task[cur];
      var l := x.pc.l;
      Fields(l);
      match x.pc {
        case Releasing(_) =>
          assert sync[l].holder == Some(cur);
          StoreTask(cur, x.(pc := Testing(l)));
        case Testing(_) =>
          if sync[l].repeat > 1 { x := x.(pc := Lowering(l)); } else { x := x.(pc := Checking(l)); }
          StoreTask(cur, x);
        case Checking(_) =>
          assert sync[l].repeat == 1;
          StoreTask(cur, x.(pc := Dropping(l)));
        case Lowering(_) =>
          StoreLock(l, sync[l].(repeat := sync[l].repeat - 1));
          StoreTask(cur, x.(pc := Client, depth := x.depth[l := Depth(x, l) - 1]));
        case Dropping(_) =>
          StoreLock(l, sync[l].(holder := None));
          StoreTask(cur, x.(pc := Zeroing(l)));
        case Zeroing(_) =>
          StoreLock(l, sync[l].(repeat := 0));
          StoreTask(cur, x.(pc := Upping(l)));
        case Upping(_) =>
          SemaUp(l);
          StoreTask(cur, task[cur].(pc := Client, depth := task[cur].depth[l := 0]));
      }
    }

    /** Any step of a run: no ASSERT fails unless the thread has to wait while nobody is ready, the state
        is the one the transition system gives, and memory holds its lists. */
    method Do(a: Action)
      requires Valid() && Inv(View()) && WellFormed(View()) && Enabled(View(), a) && !Stuck(View(), a)
      requires a.Start? || a.Spawn? ==> HasRoom(a.t)
      modifies this
      ensures Valid() && Inv(View()) && WellFormed(View()) && Some(View()) == Step(old(View()), a)
      ensures words.Keys == old(words.Keys)
    {
      hide Inv, Tick, StartThread, StartProcess, Execute, InWords, Loose;
      StepKeeps(View(), a);
      CurIsLoose(View());
      match a {
        case Timer => IntrTimerHandler();
        case Acquire(l) =>
          StoreTask(cur, task[cur].(pc := Acquiring(l)));
        case Release(l) =>
          StoreTask(cur, task[cur].(pc := Releasing(l)));
        case Start(t, prio) => ThreadStart(t, prio);
        case Spawn(t, prio) => ProcessExecute(t, prio);
        case Advance =>
          if task[cur].pc.Listing? {
            ListedIsThread(View());
            ThreadListed();
          } else if task[cur].pc.Releasing? || task[cur].pc.Testing? || task[cur].pc.Lowering?
             || task[cur].pc.Checking? || task[cur].pc.Dropping? || task[cur].pc.Zeroing? || task[cur].pc.Upping? {
            LockReleaseStatement();
          } else {
            LockAcquireStatement();
          }
      }
    }

    /** A whole run in rank order, whose new threads get PCBs that hold no sentinel. */
    method Run(run: seq<Action>)
      requires Valid() && Inv(View()) && WellFormed(View()) && Ranked(View())
      requires Allowed(View(), run) && InOrder(View(), run)
      requires forall a :: a in run && (a.Start? || a.Spawn?) ==> HasRoom(a.t)
      modifies this
      ensures Valid() && Inv(View()) && WellFormed(View()) && Ranked(View()) && Some(View()) == After(old(View()), run)
      ensures words.Keys == old(words.Keys)
      decreases |run|
    {
      hide Inv, Enabled, Step, Stuck, Ranked, Ordered, InWords, Loose, Room;
      if run != [] {
        RankedKeeps(View(), run[0]);
        NotStuck(View(), run[0]);
        StepKeeps(View(), run[0]);
        ghost var w, s := words, View();
        assert run[0] in run;
        Do(run[0]);
        StepLocks(s, run[0]);
        forall a | a in run[1..] && (a.Start? || a.Spawn?) ensures HasRoom(a.t) {
          assert a in run;
          RoomStays(w, words, heads, s, View(), a.t);
        }
        Run(run[1..]);
      }
    }
  }

  lemma BootHeads(w: Words, H: Heads, main: int, locks: seq<int>)
    requires Sited(w, H, Boot(main, set l | l in locks))
    ensures H.ready + 16 <= H.all || H.all + 16 <= H.ready
    ensures forall l :: l in locks ==>
      && (H.ready + 16 <= l + WAITERS || l + WAITERS + 16 <= H.ready)
      && (H.all + 16 <= l + WAITERS || l + WAITERS + 16 <= H.all)
    ensures forall k, l :: k in locks && l in locks && k != l ==> k + 16 <= l || l + 16 <= k
  {
    var s := Boot(main, set l | l in locks);
    assert Head(H, ReadyQueue) == H.ready && Head(H, AllQueue) == H.all;
    forall l | l in locks
      ensures (H.ready + 16 <= l + WAITERS || l + WAITERS + 16 <= H.ready)
        && (H.all + 16 <= l + WAITERS || l + WAITERS + 16 <= H.all)
    {
      assert Has(s, WaitQueue(l)) && Head(H, WaitQueue(l)) == l + WAITERS;
    }
    forall k, l | k in locks && l in locks && k != l ensures k + 16 <= l || l + 16 <= k {
      assert Has(s, WaitQueue(k)) && Has(s, WaitQueue(l));
      assert Head(H, WaitQueue(k)) == k + WAITERS && Head(H, WaitQueue(l)) == l + WAITERS;
    }
  }

  lemma BootLists(w: Words, w': Words, H: Heads, s: State, main: int, locks: seq<int>)
    requires Sited(w, H, Boot(main, set l | l in locks)) && w'.Keys == w.Keys
    requires s == Boot(main, set l | l in locks).(all := [])
    requires IsList(w', H.ready, []) && IsList(w', H.all, []) && forall l :: l in locks ==> IsList(w', l + WAITERS, [])
    ensures InWords(w', H, s) && Loose(s, AllQueue, main)
  {
    hide IsList, InWords;
    SameWordsSited(w, w', H, Boot(main, set l | l in locks), s);
    forall x | Has(s, x) ensures IsList(w', Head(H, x), []) {}
    EmptyLists(w', H, s);
  }

  lemma SameWordsSited(w: Words, w': Words, H: Heads, s: State, s': State)
    requires Sited(w, H, s) && w'.Keys == w.Keys && s'.task.Keys == s.task.Keys && s'.lock.Keys == s.lock.Keys
    ensures Sited(w', H, s')
  {
    forall t | t in s'.task ensures Pcb(w', t) { assert Pcb(w, t); }
  }

  lemma RoomStays(w: Words, w': Words, H: Heads, s: State, s': State, t: int)
    requires Room(w, H, s, t) && w'.Keys == w.Keys && s'.lock.Keys == s.lock.Keys
    ensures Room(w', H, s', t)
  {
  }

  /** Steps make no locks. */
  lemma StepLocks(s: State, a: Action)
    requires WellFormed(s) && Step(s, a).Some?
    ensures Step(s, a).value.lock.Keys == s.lock.Keys
  {
  }

  lemma ListedIsThread(s: State)
    requires Inv(s) && s.cur in s.task && s.task[s.cur].pc.Listing?
    ensures s.task[s.cur].pc.t in s.task
  {
    hide Waiting, Sched.Owners, Sched.Words, Places, Awake, Clock, NoRepeats;
  }

  /** list_init of the ready list, the list of all threads and the waiters of every lock. */
  method ListsInit(words: Words, heads: Heads, locks: seq<int>) returns (w: Words)
    requires HeadWords(words, heads.ready) && HeadWords(words, heads.all)
    requires heads.ready + 16 <= heads.all || heads.all + 16 <= heads.ready
    requires forall l :: l in locks ==>
      && HeadWords(words, l + WAITERS)
      && (heads.ready + 16 <= l + WAITERS || l + WAITERS + 16 <= heads.ready)
      && (heads.all + 16 <= l + WAITERS || l + WAITERS + 16 <= heads.all)
    requires forall k, l :: k in locks && l in locks && k != l ==> k + 16 <= l || l + 16 <= k
    ensures w.Keys == words.Keys && IsList(w, heads.ready, []) && IsList(w, heads.all, [])
    ensures forall l :: l in locks ==> IsList(w, l + WAITERS, [])
  {
    hide IsList, Init;
    InitFrame(words, heads.ready, heads.all);
    w := Init(words, heads.ready);
    InitFrame(w, heads.all, heads.ready);
    w := Init(w, heads.all);
    for i := 0 to |locks|
      invariant w.Keys == words.Keys && IsList(w, heads.ready, []) && IsList(w, heads.all, [])
      invariant forall j :: 0 <= j < i ==> IsList(w, locks[j] + WAITERS, [])
    {
      var L := locks[i] + WAITERS;
      assert locks[i] in locks;
      InitFrame(w, L, heads.ready);
      InitFrame(w, L, heads.all);
      forall j | 0 <= j < i && locks[j] != locks[i] ensures IsList(Init(w, L), locks[j] + WAITERS, []) {
        assert locks[j] in locks;
        InitFrame(w, L, locks[j] + WAITERS);
      }
      w := Init(w, L);
    }
  }
}
