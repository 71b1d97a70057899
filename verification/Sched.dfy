/** Threads, semaphores and re-entrant locks of thread/thread.c and thread/sync.c, with the tick
    handler of device/timer.c, as a transition system for any number of threads and locks. A
    timer interrupt may come between any two statements that run with interrupts on; code that
    runs with interrupts off is one step. */
module Sched {
  import opened Paging

  const WORD := 0x1_0000_0000 // elapsed_ticks, ticks and holder_repeat_nr are uint32_t
  const MAGIC := 0x1998_0906  // stack_magic

  datatype Status = Running | Ready | Blocked

  /** Where a thread stands: in its own code, in lock_acquire or lock_release of lock l, or
      between the two appends of thread_start. Only in Down are interrupts off. */
  datatype Pc =
    | Client
    // lock_acquire: before the test of the holder; before and inside sema_down; before the
    // holder is set; before the count is checked, and set; before a count is raised.
    | Acquiring(l: int) | Entering(l: int) | Down(l: int) | Taken(l: int) | Held(l: int) | Marking(l: int)
    | Again(l: int)
    // lock_release: before the holder is checked; before the count is tested; before a nested
    // count is lowered; before the last count is checked, the holder and the count are cleared,
    // and sema_up is called.
    | Releasing(l: int) | Testing(l: int) | Lowering(l: int)
    | Checking(l: int) | Dropping(l: int) | Zeroing(l: int) | Upping(l: int)
    // thread_start: thread t is in the ready list and not yet in the list of all threads.
    | Listing(t: int)

  /** depth counts, for each lock, the acquisitions the thread has yet to release. */
  datatype Task = Task(status: Status, pc: Pc, prio: int, ticks: int, elapsed: int, magic: int, depth: map<int, int>)

  datatype Lock = Lock(value: int, waiters: seq<int>, holder: Option<int>, repeat: int)

  /** ready is thread_ready_list, all is thread_all_list and clock the global ticks. Two history
      variables: owner, the thread between the end of its sema_down and its sema_up, and made, the
      threads in the order in which they were started. */
  datatype State = State(cur: int, ready: seq<int>, all: seq<int>, task: map<int, Task>, lock: map<int, Lock>,
                         owner: map<int, int>, made: seq<int>, clock: int)

  /** Start is thread_start, and Spawn process_execute. */
  datatype Action =
    | Timer | Acquire(l: int) | Release(l: int) | Advance | Start(t: int, prio: int) | Spawn(t: int, prio: int)

  /** The thread is in lock_acquire or lock_release. */
  predicate InSync(pc: Pc) { pc != Client && !pc.Listing? }

  /** The thread is about to test the value of a semaphore. */
  predicate AtSema(pc: Pc) { pc.Entering? || pc.Down? }

  function Depth(x: Task, l: int): int { if l in x.depth then x.depth[l] else 0 }

  predicate Holds(x: Task, l: int) { Depth(x, l) >= 1 }

  /** All locks that x holds have lower rank than l. */
  ghost predicate Above(x: Task, l: int) {
    forall k :: k in x.depth && Holds(x, k) ==> k < l
  }

  // Steps. None is a failed ASSERT.

  function WithCur(s: State, x: Task): State { s.(task := s.task[s.cur := x]) }

  function WithLock(s: State, l: int, k: Lock): State { s.(lock := s.lock[l := k]) }

  function SetPc(s: State, pc: Pc): State
    requires s.cur in s.task
  {
    WithCur(s, s.task[s.cur].(pc := pc))
  }

  /** Back to the client, with the depth of l settled. */
  function Return(s: State, l: int, depth: int): State
    requires s.cur in s.task
  {
    var x := s.task[s.cur];
    WithCur(s, x.(pc := Client, depth := x.depth[l := depth]))
  }

  /** schedule */
  function Schedule(s: State): Option<State>
    requires s.cur in s.task && forall t :: t in s.ready ==> t in s.task
  {
    var x := s.task[s.cur];
    if x.status == Running && s.cur in s.ready then None
    else
      var s1 := if x.status == Running
        then WithCur(s, x.(ticks := x.prio, status := Ready)).(ready := s.ready + [s.cur])
        else s;
      if s1.ready == [] then None
      else
        var next := s1.ready[0];
        Some(s1.(cur := next, ready := s1.ready[1..], task := s1.task[next := s1.task[next].(status := Running)]))
  }

  /** thread_block(TASK_BLOCKED) */
  function Block(s: State): Option<State>
    requires s.cur in s.task && forall t :: t in s.ready ==> t in s.task
  {
    Schedule(WithCur(s, s.task[s.cur].(status := Blocked)))
  }

  /** thread_unblock */
  function Unblock(s: State, t: int): Option<State>
    requires t in s.task
  {
    if s.task[t].status != Blocked || t in s.ready then None
    else Some(s.(ready := [t] + s.ready, task := s.task[t := s.task[t].(status := Ready)]))
  }

  /** One pass of the loop of sema_down, and what follows the loop. */
  function SemaDown(s: State, l: int): Option<State>
    requires s.cur in s.task && l in s.lock && forall t :: t in s.ready ==> t in s.task
  {
    var k := s.lock[l];
    if k.value == 0 then
      if s.cur in k.waiters then None
      else Block(SetPc(WithLock(s, l, k.(waiters := k.waiters + [s.cur])), Down(l)))
    else if k.value - 1 != 0 then None
    else Some(SetPc(WithLock(s, l, k.(value := k.value - 1)), Taken(l)).(owner := s.owner[l := s.cur]))
  }

  /** sema_up */
  function SemaUp(s: State, l: int): (r: Option<State>)
    requires l in s.lock && forall t :: t in s.lock[l].waiters ==> t in s.task
    ensures r.Some? ==> r.value.cur == s.cur && r.value.task.Keys == s.task.Keys
  {
    var k := s.lock[l];
    if k.value != 0 then None
    else
      var woken := if k.waiters == [] then Some(s)
        else Unblock(WithLock(s, l, k.(waiters := k.waiters[1..])), k.waiters[0]);
      if woken == None || k.value + 1 != 1 then None
      else
        var s1 := woken.value;
        Some(WithLock(s1, l, s1.lock[l].(value := k.value + 1)).(owner := s1.owner - {l}))
  }

  /** intr_timer_handler */
  function Tick(s: State): Option<State>
    requires s.cur in s.task && forall t :: t in s.ready ==> t in s.task
  {
    if s.task[s.cur].magic != MAGIC then None
    else
      var x := s.task[s.cur].(elapsed := (s.task[s.cur].elapsed + 1) % WORD);
      var s1 := WithCur(s, x).(clock := (s.clock + 1) % WORD);
      if x.ticks == 0 then Schedule(s1)
      else Some(WithCur(s1, x.(ticks := x.ticks - 1)))
  }

  /** The running thread executes its next statement of lock_acquire or lock_release, or the
      second append of thread_start. */
  function Execute(s: State): Option<State>
    requires WellFormed(s)
  {
    var x := s.task[s.cur];
    if x.pc == Client then None
    else if x.pc.Listing? then
      if x.pc.t in s.all then None else Some(SetPc(s, Client).(all := s.all + [x.pc.t]))
    else
      var l := x.pc.l;
      var k := s.lock[l];
      match x.pc
      case Acquiring(_) => Some(SetPc(s, if k.holder != Some(s.cur) then Entering(l) else Again(l)))
      case Entering(_) => SemaDown(s, l)
      case Down(_) => SemaDown(s, l)
      case Taken(_) => Some(SetPc(WithLock(s, l, k.(holder := Some(s.cur))), Held(l)))
      case Held(_) => if k.repeat != 0 then None else Some(SetPc(s, Marking(l)))
      case Marking(_) => Some(Return(WithLock(s, l, k.(repeat := 1)), l, 1))
      case Again(_) => Some(Return(WithLock(s, l, k.(repeat := (k.repeat + 1) % WORD)), l, Depth(x, l) + 1))
      case Releasing(_) => if k.holder != Some(s.cur) then None else Some(SetPc(s, Testing(l)))
      case Testing(_) => Some(SetPc(s, if k.repeat > 1 then Lowering(l) else Checking(l)))
      case Lowering(_) => Some(Return(WithLock(s, l, k.(repeat := k.repeat - 1)), l, Depth(x, l) - 1))
      case Checking(_) => if k.repeat != 1 then None else Some(SetPc(s, Dropping(l)))
      case Dropping(_) => Some(SetPc(WithLock(s, l, k.(holder := None)), Zeroing(l)))
      case Zeroing(_) => Some(SetPc(WithLock(s, l, k.(repeat := 0)), Upping(l)))
      case Upping(_) =>
        match SemaUp(s, l)
        case None => None
        case Some(s1) => Some(Return(s1, l, 0))
  }

  /** init_thread and the first append of thread_start. */
  function StartThread(s: State, t: int, prio: int): Option<State>
    requires s.cur in s.task
  {
    if t in s.ready then None
    else
      var p := prio % 256; // priority and ticks are uint8_t
      Some(SetPc(s, Listing(t)).(ready := s.ready + [t], made := s.made + [t],
        task := SetPc(s, Listing(t)).task[t := Task(Ready, Client, p, p, 0, MAGIC, map[])]))
  }

  /** init_thread and the two appends of process_execute, which it does with interrupts off. */
  function StartProcess(s: State, t: int, prio: int): Option<State> {
    if t in s.ready || t in s.all then None
    else
      var p := prio % 256;
      Some(s.(ready := s.ready + [t], all := s.all + [t], made := s.made + [t],
        task := s.task[t := Task(Ready, Client, p, p, 0, MAGIC, map[])]))
  }

  predicate WellFormed(s: State) {
    && s.cur in s.task && (forall t :: t in s.ready ==> t in s.task)
    && (InSync(s.task[s.cur].pc) ==> s.task[s.cur].pc.l in s.lock)
    && forall l, t :: l in s.lock && t in s.lock[l].waiters ==> t in s.task
  }

  /** What clients may do: acquire a lock, fewer than 2^32 times over; release what they hold. The
      timer is off inside sema_down only. */
  predicate Enabled(s: State, a: Action)
    requires WellFormed(s)
  {
    var x := s.task[s.cur];
    match a
    case Timer => !x.pc.Down?
    case Acquire(l) => x.pc == Client && l in s.lock && Depth(x, l) < WORD - 1
    case Release(l) => x.pc == Client && l in s.lock && Holds(x, l)
    case Advance => x.pc != Client
    case Start(t, _) => x.pc == Client && t !in s.task
    case Spawn(t, _) => x.pc == Client && t !in s.task
  }

  /** Locks are acquired in rank order, or again while they are held. */
  ghost predicate Ordered(s: State, a: Action)
    requires WellFormed(s)
  {
    a.Acquire? ==> Holds(s.task[s.cur], a.l) || Above(s.task[s.cur], a.l)
  }

  /** The running thread is about to wait and nobody is ready: schedule finds its list empty. */
  predicate Stuck(s: State, a: Action)
    requires WellFormed(s)
  {
    var pc := s.task[s.cur].pc;
    a == Advance && AtSema(pc) && s.lock[pc.l].value == 0 && s.ready == []
  }

  function Step(s: State, a: Action): Option<State>
    requires WellFormed(s)
  {
    match a
    case Timer => Tick(s)
    case Acquire(l) => Some(SetPc(s, Acquiring(l)))
    case Release(l) => Some(SetPc(s, Releasing(l)))
    case Advance => Execute(s)
    case Start(t, prio) => StartThread(s, t, prio)
    case Spawn(t, prio) => StartProcess(s, t, prio)
  }

  // The invariant.

  predicate NoRepeats(q: seq<int>) {
    forall i, j :: 0 <= i < j < |q| ==> q[i] != q[j]
  }

  /** Exactly one thread runs, and the ready list holds exactly the READY threads, each once. */
  ghost predicate Partition(s: State) {
    && s.cur in s.task
    && (forall t :: t in s.task ==> (s.task[t].status == Running <==> t == s.cur))
    && NoRepeats(s.ready) && (forall t :: t in s.ready <==> t in s.task && s.task[t].status == Ready)
    && (forall t :: t in s.task ==> Counters(s.task[t]))
  }

  predicate Counters(x: Task) { 0 <= x.ticks <= x.prio < 256 && 0 <= x.elapsed < WORD && x.magic == MAGIC }

  /** The list of all threads holds every thread once, but for those whose starter is about to
      append them. */
  ghost predicate Listed(s: State) {
    && NoRepeats(s.all) && (forall t :: t in s.all ==> t in s.task)
    && (forall u :: u in s.task && s.task[u].pc.Listing? ==> s.task[u].pc.t in s.task && s.task[u].pc.t !in s.all)
    && (forall u, v :: u in s.task && v in s.task && s.task[u].pc.Listing? && s.task[v].pc == s.task[u].pc ==> u == v)
    && (forall t :: t in s.task && t !in s.all ==> exists u :: Lists(s, u, t))
  }

  predicate Lists(s: State, u: int, t: int) { u in s.task && s.task[u].pc == Listing(t) }

  /** A thread is blocked if and only if it is in the waiter list of the lock it waits for. */
  ghost predicate Waiting(s: State) {
    && (forall t :: t in s.task && InSync(s.task[t].pc) ==> s.task[t].pc.l in s.lock)
    && (forall t :: t in s.task && s.task[t].status == Blocked ==> s.task[t].pc.Down?)
    && (forall l :: l in s.lock ==> NoRepeats(s.lock[l].waiters))
    && (forall l, t :: l in s.lock ==>
      (t in s.lock[l].waiters <==> t in s.task && s.task[t].status == Blocked && s.task[t].pc == Down(l)))
  }

  /** The thread is between the end of its sema_down on l and its sema_up. */
  predicate InSection(x: Task, l: int) {
    x.pc == Taken(l) || x.pc == Held(l) || x.pc == Marking(l) || Holds(x, l)
  }

  ghost predicate Owners(s: State) {
    && (forall l :: l in s.lock ==> (s.lock[l].value == 0 || s.lock[l].value == 1))
    && (forall l :: l in s.lock ==> (s.lock[l].value == 0 <==> l in s.owner))
    && (forall l :: l in s.owner ==> l in s.lock && s.owner[l] in s.task)
    && (forall l, t :: t in s.task ==> (InSection(s.task[t], l) <==> l in s.owner && s.owner[l] == t))
  }

  /** holder and holder_repeat_nr of a lock, by where its owner t is. */
  predicate LockWords(k: Lock, l: int, t: int, pc: Pc) {
    match pc
    case Taken(m) => m == l ==> k.holder == None && k.repeat == 0
    case Held(m) => m == l ==> k.holder == Some(t) && k.repeat == 0
    case Marking(m) => m == l ==> k.holder == Some(t) && k.repeat == 0
    case Zeroing(m) => m == l ==> k.holder == None && k.repeat == 1
    case Upping(m) => m == l ==> k.holder == None && k.repeat == 0
    case _ => true
  }

  predicate Between(pc: Pc, l: int) {
    pc == Taken(l) || pc == Held(l) || pc == Marking(l) || pc == Zeroing(l) || pc == Upping(l)
  }

  ghost predicate Words(s: State) {
    && (forall l :: l in s.lock && l !in s.owner ==> s.lock[l].holder == None && s.lock[l].repeat == 0)
    && (forall l :: l in s.lock && l in s.owner && s.owner[l] in s.task ==>
      var t := s.owner[l];
      && LockWords(s.lock[l], l, t, s.task[t].pc)
      && (!Between(s.task[t].pc, l) ==> s.lock[l].holder == Some(t) && s.lock[l].repeat == Depth(s.task[t], l)))
  }

  /** What a thread's place says of the locks it holds. */
  ghost predicate PlaceOk(x: Task) {
    && (forall l :: 0 <= Depth(x, l) < WORD)
    && match x.pc
      case Client => true
      case Listing(_) => true
      case Acquiring(l) => Depth(x, l) < WORD - 1
      case Again(l) => Holds(x, l) && Depth(x, l) < WORD - 1
      case Releasing(l) => Holds(x, l)
      case Testing(l) => Holds(x, l)
      case Lowering(l) => Depth(x, l) >= 2
      case Checking(l) => Depth(x, l) == 1
      case Dropping(l) => Depth(x, l) == 1
      case Zeroing(l) => Depth(x, l) == 1
      case Upping(l) => Depth(x, l) == 1
      case _ => !Holds(x, x.pc.l)
  }

  ghost predicate Places(s: State) {
    forall t :: t in s.task ==> PlaceOk(s.task[t])
  }

  /** t has been woken from l and has still to test its value again. */
  predicate Woken(s: State, l: int, t: int) {
    t in s.task && s.task[t].status != Blocked && s.task[t].pc == Down(l)
  }

  /** No lost wakeup: while a free lock has waiters, some thread woken from it is on its way. */
  ghost predicate Awake(s: State) {
    forall l :: l in s.lock && s.lock[l].value == 1 && s.lock[l].waiters != [] ==> exists t :: Woken(s, l, t)
  }

  /** Sum of elapsed_ticks over a list of threads. */
  function Elapsed(task: map<int, Task>, q: seq<int>): int
    requires forall i :: 0 <= i < |q| ==> q[i] in task
  {
    if q == [] then 0 else task[q[0]].elapsed + Elapsed(task, q[1..])
  }

  ghost predicate Clock(s: State) {
    && 0 <= s.clock < WORD && NoRepeats(s.made) && (forall t :: t in s.task ==> t in s.made)
    && (forall i :: 0 <= i < |s.made| ==> s.made[i] in s.task)
    && Elapsed(s.task, s.made) % WORD == s.clock
  }

  ghost predicate Inv(s: State) {
    Partition(s) && Listed(s) && Waiting(s) && Owners(s) && Words(s) && Places(s) && Awake(s) && Clock(s)
  }

  // Lock order.

  /** What rank order says of a thread in lock_acquire. */
  ghost predicate RankOk(x: Task) {
    match x.pc
    case Acquiring(l) => Holds(x, l) || Above(x, l)
    case Entering(l) => Above(x, l)
    case Down(l) => Above(x, l)
    case Taken(l) => Above(x, l)
    case Held(l) => Above(x, l)
    case Marking(l) => Above(x, l)
    case _ => true
  }

  ghost predicate Ranked(s: State) {
    forall t :: t in s.task ==> RankOk(s.task[t])
  }
}
