/** Where the lists of the scheduler lie: the ready list, the list of all threads and the waiters of
    each lock are intrusive lists in the words of kernel memory, whose elements are the two tags in
    every task_struct. What list.c does to one of them leaves the others as they were. */
module TagLists {
  import opened Agreement
  import opened Views
  import opened Lists
  import opened Sched
  import opened TaskStructs

  const WAITERS := 8 // offset of semaphore.waiters in struct lock

  /** thread_ready_list and thread_all_list. */
  datatype Heads = Heads(ready: int, all: int)

  datatype Queue = ReadyQueue | AllQueue | WaitQueue(l: int)

  predicate Has(s: State, x: Queue) { x.WaitQueue? ==> x.l in s.lock }

  function Threads(s: State, x: Queue): seq<int>
    requires Has(s, x)
  {
    match x
    case ReadyQueue => s.ready
    case AllQueue => s.all
    case WaitQueue(l) => s.lock[l].waiters
  }

  function Head(H: Heads, x: Queue): int {
    match x
    case ReadyQueue => H.ready
    case AllQueue => H.all
    case WaitQueue(l) => l + WAITERS
  }

  function Tag(x: Queue): int { if x.AllQueue? then ALL_TAG else GENERAL_TAG }

  /** The tags at offset tag of the threads in q. A thread is the address of its PCB. */
  function Tags(q: seq<int>, tag: int): (r: seq<int>)
    ensures |r| == |q| && forall i :: 0 <= i < |q| ==> r[i] == q[i] + tag
  {
    seq(|q|, i requires 0 <= i < |q| => q[i] + tag)
  }

  function Elems(s: State, x: Queue): (r: seq<int>)
    requires Has(s, x)
    ensures |r| == |Threads(s, x)|
  {
    Tags(Threads(s, x), Tag(x))
  }

  /** t is the address of a PCB: a page of kernel memory. */
  predicate Pcb(w: Words, t: int) {
    && t % 0x1000 == 0 && t >= 0xc000_0000
    && t + GENERAL_TAG in w && t + GENERAL_TAG + 4 in w && t + ALL_TAG in w && t + ALL_TAG + 4 in w
  }

  /** The two sentinels at L are not in the PCB at t. */
  predicate ClearOf(L: int, t: int) { L + 16 <= t || t + 0x1000 <= L }

  ghost predicate Sited(w: Words, H: Heads, s: State) {
    && (forall t :: t in s.task ==> Pcb(w, t))
    && (forall x :: Has(s, x) ==> Head(H, x) >= 0xc000_0000)
    && (forall x, t :: Has(s, x) && t in s.task ==> ClearOf(Head(H, x), t))
    && (forall x, y :: Has(s, x) && Has(s, y) && x != y ==>
      Head(H, x) + 16 <= Head(H, y) || Head(H, y) + 16 <= Head(H, x))
  }

  /** No tag is in two lists. */
  ghost predicate OneTag(s: State) {
    && (forall x, t :: Has(s, x) && t in Threads(s, x) ==> t in s.task)
    && (forall x, y, t :: Has(s, x) && Has(s, y) && x != y && Tag(x) == Tag(y) && t in Threads(s, x) ==>
      t !in Threads(s, y))
  }

  /** Memory holds the lists of s. */
  ghost predicate InWords(w: Words, H: Heads, s: State) {
    Sited(w, H, s) && OneTag(s) && forall x :: Has(s, x) ==> IsList(w, Head(H, x), Elems(s, x))
  }

  /** The tag of t for queue x is in no list. */
  ghost predicate Loose(s: State, x: Queue, t: int) {
    forall y :: Has(s, y) && Tag(y) == Tag(x) ==> t !in Threads(s, y)
  }

  // Elements of different lists share no words.

  /** A list keeps its words when elements elsewhere change. */
  lemma ApartFrame(w: Words, w': Words, L: int, xs: seq<int>, c: seq<int>)
    requires IsList(w, L, xs) && Within(w, w', c)
    requires forall i, j :: 0 <= i < |c| && 0 <= j < |xs| + 2 ==> Apart(c[i], Chain(L, xs)[j])
    ensures IsList(w', L, xs)
  {
    hide IsList;
    forall a | a in w && WordOf(Chain(L, xs), a) ensures a in w' && w'[a] == w[a] {
      assert !WordOf(c, a);
    }
    ListFrame(w, w', L, xs);
  }

  /** The cells of queue x are its two sentinels and tags of its threads. */
  lemma CellIs(H: Heads, s: State, x: Queue, i: int)
    requires Has(s, x) && 0 <= i < |Threads(s, x)| + 2
    ensures var c := Chain(Head(H, x), Elems(s, x))[i];
      || c == Head(H, x) || c == Head(H, x) + 8
      || (1 <= i <= |Threads(s, x)| && c == Threads(s, x)[i - 1] + Tag(x) && Threads(s, x)[i - 1] in Threads(s, x))
  {
  }

  lemma TagsApart(t: int, a: int, u: int, b: int)
    requires t % 0x1000 == 0 && u % 0x1000 == 0 && (t != u || a != b)
    requires (a == GENERAL_TAG || a == ALL_TAG) && (b == GENERAL_TAG || b == ALL_TAG)
    ensures Apart(t + a, u + b)
  {
  }

  /** The tag of t for queue x shares no word with queue y, if t is not in y by that tag. */
  lemma TagOutside(w: Words, H: Heads, s: State, x: Queue, t: int, y: Queue)
    requires Sited(w, H, s) && OneTag(s) && Has(s, y) && t in s.task && (Tag(y) == Tag(x) ==> t !in Threads(s, y))
    ensures Outside(Head(H, y), Elems(s, y), t + Tag(x))
  {
    hide Elems;
    forall i | 0 <= i < |Threads(s, y)| + 2 ensures Apart(t + Tag(x), Chain(Head(H, y), Elems(s, y))[i]) {
      CellIs(H, s, y, i);
      assert ClearOf(Head(H, y), t);
      if 1 <= i <= |Threads(s, y)| {
        var u := Threads(s, y)[i - 1];
        assert u in s.task by { assert u in Threads(s, y); }
        assert Pcb(w, u) && Pcb(w, t);
        TagsApart(t, Tag(x), u, Tag(y));
      }
    }
  }

  lemma QueuesApart(w: Words, H: Heads, s: State, x: Queue, y: Queue, i: int, j: int)
    requires Sited(w, H, s) && OneTag(s) && Has(s, x) && Has(s, y) && x != y
    requires 0 <= i < |Threads(s, x)| + 2 && 0 <= j < |Threads(s, y)| + 2
    ensures Apart(Chain(Head(H, x), Elems(s, x))[i], Chain(Head(H, y), Elems(s, y))[j])
  {
    hide Elems;
    CellIs(H, s, x, i);
    CellIs(H, s, y, j);
    if 1 <= i <= |Threads(s, x)| && Chain(Head(H, x), Elems(s, x))[i] == Threads(s, x)[i - 1] + Tag(x) {
      var t := Threads(s, x)[i - 1];
      TagOutside(w, H, s, x, t, y);
    } else if 1 <= j <= |Threads(s, y)| && Chain(Head(H, y), Elems(s, y))[j] == Threads(s, y)[j - 1] + Tag(y) {
      var u := Threads(s, y)[j - 1];
      assert u in s.task by { assert u in Threads(s, y); }
      assert ClearOf(Head(H, x), u);
    }
  }

  // What list.c does to one queue.

  /** s' is s but for queue x. */
  ghost predicate OnlyQueue(s: State, s': State, x: Queue) {
    && s'.task.Keys == s.task.Keys && s'.lock.Keys == s.lock.Keys
    && forall y :: Has(s, y) && y != x ==> Threads(s', y) == Threads(s, y)
  }

  /** Stores to elements of queue x, and to the tag of a thread that joins it. */
  lemma OtherQueues(w: Words, w': Words, H: Heads, s: State, x: Queue, c: seq<int>, t: int, y: Queue)
    requires InWords(w, H, s) && Has(s, x) && Has(s, y) && y != x && Within(w, w', c)
    requires c == Chain(Head(H, x), Elems(s, x)) ||
      (c == Chain(Head(H, x), Elems(s, x)) + [t + Tag(x)] && t in s.task && Loose(s, x, t))
    ensures IsList(w', Head(H, y), Elems(s, y))
  {
    hide IsList, Elems, Sited, OneTag;
    forall i, j | 0 <= i < |c| && 0 <= j < |Elems(s, y)| + 2 ensures Apart(c[i], Chain(Head(H, y), Elems(s, y))[j]) {
      if i < |Threads(s, x)| + 2 {
        QueuesApart(w, H, s, x, y, i, j);
      } else {
        TagOutside(w, H, s, x, t, y);
      }
    }
    ApartFrame(w, w', Head(H, y), Elems(s, y), c);
  }

  lemma SitedStays(w: Words, w': Words, H: Heads, s: State, s': State, x: Queue, c: seq<int>)
    requires Sited(w, H, s) && OnlyQueue(s, s', x) && Within(w, w', c)
    ensures Sited(w', H, s')
  {
  }

  lemma OneTagStays(s: State, s': State, x: Queue, more: set<int>)
    requires OneTag(s) && OnlyQueue(s, s', x) && Has(s, x) && more <= s.task.Keys
    requires forall t :: t in Threads(s', x) ==> t in Threads(s, x) || t in more
    requires forall t :: t in more ==> Loose(s, x, t)
    ensures OneTag(s')
  {
  }

  lemma QueueKeeps(w: Words, w': Words, H: Heads, s: State, s': State, x: Queue, c: seq<int>, t: int, more: set<int>)
    requires InWords(w, H, s) && Has(s, x) && OnlyQueue(s, s', x) && Within(w, w', c)
    requires (c == Chain(Head(H, x), Elems(s, x)) && more == {}) ||
      (c == Chain(Head(H, x), Elems(s, x)) + [t + Tag(x)] && more == {t} && t in s.task && Loose(s, x, t))
    requires IsList(w', Head(H, x), Elems(s', x))
    requires forall u :: u in Threads(s', x) ==> u in Threads(s, x) || u in more
    ensures InWords(w', H, s')
  {
    hide IsList, Elems, Sited, OneTag, Loose;
    SitedStays(w, w', H, s, s', x, c);
    OneTagStays(s, s', x, more);
    forall y | Has(s', y) ensures IsList(w', Head(H, y), Elems(s', y)) {
      if y != x {
        OtherQueues(w, w', H, s, x, c, t, y);
        SameElems(s, s', y);
      }
    }
  }

  lemma SameElems(s: State, s': State, x: Queue)
    requires Has(s, x) && Has(s', x) && Threads(s', x) == Threads(s, x)
    ensures Elems(s', x) == Elems(s, x)
  {
  }

  lemma AppendElems(s: State, s': State, x: Queue, t: int)
    requires Has(s, x) && Has(s', x) && Threads(s', x) == Threads(s, x) + [t]
    ensures Elems(s', x) == Elems(s, x) + [t + Tag(x)]
  {
  }

  lemma PushElems(s: State, s': State, x: Queue, t: int)
    requires Has(s, x) && Has(s', x) && Threads(s', x) == [t] + Threads(s, x)
    ensures Elems(s', x) == [t + Tag(x)] + Elems(s, x)
  {
  }

  lemma PopElems(s: State, s': State, x: Queue)
    requires Has(s, x) && Has(s', x) && Threads(s, x) != [] && Threads(s', x) == Threads(s, x)[1..]
    ensures Elems(s', x) == Elems(s, x)[1..]
  {
  }

  /** list_append of the tag of a thread that is in no such list. */
  lemma AppendKeeps(w: Words, w': Words, H: Heads, s: State, s': State, x: Queue, t: int)
    requires InWords(w, H, s) && Has(s, x) && t in s.task && Loose(s, x, t) && OnlyQueue(s, s', x)
    requires Threads(s', x) == Threads(s, x) + [t] && IsList(w', Head(H, x), Elems(s, x) + [t + Tag(x)])
    requires Within(w, w', Chain(Head(H, x), Elems(s, x)) + [t + Tag(x)])
    ensures InWords(w', H, s')
  {
    hide IsList, Elems, InWords, Loose, Within;
    AppendElems(s, s', x, t);
    QueueKeeps(w, w', H, s, s', x, Chain(Head(H, x), Elems(s, x)) + [t + Tag(x)], t, {t});
  }

  /** list_push */
  lemma PushKeeps(w: Words, w': Words, H: Heads, s: State, s': State, x: Queue, t: int)
    requires InWords(w, H, s) && Has(s, x) && t in s.task && Loose(s, x, t) && OnlyQueue(s, s', x)
    requires Threads(s', x) == [t] + Threads(s, x) && IsList(w', Head(H, x), [t + Tag(x)] + Elems(s, x))
    requires Within(w, w', Chain(Head(H, x), Elems(s, x)) + [t + Tag(x)])
    ensures InWords(w', H, s')
  {
    hide IsList, Elems, InWords, Loose, Within;
    PushElems(s, s', x, t);
    QueueKeeps(w, w', H, s, s', x, Chain(Head(H, x), Elems(s, x)) + [t + Tag(x)], t, {t});
  }

  /** list_pop: its thread is in no such list any more. */
  lemma PopKeeps(w: Words, w': Words, H: Heads, s: State, s': State, x: Queue)
    requires InWords(w, H, s) && Has(s, x) && Threads(s, x) != [] && OnlyQueue(s, s', x)
    requires Threads(s', x) == Threads(s, x)[1..] && IsList(w', Head(H, x), Elems(s, x)[1..])
    requires Within(w, w', Chain(Head(H, x), Elems(s, x)))
    ensures InWords(w', H, s') && Loose(s', x, Threads(s, x)[0])
  {
    hide IsList, Elems, InWords, Loose, Within;
    PopElems(s, s', x);
    Popped(w, H, s, s', x);
    QueueKeeps(w, w', H, s, s', x, Chain(Head(H, x), Elems(s, x)), 0, {});
  }

  lemma Popped(w: Words, H: Heads, s: State, s': State, x: Queue)
    requires InWords(w, H, s) && Has(s, x) && Threads(s, x) != [] && OnlyQueue(s, s', x)
    requires Threads(s', x) == Threads(s, x)[1..]
    ensures Loose(s', x, Threads(s, x)[0])
  {
    hide IsList;
    var t := Threads(s, x)[0];
    NoneTwice(w, H, s, x);
    assert t !in Threads(s, x)[1..];
    forall y | Has(s', y) && Tag(y) == Tag(x) ensures t !in Threads(s', y) {}
  }

  /** No thread is twice in a queue. */
  lemma NoneTwice(w: Words, H: Heads, s: State, x: Queue)
    requires InWords(w, H, s) && Has(s, x)
    ensures forall i, j :: 0 <= i < j < |Threads(s, x)| ==> Threads(s, x)[i] != Threads(s, x)[j]
  {
    hide Sited, OneTag;
    var c := Chain(Head(H, x), Elems(s, x));
    forall i, j | 0 <= i < j < |Threads(s, x)| ensures Threads(s, x)[i] != Threads(s, x)[j] {
      assert Apart(c[i + 1], c[j + 1]);
    }
  }

  /** A tag is in a list if and only if its thread is in the queue. */
  lemma TagIn(s: State, x: Queue, t: int)
    requires Has(s, x)
    ensures t + Tag(x) in Elems(s, x) <==> t in Threads(s, x)
    ensures Threads(s, x) == [] <==> Elems(s, x) == []
    ensures Threads(s, x) != [] ==> Elems(s, x)[0] == Threads(s, x)[0] + Tag(x)
  {
    if t in Threads(s, x) {
      var i :| 0 <= i < |Threads(s, x)| && Threads(s, x)[i] == t;
      assert Elems(s, x)[i] == t + Tag(x);
    }
  }

  /** A new element for the list. */
  lemma CanJoin(w: Words, H: Heads, s: State, x: Queue, t: int)
    requires InWords(w, H, s) && Has(s, x) && t in s.task && Loose(s, x, t)
    ensures IsList(w, Head(H, x), Elems(s, x)) && Outside(Head(H, x), Elems(s, x), t + Tag(x))
    ensures t + Tag(x) in w && t + Tag(x) + 4 in w
  {
    TagOutside(w, H, s, x, t, x);
    assert Pcb(w, t);
    hide IsList, Elems, OneTag, Sited;
  }

  /** The lists depend on nothing else of the state. */
  lemma SameQueues(w: Words, H: Heads, s: State, s': State)
    requires InWords(w, H, s) && s'.ready == s.ready && s'.all == s.all
    requires s'.task.Keys == s.task.Keys && s'.lock.Keys == s.lock.Keys
    requires forall l :: l in s.lock ==> s'.lock[l].waiters == s.lock[l].waiters
    ensures InWords(w, H, s')
  {
    hide IsList;
    forall x | Has(s', x) ensures Threads(s', x) == Threads(s, x) && IsList(w, Head(H, x), Elems(s', x)) {
      SameElems(s, s', x);
    }
  }

  // The stores of list.c.

  lemma SameKeys(w: Words, w': Words, c: seq<int>)
    requires Within(w, w', c)
    ensures w'.Keys == w.Keys
  {
    assert forall v :: v in w' <==> v in w;
  }

  lemma AppendStores(w: Words, L: int, xs: seq<int>, e: int)
    requires IsList(w, L, xs) && e in w && e + 4 in w && Outside(L, xs, e)
    ensures IsList(InsertBefore(w, L + 8, e), L, xs + [e])
    ensures Within(w, InsertBefore(w, L + 8, e), Chain(L, xs) + [e]) && InsertBefore(w, L + 8, e).Keys == w.Keys
  {
    hide IsList, InsertBefore;
    Along(w, L, xs, |xs|);
    InsertKeeps(w, L, xs, |xs|, e);
    assert xs[..|xs|] + [e] + xs[|xs|..] == xs + [e];
    SameKeys(w, InsertBefore(w, L + 8, e), Chain(L, xs) + [e]);
  }

  lemma PushStores(w: Words, L: int, xs: seq<int>, e: int)
    requires IsList(w, L, xs) && e in w && e + 4 in w && Outside(L, xs, e)
    ensures L + 4 in w && IsList(InsertBefore(w, w[L + 4], e), L, [e] + xs)
    ensures Within(w, InsertBefore(w, w[L + 4], e), Chain(L, xs) + [e]) && InsertBefore(w, w[L + 4], e).Keys == w.Keys
  {
    hide IsList, InsertBefore;
    Along(w, L, xs, 0);
    InsertKeeps(w, L, xs, 0, e);
    assert xs[..0] + [e] + xs[0..] == [e] + xs;
    SameKeys(w, InsertBefore(w, w[L + 4], e), Chain(L, xs) + [e]);
  }

  lemma PopStores(w: Words, L: int, xs: seq<int>)
    requires IsList(w, L, xs) && xs != []
    ensures L + 4 in w && w[L + 4] == xs[0] && IsList(Unlink(w, xs[0]), L, xs[1..])
    ensures Within(w, Unlink(w, xs[0]), Chain(L, xs)) && Unlink(w, xs[0]).Keys == w.Keys
  {
    hide IsList, Unlink;
    Along(w, L, xs, 0);
    UnlinkKeeps(w, L, xs, 0);
    assert xs[..0] + xs[1..] == xs[1..];
    SameKeys(w, Unlink(w, xs[0]), Chain(L, xs));
  }

  /** s with queue x holding q. */
  function WithQueue(s: State, x: Queue, q: seq<int>): State
    requires Has(s, x)
  {
    match x
    case ReadyQueue => s.(ready := q)
    case AllQueue => s.(all := q)
    case WaitQueue(l) => s.(lock := s.lock[l := s.lock[l].(waiters := q)])
  }

  lemma WithQueueOnly(s: State, x: Queue, q: seq<int>)
    requires Has(s, x)
    ensures OnlyQueue(s, WithQueue(s, x, q), x)
    ensures Has(WithQueue(s, x, q), x) && Threads(WithQueue(s, x, q), x) == q
  {
  }

  // The first lists.

  predicate HeadWords(w: Words, L: int) { L in w && L + 4 in w && L + 8 in w && L + 12 in w }

  /** list_init, store by store. */
  function Init(w: Words, L: int): Words { w[L := 0][L + 4 := L + 8][L + 8 := L][L + 12 := 0] }

  lemma InitFrame(w: Words, L: int, M: int)
    requires HeadWords(w, L) && (L + 16 <= M || M + 16 <= L)
    ensures IsList(Init(w, L), L, []) && (IsList(w, M, []) ==> IsList(Init(w, L), M, []))
    ensures Init(w, L).Keys == w.Keys
  {
    EmptyList(w, L);
    if IsList(w, M, []) {
      assert Chain(M, []) == [M, M + 8];
      ListFrame(w, Init(w, L), M, []);
    }
  }

  /** Nobody is queued. */
  predicate NoneQueued(s: State) {
    s.ready == [] && s.all == [] && forall l :: l in s.lock ==> s.lock[l].waiters == []
  }

  lemma EmptyLists(w: Words, H: Heads, s: State)
    requires Sited(w, H, s) && NoneQueued(s) && forall x :: Has(s, x) ==> IsList(w, Head(H, x), [])
    ensures InWords(w, H, s)
  {
    hide IsList, Sited;
    forall x | Has(s, x) ensures IsList(w, Head(H, x), Elems(s, x)) { assert Elems(s, x) == []; }
  }

  lemma LooseHere(s: State, x: Queue, t: int)
    requires Has(s, x) && Loose(s, x, t)
    ensures t !in Threads(s, x)
  {
  }

  lemma SameTag(s: State, x: Queue, y: Queue, t: int)
    requires Loose(s, x, t) && Tag(y) == Tag(x)
    ensures Loose(s, y, t)
  {
  }

  lemma ListOf(w: Words, H: Heads, s: State, x: Queue)
    requires InWords(w, H, s) && Has(s, x)
    ensures IsList(w, Head(H, x), Elems(s, x))
  {
  }

  // New threads.

  /** There is a PCB at t, and no sentinel in it. */
  ghost predicate Room(w: Words, H: Heads, s: State, t: int) {
    Pcb(w, t) && forall x :: Has(s, x) ==> ClearOf(Head(H, x), t)
  }

  lemma NewThread(w: Words, H: Heads, s: State, s': State, t: int)
    requires InWords(w, H, s) && Room(w, H, s, t) && t !in s.task && s'.task.Keys == s.task.Keys + {t}
    requires s'.ready == s.ready && s'.all == s.all && s'.lock == s.lock
    ensures InWords(w, H, s') && Loose(s', ReadyQueue, t) && Loose(s', AllQueue, t)
  {
    hide IsList;
    forall x | Has(s', x) ensures Threads(s', x) == Threads(s, x) && IsList(w, Head(H, x), Elems(s', x)) {
      SameElems(s, s', x);
    }
  }

  // What the invariant of the scheduler says.

  /** The running thread's general_tag is in no list. */
  lemma CurIsLoose(s: State)
    requires Inv(s)
    ensures Loose(s, ReadyQueue, s.cur)
  {
    hide Listed, Sched.Owners, Sched.Words, Places, Awake, Clock;
  }

  /** By the status of its thread a general_tag is an element of the ready list, of the waiters of the
      lock that its thread waits for, or of no list. */
  lemma TagByStatus(w: Words, H: Heads, s: State, x: Queue, t: int)
    requires Inv(s) && InWords(w, H, s) && t in s.task && Has(s, x)
    ensures IsList(w, Head(H, x), Elems(s, x))
    ensures t + GENERAL_TAG in Elems(s, x) <==>
      match x
      case ReadyQueue => s.task[t].status == Ready
      case AllQueue => false
      case WaitQueue(l) => s.task[t].status == Blocked && s.task[t].pc == Down(l)
    ensures t + ALL_TAG in Elems(s, AllQueue) <==> t in s.all
  {
    hide Listed, Sched.Owners, Sched.Words, Places, Awake, Clock, NoRepeats, IsList, Elems;
    TagIn(s, x, t);
    TagIn(s, AllQueue, t);
    if x == AllQueue { NoGeneralTag(w, H, s, t); }
  }

  /** The list of all threads links other tags. */
  lemma NoGeneralTag(w: Words, H: Heads, s: State, t: int)
    requires Sited(w, H, s) && OneTag(s) && t in s.task
    ensures t + GENERAL_TAG !in Elems(s, AllQueue)
  {
    if t + GENERAL_TAG in Elems(s, AllQueue) {
      var i :| 0 <= i < |s.all| && Elems(s, AllQueue)[i] == t + GENERAL_TAG;
      var u := s.all[i];
      assert u in s.task by { assert u in Threads(s, AllQueue); }
      assert Pcb(w, u) && Pcb(w, t);
      TagsApart(t, GENERAL_TAG, u, ALL_TAG);
    }
  }

  /** Under whatever directory, the lists are the same. */
  lemma SeenEverywhere(vm: Vm, a: int, b: int, H: Heads, s: State)
    requires InWords(View(vm, a), H, s)
    ensures InWords(View(vm, b), H, s)
  {
    hide View, IsList, Elems;
    var w, w' := View(vm, a), View(vm, b);
    forall t | t in s.task ensures Pcb(w', t) {
      assert Pcb(w, t);
      KernelWords(vm, a, b, t + GENERAL_TAG);
      KernelWords(vm, a, b, t + GENERAL_TAG + 4);
      KernelWords(vm, a, b, t + ALL_TAG);
      KernelWords(vm, a, b, t + ALL_TAG + 4);
    }
    forall x | Has(s, x) ensures IsList(w', Head(H, x), Elems(s, x)) {
      forall v | v in w && WordOf(Chain(Head(H, x), Elems(s, x)), v) ensures v in w' && w'[v] == w[v] {
        var i :| 0 <= i < |Threads(s, x)| + 2 &&
          (v == Chain(Head(H, x), Elems(s, x))[i] || v == Chain(Head(H, x), Elems(s, x))[i] + 4);
        CellIs(H, s, x, i);
        if 1 <= i <= |Threads(s, x)| { assert Pcb(w, Threads(s, x)[i - 1]); }
        KernelWords(vm, a, b, v);
      }
      ListFrame(w, w', Head(H, x), Elems(s, x));
    }
  }
}
