/** What each call of the running thread does to the page layer and to the thread's heap, from one
    snapshot of the system to the next. */
module Moves {
  import opened Paging
  import opened Agreement
  import opened Bitmaps
  import opened Views
  import opened Growth
  import opened Supplies
  import opened PageManagement
  import opened Heaps
  import opened HeapSteps
  import opened AllocationSteps

  /** The bitmaps, the page tables and the uses of frames are as they were. */
  predicate SamePages(a: Vm, b: Vm) { b == a.(mem := b.mem) }

  /** Pages i..i+n-1 of pf have been mapped, with a frame for each and tables where they were missing. */
  ghost predicate Took(a: Vm, b: Vm, pf: Half, cur: int, i: int, n: nat) {
    && (pf == User ==> cur in a.uv) && SameShape(a, b) && Bits(a, b, pf, cur, i, i + n)
    && Uses(a, b, pf, cur, i, i + n, pf == User) && Spent(a, b, pf, cur, i, n)
  }

  /** They are the window that vaddr_get finds. */
  ghost predicate TookFirst(a: Vm, b: Vm, pf: Half, cur: int, i: int, n: nat) {
    Took(a, b, pf, cur, i, n) && FirstFit(VBits(a, pf, cur), n, i)
  }

  /** Pages i..i+n-1 of pf have been unmapped and their frames are free. */
  ghost predicate Gave(a: Vm, b: Vm, pf: Half, cur: int, i: int, n: nat) {
    && (pf == User ==> cur in b.uv) && SameShape(b, a) && Bits(b, a, pf, cur, i, i + n)
    && Uses(b, a, pf, cur, i, i + n, false)
  }

  lemma TookGrew(a: Vm, b: Vm, pf: Half, cur: int, i: int, n: nat)
    requires Grew(a, b, pf, cur, i, i + n, pf == User) && Spent(a, b, pf, cur, i, n)
    ensures Took(a, b, pf, cur, i, n)
  {
    hide Bits, Uses, Spent, Extends, View, Isolated, Elsewhere;
  }

  lemma GaveGrew(a: Vm, b: Vm, pf: Half, cur: int, i: int, n: nat)
    requires Grew(b, a, pf, cur, i, i + n, false)
    ensures Gave(a, b, pf, cur, i, n)
  {
    hide Bits, Uses, Extends, View, Isolated, Elsewhere;
  }

  /** A directory has a table exactly where a frame is in use as that table. */
  lemma TableOwned(vm: Vm, s: int, d: int)
    requires Agree(vm) && s in vm.uv && 0 <= d < 768
    ensures Present(Rd(vm.mem, s, d)) <==> exists f :: Owns(vm, f, UTable(s, d))
  {
    hide Rd, Present, UserWrite, FrameOf, KernelHalf, KernelPages, UserPages, PoolBits;
  }

  /** Stores to pages in use afterwards make no difference. */
  lemma TookStays(a: Vm, b: Vm, c: Vm, pf: Half, cur: int, i: int, n: nat)
    requires Took(a, b, pf, cur, i, n) && SamePages(b, c) && Agree(b) && Agree(c)
    ensures Took(a, c, pf, cur, i, n)
  {
    hide Agree, Rd, Present, UserWrite, Supply, Missing;
    if pf == User {
      forall d | 0 <= d < 768 ensures Present(Rd(c.mem, cur, d)) <==> Present(Rd(b.mem, cur, d)) {
        TableOwned(b, cur, d);
        TableOwned(c, cur, d);
        assert forall f :: Owns(c, f, UTable(cur, d)) <==> Owns(b, f, UTable(cur, d));
      }
    }
  }

  lemma GaveStays(a: Vm, b: Vm, c: Vm, pf: Half, cur: int, i: int, n: nat)
    requires SamePages(a, b) && Gave(b, c, pf, cur, i, n)
    ensures Gave(a, c, pf, cur, i, n)
  {
  }

  /** sys_malloc of size bytes: NULL beyond the pool; the first block of the free list of its class,
      of a new arena if that is empty; or pages of its own. */
  ghost predicate MallocMoves(a: Vm, h: Heap, b: Vm, h': Heap, pf: Half, cur: int, pool: int, size: nat, p: int)
    requires |h.free| == CLASSES
  {
    if size > pool then p == 0 && b == a && h' == h
    else if size > 1024 then
      && TookFirst(a, b, pf, cur, PageNo(pf, p - HEADER), PagesFor(size))
      && h' == LargeGot(h, p - HEADER, PagesFor(size), size)
    else if h.free[ClassOf(size)] != [] then SamePages(a, b) && First(h, h', ClassOf(size), size, p)
    else
      && TookFirst(a, b, pf, cur, PageNo(pf, p - HEADER), 1)
      && First(Refilled(h, p - HEADER, ClassOf(size)), h', ClassOf(size), size, p)
  }

  /** The first free block of class k has become live. */
  predicate First(h: Heap, h': Heap, k: int, size: int, p: int)
    requires |h.free| == CLASSES && 0 <= k < CLASSES
  {
    h.free[k] != [] && p == h.free[k][0] && h' == Popped(h, k, p, h.free[k][1..], size)
  }

  lemma SmallMoves(a: Vm, h: Heap, b: Vm, h1: Heap, c: Vm, h': Heap, pf: Half, cur: int, pool: int, size: nat,
                   p: int, r: int)
    requires |h.free| == CLASSES && size <= pool && size <= 1024 && h.free[ClassOf(size)] == []
    requires TookFirst(a, b, pf, cur, PageNo(pf, r), 1) && SamePages(b, c) && Agree(b) && Agree(c)
    requires h1 == Refilled(h, r, ClassOf(size)) && First(h1, h', ClassOf(size), size, p)
    ensures MallocMoves(a, h, c, h', pf, cur, pool, size, p)
  {
    hide Took, FirstFit, PageNo, Agree, Popped;
    TookStays(a, b, c, pf, cur, PageNo(pf, r), 1);
    FirstOfArena(r, ClassOf(size));
  }

  lemma FirstOfArena(r: int, k: int)
    requires 0 <= k < CLASSES && BlockSeq(r, k, Blocks(k)) != []
    ensures BlockSeq(r, k, Blocks(k))[0] == r + HEADER
  {
  }

  /** sys_free of live pointer p: the pages of a large allocation go back; a block goes on the free
      list of its class, and its arena's page goes back if all its blocks are free then. */
  ghost predicate FreeMoves(a: Vm, h: Heap, b: Vm, h': Heap, pf: Half, cur: int, p: int)
    requires |h.free| == CLASSES
  {
    if IsLarge(h, p) then
      && h.large[p - HEADER] >= 0 && Gave(a, b, pf, cur, PageNo(pf, p - HEADER), h.large[p - HEADER])
      && h' == LargeFreed(h, p - HEADER)
    else
      var r := ArenaOf(p);
      && r in h.kinds && 0 <= h.kinds[r] < CLASSES
      && var h1 := Pushed(h, h.kinds[r], p);
        if |FreeSet(h1, r)| == Blocks(h.kinds[r]) then Gave(a, b, pf, cur, PageNo(pf, r), 1) && Emptied(h1, h', r)
        else SamePages(a, b) && h' == h1
  }

  /** The blocks of arena r have left their free list, and r is no arena any more. */
  ghost predicate Emptied(h: Heap, h': Heap, r: int)
    requires |h.free| == CLASSES && r in h.kinds && 0 <= h.kinds[r] < CLASSES
  {
    var k := h.kinds[r];
    |h'.free| == CLASSES && Without(h.free[k], h'.free[k], r) && h' == Evicted(h, r, h'.free[k])
  }
}
