/** sys_malloc and sys_free of kernel/memory.c over the page layer. */
module Allocation {
  import opened Agreement
  import opened Bitmaps
  import opened Views
  import opened Growth
  import opened Supplies
  import opened PageManagement
  import opened Lists
  import opened Heaps
  import opened HeapSteps
  import opened Accounts
  import opened AllocationSteps
  import opened Moves

  /** memset(lo, 0, bytes) */
  method Memset(m: PageManager, lo: int, bytes: int)
    requires m.Valid() && lo % 4 == 0 && 0 <= bytes && bytes % 4 == 0 && HasWords(m.Memory(), lo, lo + bytes)
    modifies m`mem
    ensures m.Valid() && m.Snap() == old(m.Snap()).(mem := m.mem)
    ensures Cleared(old(m.Memory()), m.Memory(), lo, lo + bytes)
  {
    hide PageManager.Valid, PageManager.Snap, PageManager.Memory, View, HasWords, Cleared;
    ghost var w := m.Memory();
    WordsAligned(m.Snap(), m.cur);
    m.SnapMem();
    m.MemoryIs();
    EndAligned(lo, bytes);
    ClearedNone(w, lo);
    var v := lo;
    while v < lo + bytes
      invariant lo <= v <= lo + bytes && v % 4 == 0
      invariant m.Valid() && m.Snap() == old(m.Snap()).(mem := m.mem)
      invariant Cleared(w, m.Memory(), lo, v)
    {
      WordIn(w, lo, lo + bytes, v);
      ClearedNext(w, m.Memory(), lo, v);
      NextWord(v, lo + bytes);
      m.Write(v, 0);
      v := v + 4;
    }
  }

  method InitDescs(m: PageManager, descs: int)
    requires m.Valid() && HasWords(m.Memory(), descs, descs + 24 * CLASSES) && descs % 4 == 0
    modifies m`mem
    ensures m.Valid() && m.Snap() == old(m.Snap()).(mem := m.mem)
    ensures forall k :: 0 <= k < CLASSES ==> DescStored(m.Memory(), descs, EmptyHeap(), k)
    ensures OutsideKept(old(m.Memory()), m.Memory(), descs, EmptyHeap())
  {
    hide PageManager.Valid, PageManager.Snap, PageManager.Memory, PageManager.Arrays;
    hide Agree, View, IsList, EmptyHeap, DescStored, HasWords, OutsideKept;
    m.SnapMem();
    NothingOutside(m.Memory(), descs);
    var blockSize := 16;
    for k := 0 to CLASSES
      invariant m.Valid() && m.Snap() == old(m.Snap()).(mem := m.mem)
      invariant blockSize == if k < CLASSES then BlockSize(k) else 2048
      invariant HasWords(m.Memory(), descs, descs + 24 * CLASSES)
      invariant OutsideKept(old(m.Memory()), m.Memory(), descs, EmptyHeap())
      invariant forall j :: 0 <= j < k ==> DescStored(m.Memory(), descs, EmptyHeap(), j)
    {
      ghost var w := m.Memory();
      Classes(k, 0);
      DescWords(w, descs, k);
      m.Write(Desc(descs, k), blockSize);
      m.Write(Desc(descs, k) + 4, (0x1000 - HEADER) / blockSize);
      ListInit(m, FreeList(descs, k));
      DescWritten(w, m.Memory(), descs, k);
      DescOutside(old(m.Memory()), w, m.Memory(), descs, k);
      blockSize := blockSize * 2;
    }
  }

  /** The loop of sys_malloc over the blocks of a new arena. */
  method FillArena(m: PageManager, descs: int, a: int, k: int)
    requires m.Valid() && ArenaReady(m.Memory(), descs, a, k)
    modifies m`mem
    ensures m.Valid() && m.Snap() == old(m.Snap()).(mem := m.mem)
    ensures IsList(m.Memory(), FreeList(descs, k), BlockSeq(a, k, Blocks(k)))
    ensures Filling(old(m.Memory()), m.Memory(), FreeList(descs, k), a)
  {
    hide PageManager.Valid, PageManager.Snap, PageManager.Memory, BlockSeq;
    hide View, IsList, Within, Chain, Blocks, BlockSize, Off, Outside, HasWords, Agree, ArenaReady, ArenaOf;
    ghost var w, L := m.Memory(), FreeList(descs, k);
    m.SnapMem();
    BlockBig(k);
    assert BlockSeq(a, k, 0) == [];
    StillReady(w, w, descs, a, k);
    for i := 0 to m.Read(Desc(descs, k) + 4)
      invariant m.Valid() && m.Snap() == old(m.Snap()).(mem := m.mem)
      invariant IsList(m.Memory(), L, BlockSeq(a, k, i)) && Filling(w, m.Memory(), L, a)
    {
      ghost var w1 := m.Memory();
      StillReady(w, w1, descs, a, k);
      var desc := m.Read(a);
      Classes(k, i);
      var b := a + HEADER + i * m.Read(desc);
      NextBlock(w, w1, L, a, k, i);
      var found := ElemFind(m, desc + 8, b, BlockSeq(a, k, i));
      assert !found;
      ListAppend(m, desc + 8, b, BlockSeq(a, k, i));
      FillNext(w, w1, m.Memory(), L, a, k, i);
    }
  }

  /** The loop of sys_free that takes the blocks of arena a off their list. */
  method EmptyArena(m: PageManager, a: int, ghost descs: int, ghost h: Heap, ghost lo: int, ghost hi: int, ghost k: int)
    returns (ghost ys: seq<int>)
    requires m.Valid() && FreeArena(m.Memory(), descs, h, lo, hi, a, k)
    modifies m`mem
    ensures m.Valid() && m.Snap() == old(m.Snap()).(mem := m.mem)
    ensures IsList(m.Memory(), FreeList(descs, k), ys) && Without(h.free[k], ys, a)
    ensures OnlyTouched(old(m.Memory()), m.Memory(), descs, h, k, NoBlock)
  {
    hide PageManager.Valid, PageManager.Snap, PageManager.Memory, PageManager.Arrays, View, Agree, IsList, Within;
    hide Chain;
    hide Blocks, BlockSize, Off, Stored, Shape, Placed, OnlyTouched, Removed, Without, Nodes, ArenaOf;
    ghost var w := m.Memory();
    m.SnapMem();
    FreeArenaList(w, descs, h, lo, hi, a, k);
    ArenaWords(w, w, descs, h, lo, hi, a, k);
    ys := h.free[k];
    for i := 0 to m.Read(m.Read(a) + 4)
      invariant m.Valid() && m.Snap() == old(m.Snap()).(mem := m.mem)
      invariant IsList(m.Memory(), FreeList(descs, k), ys) && Removed(h.free[k], ys, a, k, i)
      invariant OnlyTouched(w, m.Memory(), descs, h, k, NoBlock)
    {
      ghost var w1, xs := m.Memory(), ys;
      ArenaWords(w, w1, descs, h, lo, hi, a, k);
      var desc := m.Read(a);
      Classes(k, i);
      var b := a + HEADER + i * m.Read(desc);
      ghost var j := RemoveNext(h.free[k], xs, a, k, i);
      var found := ElemFind(m, desc + 8, b, xs);
      assert found;
      ListRemove(m, b, FreeList(descs, k), xs, j);
      RemoveStep(w, w1, m.Memory(), descs, h, k, xs, a, i);
      ys := xs[..j] + xs[j + 1..];
    }
    RemovedAll(h, ys, a, k);
  }

  /** malloc_page and memset. */
  method ZeroedPages(m: PageManager, pf: Half, n: int) returns (stop: Stop, a: int, ghost vm: Vm)
    requires m.Valid() && (pf == User ==> m.cur in m.uv) && n >= 0
    modifies m`mem, m`owner, m.kp.bits, m.up.bits, m.Virtual(pf).bits
    ensures stop == Running || stop == BadCount || stop == NoVaddr || stop == NoFrame
    ensures stop == BadCount <==> !(0 < n < 3840)
    ensures stop == Running <==> 0 < n < 3840 && old(Available(m.Snap(), pf, m.cur, n))
    ensures stop == Running ==> m.Valid() && m.Snap() == vm.(mem := m.mem)
    ensures stop == Running ==> Grew(old(m.Snap()), vm, pf, m.cur, PageNo(pf, a), PageNo(pf, a) + n, pf == User)
    ensures stop == Running ==> ZeroPages(old(m.Memory()), m.Memory(), a, n)
    ensures stop == Running ==> Low(pf) <= a && a + 0x1000 * n <= HeapEnd(m, pf)
    ensures stop == Running ==> TookFirst(old(m.Snap()), m.Snap(), pf, m.cur, PageNo(pf, a), n)
  {
    hide PageManager.Valid, PageManager.Snap, View, Agree, Cleared, HasWords, Grew, Fits, Extends, ZeroPages;
    hide Low, Page0, PageNo, HeapEnd, Available, Spent, FirstFit, Took;
    EndOfHeap(m, pf);
    ghost var w, vm0 := m.Memory(), m.Snap();
    stop, a := m.MallocPage(pf, n);
    vm := m.Snap();
    if stop != Running { return; }
    GotPages(vm0, vm, pf, m.cur, a, n, pf == User);
    TookGrew(vm0, vm, pf, m.cur, PageNo(pf, a), n);
    m.Agrees();
    ClearedPages(w, m.Memory(), m.Memory(), a, n);
    ghost var w0 := m.Memory();
    PageWord(a);
    PageWord(0x1000 * n);
    Memset(m, a, 0x1000 * n);
    ClearedPages(w, w0, m.Memory(), a, n);
    m.Agrees();
    TookStays(vm0, vm, m.Snap(), pf, m.cur, PageNo(pf, a), n);
  }

  /** malloc_page, memset and the header of a large allocation. */
  method LargePages(m: PageManager, pf: Half, n: int) returns (stop: Stop, a: int, ghost vm: Vm, ghost w0: Words)
    requires m.Valid() && (pf == User ==> m.cur in m.uv) && n >= 0
    modifies m`mem, m`owner, m.kp.bits, m.up.bits, m.Virtual(pf).bits
    ensures stop == Running || stop == BadCount || stop == NoVaddr || stop == NoFrame
    ensures stop == BadCount <==> !(0 < n < 3840)
    ensures stop == Running <==> 0 < n < 3840 && old(Available(m.Snap(), pf, m.cur, n))
    ensures stop == Running ==> m.Valid() && m.Snap() == vm.(mem := m.mem)
    ensures stop == Running ==> Grew(old(m.Snap()), vm, pf, m.cur, PageNo(pf, a), PageNo(pf, a) + n, pf == User)
    ensures stop == Running ==> ZeroPages(old(m.Memory()), w0, a, n)
    ensures stop == Running ==> NewPages(old(m.Memory()), m.Memory(), a, n, 0, n, 1) && a % 0x1000 == 0
    ensures stop == Running ==> Low(pf) <= a && a + 0x1000 * n <= HeapEnd(m, pf)
    ensures stop == Running ==> TookFirst(old(m.Snap()), m.Snap(), pf, m.cur, PageNo(pf, a), n)
  {
    hide PageManager.Valid, PageManager.Snap, PageManager.Memory, View, Grew, ZeroPages, NewPages, Available;
    hide Low, Page0, PageNo, HeapEnd, Agree, Took, FirstFit;
    ghost var w, vm0 := m.Memory(), m.Snap();
    stop, a, vm := ZeroedPages(m, pf, n);
    w0 := m.Memory();
    if stop != Running { return; }
    m.Agrees();
    ghost var vm1 := m.Snap();
    HeaderWords(w, w0, a, n);
    HeaderWritten(w, w0, a, n, 0, n, 1);
    m.Write(a, 0);
    m.Write(a + 4, n);
    m.Write(a + 8, 1);
    m.Agrees();
    TookStays(vm0, vm1, m.Snap(), pf, m.cur, PageNo(pf, a), n);
  }

  lemma EndOfHeap(m: PageManager, pf: Half)
    requires m.Valid() && (pf == User ==> m.cur in m.uv)
    ensures pf == User ==> m.cur in m.Snap().uv
    ensures HeapEnd(m, pf) == (Page0(pf) + |VBits(m.Snap(), pf, m.cur)|) * 0x1000
  {
    hide Agree;
    m.Agrees();
    m.SnapFields(pf);
    LayoutOf(m.Snap());
  }

  class Allocator {
    const m: PageManager
    const pf: Half       // PF_KERNEL for kernel threads, PF_USER for processes
    const space: int     // their directory: the boot directory, or the process's own
    const descs: int     // k_block_desc or u_block_desc
    const poolSize: int
    ghost var h: Heap

    ghost function High(): int { HeapEnd(m, pf) }

    /** block_desc_init, under whatever directory is active: that of the creating thread when the
        descriptors are those of a new process. */
    constructor (m: PageManager, pf: Half, space: int, descs: int, poolSize: int)
      requires m.Valid() && (pf == Kernel <==> space == BOOT_DIR) && (pf == User ==> space in m.uv)
      requires Placed(descs, Low(pf), HeapEnd(m, pf)) && 0xc000_0000 <= descs
      requires HasWords(m.Memory(), descs, descs + 24 * CLASSES) && 0 <= poolSize <= 0x800_0000
      requires Account(VBits(m.Snap(), pf, space), m.taken, pf, space, EmptyHeap())
      modifies m`mem
      ensures Sound() && this.m == m && this.pf == pf && this.space == space && this.descs == descs
      ensures this.poolSize == poolSize && h == EmptyHeap()
      ensures m.Snap() == old(m.Snap()).(mem := m.mem) && m.Valid()
      ensures OutsideKept(old(m.Memory()), m.Memory(), descs, EmptyHeap())
    {
      hide PageManager.Valid, PageManager.Snap, PageManager.Arrays;
      hide Account, Agree, View, IsList, DescStored, HeapInv, HasWords, EmptyHeap, Low, Page0, Shape, Stored, Partial;
      hide OutsideKept;
      InitDescs(m, descs);
      DescsSeen(m.Snap(), m.cur, space, descs);
      EmptyHeapInv(View(m.Snap(), space), descs, Low(pf), HeapEnd(m, pf));
      this.m, this.pf, this.space, this.descs, this.poolSize := m, pf, space, descs, poolSize;
      h := EmptyHeap();
      new;
      NotArray();
    }

    /** Whatever directory is active, the heap agrees with memory as its own threads see it, and
        with the page layer. */
    ghost predicate Sound()
      reads this, m, m.Arrays()
    {
      && m.Valid() && (pf == Kernel <==> space == BOOT_DIR) && (pf == User ==> space in m.uv)
      && 0 <= poolSize <= 0x800_0000
      && HeapInv(View(m.Snap(), space), descs, h, Low(pf), High())
      && Account(VBits(m.Snap(), pf, space), m.taken, pf, space, h)
    }

    /** The same under its own directory, but an arena may be all free. */
    ghost predicate Core()
      reads this, m, m.Arrays()
    {
      && m.Valid() && m.cur == space && (pf == Kernel <==> space == BOOT_DIR) && (pf == User ==> space in m.uv)
      && 0 <= poolSize <= 0x800_0000
      && Placed(descs, Low(pf), High()) && Shape(h, Low(pf), High()) && Stored(m.Memory(), descs, h)
      && Account(VBits(m.Snap(), pf, space), m.taken, pf, space, h)
    }

    ghost predicate Valid()
      reads this, m, m.Arrays()
    {
      Core() && Partial(h)
    }

    lemma SoundHere()
      ensures Valid() <==> Sound() && m.cur == space
    {
      hide PageManager.Valid, PageManager.Snap, Account, View, Shape, Stored, Partial, Placed;
    }

    lemma NotArray()
      ensures this !in m.Arrays()
    {
    }

    lemma Spaces()
      requires Core()
      ensures pf == User ==> m.cur in m.uv && m.cur in m.Snap().uv
    {
      hide PageManager.Valid, Shape, Stored, Account;
    }

    /** malloc_page, memset and the header of an arena of class k. */
    method ArenaPage(k: int) returns (stop: Stop, a: int, ghost vm: Vm, ghost w0: Words)
      requires Valid() && 0 <= k < CLASSES
      modifies m`mem, m`owner, m.kp.bits, m.up.bits, m.Virtual(pf).bits
      ensures stop == Running || stop == NoVaddr || stop == NoFrame
      ensures stop == Running <==> old(Available(m.Snap(), pf, space, 1))
      ensures stop == Running ==> m.Valid() && m.Snap() == vm.(mem := m.mem)
      ensures stop == Running ==> Grew(old(m.Snap()), vm, pf, m.cur, PageNo(pf, a), PageNo(pf, a) + 1, pf == User)
      ensures stop == Running ==> ZeroPages(old(m.Memory()), w0, a, 1)
      ensures stop == Running ==> NewPages(old(m.Memory()), m.Memory(), a, 1, Desc(descs, k), Blocks(k), 0)
      ensures stop == Running ==> a % 0x1000 == 0
      ensures stop == Running ==> Low(pf) <= a && a + 0x1000 <= High()
      ensures stop == Running ==> TookFirst(old(m.Snap()), m.Snap(), pf, m.cur, PageNo(pf, a), 1)
    {
      hide PageManager.Valid, PageManager.Snap, PageManager.Memory, PageManager.Arrays, View, Account, Agree, Stored;
      hide Shape, IsList, Low, Placed, DescStored, Partial, Blocks, HasWords, Grew, ZeroPages, NewPages;
      hide Available, PageNo, HeapEnd, Took, FirstFit;
      ghost var w, vm0 := m.Memory(), m.Snap();
      stop, a, vm := ZeroedPages(m, pf, 1);
      w0 := m.Memory();
      if stop != Running { return; }
      m.Agrees();
      ghost var vm1 := m.Snap();
      HeaderWords(w, w0, a, 1);
      HeaderWritten(w, w0, a, 1, Desc(descs, k), Blocks(k), 0);
      StoredClass(w, descs, h, k);
      m.Write(a, Desc(descs, k));
      m.Write(a + 8, 0);
      m.Write(a + 4, m.Read(Desc(descs, k) + 4));
      m.Agrees();
      TookStays(vm0, vm1, m.Snap(), pf, m.cur, PageNo(pf, a), 1);
    }

    /** The branch of sys_malloc for an empty free list: a new page becomes an arena. */
    method Refill(k: int) returns (stop: Stop, a: int)
      requires Valid() && 0 <= k < CLASSES && h.free[k] == []
      modifies m`mem, m`owner, m.kp.bits, m.up.bits, m.Virtual(pf).bits, this`h
      ensures stop == Running || stop == NoVaddr || stop == NoFrame
      ensures stop == Running <==> old(Available(m.Snap(), pf, space, 1))
      ensures stop == Running ==> Core() && NewArena(old(h), h, a, k)
      ensures stop == Running ==> forall v :: v in old(m.Memory()) ==> ArenaOf(v) != a
      ensures stop == Running ==> OnlyTouched(old(m.Memory()), m.Memory(), descs, old(h), k, NoBlock)
      ensures stop == Running ==> TookFirst(old(m.Snap()), m.Snap(), pf, space, PageNo(pf, a), 1)
    {
      hide PageManager.Valid, PageManager.Snap, PageManager.Memory, PageManager.Arrays, View, Account, Agree, Stored;
      hide Shape, IsList, Touched, Refilled, Low, Placed, DescStored, FreeSet, Partial;
      hide BlockSize, Blocks, BlockSeq, Filling, Cleared, HasWords, ArenaOf, OnlyTouched, Grew, ZeroPages, NewPages;
      hide ArenaReady, NewArena;
      hide Available, PageNo, HeapEnd, Off, Index, Split, Took, FirstFit;
      NotArray();
      ghost var w, vm0 := m.Memory(), m.Snap();
      ghost var vm, w0;
      stop, a, vm, w0 := ArenaPage(k);
      if stop != Running { return; }
      m.Agrees();
      ghost var w3, vm3 := m.Memory(), m.Snap();
      ReadyArena(w, w3, descs, h, Low(pf), High(), a, k);
      FillArena(m, descs, a, k);
      RefillWords(w, w0, w3, m.Memory(), descs, h, Low(pf), High(), a, k);
      NewWords(w, w0, a);
      RefillHolds(h, a, k, pf);
      AccountGrows(vm0, vm, m.taken, pf, space, h, Refilled(h, a, k), PageNo(pf, a), PageNo(pf, a) + 1);
      m.Agrees();
      TookStays(vm0, vm3, m.Snap(), pf, space, PageNo(pf, a), 1);
      h := Refilled(h, a, k);
    }

    /** Pop a block, clear it and count it out: the tail of sys_malloc. */
    method PopBlock(k: int, size: int) returns (e: int)
      requires 0 <= k < CLASSES && Core() && h.free[k] != [] && PartialBut(h, ArenaOf(h.free[k][0]))
      requires 0 <= size <= BlockSize(k)
      modifies m`mem, this`h
      ensures Valid() && e == old(h).free[k][0] && h == Popped(old(h), k, e, old(h).free[k][1..], size)
      ensures OnlyTouched(old(m.Memory()), m.Memory(), descs, old(h), k, TheBlock(e))
      ensures forall v :: e <= v < e + BlockSize(k) && v % 4 == 0 ==> v in m.Memory() && m.Memory()[v] == 0
      ensures SamePages(old(m.Snap()), m.Snap())
    {
      hide PageManager.Valid, PageManager.Snap, View, Account, Agree, Stored, Shape, IsList, Touched, IsBlock;
      hide BlockSize, Blocks, Off, Index, FreeSet, Within, Cleared, HasWords, Chain, ArenaOf, OnlyTouched, Kept;
      hide PageManager.Arrays, PageManager.Memory;
      NotArray();
      Spaces();
      ghost var w, h0 := m.Memory(), h;
      ghost var rest := h.free[k][1..];
      m.SnapMem();
      StoredClass(w, descs, h, k);
      e := ListPop(m, FreeList(descs, k), h.free[k]);
      ghost var w1 := m.Memory();
      AfterPop(w, w1, descs, h, Low(pf), High(), k, e);
      Memset(m, e, m.Read(Desc(descs, k)));
      ghost var w2 := m.Memory();
      var a := ArenaOf(e);
      CntKept(w, w1, w2, descs, h, Low(pf), High(), k, e);
      m.Write(a + 4, m.Read(a + 4) - 1);
      PopWords(w, w1, w2, m.Memory(), descs, h, Low(pf), High(), k, e, rest, size);
      h := Popped(h0, k, e, rest, size);
      AccountSame(VBits(m.Snap(), pf, space), m.taken, pf, space, h0, h);
    }

    /** The first class whose blocks hold size bytes. */
    method FindClass(size: int) returns (k: int)
      requires Core() && size <= 1024
      ensures 0 <= k < CLASSES && size <= BlockSize(k) && forall j :: 0 <= j < k ==> BlockSize(j) < size
      ensures k == ClassOf(size)
      ensures Core() && m.Snap() == old(m.Snap()) && m.Memory() == old(m.Memory())
    {
      hide PageManager.Valid, PageManager.Snap, PageManager.Memory, PageManager.Arrays, Account, Agree, Stored, Shape;
      hide IsList;
      k := 0;
      assert BlockSize(CLASSES - 1) == 1024;
      while k < CLASSES
        invariant 0 <= k <= CLASSES && forall j :: 0 <= j < k ==> BlockSize(j) < size
        invariant Core() && m.Snap() == old(m.Snap()) && m.Memory() == old(m.Memory())
      {
        StoredClass(m.Memory(), descs, h, k);
        if size <= m.Read(Desc(descs, k)) {
          FirstClass(size, k);
          return;
        }
        k := k + 1;
      }
      assert false;
    }

    /** sys_malloc of a size that fits a block. */
    method MallocSmall(size: int) returns (stop: Stop, p: int)
      requires Valid() && 0 <= size <= 1024 && size <= poolSize
      modifies m`mem, m`owner, m.kp.bits, m.up.bits, m.Virtual(pf).bits, this`h
      ensures stop == Running || stop == NoVaddr || stop == NoFrame
      ensures stop == Running ==> MallocMoves(old(m.Snap()), old(h), m.Snap(), h, pf, space, poolSize, size, p)
      ensures stop == Running <==> old(h.free[ClassOf(size)] != [] || Available(m.Snap(), pf, space, 1))
      ensures stop == Running ==> Valid() && p !in old(h).live && h.live == old(h).live[p := size]
      ensures stop == Running ==> Zeroed(m.Memory(), h, p) && BestFit(h, p, size)
      ensures stop == Running ==> ClientKept(old(m.Memory()), m.Memory(), old(h))
      ensures stop == Running ==> OutsideKept(old(m.Memory()), m.Memory(), descs, old(h))
    {
      hide PageManager.Valid, PageManager.Snap, PageManager.Memory, PageManager.Arrays, Account, Agree, Stored, Shape;
      hide IsList;
      hide Partial, BlockSize, Blocks, BlockSeq, HasWords, OnlyTouched, Low, Placed, ClientKept, OutsideKept, Zeroed;
      hide IsSmall, IsLarge, IsBlock, ArenaOf, PageNo, TookFirst;
      var k := FindClass(size);
      StoredClass(m.Memory(), descs, h, k);
      ghost var w, h0, vm0 := m.Memory(), h, m.Snap();
      var empty := ListEmpty(m, FreeList(descs, k), h.free[k]);
      ghost var a := 0;
      stop, p := Running, 0;
      if empty {
        stop, p := Refill(k);
        a := p;
        if stop != Running { return; }
      }
      ghost var w1, h1, vm1 := m.Memory(), h, m.Snap();
      PartialWeaker(h0, ArenaOf(h.free[k][0]));
      m.Agrees();
      p := PopBlock(k, size);
      m.Agrees();
      if empty { SmallMoves(vm0, h0, vm1, h1, m.Snap(), h, pf, space, poolSize, size, p, a); }
      SmallWords(w1, m.Memory(), descs, h1, Low(pf), High(), k, p, size);
      PoppedOutside(w1, m.Memory(), descs, h1, Low(pf), High(), k, p);
      if empty {
        TouchedKept(w, w1, descs, h0, Low(pf), High(), k, NoBlock);
        TouchedOutside(w, w1, descs, h0, Low(pf), High(), k, NoBlock);
        RefilledKept(w, w1, m.Memory(), h0, Low(pf), High(), a, k);
        RefilledOutside(w, w1, m.Memory(), descs, h0, a, k);
      }
    }

    /** sys_malloc of whole pages. */
    method MallocLarge(size: int) returns (stop: Stop, p: int)
      requires Valid() && 1024 < size <= poolSize
      modifies m`mem, m`owner, m.kp.bits, m.up.bits, m.Virtual(pf).bits, this`h
      ensures stop == Running || stop == BadCount || stop == NoVaddr || stop == NoFrame
      ensures stop == Running ==> MallocMoves(old(m.Snap()), old(h), m.Snap(), h, pf, space, poolSize, size, p)
      ensures stop == BadCount <==> size + HEADER > 3839 * 0x1000
      ensures stop == Running <==> PagesFor(size) < 3840 && old(Available(m.Snap(), pf, space, PagesFor(size)))
      ensures stop == Running ==> Valid() && p !in old(h).live && h.live == old(h).live[p := size]
      ensures stop == Running ==> Zeroed(m.Memory(), h, p) && BestFit(h, p, size)
      ensures stop == Running ==> ClientKept(old(m.Memory()), m.Memory(), old(h))
      ensures stop == Running ==> OutsideKept(old(m.Memory()), m.Memory(), descs, old(h))
    {
      hide PageManager.Valid, PageManager.Snap, PageManager.Memory, PageManager.Arrays, Account, Agree, Stored, Shape;
      hide IsList;
      hide Partial, HasWords, Low, Placed, ClientKept, OutsideKept, Zeroed, ZeroPages, NewPages, Grew, IsSmall;
      hide PagesFor, Available, ArenaOf, BlockSize, View, TookFirst, PageNo;
      NotArray();
      WholePages(size);
      ghost var w, vm0, h0 := m.Memory(), m.Snap(), h;
      var n := PagesFor(size);
      var a;
      ghost var vm, w0;
      stop, a, vm, w0 := LargePages(m, pf, n);
      p := a + HEADER;
      if stop != Running { return; }
      LargeFresh(w, w0, descs, h0, Low(pf), High(), a, n, size);
      LargeWords(w, w0, m.Memory(), descs, h0, Low(pf), High(), a, n, size);
      LargeHolds(h0, a, n, size, pf);
      h := LargeGot(h0, a, n, size);
      AccountGrows(vm0, vm, m.taken, pf, space, h0, h, PageNo(pf, a), PageNo(pf, a) + n);
    }

    /** sys_malloc: NULL for a size beyond the pool; else a new zeroed region, of the first class
        that fits or of whole pages, if and only if there is one to be had, and no other memory
        in use changes. */
    method SysMalloc(size: int) returns (stop: Stop, p: int)
      requires Valid() && 0 <= size
      modifies m`mem, m`owner, m.kp.bits, m.up.bits, m.Virtual(pf).bits, this`h
      ensures stop == Running || stop == BadCount || stop == NoVaddr || stop == NoFrame
      ensures stop == BadCount <==> 3839 * 0x1000 < size + HEADER && size <= poolSize
      ensures stop == Running <==> old(Serves(m.Snap(), pf, space, h, poolSize, size))
      ensures stop == Running ==> MallocMoves(old(m.Snap()), old(h), m.Snap(), h, pf, space, poolSize, size, p)
      ensures size > poolSize ==>
        stop == Running && p == 0 && m.Snap() == old(m.Snap()) && m.Memory() == old(m.Memory()) && h == old(h)
      ensures stop == Running ==> Valid()
      ensures stop == Running && size <= poolSize ==> p !in old(h).live && h.live == old(h).live[p := size]
      ensures stop == Running && size <= poolSize ==> Zeroed(m.Memory(), h, p)
      ensures stop == Running && size <= poolSize ==> BestFit(h, p, size)
      ensures stop == Running ==> ClientKept(old(m.Memory()), m.Memory(), old(h))
      ensures stop == Running ==> OutsideKept(old(m.Memory()), m.Memory(), descs, old(h))
    {
      hide PageManager.Valid, PageManager.Snap, PageManager.Memory, PageManager.Arrays;
      hide Core, Zeroed, BestFit, Low;
      stop, p := Running, 0;
      if size > poolSize { return; }
      if size > 1024 {
        stop, p := MallocLarge(size);
      } else {
        stop, p := MallocSmall(size);
      }
    }

    /** mfree_page of pages that only h, not h', holds. */
    method GivePages(a: int, n: int, ghost h': Heap)
      requires m.Valid() && m.cur == space && (pf == User ==> space in m.uv) && a % 0x1000 == 0 && n >= 1
      requires Account(VBits(m.Snap(), pf, space), m.taken, pf, space, h)
      requires HasWords(m.Memory(), a, a + 0x1000 * n) && Low(pf) <= a && a + 0x1000 * n <= High()
      requires HoldsMore(h', h, pf, PageNo(pf, a), PageNo(pf, a) + n)
      requires forall i :: PageNo(pf, a) <= i < PageNo(pf, a) + n ==> !Held(h', pf, i)
      modifies m`mem, m`owner, m.kp.bits, m.up.bits, m.Virtual(pf).bits
      ensures m.Valid() && Account(VBits(m.Snap(), pf, space), m.taken, pf, space, h')
      ensures Extends(m.Memory(), old(m.Memory()), a, a + 0x1000 * n)
      ensures Gave(old(m.Snap()), m.Snap(), pf, space, PageNo(pf, a), n)
    {
      hide PageManager.Valid, PageManager.Snap, PageManager.Arrays, View, Agree, Account, Held, HoldsMore;
      hide HasWords, Grew, NoDirs, Extends, Low, PageNo, Gave;
      ghost var vm := m.Snap();
      m.Agrees();
      m.SnapFields(pf);
      LayoutOf(vm);
      HeldSet(vm, pf, space, a, n);
      var stop := m.MfreePage(pf, a, n);
      assert stop == Running;
      m.Agrees();
      GotPages(m.Snap(), vm, pf, space, a, n, false);
      GaveGrew(vm, m.Snap(), pf, space, PageNo(pf, a), n);
      AccountShrinks(vm, m.Snap(), m.taken, pf, space, h, h', PageNo(pf, a), PageNo(pf, a) + n);
    }

    /** sys_free of a large allocation. */
    method FreeLarge(p: int)
      requires Valid() && p in h.live && IsLarge(h, p)
      modifies m`mem, m`owner, m.kp.bits, m.up.bits, m.Virtual(pf).bits, this`h
      ensures FreeMoves(old(m.Snap()), old(h), m.Snap(), h, pf, space, p)
      ensures Valid() && h.live == old(h).live - {p}
      ensures ClientKept(old(m.Memory()), m.Memory(), h)
      ensures OutsideKept(old(m.Memory()), m.Memory(), descs, old(h))
    {
      hide PageManager.Valid, PageManager.Snap, PageManager.Memory, PageManager.Arrays, Account, Agree, Stored, Shape;
      hide Partial, HasWords, ClientKept, OutsideKept, Extends, Low, Placed, Held, HoldsMore, Gave, PageNo;
      NotArray();
      ghost var w, h0 := m.Memory(), h;
      var a := ArenaOf(p);
      LargeWhole(w, descs, h, Low(pf), High(), p);
      LargeFreedHolds(h, Low(pf), High(), a, pf);
      GivePages(a, m.Read(a + 4), LargeFreed(h, a));
      LargeFreedClient(w, m.Memory(), descs, h, Low(pf), High(), a);
      h := LargeFreed(h0, a);
    }

    /** The end of sys_free for an arena whose blocks are all free: its page is given back. */
    method Evict(a: int, ghost k: int)
      requires Core() && a in h.kinds && h.kinds[a] == k && 0 <= k < CLASSES
      requires PartialBut(h, a) && |FreeSet(h, a)| == Blocks(k)
      modifies m`mem, m`owner, m.kp.bits, m.up.bits, m.Virtual(pf).bits, this`h
      ensures Valid() && h.live == old(h).live && SameRegions(old(h), h)
      ensures Gave(old(m.Snap()), m.Snap(), pf, space, PageNo(pf, a), 1) && Emptied(old(h), h, a)
      ensures ClientKept(old(m.Memory()), m.Memory(), h)
      ensures OutsideKept(old(m.Memory()), m.Memory(), descs, old(h))
    {
      hide PageManager.Valid, PageManager.Snap, PageManager.Memory, PageManager.Arrays, Account, Agree, Stored, Shape;
      hide Partial, PartialBut, HasWords, ClientKept, OutsideKept, Extends, Low, Held, HoldsMore, IsList, Without;
      hide OnlyTouched;
      hide Blocks, FreeSet, SameRegions, Block, Gave, PageNo;
      NotArray();
      ghost var w, h0, vm0 := m.Memory(), h, m.Snap();
      ArenaHeader(w, descs, h, Low(pf), High(), a);
      FreeSetBound(h, a);
      ghost var ys := EmptyArena(m, a, descs, h, Low(pf), High(), k);
      ghost var w1, vm1 := m.Memory(), m.Snap();
      KeepsWords(w, w1, descs, h, k, NoBlock, a, a + 0x1000);
      EvictedHolds(h, Low(pf), High(), a, ys, pf);
      GivePages(a, 1, Evicted(h, a, ys));
      GaveStays(vm0, vm1, m.Snap(), pf, space, PageNo(pf, a), 1);
      EvictStep(w, w1, m.Memory(), descs, h, Low(pf), High(), a, ys);
      EvictedRegions(h, Low(pf), High(), a, ys);
      EvictedKept(w, w1, m.Memory(), descs, h, Low(pf), High(), a, ys);
      h := Evicted(h0, a, ys);
    }

    /** list_append of a block and ++cnt. */
    method PushBlock(p: int, ghost k: int)
      requires Valid() && p in h.live && 0 <= k < CLASSES && IsBlock(h, k, p)
      modifies m`mem, this`h
      ensures Core() && h == Pushed(old(h), k, p) && PartialBut(h, ArenaOf(p)) && SamePages(old(m.Snap()), m.Snap())
      ensures ClientKept(old(m.Memory()), m.Memory(), h)
      ensures OutsideKept(old(m.Memory()), m.Memory(), descs, old(h))
    {
      hide PageManager.Valid, PageManager.Snap, PageManager.Memory, PageManager.Arrays, Account, Agree, Stored, Shape;
      hide Partial, PartialBut, HasWords, ClientKept, OutsideKept, Low, Within, Outside, IsList, OnlyTouched, IsBlock;
      hide Blocks, BlockSize, ArenaOf;
      NotArray();
      Spaces();
      ghost var w, h0 := m.Memory(), h;
      var a := ArenaOf(p);
      NotListed(h, Low(pf), High(), k, p);
      StoredBlock(w, descs, h, Low(pf), High(), k, p);
      StoredClass(w, descs, h, k);
      BlockOutside(descs, h, Low(pf), High(), k, p);
      m.SnapMem();
      ListAppend(m, m.Read(a) + 8, p, h.free[k]);
      ghost var w1 := m.Memory();
      HeaderMissed(w, w1, descs, h, Low(pf), High(), k, p);
      assert SameWord(w, w1, a + 4);
      m.Write(a + 4, m.Read(a + 4) + 1);
      PushWords(w, w1, m.Memory(), descs, h, Low(pf), High(), k, p);
      PushedKept(w, m.Memory(), descs, h, Low(pf), High(), k, p);
      h := Pushed(h0, k, p);
      AccountSame(VBits(m.Snap(), pf, space), m.taken, pf, space, h0, h);
    }

    /** sys_free of a block. */
    method FreeSmall(p: int)
      requires Valid() && p in h.live && !IsLarge(h, p)
      modifies m`mem, m`owner, m.kp.bits, m.up.bits, m.Virtual(pf).bits, this`h
      ensures FreeMoves(old(m.Snap()), old(h), m.Snap(), h, pf, space, p)
      ensures Valid() && h.live == old(h).live - {p}
      ensures ClientKept(old(m.Memory()), m.Memory(), h)
      ensures OutsideKept(old(m.Memory()), m.Memory(), descs, old(h))
    {
      hide PageManager.Valid, PageManager.Snap, PageManager.Memory, PageManager.Arrays, Account, Agree, Stored, Shape;
      hide Partial, PartialBut, ClientKept, OutsideKept, Low, IsBlock, Blocks, BlockSize, FreeSet, SameRegions;
      hide HasWords, IsLarge, ArenaOf, Gave, PageNo, Emptied;
      ghost var w, h0, vm0 := m.Memory(), h, m.Snap();
      var a := ArenaOf(p);
      LiveBlock(h, Low(pf), High(), p);
      ghost var k := h.kinds[a];
      PushBlock(p, k);
      ghost var w1, h1, vm1 := m.Memory(), h, m.Snap();
      ArenaHeader(w1, descs, h, Low(pf), High(), a);
      if m.Read(a + 4) == m.Read(m.Read(a) + 4) {
        Evict(a, k);
        GaveStays(vm0, vm1, m.Snap(), pf, space, PageNo(pf, a), 1);
        KeptTrans(w, w1, m.Memory(), h1, h);
        OutsideTrans(w, w1, m.Memory(), descs, h0, h1);
      } else {
        PartialNow(h, a);
      }
    }

    /** sys_free: NULL stops the kernel; a live pointer stops being live and no other client's
        memory changes. */
    method SysFree(p: int) returns (stop: Stop)
      requires Valid() && (p == 0 || p in h.live)
      modifies m`mem, m`owner, m.kp.bits, m.up.bits, m.Virtual(pf).bits, this`h
      ensures stop == if p == 0 then NullPointer else Running
      ensures stop == Running ==> Valid() && h.live == old(h).live - {p}
      ensures stop == Running ==> FreeMoves(old(m.Snap()), old(h), m.Snap(), h, pf, space, p)
      ensures stop == Running ==> ClientKept(old(m.Memory()), m.Memory(), h)
      ensures stop == Running ==> OutsideKept(old(m.Memory()), m.Memory(), descs, old(h))
    {
      hide PageManager.Valid, PageManager.Snap, PageManager.Memory, PageManager.Arrays, Account, Agree, Stored, Shape;
      hide Partial, ClientKept, OutsideKept, IsBlock, FreeSet, IsSmall, HasWords, Blocks, BlockSize;
      if p == 0 { return NullPointer; }
      stop := Running;
      LiveHeader(m.Memory(), descs, h, Low(pf), High(), p);
      assert pf == Kernel ==> p > 0xc010_0000;
      var a := ArenaOf(p);
      if m.Read(a) == 0 && m.Read(a + 8) == 1 {
        FreeLarge(p);
      } else {
        FreeSmall(p);
      }
    }
  }
}
