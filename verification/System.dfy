/** The whole memory manager: one page layer, the kernel's heap and one heap for each process, and
    threads that allocate, free, write, are switched, take pages and create processes. */
module Systems {
  import opened Paging
  import opened Agreement
  import opened Bitmaps
  import opened Views
  import opened Growth
  import opened Supplies
  import opened PageManagement
  import opened Heaps
  import opened HeapSteps
  import opened Accounts
  import opened AllocationSteps
  import opened Moves
  import opened Allocation
  import opened IdealHeaps
  import opened Sites
  import opened Frames
  import opened TaskStructs

  /** get_kernel_pages and get_user_pages: zeroed pages that no heap holds and nobody else has. */
  method GetPages(m: PageManager, pf: Half, n: int) returns (stop: Stop, a: int, ghost vm: Vm)
    requires m.Valid() && (pf == User ==> m.cur in m.uv) && n >= 0
    modifies m`mem, m`owner, m`taken, m.kp.bits, m.up.bits, m.Virtual(pf).bits
    ensures stop == Running || stop == BadCount || stop == NoVaddr || stop == NoFrame
    ensures stop == Running <==> 0 < n < 3840 && old(Available(m.Snap(), pf, m.cur, n))
    ensures stop == Running ==> m.Valid() && m.Snap() == vm.(mem := m.mem)
    ensures stop == Running ==> Grew(old(m.Snap()), vm, pf, m.cur, PageNo(pf, a), PageNo(pf, a) + n, pf == User)
    ensures stop == Running ==> ZeroPages(old(m.Memory()), m.Memory(), a, n)
    ensures stop == Running ==> m.taken == old(m.taken) + Range(pf, m.cur, PageNo(pf, a), PageNo(pf, a) + n)
    ensures stop == Running ==> TookFirst(old(m.Snap()), m.Snap(), pf, m.cur, PageNo(pf, a), n)
  {
    hide PageManager.Valid, PageManager.Snap, PageManager.Arrays, View, Grew, Available, TookFirst, ZeroPages;
    m.NotArray();
    stop, a, vm := ZeroedPages(m, pf, n);
    if stop == Running { m.taken := m.taken + Range(pf, m.cur, PageNo(pf, a), PageNo(pf, a) + n); }
  }

  /** After an operation that may have changed the bitmaps of the running thread's half only. */
  lemma BitsSame(m: PageManager, a: Vm, pf: Half)
    requires m.Valid() && pf == HalfOf(m.cur) && a.uv.Keys == m.uv.Keys && |a.kv| == 8 * m.kv.bits.Length
    requires pf == User ==> a.kv == m.kv.View()
    requires forall s :: s in m.uv ==> |a.uv[s]| == 8 * m.uv[s].bits.Length
    requires forall s :: s in m.uv && s != m.cur ==> a.uv[s] == m.uv[s].View()
    ensures m.Snap().uv.Keys == a.uv.Keys && BitsKept(a, m.Snap(), pf, m.cur)
  {
    hide Agree, Away, Unpack;
    m.UserDirs();
    m.SnapFields(Kernel);
  }

  /** What an operation on its own heap leaves of everything else. */
  twostate predicate Local(al: Allocator)
    reads al, al.m, al.m.Arrays()
  {
    var m := al.m;
    && m.Snap().uv.Keys == old(m.Snap()).uv.Keys && BitsKept(old(m.Snap()), m.Snap(), al.pf, al.space)
    && OutsideKept(old(m.Memory()), m.Memory(), al.descs, old(al.h))
  }

  lemma HeapOf(al: Allocator)
    requires al.Valid()
    ensures HeapInv(al.m.Memory(), al.descs, al.h, Low(al.pf), al.High()) && Shape(al.h, Low(al.pf), al.High())
  {
    hide PageManager.Valid, PageManager.Snap, PageManager.Memory, Account, Shape, Stored, Partial;
  }

  /** sys_malloc, and what it does to the ideal heap. */
  method MallocHere(al: Allocator, size: nat, ghost s: Ideal) returns (stop: Stop, p: int)
    requires al.Valid() && Shows(al.m.Memory(), al.h, s)
    modifies al.m`mem, al.m`owner, al.m.kp.bits, al.m.up.bits, al.m.Virtual(al.pf).bits, al`h
    ensures stop == Running <==> old(Serves(al.m.Snap(), al.pf, al.space, al.h, al.poolSize, size))
    ensures stop == Running ==> al.Valid() && Local(al) && (p == 0 <==> size > al.poolSize)
    ensures stop == Running ==> Shows(al.m.Memory(), al.h, Step(s, Malloc(size), p))
    ensures stop == Running && p != 0 ==> Fresh(s, p, size)
    ensures stop == Running ==>
      MallocMoves(old(al.m.Snap()), old(al.h), al.m.Snap(), al.h, al.pf, al.space, al.poolSize, size, p)
  {
    hide PageManager.Snap, PageManager.Memory, Agree, Away, Account, HeapInv, Shape, Stored, Partial, View;
    hide PageManager.Valid;
    hide Placed, Zeroed, BestFit, ClientKept, OutsideKept, Serves, BitsKept, Shows, Step, Fresh, MallocMoves;
    HeapOf(al);
    al.m.Agrees();
    al.m.SnapFields(Kernel);
    ghost var vm, w, h := al.m.Snap(), al.m.Memory(), al.h;
    stop, p := al.SysMalloc(size);
    if stop == Running {
      BitsSame(al.m, vm, al.pf);
      if size <= al.poolSize {
        HeapOf(al);
        LiveBounds(al.h, Low(al.pf), al.High(), p);
        MallocShown(w, al.m.Memory(), al.descs, h, al.h, Low(al.pf), al.High(), s, size, p);
        FreshRegion(w, h, al.h, Low(al.pf), al.High(), s, p, size);
      } else {
        NullStep(s, size);
      }
    }
  }

  /** sys_free of a live pointer, and what it does to the ideal heap. */
  method FreeHere(al: Allocator, p: int, ghost s: Ideal)
    requires al.Valid() && Shows(al.m.Memory(), al.h, s) && p in s.live
    modifies al.m`mem, al.m`owner, al.m.kp.bits, al.m.up.bits, al.m.Virtual(al.pf).bits, al`h
    ensures al.Valid() && Local(al) && Shows(al.m.Memory(), al.h, Step(s, Free(p), 0))
    ensures FreeMoves(old(al.m.Snap()), old(al.h), al.m.Snap(), al.h, al.pf, al.space, p)
  {
    hide PageManager.Snap, PageManager.Memory, Agree, Away, Account, HeapInv, Shape, Stored, Partial, View;
    hide PageManager.Valid;
    hide Placed, ClientKept, OutsideKept, BitsKept, Step, FreeMoves;
    HeapOf(al);
    al.m.Agrees();
    al.m.SnapFields(Kernel);
    ghost var vm, w, h := al.m.Snap(), al.m.Memory(), al.h;
    LiveBounds(h, Low(al.pf), al.High(), p);
    var stop := al.SysFree(p);
    assert stop == Running;
    BitsSame(al.m, vm, al.pf);
    HeapOf(al);
    FreeShown(w, al.m.Memory(), al.descs, h, al.h, Low(al.pf), al.High(), s, p);
  }

  /** A store through a pointer that sys_malloc gave. */
  method PokeHere(al: Allocator, v: int, x: int, ghost s: Ideal)
    requires al.Valid() && Shows(al.m.Memory(), al.h, s) && v in s.data
    modifies al.m`mem
    ensures al.Valid() && Local(al) && Shows(al.m.Memory(), al.h, Step(s, Poke(v, x), 0))
    ensures SamePages(old(al.m.Snap()), al.m.Snap()) && al.m.Memory() == old(al.m.Memory())[v := x]
  {
    hide PageManager.Snap, PageManager.Memory, Agree, Away, Account, HeapInv, Shape, Stored, Partial, View;
    hide PageManager.Valid;
    hide Placed, OutsideKept, BitsKept, Step, Private, Shows;
    HeapOf(al);
    al.m.Agrees();
    al.m.SnapFields(Kernel);
    ghost var vm, w := al.m.Snap(), al.m.Memory();
    PokeShown(w, al.descs, al.h, Low(al.pf), al.High(), s, v, x);
    PokeIsPrivate(w, al.descs, al.h, Low(al.pf), al.High(), s, v, x);
    al.m.SnapMem();
    al.m.Write(v, x);
    BitsSame(al.m, vm, al.pf);
    HeapInvSplit(al.m.Memory(), al.descs, al.h, Low(al.pf), al.High());
  }

  const BITMAP_PAGES := (U_PAGES / 8 + 0xfff) / 0x1000 // DIV_ROUND_UP of the bytes of the bitmap

  /** The pages hold the bitmap, and none is too many. */
  predicate HoldBitmap(pages: int, bytes: int) { 0x1000 * (pages - 1) < bytes <= 0x1000 * pages }

  lemma {:induction false} KPagesCount(cur: int, p: int, n: nat)
    ensures |KPages(cur, p, n)| == n
    decreases n
  {
    var a, i := KPages(cur, p, n), PageNo(Kernel, p);
    if n == 0 {
      assert a == {};
    } else {
      KPagesCount(cur, p, n - 1);
      assert forall u :: u in a <==> u in KPages(cur, p, n - 1) + {KPage(i + n - 1)};
      assert a == KPages(cur, p, n - 1) + {KPage(i + n - 1)};
    }
  }

  /** The n kernel pages from the page at p on. */
  function KPages(cur: int, p: int, n: nat): set<Use> {
    Range(Kernel, cur, PageNo(Kernel, p), PageNo(Kernel, p) + n)
  }

  // The system as its threads think of it.

  /** The directory in use, the ideal heap of each address space, and the pages handed out by
      get_kernel_pages, get_user_pages and get_a_page. */
  datatype World = World(cur: int, heaps: map<int, Ideal>, taken: set<Use>)

  /** What the running thread does: an operation on its heap, a switch to a thread of another
      address space, a call for pages, get_a_page, process_execute. */
  datatype Act = On(op: Op) | Switch(space: int) | Take(pf: Half, n: nat) | TakeAt(pf: Half, v: int) | Execute

  /** What it got: an address, or the directory of the new process, and pages. */
  datatype Got = Got(p: int, pages: set<Use>)

  predicate Allowed(w: World, a: Act) {
    match a
    case On(op) => w.cur in w.heaps && Legal(w.heaps[w.cur], op)
    case Switch(space) => space in w.heaps
    case Take(pf, _) => pf == User ==> w.cur != BOOT_DIR
    case TakeAt(_, v) => 0 <= v < 0x1_0000_0000
    case Execute => true
  }

  function Next(w: World, a: Act, r: Got): World
    requires Allowed(w, a)
  {
    match a
    case On(op) => w.(heaps := w.heaps[w.cur := Step(w.heaps[w.cur], op, r.p)])
    case Switch(space) => w.(cur := space)
    case Take(_, _) => w.(taken := w.taken + r.pages)
    case TakeAt(_, _) => w.(taken := w.taken + r.pages)
    case Execute => w.(heaps := w.heaps[r.p := Ideal(map[], map[])], taken := w.taken + r.pages)
  }

  /** The kernel image is there from the start. */
  lemma LowWords(vm: Vm, cur: int, descs: int)
    requires 0xc000_0000 <= descs && descs + DESCS_BYTES <= 0xc010_0000 && descs % 4 == 0
    ensures HasWords(View(vm, cur), descs, descs + DESCS_BYTES)
  {
    hide FrameAt, Rd, KPte;
  }

  lemma FirstPlace(m: PageManager, descs: int)
    requires 0xc000_0000 <= descs && descs + DESCS_BYTES <= 0xc010_0000 && descs % 4 == 0
    ensures Placed(descs, Low(Kernel), HeapEnd(m, Kernel)) && AtHome(Site(BOOT_DIR, descs, EmptyHeap()), {})
  {
  }

  lemma FirstSite(vm: Vm, x: Site)
    requires Fine(vm, {}, x) && x.space == BOOT_DIR && x.h == EmptyHeap()
    ensures AllFine(vm, {}, map[BOOT_DIR := x])
    ensures Tells(vm, map[BOOT_DIR := x], map[BOOT_DIR := Ideal(map[], map[])])
  {
    hide Fine, View, EmptyHeap;
    NewShown(View(vm, BOOT_DIR));
  }

  lemma FirstAccount(vm: Vm, taken: set<Use>)
    requires taken == {} && forall i :: 0 <= i < |vm.kv| ==> !vm.kv[i]
    ensures Account(vm.kv, taken, Kernel, BOOT_DIR, EmptyHeap())
  {
  }

  /** pgdir leads to the directory. */
  lemma DirOf(vm: Vm, cur: int, elsewhere: map<int, Words>, pgdir: map<int, int>, s: int)
    requires Agree(vm) && IsDir(vm, cur) && Away(vm, cur, elsewhere, pgdir) && s in vm.uv
    ensures s in pgdir && 0 <= pgdir[s] < SELF_MAP && pgdir[s] % 0x1000 == 0
    ensures Lookup(vm.mem, cur, pgdir[s] / 0x1000) == Some(s)
  {
    hide View, UserHalf, Lookup, Rd, Present, UserWrite, FrameOf;
    var i := PageNo(Kernel, pgdir[s]);
    OwnedPage(vm, s, i);
    BootLookup(vm, cur, i);
  }

  lemma OwnedPage(vm: Vm, f: int, i: int)
    requires Agree(vm) && Owns(vm, f, KPage(i))
    ensures 0 <= i < |vm.kv| && vm.kv[i] && FrameOf(KPte(vm.mem, i)) == f
  {
    hide Rd, Present, UserWrite, FrameOf;
  }

  lemma ZeroKept(w: Words, w': Words, a: int, n: int)
    requires ZeroPages(w, w', a, n)
    ensures AllKept(w, w')
  {
  }

  lemma OneGranted(a: Vm, b: Vm, pf: Half, cur: int, i: int)
    requires Grew(a, b, pf, cur, i, i + 1, pf == User)
    ensures Granted(a, b, {PageUse(pf, cur, i)})
  {
    hide Grew, Granted;
    assert Range(pf, cur, i, i + 1) == {PageUse(pf, cur, i)};
    GrewGranted(a, b, b.mem, pf, cur, i, i + 1);
    assert b.(mem := b.mem) == b;
  }

  lemma GrewKept(a: Vm, b: Vm, pf: Half, cur: int, lo: int, hi: int)
    requires Grew(a, b, pf, cur, lo, hi, pf == User)
    ensures AllKept(View(a, cur), View(b, cur))
  {
    hide View, Uses, Isolated, Elsewhere, Bits;
  }

  /** kv' is kv with the window set that vaddr_get finds for n pages. */
  ghost predicate Takes(kv: seq<bool>, n: nat, kv': seq<bool>) {
    exists i :: FirstFit(kv, n, i) && 0 <= i && i + n <= |kv| && kv' == SetRange(kv, i, n, true)
  }

  lemma GrewTakes(a: Vm, b: Vm, cur: int, i: int, n: nat)
    requires Grew(a, b, Kernel, cur, i, i + n, false) && FirstFit(a.kv, n, i)
    ensures Takes(a.kv, n, b.kv)
  {
    hide Grew, FirstFit, SetRange;
    GrewBits(a, b, Kernel, cur, i, i + n, false);
  }

  lemma TakesUnique(kv: seq<bool>, n: nat, x: seq<bool>, y: seq<bool>)
    requires Takes(kv, n, x) && Takes(kv, n, y)
    ensures x == y
  {
    hide FirstFit, SetRange;
    var i :| FirstFit(kv, n, i) && 0 <= i && i + n <= |kv| && x == SetRange(kv, i, n, true);
    var j :| FirstFit(kv, n, j) && 0 <= j && j + n <= |kv| && y == SetRange(kv, j, n, true);
    FirstFitUnique(kv, n, i, j);
  }

  lemma KernelAvailable(vm: Vm, cur: int, n: nat)
    ensures Available(vm, Kernel, cur, n) <==> n <= Supply(vm.kp) && exists kv :: Takes(vm.kv, n, kv)
  {
    hide Supply, SetRange, Fits;
    if i :| FirstFit(vm.kv, n, i) {
      FitsInside(vm.kv, |vm.kv| / 8, n, i);
      assert Takes(vm.kv, n, SetRange(vm.kv, i, n, true));
    }
    if kv :| Takes(vm.kv, n, kv) {
      var i :| FirstFit(vm.kv, n, i) && 0 <= i && i + n <= |vm.kv| && kv == SetRange(vm.kv, i, n, true);
      assert n <= Supply(vm.kp) ==> Enough(vm, Kernel, cur, i, n);
    }
  }

  lemma Sum(a: set<Use>, b: set<Use>, c: set<Use>, d: set<Use>)
    ensures a + (b + c + d) == a + b + c + d
  {
  }

  /** There is room for a process: a page for its PCB, pages for its bitmap, a page for its directory,
      and frames for all of them. */
  ghost predicate Creates(vm: Vm) {
    && BITMAP_PAGES + 2 <= Supply(vm.kp)
    && exists a, b, c :: Takes(vm.kv, 1, a) && Takes(a, BITMAP_PAGES, b) && Takes(b, 1, c)
  }

  /** The three requests in turn, as far as they come. */
  lemma CreatesSteps(vm: Vm, a: seq<bool>, b: seq<bool>)
    ensures Creates(vm) ==> 1 <= Supply(vm.kp) && exists x :: Takes(vm.kv, 1, x)
    ensures Takes(vm.kv, 1, a) ==>
      (Creates(vm) ==> BITMAP_PAGES <= Supply(vm.kp) - 1 && exists x :: Takes(a, BITMAP_PAGES, x))
    ensures Takes(vm.kv, 1, a) && Takes(a, BITMAP_PAGES, b) ==>
      (Creates(vm) <==> 1 <= Supply(vm.kp) - 1 - BITMAP_PAGES && exists x :: Takes(b, 1, x))
  {
    hide Takes, Supply;
    if x, y, z :| Takes(vm.kv, 1, x) && Takes(x, BITMAP_PAGES, y) && Takes(y, 1, z) {
      if Takes(vm.kv, 1, a) {
        TakesUnique(vm.kv, 1, x, a);
        if Takes(a, BITMAP_PAGES, b) { TakesUnique(a, BITMAP_PAGES, y, b); }
      }
    }
  }

  /** pcb is a page that get_kernel_pages gave. */
  predicate Home(pcb: int, taken: set<Use>) {
    pcb % 0x1000 == 0 && 0xc010_0000 <= pcb && KPage(PageNo(Kernel, pcb)) in taken
  }

  /** The descriptors at descs miss those in the PCB at pcb. */
  ghost predicate Clear(descs: int, pcb: int) {
    Disjoint(descs, descs + DESCS_BYTES, pcb + U_DESCS, pcb + U_DESCS + DESCS_BYTES)
  }

  lemma HomePlaced(m: PageManager, pcb: int, w: Words, taken: set<Use>, more: set<Use>, f: int)
    requires Home(pcb, taken) && HasWords(w, pcb, pcb + 0x1000) && f != BOOT_DIR
    ensures Placed(pcb + U_DESCS, Low(User), HeapEnd(m, User)) && 0xc000_0000 <= pcb + U_DESCS
    ensures HasWords(w, pcb + U_DESCS, pcb + U_DESCS + DESCS_BYTES)
    ensures AtHome(Site(f, pcb + U_DESCS, EmptyHeap()), taken + more)
  {
    assert (pcb + U_DESCS) % 0x1000 == U_DESCS && (pcb + U_DESCS) / 0x1000 == pcb / 0x1000;
    assert (pcb + U_DESCS) % 4 == 0;
  }

  lemma FitIsClear(v: seq<bool>, i: int)
    requires FirstFit(v, 1, i)
    ensures 0 <= i < |v| && !v[i]
  {
  }

  lemma SameKept(w: Words)
    ensures AllKept(w, w)
  {
  }

  lemma NewAccounts(a: Vm, taken: set<Use>, k: int, sites: map<int, Site>, b: Vm, f: int)
    requires AllFine(a, taken, sites) && f !in a.uv && b.uv == a.uv[f := seq(U_PAGES, _ => false)]
    ensures Account(VBits(b, User, f), taken + {KPage(k)}, User, f, EmptyHeap())
  {
    hide Fine, Account;
    NewAccount(b, taken + {KPage(k)}, f);
  }

  lemma SameHome(vm: Vm, taken: set<Use>, sites: map<int, Site>, s: int, y: Site)
    requires AllFine(vm, taken, sites) && s in sites && y.space == s && y.descs == sites[s].descs
    ensures AtHome(y, taken) && forall t :: t in sites ==> sites[t].space == t
  {
    hide HeapInv, View, Account;
    assert Fine(vm, taken, sites[s]);
  }

  lemma TellsKeys(vm: Vm, sites: map<int, Site>, ideals: map<int, Ideal>)
    requires Tells(vm, sites, ideals)
    ensures ideals.Keys == sites.Keys
  {
  }

  lemma TellsAll(a: Vm, b: Vm, sites: map<int, Site>, ideals: map<int, Ideal>)
    requires Tells(a, sites, ideals) && forall s :: s in sites ==> Shows(View(b, s), sites[s].h, ideals[s])
    ensures Tells(b, sites, ideals)
  {
    hide View, Shows;
  }

  lemma TellsOne(vm: Vm, sites: map<int, Site>, ideals: map<int, Ideal>, s: int, x: Site, i: Ideal)
    requires ideals.Keys == sites.Keys && x.space == s && Shows(View(vm, s), x.h, i)
    requires forall t :: t in sites && t != s ==> Shows(View(vm, t), sites[t].h, ideals[t])
    ensures Tells(vm, sites[s := x], ideals[s := i])
  {
    hide View, Shows;
  }

  /** The account of a heap that has just begun. */
  lemma NewAccount(b: Vm, taken: set<Use>, f: int)
    requires f in b.uv && b.uv[f] == seq(U_PAGES, _ => false) && forall i :: UPage(f, i) !in taken
    ensures Account(VBits(b, User, f), taken, User, f, EmptyHeap())
  {
  }

  lemma NoBoot(vm: Vm)
    requires Agree(vm)
    ensures BOOT_DIR !in vm.uv
  {
    FramesApart(vm);
  }

  /** The pages of a new process: its PCB, its bitmap and its directory. */
  function ProcessPages(cur: int, pcb: int, q: int, v: int): set<Use> {
    KPages(cur, pcb, 1) + KPages(cur, q, BITMAP_PAGES) + {KPage(PageNo(Kernel, v))}
  }

  /** They are as many as it takes: 23 hold the bitmap. */
  lemma ProcessCount(cur: int, pcb: int, q: int, v: int)
    requires KPages(cur, pcb, 1) !! KPages(cur, q, BITMAP_PAGES)
    requires KPage(PageNo(Kernel, v)) !in KPages(cur, pcb, 1) + KPages(cur, q, BITMAP_PAGES)
    ensures |ProcessPages(cur, pcb, q, v)| == 25 && HoldBitmap(23, U_PAGES / 8)
  {
    KPagesCount(cur, pcb, 1);
    KPagesCount(cur, q, BITMAP_PAGES);
  }

  /** Room for a process is 25 frames and, one after the other, windows of 1, 23 and 1 kernel pages. */
  lemma CreatesIs(vm: Vm)
    ensures Creates(vm) <==>
      25 <= Supply(vm.kp) && exists a, b, c :: Takes(vm.kv, 1, a) && Takes(a, 23, b) && Takes(b, 1, c)
  {
    hide Supply, Takes;
  }

  // With every heap empty.

  function UseOf(p: Page): Use { if p.pf == Kernel then KPage(p.i) else UPage(p.s, p.i) }

  /** Frame f backs a page that get_kernel_pages, get_user_pages or get_a_page gave. */
  ghost predicate BacksTaken(vm: Vm, taken: set<Use>, f: int) {
    exists p :: Managed(vm, p) && UseOf(p) in taken && Mapped(vm, p) == Some(f)
  }

  /** The pages mapped are those in taken, and the frames in use are theirs and those of user page tables. */
  ghost predicate NothingLost(vm: Vm, taken: set<Use>) {
    && (forall p :: Managed(vm, p) ==> (Bit(vm, p) <==> UseOf(p) in taken) && (Bit(vm, p) <==> Mapped(vm, p).Some?))
    && (forall j :: 0 <= j < |vm.kp| ==>
      (vm.kp[j] <==> BacksTaken(vm, taken, vm.kstart + j) || IsUserTable(vm, vm.kstart + j)))
    && (forall j :: 0 <= j < |vm.up| ==> (vm.up[j] <==> BacksTaken(vm, taken, vm.ustart + j)))
  }

  /** All free lists are empty. */
  ghost predicate NothingFree(h: Heap) {
    |h.free| == CLASSES && forall k :: 0 <= k < CLASSES ==> h.free[k] == []
  }

  lemma OnlyTaken(vm: Vm, taken: set<Use>)
    requires Agree(vm) && forall p :: Managed(vm, p) ==> (Bit(vm, p) <==> UseOf(p) in taken)
    ensures NothingLost(vm, taken)
  {
    hide Agree, Managed, Bit, Mapped, UseOf, IsUserTable;
    forall p | Managed(vm, p) ensures Bit(vm, p) <==> Mapped(vm, p).Some? { BitIffPresent(vm, p); }
    FrameBits(vm);
    forall f ensures Backs(vm, f) <==> BacksTaken(vm, taken, f) {}
  }

  lemma EmptyHeaps(vm: Vm, taken: set<Use>, sites: map<int, Site>)
    requires Agree(vm) && AllFine(vm, taken, sites) && sites.Keys == vm.uv.Keys + {BOOT_DIR}
    requires forall s :: s in sites ==> sites[s].h.live == map[]
    ensures NothingLost(vm, taken)
    ensures forall s :: s in sites ==> NothingFree(sites[s].h)
  {
    hide Agree, HeapInv, View, AtHome, Account, NothingLost;
    forall s | s in sites
      ensures NothingFree(sites[s].h)
      ensures var bits := VBits(vm, HalfOf(s), s);
        forall i :: 0 <= i < |bits| ==> (bits[i] <==> PageUse(HalfOf(s), s, i) in taken)
    {
      var x := sites[s];
      assert Fine(vm, taken, x);
      NoLeak(View(vm, s), x.descs, VBits(vm, HalfOf(s), s), taken, HalfOf(s), s, x.h, Low(HalfOf(s)), SiteEnd(vm, s));
    }
    NoBoot(vm);
    forall p | Managed(vm, p) ensures Bit(vm, p) <==> UseOf(p) in taken {
      assert p.s in sites && HalfOf(p.s) == p.pf;
    }
    OnlyTaken(vm, taken);
  }

  /** What a call may give in world w: new memory, new pages, a new address space; NULL for a size
      beyond the pool and for no other. */
  ghost predicate Fair(w: World, a: Act, r: Got, pool: int)
    requires Allowed(w, a)
  {
    match a
    case On(op) =>
      && r.pages == {}
      && (op.Malloc? ==> (r.p == 0 <==> op.size > pool) && (r.p != 0 ==> Fresh(w.heaps[w.cur], r.p, op.size)))
    case Switch(_) => r.pages == {}
    case Take(pf, n) => r.pages == Range(pf, w.cur, PageNo(pf, r.p), PageNo(pf, r.p) + n) && r.pages !! w.taken
    case TakeAt(pf, v) => r.pages == {PageUse(pf, w.cur, PageNo(pf, v))} && r.pages !! w.taken
    case Execute =>
      && r.p !in w.heaps && r.pages !! w.taken && HoldBitmap(|r.pages| - 2, U_PAGES / 8)
      && exists pcb, q, v :: r.pages == ProcessPages(w.cur, pcb, q, v)
  }

  /** The call can be served: whatever it needs is there. */
  ghost predicate Served(vm: Vm, sites: map<int, Site>, cur: int, a: Act, pool: int)
    requires cur in sites && IsSpace(vm, cur) && |sites[cur].h.free| == CLASSES
    requires a.Take? && a.pf == User ==> cur in vm.uv
  {
    match a
    case On(op) => op.Malloc? ==> Serves(vm, HalfOf(cur), cur, sites[cur].h, pool, op.size)
    case Switch(_) => true
    case Take(pf, n) => 0 < n < 3840 && Available(vm, pf, cur, n)
    case TakeAt(pf, v) => PageStop(vm, cur, pf, v) == Running
    case Execute => Creates(vm)
  }

  /** Act by act: stores, sys_free of a live pointer and switches always; the calls that need memory
      under the conditions of the pages they ask for, whoever runs. */
  lemma ServedIs(vm: Vm, sites: map<int, Site>, cur: int, pool: int)
    requires cur in sites && IsSpace(vm, cur) && |sites[cur].h.free| == CLASSES
    ensures forall size: nat :: Served(vm, sites, cur, On(Malloc(size)), pool) <==>
      Serves(vm, if cur == BOOT_DIR then Kernel else User, cur, sites[cur].h, pool, size)
    ensures forall p :: Served(vm, sites, cur, On(Free(p)), pool)
    ensures forall v, x :: Served(vm, sites, cur, On(Poke(v, x)), pool)
    ensures forall s :: Served(vm, sites, cur, Switch(s), pool)
    ensures forall n: nat :: Served(vm, sites, cur, Take(Kernel, n), pool) <==>
      0 < n < 3840 && Available(vm, Kernel, cur, n)
    ensures cur in vm.uv ==> forall n: nat :: Served(vm, sites, cur, Take(User, n), pool) <==>
      0 < n < 3840 && Available(vm, User, cur, n)
    ensures forall pf, v :: Served(vm, sites, cur, TakeAt(pf, v), pool) <==> PageStop(vm, cur, pf, v) == Running
    ensures Served(vm, sites, cur, Execute, pool) <==> Creates(vm)
  {
    hide Creates, PageStop, Available, Serves;
  }

  lemma NodesOf(al: Allocator)
    requires al.Valid()
    ensures |al.h.free| == CLASSES
  {
    hide PageManager.Valid, PageManager.Snap, Account, Stored, Partial, Pages, Split, Live;
  }

  // What an act does to the page layer and to the heaps.

  /** An operation on the heap of cur does so to that heap and to no other. */
  ghost predicate HeapMoves(a: Vm, sites: map<int, Site>, b: Vm, sites': map<int, Site>, cur: int, op: Op, p: int,
                            pool: int)
    requires cur in sites && |sites[cur].h.free| == CLASSES
  {
    && cur in sites' && sites' == sites[cur := sites[cur].(h := sites'[cur].h)]
    && var h, h' := sites[cur].h, sites'[cur].h;
      match op
      case Malloc(size) => MallocMoves(a, h, b, h', HalfOf(cur), cur, pool, size, p)
      case Free(q) => FreeMoves(a, h, b, h', HalfOf(cur), cur, q)
      case Poke(v, x) => SamePages(a, b) && h' == h && View(b, cur) == View(a, cur)[v := x]
  }

  /** One kernel page has been mapped, and the frame behind it is the directory of a new space with no
      pages. */
  ghost predicate NewDirectory(a: Vm, b: Vm, cur: int, f: int, i: int) {
    && TookFirst(a, b.(uv := a.uv), Kernel, cur, i, 1)
    && f !in a.uv && b.uv == a.uv[f := seq(U_PAGES, _ => false)] && Owns(b, f, KPage(i))
  }

  lemma DirectoryMade(a: Vm, b: Vm, c: Vm, cur: int, f: int, i: int)
    requires Grew(a, b, Kernel, cur, i, i + 1, false) && Spent(a, b, Kernel, cur, i, 1) && FirstFit(a.kv, 1, i)
    requires c == b.(mem := c.mem, uv := c.uv) && b.uv == a.uv && f !in a.uv && Owns(b, f, KPage(i))
    requires c.uv == a.uv[f := seq(U_PAGES, _ => false)]
    ensures NewDirectory(a, c, cur, f, i)
  {
    hide Extends, View, Isolated, Elsewhere, FirstFit, SetRange, Supply;
  }

  lemma DirectoryStays(a: Vm, b: Vm, c: Vm, cur: int, f: int, i: int)
    requires NewDirectory(a, b, cur, f, i) && SamePages(b, c)
    ensures NewDirectory(a, c, cur, f, i)
  {
    hide FirstFit, SetRange, Supply;
  }

  /** A PCB, a bitmap and a directory have been made, and a heap with descriptors in the PCB. */
  ghost predicate Founded(a: Vm, sites: map<int, Site>, b: Vm, sites': map<int, Site>, cur: int, r: Got) {
    exists x, y, pcb, q, v ::
      && TookFirst(a, x, Kernel, cur, PageNo(Kernel, pcb), 1)
      && TookFirst(x, y, Kernel, cur, PageNo(Kernel, q), BITMAP_PAGES)
      && NewDirectory(y, b, cur, r.p, PageNo(Kernel, v))
      && sites' == sites[r.p := Site(r.p, pcb + U_DESCS, EmptyHeap())] && r.pages == ProcessPages(cur, pcb, q, v)
  }

  lemma IsFounded(a: Vm, sites: map<int, Site>, x: Vm, y: Vm, b: Vm, sites': map<int, Site>, cur: int, r: Got,
                  pcb: int, q: int, v: int)
    requires TookFirst(a, x, Kernel, cur, PageNo(Kernel, pcb), 1)
    requires TookFirst(x, y, Kernel, cur, PageNo(Kernel, q), BITMAP_PAGES)
    requires NewDirectory(y, b, cur, r.p, PageNo(Kernel, v)) && r.pages == ProcessPages(cur, pcb, q, v)
    requires sites' == sites[r.p := Site(r.p, pcb + U_DESCS, EmptyHeap())]
    ensures Founded(a, sites, b, sites', cur, r)
  {
    hide TookFirst, NewDirectory, PageNo, ProcessPages, EmptyHeap;
  }

  ghost predicate ActMoves(a: Vm, sites: map<int, Site>, b: Vm, sites': map<int, Site>, cur: int, act: Act, r: Got,
                           pool: int)
  {
    && cur in sites && |sites[cur].h.free| == CLASSES
    && match act
      case On(op) => HeapMoves(a, sites, b, sites', cur, op, r.p, pool)
      case Switch(_) => b == a && sites' == sites
      case Take(pf, n) =>
        && sites' == sites && TookFirst(a, b, pf, cur, PageNo(pf, r.p), n)
        && ZeroPages(View(a, cur), View(b, cur), r.p, n)
      case TakeAt(pf, v) => sites' == sites && Took(a, b, pf, cur, PageNo(pf, v), 1)
      case Execute => Founded(a, sites, b, sites', cur, r)
  }

  lemma CallMoves(a: Vm, sites: map<int, Site>, b: Vm, cur: int, act: Act, r: Got, pool: int)
    requires cur in sites && |sites[cur].h.free| == CLASSES
    requires match act
      case Switch(_) => b == a
      case Take(pf, n) =>
        TookFirst(a, b, pf, cur, PageNo(pf, r.p), n) && ZeroPages(View(a, cur), View(b, cur), r.p, n)
      case TakeAt(pf, v) => Took(a, b, pf, cur, PageNo(pf, v), 1)
      case _ => false
    ensures ActMoves(a, sites, b, sites, cur, act, r, pool)
  {
    hide TookFirst, Took, ZeroPages, View, PageNo;
  }

  lemma ProcessMoves(a: Vm, sites: map<int, Site>, b: Vm, sites': map<int, Site>, cur: int, r: Got, pool: int)
    requires cur in sites && |sites[cur].h.free| == CLASSES && Founded(a, sites, b, sites', cur, r)
    ensures ActMoves(a, sites, b, sites', cur, Execute, r, pool)
  {
    hide Founded;
  }

  // Runs.

  /** The system between two acts: the page layer, the heaps, and the world they show. */
  datatype Shot = Shot(vm: Vm, sites: map<int, Site>, w: World)

  ghost predicate Coherent(s: Shot) {
    && Agree(s.vm) && AllFine(s.vm, s.w.taken, s.sites) && Tells(s.vm, s.sites, s.w.heaps)
    && s.w.cur in s.sites && IsSpace(s.vm, s.w.cur) && |s.sites[s.w.cur].h.free| == CLASSES
  }

  /** The act, allowed in s, can be served there. */
  ghost predicate CanServe(s: Shot, a: Act, kernelPool: int, userPool: int)
    requires Coherent(s) && Allowed(s.w, a)
  {
    Served(s.vm, s.sites, s.w.cur, a, if s.w.cur == BOOT_DIR then kernelPool else userPool)
  }

  /** The act, which is allowed and can be served in s, gets r and leads to t. */
  ghost predicate Link(s: Shot, a: Act, r: Got, t: Shot, kernelPool: int, userPool: int) {
    var pool := if s.w.cur == BOOT_DIR then kernelPool else userPool;
    && Coherent(s) && Allowed(s.w, a) && CanServe(s, a, kernelPool, userPool)
    && Coherent(t) && t.w == Next(s.w, a, r) && Fair(s.w, a, r, pool)
    && ActMoves(s.vm, s.sites, t.vm, t.sites, s.w.cur, a, r, pool)
  }

  lemma IsLink(s: Shot, a: Act, r: Got, t: Shot, kp: int, up: int)
    requires Coherent(s) && Coherent(t) && Allowed(s.w, a) && t.w == Next(s.w, a, r)
    requires var pool := if s.w.cur == BOOT_DIR then kp else up;
      && Served(s.vm, s.sites, s.w.cur, a, pool) && Fair(s.w, a, r, pool)
      && ActMoves(s.vm, s.sites, t.vm, t.sites, s.w.cur, a, r, pool)
    ensures Link(s, a, r, t, kp, up)
  {
    hide Coherent, Allowed, Next, Served, Fair, ActMoves;
  }

  /** The states the run of acts goes through, one after the other. */
  ghost predicate Linked(trail: seq<Shot>, acts: seq<Act>, gots: seq<Got>, kernelPool: int, userPool: int) {
    && |trail| == |acts| + 1 && |gots| == |acts|
    && forall i :: 0 <= i < |acts| ==> Link(trail[i], acts[i], gots[i], trail[i + 1], kernelPool, userPool)
  }

  lemma NoLinks(s: Shot, kp: int, up: int)
    ensures Linked([s], [], [], kp, up)
  {
  }

  lemma LinkedNext(trail: seq<Shot>, acts: seq<Act>, gots: seq<Got>, a: Act, r: Got, t: Shot, kp: int, up: int)
    requires Linked(trail, acts, gots, kp, up) && Link(trail[|acts|], a, r, t, kp, up)
    ensures Linked(trail + [t], acts + [a], gots + [r], kp, up)
  {
    hide Link;
  }

  class System {
    const m: PageManager
    const kernelPool: int  // pool_size of each pool
    const userPool: int
    var heaps: map<int, Allocator> // by directory; the kernel's under the boot directory

    /** The system with the kernel's heap alone. */
    constructor (m: PageManager, kernel: Allocator, kernelPool: int, userPool: int)
      requires m.Valid() && m.cur == BOOT_DIR && m.uv == map[] && m.taken == {}
      requires kernel.m == m && kernel.pf == Kernel && kernel.space == BOOT_DIR && kernel.poolSize == kernelPool
      requires kernel.Sound() && kernel.h == EmptyHeap() && AtHome(Site(BOOT_DIR, kernel.descs, EmptyHeap()), {})
      requires 0 <= kernelPool <= 0x800_0000 && 0 <= userPool <= 0x800_0000
      ensures Valid() && Shown(World(BOOT_DIR, map[BOOT_DIR := Ideal(map[], map[])], {}))
      ensures this.m == m && heaps == map[BOOT_DIR := kernel]
      ensures this.kernelPool == kernelPool && this.userPool == userPool
    {
      hide Agree, View, HeapInv, Account, AllFine, Fine, Tells, AtHome, EmptyHeap, Allocator.Sound;
      hide PageManager.Valid, PageManager.Snap, PageManager.Arrays;
      this.m, this.kernelPool, this.userPool, this.heaps := m, kernelPool, userPool, map[BOOT_DIR := kernel];
      new;
      NotAnArray();
      SoundIsFine(BOOT_DIR);
      FirstSite(m.Snap(), Sites()[BOOT_DIR]);
      SitesStay(map[BOOT_DIR := Sites()[BOOT_DIR]]);
    }

    function PoolSize(space: int): int { if space == BOOT_DIR then kernelPool else userPool }

    /** The heap of the running thread. */
    function Current(): Allocator
      requires m.cur in heaps
      reads this, m`cur
    {
      heaps[m.cur]
    }

    ghost function Heaps(): set<object>
      reads this
    {
      set s | s in heaps :: heaps[s]
    }

    /** The objects behind the system, but for itself and the page layer. */
    ghost function Repr(): set<object>
      reads this, m`uv
    {
      ReprOf(heaps, m.uv)
    }

    ghost function ReprOf(hs: map<int, Allocator>, uv: map<int, Bitmap>): set<object> {
      {m.kp.bits, m.up.bits, m.kv.bits} + (set s | s in uv :: uv[s].bits) + (set s | s in hs :: hs[s])
    }

    lemma ReprGrows(hs: map<int, Allocator>, uv: map<int, Bitmap>, f: int, al: Allocator, bits: Bitmap)
      ensures ReprOf(hs[f := al], uv[f := bits]) <= ReprOf(hs, uv) + {al, bits.bits}
    {
    }

    ghost function Sites(): (sites: map<int, Site>)
      reads this, Heaps()
      ensures sites.Keys == heaps.Keys
      ensures forall s :: s in heaps ==> sites[s] == Site(heaps[s].space, heaps[s].descs, heaps[s].h)
    {
      map s | s in heaps :: Site(heaps[s].space, heaps[s].descs, heaps[s].h)
    }

    lemma NotAnArray()
      ensures m !in Heaps() && m !in m.Arrays() && this !in m.Arrays()
    {
    }

    /** The heaps are those of the address spaces there are. */
    ghost predicate Wired()
      reads this, m`uv
    {
      WiredTo(heaps, m.uv.Keys) && 0 <= kernelPool <= 0x800_0000 && 0 <= userPool <= 0x800_0000
    }

    ghost predicate WiredTo(hs: map<int, Allocator>, spaces: set<int>) {
      && hs.Keys == spaces + {BOOT_DIR}
      && forall s :: s in hs ==>
        hs[s].m == m && hs[s].space == s && hs[s].pf == HalfOf(s) && hs[s].poolSize == PoolSize(s)
    }

    lemma HeapKeys()
      requires Wired()
      ensures heaps.Keys == m.uv.Keys + {BOOT_DIR} && WiredTo(heaps, m.uv.Keys)
      ensures 0 <= kernelPool <= 0x800_0000 && 0 <= userPool <= 0x800_0000
    {
    }

    ghost predicate Valid()
      reads this, m, m.Arrays(), Heaps()
    {
      m.Valid() && Wired() && AllFine(m.Snap(), m.taken, Sites())
    }

    /** Memory holds the ideal heaps. */
    ghost predicate Shown(w: World)
      reads this, m, m.Arrays(), Heaps()
    {
      w.cur == m.cur && w.taken == m.taken && Tells(m.Snap(), Sites(), w.heaps)
    }

    lemma SoundIsFine(s: int)
      requires m.Valid() && Wired() && s in heaps
      ensures IsSpace(m.Snap(), s)
      ensures heaps[s].High() == SiteEnd(m.Snap(), s)
      ensures AtHome(Sites()[s], m.taken) ==> (heaps[s].Sound() <==> Fine(m.Snap(), m.taken, Sites()[s]))
    {
      hide Agree, HeapInv, View, Account;
      m.Agrees();
      m.SnapFields(Kernel);
      LayoutOf(m.Snap());
      m.UserDirs();
    }

    /** What holds before an operation of the running thread. */
    lemma Before(w: World)
      requires Valid() && Shown(w)
      ensures m.Valid() && Wired() && AllFine(m.Snap(), m.taken, Sites()) && Tells(m.Snap(), Sites(), w.heaps)
      ensures Agree(m.Snap()) && Away(m.Snap(), m.cur, m.elsewhere, m.pgdir)
      ensures m.cur in heaps && m.cur in w.heaps && w.cur == m.cur && w.taken == m.taken
      ensures var al := heaps[m.cur];
        && al.m == m && al.space == m.cur && al.pf == HalfOf(m.cur) && al.poolSize == PoolSize(m.cur)
        && al.Valid() && Shows(al.m.Memory(), al.h, w.heaps[m.cur])
      ensures m.Memory() == View(m.Snap(), m.cur) && IsSpace(m.Snap(), m.cur)
      ensures m.Snap().uv.Keys == m.uv.Keys && (m.cur == BOOT_DIR <==> m.cur !in m.uv)
      ensures forall s :: s in heaps && s != m.cur ==> heaps[s] != heaps[m.cur]
    {
      hide Agree, HeapInv, View, Account, Shows, Fine, AtHome;
      m.Agrees();
      m.MemoryIs();
      m.SnapFields(Kernel);
      m.UserDirs();
      AtHomeOf(m.Snap(), m.taken, Sites()[m.cur]);
      SoundIsFine(m.cur);
      heaps[m.cur].SoundHere();
    }

    /** The address spaces there are. */
    lemma Spaces(w: World, s: int)
      requires Valid() && Shown(w) && s in w.heaps
      ensures s in heaps && (s == BOOT_DIR || s in m.Snap().uv)
    {
      hide PageManager.Valid, AllFine;
      m.SnapFields(Kernel);
    }

    lemma AtHomeOf(vm: Vm, taken: set<Use>, x: Site)
      requires Fine(vm, taken, x)
      ensures AtHome(x, taken)
    {
      hide HeapInv, View, Account;
    }

    /** The heap of the running thread has changed, and nothing that others see. */
    lemma Joined(a: Vm, sites: map<int, Site>, w: World, op: Op, p: int)
      requires Agree(a) && AllFine(a, m.taken, sites) && Away(a, m.cur, m.elsewhere, m.pgdir)
      requires Wired() && m.cur in heaps && sites.Keys == heaps.Keys && a.uv.Keys == m.Snap().uv.Keys
      requires BitsKept(a, m.Snap(), HalfOf(m.cur), m.cur) && heaps[m.cur].Valid()
      requires forall s :: s in heaps && s != m.cur ==> heaps[s].h == sites[s].h
      requires forall s :: s in heaps ==> heaps[s].descs == sites[s].descs
      requires OutsideKept(View(a, m.cur), m.Memory(), sites[m.cur].descs, sites[m.cur].h)
      requires w.cur == m.cur && w.taken == m.taken && Tells(a, sites, w.heaps) && Allowed(w, On(op))
      requires Shows(m.Memory(), heaps[m.cur].h, Step(w.heaps[m.cur], op, p))
      ensures Valid() && Shown(Next(w, On(op), Got(p, {}))) && Sites() == sites[m.cur := Sites()[m.cur]]
    {
      hide Agree, HeapInv, View, Account, Step, Shows, Legal, OutsideKept, BitsKept, Undisturbed, Fine, AtHome;
      hide AllFine, Away, HalvesKept, PageManager.Snap, PageManager.Memory, PageManager.Valid, Tells;
      var b, cur := m.Snap(), m.cur;
      var x := Sites()[cur];
      m.MemoryIs();
      heaps[cur].SoundHere();
      m.Agrees();
      AwayKept(a, b, cur, m.elsewhere, m.elsewhere, m.pgdir, m.pgdir);
      SameHome(a, m.taken, sites, cur, x);
      SoundIsFine(cur);
      HeapOpKeeps(a, b, m.taken, sites, cur, x);
      SitesAre(sites, cur);
      AllTold(a, b, m.taken, sites, w.heaps, {cur});
      TellsKeys(a, sites, w.heaps);
      TellsOne(b, sites, w.heaps, cur, x, Step(w.heaps[cur], op, p));
    }

    lemma SitesStay(sites: map<int, Site>)
      requires sites.Keys == heaps.Keys
      requires forall s :: s in heaps ==> sites[s] == Site(heaps[s].space, heaps[s].descs, heaps[s].h)
      ensures Sites() == sites
    {
      var x := Sites();
      assert forall u :: u in x <==> u in sites;
      assert forall u :: u in x ==> x[u] == sites[u];
    }

    lemma SitesAre(sites: map<int, Site>, cur: int)
      requires heaps.Keys == sites.Keys + {cur} && forall s :: s in sites && s != cur ==> Sites()[s] == sites[s]
      ensures Sites() == sites[cur := Sites()[cur]]
    {
      var x, y := Sites(), sites[cur := Sites()[cur]];
      assert forall u :: u in x <==> u in y;
      assert forall u :: u in x ==> x[u] == y[u];
    }

    /** From the page layer a and the heaps in sites, the act of the running thread has led here. */
    ghost predicate Moved(a: Vm, sites: map<int, Site>, act: Act, r: Got)
      reads this, m, m.Arrays(), Heaps()
    {
      ActMoves(a, sites, m.Snap(), Sites(), m.cur, act, r, PoolSize(m.cur))
    }

    /** sys_malloc by the running thread. */
    method OnMalloc(size: nat, ghost w: World) returns (stop: Stop, p: int)
      requires Valid() && Shown(w)
      modifies m`mem, m`owner, m.kp.bits, m.up.bits, m.Virtual(HalfOf(m.cur)).bits, Current()`h
      ensures stop == Running <==>
        old(Serves(m.Snap(), HalfOf(m.cur), m.cur, Sites()[m.cur].h, PoolSize(m.cur), size))
      ensures stop == Running ==>
        Valid() && Allowed(w, On(Malloc(size))) && Shown(Next(w, On(Malloc(size)), Got(p, {})))
      ensures stop == Running ==> (p == 0 <==> size > PoolSize(m.cur)) && (p != 0 ==> Fresh(w.heaps[w.cur], p, size))
      ensures stop == Running ==> Moved(old(m.Snap()), old(Sites()), On(Malloc(size)), Got(p, {}))
    {
      hide Agree, HeapInv, View, Account, Step, Shows, OutsideKept, BitsKept, Fine, AtHome, AllFine, Away, Unpack;
      hide PageManager.Snap, PageManager.Valid, PageManager.Arrays, PageManager.Memory, Allocator.Valid, Serves, Fresh;
      hide Tells, Wired, Valid, Shown, Heaps, MallocMoves;
      Before(w);
      ghost var a, sites := m.Snap(), Sites();
      var al := heaps[m.cur];
      NodesOf(al);
      stop, p := MallocHere(al, size, w.heaps[m.cur]);
      if stop == Running {
        Joined(a, sites, w, Malloc(size), p);
      }
    }

    /** sys_free by the running thread. */
    method OnFree(p: int, ghost w: World)
      requires Valid() && Shown(w) && Allowed(w, On(Free(p)))
      modifies m`mem, m`owner, m.kp.bits, m.up.bits, m.Virtual(HalfOf(m.cur)).bits, Current()`h
      ensures Valid() && Shown(Next(w, On(Free(p)), Got(0, {})))
      ensures Moved(old(m.Snap()), old(Sites()), On(Free(p)), Got(0, {}))
    {
      hide Agree, HeapInv, View, Account, Step, Shows, OutsideKept, BitsKept, Fine, AtHome, AllFine, Away, Unpack;
      hide PageManager.Snap, PageManager.Valid, PageManager.Arrays, PageManager.Memory, Allocator.Valid;
      hide Tells, Wired, Valid, Shown, Heaps, FreeMoves;
      Before(w);
      ghost var a, sites := m.Snap(), Sites();
      NodesOf(heaps[m.cur]);
      FreeHere(heaps[m.cur], p, w.heaps[m.cur]);
      Joined(a, sites, w, Free(p), 0);
    }

    /** A store by the running thread to memory that sys_malloc gave it. */
    method OnPoke(v: int, x: int, ghost w: World)
      requires Valid() && Shown(w) && Allowed(w, On(Poke(v, x)))
      modifies m`mem
      ensures Valid() && Shown(Next(w, On(Poke(v, x)), Got(0, {})))
      ensures Moved(old(m.Snap()), old(Sites()), On(Poke(v, x)), Got(0, {}))
    {
      hide Agree, HeapInv, View, Account, Step, Shows, OutsideKept, BitsKept, Fine, AtHome, AllFine, Away, Unpack;
      hide PageManager.Snap, PageManager.Valid, PageManager.Arrays, PageManager.Memory, Allocator.Valid;
      hide Tells, Wired, Valid, Shown, Heaps;
      Before(w);
      ghost var a, sites := m.Snap(), Sites();
      NodesOf(heaps[m.cur]);
      PokeHere(heaps[m.cur], v, x, w.heaps[m.cur]);
      m.MemoryIs();
      Joined(a, sites, w, Poke(v, x), 0);
    }

    /** A store by the running thread to any other memory, such as its stack or a PCB: no heap and no
        client notices. */
    method OnStore(v: int, x: int, ghost w: World)
      requires Valid() && Shown(w) && v in m.Memory()
      requires forall s :: s in heaps ==> !Private(heaps[s].descs, heaps[s].h, v)
      modifies m`mem
      ensures Valid() && Shown(w) && m.Memory() == old(m.Memory())[v := x]
    {
      hide Agree, HeapInv, View, Account, Shows, Fine, AtHome, AllFine, Away, Tells, Private, HalvesKept, Undisturbed;
      hide PageManager.Snap, PageManager.Valid, PageManager.Arrays, PageManager.Memory, Allocator.Valid, Heaps, Sites;
      Before(w);
      NotAnArray();
      ghost var a, sites := m.Snap(), Sites();
      m.Write(v, x);
      m.Agrees();
      m.MemoryIs();
      AwayKept(a, m.Snap(), m.cur, m.elsewhere, m.elsewhere, m.pgdir, m.pgdir);
      StoreKeeps(a, m.Snap(), m.taken, sites, m.cur, v, x);
      SitesStay(sites);
      AllTold(a, m.Snap(), m.taken, sites, w.heaps, {});
      TellsAll(a, m.Snap(), sites, w.heaps);
    }

    /** schedule, when the next thread belongs to another address space: process_activate. */
    method SwitchTo(space: int, ghost w: World)
      requires Valid() && Shown(w) && Allowed(w, Switch(space))
      modifies m`cur, m`elsewhere
      ensures Valid() && Shown(Next(w, Switch(space), Got(0, {})))
      ensures m.Snap() == old(m.Snap()) && Sites() == old(Sites())
    {
      hide Agree, HeapInv, View, Account, Shows, Fine, AtHome, AllFine, Lookup, Away, PageNo;
      hide PageManager.Snap, PageManager.Valid, PageManager.Arrays, PageManager.Memory, Allocator.Valid, Tells;
      Before(w);
      Spaces(w, space);
      NotAnArray();
      if space == BOOT_DIR {
        m.PageDirActivate(None);
      } else {
        DirOf(m.Snap(), m.cur, m.elsewhere, m.pgdir, space);
        m.SnapMem();
        m.PageDirActivate(Some(m.pgdir[space]));
      }
    }

    /** Other callers have got pages: no heap and no client notices. */
    lemma Noticed(a: Vm, more: set<Use>, sites: map<int, Site>, w: World, e: map<int, Words>, d: map<int, int>)
      requires Agree(a) && AllFine(a, w.taken, sites) && Away(a, m.cur, e, d) && Tells(a, sites, w.heaps)
      requires m.Valid() && Granted(a, m.Snap(), more) && AllKept(View(a, m.cur), m.Memory())
      requires forall s :: s in a.uv && s in e ==> s in m.elsewhere && m.elsewhere[s] == e[s]
      requires m.taken == w.taken + more && w.cur == m.cur
      ensures AllFine(m.Snap(), m.taken, sites) && Tells(m.Snap(), sites, w.heaps)
      ensures sites.Keys == a.uv.Keys + {BOOT_DIR} ==> more !! w.taken
    {
      hide Agree, HeapInv, View, Account, Shows, Fine, AllFine, Undisturbed, AllKept, Granted, HalvesKept;
      m.Agrees();
      m.MemoryIs();
      GrantedSpaces(a, m.Snap(), more);
      AwayKept(a, m.Snap(), m.cur, e, m.elsewhere, d, m.pgdir);
      GrantKeeps(a, m.Snap(), w.taken, more, sites, m.cur);
      AllTold(a, m.Snap(), w.taken, sites, w.heaps, {});
      NoBoot(a);
      if sites.Keys == a.uv.Keys + {BOOT_DIR} { GrantIsFresh(a, m.Snap(), w.taken, more, sites); }
    }

    lemma Given(a: Vm, sites: map<int, Site>, w: World, e: map<int, Words>, d: map<int, int>, act: Act, got: Got)
      requires Agree(a) && AllFine(a, w.taken, sites) && Away(a, m.cur, e, d) && Tells(a, sites, w.heaps)
      requires m.Valid() && Wired() && sites == Sites() && a.uv.Keys == m.uv.Keys && e == m.elsewhere
      requires Granted(a, m.Snap(), got.pages) && AllKept(View(a, m.cur), m.Memory())
      requires m.taken == w.taken + got.pages && w.cur == m.cur && (act.Take? || act.TakeAt?) && Allowed(w, act)
      ensures Valid() && Shown(Next(w, act, got)) && got.pages !! w.taken
    {
      hide Agree, HeapInv, View, Account, Shows, Fine, AllFine, Undisturbed, AllKept, Granted, HalvesKept, Tells, Away;
      hide PageManager.Valid;
      Noticed(a, got.pages, sites, w, e, d);
    }

    /** get_kernel_pages or get_user_pages by the running thread. */
    method TakePages(pf: Half, n: nat, ghost w: World) returns (stop: Stop, p: int)
      requires Valid() && Shown(w) && Allowed(w, Take(pf, n)) && (pf == User ==> m.cur in m.uv)
      modifies m`mem, m`owner, m`taken, m.kp.bits, m.up.bits, m.Virtual(pf).bits
      ensures stop == Running <==> 0 < n < 3840 && old(Available(m.Snap(), pf, m.cur, n))
      ensures stop == Running ==>
        var pages := Range(pf, w.cur, PageNo(pf, p), PageNo(pf, p) + n);
        Valid() && pages !! w.taken && Shown(Next(w, Take(pf, n), Got(p, pages)))
      ensures stop == Running && pf == Kernel ==> Takes(old(m.Snap()).kv, n, m.Snap().kv)
      ensures stop == Running ==> TookFirst(old(m.Snap()), m.Snap(), pf, m.cur, PageNo(pf, p), n)
      ensures stop == Running ==> ZeroPages(old(m.Memory()), m.Memory(), p, n) && Sites() == old(Sites())
    {
      hide Agree, HeapInv, View, Account, Shows, Fine, AtHome, AllFine, Away, PageNo, Tells, Granted, AllKept, Grew;
      hide PageManager.Snap, PageManager.Valid, PageManager.Arrays, PageManager.Memory, Allocator.Valid, Available;
      hide Took, Takes, Wired, FirstFit, ZeroPages, Valid, Shown, Sites, Heaps, Range;
      Before(w);
      NotAnArray();
      ghost var a, e, d, sites := m.Snap(), m.elsewhere, m.pgdir, Sites();
      ghost var vm;
      stop, p, vm := GetPages(m, pf, n);
      if stop == Running {
        SitesStay(sites);
        GrewGranted(a, vm, m.mem, pf, m.cur, PageNo(pf, p), PageNo(pf, p) + n);
        ZeroKept(View(a, m.cur), m.Memory(), p, n);
        Given(a, sites, w, e, d, Take(pf, n), Got(p, Range(pf, w.cur, PageNo(pf, p), PageNo(pf, p) + n)));
        if pf == Kernel { GrewTakes(a, vm, m.cur, PageNo(Kernel, p), n); }
      }
    }

    /** get_a_page by the running thread, as start_process does for the stack. */
    method TakeOne(pf: Half, v: int, ghost w: World) returns (stop: Stop)
      requires Valid() && Shown(w) && Allowed(w, TakeAt(pf, v))
      modifies m`mem, m`owner, m`taken, m.kp.bits, m.up.bits
      modifies if pf == User && m.cur !in m.uv then {} else {m.Virtual(pf).bits}
      ensures (m.cur == BOOT_DIR || m.cur in old(m.Snap()).uv) && stop == PageStop(old(m.Snap()), m.cur, pf, v)
      ensures stop == Running ==>
        var pages := {PageUse(pf, w.cur, PageNo(pf, v))};
        Valid() && pages !! w.taken && Shown(Next(w, TakeAt(pf, v), Got(v, pages)))
      ensures stop == Running ==> Took(old(m.Snap()), m.Snap(), pf, m.cur, PageNo(pf, v), 1) && Sites() == old(Sites())
    {
      hide Agree, HeapInv, View, Account, Shows, Fine, AtHome, AllFine, Away, PageNo, Tells, Granted, AllKept, Grew;
      hide PageManager.Snap, PageManager.Valid, PageManager.Arrays, PageManager.Memory, Allocator.Valid, Spent;
      hide Heaps, Wired, Valid, Shown, Sites, Range, PageStop, Took;
      Before(w);
      NotAnArray();
      ghost var a, e, d, sites := m.Snap(), m.elsewhere, m.pgdir, Sites();
      PageStops(a, m.cur, pf, v);
      stop := m.GetAPage(pf, v);
      if stop == Running {
        SitesStay(sites);
        OneGranted(a, m.Snap(), pf, m.cur, PageNo(pf, v));
        TookGrew(a, m.Snap(), pf, m.cur, PageNo(pf, v), 1);
        GrewKept(a, m.Snap(), pf, m.cur, PageNo(pf, v), PageNo(pf, v) + 1);
        m.MemoryIs();
        Given(a, sites, w, e, d, TakeAt(pf, v), Got(v, {PageUse(pf, w.cur, PageNo(pf, v))}));
      }
    }

    /** The heap of a new process, whose descriptors have just been set up, joins the others. */
    lemma Born(b: Vm, sites: map<int, Site>, w: World, f: int, pcb: int, w': World)
      requires Agree(b) && AllFine(b, m.taken, sites) && Tells(b, sites, w.heaps)
      requires Away(b, m.cur, m.elsewhere, m.pgdir)
      requires m.Valid() && Wired() && f in heaps && f != BOOT_DIR && f !in sites && heaps[f].Sound()
      requires Sites() == sites[f := Site(f, pcb + U_DESCS, EmptyHeap())]
      requires forall s :: s in sites ==> Clear(sites[s].descs, pcb)
      requires AtHome(Site(f, pcb + U_DESCS, EmptyHeap()), m.taken) && m.Snap() == b.(mem := m.mem)
      requires OutsideKept(View(b, m.cur), m.Memory(), pcb + U_DESCS, EmptyHeap())
      requires w' == World(m.cur, w.heaps[f := Ideal(map[], map[])], m.taken)
      ensures Valid() && Shown(w') && f !in w.heaps
    {
      hide Agree, HeapInv, View, Account, Shows, Fine, AllFine, Undisturbed, HalvesKept, AtHome, EmptyHeap, Tells, Away;
      hide PageManager.Valid, PageManager.Memory, OutsideKept, Allocator.Sound;
      var c, x := m.Snap(), Site(f, pcb + U_DESCS, EmptyHeap());
      m.Agrees();
      m.MemoryIs();
      AwayKept(b, c, m.cur, m.elsewhere, m.elsewhere, m.pgdir, m.pgdir);
      SoundIsFine(f);
      InitKeeps(b, c, m.taken, sites, m.cur, x);
      AllTold(b, c, m.taken, sites, w.heaps, {});
      NewShown(View(c, f));
      TellsKeys(b, sites, w.heaps);
      TellsOne(c, sites, w.heaps, f, x, Ideal(map[], map[]));
    }

    /** What holds before a new address space comes. */
    lemma BeforeSpace(w: World)
      requires Valid() && Shown(w)
      ensures m.Valid() && Agree(m.Snap()) && Away(m.Snap(), m.cur, m.elsewhere, m.pgdir)
      ensures AllFine(m.Snap(), m.taken, Sites()) && Tells(m.Snap(), Sites(), w.heaps)
      ensures w.cur == m.cur && w.taken == m.taken && m.Memory() == View(m.Snap(), m.cur)
      ensures m.Snap().uv.Keys == m.uv.Keys && Sites().Keys == m.uv.Keys + {BOOT_DIR} && WiredTo(heaps, m.uv.Keys)
      ensures 0 <= kernelPool <= 0x800_0000 && 0 <= userPool <= 0x800_0000
    {
      hide Agree, View, AllFine, Tells, Away, WiredTo, Wired, PageManager.Valid, PageManager.Snap, PageManager.Memory;
      Before(w);
      HeapKeys();
    }

    /** create_page_dir: a directory whose process has no heap yet. */
    method NewSpace(bits: Bitmap, ghost w: World, ghost sites: map<int, Site>) returns (stop: Stop, v: int, f: int)
      requires Valid() && Shown(w) && sites == Sites() && bits.bits !in m.Arrays()
      requires bits.View() == seq(U_PAGES, _ => false)
      modifies m`mem, m`owner, m`uv, m`pgdir, m`elsewhere, m`taken, m.kp.bits, m.up.bits, m.kv.bits
      ensures stop == Running <==> old(Available(m.Snap(), Kernel, m.cur, 1))
      ensures stop == Running ==>
        && m.Valid() && m.Memory() == old(m.Memory()) && m.uv == old(m.uv)[f := bits] && f !in old(m.uv)
        && m.taken == w.taken + {KPage(PageNo(Kernel, v))} && KPage(PageNo(Kernel, v)) !in w.taken
        && AllFine(m.Snap(), m.taken, sites) && Tells(m.Snap(), sites, w.heaps)
        && m.Snap().uv.Keys == m.uv.Keys && Account(VBits(m.Snap(), User, f), m.taken, User, f, EmptyHeap())
      ensures stop == Running ==>
        WiredTo(heaps, old(m.uv).Keys) && w.cur == m.cur && 0 <= kernelPool <= 0x800_0000 && 0 <= userPool <= 0x800_0000
      ensures stop == Running ==> NewDirectory(old(m.Snap()), m.Snap(), m.cur, f, PageNo(Kernel, v))
    {
      hide Agree, HeapInv, View, Account, Shows, Fine, AtHome, AllFine, Away, PageNo, Tells, Granted, AllKept, Grew;
      hide PageManager.Snap, PageManager.Valid, PageManager.Arrays, PageManager.Memory, Allocator.Valid;
      hide Heaps, Wired, Valid, Shown, Sites, FirstFit, SetRange, Available, Walk, EmptyHeap, Spent, NewDirectory;
      hide WiredTo;
      BeforeSpace(w);
      ghost var a, e, d := m.Snap(), m.elsewhere, m.pgdir;
      ghost var vm;
      stop, v, f, vm := m.CreatePageDir(bits);
      if stop == Running {
        DirectoryMade(a, vm, m.Snap(), m.cur, f, PageNo(Kernel, v));
        Opened(a, sites, w, e, d, PageNo(Kernel, v), f);
      }
    }

    lemma Opened(a: Vm, sites: map<int, Site>, w: World, e: map<int, Words>, d: map<int, int>, i: int, f: int)
      requires Agree(a) && AllFine(a, w.taken, sites) && Away(a, m.cur, e, d) && Tells(a, sites, w.heaps)
      requires m.Valid() && FirstFit(a.kv, 1, i) && m.Snap().kv == SetRange(a.kv, i, 1, true)
      requires f !in a.uv && m.Snap().uv == a.uv[f := seq(U_PAGES, _ => false)]
      requires View(a, m.cur) == m.Memory() && m.elsewhere == e[f := map[]]
      requires m.taken == w.taken + {KPage(i)} && w.cur == m.cur && sites.Keys == a.uv.Keys + {BOOT_DIR}
      ensures AllFine(m.Snap(), m.taken, sites) && Tells(m.Snap(), sites, w.heaps) && KPage(i) !in w.taken
      ensures Account(VBits(m.Snap(), User, f), m.taken, User, f, EmptyHeap())
    {
      hide Agree, Account, AllFine, Away, Tells, Granted, AllKept, FirstFit, SetRange, EmptyHeap;
      hide PageManager.Snap, PageManager.Valid, PageManager.Arrays, PageManager.Memory;
      FitIsClear(a.kv, i);
      SpaceGranted(a, m.Snap(), i, f);
      SameKept(m.Memory());
      Noticed(a, {KPage(i)}, sites, w, e, d);
      NewAccounts(a, w.taken, i, sites, m.Snap(), f);
    }

    /** block_desc_init in the PCB at pcb. */
    method NewHeap(pcb: int, f: int, ghost spaces: set<int>) returns (al: Allocator)
      requires m.Valid() && f != BOOT_DIR && WiredTo(heaps, spaces) && m.uv.Keys == spaces + {f} && f !in spaces
      requires 0 <= kernelPool <= 0x800_0000 && 0 <= userPool <= 0x800_0000
      requires Placed(pcb + U_DESCS, Low(User), HeapEnd(m, User)) && 0xc000_0000 <= pcb + U_DESCS
      requires HasWords(m.Memory(), pcb + U_DESCS, pcb + U_DESCS + DESCS_BYTES)
      requires Account(VBits(m.Snap(), User, f), m.taken, User, f, EmptyHeap())
      modifies m`mem, this`heaps
      ensures fresh(al) && heaps == old(heaps)[f := al]
      ensures Sites() == old(Sites())[f := Site(f, pcb + U_DESCS, EmptyHeap())]
      ensures Wired() && f in heaps && heaps[f].Sound() && f !in old(Sites())
      ensures m.Valid() && m.Snap() == old(m.Snap()).(mem := m.mem)
      ensures OutsideKept(old(m.Memory()), m.Memory(), pcb + U_DESCS, EmptyHeap())
    {
      hide Account, Allocator.Sound, EmptyHeap, OutsideKept, Placed, HasWords, HeapEnd, Low, WiredTo, Wired;
      hide PageManager.Snap, PageManager.Valid, PageManager.Arrays, PageManager.Memory;
      ghost var sites, before := Sites(), heaps;
      al := new Allocator(m, User, f, pcb + U_DESCS, userPool);
      NotAnArray();
      SitesStay(sites);
      heaps := heaps[f := al];
      StillWired(before, spaces, f, al);
      SitesStay(sites[f := Site(f, pcb + U_DESCS, EmptyHeap())]);
    }

    lemma StillWired(before: map<int, Allocator>, spaces: set<int>, f: int, al: Allocator)
      requires WiredTo(before, spaces) && f != BOOT_DIR && f !in spaces
      requires heaps == before[f := al] && m.uv.Keys == spaces + {f}
      requires 0 <= kernelPool <= 0x800_0000 && 0 <= userPool <= 0x800_0000
      requires al.m == m && al.pf == User && al.space == f && al.poolSize == userPool
      ensures Wired() && heaps.Keys == before.Keys + {f} && f !in before
    {
    }

    /** block_desc_init for a directory whose process has no heap yet. */
    method NewProcess(pcb: int, f: int, ghost w: World, ghost spaces: set<int>, ghost more: set<Use>,
                      ghost sites: map<int, Site>)
      returns (al: Allocator)
      requires m.Valid() && AllFine(m.Snap(), m.taken, sites) && Tells(m.Snap(), sites, w.heaps)
      requires sites == Sites() && forall s :: s in sites ==> Clear(sites[s].descs, pcb)
      requires m.taken == w.taken + more && w.cur == m.cur && m.Snap().uv.Keys == m.uv.Keys
      requires WiredTo(heaps, spaces) && m.uv.Keys == spaces + {f} && f !in spaces
      requires 0 <= kernelPool <= 0x800_0000 && 0 <= userPool <= 0x800_0000
      requires Home(pcb, w.taken) && HasWords(m.Memory(), pcb, pcb + 0x1000)
      requires Account(VBits(m.Snap(), User, f), m.taken, User, f, EmptyHeap())
      modifies m`mem, this`heaps
      ensures fresh(al) && heaps == old(heaps)[f := al]
      ensures Valid() && f !in w.heaps && Shown(World(w.cur, w.heaps[f := Ideal(map[], map[])], m.taken))
      ensures SamePages(old(m.Snap()), m.Snap()) && Sites() == sites[f := Site(f, pcb + U_DESCS, EmptyHeap())]
    {
      hide Agree, HeapInv, View, Account, Shows, Fine, AtHome, AllFine, Away, PageNo, Tells, Clear, WiredTo;
      hide PageManager.Snap, PageManager.Valid, PageManager.Arrays, PageManager.Memory, Allocator.Valid;
      hide Allocator.Sound;
      hide Heaps, Sites, Available, EmptyHeap, OutsideKept, Placed, HasWords, Home, HeapEnd, Valid, Shown, Wired;
      m.Agrees();
      NoBoot(m.Snap());
      m.MemoryIs();
      ghost var b := m.Snap();
      HomePlaced(m, pcb, m.Memory(), w.taken, more, f);
      al := NewHeap(pcb, f, spaces);
      Born(b, sites, w, f, pcb, World(w.cur, w.heaps[f := Ideal(map[], map[])], m.taken));
    }

    /** create_page_dir and block_desc_init for the process whose PCB is the page at pcb. */
    method AddProcess(pcb: int, bits: Bitmap, ghost w: World)
      returns (stop: Stop, v: int, f: int, ghost born: set<object>)
      requires Valid() && Shown(w) && Home(pcb, w.taken) && HasWords(m.Memory(), pcb, pcb + 0x1000)
      requires bits.bits !in m.Arrays() && bits.View() == seq(U_PAGES, _ => false)
      requires forall s :: s in Sites() ==> Clear(Sites()[s].descs, pcb)
      modifies m`mem, m`owner, m`uv, m`pgdir, m`elsewhere, m`taken, m.kp.bits, m.up.bits, m.kv.bits, this`heaps
      ensures stop == Running <==> old(Available(m.Snap(), Kernel, m.cur, 1))
      ensures stop == Running ==>
        && Valid() && f !in w.heaps && KPage(PageNo(Kernel, v)) !in w.taken
        && Shown(World(w.cur, w.heaps[f := Ideal(map[], map[])], w.taken + {KPage(PageNo(Kernel, v))}))
      ensures stop == Running ==> fresh(born - {bits.bits}) && Repr() <= old(Repr()) + born
      ensures stop == Running ==>
        && NewDirectory(old(m.Snap()), m.Snap(), m.cur, f, PageNo(Kernel, v))
        && Sites() == old(Sites())[f := Site(f, pcb + U_DESCS, EmptyHeap())]
    {
      hide Agree, HeapInv, View, Account, Shows, Fine, AtHome, AllFine, Away, PageNo, Tells, Clear, WiredTo, ReprOf;
      hide PageManager.Snap, PageManager.Valid, PageManager.Arrays, PageManager.Memory, Allocator.Valid;
      hide Allocator.Sound;
      hide Heaps, Sites, Available, EmptyHeap, OutsideKept, Placed, HasWords, Home, HeapEnd, Valid, Shown, Wired;
      hide NewDirectory;
      ghost var a, spaces, sites := m.Snap(), m.uv.Keys, Sites();
      born := {};
      stop, v, f := NewSpace(bits, w, sites);
      if stop == Running {
        ghost var b := m.Snap();
        var al := NewProcess(pcb, f, w, spaces, {KPage(PageNo(Kernel, v))}, sites);
        DirectoryStays(a, b, m.Snap(), m.cur, f, PageNo(Kernel, v));
        ReprGrows(old(heaps), old(m.uv), f, al, bits);
        born := {al, bits.bits};
      }
    }

    lemma Start(w: World)
      requires Valid() && Shown(w)
      ensures Agree(m.Snap()) && AllFine(m.Snap(), w.taken, Sites()) && BOOT_DIR in Sites() && w.cur == m.cur
      ensures Tells(m.Snap(), Sites(), w.heaps)
    {
      hide AllFine, Agree, Tells;
      m.Agrees();
    }

    /** The first page given is fit for a PCB, and stays so when the pages of the bitmap are given. */
    lemma PcbReady(vm: Vm, w: World, sites: map<int, Site>, pcb: int, q: int, a: Words, b: Words, c: Words)
      requires Agree(vm) && AllFine(vm, w.taken, sites) && BOOT_DIR in sites
      requires FirstFit(vm.kv, 1, PageNo(Kernel, pcb)) && ZeroPages(a, b, pcb, 1) && ZeroPages(b, c, q, BITMAP_PAGES)
      ensures Home(pcb, w.taken + KPages(w.cur, pcb, 1) + KPages(w.cur, q, BITMAP_PAGES))
      ensures HasWords(c, pcb, pcb + 0x1000)
      ensures forall s :: s in sites ==> Clear(sites[s].descs, pcb)
    {
      hide Agree, AllFine;
      assert PageNo(Kernel, pcb + U_DESCS) == PageNo(Kernel, pcb);
      FitIsClear(vm.kv, PageNo(Kernel, pcb));
      NewHome(vm, w.taken, sites, pcb + U_DESCS);
    }

    /** bitmap_init of a new process's virtual bitmap. */
    method ClearBitmap(ghost w: World) returns (bits: Bitmap)
      requires Valid() && Shown(w)
      ensures fresh(bits.bits) && bits.bits !in m.Arrays() && bits.View() == seq(U_PAGES, _ => false)
      ensures bits.bits.Length == U_PAGES / 8
      ensures Valid() && Shown(w) && m.Snap() == old(m.Snap()) && m.Memory() == old(m.Memory())
      ensures Sites() == old(Sites())
    {
      hide AllFine, Tells, View, Unpack, Agree, Away, Sites, Wired, PageManager.Valid, PageManager.Snap;
      hide PageManager.Memory;
      ghost var sites := Sites();
      bits := new Bitmap(U_PAGES / 8);
      SitesStay(sites);
    }

    /** The PCB and create_user_vaddr_bitmap: what process_execute does before create_page_dir. */
    method Prepare(ghost w: World) returns (stop: Stop, pcb: int, q: int, bits: Bitmap?, ghost vm1: Vm)
      requires Valid() && Shown(w)
      modifies m`mem, m`owner, m`taken, m.kp.bits, m.up.bits, m.kv.bits
      ensures stop == Running ==>
        bits != null && fresh(bits.bits) && bits.bits !in m.Arrays() && bits.View() == seq(U_PAGES, _ => false)
      ensures stop != Running ==> !old(Creates(m.Snap()))
      ensures stop == Running ==> (old(Creates(m.Snap())) <==> Available(m.Snap(), Kernel, m.cur, 1))
      ensures stop == Running ==>
        && Valid() && Shown(World(w.cur, w.heaps, w.taken + KPages(w.cur, pcb, 1) + KPages(w.cur, q, BITMAP_PAGES)))
        && KPages(w.cur, pcb, 1) !! w.taken && KPages(w.cur, q, BITMAP_PAGES) !! w.taken + KPages(w.cur, pcb, 1)
        && bits.bits.Length == U_PAGES / 8
      ensures stop == Running ==>
        && Home(pcb, w.taken + KPages(w.cur, pcb, 1) + KPages(w.cur, q, BITMAP_PAGES))
        && HasWords(m.Memory(), pcb, pcb + 0x1000) && forall s :: s in Sites() ==> Clear(Sites()[s].descs, pcb)
      ensures stop == Running ==>
        && TookFirst(old(m.Snap()), vm1, Kernel, m.cur, PageNo(Kernel, pcb), 1)
        && TookFirst(vm1, m.Snap(), Kernel, m.cur, PageNo(Kernel, q), BITMAP_PAGES) && Sites() == old(Sites())
    {
      hide Agree, HeapInv, View, Account, Shows, Fine, AtHome, AllFine, Away, PageNo, Tells, Clear, WiredTo;
      hide PageManager.Snap, PageManager.Valid, PageManager.Arrays, PageManager.Memory, Allocator.Valid;
      hide Allocator.Sound;
      hide Heaps, Sites, Available, EmptyHeap, OutsideKept, Placed, HasWords, Home, HeapEnd, Valid, Shown, Wired;
      hide Creates, Takes, FirstFit, Supply, ZeroPages, Range, SetRange, SameShape, Bits, Uses;
      ghost var vm, sites := m.Snap(), Sites();
      Start(w);
      KernelAvailable(vm, m.cur, 1);
      CreatesSteps(vm, vm.kv, vm.kv);
      q, bits, vm1 := 0, null, vm;
      stop, pcb := TakePages(Kernel, 1, w);
      if stop != Running { return; }
      vm1 := m.Snap();
      ghost var words := m.Memory();
      ghost var w1 := Next(w, Take(Kernel, 1), Got(pcb, KPages(w.cur, pcb, 1)));
      KernelAvailable(vm1, m.cur, BITMAP_PAGES);
      CreatesSteps(vm, vm1.kv, vm1.kv);
      stop, q := TakePages(Kernel, BITMAP_PAGES, w1);
      if stop != Running { return; }
      ghost var vm2 := m.Snap();
      PcbReady(vm, w, sites, pcb, q, old(m.Memory()), words, m.Memory());
      ghost var w2 := Next(w1, Take(Kernel, BITMAP_PAGES), Got(q, KPages(w.cur, q, BITMAP_PAGES)));
      assert w2 == World(w.cur, w.heaps, w.taken + KPages(w.cur, pcb, 1) + KPages(w.cur, q, BITMAP_PAGES));
      KernelAvailable(vm2, m.cur, 1);
      CreatesSteps(vm, vm1.kv, vm2.kv);
      bits := ClearBitmap(w2);
    }

    /** process_execute by the running thread: the PCB, create_user_vaddr_bitmap, create_page_dir and
        block_desc_init. It goes on if and only if there is room, and no heap and no client notices. */
    method Create(ghost w: World) returns (stop: Stop, f: int, pages: set<Use>, ghost born: set<object>)
      requires Valid() && Shown(w)
      modifies m`mem, m`owner, m`uv, m`pgdir, m`elsewhere, m`taken, m.kp.bits, m.up.bits, m.kv.bits, this`heaps
      ensures stop == Running <==> old(Creates(m.Snap()))
      ensures stop == Running ==>
        && Valid() && f !in w.heaps && pages !! w.taken && (exists pcb, q, v :: pages == ProcessPages(w.cur, pcb, q, v))
        && Shown(World(w.cur, w.heaps[f := Ideal(map[], map[])], w.taken + pages))
      ensures stop == Running ==> fresh(born) && Repr() <= old(Repr()) + born
      ensures stop == Running ==> Founded(old(m.Snap()), old(Sites()), m.Snap(), Sites(), m.cur, Got(f, pages))
      ensures stop == Running ==> |pages| == 25 && HoldBitmap(|pages| - 2, U_PAGES / 8)
    {
      hide Agree, HeapInv, View, Account, Shows, Fine, AtHome, AllFine, Away, PageNo, Tells, Clear, WiredTo;
      hide PageManager.Snap, PageManager.Valid, PageManager.Arrays, PageManager.Memory, Allocator.Valid;
      hide Allocator.Sound;
      hide Heaps, Sites, Available, EmptyHeap, OutsideKept, Placed, HasWords, Home, HeapEnd, Valid, Shown, Wired;
      hide Creates, Takes, FirstFit, Supply, ZeroPages, Range, SetRange, ReprOf, TookFirst, NewDirectory, Founded;
      hide HoldBitmap;
      f, pages, born := 0, {}, {};
      ghost var a, sites, hs, uv := m.Snap(), Sites(), heaps, m.uv;
      Start(w);
      var pcb: int, q: int, v: int;
      var bits: Bitmap?;
      ghost var vm1;
      stop, pcb, q, bits, vm1 := Prepare(w);
      if stop != Running { return; }
      assert heaps == hs && m.uv == uv;
      ghost var vm2 := m.Snap();
      ghost var w2 := World(w.cur, w.heaps, w.taken + KPages(w.cur, pcb, 1) + KPages(w.cur, q, BITMAP_PAGES));
      stop, v, f, born := AddProcess(pcb, bits, w2);
      if stop != Running { return; }
      pages := ProcessPages(m.cur, pcb, q, v);
      Sum(w.taken, KPages(w.cur, pcb, 1), KPages(w.cur, q, BITMAP_PAGES), {KPage(PageNo(Kernel, v))});
      ProcessCount(w.cur, pcb, q, v);
      IsFounded(a, sites, vm1, vm2, m.Snap(), Sites(), m.cur, Got(f, pages), pcb, q, v);
    }

    /** The bitmap of a process is as long as the pages taken for it can hold, and no page shorter. */
    lemma BitmapLength(f: int)
      requires Valid() && f in m.uv
      ensures m.uv[f].bits.Length == U_PAGES / 8 && HoldBitmap(23, m.uv[f].bits.Length)
    {
      hide Agree, AllFine, Wired;
      m.Agrees();
      LayoutOf(m.Snap());
      assert |m.Snap().uv[f]| == 8 * m.uv[f].bits.Length;
    }

    /** An operation of the running thread on its heap. */
    method OnHeap(a: Act, w: World) returns (stop: Stop, r: Got)
      requires Valid() && Shown(w) && Allowed(w, a) && a.On?
      modifies m`mem, m`owner, m.kp.bits, m.up.bits, m.Virtual(HalfOf(m.cur)).bits, Current()`h
      ensures old(Ready(a)) && (stop == Running <==> old(Served(m.Snap(), Sites(), m.cur, a, PoolSize(m.cur))))
      ensures stop == Running ==> Valid() && Shown(Next(w, a, r)) && Fair(w, a, r, PoolSize(w.cur))
      ensures stop == Running ==>
        ActMoves(old(m.Snap()), old(Sites()), m.Snap(), Sites(), w.cur, a, r, PoolSize(w.cur))
    {
      hide Agree, HeapInv, View, Account, Shows, Fine, AtHome, AllFine, Away, Tells, Legal, Step, HeapMoves;
      hide PageManager.Snap, PageManager.Valid, PageManager.Arrays, PageManager.Memory, Allocator.Valid;
      hide Heaps, Sites, Valid, Shown, Wired, Serves, Fresh;
      var p := 0;
      stop := Running;
      IsReady(a, w);
      match a.op {
        case Malloc(size) => stop, p := OnMalloc(size, w);
        case Free(q) => OnFree(q, w);
        case Poke(v, x) => OnPoke(v, x, w);
      }
      r := Got(p, {});
    }

    /** A switch, or a call for pages. */
    method OnPages(a: Act, w: World) returns (stop: Stop, r: Got)
      requires Valid() && Shown(w) && Allowed(w, a) && (a.Switch? || a.Take? || a.TakeAt?)
      requires a.Take? && a.pf == User ==> m.cur in m.uv
      modifies m`mem, m`owner, m`taken, m.kp.bits, m.up.bits, m`cur, m`elsewhere
      modifies if a.Switch? || (a.pf == User && m.cur !in m.uv) then {} else {m.Virtual(a.pf).bits}
      ensures old(Ready(a)) && (stop == Running <==> old(Served(m.Snap(), Sites(), m.cur, a, PoolSize(m.cur))))
      ensures stop == Running ==> Valid() && Shown(Next(w, a, r)) && Fair(w, a, r, PoolSize(w.cur))
      ensures stop == Running ==>
        ActMoves(old(m.Snap()), old(Sites()), m.Snap(), Sites(), w.cur, a, r, PoolSize(w.cur))
    {
      hide Agree, HeapInv, View, Account, Shows, Fine, AtHome, AllFine, Away, PageNo, Tells, Clear, WiredTo, Legal;
      hide Step;
      hide PageManager.Snap, PageManager.Valid, PageManager.Arrays, PageManager.Memory, Allocator.Valid;
      hide Allocator.Sound;
      hide Heaps, Sites, Available, Valid, Shown, Wired, Creates, Takes, FirstFit, Supply, ZeroPages, Range, Serves;
      hide PageStop, Fresh, Repr, ActMoves, TookFirst, Took, Founded;
      stop, r := Running, Got(0, {});
      IsReady(a, w);
      m.MemoryIs();
      ghost var vm, sites := m.Snap(), Sites();
      match a {
        case Switch(space) => SwitchTo(space, w);
        case Take(pf, n) =>
          var p;
          stop, p := TakePages(pf, n, w);
          r := Got(p, Range(pf, w.cur, PageNo(pf, p), PageNo(pf, p) + n));
        case TakeAt(pf, v) =>
          stop := TakeOne(pf, v, w);
          r := Got(v, {PageUse(pf, w.cur, PageNo(pf, v))});
      }
      m.MemoryIs();
      if stop == Running { CallMoves(vm, sites, m.Snap(), w.cur, a, r, PoolSize(w.cur)); }
    }

    /** process_execute. */
    method OnExecute(a: Act, w: World) returns (stop: Stop, r: Got, ghost born: set<object>)
      requires Valid() && Shown(w) && Allowed(w, a) && a.Execute?
      modifies m`mem, m`owner, m`uv, m`pgdir, m`elsewhere, m`taken, m.kp.bits, m.up.bits, m.kv.bits, this`heaps
      ensures old(Ready(a)) && (stop == Running <==> old(Served(m.Snap(), Sites(), m.cur, a, PoolSize(m.cur))))
      ensures stop == Running ==> Valid() && Shown(Next(w, a, r)) && Fair(w, a, r, PoolSize(w.cur))
      ensures stop == Running ==>
        ActMoves(old(m.Snap()), old(Sites()), m.Snap(), Sites(), w.cur, a, r, PoolSize(w.cur))
      ensures stop == Running ==> fresh(born) && Repr() <= old(Repr()) + born
    {
      hide Agree, HeapInv, View, Account, Shows, Fine, AtHome, AllFine, Away, PageNo, Tells, Clear, WiredTo, Legal;
      hide PageManager.Snap, PageManager.Valid, PageManager.Arrays, PageManager.Memory, Allocator.Valid;
      hide Heaps, Sites, Available, Valid, Shown, Wired, Creates, Repr, ActMoves, Founded, ProcessPages, HoldBitmap;
      IsReady(a, w);
      ghost var vm, sites := m.Snap(), Sites();
      var f, pages;
      stop, f, pages, born := Create(w);
      r := Got(f, pages);
      if stop == Running { ProcessMoves(vm, sites, m.Snap(), Sites(), w.cur, r, PoolSize(w.cur)); }
    }

    /** One act of the running thread. */
    method Do(a: Act, w: World) returns (stop: Stop, r: Got, ghost born: set<object>)
      requires Valid() && Shown(w) && Allowed(w, a)
      modifies this`heaps, m, Repr()
      ensures old(Ready(a)) && (stop == Running <==> old(Served(m.Snap(), Sites(), m.cur, a, PoolSize(m.cur))))
      ensures stop == Running ==> Valid() && Shown(Next(w, a, r)) && Fair(w, a, r, PoolSize(w.cur))
      ensures stop == Running ==>
        ActMoves(old(m.Snap()), old(Sites()), m.Snap(), Sites(), w.cur, a, r, PoolSize(w.cur))
      ensures stop == Running ==> fresh(born) && Repr() <= old(Repr()) + born
    {
      hide Agree, HeapInv, View, Account, Shows, Fine, AtHome, AllFine, Away, Tells, WiredTo, Allowed, Next, Fair;
      hide Served;
      hide PageManager.Snap, PageManager.Valid, PageManager.Arrays, PageManager.Memory, Allocator.Valid;
      hide Heaps, Sites, Valid, Shown, Wired, ReprOf, ActMoves;
      born := {};
      IsReady(a, w);
      Footprint();
      ghost var hs, uv := heaps, m.uv;
      match a {
        case On(_) =>
          stop, r := OnHeap(a, w);
          assert heaps == hs && m.uv == uv;
        case Execute => stop, r, born := OnExecute(a, w);
        case _ =>
          stop, r := OnPages(a, w);
          assert heaps == hs && m.uv == uv;
      }
    }

    /** What Served asks about is there. */
    ghost predicate Ready(a: Act)
      reads this, m, m.Arrays(), Heaps()
    {
      && m.cur in heaps && IsSpace(m.Snap(), m.cur) && |heaps[m.cur].h.free| == CLASSES
      && (a.Take? && a.pf == User ==> m.cur in m.Snap().uv)
    }

    lemma IsReady(a: Act, w: World)
      requires Valid() && Shown(w) && Allowed(w, a)
      ensures Ready(a) && w.cur == m.cur && (m.cur == BOOT_DIR || m.cur in m.uv) && m.cur in heaps
      ensures a.Take? && a.pf == User ==> m.cur in m.uv
    {
      hide Agree, HeapInv, View, Account, Shows, AtHome, AllFine, Away, Tells, Legal;
      hide PageManager.Snap, PageManager.Valid, PageManager.Arrays, PageManager.Memory, Valid, Shown;
      Before(w);
      HeapKeys();
      NodesOf(heaps[m.cur]);
    }

    lemma Footprint()
      ensures m.kp.bits in Repr() && m.up.bits in Repr() && m.kv.bits in Repr()
      ensures forall s :: s in m.uv ==> m.uv[s].bits in Repr()
      ensures forall s :: s in heaps ==> heaps[s] in Repr()
    {
    }

    /** No leak, for all heaps at once: when every allocation of every thread has been freed, in
        whatever order, all free lists are empty, the pages mapped are those handed out by
        get_kernel_pages, get_user_pages and get_a_page, and the frames in use are theirs and those of
        user page tables. */
    lemma AllFreed(w: World)
      requires Valid() && Shown(w) && forall s :: s in w.heaps ==> w.heaps[s].live == map[]
      ensures NothingLost(m.Snap(), w.taken)
      ensures forall s :: s in heaps ==> NothingFree(heaps[s].h)
    {
      hide Agree, HeapInv, View, Account, AllFine, Away, NothingLost, NothingFree, PageManager.Snap, PageManager.Valid;
      Before(w);
      HeapKeys();
      EmptyHeaps(m.Snap(), m.taken, Sites());
      forall s | s in heaps ensures NothingFree(heaps[s].h) { assert NothingFree(Sites()[s].h); }
    }

    /** The system as it stands. */
    ghost function Now(w: World): Shot
      reads this, m, m.Arrays(), Heaps()
    {
      Shot(m.Snap(), Sites(), w)
    }

    lemma NowIsCoherent(w: World)
      requires Valid() && Shown(w)
      ensures Coherent(Now(w))
    {
      hide AllFine, Agree, Tells, PageManager.Valid, PageManager.Snap, Valid, Shown;
      Start(w);
      Before(w);
      HeapKeys();
      NodesOf(heaps[m.cur]);
    }

    /** Any run of threads of the kernel and of any number of processes. The trail holds the states it
        goes through, from the one it starts in to the one it ends in: in each of them memory holds what
        the ideal heaps would, and each act leads to the next, is served and gets new memory. The run
        ends early only at an act that is not allowed, and stops if and only if the act that comes next
        cannot be served in the last state of the trail. What has been freed is free. */
    method Run(acts: seq<Act>, w0: World)
      returns (stop: Stop, n: nat, w: World, ghost gots: seq<Got>, ghost trail: seq<Shot>)
      requires Valid() && Shown(w0)
      modifies this`heaps, m, Repr()
      ensures n <= |acts| && Linked(trail, acts[..n], gots, kernelPool, userPool)
      ensures trail[0] == old(Now(w0)) && trail[n].w == w && Coherent(trail[n])
      ensures stop == Running ==> Valid() && Shown(w) && trail[n] == Now(w) && (n == |acts| || !Allowed(w, acts[n]))
      ensures stop == Running && (forall s :: s in w.heaps ==> w.heaps[s].live == map[]) ==>
        NothingLost(m.Snap(), w.taken)
      ensures stop != Running ==>
        n < |acts| && Allowed(w, acts[n]) && !CanServe(trail[n], acts[n], kernelPool, userPool)
    {
      hide Agree, HeapInv, View, Account, Shows, Fine, AtHome, AllFine, Away, Tells, Legal, Step, Next, Fair, Served;
      hide PageManager.Snap, PageManager.Valid, PageManager.Arrays, PageManager.Memory, NothingLost, ActMoves;
      hide Heaps, Sites, Valid, Shown, Repr, Allowed, Linked, Coherent, Link;
      NowIsCoherent(w0);
      stop, n, w, gots, trail := Running, 0, w0, [], [Now(w0)];
      ghost var all: set<object> := {};
      NoLinks(trail[0], kernelPool, userPool);
      while n < |acts| && Allowed(w, acts[n])
        invariant stop == Running && 0 <= n <= |acts| && Linked(trail, acts[..n], gots, kernelPool, userPool)
        invariant |trail| == n + 1 && trail[0] == old(Now(w0)) && trail[n] == Now(w) && Coherent(trail[n])
        invariant Valid() && Shown(w)
        invariant fresh(all) && Repr() <= old(Repr()) + all
      {
        var r;
        ghost var born;
        IsReady(acts[n], w);
        stop, r, born := Do(acts[n], w);
        if stop != Running { return; }
        all := all + born;
        ghost var t := Now(Next(w, acts[n], r));
        NowIsCoherent(t.w);
        IsLink(trail[n], acts[n], r, t, kernelPool, userPool);
        LinkedNext(trail, acts[..n], gots, acts[n], r, t, kernelPool, userPool);
        assert acts[..n + 1] == acts[..n] + [acts[n]];
        w, gots, n, trail := Next(w, acts[n], r), gots + [r], n + 1, trail + [t];
      }
      if forall s :: s in w.heaps ==> w.heaps[s].live == map[] { AllFreed(w); }
    }

    /** In every state of a run the code of a process may write the words of its live regions. */
    lemma HeapsWritable(w: World, s: int, v: int)
      requires Valid() && Shown(w) && s in w.heaps && s != BOOT_DIR && v in w.heaps[s].data
      ensures UserWalk(m.mem, s, v) == Walk(m.mem, s, v) && Walk(m.mem, s, v).Some?
    {
      hide Agree, Fine, View, Walk, UserWalk, Shows, PageManager.Valid;
      Start(w);
      Spaces(w, s);
      HeapAccess(m.Snap(), m.taken, Sites()[s], w.heaps[s], v);
    }

    /** Live regions do not overlap: no word of one is, in physical memory, a word of another of the
        same heap or of any other. */
    lemma NoOverlap(w: World, s: int, p: int, v: int, t: int, q: int, u: int)
      requires Valid() && Shown(w) && s in w.heaps && t in w.heaps && (s != t || p != q)
      requires p in w.heaps[s].live && p <= v < p + w.heaps[s].live[p] && v % 4 == 0
      requires q in w.heaps[t].live && q <= u < q + w.heaps[t].live[q] && u % 4 == 0
      ensures Walk(m.mem, s, v).Some? && Walk(m.mem, t, u).Some? && Walk(m.mem, s, v) != Walk(m.mem, t, u)
    {
      hide Agree, Fine, View, Walk, PageManager.Valid;
      Start(w);
      RegionsDiffer(m.Snap(), m.taken, Sites()[s], p, v, Sites()[t], q, u);
    }
  }

  /** No page, no frame and no address space has been taken from pools of the given bytes. */
  ghost predicate NothingTaken(vm: Vm, kernelBytes: int, userBytes: int) {
    && 0 <= kernelBytes && 0 <= userBytes && vm.uv == map[] && vm.owner == map[]
    && vm.kp == seq(8 * kernelBytes, _ => false) && vm.kv == seq(8 * kernelBytes, _ => false)
    && vm.up == seq(8 * userBytes, _ => false)
  }

  lemma StartsEmpty(m: PageManager)
    requires m.uv == map[] && m.owner == map[] && m.kp.View() == m.kv.View() == seq(8 * m.kp.bits.Length, _ => false)
    requires m.up.View() == seq(8 * m.up.bits.Length, _ => false)
    ensures NothingTaken(m.Snap(), m.kp.bits.Length, m.up.bits.Length)
  {
    m.SnapFields(Kernel);
    assert m.Snap().uv.Keys == {};
    assert m.Snap().uv == map[];
  }

  /** Words of a process's heap lie below the kernel's 3 GB, and its code may write them. */
  lemma HeapAccess(vm: Vm, taken: set<Use>, x: Site, i: Ideal, v: int)
    requires Agree(vm) && Fine(vm, taken, x) && x.space in vm.uv && x.space != BOOT_DIR
    requires Shows(View(vm, x.space), x.h, i) && v in i.data
    ensures UserWalk(vm.mem, x.space, v) == Walk(vm.mem, x.space, v) && Walk(vm.mem, x.space, v).Some?
  {
    hide Agree, Account, AtHome, HeapInv, FrameAt, UserWalk, Walk, Lookup, IsSmall, IsLarge, End;
    var w, lo, hi := View(vm, x.space), Low(User), SiteEnd(vm, x.space);
    LayoutOf(vm);
    var p := InRegion(w, x.descs, x.h, lo, hi, v);
    HeapInvShape(w, x.descs, x.h, lo, hi);
    LiveBounds(x.h, lo, hi, p);
    UserAccess(vm, x.space, v);
    DataWalk(vm, x.space, v / 0x1000);
    WalkIsLookup(vm.mem, x.space, v);
  }

  lemma HeapInvShape(w: Words, descs: int, h: Heap, lo: int, hi: int)
    requires HeapInv(w, descs, h, lo, hi)
    ensures Shape(h, lo, hi)
  {
    hide Shape, Stored, Partial, Placed;
  }

  /** mem_init, with k_block_desc somewhere in the kernel image. */
  method MemInit(allMem: int, boot: Mem, descs: int) returns (sys: System)
    requires 0x20_0000 <= allMem < 0x1_0000_0000
    requires KernelHalf(boot, BOOT_DIR) && forall t :: 0 <= t < 256 ==> Maps(Rd(boot, BOOT_TABLE, t), t)
    requires forall i :: 0 <= i < 0x8000 ==> !Present(KPte(boot, i))
    requires 0xc000_0000 <= descs && descs + DESCS_BYTES <= 0xc010_0000 && descs % 4 == 0
    ensures sys.Valid() && sys.Shown(World(BOOT_DIR, map[BOOT_DIR := Ideal(map[], map[])], {}))
    ensures fresh(sys) && fresh(sys.m) && fresh(sys.Repr())
    ensures var p := Layout.MemPoolInit(allMem); NothingTaken(sys.m.Snap(), p.kernelBytes, p.userBytes)
    ensures var p := Layout.MemPoolInit(allMem); sys.kernelPool == p.kernelSize && sys.userPool == p.userSize
  {
    hide Agree, KernelHalf, Present, UserWrite, KPte, Entry, Rd, Layout.MemPoolInit, Unpack, View, Account, EmptyHeap;
    hide AtHome;
    hide Allocator.Sound, HasWords, Placed, OutsideKept, PageManager.Valid, PageManager.Memory, System.Valid;
    hide System.Shown;
    var p := Layout.MemPoolInit(allMem);
    Layout.PoolsFit(allMem);
    var m := new PageManager(allMem, boot);
    m.MemoryIs();
    StartsEmpty(m);
    LowWords(m.Snap(), m.cur, descs);
    FirstAccount(m.Snap(), m.taken);
    FirstPlace(m, descs);
    var kernel := new Allocator(m, Kernel, BOOT_DIR, descs, p.kernelSize);
    sys := new System(m, kernel, p.kernelSize, p.userSize);
  }
}
