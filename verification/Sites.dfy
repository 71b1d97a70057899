/** Many heaps on one page layer: the kernel's and one for each process. What the threads of one
    address space do leaves the heaps of the others as they were. */
module Sites {
  import opened Paging
  import opened Agreement
  import opened Bitmaps
  import opened Views
  import opened Growth
  import opened PageManagement
  import opened Heaps
  import opened HeapSteps
  import opened Accounts
  import opened AllocationSteps
  import opened IdealHeaps

  const DESCS_BYTES := 24 * CLASSES

  /** The heap of an address space: the frame of its directory, its descriptors and its account. */
  datatype Site = Site(space: int, descs: int, h: Heap)

  /** PF_KERNEL under the boot directory, PF_USER under a process's. */
  function HalfOf(space: int): Half { if space == BOOT_DIR then Kernel else User }

  predicate IsSpace(vm: Vm, space: int) { space == BOOT_DIR || space in vm.uv }

  function SiteEnd(vm: Vm, space: int): int
    requires IsSpace(vm, space)
  {
    (Page0(HalfOf(space)) + |VBits(vm, HalfOf(space), space)|) * 0x1000
  }

  /** k_block_desc lies in the kernel image; u_block_desc lies in the PCB, a page that
      get_kernel_pages gave. */
  predicate AtHome(x: Site, taken: set<Use>) {
    if x.space == BOOT_DIR then 0xc000_0000 <= x.descs && x.descs + DESCS_BYTES <= 0xc010_0000
    else 0xc010_0000 <= x.descs && x.descs % 0x1000 + DESCS_BYTES <= 0x1000 && KPage(PageNo(Kernel, x.descs)) in taken
  }

  /** The heap of x agrees with memory as its threads see it and with the page layer. */
  ghost predicate Fine(vm: Vm, taken: set<Use>, x: Site) {
    && IsSpace(vm, x.space) && AtHome(x, taken)
    && HeapInv(View(vm, x.space), x.descs, x.h, Low(HalfOf(x.space)), SiteEnd(vm, x.space))
    && Account(VBits(vm, HalfOf(x.space), x.space), taken, HalfOf(x.space), x.space, x.h)
  }

  /** No word of the kernel half is private to both. */
  ghost predicate Apart(descs: int, h: Heap, y: Site) {
    forall v :: v >= 0xc000_0000 ==> !(Private(descs, h, v) && Private(y.descs, y.h, v))
  }

  /** The words private to y are as they were. */
  ghost predicate Undisturbed(a: Vm, b: Vm, y: Site) {
    forall v :: v in View(a, y.space) && Private(y.descs, y.h, v) ==>
      v in View(b, y.space) && View(b, y.space)[v] == View(a, y.space)[v]
  }

  // The words of one heap are not the words of another.

  /** A page that a heap holds is mapped, lies in its half and was given to nobody else. */
  lemma HeldPage(vm: Vm, taken: set<Use>, x: Site, v: int)
    requires Agree(vm) && Fine(vm, taken, x) && HoldsPage(x.h, ArenaOf(v))
    ensures Low(HalfOf(x.space)) <= v < SiteEnd(vm, x.space)
    ensures PageUse(HalfOf(x.space), x.space, PageNo(HalfOf(x.space), v)) !in taken
  {
    hide Agree, View, Nodes, Split, Live, Stored, Partial, PagesApart, ArenaOf;
    var pf := HalfOf(x.space);
    var i := PageNo(pf, v);
    PageStart(pf, v);
    HeldBounds(x.h, Low(pf), SiteEnd(vm, x.space), ArenaOf(v));
    assert Held(x.h, pf, i);
    assert 0 <= i < |VBits(vm, pf, x.space)|;
  }

  lemma PageStart(pf: Half, v: int)
    ensures (Page0(pf) + PageNo(pf, v)) * 0x1000 == ArenaOf(v)
  {
  }

  lemma HeldBounds(h: Heap, lo: int, hi: int, a: int)
    requires Shape(h, lo, hi) && HoldsPage(h, a) && a % 0x1000 == 0 && hi % 0x1000 == 0
    ensures lo <= a && a + 0x1000 <= hi
  {
    hide Nodes, Split, Live, PagesApart;
  }

  lemma HomePage(x: Site, taken: set<Use>, v: int)
    requires AtHome(x, taken) && x.descs <= v < x.descs + DESCS_BYTES
    ensures v >= 0xc000_0000
    ensures x.space != BOOT_DIR ==> KPage(PageNo(Kernel, v)) in taken
    ensures x.space == BOOT_DIR ==> v < Low(Kernel)
  {
    if x.space != BOOT_DIR { assert v / 0x1000 == x.descs / 0x1000; }
  }

  /** The heaps of two address spaces have no word of the kernel half in common. */
  lemma PrivateApart(vm: Vm, taken: set<Use>, x: Site, y: Site)
    requires Agree(vm) && Fine(vm, taken, x) && Fine(vm, taken, y) && x.space != y.space
    requires Disjoint(x.descs, x.descs + DESCS_BYTES, y.descs, y.descs + DESCS_BYTES)
    ensures Apart(x.descs, x.h, y)
  {
    hide Agree, HeapInv, Account, HoldsPage, ArenaOf, AtHome, PageNo;
    LayoutOf(vm);
    forall v | v >= 0xc000_0000 ensures !(Private(x.descs, x.h, v) && Private(y.descs, y.h, v)) {
      OneIsNot(vm, taken, x, y, v);
    }
  }

  lemma OneIsNot(vm: Vm, taken: set<Use>, x: Site, y: Site, v: int)
    requires Agree(vm) && Fine(vm, taken, x) && Fine(vm, taken, y) && x.space != y.space
    requires Disjoint(x.descs, x.descs + DESCS_BYTES, y.descs, y.descs + DESCS_BYTES) && v >= 0xc000_0000
    ensures !(Private(x.descs, x.h, v) && Private(y.descs, y.h, v))
  {
    hide Agree, HeapInv, Account, HoldsPage, ArenaOf, AtHome, PageNo, View;
    LayoutOf(vm);
    if Private(x.descs, x.h, v) && Private(y.descs, y.h, v) {
      if x.descs <= v < x.descs + DESCS_BYTES {
        HomePage(x, taken, v);
        HeldPage(vm, taken, y, v);
      } else if y.descs <= v < y.descs + DESCS_BYTES {
        HeldPage(vm, taken, x, v);
        HomePage(y, taken, v);
      } else {
        HeldPage(vm, taken, x, v);
        HeldPage(vm, taken, y, v);
      }
    }
  }

  // What an operation under directory cur leaves of the heap y.

  /** The user halves of all other spaces are as they were. */
  ghost predicate HalvesKept(a: Vm, b: Vm, cur: int) {
    forall s :: s in a.uv && s != cur ==> s in b.uv && UserHalf(View(b, s)) == UserHalf(View(a, s))
  }

  lemma AwayKept(a: Vm, b: Vm, cur: int, ea: map<int, Words>, eb: map<int, Words>, da: map<int, int>, db: map<int, int>)
    requires Away(a, cur, ea, da) && Away(b, cur, eb, db) && a.uv.Keys <= b.uv.Keys
    requires forall s :: s in a.uv && s != cur ==> s in eb && eb[s] == ea[s]
    ensures HalvesKept(a, b, cur)
  {
    hide View, UserHalf;
  }

  lemma BootIsEmpty(vm: Vm)
    requires Agree(vm)
    ensures forall v :: v in View(vm, BOOT_DIR) ==> v >= 0xc000_0000
  {
    hide FrameAt, Rd, KernelPages, UserPages, UserTables, Owners, PoolBits;
    FramesApart(vm);
  }

  lemma WordKept(a: Vm, b: Vm, cur: int, descs: int, h: Heap, y: Site, v: int)
    requires Agree(a) && OutsideKept(View(a, cur), View(b, cur), descs, h) && Apart(descs, h, y)
    requires y.space == cur ==> forall u :: u in View(a, cur) ==> !(Private(descs, h, u) && Private(y.descs, y.h, u))
    requires IsSpace(a, y.space) && HalvesKept(a, b, cur) && v in View(a, y.space) && Private(y.descs, y.h, v)
    ensures v in View(b, y.space) && View(b, y.space)[v] == View(a, y.space)[v]
  {
    hide Agree, View, UserHalf, Private;
    if v >= 0xc000_0000 {
      KernelWords(a, y.space, cur, v);
      assert SameWord(View(a, cur), View(b, cur), v);
      KernelWords(b, y.space, cur, v);
    } else if y.space == cur {
      assert SameWord(View(a, cur), View(b, cur), v);
    } else {
      BootIsEmpty(a);
      assert v in UserHalf(View(a, y.space));
    }
  }

  lemma SiteKept(a: Vm, b: Vm, cur: int, descs: int, h: Heap, y: Site)
    requires Agree(a) && OutsideKept(View(a, cur), View(b, cur), descs, h) && Apart(descs, h, y)
    requires y.space == cur ==> forall u :: u in View(a, cur) ==> !(Private(descs, h, u) && Private(y.descs, y.h, u))
    requires IsSpace(a, y.space) && HalvesKept(a, b, cur)
    ensures Undisturbed(a, b, y)
  {
    hide Agree, View, OutsideKept, Apart, HalvesKept, Private;
    forall v | v in View(a, y.space) && Private(y.descs, y.h, v)
      ensures v in View(b, y.space) && View(b, y.space)[v] == View(a, y.space)[v]
    {
      WordKept(a, b, cur, descs, h, y, v);
    }
  }

  /** A heap whose words and pages are as they were is as fine as it was. */
  lemma StillFine(a: Vm, b: Vm, taken: set<Use>, taken': set<Use>, y: Site)
    requires Fine(a, taken, y) && Undisturbed(a, b, y) && taken <= taken' && IsSpace(b, y.space)
    requires |VBits(b, HalfOf(y.space), y.space)| == |VBits(a, HalfOf(y.space), y.space)|
    requires Account(VBits(b, HalfOf(y.space), y.space), taken', HalfOf(y.space), y.space, y.h)
    ensures Fine(b, taken', y)
  {
    hide HeapInv, Account, View, Private;
    HeapFrame(View(a, y.space), View(b, y.space), y.descs, y.h, Low(HalfOf(y.space)), SiteEnd(a, y.space));
  }

  // All heaps together.

  ghost predicate AllFine(vm: Vm, taken: set<Use>, sites: map<int, Site>) {
    && (forall s :: s in sites ==> sites[s].space == s && Fine(vm, taken, sites[s]))
    && (forall s, t :: s in sites && t in sites && s != t ==>
      Disjoint(sites[s].descs, sites[s].descs + DESCS_BYTES, sites[t].descs, sites[t].descs + DESCS_BYTES))
    && (forall u :: u in taken && u.UPage? ==> u.s in vm.uv)
  }

  /** The bits of all spaces but cur are as they were, and so are the kernel's unless pf is. */
  ghost predicate BitsKept(a: Vm, b: Vm, pf: Half, cur: int) {
    && a.uv.Keys <= b.uv.Keys && |b.kv| == |a.kv| && (pf == User ==> b.kv == a.kv)
    && (forall s :: s in a.uv ==> |b.uv[s]| == |a.uv[s]|)
    && (forall s :: s in a.uv && (pf == Kernel || s != cur) ==> b.uv[s] == a.uv[s])
  }

  /** sys_malloc, sys_free or a client's store under cur: the heap of cur becomes x, and no other
      changes. */
  lemma HeapOpKeeps(a: Vm, b: Vm, taken: set<Use>, sites: map<int, Site>, cur: int, x: Site)
    requires Agree(a) && AllFine(a, taken, sites) && cur in sites && b.uv.Keys == a.uv.Keys
    requires BitsKept(a, b, HalfOf(cur), cur) && HalvesKept(a, b, cur)
    requires OutsideKept(View(a, cur), View(b, cur), sites[cur].descs, sites[cur].h)
    requires x.space == cur && x.descs == sites[cur].descs && Fine(b, taken, x)
    ensures AllFine(b, taken, sites[cur := x])
    ensures forall s :: s in sites && s != cur ==> Undisturbed(a, b, sites[s])
  {
    hide Agree, Fine, View, OutsideKept, Apart, HalvesKept, Undisturbed;
    forall s | s in sites && s != cur ensures Undisturbed(a, b, sites[s]) && Fine(b, taken, sites[s]) {
      PrivateApart(a, taken, sites[cur], sites[s]);
      FineIs(a, taken, sites[s]);
      SiteKept(a, b, cur, sites[cur].descs, sites[cur].h, sites[s]);
      StillFine(a, b, taken, taken, sites[s]);
    }
  }

  lemma FineIs(vm: Vm, taken: set<Use>, x: Site)
    requires Fine(vm, taken, x)
    ensures IsSpace(vm, x.space) && Account(VBits(vm, HalfOf(x.space), x.space), taken, HalfOf(x.space), x.space, x.h)
  {
  }

  // Pages given to other callers, and new spaces.

  /** Every word is as it was. */
  ghost predicate AllKept(w: Words, w': Words) {
    forall v :: v in w ==> v in w' && w'[v] == w[v]
  }

  /** The pages in more, all of them free before, are mapped, and no others. */
  ghost predicate Granted(a: Vm, b: Vm, more: set<Use>) {
    && a.uv.Keys <= b.uv.Keys && |b.kv| == |a.kv| && (forall s :: s in a.uv ==> |b.uv[s]| == |a.uv[s]|)
    && (forall i :: 0 <= i < |a.kv| ==>
      (b.kv[i] <==> a.kv[i] || KPage(i) in more) && !(a.kv[i] && KPage(i) in more))
    && (forall s, i :: s in a.uv && 0 <= i < |a.uv[s]| ==>
      (b.uv[s][i] <==> a.uv[s][i] || UPage(s, i) in more) && !(a.uv[s][i] && UPage(s, i) in more))
    && (forall u :: u in more ==> InRange(a, u))
  }

  /** u is a managed page of the kernel or of some address space. */
  predicate InRange(vm: Vm, u: Use) {
    match u
    case KPage(i) => 0 <= i < |vm.kv|
    case UPage(s, i) => s in vm.uv && 0 <= i < |vm.uv[s]|
    case UTable(_, _) => false
  }

  /** Pages just mapped were nobody's. */
  lemma GrantIsFresh(a: Vm, b: Vm, taken: set<Use>, more: set<Use>, sites: map<int, Site>)
    requires AllFine(a, taken, sites) && Granted(a, b, more) && sites.Keys == a.uv.Keys + {BOOT_DIR}
    requires BOOT_DIR !in a.uv
    ensures more !! taken
  {
    hide HeapInv, View, Held, AtHome;
    forall u | u in more ensures u !in taken {
      match u
      case KPage(i) => assert Fine(a, taken, sites[BOOT_DIR]);
      case UPage(s, i) => assert Fine(a, taken, sites[s]);
    }
  }

  lemma GrewGranted(a: Vm, c: Vm, m: Mem, pf: Half, cur: int, lo: int, hi: int)
    requires Grew(a, c, pf, cur, lo, hi, pf == User)
    ensures Granted(a, c.(mem := m), Range(pf, cur, lo, hi))
  {
    hide Uses, Extends, View, Isolated, Elsewhere;
    GrewBits(a, c, pf, cur, lo, hi, pf == User);
  }

  lemma SpaceGranted(a: Vm, b: Vm, i: int, f: int)
    requires 0 <= i < |a.kv| && !a.kv[i] && b.kv == SetRange(a.kv, i, 1, true)
    requires f !in a.uv && b.uv == a.uv[f := seq(U_PAGES, _ => false)]
    ensures Granted(a, b, {KPage(i)})
  {
  }

  lemma AccountGranted(a: Vm, b: Vm, taken: set<Use>, more: set<Use>, x: Site)
    requires Granted(a, b, more) && Fine(a, taken, x)
    ensures IsSpace(b, x.space)
    ensures |VBits(b, HalfOf(x.space), x.space)| == |VBits(a, HalfOf(x.space), x.space)|
    ensures Account(VBits(b, HalfOf(x.space), x.space), taken + more, HalfOf(x.space), x.space, x.h)
  {
    hide HeapInv, View, Held, AtHome;
  }

  /** Pages given to other callers disturb no heap. */
  lemma GrantKeeps(a: Vm, b: Vm, taken: set<Use>, more: set<Use>, sites: map<int, Site>, cur: int)
    requires Agree(a) && AllFine(a, taken, sites) && Granted(a, b, more)
    requires AllKept(View(a, cur), View(b, cur)) && HalvesKept(a, b, cur)
    ensures AllFine(b, taken + more, sites) && forall s :: s in sites ==> Undisturbed(a, b, sites[s])
  {
    hide Agree, Fine, View, Granted, HalvesKept, Undisturbed, Account, AllKept, Private, Apart, OutsideKept, EmptyHeap;
    forall s | s in sites ensures Undisturbed(a, b, sites[s]) && Fine(b, taken + more, sites[s]) {
      FineIs(a, taken, sites[s]);
      NothingPrivate(View(a, cur), View(b, cur), sites[s]);
      SiteKept(a, b, cur, -DESCS_BYTES, EmptyHeap(), sites[s]);
      AccountGranted(a, b, taken, more, sites[s]);
      StillFine(a, b, taken, taken + more, sites[s]);
    }
    GrantedSpaces(a, b, more);
  }

  lemma GrantedSpaces(a: Vm, b: Vm, more: set<Use>)
    requires Granted(a, b, more)
    ensures a.uv.Keys <= b.uv.Keys && forall u :: u in more && u.UPage? ==> u.s in b.uv
  {
  }

  lemma NothingPrivate(w: Words, w': Words, y: Site)
    requires forall v :: v in w ==> v >= 0
    ensures Apart(-DESCS_BYTES, EmptyHeap(), y)
    ensures forall v :: v in w ==> !(Private(-DESCS_BYTES, EmptyHeap(), v) && Private(y.descs, y.h, v))
    ensures AllKept(w, w') ==> OutsideKept(w, w', -DESCS_BYTES, EmptyHeap())
  {
  }

  /** Descriptors in a page just given lie apart from all heaps. */
  lemma NewHome(vm: Vm, taken: set<Use>, sites: map<int, Site>, descs: int)
    requires Agree(vm) && AllFine(vm, taken, sites) && BOOT_DIR in sites && 0xc010_0000 <= descs
    requires descs % 0x1000 + DESCS_BYTES <= 0x1000 && PageNo(Kernel, descs) < |vm.kv| && !vm.kv[PageNo(Kernel, descs)]
    ensures forall s :: s in sites ==>
      Disjoint(sites[s].descs, sites[s].descs + DESCS_BYTES, descs, descs + DESCS_BYTES)
  {
    hide Agree, HeapInv, View, Held;
    var i := PageNo(Kernel, descs);
    assert Fine(vm, taken, sites[BOOT_DIR]);
    assert KPage(i) !in taken;
    forall s | s in sites ensures Disjoint(sites[s].descs, sites[s].descs + DESCS_BYTES, descs, descs + DESCS_BYTES) {
      assert AtHome(sites[s], taken);
      if s != BOOT_DIR { OtherPage(sites[s].descs, descs); }
    }
  }

  lemma OtherPage(d: int, e: int)
    requires d % 0x1000 + DESCS_BYTES <= 0x1000 && e % 0x1000 + DESCS_BYTES <= 0x1000
    ensures PageNo(Kernel, d) != PageNo(Kernel, e) ==> Disjoint(d, d + DESCS_BYTES, e, e + DESCS_BYTES)
  {
  }

  lemma GivenApart(vm: Vm, taken: set<Use>, y: Site, descs: int)
    requires Agree(vm) && Fine(vm, taken, y) && AtHome(Site(-1, descs, EmptyHeap()), taken)
    requires Disjoint(y.descs, y.descs + DESCS_BYTES, descs, descs + DESCS_BYTES)
    ensures Apart(descs, EmptyHeap(), y)
    ensures forall v :: Private(descs, EmptyHeap(), v) ==> v >= 0xc000_0000
  {
    hide Agree, Fine, HeapInv, Account, HoldsPage, ArenaOf, AtHome, PageNo, View, EmptyHeap;
    LayoutOf(vm);
    forall v | Private(descs, EmptyHeap(), v) ensures v >= 0xc000_0000 && !Private(y.descs, y.h, v) {
      EmptyHolds(ArenaOf(v));
      HomePage(Site(-1, descs, EmptyHeap()), taken, v);
      if HoldsPage(y.h, ArenaOf(v)) { NotHome(vm, taken, y, v); }
    }
  }

  lemma EmptyHolds(a: int)
    ensures !HoldsPage(EmptyHeap(), a)
  {
  }

  lemma NotHome(vm: Vm, taken: set<Use>, y: Site, v: int)
    requires Agree(vm) && Fine(vm, taken, y) && KPage(PageNo(Kernel, v)) in taken && v >= 0xc000_0000
    ensures !HoldsPage(y.h, ArenaOf(v))
  {
    hide Agree, HeapInv, Account, HoldsPage, ArenaOf, AtHome, PageNo, View;
    LayoutOf(vm);
    if HoldsPage(y.h, ArenaOf(v)) { HeldPage(vm, taken, y, v); }
  }

  /** block_desc_init for a new process disturbs no heap, and its heap joins them. */
  lemma InitKeeps(a: Vm, b: Vm, taken: set<Use>, sites: map<int, Site>, cur: int, x: Site)
    requires Agree(a) && AllFine(a, taken, sites) && x.space !in sites && b == a.(mem := b.mem)
    requires x.space != BOOT_DIR && x.h == EmptyHeap() && Fine(b, taken, x)
    requires OutsideKept(View(a, cur), View(b, cur), x.descs, EmptyHeap()) && HalvesKept(a, b, cur)
    requires forall s :: s in sites ==>
      Disjoint(sites[s].descs, sites[s].descs + DESCS_BYTES, x.descs, x.descs + DESCS_BYTES)
    ensures AllFine(b, taken, sites[x.space := x]) && forall s :: s in sites ==> Undisturbed(a, b, sites[s])
  {
    hide Agree, Fine, View, HalvesKept, Undisturbed, Account, OutsideKept, Apart, Private, EmptyHeap;
    HomeOf(b, taken, x);
    forall s | s in sites ensures Undisturbed(a, b, sites[s]) && Fine(b, taken, sites[s]) {
      FineIs(a, taken, sites[s]);
      GivenApart(a, taken, sites[s], x.descs);
      BothHalves(x.descs, sites[s]);
      SiteKept(a, b, cur, x.descs, EmptyHeap(), sites[s]);
      StillFine(a, b, taken, taken, sites[s]);
    }
  }

  lemma BothHalves(descs: int, y: Site)
    requires Apart(descs, EmptyHeap(), y) && forall v :: Private(descs, EmptyHeap(), v) ==> v >= 0xc000_0000
    ensures forall v :: !(Private(descs, EmptyHeap(), v) && Private(y.descs, y.h, v))
  {
    hide Private;
  }

  lemma HomeOf(vm: Vm, taken: set<Use>, x: Site)
    requires Fine(vm, taken, x) && x.space != BOOT_DIR
    ensures AtHome(Site(-1, x.descs, EmptyHeap()), taken)
  {
    hide HeapInv, View, Account;
  }

  /** A store under cur to a word that is private to no heap disturbs none. */
  lemma StoreKeeps(a: Vm, b: Vm, taken: set<Use>, sites: map<int, Site>, cur: int, v: int, x: int)
    requires Agree(a) && AllFine(a, taken, sites) && b == a.(mem := b.mem) && HalvesKept(a, b, cur)
    requires View(b, cur) == View(a, cur)[v := x] && v in View(a, cur)
    requires forall s :: s in sites ==> !Private(sites[s].descs, sites[s].h, v)
    ensures AllFine(b, taken, sites) && forall s :: s in sites ==> Undisturbed(a, b, sites[s])
  {
    hide Agree, Fine, View, HalvesKept, Undisturbed, Account, Private;
    forall s | s in sites ensures Undisturbed(a, b, sites[s]) && Fine(b, taken, sites[s]) {
      FineIs(a, taken, sites[s]);
      StoreMisses(a, b, cur, sites[s], v, x);
      StillFine(a, b, taken, taken, sites[s]);
    }
  }

  lemma StoreMisses(a: Vm, b: Vm, cur: int, y: Site, v: int, x: int)
    requires Agree(a) && IsSpace(a, y.space) && HalvesKept(a, b, cur) && !Private(y.descs, y.h, v)
    requires View(b, cur) == View(a, cur)[v := x] && v in View(a, cur)
    ensures Undisturbed(a, b, y)
  {
    hide Agree, View, UserHalf, Private;
    forall u | u in View(a, y.space) && Private(y.descs, y.h, u)
      ensures u in View(b, y.space) && View(b, y.space)[u] == View(a, y.space)[u]
    {
      assert u != v;
      if u >= 0xc000_0000 {
        KernelWords(a, y.space, cur, u);
        KernelWords(b, y.space, cur, u);
      } else if y.space != cur {
        BootIsEmpty(a);
        assert u in UserHalf(View(a, y.space));
      }
    }
  }

  // What the clients of all heaps see.

  ghost predicate Tells(vm: Vm, sites: map<int, Site>, ideals: map<int, Ideal>) {
    ideals.Keys == sites.Keys && forall s :: s in sites ==> Shows(View(vm, s), sites[s].h, ideals[s])
  }

  lemma TellsKept(a: Vm, b: Vm, taken: set<Use>, x: Site, i: Ideal)
    requires Fine(a, taken, x) && Undisturbed(a, b, x) && Shows(View(a, x.space), x.h, i)
    ensures Shows(View(b, x.space), x.h, i)
  {
    hide HeapInv, View, Shows, Private, Account;
    ShowsFrame(View(a, x.space), View(b, x.space), x.descs, x.h, Low(HalfOf(x.space)), SiteEnd(a, x.space), i);
  }

  lemma AllTold(a: Vm, b: Vm, taken: set<Use>, sites: map<int, Site>, ideals: map<int, Ideal>, skip: set<int>)
    requires AllFine(a, taken, sites) && Tells(a, sites, ideals)
    requires forall s :: s in sites && s !in skip ==> Undisturbed(a, b, sites[s])
    ensures forall s :: s in sites && s !in skip ==> Shows(View(b, s), sites[s].h, ideals[s])
  {
    hide Fine, View, Shows, Undisturbed;
    forall s | s in sites && s !in skip ensures Shows(View(b, s), sites[s].h, ideals[s]) {
      TellsKept(a, b, taken, sites[s], ideals[s]);
    }
  }

  // Regions in physical memory.

  /** v is a word of the live region p of heap x. */
  predicate WordOfRegion(x: Site, p: int, v: int) {
    p in x.h.live && p <= v < p + x.h.live[p] && v % 4 == 0
  }

  /** Where a word of a live region is. */
  lemma RegionWord(vm: Vm, taken: set<Use>, x: Site, p: int, v: int)
    requires Agree(vm) && Fine(vm, taken, x) && WordOfRegion(x, p, v)
    ensures v in View(vm, x.space) && DataPage(vm, x.space, v / 0x1000)
    ensures Walk(vm.mem, x.space, v) == Some(Phys(FrameAt(vm, x.space, v / 0x1000), Offset(v)))
    ensures x.space != BOOT_DIR ==> 0 <= v < 0xc000_0000
  {
    hide Agree, Shape, Stored, Partial, DataPage, FrameAt, IsSmall, IsLarge, View;
    var _ := InRegion(View(vm, x.space), x.descs, x.h, Low(HalfOf(x.space)), SiteEnd(vm, x.space), v);
    LiveBounds(x.h, Low(HalfOf(x.space)), SiteEnd(vm, x.space), p);
    LayoutOf(vm);
    assert Readable(vm, x.space, v);
    DataWalk(vm, x.space, v / 0x1000);
    WalkIsLookup(vm.mem, x.space, v);
  }

  /** No word of a live region of any heap is, in physical memory, a word of another live region of
      the same heap or of any other. */
  lemma RegionsDiffer(vm: Vm, taken: set<Use>, x: Site, p: int, v: int, y: Site, q: int, u: int)
    requires Agree(vm) && Fine(vm, taken, x) && Fine(vm, taken, y) && (x == y || x.space != y.space)
    requires WordOfRegion(x, p, v) && WordOfRegion(y, q, u) && (x.space != y.space || p != q)
    ensures Walk(vm.mem, x.space, v).Some? && Walk(vm.mem, y.space, u).Some?
    ensures Walk(vm.mem, x.space, v) != Walk(vm.mem, y.space, u)
  {
    hide Agree, Fine, View, DataPage, FrameAt, Walk;
    RegionWord(vm, taken, x, p, v);
    RegionWord(vm, taken, y, q, u);
    if x.space == y.space {
      ShapeOf(vm, taken, x);
      RegionsApart(x.h, Low(HalfOf(x.space)), SiteEnd(vm, x.space), p, q);
      if v / 0x1000 != u / 0x1000 {
        FrameAtInjective(vm, x.space, v / 0x1000, u / 0x1000);
      } else {
        OtherWord(v, u);
      }
    } else if y.space != BOOT_DIR {
      SpaceOf(vm, taken, y);
      FramesOfTwo(vm, x.space, v / 0x1000, y.space, u / 0x1000);
    } else {
      SpaceOf(vm, taken, x);
      FramesOfTwo(vm, y.space, u / 0x1000, x.space, v / 0x1000);
    }
  }

  lemma SpaceOf(vm: Vm, taken: set<Use>, x: Site)
    requires Fine(vm, taken, x)
    ensures IsSpace(vm, x.space)
  {
  }

  lemma ShapeOf(vm: Vm, taken: set<Use>, x: Site)
    requires Fine(vm, taken, x)
    ensures IsSpace(vm, x.space) && Shape(x.h, Low(HalfOf(x.space)), SiteEnd(vm, x.space))
  {
    hide Shape, Stored, Partial;
  }
}
