/** The first process after mem_init: what process_execute leaves of frames and pages, and when
    start_process gets the page of its stack. */
module FirstProcesses {
  import opened Paging
  import opened Agreement
  import opened Bitmaps
  import opened Views
  import opened Growth
  import opened Supplies
  import opened PageManagement
  import opened Heaps
  import opened Moves
  import opened IdealHeaps
  import opened Sites
  import opened Systems
  import Layout

  const STACK := 0xbfff_f000 // USER_STACK3_VADDR

  // Windows in a bitmap of which the first i bits are set.

  /** The first i of n bits are set. */
  ghost predicate SetUpTo(v: seq<bool>, n: int, i: int) {
    |v| == n && 0 <= i <= n && forall j :: 0 <= j < n ==> (v[j] <==> j < i)
  }

  lemma NextWindow(v: seq<bool>, n: int, i: int, cnt: nat)
    requires SetUpTo(v, n, i) && i + cnt < n / 8 && cnt > 0
    ensures FirstFit(v, cnt, i) && SetUpTo(SetRange(v, i, cnt, true), n, i + cnt)
    ensures Takes(v, cnt, SetRange(v, i, cnt, true))
  {
    forall k | k < i ensures !Fits(v, |v| / 8, cnt, k) { assert 0 <= k ==> v[k]; }
  }

  /** With nothing taken there is room for a process from 26 bytes of kernel bitmap on. */
  lemma FirstRoom(vm: Vm, kb: int, ub: int)
    requires NothingTaken(vm, kb, ub)
    ensures Creates(vm) <==> kb >= 26
    ensures Supply(vm.kp) == (if kb >= 1 then kb - 1 else 0) && Supply(vm.up) == (if ub >= 1 then ub - 1 else 0)
  {
    hide Takes, Supply, SetRange, FirstFit;
    CreatesIs(vm);
    EmptySupply(vm.kp, kb);
    EmptySupply(vm.up, ub);
    if kb >= 26 {
      var n := 8 * kb;
      assert SetUpTo(vm.kv, n, 0);
      NextWindow(vm.kv, n, 0, 1);
      var a := SetRange(vm.kv, 0, 1, true);
      NextWindow(a, n, 1, 23);
      var b := SetRange(a, 1, 23, true);
      NextWindow(b, n, 24, 1);
    }
  }

  lemma EmptySupply(v: seq<bool>, bytes: int)
    requires 0 <= bytes && v == seq(8 * bytes, _ => false)
    ensures Supply(v) == if bytes >= 1 then bytes - 1 else 0
  {
    if bytes >= 1 { AllSupply(v); }
  }

  // What process_execute leaves.

  lemma KernelTook(a: Vm, b: Vm, cur: int, i: int, n: nat)
    requires TookFirst(a, b, Kernel, cur, i, n)
    ensures SameShape(a, b) && b.uv == a.uv && Supply(b.kp) == Supply(a.kp) - n
    ensures forall f :: f in a.owner ==> f in b.owner && b.owner[f] == a.owner[f]
    ensures forall f :: f in b.owner && f !in a.owner ==> b.owner[f].KPage?
  {
    hide Supply, SetRange, FirstFit;
  }

  /** process_execute takes 25 kernel frames and no user frame, and the new space has no page and no
      page table. */
  lemma Opening(a: Vm, sites: map<int, Site>, b: Vm, sites': map<int, Site>, cur: int, r: Got)
    requires Founded(a, sites, b, sites', cur, r) && Agree(a) && Agree(b)
    ensures Supply(b.kp) == Supply(a.kp) - 25 && b.up == a.up
    ensures r.p in b.uv && b.uv[r.p] == seq(U_PAGES, _ => false)
    ensures forall d :: 0 <= d < 768 ==> !Present(Rd(b.mem, r.p, d))
  {
    hide Supply, TookFirst, Agree, Present, UserWrite, Rd;
    var x, y, pcb, q, v :| TookFirst(a, x, Kernel, cur, PageNo(Kernel, pcb), 1)
      && TookFirst(x, y, Kernel, cur, PageNo(Kernel, q), BITMAP_PAGES)
      && NewDirectory(y, b, cur, r.p, PageNo(Kernel, v));
    KernelTook(a, x, cur, PageNo(Kernel, pcb), 1);
    KernelTook(x, y, cur, PageNo(Kernel, q), BITMAP_PAGES);
    KernelTook(y, b.(uv := y.uv), cur, PageNo(Kernel, v), 1);
    UserFramesStay(a, b);
    forall d | 0 <= d < 768 ensures !Present(Rd(b.mem, r.p, d)) {
      TableOwned(b, r.p, d);
      NoTableYet(a, b, r.p, d);
    }
  }

  predicate SameStart(a: Vm, b: Vm) { b.ustart == a.ustart && b.kstart == a.kstart }

  lemma UserFramesStay(a: Vm, b: Vm)
    requires Agree(a) && Agree(b) && SameStart(a, b) && |b.up| == |a.up| && |b.kp| == |a.kp|
    requires forall f :: f in a.owner ==> f in b.owner && b.owner[f] == a.owner[f]
    requires forall f :: f in b.owner && f !in a.owner ==> b.owner[f].KPage?
    ensures b.up == a.up
  {
    hide Directories, KernelPages, UserPages, UserTables, FrameOf, KPte, UPte, Present, Rd;
    forall j | 0 <= j < |a.up| ensures b.up[j] == a.up[j] {}
  }

  lemma NoTableYet(a: Vm, b: Vm, s: int, d: int)
    requires Agree(a) && s !in a.uv
    requires forall f :: f in a.owner ==> f in b.owner && b.owner[f] == a.owner[f]
    requires forall f :: f in b.owner && f !in a.owner ==> b.owner[f].KPage?
    ensures !exists f :: Owns(b, f, UTable(s, d))
  {
    hide Directories, KernelPages, UserPages, UserTables, FrameOf, KPte, UPte, Present, Rd, PoolBits;
  }

  /** The stack page of a new process. */
  lemma StackServed(vm: Vm, f: int)
    requires f in vm.uv && f != BOOT_DIR && vm.uv[f] == seq(U_PAGES, _ => false)
    requires forall d :: 0 <= d < 768 ==> !Present(Rd(vm.mem, f, d))
    ensures PageStop(vm, f, User, STACK) == Running <==> Supply(vm.up) > 0 && Supply(vm.kp) > 0
  {
    hide Supply, Present, UserWrite, Rd;
    PageStops(vm, f, User, STACK);
    assert BitIndex(User, STACK) == U_PAGES - 1;
  }

  /** Once it is mapped the process may write there. */
  lemma StackWritable(a: Vm, b: Vm, f: int, v: int)
    requires Took(a, b, User, f, PageNo(User, STACK), 1) && Agree(b) && STACK <= v < STACK + 0x1000
    ensures UserWalk(b.mem, f, v).Some?
  {
    hide Agree, Spent, Uses, FrameAt, UserWalk;
    assert PageNo(User, STACK) == U_PAGES - 1;
    assert v / 0x1000 == U_PAGE0 + (U_PAGES - 1);
    LayoutOf(b);
    UserAccess(b, f, v);
  }

  /** process_execute in a system that has just begun. */
  method FirstExecute(sys: System, w0: World, ghost kb: int, ghost ub: int)
    returns (stop: Stop, f: int, w: World, ghost born: set<object>)
    requires sys.Valid() && sys.Shown(w0) && NothingTaken(sys.m.Snap(), kb, ub)
    modifies sys`heaps, sys.m, sys.Repr()
    ensures stop == Running <==> kb >= 26
    ensures stop == Running ==> sys.Valid() && sys.Shown(w) && f in w.heaps && f != BOOT_DIR && f in sys.m.Snap().uv
    ensures stop == Running ==> sys.m.Snap().uv[f] == seq(U_PAGES, _ => false)
    ensures stop == Running ==> forall d :: 0 <= d < 768 ==> !Present(Rd(sys.m.Snap().mem, f, d))
    ensures stop == Running ==> Supply(sys.m.Snap().kp) == kb - 26 && (Supply(sys.m.Snap().up) > 0 <==> ub > 1)
    ensures stop == Running ==> fresh(born) && sys.Repr() <= old(sys.Repr()) + born
  {
    hide Agree, Creates, Served, ActMoves, Founded, Fair, Supply, NothingTaken, Present, UserWrite, Rd, Tells, AllFine;
    hide PageManager.Valid, PageManager.Snap, PageManager.Arrays, System.Valid, System.Shown, System.Repr;
    hide System.Heaps, System.Sites, System.Ready;
    ghost var vm, sites, cur := sys.m.Snap(), sys.Sites(), sys.m.cur;
    sys.Start(w0);
    IsReadyFor(sys, w0);
    ServedIs(vm, sites, cur, sys.PoolSize(cur));
    FirstRoom(vm, kb, ub);
    var r;
    stop, r, born := sys.Do(Execute, w0);
    f, w := r.p, w0;
    if stop != Running { return; }
    w := Next(w0, Execute, r);
    sys.Start(w);
    MovesFounded(vm, sites, sys.m.Snap(), sys.Sites(), cur, r, sys.PoolSize(cur));
    Opening(vm, sites, sys.m.Snap(), sys.Sites(), cur, r);
    NoBoot(sys.m.Snap());
  }

  lemma MovesFounded(a: Vm, sites: map<int, Site>, b: Vm, sites': map<int, Site>, cur: int, r: Got, pool: int)
    requires ActMoves(a, sites, b, sites', cur, Execute, r, pool)
    ensures Founded(a, sites, b, sites', cur, r)
  {
    hide Founded;
  }

  lemma IsReadyFor(sys: System, w: World)
    requires sys.Valid() && sys.Shown(w)
    ensures w.cur == sys.m.cur && sys.m.cur in sys.Sites() && IsSpace(sys.m.Snap(), sys.m.cur)
    ensures |sys.Sites()[sys.m.cur].h.free| == CLASSES
  {
    hide System.Valid, System.Shown, Coherent, System.Sites, PageManager.Snap;
    sys.NowIsCoherent(w);
    sys.IsReady(Execute, w);
    assert Coherent(sys.Now(w));
    CoherentHere(sys.Now(w));
  }

  lemma CoherentHere(s: Shot)
    requires Coherent(s)
    ensures s.w.cur in s.sites && IsSpace(s.vm, s.w.cur) && |s.sites[s.w.cur].h.free| == CLASSES && Agree(s.vm)
  {
    hide Agree, AllFine, Tells;
  }

  /** The switch to the new process, and get_a_page for its stack. */
  method FirstStack(sys: System, f: int, w0: World) returns (stop: Stop, w: World, ghost born: set<object>)
    requires sys.Valid() && sys.Shown(w0) && f in w0.heaps && f != BOOT_DIR && f in sys.m.Snap().uv
    requires sys.m.Snap().uv[f] == seq(U_PAGES, _ => false)
    requires forall d :: 0 <= d < 768 ==> !Present(Rd(sys.m.Snap().mem, f, d))
    modifies sys`heaps, sys.m, sys.Repr()
    ensures stop == Running <==> old(Supply(sys.m.Snap().up) > 0 && Supply(sys.m.Snap().kp) > 0)
    ensures stop == Running ==> sys.Valid() && sys.Shown(w) && sys.m.cur == f
    ensures stop == Running ==> forall v :: STACK <= v < STACK + 0x1000 ==> UserWalk(sys.m.mem, f, v).Some?
  {
    hide Agree, Served, ActMoves, Fair, Supply, Present, UserWrite, Rd, Tells, AllFine, Took, PageStop, UserWalk;
    hide PageManager.Valid, PageManager.Snap, PageManager.Arrays, System.Valid, System.Shown, System.Repr;
    hide System.Heaps, System.Sites, System.Ready;
    ghost var vm := sys.m.Snap();
    StackServed(vm, f);
    IsReadyFor(sys, w0);
    ServedIs(vm, sys.Sites(), sys.m.cur, sys.PoolSize(sys.m.cur));
    var r;
    ghost var more;
    stop, r, born := sys.Do(Switch(f), w0);
    w := Next(w0, Switch(f), r);
    MovesSwitch(vm, old(sys.Sites()), sys.m.Snap(), sys.Sites(), w0.cur, f, r, sys.PoolSize(w0.cur));
    IsReadyFor(sys, w);
    ghost var sites := sys.Sites();
    ServedIs(vm, sites, f, sys.PoolSize(f));
    stop, r, more := sys.Do(TakeAt(User, STACK), w);
    if stop != Running { return; }
    w := Next(w, TakeAt(User, STACK), r);
    IsReadyFor(sys, w);
    sys.Start(w);
    MovesTook(vm, sites, sys.m.Snap(), sys.Sites(), f, r, sys.PoolSize(f));
    sys.m.SnapMem();
    forall v | STACK <= v < STACK + 0x1000 ensures UserWalk(sys.m.mem, f, v).Some? {
      StackWritable(vm, sys.m.Snap(), f, v);
    }
  }

  lemma MovesSwitch(a: Vm, sites: map<int, Site>, b: Vm, sites': map<int, Site>, cur: int, s: int, r: Got, pool: int)
    requires ActMoves(a, sites, b, sites', cur, Switch(s), r, pool)
    ensures b == a && sites' == sites
  {
  }

  lemma MovesTook(a: Vm, sites: map<int, Site>, b: Vm, sites': map<int, Site>, cur: int, r: Got, pool: int)
    requires ActMoves(a, sites, b, sites', cur, TakeAt(User, STACK), r, pool)
    ensures Took(a, b, User, cur, PageNo(User, STACK), 1)
  {
    hide Took;
  }

  /** From mem_init on, process_execute, the switch to the process and get_a_page for its stack are all
      served if and only if the kernel pool has 27 bytes of bitmap; then code of the process may write
      to its stack. */
  method FirstProcess(allMem: int, boot: Mem, descs: int) returns (sys: System, stop: Stop, f: int)
    requires 0x20_0000 <= allMem < 0x1_0000_0000
    requires KernelHalf(boot, BOOT_DIR) && forall t :: 0 <= t < 256 ==> Maps(Rd(boot, BOOT_TABLE, t), t)
    requires forall i :: 0 <= i < 0x8000 ==> !Present(KPte(boot, i))
    requires 0xc000_0000 <= descs && descs + DESCS_BYTES <= 0xc010_0000 && descs % 4 == 0
    ensures stop == Running <==> Layout.MemPoolInit(allMem).kernelBytes >= 27
    ensures stop == Running ==> sys.Valid() && sys.m.cur == f && f != BOOT_DIR
    ensures stop == Running ==> forall v :: STACK <= v < STACK + 0x1000 ==> UserWalk(sys.m.mem, f, v).Some?
  {
    hide *;
    ghost var p := Layout.MemPoolInit(allMem);
    Layout.PoolsFit(allMem);
    Layout.PoolsShare(allMem);
    sys := MemInit(allMem, boot, descs);
    var w := World(BOOT_DIR, map[BOOT_DIR := Ideal(map[], map[])], {});
    ghost var born;
    stop, f, w, born := FirstExecute(sys, w, p.kernelBytes, p.userBytes);
    if stop != Running { return; }
    stop, w, born := FirstStack(sys, f, w);
  }
}
