/** The page layer of kernel/memory.c and userprog/process.c: frame pools, virtual page pools,
    and page tables edited through the self-mapping window. */
module PageManagement {
  import opened Paging
  import opened Agreement
  import opened Bitmaps
  import opened Views
  import opened Growth
  import opened Supplies
  import Layout

  /** Why a run stopped: the failed ASSERT or the PANIC, or a write past a bitmap. Running is none. */
  datatype Stop = Running | BadCount | NoVaddr | NoFrame | PteRepeat | BadIndex | WrongHalf | Overrun
                | NullPointer

  /** The index of v's page in the virtual bitmap of pf. */
  function PageNo(pf: Half, v: int): int { v / 0x1000 - Page0(pf) }

  /** The index get_a_page computes, with unsigned 32-bit arithmetic. */
  function BitIndex(pf: Half, v: int): (i: int)
    ensures 0 <= i < 0x10_0000
  {
    (v - Page0(pf) * 0x1000) % 0x1_0000_0000 / 0x1000
  }

  /** How get_a_page ends under directory cur. */
  ghost function PageStop(vm: Vm, cur: int, pf: Half, v: int): Stop
    requires cur == BOOT_DIR || cur in vm.uv
  {
    var i := BitIndex(pf, v);
    if pf == User <==> cur == BOOT_DIR then WrongHalf
    else if i == 0 then BadIndex
    else if i >= |VBits(vm, pf, cur)| then Overrun
    else if Supply(PoolOf(vm, pf)) == 0 then NoFrame
    else if VBits(vm, pf, cur)[i] then PteRepeat
    else if Enough(vm, pf, cur, i, 1) then Running
    else NoFrame
  }

  /** When it ends how. */
  lemma PageStops(vm: Vm, cur: int, pf: Half, v: int)
    requires cur == BOOT_DIR || cur in vm.uv
    ensures PageStop(vm, cur, pf, v) == WrongHalf <==> (pf == User <==> cur == BOOT_DIR)
    ensures (pf == User <==> cur != BOOT_DIR) ==>
      var bits, i, stop := VBits(vm, pf, cur), BitIndex(pf, v), PageStop(vm, cur, pf, v);
      var frames := Supply(if pf == Kernel then vm.kp else vm.up);
      var table := pf == User && !Present(Rd(vm.mem, cur, (U_PAGE0 + i) / 1024));
      && (stop == BadIndex <==> i == 0) && (stop == Overrun <==> 0 < i && |bits| <= i)
      && (stop == PteRepeat <==> 0 < i < |bits| && bits[i] && frames > 0)
      && (stop == NoFrame <==> 0 < i < |bits| && (frames == 0 || (!bits[i] && table && Supply(vm.kp) == 0)))
      && (stop == Running <==> 0 < i < |bits| && !bits[i] && frames > 0 && (table ==> Supply(vm.kp) > 0))
  {
    hide Supply, BitIndex;
    assert Missing(vm.mem, cur, U_PAGE0 + BitIndex(pf, v), 0) == 0;
  }

  /** elsewhere is the user half of every address space but cur's, and pgdir the kernel page that
      each directory is. */
  ghost predicate Away(vm: Vm, cur: int, elsewhere: map<int, Words>, pgdir: map<int, int>) {
    && (forall s :: s in vm.uv && s != cur ==> s in elsewhere && UserHalf(View(vm, s)) == elsewhere[s])
    && (forall s :: s in vm.uv ==>
      s in pgdir && pgdir[s] % 0x1000 == 0 && Owns(vm, s, KPage(PageNo(Kernel, pgdir[s]))))
  }

  lemma AwayGrew(a: Vm, b: Vm, pf: Half, cur: int, lo: int, hi: int, tables: bool, elsewhere: map<int, Words>,
                 pgdir: map<int, int>)
    requires Agree(a) && Grew(a, b, pf, cur, lo, hi, tables)
    ensures Away(a, cur, elsewhere, pgdir) <==> Away(b, cur, elsewhere, pgdir)
  {
    hide Extends, Isolated, Bits, View, UserHalf, PageNo;
    FramesApart(a);
    hide Agree;
  }

  /** A store through the active directory reaches no user page of another space. */
  lemma StoreAway(vm: Vm, cur: int, v: int, w: int, elsewhere: map<int, Words>, pgdir: map<int, int>)
    requires Agree(vm) && IsDir(vm, cur) && v in View(vm, cur) && Away(vm, cur, elsewhere, pgdir)
    ensures Away(StoreWord(vm, FrameAt(vm, cur, v / 0x1000), v % 0x1000 / 4, w), cur, elsewhere, pgdir)
  {
    hide Agree, DataPage, FrameAt, IsData, View, UserHalf;
    var f, x := FrameAt(vm, cur, v / 0x1000), v % 0x1000 / 4;
    var vm' := StoreWord(vm, f, x, w);
    DataWalk(vm, cur, v / 0x1000);
    forall s | s in vm.uv && s != cur ensures UserHalf(View(vm', s)) == UserHalf(View(vm, s)) {
      StorePages(vm, s, f, x, w);
      assert forall u :: Readable(vm', s, u) <==> Readable(vm, s, u);
      forall p | 0 <= p < K_LOW_PAGE && DataPage(vm, s, p) ensures FrameAt(vm, s, p) != f {
        FramesOfTwo(vm, cur, v / 0x1000, s, p);
      }
      SameHalf(View(vm, s), View(vm', s));
    }
  }

  lemma SameHalf(a: Words, b: Words)
    requires forall v :: v < 0xc000_0000 ==> (v in a <==> v in b)
    requires forall v :: v in a && v < 0xc000_0000 ==> a[v] == b[v]
    ensures UserHalf(a) == UserHalf(b)
  {
    var x, y := UserHalf(a), UserHalf(b);
    assert forall v :: v in x <==> v in y;
    assert forall v :: v in x ==> x[v] == y[v];
  }

  lemma AwaySwitch(vm: Vm, cur: int, next: int, elsewhere: map<int, Words>, pgdir: map<int, int>)
    requires Away(vm, cur, elsewhere, pgdir)
    ensures Away(vm, next, elsewhere[cur := UserHalf(View(vm, cur))], pgdir)
  {
    hide View, UserHalf;
  }

  /** A frame behind a user page of s backs no data page of another space. */
  lemma FramesOfTwo(vm: Vm, cur: int, p: int, s: int, q: int)
    requires Agree(vm) && s in vm.uv && s != cur && DataPage(vm, cur, p)
    requires 0 <= q < K_LOW_PAGE && DataPage(vm, s, q)
    ensures FrameAt(vm, cur, p) != FrameAt(vm, s, q)
  {
    hide Present, UserWrite, Rd, FrameOf, PoolBits, Directories;
  }

  /** What a new space leaves of virtual memory: all but the page that is its directory. */
  lemma AddSpaceView(vm: Vm, f: int, src: int, s: int)
    requires Agree(vm) && IsDir(vm, s) && f in vm.owner && vm.owner[f].KPage? && f !in vm.uv && f != src
    ensures var w := View(AddSpace(vm, f, src), s);
      && (forall v :: v in w <==> v in View(vm, s) && v / 0x1000 != K_PAGE0 + vm.owner[f].i)
      && (forall v :: v in w ==> w[v] == View(vm, s)[v])
  {
    hide DataPage, FrameAt, Agree, View, Rd;
    AddSpaceReads(vm, f, src);
    var vm' := AddSpace(vm, f, src);
    AddSpacePages(vm, f, src, s);
    assert forall v :: Readable(vm', s, v) <==> Readable(vm, s, v) && v / 0x1000 != K_PAGE0 + vm.owner[f].i;
  }

  lemma AddSpacePages(vm: Vm, f: int, src: int, s: int)
    requires Agree(vm) && IsDir(vm, s) && f in vm.owner && vm.owner[f].KPage? && f !in vm.uv && f != src
    ensures var vm' := AddSpace(vm, f, src);
      && (forall p :: DataPage(vm', s, p) <==> DataPage(vm, s, p) && p != K_PAGE0 + vm.owner[f].i)
      && (forall p :: DataPage(vm', s, p) ==> FrameAt(vm', s, p) == FrameAt(vm, s, p) && FrameAt(vm, s, p) != f)
  {
    hide Present, UserWrite, Rd, FrameOf, Entry, PoolBits, Directories, DirFrame;
    AddSpaceReads(vm, f, src);
    FramesApart(vm);
  }

  /** A new space has nothing in its user half, and the others keep what they had. */
  lemma AddSpaceAway(vm: Vm, f: int, v: int, cur: int, elsewhere: map<int, Words>, pgdir: map<int, int>)
    requires Agree(vm) && IsDir(vm, cur) && f !in vm.uv && f != cur
    requires Owns(vm, f, KPage(PageNo(Kernel, v))) && v % 0x1000 == 0 && Away(vm, cur, elsewhere, pgdir)
    ensures Away(AddSpace(vm, f, cur), cur, elsewhere[f := map[]], pgdir[f := v])
  {
    hide Agree, View, UserHalf, DirFrame, PageNo;
    var vm' := AddSpace(vm, f, cur);
    forall s | s in vm.uv && s != cur ensures UserHalf(View(vm', s)) == UserHalf(View(vm, s)) {
      AddSpaceView(vm, f, cur, s);
      OwnPage(vm, f);
      SameHalf(View(vm, s), View(vm', s));
    }
    NoUserWords(vm', f);
    assert UserHalf(View(vm', f)) == map[];
  }

  lemma OwnPage(vm: Vm, f: int)
    requires Agree(vm) && f in vm.owner && vm.owner[f].KPage?
    ensures 0 <= vm.owner[f].i < |vm.kv|
  {
    hide Present, UserWrite, Rd, FrameOf, PoolBits;
  }

  lemma NoUserWords(vm: Vm, s: int)
    requires s in vm.uv && |vm.uv[s]| == U_PAGES && forall i :: 0 <= i < U_PAGES ==> !vm.uv[s][i]
    ensures forall v :: v in View(vm, s) ==> v >= 0xc000_0000
  {
    hide FrameAt, Rd;
  }

  class PageManager {
    const kp: Bitmap       // kernel_pool.pool_bitmap
    const up: Bitmap       // user_pool.pool_bitmap
    const kv: Bitmap       // kernel_vaddr.vaddr_bitmap
    const kstart: int      // first frame of each pool
    const ustart: int
    var uv: map<int, Bitmap> // userprog_vaddr.vaddr_bitmap of each process, by the frame of its directory
    var pgdir: map<int, int> // the page of each such directory
    var mem: Mem
    var cur: int             // frame of the active directory (cr3)
    ghost var owner: map<int, Use>
    ghost var elsewhere: map<int, Words> // the user half of every address space but the active one
    ghost var taken: set<Use>            // pages handed out, but for those of sys_malloc

    /** mem_init on the page tables the loader built: no heap page mapped, no process yet. */
    constructor (allMem: int, boot: Mem)
      requires 0x20_0000 <= allMem < 0x1_0000_0000
      requires KernelHalf(boot, BOOT_DIR) && forall t :: 0 <= t < 256 ==> Maps(Rd(boot, BOOT_TABLE, t), t)
      requires forall i :: 0 <= i < 0x8000 ==> !Present(KPte(boot, i))
      ensures Valid() && fresh(Arrays())
      ensures mem == boot && cur == BOOT_DIR && uv == map[] && owner == map[] && taken == {}
      ensures kp.View() == kv.View() == seq(8 * kp.bits.Length, _ => false)
      ensures up.View() == seq(8 * up.bits.Length, _ => false)
      ensures var p := Layout.MemPoolInit(allMem);
        && kstart * 0x1000 == p.kernelStart && ustart * 0x1000 == p.userStart
        && kp.bits.Length == p.kernelBytes == kv.bits.Length && up.bits.Length == p.userBytes
    {
      hide Agree, KernelHalf, Present, UserWrite, KPte, Entry, Rd, Layout.MemPoolInit, Unpack;
      var p := Layout.MemPoolInit(allMem);
      Layout.PoolsFit(allMem);
      kp := new Bitmap(p.kernelBytes);
      up := new Bitmap(p.userBytes);
      kv := new Bitmap(p.virtualBytes);
      kstart, ustart := p.kernelStart / 0x1000, p.userStart / 0x1000;
      uv, pgdir, mem, cur, owner, elsewhere, taken := map[], map[], boot, BOOT_DIR, map[], map[], {};
      new;
      assert UserBits() == map[];
      BootAgrees(Snap());
    }

    ghost function Arrays(): set<object>
      reads this`uv
    {
      {kp.bits, up.bits, kv.bits} + (set s | s in uv :: uv[s].bits)
    }

    lemma NotArray()
      ensures this !in Arrays()
    {
    }

    ghost predicate Separate()
      reads this`uv
    {
      && kp.bits != up.bits && kp.bits != kv.bits && up.bits != kv.bits
      && (forall s :: s in uv ==> uv[s].bits !in {kp.bits, up.bits, kv.bits})
      && (forall s, t :: s in uv && t in uv && s != t ==> uv[s].bits != uv[t].bits)
    }

    ghost function UserBits(): (m: map<int, seq<bool>>)
      reads this`uv, Arrays()
    {
      map s | s in uv :: uv[s].View()
    }

    ghost function Snap(): Vm
      reads this`mem, this`uv, this`owner, Arrays()
    {
      Vm(mem, kp.View(), up.View(), kv.View(), UserBits(), owner, kstart, ustart)
    }

    ghost predicate Valid()
      reads this`mem, this`cur, this`uv, this`owner, this`elsewhere, this`pgdir, Arrays()
    {
      Separate() && Agree(Snap()) && IsDir(Snap(), cur) && Away(Snap(), cur, elsewhere, pgdir)
    }

    function Pool(pf: Half): Bitmap { if pf == Kernel then kp else up }
    function PoolStart(pf: Half): int { if pf == Kernel then kstart else ustart }

    function Virtual(pf: Half): Bitmap
      requires pf == User ==> cur in uv
      reads this
    {
      if pf == Kernel then kv else uv[cur]
    }

    // Memory accesses through the active directory.

    method Load(v: int) returns (w: int)
      requires Walk(mem, cur, v).Some?
      ensures var p := Walk(mem, cur, v).value; w == Rd(mem, p.frame, p.offset / 4)
    {
      var p := Walk(mem, cur, v).value;
      w := Rd(mem, p.frame, p.offset / 4);
    }

    method Store(v: int, w: int)
      requires Walk(mem, cur, v).Some?
      modifies this`mem
      ensures var p := old(Walk(mem, cur, v).value); mem == Wr(old(mem), p.frame, p.offset / 4, w)
    {
      var p := Walk(mem, cur, v).value;
      mem := Wr(mem, p.frame, p.offset / 4, w);
    }

    /** memset(v, 0, PAGE_SIZE) */
    method ClearPage(v: int)
      requires Walk(mem, cur, v).Some? && v % 0x1000 == 0
      modifies this`mem
      ensures mem == ZeroFrame(old(mem), old(Walk(mem, cur, v).value.frame))
    {
      mem := ZeroFrame(mem, Walk(mem, cur, v).value.frame);
    }

    /** addr_v2p: the entry behind pte_ptr(v), and for a mapped page what the hardware finds. */
    method AddrV2P(v: int) returns (p: Phys)
      requires SelfMapped(mem, cur) && 0 <= v < 0x1_0000_0000 && Walk(mem, cur, PtePtr(v)).Some?
      ensures var q := Walk(mem, cur, PtePtr(v)).value; p == Phys(FrameOf(Rd(mem, q.frame, q.offset / 4)), Offset(v))
      ensures Walk(mem, cur, v).Some? ==> Walk(mem, cur, v) == Some(p)
    {
      hide Rd, Present, UserWrite, FrameOf, Entry, PtePtr;
      SelfMapWalk(mem, cur, v);
      var pte := Load(PtePtr(v));
      p := Phys(FrameOf(pte), v % 0x1000);
    }

    /** palloc */
    method Palloc(pf: Half) returns (stop: Stop, frame: int)
      modifies Pool(pf).bits
      ensures stop == Running || stop == NoFrame
      ensures stop == NoFrame <==> old(Supply(Pool(pf).View())) == 0
      ensures stop == NoFrame ==> Pool(pf).View() == old(Pool(pf).View())
      ensures stop == Running ==>
        var v, j := old(Pool(pf).View()), frame - PoolStart(pf);
        && Fits(v, Pool(pf).bits.Length, 1, j) && (forall k :: k < j ==> !Fits(v, Pool(pf).bits.Length, 1, k))
        && Pool(pf).View() == v[j := true]
    {
      hide Unpack, Supply, Fits;
      SupplyFits(Pool(pf).View(), Pool(pf).bits.Length);
      frame := 0;
      ghost var v := Pool(pf).View();
      var idx := Pool(pf).Scan(1);
      assert Pool(pf).View() == v;
      if idx == -1 { return NoFrame, 0; }
      assert Fits(v, Pool(pf).bits.Length, 1, idx);
      Pool(pf).Set(idx, true);
      return Running, PoolStart(pf) + idx;
    }

    /** pfree: the frame's bit in the pool its address lies in. */
    method Pfree(frame: int)
      requires kstart + 8 * kp.bits.Length <= ustart
      requires kstart <= frame < kstart + 8 * kp.bits.Length || ustart <= frame < ustart + 8 * up.bits.Length
      modifies kp.bits, up.bits
      ensures frame < ustart ==> kp.View() == old(kp.View())[frame - kstart := false]
      ensures frame >= ustart ==> up.View() == old(up.View())[frame - ustart := false]
      ensures frame < ustart && kp.bits != up.bits ==> up.View() == old(up.View())
      ensures frame >= ustart && kp.bits != up.bits ==> kp.View() == old(kp.View())
    {
      if frame >= ustart {
        up.Set(frame - ustart, false);
      } else {
        kp.Set(frame - kstart, false);
      }
    }

    /** page_table_add */
    method PageTableAdd(v: int, frame: int) returns (stop: Stop, table: int)
      requires 0 <= v < SELF_MAP && v % 0x1000 == 0 && SelfMapped(mem, cur)
      requires forall j :: 0 <= j < 8 * kp.bits.Length && cur == kstart + j ==> kp.View()[j]
      modifies this`mem, kp.bits
      ensures stop == Running || stop == NoFrame || stop == PteRepeat
      ensures stop == PteRepeat <==> old(Lookup(mem, cur, v / 0x1000)).Some?
      ensures stop == Running ==> mem == MapPage(old(mem), cur, v, frame, table)
      ensures old(Present(Rd(mem, cur, Dir(v)))) ==> kp.View() == old(kp.View())
      ensures stop == Running && !old(Present(Rd(mem, cur, Dir(v)))) ==>
        && Fits(old(kp.View()), kp.bits.Length, 1, table - kstart)
        && kp.View() == old(kp.View())[table - kstart := true]
      ensures stop == NoFrame <==> !old(Present(Rd(mem, cur, Dir(v)))) && old(Supply(kp.View())) == 0
    {
      stop, table := Running, 0;
      hide Present, UserWrite, Entry, FrameOf, Rd, Wr, ZeroFrame, PdePtr, PtePtr, Fits, Dir, Table, Supply, Unpack;
      var pde, pte := PdePtr(v), PtePtr(v);
      SelfMapWalk(mem, cur, v);
      WalkIsLookup(mem, cur, v);
      BelowWindow(v);
      var e := Load(pde);
      if Present(e) {
        var t := Load(pte);
        if Present(t) { return PteRepeat, 0; }
        Store(pte, Entry(frame));
      } else {
        stop, table := Palloc(Kernel);
        if stop != Running { return; }
        FitsIsClear(old(kp.View()), kp.bits.Length, table - kstart);
        Store(pde, Entry(table));
        SelfMapWalk(mem, cur, v);
        WindowPage(mem, cur, v);
        ClearPage(pte - pte % 0x1000);
        SelfMapWalk(mem, cur, v);
        ZeroIsAbsent();
        var t := Load(pte);
        assert !Present(t);
        Store(pte, Entry(frame));
      }
    }

    /** The snapshot is base, but for pages of pf whose bits are already set or still to clear. */
    ghost predicate Pending(base: Vm, pf: Half)
      reads this, Arrays()
    {
      && (pf == User ==> cur in base.uv && cur in uv)
      && base == WithVBits(Snap(), pf, cur, VBits(base, pf, cur))
    }

    /** What Pending says field by field. */
    ghost predicate Fields(base: Vm, pf: Half)
      reads this, Arrays()
    {
      && base.mem == mem && base.owner == owner && base.kstart == kstart && base.ustart == ustart
      && base.kp == kp.View() && base.up == up.View()
      && (pf == Kernel ==> base.uv == UserBits())
      && (pf == User ==> cur in base.uv && cur in uv && base.kv == kv.View())
      && (pf == User ==> base.uv == UserBits()[cur := base.uv[cur]])
    }

    lemma PendingFields(base: Vm, pf: Half)
      ensures Pending(base, pf) <==> Fields(base, pf)
    {
    }

    lemma SnapFields(pf: Half)
      requires pf == User ==> cur in uv
      ensures Snap().uv.Keys == uv.Keys && forall s :: s in uv ==> Snap().uv[s] == uv[s].View()
      ensures VBits(Snap(), pf, cur) == Virtual(pf).View()
    {
    }

    /** Once the bits agree, nothing is pending. */
    lemma PendingDone(base: Vm, pf: Half)
      requires Pending(base, pf) && VBits(base, pf, cur) == Virtual(pf).View()
      ensures base == Snap()
    {
      if pf == User {
        assert UserBits()[cur := UserBits()[cur]] == UserBits();
      }
    }

    /** A snapshot that differs in bits of pf at most is pending. */
    lemma StillPending(base: Vm, pf: Half)
      requires base.mem == mem && base.owner == owner && base.kstart == kstart && base.ustart == ustart
      requires base.kp == kp.View() && base.up == up.View() && base.uv.Keys == uv.Keys
      requires pf == User ==> cur in uv && base.kv == kv.View()
      requires forall s :: s in uv && (pf == Kernel || s != cur) ==> base.uv[s] == uv[s].View()
      ensures Pending(base, pf)
    {
      var a, b := if pf == User then UserBits()[cur := base.uv[cur]] else UserBits(), base.uv;
      assert forall u :: u in a <==> u in b;
      assert forall u :: u in a ==> a[u] == b[u];
    }

    twostate lemma UserBitsSame()
      requires old(uv) == uv && forall s :: s in uv ==> unchanged(uv[s].bits)
      ensures UserBits() == old(UserBits())
    {
      assert forall s :: s in UserBits() <==> s in old(UserBits());
      assert forall s :: s in UserBits() ==> UserBits()[s] == old(UserBits())[s];
    }

    /** palloc and page_table_add for managed page i of pf. */
    method AddPage(pf: Half, i: int, ghost base: Vm) returns (stop: Stop, ghost next: Vm)
      requires Separate() && Agree(base) && IsDir(base, cur) && Pending(base, pf)
      requires 0 <= i < |VBits(base, pf, cur)|
      modifies this`mem, this`owner, kp.bits, up.bits
      ensures stop == Running || stop == NoFrame || stop == PteRepeat
      ensures stop == PteRepeat <==> VBits(base, pf, cur)[i] && Supply(PoolOf(base, pf)) > 0
      ensures stop == Running <==> !VBits(base, pf, cur)[i] && Enough(base, pf, cur, i, 1)
      ensures stop == Running ==> Pending(next, pf) && Agree(next) && Grew(base, next, pf, cur, i, i + 1, pf == User)
      ensures stop == Running ==> Spent(base, next, pf, cur, i, 1)
    {
      hide Agree, Grew, SelfMapped, MapPage, Lookup, Fits, Present, UserWrite, UPde, Unpack, UserBits, Pending, IsDir;
      hide Supply;
      hide Spent;
      hide Enough;
      PendingFields(base, pf);
      next := base;
      var v := (Page0(pf) + i) * 0x1000;
      PageFields(Page0(pf) + i);
      DirIsTaken(base, cur);
      BitIsMapping(base, pf, cur, i);
      EnoughForOne(base, pf, cur, i);
      var frame, table;
      stop, frame := Palloc(pf);
      if stop != Running { return; }
      stop, table := PageTableAdd(v, frame);
      if stop != Running { return; }
      if pf == Kernel {
        KernelStep(base, i, frame - kstart, cur, table);
        next := MapK(base, i, frame - kstart);
      } else {
        next := UserStep(base, i, frame - ustart, cur, table);
        Overwrite(old(UserBits()), cur, base.uv[cur], next.uv[cur]);
      }
      owner := next.owner;
      UserBitsSame();
      PendingFields(next, pf);
    }

    /** The bitmap part of vaddr_get: take the window bitmap_scan finds. */
    method VaddrGet(pf: Half, cnt: int) returns (stop: Stop, start: int)
      requires 0 < cnt < 3840 && (pf == User ==> cur in uv)
      modifies Virtual(pf).bits
      ensures stop == Running || stop == NoVaddr
      ensures stop == NoVaddr <==> forall k :: !Fits(old(Virtual(pf).View()), Virtual(pf).bits.Length, cnt, k)
      ensures stop == Running ==>
        && Fits(old(Virtual(pf).View()), Virtual(pf).bits.Length, cnt, start)
        && (forall k :: k < start ==> !Fits(old(Virtual(pf).View()), Virtual(pf).bits.Length, cnt, k))
        && 0 <= start && start + cnt <= 8 * Virtual(pf).bits.Length
        && Virtual(pf).View() == SetRange(old(Virtual(pf).View()), start, cnt, true)
    {
      hide Unpack, Fits, AllClear;
      var map_ := Virtual(pf);
      ghost var v, bytes := map_.View(), map_.bits.Length;
      start := map_.Scan(cnt);
      assert map_.View() == v;
      if start == -1 { return NoVaddr, 0; }
      assert Fits(v, bytes, cnt, start);
      FitsInside(v, map_.bits.Length, cnt, start);
      for k := 0 to cnt
        invariant map_.View() == SetRange(v, start, k, true)
      {
        map_.Set(start + k, true);
        SetRangeGrows(v, start, k, true);
      }
      assert Virtual(pf) == map_ && Fits(v, bytes, cnt, start);
      return Running, start;
    }

    /** The loop of malloc_page, over pages whose bits are set already. */
    method MapPages(pf: Half, start: int, cnt: int, ghost base: Vm) returns (stop: Stop)
      requires Separate() && Agree(base) && IsDir(base, cur) && Pending(base, pf) && Away(base, cur, elsewhere, pgdir)
      requires pf == User ==> cur in uv && cur in base.uv
      requires 0 <= start && 0 <= cnt && start + cnt <= |VBits(base, pf, cur)|
      requires AllClear(VBits(base, pf, cur), start, start + cnt)
      requires Virtual(pf).View() == SetRange(VBits(base, pf, cur), start, cnt, true)
      modifies this`mem, this`owner, kp.bits, up.bits
      ensures stop == if Enough(base, pf, cur, start, cnt) then Running else NoFrame
      ensures stop == Running ==> Valid() && Grew(base, Snap(), pf, cur, start, start + cnt, pf == User)
      ensures stop == Running ==> Spent(base, Snap(), pf, cur, start, cnt)
    {
      hide Agree, Grew, Fits, AllClear, Unpack, UserBits, Pending, IsDir, SetRange, WithVBits, Away, Enough, Spent;
      stop := Running;
      ghost var next := base;
      GrewRefl(base, pf, cur, start, pf == User);
      SpentNone(base, pf, cur, start);
      LayoutOf(base);
      for k := 0 to cnt
        invariant stop == Running && Separate() && Agree(next) && IsDir(next, cur) && Pending(next, pf)
        invariant Virtual(pf).View() == old(Virtual(pf).View())
        invariant Grew(base, next, pf, cur, start, start + k, pf == User)
        invariant Spent(base, next, pf, cur, start, k)
      {
        NextClear(base, next, pf, cur, start, k, cnt, pf == User);
        ghost var before := next;
        stop, next := AddPage(pf, start + k, before);
        if stop != Running {
          NotEnough(base, before, pf, cur, start, k, cnt);
          return;
        }
        SpentNext(base, before, next, pf, cur, start, k);
        GrewBits(before, next, pf, cur, start + k, start + k + 1, pf == User);
        IsDirSame(before, next, cur);
        GrewTrans(base, before, next, pf, cur, start, start + k, start + k + 1, pf == User);
      }
      WasEnough(base, next, pf, cur, start, cnt);
      GrewBits(base, next, pf, cur, start, start + cnt, pf == User);
      IsDirSame(base, next, cur);
      AwayGrew(base, next, pf, cur, start, start + cnt, pf == User, elsewhere, pgdir);
      PendingDone(next, pf);
      assert Valid();
    }

    /** malloc_page: it goes on if and only if there is a window of pages and there are frames for
        them and for their tables, and it never stops at "PTE REPEAT"; then the least window of
        clear bits that the scan looks at is mapped, and nothing else. */
    method MallocPage(pf: Half, cnt: int) returns (stop: Stop, v: int)
      requires Valid() && (pf == User ==> cur in uv) && 0 <= cnt
      modifies this`mem, this`owner, kp.bits, up.bits, Virtual(pf).bits
      ensures stop == Running || stop == BadCount || stop == NoVaddr || stop == NoFrame
      ensures stop == Running <==> 0 < cnt < 3840 && old(Available(Snap(), pf, cur, cnt))
      ensures stop == BadCount <==> !(0 < cnt < 3840)
      ensures stop == NoVaddr <==>
        0 < cnt < 3840 && forall k :: !Fits(old(Virtual(pf).View()), Virtual(pf).bits.Length, cnt, k)
      ensures stop == Running ==> Valid() && v % 0x1000 == 0
      ensures stop == Running ==> FirstFit(old(VBits(Snap(), pf, cur)), cnt, PageNo(pf, v))
      ensures stop == Running ==>
        Grew(old(Snap()), Snap(), pf, cur, PageNo(pf, v), PageNo(pf, v) + cnt, pf == User)
      ensures stop == Running ==> Spent(old(Snap()), Snap(), pf, cur, PageNo(pf, v), cnt)
    {
      hide Agree, Grew, Fits, AllClear, Unpack, UserBits, Pending, IsDir, SetRange, WithVBits, PageNo, Away, Enough;
      hide Supply;
      hide Spent;
      v := 0;
      if !(0 < cnt < 3840) { return BadCount, 0; }
      ghost var base, bits, bytes := Snap(), Virtual(pf).View(), Virtual(pf).bits.Length;
      SnapFields(pf);
      var start;
      stop, start := VaddrGet(pf, cnt);
      FoundWindow(base, pf, cur, cnt, start);
      if stop != Running { return; }
      assert Fits(bits, bytes, cnt, start) && FirstFit(bits, cnt, start);
      FitsInside(bits, bytes, cnt, start);
      LayoutOf(base);
      assert pf == User ==> (U_PAGE0 + start) * 0x1000 < 0xc000_0000 - 0x1000;
      StillPending(base, pf);
      stop := MapPages(pf, start, cnt, base);
      assert Virtual(pf).bits.Length == bytes;
      PageNoOf(pf, start);
      v := (Page0(pf) + start) * 0x1000;
    }

    /** One round of the loop of mfree_page: addr_v2p, pfree and page_table_pte_remove. */
    method FreePage(pf: Half, i: int, ghost base: Vm) returns (ghost next: Vm)
      requires Separate() && Agree(base) && IsDir(base, cur) && Pending(base, pf)
      requires 0 <= i < |VBits(base, pf, cur)| && VBits(base, pf, cur)[i]
      requires pf == Kernel ==> NoDirs(base, i, i + 1)
      modifies this`mem, this`owner, kp.bits, up.bits
      ensures Pending(next, pf) && Agree(next) && Grew(next, base, pf, cur, i, i + 1, false)
    {
      hide Agree, Grew, SelfMapped, Lookup, Unpack, UserBits, Pending, IsDir, NoDirs;
      hide Rd, Wr, Present, UserWrite, FrameOf, Entry, Absent, PtePtr, Dir, Table, Walk, UnmapK, UnmapU, KPte, UPte;
      hide UPde;
      PendingFields(base, pf);
      var v := (Page0(pf) + i) * 0x1000;
      ghost var f;
      next, f := FreeStep(base, pf, i, cur);
      ghost var t, x, e := PteSlot(base, pf, i, cur);
      var p := AddrV2P(v);
      assert p.offset == 0 && p.frame * 0x1000 >= 0x10_2000;
      Pfree(p.frame);
      var pte := Load(PtePtr(v));
      Store(PtePtr(v), Absent(pte));
      if pf == User {
        Overwrite(old(UserBits()), cur, base.uv[cur], next.uv[cur]);
      }
      owner := next.owner;
      UserBitsSame();
      PendingFields(next, pf);
    }

    /** vaddr_remove */
    method VaddrRemove(pf: Half, start: int, cnt: int)
      requires pf == User ==> cur in uv
      requires 0 <= start && 0 <= cnt && start + cnt <= 8 * Virtual(pf).bits.Length
      modifies Virtual(pf).bits
      ensures Virtual(pf).View() == SetRange(old(Virtual(pf).View()), start, cnt, false)
    {
      hide Unpack;
      var map_ := Virtual(pf);
      ghost var v := map_.View();
      for k := 0 to cnt
        invariant map_.View() == SetRange(v, start, k, false)
      {
        map_.Set(start + k, false);
        SetRangeGrows(v, start, k, false);
      }
    }

    /** The loop of mfree_page. */
    method FreePages(pf: Half, start: int, cnt: int) returns (ghost next: Vm)
      requires Valid() && (pf == User ==> cur in uv)
      requires 0 <= start && 0 <= cnt && start + cnt <= |VBits(Snap(), pf, cur)|
      requires forall k :: start <= k < start + cnt ==> VBits(Snap(), pf, cur)[k]
      requires pf == Kernel ==> NoDirs(Snap(), start, start + cnt)
      modifies this`mem, this`owner, kp.bits, up.bits
      ensures Pending(next, pf) && Agree(next) && Grew(next, old(Snap()), pf, cur, start, start + cnt, false)
    {
      hide Agree, Grew, Unpack, UserBits, Pending, IsDir, SetRange, NoDirs, WithVBits;
      ghost var base := Snap();
      SnapFields(pf);
      StillPending(base, pf);
      GrewRefl(base, pf, cur, start, false);
      next := base;
      for k := 0 to cnt
        invariant Separate() && Agree(next) && IsDir(next, cur) && Pending(next, pf)
        invariant Grew(next, base, pf, cur, start, start + k, false)
      {
        ghost var before := next;
        NextSet(before, base, pf, cur, start, k, cnt);
        next := FreePage(pf, start + k, before);
        GrewBits(next, before, pf, cur, start + k, start + k + 1, false);
        IsDirSame(before, next, cur);
        GrewTrans(next, before, base, pf, cur, start, start + k, start + k + 1, false);
      }
    }

    /** mfree_page undoes malloc_page: read backwards, the step maps exactly these pages. */
    method MfreePage(pf: Half, v: int, cnt: int) returns (stop: Stop)
      requires Valid() && (pf == User ==> cur in uv) && 0 <= cnt
      requires 0 <= PageNo(pf, v) && PageNo(pf, v) + cnt <= |VBits(Snap(), pf, cur)|
      requires forall k :: PageNo(pf, v) <= k < PageNo(pf, v) + cnt ==> VBits(Snap(), pf, cur)[k]
      requires pf == Kernel ==> NoDirs(Snap(), PageNo(pf, v), PageNo(pf, v) + cnt)
      modifies this`mem, this`owner, kp.bits, up.bits, Virtual(pf).bits
      ensures stop == if cnt > 0 && v % 0x1000 == 0 then Running else BadCount
      ensures stop == Running ==> Valid()
      ensures stop == Running ==>
        Grew(Snap(), old(Snap()), pf, cur, PageNo(pf, v), PageNo(pf, v) + cnt, false)
    {
      hide Agree, Grew, Unpack, UserBits, Pending, IsDir, SetRange, NoDirs, WithVBits, Away;
      if !(cnt > 0 && v % 0x1000 == 0) { return BadCount; }
      stop := Running;
      var start := PageNo(pf, v);
      ghost var base := Snap();
      SnapFields(pf);
      ghost var next := FreePages(pf, start, cnt);
      GrewBits(next, base, pf, cur, start, start + cnt, false);
      IsDirSame(base, next, cur);
      AwayGrew(next, base, pf, cur, start, start + cnt, false, elsewhere, pgdir);
      PendingFields(next, pf);
      SetThenClear(VBits(next, pf, cur), start, cnt);
      PendingBits(next, pf);
      VaddrRemove(pf, start, cnt);
      StillPending(next, pf);
      PendingDone(next, pf);
    }

    lemma PendingBits(base: Vm, pf: Half)
      requires Pending(base, pf)
      ensures base.mem == mem && base.owner == owner && base.kstart == kstart && base.ustart == ustart
      ensures base.kp == kp.View() && base.up == up.View() && base.uv.Keys == uv.Keys
      ensures pf == User ==> cur in uv && base.kv == kv.View()
      ensures forall s :: s in uv && (pf == Kernel || s != cur) ==> base.uv[s] == uv[s].View()
    {
      hide Unpack;
    }

    lemma UserDirs()
      requires Valid()
      ensures Snap().uv.Keys == uv.Keys && (cur == BOOT_DIR <==> cur !in uv)
    {
      FramesApart(Snap());
    }

    /** get_a_page maps the page of the given address. It is the one caller that can reach "PTE
        REPEAT", and does so if and only if the page's bit is set and there is a frame to map. The
        source bounds the page's index from below only: an address outside the managed pages sets a
        bit past the bitmap. pte_ptr and pde_ptr ignore the offset within the page. */
    method GetAPage(pf: Half, v: int) returns (stop: Stop)
      requires Valid() && 0 <= v < 0x1_0000_0000
      modifies this`mem, this`owner, this`taken, kp.bits, up.bits
      modifies if pf == User && cur !in uv then {} else {Virtual(pf).bits}
      ensures (pf == User <==> cur == BOOT_DIR) ==> stop == WrongHalf
      ensures (pf == User <==> cur != BOOT_DIR) ==> (pf == User ==> cur in old(Snap()).uv)
      ensures (pf == User <==> cur != BOOT_DIR) ==>
        var vm, i := old(Snap()), BitIndex(pf, v);
        var bits, frames := VBits(vm, pf, cur), Supply(if pf == Kernel then vm.kp else vm.up);
        var table := pf == User && !Present(Rd(vm.mem, cur, (U_PAGE0 + i) / 1024));
        && (i == 0 ==> stop == BadIndex) && (0 < i && |bits| <= i ==> stop == Overrun)
        && (0 < i < |bits| && bits[i] && frames > 0 ==> stop == PteRepeat)
        && (0 < i < |bits| && (frames == 0 || (!bits[i] && table && Supply(vm.kp) == 0)) ==> stop == NoFrame)
        && (0 < i < |bits| && !bits[i] && frames > 0 && (table ==> Supply(vm.kp) > 0) ==> stop == Running)
      ensures stop == Running ==> Valid() && BitIndex(pf, v) == PageNo(pf, v)
      ensures stop == Running ==>
        Grew(old(Snap()), Snap(), pf, cur, PageNo(pf, v), PageNo(pf, v) + 1, pf == User)
      ensures stop == Running ==> Spent(old(Snap()), Snap(), pf, cur, PageNo(pf, v), 1)
      ensures stop == Running ==> taken == old(taken) + {PageUse(pf, cur, PageNo(pf, v))}
    {
      hide Agree, Grew, Unpack, UserBits, Pending, SetRange, WithVBits, Away, Enough, Supply, BitIndex, PageNo, Spent;
      UserDirs();
      if pf == User <==> cur == BOOT_DIR { return WrongHalf; }
      var i := BitIndex(pf, v);
      if !(i > 0) { return BadIndex; }
      ghost var base := Snap();
      SnapFields(pf);
      if i >= 8 * Virtual(pf).bits.Length { return Overrun; }
      DirIsTaken(base, cur);
      InBitmap(pf, v, |VBits(base, pf, cur)|);
      EnoughForOne(base, pf, cur, i);
      Virtual(pf).Set(i, true);
      StillPending(base, pf);
      ghost var next;
      stop, next := AddPage(pf, i, base);
      if stop == Running {
        GrewBits(base, next, pf, cur, i, i + 1, pf == User);
        AwayGrew(base, next, pf, cur, i, i + 1, pf == User, elsewhere, pgdir);
        SetOne(VBits(base, pf, cur), i);
        PendingDone(next, pf);
        assert Valid();
        NotArray();
        taken := taken + {PageUse(pf, cur, i)};
      }
    }

    lemma SnapMem()
      ensures Snap() == Snap().(mem := mem)
    {
    }

    lemma Agrees()
      ensures Valid() ==> Agree(Snap()) && IsDir(Snap(), cur) && Away(Snap(), cur, elsewhere, pgdir) && Separate()
    {
    }

    // Client accesses to virtual memory.

    ghost function Memory(): Words
      reads this`mem, this`cur, this`uv, this`owner, Arrays()
    {
      View(Snap(), cur)
    }

    lemma MemoryIs()
      ensures Memory() == View(Snap(), cur)
    {
    }

    function Read(v: int): (w: int)
      requires Valid() && v in Memory()
      reads this, Arrays()
      ensures w == Memory()[v]
    {
      DataWalk(Snap(), cur, v / 0x1000);
      WalkIsLookup(mem, cur, v);
      var p := Walk(mem, cur, v).value;
      Rd(mem, p.frame, p.offset / 4)
    }

    method Write(v: int, w: int)
      requires Valid() && v in Memory()
      modifies this`mem
      ensures Valid() && Memory() == old(Memory())[v := w]
      ensures Snap() == old(Snap()).(mem := mem)
    {
      hide Agree, Unpack, UserBits, DataPage, FrameAt, IsData, View, Away;
      ghost var vm := Snap();
      DataWalk(vm, cur, v / 0x1000);
      WalkIsLookup(mem, cur, v);
      StoreWordKeeps(vm, FrameAt(vm, cur, v / 0x1000), v % 0x1000 / 4, w);
      StoreView(vm, cur, v, w);
      StoreAway(vm, cur, v, w, elsewhere, pgdir);
      Store(v, w);
      UserBitsSame();
      assert Snap() == StoreWord(vm, FrameAt(vm, cur, v / 0x1000), v % 0x1000 / 4, w);
    }

    // Address spaces.

    /** The memset and memcpy of create_page_dir: the frame behind v becomes a directory. */
    method FillDirectory(v: int, ghost f: int) returns (frame: int)
      requires SelfMapped(mem, cur) && v % 0x1000 == 0 && 0 <= v < SELF_MAP
      requires Apart(mem, cur, v, f) && f != cur
      modifies this`mem
      ensures mem == DirFrame(old(mem), f, cur) && frame == f
    {
      hide Rd, Wr, ZeroFrame, Entry, FrameOf, Apart, SelfMapped, Walk, PtePtr;
      DirAccess(mem, cur, v, f, 0);
      ghost var zeroed := ZeroFrame(mem, f);
      ApartStays(mem, zeroed, cur, v, f);
      ClearPage(v);
      for d := 768 to 1024
        invariant mem == CopyEntries(zeroed, f, cur, d) && Apart(mem, cur, v, f) && SelfMapped(mem, cur)
      {
        DirAccess(mem, cur, v, f, d);
        ApartStays(mem, CopyEntries(zeroed, f, cur, d + 1), cur, v, f);
        var e := Load(DIR_WINDOW + d * 4);
        Store(v + d * 4, e);
      }
      DirAccess(mem, cur, v, f, 1023);
      var self := AddrV2P(v);
      frame := self.frame;
      Store(v + 1023 * 4, Entry(frame));
    }

    lemma NewBits(f: int, before: map<int, seq<bool>>)
      requires f in uv && uv.Keys == before.Keys + {f} && uv[f].View() == seq(U_PAGES, _ => false)
      requires forall s :: s in before && s != f ==> uv[s].View() == before[s]
      ensures UserBits() == before[f := seq(U_PAGES, _ => false)]
    {
      hide Unpack;
      var a, b := UserBits(), before[f := seq(U_PAGES, _ => false)];
      assert forall u :: u in a <==> u in b;
      assert forall u :: u in a ==> a[u] == b[u];
    }

    /** bits becomes the virtual bitmap of the directory in frame f, filled from vm, at v. */
    method AddDirectory(f: int, v: int, bits: Bitmap, ghost vm: Vm)
      requires f != cur && f !in uv && v % 0x1000 == 0 && f !in vm.uv && Snap() == vm.(mem := DirFrame(vm.mem, f, cur))
      requires bits.bits !in Arrays() && bits.View() == seq(U_PAGES, _ => false) && Separate()
      requires Owns(vm, f, KPage(PageNo(Kernel, v))) && IsDir(vm, cur) && Away(vm, cur, elsewhere, pgdir) && Agree(vm)
      modifies this`uv, this`pgdir, this`elsewhere
      ensures Valid() && Snap() == AddSpace(vm, f, cur)
      ensures uv == old(uv)[f := bits] && pgdir == old(pgdir)[f := v] && elsewhere == old(elsewhere)[f := map[]]
    {
      hide Agree, Unpack, Rd, Wr, DirFrame, CopyEntries, SetRange, Away, UserBits, PageNo;
      AddSpaceKeeps(vm, f, cur);
      AddSpaceAway(vm, f, v, cur, elsewhere, pgdir);
      SnapFields(Kernel);
      uv, pgdir, elsewhere := uv[f := bits], pgdir[f := v], elsewhere[f := map[]];
      NewBits(f, vm.uv);
      assert Snap() == AddSpace(vm, f, cur);
    }

    /** create_page_dir: a new address space with the same kernel half and an empty user half, whose
        pages bits records. Its directory is the frame behind the page returned. It goes on if and
        only if there is a page for it, and what the running thread sees does not change. */
    method CreatePageDir(bits: Bitmap) returns (stop: Stop, v: int, f: int, ghost vm: Vm)
      requires Valid() && bits.bits !in Arrays() && bits.View() == seq(U_PAGES, _ => false)
      modifies this`mem, this`owner, this`uv, this`pgdir, this`elsewhere, this`taken, kp.bits, up.bits, kv.bits
      ensures stop == Running || stop == NoVaddr || stop == NoFrame
      ensures stop == Running <==> old(Available(Snap(), Kernel, cur, 1))
      ensures stop == Running ==> Valid() && Memory() == old(Memory())
      ensures stop == Running ==> f !in old(uv) && uv == old(uv)[f := bits] && pgdir == old(pgdir)[f := v]
      ensures stop == Running ==> elsewhere == old(elsewhere)[f := map[]]
      ensures stop == Running ==> FirstFit(old(Snap()).kv, 1, PageNo(Kernel, v))
      ensures stop == Running ==> Snap().kv == SetRange(old(Snap()).kv, PageNo(Kernel, v), 1, true)
      ensures stop == Running ==> Snap().uv == old(Snap()).uv[f := seq(U_PAGES, _ => false)]
      ensures stop == Running ==>
        var i := PageNo(Kernel, v);
        && Grew(old(Snap()), vm, Kernel, cur, i, i + 1, false) && Spent(old(Snap()), vm, Kernel, cur, i, 1)
        && Snap() == vm.(mem := mem, uv := Snap().uv) && vm.uv == old(Snap()).uv && Owns(vm, f, KPage(i))
      ensures stop == Running ==> taken == old(taken) + {KPage(PageNo(Kernel, v))}
      ensures stop == Running ==> Walk(mem, cur, v) == Some(Phys(f, 0))
      ensures stop == Running ==> forall u :: 0 <= u < 0xc000_0000 ==> Walk(mem, f, u) == None
      ensures stop == Running ==> forall u :: 0xc000_0000 <= u < SELF_MAP ==> Walk(mem, f, u) == Walk(mem, cur, u)
    {
      hide Agree, Grew, Unpack, UserBits, IsDir, Rd, Wr, DirFrame, CopyEntries, Fits, Walk, Separate, Apart, Away, View;
      hide FirstFit, SetRange, Available, PageNo, Spent, Supply;
      f := 0;
      ghost var start := Snap();
      stop, v := MallocPage(Kernel, 1);
      vm := Snap();
      if stop != Running { return; }
      ghost var frame := NewFrame(start, vm, cur, v);
      SpaceBack(start, vm, frame, cur, PageNo(Kernel, v));
      GrewBits(start, vm, Kernel, cur, PageNo(Kernel, v), PageNo(Kernel, v) + 1, false);
      UserDirs();
      label Mapped:
      f := FillDirectory(v, frame);
      UserBitsSame@Mapped();
      AddDirectory(f, v, bits, vm);
      NewSpaceWalks(vm, f, cur, v);
      NotArray();
      taken := taken + {KPage(PageNo(Kernel, v))};
    }

    /** page_dir_activate: the directory of a process, found from its pgdir, or the boot one. */
    method PageDirActivate(pgdir: Option<int>)
      requires Valid()
      requires pgdir.Some? ==> 0 <= pgdir.value < SELF_MAP && pgdir.value % 0x1000 == 0
      requires pgdir.Some? ==> Lookup(mem, cur, pgdir.value / 0x1000).Some?
      requires pgdir.Some? ==> Lookup(mem, cur, pgdir.value / 0x1000).value in uv
      modifies this`cur, this`elsewhere
      ensures Valid() && Snap() == old(Snap())
      ensures cur == if pgdir == None then BOOT_DIR else old(Lookup(mem, cur, pgdir.value / 0x1000).value)
    {
      hide Agree, Unpack, UserBits, Rd, PtePtr, Walk, Lookup, SelfMapped, View, UserHalf, Away;
      DirIsTaken(Snap(), cur);
      UserDirs();
      NotArray();
      var frame := BOOT_DIR;
      if pgdir.Some? {
        PteOfWalk(mem, cur, pgdir.value);
        var p := AddrV2P(pgdir.value);
        frame := p.frame;
      }
      AwaySwitch(Snap(), cur, frame, elsewhere, this.pgdir);
      elsewhere := elsewhere[cur := UserHalf(View(Snap(), cur))];
      cur := frame;
      UserBitsSame();
    }
  }

  /** The index lies in the bitmap if and only if the page is one of the managed pages. */
  lemma InBitmap(pf: Half, v: int, n: int)
    requires 0 <= v < 0x1_0000_0000 && 0 <= n && Page0(pf) + n < 0x10_0000
    ensures BitIndex(pf, v) < n <==> 0 <= PageNo(pf, v) < n
    ensures 0 <= PageNo(pf, v) < n ==> BitIndex(pf, v) == PageNo(pf, v)
  {
    var d := v - Page0(pf) * 0x1000;
    assert d % 0x1_0000_0000 == if d >= 0 then d else d + 0x1_0000_0000;
    assert PageNo(pf, v) == d / 0x1000;
  }

  /** In every process get_a_page(PF_USER, 0x1000) sets a bit past the bitmap. */
  lemma BelowManaged(vm: Vm, cur: int)
    requires Agree(vm) && cur in vm.uv
    ensures PageStop(vm, cur, User, 0x1000) == Overrun
  {
    LayoutOf(vm);
    FramesApart(vm);
    assert BitIndex(User, 0x1000) == 0xf7fb9;
  }

  /** From mem_init on, with three frames to give, get_a_page for a kernel page maps it the first
      time and ends in "PTE REPEAT" the second. */
  method GetAPageTwice(allMem: int, boot: Mem, v: int) returns (first: Stop, second: Stop)
    requires 0x20_0000 <= allMem < 0x1_0000_0000 && Layout.MemPoolInit(allMem).kernelBytes >= 3
    requires KernelHalf(boot, BOOT_DIR) && forall t :: 0 <= t < 256 ==> Maps(Rd(boot, BOOT_TABLE, t), t)
    requires forall i :: 0 <= i < 0x8000 ==> !Present(KPte(boot, i))
    requires 0 < PageNo(Kernel, v) < 8 * Layout.MemPoolInit(allMem).kernelBytes
    ensures first == Running && second == PteRepeat
  {
    hide Agree, Grew, KernelHalf, Present, UserWrite, KPte, Entry, Rd, Layout.MemPoolInit, Unpack, Supply, PageNo;
    hide PageManager.Valid, View, SetRange;
    Layout.PoolsFit(allMem);
    var m := new PageManager(allMem, boot);
    m.SnapFields(Kernel);
    ghost var vm, i := m.Snap(), PageNo(Kernel, v);
    assert vm.kp == m.kp.View() && vm.kv == m.kv.View();
    AllSupply(vm.kp);
    m.Agrees();
    LayoutOf(vm);
    AddressOf(v, i);
    InBitmap(Kernel, v, |vm.kv|);
    first := m.GetAPage(Kernel, v);
    GrewBits(vm, m.Snap(), Kernel, m.cur, i, i + 1, false);
    InBitmap(Kernel, v, |vm.kv|);
    second := m.GetAPage(Kernel, v);
  }

  lemma AddressOf(v: int, i: int)
    requires PageNo(Kernel, v) == i && 0 <= i < 0xffc00 - K_PAGE0
    ensures 0 <= v < 0x1_0000_0000
  {
  }

  lemma AllSupply(v: seq<bool>)
    requires |v| >= 8 && forall i :: 0 <= i < |v| ==> !v[i]
    ensures Supply(v) == |v| / 8 - 1
  {
    ZerosFull(v, 0, |v| / 8 - 1);
  }

  /** The frame malloc_page took for one kernel page: no directory, and not on the way to itself. */
  lemma NewFrame(a: Vm, b: Vm, cur: int, v: int) returns (f: int)
    requires Agree(a) && Agree(b) && IsDir(b, cur) && v % 0x1000 == 0
    requires Grew(a, b, Kernel, cur, PageNo(Kernel, v), PageNo(Kernel, v) + 1, false)
    ensures 0 <= v < SELF_MAP && Apart(b.mem, cur, v, f) && SelfMapped(b.mem, cur)
    ensures f in b.owner && b.owner[f] == KPage(PageNo(Kernel, v)) && f !in b.uv && f != cur
  {
    hide Extends, View, Isolated, Elsewhere, SetRange, Rd, Present, UserWrite, FrameOf, KPte, Lookup, Agree;
    var i := PageNo(Kernel, v);
    PageFields(K_PAGE0 + i);
    GrewBits(a, b, Kernel, cur, i, i + 1, false);
    SetOne(a.kv, i);
    DirIsTaken(b, cur);
    BitIsMapping(b, Kernel, cur, i);
    f := FrameOf(KPte(b.mem, i));
    KPageFrame(b, i);
    UserStays(a, b, i, f);
    BootLookup(b, cur, i);
  }

  /** The new page is no data page of the running thread once it is a directory. */
  lemma SpaceBack(a: Vm, b: Vm, f: int, cur: int, i: int)
    requires Agree(a) && Agree(b) && IsDir(b, cur) && Grew(a, b, Kernel, cur, i, i + 1, false)
    requires f in b.owner && b.owner[f] == KPage(i) && f !in b.uv && f != cur
    ensures View(AddSpace(b, f, cur), cur) == View(a, cur)
    ensures 0 <= i < |a.kv| && b.kv == SetRange(a.kv, i, 1, true) && b.uv == a.uv
  {
    hide Agree, View, AddSpace, Isolated, Elsewhere, Uses, SetRange;
    AddSpaceView(b, f, cur, cur);
    GrewBits(a, b, Kernel, cur, i, i + 1, false);
    var x, y := View(AddSpace(b, f, cur), cur), View(a, cur);
    assert forall v :: v in x <==> v in y;
    assert forall v :: v in x ==> x[v] == y[v];
  }

  /** addr_v2p: the entry behind pte_ptr(v) names v's frame. */
  lemma PteOfWalk(m: Mem, cr3: int, v: int)
    requires SelfMapped(m, cr3) && 0 <= v < SELF_MAP && v % 0x1000 == 0 && Lookup(m, cr3, v / 0x1000).Some?
    ensures Walk(m, cr3, PtePtr(v)).Some?
    ensures var p := Walk(m, cr3, PtePtr(v)).value;
      FrameOf(Rd(m, p.frame, p.offset / 4)) == Lookup(m, cr3, v / 0x1000).value
  {
    hide Rd, Present, UserWrite, FrameOf, Entry, PtePtr;
    SelfMapWalk(m, cr3, v);
    assert v / 0x1000 / 1024 == Dir(v);
  }

  lemma NewSpaceWalks(vm: Vm, f: int, cur: int, v: int)
    requires Agree(vm) && IsDir(vm, cur) && f in vm.owner && vm.owner[f].KPage? && f !in vm.uv && f != cur
    requires 0 <= v < SELF_MAP && v % 0x1000 == 0 && Apart(vm.mem, cur, v, f)
    ensures var m := AddSpace(vm, f, cur).mem;
      && Walk(m, cur, v) == Some(Phys(f, 0))
      && (forall u :: 0 <= u < 0xc000_0000 ==> Walk(m, f, u) == None)
      && (forall u :: 0xc000_0000 <= u < SELF_MAP ==> Walk(m, f, u) == Walk(m, cur, u))
  {
    hide Rd, Present, UserWrite, FrameOf, Entry, DirFrame, CopyEntries;
    var m := AddSpace(vm, f, cur).mem;
    AddSpaceReads(vm, f, cur);
    ZeroIsAbsent();
    WalkIsLookup(vm.mem, cur, v);
    WalkIsLookup(m, cur, v);
  }

  lemma UserStays(a: Vm, b: Vm, i: int, f: int)
    requires Agree(a) && a.uv.Keys == b.uv.Keys && 0 <= i < |a.kv| && !a.kv[i]
    requires forall g :: g in a.owner ==> g in b.owner && b.owner[g] == a.owner[g]
    requires f in b.owner && b.owner[f] == KPage(i)
    ensures f !in b.uv
  {
    hide Rd, Present, UserWrite, FrameOf;
  }

  lemma BootLookup(vm: Vm, cur: int, i: int)
    requires Agree(vm) && IsDir(vm, cur) && 0 <= i < |vm.kv| && vm.kv[i]
    ensures Lookup(vm.mem, cur, K_PAGE0 + i) == Some(FrameOf(KPte(vm.mem, i)))
    ensures FrameOf(Rd(vm.mem, cur, (K_PAGE0 + i) / 1024)) < POOL_FLOOR
    ensures (K_PAGE0 + i) * 0x1000 < SELF_MAP
  {
    hide Rd, Present, UserWrite, FrameOf;
  }

  /** v walks to frame f, which holds neither the directory nor the table on the way to v. */
  ghost predicate Apart(m: Mem, cr3: int, v: int, f: int) {
    && Lookup(m, cr3, v / 0x1000) == Some(f) && f != cr3
    && FrameOf(Rd(m, cr3, Dir(v))) != f
  }

  lemma ApartStays(m: Mem, m': Mem, cr3: int, v: int, f: int)
    requires 0 <= v && Apart(m, cr3, v, f) && SelfMapped(m, cr3)
    requires forall g, x :: g != f ==> Rd(m', g, x) == Rd(m, g, x)
    ensures Apart(m', cr3, v, f) && SelfMapped(m', cr3)
  {
    hide Rd, Present, UserWrite, FrameOf, Entry;
    assert v / 0x1000 / 1024 == Dir(v);
  }

  /** How the words that create_page_dir touches translate. */
  lemma DirAccess(m: Mem, cr3: int, v: int, f: int, d: int)
    requires 0 <= v < SELF_MAP && v % 0x1000 == 0 && 0 <= d < 1024
    requires Apart(m, cr3, v, f) && SelfMapped(m, cr3)
    ensures Walk(m, cr3, v + d * 4) == Some(Phys(f, d * 4))
    ensures Walk(m, cr3, DIR_WINDOW + d * 4) == Some(Phys(cr3, d * 4))
    ensures Walk(m, cr3, PtePtr(v)).Some?
    ensures var p := Walk(m, cr3, PtePtr(v)).value; FrameOf(Rd(m, p.frame, p.offset / 4)) == f
    ensures Walk(m, cr3, v) == Some(Phys(f, 0))
  {
    hide Rd, Present, UserWrite, FrameOf, Entry, PtePtr, Walk, SelfMapped;
    WordOfPage(v, d);
    WalkIsLookup(m, cr3, v);
    WalkIsLookup(m, cr3, v + d * 4);
    PteOfWalk(m, cr3, v);
    SelfMapWalk(m, cr3, d * 0x40_0000);
  }

  lemma WordOfPage(v: int, d: int)
    requires v % 0x1000 == 0 && 0 <= d < 1024
    ensures (v + d * 4) / 0x1000 == v / 0x1000 && (v + d * 4) % 0x1000 == d * 4
    ensures PdePtr(d * 0x40_0000) == DIR_WINDOW + d * 4 && Dir(d * 0x40_0000) == d
  {
  }

  lemma NextSet(a: Vm, b: Vm, pf: Half, cur: int, start: int, k: int, cnt: int)
    requires Grew(a, b, pf, cur, start, start + k, false) && 0 <= k < cnt
    requires (pf == User ==> cur in b.uv) && 0 <= start && start + cnt <= |VBits(b, pf, cur)|
    requires forall i :: start <= i < start + cnt ==> VBits(b, pf, cur)[i]
    requires pf == Kernel ==> NoDirs(b, start, start + cnt)
    ensures pf == User ==> cur in a.uv
    ensures start + k < |VBits(a, pf, cur)| && VBits(a, pf, cur)[start + k]
    ensures pf == Kernel ==> NoDirs(a, start + k, start + k + 1)
  {
    hide Extends, View, Isolated;
    GrewBits(a, b, pf, cur, start, start + k, false);
  }

  lemma SetThenClear(v: seq<bool>, start: int, cnt: int)
    requires 0 <= start && 0 <= cnt && start + cnt <= |v| && AllClear(v, start, start + cnt)
    ensures SetRange(SetRange(v, start, cnt, true), start, cnt, false) == v
  {
  }

  /** No directory lies in the kernel pages lo..hi-1. */
  ghost predicate NoDirs(vm: Vm, lo: int, hi: int) {
    forall s :: s in vm.uv && s in vm.owner && vm.owner[s].KPage? ==> !(lo <= vm.owner[s].i < hi)
  }

  /** Where the walk of pte_ptr ends for a mapped page. */
  lemma PteSlot(vm: Vm, pf: Half, i: int, cur: int) returns (t: int, x: int, e: int)
    requires Agree(vm) && IsDir(vm, cur) && (pf == User ==> cur in vm.uv)
    requires 0 <= i < |VBits(vm, pf, cur)| && VBits(vm, pf, cur)[i]
    ensures Walk(vm.mem, cur, PtePtr((Page0(pf) + i) * 0x1000)) == Some(Phys(t, 4 * x))
    ensures e == Rd(vm.mem, t, x) == if pf == Kernel then KPte(vm.mem, i) else UPte(vm.mem, cur, i)
    ensures t == if pf == Kernel then KTable((K_PAGE0 + i) / 1024) else FrameOf(UPde(vm.mem, cur, i))
    ensures x == (Page0(pf) + i) % 1024
    ensures SelfMapped(vm.mem, cur) && 0 <= (Page0(pf) + i) * 0x1000 < SELF_MAP
  {
    hide Present, UserWrite, FrameOf, Rd;
    PageFields(Page0(pf) + i);
    DirIsTaken(vm, cur);
    SelfMapWalk(vm.mem, cur, (Page0(pf) + i) * 0x1000);
    t := if pf == Kernel then KTable((K_PAGE0 + i) / 1024) else FrameOf(UPde(vm.mem, cur, i));
    x := (Page0(pf) + i) % 1024;
    e := Rd(vm.mem, t, x);
  }

  /** What freeing the frame of a mapped page and clearing its entry leave. */
  lemma FreeStep(vm: Vm, pf: Half, i: int, cur: int) returns (next: Vm, f: int)
    requires Agree(vm) && IsDir(vm, cur) && (pf == User ==> cur in vm.uv)
    requires 0 <= i < |VBits(vm, pf, cur)| && VBits(vm, pf, cur)[i]
    requires pf == Kernel ==> NoDirs(vm, i, i + 1)
    ensures f == FrameOf(if pf == Kernel then KPte(vm.mem, i) else UPte(vm.mem, cur, i))
    ensures next.mem == if pf == Kernel
      then Wr(vm.mem, KTable((K_PAGE0 + i) / 1024), (K_PAGE0 + i) % 1024, Absent(KPte(vm.mem, i)))
      else Wr(vm.mem, FrameOf(UPde(vm.mem, cur, i)), (U_PAGE0 + i) % 1024, Absent(UPte(vm.mem, cur, i)))
    ensures pf == Kernel ==>
      && InK(vm, f) && next.kp == vm.kp[f - vm.kstart := false] && next.up == vm.up && next.uv == vm.uv
    ensures pf == User ==>
      && InU(vm, f) && next.up == vm.up[f - vm.ustart := false] && next.kp == vm.kp && next.kv == vm.kv
      && next.uv == vm.uv[cur := vm.uv[cur][i := false]]
    ensures next.kstart == vm.kstart && next.ustart == vm.ustart
    ensures vm.kstart + |vm.kp| <= vm.ustart && POOL_FLOOR <= vm.kstart
    ensures Agree(next) && Grew(next, vm, pf, cur, i, i + 1, false)
  {
    hide Grew, Present, UserWrite, FrameOf, Rd, Wr, Absent, KPte, UPte, UPde;
    if pf == Kernel {
      KPageFrame(vm, i);
      UnmapKGrew(vm, i, cur);
      next, f := UnmapK(vm, i), FrameOf(KPte(vm.mem, i));
    } else {
      UPageFrame(vm, cur, i);
      UnmapUGrew(vm, cur, i);
      next, f := UnmapU(vm, cur, i), FrameOf(UPte(vm.mem, cur, i));
    }
  }

  lemma PageNoOf(pf: Half, i: int)
    ensures PageNo(pf, (Page0(pf) + i) * 0x1000) == i
  {
  }

  lemma NextClear(a: Vm, b: Vm, pf: Half, cur: int, start: int, k: int, cnt: int, tables: bool)
    requires Grew(a, b, pf, cur, start, start + k, tables) && 0 <= k < cnt
    requires 0 <= start && start + cnt <= |VBits(a, pf, cur)| && AllClear(VBits(a, pf, cur), start, start + cnt)
    ensures pf == User ==> cur in b.uv
    ensures start + k < |VBits(b, pf, cur)| && !VBits(b, pf, cur)[start + k]
  {
    hide Uses, Extends, View, Isolated;
    GrewBits(a, b, pf, cur, start, start + k, tables);
  }

  lemma Overwrite<K, V>(m: map<K, V>, k: K, v: V, w: V)
    ensures m[k := v][k := w] == m[k := w]
  {
    var a, b := m[k := v][k := w], m[k := w];
    assert forall u :: u in a <==> u in b;
    assert forall u :: u in a ==> a[u] == b[u];
  }

  lemma DirIsTaken(vm: Vm, cur: int)
    requires Agree(vm) && IsDir(vm, cur)
    ensures SelfMapped(vm.mem, cur)
    ensures forall j :: 0 <= j < |vm.kp| && cur == vm.kstart + j ==> vm.kp[j]
    ensures |vm.kv| <= 0xffc00 - K_PAGE0 && forall s :: s in vm.uv ==> |vm.uv[s]| == U_PAGES
  {
    hide Present, UserWrite, Entry, FrameOf, Rd;
  }

  /** What the first frame request and the table request of one page need. */
  lemma EnoughForOne(vm: Vm, pf: Half, cur: int, i: int)
    requires Agree(vm) && IsDir(vm, cur) && (pf == User ==> cur in vm.uv) && 0 <= i < |VBits(vm, pf, cur)|
    ensures Enough(vm, pf, cur, i, 1) ==
      (Supply(PoolOf(vm, pf)) > 0 && (Present(Rd(vm.mem, cur, Dir((Page0(pf) + i) * 0x1000))) || Supply(vm.kp) > 0))
    ensures Dir((Page0(pf) + i) * 0x1000) == (Page0(pf) + i) / 1024
    ensures pf == Kernel ==> Present(Rd(vm.mem, cur, Dir((Page0(pf) + i) * 0x1000)))
  {
    hide Present, UserWrite, FrameOf, Rd, Supply;
    PageFields(Page0(pf) + i);
    LayoutOf(vm);
    assert Missing(vm.mem, cur, U_PAGE0 + i, 0) == 0;
  }

  /** The directory entries after a user page has been mapped. */
  lemma MapPageDirs(vm: Vm, cur: int, i: int, frame: int, table: int)
    requires Agree(vm) && cur in vm.uv && 0 <= i < U_PAGES
    requires !Present(UPde(vm.mem, cur, i)) ==> 0 <= table - vm.kstart < |vm.kp| && !vm.kp[table - vm.kstart]
    ensures var m := MapPage(vm.mem, cur, (U_PAGE0 + i) * 0x1000, frame, table);
      forall d :: 0 <= d < 768 ==>
        (Present(Rd(m, cur, d)) <==> Present(Rd(vm.mem, cur, d)) || d == (U_PAGE0 + i) / 1024)
  {
    hide Present, UserWrite, FrameOf, Entry, Rd, Wr, ZeroFrame, PoolBits, UserPages, KernelPages, Directories;
    PageFields(U_PAGE0 + i);
    FramesApart(vm);
    DirIsTaken(vm, cur);
  }

  lemma SpentUser(vm: Vm, vm': Vm, cur: int, i: int, j: int, table: int)
    requires Agree(vm) && cur in vm.uv && 0 <= i < U_PAGES && |vm.up| % 8 == 0
    requires !Present(UPde(vm.mem, cur, i)) ==> |vm.kp| % 8 == 0 && Fits(vm.kp, |vm.kp| / 8, 1, table - vm.kstart)
    requires Fits(vm.up, |vm.up| / 8, 1, j)
    requires vm'.mem == MapPage(vm.mem, cur, (U_PAGE0 + i) * 0x1000, vm.ustart + j, table) && vm'.up == vm.up[j := true]
    requires vm'.kp == if Present(UPde(vm.mem, cur, i)) then vm.kp else vm.kp[table - vm.kstart := true]
    ensures Spent(vm, vm', User, cur, i, 1)
  {
    hide Agree, Present, UserWrite, FrameOf, Rd, Supply, Fits, MapPage;
    SupplyFits(vm.up, |vm.up| / 8);
    if !Present(UPde(vm.mem, cur, i)) { SupplyFits(vm.kp, |vm.kp| / 8); }
    MapPageDirs(vm, cur, i, vm.ustart + j, table);
    assert Missing(vm.mem, cur, U_PAGE0 + i, 0) == 0;
  }

  /** vaddr_get decides whether there is a window; the frames decide the rest. */
  lemma FoundWindow(vm: Vm, pf: Half, cur: int, n: nat, start: int)
    requires pf == User ==> cur in vm.uv
    ensures FirstFit(VBits(vm, pf, cur), n, start) ==> (Available(vm, pf, cur, n) <==> Enough(vm, pf, cur, start, n))
    ensures Available(vm, pf, cur, n) ==> exists k :: Fits(VBits(vm, pf, cur), |VBits(vm, pf, cur)| / 8, n, k)
  {
    hide Fits, Enough;
    if k :| FirstFit(VBits(vm, pf, cur), n, k) && Enough(vm, pf, cur, k, n) {
      if FirstFit(VBits(vm, pf, cur), n, start) { FirstFitUnique(VBits(vm, pf, cur), n, k, start); }
    }
  }

  /** In the kernel half page_table_add finds the boot table. */
  lemma KernelStep(vm: Vm, i: int, j: int, cur: int, table: int)
    requires Agree(vm) && IsDir(vm, cur) && 0 <= i < |vm.kv| && !vm.kv[i]
    requires |vm.kp| % 8 == 0 && Fits(vm.kp, |vm.kp| / 8, 1, j)
    ensures Present(Rd(vm.mem, cur, Dir((K_PAGE0 + i) * 0x1000))) && 0 <= j < |vm.kp|
    ensures MapK(vm, i, j).mem == MapPage(vm.mem, cur, (K_PAGE0 + i) * 0x1000, vm.kstart + j, table)
    ensures Agree(MapK(vm, i, j)) && Grew(vm, MapK(vm, i, j), Kernel, cur, i, i + 1, false)
    ensures Spent(vm, MapK(vm, i, j), Kernel, cur, i, 1)
  {
    hide Grew, Present, UserWrite, FrameOf, Rd, Wr, Fits, Supply;
    PageFields(K_PAGE0 + i);
    FitsIsClear(vm.kp, |vm.kp| / 8, j);
    MapKGrew(vm, i, j, cur);
    SupplyFits(vm.kp, |vm.kp| / 8);
  }

  /** In the user half it may have to take a table first. */
  lemma UserStep(vm: Vm, i: int, j: int, cur: int, table: int) returns (next: Vm)
    requires Agree(vm) && cur in vm.uv && 0 <= i < U_PAGES && !vm.uv[cur][i]
    requires |vm.up| % 8 == 0 && Fits(vm.up, |vm.up| / 8, 1, j)
    requires !Present(Rd(vm.mem, cur, Dir((U_PAGE0 + i) * 0x1000))) ==>
      |vm.kp| % 8 == 0 && Fits(vm.kp, |vm.kp| / 8, 1, table - vm.kstart)
    ensures 0 <= j < |vm.up|
    ensures !Present(Rd(vm.mem, cur, Dir((U_PAGE0 + i) * 0x1000))) ==> 0 <= table - vm.kstart < |vm.kp|
    ensures next.mem == MapPage(vm.mem, cur, (U_PAGE0 + i) * 0x1000, vm.ustart + j, table)
    ensures next.up == vm.up[j := true] && next.uv == vm.uv[cur := vm.uv[cur][i := true]] && next.kv == vm.kv
    ensures next.kstart == vm.kstart && next.ustart == vm.ustart
    ensures next.kp == if Present(Rd(vm.mem, cur, Dir((U_PAGE0 + i) * 0x1000))) then vm.kp
                       else vm.kp[table - vm.kstart := true]
    ensures Agree(next) && Grew(vm, next, User, cur, i, i + 1, true) && Spent(vm, next, User, cur, i, 1)
  {
    hide Agree, Grew, Present, UserWrite, FrameOf, Rd, Wr, ZeroFrame, Entry, Fits, Spent;
    PageFields(U_PAGE0 + i);
    DirIsTaken(vm, cur);
    FitsIsClear(vm.up, |vm.up| / 8, j);
    var mid := vm;
    if Present(Rd(vm.mem, cur, (U_PAGE0 + i) / 1024)) {
      GrewRefl(vm, User, cur, i, true);
    } else {
      FitsIsClear(vm.kp, |vm.kp| / 8, table - vm.kstart);
      AddTableGrew(vm, cur, i, table - vm.kstart);
      mid := AddTable(vm, cur, (U_PAGE0 + i) / 1024, table - vm.kstart);
    }
    next := MapU(mid, cur, i, j);
    MapUGrew(mid, cur, i, j);
    GrewWeaken(mid, next, User, cur, i, i + 1);
    GrewTrans(vm, mid, next, User, cur, i, i, i + 1, true);
    SpentUser(vm, next, cur, i, j, table);
  }

  lemma BelowWindow(v: int)
    requires 0 <= v < SELF_MAP
    ensures 0 <= Dir(v) < 1023 && 0 <= Table(v) < 1024 && Dir(v) * 4 / 4 == Dir(v) && Table(v) * 4 / 4 == Table(v)
  {
  }

  lemma FitsIsClear(v: seq<bool>, bytes: int, j: int)
    requires Fits(v, bytes, 1, j)
    ensures 0 <= j < |v| && !v[j]
  {
  }

  /** The window page of v's table. */
  lemma WindowPage(m: Mem, cr3: int, v: int)
    requires 0 <= v < SELF_MAP && SelfMapped(m, cr3) && Walk(m, cr3, PtePtr(v)).Some?
    ensures var w := PtePtr(v) - PtePtr(v) % 0x1000;
      && w % 0x1000 == 0 && Walk(m, cr3, w).Some?
      && Walk(m, cr3, w).value.frame == Walk(m, cr3, PtePtr(v)).value.frame
  {
    hide Present, UserWrite, Entry, FrameOf, Rd;
    var p := PtePtr(v);
    var w := p - p % 0x1000;
    assert Dir(w) == Dir(p) && Table(w) == Table(p);
  }

  lemma BootAgrees(vm: Vm)
    requires vm.owner == map[] && vm.uv == map[]
    requires KernelHalf(vm.mem, BOOT_DIR) && forall t :: 0 <= t < 256 ==> Maps(Rd(vm.mem, BOOT_TABLE, t), t)
    requires forall i :: 0 <= i < 0x8000 ==> !Present(KPte(vm.mem, i))
    requires POOL_FLOOR <= vm.kstart && vm.kstart + |vm.kp| <= vm.ustart && |vm.kv| <= 0x8000
    requires (forall j :: 0 <= j < |vm.kp| ==> !vm.kp[j]) && (forall j :: 0 <= j < |vm.up| ==> !vm.up[j])
    requires forall i :: 0 <= i < |vm.kv| ==> !vm.kv[i]
    ensures Agree(vm)
  {
    hide Present, UserWrite, Entry, FrameOf, Rd, KPte;
  }
}
