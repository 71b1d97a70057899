/** How a call that maps managed pages changes everything: the bits, the frames and their uses,
    what virtual memory holds, and what other address spaces see. Read from right to left it
    describes a call that unmaps them. */
module Growth {
  import opened Paging
  import opened Agreement
  import opened Bitmaps
  import opened Views

  /** No address space but cur, and for kernel pages none at all, sees its user half change. */
  ghost predicate Isolated(vm: Vm, vm': Vm, pf: Half, cur: int) {
    forall s, v :: s in vm.uv && (pf == Kernel || s != cur) && 0 <= v < 0xc000_0000 ==>
      Walk(vm'.mem, s, v) == Walk(vm.mem, s, v)
  }

  /** No address space but cur sees a word of its user half change. */
  ghost predicate Elsewhere(vm: Vm, vm': Vm, cur: int) {
    forall s :: s in vm.uv && s != cur ==> UserHalf(View(vm', s)) == UserHalf(View(vm, s))
  }

  /** vm' has the uses of vm and those of pages lo..hi-1; with tables, also new tables of cur. */
  ghost predicate Uses(vm: Vm, vm': Vm, pf: Half, cur: int, lo: int, hi: int, tables: bool) {
    && (forall f :: f in vm.owner ==> f in vm'.owner && vm'.owner[f] == vm.owner[f])
    && (forall f :: f in vm'.owner && f !in vm.owner ==>
      || (exists i :: lo <= i < hi && vm'.owner[f] == PageUse(pf, cur, i))
      || (tables && vm'.owner[f].UTable? && vm'.owner[f].s == cur))
  }

  ghost predicate SameShape(vm: Vm, vm': Vm) {
    && vm'.kstart == vm.kstart && vm'.ustart == vm.ustart
    && |vm'.kp| == |vm.kp| && |vm'.up| == |vm.up| && vm'.uv.Keys == vm.uv.Keys
  }

  ghost predicate Bits(vm: Vm, vm': Vm, pf: Half, cur: int, lo: int, hi: int)
    requires pf == User ==> cur in vm.uv
  {
    && 0 <= lo <= hi <= |VBits(vm, pf, cur)|
    && AllClear(VBits(vm, pf, cur), lo, hi)
    && var v := SetRange(VBits(vm, pf, cur), lo, hi - lo, true);
      vm'.kv == WithVBits(vm, pf, cur, v).kv && vm'.uv == WithVBits(vm, pf, cur, v).uv
  }

  /** vm' is vm with the managed pages lo..hi-1 of pf mapped. */
  ghost predicate Grew(vm: Vm, vm': Vm, pf: Half, cur: int, lo: int, hi: int, tables: bool) {
    && (pf == User ==> cur in vm.uv)
    && SameShape(vm, vm')
    && Bits(vm, vm', pf, cur, lo, hi)
    && Uses(vm, vm', pf, cur, lo, hi, tables)
    && Extends(View(vm, cur), View(vm', cur), (Page0(pf) + lo) * 0x1000, (Page0(pf) + hi) * 0x1000)
    && Isolated(vm, vm', pf, cur) && Elsewhere(vm, vm', cur)
  }

  lemma BitsTrans(a: Vm, b: Vm, c: Vm, pf: Half, cur: int, lo: int, mid: int, hi: int)
    requires pf == User ==> cur in a.uv && cur in b.uv
    requires (Bits(a, b, pf, cur, lo, mid) && Bits(b, c, pf, cur, mid, hi))
          || (Bits(a, b, pf, cur, mid, hi) && Bits(b, c, pf, cur, lo, mid))
    ensures Bits(a, c, pf, cur, lo, hi)
  {
    var v := SetRange(VBits(a, pf, cur), lo, hi - lo, true);
    assert |VBits(b, pf, cur)| == |VBits(a, pf, cur)|;
    assert forall i :: lo <= i < hi ==> !VBits(a, pf, cur)[i];
    assert forall i :: 0 <= i < |v| ==> VBits(c, pf, cur)[i] == v[i];
    assert VBits(c, pf, cur) == v;
    if pf == User {
      var w := WithVBits(a, pf, cur, v).uv;
      assert forall s :: s in c.uv <==> s in w;
      assert forall s :: s in c.uv ==> c.uv[s] == w[s];
    }
  }

  lemma UsesTrans(a: Vm, b: Vm, c: Vm, pf: Half, cur: int, lo: int, mid: int, hi: int, tables: bool)
    requires lo <= mid <= hi
    requires (Uses(a, b, pf, cur, lo, mid, tables) && Uses(b, c, pf, cur, mid, hi, tables))
          || (Uses(a, b, pf, cur, mid, hi, tables) && Uses(b, c, pf, cur, lo, mid, tables))
    ensures Uses(a, c, pf, cur, lo, hi, tables)
  {
    forall f | f in c.owner && f !in a.owner
      ensures (exists i :: lo <= i < hi && c.owner[f] == PageUse(pf, cur, i))
           || (tables && c.owner[f].UTable? && c.owner[f].s == cur)
    {
      if f in b.owner { assert c.owner[f] == b.owner[f]; }
    }
  }

  lemma ExtendsJoin(a: Words, b: Words, c: Words, lo: int, mid: int, hi: int)
    requires lo <= mid <= hi
    requires (Extends(a, b, lo, mid) && Extends(b, c, mid, hi)) || (Extends(a, b, mid, hi) && Extends(b, c, lo, mid))
    ensures Extends(a, c, lo, hi)
  {
  }

  /** Growth by adjacent ranges, in either order, is growth by their union. */
  lemma GrewTrans(a: Vm, b: Vm, c: Vm, pf: Half, cur: int, lo: int, mid: int, hi: int, tables: bool)
    requires lo <= mid <= hi
    requires (Grew(a, b, pf, cur, lo, mid, tables) && Grew(b, c, pf, cur, mid, hi, tables))
          || (Grew(a, b, pf, cur, mid, hi, tables) && Grew(b, c, pf, cur, lo, mid, tables))
    ensures Grew(a, c, pf, cur, lo, hi, tables)
  {
    hide Bits, Uses, Extends, View, Walk, UserHalf;
    BitsTrans(a, b, c, pf, cur, lo, mid, hi);
    UsesTrans(a, b, c, pf, cur, lo, mid, hi, tables);
    var p := Page0(pf);
    ExtendsJoin(View(a, cur), View(b, cur), View(c, cur), (p + lo) * 0x1000, (p + mid) * 0x1000, (p + hi) * 0x1000);
  }

  lemma GrewBits(a: Vm, b: Vm, pf: Half, cur: int, lo: int, hi: int, tables: bool)
    requires Grew(a, b, pf, cur, lo, hi, tables)
    ensures b.uv.Keys == a.uv.Keys && (pf == User ==> cur in a.uv)
    ensures 0 <= lo <= hi <= |VBits(a, pf, cur)| && AllClear(VBits(a, pf, cur), lo, hi)
    ensures VBits(b, pf, cur) == SetRange(VBits(a, pf, cur), lo, hi - lo, true)
  {
    hide Uses, Extends, View, Isolated, SetRange;
  }

  lemma GrewWeaken(a: Vm, b: Vm, pf: Half, cur: int, lo: int, hi: int)
    requires Grew(a, b, pf, cur, lo, hi, false)
    ensures Grew(a, b, pf, cur, lo, hi, true)
  {
  }

  lemma GrewRefl(a: Vm, pf: Half, cur: int, lo: int, tables: bool)
    requires pf == User ==> cur in a.uv
    requires 0 <= lo <= |VBits(a, pf, cur)|
    ensures Grew(a, a, pf, cur, lo, lo, tables)
  {
    var v := VBits(a, pf, cur);
    assert SetRange(v, lo, 0, true) == v;
    if pf == User { assert a.uv[cur := v] == a.uv; }
  }

  // One page at a time.

  /** Words of pages in use do not change. */
  ghost predicate DataKept(vm: Vm, vm': Vm) {
    forall f, x :: IsData(vm, f) ==> Rd(vm'.mem, f, x) == Rd(vm.mem, f, x)
  }

  /** Data pages stay where they are and page p joins them; their words do not change. */
  ghost predicate PagesGrow(vm: Vm, vm': Vm, cur: int, p: int) {
    && !DataPage(vm, cur, p)
    && (forall q :: DataPage(vm', cur, q) <==> DataPage(vm, cur, q) || q == p)
    && (forall q :: DataPage(vm, cur, q) ==> FrameAt(vm', cur, q) == FrameAt(vm, cur, q))
    && DataKept(vm, vm')
  }

  lemma ViewGrows(vm: Vm, vm': Vm, cur: int, p: int)
    requires Agree(vm) && IsDir(vm, cur) && PagesGrow(vm, vm', cur, p) && 0 <= p < SELF_MAP / 0x1000
    ensures Extends(View(vm, cur), View(vm', cur), p * 0x1000, p * 0x1000 + 0x1000) && DataKept(vm, vm')
  {
    hide Agree, IsData, DataPage, FrameAt, View, Rd;
    forall v | v in View(vm, cur)
      ensures v in View(vm', cur) && View(vm', cur)[v] == View(vm, cur)[v]
    {
      DataWalk(vm, cur, v / 0x1000);
    }
  }

  lemma MapKPtes(vm: Vm, i: int, j: int)
    requires Agree(vm) && 0 <= i < |vm.kv| && 0 <= j < |vm.kp| && !vm.kv[i] && !vm.kp[j]
    ensures forall k :: 0 <= k < |vm.kv| && k != i ==> KPte(MapK(vm, i, j).mem, k) == KPte(vm.mem, k)
    ensures KPte(MapK(vm, i, j).mem, i) == Entry(vm.kstart + j)
    ensures forall s, k :: s in vm.uv && 0 <= k < U_PAGES && vm.uv[s][k] ==>
      UPte(MapK(vm, i, j).mem, s, k) == UPte(vm.mem, s, k)
    ensures forall f, x :: IsData(vm, f) || f in vm.uv ==> Rd(MapK(vm, i, j).mem, f, x) == Rd(vm.mem, f, x)
  {
    hide Present, UserWrite, FrameOf, Entry, PoolBits, Wr, Rd;
    FramesApart(vm);
    assert BOOT_TABLE <= KTable((K_PAGE0 + i) / 1024) < POOL_FLOOR;
  }

  lemma MapKPages(vm: Vm, i: int, j: int, cur: int)
    requires Agree(vm) && IsDir(vm, cur) && 0 <= i < |vm.kv| && 0 <= j < |vm.kp| && !vm.kv[i] && !vm.kp[j]
    ensures PagesGrow(vm, MapK(vm, i, j), cur, K_PAGE0 + i)
  {
    hide Present, UserWrite, FrameOf, Entry, PoolBits, Wr, Rd, KPte, UPte, UPde, KernelPages, UserPages, UserTables;
    hide Owners;
    FramesApart(vm);
    TakeBit(vm, j, KPage(i));
    MapKPtes(vm, i, j);
  }

  lemma MapUPages(vm: Vm, s: int, i: int, j: int)
    requires Agree(vm) && s in vm.uv && 0 <= i < U_PAGES && 0 <= j < |vm.up|
    requires Present(UPde(vm.mem, s, i)) && !vm.uv[s][i] && !vm.up[j]
    ensures PagesGrow(vm, MapU(vm, s, i, j), s, U_PAGE0 + i)
  {
    hide Present, UserWrite, FrameOf, Entry, PoolBits, Wr, Rd;
    FramesApart(vm);
    TakeBit(vm, j, UPage(s, i));
  }

  lemma AddTablePages(vm: Vm, s: int, d: int, j: int)
    requires Agree(vm) && s in vm.uv && 0 <= d < 768 && 0 <= j < |vm.kp|
    requires !Present(Rd(vm.mem, s, d)) && !vm.kp[j]
    ensures var vm' := AddTable(vm, s, d, j);
      && (forall q :: DataPage(vm', s, q) <==> DataPage(vm, s, q))
      && (forall q :: DataPage(vm, s, q) ==> FrameAt(vm', s, q) == FrameAt(vm, s, q))
      && DataKept(vm, vm')
  {
    hide Present, UserWrite, FrameOf, Entry, PoolBits, Wr, ZeroFrame, Rd;
    FramesApart(vm);
    AddTableReads(vm, s, d, j);
  }

  lemma UnmapKPages(vm: Vm, i: int, cur: int)
    requires Agree(vm) && IsDir(vm, cur) && 0 <= i < |vm.kv| && vm.kv[i]
    requires InK(vm, FrameOf(KPte(vm.mem, i))) && FrameOf(KPte(vm.mem, i)) !in vm.uv
    ensures PagesGrow(UnmapK(vm, i), vm, cur, K_PAGE0 + i)
  {
    hide Present, UserWrite, FrameOf, Entry, Absent, PoolBits, Wr, Rd;
    FramesApart(vm);
    KPageFrame(vm, i);
  }

  lemma UnmapUPages(vm: Vm, s: int, i: int)
    requires Agree(vm) && s in vm.uv && 0 <= i < U_PAGES && vm.uv[s][i] && InU(vm, FrameOf(UPte(vm.mem, s, i)))
    ensures PagesGrow(UnmapU(vm, s, i), vm, s, U_PAGE0 + i)
  {
    hide Present, UserWrite, FrameOf, Entry, Absent, PoolBits, Wr, Rd;
    FramesApart(vm);
    UPageFrame(vm, s, i);
  }

  // Other address spaces.

  lemma MapKIsolated(vm: Vm, i: int, j: int, cur: int)
    requires Agree(vm) && 0 <= i < |vm.kv| && 0 <= j < |vm.kp|
    ensures Isolated(vm, MapK(vm, i, j), Kernel, cur)
  {
    hide Present, UserWrite, FrameOf, Entry, PoolBits, Wr, Rd;
    FramesApart(vm);
    assert BOOT_TABLE <= KTable((K_PAGE0 + i) / 1024) < POOL_FLOOR;
  }

  lemma MapUIsolated(vm: Vm, s: int, i: int, j: int)
    requires Agree(vm) && s in vm.uv && 0 <= i < U_PAGES && 0 <= j < |vm.up| && Present(UPde(vm.mem, s, i))
    ensures Isolated(vm, MapU(vm, s, i, j), User, s)
  {
    hide Present, UserWrite, FrameOf, Entry, PoolBits, Wr, Rd;
    FramesApart(vm);
  }

  lemma AddTableIsolated(vm: Vm, s: int, d: int, j: int)
    requires Agree(vm) && s in vm.uv && 0 <= d < 768 && 0 <= j < |vm.kp| && !vm.kp[j]
    ensures Isolated(vm, AddTable(vm, s, d, j), User, s)
  {
    hide Present, UserWrite, FrameOf, Entry, PoolBits, Wr, ZeroFrame, Rd;
    FramesApart(vm);
    AddTableReads(vm, s, d, j);
  }

  lemma UnmapKIsolated(vm: Vm, i: int, cur: int)
    requires Agree(vm) && 0 <= i < |vm.kv| && vm.kv[i] && InK(vm, FrameOf(KPte(vm.mem, i)))
    ensures Isolated(UnmapK(vm, i), vm, Kernel, cur)
  {
    hide Present, UserWrite, FrameOf, Entry, Absent, PoolBits, Wr, Rd;
    FramesApart(vm);
    KPageFrame(vm, i);
  }

  lemma UnmapUIsolated(vm: Vm, s: int, i: int)
    requires Agree(vm) && s in vm.uv && 0 <= i < U_PAGES && vm.uv[s][i] && InU(vm, FrameOf(UPte(vm.mem, s, i)))
    ensures Isolated(UnmapU(vm, s, i), vm, User, s)
  {
    hide Present, UserWrite, FrameOf, Entry, Absent, PoolBits, Wr, Rd;
    FramesApart(vm);
    UPageFrame(vm, s, i);
  }

  lemma UserPageSame(vm: Vm, vm': Vm, s: int, p: int)
    requires Agree(vm) && Agree(vm') && s in vm.uv && s in vm'.uv && 0 <= p < K_LOW_PAGE
    requires Lookup(vm'.mem, s, p) == Lookup(vm.mem, s, p)
    ensures DataPage(vm', s, p) <==> DataPage(vm, s, p)
    ensures DataPage(vm, s, p) ==> FrameAt(vm', s, p) == FrameAt(vm, s, p) && IsData(vm, FrameAt(vm, s, p))
  {
    LayoutOf(vm);
    LayoutOf(vm');
    if U_PAGE0 <= p {
      BitIsMapping(vm, User, s, p - U_PAGE0);
      BitIsMapping(vm', User, s, p - U_PAGE0);
    }
    if DataPage(vm, s, p) { DataWalk(vm, s, p); }
    if DataPage(vm', s, p) { DataWalk(vm', s, p); }
    hide Agree, FrameAt, Lookup, IsData;
  }

  lemma SameLookup(m: Mem, m': Mem, s: int, p: int)
    requires 0 <= p && Walk(m', s, p * 0x1000) == Walk(m, s, p * 0x1000)
    ensures Lookup(m', s, p) == Lookup(m, s, p)
  {
    WalkIsLookup(m, s, p * 0x1000);
    WalkIsLookup(m', s, p * 0x1000);
    hide Lookup, Walk;
  }

  lemma UserWordsSame(vm: Vm, vm': Vm, pf: Half, cur: int, s: int)
    requires Agree(vm) && Agree(vm') && s in vm.uv && s in vm'.uv && s != cur
    requires Isolated(vm, vm', pf, cur) && DataKept(vm, vm')
    ensures UserHalf(View(vm', s)) == UserHalf(View(vm, s))
  {
    hide Agree, IsData, DataPage, FrameAt, Rd, Lookup, Walk, UserHalf, View;
    forall p | 0 <= p < K_LOW_PAGE
      ensures DataPage(vm', s, p) <==> DataPage(vm, s, p)
      ensures DataPage(vm, s, p) ==> FrameAt(vm', s, p) == FrameAt(vm, s, p) && IsData(vm, FrameAt(vm, s, p))
    {
      SameLookup(vm.mem, vm'.mem, s, p);
      UserPageSame(vm, vm', s, p);
    }
    var a, b := UserHalf(View(vm, s)), UserHalf(View(vm', s));
    assert forall v :: v in a <==> v in b;
    assert forall v :: v in a ==> a[v] == b[v];
  }

  lemma ElsewhereSame(vm: Vm, vm': Vm, pf: Half, cur: int)
    requires Agree(vm) && Agree(vm') && vm'.uv.Keys == vm.uv.Keys
    requires Isolated(vm, vm', pf, cur) && DataKept(vm, vm')
    ensures Elsewhere(vm, vm', cur)
  {
    hide Agree, Isolated, DataKept, View, UserHalf;
    forall s | s in vm.uv && s != cur ensures UserHalf(View(vm', s)) == UserHalf(View(vm, s)) {
      UserWordsSame(vm, vm', pf, cur, s);
    }
  }

  // The steps of malloc_page and mfree_page.

  /** palloc and page_table_add for managed kernel page i. */
  lemma MapKGrew(vm: Vm, i: int, j: int, cur: int)
    requires Agree(vm) && IsDir(vm, cur) && 0 <= i < |vm.kv| && 0 <= j < |vm.kp| && !vm.kv[i] && !vm.kp[j]
    ensures Agree(MapK(vm, i, j)) && Grew(vm, MapK(vm, i, j), Kernel, cur, i, i + 1, false)
  {
    hide Agree, IsDir, Extends, View, Isolated, Elsewhere, DataKept, PagesGrow, SetRange;
    var vm' := MapK(vm, i, j);
    MapKKeeps(vm, i, j);
    MapKPages(vm, i, j, cur);
    LayoutOf(vm);
    ViewGrows(vm, vm', cur, K_PAGE0 + i);
    MapKIsolated(vm, i, j, cur);
    ElsewhereSame(vm, vm', Kernel, cur);
    SetOne(vm.kv, i);
    FreshFrame(vm, j);
    assert PageUse(Kernel, cur, i) == KPage(i);
    assert Uses(vm, vm', Kernel, cur, i, i + 1, false);
    assert Bits(vm, vm', Kernel, cur, i, i + 1);
  }

  lemma MapUGrew(vm: Vm, s: int, i: int, j: int)
    requires Agree(vm) && s in vm.uv && 0 <= i < U_PAGES && 0 <= j < |vm.up|
    requires Present(UPde(vm.mem, s, i)) && !vm.uv[s][i] && !vm.up[j]
    ensures Agree(MapU(vm, s, i, j)) && Grew(vm, MapU(vm, s, i, j), User, s, i, i + 1, false)
  {
    hide Agree, Extends, View, Isolated, Elsewhere, DataKept, PagesGrow, SetRange;
    LayoutOf(vm);
    var vm' := MapU(vm, s, i, j);
    MapUKeeps(vm, s, i, j);
    MapUPages(vm, s, i, j);
    ViewGrows(vm, vm', s, U_PAGE0 + i);
    MapUIsolated(vm, s, i, j);
    ElsewhereSame(vm, vm', User, s);
    SetOne(vm.uv[s], i);
    FreshFrame(vm, j);
    assert PageUse(User, s, i) == UPage(s, i);
    assert Uses(vm, vm', User, s, i, i + 1, false);
    assert Bits(vm, vm', User, s, i, i + 1);
  }

  lemma AddTableGrew(vm: Vm, s: int, i: int, j: int)
    requires Agree(vm) && s in vm.uv && 0 <= i < U_PAGES && 0 <= j < |vm.kp|
    requires !Present(UPde(vm.mem, s, i)) && !vm.kp[j]
    ensures Agree(AddTable(vm, s, (U_PAGE0 + i) / 1024, j))
    ensures Grew(vm, AddTable(vm, s, (U_PAGE0 + i) / 1024, j), User, s, i, i, true)
    ensures !AddTable(vm, s, (U_PAGE0 + i) / 1024, j).uv[s][i]
    ensures Present(UPde(AddTable(vm, s, (U_PAGE0 + i) / 1024, j).mem, s, i))
  {
    hide Agree, Isolated, Elsewhere, DataPage, FrameAt, IsData, SetRange, Wr, ZeroFrame, Rd, UserHalf;
    var d := (U_PAGE0 + i) / 1024;
    var vm' := AddTable(vm, s, d, j);
    AddTableKeeps(vm, s, d, j);
    AddTablePages(vm, s, d, j);
    AddTableReads(vm, s, d, j);
    LayoutOf(vm);
    GrewRefl(vm, User, s, i, true);
    forall v | v in View(vm, s) ensures v in View(vm', s) && View(vm', s)[v] == View(vm, s)[v] {
      DataWalk(vm, s, v / 0x1000);
    }
    AddTableIsolated(vm, s, d, j);
    ElsewhereSame(vm, vm', User, s);
    FreshFrame(vm, j);
    AbsentIsClear(vm, s, i);
  }

  lemma UnmapKGrew(vm: Vm, i: int, cur: int)
    requires Agree(vm) && IsDir(vm, cur) && 0 <= i < |vm.kv| && vm.kv[i]
    requires FrameOf(KPte(vm.mem, i)) !in vm.uv
    ensures InK(vm, FrameOf(KPte(vm.mem, i)))
    ensures Agree(UnmapK(vm, i)) && Grew(UnmapK(vm, i), vm, Kernel, cur, i, i + 1, false)
  {
    hide Agree, IsDir, Extends, View, Isolated, Elsewhere, DataKept, PagesGrow, SetRange;
    KPageFrame(vm, i);
    var vm' := UnmapK(vm, i);
    UnmapKKeeps(vm, i);
    UnmapKPages(vm, i, cur);
    LayoutOf(vm);
    IsDirSame(vm, vm', cur);
    ViewGrows(vm', vm, cur, K_PAGE0 + i);
    UnmapKIsolated(vm, i, cur);
    ElsewhereSame(vm', vm, Kernel, cur);
    SetOne(vm'.kv, i);
    assert vm'.kv[i := true] == vm.kv;
    assert PageUse(Kernel, cur, i) == KPage(i);
    assert Uses(vm', vm, Kernel, cur, i, i + 1, false);
    assert Bits(vm', vm, Kernel, cur, i, i + 1);
  }

  lemma UnmapUGrew(vm: Vm, s: int, i: int)
    requires Agree(vm) && s in vm.uv && 0 <= i < U_PAGES && vm.uv[s][i]
    ensures InU(vm, FrameOf(UPte(vm.mem, s, i)))
    ensures Agree(UnmapU(vm, s, i)) && Grew(UnmapU(vm, s, i), vm, User, s, i, i + 1, false)
  {
    hide Agree, Extends, View, Isolated, Elsewhere, DataKept, PagesGrow, SetRange, Rd, Wr, Present, UserWrite, FrameOf;
    hide Absent;
    LayoutOf(vm);
    UPageFrame(vm, s, i);
    var vm' := UnmapU(vm, s, i);
    UnmapUKeeps(vm, s, i);
    UnmapUPages(vm, s, i);
    ViewGrows(vm', vm, s, U_PAGE0 + i);
    UnmapUIsolated(vm, s, i);
    ElsewhereSame(vm', vm, User, s);
    SetOne(vm'.uv[s], i);
    assert vm'.uv[s][i := true] == vm.uv[s];
    assert vm'.uv[s := vm.uv[s]] == vm.uv;
    assert PageUse(User, s, i) == UPage(s, i);
    assert Uses(vm', vm, User, s, i, i + 1, false);
    assert Bits(vm', vm, User, s, i, i + 1);
  }

  lemma LayoutOf(vm: Vm)
    requires Agree(vm)
    ensures |vm.kv| <= 0xffc00 - K_PAGE0 && forall s :: s in vm.uv ==> |vm.uv[s]| == U_PAGES
  {
  }

  lemma IsDirSame(vm: Vm, vm': Vm, cur: int)
    requires IsDir(vm, cur) && vm'.uv.Keys == vm.uv.Keys
    ensures IsDir(vm', cur)
  {
  }

  lemma SetOne(v: seq<bool>, i: int)
    requires 0 <= i < |v|
    ensures SetRange(v, i, 1, true) == v[i := true]
  {
  }

  lemma FreshFrame(vm: Vm, j: int)
    requires Agree(vm)
    ensures 0 <= j < |vm.kp| && !vm.kp[j] ==> vm.kstart + j !in vm.owner
    ensures 0 <= j < |vm.up| && !vm.up[j] ==> vm.ustart + j !in vm.owner
  {
  }

  lemma AbsentIsClear(vm: Vm, s: int, i: int)
    requires Agree(vm) && s in vm.uv && 0 <= i < U_PAGES && !Present(UPde(vm.mem, s, i))
    ensures !vm.uv[s][i]
  {
  }
}
