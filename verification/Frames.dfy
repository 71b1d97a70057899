/** What the agreement says without its record of uses: virtual bitmaps, page tables and frame
    bitmaps tell the same story. */
module Frames {
  import opened Paging
  import opened Agreement
  import opened Views
  import opened Growth

  /** A page that some bitmap manages: kernel page i, or page i of address space s. */
  datatype Page = Page(pf: Half, s: int, i: int)

  /** The page has a bit; kernel pages are counted once, under the boot directory. */
  predicate Managed(vm: Vm, p: Page) {
    match p.pf
    case Kernel => p.s == BOOT_DIR && 0 <= p.i < |vm.kv|
    case User => p.s in vm.uv && 0 <= p.i < |vm.uv[p.s]|
  }

  /** The page's bit. */
  predicate Bit(vm: Vm, p: Page)
    requires Managed(vm, p)
  {
    if p.pf == Kernel then vm.kv[p.i] else vm.uv[p.s][p.i]
  }

  /** Where the hardware finds the page. */
  function Mapped(vm: Vm, p: Page): Option<int> {
    Lookup(vm.mem, p.s, Page0(p.pf) + p.i)
  }

  /** Frame f is the table of some entry of a user half. */
  ghost predicate IsUserTable(vm: Vm, f: int) {
    exists s, d :: s in vm.uv && 0 <= d < 768 && Present(Rd(vm.mem, s, d)) && FrameOf(Rd(vm.mem, s, d)) == f
  }

  ghost predicate Backs(vm: Vm, f: int) {
    exists p :: Managed(vm, p) && Mapped(vm, p) == Some(f)
  }

  /** A virtual bit is set if and only if the page is present. */
  lemma BitIffPresent(vm: Vm, p: Page)
    requires Agree(vm) && Managed(vm, p)
    ensures Bit(vm, p) <==> Mapped(vm, p).Some?
    ensures Mapped(vm, p).Some? ==>
      Owns(vm, Mapped(vm, p).value, if p.pf == Kernel then KPage(p.i) else UPage(p.s, p.i))
  {
    hide Rd, Present, UserWrite, FrameOf, PoolBits;
  }

  /** No frame backs two present pages. */
  lemma OnePagePerFrame(vm: Vm, p: Page, q: Page)
    requires Agree(vm) && Managed(vm, p) && Managed(vm, q) && p != q
    requires Mapped(vm, p).Some? && Mapped(vm, q).Some?
    ensures Mapped(vm, p) != Mapped(vm, q)
    ensures !IsUserTable(vm, Mapped(vm, p).value)
  {
    hide Agree, Mapped, Rd, Present, UserWrite, FrameOf;
    BitIffPresent(vm, p);
    BitIffPresent(vm, q);
    TableUse(vm, Mapped(vm, p).value);
  }

  lemma TableUse(vm: Vm, f: int)
    requires Agree(vm)
    ensures IsUserTable(vm, f) <==> f in vm.owner && vm.owner[f].UTable?
  {
    hide Rd, Present, UserWrite, FrameOf, PoolBits;
    if f in vm.owner && vm.owner[f].UTable? {
      var s, d := vm.owner[f].s, vm.owner[f].d;
      assert s in vm.uv && Present(Rd(vm.mem, s, d)) && FrameOf(Rd(vm.mem, s, d)) == f;
    }
  }

  lemma PageUseOf(vm: Vm, f: int)
    requires Agree(vm)
    ensures Backs(vm, f) <==> f in vm.owner && !vm.owner[f].UTable?
  {
    hide Rd, Present, UserWrite, FrameOf, PoolBits, Mapped;
    if p :| Managed(vm, p) && Mapped(vm, p) == Some(f) { BitIffPresent(vm, p); }
    if f in vm.owner && !vm.owner[f].UTable? {
      var p := match vm.owner[f]
        case KPage(i) => Page(Kernel, BOOT_DIR, i)
        case UPage(s, i) => Page(User, s, i);
      BitIffPresent(vm, p);
      MappedFrame(vm, p);
    }
  }

  lemma MappedFrame(vm: Vm, p: Page)
    requires Agree(vm) && Managed(vm, p) && Bit(vm, p)
    ensures Mapped(vm, p) == Some(FrameOf(if p.pf == Kernel then KPte(vm.mem, p.i) else UPte(vm.mem, p.s, p.i)))
  {
    hide Rd, Present, UserWrite, FrameOf, PoolBits;
  }

  /** A frame's bit is set if and only if it backs a present page or holds a user page table. */
  lemma FrameBits(vm: Vm)
    requires Agree(vm)
    ensures forall j :: 0 <= j < |vm.kp| ==>
      (vm.kp[j] <==> Backs(vm, vm.kstart + j) || IsUserTable(vm, vm.kstart + j))
    ensures forall j :: 0 <= j < |vm.up| ==>
      (vm.up[j] <==> Backs(vm, vm.ustart + j)) && !IsUserTable(vm, vm.ustart + j)
  {
    hide Backs, IsUserTable, Rd, Present, UserWrite, FrameOf, Directories, KernelPages, UserPages, UserTables;
    forall j | 0 <= j < |vm.kp| ensures vm.kp[j] <==> Backs(vm, vm.kstart + j) || IsUserTable(vm, vm.kstart + j) {
      PageUseOf(vm, vm.kstart + j);
      TableUse(vm, vm.kstart + j);
    }
    forall j | 0 <= j < |vm.up| ensures (vm.up[j] <==> Backs(vm, vm.ustart + j)) && !IsUserTable(vm, vm.ustart + j) {
      PageUseOf(vm, vm.ustart + j);
      TableUse(vm, vm.ustart + j);
    }
  }

  /** Every directory sees the same kernel half, whatever has been mapped in whichever. */
  lemma KernelHalfShared(vm: Vm, s: int, t: int, v: int)
    requires Agree(vm) && IsDir(vm, s) && IsDir(vm, t) && 0xc000_0000 <= v < SELF_MAP
    ensures Walk(vm.mem, s, v) == Walk(vm.mem, t, v) && Present(Rd(vm.mem, s, Dir(v)))
  {
    hide Present, UserWrite, FrameOf, PoolBits;
    assert 768 <= Dir(v) < 1023;
  }

  /** The page a frame is used for has its bit set. */
  lemma UsedIsSet(vm: Vm, pf: Half, cur: int, f: int, i: int)
    requires Agree(vm) && f in vm.owner && vm.owner[f] == PageUse(pf, cur, i) && (pf == User ==> cur in vm.uv)
    ensures 0 <= i < |VBits(vm, pf, cur)| && VBits(vm, pf, cur)[i]
  {
    hide Rd, Present, UserWrite, FrameOf;
  }

  lemma SamePool(bits: seq<bool>, bits': seq<bool>, start: int, owner: map<int, Use>, owner': map<int, Use>)
    requires PoolBits(bits, start, owner) && PoolBits(bits', start, owner') && |bits| == |bits'|
    requires forall f :: start <= f < start + |bits| ==> (f in owner <==> f in owner')
    ensures bits == bits'
  {
    forall j | 0 <= j < |bits| ensures bits[j] == bits'[j] {
      assert start + j in owner <==> start + j in owner';
    }
  }

  /** A table's frame lies in the kernel pool and a user page's in the user pool. */
  lemma PoolOfUse(vm: Vm, f: int)
    requires Agree(vm) && f in vm.owner
    ensures vm.owner[f].UPage? ==> InU(vm, f)
    ensures !vm.owner[f].UPage? ==> InK(vm, f)
    ensures vm.kstart + |vm.kp| <= vm.ustart
  {
    hide Rd, Present, UserWrite, FrameOf, PoolBits;
  }

  /** mfree_page after malloc_page: every bitmap and what virtual memory holds are as before,
      but for frames that stay page tables of the process. */
  lemma RoundTrip(a: Vm, b: Vm, c: Vm, pf: Half, cur: int, lo: int, hi: int)
    requires Agree(a) && Agree(c) && Grew(a, b, pf, cur, lo, hi, pf == User) && Grew(c, b, pf, cur, lo, hi, false)
    ensures c.kv == a.kv && c.uv == a.uv && c.up == a.up && View(c, cur) == View(a, cur)
    ensures forall s :: s in a.uv && s != cur ==> UserHalf(View(c, s)) == UserHalf(View(a, s))
    ensures pf == Kernel ==> c.kp == a.kp
    ensures forall f :: f in c.owner && f !in a.owner ==> pf == User && c.owner[f].UTable? && c.owner[f].s == cur
  {
    hide Agree, Grew, View;
    RoundTripBits(a, b, c, pf, cur, lo, hi);
    RoundTripView(a, b, c, pf, cur, lo, hi);
    RoundTripPools(a, b, c, pf, cur, lo, hi);
    RoundTripOthers(a, b, c, pf, cur, lo, hi);
  }

  lemma RoundTripOthers(a: Vm, b: Vm, c: Vm, pf: Half, cur: int, lo: int, hi: int)
    requires Grew(a, b, pf, cur, lo, hi, pf == User) && Grew(c, b, pf, cur, lo, hi, false)
    ensures forall s :: s in a.uv && s != cur ==> UserHalf(View(c, s)) == UserHalf(View(a, s))
  {
    hide Uses, View, Isolated, Bits, Extends, UserHalf;
  }

  lemma RoundTripBits(a: Vm, b: Vm, c: Vm, pf: Half, cur: int, lo: int, hi: int)
    requires Grew(a, b, pf, cur, lo, hi, pf == User) && Grew(c, b, pf, cur, lo, hi, false)
    ensures c.kv == a.kv && c.uv == a.uv && SameShape(a, c)
  {
    hide Uses, Extends, View, Isolated;
    assert VBits(a, pf, cur) == VBits(c, pf, cur);
    assert forall s :: s in a.uv <==> s in c.uv;
    assert forall s :: s in a.uv ==> a.uv[s] == c.uv[s];
  }

  lemma RoundTripView(a: Vm, b: Vm, c: Vm, pf: Half, cur: int, lo: int, hi: int)
    requires Grew(a, b, pf, cur, lo, hi, pf == User) && Grew(c, b, pf, cur, lo, hi, false)
    ensures View(c, cur) == View(a, cur)
  {
    hide Uses, View, Isolated, Bits, SameShape;
    var x, y := View(a, cur), View(c, cur);
    assert forall v :: v in x <==> v in y;
    assert forall v :: v in x ==> x[v] == y[v];
  }

  /** The frame whose use is page i of pf before malloc_page maps it does not exist. */
  lemma FreshUse(a: Vm, b: Vm, pf: Half, cur: int, lo: int, hi: int, tables: bool, f: int)
    requires Agree(a) && Grew(a, b, pf, cur, lo, hi, tables) && f in a.owner
    ensures forall i :: lo <= i < hi ==> a.owner[f] != PageUse(pf, cur, i)
  {
    hide Rd, Present, UserWrite, FrameOf, Extends, View, Isolated, Uses;
    forall i | lo <= i < hi && a.owner[f] == PageUse(pf, cur, i) ensures false {
      UsedIsSet(a, pf, cur, f, i);
    }
  }

  lemma RoundTripOwners(a: Vm, b: Vm, c: Vm, pf: Half, cur: int, lo: int, hi: int)
    requires Agree(a) && Agree(c) && Grew(a, b, pf, cur, lo, hi, pf == User) && Grew(c, b, pf, cur, lo, hi, false)
    ensures forall f :: f in a.owner ==> f in c.owner
    ensures forall f :: f in c.owner && f !in a.owner ==> pf == User && c.owner[f].UTable? && c.owner[f].s == cur
  {
    hide Agree, Extends, View, Isolated, Bits, SameShape;
    forall f | f in a.owner ensures f in c.owner {
      FreshUse(a, b, pf, cur, lo, hi, pf == User, f);
      assert b.owner[f] == a.owner[f];
    }
    forall f | f in c.owner && f !in a.owner ensures pf == User && c.owner[f].UTable? && c.owner[f].s == cur {
      FreshUse(c, b, pf, cur, lo, hi, false, f);
      assert b.owner[f] == c.owner[f];
    }
  }

  lemma RoundTripPools(a: Vm, b: Vm, c: Vm, pf: Half, cur: int, lo: int, hi: int)
    requires Agree(a) && Agree(c) && Grew(a, b, pf, cur, lo, hi, pf == User) && Grew(c, b, pf, cur, lo, hi, false)
    ensures c.up == a.up && (pf == Kernel ==> c.kp == a.kp)
    ensures forall f :: f in c.owner && f !in a.owner ==> pf == User && c.owner[f].UTable? && c.owner[f].s == cur
  {
    hide Grew, Layout, Directories, KernelPages, UserPages, UserTables, Owners, PoolBits;
    RoundTripOwners(a, b, c, pf, cur, lo, hi);
    SameShapes(a, b, c, pf, cur, lo, hi);
    forall f | f in c.owner && f !in a.owner ensures InK(c, f) && c.kstart + |c.kp| <= c.ustart {
      PoolOfUse(c, f);
    }
    SamePool(c.up, a.up, a.ustart, c.owner, a.owner);
    if pf == Kernel { SamePool(c.kp, a.kp, a.kstart, c.owner, a.owner); }
  }

  lemma SameShapes(a: Vm, b: Vm, c: Vm, pf: Half, cur: int, lo: int, hi: int)
    requires Grew(a, b, pf, cur, lo, hi, pf == User) && Grew(c, b, pf, cur, lo, hi, false)
    ensures SameShape(a, c)
  {
    hide Uses, Extends, View, Isolated, Bits;
  }
}
