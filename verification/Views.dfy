/** Virtual memory as its users see it, and what the agreement of page tables and bitmaps
    means for them. */
module Views {
  import opened Paging
  import opened Agreement

  /** Words of virtual memory, by word-aligned address. */
  type Words = map<int, int>

  /** PF_KERNEL and PF_USER. */
  datatype Half = Kernel | User

  function Page0(pf: Half): int { if pf == Kernel then K_PAGE0 else U_PAGE0 }

  /** The virtual bitmap of pf, as the address space with directory cur has it. */
  function VBits(vm: Vm, pf: Half, cur: int): seq<bool>
    requires pf == User ==> cur in vm.uv
  {
    if pf == Kernel then vm.kv else vm.uv[cur]
  }

  function WithVBits(vm: Vm, pf: Half, cur: int, v: seq<bool>): Vm {
    if pf == Kernel then vm.(kv := v) else vm.(uv := vm.uv[cur := v])
  }

  function PageUse(pf: Half, cur: int, i: int): Use {
    if pf == Kernel then KPage(i) else UPage(cur, i)
  }

  /** Pages of cur that hold data: the kernel image, and managed pages but directories. */
  predicate DataPage(vm: Vm, cur: int, p: int) {
    || K_LOW_PAGE <= p < K_PAGE0
    || (K_PAGE0 <= p < K_PAGE0 + |vm.kv| && vm.kv[p - K_PAGE0] && FrameOf(KPte(vm.mem, p - K_PAGE0)) !in vm.uv)
    || (cur in vm.uv && U_PAGE0 <= p < U_PAGE0 + |vm.uv[cur]| && p < K_LOW_PAGE && vm.uv[cur][p - U_PAGE0])
  }

  function FrameAt(vm: Vm, cur: int, p: int): int {
    if p < K_LOW_PAGE then FrameOf(UPte(vm.mem, cur, p - U_PAGE0))
    else if p < K_PAGE0 then p - K_LOW_PAGE
    else FrameOf(KPte(vm.mem, p - K_PAGE0))
  }

  predicate Readable(vm: Vm, cur: int, v: int) {
    0 <= v < SELF_MAP && v % 4 == 0 && DataPage(vm, cur, v / 0x1000)
  }

  /** The data words of virtual memory under directory cur. */
  ghost function View(vm: Vm, cur: int): (w: Words)
    ensures forall v :: v in w <==> Readable(vm, cur, v)
    ensures forall v :: v in w ==> w[v] == Rd(vm.mem, FrameAt(vm, cur, v / 0x1000), v % 0x1000 / 4)
  {
    map v | 0 <= v < SELF_MAP && Readable(vm, cur, v) :: Rd(vm.mem, FrameAt(vm, cur, v / 0x1000), v % 0x1000 / 4)
  }

  /** w' is w and the words of [lo, hi), which w lacks. */
  ghost predicate Extends(w: Words, w': Words, lo: int, hi: int) {
    && (forall v :: v in w' <==> v in w || (lo <= v < hi && v % 4 == 0))
    && (forall v :: v in w ==> !(lo <= v < hi) && w'[v] == w[v])
  }

  /** What lies below the kernel's 3 GB. */
  ghost function UserHalf(w: Words): (u: Words)
    ensures forall v :: v in u <==> v in w && v < 0xc000_0000
    ensures forall v :: v in u ==> u[v] == w[v]
  {
    map v | v in w && v < 0xc000_0000 :: w[v]
  }

  // What agreement means.

  /** A data page walks to its frame. */
  lemma DataWalk(vm: Vm, cur: int, p: int)
    requires Agree(vm) && IsDir(vm, cur) && DataPage(vm, cur, p)
    ensures Lookup(vm.mem, cur, p) == Some(FrameAt(vm, cur, p))
    ensures IsData(vm, FrameAt(vm, cur, p))
  {
  }

  /** Code of a process may write what it finds below the kernel's 3 GB: there the walk with access
      rights ends where the walk does. */
  lemma UserAccess(vm: Vm, s: int, v: int)
    requires Agree(vm) && s in vm.uv && 0 <= v < 0xc000_0000 && DataPage(vm, s, v / 0x1000)
    ensures UserWalk(vm.mem, s, v) == Some(Phys(FrameAt(vm, s, v / 0x1000), Offset(v)))
  {
    hide Present, UserWrite, FrameOf, Rd;
    assert v / 0x1000 / 1024 == Dir(v);
    DataWalk(vm, s, v / 0x1000);
  }

  /** A managed page walks to a frame if and only if its bit is set. */
  lemma BitIsMapping(vm: Vm, pf: Half, cur: int, i: int)
    requires Agree(vm) && IsDir(vm, cur) && (pf == User ==> cur in vm.uv)
    requires 0 <= i < |VBits(vm, pf, cur)|
    ensures VBits(vm, pf, cur)[i] <==> Lookup(vm.mem, cur, Page0(pf) + i).Some?
  {
    hide Present, UserWrite, Entry, FrameOf, Rd;
  }

  /** The kernel half of virtual memory is the same under every directory. */
  lemma KernelWords(vm: Vm, s: int, t: int, v: int)
    requires v >= 0xc000_0000
    ensures v in View(vm, s) <==> v in View(vm, t)
    ensures v in View(vm, s) ==> View(vm, s)[v] == View(vm, t)[v]
  {
    hide KPte, Rd, FrameOf;
  }

  /** No frame backs two data pages. */
  lemma FrameAtInjective(vm: Vm, cur: int, p: int, q: int)
    requires Agree(vm) && DataPage(vm, cur, p) && DataPage(vm, cur, q) && p != q
    ensures FrameAt(vm, cur, p) != FrameAt(vm, cur, q)
  {
  }

  lemma UpdateIs(before: Words, after: Words, v: int, w: int)
    requires v in before && forall u :: u in after <==> u in before
    requires after[v] == w && forall u :: u in before && u != v ==> after[u] == before[u]
    ensures after == before[v := w]
  {
    var expected := before[v := w];
    assert forall u :: u in after <==> u in expected;
    assert forall u :: u in after ==> after[u] == expected[u];
  }

  lemma Quarter(x: int)
    requires x % 4 == 0
    ensures x == 4 * (x / 4)
  {
  }

  lemma Fours(k: int)
    ensures 4 * k % 4 == 0
  {
  }

  lemma LowBits(u: int)
    requires u % 4 == 0
    ensures u % 0x1000 % 4 == 0 && u == 0x1000 * (u / 0x1000) + u % 0x1000
  {
    Quarter(u);
    Fours(u / 4 - 0x400 * (u / 0x1000));
    assert u % 0x1000 == 4 * (u / 4 - 0x400 * (u / 0x1000));
  }

  lemma OtherWord(u: int, v: int)
    requires u / 0x1000 == v / 0x1000 && u % 4 == 0 && v % 4 == 0 && u != v
    ensures u % 0x1000 / 4 != v % 0x1000 / 4
  {
    LowBits(u);
    LowBits(v);
    Quarter(u % 0x1000);
    Quarter(v % 0x1000);
  }

  lemma StorePages(vm: Vm, cur: int, f: int, x: int, w: int)
    requires Agree(vm) && IsDir(vm, cur) && IsData(vm, f)
    ensures forall p :: DataPage(StoreWord(vm, f, x, w), cur, p) <==> DataPage(vm, cur, p)
    ensures forall p :: DataPage(vm, cur, p) ==> FrameAt(StoreWord(vm, f, x, w), cur, p) == FrameAt(vm, cur, p)
  {
    hide Present, UserWrite, FrameOf, Entry, PoolBits, Wr, Rd;
    FramesApart(vm);
  }

  /** Virtual memory is flat: a store at v changes the word at v and no other. */
  lemma StoreView(vm: Vm, cur: int, v: int, w: int)
    requires Agree(vm) && IsDir(vm, cur) && v in View(vm, cur)
    ensures View(StoreWord(vm, FrameAt(vm, cur, v / 0x1000), v % 0x1000 / 4, w), cur) == View(vm, cur)[v := w]
  {
    hide Agree, DataPage, FrameAt, IsData, View;
    var f, x := FrameAt(vm, cur, v / 0x1000), v % 0x1000 / 4;
    var vm' := StoreWord(vm, f, x, w);
    DataWalk(vm, cur, v / 0x1000);
    StorePages(vm, cur, f, x, w);
    var before, after := View(vm, cur), View(vm', cur);
    assert forall u :: u in after <==> u in before by {
      assert forall u :: Readable(vm', cur, u) <==> Readable(vm, cur, u);
    }
    forall u | u in before ensures u in after && after[u] == before[v := w][u] {
      if u / 0x1000 != v / 0x1000 {
        FrameAtInjective(vm, cur, u / 0x1000, v / 0x1000);
      } else if u != v {
        OtherWord(u, v);
      }
    }
    UpdateIs(before, after, v, w);
  }
}
