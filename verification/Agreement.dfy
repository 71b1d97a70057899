/** What the page tables, the frame pools and the virtual-page bitmaps of kernel/memory.c have
    to say about each other, as a predicate on a snapshot of all three, and the updates that
    keep it. */
module Agreement {
  import opened Paging

  const BOOT_DIR := 0x100        // frame of the directory the loader builds
  const BOOT_TABLE := 0x101      // frame of the table of directory entry 768; 769.. follow it
  const POOL_FLOOR := 0x200      // first frame above the boot tables
  const K_PAGE0 := 0xc0100       // K_HEAP_START / PAGE_SIZE
  const K_LOW_PAGE := 0xc0000    // the kernel image and its globals: 256 identity-mapped pages
  const U_PAGE0 := 0x8048        // USER_VADDR_START / PG_SIZE
  const U_PAGES := 0xc0000 - 0x8048

  /** What an allocated frame is for: managed kernel page i, managed page i of the address
      space with directory s, or the table of directory entry d of s. */
  datatype Use = KPage(i: int) | UPage(s: int, i: int) | UTable(s: int, d: int)

  /** Memory, the frame bitmaps (kp, up), the virtual bitmaps (kv, and uv per address space,
      keyed by the frame of its directory), and the use of every frame taken. */
  datatype Vm = Vm(mem: Mem, kp: seq<bool>, up: seq<bool>, kv: seq<bool>, uv: map<int, seq<bool>>,
                   owner: map<int, Use>, kstart: int, ustart: int)

  function KTable(d: int): int { BOOT_TABLE + d - 768 }

  function KPte(m: Mem, i: int): int {
    Rd(m, KTable((K_PAGE0 + i) / 1024), (K_PAGE0 + i) % 1024)
  }

  function UPde(m: Mem, s: int, i: int): int {
    Rd(m, s, (U_PAGE0 + i) / 1024)
  }

  function UPte(m: Mem, s: int, i: int): int {
    Rd(m, FrameOf(UPde(m, s, i)), (U_PAGE0 + i) % 1024)
  }

  predicate UMapped(m: Mem, s: int, i: int) {
    Present(UPde(m, s, i)) && Present(UPte(m, s, i))
  }

  predicate InK(vm: Vm, f: int) { vm.kstart <= f < vm.kstart + |vm.kp| }
  predicate InU(vm: Vm, f: int) { vm.ustart <= f < vm.ustart + |vm.up| }

  predicate IsDir(vm: Vm, s: int) { s == BOOT_DIR || s in vm.uv }

  /** frame f is taken for use u */
  predicate Owns(vm: Vm, f: int, u: Use) { f in vm.owner && vm.owner[f] == u }

  ghost predicate Layout(vm: Vm) {
    && POOL_FLOOR <= vm.kstart && vm.kstart + |vm.kp| <= vm.ustart
    && |vm.kv| <= 0xffc00 - K_PAGE0
    && (forall s :: s in vm.uv ==> |vm.uv[s]| == U_PAGES)
  }

  /** Directory s maps itself at entry 1023 and has the boot tables in its kernel half. */
  ghost predicate KernelHalf(m: Mem, s: int) {
    SelfMapped(m, s) && forall d :: 768 <= d < 1023 ==> Maps(Rd(m, s, d), KTable(d))
  }

  ghost predicate Directories(vm: Vm) {
    && KernelHalf(vm.mem, BOOT_DIR)
    && (forall s :: s in vm.uv ==> KernelHalf(vm.mem, s) && s in vm.owner && vm.owner[s].KPage?)
    && (forall t :: 0 <= t < 256 ==> Maps(Rd(vm.mem, BOOT_TABLE, t), t))
  }

  ghost predicate KernelPages(vm: Vm) {
    forall i :: 0 <= i < |vm.kv| ==>
      && (vm.kv[i] <==> Present(KPte(vm.mem, i)))
      && (vm.kv[i] ==> Owns(vm, FrameOf(KPte(vm.mem, i)), KPage(i)) && UserWrite(KPte(vm.mem, i)))
  }

  ghost predicate UserPages(vm: Vm) {
    forall s, i :: s in vm.uv && 0 <= i < |vm.uv[s]| ==>
      && (vm.uv[s][i] <==> UMapped(vm.mem, s, i))
      && (vm.uv[s][i] ==> Owns(vm, FrameOf(UPte(vm.mem, s, i)), UPage(s, i)) && UserWrite(UPte(vm.mem, s, i)))
  }

  ghost predicate UserTables(vm: Vm) {
    forall s, d :: s in vm.uv && 0 <= d < 768 && Present(Rd(vm.mem, s, d)) ==>
      Owns(vm, FrameOf(Rd(vm.mem, s, d)), UTable(s, d)) && UserWrite(Rd(vm.mem, s, d))
  }

  /** The use recorded for a frame is its one use. */
  ghost predicate Owners(vm: Vm) {
    forall f :: f in vm.owner ==>
      match vm.owner[f]
      case KPage(i) => InK(vm, f) && 0 <= i < |vm.kv| && vm.kv[i] && FrameOf(KPte(vm.mem, i)) == f
      case UPage(s, i) =>
        InU(vm, f) && s in vm.uv && 0 <= i < |vm.uv[s]| && vm.uv[s][i] && FrameOf(UPte(vm.mem, s, i)) == f
      case UTable(s, d) =>
        InK(vm, f) && s in vm.uv && 0 <= d < 768 && Present(Rd(vm.mem, s, d)) && FrameOf(Rd(vm.mem, s, d)) == f
  }

  /** A set bit is a frame with a use. */
  ghost predicate PoolBits(bits: seq<bool>, start: int, owner: map<int, Use>) {
    forall j :: 0 <= j < |bits| ==> (bits[j] <==> start + j in owner)
  }

  ghost predicate Agree(vm: Vm) {
    && Layout(vm) && Directories(vm) && KernelPages(vm) && UserPages(vm)
    && UserTables(vm) && Owners(vm)
    && PoolBits(vm.kp, vm.kstart, vm.owner) && PoolBits(vm.up, vm.ustart, vm.owner)
  }

  // Updates.

  /** Map managed kernel page i to frame j of the kernel pool. */
  function MapK(vm: Vm, i: int, j: int): Vm
    requires 0 <= i < |vm.kv| && 0 <= j < |vm.kp|
  {
    var f, p := vm.kstart + j, K_PAGE0 + i;
    vm.(mem := Wr(vm.mem, KTable(p / 1024), p % 1024, Entry(f)),
        kp := vm.kp[j := true], kv := vm.kv[i := true], owner := vm.owner[f := KPage(i)])
  }

  /** Map managed page i of s, whose table exists, to frame j of the user pool. */
  function MapU(vm: Vm, s: int, i: int, j: int): Vm
    requires s in vm.uv && 0 <= i < |vm.uv[s]| && 0 <= j < |vm.up|
  {
    var f, p := vm.ustart + j, U_PAGE0 + i;
    vm.(mem := Wr(vm.mem, FrameOf(UPde(vm.mem, s, i)), p % 1024, Entry(f)),
        up := vm.up[j := true], uv := vm.uv[s := vm.uv[s][i := true]], owner := vm.owner[f := UPage(s, i)])
  }

  /** Give directory entry d of s a zeroed table in frame j of the kernel pool. */
  function AddTable(vm: Vm, s: int, d: int, j: int): Vm
    requires 0 <= j < |vm.kp|
  {
    var f := vm.kstart + j;
    vm.(mem := ZeroFrame(Wr(vm.mem, s, d, Entry(f)), f),
        kp := vm.kp[j := true], owner := vm.owner[f := UTable(s, d)])
  }

  /** Clear the present bit. */
  function Absent(e: int): (r: int)
    ensures !Present(r) && FrameOf(r) == FrameOf(e) && r / 2 == e / 2
  {
    e - e % 2
  }

  /** Unmap managed kernel page i and give its frame back. */
  function UnmapK(vm: Vm, i: int): Vm
    requires 0 <= i < |vm.kv| && InK(vm, FrameOf(KPte(vm.mem, i)))
  {
    var f, p := FrameOf(KPte(vm.mem, i)), K_PAGE0 + i;
    vm.(mem := Wr(vm.mem, KTable(p / 1024), p % 1024, Absent(KPte(vm.mem, i))),
        kp := vm.kp[f - vm.kstart := false], kv := vm.kv[i := false], owner := vm.owner - {f})
  }

  /** Unmap managed page i of s and give its frame back. */
  function UnmapU(vm: Vm, s: int, i: int): Vm
    requires s in vm.uv && 0 <= i < |vm.uv[s]| && InU(vm, FrameOf(UPte(vm.mem, s, i)))
  {
    var f, p := FrameOf(UPte(vm.mem, s, i)), U_PAGE0 + i;
    vm.(mem := Wr(vm.mem, FrameOf(UPde(vm.mem, s, i)), p % 1024, Absent(UPte(vm.mem, s, i))),
        up := vm.up[f - vm.ustart := false], uv := vm.uv[s := vm.uv[s][i := false]], owner := vm.owner - {f})
  }

  /** A frame whose words no page walk reads. */
  predicate IsData(vm: Vm, f: int) {
    || 0 <= f < 256
    || (f in vm.owner && !vm.owner[f].UTable? && f !in vm.uv)
  }

  function StoreWord(vm: Vm, f: int, x: int, w: int): Vm {
    vm.(mem := Wr(vm.mem, f, x, w))
  }

  /** m with the entries 768..k-1 of src copied to frame f. */
  function CopyEntries(m: Mem, f: int, src: int, k: int): (m': Mem)
    requires 768 <= k <= 1024 && f != src
    ensures forall g, x :: Rd(m', g, x) == if g == f && 768 <= x < k then Rd(m, src, x) else Rd(m, g, x)
    decreases k
  {
    if k == 768 then m else Wr(CopyEntries(m, f, src, k - 1), f, k - 1, Rd(m, src, k - 1))
  }

  /** m with frame f holding a directory: an empty user half, src's kernel half, and itself. */
  function DirFrame(m: Mem, f: int, src: int): Mem
    requires f != src
  {
    Wr(CopyEntries(ZeroFrame(m, f), f, src, 1024), f, 1023, Entry(f))
  }

  /** Turn the kernel page in frame f into the directory of a new address space. */
  function AddSpace(vm: Vm, f: int, src: int): Vm
    requires f != src
  {
    vm.(mem := DirFrame(vm.mem, f, src), uv := vm.uv[f := seq(U_PAGES, _ => false)])
  }

  /** Directories lie in the kernel pool or are the boot directory; tables of user pages lie in
      the kernel pool, and neither is a boot table. */
  lemma FramesApart(vm: Vm)
    requires Agree(vm)
    ensures forall s :: s in vm.uv ==> InK(vm, s) && vm.owner[s].KPage?
    ensures forall s, i :: s in vm.uv && 0 <= i < U_PAGES && Present(UPde(vm.mem, s, i)) ==>
      InK(vm, FrameOf(UPde(vm.mem, s, i))) && Owns(vm, FrameOf(UPde(vm.mem, s, i)), UTable(s, (U_PAGE0 + i) / 1024))
  {
  }

  lemma TakeBit(vm: Vm, j: int, u: Use)
    requires Layout(vm) && PoolBits(vm.kp, vm.kstart, vm.owner) && PoolBits(vm.up, vm.ustart, vm.owner)
    ensures 0 <= j < |vm.kp| ==>
      && PoolBits(vm.kp[j := true], vm.kstart, vm.owner[vm.kstart + j := u])
      && PoolBits(vm.up, vm.ustart, vm.owner[vm.kstart + j := u])
      && (!vm.kp[j] ==> vm.kstart + j !in vm.owner)
    ensures 0 <= j < |vm.up| ==>
      && PoolBits(vm.up[j := true], vm.ustart, vm.owner[vm.ustart + j := u])
      && PoolBits(vm.kp, vm.kstart, vm.owner[vm.ustart + j := u])
      && (!vm.up[j] ==> vm.ustart + j !in vm.owner)
  {
  }

  lemma MapKKeepsTables(vm: Vm, i: int, j: int)
    requires Agree(vm) && 0 <= i < |vm.kv| && 0 <= j < |vm.kp|
    requires !vm.kv[i] && !vm.kp[j]
    ensures Directories(MapK(vm, i, j)) && KernelPages(MapK(vm, i, j)) && UserTables(MapK(vm, i, j))
  {
    hide Present, UserWrite, FrameOf, Entry, PoolBits, UserPages;
    FramesApart(vm);
    TakeBit(vm, j, KPage(i));
    var m', t := MapK(vm, i, j).mem, KTable((K_PAGE0 + i) / 1024);
    assert BOOT_TABLE <= t < POOL_FLOOR;
    assert forall k :: 0 <= k < |vm.kv| && k != i ==> KPte(m', k) == KPte(vm.mem, k);
  }

  lemma MapKKeepsPages(vm: Vm, i: int, j: int)
    requires Agree(vm) && 0 <= i < |vm.kv| && 0 <= j < |vm.kp|
    requires !vm.kv[i] && !vm.kp[j]
    ensures UserPages(MapK(vm, i, j)) && Owners(MapK(vm, i, j))
  {
    hide Present, UserWrite, FrameOf, Entry, PoolBits, Directories;
    FramesApart(vm);
    TakeBit(vm, j, KPage(i));
    var m', t := MapK(vm, i, j).mem, KTable((K_PAGE0 + i) / 1024);
    assert BOOT_TABLE <= t < POOL_FLOOR;
    assert forall k :: 0 <= k < |vm.kv| && k != i ==> KPte(m', k) == KPte(vm.mem, k);
  }

  lemma MapKKeeps(vm: Vm, i: int, j: int)
    requires Agree(vm) && 0 <= i < |vm.kv| && 0 <= j < |vm.kp|
    requires !vm.kv[i] && !vm.kp[j]
    ensures Agree(MapK(vm, i, j))
  {
    hide PoolBits, Directories, KernelPages, UserPages, UserTables, Owners;
    TakeBit(vm, j, KPage(i));
    MapKKeepsTables(vm, i, j);
    MapKKeepsPages(vm, i, j);
  }

  lemma MapUKeepsTables(vm: Vm, s: int, i: int, j: int)
    requires Agree(vm) && s in vm.uv && 0 <= i < U_PAGES && 0 <= j < |vm.up|
    requires Present(UPde(vm.mem, s, i)) && !vm.uv[s][i] && !vm.up[j]
    ensures Directories(MapU(vm, s, i, j)) && KernelPages(MapU(vm, s, i, j)) && UserTables(MapU(vm, s, i, j))
  {
    hide Present, UserWrite, FrameOf, Entry, PoolBits, UserPages;
    FramesApart(vm);
    TakeBit(vm, j, UPage(s, i));
    assert !IsDir(vm, FrameOf(UPde(vm.mem, s, i)));
  }

  lemma MapUKeepsPages(vm: Vm, s: int, i: int, j: int)
    requires Agree(vm) && s in vm.uv && 0 <= i < U_PAGES && 0 <= j < |vm.up|
    requires Present(UPde(vm.mem, s, i)) && !vm.uv[s][i] && !vm.up[j]
    ensures UserPages(MapU(vm, s, i, j)) && Owners(MapU(vm, s, i, j))
  {
    hide Present, UserWrite, FrameOf, Entry, PoolBits, Directories;
    FramesApart(vm);
    TakeBit(vm, j, UPage(s, i));
    assert !IsDir(vm, FrameOf(UPde(vm.mem, s, i)));
  }

  lemma MapUKeeps(vm: Vm, s: int, i: int, j: int)
    requires Agree(vm) && s in vm.uv && 0 <= i < U_PAGES && 0 <= j < |vm.up|
    requires Present(UPde(vm.mem, s, i)) && !vm.uv[s][i] && !vm.up[j]
    ensures Agree(MapU(vm, s, i, j))
  {
    hide PoolBits, Directories, KernelPages, UserPages, UserTables, Owners;
    TakeBit(vm, j, UPage(s, i));
    MapUKeepsTables(vm, s, i, j);
    MapUKeepsPages(vm, s, i, j);
  }

  lemma AddTableReads(vm: Vm, s: int, d: int, j: int)
    requires Agree(vm) && s in vm.uv && 0 <= d < 768 && 0 <= j < |vm.kp| && !vm.kp[j]
    ensures var f := vm.kstart + j;
      && f !in vm.owner && !IsDir(vm, f) && f > BOOT_TABLE + 254 && !Present(0)
      && (forall x :: 0 <= x < 1024 ==> Rd(AddTable(vm, s, d, j).mem, f, x) == 0)
      && Rd(AddTable(vm, s, d, j).mem, s, d) == Entry(f)
      && forall g, x :: g != f && (g != s || x != d) ==> Rd(AddTable(vm, s, d, j).mem, g, x) == Rd(vm.mem, g, x)
  {
    TakeBit(vm, j, UTable(s, d));
  }

  lemma AddTableKeepsTables(vm: Vm, s: int, d: int, j: int)
    requires Agree(vm) && s in vm.uv && 0 <= d < 768 && 0 <= j < |vm.kp|
    requires !Present(Rd(vm.mem, s, d)) && !vm.kp[j]
    ensures Directories(AddTable(vm, s, d, j)) && KernelPages(AddTable(vm, s, d, j))
    ensures UserTables(AddTable(vm, s, d, j))
  {
    hide Present, UserWrite, FrameOf, Entry, PoolBits, UserPages, Wr, ZeroFrame, Rd;
    FramesApart(vm);
    AddTableReads(vm, s, d, j);
  }

  lemma AddTableKeepsPages(vm: Vm, s: int, d: int, j: int)
    requires Agree(vm) && s in vm.uv && 0 <= d < 768 && 0 <= j < |vm.kp|
    requires !Present(Rd(vm.mem, s, d)) && !vm.kp[j]
    ensures UserPages(AddTable(vm, s, d, j)) && Owners(AddTable(vm, s, d, j))
  {
    hide Present, UserWrite, FrameOf, Entry, PoolBits, Directories, Wr, ZeroFrame, Rd;
    FramesApart(vm);
    AddTableReads(vm, s, d, j);
  }

  lemma AddTableKeeps(vm: Vm, s: int, d: int, j: int)
    requires Agree(vm) && s in vm.uv && 0 <= d < 768 && 0 <= j < |vm.kp|
    requires !Present(Rd(vm.mem, s, d)) && !vm.kp[j]
    ensures Agree(AddTable(vm, s, d, j))
  {
    hide PoolBits, Directories, KernelPages, UserPages, UserTables, Owners;
    TakeBit(vm, j, UTable(s, d));
    AddTableKeepsTables(vm, s, d, j);
    AddTableKeepsPages(vm, s, d, j);
  }

  lemma DropBit(vm: Vm, f: int)
    requires Layout(vm) && PoolBits(vm.kp, vm.kstart, vm.owner) && PoolBits(vm.up, vm.ustart, vm.owner)
    ensures InK(vm, f) ==>
      && PoolBits(vm.kp[f - vm.kstart := false], vm.kstart, vm.owner - {f})
      && PoolBits(vm.up, vm.ustart, vm.owner - {f})
    ensures InU(vm, f) ==>
      && PoolBits(vm.up[f - vm.ustart := false], vm.ustart, vm.owner - {f})
      && PoolBits(vm.kp, vm.kstart, vm.owner - {f})
  {
  }

  lemma KPageFrame(vm: Vm, i: int)
    requires Agree(vm) && 0 <= i < |vm.kv| && vm.kv[i]
    ensures InK(vm, FrameOf(KPte(vm.mem, i))) && Owns(vm, FrameOf(KPte(vm.mem, i)), KPage(i))
    ensures POOL_FLOOR <= FrameOf(KPte(vm.mem, i))
    ensures BOOT_TABLE <= KTable((K_PAGE0 + i) / 1024) < POOL_FLOOR
  {
  }

  lemma UnmapKKeepsTables(vm: Vm, i: int)
    requires Agree(vm) && 0 <= i < |vm.kv| && vm.kv[i]
    requires InK(vm, FrameOf(KPte(vm.mem, i))) && FrameOf(KPte(vm.mem, i)) !in vm.uv
    ensures Directories(UnmapK(vm, i)) && KernelPages(UnmapK(vm, i)) && UserTables(UnmapK(vm, i))
  {
    hide Present, UserWrite, FrameOf, Entry, Absent, PoolBits, UserPages, Wr, Rd;
    FramesApart(vm);
    KPageFrame(vm, i);
  }

  lemma UnmapKKeepsPages(vm: Vm, i: int)
    requires Agree(vm) && 0 <= i < |vm.kv| && vm.kv[i]
    requires InK(vm, FrameOf(KPte(vm.mem, i))) && FrameOf(KPte(vm.mem, i)) !in vm.uv
    ensures UserPages(UnmapK(vm, i)) && Owners(UnmapK(vm, i))
  {
    hide Present, UserWrite, FrameOf, Entry, Absent, PoolBits, Directories, Wr, Rd;
    FramesApart(vm);
    KPageFrame(vm, i);
  }

  lemma UnmapKKeeps(vm: Vm, i: int)
    requires Agree(vm) && 0 <= i < |vm.kv| && vm.kv[i]
    requires InK(vm, FrameOf(KPte(vm.mem, i))) && FrameOf(KPte(vm.mem, i)) !in vm.uv
    ensures Agree(UnmapK(vm, i))
  {
    hide PoolBits, Directories, KernelPages, UserPages, UserTables, Owners;
    DropBit(vm, FrameOf(KPte(vm.mem, i)));
    UnmapKKeepsTables(vm, i);
    UnmapKKeepsPages(vm, i);
  }

  lemma UPageFrame(vm: Vm, s: int, i: int)
    requires Agree(vm) && s in vm.uv && 0 <= i < U_PAGES && vm.uv[s][i]
    ensures InU(vm, FrameOf(UPte(vm.mem, s, i))) && Owns(vm, FrameOf(UPte(vm.mem, s, i)), UPage(s, i))
    ensures Present(UPde(vm.mem, s, i)) && !IsDir(vm, FrameOf(UPde(vm.mem, s, i)))
  {
  }

  lemma UnmapUKeepsTables(vm: Vm, s: int, i: int)
    requires Agree(vm) && s in vm.uv && 0 <= i < U_PAGES && vm.uv[s][i] && InU(vm, FrameOf(UPte(vm.mem, s, i)))
    ensures Directories(UnmapU(vm, s, i)) && KernelPages(UnmapU(vm, s, i)) && UserTables(UnmapU(vm, s, i))
  {
    hide Present, UserWrite, FrameOf, Entry, Absent, PoolBits, UserPages, Wr, Rd;
    FramesApart(vm);
    UPageFrame(vm, s, i);
  }

  lemma UnmapUKeepsPages(vm: Vm, s: int, i: int)
    requires Agree(vm) && s in vm.uv && 0 <= i < U_PAGES && vm.uv[s][i] && InU(vm, FrameOf(UPte(vm.mem, s, i)))
    ensures UserPages(UnmapU(vm, s, i)) && Owners(UnmapU(vm, s, i))
  {
    hide Present, UserWrite, FrameOf, Entry, Absent, PoolBits, Directories, Wr, Rd;
    FramesApart(vm);
    UPageFrame(vm, s, i);
  }

  lemma UnmapUKeeps(vm: Vm, s: int, i: int)
    requires Agree(vm) && s in vm.uv && 0 <= i < U_PAGES && vm.uv[s][i] && InU(vm, FrameOf(UPte(vm.mem, s, i)))
    ensures Agree(UnmapU(vm, s, i))
  {
    hide PoolBits, Directories, KernelPages, UserPages, UserTables, Owners;
    DropBit(vm, FrameOf(UPte(vm.mem, s, i)));
    UnmapUKeepsTables(vm, s, i);
    UnmapUKeepsPages(vm, s, i);
  }

  /** A write to a data frame reaches no directory and no table. */
  lemma StoreWordKeeps(vm: Vm, f: int, x: int, w: int)
    requires Agree(vm) && IsData(vm, f)
    ensures Agree(StoreWord(vm, f, x, w))
  {
    hide Present, UserWrite, FrameOf, Entry, PoolBits, Wr, Rd;
    FramesApart(vm);
  }

  lemma AddSpaceReads(vm: Vm, f: int, src: int)
    requires f != src && f !in vm.uv
    ensures forall g, x :: g != f ==> Rd(AddSpace(vm, f, src).mem, g, x) == Rd(vm.mem, g, x)
    ensures forall x :: 0 <= x < 768 ==> Rd(AddSpace(vm, f, src).mem, f, x) == 0
    ensures forall x :: 768 <= x < 1023 ==> Rd(AddSpace(vm, f, src).mem, f, x) == Rd(vm.mem, src, x)
    ensures Rd(AddSpace(vm, f, src).mem, f, 1023) == Entry(f)
  {
  }

  lemma AddSpaceKeepsTables(vm: Vm, f: int, src: int)
    requires Agree(vm) && IsDir(vm, src) && f in vm.owner && vm.owner[f].KPage? && f !in vm.uv && f != src
    ensures Directories(AddSpace(vm, f, src)) && KernelPages(AddSpace(vm, f, src))
    ensures UserTables(AddSpace(vm, f, src))
  {
    hide Present, UserWrite, FrameOf, Entry, PoolBits, UserPages, Wr, Rd, DirFrame;
    ZeroIsAbsent();
    FramesApart(vm);
    AddSpaceReads(vm, f, src);
  }

  lemma AddSpaceKeepsPages(vm: Vm, f: int, src: int)
    requires Agree(vm) && IsDir(vm, src) && f in vm.owner && vm.owner[f].KPage? && f !in vm.uv && f != src
    ensures UserPages(AddSpace(vm, f, src)) && Owners(AddSpace(vm, f, src))
  {
    hide Present, UserWrite, FrameOf, Entry, PoolBits, Wr, Rd, DirFrame;
    ZeroIsAbsent();
    FramesApart(vm);
    AddSpaceReads(vm, f, src);
  }

  lemma AddSpaceKeeps(vm: Vm, f: int, src: int)
    requires Agree(vm) && IsDir(vm, src) && f in vm.owner && vm.owner[f].KPage? && f !in vm.uv && f != src
    ensures Agree(AddSpace(vm, f, src))
  {
    hide PoolBits, Directories, KernelPages, UserPages, UserTables, Owners;
    AddSpaceKeepsTables(vm, f, src);
    AddSpaceKeepsPages(vm, f, src);
  }

  /** e' is e but for the accessed and the dirty bit, bits 5 and 6, which the processor itself sets. */
  predicate SameButUse(e: int, e': int) { e' % 32 == e % 32 && e' / 128 == e / 128 }

  lemma SameFields(e: int, e': int)
    requires SameButUse(e, e')
    ensures Present(e') == Present(e) && UserWrite(e') == UserWrite(e) && FrameOf(e') == FrameOf(e)
  {
    HighBits(e);
    HighBits(e');
    FlagBits(e);
    FlagBits(e');
  }

  lemma HighBits(e: int)
    ensures e / 0x1000 == e / 128 / 32
  {
    var q, r := e / 128, e % 128;
    var a, b := q / 32, q % 32;
    assert e == 128 * (32 * a + b) + r;
    assert e == 0x1000 * a + (128 * b + r) && 0 <= 128 * b + r < 0x1000;
  }

  lemma FlagBits(e: int)
    ensures e % 2 == e % 32 % 2 && e / 2 % 4 == e % 32 / 2 % 4
  {
    var c, r := e / 32, e % 32;
    assert e == 32 * c + r;
    assert e / 2 == 16 * c + r / 2;
    assert 16 * c + r / 2 == 4 * (4 * c) + r / 2;
  }

  /** The bits of entries that the processor itself sets are no part of the agreement. */
  lemma FlagsKeep(vm: Vm, m: Mem)
    requires Agree(vm) && forall f, x :: SameButUse(Rd(vm.mem, f, x), Rd(m, f, x))
    ensures Agree(vm.(mem := m))
  {
    hide Present, UserWrite, FrameOf, Rd, PoolBits, SameButUse;
    forall f, x
      ensures Present(Rd(m, f, x)) == Present(Rd(vm.mem, f, x)) && UserWrite(Rd(m, f, x)) == UserWrite(Rd(vm.mem, f, x))
        && FrameOf(Rd(m, f, x)) == FrameOf(Rd(vm.mem, f, x))
    {
      SameFields(Rd(vm.mem, f, x), Rd(m, f, x));
    }
  }
}
