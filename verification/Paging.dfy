/** 32-bit two-level paging (section 4.3 of the Intel SDM, volume 3A) over a physical memory of
    words, and the self-mapping arithmetic of kernel/memory.c. Masks and shifts of unsigned
    addresses are written as their div/mod values. */
module Paging {
  datatype Option<+T> = None | Some(value: T)

  /** A word of physical memory: page frame number and word index in the frame. */
  datatype Slot = Slot(frame: int, index: int)
  type Mem = map<Slot, int>

  /** A physical byte address. */
  datatype Phys = Phys(frame: int, offset: int)

  const SELF_MAP := 0xffc0_0000   // start of the window that directory entry 1023 opens
  const DIR_WINDOW := 0xffff_f000 // its last page: the directory itself

  function Rd(m: Mem, frame: int, index: int): int {
    if Slot(frame, index) in m then m[Slot(frame, index)] else 0
  }

  function Wr(m: Mem, frame: int, index: int, w: int): (m': Mem)
    ensures forall f, i :: Rd(m', f, i) == if f == frame && i == index then w else Rd(m, f, i)
  {
    m[Slot(frame, index) := w]
  }

  /** memset of a whole frame. */
  function ZeroFrame(m: Mem, frame: int): (m': Mem)
    ensures forall f, i :: Rd(m', f, i) == if f == frame && 0 <= i < 1024 then 0 else Rd(m, f, i)
  {
    map s | s in m && !(s.frame == frame && 0 <= s.index < 1024) :: m[s]
  }

  // Fields of a virtual address, and of a directory or table entry.
  function Dir(v: int): int { v / 0x40_0000 }
  function Table(v: int): int { v / 0x1000 % 0x400 }
  function Offset(v: int): int { v % 0x1000 }
  predicate Present(e: int) { e % 2 == 1 }
  predicate UserWrite(e: int) { e / 2 % 4 == 3 } // PG_US_U and PG_RW_W
  function FrameOf(e: int): int { e / 0x1000 }

  /** frame address | PG_US_U | PG_RW_W | PG_P_1 */
  function Entry(frame: int): (e: int)
    ensures Present(e) && UserWrite(e) && FrameOf(e) == frame
  {
    EntryBits(frame);
    frame * 0x1000 + 7
  }

  lemma EntryBits(frame: int)
    ensures var e := frame * 0x1000 + 7; e % 2 == 1 && e / 2 % 4 == 3 && e / 0x1000 == frame
  {
    var e := frame * 0x1000 + 7;
    assert e / 2 == frame * 0x800 + 3;
    assert frame * 0x800 + 3 == 4 * (frame * 0x200) + 3;
  }

  /** A present entry for the frame that lets user code read and write, whatever its other bits. */
  predicate Maps(e: int, frame: int) { Present(e) && UserWrite(e) && FrameOf(e) == frame }

  /** The frame behind a virtual page number. */
  function Lookup(m: Mem, cr3: int, page: int): Option<int> {
    var pde := Rd(m, cr3, page / 1024);
    if !Present(pde) then None
    else
      var pte := Rd(m, FrameOf(pde), page % 1024);
      if Present(pte) then Some(FrameOf(pte)) else None
  }

  /** The hardware walk. */
  function Walk(m: Mem, cr3: int, v: int): Option<Phys> {
    var pde := Rd(m, cr3, Dir(v));
    if !Present(pde) then None
    else
      var pte := Rd(m, FrameOf(pde), Table(v));
      if Present(pte) then Some(Phys(FrameOf(pte), Offset(v))) else None
  }

  /** The hardware walk for a write by user code: both entries must allow it. */
  function UserWalk(m: Mem, cr3: int, v: int): Option<Phys> {
    var pde := Rd(m, cr3, Dir(v));
    if !Present(pde) || !UserWrite(pde) then None
    else
      var pte := Rd(m, FrameOf(pde), Table(v));
      if Present(pte) && UserWrite(pte) then Some(Phys(FrameOf(pte), Offset(v))) else None
  }

  function PtePtr(v: int): int {
    SELF_MAP + v / 0x40_0000 * 0x40_0000 / 0x400 + v % 0x40_0000 / 0x1000 * 4
  }

  function PdePtr(v: int): int {
    DIR_WINDOW + v / 0x40_0000 * 4
  }

  /** The masks and shifts of pte_ptr and pde_ptr, on 32-bit words: what directory, table and
      offset fields the two pointers have. */
  lemma PtrFields(v: bv32)
    ensures var pte: bv32 := 0xffc0_0000 + ((v & 0xffc0_0000) >> 10) + ((v & 0x003f_f000) >> 12) * 4;
      pte >> 22 == 0x3ff && (pte >> 12) & 0x3ff == v >> 22 && pte & 0xfff == ((v >> 12) & 0x3ff) << 2
    ensures var pde: bv32 := 0xffff_f000 + ((v & 0xffc0_0000) >> 22) * 4;
      pde >> 22 == 0x3ff && (pde >> 12) & 0x3ff == 0x3ff && pde & 0xfff == (v >> 22) << 2
  {
  }

  predicate SelfMapped(m: Mem, cr3: int) {
    Maps(Rd(m, cr3, 1023), cr3)
  }

  lemma WalkIsLookup(m: Mem, cr3: int, v: int)
    requires 0 <= v
    ensures Walk(m, cr3, v) == match Lookup(m, cr3, v / 0x1000)
      case None => None
      case Some(f) => Some(Phys(f, Offset(v)))
  {
    assert v / 0x1000 / 1024 == Dir(v);
  }

  /** Through the window the walk of pde_ptr(v) ends at v's directory entry and the walk of
      pte_ptr(v) at v's table entry; it faults exactly when v has no table. */
  lemma SelfMapWalk(m: Mem, cr3: int, v: int)
    requires SelfMapped(m, cr3) && 0 <= v < 0x1_0000_0000
    ensures Walk(m, cr3, PdePtr(v)) == Some(Phys(cr3, Dir(v) * 4))
    ensures Walk(m, cr3, PtePtr(v)) ==
      if Present(Rd(m, cr3, Dir(v))) then Some(Phys(FrameOf(Rd(m, cr3, Dir(v))), Table(v) * 4)) else None
  {
    var p, q := PdePtr(v), PtePtr(v);
    assert v % 0x40_0000 / 0x1000 == Table(v);
    assert v / 0x40_0000 * 0x40_0000 / 0x400 == Dir(v) * 0x1000;
    assert Dir(p) == 1023 && Table(p) == 1023 && Offset(p) == Dir(v) * 4;
    assert Dir(q) == 1023 && Table(q) == Dir(v) && Offset(q) == Table(v) * 4;
  }

  lemma PageFields(p: int)
    requires 0 <= p
    ensures Dir(p * 0x1000) == p / 1024 && Table(p * 0x1000) == p % 1024 && Offset(p * 0x1000) == 0
  {
  }

  /** The memory page_table_add leaves: v mapped to frame, in its table or else in a new zeroed
      one, whose frame is table. */
  function MapPage(m: Mem, cr3: int, v: int, frame: int, table: int): Mem {
    var pde := Rd(m, cr3, Dir(v));
    if Present(pde) then Wr(m, FrameOf(pde), Table(v), Entry(frame))
    else Wr(ZeroFrame(Wr(m, cr3, Dir(v), Entry(table)), table), table, Table(v), Entry(frame))
  }

  /** w reads the table entry of v: the same page, or a page of a directory entry that shares
      v's table. */
  predicate SameEntry(m: Mem, cr3: int, v: int, w: int) {
    Table(w) == Table(v) &&
      (Dir(w) == Dir(v) ||
       (Present(Rd(m, cr3, Dir(v))) && Present(Rd(m, cr3, Dir(w)))
        && FrameOf(Rd(m, cr3, Dir(v))) == FrameOf(Rd(m, cr3, Dir(w)))))
  }

  /** After page_table_add v walks to its frame, user code may write there unless an older directory
      entry forbids it, and the walk of w below the window changes if and only if w reads v's entry. */
  lemma MapPageWalk(m: Mem, cr3: int, v: int, frame: int, table: int, w: int)
    requires 0 <= v < SELF_MAP && 0 <= w < SELF_MAP
    requires Walk(m, cr3, v) == None && table != cr3
    requires forall d :: 0 <= d < 1023 && Present(Rd(m, cr3, d)) ==>
      FrameOf(Rd(m, cr3, d)) != cr3 && FrameOf(Rd(m, cr3, d)) != table
    ensures Walk(MapPage(m, cr3, v, frame, table), cr3, v) == Some(Phys(frame, Offset(v)))
    ensures SameEntry(m, cr3, v, w) ==>
      Walk(m, cr3, w) == None && Walk(MapPage(m, cr3, v, frame, table), cr3, w) == Some(Phys(frame, Offset(w)))
    ensures !SameEntry(m, cr3, v, w) ==> Walk(MapPage(m, cr3, v, frame, table), cr3, w) == Walk(m, cr3, w)
    ensures (Present(Rd(m, cr3, Dir(v))) ==> UserWrite(Rd(m, cr3, Dir(v)))) ==>
      UserWalk(MapPage(m, cr3, v, frame, table), cr3, v) == Some(Phys(frame, Offset(v)))
  {
    assert 0 <= Dir(v) < 1023 && 0 <= Dir(w) < 1023;
    ZeroIsAbsent();
    hide Present, UserWrite, FrameOf, Entry, Rd, Wr, ZeroFrame;
  }

  lemma ZeroIsAbsent()
    ensures !Present(0)
  {
  }

  /** In the boot directory entries 0 and 768 share a table, so there a kernel mapping at
      v shows at v - 0xc0000000 too: "every other walk is unchanged" fails exactly so. */
  lemma BootAlias(m: Mem, cr3: int, v: int, frame: int, table: int)
    requires 0xc000_0000 <= v < 0xc040_0000
    requires Present(Rd(m, cr3, 0)) && Rd(m, cr3, 768) == Rd(m, cr3, 0) && FrameOf(Rd(m, cr3, 0)) != cr3
    ensures Walk(MapPage(m, cr3, v, frame, table), cr3, v - 0xc000_0000) == Some(Phys(frame, Offset(v)))
  {
    assert Dir(v) == 768 && Dir(v - 0xc000_0000) == 0 && Table(v - 0xc000_0000) == Table(v);
  }
}
