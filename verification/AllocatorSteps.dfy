/** The stores of sys_malloc and sys_free one stretch at a time: what each does to the words of
    memory, to the account of pages and to what clients see. */
module AllocationSteps {
  import opened Paging
  import opened Agreement
  import opened Bitmaps
  import opened Views
  import opened Growth
  import opened Supplies
  import opened PageManagement
  import opened Lists
  import opened Heaps
  import opened HeapSteps
  import opened Accounts

  // memset.

  /** w' is w with the words of [lo, hi) zero. */
  ghost predicate Cleared(w: Words, w': Words, lo: int, hi: int) {
    && (forall v :: v in w' <==> v in w)
    && (forall v :: v in w ==> w'[v] == if lo <= v < hi then 0 else w[v])
  }

  lemma ClearedNext(w: Words, w': Words, lo: int, v: int)
    requires Cleared(w, w', lo, v) && lo <= v && v in w && v % 4 == 0 && forall u :: u in w ==> u % 4 == 0
    ensures v in w' && Cleared(w, w'[v := 0], lo, v + 4)
  {
  }

  lemma ClearedNone(w: Words, lo: int)
    ensures Cleared(w, w, lo, lo)
  {
  }

  lemma NextWord(v: int, hi: int)
    requires v < hi && v % 4 == 0 && hi % 4 == 0
    ensures v + 4 <= hi && (v + 4) % 4 == 0
  {
  }

  lemma WordsAligned(vm: Vm, cur: int)
    ensures forall v :: v in View(vm, cur) ==> v % 4 == 0
  {
  }

  lemma EndAligned(lo: int, bytes: int)
    requires lo % 4 == 0 && bytes % 4 == 0
    ensures (lo + bytes) % 4 == 0
  {
  }

  lemma WordIn(w: Words, lo: int, hi: int, v: int)
    requires HasWords(w, lo, hi) && lo <= v < hi && v % 4 == 0
    ensures v in w
  {
  }

  // The words of one class.

  lemma StoredClass(w: Words, descs: int, h: Heap, k: int)
    requires |h.free| == CLASSES && 0 <= k < CLASSES && Stored(w, descs, h)
    ensures IsList(w, FreeList(descs, k), h.free[k])
    ensures Desc(descs, k) in w && w[Desc(descs, k)] == BlockSize(k)
    ensures Desc(descs, k) + 4 in w && w[Desc(descs, k) + 4] == Blocks(k)
  {
    assert DescStored(w, descs, h, k);
  }

  /** Changes along the chain of class k, for an element b or none, are within its touch. */
  lemma WithinTouched(w: Words, w': Words, descs: int, h: Heap, k: int, xs: seq<int>, b: MaybeBlock)
    requires |h.free| == CLASSES && 0 <= k < CLASSES
    requires Within(w, w', Chain(FreeList(descs, k), xs) + (if b.TheBlock? then [b.b] else []))
    requires forall x :: x in xs ==> x in h.free[k]
    ensures OnlyTouched(w, w', descs, h, k, b)
  {
    var L := FreeList(descs, k);
    var c := Chain(L, xs) + (if b.TheBlock? then [b.b] else []);
    BlockBig(k);
    hide BlockSize, Blocks, ArenaOf;
    forall v | v in w && w'[v] != w[v] ensures Touched(descs, h, k, b, v) {
      var i :| 0 <= i < |c| && (v == c[i] || v == c[i] + 4);
      if 0 < i <= |xs| {
        assert c[i] == xs[i - 1] && c[i] in h.free[k];
      } else if i > |xs| + 1 {
        assert c[i] == b.b;
      } else {
        assert c[i] == L || c[i] == L + 8;
      }
    }
  }

  lemma ChainTouched(w: Words, w': Words, descs: int, h: Heap, k: int, xs: seq<int>, b: MaybeBlock)
    requires |h.free| == CLASSES && 0 <= k < CLASSES && Within(w, w', Chain(FreeList(descs, k), xs))
    requires forall x :: x in xs ==> x in h.free[k]
    ensures OnlyTouched(w, w', descs, h, k, b)
  {
    assert Chain(FreeList(descs, k), xs) + [] == Chain(FreeList(descs, k), xs);
    WithinTouched(w, w', descs, h, k, xs, NoBlock);
  }

  lemma TouchedTrans(w: Words, w1: Words, w': Words, descs: int, h: Heap, k: int, b: MaybeBlock)
    requires |h.free| == CLASSES && 0 <= k < CLASSES
    requires OnlyTouched(w, w1, descs, h, k, b) && OnlyTouched(w1, w', descs, h, k, b)
    ensures OnlyTouched(w, w', descs, h, k, b)
  {
    hide Touched;
  }

  lemma KeepsWords(w: Words, w1: Words, descs: int, h: Heap, k: int, b: MaybeBlock, lo: int, hi: int)
    requires |h.free| == CLASSES && 0 <= k < CLASSES && OnlyTouched(w, w1, descs, h, k, b) && HasWords(w, lo, hi)
    ensures HasWords(w1, lo, hi)
  {
    hide Touched;
  }

  lemma ShapePages(h: Heap, lo: int, hi: int)
    requires Shape(h, lo, hi)
    ensures Pages(h, lo, hi)
    ensures forall p :: IsSmall(h, p) ==> End(h, p) == p + BlockSize(h.kinds[ArenaOf(p)])
  {
    hide IsSmall, BlockSize, Split, Nodes, Live, ArenaOf;
  }

  lemma NodeBlock(h: Heap, k: int, e: int)
    requires Nodes(h) && 0 <= k < CLASSES && e in h.free[k]
    ensures IsBlock(h, k, e)
  {
  }

  lemma NotListed(h: Heap, lo: int, hi: int, k: int, p: int)
    requires Shape(h, lo, hi) && p in h.live && 0 <= k < CLASSES && IsBlock(h, k, p)
    ensures p !in h.free[k]
  {
    hide Off, Index, BlockSize, Blocks, PagesApart, ArenaOf;
    assert p == Block(ArenaOf(p), k, Index(k, p - ArenaOf(p)));
  }

  /** The words of block e and of its arena's header, for an operation on e. */
  lemma StoredBlock(w: Words, descs: int, h: Heap, lo: int, hi: int, k: int, e: int)
    requires Shape(h, lo, hi) && Stored(w, descs, h) && 0 <= k < CLASSES && IsBlock(h, k, e)
    ensures HasWords(w, e, e + BlockSize(k)) && BlockSize(k) % 4 == 0 && BlockSize(k) >= 16 && e % 4 == 0
    ensures HeaderStored(w, ArenaOf(e), Desc(descs, k), |FreeSet(h, ArenaOf(e))|, 0)
    ensures lo < e && ArenaOf(e) in h.kinds && h.kinds[ArenaOf(e)] == k && e in w && e + 4 in w
    ensures ArenaOf(e) + HEADER <= e && e + BlockSize(k) <= ArenaOf(e) + 0x1000 && ArenaOf(e) % 0x1000 == 0
  {
    hide Off, Index, BlockSize, Blocks, DescStored, FreeSet, Split, Live, ArenaOf;
    BlockRegion(h, k, e, lo, hi);
    BlockPlace(ArenaOf(e), k, Index(k, e - ArenaOf(e)));
    assert HeaderStored(w, ArenaOf(e), Desc(descs, h.kinds[ArenaOf(e)]), |FreeSet(h, ArenaOf(e))|, 0);
  }

  /** The words sys_free reads of a small arena. */
  lemma ArenaHeader(w: Words, descs: int, h: Heap, lo: int, hi: int, a: int)
    requires Shape(h, lo, hi) && Stored(w, descs, h) && a in h.kinds
    ensures 0 <= h.kinds[a] < CLASSES && a % 0x1000 == 0
    ensures HeaderStored(w, a, Desc(descs, h.kinds[a]), |FreeSet(h, a)|, 0)
    ensures Desc(descs, h.kinds[a]) + 4 in w && w[Desc(descs, h.kinds[a]) + 4] == Blocks(h.kinds[a])
    ensures |FreeSet(h, a)| <= Blocks(h.kinds[a]) && lo <= a && a + 0x1000 <= hi && HasWords(w, a, a + 0x1000)
  {
    hide Nodes, Split, Live, IsList, BlockSize, Blocks, FreeSet, PagesApart, ArenaOf;
    FreeSetBound(h, a);
    StoredClass(w, descs, h, h.kinds[a]);
  }

  // What clients see.

  /** Live regions keep their words. */
  ghost predicate ClientKept(w: Words, w': Words, h: Heap) {
    forall p, v :: p in h.live && (IsSmall(h, p) || IsLarge(h, p)) && p <= v < End(h, p) && v in w ==>
      SameWord(w, w', v)
  }

  /** So does all memory but the descriptors and the pages of h. */
  ghost predicate OutsideKept(w: Words, w': Words, descs: int, h: Heap) {
    forall v :: v in w && !Private(descs, h, v) ==> SameWord(w, w', v)
  }

  lemma OutsideTrans(w: Words, w1: Words, w': Words, descs: int, h: Heap, h': Heap)
    requires OutsideKept(w, w1, descs, h) && OutsideKept(w1, w', descs, h')
    requires forall v :: v in w && Private(descs, h', v) ==> Private(descs, h, v)
    ensures OutsideKept(w, w', descs, h)
  {
    hide Private;
  }

  /** An operation on class k changes descriptors and pages of h only. */
  lemma TouchedOutside(w: Words, w': Words, descs: int, h: Heap, lo: int, hi: int, k: int, b: MaybeBlock)
    requires Shape(h, lo, hi) && 0 <= k < CLASSES && OnlyTouched(w, w', descs, h, k, b)
    requires b.TheBlock? ==> IsBlock(h, k, b.b)
    ensures OutsideKept(w, w', descs, h)
  {
    hide Shape, Touched, IsBlock, ArenaOf;
    forall v | v in w && Touched(descs, h, k, b, v) ensures Private(descs, h, v) {
      TouchedPlace(descs, h, lo, hi, k, b, v);
    }
  }

  /** All the memory behind p is zero. */
  ghost predicate Zeroed(w: Words, h: Heap, p: int) {
    && (IsSmall(h, p) || IsLarge(h, p))
    && forall v :: p <= v < End(h, p) && v % 4 == 0 ==> v in w && w[v] == 0
  }

  /** p is a block of the first class that holds size bytes, or the first whole pages do. */
  predicate BestFit(h: Heap, p: int, size: int) {
    if size <= 1024 then
      && IsSmall(h, p) && size <= BlockSize(h.kinds[ArenaOf(p)])
      && forall j :: 0 <= j < h.kinds[ArenaOf(p)] ==> BlockSize(j) < size
    else
      && IsLarge(h, p)
      && (h.large[p - HEADER] - 1) * 0x1000 < size + HEADER <= h.large[p - HEADER] * 0x1000
  }

  lemma SameEnds(h: Heap, h': Heap)
    requires h'.kinds == h.kinds && h'.large == h.large
    ensures forall p :: (IsSmall(h', p) <==> IsSmall(h, p)) && (IsLarge(h', p) <==> IsLarge(h, p))
    ensures forall p :: IsSmall(h, p) || IsLarge(h, p) ==> End(h', p) == End(h, p)
  {
    hide Off, Index, BlockSize, Blocks, ArenaOf;
  }

  /** h' has h's live regions, or fewer. */
  ghost predicate SameRegions(h: Heap, h': Heap) {
    forall p :: p in h'.live && (IsSmall(h', p) || IsLarge(h', p)) ==>
      p in h.live && (IsSmall(h, p) || IsLarge(h, p)) && End(h, p) == End(h', p)
  }

  lemma KeptTrans(w: Words, w1: Words, w': Words, h: Heap, h': Heap)
    requires ClientKept(w, w1, h) && ClientKept(w1, w', h') && SameRegions(h, h')
    ensures ClientKept(w, w', h')
  {
    hide IsSmall, IsLarge, End;
    forall p, v | p in h'.live && (IsSmall(h', p) || IsLarge(h', p)) && p <= v < End(h', p) && v in w
      ensures SameWord(w, w', v)
    {
      assert SameWord(w, w1, v) && SameWord(w1, w', v);
    }
  }

  /** A live region and another block share no byte. */
  lemma BlockMissed(h: Heap, lo: int, hi: int, k: int, e: int, p: int)
    requires Shape(h, lo, hi) && p in h.live && 0 <= k < CLASSES && IsBlock(h, k, e) && e != p
    ensures (IsSmall(h, p) || IsLarge(h, p)) && Disjoint(p, End(h, p), e, e + BlockSize(k)) && ArenaOf(e) in h.kinds
  {
    hide Off, Index, BlockSize, Blocks, ArenaOf, Split, Nodes;
    LiveBounds(h, lo, hi, p);
    BlockRegion(h, k, e, lo, hi);
    if IsSmall(h, p) { BlockPair(h, h.kinds[ArenaOf(p)], p, k, e, lo, hi); }
  }

  lemma NotTouched(w: Words, descs: int, h: Heap, lo: int, hi: int, k: int, b: MaybeBlock, p: int, v: int)
    requires Placed(descs, lo, hi) && Shape(h, lo, hi) && Stored(w, descs, h) && p in h.live
    requires 0 <= k < CLASSES && (b.TheBlock? ==> IsBlock(h, k, b.b) && b.b != p)
    ensures IsSmall(h, p) || IsLarge(h, p)
    ensures p <= v < End(h, p) ==> !Touched(descs, h, k, b, v)
  {
    hide Stored, Shape, Placed, IsSmall, IsLarge, IsBlock, End, ArenaOf, BlockSize;
    LiveRegions(w, descs, h, lo, hi, p);
    if b.TheBlock? { BlockMissed(h, lo, hi, k, b.b, p); }
  }

  /** Live regions keep their words through an operation on class k about another block. */
  lemma LiveUntouched(w: Words, w': Words, descs: int, h: Heap, lo: int, hi: int, k: int, b: MaybeBlock, p: int)
    requires Placed(descs, lo, hi) && Shape(h, lo, hi) && Stored(w, descs, h) && p in h.live
    requires 0 <= k < CLASSES && OnlyTouched(w, w', descs, h, k, b)
    requires b.TheBlock? ==> IsBlock(h, k, b.b) && b.b != p
    ensures IsSmall(h, p) || IsLarge(h, p)
    ensures forall v :: v in w && p <= v < End(h, p) ==> v in w' && w'[v] == w[v]
  {
    hide Stored, Shape, Placed, IsSmall, IsLarge, IsBlock, End, Touched;
    NotTouched(w, descs, h, lo, hi, k, b, p, p);
    forall v | v in w && p <= v < End(h, p) ensures v in w' && w'[v] == w[v] {
      NotTouched(w, descs, h, lo, hi, k, b, p, v);
    }
  }

  lemma TouchedKept(w: Words, w': Words, descs: int, h: Heap, lo: int, hi: int, k: int, b: MaybeBlock)
    requires Placed(descs, lo, hi) && Shape(h, lo, hi) && Stored(w, descs, h)
    requires 0 <= k < CLASSES && OnlyTouched(w, w', descs, h, k, b)
    requires b.TheBlock? ==> IsBlock(h, k, b.b) && b.b !in h.live
    ensures ClientKept(w, w', h)
  {
    hide Stored, Partial, BlockSize, Blocks, Off, Index, IsSmall, IsLarge, End, IsBlock, Shape, Touched, ArenaOf;
    forall p | p in h.live
      ensures IsSmall(h, p) || IsLarge(h, p)
      ensures forall v :: v in w && p <= v < End(h, p) ==> SameWord(w, w', v)
    {
      LiveUntouched(w, w', descs, h, lo, hi, k, b, p);
    }
  }

  /** The header tells what kind of region a live pointer starts. */
  lemma LiveHeader(w: Words, descs: int, h: Heap, lo: int, hi: int, p: int)
    requires Shape(h, lo, hi) && Stored(w, descs, h) && p in h.live
    ensures ArenaOf(p) in w && ArenaOf(p) + 8 in w && lo < p
    ensures IsLarge(h, p) <==> w[ArenaOf(p)] == 0 && w[ArenaOf(p) + 8] == 1
  {
    hide Nodes, Split, IsList, BlockSize, Blocks, FreeSet, IsBlock, DescStored, ArenaOf;
    LiveBounds(h, lo, hi, p);
    if IsLarge(h, p) {
      InPage(p - HEADER, HEADER);
    } else {
      assert HeaderStored(w, ArenaOf(p), Desc(descs, h.kinds[ArenaOf(p)]), |FreeSet(h, ArenaOf(p))|, 0);
    }
  }

  lemma PartialWeaker(h: Heap, a: int)
    requires |h.free| == CLASSES
    ensures Partial(h) ==> PartialBut(h, a)
  {
  }

  lemma PartialNow(h: Heap, a: int)
    requires |h.free| == CLASSES && a in h.kinds && 0 <= h.kinds[a] < CLASSES && PartialBut(h, a)
    requires |FreeSet(h, a)| < Blocks(h.kinds[a])
    ensures Partial(h)
  {
    hide FreeSet, Blocks;
  }

  // What sys_malloc needs.

  function ClassOf(size: int): (k: int)
    ensures 0 <= k < CLASSES && forall j :: 0 <= j < k ==> BlockSize(j) < size
    ensures size <= 1024 ==> size <= BlockSize(k)
  {
    if size <= 16 then 0 else if size <= 32 then 1 else if size <= 64 then 2 else if size <= 128 then 3
    else if size <= 256 then 4 else if size <= 512 then 5 else 6
  }

  lemma FirstClass(size: int, k: int)
    requires 0 <= k < CLASSES && size <= BlockSize(k) && forall j :: 0 <= j < k ==> BlockSize(j) < size
    requires size <= 1024
    ensures k == ClassOf(size)
  {
    hide BlockSize, ClassOf;
  }

  /** DIV_ROUND_UP(size + sizeof(struct arena), PG_SIZE) */
  function PagesFor(size: int): int { (size + HEADER + 0xfff) / 0x1000 }

  lemma WholePages(size: int)
    requires 0 <= size
    ensures PagesFor(size) >= 1 && (PagesFor(size) >= 3840 <==> size + HEADER > 3839 * 0x1000)
    ensures (PagesFor(size) - 1) * 0x1000 < size + HEADER <= PagesFor(size) * 0x1000
  {
  }

  /** sys_malloc does not run out: the size is beyond the pool, or a block of its class is free, or
      the page layer has the pages. */
  ghost predicate Serves(vm: Vm, pf: Half, cur: int, h: Heap, poolSize: int, size: int)
    requires (pf == User ==> cur in vm.uv) && |h.free| == CLASSES && 0 <= size
  {
    || size > poolSize
    || (size <= 1024 && (h.free[ClassOf(size)] != [] || Available(vm, pf, cur, 1)))
    || (size > 1024 && PagesFor(size) < 3840 && Available(vm, pf, cur, PagesFor(size)))
  }

  /** A request within the pool for a block of class k, the first that holds it, is served if and only if
      the class has a free block or there is a page. */
  lemma ServesSmall(vm: Vm, pf: Half, cur: int, h: Heap, poolSize: int, size: int, k: int)
    requires (pf == User ==> cur in vm.uv) && |h.free| == CLASSES && 0 <= size <= poolSize
    requires 0 <= k < CLASSES && size <= BlockSize(k) && (k > 0 ==> BlockSize(k - 1) < size)
    ensures Serves(vm, pf, cur, h, poolSize, size) <==> h.free[k] != [] || Available(vm, pf, cur, 1)
  {
    hide Available;
    assert k == ClassOf(size);
  }

  /** A request within the pool for n pages, just enough, is served if and only if there are n pages
      for it; a request beyond the pool always is. */
  lemma ServesLarge(vm: Vm, pf: Half, cur: int, h: Heap, poolSize: int, size: int, n: nat)
    requires (pf == User ==> cur in vm.uv) && |h.free| == CLASSES && 0 <= size
    requires (n - 1) * 0x1000 < size + HEADER <= n * 0x1000
    ensures 1024 < size <= poolSize ==>
      (Serves(vm, pf, cur, h, poolSize, size) <==> n < 3840 && Available(vm, pf, cur, n))
    ensures poolSize < size ==> Serves(vm, pf, cur, h, poolSize, size)
  {
    hide Available;
    WholePages(size);
    assert n == PagesFor(size);
  }

  // block_desc_init.

  /** The heap as block_desc_init leaves it. */
  function EmptyHeap(): (h: Heap)
    ensures |h.free| == CLASSES && forall k :: 0 <= k < CLASSES ==> h.free[k] == []
  {
    Heap(map[], seq(CLASSES, _ => []), map[], map[])
  }

  /** The end of the pages that malloc_page hands out in pf. */
  ghost function HeapEnd(m: PageManager, pf: Half): int {
    (Page0(pf) + (if pf == Kernel then 8 * m.kv.bits.Length else U_PAGES)) * 0x1000
  }

  lemma NewDesc(w: Words, descs: int, k: int)
    requires 0 <= k < CLASSES && IsList(w, FreeList(descs, k), [])
    requires Desc(descs, k) in w && w[Desc(descs, k)] == BlockSize(k)
    requires Desc(descs, k) + 4 in w && w[Desc(descs, k) + 4] == Blocks(k)
    ensures DescStored(w, descs, EmptyHeap(), k)
  {
    hide IsList, BlockSize, Blocks, ArenaOf;
  }

  lemma DescsKept(w: Words, w': Words, descs: int, k: int)
    requires 0 <= k < CLASSES && forall j :: 0 <= j < k ==> DescStored(w, descs, EmptyHeap(), j)
    requires forall v :: v in w ==> v in w' && (w'[v] == w[v] || Desc(descs, k) <= v < Desc(descs, k) + 24)
    ensures forall j :: 0 <= j < k ==> DescStored(w', descs, EmptyHeap(), j)
  {
    hide DescStored;
    forall j | 0 <= j < k ensures DescStored(w', descs, EmptyHeap(), j) {
      DescKept(w, w', descs, EmptyHeap(), j);
    }
  }

  lemma DescWords(w: Words, descs: int, k: int)
    requires HasWords(w, descs, descs + 24 * CLASSES) && descs % 4 == 0 && 0 <= k < CLASSES
    ensures Desc(descs, k) in w && Desc(descs, k) + 4 in w
    ensures var L := FreeList(descs, k); L in w && L + 4 in w && L + 8 in w && L + 12 in w
  {
  }

  /** What one round of block_desc_init writes. */
  lemma DescWritten(w: Words, w': Words, descs: int, k: int)
    requires HasWords(w, descs, descs + 24 * CLASSES) && descs % 4 == 0 && 0 <= k < CLASSES
    requires forall j :: 0 <= j < k ==> DescStored(w, descs, EmptyHeap(), j)
    requires var L := FreeList(descs, k);
      w' == w[Desc(descs, k) := BlockSize(k)][Desc(descs, k) + 4 := Blocks(k)]
             [L := 0][L + 4 := L + 8][L + 8 := L][L + 12 := 0]
    requires IsList(w', FreeList(descs, k), [])
    ensures HasWords(w', descs, descs + 24 * CLASSES)
    ensures forall j :: 0 <= j < k + 1 ==> DescStored(w', descs, EmptyHeap(), j)
  {
    hide DescStored, EmptyHeap, IsList, BlockSize, Blocks;
    DescsKept(w, w', descs, k);
    NewDesc(w', descs, k);
  }

  lemma NothingOutside(w: Words, descs: int)
    ensures OutsideKept(w, w, descs, EmptyHeap())
  {
  }

  lemma DescOutside(w: Words, w1: Words, w': Words, descs: int, k: int)
    requires OutsideKept(w, w1, descs, EmptyHeap()) && 0 <= k < CLASSES
    requires var L := FreeList(descs, k);
      w' == w1[Desc(descs, k) := BlockSize(k)][Desc(descs, k) + 4 := Blocks(k)]
              [L := 0][L + 4 := L + 8][L + 8 := L][L + 12 := 0]
    ensures OutsideKept(w, w', descs, EmptyHeap())
  {
    hide BlockSize, Blocks, HoldsPage, EmptyHeap;
  }

  /** Descriptors in the kernel half are the same under every directory. */
  lemma DescsSeen(vm: Vm, s: int, t: int, descs: int)
    requires 0xc000_0000 <= descs && forall k :: 0 <= k < CLASSES ==> DescStored(View(vm, s), descs, EmptyHeap(), k)
    ensures forall k :: 0 <= k < CLASSES ==> DescStored(View(vm, t), descs, EmptyHeap(), k)
  {
    hide DescStored, View, EmptyHeap;
    forall k | 0 <= k < CLASSES ensures DescStored(View(vm, t), descs, EmptyHeap(), k) {
      forall v | v in View(vm, s) && Desc(descs, k) <= v < Desc(descs, k) + 24
        ensures v in View(vm, t) && View(vm, t)[v] == View(vm, s)[v]
      {
        KernelWords(vm, s, t, v);
      }
      DescKept(View(vm, s), View(vm, t), descs, EmptyHeap(), k);
    }
  }

  lemma EmptyHeapInv(w: Words, descs: int, lo: int, hi: int)
    requires Placed(descs, lo, hi) && forall k :: 0 <= k < CLASSES ==> DescStored(w, descs, EmptyHeap(), k)
    ensures HeapInv(w, descs, EmptyHeap(), lo, hi)
  {
    hide DescStored, Placed, Off, Index, Block, BlockSize, Blocks, ArenaOf, FreeSet, HasWords;
  }

  lemma HeapInvSplit(w: Words, descs: int, h: Heap, lo: int, hi: int)
    requires HeapInv(w, descs, h, lo, hi)
    ensures Placed(descs, lo, hi) && Shape(h, lo, hi) && Stored(w, descs, h) && Partial(h)
  {
  }

  // New pages.

  /** What malloc_page gives: pages of pf that were not mapped. */
  lemma GotPages(vm: Vm, vm': Vm, pf: Half, cur: int, a: int, n: int, tables: bool)
    requires Grew(vm, vm', pf, cur, PageNo(pf, a), PageNo(pf, a) + n, tables) && a % 0x1000 == 0
    ensures Extends(View(vm, cur), View(vm', cur), a, a + 0x1000 * n)
    ensures Low(pf) <= a && a + 0x1000 * n <= (Page0(pf) + |VBits(vm, pf, cur)|) * 0x1000
  {
    hide Uses, Extends, View, Isolated, AllClear;
    assert (Page0(pf) + PageNo(pf, a)) * 0x1000 == a;
  }

  /** w' is w and the zeroed pages at a. */
  ghost predicate ZeroPages(w: Words, w': Words, a: int, n: int) {
    && a % 0x1000 == 0 && n >= 1 && Extends(w, w', a, a + 0x1000 * n)
    && (forall v :: a <= v < a + 0x1000 * n && v in w' ==> w'[v] == 0)
  }

  lemma ClearedPages(w: Words, w0: Words, w': Words, a: int, n: int)
    requires Extends(w, w0, a, a + 0x1000 * n) && a % 0x1000 == 0 && n >= 1
    ensures HasWords(w0, a, a + 0x1000 * n)
    ensures Cleared(w0, w', a, a + 0x1000 * n) ==> ZeroPages(w, w', a, n)
  {
  }

  /** Their header is written: the rest of memory is as before malloc_page. */
  ghost predicate NewPages(w: Words, w': Words, a: int, n: int, desc: int, cnt: int, large: int) {
    && a % 0x1000 == 0 && n >= 1
    && (forall v :: v in w ==> v in w' && w'[v] == w[v] && !(a <= v < a + 0x1000 * n))
    && HasWords(w', a, a + 0x1000 * n) && HeaderStored(w', a, desc, cnt, large)
    && (forall v :: a + HEADER <= v < a + 0x1000 * n && v in w' ==> w'[v] == 0)
  }

  lemma HeaderWords(w: Words, w': Words, a: int, n: int)
    requires ZeroPages(w, w', a, n)
    ensures a in w' && a + 4 in w' && a + 8 in w' && a % 0x1000 == 0
    ensures forall v :: v in w ==> v in w' && w'[v] == w[v] && v != a && v != a + 4 && v != a + 8
  {
  }

  lemma HeaderWritten(w: Words, w': Words, a: int, n: int, desc: int, cnt: int, large: int)
    requires ZeroPages(w, w', a, n)
    ensures NewPages(w, w'[a := desc][a + 8 := large][a + 4 := cnt], a, n, desc, cnt, large)
    ensures NewPages(w, w'[a := desc][a + 4 := cnt][a + 8 := large], a, n, desc, cnt, large)
  {
    assert forall v :: v in w ==> !(a <= v < a + 0x1000 * n);
  }

  // A new arena.

  /** Only the list at L and the blocks of the arena at a have changed. */
  ghost predicate Filling(w: Words, w': Words, L: int, a: int) {
    && (forall v :: v in w' <==> v in w)
    && (forall v :: v in w && w'[v] != w[v] ==> L <= v < L + 16 || a + HEADER <= v < a + 0x1000)
  }

  /** The next block is none of those listed. */
  lemma NextBlock(w: Words, w1: Words, L: int, a: int, k: int, i: int)
    requires 0 <= k < CLASSES && 0 <= i < Blocks(k) && a % 0x1000 == 0 && (L + 16 <= a || a + 0x1000 <= L)
    requires Filling(w, w1, L, a) && HasWords(w, a, a + 0x1000)
    ensures Block(a, k, i) in w1 && Block(a, k, i) + 4 in w1 && Outside(L, BlockSeq(a, k, i), Block(a, k, i))
    ensures Block(a, k, i) !in BlockSeq(a, k, i) && BlockSeq(a, k, i) + [Block(a, k, i)] == BlockSeq(a, k, i + 1)
  {
    hide Off, Index, BlockSize, Blocks, ArenaOf;
    var xs, b := BlockSeq(a, k, i), Block(a, k, i);
    BlockPlace(a, k, i);
    forall j | 0 <= j < i ensures xs[j] + 16 <= b {
      BlockPlace(a, k, j);
      BlocksApart(k, j, i);
    }
    var c := Chain(L, xs);
    forall n | 0 <= n < i + 2 ensures Lists.Apart(b, c[n]) {
      if 0 < n <= i { assert c[n] == xs[n - 1]; }
    }
  }

  /** Appending block i changes sentinels and blocks only. */
  lemma FillNext(w: Words, w1: Words, w': Words, L: int, a: int, k: int, i: int)
    requires 0 <= k < CLASSES && 0 <= i < Blocks(k) && a % 0x1000 == 0 && Filling(w, w1, L, a)
    requires Within(w1, w', Chain(L, BlockSeq(a, k, i)) + [Block(a, k, i)])
    ensures Filling(w, w', L, a)
  {
    hide Off, Index, BlockSize, Blocks, ArenaOf;
    var xs := BlockSeq(a, k, i);
    var c := Chain(L, xs) + [Block(a, k, i)];
    forall v | v in w1 && WordOf(c, v) ensures L <= v < L + 16 || a + HEADER <= v < a + 0x1000 {
      var n :| 0 <= n < |c| && (v == c[n] || v == c[n] + 4);
      if 0 < n <= i {
        assert c[n] == xs[n - 1];
        BlockPlace(a, k, n - 1);
      } else {
        BlockPlace(a, k, i);
      }
    }
  }

  /** The header and the descriptor of a new arena are written, and its list is empty. */
  ghost predicate ArenaReady(w: Words, descs: int, a: int, k: int)
    ensures ArenaReady(w, descs, a, k) ==> Desc(descs, k) + 4 in w && w[Desc(descs, k) + 4] == Blocks(k)
  {
    && 0 <= k < CLASSES && a % 0x1000 == 0 && HasWords(w, a, a + 0x1000)
    && (FreeList(descs, k) + 16 <= a || a + 0x1000 <= Desc(descs, k))
    && a in w && w[a] == Desc(descs, k)
    && Desc(descs, k) in w && w[Desc(descs, k)] == BlockSize(k)
    && Desc(descs, k) + 4 in w && w[Desc(descs, k) + 4] == Blocks(k)
    && IsList(w, FreeList(descs, k), [])
  }

  lemma StillReady(w: Words, w': Words, descs: int, a: int, k: int)
    requires ArenaReady(w, descs, a, k) && Filling(w, w', FreeList(descs, k), a)
    ensures a in w' && w'[a] == Desc(descs, k)
    ensures Desc(descs, k) in w' && w'[Desc(descs, k)] == BlockSize(k)
    ensures HasWords(w, a, a + 0x1000) && 0 <= k < CLASSES && a % 0x1000 == 0
    ensures FreeList(descs, k) + 16 <= a || a + 0x1000 <= FreeList(descs, k)
    ensures IsList(w, FreeList(descs, k), [])
  {
    hide HasWords, IsList;
  }

  lemma ReadyArena(w: Words, w': Words, descs: int, h: Heap, lo: int, hi: int, a: int, k: int)
    requires Placed(descs, lo, hi) && |h.free| == CLASSES && Stored(w, descs, h) && 0 <= k < CLASSES && h.free[k] == []
    requires NewPages(w, w', a, 1, Desc(descs, k), Blocks(k), 0) && lo <= a && a + 0x1000 <= hi
    ensures ArenaReady(w', descs, a, k)
  {
    hide DescStored, BlockSize, Blocks, IsList, ArenaOf;
    StoredClass(w, descs, h, k);
    ListFrame(w, w', FreeList(descs, k), []);
  }

  /** h' is h and the arena in page a, all of whose blocks are free. */
  ghost predicate NewArena(h: Heap, h': Heap, a: int, k: int) {
    && |h.free| == CLASSES && 0 <= k < CLASSES && h' == Refilled(h, a, k) && PartialBut(h', a)
    && h'.free[k] != [] && ArenaOf(h'.free[k][0]) == a
    && a % 0x1000 == 0 && a !in h.kinds && a !in h.large
  }

  lemma RefillWords(w: Words, w0: Words, w3: Words, w': Words, descs: int, h: Heap, lo: int, hi: int, a: int, k: int)
    requires HeapInv(w, descs, h, lo, hi) && 0 <= k < CLASSES && h.free[k] == []
    requires ZeroPages(w, w0, a, 1) && lo <= a && a + 0x1000 <= hi
    requires NewPages(w, w3, a, 1, Desc(descs, k), Blocks(k), 0) && Filling(w3, w', FreeList(descs, k), a)
    requires IsList(w', FreeList(descs, k), BlockSeq(a, k, Blocks(k)))
    ensures Shape(Refilled(h, a, k), lo, hi) && Stored(w', descs, Refilled(h, a, k))
    ensures NewArena(h, Refilled(h, a, k), a, k) && OnlyTouched(w, w', descs, h, k, NoBlock)
  {
    hide Stored, Shape, Partial, IsList, BlockSize, Blocks, Off, Index, ArenaOf;
    BlockBig(k);
    BlockPlace(a, k, 0);
    assert OnlyTouched(w, w', descs, h, k, NoBlock);
    RefillStep(w, w0, w', descs, h, lo, hi, a, k);
    FreshPages(w, w0, descs, h, lo, hi, a, 1);
    RefilledPages(h, lo, hi, a, k);
  }

  lemma NewWords(w: Words, w': Words, a: int)
    requires ZeroPages(w, w', a, 1)
    ensures forall v :: v in w ==> ArenaOf(v) != a
  {
  }

  lemma RefillHolds(h: Heap, a: int, k: int, pf: Half)
    requires |h.free| == CLASSES && 0 <= k < CLASSES && a % 0x1000 == 0
    ensures HoldsMore(h, Refilled(h, a, k), pf, PageNo(pf, a), PageNo(pf, a) + 1)
  {
    hide BlockSeq, Blocks;
  }

  /** A new arena changes nothing about what is live. */
  lemma RefilledKept(w: Words, w1: Words, w': Words, h: Heap, lo: int, hi: int, a: int, k: int)
    requires Shape(h, lo, hi) && 0 <= k < CLASSES && h.free[k] == [] && a % 0x1000 == 0 && a !in h.kinds
    requires a !in h.large
    requires ClientKept(w, w1, h) && ClientKept(w1, w', Refilled(h, a, k))
    ensures ClientKept(w, w', h)
  {
    hide BlockSize, Blocks, BlockSeq, Off, Index, IsBlock, Live, Pages, Split, Nodes, ArenaOf;
    var h' := Refilled(h, a, k);
    RefilledNodes(h, lo, hi, a, k);
    forall p, v | p in h.live && (IsSmall(h, p) || IsLarge(h, p)) && p <= v < End(h, p) && v in w
      ensures SameWord(w, w', v)
    {
      LiveElsewhere(h, lo, hi, a, p);
      assert End(h', p) == End(h, p);
      assert SameWord(w, w1, v) && SameWord(w1, w', v);
    }
  }

  lemma RefilledOutside(w: Words, w1: Words, w': Words, descs: int, h: Heap, a: int, k: int)
    requires |h.free| == CLASSES && 0 <= k < CLASSES && forall v :: v in w ==> ArenaOf(v) != a
    requires OutsideKept(w, w1, descs, h) && OutsideKept(w1, w', descs, Refilled(h, a, k))
    ensures OutsideKept(w, w', descs, h)
  {
    hide ArenaOf, BlockSeq, Blocks;
    OutsideTrans(w, w1, w', descs, h, Refilled(h, a, k));
  }

  // A block is handed out.

  /** list_pop leaves the block sizes and the popped block's words in place. */
  lemma AfterPop(w: Words, w1: Words, descs: int, h: Heap, lo: int, hi: int, k: int, e: int)
    requires Placed(descs, lo, hi) && Shape(h, lo, hi) && Stored(w, descs, h) && 0 <= k < CLASSES && e in h.free[k]
    requires Within(w, w1, Chain(FreeList(descs, k), h.free[k]))
    ensures IsBlock(h, k, e) && OnlyTouched(w, w1, descs, h, k, TheBlock(e))
    ensures Desc(descs, k) in w1 && w1[Desc(descs, k)] == BlockSize(k)
    ensures HasWords(w1, e, e + BlockSize(k)) && BlockSize(k) % 4 == 0 && e % 4 == 0
    ensures ArenaOf(e) + 4 in w && ArenaOf(e) + 4 in w1 && w1[ArenaOf(e) + 4] == w[ArenaOf(e) + 4]
  {
    hide IsBlock, BlockSize, Blocks, Touched, Pages, Split, Live, IsList, DescStored, FreeSet, Off, Index, Block;
    hide ArenaOf;
    NodeBlock(h, k, e);
    ChainTouched(w, w1, descs, h, k, h.free[k], NoBlock);
    ChainTouched(w, w1, descs, h, k, h.free[k], TheBlock(e));
    OthersKept(w, w1, descs, h, lo, hi, k, NoBlock);
    StoredBlock(w, descs, h, lo, hi, k, e);
    assert SameWord(w, w1, ArenaOf(e) + 4);
  }

  /** The rest of a list does not see its popped block cleared and counted. */
  lemma RestKept(w1: Words, w2: Words, w3: Words, descs: int, h: Heap, lo: int, hi: int, k: int, e: int, rest: seq<int>)
    requires Placed(descs, lo, hi) && Shape(h, lo, hi) && 0 <= k < CLASSES && IsBlock(h, k, e)
    requires forall x :: x in rest ==> x in h.free[k] && x != e
    requires IsList(w1, FreeList(descs, k), rest)
    requires Cleared(w1, w2, e, e + BlockSize(k))
    requires forall v :: v in w2 && v != ArenaOf(e) + 4 ==> v in w3 && w3[v] == w2[v]
    ensures IsList(w3, FreeList(descs, k), rest)
  {
    hide IsBlock, BlockSize, Blocks, IsList, Split, Live, Pages, PagesApart, ArenaOf;
    var L := FreeList(descs, k);
    var c := Chain(L, rest);
    BlockRegion(h, k, e, lo, hi);
    forall v | v in w1 && WordOf(c, v) ensures v in w3 && w3[v] == w1[v] {
      var i :| 0 <= i < |c| && (v == c[i] || v == c[i] + 4);
      if 0 < i <= |rest| {
        assert c[i] == rest[i - 1] && c[i] in rest;
        BlockRegion(h, k, c[i], lo, hi);
        BlockPair(h, k, e, k, c[i], lo, hi);
      } else {
        assert c[i] == L || c[i] == L + 8;
      }
    }
    ListFrame(w1, w3, L, rest);
  }

  lemma CntKept(w: Words, w1: Words, w2: Words, descs: int, h: Heap, lo: int, hi: int, k: int, e: int)
    requires Shape(h, lo, hi) && 0 <= k < CLASSES && IsBlock(h, k, e)
    requires ArenaOf(e) + 4 in w1 && ArenaOf(e) + 4 in w && w1[ArenaOf(e) + 4] == w[ArenaOf(e) + 4]
    requires Cleared(w1, w2, e, e + BlockSize(k))
    ensures ArenaOf(e) + 4 in w2 && w2[ArenaOf(e) + 4] == w[ArenaOf(e) + 4]
  {
    hide IsBlock, BlockSize, Blocks, ArenaOf;
    BlockRegion(h, k, e, lo, hi);
  }

  lemma BlockClear(w: Words, w': Words, descs: int, h: Heap, k: int, e: int)
    requires |h.free| == CLASSES && 0 <= k < CLASSES
    requires forall v :: v in w ==> v in w' && (w'[v] == w[v] || e <= v < e + BlockSize(k) || v == ArenaOf(e) + 4)
    ensures OnlyTouched(w, w', descs, h, k, TheBlock(e))
  {
    hide BlockSize, ArenaOf;
  }

  lemma ShapeBlock(h: Heap, lo: int, hi: int, k: int, e: int)
    requires Shape(h, lo, hi) && IsBlock(h, k, e)
    ensures ArenaOf(e) + HEADER <= e
  {
    hide IsBlock, BlockSize, Blocks, ArenaOf;
    BlockRegion(h, k, e, lo, hi);
  }

  /** list_pop, memset and --cnt: the heap loses block e and gains a live pointer. */
  lemma PopWords(w: Words, w1: Words, w2: Words, w3: Words, descs: int, h: Heap, lo: int, hi: int,
                 k: int, e: int, rest: seq<int>, size: int)
    requires Placed(descs, lo, hi) && Shape(h, lo, hi) && Stored(w, descs, h) && PartialBut(h, ArenaOf(e))
    requires 0 <= k < CLASSES && h.free[k] == [e] + rest && 0 <= size <= BlockSize(k) && IsBlock(h, k, e)
    requires OnlyTouched(w, w1, descs, h, k, TheBlock(e)) && IsList(w1, FreeList(descs, k), rest)
    requires Cleared(w1, w2, e, e + BlockSize(k)) && HasWords(w1, e, e + BlockSize(k))
    requires ArenaOf(e) + 4 in w && ArenaOf(e) + 4 in w2 && w2[ArenaOf(e) + 4] == w[ArenaOf(e) + 4]
    requires w3 == w2[ArenaOf(e) + 4 := w2[ArenaOf(e) + 4] - 1]
    ensures HeapInv(w3, descs, Popped(h, k, e, rest, size), lo, hi)
    ensures OnlyTouched(w, w3, descs, h, k, TheBlock(e))
    ensures forall v :: e <= v < e + BlockSize(k) && v % 4 == 0 ==> v in w3 && w3[v] == 0
  {
    hide IsBlock, BlockSize, Blocks, IsList, Touched, Stored, Shape, FreeSet, Off, Index, Chain, ArenaOf;
    PopShape(h, lo, hi, k, e, rest, size);
    RestKept(w1, w2, w3, descs, h, lo, hi, k, e, rest);
    BlockClear(w1, w3, descs, h, k, e);
    TouchedTrans(w, w1, w3, descs, h, k, TheBlock(e));
    PopStep(w, w3, descs, h, lo, hi, k, e, rest, size);
    ShapeBlock(h, lo, hi, k, e);
  }

  /** A block leaves the free list: the rest of the heap's clients do not notice. */
  lemma SmallWords(w: Words, w': Words, descs: int, h: Heap, lo: int, hi: int, k: int, e: int, size: int)
    requires Placed(descs, lo, hi) && Shape(h, lo, hi) && Stored(w, descs, h)
    requires 0 <= k < CLASSES && h.free[k] != [] && h.free[k][0] == e && OnlyTouched(w, w', descs, h, k, TheBlock(e))
    requires forall v :: e <= v < e + BlockSize(k) && v % 4 == 0 ==> v in w' && w'[v] == 0
    ensures e !in h.live && ClientKept(w, w', h)
    ensures Zeroed(w', Popped(h, k, e, h.free[k][1..], size), e)
    ensures var h' := Popped(h, k, e, h.free[k][1..], size); IsSmall(h', e) && h'.kinds[ArenaOf(e)] == k
  {
    hide Stored, BlockSize, Blocks, Off, Index, Live, Pages, End, ArenaOf;
    var h' := Popped(h, k, e, h.free[k][1..], size);
    NodeBlock(h, k, e);
    NodeIsSmall(h, lo, hi, k, e);
    assert Block(ArenaOf(e), k, Index(k, e - ArenaOf(e))) !in h.live;
    TouchedKept(w, w', descs, h, lo, hi, k, TheBlock(e));
    BlockRegion(h, k, e, lo, hi);
    SameEnds(h, h');
  }

  lemma PoppedOutside(w: Words, w': Words, descs: int, h: Heap, lo: int, hi: int, k: int, e: int)
    requires Shape(h, lo, hi) && 0 <= k < CLASSES && h.free[k] != [] && h.free[k][0] == e
    requires OnlyTouched(w, w', descs, h, k, TheBlock(e))
    ensures OutsideKept(w, w', descs, h)
  {
    hide OnlyTouched, OutsideKept, IsBlock;
    NodeBlock(h, k, e);
    TouchedOutside(w, w', descs, h, lo, hi, k, TheBlock(e));
  }

  // A large allocation.

  lemma LargeFresh(w: Words, w0: Words, descs: int, h: Heap, lo: int, hi: int, a: int, n: int, size: int)
    requires HeapInv(w, descs, h, lo, hi) && ZeroPages(w, w0, a, n)
    requires lo <= a && a + 0x1000 * n <= hi && 1024 < size && size + HEADER <= 0x1000 * n
    ensures a !in h.large && a + HEADER !in h.live && IsLarge(LargeGot(h, a, n, size), a + HEADER)
    ensures End(LargeGot(h, a, n, size), a + HEADER) == a + 0x1000 * n
  {
    hide Stored, Partial, BlockSize, Blocks, Off, Index, Split, Nodes, ArenaOf;
    FreshPages(w, w0, descs, h, lo, hi, a, n);
    LargeGotPages(h, lo, hi, a, n, size);
    NotABlock(h, lo, hi, a);
  }

  lemma LargeWords(w: Words, w0: Words, w': Words, descs: int, h: Heap, lo: int, hi: int, a: int, n: int, size: int)
    requires HeapInv(w, descs, h, lo, hi) && ZeroPages(w, w0, a, n) && NewPages(w, w', a, n, 0, n, 1)
    requires lo <= a && a + 0x1000 * n <= hi && 1024 < size && size + HEADER <= 0x1000 * n
    ensures HeapInv(w', descs, LargeGot(h, a, n, size), lo, hi) && a + HEADER !in h.live
    ensures ClientKept(w, w', h) && OutsideKept(w, w', descs, h) && Zeroed(w', LargeGot(h, a, n, size), a + HEADER)
  {
    hide Shape, Stored, Partial, End, IsSmall;
    LargeGotStep(w, w0, w', descs, h, lo, hi, a, n, size);
    FreshPages(w, w0, descs, h, lo, hi, a, n);
    LargeFresh(w, w0, descs, h, lo, hi, a, n, size);
  }

  lemma LargeHolds(h: Heap, a: int, n: int, size: int, pf: Half)
    requires a % 0x1000 == 0 && a !in h.large && n >= 1
    ensures HoldsMore(h, LargeGot(h, a, n, size), pf, PageNo(pf, a), PageNo(pf, a) + n)
  {
    var h' := LargeGot(h, a, n, size);
    forall i ensures Held(h', pf, i) <==> Held(h, pf, i) || PageNo(pf, a) <= i < PageNo(pf, a) + n {
      if b :| b in h.large && b <= (Page0(pf) + i) * 0x1000 < b + 0x1000 * h.large[b] {
        assert b in h'.large && h'.large[b] == h.large[b];
      }
      if PageNo(pf, a) <= i < PageNo(pf, a) + n { assert a in h'.large; }
    }
  }

  // A large allocation comes back.

  /** A range of words that the view has in the pages of pf is mapped there, and holds no
      directory. */
  lemma HeldSet(vm: Vm, pf: Half, cur: int, a: int, n: int)
    requires Agree(vm) && (pf == User ==> cur in vm.uv) && a % 0x1000 == 0 && n >= 1
    requires HasWords(View(vm, cur), a, a + 0x1000 * n)
    requires Low(pf) <= a && a + 0x1000 * n <= (Page0(pf) + |VBits(vm, pf, cur)|) * 0x1000
    ensures 0 <= PageNo(pf, a) && PageNo(pf, a) + n <= |VBits(vm, pf, cur)|
    ensures forall k :: PageNo(pf, a) <= k < PageNo(pf, a) + n ==> VBits(vm, pf, cur)[k]
    ensures pf == Kernel ==> NoDirs(vm, PageNo(pf, a), PageNo(pf, a) + n)
    ensures (Page0(pf) + PageNo(pf, a)) * 0x1000 == a
    ensures (Page0(pf) + PageNo(pf, a) + n) * 0x1000 == a + 0x1000 * n
  {
    hide Rd, Present, UserWrite, FrameOf, PoolBits;
    DirIsTaken(vm, BOOT_DIR);
    forall k | PageNo(pf, a) <= k < PageNo(pf, a) + n
      ensures 0 <= k < |VBits(vm, pf, cur)| && VBits(vm, pf, cur)[k]
      ensures pf == Kernel ==> FrameOf(KPte(vm.mem, k)) !in vm.uv
    {
      var v := (Page0(pf) + k) * 0x1000;
      assert v in View(vm, cur);
      assert v / 0x1000 == Page0(pf) + k;
    }
  }

  lemma LargeWhole(w: Words, descs: int, h: Heap, lo: int, hi: int, p: int)
    requires Shape(h, lo, hi) && Stored(w, descs, h) && p in h.live && IsLarge(h, p)
    ensures var a := p - HEADER;
      && a == ArenaOf(p) && lo <= a && a % 0x1000 == 0 && h.large[a] >= 1 && a + 0x1000 * h.large[a] <= hi
      && HasWords(w, a, a + 0x1000 * h.large[a]) && HeaderStored(w, a, 0, h.large[a], 1)
  {
    hide Nodes, Split, Live, PagesApart, DescStored;
  }

  /** Pages come back: no word left changes. */
  lemma FreedKept(w: Words, w': Words, h: Heap, a: int, n: int)
    requires Extends(w', w, a, a + 0x1000 * n)
    requires forall q :: q in h.live && (IsSmall(h, q) || IsLarge(h, q)) ==> Disjoint(q, End(h, q), a, a + 0x1000 * n)
    ensures ClientKept(w, w', h)
  {
    hide IsSmall, IsLarge, End;
  }

  /** The pages that come back were the heap's own. */
  lemma FreedOutside(w: Words, w': Words, descs: int, h: Heap, lo: int, hi: int, a: int, n: int)
    requires Shape(h, lo, hi) && Extends(w', w, a, a + 0x1000 * n)
    requires (a in h.kinds && n == 1) || (a in h.large && n == h.large[a])
    ensures OutsideKept(w, w', descs, h)
  {
    hide Nodes, Split, Live, Pages, Private, ArenaOf;
    forall v | v in w && a <= v < a + 0x1000 * n ensures Private(descs, h, v) { PageIsPrivate(descs, h, lo, hi, a, v); }
  }

  lemma LargeAligned(h: Heap, lo: int, hi: int)
    requires Shape(h, lo, hi)
    ensures forall a :: a in h.large ==> a % 0x1000 == 0 && h.large[a] >= 1
    ensures forall a :: a in h.kinds ==> a % 0x1000 == 0 && 0 <= h.kinds[a] < CLASSES
  {
    hide Nodes, Split, Live;
  }

  lemma LargeFreedApart(h: Heap, lo: int, hi: int, a: int)
    requires Shape(h, lo, hi) && a in h.large
    ensures var h' := LargeFreed(h, a);
      forall q :: q in h'.live && (IsSmall(h', q) || IsLarge(h', q)) ==>
        Disjoint(q, End(h', q), a, a + 0x1000 * h.large[a])
  {
    hide Off, Index, BlockSize, Blocks, IsBlock, Split, Nodes, ArenaOf;
    var h' := LargeFreed(h, a);
    SameBlocks(h, h');
    LargeFreedShape(h, lo, hi, a);
    forall q | q in h'.live && (IsSmall(h', q) || IsLarge(h', q))
      ensures Disjoint(q, End(h', q), a, a + 0x1000 * h.large[a])
    {
      LiveBounds(h', lo, hi, q);
    }
  }

  lemma LargeFreedHolds(h: Heap, lo: int, hi: int, a: int, pf: Half)
    requires Shape(h, lo, hi) && a in h.large
    ensures HoldsMore(LargeFreed(h, a), h, pf, PageNo(pf, a), PageNo(pf, a) + h.large[a])
    ensures forall i :: PageNo(pf, a) <= i < PageNo(pf, a) + h.large[a] ==> !Held(LargeFreed(h, a), pf, i)
  {
    hide Shape;
    var h' := LargeFreed(h, a);
    LargeFreedShape(h, lo, hi, a);
    LargeAligned(h, lo, hi);
    forall i ensures Held(h, pf, i) <==> Held(h', pf, i) || PageNo(pf, a) <= i < PageNo(pf, a) + h.large[a] {
      if b :| b in h.large && b <= (Page0(pf) + i) * 0x1000 < b + 0x1000 * h.large[b] {
        assert b != a ==> b in h'.large;
      }
    }
  }

  lemma LargeFreedClient(w: Words, w': Words, descs: int, h: Heap, lo: int, hi: int, a: int)
    requires HeapInv(w, descs, h, lo, hi) && a in h.large && Extends(w', w, a, a + 0x1000 * h.large[a])
    ensures HeapInv(w', descs, LargeFreed(h, a), lo, hi) && ClientKept(w, w', LargeFreed(h, a))
    ensures OutsideKept(w, w', descs, h)
  {
    hide Shape, Stored, Partial, ClientKept, Extends, OutsideKept;
    LargeFreedStep(w, w', descs, h, lo, hi, a);
    LargeFreedShape(h, lo, hi, a);
    LargeFreedApart(h, lo, hi, a);
    FreedKept(w, w', LargeFreed(h, a), a, h.large[a]);
    FreedOutside(w, w', descs, h, lo, hi, a, h.large[a]);
  }

  // A block comes back.

  lemma LiveBlock(h: Heap, lo: int, hi: int, p: int)
    requires Shape(h, lo, hi) && p in h.live && !IsLarge(h, p)
    ensures ArenaOf(p) in h.kinds && 0 <= h.kinds[ArenaOf(p)] < CLASSES && IsBlock(h, h.kinds[ArenaOf(p)], p)
    ensures p !in h.free[h.kinds[ArenaOf(p)]]
  {
    hide Off, Index, BlockSize, Blocks, PagesApart, ArenaOf;
    NodeIsSmall(h, lo, hi, h.kinds[ArenaOf(p)], p);
    var a, k := ArenaOf(p), h.kinds[ArenaOf(p)];
    assert Block(a, k, Index(k, p - a)) in h.live;
  }

  /** A freed block overlaps no element of its class's list. */
  lemma BlockOutside(descs: int, h: Heap, lo: int, hi: int, k: int, e: int)
    requires Placed(descs, lo, hi) && Shape(h, lo, hi) && 0 <= k < CLASSES && IsBlock(h, k, e) && e !in h.free[k]
    ensures Outside(FreeList(descs, k), h.free[k], e)
  {
    hide Off, Index, BlockSize, Blocks, Split, Live, IsBlock, PagesApart, ArenaOf;
    var xs := h.free[k];
    var c := Chain(FreeList(descs, k), xs);
    BlockRegion(h, k, e, lo, hi);
    forall i | 0 <= i < |c| ensures Lists.Apart(e, c[i]) {
      if 0 < i <= |xs| {
        assert c[i] == xs[i - 1] && xs[i - 1] in xs;
        BlockRegion(h, k, c[i], lo, hi);
        BlockPair(h, k, e, k, c[i], lo, hi);
      }
    }
  }

  /** The list of a class and a block of it miss the header of the block's arena. */
  lemma HeaderMissed(w: Words, w1: Words, descs: int, h: Heap, lo: int, hi: int, k: int, e: int)
    requires Placed(descs, lo, hi) && Shape(h, lo, hi) && 0 <= k < CLASSES && IsBlock(h, k, e)
    requires Within(w, w1, Chain(FreeList(descs, k), h.free[k]) + [e])
    ensures forall v :: ArenaOf(e) <= v < ArenaOf(e) + HEADER && v in w ==> SameWord(w, w1, v)
  {
    hide Off, Index, BlockSize, Blocks, Split, Live, IsBlock, PagesApart, ArenaOf;
    var xs := h.free[k];
    var c := Chain(FreeList(descs, k), xs) + [e];
    BlockBig(k);
    BlockRegion(h, k, e, lo, hi);
    forall v | ArenaOf(e) <= v < ArenaOf(e) + HEADER ensures !WordOf(c, v) {
      InPage(ArenaOf(e), v - ArenaOf(e));
      if i :| 0 <= i < |c| && (v == c[i] || v == c[i] + 4) {
        if 0 < i <= |xs| {
          assert c[i] == xs[i - 1] && xs[i - 1] in xs;
          InBlock(h, lo, hi, k, c[i], v);
        }
      }
    }
  }

  lemma ListKeepsCnt(w1: Words, w2: Words, descs: int, h: Heap, lo: int, hi: int, k: int, e: int)
    requires Placed(descs, lo, hi) && Shape(h, lo, hi) && 0 <= k < CLASSES && IsBlock(h, k, e)
    requires IsList(w1, FreeList(descs, k), h.free[k] + [e])
    requires forall v :: v in w1 && v != ArenaOf(e) + 4 ==> v in w2 && w2[v] == w1[v]
    ensures IsList(w2, FreeList(descs, k), h.free[k] + [e])
  {
    hide Off, Index, BlockSize, Blocks, Split, Live, IsBlock, PagesApart, IsList, ArenaOf;
    var xs := h.free[k] + [e];
    var c := Chain(FreeList(descs, k), xs);
    BlockRegion(h, k, e, lo, hi);
    forall v | v in w1 && WordOf(c, v) ensures v in w2 && w2[v] == w1[v] {
      var i :| 0 <= i < |c| && (v == c[i] || v == c[i] + 4);
      if 0 < i <= |xs| {
        assert c[i] == xs[i - 1] && (xs[i - 1] == e || xs[i - 1] in h.free[k]);
        BlockRegion(h, k, c[i], lo, hi);
      }
    }
    ListFrame(w1, w2, FreeList(descs, k), xs);
  }

  lemma PushWords(w: Words, w1: Words, w2: Words, descs: int, h: Heap, lo: int, hi: int, k: int, e: int)
    requires HeapInv(w, descs, h, lo, hi) && e in h.live && 0 <= k < CLASSES && IsBlock(h, k, e)
    requires Within(w, w1, Chain(FreeList(descs, k), h.free[k]) + [e])
    requires IsList(w1, FreeList(descs, k), h.free[k] + [e])
    requires ArenaOf(e) + 4 in w && ArenaOf(e) + 4 in w1 && w1[ArenaOf(e) + 4] == w[ArenaOf(e) + 4]
    requires w2 == w1[ArenaOf(e) + 4 := w1[ArenaOf(e) + 4] + 1]
    ensures Shape(Pushed(h, k, e), lo, hi) && Stored(w2, descs, Pushed(h, k, e))
    ensures PartialBut(Pushed(h, k, e), ArenaOf(e))
    ensures OnlyTouched(w, w2, descs, h, k, TheBlock(e))
  {
    hide Stored, Shape, Partial, IsList, BlockSize, Blocks, IsBlock, Chain, Within, PartialBut, Outside, ArenaOf;
    WithinTouched(w, w1, descs, h, k, h.free[k], TheBlock(e));
    BlockClear(w1, w2, descs, h, k, e);
    TouchedTrans(w, w1, w2, descs, h, k, TheBlock(e));
    ListKeepsCnt(w1, w2, descs, h, lo, hi, k, e);
    PushStep(w, w2, descs, h, lo, hi, k, e);
  }

  lemma PushedKept(w: Words, w': Words, descs: int, h: Heap, lo: int, hi: int, k: int, e: int)
    requires Placed(descs, lo, hi) && Shape(h, lo, hi) && Stored(w, descs, h) && 0 <= k < CLASSES && IsBlock(h, k, e)
    requires OnlyTouched(w, w', descs, h, k, TheBlock(e))
    ensures ClientKept(w, w', Pushed(h, k, e)) && OutsideKept(w, w', descs, h)
  {
    hide Stored, BlockSize, Blocks, Off, Index, IsSmall, IsLarge, End, IsBlock, Shape, Touched, ArenaOf;
    var h' := Pushed(h, k, e);
    SameEnds(h, h');
    TouchedOutside(w, w', descs, h, lo, hi, k, TheBlock(e));
    forall p | p in h'.live
      ensures IsSmall(h, p) || IsLarge(h, p)
      ensures forall v :: v in w && p <= v < End(h, p) ==> SameWord(w, w', v)
    {
      LiveUntouched(w, w', descs, h, lo, hi, k, TheBlock(e), p);
    }
  }

  // An arena whose blocks are all free.

  ghost predicate NoRepeats(xs: seq<int>) {
    forall i, j :: 0 <= i < j < |xs| ==> xs[i] != xs[j]
  }

  /** xs is list all without the first n blocks of arena a, the others in their order. */
  ghost predicate Removed(all: seq<int>, xs: seq<int>, a: int, k: int, n: nat) {
    NoRepeats(xs) && SameOrder(all, xs) && forall x :: x in xs <==> x in all && x !in BlockSeq(a, k, n)
  }

  lemma OrderStart(xs: seq<int>)
    requires NoRepeats(xs)
    ensures SameOrder(xs, xs)
  {
  }

  /** Dropping an element leaves the others in their order. */
  lemma OrderDrop(all: seq<int>, xs: seq<int>, j: int)
    requires SameOrder(all, xs) && 0 <= j < |xs|
    ensures SameOrder(all, xs[..j] + xs[j + 1..])
  {
    var ys := xs[..j] + xs[j + 1..];
    forall a, b, p, q | 0 <= a < b < |ys| && 0 <= p < |all| && 0 <= q < |all| && all[p] == ys[a] && all[q] == ys[b]
      ensures p < q
    {
      var a', b' := if a < j then a else a + 1, if b < j then b else b + 1;
      assert xs[a'] == ys[a] && xs[b'] == ys[b];
    }
  }

  lemma DropOne(xs: seq<int>, j: int)
    requires NoRepeats(xs) && 0 <= j < |xs|
    ensures NoRepeats(xs[..j] + xs[j + 1..])
    ensures forall x :: x in xs[..j] + xs[j + 1..] <==> x in xs && x != xs[j]
  {
    var ys := xs[..j] + xs[j + 1..];
    forall x | x in xs && x != xs[j] ensures x in ys {
      var i :| 0 <= i < |xs| && xs[i] == x;
      assert x == if i < j then ys[i] else ys[i - 1];
    }
  }

  lemma RemoveNext(all: seq<int>, xs: seq<int>, a: int, k: int, n: nat) returns (j: int)
    requires Removed(all, xs, a, k, n) && 0 <= k < CLASSES && a % 0x1000 == 0 && n < Blocks(k) && Block(a, k, n) in all
    ensures 0 <= j < |xs| && xs[j] == Block(a, k, n)
    ensures Removed(all, xs[..j] + xs[j + 1..], a, k, n + 1)
  {
    hide Off, Blocks, Index, ArenaOf, SameOrder;
    var b := Block(a, k, n);
    BlockPlace(a, k, n);
    forall i | 0 <= i < n ensures Block(a, k, i) != b {
      BlocksApart(k, i, n);
    }
    assert b !in BlockSeq(a, k, n);
    assert BlockSeq(a, k, n + 1) == BlockSeq(a, k, n) + [b];
    j :| 0 <= j < |xs| && xs[j] == b;
    DropOne(xs, j);
    OrderDrop(all, xs, j);
  }

  lemma RemovedAll(h: Heap, ys: seq<int>, a: int, k: int)
    requires Nodes(h) && 0 <= k < CLASSES && a in h.kinds && h.kinds[a] == k && a % 0x1000 == 0
    requires Removed(h.free[k], ys, a, k, Blocks(k))
    ensures Without(h.free[k], ys, a)
  {
    hide Off, Blocks, Index, ArenaOf, SameOrder;
    var bs := BlockSeq(a, k, Blocks(k));
    forall x | x in h.free[k] ensures x in bs <==> ArenaOf(x) == a {
      assert IsBlock(h, k, x);
      if ArenaOf(x) == a { assert bs[Index(k, x - a)] == x; }
      if x in bs {
        var i :| 0 <= i < |bs| && bs[i] == x;
        BlockPlace(a, k, i);
      }
    }
  }

  /** Arena a of class k is stored, and all its blocks are on the free list. */
  ghost predicate FreeArena(w: Words, descs: int, h: Heap, lo: int, hi: int, a: int, k: int)
    ensures FreeArena(w, descs, h, lo, hi, a, k) ==> |h.free| == CLASSES && 0 <= k < CLASSES
  {
    && Placed(descs, lo, hi) && Shape(h, lo, hi) && Stored(w, descs, h)
    && a in h.kinds && h.kinds[a] == k && 0 <= k < CLASSES && a % 0x1000 == 0
    && forall i :: 0 <= i < Blocks(k) ==> Block(a, k, i) in h.free[k]
  }

  lemma ArenaWords(w: Words, w1: Words, descs: int, h: Heap, lo: int, hi: int, a: int, k: int)
    requires FreeArena(w, descs, h, lo, hi, a, k) && OnlyTouched(w, w1, descs, h, k, NoBlock)
    ensures a in w1 && w1[a] == Desc(descs, k)
    ensures Desc(descs, k) in w1 && w1[Desc(descs, k)] == BlockSize(k)
    ensures Desc(descs, k) + 4 in w1 && w1[Desc(descs, k) + 4] == Blocks(k)
  {
    hide Touched, Shape, BlockSize, Blocks, IsList, FreeSet, DescStored, Block, ArenaOf;
    OthersKept(w, w1, descs, h, lo, hi, k, NoBlock);
    assert HeaderStored(w, a, Desc(descs, h.kinds[a]), |FreeSet(h, a)|, 0);
    assert SameWord(w, w1, a);
  }

  lemma FreeArenaList(w: Words, descs: int, h: Heap, lo: int, hi: int, a: int, k: int)
    requires FreeArena(w, descs, h, lo, hi, a, k)
    ensures IsList(w, FreeList(descs, k), h.free[k]) && Removed(h.free[k], h.free[k], a, k, 0)
    ensures OnlyTouched(w, w, descs, h, k, NoBlock) && Nodes(h)
  {
    hide Pages, Split, Live, IsList, BlockSize, Blocks, Touched, ArenaOf, SameOrder;
    StoredClass(w, descs, h, k);
    OrderStart(h.free[k]);
  }

  lemma RemoveStep(w: Words, w1: Words, w': Words, descs: int, h: Heap, k: int, xs: seq<int>, a: int, n: nat)
    requires |h.free| == CLASSES && 0 <= k < CLASSES && Removed(h.free[k], xs, a, k, n)
    requires OnlyTouched(w, w1, descs, h, k, NoBlock) && Within(w1, w', Chain(FreeList(descs, k), xs))
    ensures OnlyTouched(w, w', descs, h, k, NoBlock)
  {
    hide Within, Chain, Touched, OnlyTouched;
    ChainTouched(w1, w', descs, h, k, xs, NoBlock);
    TouchedTrans(w, w1, w', descs, h, k, NoBlock);
  }

  /** No live region lies in an arena whose blocks are all free. */
  lemma EvictedRegions(h: Heap, lo: int, hi: int, a: int, ys: seq<int>)
    requires Shape(h, lo, hi) && a in h.kinds && 0 <= h.kinds[a] < CLASSES
    requires forall i :: 0 <= i < Blocks(h.kinds[a]) ==> Block(a, h.kinds[a], i) in h.free[h.kinds[a]]
    ensures SameRegions(h, Evicted(h, a, ys))
    ensures var h' := Evicted(h, a, ys);
      forall q :: q in h'.live && (IsSmall(h', q) || IsLarge(h', q)) ==> Disjoint(q, End(h', q), a, a + 0x1000)
  {
    hide Off, Index, BlockSize, Blocks, Nodes, ArenaOf;
    var h' := Evicted(h, a, ys);
    EvictedBlocks(h, h', a);
    forall q | q in h.live ensures ArenaOf(q) != a && (IsSmall(h', q) <==> IsSmall(h, q)) {
      LiveBounds(h, lo, hi, q);
      if IsSmall(h, q) {
        var b := ArenaOf(q);
        assert q == Block(b, h.kinds[b], Index(h.kinds[b], q - b));
      }
    }
    forall q | q in h.live ensures (IsSmall(h, q) || IsLarge(h, q)) && Disjoint(q, End(h, q), a, a + 0x1000) {
      LiveBounds(h, lo, hi, q);
    }
  }

  lemma EvictedHolds(h: Heap, lo: int, hi: int, a: int, ys: seq<int>, pf: Half)
    requires Shape(h, lo, hi) && a in h.kinds && 0 <= h.kinds[a] < CLASSES
    ensures HoldsMore(Evicted(h, a, ys), h, pf, PageNo(pf, a), PageNo(pf, a) + 1)
    ensures forall i :: PageNo(pf, a) <= i < PageNo(pf, a) + 1 ==> !Held(Evicted(h, a, ys), pf, i)
  {
    hide Nodes, Split, Live;
    LargeAligned(h, lo, hi);
  }

  lemma EvictedKept(w: Words, w1: Words, w': Words, descs: int, h: Heap, lo: int, hi: int, a: int, ys: seq<int>)
    requires Placed(descs, lo, hi) && Shape(h, lo, hi) && Stored(w, descs, h)
    requires a in h.kinds && 0 <= h.kinds[a] < CLASSES && lo <= a && a + 0x1000 <= hi
    requires forall i :: 0 <= i < Blocks(h.kinds[a]) ==> Block(a, h.kinds[a], i) in h.free[h.kinds[a]]
    requires OnlyTouched(w, w1, descs, h, h.kinds[a], NoBlock) && Extends(w', w1, a, a + 0x1000)
    ensures ClientKept(w, w', Evicted(h, a, ys)) && OutsideKept(w, w', descs, h)
  {
    hide Shape, Stored, Blocks, Block, ClientKept, OutsideKept, Extends, OnlyTouched, IsSmall, IsLarge, End;
    hide SameRegions;
    EvictedRegions(h, lo, hi, a, ys);
    TouchedKept(w, w1, descs, h, lo, hi, h.kinds[a], NoBlock);
    FreedKept(w1, w', Evicted(h, a, ys), a, 1);
    KeptTrans(w, w1, w', h, Evicted(h, a, ys));
    TouchedOutside(w, w1, descs, h, lo, hi, h.kinds[a], NoBlock);
    FreedOutside(w1, w', descs, h, lo, hi, a, 1);
    OutsideTrans(w, w1, w', descs, h, h);
  }
}
