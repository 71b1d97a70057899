/** The arena allocator of kernel/memory.c as a relation between the words of virtual memory
    and an account of who owns each block. */
module Heaps {
  import opened Views
  import opened Lists

  const CLASSES := 7   // DESC_CNT
  const HEADER := 12   // sizeof(struct arena): desc, cnt, large

  /** Size of the blocks of class k. */
  function BlockSize(k: int): int {
    if k <= 0 then 16 else if k == 1 then 32 else if k == 2 then 64 else if k == 3 then 128
    else if k == 4 then 256 else if k == 5 then 512 else 1024
  }

  /** blocks_per_arena of class k. */
  function Blocks(k: int): nat {
    if k <= 0 then 255 else if k == 1 then 127 else if k == 2 then 63 else if k == 3 then 31
    else if k == 4 then 15 else if k == 5 then 7 else 3
  }

  /** Offset of block i in an arena of class k. */
  function Off(k: int, i: int): int {
    if k <= 0 then 12 + 16 * i else if k == 1 then 12 + 32 * i else if k == 2 then 12 + 64 * i
    else if k == 3 then 12 + 128 * i else if k == 4 then 12 + 256 * i else if k == 5 then 12 + 512 * i
    else 12 + 1024 * i
  }

  /** The block an offset lies in. */
  function Index(k: int, o: int): int {
    if k <= 0 then (o - 12) / 16 else if k == 1 then (o - 12) / 32 else if k == 2 then (o - 12) / 64
    else if k == 3 then (o - 12) / 128 else if k == 4 then (o - 12) / 256 else if k == 5 then (o - 12) / 512
    else (o - 12) / 1024
  }

  /** arena2block */
  function Block(a: int, k: int, i: int): int { a + Off(k, i) }

  /** block2arena */
  function ArenaOf(b: int): (a: int)
    ensures a <= b < a + 0x1000
  {
    b - b % 0x1000
  }

  // Addresses of the descriptor of class k in the table at descs, and of its free list.
  function Desc(descs: int, k: int): int { descs + 24 * k }
  function FreeList(descs: int, k: int): int { descs + 24 * k + 8 }

  /** The class tables match their definitions in block_desc_init and arena2block. */
  lemma Classes(k: int, i: int)
    requires 0 <= k < CLASSES
    ensures Blocks(k) == (0x1000 - HEADER) / BlockSize(k) && (k > 0 ==> BlockSize(k) == 2 * BlockSize(k - 1))
    ensures Off(k, i) == HEADER + i * BlockSize(k)
  {
  }

  lemma OffPlace(k: int, i: int)
    requires 0 <= k < CLASSES && 0 <= i < Blocks(k)
    ensures HEADER <= Off(k, i) && Off(k, i) + BlockSize(k) <= 0x1000 && Off(k, i) % 4 == 0
    ensures Index(k, Off(k, i)) == i
    ensures BlockSize(k) >= 16 && BlockSize(k) % 4 == 0 && Blocks(k) >= 3
  {
  }

  lemma InPage(a: int, o: int)
    requires a % 0x1000 == 0 && 0 <= o < 0x1000
    ensures ArenaOf(a + o) == a && (o % 4 == 0 ==> (a + o) % 4 == 0)
  {
  }

  /** Every block of an arena lies in its page, past the header, clear of the other blocks, and
      block2arena and the index recover where it came from. */
  lemma BlockPlace(a: int, k: int, i: int)
    requires 0 <= k < CLASSES && 0 <= i < Blocks(k) && a % 0x1000 == 0
    ensures HEADER <= Off(k, i) && Off(k, i) + BlockSize(k) <= 0x1000 && Off(k, i) % 4 == 0
    ensures ArenaOf(Block(a, k, i)) == a && Index(k, Block(a, k, i) - a) == i
    ensures BlockSize(k) >= 16 && BlockSize(k) % 4 == 0 && Blocks(k) >= 3
    ensures Block(a, k, i) % 4 == 0
  {
    hide Off, Index, BlockSize, Blocks, ArenaOf;
    OffPlace(k, i);
    InPage(a, Off(k, i));
    assert Block(a, k, i) - a == Off(k, i);
  }

  lemma BlocksApart(k: int, i: int, j: int)
    requires 0 <= k < CLASSES && i < j
    ensures Off(k, i) + BlockSize(k) <= Off(k, j)
  {
  }

  /** kinds: class of each arena page; free: the free lists; large: page count of each large
      allocation, by its first page; live: requested size of each pointer handed out. */
  datatype Heap = Heap(kinds: map<int, int>, free: seq<seq<int>>, large: map<int, int>, live: map<int, int>)

  /** e is block Index of the arena it lies in, and that arena has class k. */
  predicate IsBlock(h: Heap, k: int, e: int) {
    var a := ArenaOf(e);
    && a in h.kinds && h.kinds[a] == k
    && 0 <= Index(k, e - a) < Blocks(k) && e == Block(a, k, Index(k, e - a))
  }

  predicate IsSmall(h: Heap, p: int) {
    ArenaOf(p) in h.kinds && IsBlock(h, h.kinds[ArenaOf(p)], p)
  }

  predicate IsLarge(h: Heap, p: int) { p - HEADER in h.large }

  /** End of the memory behind live pointer p. */
  function End(h: Heap, p: int): int
    requires IsSmall(h, p) || IsLarge(h, p)
  {
    if IsSmall(h, p) then p + BlockSize(h.kinds[ArenaOf(p)]) else p - HEADER + 0x1000 * h.large[p - HEADER]
  }

  /** The page at a belongs to an arena or a large allocation. */
  ghost predicate HoldsPage(h: Heap, a: int) {
    a in h.kinds || exists b :: b in h.large && b <= a < b + 0x1000 * h.large[b]
  }

  ghost predicate Disjoint(lo1: int, hi1: int, lo2: int, hi2: int) { hi1 <= lo2 || hi2 <= lo1 }

  /** No arena page and no large allocation overlap. */
  ghost predicate PagesApart(kinds: map<int, int>, large: map<int, int>) {
    && (forall a, b :: a in kinds && b in large ==> Disjoint(a, a + 0x1000, b, b + 0x1000 * large[b]))
    && (forall a, b :: a in large && b in large && a != b ==>
      Disjoint(a, a + 0x1000 * large[a], b, b + 0x1000 * large[b]))
  }

  ghost predicate Pages(h: Heap, lo: int, hi: int) {
    && (forall a :: a in h.kinds ==> 0 <= h.kinds[a] < CLASSES && a % 0x1000 == 0 && lo <= a && a + 0x1000 <= hi)
    && (forall a :: a in h.large ==>
      h.large[a] >= 1 && a % 0x1000 == 0 && lo <= a && a + 0x1000 * h.large[a] <= hi && a + HEADER in h.live)
    && PagesApart(h.kinds, h.large)
  }

  /** Free-list nodes are blocks of arenas of their class, listed once. */
  ghost predicate Nodes(h: Heap)
    ensures Nodes(h) ==> |h.free| == CLASSES
  {
    && |h.free| == CLASSES
    && (forall k, e :: 0 <= k < CLASSES && e in h.free[k] ==> IsBlock(h, k, e))
    && (forall k, i, j :: 0 <= k < CLASSES && 0 <= i < j < |h.free[k]| ==> h.free[k][i] != h.free[k][j])
  }

  /** Every block of an arena is either live or on the free list of its class. */
  ghost predicate Split(h: Heap)
    requires |h.free| == CLASSES
  {
    forall a, i :: a in h.kinds && 0 <= h.kinds[a] < CLASSES && 0 <= i < Blocks(h.kinds[a]) ==>
      (Block(a, h.kinds[a], i) in h.live <==> Block(a, h.kinds[a], i) !in h.free[h.kinds[a]])
  }

  ghost predicate Live(h: Heap) {
    forall p :: p in h.live ==>
      || (IsSmall(h, p) && 0 <= h.live[p] <= BlockSize(h.kinds[ArenaOf(p)]))
      || (IsLarge(h, p) && 1024 < h.live[p] && h.live[p] + HEADER <= 0x1000 * h.large[p - HEADER])
  }

  ghost predicate Shape(h: Heap, lo: int, hi: int)
    ensures Shape(h, lo, hi) ==> |h.free| == CLASSES
  {
    Nodes(h) && Pages(h, lo, hi) && Split(h) && Live(h)
  }

  /** The indices of the free blocks of arena a. */
  ghost function FreeSet(h: Heap, a: int): (s: set<int>)
    requires |h.free| == CLASSES && a in h.kinds && 0 <= h.kinds[a] < CLASSES
  {
    set i | 0 <= i < Blocks(h.kinds[a]) && Block(a, h.kinds[a], i) in h.free[h.kinds[a]]
  }

  /** Between calls no arena is all free: its page would have been given back. */
  ghost predicate Partial(h: Heap)
    requires |h.free| == CLASSES
  {
    forall a :: a in h.kinds && 0 <= h.kinds[a] < CLASSES ==> |FreeSet(h, a)| < Blocks(h.kinds[a])
  }

  ghost predicate HasWords(w: Words, lo: int, hi: int) {
    forall v :: lo <= v < hi && v % 4 == 0 ==> v in w
  }

  /** Descriptor k: block_size, blocks_per_arena and the free list. */
  ghost predicate DescStored(w: Words, descs: int, h: Heap, k: int)
    requires |h.free| == CLASSES && 0 <= k < CLASSES
  {
    && Desc(descs, k) in w && w[Desc(descs, k)] == BlockSize(k)
    && Desc(descs, k) + 4 in w && w[Desc(descs, k) + 4] == Blocks(k)
    && IsList(w, FreeList(descs, k), h.free[k])
  }

  ghost predicate HeaderStored(w: Words, a: int, desc: int, cnt: int, large: int) {
    && a in w && w[a] == desc && a + 4 in w && w[a + 4] == cnt && a + 8 in w && w[a + 8] == large
  }

  /** What memory holds for h: the descriptors, and every arena's header with the number of
      its free blocks in cnt. */
  ghost predicate Stored(w: Words, descs: int, h: Heap)
    requires |h.free| == CLASSES
  {
    && (forall k :: 0 <= k < CLASSES ==> DescStored(w, descs, h, k))
    && (forall a :: a in h.kinds && 0 <= h.kinds[a] < CLASSES ==>
      HasWords(w, a, a + 0x1000) && HeaderStored(w, a, Desc(descs, h.kinds[a]), |FreeSet(h, a)|, 0))
    && (forall a :: a in h.large ==>
      HasWords(w, a, a + 0x1000 * h.large[a]) && HeaderStored(w, a, 0, h.large[a], 1))
  }

  /** The descriptors lie outside the pages the allocator hands out. */
  predicate Placed(descs: int, lo: int, hi: int) {
    descs % 4 == 0 && lo % 0x1000 == 0 && (descs + 24 * CLASSES <= lo || hi <= descs)
  }

  ghost predicate HeapInv(w: Words, descs: int, h: Heap, lo: int, hi: int) {
    Placed(descs, lo, hi) && Shape(h, lo, hi) && Stored(w, descs, h) && Partial(h)
  }

  lemma BlockRegion(h: Heap, k: int, e: int, lo: int, hi: int)
    requires Pages(h, lo, hi) && IsBlock(h, k, e)
    ensures var a := ArenaOf(e);
      && a % 0x1000 == 0 && 0 <= k < CLASSES && lo <= a && a + 0x1000 <= hi
      && a + HEADER <= e && e + BlockSize(k) <= a + 0x1000 && BlockSize(k) >= 16 && e % 4 == 0
    ensures IsSmall(h, e) && End(h, e) == e + BlockSize(k)
  {
    hide Off, Index, BlockSize, Blocks, ArenaOf;
    var a := ArenaOf(e);
    BlockPlace(a, k, Index(k, e - a));
  }

  lemma BlockPair(h: Heap, k: int, e: int, k': int, e': int, lo: int, hi: int)
    requires Pages(h, lo, hi) && IsBlock(h, k, e) && IsBlock(h, k', e') && e != e'
    ensures Disjoint(e, e + BlockSize(k), e', e' + BlockSize(k'))
  {
    hide Off, Index, BlockSize, Blocks, ArenaOf;
    BlockRegion(h, k, e, lo, hi);
    BlockRegion(h, k', e', lo, hi);
    var a := ArenaOf(e);
    if ArenaOf(e') == a {
      var i, j := Index(k, e - a), Index(k, e' - a);
      if i < j { BlocksApart(k, i, j); }
      if j < i { BlocksApart(k, j, i); }
    }
  }

  lemma LiveBounds(h: Heap, lo: int, hi: int, p: int)
    requires Shape(h, lo, hi) && p in h.live
    ensures IsSmall(h, p) || IsLarge(h, p)
    ensures lo <= p && 0 <= h.live[p] && p + h.live[p] <= End(h, p) <= hi && p % 4 == 0
    ensures IsSmall(h, p) ==> ArenaOf(p) + HEADER <= p && End(h, p) <= ArenaOf(p) + 0x1000
    ensures IsLarge(h, p) ==> !IsSmall(h, p) && End(h, p) == p - HEADER + 0x1000 * h.large[p - HEADER]
  {
    hide Off, Index, BlockSize, Blocks, Split, Nodes, ArenaOf;
    if IsSmall(h, p) { BlockRegion(h, h.kinds[ArenaOf(p)], p, lo, hi); }
  }

  lemma LivePair(h: Heap, lo: int, hi: int, p: int, q: int)
    requires Shape(h, lo, hi) && p in h.live && q in h.live && p != q
    ensures (IsSmall(h, p) || IsLarge(h, p)) && (IsSmall(h, q) || IsLarge(h, q))
    ensures Disjoint(p, End(h, p), q, End(h, q))
  {
    hide Off, Index, BlockSize, Blocks, Split, Nodes, IsBlock, ArenaOf;
    LiveBounds(h, lo, hi, p);
    LiveBounds(h, lo, hi, q);
    if IsSmall(h, p) && IsSmall(h, q) {
      BlockPair(h, h.kinds[ArenaOf(p)], p, h.kinds[ArenaOf(q)], q, lo, hi);
    }
  }

  /** A live block is no list node, and overlaps none. */
  lemma LiveNode(h: Heap, lo: int, hi: int, p: int, k: int, e: int)
    requires Shape(h, lo, hi) && p in h.live && 0 <= k < CLASSES && e in h.free[k]
    ensures IsSmall(h, p) || IsLarge(h, p)
    ensures Disjoint(p, End(h, p), e, e + 8)
  {
    hide Off, Index, BlockSize, Blocks, ArenaOf;
    LiveBounds(h, lo, hi, p);
    BlockRegion(h, k, e, lo, hi);
    if IsSmall(h, p) {
      var a := ArenaOf(e);
      assert Block(a, h.kinds[a], Index(k, e - a)) == e;
      BlockPair(h, h.kinds[ArenaOf(p)], p, k, e, lo, hi);
    }
  }

  lemma LiveHeaders(h: Heap, lo: int, hi: int, p: int, a: int)
    requires Shape(h, lo, hi) && p in h.live && (a in h.kinds || a in h.large)
    ensures IsSmall(h, p) || IsLarge(h, p)
    ensures Disjoint(p, End(h, p), a, a + HEADER)
  {
    hide Off, Index, BlockSize, Blocks, Split, Nodes, IsBlock, ArenaOf;
    LiveBounds(h, lo, hi, p);
  }

  lemma LiveStored(w: Words, descs: int, h: Heap, lo: int, hi: int, p: int)
    requires Shape(h, lo, hi) && Stored(w, descs, h) && p in h.live
    ensures IsSmall(h, p) || IsLarge(h, p)
    ensures HasWords(w, p, End(h, p))
  {
    hide Off, Index, BlockSize, Blocks, Split, Nodes, IsBlock, DescStored, ArenaOf;
    LiveBounds(h, lo, hi, p);
  }

  /** Live regions are pairwise disjoint, hold the requested size, and miss every header,
      every free-list node and the descriptors. */
  lemma LiveRegions(w: Words, descs: int, h: Heap, lo: int, hi: int, p: int)
    requires Placed(descs, lo, hi) && Shape(h, lo, hi) && Stored(w, descs, h) && p in h.live
    ensures IsSmall(h, p) || IsLarge(h, p)
    ensures lo <= p && p + h.live[p] <= End(h, p) <= hi && HasWords(w, p, End(h, p))
    ensures forall q :: q in h.live && q != p ==>
      (IsSmall(h, q) || IsLarge(h, q)) && Disjoint(p, End(h, p), q, End(h, q))
    ensures forall a :: a in h.kinds || a in h.large ==> Disjoint(p, End(h, p), a, a + HEADER)
    ensures forall k, e :: 0 <= k < CLASSES && e in h.free[k] ==> Disjoint(p, End(h, p), e, e + 8)
    ensures Disjoint(p, End(h, p), descs, descs + 24 * CLASSES)
  {
    hide IsSmall, IsLarge, Shape, Stored, Partial, HasWords, End, FreeSet, Live, Pages, Split;
    LiveBounds(h, lo, hi, p);
    LiveStored(w, descs, h, lo, hi, p);
    forall q | q in h.live && q != p
      ensures (IsSmall(h, q) || IsLarge(h, q)) && Disjoint(p, End(h, p), q, End(h, q))
    {
      LivePair(h, lo, hi, p, q);
    }
    forall a | a in h.kinds || a in h.large ensures Disjoint(p, End(h, p), a, a + HEADER) {
      LiveHeaders(h, lo, hi, p, a);
    }
    forall k, e | 0 <= k < CLASSES && e in h.free[k] ensures Disjoint(p, End(h, p), e, e + 8) {
      LiveNode(h, lo, hi, p, k, e);
    }
  }
}
