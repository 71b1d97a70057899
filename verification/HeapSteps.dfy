/** What the stores of sys_malloc and sys_free do to the allocator's account of memory. */
module HeapSteps {
  import opened Views
  import opened Lists
  import opened Heaps

  datatype MaybeBlock = NoBlock | TheBlock(b: int)

  /** Words an operation on class k may change: the list's sentinels and nodes, and, when it is
      about block b, the block and its arena's cnt. */
  ghost predicate Touched(descs: int, h: Heap, k: int, b: MaybeBlock, v: int)
    requires |h.free| == CLASSES && 0 <= k < CLASSES
  {
    || FreeList(descs, k) <= v < FreeList(descs, k) + 16
    || (exists e :: e in h.free[k] && e <= v < e + 8)
    || (b.TheBlock? && (b.b <= v < b.b + BlockSize(k) || v == ArenaOf(b.b) + 4))
  }

  ghost predicate OnlyTouched(w: Words, w': Words, descs: int, h: Heap, k: int, b: MaybeBlock)
    requires |h.free| == CLASSES && 0 <= k < CLASSES
  {
    forall v :: v in w ==> v in w' && (w'[v] == w[v] || Touched(descs, h, k, b, v))
  }

  /** A descriptor depends on its own 24 bytes and the nodes of its list. */
  lemma DescKept(w: Words, w': Words, descs: int, h: Heap, k: int)
    requires |h.free| == CLASSES && 0 <= k < CLASSES && DescStored(w, descs, h, k)
    requires forall v :: v in w && Desc(descs, k) <= v < Desc(descs, k) + 24 ==> v in w' && w'[v] == w[v]
    requires forall e, v :: e in h.free[k] && e <= v < e + 8 && v in w ==> v in w' && w'[v] == w[v]
    ensures DescStored(w', descs, h, k)
  {
    var L := FreeList(descs, k);
    var c := Chain(L, h.free[k]);
    forall v | v in w && WordOf(c, v) ensures v in w' && w'[v] == w[v] {
      var i :| 0 <= i < |c| && (v == c[i] || v == c[i] + 4);
      if 0 < i < |c| - 1 {
        assert c[i] == h.free[k][i - 1];
        assert c[i] in h.free[k];
      } else {
        assert c[i] == L || c[i] == L + 8;
      }
    }
    ListFrame(w, w', L, h.free[k]);
  }

  /** Where the words of block b are. */
  lemma InBlock(h: Heap, lo: int, hi: int, k: int, b: int, v: int)
    requires Pages(h, lo, hi) && IsBlock(h, k, b) && b <= v < b + BlockSize(k)
    ensures ArenaOf(v) == ArenaOf(b) && ArenaOf(b) + HEADER <= v && lo <= v < hi && BlockSize(k) >= 16
    ensures ArenaOf(b) in h.kinds && h.kinds[ArenaOf(b)] == k
  {
    hide Off, Index, BlockSize, Blocks, ArenaOf;
    BlockRegion(h, k, b, lo, hi);
    InPage(ArenaOf(b), v - ArenaOf(b));
  }

  /** v is a word of a block of class k, or the cnt of b's arena. */
  predicate InClass(h: Heap, lo: int, hi: int, k: int, b: MaybeBlock, v: int) {
    && ArenaOf(v) in h.kinds && h.kinds[ArenaOf(v)] == k && lo <= v < hi
    && (ArenaOf(v) + HEADER <= v || (b.TheBlock? && ArenaOf(v) == ArenaOf(b.b) && v == ArenaOf(v) + 4))
  }

  lemma TouchedPlace(descs: int, h: Heap, lo: int, hi: int, k: int, b: MaybeBlock, v: int)
    requires Shape(h, lo, hi) && 0 <= k < CLASSES && Touched(descs, h, k, b, v)
    requires b.TheBlock? ==> IsBlock(h, k, b.b)
    ensures FreeList(descs, k) <= v < FreeList(descs, k) + 16 || InClass(h, lo, hi, k, b, v)
  {
    hide Off, Index, BlockSize, Blocks, Split, Live, IsBlock, Pages, ArenaOf;
    if e :| e in h.free[k] && e <= v < e + 8 {
      BlockBig(k);
      InBlock(h, lo, hi, k, e, v);
    } else if b.TheBlock? && b.b <= v < b.b + BlockSize(k) {
      InBlock(h, lo, hi, k, b.b, v);
    } else if b.TheBlock? && v == ArenaOf(b.b) + 4 {
      BlockBig(k);
      InBlock(h, lo, hi, k, b.b, b.b);
      ArenaCnt(h, lo, hi, ArenaOf(b.b));
    }
  }

  lemma BlockBig(k: int)
    ensures BlockSize(k) >= 16 && Blocks(k) >= 3
  {
  }

  lemma ArenaCnt(h: Heap, lo: int, hi: int, a: int)
    requires Pages(h, lo, hi) && a in h.kinds
    ensures ArenaOf(a + 4) == a && lo <= a + 4 < hi
  {
  }

  /** What class k touches is no node or descriptor of another class. */
  lemma TouchedNodes(descs: int, h: Heap, lo: int, hi: int, k: int, b: MaybeBlock, v: int, k': int)
    requires Shape(h, lo, hi) && Placed(descs, lo, hi) && 0 <= k < CLASSES && Touched(descs, h, k, b, v)
    requires b.TheBlock? ==> IsBlock(h, k, b.b)
    requires 0 <= k' < CLASSES
    ensures k' != k ==> !(Desc(descs, k') <= v < Desc(descs, k') + 24)
    ensures v != Desc(descs, k) && v != Desc(descs, k) + 4
    ensures k' != k ==> forall e :: e in h.free[k'] ==> !(e <= v < e + 8)
  {
    hide Off, Index, BlockSize, Blocks, Split, Live, IsBlock, Pages, Touched, ArenaOf;
    TouchedPlace(descs, h, lo, hi, k, b, v);
    forall e | e in h.free[k'] && e <= v < e + 8 ensures k' == k {
      BlockBig(k');
      InBlock(h, lo, hi, k', e, v);
    }
  }

  /** What class k touches is no header, but for the cnt of b's arena. */
  lemma TouchedHeaders(descs: int, h: Heap, lo: int, hi: int, k: int, b: MaybeBlock, v: int)
    requires Shape(h, lo, hi) && Placed(descs, lo, hi) && 0 <= k < CLASSES && Touched(descs, h, k, b, v)
    requires b.TheBlock? ==> IsBlock(h, k, b.b)
    ensures forall a :: a in h.kinds && a <= v < a + HEADER ==> b.TheBlock? && a == ArenaOf(b.b) && v == a + 4
    ensures forall a :: a in h.large ==> !(a <= v < a + HEADER)
  {
    hide Off, Index, BlockSize, Blocks, Split, Live, IsBlock, Nodes, Touched, ArenaOf;
    TouchedPlace(descs, h, lo, hi, k, b, v);
    forall a | (a in h.kinds || a in h.large) && a <= v < a + HEADER ensures ArenaOf(v) == a {
      InPage(a, v - a);
    }
  }

  ghost predicate SameWord(w: Words, w': Words, v: int) { v in w && v in w' && w'[v] == w[v] }

  /** Everything stored but the list of class k and the cnt of b's arena survives. */
  ghost predicate Kept(w: Words, w': Words, descs: int, h: Heap, k: int, b: MaybeBlock)
    requires |h.free| == CLASSES && 0 <= k < CLASSES
  {
    && (forall j :: 0 <= j < CLASSES && j != k ==> DescStored(w', descs, h, j))
    && Desc(descs, k) in w' && w'[Desc(descs, k)] == BlockSize(k)
    && Desc(descs, k) + 4 in w' && w'[Desc(descs, k) + 4] == Blocks(k)
    && (forall a :: a in h.kinds ==> HasWords(w', a, a + 0x1000) && SameWord(w, w', a) && SameWord(w, w', a + 8))
    && (forall a :: a in h.kinds && !(b.TheBlock? && a == ArenaOf(b.b)) ==> SameWord(w, w', a + 4))
    && (forall a :: a in h.large ==>
      HasWords(w', a, a + 0x1000 * h.large[a]) && HeaderStored(w', a, 0, h.large[a], 1))
  }

  lemma OthersKept(w: Words, w': Words, descs: int, h: Heap, lo: int, hi: int, k: int, b: MaybeBlock)
    requires Shape(h, lo, hi) && Placed(descs, lo, hi) && Stored(w, descs, h) && 0 <= k < CLASSES
    requires OnlyTouched(w, w', descs, h, k, b) && (b.TheBlock? ==> IsBlock(h, k, b.b))
    ensures Kept(w, w', descs, h, k, b)
  {
    hide Touched, Off, Index, BlockSize, Blocks, Split, Live, Nodes, IsList, FreeSet, IsBlock, ArenaOf;
    assert DescStored(w, descs, h, k);
    forall j | 0 <= j < CLASSES && j != k ensures DescStored(w', descs, h, j) {
      forall v | v in w && Touched(descs, h, k, b, v)
        ensures !(Desc(descs, j) <= v < Desc(descs, j) + 24) && forall e :: e in h.free[j] ==> !(e <= v < e + 8)
      {
        TouchedNodes(descs, h, lo, hi, k, b, v, j);
      }
      DescKept(w, w', descs, h, j);
    }
    forall v | v in w && Touched(descs, h, k, b, v)
      ensures v != Desc(descs, k) && v != Desc(descs, k) + 4
      ensures forall a :: a in h.kinds && a <= v < a + HEADER ==> b.TheBlock? && a == ArenaOf(b.b) && v == a + 4
      ensures forall a :: a in h.large ==> !(a <= v < a + HEADER)
    {
      TouchedNodes(descs, h, lo, hi, k, b, v, k);
      TouchedHeaders(descs, h, lo, hi, k, b, v);
    }
  }

  /** Taking block e off the free list of its class takes its index from its arena's free set
      and changes no other. */
  lemma FreeSetDrops(h: Heap, h': Heap, lo: int, hi: int, k: int, e: int)
    requires Pages(h, lo, hi) && |h.free| == |h'.free| == CLASSES && 0 <= k < CLASSES && h'.kinds == h.kinds
    requires IsBlock(h, k, e) && e in h.free[k]
    requires forall x :: x in h'.free[k] <==> x in h.free[k] && x != e
    requires forall j :: 0 <= j < CLASSES && j != k ==> h'.free[j] == h.free[j]
    ensures forall a :: a in h.kinds && a != ArenaOf(e) ==> FreeSet(h', a) == FreeSet(h, a)
    ensures |FreeSet(h', ArenaOf(e))| == |FreeSet(h, ArenaOf(e))| - 1
  {
    hide Off, Index, BlockSize, Blocks, ArenaOf;
    forall a | a in h.kinds && a != ArenaOf(e) ensures FreeSet(h', a) == FreeSet(h, a) {
      forall i | 0 <= i < Blocks(h.kinds[a]) ensures Block(a, h.kinds[a], i) != e {
        BlockPlace(a, h.kinds[a], i);
      }
      assert forall i :: i in FreeSet(h', a) <==> i in FreeSet(h, a);
    }
    var a := ArenaOf(e);
    var n := Index(k, e - a);
    forall i | 0 <= i < Blocks(k) && Block(a, k, i) == e ensures i == n { BlockPlace(a, k, i); }
    assert n in FreeSet(h, a);
    assert forall i :: i in FreeSet(h', a) <==> i in FreeSet(h, a) - {n};
    assert FreeSet(h', a) == FreeSet(h, a) - {n};
  }

  lemma FreeSetBound(h: Heap, a: int)
    requires |h.free| == CLASSES && a in h.kinds && 0 <= h.kinds[a] < CLASSES
    ensures |FreeSet(h, a)| <= Blocks(h.kinds[a])
    ensures |FreeSet(h, a)| == Blocks(h.kinds[a]) ==>
      forall i :: 0 <= i < Blocks(h.kinds[a]) ==> Block(a, h.kinds[a], i) in h.free[h.kinds[a]]
  {
    hide Block, Blocks;
    var n := Blocks(h.kinds[a]);
    BlockBig(h.kinds[a]);
    SubsetCard(FreeSet(h, a), n);
    forall i | 0 <= i < n && |FreeSet(h, a)| == n ensures Block(a, h.kinds[a], i) in h.free[h.kinds[a]] {
      assert i in FreeSet(h, a);
    }
  }

  /** A set of indices below n has at most n members, and n only if it has them all. */
  lemma {:induction false} SubsetCard(s: set<int>, n: nat)
    requires forall i :: i in s ==> 0 <= i < n
    ensures |s| <= n
    ensures |s| == n ==> forall i :: 0 <= i < n ==> i in s
  {
    if n > 0 {
      var t := s - {n - 1};
      SubsetCard(t, n - 1);
      if n - 1 in s {
        assert forall i :: i in s <==> i in t + {n - 1};
        assert |s| == |t| + 1;
      } else {
        assert forall i :: i in s <==> i in t;
        assert s == t;
      }
    } else {
      assert forall i :: i in s <==> i in {};
      assert s == {};
    }
  }

  /** Every arena but a has a live block. */
  ghost predicate PartialBut(h: Heap, a: int)
    requires |h.free| == CLASSES
  {
    forall b :: b in h.kinds && b != a && 0 <= h.kinds[b] < CLASSES ==> |FreeSet(h, b)| < Blocks(h.kinds[b])
  }

  /** Headers after an operation on block e that keeps the arenas. */
  lemma HeadersStored(w: Words, w': Words, descs: int, h: Heap, h': Heap, lo: int, hi: int, k: int, e: int)
    requires Pages(h, lo, hi) && |h.free| == |h'.free| == CLASSES && 0 <= k < CLASSES
    requires h'.kinds == h.kinds && h'.large == h.large && ArenaOf(e) in h.kinds
    requires Stored(w, descs, h) && Kept(w, w', descs, h, k, TheBlock(e))
    requires forall a :: a in h.kinds && a != ArenaOf(e) ==> FreeSet(h', a) == FreeSet(h, a)
    requires ArenaOf(e) + 4 in w' && w'[ArenaOf(e) + 4] == |FreeSet(h', ArenaOf(e))|
    requires forall j :: 0 <= j < CLASSES ==> DescStored(w', descs, h', j)
    ensures Stored(w', descs, h')
  {
    hide FreeSet, DescStored, BlockSize, Blocks, ArenaOf;
    forall a | a in h'.kinds
      ensures HasWords(w', a, a + 0x1000)
      ensures HeaderStored(w', a, Desc(descs, h'.kinds[a]), |FreeSet(h', a)|, 0)
    {
      assert HeaderStored(w, a, Desc(descs, h.kinds[a]), |FreeSet(h, a)|, 0);
      assert SameWord(w, w', a) && SameWord(w, w', a + 8);
      if a != ArenaOf(e) { assert SameWord(w, w', a + 4); }
    }
  }

  // list_pop of a block, memset and --cnt.

  function Popped(h: Heap, k: int, e: int, rest: seq<int>, size: int): Heap
    requires |h.free| == CLASSES && 0 <= k < CLASSES
  {
    h.(free := h.free[k := rest], live := h.live[e := size])
  }

  lemma Tail(xs: seq<int>, e: int, rest: seq<int>)
    requires xs == [e] + rest && forall i, j :: 0 <= i < j < |xs| ==> xs[i] != xs[j]
    ensures forall i, j :: 0 <= i < j < |rest| ==> rest[i] != rest[j]
    ensures forall x :: x in rest <==> x in xs && x != e
  {
    assert xs[0] == e;
    assert forall i :: 0 <= i < |rest| ==> rest[i] == xs[i + 1];
  }

  lemma SameBlocks(h: Heap, h': Heap)
    requires h'.kinds == h.kinds
    ensures forall k, e :: IsBlock(h', k, e) <==> IsBlock(h, k, e)
    ensures forall p :: IsSmall(h', p) <==> IsSmall(h, p)
  {
    hide Off, Index, BlockSize, Blocks, ArenaOf;
  }

  lemma NodeIsSmall(h: Heap, lo: int, hi: int, k: int, e: int)
    requires Pages(h, lo, hi) && IsBlock(h, k, e)
    ensures IsSmall(h, e) && h.kinds[ArenaOf(e)] == k && ArenaOf(e) in h.kinds
    ensures ArenaOf(e) + HEADER <= e && e < ArenaOf(e) + 0x1000
    ensures Block(ArenaOf(e), k, Index(k, e - ArenaOf(e))) == e && 0 <= Index(k, e - ArenaOf(e)) < Blocks(k)
  {
    hide Off, Index, BlockSize, Blocks, ArenaOf;
    BlockRegion(h, k, e, lo, hi);
  }

  lemma PopShape(h: Heap, lo: int, hi: int, k: int, e: int, rest: seq<int>, size: int)
    requires Shape(h, lo, hi) && 0 <= k < CLASSES && h.free[k] == [e] + rest && 0 <= size <= BlockSize(k)
    ensures Shape(Popped(h, k, e, rest, size), lo, hi)
    ensures forall x :: x in rest <==> x in h.free[k] && x != e
  {
    hide Off, Index, BlockSize, Blocks, IsBlock, IsSmall, ArenaOf;
    var h' := Popped(h, k, e, rest, size);
    SameBlocks(h, h');
    Tail(h.free[k], e, rest);
    assert e in h.free[k];
    NodeIsSmall(h, lo, hi, k, e);
    assert Nodes(h');
    assert Pages(h', lo, hi);
    assert Live(h');
    forall a, i | a in h'.kinds && 0 <= i < Blocks(h'.kinds[a])
      ensures Block(a, h'.kinds[a], i) in h'.live <==> Block(a, h'.kinds[a], i) !in h'.free[h'.kinds[a]]
    {
      BlockPlace(a, h.kinds[a], i);
    }
  }

  lemma PopStep(w: Words, w': Words, descs: int, h: Heap, lo: int, hi: int, k: int, e: int, rest: seq<int>, size: int)
    requires Placed(descs, lo, hi) && Shape(h, lo, hi) && Stored(w, descs, h) && PartialBut(h, ArenaOf(e))
    requires 0 <= k < CLASSES && h.free[k] == [e] + rest && 0 <= size <= BlockSize(k)
    requires OnlyTouched(w, w', descs, h, k, TheBlock(e)) && IsList(w', FreeList(descs, k), rest)
    requires ArenaOf(e) + 4 in w && ArenaOf(e) + 4 in w' && w'[ArenaOf(e) + 4] == w[ArenaOf(e) + 4] - 1
    ensures HeapInv(w', descs, Popped(h, k, e, rest, size), lo, hi)
  {
    hide Off, Index, BlockSize, Blocks, IsList, Touched, FreeSet, Split, Live, Block, IsBlock, ArenaOf;
    var h' := Popped(h, k, e, rest, size);
    assert e in h.free[k];
    PopShape(h, lo, hi, k, e, rest, size);
    OthersKept(w, w', descs, h, lo, hi, k, TheBlock(e));
    FreeSetDrops(h, h', lo, hi, k, e);
    BlockRegion(h, k, e, lo, hi);
    FreeSetBound(h, ArenaOf(e));
    SameDescs(w', descs, h, h', k);
    forall a | a in h'.kinds ensures |FreeSet(h', a)| < Blocks(h'.kinds[a]) {
      assert a != ArenaOf(e) ==> FreeSet(h', a) == FreeSet(h, a);
    }
    HeadersStored(w, w', descs, h, h', lo, hi, k, e);
  }

  lemma SameDescs(w: Words, descs: int, h: Heap, h': Heap, k: int)
    requires |h.free| == |h'.free| == CLASSES && 0 <= k < CLASSES
    requires forall j :: 0 <= j < CLASSES && j != k ==> h'.free[j] == h.free[j] && DescStored(w, descs, h, j)
    requires Desc(descs, k) in w && w[Desc(descs, k)] == BlockSize(k)
    requires Desc(descs, k) + 4 in w && w[Desc(descs, k) + 4] == Blocks(k)
    requires IsList(w, FreeList(descs, k), h'.free[k])
    ensures forall j :: 0 <= j < CLASSES ==> DescStored(w, descs, h', j)
  {
    hide IsList, Blocks, BlockSize, ArenaOf;
  }

  // list_append of a block and ++cnt.

  function Pushed(h: Heap, k: int, e: int): Heap
    requires |h.free| == CLASSES && 0 <= k < CLASSES
  {
    h.(free := h.free[k := h.free[k] + [e]], live := h.live - {e})
  }

  lemma PushShape(h: Heap, lo: int, hi: int, k: int, e: int)
    requires Shape(h, lo, hi) && e in h.live && IsBlock(h, k, e) && 0 <= k < CLASSES
    ensures e !in h.free[k] && Shape(Pushed(h, k, e), lo, hi)
  {
    hide Off, Index, BlockSize, Blocks, IsBlock, IsSmall, ArenaOf;
    var h' := Pushed(h, k, e);
    SameBlocks(h, h');
    NodeIsSmall(h, lo, hi, k, e);
    assert Nodes(h');
    forall a | a in h.large ensures a + HEADER != e {
      assert a + HEADER == e ==> ArenaOf(e) == a;
    }
    assert Pages(h', lo, hi);
    assert Live(h');
    forall a, i | a in h'.kinds && 0 <= i < Blocks(h'.kinds[a])
      ensures Block(a, h'.kinds[a], i) in h'.live <==> Block(a, h'.kinds[a], i) !in h'.free[h'.kinds[a]]
    {
      BlockPlace(a, h.kinds[a], i);
    }
  }

  lemma PushStep(w: Words, w': Words, descs: int, h: Heap, lo: int, hi: int, k: int, e: int)
    requires HeapInv(w, descs, h, lo, hi) && e in h.live && IsBlock(h, k, e) && 0 <= k < CLASSES
    requires OnlyTouched(w, w', descs, h, k, TheBlock(e)) && IsList(w', FreeList(descs, k), h.free[k] + [e])
    requires ArenaOf(e) + 4 in w && ArenaOf(e) + 4 in w' && w'[ArenaOf(e) + 4] == w[ArenaOf(e) + 4] + 1
    ensures Shape(Pushed(h, k, e), lo, hi) && Stored(w', descs, Pushed(h, k, e))
    ensures PartialBut(Pushed(h, k, e), ArenaOf(e))
  {
    hide Off, Index, BlockSize, Blocks, IsList, Touched, FreeSet, Split, Live, Block, ArenaOf;
    var h' := Pushed(h, k, e);
    PushShape(h, lo, hi, k, e);
    OthersKept(w, w', descs, h, lo, hi, k, TheBlock(e));
    BlockRegion(h, k, e, lo, hi);
    assert e in h'.free[k];
    FreeSetDrops(h', h, lo, hi, k, e);
    SameDescs(w', descs, h, h', k);
    HeadersStored(w, w', descs, h, h', lo, hi, k, e);
    forall a | a in h'.kinds && a != ArenaOf(e) ensures |FreeSet(h', a)| < Blocks(h'.kinds[a]) {
      assert FreeSet(h, a) == FreeSet(h', a);
    }
  }

  // Pages that come and go.

  /** A word the allocator relies on. */
  ghost predicate Essential(descs: int, h: Heap, v: int)
    requires |h.free| == CLASSES
  {
    || descs <= v < descs + 24 * CLASSES
    || (exists a :: (a in h.kinds || a in h.large) && a <= v < a + HEADER)
    || (exists k, e :: 0 <= k < CLASSES && e in h.free[k] && e <= v < e + 8)
  }

  lemma CarryDescs(w: Words, w': Words, descs: int, h: Heap)
    requires |h.free| == CLASSES && forall k :: 0 <= k < CLASSES ==> DescStored(w, descs, h, k)
    requires forall v :: v in w && Essential(descs, h, v) ==> v in w' && w'[v] == w[v]
    ensures forall k :: 0 <= k < CLASSES ==> DescStored(w', descs, h, k)
  {
    hide DescStored;
    forall k | 0 <= k < CLASSES ensures DescStored(w', descs, h, k) {
      forall e, v | e in h.free[k] && e <= v < e + 8 && v in w ensures v in w' && w'[v] == w[v] {
        assert Essential(descs, h, v);
      }
      DescKept(w, w', descs, h, k);
    }
  }

  /** What is stored depends on the words the allocator relies on. */
  lemma Carry(w: Words, w': Words, descs: int, h: Heap, lo: int, hi: int)
    requires Shape(h, lo, hi) && Stored(w, descs, h)
    requires forall v :: v in w && Essential(descs, h, v) ==> v in w' && w'[v] == w[v]
    requires forall a :: a in h.kinds ==> HasWords(w', a, a + 0x1000)
    requires forall a :: a in h.large ==> HasWords(w', a, a + 0x1000 * h.large[a])
    ensures Stored(w', descs, h)
  {
    hide FreeSet, DescStored, Split, Nodes, Live, BlockSize, Blocks, HasWords;
    CarryDescs(w, w', descs, h);
    forall a, v | (a in h.kinds || a in h.large) && a <= v < a + HEADER && v in w ensures v in w' && w'[v] == w[v] {
      assert Essential(descs, h, v);
    }
    forall a | a in h.kinds ensures HeaderStored(w', a, Desc(descs, h.kinds[a]), |FreeSet(h, a)|, 0) {
      assert HeaderStored(w, a, Desc(descs, h.kinds[a]), |FreeSet(h, a)|, 0);
    }
    forall a | a in h.large ensures HeaderStored(w', a, 0, h.large[a], 1) {
      assert HeaderStored(w, a, 0, h.large[a], 1);
    }
  }

  /** v is a word of the descriptors or of a page that h holds. */
  ghost predicate Private(descs: int, h: Heap, v: int) {
    descs <= v < descs + 24 * CLASSES || HoldsPage(h, ArenaOf(v))
  }

  lemma PageIsPrivate(descs: int, h: Heap, lo: int, hi: int, a: int, v: int)
    requires Pages(h, lo, hi)
    requires (a in h.kinds && a <= v < a + 0x1000) || (a in h.large && a <= v < a + 0x1000 * h.large[a])
    ensures Private(descs, h, v)
  {
    assert ArenaOf(v) % 0x1000 == 0;
  }

  lemma EssentialIsPrivate(descs: int, h: Heap, lo: int, hi: int, v: int)
    requires Shape(h, lo, hi) && Essential(descs, h, v)
    ensures Private(descs, h, v)
  {
    hide Off, Index, BlockSize, Blocks, IsSmall, Live, Split, Pages, ArenaOf, HoldsPage;
    if descs <= v < descs + 24 * CLASSES {
    } else if a :| (a in h.kinds || a in h.large) && a <= v < a + HEADER {
      HeaderInPage(h, lo, hi, a, v);
      PageIsPrivate(descs, h, lo, hi, a, v);
    } else {
      var k, e :| 0 <= k < CLASSES && e in h.free[k] && e <= v < e + 8;
      BlockBig(k);
      BlockRegion(h, k, e, lo, hi);
      PageIsPrivate(descs, h, lo, hi, ArenaOf(e), v);
    }
  }

  lemma HeaderInPage(h: Heap, lo: int, hi: int, a: int, v: int)
    requires Pages(h, lo, hi) && (a in h.kinds || a in h.large) && a <= v < a + HEADER
    ensures (a in h.kinds && v < a + 0x1000) || (a in h.large && v < a + 0x1000 * h.large[a])
  {
  }

  /** The invariant depends on the words of the descriptors and of the heap's pages. */
  lemma HeapFrame(w: Words, w': Words, descs: int, h: Heap, lo: int, hi: int)
    requires HeapInv(w, descs, h, lo, hi) && forall v :: v in w && Private(descs, h, v) ==> v in w' && w'[v] == w[v]
    ensures HeapInv(w', descs, h, lo, hi)
  {
    hide Stored, Partial, Nodes, Split, Live, Private, Essential;
    forall v | Essential(descs, h, v) ensures Private(descs, h, v) { EssentialIsPrivate(descs, h, lo, hi, v); }
    StoredHasWords(w, descs, h, lo, hi);
    forall a, v | a in h.kinds && a <= v < a + 0x1000 && v % 4 == 0 ensures v in w' {
      PageIsPrivate(descs, h, lo, hi, a, v);
    }
    forall a, v | a in h.large && a <= v < a + 0x1000 * h.large[a] && v % 4 == 0 ensures v in w' {
      PageIsPrivate(descs, h, lo, hi, a, v);
    }
    Carry(w, w', descs, h, lo, hi);
  }

  /** A client's write inside a live region disturbs nothing the allocator relies on. */
  lemma ClientWriteStep(w: Words, descs: int, h: Heap, lo: int, hi: int, p: int, v: int, x: int)
    requires HeapInv(w, descs, h, lo, hi) && p in h.live && (IsSmall(h, p) || IsLarge(h, p))
    requires p <= v < End(h, p) && v in w
    ensures HeapInv(w[v := x], descs, h, lo, hi)
  {
    hide Stored, Partial, Shape, IsSmall, IsLarge, End;
    LiveRegions(w, descs, h, lo, hi, p);
    StoredHasWords(w, descs, h, lo, hi);
    Carry(w, w[v := x], descs, h, lo, hi);
  }

  lemma StoredHasWords(w: Words, descs: int, h: Heap, lo: int, hi: int)
    requires Shape(h, lo, hi) && Stored(w, descs, h)
    ensures forall a :: a in h.kinds ==> HasWords(w, a, a + 0x1000)
    ensures forall a :: a in h.large ==> HasWords(w, a, a + 0x1000 * h.large[a])
  {
    hide FreeSet, DescStored, Split, Nodes, Live, HasWords;
  }

  /** Pages that were not mapped overlap no arena and no large allocation. */
  lemma FreshPages(w: Words, w': Words, descs: int, h: Heap, lo: int, hi: int, a: int, n: int)
    requires Shape(h, lo, hi) && Stored(w, descs, h) && Extends(w, w', a, a + 0x1000 * n) && a % 0x1000 == 0 && n >= 1
    ensures forall b :: b in h.kinds ==> Disjoint(a, a + 0x1000 * n, b, b + 0x1000)
    ensures forall b :: b in h.large ==> Disjoint(a, a + 0x1000 * n, b, b + 0x1000 * h.large[b])
  {
    hide FreeSet, DescStored, Split, Nodes, Live;
    StoredHasWords(w, descs, h, lo, hi);
    forall b | b in h.kinds ensures Disjoint(a, a + 0x1000 * n, b, b + 0x1000) {
      Overlap(w, w', a, n, b, 1);
    }
    forall b | b in h.large ensures Disjoint(a, a + 0x1000 * n, b, b + 0x1000 * h.large[b]) {
      Overlap(w, w', a, n, b, h.large[b]);
    }
  }

  lemma Overlap(w: Words, w': Words, a: int, n: int, b: int, m: int)
    requires Extends(w, w', a, a + 0x1000 * n) && n >= 1 && m >= 1 && a % 0x1000 == 0 && b % 0x1000 == 0
    requires HasWords(w, b, b + 0x1000 * m)
    ensures Disjoint(a, a + 0x1000 * n, b, b + 0x1000 * m)
  {
    hide Extends, HasWords;
    var v := if a < b then b else a;
    PageWord(v);
    InBoth(w, w', a, a + 0x1000 * n, b, b + 0x1000 * m, v);
  }

  lemma PageWord(v: int)
    requires v % 0x1000 == 0
    ensures v % 4 == 0
  {
  }

  lemma InBoth(w: Words, w': Words, lo1: int, hi1: int, lo2: int, hi2: int, v: int)
    requires Extends(w, w', lo1, hi1) && HasWords(w, lo2, hi2) && v % 4 == 0
    ensures !(lo1 <= v < hi1 && lo2 <= v < hi2)
  {
    assert lo2 <= v < hi2 ==> v in w;
  }

  // A large allocation and its return.

  function LargeGot(h: Heap, a: int, n: int, size: int): Heap {
    h.(large := h.large[a := n], live := h.live[a + HEADER := size])
  }

  /** The first word after a page's header is no block of a small arena. */
  lemma NotABlock(h: Heap, lo: int, hi: int, a: int)
    requires Pages(h, lo, hi) && a % 0x1000 == 0 && a !in h.kinds
    ensures ArenaOf(a + HEADER) == a && !IsSmall(h, a + HEADER)
    ensures forall k, e :: IsBlock(h, k, e) ==> e != a + HEADER
    ensures forall b, i :: b in h.kinds && 0 <= i < Blocks(h.kinds[b]) ==> Block(b, h.kinds[b], i) != a + HEADER
  {
    hide Off, Index, BlockSize, Blocks, ArenaOf;
    InPage(a, HEADER);
    forall b, i | b in h.kinds && 0 <= i < Blocks(h.kinds[b]) ensures Block(b, h.kinds[b], i) != a + HEADER {
      BlockPlace(b, h.kinds[b], i);
    }
  }

  lemma ApartInsert(kinds: map<int, int>, large: map<int, int>, a: int, n: int)
    requires PagesApart(kinds, large)
    requires forall b :: b in kinds ==> Disjoint(a, a + 0x1000 * n, b, b + 0x1000)
    requires forall b :: b in large ==> Disjoint(a, a + 0x1000 * n, b, b + 0x1000 * large[b])
    ensures PagesApart(kinds, large[a := n])
  {
    var large' := large[a := n];
    forall b, c | b in large' && c in large' && b != c
      ensures Disjoint(b, b + 0x1000 * large'[b], c, c + 0x1000 * large'[c])
    {
      if b != a && c != a {
        assert Disjoint(b, b + 0x1000 * large[b], c, c + 0x1000 * large[c]);
      }
    }
  }

  lemma LargeGotPages(h: Heap, lo: int, hi: int, a: int, n: int, size: int)
    requires Pages(h, lo, hi) && n >= 1 && a % 0x1000 == 0 && lo <= a && a + 0x1000 * n <= hi
    requires forall b :: b in h.kinds ==> Disjoint(a, a + 0x1000 * n, b, b + 0x1000)
    requires forall b :: b in h.large ==> Disjoint(a, a + 0x1000 * n, b, b + 0x1000 * h.large[b])
    ensures Pages(LargeGot(h, a, n, size), lo, hi) && a !in h.kinds && a !in h.large
  {
    hide PagesApart;
    ApartInsert(h.kinds, h.large, a, n);
  }

  lemma LargeGotShape(h: Heap, lo: int, hi: int, a: int, n: int, size: int)
    requires Shape(h, lo, hi) && n >= 1 && a % 0x1000 == 0 && lo <= a && a + 0x1000 * n <= hi
    requires forall b :: b in h.kinds ==> Disjoint(a, a + 0x1000 * n, b, b + 0x1000)
    requires forall b :: b in h.large ==> Disjoint(a, a + 0x1000 * n, b, b + 0x1000 * h.large[b])
    requires 1024 < size && size + HEADER <= 0x1000 * n
    ensures Shape(LargeGot(h, a, n, size), lo, hi) && a !in h.large
  {
    hide Off, Index, BlockSize, Blocks, IsBlock, IsSmall, Pages, Disjoint, ArenaOf;
    var h' := LargeGot(h, a, n, size);
    SameBlocks(h, h');
    LargeGotPages(h, lo, hi, a, n, size);
    NotABlock(h, lo, hi, a);
  }

  lemma SameFreeSets(h: Heap, h': Heap)
    requires h'.free == h.free && |h.free| == CLASSES
    ensures forall a :: a in h.kinds && a in h'.kinds && h'.kinds[a] == h.kinds[a] && 0 <= h.kinds[a] < CLASSES ==>
      FreeSet(h', a) == FreeSet(h, a)
  {
    forall a | a in h.kinds && a in h'.kinds && h'.kinds[a] == h.kinds[a] && 0 <= h.kinds[a] < CLASSES
      ensures FreeSet(h', a) == FreeSet(h, a)
    {
      assert forall i :: i in FreeSet(h', a) <==> i in FreeSet(h, a);
    }
  }

  lemma SameStored(w: Words, descs: int, h: Heap, h': Heap)
    requires |h.free| == CLASSES && h'.free == h.free && h'.kinds == h.kinds && Stored(w, descs, h)
    requires forall a :: a in h'.large ==>
      if a in h.large then h'.large[a] == h.large[a]
      else HasWords(w, a, a + 0x1000 * h'.large[a]) && HeaderStored(w, a, 0, h'.large[a], 1)
    ensures Stored(w, descs, h')
    ensures Partial(h) ==> Partial(h')
  {
    hide FreeSet, IsList, HasWords, BlockSize, Blocks, ArenaOf;
    SameFreeSets(h, h');
    forall k | 0 <= k < CLASSES ensures DescStored(w, descs, h', k) {
      assert DescStored(w, descs, h, k);
    }
    forall a | a in h'.kinds && 0 <= h'.kinds[a] < CLASSES
      ensures HeaderStored(w, a, Desc(descs, h'.kinds[a]), |FreeSet(h', a)|, 0)
    {
      assert HeaderStored(w, a, Desc(descs, h.kinds[a]), |FreeSet(h, a)|, 0);
    }
  }

  lemma LargeGotStep(w: Words, w0: Words, w': Words, descs: int, h: Heap, lo: int, hi: int, a: int, n: int, size: int)
    requires HeapInv(w, descs, h, lo, hi) && Extends(w, w0, a, a + 0x1000 * n)
    requires n >= 1 && a % 0x1000 == 0 && lo <= a && a + 0x1000 * n <= hi && 1024 < size && size + HEADER <= 0x1000 * n
    requires forall v :: v in w ==> v in w' && w'[v] == w[v]
    requires HasWords(w', a, a + 0x1000 * n) && HeaderStored(w', a, 0, n, 1)
    ensures HeapInv(w', descs, LargeGot(h, a, n, size), lo, hi)
  {
    hide Shape, Essential, Stored, Partial, BlockSize, Blocks, HeaderStored, Extends, ArenaOf;
    var h' := LargeGot(h, a, n, size);
    FreshPages(w, w0, descs, h, lo, hi, a, n);
    LargeGotShape(h, lo, hi, a, n, size);
    StoredHasWords(w, descs, h, lo, hi);
    Carry(w, w', descs, h, lo, hi);
    SameStored(w', descs, h, h');
  }

  function LargeFreed(h: Heap, a: int): Heap {
    h.(large := h.large - {a}, live := h.live - {a + HEADER})
  }

  lemma LargeFreedShape(h: Heap, lo: int, hi: int, a: int)
    requires Shape(h, lo, hi) && a in h.large
    ensures Shape(LargeFreed(h, a), lo, hi)
    ensures forall b :: b in h.kinds ==> Disjoint(a, a + 0x1000 * h.large[a], b, b + 0x1000)
    ensures forall b :: b in LargeFreed(h, a).large ==>
      Disjoint(a, a + 0x1000 * h.large[a], b, b + 0x1000 * h.large[b])
    ensures lo <= a && a + 0x1000 * h.large[a] <= hi && h.large[a] >= 1
  {
    hide Off, Index, BlockSize, Blocks, IsBlock, IsSmall, ArenaOf;
    var h' := LargeFreed(h, a);
    SameBlocks(h, h');
    NotABlock(h, lo, hi, a);
  }

  /** No word the allocator relies on lies in pages that overlap none of its own. */
  lemma EssentialMisses(descs: int, h: Heap, lo: int, hi: int, a: int, n: int, v: int)
    requires Placed(descs, lo, hi) && Shape(h, lo, hi) && lo <= a && a + 0x1000 * n <= hi
    requires forall b :: b in h.kinds ==> Disjoint(a, a + 0x1000 * n, b, b + 0x1000)
    requires forall b :: b in h.large ==> Disjoint(a, a + 0x1000 * n, b, b + 0x1000 * h.large[b])
    requires Essential(descs, h, v)
    ensures !(a <= v < a + 0x1000 * n)
  {
    hide Off, Index, BlockSize, Blocks, IsBlock, IsSmall, Live, Split, PagesApart, ArenaOf;
    if k, e :| 0 <= k < CLASSES && e in h.free[k] && e <= v < e + 8 {
      NodeIsSmall(h, lo, hi, k, e);
      BlockBig(k);
      BlockRegion(h, k, e, lo, hi);
    }
  }

  /** Pages given back: what is left does not rely on them. */
  lemma Shrink(w: Words, w': Words, descs: int, h: Heap, lo: int, hi: int, a: int, n: int)
    requires Placed(descs, lo, hi) && Shape(h, lo, hi) && Stored(w, descs, h)
    requires Extends(w', w, a, a + 0x1000 * n) && lo <= a && a + 0x1000 * n <= hi
    requires forall b :: b in h.kinds ==> Disjoint(a, a + 0x1000 * n, b, b + 0x1000)
    requires forall b :: b in h.large ==> Disjoint(a, a + 0x1000 * n, b, b + 0x1000 * h.large[b])
    ensures Stored(w', descs, h)
  {
    hide Shape, Stored, Essential;
    StoredHasWords(w, descs, h, lo, hi);
    forall v | Essential(descs, h, v) ensures !(a <= v < a + 0x1000 * n) {
      EssentialMisses(descs, h, lo, hi, a, n, v);
    }
    Carry(w, w', descs, h, lo, hi);
  }

  lemma LargeFreedStep(w: Words, w': Words, descs: int, h: Heap, lo: int, hi: int, a: int)
    requires HeapInv(w, descs, h, lo, hi) && a in h.large && Extends(w', w, a, a + 0x1000 * h.large[a])
    ensures HeapInv(w', descs, LargeFreed(h, a), lo, hi)
  {
    hide Shape, Stored, Partial, Extends, Disjoint;
    var h' := LargeFreed(h, a);
    LargeFreedShape(h, lo, hi, a);
    SameStored(w, descs, h, h');
    Shrink(w, w', descs, h', lo, hi, a, h.large[a]);
  }

  // A fresh arena, and the return of one whose blocks are all free.

  /** The blocks 0..n-1 of arena a. */
  function BlockSeq(a: int, k: int, n: nat): (s: seq<int>)
    ensures |s| == n && forall i :: 0 <= i < n ==> s[i] == Block(a, k, i)
  {
    seq(n, i => Block(a, k, i))
  }

  function Refilled(h: Heap, a: int, k: int): Heap
    requires |h.free| == CLASSES && 0 <= k < CLASSES
  {
    h.(kinds := h.kinds[a := k], free := h.free[k := BlockSeq(a, k, Blocks(k))])
  }

  lemma LiveElsewhere(h: Heap, lo: int, hi: int, a: int, p: int)
    requires Shape(h, lo, hi) && a % 0x1000 == 0 && a !in h.kinds && a !in h.large && p in h.live
    ensures ArenaOf(p) != a
  {
    hide Off, Index, BlockSize, Blocks, IsBlock, Split, Nodes, PagesApart, ArenaOf;
  }

  lemma RefilledPages(h: Heap, lo: int, hi: int, a: int, k: int)
    requires Shape(h, lo, hi) && 0 <= k < CLASSES && a % 0x1000 == 0 && lo <= a && a + 0x1000 <= hi
    requires forall b :: b in h.kinds ==> Disjoint(a, a + 0x1000, b, b + 0x1000)
    requires forall b :: b in h.large ==> Disjoint(a, a + 0x1000, b, b + 0x1000 * h.large[b])
    ensures Pages(Refilled(h, a, k), lo, hi) && a !in h.kinds && a !in h.large
    ensures forall p :: p in h.live ==> ArenaOf(p) != a
  {
    hide Off, Index, BlockSize, Blocks, IsBlock, Split, Nodes, Live, ArenaOf, BlockSeq;
    assert a !in h.kinds && a !in h.large;
    forall p | p in h.live ensures ArenaOf(p) != a {
      LiveElsewhere(h, lo, hi, a, p);
    }
  }

  lemma RefilledNodes(h: Heap, lo: int, hi: int, a: int, k: int)
    requires Nodes(h) && 0 <= k < CLASSES && h.free[k] == [] && a % 0x1000 == 0 && a !in h.kinds
    ensures Nodes(Refilled(h, a, k))
    ensures forall j, e :: IsBlock(h, j, e) ==> IsBlock(Refilled(h, a, k), j, e)
    ensures forall p :: IsSmall(Refilled(h, a, k), p) && ArenaOf(p) != a ==> IsSmall(h, p)
    ensures forall p :: IsSmall(h, p) ==> IsSmall(Refilled(h, a, k), p)
  {
    hide Off, Index, BlockSize, Blocks, BlockSeq, ArenaOf;
    var h' := Refilled(h, a, k);
    var xs := BlockSeq(a, k, Blocks(k));
    forall e | e in xs ensures IsBlock(h', k, e) {
      var i :| 0 <= i < |xs| && xs[i] == e;
      BlockPlace(a, k, i);
    }
    forall i, j | 0 <= i < j < |xs| ensures xs[i] != xs[j] {
      BlocksApart(k, i, j);
      BlockPlace(a, k, i);
    }
  }

  lemma RefilledShape(h: Heap, lo: int, hi: int, a: int, k: int)
    requires Shape(h, lo, hi) && 0 <= k < CLASSES && h.free[k] == []
    requires a % 0x1000 == 0 && lo <= a && a + 0x1000 <= hi
    requires forall b :: b in h.kinds ==> Disjoint(a, a + 0x1000, b, b + 0x1000)
    requires forall b :: b in h.large ==> Disjoint(a, a + 0x1000, b, b + 0x1000 * h.large[b])
    ensures Shape(Refilled(h, a, k), lo, hi) && a !in h.kinds
  {
    hide Off, Index, BlockSize, Blocks, BlockSeq, IsBlock, IsSmall, Pages, ArenaOf;
    var h' := Refilled(h, a, k);
    RefilledPages(h, lo, hi, a, k);
    RefilledNodes(h, lo, hi, a, k);
    forall b, i | b in h'.kinds && 0 <= h'.kinds[b] < CLASSES && 0 <= i < Blocks(h'.kinds[b])
      ensures Block(b, h'.kinds[b], i) in h'.live <==> Block(b, h'.kinds[b], i) !in h'.free[h'.kinds[b]]
    {
      RefilledSplit(h, lo, hi, a, k, b, i);
    }
    assert Live(h');
  }

  lemma RefilledSplit(h: Heap, lo: int, hi: int, a: int, k: int, b: int, i: int)
    requires Shape(h, lo, hi) && 0 <= k < CLASSES && h.free[k] == [] && a % 0x1000 == 0 && a !in h.kinds
    requires forall p :: p in h.live ==> ArenaOf(p) != a
    requires var h' := Refilled(h, a, k); b in h'.kinds && 0 <= h'.kinds[b] < CLASSES && 0 <= i < Blocks(h'.kinds[b])
    ensures var h' := Refilled(h, a, k);
      Block(b, h'.kinds[b], i) in h'.live <==> Block(b, h'.kinds[b], i) !in h'.free[h'.kinds[b]]
  {
    hide Off, Index, BlockSize, Blocks, IsBlock, Live, PagesApart, ArenaOf;
    var h' := Refilled(h, a, k);
    var xs := BlockSeq(a, k, Blocks(k));
    BlockPlace(b, h'.kinds[b], i);
    if b == a {
      assert xs[i] == Block(a, k, i);
    } else if Block(b, h'.kinds[b], i) in xs {
      var j :| 0 <= j < |xs| && xs[j] == Block(b, h'.kinds[b], i);
      BlockPlace(a, k, j);
    }
  }

  lemma RefilledFreeSets(h: Heap, lo: int, hi: int, a: int, k: int)
    requires Shape(h, lo, hi) && 0 <= k < CLASSES && h.free[k] == [] && a % 0x1000 == 0 && a !in h.kinds
    ensures forall b :: b in h.kinds ==> FreeSet(Refilled(h, a, k), b) == FreeSet(h, b)
    ensures |FreeSet(Refilled(h, a, k), a)| == Blocks(k)
  {
    hide Off, Index, BlockSize, Blocks, IsBlock, Live, Split, PagesApart, ArenaOf;
    var h' := Refilled(h, a, k);
    var xs := BlockSeq(a, k, Blocks(k));
    forall b | b in h.kinds ensures FreeSet(h', b) == FreeSet(h, b) {
      forall i, j | 0 <= i < Blocks(h.kinds[b]) && 0 <= j < |xs| ensures Block(b, h.kinds[b], i) != xs[j] {
        BlockPlace(b, h.kinds[b], i);
        BlockPlace(a, k, j);
      }
      assert forall i :: i in FreeSet(h', b) <==> i in FreeSet(h, b);
    }
    BlockBig(k);
    forall i | 0 <= i < Blocks(k) ensures i in FreeSet(h', a) {
      assert xs[i] == Block(a, k, i);
    }
    IntervalCard(FreeSet(h', a), Blocks(k));
  }

  lemma {:induction false} IntervalCard(s: set<int>, n: nat)
    requires forall i :: i in s <==> 0 <= i < n
    ensures |s| == n
  {
    if n > 0 {
      var t := s - {n - 1};
      IntervalCard(t, n - 1);
      assert forall i :: i in s <==> i in t + {n - 1};
      assert |s| == |t| + 1;
    } else {
      assert forall i :: i in s <==> i in {};
      assert s == {};
    }
  }

  lemma RefillStep(w: Words, w0: Words, w': Words, descs: int, h: Heap, lo: int, hi: int, a: int, k: int)
    requires HeapInv(w, descs, h, lo, hi) && Extends(w, w0, a, a + 0x1000) && 0 <= k < CLASSES && h.free[k] == []
    requires a % 0x1000 == 0 && lo <= a && a + 0x1000 <= hi
    requires OnlyTouched(w, w', descs, h, k, NoBlock)
    requires HasWords(w', a, a + 0x1000) && HeaderStored(w', a, Desc(descs, k), Blocks(k), 0)
    requires IsList(w', FreeList(descs, k), BlockSeq(a, k, Blocks(k)))
    ensures Shape(Refilled(h, a, k), lo, hi) && Stored(w', descs, Refilled(h, a, k))
    ensures PartialBut(Refilled(h, a, k), a)
  {
    hide Off, Index, BlockSize, Blocks, BlockSeq, IsBlock, Shape, IsList, FreeSet, HasWords, Touched, Extends, Block;
    hide ArenaOf;
    var h' := Refilled(h, a, k);
    FreshPages(w, w0, descs, h, lo, hi, a, 1);
    RefilledShape(h, lo, hi, a, k);
    RefilledFreeSets(h, lo, hi, a, k);
    OthersKept(w, w', descs, h, lo, hi, k, NoBlock);
    SameDescs(w', descs, h, h', k);
    KindsOk(h, lo, hi);
    forall b | b in h'.kinds
      ensures HasWords(w', b, b + 0x1000) && HeaderStored(w', b, Desc(descs, h'.kinds[b]), |FreeSet(h', b)|, 0)
    {
      if b != a {
        assert HeaderStored(w, b, Desc(descs, h.kinds[b]), |FreeSet(h, b)|, 0);
        assert SameWord(w, w', b) && SameWord(w, w', b + 4) && SameWord(w, w', b + 8);
      }
    }
  }

  lemma KindsOk(h: Heap, lo: int, hi: int)
    requires Shape(h, lo, hi)
    ensures forall a :: a in h.kinds ==> 0 <= h.kinds[a] < CLASSES && a % 0x1000 == 0
  {
  }

  function Evicted(h: Heap, a: int, ys: seq<int>): Heap
    requires |h.free| == CLASSES && a in h.kinds && 0 <= h.kinds[a] < CLASSES
  {
    h.(kinds := h.kinds - {a}, free := h.free[h.kinds[a] := ys])
  }

  /** What ys has of xs stands in the order in which it stands in xs. */
  ghost predicate SameOrder(xs: seq<int>, ys: seq<int>) {
    forall i, j, p, q :: 0 <= i < j < |ys| && 0 <= p < |xs| && 0 <= q < |xs| && xs[p] == ys[i] && xs[q] == ys[j] ==>
      p < q
  }

  /** ys is free list xs without the blocks of arena a, the others in their order. */
  ghost predicate Without(xs: seq<int>, ys: seq<int>, a: int) {
    && (forall x :: x in ys <==> x in xs && ArenaOf(x) != a)
    && (forall i, j :: 0 <= i < j < |ys| ==> ys[i] != ys[j])
    && SameOrder(xs, ys)
  }

  /** The elements of xs outside arena a. */
  function Others(xs: seq<int>, a: int): seq<int> {
    if xs == [] then [] else Others(xs[..|xs| - 1], a) + if ArenaOf(xs[|xs| - 1]) == a then [] else [xs[|xs| - 1]]
  }

  /** There is but one such list. */
  lemma {:induction false} WithoutIsOthers(xs: seq<int>, ys: seq<int>, a: int)
    requires Without(xs, ys, a) && forall i, j :: 0 <= i < j < |xs| ==> xs[i] != xs[j]
    ensures ys == Others(xs, a)
  {
    hide ArenaOf, Without;
    if xs != [] {
      var n, x := |xs| - 1, xs[|xs| - 1];
      assert xs == xs[..n] + [x] && xs[n] == x;
      if ArenaOf(x) == a {
        WithoutLast(xs, ys, a);
        WithoutIsOthers(xs[..n], ys, a);
      } else {
        LastIsLast(xs, ys, a);
        WithoutBoth(xs, ys, a);
        WithoutIsOthers(xs[..n], ys[..|ys| - 1], a);
      }
    } else {
      NothingLeft(ys, a);
    }
  }

  lemma NothingLeft(ys: seq<int>, a: int)
    requires Without([], ys, a)
    ensures ys == []
  {
    hide SameOrder;
    if ys != [] {
      HasFirst(ys);
      assert false;
    }
  }

  lemma HasFirst(ys: seq<int>)
    requires ys != []
    ensures ys[0] in ys
  {
  }

  lemma WithoutLast(xs: seq<int>, ys: seq<int>, a: int)
    requires Without(xs, ys, a) && xs != [] && ArenaOf(xs[|xs| - 1]) == a
    ensures Without(xs[..|xs| - 1], ys, a)
  {
    hide ArenaOf;
    var zs := xs[..|xs| - 1];
    assert xs == zs + [xs[|xs| - 1]];
    assert forall x :: x in xs <==> x in zs || x == xs[|xs| - 1];
    assert SameOrder(zs, ys);
  }

  lemma LastIsLast(xs: seq<int>, ys: seq<int>, a: int)
    requires Without(xs, ys, a) && xs != [] && ArenaOf(xs[|xs| - 1]) != a
    ensures ys != [] && ys[|ys| - 1] == xs[|xs| - 1]
  {
    hide ArenaOf;
    assert xs[|xs| - 1] in ys;
    var i :| 0 <= i < |ys| && ys[i] == xs[|xs| - 1];
    var m := |ys| - 1;
    assert ys[m] in ys;
    var q :| 0 <= q < |xs| && xs[q] == ys[m];
    assert i < m ==> |xs| - 1 < q;
  }

  lemma WithoutBoth(xs: seq<int>, ys: seq<int>, a: int)
    requires Without(xs, ys, a) && xs != [] && ys != [] && ys[|ys| - 1] == xs[|xs| - 1]
    requires forall i, j :: 0 <= i < j < |xs| ==> xs[i] != xs[j]
    ensures Without(xs[..|xs| - 1], ys[..|ys| - 1], a)
  {
    hide ArenaOf;
    var us, vs, x := xs[..|xs| - 1], ys[..|ys| - 1], xs[|xs| - 1];
    assert xs == us + [x] && ys == vs + [x];
    assert x !in us && x !in vs;
    assert forall y :: y in xs <==> y in us || y == x;
    assert forall y :: y in ys <==> y in vs || y == x;
    assert SameOrder(us, vs);
  }

  lemma EvictedShape(h: Heap, lo: int, hi: int, a: int, ys: seq<int>)
    requires Shape(h, lo, hi) && a in h.kinds && Without(h.free[h.kinds[a]], ys, a)
    requires forall i :: 0 <= i < Blocks(h.kinds[a]) ==> Block(a, h.kinds[a], i) in h.free[h.kinds[a]]
    ensures Shape(Evicted(h, a, ys), lo, hi)
  {
    hide Off, Index, BlockSize, Blocks, PagesApart, IsBlock, ArenaOf, SameOrder;
    var h' := Evicted(h, a, ys);
    EvictedBlocks(h, h', a);
    assert PagesApart(h'.kinds, h'.large) by { ApartDrop(h.kinds, h.large, a); }
    forall k, e | 0 <= k < CLASSES && e in h'.free[k] ensures IsBlock(h', k, e) {
      assert e in h.free[k];
      NodeIsSmall(h, lo, hi, k, e);
    }
    assert Nodes(h');
    assert Pages(h', lo, hi);
    assert Live(h') by {
      forall p | p in h.live && IsSmall(h, p) ensures ArenaOf(p) != a {
        NodeIsSmall(h, lo, hi, h.kinds[ArenaOf(p)], p);
      }
    }
    forall b, i | b in h'.kinds && 0 <= i < Blocks(h'.kinds[b])
      ensures Block(b, h'.kinds[b], i) in h'.live <==> Block(b, h'.kinds[b], i) !in h'.free[h'.kinds[b]]
    {
      BlockPlace(b, h.kinds[b], i);
    }
  }

  lemma EvictedBlocks(h: Heap, h': Heap, a: int)
    requires h'.kinds == h.kinds - {a}
    ensures forall k, e :: IsBlock(h', k, e) <==> IsBlock(h, k, e) && ArenaOf(e) != a
    ensures forall p :: IsSmall(h', p) <==> IsSmall(h, p) && ArenaOf(p) != a
  {
    hide Off, Index, BlockSize, Blocks, ArenaOf;
  }

  lemma ApartDrop(kinds: map<int, int>, large: map<int, int>, a: int)
    requires PagesApart(kinds, large)
    ensures PagesApart(kinds - {a}, large)
  {
  }

  lemma EvictedFreeSets(h: Heap, lo: int, hi: int, a: int, ys: seq<int>)
    requires Shape(h, lo, hi) && a in h.kinds && Without(h.free[h.kinds[a]], ys, a)
    ensures forall b :: b in h.kinds && b != a ==> FreeSet(Evicted(h, a, ys), b) == FreeSet(h, b)
  {
    hide Off, Index, BlockSize, Blocks, IsBlock, Live, Split, PagesApart, ArenaOf, SameOrder;
    var h' := Evicted(h, a, ys);
    forall b | b in h.kinds && b != a ensures FreeSet(h', b) == FreeSet(h, b) {
      forall i | 0 <= i < Blocks(h.kinds[b]) ensures ArenaOf(Block(b, h.kinds[b], i)) != a {
        BlockPlace(b, h.kinds[b], i);
      }
      assert forall i :: i in FreeSet(h', b) <==> i in FreeSet(h, b);
    }
  }

  /** An arena whose blocks are all free leaves the heap: first its list nodes go, then its page. */
  lemma EvictStep(w: Words, w1: Words, w': Words, descs: int, h: Heap, lo: int, hi: int, a: int, ys: seq<int>)
    requires Placed(descs, lo, hi) && Shape(h, lo, hi) && Stored(w, descs, h) && PartialBut(h, a)
    requires a in h.kinds && |FreeSet(h, a)| == Blocks(h.kinds[a]) && Without(h.free[h.kinds[a]], ys, a)
    requires OnlyTouched(w, w1, descs, h, h.kinds[a], NoBlock) && IsList(w1, FreeList(descs, h.kinds[a]), ys)
    requires Extends(w', w1, a, a + 0x1000)
    ensures HeapInv(w', descs, Evicted(h, a, ys), lo, hi)
  {
    hide Off, Index, BlockSize, Blocks, IsBlock, Shape, IsList, FreeSet, HasWords, Touched, Extends, Block, Without;
    hide ArenaOf;
    KindsOk(h, lo, hi);
    var h', k := Evicted(h, a, ys), h.kinds[a];
    FreeSetBound(h, a);
    EvictedShape(h, lo, hi, a, ys);
    EvictedFreeSets(h, lo, hi, a, ys);
    OthersKept(w, w1, descs, h, lo, hi, k, NoBlock);
    SameDescs(w1, descs, h, h', k);
    forall b | b in h'.kinds
      ensures HasWords(w1, b, b + 0x1000) && HeaderStored(w1, b, Desc(descs, h'.kinds[b]), |FreeSet(h', b)|, 0)
    {
      assert HeaderStored(w, b, Desc(descs, h.kinds[b]), |FreeSet(h, b)|, 0);
      assert SameWord(w, w1, b) && SameWord(w, w1, b + 4) && SameWord(w, w1, b + 8);
    }
    assert Stored(w1, descs, h');
    assert Partial(h') by {
      forall b | b in h'.kinds ensures |FreeSet(h', b)| < Blocks(h'.kinds[b]) {
        assert FreeSet(h', b) == FreeSet(h, b);
      }
    }
    EvictedApart(h, lo, hi, a);
    Shrink(w1, w', descs, h', lo, hi, a, 1);
  }

  lemma EvictedApart(h: Heap, lo: int, hi: int, a: int)
    requires Shape(h, lo, hi) && a in h.kinds
    ensures lo <= a && a + 0x1000 <= hi
    ensures forall b :: b in h.kinds - {a} ==> Disjoint(a, a + 0x1000, b, b + 0x1000)
    ensures forall b :: b in h.large ==> Disjoint(a, a + 0x1000, b, b + 0x1000 * h.large[b])
  {
    hide Live, Nodes, Split;
  }
}
