/** The heap as its clients think of it, and how sys_malloc, sys_free and a client's store on the
    heap in memory match it. */
module IdealHeaps {
  import opened Views
  import opened Heaps
  import opened HeapSteps
  import opened AllocationSteps

  datatype Op = Malloc(size: nat) | Free(p: int) | Poke(v: int, x: int)

  /** The size of each live region, and the words in them. */
  datatype Ideal = Ideal(live: map<int, int>, data: Words)

  predicate InLive(live: map<int, int>, v: int) {
    v % 4 == 0 && exists p :: p in live && p <= v < p + live[p]
  }

  /** A client frees live pointers only and writes in live regions only. */
  predicate Legal(s: Ideal, op: Op) {
    match op
    case Malloc(_) => true
    case Free(p) => p in s.live
    case Poke(v, _) => v in s.data
  }

  /** One operation on the ideal heap; p is what malloc returned, 0 for NULL. */
  function Step(s: Ideal, op: Op, p: int): Ideal
    requires Legal(s, op)
  {
    match op
    case Malloc(size) =>
      if p == 0 then s
      else Ideal(s.live[p := size], s.data + map v | p <= v < p + size && v % 4 == 0 :: 0)
    case Free(q) => Ideal(s.live - {q}, map v | v in s.data && !(q <= v < q + s.live[q]) :: s.data[v])
    case Poke(v, x) => s.(data := s.data[v := x])
  }

  /** Memory holds the ideal heap. */
  ghost predicate Shows(w: Words, h: Heap, s: Ideal) {
    && s.live == h.live
    && (forall v :: v in s.data <==> InLive(s.live, v))
    && (forall v :: v in s.data ==> v in w && w[v] == s.data[v])
  }

  /** After block_desc_init nothing is live. */
  lemma NewShown(w: Words)
    ensures Shows(w, EmptyHeap(), Ideal(map[], map[]))
  {
  }

  lemma InRegion(w: Words, descs: int, h: Heap, lo: int, hi: int, v: int) returns (p: int)
    requires HeapInv(w, descs, h, lo, hi) && InLive(h.live, v)
    ensures p in h.live && p <= v < p + h.live[p] && (IsSmall(h, p) || IsLarge(h, p)) && v < End(h, p) && v in w
  {
    hide Stored, Partial, Shape, IsSmall, IsLarge, End;
    p :| p in h.live && p <= v < p + h.live[p];
    LiveRegions(w, descs, h, lo, hi, p);
  }

  /** Requested regions of live pointers do not overlap. */
  lemma RegionsApart(h: Heap, lo: int, hi: int, p: int, q: int)
    requires Shape(h, lo, hi) && p in h.live && q in h.live && p != q
    ensures Disjoint(p, p + h.live[p], q, q + h.live[q])
  {
    hide Shape, IsSmall, IsLarge, End;
    LivePair(h, lo, hi, p, q);
    LiveBounds(h, lo, hi, p);
    LiveBounds(h, lo, hi, q);
  }

  /** The size bytes at p are none of the heap's live regions. */
  ghost predicate Fresh(s: Ideal, p: int, size: int) {
    p !in s.live && forall q :: q in s.live ==> Disjoint(p, p + size, q, q + s.live[q])
  }

  lemma FreshRegion(w: Words, h: Heap, h': Heap, lo: int, hi: int, s: Ideal, p: int, size: nat)
    requires Shape(h', lo, hi) && Shows(w, h, s) && p !in h.live && h'.live == h.live[p := size]
    ensures Fresh(s, p, size)
  {
    hide Shape, InLive;
    forall q | q in s.live ensures Disjoint(p, p + size, q, q + s.live[q]) { RegionsApart(h', lo, hi, p, q); }
  }

  lemma NullStep(s: Ideal, size: nat)
    ensures Step(s, Malloc(size), 0) == s
  {
  }

  lemma MallocWord(w: Words, w': Words, descs: int, h: Heap, h': Heap, lo: int, hi: int, s: Ideal, p: int, v: int)
    requires HeapInv(w, descs, h, lo, hi) && HeapInv(w', descs, h', lo, hi) && Shows(w, h, s) && v in s.data
    requires p !in h.live && p in h'.live && h'.live == h.live[p := h'.live[p]] && ClientKept(w, w', h)
    ensures v in w' && w'[v] == s.data[v] && !(p <= v < p + h'.live[p])
  {
    hide Stored, Partial, Shape, IsSmall, IsLarge, End;
    var q := InRegion(w, descs, h, lo, hi, v);
    assert SameWord(w, w', v);
    RegionsApart(h', lo, hi, p, q);
  }

  /** sys_malloc does what the ideal heap does. */
  lemma MallocShown(w: Words, w': Words, descs: int, h: Heap, h': Heap, lo: int, hi: int, s: Ideal, size: nat, p: int)
    requires HeapInv(w, descs, h, lo, hi) && HeapInv(w', descs, h', lo, hi) && Shows(w, h, s) && p != 0
    requires p !in h.live && h'.live == h.live[p := size] && Zeroed(w', h', p) && ClientKept(w, w', h)
    ensures Shows(w', h', Step(s, Malloc(size), p))
  {
    hide Stored, Partial, Shape, IsSmall, IsLarge, End, ClientKept;
    var s' := Step(s, Malloc(size), p);
    LiveBounds(h', lo, hi, p);
    forall v | v in s.data ensures v in w' && w'[v] == s.data[v] && !(p <= v < p + size) {
      MallocWord(w, w', descs, h, h', lo, hi, s, p, v);
    }
    forall v ensures v in s'.data <==> InLive(s'.live, v) {
      if q :| q in s.live && q <= v < q + s.live[q] { assert q in s'.live && s'.live[q] == s.live[q]; }
      if p <= v < p + size { assert p in s'.live; }
    }
  }

  lemma PokeIsPrivate(w: Words, descs: int, h: Heap, lo: int, hi: int, s: Ideal, v: int, x: int)
    requires HeapInv(w, descs, h, lo, hi) && Shows(w, h, s) && v in s.data
    ensures OutsideKept(w, w[v := x], descs, h)
  {
    hide HeapInv, InLive, Private;
    LiveIsPrivate(w, descs, h, lo, hi, v);
  }

  /** Words of live regions lie in pages of the heap. */
  lemma LiveIsPrivate(w: Words, descs: int, h: Heap, lo: int, hi: int, v: int)
    requires HeapInv(w, descs, h, lo, hi) && InLive(h.live, v)
    ensures Private(descs, h, v) && v in w
  {
    hide Stored, Partial, Nodes, Split, Live, PagesApart, IsBlock, ArenaOf, Private;
    var p := InRegion(w, descs, h, lo, hi, v);
    LiveBounds(h, lo, hi, p);
    if IsSmall(h, p) {
      PageIsPrivate(descs, h, lo, hi, ArenaOf(p), v);
    } else {
      PageIsPrivate(descs, h, lo, hi, p - HEADER, v);
    }
  }

  /** What others do outside the heap's words does not show. */
  lemma ShowsFrame(w: Words, w': Words, descs: int, h: Heap, lo: int, hi: int, s: Ideal)
    requires HeapInv(w, descs, h, lo, hi) && Shows(w, h, s)
    requires forall v :: v in w && Private(descs, h, v) ==> v in w' && w'[v] == w[v]
    ensures Shows(w', h, s)
  {
    hide HeapInv, InLive, Private;
    forall v | v in s.data ensures v in w' && w'[v] == s.data[v] {
      LiveIsPrivate(w, descs, h, lo, hi, v);
    }
  }

  /** So does sys_free. */
  lemma FreeShown(w: Words, w': Words, descs: int, h: Heap, h': Heap, lo: int, hi: int, s: Ideal, p: int)
    requires HeapInv(w, descs, h, lo, hi) && HeapInv(w', descs, h', lo, hi) && Shows(w, h, s)
    requires p in h.live && h'.live == h.live - {p} && ClientKept(w, w', h')
    ensures Shows(w', h', Step(s, Free(p), 0))
  {
    hide Stored, Partial, Shape, IsSmall, IsLarge, End;
    var s' := Step(s, Free(p), 0);
    forall v | v in s.data && !(p <= v < p + s.live[p]) ensures InLive(h'.live, v) && v in w' && w'[v] == s.data[v] {
      var q := InRegion(w, descs, h, lo, hi, v);
      assert q in h'.live;
      LiveBounds(h', lo, hi, q);
      assert SameWord(w, w', v);
    }
    forall v | InLive(h'.live, v) ensures v in s'.data {
      var q :| q in h'.live && q <= v < q + h'.live[q];
      RegionsApart(h, lo, hi, p, q);
      assert InLive(s.live, v);
    }
  }

  /** And so does a client's write. */
  lemma PokeShown(w: Words, descs: int, h: Heap, lo: int, hi: int, s: Ideal, v: int, x: int)
    requires HeapInv(w, descs, h, lo, hi) && Shows(w, h, s) && v in s.data
    ensures v in w && HeapInv(w[v := x], descs, h, lo, hi) && Shows(w[v := x], h, Step(s, Poke(v, x), 0))
  {
    hide HeapInv, IsSmall, IsLarge, End;
    var p := InRegion(w, descs, h, lo, hi, v);
    ClientWriteStep(w, descs, h, lo, hi, p, v, x);
  }
}
