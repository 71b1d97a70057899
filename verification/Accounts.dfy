/** Who has which page: a managed page is mapped for the allocator or for another caller of the page
    layer, and never for both. */
module Accounts {
  import opened Agreement
  import opened Views
  import opened Growth
  import opened Heaps
  import opened HeapSteps

  function Low(pf: Half): int { Page0(pf) * 0x1000 }

  /** Managed page i of pf belongs to an arena or a large allocation. */
  ghost predicate Held(h: Heap, pf: Half, i: int) { HoldsPage(h, (Page0(pf) + i) * 0x1000) }

  /** Page i of pf is mapped if and only if it was given to another caller or h holds it, and it
      is never both. */
  ghost predicate Account(bits: seq<bool>, taken: set<Use>, pf: Half, cur: int, h: Heap) {
    forall i :: 0 <= i < |bits| ==>
      && (bits[i] <==> PageUse(pf, cur, i) in taken || Held(h, pf, i))
      && !(PageUse(pf, cur, i) in taken && Held(h, pf, i))
  }

  /** h' holds the pages of h and pages lo..hi-1. */
  ghost predicate HoldsMore(h: Heap, h': Heap, pf: Half, lo: int, hi: int) {
    forall i :: Held(h', pf, i) <==> Held(h, pf, i) || lo <= i < hi
  }

  lemma AccountSame(bits: seq<bool>, taken: set<Use>, pf: Half, cur: int, h: Heap, h': Heap)
    requires Account(bits, taken, pf, cur, h) && h'.kinds == h.kinds && h'.large == h.large
    ensures Account(bits, taken, pf, cur, h')
  {
    forall i ensures Held(h', pf, i) <==> Held(h, pf, i) {}
  }

  lemma AccountGrows(vm: Vm, vm': Vm, taken: set<Use>, pf: Half, cur: int, h: Heap, h': Heap, lo: int, hi: int)
    requires Grew(vm, vm', pf, cur, lo, hi, pf == User) && Account(VBits(vm, pf, cur), taken, pf, cur, h)
    requires HoldsMore(h, h', pf, lo, hi)
    ensures (pf == User ==> cur in vm'.uv) && Account(VBits(vm', pf, cur), taken, pf, cur, h')
  {
    hide Held, Grew;
    GrewBits(vm, vm', pf, cur, lo, hi, pf == User);
  }

  lemma AccountShrinks(vm: Vm, vm': Vm, taken: set<Use>, pf: Half, cur: int, h: Heap, h': Heap, lo: int, hi: int)
    requires Grew(vm', vm, pf, cur, lo, hi, false)
    requires (pf == User ==> cur in vm.uv) && Account(VBits(vm, pf, cur), taken, pf, cur, h)
    requires HoldsMore(h', h, pf, lo, hi) && forall i :: lo <= i < hi ==> !Held(h', pf, i)
    ensures Account(VBits(vm', pf, cur), taken, pf, cur, h')
  {
    hide Held, Grew;
    GrewBits(vm', vm, pf, cur, lo, hi, false);
  }

  /** Pages lo..hi-1 of pf. */
  function Range(pf: Half, cur: int, lo: int, hi: int): (r: set<Use>)
    ensures forall i :: KPage(i) in r <==> pf == Kernel && lo <= i < hi
    ensures forall s, i :: UPage(s, i) in r <==> pf == User && s == cur && lo <= i < hi
    ensures forall s, d :: UTable(s, d) !in r
  {
    set i | lo <= i < hi :: if pf == Kernel then KPage(i) else UPage(cur, i)
  }

  /** With nothing live the allocator holds nothing. */
  lemma NothingLive(w: Words, descs: int, h: Heap, lo: int, hi: int)
    requires HeapInv(w, descs, h, lo, hi) && h.live == map[]
    ensures h.kinds == map[] && h.large == map[] && forall k :: 0 <= k < CLASSES ==> h.free[k] == []
  {
    hide Off, Index, BlockSize, Blocks, DescStored, ArenaOf;
    KindsOk(h, lo, hi);
    forall a | a in h.kinds ensures |FreeSet(h, a)| == Blocks(h.kinds[a]) {
      AllFree(h, lo, hi, a);
    }
    forall k | 0 <= k < CLASSES && h.free[k] != [] ensures ArenaOf(h.free[k][0]) in h.kinds {
      assert IsBlock(h, k, h.free[k][0]);
    }
    assert forall a :: a in h.large ==> a + HEADER in h.live;
    assert forall a :: a !in h.kinds;
    assert forall a :: a !in h.large;
  }

  lemma AllFree(h: Heap, lo: int, hi: int, a: int)
    requires Shape(h, lo, hi) && h.live == map[] && a in h.kinds
    ensures |FreeSet(h, a)| == Blocks(h.kinds[a])
  {
    hide Off, Index, BlockSize, Blocks, Pages, Nodes, ArenaOf;
    KindsOk(h, lo, hi);
    BlockBig(h.kinds[a]);
    IntervalCard(FreeSet(h, a), Blocks(h.kinds[a]));
  }

  /** No leak: when every allocation has been freed, in whatever order, the free lists are empty
      and the bitmap has exactly the pages that other callers were given. */
  lemma NoLeak(w: Words, descs: int, bits: seq<bool>, taken: set<Use>, pf: Half, cur: int, h: Heap, lo: int, hi: int)
    requires HeapInv(w, descs, h, lo, hi) && Account(bits, taken, pf, cur, h) && h.live == map[]
    ensures |h.free| == CLASSES && forall k :: 0 <= k < CLASSES ==> h.free[k] == []
    ensures forall i :: 0 <= i < |bits| ==> (bits[i] <==> PageUse(pf, cur, i) in taken)
  {
    hide Shape, Stored, Partial;
    NothingLive(w, descs, h, lo, hi);
  }
}
