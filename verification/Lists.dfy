/** The intrusive doubly linked list of lib/kernel/list.c, kept in the words of virtual memory.
    An element at address e has prev at e and next at e + 4; the list at L has its head sentinel
    at L and its tail sentinel at L + 8. */
module Lists {
  import opened Views
  import opened PageManagement

  function At(w: Words, a: int): int { if a in w then w[a] else 0 }

  /** list_insert_before, store by store. */
  function InsertBefore(w: Words, before: int, elem: int): Words {
    var w1 := w[At(w, before) + 4 := elem];
    var w2 := w1[elem + 4 := before];
    var w3 := w2[elem := At(w2, before)];
    w3[before := elem]
  }

  /** list_remove, store by store. */
  function Unlink(w: Words, elem: int): Words {
    var w1 := w[At(w, elem) + 4 := At(w, elem + 4)];
    w1[At(w1, elem + 4) := At(w1, elem)]
  }

  /** The elements of the list between its sentinels. */
  function Chain(L: int, xs: seq<int>): (c: seq<int>)
    ensures |c| == |xs| + 2
  {
    [L] + xs + [L + 8]
  }

  predicate Apart(d: int, e: int) { d <= e - 8 || e <= d - 8 }

  /** elem overlaps no element of the chain. */
  ghost predicate Outside(L: int, xs: seq<int>, elem: int) {
    forall i :: 0 <= i < |xs| + 2 ==> Apart(elem, Chain(L, xs)[i])
  }

  ghost predicate Linked(w: Words, c: seq<int>, i: int)
    requires 0 <= i < |c| - 1
  {
    && c[i] + 4 in w && c[i + 1] in w
    && w[c[i] + 4] == c[i + 1] && w[c[i + 1]] == c[i]
  }

  ghost predicate AllApart(c: seq<int>) {
    forall i, j :: 0 <= i < j < |c| ==> Apart(c[i], c[j])
  }

  /** The list at L holds xs: next and prev are inverse to each other along the chain. */
  ghost predicate IsList(w: Words, L: int, xs: seq<int>) {
    var c := Chain(L, xs);
    && AllApart(c)
    && (forall i :: 0 <= i < |c| - 1 ==> Linked(w, c, i))
    && L in w && w[L] == 0 && L + 12 in w && w[L + 12] == 0
  }

  /** a is a word of one of the elements of c. */
  ghost predicate WordOf(c: seq<int>, a: int) {
    exists i :: 0 <= i < |c| && (a == c[i] || a == c[i] + 4)
  }

  /** w' differs from w in words of c at most. */
  ghost predicate Within(w: Words, w': Words, c: seq<int>) {
    && (forall a :: a in w' <==> a in w)
    && (forall a :: a in w && !WordOf(c, a) ==> w'[a] == w[a])
  }

  lemma WordsOf(c: seq<int>, i: int)
    requires 0 <= i < |c|
    ensures WordOf(c, c[i]) && WordOf(c, c[i] + 4)
  {
  }

  /** The four stores of an insertion between c[k] and c[k+1]. */
  lemma InsertStores(w: Words, L: int, xs: seq<int>, k: int, elem: int)
    requires IsList(w, L, xs) && 0 <= k <= |xs| && elem in w && elem + 4 in w
    requires Outside(L, xs, elem)
    ensures var c := Chain(L, xs);
      && c[k] + 4 in w && c[k + 1] in w && c[k] + 4 != L + 12 && c[k + 1] != L && c[k + 1] != L + 12
      && c[k] + 4 != L && elem != L && elem != L + 12 && elem + 4 != L && elem + 4 != L + 12
      && InsertBefore(w, c[k + 1], elem) ==
           w[c[k] + 4 := elem][elem + 4 := c[k + 1]][elem := c[k]][c[k + 1] := elem]
  {
    var c := Chain(L, xs);
    assert c[0] == L && c[|c| - 1] == L + 8;
    assert Linked(w, c, k);
    assert Apart(elem, c[k]) && Apart(elem, c[k + 1]) && Apart(elem, c[0]) && Apart(elem, c[|c| - 1]);
    assert Apart(c[k], c[k + 1]) && Apart(c[0], c[k + 1]) && Apart(c[k], c[|c| - 1]);
  }

  lemma InsertWithin(w: Words, L: int, xs: seq<int>, k: int, elem: int)
    requires IsList(w, L, xs) && 0 <= k <= |xs| && elem in w && elem + 4 in w
    requires Outside(L, xs, elem)
    ensures Within(w, InsertBefore(w, Chain(L, xs)[k + 1], elem), Chain(L, xs) + [elem])
  {
    hide InsertBefore, IsList, Apart;
    var c := Chain(L, xs);
    InsertStores(w, L, xs, k, elem);
    var e := c + [elem];
    WordsOf(e, k);
    WordsOf(e, k + 1);
    WordsOf(e, |c|);
  }

  lemma InsertApart(c: seq<int>, k: int, elem: int)
    requires AllApart(c) && 0 <= k < |c| && forall i :: 0 <= i < |c| ==> Apart(elem, c[i])
    ensures AllApart(c[..k] + [elem] + c[k..])
  {
  }

  lemma InsertKeeps(w: Words, L: int, xs: seq<int>, k: int, elem: int)
    requires IsList(w, L, xs) && 0 <= k <= |xs| && elem in w && elem + 4 in w
    requires Outside(L, xs, elem)
    ensures IsList(InsertBefore(w, Chain(L, xs)[k + 1], elem), L, xs[..k] + [elem] + xs[k..])
    ensures Within(w, InsertBefore(w, Chain(L, xs)[k + 1], elem), Chain(L, xs) + [elem])
  {
    hide InsertBefore, Within, AllApart;
    var c := Chain(L, xs);
    InsertStores(w, L, xs, k, elem);
    InsertWithin(w, L, xs, k, elem);
    InsertApart(c, k + 1, elem);
    var w' := InsertBefore(w, c[k + 1], elem);
    var d := Chain(L, xs[..k] + [elem] + xs[k..]);
    assert d == c[..k + 1] + [elem] + c[k + 1..];
    forall i | 0 <= i < |d| - 1 ensures Linked(w', d, i) {
      if i < k {
        LinkKept(w, c, i, k);
        assert Linked(w, c, i);
      } else if i > k + 1 {
        LinkKept(w, c, i - 1, k);
        assert Linked(w, c, i - 1);
      }
    }
  }

  /** The stores between c[k] and c[k+1] miss the words of another link. */
  lemma LinkKept(w: Words, c: seq<int>, i: int, k: int)
    requires AllApart(c) && 0 <= i < |c| - 1 && 0 <= k < |c| - 1 && i != k
    ensures c[i] + 4 != c[k] + 4 && c[i] + 4 != c[k + 1] && c[i + 1] != c[k] + 4 && c[i + 1] != c[k + 1]
  {
    assert i < k ==> Apart(c[i], c[k]) && Apart(c[i], c[k + 1]) && Apart(c[i + 1], c[k + 1]);
    assert i > k ==> Apart(c[k], c[i]) && Apart(c[k], c[i + 1]) && Apart(c[k + 1], c[i + 1]);
  }

  lemma UnlinkStores(w: Words, L: int, xs: seq<int>, k: int)
    requires IsList(w, L, xs) && 0 <= k < |xs|
    ensures var c := Chain(L, xs);
      && c[k] + 4 in w && c[k + 2] in w && c[k] + 4 != L + 12 && c[k + 2] != L && c[k + 2] != L + 12 && c[k] + 4 != L
      && Unlink(w, xs[k]) == w[c[k] + 4 := c[k + 2]][c[k + 2] := c[k]]
  {
    var c := Chain(L, xs);
    assert c[0] == L && c[|c| - 1] == L + 8 && c[k + 1] == xs[k];
    assert Linked(w, c, k) && Linked(w, c, k + 1);
    assert Apart(c[0], c[k + 2]) && Apart(c[k], c[|c| - 1]) && Apart(c[k], c[k + 1]) && Apart(c[k + 1], c[k + 2]);
    assert Apart(c[k], c[k + 2]);
  }

  lemma UnlinkKeeps(w: Words, L: int, xs: seq<int>, k: int)
    requires IsList(w, L, xs) && 0 <= k < |xs|
    ensures IsList(Unlink(w, xs[k]), L, xs[..k] + xs[k + 1..])
    ensures Within(w, Unlink(w, xs[k]), Chain(L, xs))
  {
    hide Unlink;
    var c := Chain(L, xs);
    UnlinkStores(w, L, xs, k);
    var w' := Unlink(w, xs[k]);
    var d := Chain(L, xs[..k] + xs[k + 1..]);
    assert d == c[..k + 1] + c[k + 2..] && c[k + 1] == xs[k];
    assert Linked(w, c, k) && Linked(w, c, k + 1);
    forall i | 0 <= i < |d| - 1 ensures Linked(w', d, i) {
      if i < k { assert Linked(w, c, i); }
      if i > k { assert Linked(w, c, i + 1); }
    }
    WordsOf(c, k);
    WordsOf(c, k + 2);
  }

  /** A list depends on the words of its chain only. */
  lemma ListFrame(w: Words, w': Words, L: int, xs: seq<int>)
    requires IsList(w, L, xs)
    requires forall a :: a in w && WordOf(Chain(L, xs), a) ==> a in w' && w'[a] == w[a]
    ensures IsList(w', L, xs)
  {
    var c := Chain(L, xs);
    assert c[0] == L && c[|c| - 1] == L + 8;
    forall i | 0 <= i < |c| - 1 ensures Linked(w', c, i) {
      assert Linked(w, c, i);
      assert WordOf(c, c[i] + 4) && WordOf(c, c[i + 1]);
    }
    assert WordOf(c, c[0]) && WordOf(c, c[|c| - 1] + 4);
  }

  /** The words along the chain, for a reader. */
  lemma Along(w: Words, L: int, xs: seq<int>, k: int)
    requires IsList(w, L, xs) && 0 <= k <= |xs|
    ensures var c := Chain(L, xs);
      && c[k] + 4 in w && w[c[k] + 4] == c[k + 1]
      && c[k + 1] in w && w[c[k + 1]] == c[k]
    ensures Chain(L, xs)[k + 1] == L + 8 <==> k == |xs|
    ensures k < |xs| ==> Chain(L, xs)[k + 1] == xs[k]
    ensures k > 0 ==> Chain(L, xs)[k] == xs[k - 1]
    ensures Chain(L, xs)[0] == L && Chain(L, xs)[|xs| + 1] == L + 8
    ensures forall j :: 0 <= j < |xs| && j != k ==> k < |xs| ==> xs[j] != xs[k]
  {
    var c := Chain(L, xs);
    assert Linked(w, c, k);
    assert c[|c| - 1] == L + 8;
    assert k < |xs| ==> Apart(c[k + 1], c[|c| - 1]);
    forall j | 0 <= j < |xs| && j != k && k < |xs| ensures xs[j] != xs[k] {
      assert c[j + 1] == xs[j] && c[k + 1] == xs[k];
      assert j < k ==> Apart(c[j + 1], c[k + 1]);
      assert j > k ==> Apart(c[k + 1], c[j + 1]);
    }
  }

  lemma EmptyList(w: Words, L: int)
    requires L in w && L + 4 in w && L + 8 in w && L + 12 in w
    ensures IsList(w[L := 0][L + 4 := L + 8][L + 8 := L][L + 12 := 0], L, [])
  {
    assert Chain(L, []) == [L, L + 8];
  }

  lemma InsertIs(w: Words, before: int, elem: int)
    requires before in w && elem in w
    ensures var w2 := w[w[before] + 4 := elem][elem + 4 := before];
      InsertBefore(w, before, elem) == w2[elem := w2[before]][before := elem]
  {
  }

  lemma UnlinkIs(w: Words, elem: int)
    requires elem in w && elem + 4 in w
    ensures var w1 := w[w[elem] + 4 := w[elem + 4]];
      Unlink(w, elem) == w1[w1[elem + 4] := w1[elem]]
  {
  }

  method ListInit(m: PageManager, L: int)
    requires m.Valid() && L in m.Memory() && L + 4 in m.Memory() && L + 8 in m.Memory() && L + 12 in m.Memory()
    modifies m`mem
    ensures m.Snap() == old(m.Snap()).(mem := m.mem)
    ensures m.Valid() && m.Memory() == old(m.Memory())[L := 0][L + 4 := L + 8][L + 8 := L][L + 12 := 0]
    ensures IsList(m.Memory(), L, [])
  {
    hide *;
    EmptyList(m.Memory(), L);
    m.Write(L, 0);
    m.Write(L + 4, L + 8);
    m.Write(L + 8, L);
    m.Write(L + 12, 0);
  }

  method ListInsertBefore(m: PageManager, before: int, elem: int)
    requires m.Valid() && before in m.Memory() && elem in m.Memory() && elem + 4 in m.Memory()
    requires m.Memory()[before] + 4 in m.Memory()
    modifies m`mem
    ensures m.Snap() == old(m.Snap()).(mem := m.mem)
    ensures m.Valid() && m.Memory() == InsertBefore(old(m.Memory()), before, elem)
  {
    hide *;
    var p := m.Read(before);
    InsertIs(m.Memory(), before, elem);
    m.Write(p + 4, elem);
    m.Write(elem + 4, before);
    p := m.Read(before);
    m.Write(elem, p);
    m.Write(before, elem);
  }

  method ListPush(m: PageManager, L: int, elem: int, ghost xs: seq<int>)
    requires m.Valid() && IsList(m.Memory(), L, xs) && elem in m.Memory() && elem + 4 in m.Memory()
    requires Outside(L, xs, elem)
    modifies m`mem
    ensures m.Snap() == old(m.Snap()).(mem := m.mem)
    ensures m.Valid() && IsList(m.Memory(), L, [elem] + xs)
    ensures Within(old(m.Memory()), m.Memory(), Chain(L, xs) + [elem])
  {
    hide *;
    Along(m.Memory(), L, xs, 0);
    InsertKeeps(m.Memory(), L, xs, 0, elem);
    assert xs[..0] + [elem] + xs[0..] == [elem] + xs;
    var first := m.Read(L + 4);
    ListInsertBefore(m, first, elem);
  }

  method ListAppend(m: PageManager, L: int, elem: int, ghost xs: seq<int>)
    requires m.Valid() && IsList(m.Memory(), L, xs) && elem in m.Memory() && elem + 4 in m.Memory()
    requires Outside(L, xs, elem)
    modifies m`mem
    ensures m.Snap() == old(m.Snap()).(mem := m.mem)
    ensures m.Valid() && IsList(m.Memory(), L, xs + [elem])
    ensures Within(old(m.Memory()), m.Memory(), Chain(L, xs) + [elem])
  {
    hide *;
    Along(m.Memory(), L, xs, |xs|);
    InsertKeeps(m.Memory(), L, xs, |xs|, elem);
    assert xs[..|xs|] + [elem] + xs[|xs|..] == xs + [elem];
    ListInsertBefore(m, L + 8, elem);
  }

  method ListRemove(m: PageManager, elem: int, ghost L: int, ghost xs: seq<int>, ghost k: int)
    requires m.Valid() && IsList(m.Memory(), L, xs) && 0 <= k < |xs| && xs[k] == elem
    modifies m`mem
    ensures m.Snap() == old(m.Snap()).(mem := m.mem)
    ensures m.Valid() && IsList(m.Memory(), L, xs[..k] + xs[k + 1..])
    ensures Within(old(m.Memory()), m.Memory(), Chain(L, xs))
  {
    hide *;
    Along(m.Memory(), L, xs, k);
    Along(m.Memory(), L, xs, k + 1);
    UnlinkKeeps(m.Memory(), L, xs, k);
    UnlinkStores(m.Memory(), L, xs, k);
    UnlinkIs(m.Memory(), elem);
    var p := m.Read(elem);
    var n := m.Read(elem + 4);
    m.Write(p + 4, n);
    n := m.Read(elem + 4);
    p := m.Read(elem);
    m.Write(n, p);
  }

  method ListEmpty(m: PageManager, L: int, ghost xs: seq<int>) returns (b: bool)
    requires m.Valid() && IsList(m.Memory(), L, xs)
    ensures b <==> xs == []
    ensures m.Valid() && m.Snap() == old(m.Snap()) && m.Memory() == old(m.Memory())
  {
    hide *;
    Along(m.Memory(), L, xs, 0);
    var first := m.Read(L + 4);
    b := first == L + 8;
  }

  method ListPop(m: PageManager, L: int, ghost xs: seq<int>) returns (elem: int)
    requires m.Valid() && IsList(m.Memory(), L, xs) && xs != []
    modifies m`mem
    ensures m.Snap() == old(m.Snap()).(mem := m.mem)
    ensures elem == xs[0] && m.Valid() && IsList(m.Memory(), L, xs[1..])
    ensures Within(old(m.Memory()), m.Memory(), Chain(L, xs))
  {
    hide *;
    Along(m.Memory(), L, xs, 0);
    elem := m.Read(L + 4);
    assert elem != L + 8;
    assert xs[..0] + xs[1..] == xs[1..];
    ListRemove(m, elem, L, xs, 0);
  }

  method ListLen(m: PageManager, L: int, ghost xs: seq<int>) returns (n: int)
    requires m.Valid() && IsList(m.Memory(), L, xs)
    ensures n == |xs|
    ensures m.Valid() && m.Snap() == old(m.Snap()) && m.Memory() == old(m.Memory())
  {
    hide *;
    n := 0;
    Along(m.Memory(), L, xs, 0);
    ghost var w := m.Memory();
    var next := m.Read(L + 4);
    while next != L + 8
      invariant m.Valid() && m.Memory() == w && m.Snap() == old(m.Snap())
      invariant 0 <= n <= |xs| && next == Chain(L, xs)[n + 1]
      decreases |xs| - n
    {
      Along(m.Memory(), L, xs, n);
      Along(m.Memory(), L, xs, n + 1);
      next := m.Read(next + 4);
      n := n + 1;
    }
    Along(m.Memory(), L, xs, n);
  }

  method ElemFind(m: PageManager, L: int, elem: int, ghost xs: seq<int>) returns (found: bool)
    requires m.Valid() && IsList(m.Memory(), L, xs)
    ensures found <==> elem in xs
    ensures m.Valid() && m.Snap() == old(m.Snap()) && m.Memory() == old(m.Memory())
  {
    hide *;
    ghost var k := 0;
    Along(m.Memory(), L, xs, 0);
    ghost var w := m.Memory();
    var next := m.Read(L + 4);
    while next != L + 8
      invariant m.Valid() && m.Memory() == w && m.Snap() == old(m.Snap())
      invariant 0 <= k <= |xs| && next == Chain(L, xs)[k + 1] && elem !in xs[..k]
      decreases |xs| - k
    {
      Along(m.Memory(), L, xs, k);
      Along(m.Memory(), L, xs, k + 1);
      if next == elem { return true; }
      next := m.Read(next + 4);
      assert xs[..k + 1] == xs[..k] + [xs[k]];
      k := k + 1;
    }
    Along(m.Memory(), L, xs, k);
    assert xs[..k] == xs;
    return false;
  }
}
