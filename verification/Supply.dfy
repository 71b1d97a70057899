/** When malloc_page has what it needs: a window of free pages, a frame for each, and frames for the
    page tables that are missing. */
module Supplies {
  import opened Paging
  import opened Agreement
  import opened Bitmaps
  import opened Views

  /** The frame pool that backs pages of pf. */
  function PoolOf(vm: Vm, pf: Half): seq<bool> { if pf == Kernel then vm.kp else vm.up }

  /** The n-th page from page p on is the first that needs its table, and has none. */
  predicate NeedsTable(m: Mem, cur: int, p: int, n: nat) {
    && !Present(Rd(m, cur, (p + n - 1) / 1024))
    && (n == 1 || (p + n - 1) / 1024 != (p + n - 2) / 1024)
  }

  /** Page tables that page_table_add has to take for the n pages from page p on, in order. */
  function Missing(m: Mem, cur: int, p: int, n: nat): (r: nat)
    ensures r <= n
  {
    if n == 0 then 0 else Missing(m, cur, p, n - 1) + if NeedsTable(m, cur, p, n) then 1 else 0
  }

  /** The frames suffice for the n pages of pf from page start on. */
  ghost predicate Enough(vm: Vm, pf: Half, cur: int, start: int, n: nat) {
    && n <= Supply(PoolOf(vm, pf))
    && (pf == User ==> Missing(vm.mem, cur, U_PAGE0 + start, n) <= Supply(vm.kp))
  }

  /** start is the window of n pages that vaddr_get finds. */
  ghost predicate FirstFit(v: seq<bool>, n: int, start: int) {
    Fits(v, |v| / 8, n, start) && forall k :: k < start ==> !Fits(v, |v| / 8, n, k)
  }

  /** malloc_page of n pages does not run out. */
  ghost predicate Available(vm: Vm, pf: Half, cur: int, n: nat)
    requires pf == User ==> cur in vm.uv
  {
    exists start :: FirstFit(VBits(vm, pf, cur), n, start) && Enough(vm, pf, cur, start, n)
  }

  // In full.

  /** The directory entries of the n pages from page p on that have no table. */
  function NoTables(m: Mem, cur: int, p: int, n: nat): set<int>
  {
    set d | n > 0 && p / 1024 <= d <= (p + n - 1) / 1024 && !Present(Rd(m, cur, d))
  }

  lemma NoTablesNext(m: Mem, cur: int, p: int, n: nat)
    requires n > 0
    ensures NeedsTable(m, cur, p, n) ==> (p + n - 1) / 1024 !in NoTables(m, cur, p, n - 1)
    ensures NoTables(m, cur, p, n) ==
      NoTables(m, cur, p, n - 1) + if NeedsTable(m, cur, p, n) then {(p + n - 1) / 1024} else {}
  {
    hide Present, Rd;
    var a, b, d := NoTables(m, cur, p, n - 1), NoTables(m, cur, p, n), (p + n - 1) / 1024;
    var c := a + if NeedsTable(m, cur, p, n) then {d} else {};
    assert (p + n - 2) / 1024 <= d <= (p + n - 2) / 1024 + 1;
    assert p / 1024 <= d;
    forall x ensures x in b <==> x in c {
      if x == d && n == 1 { assert p / 1024 == d; }
    }
  }

  /** Missing counts them. */
  lemma {:induction false} MissingCounts(m: Mem, cur: int, p: int, n: nat)
    ensures Missing(m, cur, p, n) == |NoTables(m, cur, p, n)|
    decreases n
  {
    if n > 0 {
      hide NoTables, NeedsTable;
      NoTablesNext(m, cur, p, n);
      MissingCounts(m, cur, p, n - 1);
    } else {
      assert NoTables(m, cur, p, n) == {};
    }
  }

  /** malloc_page of n pages can be served if and only if in the virtual bitmap a window of n clear
      bits ends before the length in bytes, and there are frames for its pages and, for a process, for
      the tables that the first such window lacks. */
  lemma AvailableIs(vm: Vm, pf: Half, cur: int, n: nat, l: nat)
    requires (pf == User ==> cur in vm.uv) && |VBits(vm, pf, cur)| % 8 == 0
    requires Window(VBits(vm, pf, cur), n, l) && forall k :: 0 <= k < l ==> !Window(VBits(vm, pf, cur), n, k)
    ensures Available(vm, pf, cur, n) <==>
      && n <= Supply(if pf == Kernel then vm.kp else vm.up)
      && (pf == User ==> |NoTables(vm.mem, cur, U_PAGE0 + l, n)| <= Supply(vm.kp))
  {
    hide NoTables, Missing, Supply, Window;
    var v := VBits(vm, pf, cur);
    WindowIs(v, n, l);
    MissingCounts(vm.mem, cur, U_PAGE0 + l, n);
    if Available(vm, pf, cur, n) {
      var j :| FirstFit(v, n, j) && Enough(vm, pf, cur, j, n);
      FirstFitUnique(v, n, j, l);
    }
    assert Enough(vm, pf, cur, l, n) ==> Available(vm, pf, cur, n);
  }

  lemma AvailableNot(vm: Vm, pf: Half, cur: int, n: nat)
    requires (pf == User ==> cur in vm.uv) && |VBits(vm, pf, cur)| % 8 == 0
    requires forall k :: !Window(VBits(vm, pf, cur), n, k)
    ensures !Available(vm, pf, cur, n)
  {
    var v := VBits(vm, pf, cur);
    if Available(vm, pf, cur, n) {
      var j :| FirstFit(v, n, j) && Enough(vm, pf, cur, j, n);
      FitsInside(v, |v| / 8, n, j);
      assert Window(v, n, j);
    }
  }

  lemma WindowIs(v: seq<bool>, n: nat, l: nat)
    requires |v| % 8 == 0
    ensures FirstFit(v, n, l) <==> Window(v, n, l) && forall k :: 0 <= k < l ==> !Window(v, n, k)
  {
    forall k: nat ensures Window(v, n, k) <==> Fits(v, |v| / 8, n, k) { FitsIs(v, |v| / 8, n, k); }
  }

  /** n clear bits from l on, before the length of v in bytes. */
  predicate Window(v: seq<bool>, n: int, l: int) {
    0 <= l && 0 <= n && l + n < |v| / 8 && forall i :: l <= i < l + n ==> !v[i]
  }

  lemma FirstFitUnique(v: seq<bool>, n: int, i: int, j: int)
    requires FirstFit(v, n, i) && FirstFit(v, n, j)
    ensures i == j
  {
  }

  lemma {:induction false} MissingGrows(m: Mem, cur: int, p: int, k: nat, n: nat)
    requires k <= n
    ensures Missing(m, cur, p, k) <= Missing(m, cur, p, n)
    decreases n
  {
    if k < n { MissingGrows(m, cur, p, k, n - 1); }
  }

  /** What mapping the k pages from start on has used up, and which tables there are now. */
  ghost predicate Spent(vm: Vm, vm': Vm, pf: Half, cur: int, start: int, k: nat) {
    && Supply(PoolOf(vm', pf)) == Supply(PoolOf(vm, pf)) - k
    && (pf == User ==>
      && Supply(vm'.kp) == Supply(vm.kp) - Missing(vm.mem, cur, U_PAGE0 + start, k)
      && forall d :: 0 <= d < 768 ==> (Present(Rd(vm'.mem, cur, d)) <==>
        Present(Rd(vm.mem, cur, d)) ||
        (k > 0 && (U_PAGE0 + start) / 1024 <= d <= (U_PAGE0 + start + k - 1) / 1024)))
  }

  lemma SpentNone(vm: Vm, pf: Half, cur: int, start: int)
    ensures Spent(vm, vm, pf, cur, start, 0)
  {
  }

  /** The table of the next page has been there from the start or come with the page before. */
  lemma NextTable(vm: Vm, vm': Vm, cur: int, start: int, k: nat)
    requires Spent(vm, vm', User, cur, start, k) && 0 <= start && start + k < U_PAGES
    ensures Missing(vm.mem, cur, U_PAGE0 + start, k + 1) == Missing(vm.mem, cur, U_PAGE0 + start, k) +
      if Present(Rd(vm'.mem, cur, (U_PAGE0 + start + k) / 1024)) then 0 else 1
  {
    var p := U_PAGE0 + start;
    var d := (p + k) / 1024;
    assert 0 <= d < 768;
    if k > 0 {
      assert p / 1024 <= (p + k - 1) / 1024 <= d;
      assert d <= (p + k - 1) / 1024 + 1;
    }
  }

  /** One more page. */
  lemma SpentNext(vm: Vm, a: Vm, b: Vm, pf: Half, cur: int, start: int, k: nat)
    requires Spent(vm, a, pf, cur, start, k) && Spent(a, b, pf, cur, start + k, 1)
    requires pf == User ==> 0 <= start && start + k < U_PAGES
    ensures Spent(vm, b, pf, cur, start, k + 1)
  {
    if pf == User {
      NextTable(vm, a, cur, start, k);
      var next := U_PAGE0 + (start + k);
      assert Missing(a.mem, cur, next, 1) == if Present(Rd(a.mem, cur, next / 1024)) then 0 else 1;
      var p := U_PAGE0 + start;
      assert k > 0 ==> (p + k) / 1024 <= (p + k - 1) / 1024 + 1;
    }
  }

  /** A page that cannot be mapped for want of frames shows that there were not enough. */
  lemma NotEnough(vm: Vm, a: Vm, pf: Half, cur: int, start: int, k: nat, n: nat)
    requires Spent(vm, a, pf, cur, start, k) && k < n && !Enough(a, pf, cur, start + k, 1)
    requires pf == User ==> 0 <= start && start + n <= U_PAGES
    ensures !Enough(vm, pf, cur, start, n)
  {
    if pf == User {
      NextTable(vm, a, cur, start, k);
      MissingGrows(vm.mem, cur, U_PAGE0 + start, k + 1, n);
      var next := U_PAGE0 + (start + k);
      assert Missing(a.mem, cur, next, 1) == if Present(Rd(a.mem, cur, next / 1024)) then 0 else 1;
    }
  }

  /** And when all have been mapped there were. */
  lemma WasEnough(vm: Vm, a: Vm, pf: Half, cur: int, start: int, n: nat)
    requires Spent(vm, a, pf, cur, start, n)
    ensures Enough(vm, pf, cur, start, n)
  {
  }
}
