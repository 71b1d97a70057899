/** The byte-packed bitmap of lib/kernel/bitmap.c, which records page and frame use. */
module Bitmaps {

  /** Number of clear bits of v in [l, r). */
  ghost function Zeros(v: seq<bool>, l: int, r: int): (n: int)
    requires 0 <= l <= r <= |v|
    ensures 0 <= n <= r - l
    decreases r - l
  {
    if l == r then 0 else Zeros(v, l, r - 1) + (if v[r - 1] then 0 else 1)
  }

  ghost predicate AllClear(v: seq<bool>, l: int, r: int)
    requires 0 <= l <= r <= |v|
  {
    forall i :: l <= i < r ==> !v[i]
  }

  /** l starts a window of cnt clear bits that bitmap_scan looks at: the scan compares
      a bit index with the length in bytes, and stops before it tests the final window. */
  ghost predicate Fits(v: seq<bool>, bytes: int, cnt: int, l: int) {
    0 <= l && 0 <= cnt && l + cnt < bytes <= |v| && AllClear(v, l, l + cnt)
  }

  /** v with the bits of [start, start + cnt) set to b. */
  ghost function SetRange(v: seq<bool>, start: int, cnt: int, b: bool): (w: seq<bool>)
    requires 0 <= start && 0 <= cnt && start + cnt <= |v|
    ensures |w| == |v|
    ensures forall i :: 0 <= i < |v| ==> w[i] == if start <= i < start + cnt then b else v[i]
  {
    seq(|v|, i requires 0 <= i < |v| => if start <= i < start + cnt then b else v[i])
  }

  lemma FitsInside(v: seq<bool>, bytes: int, cnt: int, l: int)
    requires Fits(v, bytes, cnt, l)
    ensures 0 <= l && l + cnt < bytes <= |v| && AllClear(v, l, l + cnt)
  {
  }

  /** In full: the window lies before the length in bytes and its bits are clear. */
  lemma FitsIs(v: seq<bool>, bytes: int, cnt: nat, l: nat)
    requires 8 * bytes == |v|
    ensures Fits(v, bytes, cnt, l) <==> l + cnt < bytes && forall i :: l <= i < l + cnt ==> !v[i]
  {
  }

  lemma SetRangeGrows(v: seq<bool>, start: int, k: int, b: bool)
    requires 0 <= start && 0 <= k && start + k < |v|
    ensures SetRange(v, start, k, b)[start + k := b] == SetRange(v, start, k + 1, b)
  {
  }

  lemma {:induction false} ZerosDropLeft(v: seq<bool>, l: int, r: int)
    requires 0 <= l < r <= |v|
    ensures Zeros(v, l, r) == Zeros(v, l + 1, r) + (if v[l] then 0 else 1)
    decreases r - l
  {
    if l + 1 < r { ZerosDropLeft(v, l, r - 1); }
  }

  lemma {:induction false} ZerosFull(v: seq<bool>, l: int, r: int)
    requires 0 <= l <= r <= |v|
    ensures Zeros(v, l, r) == r - l <==> AllClear(v, l, r)
    decreases r - l
  {
    if l < r { ZerosFull(v, l, r - 1); }
  }

  /** The scan has rejected every window before l and counted the clear bits of the one at l. */
  ghost predicate Scanned(v: seq<bool>, bytes: int, cnt: int, l: int, zeronum: int) {
    && 0 <= l && 0 <= cnt && 8 * bytes == |v|
    && (l + cnt <= bytes ==> zeronum == Zeros(v, l, l + cnt))
    && forall k :: k < l ==> !Fits(v, bytes, cnt, k)
  }

  /** One step of the sliding window: what its count says, and how the count moves. */
  lemma Slide(v: seq<bool>, bytes: int, cnt: int, l: int, zeronum: int)
    requires Scanned(v, bytes, cnt, l, zeronum)
    ensures l + cnt >= bytes ==> forall k :: !Fits(v, bytes, cnt, k)
    ensures zeronum == cnt && l + cnt < bytes ==> Fits(v, bytes, cnt, l)
    ensures zeronum != cnt && l + cnt < bytes ==> Scanned(v, bytes, cnt, l + 1,
      zeronum - (if v[l] then 0 else 1) + (if v[l + cnt] then 0 else 1))
  {
    if l + cnt < bytes {
      ZerosFull(v, l, l + cnt);
      ZerosDropLeft(v, l, l + cnt + 1);
    }
  }

  /** How many single bits bitmap_scan can find one after another. */
  ghost function Supply(v: seq<bool>): (n: int)
    ensures n >= 0
  {
    Zeros(v, 0, if |v| >= 8 then |v| / 8 - 1 else 0)
  }

  lemma {:induction false} ZerosOfUpdate(v: seq<bool>, l: int, r: int, j: int)
    requires 0 <= l <= r <= |v| && 0 <= j < |v| && !v[j]
    ensures Zeros(v[j := true], l, r) == Zeros(v, l, r) - (if l <= j < r then 1 else 0)
    decreases r - l
  {
    if l < r { ZerosOfUpdate(v, l, r - 1, j); }
  }

  lemma {:induction false} ZeroBit(v: seq<bool>, l: int, r: int) returns (j: int)
    requires 0 <= l <= r <= |v| && Zeros(v, l, r) > 0
    ensures l <= j < r && !v[j]
    decreases r - l
  {
    if v[r - 1] { j := ZeroBit(v, l, r - 1); } else { j := r - 1; }
  }

  /** The scan for one bit succeeds if and only if there is supply, and takes 1 of it. */
  lemma SupplyFits(v: seq<bool>, bytes: int)
    requires 0 <= bytes && |v| == 8 * bytes
    ensures (exists k :: Fits(v, bytes, 1, k)) <==> Supply(v) > 0
    ensures forall k :: Fits(v, bytes, 1, k) ==> 0 <= k < |v| && !v[k] && Supply(v[k := true]) == Supply(v) - 1
  {
    if Supply(v) > 0 {
      var j := ZeroBit(v, 0, bytes - 1);
      assert Fits(v, bytes, 1, j);
    }
    forall k | Fits(v, bytes, 1, k) ensures 0 <= k < |v| && !v[k] && Supply(v[k := true]) == Supply(v) - 1 {
      ZerosOfUpdate(v, 0, bytes - 1, k);
    }
  }

  function Mask(pos: int): bv8
    requires 0 <= pos < 8
  {
    (1 as bv8) << pos
  }

  predicate TestBit(b: bv8, pos: int)
    requires 0 <= pos < 8
  {
    b & Mask(pos) != 0
  }

  function WithBit(b: bv8, pos: int, value: bool): bv8
    requires 0 <= pos < 8
  {
    if value then b | Mask(pos) else b & !Mask(pos)
  }

  lemma MaskBits(b: bv8, pos: int, q: int)
    requires 0 <= pos < 8 && 0 <= q < 8
    ensures (b | Mask(pos)) & Mask(q) != 0 <==> q == pos || b & Mask(q) != 0
    ensures (b & !Mask(pos)) & Mask(q) != 0 <==> q != pos && b & Mask(q) != 0
  {
  }

  lemma OneBit(b: bv8, pos: int, value: bool, q: int)
    requires 0 <= pos < 8 && 0 <= q < 8
    ensures TestBit(WithBit(b, pos, value), q) == if q == pos then value else TestBit(b, q)
  {
    hide Mask;
    MaskBits(b, pos, q);
  }

  /** One boolean per bit, low bit of each byte first. */
  ghost function Unpack(bs: seq<bv8>): (v: seq<bool>)
    ensures |v| == 8 * |bs|
  {
    seq(8 * |bs|, i requires 0 <= i < 8 * |bs| => TestBit(bs[i / 8], i % 8))
  }

  /** Writing one bit of one byte updates that bit of the view and no other. */
  lemma UnpackUpdate(bs: seq<bv8>, i: int, value: bool)
    requires 0 <= i < 8 * |bs|
    ensures Unpack(bs[i / 8 := WithBit(bs[i / 8], i % 8, value)]) == Unpack(bs)[i := value]
  {
    hide TestBit, WithBit;
    var cs := bs[i / 8 := WithBit(bs[i / 8], i % 8, value)];
    var v, w := Unpack(bs)[i := value], Unpack(cs);
    forall k | 0 <= k < |v| ensures w[k] == v[k] {
      if k / 8 == i / 8 {
        OneBit(bs[i / 8], i % 8, value, k % 8);
        assert k % 8 == i % 8 <==> k == i;
      }
    }
  }

  class Bitmap {
    const bits: array<bv8>

    ghost function View(): (v: seq<bool>)
      reads bits
      ensures |v| == 8 * bits.Length
    {
      Unpack(bits[..])
    }

    constructor (bytes: nat)
      ensures fresh(bits) && bits.Length == bytes
      ensures View() == seq(8 * bytes, _ => false)
    {
      bits := new bv8[bytes](_ => 0);
      new;
    }

    /** bitmap_scan_test. A bit past the end reads whatever memory follows. */
    method ScanTest(i: int, ghost v: seq<bool>) returns (b: bool)
      requires 0 <= i && v == View()
      ensures i < |v| ==> b == v[i]
    {
      if i / 8 < bits.Length {
        b := TestBit(bits[i / 8], i % 8);
      } else {
        b := *;
      }
    }

    /** The first loop of bitmap_scan: the clear bits of the window at 0. */
    method CountFirst(cnt: int, ghost v: seq<bool>) returns (zeronum: int)
      requires 0 <= cnt && v == View()
      ensures cnt <= |v| ==> zeronum == Zeros(v, 0, cnt)
    {
      zeronum := 0;
      for r := 0 to cnt
        invariant r <= |v| ==> zeronum == Zeros(v, 0, r)
      {
        var b := ScanTest(r, v);
        if !b { zeronum := zeronum + 1; }
      }
    }

    /** bitmap_scan: the least window it looks at, or -1 when there is none. */
    method Scan(cnt: int) returns (l: int)
      requires 0 <= cnt < 0x8000_0000
      ensures l == -1 || Fits(View(), bits.Length, cnt, l)
      ensures l == -1 ==> forall k :: !Fits(View(), bits.Length, cnt, k)
      ensures l != -1 ==> forall k :: k < l ==> !Fits(View(), bits.Length, cnt, k)
    {
      ghost var v := View();
      var bytes := bits.Length;
      var zeronum := CountFirst(cnt, v);
      var r := cnt;
      l := 0;
      assert Scanned(v, bytes, cnt, l, zeronum);
      while r < bytes
        invariant r == l + cnt && Scanned(v, bytes, cnt, l, zeronum)
        decreases bytes - r
      {
        hide *;
        Slide(v, bytes, cnt, l, zeronum);
        if zeronum == cnt { break; }
        var left := ScanTest(l, v);
        l := l + 1;
        if !left { zeronum := zeronum - 1; }
        var right := ScanTest(r, v);
        r := r + 1;
        if !right { zeronum := zeronum + 1; }
      }
      if r >= bytes {
        Slide(v, bytes, cnt, l, zeronum);
        l := -1;
      }
    }

    /** bitmap_set: exactly one bit of the view changes. */
    method Set(i: int, value: bool)
      requires 0 <= i < 8 * bits.Length
      modifies bits
      ensures View() == old(View())[i := value]
    {
      hide Unpack, WithBit;
      ghost var bs := bits[..];
      var index, pos := i / 8, i % 8;
      var byte := WithBit(bits[index], pos, value);
      bits[index] := byte;
      assert bits[..] == bs[index := byte];
      UnpackUpdate(bs, i, value);
    }
  }
}
