/** Where mem_pool_init puts the two frame pools and the three bitmaps. */
module Layout {
  const BITMAP_AREA := 0xc009_a000 // MEM_BITMAP_BASE; the area ends at the main thread's PCB
  const BITMAP_AREA_END := 0xc009_e000

  /** Addresses and sizes in bytes, as mem_pool_init stores them. */
  datatype Pools = Pools(kernelStart: int, kernelSize: int, kernelBits: int, kernelBytes: int,
                         userStart: int, userSize: int, userBits: int, userBytes: int,
                         virtualBits: int, virtualBytes: int)

  /** mem_pool_init; the page counts are uint16_t. */
  function MemPoolInit(allMem: int): Pools
    requires 0x20_0000 <= allMem < 0x1_0000_0000
  {
    var used := 0x1000 * 256 + 0x10_0000;
    var free := allMem - used;
    var pages := free / 0x1000 % 0x1_0000;
    var kernelPages := pages / 2;
    var userPages := pages - kernelPages;
    var kernelBytes, userBytes := kernelPages / 8, userPages / 8;
    Pools(used, kernelPages * 0x1000, BITMAP_AREA, kernelBytes,
          used + kernelPages * 0x1000, userPages * 0x1000, BITMAP_AREA + kernelBytes, userBytes,
          BITMAP_AREA + kernelBytes + userBytes, kernelBytes)
  }

  /** Up to 258 MB no page above the boot tables is lost, and the two pools share them evenly; beyond
      that the 16-bit page count wraps round. */
  lemma PoolsShare(allMem: int)
    requires 0x20_0000 <= allMem < 0x1_0000_0000
    ensures var p := MemPoolInit(allMem);
      && (p.userSize == p.kernelSize || p.userSize == p.kernelSize + 0x1000)
      && (p.kernelSize + p.userSize) % 0x1000 == 0
      && (p.kernelSize + p.userSize) / 0x1000 == (allMem - 0x20_0000) / 0x1000 % 0x1_0000
      && (allMem < 0x1020_0000 <==> allMem - (p.userStart + p.userSize) < 0x1000)
      && p.kernelBytes <= p.userBytes
  {
    var free := allMem - 0x20_0000;
    var pages := free / 0x1000 % 0x1_0000;
    var p := MemPoolInit(allMem);
    assert p.kernelSize + p.userSize == pages * 0x1000;
    assert free == free / 0x1000 * 0x1000 + free % 0x1000;
    assert free / 0x1000 == free / 0x1000_0000 * 0x1_0000 + pages;
  }

  /** For every amount of memory the kernel can boot with, the pools do not overlap and lie in
      memory above the boot tables, every frame a bitmap can name lies in its pool, the bitmaps
      do not overlap and stay below the main thread's PCB. */
  lemma PoolsFit(allMem: int)
    requires 0x20_0000 <= allMem < 0x1_0000_0000
    ensures var p := MemPoolInit(allMem);
      && 0x20_0000 == p.kernelStart && p.kernelStart + p.kernelSize == p.userStart
      && p.userStart + p.userSize <= allMem && p.kernelSize <= 0x800_0000 && p.userSize <= 0x800_0000
      && 0 <= p.kernelSize - 8 * p.kernelBytes * 0x1000 < 8 * 0x1000
      && 0 <= p.userSize - 8 * p.userBytes * 0x1000 < 8 * 0x1000
      && BITMAP_AREA == p.kernelBits && p.kernelBits + p.kernelBytes == p.userBits
      && p.userBits + p.userBytes == p.virtualBits && p.virtualBits + p.virtualBytes <= BITMAP_AREA_END
      && p.kernelStart % 0x1000 == 0 && p.userStart % 0x1000 == 0
      && 0 <= p.kernelBytes <= 4095 && 0 <= p.userBytes <= 4096 && p.virtualBytes == p.kernelBytes
  {
    var free := allMem - 0x20_0000;
    var pages := free / 0x1000 % 0x1_0000;
    assert pages <= free / 0x1000;
    assert pages / 2 <= 32767;
  }
}
