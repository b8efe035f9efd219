/**
 * The segmented NES address decoder of nes_memory.c.
 *
 * `decode_nes` classifies a 16-bit address by a cascade of `<=` comparisons
 * against the region ends and, for the RAM window only, returns a pointer into
 * a 2 KiB RAM buffer; the four other branches are empty, so the C function
 * falls off its end and no storage cell is produced. The model returns the
 * region together with an optional RAM offset and invents no storage for the
 * PPU, APU or cartridge windows.
 */
module NesMemory {
  import opened Bits
  import opened Wrappers

  const RamEnd: Word := 0x1FFF
  const PpuEnd: Word := 0x3FFF
  const ApuEnd: Word := 0x4017
  const ApuDisabledEnd: Word := 0x401F
  const CartEnd: Word := 0xFFFF

  /** The 2 KiB of NES RAM, mirrored through the mask 0x7FF. */
  const RamSize := 0x800

  datatype Region = Ram | PpuRegisters | ApuIo | ApuDisabled | Cartridge

  /** The window an address falls in, and the RAM cell behind it if it has one. */
  datatype Decoded = Decoded(region: Region, cell: Option<nat>)

  /**
   * `decode_nes`. The RAM offset `addr & 0x7FF` is written `addr % 0x800`,
   * which is the same number for a non-negative address.
   */
  function DecodeNes(addr: Word): (d: Decoded)
    ensures d.cell.Some? <==> d.region == Ram
    ensures d.cell.Some? ==> d.cell.value < RamSize && (addr - d.cell.value) % RamSize == 0
  {
    if addr <= RamEnd then Decoded(Ram, Some(addr % RamSize))
    else if addr <= PpuEnd then Decoded(PpuRegisters, None)
    else if addr <= ApuEnd then Decoded(ApuIo, None)
    else if addr <= ApuDisabledEnd then Decoded(ApuDisabled, None)
    else Decoded(Cartridge, None)
  }

  /**
   * The cascade partitions the 16-bit space into five intervals: each address
   * lands in exactly the region whose bounds contain it.
   */
  lemma RegionBounds(addr: Word)
    ensures DecodeNes(addr).region == Ram <==> addr <= 0x1FFF
    ensures DecodeNes(addr).region == PpuRegisters <==> 0x2000 <= addr <= 0x3FFF
    ensures DecodeNes(addr).region == ApuIo <==> 0x4000 <= addr <= 0x4017
    ensures DecodeNes(addr).region == ApuDisabled <==> 0x4018 <= addr <= 0x401F
    ensures DecodeNes(addr).region == Cartridge <==> 0x4020 <= addr <= CartEnd
  {
  }

  /** Only the RAM window is backed by a storage cell. */
  lemma OnlyRamIsBacked(addr: Word)
    ensures DecodeNes(addr).cell.Some? <==> addr <= RamEnd
  {
  }

  /** The four images of a RAM cell in 0x0000-0x1FFF decode to that one cell. */
  lemma {:induction false} RamMirroring(addr: Word, k: nat)
    requires addr + RamSize * k <= RamEnd
    ensures DecodeNes(addr + RamSize * k).cell == DecodeNes(addr).cell == Some(addr % RamSize)
  {
    if k > 0 {
      RamMirroring(addr, k - 1);
      assert addr + RamSize * k == (addr + RamSize * (k - 1)) + RamSize;
    }
  }
}
