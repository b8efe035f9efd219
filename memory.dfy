/**
 * The byte-addressable memory interface of memory.c and its flat 2 KiB layout.
 *
 * `decode_address` maps a 16-bit address to a storage cell; `read8`, `write8`,
 * `read16` and `write16` are built on it, 16-bit values being little-endian
 * with each of the two byte addresses decoded on its own. The flat layout
 * (`decode_flat_2k`) mirrors every address onto `addr % 2048`.
 *
 * The pure functions over a 2048-byte image are the specification; the class
 * `FlatMemory` owns the buffer and updates it in place as the C code does
 * through the decoded pointer.
 */
module Memory {
  import opened Bits
  import opened Wrappers
  import NesMemory

  const RamSize := 2048

  /** The contents of the flat layout's buffer. */
  type Ram = r: seq<Byte> | |r| == RamSize witness seq(RamSize, _ => 0)

  /** `decode_flat_2k`: the offset into the 2048-byte buffer. */
  function DecodeFlat2k(addr: Word): (offset: nat)
    ensures offset < RamSize
    ensures (addr - offset) % RamSize == 0
  {
    addr % RamSize
  }

  /** The two layouts a `struct memory` can be built with. */
  datatype Layout = Flat2k | Nes

  /**
   * `decode_address`: the dispatch through the layout's decoder. The flat
   * layout decodes every address; the NES layout only its RAM window.
   */
  function DecodeAddress(layout: Layout, addr: Word): (cell: Option<nat>)
    ensures cell.Some? ==> cell.value < RamSize && (addr - cell.value) % RamSize == 0
    ensures layout == Flat2k ==> cell.Some?
    ensures layout == Nes ==> (cell.Some? <==> addr <= NesMemory.RamEnd)
  {
    match layout
    case Flat2k => Some(DecodeFlat2k(addr))
    case Nes => NesMemory.DecodeNes(addr).cell
  }

  /** `read8` on the flat layout. */
  function Load8(ram: Ram, addr: Word): Byte {
    ram[DecodeFlat2k(addr)]
  }

  /**
   * `read16`: low byte at `p`, high byte at `p + 1` computed in 16 bits.
   * The C `hi | lo` is a sum, the two bytes occupying disjoint bits.
   */
  function Load16(ram: Ram, p: Word): Word {
    Load8(ram, p) + 0x100 * Load8(ram, Wrap16(p + 1)) as int
  }

  /** `write8` on the flat layout. */
  function Store8(ram: Ram, addr: Word, value: Byte): Ram {
    ram[DecodeFlat2k(addr) := value]
  }

  /** `write16`: the low byte at `p` first, then the high byte at `p + 1`. */
  function Store16(ram: Ram, p: Word, value: Word): Ram {
    Store8(Store8(ram, p, Lo(value)), Wrap16(p + 1), Hi(value))
  }

  /** Each buffer cell has 32 addresses, `offset + 2048 * k`, that decode to it. */
  lemma Flat2kMirrors(offset: nat, k: nat)
    requires offset < RamSize && k < 32
    ensures offset + RamSize * k < 0x1_0000
    ensures DecodeFlat2k(offset + RamSize * k) == offset
  {
  }

  /**
   * Reading after a write sees the written byte at every address that aliases
   * the written one modulo 2048, and the old contents everywhere else.
   */
  lemma Load8AfterStore8(ram: Ram, written: Word, value: Byte, read: Word)
    ensures Load8(Store8(ram, written, value), read)
         == if written % RamSize == read % RamSize then value else Load8(ram, read)
  {
  }

  /** `write8` changes the one decoded cell and no other. */
  lemma Store8Frame(ram: Ram, addr: Word, value: Byte)
    ensures Store8(ram, addr, value)[addr % RamSize] == value
    ensures forall k :: 0 <= k < RamSize && k != addr % RamSize ==> Store8(ram, addr, value)[k] == ram[k]
  {
  }

  /** The byte after `p` never shares `p`'s cell, since 2048 divides 2^16. */
  lemma NextCellDistinct(p: Word)
    ensures DecodeFlat2k(Wrap16(p + 1)) != DecodeFlat2k(p)
    ensures DecodeFlat2k(Wrap16(p + 1)) == (DecodeFlat2k(p) + 1) % RamSize
  {
  }

  /** `read16` splits into the byte at `p` (low) and the byte at `p + 1` (high). */
  lemma Load16Bytes(ram: Ram, p: Word)
    ensures Lo(Load16(ram, p)) == Load8(ram, p)
    ensures Hi(Load16(ram, p)) == Load8(ram, Wrap16(p + 1))
  {
  }

  /** A word read straddling the mirror boundary reads the last cell and then the first. */
  lemma Load16Straddles(ram: Ram)
    ensures Load16(ram, 0x07FF) == ram[2047] + 0x100 * ram[0] as int
    ensures Load16(ram, 0xFFFF) == ram[2047] + 0x100 * ram[0] as int
  {
  }

  /** `read16` right after `write16` at the same address returns the written word. */
  lemma {:induction false} Load16AfterStore16(ram: Ram, p: Word, value: Word)
    ensures Load16(Store16(ram, p, value), p) == value
  {
    NextCellDistinct(p);
    var q := Wrap16(p + 1);
    var once := Store8(ram, p, Lo(value));
    Load8AfterStore8(once, q, Hi(value), p);
    Load8AfterStore8(ram, p, Lo(value), p);
    Load8AfterStore8(once, q, Hi(value), q);
  }

  /** `write16` changes exactly the cells of `p` and `p + 1`. */
  lemma Store16Frame(ram: Ram, p: Word, value: Word)
    ensures forall k :: 0 <= k < RamSize && k != DecodeFlat2k(p) && k != DecodeFlat2k(Wrap16(p + 1)) ==>
      Store16(ram, p, value)[k] == ram[k]
  {
  }

  /** The buffer behind the flat layout; `write8` and `write16` update it in place. */
  class FlatMemory {
    const cells: array<Byte>

    ghost predicate Valid() {
      cells.Length == RamSize
    }

    /** `make_flat_2k_mem`; the fresh buffer is zeroed here, where `malloc` leaves it undefined. */
    constructor ()
      ensures Valid() && fresh(cells)
    {
      cells := new Byte[RamSize];
    }

    method Read8(addr: Word) returns (value: Byte)
      requires Valid()
      ensures value == Load8(cells[..], addr)
    {
      value := cells[addr % RamSize];
    }

    method Read16(p: Word) returns (value: Word)
      requires Valid()
      ensures Lo(value) == Load8(cells[..], p) && Hi(value) == Load8(cells[..], Wrap16(p + 1))
      ensures value == Load16(cells[..], p)
    {
      var lo := Read8(p);
      var hi := Read8(Wrap16(p + 1));
      value := hi as int * 0x100 + lo;
    }

    method Write8(addr: Word, value: Byte)
      requires Valid()
      modifies cells
      ensures cells[..] == Store8(old(cells[..]), addr, value)
    {
      cells[addr % RamSize] := value;
    }

    method Write16(p: Word, value: Word)
      requires Valid()
      modifies cells
      ensures cells[..] == Store16(old(cells[..]), p, value)
    {
      Write8(p, Lo(value));
      Write8(Wrap16(p + 1), Hi(value));
    }
  }
}
