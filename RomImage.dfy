/** The ROM image of Rom.cpp: a byte vector mapped at an offset, answering range probes from the
    bus.  The claim test is inclusive at the top, so it also claims the address one past the last
    byte of the image; the C++ indexes past the end of the vector there.  The model gives that
    slot a byte of its own (`overrun`), so the image plus that slot is the window the probes see. */
module RomImage {
  import opened Bytes

  const Wrap32: int := 0x1_0000_0000

  /** `uint32_t mapped_addr = addr - iOffset`: the difference of the two 16-bit values, wrapped
      to 32 bits (an address below the offset becomes a huge number). */
  function MappedAddr(offset: u16, addr: u16): (m: u32)
    ensures offset <= addr ==> m == addr - offset
    ensures addr < offset ==> m >= Wrap32 - 0x1_0000
  {
    (addr - offset) % Wrap32
  }

  /** `mapped_addr >= 0 and mapped_addr <= iSize` (the first half always holds for an unsigned
      value). */
  predicate Claims(offset: u16, size: u16, addr: u16)
  {
    MappedAddr(offset, addr) <= size
  }

  /** The claimed range, in plain terms: from the offset up to and including offset + size. */
  lemma ClaimRange(offset: u16, size: u16, addr: u16)
    ensures Claims(offset, size, addr) <==> offset <= addr <= offset + size
  {
  }

  /** An address below the offset is never claimed, because its difference wraps around. */
  lemma BelowOffsetRejected(offset: u16, size: u16, addr: u16)
    requires addr < offset
    ensures !Claims(offset, size, addr)
  {
  }

  /** The 256-byte monitor image the bus maps at 0xFF00 claims exactly the top page: the slot one
      past its end would be 0x10000, which no 16-bit address reaches. */
  lemma MonitorPage(addr: u16)
    ensures Claims(0xFF00, 0x100, addr) <==> addr >= 0xFF00
  {
  }

  /** The byte a read probe leaves in `data`: the window byte on a claim, the caller's byte
      otherwise. */
  function Fetched(window: seq<byte>, offset: u16, size: u16, addr: u16, data: byte): byte
    requires |window| == size + 1
  {
    if Claims(offset, size, addr) then window[MappedAddr(offset, addr)] else data
  }

  /** The window after a write probe. */
  function Stored(window: seq<byte>, offset: u16, size: u16, addr: u16, data: byte): (w: seq<byte>)
    requires |window| == size + 1
    ensures |w| == |window|
  {
    if Claims(offset, size, addr) then window[MappedAddr(offset, addr) := data] else window
  }

  /** A claimed write is read back; a rejected one changes nothing that a read can see. */
  lemma ReadAfterWrite(window: seq<byte>, offset: u16, size: u16, addr: u16, data: byte, dflt: byte)
    requires |window| == size + 1
    ensures Claims(offset, size, addr) ==> Fetched(Stored(window, offset, size, addr, data), offset, size, addr, dflt) == data
    ensures !Claims(offset, size, addr) ==> Stored(window, offset, size, addr, data) == window
  {
  }

  /** A write at one address leaves the byte seen at every other claimed address as it was. */
  lemma WriteLeavesOthers(window: seq<byte>, offset: u16, size: u16, addr: u16, other: u16, data: byte, dflt: byte)
    requires |window| == size + 1
    requires addr != other
    ensures Fetched(Stored(window, offset, size, addr, data), offset, size, other, dflt)
         == Fetched(window, offset, size, other, dflt)
  {
    if Claims(offset, size, addr) && Claims(offset, size, other) {
      assert MappedAddr(offset, addr) != MappedAddr(offset, other);
    }
  }

  class Rom {
    var imageValid: bool
    var memory: seq<byte>
    /** The byte at index iSize, past the end of the vector, that the inclusive bound reaches. */
    var overrun: byte
    var offset: u16
    var size: u16

    ghost predicate Valid()
      reads this
    {
      |memory| == size
    }

    /** The bytes the probes can reach, from the offset on. */
    ghost function Window(): (w: seq<byte>)
      reads this
      requires Valid()
      ensures |w| == size + 1
    {
      memory + [overrun]
    }

    /** `file` is the content of the ROM file, or None when it cannot be opened.  The size of a
        file is truncated to the 16 bits of iSize, and the vector holds that many bytes of it. */
    constructor (file: Option<seq<byte>>, offset: u16)
      ensures Valid()
      ensures file.None? ==> !imageValid && this.offset == 0 && size == 0 && memory == []
      ensures file.Some? ==> imageValid && this.offset == offset && size == |file.value| % 0x1_0000
      ensures file.Some? ==> memory == file.value[..size]
    {
      var spill: byte :| true;
      overrun := spill;
      imageValid := false;
      this.offset := 0;
      size := 0;
      memory := [];
      if file.Some? {
        var n := |file.value| % 0x1_0000;
        size := n;
        memory := file.value[..n];
        this.offset := offset;
        imageValid := true;
      }
    }

    method ImageValid() returns (valid: bool)
      ensures valid == imageValid
    {
      valid := imageValid;
    }

    /** cpuRead: on a claim `data` takes the mapped byte; otherwise the caller's byte is kept. */
    method CpuRead(addr: u16, data: byte) returns (claimed: bool, result: byte)
      requires Valid()
      ensures claimed == Claims(offset, size, addr)
      ensures result == Fetched(Window(), offset, size, addr, data)
    {
      var mapped := MappedAddr(offset, addr);
      if mapped <= size {
        result := if mapped < size then memory[mapped] else overrun;
        claimed := true;
      } else {
        result := data;
        claimed := false;
      }
    }

    /** cpuWrite: on a claim the mapped byte is replaced; otherwise nothing changes. */
    method CpuWrite(addr: u16, data: byte) returns (claimed: bool)
      requires Valid()
      modifies this`memory, this`overrun
      ensures Valid()
      ensures claimed == Claims(offset, size, addr)
      ensures Window() == Stored(old(Window()), offset, size, addr, data)
    {
      var mapped := MappedAddr(offset, addr);
      if mapped <= size {
        if mapped < size {
          memory := memory[mapped := data];
        } else {
          overrun := data;
        }
        claimed := true;
      } else {
        claimed := false;
      }
    }
  }
}
