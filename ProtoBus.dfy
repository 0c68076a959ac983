/** The earlier bus of olcApple1/Bus.cpp: a ROM image in front of 64 KiB of RAM, and no PIA
    window.  The constructor installs no ROM, and read and write dereference it, so both demand
    that insertRom has run. */
module ProtoBus {
  import opened Bytes
  import RomImage

  const RamSize: int := 0x1_0000
  const Wrap32: int := 0x1_0000_0000

  class Bus {
    var ram: array<byte>
    var rom: RomImage.Rom?
    /** nSystemClockCounter */
    var clockCount: u32

    ghost predicate Valid()
      reads this, rom
    {
      ram.Length == RamSize && (rom != null ==> rom.Valid())
    }

    constructor ()
      ensures Valid()
      ensures fresh(ram) && rom == null
      ensures forall i :: 0 <= i < ram.Length ==> ram[i] == 0
      ensures clockCount == 0
    {
      ram := new byte[RamSize];
      rom := null;
      clockCount := 0;
      new;
      var i := 0;
      while i < ram.Length
        invariant 0 <= i <= ram.Length
        invariant forall j :: 0 <= j < i ==> ram[j] == 0
        modifies ram
      {
        ram[i] := 0x00;
        i := i + 1;
      }
    }

    /** insertRom: r replaces whatever ROM was installed. */
    method InsertRom(r: RomImage.Rom)
      requires Valid() && r.Valid()
      modifies this`rom
      ensures Valid()
      ensures rom == r
    {
      rom := r;
    }

    /** reset: the CPU's own reset is not part of this model. */
    method Reset()
      modifies this`clockCount
      ensures clockCount == 0
    {
      clockCount := 0;
    }

    /** clock: one CPU step (not part of this model) and one more cycle, wrapping at 32 bits. */
    method Clock()
      modifies this`clockCount
      ensures clockCount == (old(clockCount) + 1) % Wrap32
    {
      clockCount := (clockCount + 1) % Wrap32;
    }

    method Write(addr: u16, data: byte)
      requires Valid() && rom != null
      modifies ram, rom
      ensures Valid()
      ensures rom.offset == old(rom.offset) && rom.size == old(rom.size)
      ensures RomImage.Claims(rom.offset, rom.size, addr) ==>
        rom.Window() == RomImage.Stored(old(rom.Window()), rom.offset, rom.size, addr, data) && ram[..] == old(ram[..])
      ensures !RomImage.Claims(rom.offset, rom.size, addr) ==>
        ram[..] == old(ram[..])[addr := data] && rom.Window() == old(rom.Window())
    {
      var claimed := rom.CpuWrite(addr, data);
      if claimed {
        // the ROM took the byte
      } else if addr <= 0xFFFF {
        ram[addr] := data;
      }
    }

    method Read(addr: u16, readOnly: bool) returns (data: byte)
      requires Valid() && rom != null
      ensures RomImage.Claims(rom.offset, rom.size, addr) ==> data == rom.Window()[RomImage.MappedAddr(rom.offset, addr)]
      ensures !RomImage.Claims(rom.offset, rom.size, addr) ==> data == ram[addr]
    {
      data := 0x00;
      var claimed;
      claimed, data := rom.CpuRead(addr, data);
      if claimed {
        // the ROM supplied the byte
      } else if addr <= 0xFFFF {
        data := ram[addr];
      }
    }
  }
}
