/** The system bus of Bus.cpp: a ROM image, the PIA and 64 KiB of RAM behind one address decoder.
    The decoder asks the ROM first, then tests the PIA window, and otherwise uses RAM.  The PIA
    window test is written `addr >= 0xD010 && addr <= 0xD001F`; the upper literal has five hex
    digits, so for a 16-bit address only the lower bound matters and the PIA (mirrored every four
    addresses) answers for every address from 0xD010 up that the ROM does not claim. */
module SystemBus {
  import opened Bytes
  import Pia
  import RomImage

  const RamSize: int := 0x1_0000
  const Wrap32: int := 0x1_0000_0000

  /** The device that answers an access. */
  datatype Device = RomDevice | PiaDevice | RamDevice

  /** The decode order of read and write, for a ROM mapped at offset with the given size. */
  function Route(offset: u16, size: u16, addr: u16): (d: Device)
    ensures d == RamDevice ==> addr < 0xD010
    ensures d == PiaDevice ==> addr >= 0xD010 && !RomImage.Claims(offset, size, addr)
  {
    if RomImage.Claims(offset, size, addr) then RomDevice
    else if addr >= 0xD010 && addr <= 0xD001F then PiaDevice
    else RamDevice
  }

  /** Every address the ROM does not claim goes to the PIA from 0xD010 up and to RAM below it. */
  lemma RouteRegions(offset: u16, size: u16, addr: u16)
    ensures Route(offset, size, addr) == RomDevice <==> RomImage.Claims(offset, size, addr)
    ensures Route(offset, size, addr) == PiaDevice <==> !RomImage.Claims(offset, size, addr) && addr >= 0xD010
    ensures Route(offset, size, addr) == RamDevice <==> !RomImage.Claims(offset, size, addr) && addr < 0xD010
  {
  }

  /** With the monitor ROM of the constructor in place (256 bytes at 0xFF00), RAM answers below
      0xD010, the PIA from 0xD010 to 0xFEFF, and the ROM for the top page. */
  lemma MonitorMap(addr: u16)
    ensures Route(0xFF00, 0x100, addr) == (if addr < 0xD010 then RamDevice else if addr < 0xFF00 then PiaDevice else RomDevice)
  {
    RomImage.MonitorPage(addr);
  }

  class Bus {
    var ram: array<byte>
    var pia: Pia.MC6821
    var rom: RomImage.Rom
    /** nSystemClockCounter */
    var clockCount: u32

    ghost predicate Valid()
      reads this, pia, rom
    {
      ram.Length == RamSize && pia.Valid() && rom.Valid()
    }

    /** `monitor` stands for the content of the monitor ROM file (None when it cannot be opened).
        The reset-vector stores at 0xFFFC and 0xFFFD come before the clearing loop, so every RAM
        byte ends up 0. */
    constructor (monitor: Option<seq<byte>>)
      ensures Valid()
      ensures fresh(ram) && fresh(pia) && fresh(rom)
      ensures forall i :: 0 <= i < ram.Length ==> ram[i] == 0
      ensures clockCount == 0
      ensures rom.offset == (if monitor.Some? then 0xFF00 else 0)
      ensures rom.imageValid == monitor.Some?
      ensures monitor.Some? ==> rom.size == |monitor.value| % 0x1_0000 && rom.memory == monitor.value[..rom.size]
      ensures monitor.None? ==> rom.size == 0 && rom.memory == []
      ensures Pia.PowerOn(pia.State())
    {
      ram := new byte[RamSize];
      pia := new Pia.MC6821();
      clockCount := 0;
      var image := new RomImage.Rom(monitor, 0xFF00);
      rom := image;
      new;
      InsertRom(image);
      ram[0xFFFC] := 0x00;
      ram[0xFFFD] := 0xFF;
      var i := 0;
      while i < ram.Length
        invariant 0 <= i <= ram.Length
        invariant forall j :: 0 <= j < i ==> ram[j] == 0
        modifies ram
      {
        ram[i] := 0x00;
        i := i + 1;
      }
    }

    /** insertRom: the bus uses r from now on; its validity flag is not consulted. */
    method InsertRom(r: RomImage.Rom)
      modifies this`rom
      ensures rom == r
    {
      rom := r;
    }

    /** reset: the CPU's own reset is not part of this model. */
    method Reset()
      modifies this`clockCount
      ensures clockCount == 0
    {
      clockCount := 0;
    }

    /** clock: one CPU step (not part of this model) and one more cycle, wrapping at 32 bits. */
    method Clock()
      modifies this`clockCount
      ensures clockCount == (old(clockCount) + 1) % Wrap32
    {
      clockCount := (clockCount + 1) % Wrap32;
    }

    method Write(addr: u16, data: byte)
      requires Valid()
      modifies ram, rom, pia
      ensures Valid()
      ensures Route(rom.offset, rom.size, addr) == old(Route(rom.offset, rom.size, addr))
      ensures rom.offset == old(rom.offset) && rom.size == old(rom.size)
      ensures Route(rom.offset, rom.size, addr) == RomDevice ==>
        && rom.Window() == RomImage.Stored(old(rom.Window()), rom.offset, rom.size, addr, data)
        && ram[..] == old(ram[..]) && pia.State() == old(pia.State())
      ensures Route(rom.offset, rom.size, addr) == PiaDevice ==>
        && pia.State() == Pia.AfterWrite(old(pia.State()), addr % 4, data)
        && ram[..] == old(ram[..]) && rom.Window() == old(rom.Window())
      ensures Route(rom.offset, rom.size, addr) == RamDevice ==>
        && ram[..] == old(ram[..])[addr := data]
        && rom.Window() == old(rom.Window()) && pia.State() == old(pia.State())
    {
      var claimed := rom.CpuWrite(addr, data);
      if claimed {
        // the ROM took the byte
      } else if addr >= 0xD010 && addr <= 0xD001F {
        pia.CpuWrite(addr, data);
      } else if addr <= 0xFFFF {
        ram[addr] := data;
      }
    }

    /** read: the read-only flag is passed on to nobody, so a read of a PIA data port clears its
        flags whatever the flag says. */
    method Read(addr: u16, readOnly: bool) returns (data: byte)
      requires Valid()
      modifies pia
      ensures Valid()
      ensures Route(rom.offset, rom.size, addr) == RomDevice ==>
        && data == rom.Window()[RomImage.MappedAddr(rom.offset, addr)]
        && pia.State() == old(pia.State())
      ensures Route(rom.offset, rom.size, addr) == PiaDevice ==>
        && data == Pia.ReadResult(old(pia.State()), addr % 4)
        && pia.State() == Pia.AfterRead(old(pia.State()), addr % 4)
      ensures Route(rom.offset, rom.size, addr) == RamDevice ==>
        && data == ram[addr]
        && pia.State() == old(pia.State())
    {
      data := 0x00;
      var claimed;
      claimed, data := rom.CpuRead(addr, data);
      if claimed {
        // the ROM supplied the byte
      } else if addr >= 0xD010 && addr <= 0xD001F {
        data := pia.CpuRead(addr, false);
      } else if addr <= 0xFFFF {
        data := ram[addr];
      }
    }
  }
}
