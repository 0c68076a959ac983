# Apple-1 I/O core in Dafny

A model of the input/output side of an Apple-1 emulator and proofs about it. The emulated
machine is a 6502 CPU on a 16-bit bus with 64 KiB of RAM, a 256-byte monitor ROM at 0xFF00 and a
Motorola MC6821 PIA (peripheral interface adapter). Port A of the PIA carries the keyboard and
port B the terminal.

The model follows the C++ classes one by one. Each class is a Dafny `class` with the same fields
and methods. Each method is proved against pure transition functions on an abstract state, and the
properties of the devices are lemmas about those functions.

| file | models |
|---|---|
| `Bytes.dfy` | `byte` (`bv8`), the `u8`/`u16`/`u32` integer ranges, `Option` |
| `Pia.dfy` | `MC6821.cpp`: two port sections, mode decoding of the control registers, register reads and writes, the CA1/CA2/CB1/CB2 control lines, interrupt flags |
| `ProtoPia.dfy` | `olcApple1/MC6821.cpp`: the earlier chip with a stub read and the same write path |
| `RomImage.dfy` | `Rom.cpp`: the ROM image and its inclusive range probe |
| `SystemBus.dfy` | `Bus.cpp`: RAM, PIA and ROM behind the decoder (ROM, then PIA window, then RAM) |
| `ProtoBus.dfy` | `olcApple1/Bus.cpp`: ROM, then RAM |
| `Terminal.dfy` | `Apple1Terminal.cpp`: the output queue, the 24 x 40 character buffer and cursor, scrolling, and the glyph tables built from the character ROM |
| `Keyboard.dfy` | `Apple1Keyboard.cpp`: the key tables, the scan for the first pressed key, and the strobe into PIA port A |
| `Formatting.dfy` | `hex` and `bin` of `Apple1.cpp`, and `hex` of `olcApple1/Apple1.cpp` |

Behaviour the model keeps exactly as written:

- **ROM probe.** It claims `mapped_addr <= iSize`, which includes the address one past the image.
  `vMemory[iSize]` lies outside the vector, so the model gives that slot a byte of its own
  (`overrun`). The bus therefore sees `memory + [overrun]`.
- **PIA window.** The test is `addr >= 0xD010 && addr <= 0xD001F`. The upper literal has five
  hex digits, so it always holds for a 16-bit address. The PIA, mirrored every 4 bytes, therefore
  answers for every address from 0xD010 up that the ROM does not claim. RAM is reached only below
  0xD010.
- **Uninitialised values** are left arbitrary: `nCB1`/`nCB2` of the PIA, the terminal cursor
  before `ClearScreen`, and the glyph-table entries no file byte reaches.
- **Bit operations on bytes** are done on `bv8`. `addr & 3` is `addr % 4`. The 32-bit clock
  counter wraps at 2^32. The ROM size is cut to the 16 bits of `iSize`. The unsigned difference
  `addr - iOffset` wraps at 2^32.

## Model

| member | source | states |
|---|---|---|
| Pia.DecodeModes | MC6821.cpp:33-62 | each derived flag is the control-register bit updateControlRegisters reads; in output mode IRQ2-enable and line-2 positive transition are false; manual mode is bits 4-5 both set, and then line2SetHigh is bit 3 and pulse mode is off; in handshake mode pulse is bit 3 |
| Pia.Decode | MC6821.cpp:41-62 | the decoded modes are consistent: the three readings of bits 3 and 4 (input, manual output, handshake output) exclude each other |
| Pia.Encode | MC6821.cpp:33-62 | the encoding of a mode set occupies only the configuration bits 0-5 |
| Pia.EncodeDecode | MC6821.cpp:33-62 | decoding loses none of bits 0-5: re-encoding the modes gives `cr & 0x3F` back |
| Pia.DecodeEncode | MC6821.cpp:33-62 | every consistent mode set is the decoding of its encoding |
| Pia.ManualOutputLevel | MC6821.cpp:47-53 | in manual output mode line 2 is driven to the level of bit 3 |
| Pia.Rederive | MC6821.cpp:33-92 | updateControlRegisters on one section: the modes become the decoding of bits 0-5; only line 2 may move besides them, and only in manual mode |
| Pia.PortValueSources | MC6821.cpp:120-121 | the port byte read has the output-register bits where the DDR is 1 and the input-register bits where it is 0 |
| Pia.AfterUpdateIrq | MC6821.cpp:94-105 | updateIRQ changes only the interrupt count, by at most one |
| Pia.AfterRead | MC6821.cpp:107-145 | a read changes only the two sections, and never their configuration bits 0-5 |
| Pia.AfterWrite | MC6821.cpp:147-211 | a write never installs or removes a handler, only appends to the output logs and the interrupt count, and sends at most one byte or signal |
| Pia.PowerOn | MC6821.cpp:10-26 | the constructor's register values, with the levels of CB1 and CB2 open |
| Pia.ReadDataPort | MC6821.cpp:115-123 | reading selector 0 or 2 returns `(OR & DDR) \| (IR & ~DDR)` of that section, clears bits 6-7 of its control register, and changes nothing else |
| Pia.ReadControlRegister | MC6821.cpp:125-127 | reading selector 1 or 3 returns the control register with its flag bits, and changes no state |
| Pia.ReadClearsFlags | MC6821.cpp:117 | a data-port read is idempotent: reading the same selector again leaves the state the first read left, since the flags are already clear |
| Pia.ControlRegisterWritten | MC6821.cpp:174-175 | a control write keeps bits 6-7, takes bits 0-5 from the data, re-derives the modes from them, and changes nothing else except line 2 in manual mode |
| Pia.ControlWriteA | MC6821.cpp:173-177 | a CRA write updates section A, re-derives section B without changing its modes, leaves the logs alone, and signals the interrupt exactly when a handler is installed and an enabled flag is set |
| Pia.ControlWriteB | MC6821.cpp:205-209 | the same for a CRB write |
| Pia.WriteDirection | MC6821.cpp:166-170 | with the write-port bit clear, a data write replaces the DDR and its complement only, in that section only |
| Pia.WritePortA | MC6821.cpp:154-165 | with the write-port bit set, a port-A write latches OR, keeps the DDR, and sends exactly one byte, the new port value, when a handler is installed |
| Pia.WritePortB | MC6821.cpp:180-197 | the same for port B, apart from line 2 |
| Pia.PortBHandshake | MC6821.cpp:191-195 | a port-B write with a handler in handshake output mode leaves CB2 low, or high in pulse mode; otherwise CB2 stays |
| Pia.Line1EdgeBits | MC6821.cpp:242 | the flagging edge of line 1 is a change to the level that CR bit 1 selects |
| Pia.Line2EdgeBits | MC6821.cpp:259 | the flagging edge of line 2 is a change to the level bit 4 selects while bit 5 is clear; in output mode (bit 5 set) a fall of line 2 flags |
| Pia.SetLine1Flag | MC6821.cpp:239-250 | setCx1 sets the line; bit 7 is set afterwards iff it was set before or this was the flagging edge; the other CR bits stay |
| Pia.SetLine1Handshake | MC6821.cpp:246-247 | at the flagging edge in handshake mode line 2 rises, otherwise it stays; nothing else changes; repeating the level is a no-op |
| Pia.SetLine2 | MC6821.cpp:257-265 | setCx2 sets the line; bit 6 is set iff it was set before or this was the flagging edge; the other bits and fields stay; repeating is a no-op |
| Pia.SetLineInterruptsA | MC6821.cpp:239-265 | setCA1/setCA2 signal the interrupt only at a flagging edge, and then exactly when updateIRQ would |
| Pia.SetLineInterruptsB | MC6821.cpp:272-297 | the same for setCB1/setCB2 |
| Pia.SameConfig | MC6821.cpp:33-62 | only bits 0-5 of a control register select the modes |
| Pia.ValidRead | MC6821.cpp:107-145 | a read keeps the derived modes and the DDR complements consistent |
| Pia.ValidDataWritten | MC6821.cpp:153-170 | a data write keeps the section consistent (in particular `DDR_neg == ~DDR`) |
| Pia.ValidWriteDataA | MC6821.cpp:153-171 | a selector-0 write keeps the chip consistent |
| Pia.ValidWriteDataB | MC6821.cpp:179-203 | a selector-2 write keeps the chip consistent |
| Pia.ValidControlWritten | MC6821.cpp:174-176 | a control write, after updateControlRegisters, leaves both sections consistent |
| Pia.ValidWriteControlA | MC6821.cpp:173-177 | a CRA write keeps the chip consistent |
| Pia.ValidWriteControlB | MC6821.cpp:205-209 | a CRB write keeps the chip consistent |
| Pia.ValidLine1Set | MC6821.cpp:239-250 | setCx1 keeps the section consistent |
| Pia.ValidLine2Set | MC6821.cpp:257-265 | setCx2 keeps the section consistent |
| Pia.MC6821.constructor | MC6821.cpp:10-26 | power-on registers (PowerOn): IRA 0xFF, DDR complements 0xFF, everything else 0, CA1 and CA2 high, modes decoded from CR 0, no handlers, empty logs; CB1/CB2 are left open |
| Pia.MC6821.UpdateControlRegisters | MC6821.cpp:33-92 | the new state is Rederive applied to both sections |
| Pia.MC6821.UpdateIrq | MC6821.cpp:94-105 | one more interrupt exactly when a handler is installed and an enabled flag is set |
| Pia.MC6821.CpuRead | MC6821.cpp:107-145 | the byte and the new state are those of ReadResult/AfterRead for selector `addr & 3` |
| Pia.MC6821.CpuWrite | MC6821.cpp:147-211 | the new state is AfterWrite for selector `addr & 3` |
| Pia.MC6821.WritePortRegisterA | MC6821.cpp:153-171 | selector 0: the new state is WriteDataA |
| Pia.MC6821.WriteControlRegisterA | MC6821.cpp:173-177 | selector 1: the new state is WriteControlA |
| Pia.MC6821.WritePortRegisterB | MC6821.cpp:179-203 | selector 2: the new state is WriteDataB |
| Pia.MC6821.WriteControlRegisterB | MC6821.cpp:205-209 | selector 3: the new state is WriteControlB |
| Pia.MC6821.SetInputA | MC6821.cpp:213-216 | only IRA changes, to the given byte |
| Pia.MC6821.SetInputB | MC6821.cpp:218-222 | only IRB changes, to the given byte |
| Pia.MC6821.SetOutputAHandler | MC6821.cpp:224-227 | port-A output is delivered from now on; nothing else changes |
| Pia.MC6821.SetOutputBHandler | MC6821.cpp:229-232 | port-B output is delivered from now on; nothing else changes |
| Pia.MC6821.SetInterruptHandler | MC6821.cpp:234-237 | interrupts are delivered from now on; nothing else changes |
| Pia.MC6821.SetCA1 | MC6821.cpp:239-250 | the new state is AfterSetCA1 |
| Pia.MC6821.GetCA1 | MC6821.cpp:252-255 | returns the level of CA1 |
| Pia.MC6821.SetCA2 | MC6821.cpp:257-265 | the new state is AfterSetCA2 |
| Pia.MC6821.GetCA2 | MC6821.cpp:267-270 | returns the level of CA2 |
| Pia.MC6821.SetCB1 | MC6821.cpp:272-282 | the new state is AfterSetCB1 |
| Pia.MC6821.GetCB1 | MC6821.cpp:284-287 | returns the level of CB1 |
| Pia.MC6821.SetCB2 | MC6821.cpp:289-297 | the new state is AfterSetCB2 |
| Pia.MC6821.GetCB2 | MC6821.cpp:299-302 | returns the level of CB2 |
| ProtoPia.MC6821.constructor | olcApple1/MC6821.cpp:10-27 | the same power-on state as the full chip, with no handler installed |
| ProtoPia.MC6821.UpdateControlRegisters | olcApple1/MC6821.cpp:34-93 | the new state is Rederive applied to both sections |
| ProtoPia.MC6821.UpdateIrq | olcApple1/MC6821.cpp:95-106 | one more interrupt exactly when a handler is installed and an enabled flag is set |
| ProtoPia.MC6821.CpuRead | olcApple1/MC6821.cpp:108-114 | returns 0 for every address and changes no state |
| ProtoPia.MC6821.CpuWrite | olcApple1/MC6821.cpp:116-180 | the new state is the full chip's AfterWrite for selector `addr & 3` |
| ProtoPia.MC6821.WritePortRegisterA | olcApple1/MC6821.cpp:122-140 | selector 0: the new state is WriteDataA |
| ProtoPia.MC6821.WriteControlRegisterA | olcApple1/MC6821.cpp:142-146 | selector 1: the new state is WriteControlA |
| ProtoPia.MC6821.WritePortRegisterB | olcApple1/MC6821.cpp:148-172 | selector 2: the new state is WriteDataB |
| ProtoPia.MC6821.WriteControlRegisterB | olcApple1/MC6821.cpp:174-178 | selector 3: the new state is WriteControlB |
| ProtoPia.WriteSilent | olcApple1/MC6821.cpp:116-180 | with no handler installed (as this chip always is), no write changes the output logs or the interrupt count, and a data write leaves the other section alone |
| RomImage.MappedAddr | Rom.cpp:44 | the 32-bit difference is `addr - offset` from the offset up, and at least 2^32 - 2^16 below it |
| RomImage.ClaimRange | Rom.cpp:45 | the probe claims exactly the addresses from the offset up to and including offset + size |
| RomImage.BelowOffsetRejected | Rom.cpp:44-45 | an address below the offset is never claimed |
| RomImage.MonitorPage | Rom.cpp:45 | a 256-byte image at 0xFF00 claims exactly 0xFF00-0xFFFF |
| RomImage.ReadAfterWrite | Rom.cpp:42-64 | a claimed write is read back; an unclaimed one changes nothing |
| RomImage.WriteLeavesOthers | Rom.cpp:54-64 | a write at one address leaves what every other address reads |
| RomImage.Rom.constructor | Rom.cpp:9-31 | no file: invalid, offset 0, size 0, empty; a file: valid, the given offset, size = file length mod 2^16, and that many bytes of the file |
| RomImage.Rom.ImageValid | Rom.cpp:37-40 | returns the validity flag |
| RomImage.Rom.CpuRead | Rom.cpp:42-52 | claimed iff in the inclusive range; the byte is the mapped window byte on a claim and the caller's byte otherwise |
| RomImage.Rom.CpuWrite | Rom.cpp:54-64 | claimed iff in the inclusive range; the window changes at the mapped byte on a claim and nowhere otherwise |
| SystemBus.Route | Bus.cpp:48-82 | RAM answers only below 0xD010; the PIA answers only from 0xD010 up and only what the ROM does not claim |
| SystemBus.RouteRegions | Bus.cpp:48-82 | the ROM answers what it claims; otherwise the PIA answers from 0xD010 up and RAM below |
| SystemBus.MonitorMap | Bus.cpp:6-22 | with the monitor at 0xFF00: RAM below 0xD010, the PIA from 0xD010 to 0xFEFF, the ROM for the top page |
| SystemBus.Bus.constructor | Bus.cpp:6-22 | fresh devices; the monitor ROM at 0xFF00 holding the file's bytes (size = length mod 2^16) when its file opens, an empty invalid image at 0 otherwise; the PIA in its power-on state; counter 0; all RAM 0 (the reset-vector bytes are overwritten by the clearing loop) |
| SystemBus.Bus.InsertRom | Bus.cpp:29-33 | the bus uses the given ROM from now on |
| SystemBus.Bus.Reset | Bus.cpp:35-39 | the clock counter is 0 |
| SystemBus.Bus.Clock | Bus.cpp:41-46 | the clock counter goes up by one, wrapping at 2^32 |
| SystemBus.Bus.Write | Bus.cpp:48-62 | exactly the routed device changes: the ROM window at the mapped byte, or the PIA as its cpuWrite says, or the one RAM byte |
| SystemBus.Bus.Read | Bus.cpp:64-82 | the routed device supplies the byte; only a PIA read changes state, as its cpuRead says |
| ProtoBus.Bus.constructor | olcApple1/Bus.cpp:5-12 | no ROM installed, counter 0, all RAM 0 |
| ProtoBus.Bus.InsertRom | olcApple1/Bus.cpp:19-23 | the bus uses the given ROM from now on |
| ProtoBus.Bus.Reset | olcApple1/Bus.cpp:25-29 | the clock counter is 0 |
| ProtoBus.Bus.Clock | olcApple1/Bus.cpp:31-36 | the clock counter goes up by one, wrapping at 2^32 |
| ProtoBus.Bus.Write | olcApple1/Bus.cpp:38-48 | a claimed write changes the ROM window and not RAM; otherwise exactly the one RAM byte changes |
| ProtoBus.Bus.Read | olcApple1/Bus.cpp:50-64 | the mapped ROM byte on a claim, otherwise the RAM byte |
| Terminal.FoldCases | Apple1Terminal.cpp:48-49 | a lower-case letter becomes its upper-case letter (0x20 less); every other byte is kept |
| Terminal.Drained | Apple1Terminal.cpp:40-103 | any run of output bytes keeps the cursor on the grid |
| Terminal.AfterOutput | Apple1Terminal.cpp:45-98 | one byte of output (fold, CR or store, wrap, scroll) leaves the cursor on the 24 x 40 grid |
| Terminal.EchoCases | Apple1Terminal.cpp:55-70 | CR moves to column 0 of the next row; a byte in 0x20-0x5F is stored at the cursor and the cursor moves right; all other bytes change nothing |
| Terminal.ScrollRows | Apple1Terminal.cpp:79-95 | after a scroll row r holds the old row r + 1 and the last row holds spaces |
| Terminal.PlainOutput | Apple1Terminal.cpp:40-103 | a printable byte away from the right edge only stores the folded byte and moves the cursor right |
| Terminal.PrintAtBottomRight | Apple1Terminal.cpp:62-97 | printing in the last cell wraps and scrolls: the byte ends in row 22, row 23 is blank, the cursor is at its start |
| Terminal.DrainedAppend | Apple1Terminal.cpp:40-113 | the queue is first in, first out: showing q1 + q2 is showing q1 and then q2 |
| Terminal.ReversedBits | Apple1Terminal.cpp:136-144 | bit i of a reversed row is bit 7 - i of the file byte, and reversing twice gives the byte back |
| Terminal.PartlyReversedComplete | Apple1Terminal.cpp:136-144 | the eight mask steps of the loop compute the full bit reversal |
| Terminal.FilledFromByte | Apple1Terminal.cpp:134-157 | for a file of at most 2048 bytes, entry [c / 8][c % 8] is the reversed byte c (complemented for the inverted table), whatever it held before |
| Terminal.FilledBeyond | Apple1Terminal.cpp:130-157 | entries the file does not reach keep their value |
| Terminal.Apple1Terminal.constructor | Apple1Terminal.cpp:11-21 | both tables are loaded from the same file, the second one inverted, and the PIA's port-B handler is installed with nothing else about the PIA changed |
| Terminal.Apple1Terminal.ClearScreen | Apple1Terminal.cpp:34-37 | every cell is a space and the cursor is at 0, 0 |
| Terminal.Apple1Terminal.ReceiveOutput | Apple1Terminal.cpp:110-113 | the byte joins the back of the queue |
| Terminal.Apple1Terminal.ProcessOutput | Apple1Terminal.cpp:40-103 | an empty queue changes nothing; otherwise the front byte is removed and the screen becomes AfterOutput of it (fold, CR or store, wrap, scroll) |
| Terminal.Apple1Terminal.ScrollScreen | Apple1Terminal.cpp:79-95 | the buffer becomes rows 1-23 followed by a row of spaces |
| Terminal.Apple1Terminal.MoveRowsUp | Apple1Terminal.cpp:82-87 | every cell of rows 0-22 takes the cell below it; row 23 keeps its cells |
| Terminal.Apple1Terminal.ClearBottomRow | Apple1Terminal.cpp:89-94 | row 23 becomes spaces; rows 0-22 keep their cells |
| Terminal.Apple1Terminal.LoadCharacterRom | Apple1Terminal.cpp:115-158 | each table entry is what the file bytes fed into it in order leave there (Filled); no file feeds nothing |
| Terminal.Apple1Terminal.ReverseBits | Apple1Terminal.cpp:136-144 | the loop's result is the bit-reversed byte |
| Keyboard.UnshiftedInRange | Apple1Keyboard.cpp:57-125 | every unshifted code lies in 0x08-0x5F |
| Keyboard.ShiftedInRange | Apple1Keyboard.cpp:127-148 | every shifted code lies in 0x08-0x5F |
| Keyboard.TablesInRange | Apple1Keyboard.cpp:46 | both tables hold only codes the range check 0 < code < 0x60 accepts, and the unshifted table maps every key |
| Keyboard.LetterCodes | Apple1Keyboard.cpp:97-122 | letter i of A-Z sends 0x41 + i |
| Keyboard.ShiftedHasNoLetters | Apple1Keyboard.cpp:127-148 | with shift held no letter is in the table |
| Keyboard.FirstPressed | Apple1Keyboard.cpp:22-41 | the scan's result is 0 or one of the table's codes |
| Keyboard.FirstPressedIsFirst | Apple1Keyboard.cpp:22-29 | the scan yields the code of the earliest pressed key of the table in key order, whatever else is pressed |
| Keyboard.FirstPressedNone | Apple1Keyboard.cpp:34-44 | with codes that are never 0, the scan yields 0 iff no key of the table is pressed, and otherwise a code of a pressed key |
| Keyboard.ScanOutcome | Apple1Keyboard.cpp:19-46 | for the selected table, no strobe happens iff no key of it is pressed, and any code found passes the range check |
| Keyboard.Strobed | Apple1Keyboard.cpp:48-51 | the strobe changes only section A and the interrupt count: section B, the handlers and the logs stay |
| Keyboard.StrobeEffect | Apple1Keyboard.cpp:48-51 | after the strobe IRA is `code \| 0x80`, CA1 is low and IRQA1 is set whichever edge CRA bit 1 selects; the other CRA bits, the rest of section A except CA2, and section B are as before |
| Keyboard.PulseFlags | Apple1Keyboard.cpp:50-51 | the Rise then Fall on a low CA1 crosses both edges, so it flags IRQA1 for either polarity |
| Keyboard.Apple1Keyboard.constructor | Apple1Keyboard.cpp:3-9 | the keyboard drives the given PIA and holds both tables |
| Keyboard.Apple1Keyboard.ProcessKey | Apple1Keyboard.cpp:15-54 | with shift held only the shifted table is scanned, otherwise only the unshifted one; a first code in 0x01-0x5F is strobed (Fall, input, Rise, Fall) and otherwise the PIA is untouched |
| Keyboard.Apple1Keyboard.Scan | Apple1Keyboard.cpp:22-29 | the loop's result is the code of the first pressed key of the table in key order, or 0 |
| Formatting.Digits | Apple1.cpp:68 | the string has d characters |
| Formatting.DigitRoundTrip | Apple1.cpp:70 | reading a digit character back gives its value |
| Formatting.DigitsValue | Apple1.cpp:66-80 | read back in the base, the string is n mod base^d |
| Formatting.DigitsAt | Apple1.cpp:69-70 | character i is the digit `(n / base^(d-1-i)) % base`, that is `(n >> 4*(d-1-i)) & 0xF` for hex |
| Formatting.DigitsAlphabet | Apple1.cpp:70 | every character is one of the base's digits: 0-9 and A-F for hex, 0 and 1 for binary |
| Formatting.Hex | Apple1.cpp:66-72 | the loop returns the d hex digits of n, most significant first (the hex of olcApple1/Apple1.cpp, lines 20-26, has the same body) |
| Formatting.Bin | Apple1.cpp:74-80 | the loop returns the d binary digits of the 8-bit n, most significant first |

## Left out

- The 6502 CPU (`olc6502`): its code is not part of this model. `Bus::reset` and `Bus::clock` keep
  only their effect on the clock counter.
- Pixels and the GUI: `RenderCharacter`, the sprite, the pixel loop of `ClearScreen`, every
  `Draw*` function, `OnUserCreate`/`OnUserUpdate` and `main`.
- File reading: the content of a ROM or character-ROM file is a parameter (`Option<seq<byte>>`),
  with `None` for a file that cannot be opened.
- Handler closures: `std::function` handlers become "installed" flags, with logs of the port
  bytes they would receive and a count of interrupt signals. The closure the terminal installs is
  `ReceiveOutput`. The model records what the handler is given; it does not call back.
- Host keyboard: `olc->GetKey(...)` becomes the parameters `pressed` (the keys reported pressed)
  and `shiftHeld`. Only the keys the tables mention are in `Key`. Other keys cannot affect the
  scan.
- Keyboard.KeyOrder: the engine's header is not part of this model. The order of `Key` (letters,
  digits, space, backspace, enter, keypad, then `. + , -`) is assumed from the engine's
  enumeration, and the std::map walk follows that order. The FirstPressed lemmas hold for any
  order.
- Keyboard.UnshiftedTable, Keyboard.ShiftedTable: the map-building assignments are written as one
  code function per table, each giving the key-to-code pairs of the assignments. No key is
  assigned twice, so order has no effect.
- Terminal.Apple1Terminal.ProcessOutput: the scroll (two loops) is the method ScrollScreen, split
  into MoveRowsUp and ClearBottomRow. The inner bit loop of LoadCharacterRom is ReverseBits.
  Pia.MC6821.CpuWrite dispatches each case of its switch to its own method. The grammar of the
  C++ is the same; only the nesting is split.
- Terminal.FilledFromByte: stated only for files of at most 2048 bytes (256 glyphs of 8 rows). For
  longer files the 8-bit character index wraps, and later bytes overwrite earlier ones. Filled
  describes that case exactly, but no closed form is proved for it.
- Terminal.Apple1Terminal.ProcessOutput: requires the cursor on the grid, which ClearScreen
  establishes. The C++ constructor leaves the cursor uninitialised, and the emulator calls
  ClearScreen before any output.
- SystemBus.Bus.Read: the read-only flag is accepted and ignored, as in the C++. The PIA's cpuRead
  flag is ignored too.
- ProtoBus.Bus.Read, ProtoBus.Bus.Write: require that a ROM was inserted. The prototype's
  constructor installs none, and both functions dereference it.
- Headers: only the state layout is taken from them. `Bus.h` declares `roms`,
  `cpuRead`/`cpuWrite` and `RomLow`/`RomHigh`; `Rom.h` declares `Low`/`High`. None of these has a
  definition in the `.cpp` files, so none is modelled. `Apple1Keyboard.h` lacks `mapShiftedKeys`
  and takes raw pointers. `Apple1Terminal.h` declares `bool ProcessOutput`. The `.cpp` versions are
  modelled.
