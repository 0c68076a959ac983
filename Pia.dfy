/** The MC6821 peripheral interface adapter of MC6821.cpp: two port sections (A and B), each with
    an output register, an input register, a data-direction register and its complement, a control
    register and two control lines.  The chip is a class whose methods update its fields; each method
    is proved against a pure transition function on the abstract state `Chip`, and the properties the
    chip promises are lemmas about those functions. */
module Pia {
  import opened Bytes

  /** Level of a control line. */
  datatype Signal = Fall | Rise

  /** The level that a `true`/`false` configuration bit selects. */
  function Level(high: bool): Signal
  {
    if high then Rise else Fall
  }

  /** The mode booleans that `updateControlRegisters` derives from bits 0-5 of a control register. */
  datatype Modes = Modes(
    enableIrq1: bool,          // bit 0: a line-1 flag raises the interrupt
    line1PositiveTrans: bool,  // bit 1: line 1 triggers on Rise, otherwise on Fall
    writePort: bool,           // bit 2: data writes go to the output register, otherwise to the DDR
    enableIrq2: bool,          // bit 3 while line 2 is an input
    pulseOutput: bool,         // bit 3 in handshake output mode
    line2SetHigh: bool,        // bit 3 in manual output mode
    line2PositiveTrans: bool,  // bit 4 while line 2 is an input
    manualOutput: bool,        // bit 4 in output mode
    outputMode: bool)          // bit 5: line 2 is an output

  /** Bits 0-5 of a control register, its configuration; a data-port read keeps only these. */
  function ConfigBits(cr: byte): byte
  {
    cr & 0x3F
  }

  /** Bit 7 of a control register: the IRQx1 flag, set by the line-1 edge. */
  predicate Irq1Flag(cr: byte)
  {
    cr & 0x80 == 0x80
  }

  /** Bit 6 of a control register: the IRQx2 flag, set by the line-2 edge. */
  predicate Irq2Flag(cr: byte)
  {
    cr & 0x40 == 0x40
  }

  function SetIrq1Flag(cr: byte): byte
  {
    cr | 0x80
  }

  function SetIrq2Flag(cr: byte): byte
  {
    cr | 0x40
  }

  /** A CPU write to a control register keeps the two flag bits and replaces the configuration. */
  function ControlWritten(cr: byte, data: byte): byte
  {
    (cr & 0xC0) | ConfigBits(data)
  }

  /** The complement kept beside each data-direction register. */
  function Complement(d: byte): byte
  {
    !d
  }

  // How the register operations act on the bits.

  lemma ConfigBitsOnly(cr: byte)
    ensures ConfigBits(ConfigBits(cr)) == ConfigBits(cr)
    ensures !Irq1Flag(ConfigBits(cr)) && !Irq2Flag(ConfigBits(cr))
  {
  }

  lemma SetIrq1Bits(cr: byte)
    ensures ConfigBits(SetIrq1Flag(cr)) == ConfigBits(cr) && SetIrq1Flag(cr) & 0x7F == cr & 0x7F
    ensures Irq1Flag(SetIrq1Flag(cr)) && Irq2Flag(SetIrq1Flag(cr)) == Irq2Flag(cr)
  {
  }

  lemma SetIrq2Bits(cr: byte)
    ensures ConfigBits(SetIrq2Flag(cr)) == ConfigBits(cr) && SetIrq2Flag(cr) & 0xBF == cr & 0xBF
    ensures Irq2Flag(SetIrq2Flag(cr)) && Irq1Flag(SetIrq2Flag(cr)) == Irq1Flag(cr)
  {
  }

  lemma ControlWrittenBits(cr: byte, data: byte)
    ensures ConfigBits(ControlWritten(cr, data)) == ConfigBits(data)
    ensures Irq1Flag(ControlWritten(cr, data)) == Irq1Flag(cr)
    ensures Irq2Flag(ControlWritten(cr, data)) == Irq2Flag(cr)
  {
  }

  /** The mode sets a control register can stand for: the three readings of bits 3 and 4 exclude
      each other. */
  predicate Consistent(m: Modes)
  {
    && (m.outputMode ==> !m.enableIrq2 && !m.line2PositiveTrans)
    && (!m.outputMode ==> !m.manualOutput && !m.pulseOutput && !m.line2SetHigh)
    && (m.manualOutput ==> !m.pulseOutput)
    && (!m.manualOutput ==> !m.line2SetHigh)
  }

  /** Reading of the configuration bits 0-5 of a control register (bits 6-7 are not consulted). */
  function Decode(cr: byte): (m: Modes)
    ensures Consistent(m)
  {
    var output := cr & 0x20 == 0x20;
    var manual := output && cr & 0x10 == 0x10;
    Modes(
      enableIrq1 := cr & 0x01 == 0x01,
      line1PositiveTrans := cr & 0x02 == 0x02,
      writePort := cr & 0x04 == 0x04,
      enableIrq2 := !output && cr & 0x08 == 0x08,
      pulseOutput := output && !manual && cr & 0x08 == 0x08,
      line2SetHigh := manual && cr & 0x08 == 0x08,
      line2PositiveTrans := !output && cr & 0x10 == 0x10,
      manualOutput := manual,
      outputMode := output)
  }

  /** The configuration bits a mode set stands for. */
  function Encode(m: Modes): (cr: byte)
    ensures cr & 0xC0 == 0
  {
    (if m.enableIrq1 then 0x01 else 0)
    | (if m.line1PositiveTrans then 0x02 else 0)
    | (if m.writePort then 0x04 else 0)
    | (if m.enableIrq2 || m.pulseOutput || m.line2SetHigh then 0x08 else 0)
    | (if m.line2PositiveTrans || m.manualOutput then 0x10 else 0)
    | (if m.outputMode then 0x20 else 0)
  }

  /** Decoding loses nothing of bits 0-5 ... */
  lemma EncodeDecode(cr: byte)
    ensures Encode(Decode(cr)) == cr & 0x3F
  {
  }

  /** ... and every consistent mode set is the reading of exactly one configuration. */
  lemma DecodeEncode(m: Modes)
    requires Consistent(m)
    ensures Decode(Encode(m)) == m
  {
  }

  /** The derived modes follow the configuration bits as updateControlRegisters lays them out. */
  lemma DecodeModes(cr: byte)
    ensures var m := Decode(cr & 0x3F);
      && (m.enableIrq1 <==> cr & 0x01 != 0)
      && (m.line1PositiveTrans <==> cr & 0x02 != 0)
      && (m.writePort <==> cr & 0x04 != 0)
      && (m.outputMode <==> cr & 0x20 != 0)
      && (m.outputMode ==> !m.enableIrq2 && !m.line2PositiveTrans)
      && (m.manualOutput <==> cr & 0x30 == 0x30)
      && (m.manualOutput ==> !m.pulseOutput && (m.line2SetHigh <==> cr & 0x08 != 0))
      && (m.outputMode && !m.manualOutput ==> !m.line2SetHigh && (m.pulseOutput <==> cr & 0x08 != 0))
      && (!m.outputMode ==> (m.enableIrq2 <==> cr & 0x08 != 0) && (m.line2PositiveTrans <==> cr & 0x10 != 0))
  {
  }

  /** One port section: nORx, nIRx, nDDRx, nDDRx_neg, nCx1, nCx2, nCRx and the derived bCRx fields. */
  datatype Section = Section(
    or: byte,
    ir: byte,
    ddr: byte,
    ddrNeg: byte,
    line1: Signal,
    line2: Signal,
    cr: byte,
    modes: Modes)

  /** The derived fields equal the decoding of the control register, and the cached complement of
      the data-direction register is its complement. */
  predicate SectionValid(s: Section)
  {
    s.modes == Decode(ConfigBits(s.cr)) && s.ddrNeg == Complement(s.ddr)
  }

  /** The value seen on a port: output-register bits where the DDR selects output, input-register
      bits elsewhere. */
  function PortValue(s: Section): byte
  {
    (s.or & s.ddr) | (s.ir & s.ddrNeg)
  }

  lemma PortValueSources(s: Section)
    requires SectionValid(s)
    ensures PortValue(s) & s.ddr == s.or & s.ddr
    ensures PortValue(s) & !s.ddr == s.ir & !s.ddr
  {
  }

  // Single-field updates of a section, named so that the methods below can apply them one
  // statement at a time in the order the source does.

  function WithControl(s: Section, cr: byte): Section { s.(cr := cr) }
  function WithInput(s: Section, v: byte): Section { s.(ir := v) }
  function WithLine1(s: Section, v: Signal): Section { s.(line1 := v) }
  function WithLine2(s: Section, v: Signal): Section { s.(line2 := v) }
  /** Flag bits 6-7 cleared, as a data-port read does. */
  function ClearFlags(s: Section): Section { s.(cr := ConfigBits(s.cr)) }
  function FlagIrq1(s: Section): Section { s.(cr := SetIrq1Flag(s.cr)) }
  function FlagIrq2(s: Section): Section { s.(cr := SetIrq2Flag(s.cr)) }
  /** A data byte written into the output register. */
  function Latched(s: Section, data: byte): Section { s.(or := data) }
  /** A data byte written into the data-direction register, with its complement. */
  function Directed(s: Section, data: byte): Section { s.(ddr := data, ddrNeg := Complement(data)) }

  /** updateControlRegisters for one section: re-derive the modes; in manual output mode line 2
      is forced to the level of bit 3. */
  function Rederive(s: Section): (r: Section)
    ensures r.modes == Decode(ConfigBits(r.cr))
    ensures r.(modes := s.modes, line2 := s.line2) == s
    ensures !r.modes.manualOutput ==> r.line2 == s.line2
  {
    var m := Decode(ConfigBits(s.cr));
    s.(modes := m, line2 := if m.manualOutput then Level(m.line2SetHigh) else s.line2)
  }

  /** An enabled flag bit of the section is set. */
  predicate FlagsAsserted(s: Section)
  {
    (s.modes.enableIrq1 && Irq1Flag(s.cr)) || (s.modes.enableIrq2 && Irq2Flag(s.cr))
  }

  /** The level change of line 1 to v is the edge bit 1 selects. */
  predicate Line1Edge(s: Section, v: Signal)
  {
    s.line1 != v && Level(s.modes.line1PositiveTrans) == v
  }

  /** The level change of line 2 to v is the edge bit 4 selects. */
  predicate Line2Edge(s: Section, v: Signal)
  {
    s.line2 != v && Level(s.modes.line2PositiveTrans) == v
  }

  /** Line 2 is an output that follows line 1 (neither manual nor pulse). */
  predicate Handshake(m: Modes)
  {
    m.outputMode && !m.manualOutput && !m.pulseOutput
  }

  /** The abstract state of the whole chip.  The handler closures of the source are replaced by
      "handler installed" flags and by logs of what the handlers were given. */
  datatype Chip = Chip(
    a: Section,
    b: Section,
    hasOutputA: bool,
    hasOutputB: bool,
    hasInterrupt: bool,
    outputA: seq<byte>,
    outputB: seq<byte>,
    interrupts: nat)

  predicate ChipValid(c: Chip)
  {
    SectionValid(c.a) && SectionValid(c.b)
  }

  /** The number of interrupt signals updateIRQ sends in state c (0 or 1). */
  function Signalled(c: Chip): nat
  {
    if c.hasInterrupt && (FlagsAsserted(c.a) || FlagsAsserted(c.b)) then 1 else 0
  }

  /** updateIRQ */
  function AfterUpdateIrq(c: Chip): (r: Chip)
    ensures r.(interrupts := c.interrupts) == c
    ensures r.interrupts == c.interrupts || r.interrupts == c.interrupts + 1
  {
    c.(interrupts := c.interrupts + Signalled(c))
  }

  /** updateControlRegisters */
  function AfterUpdateControl(c: Chip): Chip
  {
    c.(a := Rederive(c.a), b := Rederive(c.b))
  }

  /** The byte cpuRead returns for register selector reg. */
  function ReadResult(c: Chip, reg: int): byte
    requires 0 <= reg < 4
  {
    if reg == 0 then PortValue(c.a)
    else if reg == 1 then c.a.cr
    else if reg == 2 then PortValue(c.b)
    else c.b.cr
  }

  /** The state after cpuRead of register selector reg: a data-port read clears the section's
      two flag bits. */
  function AfterRead(c: Chip, reg: int): (r: Chip)
    requires 0 <= reg < 4
    ensures r.(a := c.a, b := c.b) == c
    ensures ConfigBits(r.a.cr) == ConfigBits(c.a.cr) && ConfigBits(r.b.cr) == ConfigBits(c.b.cr)
  {
    ConfigBitsOnly(c.a.cr);
    ConfigBitsOnly(c.b.cr);
    if reg == 0 then c.(a := ClearFlags(c.a))
    else if reg == 2 then c.(b := ClearFlags(c.b))
    else c
  }

  /** A write to a data-port selector: into the output register when the write-port bit is set,
      otherwise into the DDR (and its complement). */
  function DataWritten(s: Section, data: byte): Section
  {
    if s.modes.writePort then Latched(s, data) else Directed(s, data)
  }

  /** cpuWrite, selector 0 (DDRA / PA): the handler receives the new port value. */
  function WriteDataA(c: Chip, data: byte): Chip
  {
    var a := DataWritten(c.a, data);
    c.(a := a, outputA := c.outputA + (if c.a.modes.writePort && c.hasOutputA then [PortValue(a)] else []))
  }

  /** cpuWrite, selector 2 (DDRB / PB): as for A, and with the handler present in handshake
      output mode CB2 drops, rising again at once in pulse mode. */
  function WriteDataB(c: Chip, data: byte): Chip
  {
    var b := DataWritten(c.b, data);
    if c.b.modes.writePort && c.hasOutputB then
      var line2 := if b.modes.outputMode && !b.modes.manualOutput then Level(b.modes.pulseOutput) else b.line2;
      c.(b := WithLine2(b, line2), outputB := c.outputB + [PortValue(b)])
    else
      c.(b := b)
  }

  /** cpuWrite, selector 1 (CRA). */
  function WriteControlA(c: Chip, data: byte): Chip
  {
    AfterUpdateIrq(AfterUpdateControl(c.(a := WithControl(c.a, ControlWritten(c.a.cr, data)))))
  }

  /** cpuWrite, selector 3 (CRB). */
  function WriteControlB(c: Chip, data: byte): Chip
  {
    AfterUpdateIrq(AfterUpdateControl(c.(b := WithControl(c.b, ControlWritten(c.b.cr, data)))))
  }

  /** The state after cpuWrite of data to register selector reg. */
  function AfterWrite(c: Chip, reg: int, data: byte): (r: Chip)
    requires 0 <= reg < 4
    ensures r.hasOutputA == c.hasOutputA && r.hasOutputB == c.hasOutputB && r.hasInterrupt == c.hasInterrupt
    ensures c.outputA <= r.outputA && c.outputB <= r.outputB && c.interrupts <= r.interrupts
    ensures |r.outputA| + |r.outputB| + r.interrupts <= |c.outputA| + |c.outputB| + c.interrupts + 1
  {
    if reg == 0 then WriteDataA(c, data)
    else if reg == 1 then WriteControlA(c, data)
    else if reg == 2 then WriteDataB(c, data)
    else WriteControlB(c, data)
  }

  /** setCx1 on one section: at the configured edge flag bit 7 is set and, in handshake mode,
      line 2 rises; the line always takes the new level. */
  function Line1Set(s: Section, v: Signal): Section
  {
    var flagged := if Handshake(s.modes) then WithLine2(FlagIrq1(s), Rise) else FlagIrq1(s);
    WithLine1(if Line1Edge(s, v) then flagged else s, v)
  }

  /** setCx2 on one section: at the configured edge flag bit 6 is set; the line always takes the
      new level. */
  function Line2Set(s: Section, v: Signal): Section
  {
    WithLine2(if Line2Edge(s, v) then FlagIrq2(s) else s, v)
  }

  /** setCA1: updateIRQ runs only when the flag was set. */
  function AfterSetCA1(c: Chip, v: Signal): Chip
  {
    var r := c.(a := Line1Set(c.a, v));
    if Line1Edge(c.a, v) then AfterUpdateIrq(r) else r
  }

  /** setCA2 */
  function AfterSetCA2(c: Chip, v: Signal): Chip
  {
    var r := c.(a := Line2Set(c.a, v));
    if Line2Edge(c.a, v) then AfterUpdateIrq(r) else r
  }

  /** setCB1 */
  function AfterSetCB1(c: Chip, v: Signal): Chip
  {
    var r := c.(b := Line1Set(c.b, v));
    if Line1Edge(c.b, v) then AfterUpdateIrq(r) else r
  }

  /** setCB2 */
  function AfterSetCB2(c: Chip, v: Signal): Chip
  {
    var r := c.(b := Line2Set(c.b, v));
    if Line2Edge(c.b, v) then AfterUpdateIrq(r) else r
  }

  // ---------------------------------------------------------------------------------------------
  // The invariant: every operation keeps the derived fields in step with the control registers
  // and the DDR complement in step with the DDR.

  /** Only bits 0-5 of a control register select the modes. */
  lemma SameConfig(x: byte, y: byte)
    requires ConfigBits(x) == ConfigBits(y)
    ensures Decode(ConfigBits(x)) == Decode(ConfigBits(y))
  {
  }

  lemma ValidRead(c: Chip, reg: int)
    requires ChipValid(c) && 0 <= reg < 4
    ensures ChipValid(AfterRead(c, reg))
  {
    var r := AfterRead(c, reg);
    if reg == 0 {
      ConfigBitsOnly(c.a.cr);
      assert r.a.cr == ConfigBits(c.a.cr) && r.a.modes == c.a.modes && r.b == c.b;
    } else if reg == 2 {
      ConfigBitsOnly(c.b.cr);
      assert r.b.cr == ConfigBits(c.b.cr) && r.b.modes == c.b.modes && r.a == c.a;
    }
  }

  lemma ValidDataWritten(s: Section, data: byte)
    requires SectionValid(s)
    ensures SectionValid(DataWritten(s, data))
  {
    if s.modes.writePort {
      assert DataWritten(s, data) == s.(or := data);
    } else {
      assert DataWritten(s, data) == s.(ddr := data, ddrNeg := Complement(data));
    }
  }

  lemma ValidWriteDataA(c: Chip, data: byte)
    requires ChipValid(c)
    ensures ChipValid(WriteDataA(c, data))
  {
    ValidDataWritten(c.a, data);
    var r := WriteDataA(c, data);
    assert r.a == DataWritten(c.a, data) && r.b == c.b;
  }

  lemma ValidWriteDataB(c: Chip, data: byte)
    requires ChipValid(c)
    ensures ChipValid(WriteDataB(c, data))
  {
    ValidDataWritten(c.b, data);
    var r := WriteDataB(c, data);
    var b := DataWritten(c.b, data);
    assert r.b.cr == b.cr && r.b.modes == b.modes && r.b.ddr == b.ddr && r.b.ddrNeg == b.ddrNeg;
    assert r.a == c.a;
  }

  /** A control-register write, on either section. */
  lemma ValidControlWritten(c: Chip, w: Chip)
    requires ChipValid(c)
    requires w.a.(cr := c.a.cr) == c.a && w.b.(cr := c.b.cr) == c.b
    ensures ChipValid(AfterUpdateIrq(AfterUpdateControl(w)))
  {
    var u := AfterUpdateControl(w);
    assert u.a.ddr == c.a.ddr && u.a.ddrNeg == c.a.ddrNeg;
    assert u.b.ddr == c.b.ddr && u.b.ddrNeg == c.b.ddrNeg;
    assert AfterUpdateIrq(u).a == u.a && AfterUpdateIrq(u).b == u.b;
  }

  lemma ValidWriteControlA(c: Chip, data: byte)
    requires ChipValid(c)
    ensures ChipValid(WriteControlA(c, data))
  {
    ValidControlWritten(c, c.(a := WithControl(c.a, ControlWritten(c.a.cr, data))));
  }

  lemma ValidWriteControlB(c: Chip, data: byte)
    requires ChipValid(c)
    ensures ChipValid(WriteControlB(c, data))
  {
    ValidControlWritten(c, c.(b := WithControl(c.b, ControlWritten(c.b.cr, data))));
  }

  lemma ValidLine1Set(s: Section, v: Signal)
    requires SectionValid(s)
    ensures SectionValid(Line1Set(s, v))
  {
    var r := Line1Set(s, v);
    if Line1Edge(s, v) {
      SetIrq1Bits(s.cr);
      assert r.cr == SetIrq1Flag(s.cr);
      SameConfig(s.cr, r.cr);
    }
    assert r.modes == s.modes && r.ddr == s.ddr && r.ddrNeg == s.ddrNeg;
  }

  lemma ValidLine2Set(s: Section, v: Signal)
    requires SectionValid(s)
    ensures SectionValid(Line2Set(s, v))
  {
    var r := Line2Set(s, v);
    if Line2Edge(s, v) {
      SetIrq2Bits(s.cr);
      assert r.cr == SetIrq2Flag(s.cr);
      SameConfig(s.cr, r.cr);
    }
    assert r.modes == s.modes && r.ddr == s.ddr && r.ddrNeg == s.ddrNeg;
  }

  // ---------------------------------------------------------------------------------------------
  // What the register operations do

  /** A read of a data port (selector 0 or 2) returns the port value of that section and clears
      its flag bits 6-7; nothing else changes. */
  lemma ReadDataPort(c: Chip, reg: int)
    requires reg == 0 || reg == 2
    ensures var s := if reg == 0 then c.a else c.b;
      var r := AfterRead(c, reg);
      var s' := if reg == 0 then r.a else r.b;
      && ReadResult(c, reg) == PortValue(s)
      && s'.cr == s.cr & 0x3F
      && s' == s.(cr := s'.cr)
      && s'.cr & 0xC0 == 0
      && (if reg == 0 then r.b == c.b else r.a == c.a)
      && r.(a := c.a, b := c.b) == c
  {
  }

  /** A read of a control register (selector 1 or 3) returns it with its flags and changes nothing. */
  lemma ReadControlRegister(c: Chip, reg: int)
    requires reg == 1 || reg == 3
    ensures ReadResult(c, reg) == (if reg == 1 then c.a.cr else c.b.cr)
    ensures AfterRead(c, reg) == c
  {
  }

  /** A second data-port read finds the flags already clear. */
  lemma ReadClearsFlags(c: Chip, reg: int)
    requires reg == 0 || reg == 2
    ensures AfterRead(AfterRead(c, reg), reg) == AfterRead(c, reg)
  {
    ConfigBitsOnly(c.a.cr);
    ConfigBitsOnly(c.b.cr);
  }

  /** A control-register write keeps bits 6-7, takes bits 0-5 from data and re-derives the modes;
      line 2 moves only in manual output mode, to the level of bit 3. */
  lemma ControlRegisterWritten(s: Section, data: byte)
    ensures var s' := Rederive(s.(cr := ControlWritten(s.cr, data)));
      && s'.cr & 0xC0 == s.cr & 0xC0
      && s'.cr & 0x3F == data & 0x3F
      && s'.modes == Decode(data & 0x3F)
      && s'.(cr := s.cr, modes := s.modes, line2 := s.line2) == s
      && (s'.modes.manualOutput ==> s'.line2 == Level(data & 0x08 != 0))
      && (!s'.modes.manualOutput ==> s'.line2 == s.line2)
  {
    ControlWrittenBits(s.cr, data);
  }

  /** After a CRA write the other section keeps its modes (its line 2 is re-forced in manual
      mode), the output logs are untouched, and the interrupt is signalled exactly when a handler
      is present and some enabled flag is set. */
  lemma ControlWriteA(c: Chip, data: byte)
    requires ChipValid(c)
    ensures WriteControlA(c, data).a == Rederive(c.a.(cr := ControlWritten(c.a.cr, data)))
    ensures WriteControlA(c, data).b == Rederive(c.b)
    ensures WriteControlA(c, data).b.modes == c.b.modes
    ensures var r := WriteControlA(c, data);
      r.interrupts == c.interrupts + Signalled(r)
    ensures var r := WriteControlA(c, data);
      r.(interrupts := c.interrupts, a := c.a, b := c.b) == c
  {
  }

  /** The same for a CRB write. */
  lemma ControlWriteB(c: Chip, data: byte)
    requires ChipValid(c)
    ensures WriteControlB(c, data).b == Rederive(c.b.(cr := ControlWritten(c.b.cr, data)))
    ensures WriteControlB(c, data).a == Rederive(c.a)
    ensures WriteControlB(c, data).a.modes == c.a.modes
    ensures var r := WriteControlB(c, data);
      r.interrupts == c.interrupts + Signalled(r)
    ensures var r := WriteControlB(c, data);
      r.(interrupts := c.interrupts, a := c.a, b := c.b) == c
  {
  }

  /** In manual output mode line 2 carries the level of bit 3 after updateControlRegisters. */
  lemma ManualOutputLevel(s: Section)
    requires Decode(s.cr & 0x3F).manualOutput
    ensures Rederive(s).line2 == Level(s.cr & 0x08 != 0)
  {
  }

  /** With the write-port bit clear, a data write replaces the DDR (and its complement) only. */
  lemma WriteDirection(c: Chip, reg: int, data: byte)
    requires reg == 0 || reg == 2
    requires !(if reg == 0 then c.a else c.b).modes.writePort
    ensures var r := AfterWrite(c, reg, data);
      var s := if reg == 0 then c.a else c.b;
      var s' := if reg == 0 then r.a else r.b;
      && s' == s.(ddr := data, ddrNeg := !data)
      && r.(a := c.a, b := c.b) == c
      && (if reg == 0 then r.b == c.b else r.a == c.a)
  {
  }

  /** With the write-port bit set, a port-A write latches the output register, leaves the DDR
      alone and gives the handler (if any) exactly one byte: the new port value. */
  lemma WritePortA(c: Chip, data: byte)
    requires c.a.modes.writePort
    ensures WriteDataA(c, data).a == c.a.(or := data)
    ensures WriteDataA(c, data).outputA == c.outputA + (if c.hasOutputA then [PortValue(c.a.(or := data))] else [])
    ensures WriteDataA(c, data).(a := c.a, outputA := c.outputA) == c
  {
  }

  /** The same for port B, whose line 2 may also move (see PortBHandshake). */
  lemma WritePortB(c: Chip, data: byte)
    requires c.b.modes.writePort
    ensures WriteDataB(c, data).b.(line2 := c.b.line2) == c.b.(or := data)
    ensures WriteDataB(c, data).outputB == c.outputB + (if c.hasOutputB then [PortValue(c.b.(or := data))] else [])
    ensures WriteDataB(c, data).(b := c.b, outputB := c.outputB) == c
  {
  }

  /** A port-B write in handshake output mode with the handler present leaves CB2 low, or high
      in pulse mode; without the handler CB2 is untouched. */
  lemma PortBHandshake(c: Chip, data: byte)
    requires ChipValid(c) && c.b.modes.writePort
    ensures var r := WriteDataB(c, data);
      && (c.hasOutputB && c.b.modes.outputMode && !c.b.modes.manualOutput ==>
            r.b.line2 == (if c.b.modes.pulseOutput then Rise else Fall))
      && (!c.hasOutputB || !c.b.modes.outputMode || c.b.modes.manualOutput ==> r.b.line2 == c.b.line2)
  {
  }

  /** The flagging edge of line 1 is the level change to the level bit 1 of the control register
      selects. */
  lemma Line1EdgeBits(s: Section, v: Signal)
    requires SectionValid(s)
    ensures Line1Edge(s, v) <==> s.line1 != v && v == Level(s.cr & 0x02 != 0)
  {
  }

  /** The flagging edge of line 2 is the level change to the level bit 4 selects while bit 5 is
      clear; in output mode (bit 5 set) a fall of line 2 flags. */
  lemma Line2EdgeBits(s: Section, v: Signal)
    requires SectionValid(s)
    ensures Line2Edge(s, v) <==> s.line2 != v && v == Level(s.cr & 0x30 == 0x10)
  {
  }

  /** setCx1 on a section: the line takes the new level; flag bit 7 becomes set exactly at the
      flagging edge and is never cleared; the other bits of the control register stay. */
  lemma SetLine1Flag(s: Section, v: Signal)
    ensures var s' := Line1Set(s, v);
      && s'.line1 == v
      && (Irq1Flag(s'.cr) <==> Irq1Flag(s.cr) || Line1Edge(s, v))
      && s'.cr & 0x7F == s.cr & 0x7F
  {
    if Line1Edge(s, v) {
      var f := FlagIrq1(s);
      assert f.cr == SetIrq1Flag(s.cr) && WithLine2(f, Rise).cr == f.cr;
      assert Line1Set(s, v).cr == f.cr;
      SetIrq1Bits(s.cr);
    } else {
      assert Line1Set(s, v) == s.(line1 := v);
    }
  }

  /** setCx1 on a section: at the flagging edge in handshake mode line 2 rises, otherwise it is
      untouched; nothing else changes, and repeating the same level changes nothing more. */
  lemma SetLine1Handshake(s: Section, v: Signal)
    ensures var s' := Line1Set(s, v);
      && (Line1Edge(s, v) && Handshake(s.modes) ==> s'.line2 == Rise)
      && (!Line1Edge(s, v) || !Handshake(s.modes) ==> s'.line2 == s.line2)
      && s'.(cr := s.cr, line1 := s.line1, line2 := s.line2) == s
      && Line1Set(s', v) == s'
  {
    var s' := Line1Set(s, v);
    assert s'.line1 == v && !Line1Edge(s', v);
  }

  /** setCx2 on a section: the line takes the new level; flag bit 6 becomes set exactly at the
      flagging edge and is never cleared; nothing else changes, and repeating the same level
      changes nothing more. */
  lemma SetLine2(s: Section, v: Signal)
    ensures var s' := Line2Set(s, v);
      && s'.line2 == v
      && (Irq2Flag(s'.cr) <==> Irq2Flag(s.cr) || Line2Edge(s, v))
      && s'.cr & 0xBF == s.cr & 0xBF
      && s'.(cr := s.cr, line2 := s.line2) == s
      && Line2Set(s', v) == s'
  {
    if Line2Edge(s, v) {
      assert Line2Set(s, v).cr == SetIrq2Flag(s.cr);
      SetIrq2Bits(s.cr);
    } else {
      assert Line2Set(s, v) == s.(line2 := v);
    }
  }

  /** A line change signals the interrupt only at a flagging edge, and then exactly when the
      handler is present and some enabled flag is set. */
  lemma SetLineInterruptsA(c: Chip, v: Signal)
    ensures var r := AfterSetCA1(c, v);
      r.interrupts == c.interrupts + (if Line1Edge(c.a, v) then Signalled(r) else 0)
    ensures var r := AfterSetCA2(c, v);
      r.interrupts == c.interrupts + (if Line2Edge(c.a, v) then Signalled(r) else 0)
  {
  }

  /** The same for the lines of section B. */
  lemma SetLineInterruptsB(c: Chip, v: Signal)
    ensures var r := AfterSetCB1(c, v);
      r.interrupts == c.interrupts + (if Line1Edge(c.b, v) then Signalled(r) else 0)
    ensures var r := AfterSetCB2(c, v);
      r.interrupts == c.interrupts + (if Line2Edge(c.b, v) then Signalled(r) else 0)
  {
  }

  // ---------------------------------------------------------------------------------------------
  // The chip object

  /** The state MC6821.cpp's constructor leaves; the levels of CB1 and CB2 are open. */
  predicate PowerOn(c: Chip)
  {
    && c.a == Section(0, 0xFF, 0, 0xFF, Rise, Rise, 0, Decode(0))
    && c.b == Section(0, 0, 0, 0xFF, c.b.line1, c.b.line2, 0, Decode(0))
    && !c.hasOutputA && !c.hasOutputB && !c.hasInterrupt
    && c.outputA == [] && c.outputB == [] && c.interrupts == 0
  }

  class MC6821 {
    var a: Section
    var b: Section
    var hasOutputA: bool
    var hasOutputB: bool
    var hasInterrupt: bool
    var outputA: seq<byte>
    var outputB: seq<byte>
    var interrupts: nat

    ghost function State(): Chip
      reads this
    {
      Chip(a, b, hasOutputA, hasOutputB, hasInterrupt, outputA, outputB, interrupts)
    }

    ghost predicate Valid()
      reads this
    {
      SectionValid(a) && SectionValid(b)
    }

    /** Power-on state: every register 0 except IRA = 0xFF and the DDR complements 0xFF, CA1 and
        CA2 high, no handlers.  nCB1 and nCB2 are never initialised, so their levels are open. */
    constructor ()
      ensures Valid()
      ensures a == Section(0, 0xFF, 0, 0xFF, Rise, Rise, 0, Decode(0))
      ensures b == Section(0, 0, 0, 0xFF, b.line1, b.line2, 0, Decode(0))
      ensures !hasOutputA && !hasOutputB && !hasInterrupt
      ensures outputA == [] && outputB == [] && interrupts == 0
      ensures PowerOn(State())
    {
      var cb1: Signal :| true;
      var cb2: Signal :| true;
      var unset: Modes :| true;
      a := Section(0, 0xFF, 0, 0xFF, Rise, Rise, 0, unset);
      b := Section(0, 0, 0, 0xFF, cb1, cb2, 0, unset);
      hasOutputA, hasOutputB, hasInterrupt := false, false, false;
      outputA, outputB, interrupts := [], [], 0;
      new;
      UpdateControlRegisters();
    }

    method UpdateControlRegisters()
      modifies this`a, this`b
      ensures State() == AfterUpdateControl(old(State()))
    {
      var m := Decode(ConfigBits(a.cr));
      a := a.(modes := m);
      if m.manualOutput {
        a := a.(line2 := Level(m.line2SetHigh));
      }
      m := Decode(ConfigBits(b.cr));
      b := b.(modes := m);
      if m.manualOutput {
        b := b.(line2 := Level(m.line2SetHigh));
      }
    }

    method UpdateIrq()
      modifies this`interrupts
      ensures State() == AfterUpdateIrq(old(State()))
    {
      if hasInterrupt && (FlagsAsserted(a) || FlagsAsserted(b)) {
        interrupts := interrupts + 1;
      }
    }

    /** cpuRead: the selector is addr & 3; the read-only flag is not consulted. */
    method CpuRead(addr: u16, readOnly: bool) returns (data: byte)
      requires Valid()
      modifies this`a, this`b
      ensures Valid()
      ensures data == ReadResult(old(State()), addr % 4)
      ensures State() == AfterRead(old(State()), addr % 4)
    {
      ValidRead(State(), addr % 4);
      var reg := addr % 4;
      data := 0;
      if reg == 0 {
        a := ClearFlags(a);
        data := PortValue(a);
      } else if reg == 1 {
        data := a.cr;
      } else if reg == 2 {
        b := ClearFlags(b);
        data := PortValue(b);
      } else {
        data := b.cr;
      }
    }

    /** cpuWrite: the selector is addr & 3; each case of the selector is one of the four methods
        below. */
    method CpuWrite(addr: u16, data: byte)
      requires Valid()
      modifies this`a, this`b, this`outputA, this`outputB, this`interrupts
      ensures Valid()
      ensures State() == AfterWrite(old(State()), addr % 4, data)
    {
      var reg := addr % 4;
      if reg == 0 {
        WritePortRegisterA(data);
      } else if reg == 1 {
        WriteControlRegisterA(data);
      } else if reg == 2 {
        WritePortRegisterB(data);
      } else {
        WriteControlRegisterB(data);
      }
    }

    /** Selector 0 (DDRA / PA). */
    method WritePortRegisterA(data: byte)
      requires Valid()
      modifies this`a, this`outputA
      ensures Valid()
      ensures State() == WriteDataA(old(State()), data)
    {
      ValidDataWritten(a, data);
      if a.modes.writePort {
        a := Latched(a, data);
        if hasOutputA {
          outputA := outputA + [PortValue(a)];
        }
      } else {
        a := Directed(a, data);
      }
    }

    /** Selector 1 (CRA): the flag bits are kept. */
    method WriteControlRegisterA(data: byte)
      requires Valid()
      modifies this`a, this`b, this`interrupts
      ensures Valid()
      ensures State() == WriteControlA(old(State()), data)
    {
      ValidWriteControlA(State(), data);
      a := WithControl(a, ControlWritten(a.cr, data));
      UpdateControlRegisters();
      UpdateIrq();
    }

    /** Selector 2 (DDRB / PB), with the CB2 handshake on a port write. */
    method WritePortRegisterB(data: byte)
      requires Valid()
      modifies this`b, this`outputB
      ensures Valid()
      ensures State() == WriteDataB(old(State()), data)
    {
      ValidWriteDataB(State(), data);
      if b.modes.writePort {
        b := Latched(b, data);
        if hasOutputB {
          outputB := outputB + [PortValue(b)];
          if b.modes.outputMode && !b.modes.manualOutput {
            b := WithLine2(b, Fall);
            if b.modes.pulseOutput {
              b := WithLine2(b, Rise);
            }
          }
        }
      } else {
        b := Directed(b, data);
      }
    }

    /** Selector 3 (CRB): the flag bits are kept. */
    method WriteControlRegisterB(data: byte)
      requires Valid()
      modifies this`a, this`b, this`interrupts
      ensures Valid()
      ensures State() == WriteControlB(old(State()), data)
    {
      ValidWriteControlB(State(), data);
      b := WithControl(b, ControlWritten(b.cr, data));
      UpdateControlRegisters();
      UpdateIrq();
    }

    method SetInputA(v: byte)
      requires Valid()
      modifies this`a
      ensures Valid()
      ensures State() == old(State()).(a := old(a).(ir := v))
    {
      a := WithInput(a, v);
    }

    method SetInputB(v: byte)
      requires Valid()
      modifies this`b
      ensures Valid()
      ensures State() == old(State()).(b := old(b).(ir := v))
    {
      b := WithInput(b, v);
    }

    /** setOutputAHandler: from now on port-A output bytes are delivered (logged). */
    method SetOutputAHandler()
      modifies this`hasOutputA
      ensures State() == old(State()).(hasOutputA := true)
    {
      hasOutputA := true;
    }

    /** setOutputBHandler: from now on port-B output bytes are delivered (logged). */
    method SetOutputBHandler()
      modifies this`hasOutputB
      ensures State() == old(State()).(hasOutputB := true)
    {
      hasOutputB := true;
    }

    /** setInterruptHandler: from now on interrupt signals are delivered (counted). */
    method SetInterruptHandler()
      modifies this`hasInterrupt
      ensures State() == old(State()).(hasInterrupt := true)
    {
      hasInterrupt := true;
    }

    method SetCA1(v: Signal)
      requires Valid()
      modifies this`a, this`interrupts
      ensures Valid()
      ensures State() == AfterSetCA1(old(State()), v)
    {
      ValidLine1Set(a, v);
      if Line1Edge(a, v) {
        a := FlagIrq1(a);
        UpdateIrq();
        if Handshake(a.modes) {
          a := WithLine2(a, Rise);
        }
      }
      a := WithLine1(a, v);
    }

    method GetCA1() returns (v: Signal)
      ensures v == a.line1
    {
      v := a.line1;
    }

    method SetCA2(v: Signal)
      requires Valid()
      modifies this`a, this`interrupts
      ensures Valid()
      ensures State() == AfterSetCA2(old(State()), v)
    {
      ValidLine2Set(a, v);
      if Line2Edge(a, v) {
        a := FlagIrq2(a);
        UpdateIrq();
      }
      a := WithLine2(a, v);
    }

    method GetCA2() returns (v: Signal)
      ensures v == a.line2
    {
      v := a.line2;
    }

    method SetCB1(v: Signal)
      requires Valid()
      modifies this`b, this`interrupts
      ensures Valid()
      ensures State() == AfterSetCB1(old(State()), v)
    {
      ValidLine1Set(b, v);
      if Line1Edge(b, v) {
        b := FlagIrq1(b);
        UpdateIrq();
        if Handshake(b.modes) {
          b := WithLine2(b, Rise);
        }
      }
      b := WithLine1(b, v);
    }

    method GetCB1() returns (v: Signal)
      ensures v == b.line1
    {
      v := b.line1;
    }

    method SetCB2(v: Signal)
      requires Valid()
      modifies this`b, this`interrupts
      ensures Valid()
      ensures State() == AfterSetCB2(old(State()), v)
    {
      ValidLine2Set(b, v);
      if Line2Edge(b, v) {
        b := FlagIrq2(b);
        UpdateIrq();
      }
      b := WithLine2(b, v);
    }

    method GetCB2() returns (v: Signal)
      ensures v == b.line2
    {
      v := b.line2;
    }
  }
}
