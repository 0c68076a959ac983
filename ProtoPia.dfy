/** The earlier MC6821 of olcApple1/MC6821.cpp.  Its registers, updateControlRegisters, updateIRQ
    and cpuWrite are those of the full chip in module Pia, so the class below is proved against the
    same transition functions; its cpuRead is a stub that answers 0, and it has no input, handler
    or control-line setters: the constructor leaves every handler absent and no method's modifies
    clause names the handler fields, so WriteSilent describes every write it can see. */
module ProtoPia {
  import opened Bytes
  import Pia

  class MC6821 {
    var a: Pia.Section
    var b: Pia.Section
    var hasOutputA: bool
    var hasOutputB: bool
    var hasInterrupt: bool
    var outputA: seq<byte>
    var outputB: seq<byte>
    var interrupts: nat

    ghost function State(): Pia.Chip
      reads this
    {
      Pia.Chip(a, b, hasOutputA, hasOutputB, hasInterrupt, outputA, outputB, interrupts)
    }

    /** The derived fields follow the control registers. */
    ghost predicate Valid()
      reads this
    {
      Pia.SectionValid(a) && Pia.SectionValid(b)
    }

    /** Power-on state, as in the full chip: nCB1 and nCB2 are left open. */
    constructor ()
      ensures Valid()
      ensures a == Pia.Section(0, 0xFF, 0, 0xFF, Pia.Rise, Pia.Rise, 0, Pia.Decode(0))
      ensures b == Pia.Section(0, 0, 0, 0xFF, b.line1, b.line2, 0, Pia.Decode(0))
      ensures !hasOutputA && !hasOutputB && !hasInterrupt
      ensures outputA == [] && outputB == [] && interrupts == 0
    {
      var cb1: Pia.Signal :| true;
      var cb2: Pia.Signal :| true;
      var unset: Pia.Modes :| true;
      a := Pia.Section(0, 0xFF, 0, 0xFF, Pia.Rise, Pia.Rise, 0, unset);
      b := Pia.Section(0, 0, 0, 0xFF, cb1, cb2, 0, unset);
      hasOutputA, hasOutputB, hasInterrupt := false, false, false;
      outputA, outputB, interrupts := [], [], 0;
      new;
      UpdateControlRegisters();
    }

    method UpdateControlRegisters()
      modifies this`a, this`b
      ensures State() == Pia.AfterUpdateControl(old(State()))
    {
      var m := Pia.Decode(Pia.ConfigBits(a.cr));
      a := a.(modes := m);
      if m.manualOutput {
        a := a.(line2 := Pia.Level(m.line2SetHigh));
      }
      m := Pia.Decode(Pia.ConfigBits(b.cr));
      b := b.(modes := m);
      if m.manualOutput {
        b := b.(line2 := Pia.Level(m.line2SetHigh));
      }
    }

    method UpdateIrq()
      modifies this`interrupts
      ensures State() == Pia.AfterUpdateIrq(old(State()))
    {
      if hasInterrupt && (Pia.FlagsAsserted(a) || Pia.FlagsAsserted(b)) {
        interrupts := interrupts + 1;
      }
    }

    /** cpuRead: a stub that reads no register and clears no flag. */
    method CpuRead(addr: u16, readOnly: bool) returns (data: byte)
      ensures data == 0
    {
      var reg := addr % 4;
      data := 0;
    }

    /** cpuWrite: the selector is addr & 3. */
    method CpuWrite(addr: u16, data: byte)
      requires Valid()
      modifies this`a, this`b, this`outputA, this`outputB, this`interrupts
      ensures Valid()
      ensures State() == Pia.AfterWrite(old(State()), addr % 4, data)
    {
      var reg := addr % 4;
      if reg == 0 {
        WritePortRegisterA(data);
      } else if reg == 1 {
        WriteControlRegisterA(data);
      } else if reg == 2 {
        WritePortRegisterB(data);
      } else {
        WriteControlRegisterB(data);
      }
    }

    /** Selector 0 (DDRA / PA). */
    method WritePortRegisterA(data: byte)
      requires Valid()
      modifies this`a, this`outputA
      ensures Valid()
      ensures State() == Pia.WriteDataA(old(State()), data)
    {
      Pia.ValidDataWritten(a, data);
      if a.modes.writePort {
        a := Pia.Latched(a, data);
        if hasOutputA {
          outputA := outputA + [Pia.PortValue(a)];
        }
      } else {
        a := Pia.Directed(a, data);
      }
    }

    /** Selector 1 (CRA). */
    method WriteControlRegisterA(data: byte)
      requires Valid()
      modifies this`a, this`b, this`interrupts
      ensures Valid()
      ensures State() == Pia.WriteControlA(old(State()), data)
    {
      Pia.ValidWriteControlA(State(), data);
      a := Pia.WithControl(a, Pia.ControlWritten(a.cr, data));
      UpdateControlRegisters();
      UpdateIrq();
    }

    /** Selector 2 (DDRB / PB). */
    method WritePortRegisterB(data: byte)
      requires Valid()
      modifies this`b, this`outputB
      ensures Valid()
      ensures State() == Pia.WriteDataB(old(State()), data)
    {
      Pia.ValidWriteDataB(State(), data);
      if b.modes.writePort {
        b := Pia.Latched(b, data);
        if hasOutputB {
          outputB := outputB + [Pia.PortValue(b)];
          if b.modes.outputMode && !b.modes.manualOutput {
            b := Pia.WithLine2(b, Pia.Fall);
            if b.modes.pulseOutput {
              b := Pia.WithLine2(b, Pia.Rise);
            }
          }
        }
      } else {
        b := Pia.Directed(b, data);
      }
    }

    /** Selector 3 (CRB). */
    method WriteControlRegisterB(data: byte)
      requires Valid()
      modifies this`a, this`b, this`interrupts
      ensures Valid()
      ensures State() == Pia.WriteControlB(old(State()), data)
    {
      Pia.ValidWriteControlB(State(), data);
      b := Pia.WithControl(b, Pia.ControlWritten(b.cr, data));
      UpdateControlRegisters();
      UpdateIrq();
    }
  }

  /** Without handlers a write emits nothing: the output logs and the interrupt count of the
      prototype never move, whatever is written where. */
  lemma WriteSilent(c: Pia.Chip, reg: int, data: byte)
    requires 0 <= reg < 4
    requires !c.hasOutputA && !c.hasOutputB && !c.hasInterrupt
    ensures var r := Pia.AfterWrite(c, reg, data);
      r.outputA == c.outputA && r.outputB == c.outputB && r.interrupts == c.interrupts
    ensures var r := Pia.AfterWrite(c, reg, data);
      (reg == 0 || reg == 2) ==> (if reg == 0 then r.b == c.b else r.a == c.a)
  {
  }
}
