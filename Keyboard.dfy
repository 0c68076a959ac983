/** The keyboard of Apple1Keyboard.cpp: two tables from host keys to Apple-1 ASCII codes, a scan
    that takes the first pressed key of the selected table, and the strobe that hands the code to
    the PIA's port A (data on the input register, a pulse on CA1). */
module Keyboard {
  import opened Bytes
  import Pia

  /** The host keys the tables mention, named as in the graphics engine's key enumeration. */
  datatype Key =
    | A | B | C | D | E | F | G | H | I | J | K | L | M
    | N | O | P | Q | R | S | T | U | V | W | X | Y | Z
    | K0 | K1 | K2 | K3 | K4 | K5 | K6 | K7 | K8 | K9
    | Space | Back | Enter
    | Np0 | Np1 | Np2 | Np3 | Np4 | Np5 | Np6 | Np7 | Np8 | Np9
    | NpMul | NpDiv | NpAdd | NpSub | NpDecimal
    | Period | Plus | Comma | Minus

  /** The keys in the order of the engine's enumeration, which is the order a std::map keyed by
      it is walked in. */
  const KeyOrder: seq<Key> := [
    A, B, C, D, E, F, G, H, I, J, K, L, M, N, O, P, Q, R, S, T, U, V, W, X, Y, Z,
    K0, K1, K2, K3, K4, K5, K6, K7, K8, K9,
    Space, Back, Enter,
    Np0, Np1, Np2, Np3, Np4, Np5, Np6, Np7, Np8, Np9,
    NpMul, NpDiv, NpAdd, NpSub, NpDecimal,
    Period, Plus, Comma, Minus]

  const Letters: seq<Key> := [A, B, C, D, E, F, G, H, I, J, K, L, M, N, O, P, Q, R, S, T, U, V, W, X, Y, Z]

  /** Every code either table produces is one the range check accepts. */
  predicate InRange(table: map<Key, u8>)
  {
    forall k :: k in table ==> 0x08 <= table[k] <= 0x5F
  }

  /** The code MapOLCKeyToAppleKey assigns to each key; every key of Key has one. */
  function UnshiftedCode(k: Key): u8
  {
    match k
    case Back => 0x08  case Enter => 0x0D  case Space => 0x20
    case NpMul => 0x2A  case NpAdd => 0x2B  case Plus => 0x2B  case NpSub => 0x2D  case Minus => 0x2D
    case NpDecimal => 0x2E  case NpDiv => 0x2F  case Period => 0x2E  case Comma => 0x2C
    case K0 => 0x30  case K1 => 0x31  case K2 => 0x32  case K3 => 0x33  case K4 => 0x34
    case K5 => 0x35  case K6 => 0x36  case K7 => 0x37  case K8 => 0x38  case K9 => 0x39
    case Np0 => 0x30  case Np1 => 0x31  case Np2 => 0x32  case Np3 => 0x33  case Np4 => 0x34
    case Np5 => 0x35  case Np6 => 0x36  case Np7 => 0x37  case Np8 => 0x38  case Np9 => 0x39
    case A => 0x41  case B => 0x42  case C => 0x43  case D => 0x44  case E => 0x45  case F => 0x46
    case G => 0x47  case H => 0x48  case I => 0x49  case J => 0x4A  case K => 0x4B  case L => 0x4C
    case M => 0x4D  case N => 0x4E  case O => 0x4F  case P => 0x50  case Q => 0x51  case R => 0x52
    case S => 0x53  case T => 0x54  case U => 0x55  case V => 0x56  case W => 0x57  case X => 0x58
    case Y => 0x59  case Z => 0x5A
  }

  /** MapOLCKeyToAppleKey: every key, with its code. */
  function UnshiftedTable(): map<Key, u8>
  {
    map k | k in KeyOrder :: UnshiftedCode(k)
  }

  /** The code MapOLCShiftedKeyToAppleKey (a German layout) assigns: the digits but K3, and
      + . , -; 0 stands for a key it leaves out. */
  function ShiftedCode(k: Key): u8
  {
    match k
    case K0 => 0x3D  case K1 => 0x21  case K2 => 0x22  case K4 => 0x24  case K5 => 0x25
    case K6 => 0x26  case K7 => 0x2F  case K8 => 0x28  case K9 => 0x29
    case Plus => 0x2A  case Period => 0x3A  case Comma => 0x3B  case Minus => 0x5F
    case _ => 0
  }

  /** MapOLCShiftedKeyToAppleKey */
  function ShiftedTable(): map<Key, u8>
  {
    map k | k in KeyOrder && ShiftedCode(k) != 0 :: ShiftedCode(k)
  }

  /** Every key has an unshifted code the range check accepts. */
  lemma UnshiftedInRange()
    ensures forall k :: 0x08 <= UnshiftedCode(k) <= 0x5F
  {
  }

  /** Every key of the shifted table has a code the range check accepts. */
  lemma ShiftedInRange()
    ensures forall k :: ShiftedCode(k) != 0 ==> 0x08 <= ShiftedCode(k) <= 0x5F
  {
  }

  /** Both tables hold only codes in 0x08-0x5F, and the unshifted one maps every key. */
  lemma TablesInRange()
    ensures InRange(UnshiftedTable()) && InRange(ShiftedTable())
    ensures forall k :: k in KeyOrder ==> k in UnshiftedTable()
  {
    UnshiftedInRange();
    ShiftedInRange();
  }

  /** Letter i of the alphabet sends upper-case ASCII 0x41 + i. */
  lemma LetterCodes()
    ensures forall i :: 0 <= i < |Letters| ==> UnshiftedCode(Letters[i]) == 0x41 + i
  {
  }

  /** With shift held a letter sends nothing, since the shifted table has none. */
  lemma ShiftedHasNoLetters()
    ensures forall i :: 0 <= i < |Letters| ==> Letters[i] !in ShiftedTable()
  {
    assert forall i :: 0 <= i < |Letters| ==> ShiftedCode(Letters[i]) == 0;
  }

  // ---------------------------------------------------------------------------------------------
  // The scan

  /** keyPressed after the scan: the code of the first key, in `order`, that is in the table and
      pressed; 0 when there is none. */
  function FirstPressed(table: map<Key, u8>, order: seq<Key>, pressed: set<Key>): (code: u8)
    ensures code != 0 ==> code in table.Values
    decreases |order|
  {
    if order == [] then 0
    else if order[0] in table && order[0] in pressed then table[order[0]]
    else FirstPressed(table, order[1..], pressed)
  }

  /** The scan settles on the earliest pressed key of the table: the first one in the order
      decides, whatever else is pressed after it. */
  lemma {:induction false} FirstPressedIsFirst(table: map<Key, u8>, order: seq<Key>, pressed: set<Key>, i: nat)
    requires i < |order| && order[i] in table && order[i] in pressed
    requires forall j :: 0 <= j < i ==> order[j] !in table || order[j] !in pressed
    ensures FirstPressed(table, order, pressed) == table[order[i]]
    decreases i
  {
    if i > 0 {
      assert order[0] !in table || order[0] !in pressed;
      FirstPressedIsFirst(table, order[1..], pressed, i - 1);
    }
  }

  /** With codes that are never 0, the scan yields 0 exactly when no key of the table is
      pressed; otherwise it yields one of the table's codes. */
  lemma {:induction false} FirstPressedNone(table: map<Key, u8>, order: seq<Key>, pressed: set<Key>)
    requires forall k :: k in table ==> table[k] != 0
    ensures FirstPressed(table, order, pressed) == 0 <==>
      forall j :: 0 <= j < |order| ==> order[j] !in table || order[j] !in pressed
    ensures FirstPressed(table, order, pressed) != 0 ==>
      exists k :: k in table && k in pressed && FirstPressed(table, order, pressed) == table[k]
    decreases |order|
  {
    if order != [] && !(order[0] in table && order[0] in pressed) {
      FirstPressedNone(table, order[1..], pressed);
      assert forall j :: 1 <= j < |order| ==> order[j] == order[1..][j - 1];
    }
  }

  /** The table shift selects. */
  function Selected(shiftHeld: bool): map<Key, u8>
  {
    if shiftHeld then ShiftedTable() else UnshiftedTable()
  }

  /** Every mapped key that is pressed leads to a strobe: the scan yields 0 only when no key of
      the selected table is pressed, and any code it yields passes the range check. */
  lemma ScanOutcome(pressed: set<Key>, shiftHeld: bool)
    ensures var code := FirstPressed(Selected(shiftHeld), KeyOrder, pressed);
      && (code == 0 <==> forall k :: k in Selected(shiftHeld) ==> k !in pressed)
      && (code != 0 ==> 0 < code < 0x60)
  {
    var table := Selected(shiftHeld);
    TablesInRange();
    FirstPressedNone(table, KeyOrder, pressed);
    assert forall k :: k in table ==> k in KeyOrder;
  }

  // ---------------------------------------------------------------------------------------------
  // The strobe

  /** `keyPressed | 0x80`: bit 7 of port A is wired high. */
  function WithStrobeBit(code: u8): byte
  {
    code as byte | 0x80
  }

  lemma StrobeBit(code: u8)
    ensures WithStrobeBit(code) & 0x80 == 0x80
    ensures WithStrobeBit(code) & 0x7F == code as byte & 0x7F
  {
  }

  /** The PIA after setCA1(Fall), setInputA(code | 0x80), setCA1(Rise), setCA1(Fall). */
  function Strobed(c: Pia.Chip, code: u8): (r: Pia.Chip)
    ensures r.(a := c.a, interrupts := c.interrupts) == c
  {
    var low := Pia.AfterSetCA1(c, Pia.Fall);
    var loaded := low.(a := Pia.WithInput(low.a, WithStrobeBit(code)));
    Pia.AfterSetCA1(Pia.AfterSetCA1(loaded, Pia.Rise), Pia.Fall)
  }

  /** A strobe leaves the code with bit 7 set on input register A and CA1 low, and flags IRQA1
      (CRA bit 7) whichever edge CRA bit 1 selects, since the pulse holds both edges; CRA's other
      bits, the rest of section A but CA2, and section B are as before. */
  lemma StrobeEffect(c: Pia.Chip, code: u8)
    ensures var r := Strobed(c, code);
      && r.a.ir == WithStrobeBit(code)
      && r.a.line1 == Pia.Fall
      && Pia.Irq1Flag(r.a.cr)
      && r.a.cr & 0x7F == c.a.cr & 0x7F
      && r.a.(cr := c.a.cr, ir := c.a.ir, line1 := c.a.line1, line2 := c.a.line2) == c.a
      && r.b == c.b
  {
    var c1 := Pia.AfterSetCA1(c, Pia.Fall);
    var c2 := c1.(a := Pia.WithInput(c1.a, WithStrobeBit(code)));
    var c3 := Pia.AfterSetCA1(c2, Pia.Rise);
    var c4 := Pia.AfterSetCA1(c3, Pia.Fall);
    SetCA1Sections(c, Pia.Fall);
    SetCA1Sections(c2, Pia.Rise);
    SetCA1Sections(c3, Pia.Fall);
    assert c4.b == c.b;
    Pia.SetLine1Flag(c.a, Pia.Fall);
    Pia.SetLine1Handshake(c.a, Pia.Fall);
    PulseFlags(c2.a);
  }

  /** setCA1 changes section A as Line1Set says, and besides it only the interrupt count. */
  lemma SetCA1Sections(c: Pia.Chip, v: Pia.Signal)
    ensures Pia.AfterSetCA1(c, v).a == Pia.Line1Set(c.a, v)
    ensures Pia.AfterSetCA1(c, v).(a := c.a, interrupts := c.interrupts) == c
  {
  }

  /** The Rise-Fall pulse on a low CA1 crosses both edges, so it flags IRQA1 whichever one is
      configured; it leaves CA1 low and changes nothing but CRA bit 7, CA1 and CA2. */
  lemma PulseFlags(s: Pia.Section)
    requires s.line1 == Pia.Fall
    ensures var r := Pia.Line1Set(Pia.Line1Set(s, Pia.Rise), Pia.Fall);
      && Pia.Irq1Flag(r.cr)
      && r.line1 == Pia.Fall
      && r.cr & 0x7F == s.cr & 0x7F
      && r.(cr := s.cr, line1 := s.line1, line2 := s.line2) == s
  {
    var s3 := Pia.Line1Set(s, Pia.Rise);
    Pia.SetLine1Flag(s, Pia.Rise);
    Pia.SetLine1Flag(s3, Pia.Fall);
    Pia.SetLine1Handshake(s, Pia.Rise);
    Pia.SetLine1Handshake(s3, Pia.Fall);
    assert s3.modes == s.modes;
    assert Pia.Line1Edge(s, Pia.Rise) || Pia.Line1Edge(s3, Pia.Fall);
  }

  class Apple1Keyboard {
    const pia: Pia.MC6821
    var mapKeys: map<Key, u8>
    var mapShiftedKeys: map<Key, u8>

    /** The keyboard drives the given PIA and fills both tables. */
    constructor (pia: Pia.MC6821)
      ensures this.pia == pia
      ensures mapKeys == UnshiftedTable() && mapShiftedKeys == ShiftedTable()
    {
      this.pia := pia;
      mapKeys := UnshiftedTable();
      mapShiftedKeys := ShiftedTable();
    }

    /** ProcessKey: `pressed` are the keys the engine reports pressed this frame and `shiftHeld`
        whether shift is held.  The selected table is scanned in key order up to the first
        pressed key; a code in 0x01-0x5F is then strobed into the PIA, and otherwise the PIA is
        left alone. */
    method ProcessKey(pressed: set<Key>, shiftHeld: bool)
      requires pia.Valid()
      modifies pia
      ensures pia.Valid()
      ensures var code := FirstPressed(if shiftHeld then mapShiftedKeys else mapKeys, KeyOrder, pressed);
        pia.State() == if 0 < code < 0x60 then Strobed(old(pia.State()), code) else old(pia.State())
    {
      var keyPressed: u8;
      if shiftHeld {
        keyPressed := Scan(mapShiftedKeys, KeyOrder, pressed);
      } else {
        keyPressed := Scan(mapKeys, KeyOrder, pressed);
      }
      if keyPressed != 0 {
        if keyPressed > 0 && keyPressed < 0x60 {
          pia.SetCA1(Pia.Fall);
          pia.SetInputA(WithStrobeBit(keyPressed));
          pia.SetCA1(Pia.Rise);
          pia.SetCA1(Pia.Fall);
        }
      }
    }

    /** One of the two scan loops of ProcessKey: the table's keys in `order` (the map's key
        order), stopping at the first pressed one. */
    static method Scan(table: map<Key, u8>, order: seq<Key>, pressed: set<Key>) returns (keyPressed: u8)
      ensures keyPressed == FirstPressed(table, order, pressed)
    {
      keyPressed := 0;
      var i := 0;
      while i < |order|
        invariant 0 <= i <= |order|
        invariant FirstPressed(table, order[i..], pressed) == FirstPressed(table, order, pressed)
        invariant keyPressed == 0
      {
        var k := order[i];
        if k in table && k in pressed {
          keyPressed := table[k];
          break;
        }
        assert order[i..][1..] == order[i + 1..];
        i := i + 1;
      }
    }
  }
}
