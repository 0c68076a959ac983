/** The character terminal of Apple1Terminal.cpp: a FIFO of bytes that the PIA's port-B handler
    fills, a 24 x 40 character buffer with a cursor that ProcessOutput updates one byte at a time,
    and the two glyph tables that LoadCharacterRom builds from the character ROM file.  Pixel
    rendering is not modelled. */
module Terminal {
  import opened Bytes
  import Pia

  const Rows: int := 24
  const Cols: int := 40
  const Cells: int := Rows * Cols
  const Space: byte := 0x20
  const CarriageReturn: byte := 0x0D

  // ---------------------------------------------------------------------------------------------
  // The character stream

  /** `dsp &= 0x5F` */
  function UpperCase(d: byte): byte
  {
    d & 0x5F
  }

  /** Lower-case letters (0x61-0x7A) are folded to upper case; every other byte is kept. */
  function Fold(d: byte): byte
  {
    if 0x61 <= d <= 0x7A then UpperCase(d) else d
  }

  lemma FoldCases(d: byte)
    ensures 0x61 <= d <= 0x7A ==> Fold(d) == d - 0x20 && 0x41 <= Fold(d) <= 0x5A
    ensures !(0x61 <= d <= 0x7A) ==> Fold(d) == d
  {
  }

  /** The bytes the terminal shows (0x20-0x5F). */
  predicate Printable(d: byte)
  {
    0x20 <= d <= 0x5F
  }

  /** The character buffer (row-major, 40 cells per row) and the cursor. */
  datatype Screen = Screen(cells: seq<byte>, x: int, y: int)

  predicate InGrid(s: Screen)
  {
    |s.cells| == Cells && 0 <= s.x < Cols && 0 <= s.y < Rows
  }

  /** The effect of one (folded) byte before the cursor is checked: a carriage return moves to the
      start of the next row, a printable byte is stored at the cursor which moves right, anything
      else is ignored. */
  function Echo(s: Screen, d: byte): Screen
    requires InGrid(s)
  {
    if d == CarriageReturn then s.(x := 0, y := s.y + 1)
    else if Printable(d) then s.(cells := s.cells[s.y * Cols + s.x := d], x := s.x + 1)
    else s
  }

  /** A cursor past the last column wraps to the start of the next row. */
  function Wrapped(s: Screen): Screen
  {
    if s.x == Cols then s.(x := 0, y := s.y + 1) else s
  }

  /** The row of spaces that scrolls in at the bottom. */
  function BlankRow(): (r: seq<byte>)
    ensures |r| == Cols && forall i :: 0 <= i < Cols ==> r[i] == Space
  {
    seq(Cols, _ => Space)
  }

  /** Every row moves up by one and the last row is blank. */
  function ScrollUp(cells: seq<byte>): (r: seq<byte>)
    requires |cells| == Cells
    ensures |r| == Cells
  {
    cells[Cols..] + BlankRow()
  }

  /** A cursor below the last row scrolls the buffer and moves back up one row. */
  function Scrolled(s: Screen): Screen
    requires |s.cells| == Cells
  {
    if s.y == Rows then s.(cells := ScrollUp(s.cells), y := Rows - 1) else s
  }

  /** The screen after ProcessOutput consumed the byte d; wrap and scroll keep the cursor on the
      grid. */
  function AfterOutput(s: Screen, d: byte): (r: Screen)
    requires InGrid(s)
    ensures InGrid(r)
  {
    Scrolled(Wrapped(Echo(s, Fold(d))))
  }

  /** The screen after a run of bytes, processed in order. */
  function Drained(s: Screen, q: seq<byte>): (r: Screen)
    requires InGrid(s)
    ensures InGrid(r)
    decreases |q|
  {
    if q == [] then s
    else
      Drained(AfterOutput(s, q[0]), q[1..])
  }

  /** A cursor on the grid indexes a cell of the buffer. */
  lemma CellIndex(x: int, y: int)
    requires 0 <= x < Cols && 0 <= y < Rows
    ensures 0 <= y * Cols + x < Cells
  {
  }

  /** What one byte does, before wrap and scroll. */
  lemma EchoCases(s: Screen, d: byte)
    requires InGrid(s)
    ensures Printable(d) ==> Echo(s, d) == Screen(s.cells[s.y * Cols + s.x := d], s.x + 1, s.y)
    ensures d == CarriageReturn ==> Echo(s, d) == Screen(s.cells, 0, s.y + 1)
    ensures !Printable(d) && d != CarriageReturn ==> Echo(s, d) == s
  {
  }

  /** Row r takes the old row r + 1 and the last row becomes spaces. */
  lemma ScrollRows(cells: seq<byte>, r: int, c: int)
    requires |cells| == Cells && 0 <= c < Cols
    ensures 0 <= r < Rows - 1 ==> ScrollUp(cells)[r * Cols + c] == cells[(r + 1) * Cols + c]
    ensures r == Rows - 1 ==> ScrollUp(cells)[r * Cols + c] == Space
  {
  }

  /** A byte that needs neither wrap nor scroll leaves only its own effect. */
  lemma PlainOutput(s: Screen, d: byte)
    requires InGrid(s) && Printable(Fold(d)) && s.x < Cols - 1
    ensures AfterOutput(s, d) == Screen(s.cells[s.y * Cols + s.x := Fold(d)], s.x + 1, s.y)
  {
  }

  /** Printing at the end of the last row wraps and scrolls: the byte ends up in the next-to-last
      row, the last row is blank and the cursor is at its start. */
  lemma PrintAtBottomRight(s: Screen, d: byte)
    requires InGrid(s) && Printable(Fold(d)) && s.x == Cols - 1 && s.y == Rows - 1
    ensures var r := AfterOutput(s, d);
      && r.x == 0 && r.y == Rows - 1
      && r.cells[(Rows - 2) * Cols + (Cols - 1)] == Fold(d)
      && r.cells[(Rows - 1) * Cols..] == BlankRow()
  {
    var e := Echo(s, Fold(d));
    assert e.cells[Cells - 1] == Fold(d);
    assert ScrollUp(e.cells)[Cells - Cols - 1] == e.cells[Cells - 1];
  }

  /** Draining a queue in two parts is draining it at once: bytes are shown in FIFO order. */
  lemma {:induction false} DrainedAppend(s: Screen, q1: seq<byte>, q2: seq<byte>)
    requires InGrid(s)
    ensures Drained(s, q1 + q2) == Drained(Drained(s, q1), q2)
    decreases |q1|
  {
    if q1 == [] {
      assert q1 + q2 == q2;
    } else {
      assert (q1 + q2)[0] == q1[0] && (q1 + q2)[1..] == q1[1..] + q2;
      DrainedAppend(AfterOutput(s, q1[0]), q1[1..], q2);
    }
  }

  // ---------------------------------------------------------------------------------------------
  // Glyphs

  /** The bits of a glyph row in the opposite order (the file stores rows right to left). */
  function Reversed(b: byte): byte
  {
    ((b & 0x01) << 7) | ((b & 0x02) << 5) | ((b & 0x04) << 3) | ((b & 0x08) << 1)
    | ((b & 0x10) >> 1) | ((b & 0x20) >> 3) | ((b & 0x40) >> 5) | ((b & 0x80) >> 7)
  }

  /** Bit i of Reversed(b) is bit 7 - i of b, so reversing twice gives the row back. */
  lemma ReversedBits(b: byte, i: nat)
    requires i < 8
    ensures (Reversed(b) >> i) & 1 == (b >> (7 - i)) & 1
    ensures Reversed(Reversed(b)) == b
  {
  }

  // The steps of the reversal loop, one function per operator.

  /** `mask >>= 1` */
  function ShiftedDown(m: byte): byte { m >> 1 }
  /** `mask <<= 1` */
  function ShiftedUp(m: byte): byte { m << 1 }
  /** `(v & m) == m` */
  predicate Covers(v: byte, m: byte) { v & m == m }
  /** `b |= m` */
  function Joined(b: byte, m: byte): byte { b | m }

  /** fromMask and toMask after k steps. */
  function FromMask(k: nat): byte
  {
    if k == 0 then 0x80 else ShiftedDown(FromMask(k - 1))
  }

  function ToMask(k: nat): byte
  {
    if k == 0 then 0x01 else ShiftedUp(ToMask(k - 1))
  }

  /** bNew after k steps. */
  function PartlyReversed(b: byte, k: nat): byte
  {
    if k == 0 then 0
    else if Covers(b, FromMask(k - 1)) then Joined(PartlyReversed(b, k - 1), ToMask(k - 1))
    else PartlyReversed(b, k - 1)
  }

  /** The loop's eight steps compute Reversed. */
  lemma PartlyReversedComplete(b: byte)
    ensures PartlyReversed(b, 8) == Reversed(b)
  {
    assert FromMask(1) == 0x40 && FromMask(2) == 0x20 && FromMask(3) == 0x10;
    assert FromMask(4) == 0x08 && FromMask(5) == 0x04 && FromMask(6) == 0x02 && FromMask(7) == 0x01;
    assert ToMask(1) == 0x02 && ToMask(2) == 0x04 && ToMask(3) == 0x08;
    assert ToMask(4) == 0x10 && ToMask(5) == 0x20 && ToMask(6) == 0x40 && ToMask(7) == 0x80;
    assert PartlyReversed(b, 1) == (b & 0x80) >> 7;
    assert PartlyReversed(b, 2) == ((b & 0x80) >> 7) | ((b & 0x40) >> 5);
    assert PartlyReversed(b, 3) == ((b & 0x80) >> 7) | ((b & 0x40) >> 5) | ((b & 0x20) >> 3);
    assert PartlyReversed(b, 4) == ((b & 0x80) >> 7) | ((b & 0x40) >> 5) | ((b & 0x20) >> 3) | ((b & 0x10) >> 1);
    assert PartlyReversed(b, 5) == ((b & 0x80) >> 7) | ((b & 0x40) >> 5) | ((b & 0x20) >> 3) | ((b & 0x10) >> 1)
      | ((b & 0x08) << 1);
    assert PartlyReversed(b, 6) == ((b & 0x80) >> 7) | ((b & 0x40) >> 5) | ((b & 0x20) >> 3) | ((b & 0x10) >> 1)
      | ((b & 0x08) << 1) | ((b & 0x04) << 3);
    assert PartlyReversed(b, 7) == ((b & 0x80) >> 7) | ((b & 0x40) >> 5) | ((b & 0x20) >> 3) | ((b & 0x10) >> 1)
      | ((b & 0x08) << 1) | ((b & 0x04) << 3) | ((b & 0x02) << 5);
  }

  /** A table entry: the reversed row, complemented for the inverted table. */
  function GlyphRow(b: byte, invert: bool): byte
  {
    if invert then Inverted(Reversed(b)) else Reversed(b)
  }

  /** `~bNew` for the inverted table. */
  function Inverted(b: byte): byte
  {
    !b
  }

  /** The table entry [k][l] after the first n bytes of the file were fed in: byte c goes to
      [c / 8 mod 256][c mod 8] (the character index is 8 bits wide), later bytes overwriting
      earlier ones; init is the entry before. */
  function Filled(file: seq<byte>, n: nat, k: int, l: int, init: byte, invert: bool): byte
    requires n <= |file|
  {
    if n == 0 then init
    else if (n - 1) / 8 % 256 == k && (n - 1) % 8 == l then GlyphRow(file[n - 1], invert)
    else Filled(file, n - 1, k, l, init, invert)
  }

  /** For a file of at most 256 glyphs, entry [c / 8][c % 8] is the row built from byte c,
      whatever it held before. */
  lemma {:induction false} FilledFromByte(file: seq<byte>, n: nat, c: nat, invert: bool)
    requires c < n <= |file| <= 2048
    ensures forall init :: Filled(file, n, c / 8, c % 8, init, invert) == GlyphRow(file[c], invert)
    decreases n
  {
    if n - 1 != c {
      assert (n - 1) / 8 % 256 != c / 8 || (n - 1) % 8 != c % 8;
      FilledFromByte(file, n - 1, c, invert);
    }
  }

  /** Where byte c + 1 goes, from where byte c went: the next line, or line 0 of the next
      character once eight lines are filled. */
  lemma NextSlot(c: nat)
    ensures c % 8 + 1 < 8 ==> (c + 1) % 8 == c % 8 + 1 && (c + 1) / 8 % 256 == c / 8 % 256
    ensures c % 8 + 1 == 8 ==> (c + 1) % 8 == 0 && (c + 1) / 8 % 256 == (c / 8 % 256 + 1) % 256
  {
    var q, r := c / 8, c % 8;
    assert c + 1 == 8 * q + (r + 1);
    if r + 1 == 8 {
      assert c + 1 == 8 * (q + 1);
      assert (c + 1) / 8 == q + 1;
    } else {
      assert (c + 1) / 8 == q;
    }
  }

  /** Entries the file does not reach keep their value. */
  lemma {:induction false} FilledBeyond(file: seq<byte>, n: nat, k: int, l: int, init: byte, invert: bool)
    requires n <= |file| && 0 <= l < 8 && 0 <= k < 256 && n <= 8 * k + l
    ensures Filled(file, n, k, l, init, invert) == init
    decreases n
  {
    if n > 0 {
      FilledBeyond(file, n - 1, k, l, init, invert);
    }
  }

  // ---------------------------------------------------------------------------------------------
  // The terminal object

  class Apple1Terminal {
    /** cScreenBuffer */
    var screen: array<byte>
    var charRom: array2<byte>
    var charRomInverted: array2<byte>
    var cursorX: u8
    var cursorY: u8
    /** displayQueue, front first */
    var queue: seq<byte>

    ghost predicate Tables()
      reads this
    {
      && charRom.Length0 == 256 && charRom.Length1 == 8
      && charRomInverted.Length0 == 256 && charRomInverted.Length1 == 8
      && charRom != charRomInverted
    }

    /** The cursor is on the grid; the C++ indexes the buffer with it.  ClearScreen establishes
        this (the constructor leaves the cursor uninitialised). */
    ghost predicate Valid()
      reads this
    {
      screen.Length == Cells && cursorX as int < Cols && cursorY as int < Rows && Tables()
    }

    ghost function View(): Screen
      reads this, screen
    {
      Screen(screen[..], cursorX as int, cursorY as int)
    }

    /** Both tables are loaded from the same file (None when it cannot be opened), and the PIA's
        port-B output is routed into the queue. */
    constructor (charFile: Option<seq<byte>>, pia: Pia.MC6821)
      modifies pia
      ensures screen.Length == Cells && Tables() && queue == []
      ensures fresh(screen) && fresh(charRom) && fresh(charRomInverted)
      ensures charFile.Some? && |charFile.value| <= 2048 ==>
        forall c :: 0 <= c < |charFile.value| ==>
          && charRom[c / 8, c % 8] == GlyphRow(charFile.value[c], false)
          && charRomInverted[c / 8, c % 8] == GlyphRow(charFile.value[c], true)
      ensures pia.State() == old(pia.State()).(hasOutputB := true)
    {
      screen := new byte[Cells];
      charRom := new byte[256, 8];
      charRomInverted := new byte[256, 8];
      var x: u8 :| true;
      var y: u8 :| true;
      cursorX, cursorY := x, y;
      queue := [];
      new;
      LoadCharacterRom(charFile, charRom, false);
      LoadCharacterRom(charFile, charRomInverted, true);
      if charFile.Some? && |charFile.value| <= 2048 {
        forall c | 0 <= c < |charFile.value|
          ensures charRom[c / 8, c % 8] == GlyphRow(charFile.value[c], false)
          ensures charRomInverted[c / 8, c % 8] == GlyphRow(charFile.value[c], true)
        {
          assert 0 <= c / 8 < 256;
          FilledFromByte(charFile.value, |charFile.value|, c, false);
          FilledFromByte(charFile.value, |charFile.value|, c, true);
        }
      }
      pia.SetOutputBHandler();
    }

    /** ClearScreen, without its pixel loop: every cell a space, the cursor at the top left. */
    method ClearScreen()
      requires screen.Length == Cells
      modifies screen, this`cursorX, this`cursorY
      ensures screen[..] == seq(Cells, _ => Space)
      ensures cursorX == 0 && cursorY == 0
    {
      var i := 0;
      while i < screen.Length
        invariant 0 <= i <= screen.Length
        invariant forall j :: 0 <= j < i ==> screen[j] == Space
      {
        screen[i] := Space;
        i := i + 1;
      }
      cursorY, cursorX := 0, 0;
    }

    /** ReceiveOutput, the port-B handler: the byte joins the back of the queue. */
    method ReceiveOutput(d: byte)
      modifies this`queue
      ensures queue == old(queue) + [d]
    {
      queue := queue + [d];
    }

    /** ProcessOutput: the front byte of the queue (if any) is taken off and shown. */
    method ProcessOutput()
      requires Valid()
      modifies screen, this`cursorX, this`cursorY, this`queue
      ensures Valid()
      ensures old(queue) == [] ==> queue == [] && View() == old(View())
      ensures old(queue) != [] ==> queue == old(queue)[1..] && View() == AfterOutput(old(View()), old(queue)[0])
    {
      if queue == [] {
        return;
      }
      ghost var s := View();
      var dsp := queue[0];
      if dsp >= 0x61 && dsp <= 0x7A {
        dsp := UpperCase(dsp);
      }
      assert dsp == Fold(queue[0]);
      var x, y := cursorX as int, cursorY as int;
      if dsp == CarriageReturn {
        x := 0;
        y := y + 1;
      } else if Printable(dsp) {
        CellIndex(x, y);
        screen[y * Cols + x] := dsp;
        x := x + 1;
      }
      assert Screen(screen[..], x, y) == Echo(s, dsp);
      if x == Cols {
        x := 0;
        y := y + 1;
      }
      if y == Rows {
        ScrollScreen();
        y := y - 1;
      }
      cursorX, cursorY := x as u8, y as u8;
      queue := queue[1..];
    }

    /** The scroll of ProcessOutput: rows 1-23 move up one row and row 23 is cleared. */
    method ScrollScreen()
      requires screen.Length == Cells
      modifies screen
      ensures screen[..] == ScrollUp(old(screen[..]))
    {
      MoveRowsUp();
      ClearBottomRow();
    }

    /** The first loop of the scroll: each cell of rows 0-22 takes the cell below it. */
    method MoveRowsUp()
      requires screen.Length == Cells
      modifies screen
      ensures screen[..] == old(screen[Cols..]) + old(screen[(Rows - 1) * Cols..])
    {
      var y := 0;
      while y < Rows - 1
        invariant 0 <= y <= Rows - 1
        invariant forall i :: 0 <= i < y * Cols ==> screen[i] == old(screen[i + Cols])
        invariant forall i :: y * Cols <= i < Cells ==> screen[i] == old(screen[i])
      {
        var x := 0;
        while x < Cols
          invariant 0 <= x <= Cols
          invariant forall i :: 0 <= i < y * Cols + x ==> screen[i] == old(screen[i + Cols])
          invariant forall i :: y * Cols + x <= i < Cells ==> screen[i] == old(screen[i])
        {
          screen[y * Cols + x] := screen[(y + 1) * Cols + x];
          x := x + 1;
        }
        y := y + 1;
      }
    }

    /** The second loop of the scroll: row 23 becomes spaces. */
    method ClearBottomRow()
      requires screen.Length == Cells
      modifies screen
      ensures screen[..] == old(screen[..(Rows - 1) * Cols]) + BlankRow()
    {
      var x := 0;
      while x < Cols
        invariant 0 <= x <= Cols
        invariant forall i :: 0 <= i < (Rows - 1) * Cols ==> screen[i] == old(screen[i])
        invariant forall i :: (Rows - 1) * Cols <= i < (Rows - 1) * Cols + x ==> screen[i] == Space
      {
        screen[(Rows - 1) * Cols + x] := Space;
        x := x + 1;
      }
    }

    /** LoadCharacterRom: `file` is the file's content (None when it cannot be opened, which
        feeds no bytes).  Each byte is bit-reversed (and complemented for the inverted table) into
        the next row of the next glyph. */
    method LoadCharacterRom(file: Option<seq<byte>>, rom: array2<byte>, invert: bool)
      requires rom.Length0 == 256 && rom.Length1 == 8
      modifies rom
      ensures var bytes := if file.Some? then file.value else [];
        forall k, l :: 0 <= k < 256 && 0 <= l < 8 ==>
          rom[k, l] == Filled(bytes, |bytes|, k, l, old(rom[k, l]), invert)
    {
      var memory: seq<byte> := if file.Some? then file.value else [];
      var charIndex: u8 := 0;
      var lineIndex: u8 := 0;
      var c := 0;
      while c < |memory|
        invariant 0 <= c <= |memory|
        invariant lineIndex as int == c % 8 && charIndex as int == c / 8 % 256
        invariant forall k, l :: 0 <= k < 256 && 0 <= l < 8 ==>
          rom[k, l] == Filled(memory, c, k, l, old(rom[k, l]), invert)
      {
        var row := ReverseBits(memory[c]);
        if invert {
          rom[charIndex, lineIndex] := Inverted(row);
        } else {
          rom[charIndex, lineIndex] := row;
        }
        assert rom[charIndex, lineIndex] == GlyphRow(memory[c], invert);
        NextSlot(c);
        lineIndex := lineIndex + 1;
        if lineIndex == 8 {
          lineIndex := 0;
          charIndex := (charIndex + 1) % 256;
        }
        c := c + 1;
      }
    }

    /** The inner loop of LoadCharacterRom: bit 7 down to bit 0 of v become bit 0 up to bit 7. */
    static method ReverseBits(v: byte) returns (bNew: byte)
      ensures bNew == Reversed(v)
    {
      var fromMask: byte := 0x80;
      var toMask: byte := 0x01;
      bNew := 0;
      var bit := 0;
      while bit < 8
        invariant 0 <= bit <= 8
        invariant fromMask == FromMask(bit) && toMask == ToMask(bit)
        invariant bNew == PartlyReversed(v, bit)
      {
        if Covers(v, fromMask) {
          bNew := Joined(bNew, toMask);
        }
        fromMask := ShiftedDown(fromMask);
        toMask := ShiftedUp(toMask);
        bit := bit + 1;
      }
      PartlyReversedComplete(v);
    }
  }
}
