/** The AMJ66 pin assignment and the GPIO register work of `src/matrix.c`: reading the sixteen
    column pins into a row bitmap (`read_cols`) and the read-modify-writes on the DDR and PORT
    registers that configure the columns (`init_cols`) and drive the rows (`unselect_rows`,
    `select_row`). */
module Pins {
  import opened Bits

  /** Number of rows and columns of the key matrix (MATRIX_ROWS, MATRIX_COLS). */
  const ROWS: nat := 5
  const COLS: nat := 16

  /** The three AVR ports the matrix is wired to. */
  datatype Port = B | D | F

  /** One GPIO pin: a port and a bit number 0..7 of it (PB3 is Pin(B, 3)). */
  datatype Pin = Pin(port: Port, bit: nat)

  /** Column c is wired to ColPins[c]; a closed switch pulls the pin low. */
  const ColPins: seq<Pin> :=
    [Pin(F, 0), Pin(B, 3), Pin(B, 2), Pin(B, 1), Pin(B, 0), Pin(B, 7), Pin(D, 0), Pin(D, 1),
     Pin(D, 2), Pin(D, 3), Pin(D, 5), Pin(D, 6), Pin(D, 7), Pin(B, 4), Pin(B, 5), Pin(B, 6)]

  /** Row r is selected by driving bit RowPins[r] of port F low. */
  const RowPins: seq<nat> := [7, 6, 5, 4, 1]

  /** The port F bits used as row selects: PF1, PF4, PF5, PF6, PF7. */
  const RowMaskF: bv8 := 0xF2

  /** Every pin of the column table has a bit number below 8; on port D the columns skip PD4, and
      on port F the only column is PF0. */
  lemma ColPinsWellFormed()
    ensures |ColPins| == COLS
    ensures forall c :: 0 <= c < COLS ==> ColPins[c].bit < 8
    ensures forall c :: 0 <= c < COLS && ColPins[c].port == D ==> ColPins[c].bit != 4
    ensures forall c :: 0 <= c < COLS && ColPins[c].port == F ==> ColPins[c].bit == 0
  {
  }

  /** The five row selects are distinct port F bits, all inside RowMaskF, and no column uses them. */
  lemma RowPinsWellFormed()
    ensures |RowPins| == ROWS
    ensures forall r :: 0 <= r < ROWS ==> RowPins[r] < 8 && Mask8(RowPins[r]) & RowMaskF != 0
    ensures forall r, s :: 0 <= r < s < ROWS ==> RowPins[r] != RowPins[s]
    ensures forall r, c :: 0 <= r < ROWS && 0 <= c < COLS ==> ColPins[c] != Pin(F, RowPins[r])
  {
    forall r | 0 <= r < ROWS
      ensures Mask8(RowPins[r]) & RowMaskF != 0
    {
      assert r == 0 || r == 1 || r == 2 || r == 3 || r == 4;
    }
  }

  /** The input levels of ports B, D and F (PINB, PIND, PINF) at one instant. */
  datatype PinSample = PinSample(pinb: bv8, pind: bv8, pinf: bv8)

  /** The input register of a port in a sample. */
  function Input(s: PinSample, p: Port): bv8
  {
    match p
    case B => s.pinb
    case D => s.pind
    case F => s.pinf
  }

  /** The pin reads high in the sample. */
  predicate High(s: PinSample, p: Pin)
    requires p.bit < 8
  {
    Bit8(Input(s, p.port), p.bit)
  }

  /** `read_cols`: bit c of the result is set when the pin of column c reads low. */
  function ReadCols(s: PinSample): bv16
  {
    (if s.pinf & 0x01 != 0 then 0 else 0x0001) |
    (if s.pinb & 0x08 != 0 then 0 else 0x0002) |
    (if s.pinb & 0x04 != 0 then 0 else 0x0004) |
    (if s.pinb & 0x02 != 0 then 0 else 0x0008) |
    (if s.pinb & 0x01 != 0 then 0 else 0x0010) |
    (if s.pinb & 0x80 != 0 then 0 else 0x0020) |
    (if s.pind & 0x01 != 0 then 0 else 0x0040) |
    (if s.pind & 0x02 != 0 then 0 else 0x0080) |
    (if s.pind & 0x04 != 0 then 0 else 0x0100) |
    (if s.pind & 0x08 != 0 then 0 else 0x0200) |
    (if s.pind & 0x20 != 0 then 0 else 0x0400) |
    (if s.pind & 0x40 != 0 then 0 else 0x0800) |
    (if s.pind & 0x80 != 0 then 0 else 0x1000) |
    (if s.pinb & 0x10 != 0 then 0 else 0x2000) |
    (if s.pinb & 0x20 != 0 then 0 else 0x4000) |
    (if s.pinb & 0x40 != 0 then 0 else 0x8000)
  }

  /** Columns 0 and 1 of `read_cols`. */
  lemma ReadColsBitsF0B3(s: PinSample, c: nat)
    requires 0 <= c <= 1
    ensures Bit(ReadCols(s), c) <==> !High(s, ColPins[c])
  {
    assert c == 0 || c == 1;
  }

  /** Columns 2 and 3 of `read_cols`. */
  lemma ReadColsBitsB2B1(s: PinSample, c: nat)
    requires 2 <= c <= 3
    ensures Bit(ReadCols(s), c) <==> !High(s, ColPins[c])
  {
    assert c == 2 || c == 3;
  }

  /** Columns 4 and 5 of `read_cols`. */
  lemma ReadColsBitsB0B7(s: PinSample, c: nat)
    requires 4 <= c <= 5
    ensures Bit(ReadCols(s), c) <==> !High(s, ColPins[c])
  {
    assert c == 4 || c == 5;
  }

  /** Columns 6 and 7 of `read_cols`. */
  lemma ReadColsBitsD0D1(s: PinSample, c: nat)
    requires 6 <= c <= 7
    ensures Bit(ReadCols(s), c) <==> !High(s, ColPins[c])
  {
    assert c == 6 || c == 7;
  }

  /** Columns 8 and 9 of `read_cols`. */
  lemma ReadColsBitsD2D3(s: PinSample, c: nat)
    requires 8 <= c <= 9
    ensures Bit(ReadCols(s), c) <==> !High(s, ColPins[c])
  {
    assert c == 8 || c == 9;
  }

  /** Columns 10 and 11 of `read_cols`. */
  lemma ReadColsBitsD5D6(s: PinSample, c: nat)
    requires 10 <= c <= 11
    ensures Bit(ReadCols(s), c) <==> !High(s, ColPins[c])
  {
    assert c == 10 || c == 11;
  }

  /** Columns 12 and 13 of `read_cols`. */
  lemma ReadColsBitsD7B4(s: PinSample, c: nat)
    requires 12 <= c <= 13
    ensures Bit(ReadCols(s), c) <==> !High(s, ColPins[c])
  {
    assert c == 12 || c == 13;
  }

  /** Columns 14 and 15 of `read_cols`. */
  lemma ReadColsBitsB5B6(s: PinSample, c: nat)
    requires 14 <= c <= 15
    ensures Bit(ReadCols(s), c) <==> !High(s, ColPins[c])
  {
    assert c == 14 || c == 15;
  }

  /** Each column bit of `read_cols` is the inverted level of that column's pin in the table. */
  lemma ReadColsBit(s: PinSample, c: nat)
    requires c < COLS
    ensures Bit(ReadCols(s), c) <==> !High(s, ColPins[c])
  {
    if c < 2 { ReadColsBitsF0B3(s, c); }
    else if c < 4 { ReadColsBitsB2B1(s, c); }
    else if c < 6 { ReadColsBitsB0B7(s, c); }
    else if c < 8 { ReadColsBitsD0D1(s, c); }
    else if c < 10 { ReadColsBitsD2D3(s, c); }
    else if c < 12 { ReadColsBitsD5D6(s, c); }
    else if c < 14 { ReadColsBitsD7B4(s, c); }
    else { ReadColsBitsB5B6(s, c); }
  }

  /** `read_cols` depends only on the sixteen column pins of the table. */
  lemma ReadColsOnlyColumnPins(s: PinSample, t: PinSample)
    requires forall c :: 0 <= c < COLS ==> High(s, ColPins[c]) == High(t, ColPins[c])
    ensures ReadCols(s) == ReadCols(t)
  {
    forall c | 0 <= c < 16
      ensures Bit(ReadCols(s), c) == Bit(ReadCols(t), c)
    {
      ReadColsBit(s, c);
      ReadColsBit(t, c);
    }
    BitsEqual(ReadCols(s), ReadCols(t));
  }

  /** PD4 and PF1..PF7 are not columns: their levels never change what `read_cols` returns. */
  lemma ReadColsIgnoresUnmapped(s: PinSample, t: PinSample)
    requires t.pinb == s.pinb
    requires forall b :: 0 <= b < 8 && b != 4 ==> Bit8(t.pind, b) == Bit8(s.pind, b)
    requires Bit8(t.pinf, 0) == Bit8(s.pinf, 0)
    ensures ReadCols(s) == ReadCols(t)
  {
    forall c | 0 <= c < COLS
      ensures High(s, ColPins[c]) == High(t, ColPins[c])
    {
      var p := ColPins[c];
      assert p.bit < 8;
      assert p.port == D ==> p.bit != 4;
      assert p.port == F ==> p.bit == 0;
    }
    ReadColsOnlyColumnPins(s, t);
  }

  /** With every column pin high (no key closed) `read_cols` returns 0. */
  lemma ReadColsAllHigh(s: PinSample)
    requires forall c :: 0 <= c < COLS ==> High(s, ColPins[c])
    ensures ReadCols(s) == 0
  {
    forall c | 0 <= c < 16
      ensures !Bit(ReadCols(s), c)
    {
      ReadColsBit(s, c);
    }
    ZeroIffNoBit(ReadCols(s));
  }

  /** With every column pin low (all keys of the row closed) `read_cols` returns 0xFFFF. */
  lemma ReadColsAllLow(s: PinSample)
    requires forall c :: 0 <= c < COLS ==> !High(s, ColPins[c])
    ensures ReadCols(s) == 0xFFFF
  {
    forall c | 0 <= c < 16
      ensures Bit(ReadCols(s), c)
    {
      ReadColsBit(s, c);
    }
    AllIffEveryBit(ReadCols(s));
  }

  /** The bits of one port that `init_cols` turns into pulled-up inputs. */
  function ColMask(p: Port): bv8
  {
    match p
    case B => 0xFF
    case D => 0xEF
    case F => Mask8(0)
  }

  /** `init_cols` on a DDR register: the column bits become inputs (DDR bit 0). */
  function ColsInput(ddr: bv8, p: Port): bv8
  {
    ddr & !ColMask(p)
  }

  /** `init_cols` on a PORT register: the column bits get their pull-up (PORT bit 1). */
  function ColsPullUp(port: bv8, p: Port): bv8
  {
    port | ColMask(p)
  }

  /** Clearing the bits of mask m clears bit b, and setting them sets it, when m has bit b. */
  lemma MaskedBit(ddr: bv8, port: bv8, m: bv8, b: nat)
    requires b < 8 && Bit8(m, b)
    ensures !Bit8(ddr & !m, b) && Bit8(port | m, b)
  {
  }

  /** The column mask of each port covers every bit a column may use there. */
  lemma ColMaskCovers(p: Port, b: nat)
    requires b < 8 && (p == D ==> b != 4) && (p == F ==> b == 0)
    ensures Bit8(ColMask(p), b)
  {
  }

  /** A pin whose DDR bit is 0 and whose PORT bit is 1: an input with its pull-up on. */
  predicate PulledUp(ddr: bv8, port: bv8, b: nat)
    requires b < 8
  {
    !Bit8(ddr, b) && Bit8(port, b)
  }

  /** After `init_cols` the pin of column c is an input with its pull-up enabled, whatever its
      port's DDR and PORT registers held before. */
  lemma ColPinInitialised(ddr: bv8, port: bv8, c: nat)
    requires c < COLS
    ensures PulledUp(ColsInput(ddr, ColPins[c].port), ColsPullUp(port, ColPins[c].port), ColPins[c].bit)
  {
    ColPinsWellFormed();
    var p := ColPins[c];
    ColMaskCovers(p.port, p.bit);
    MaskedBit(ddr, port, ColMask(p.port), p.bit);
  }

  /** Every column pin on port p is initialised by `init_cols` on that port's registers. */
  lemma PortColumnsInitialised(ddr: bv8, port: bv8, p: Port)
    ensures forall c :: 0 <= c < COLS && ColPins[c].port == p ==>
              PulledUp(ColsInput(ddr, p), ColsPullUp(port, p), ColPins[c].bit)
  {
    forall c | 0 <= c < COLS && ColPins[c].port == p
      ensures PulledUp(ColsInput(ddr, p), ColsPullUp(port, p), ColPins[c].bit)
    {
      ColPinInitialised(ddr, port, c);
    }
  }

  /** `init_cols` leaves the row-select bits of port F as they were. */
  lemma ColsKeepRows(ddrf: bv8, portf: bv8)
    ensures ColsInput(ddrf, F) & RowMaskF == ddrf & RowMaskF
    ensures ColsPullUp(portf, F) & RowMaskF == portf & RowMaskF
  {
  }

  /** `unselect_rows` on a port F register: the five row-select bits are cleared. */
  function ClearRows(x: bv8): bv8
  {
    x & !RowMaskF
  }

  /** `select_row` on DDRF: the row's select bit becomes an output; rows past 4 change nothing. */
  function SelectDdr(ddrf: bv8, row: nat): bv8
  {
    if row < ROWS then ddrf | Mask8(RowPins[row]) else ddrf
  }

  /** `select_row` on PORTF: the row's select bit is driven low; rows past 4 change nothing. */
  function SelectPort(portf: bv8, row: nat): bv8
  {
    if row < ROWS then portf & !Mask8(RowPins[row]) else portf
  }

  /** After `unselect_rows` every row-select pin is a floating input (DDR 0, PORT 0), and every
      other bit of port F is as it was. */
  lemma RowsReleased(ddrf: bv8, portf: bv8, r: nat)
    requires r < ROWS
    ensures !Bit8(ClearRows(ddrf), RowPins[r]) && !Bit8(ClearRows(portf), RowPins[r])
    ensures ClearRows(ddrf) & !RowMaskF == ddrf & !RowMaskF
    ensures ClearRows(portf) & !RowMaskF == portf & !RowMaskF
  {
    assert r == 0 || r == 1 || r == 2 || r == 3 || r == 4;
  }

  /** No row select is active: every row pin of port F is a floating input (DDR 0, PORT 0). */
  predicate RowsIdle(ddrf: bv8, portf: bv8)
  {
    ddrf & RowMaskF == 0 && portf & RowMaskF == 0
  }

  /** `unselect_rows` leaves the rows idle, and on idle rows it changes nothing; `init_cols` keeps
      idle rows idle. */
  lemma IdleRows(ddrf: bv8, portf: bv8)
    ensures RowsIdle(ClearRows(ddrf), ClearRows(portf))
    ensures RowsIdle(ddrf, portf) ==> ClearRows(ddrf) == ddrf && ClearRows(portf) == portf
    ensures RowsIdle(ddrf, portf) ==> RowsIdle(ColsInput(ddrf, F), ColsPullUp(portf, F))
  {
    ColsKeepRows(ddrf, portf);
  }

  /** Two port F values that agree on the row-select bits agree on every row pin. */
  lemma RowBitsKept(x: bv8, y: bv8, r: nat)
    requires r < ROWS && x & RowMaskF == y & RowMaskF
    ensures RowPins[r] < 8 && Bit8(x, RowPins[r]) == Bit8(y, RowPins[r])
  {
    assert r == 0 || r == 1 || r == 2 || r == 3 || r == 4;
  }

  /** `select_row` after `unselect_rows` drives exactly the selected row low: its pin is an output
      at level 0 and every other row pin stays a floating input. */
  lemma OneRowSelected(ddrf: bv8, portf: bv8, row: nat, r: nat)
    requires row < ROWS && r < ROWS
    ensures Bit8(SelectDdr(ClearRows(ddrf), row), RowPins[r]) <==> r == row
    ensures !Bit8(SelectPort(ClearRows(portf), row), RowPins[r])
  {
    assert row == 0 || row == 1 || row == 2 || row == 3 || row == 4;
    assert r == 0 || r == 1 || r == 2 || r == 3 || r == 4;
  }

  /** `unselect_rows` undoes any `select_row`: the scan leaves port F as after `unselect_rows`. */
  lemma UnselectUndoesSelect(ddrf: bv8, portf: bv8, row: nat)
    ensures ClearRows(SelectDdr(ddrf, row)) == ClearRows(ddrf)
    ensures ClearRows(SelectPort(portf, row)) == ClearRows(portf)
    ensures ClearRows(ClearRows(ddrf)) == ClearRows(ddrf)
  {
    if row < ROWS {
      assert row == 0 || row == 1 || row == 2 || row == 3 || row == 4;
    }
  }

  /** The DDR and PORT registers of ports B, D and F. */
  class Ports {
    var ddrb: bv8
    var portb: bv8
    var ddrd: bv8
    var portd: bv8
    var ddrf: bv8
    var portf: bv8

    /** Registers holding arbitrary values, as before `matrix_init`. */
    constructor (ddrb: bv8, portb: bv8, ddrd: bv8, portd: bv8, ddrf: bv8, portf: bv8)
      ensures this.ddrb == ddrb && this.portb == portb && this.ddrd == ddrd
      ensures this.portd == portd && this.ddrf == ddrf && this.portf == portf
    {
      this.ddrb, this.portb, this.ddrd, this.portd, this.ddrf, this.portf :=
        ddrb, portb, ddrd, portd, ddrf, portf;
    }

    /** The DDR register of a port. */
    function Ddr(p: Port): bv8
      reads this
    {
      match p
      case B => ddrb
      case D => ddrd
      case F => ddrf
    }

    /** The PORT register of a port. */
    function Out(p: Port): bv8
      reads this
    {
      match p
      case B => portb
      case D => portd
      case F => portf
    }

    /** The pin is an input with its pull-up resistor on (DDR 0, PORT 1). */
    predicate PulledUpInput(p: Pin)
      requires p.bit < 8
      reads this
    {
      PulledUp(Ddr(p.port), Out(p.port), p.bit)
    }

    /** `init_cols`: every column pin becomes a pulled-up input; the row selects are untouched. */
    method InitCols()
      modifies this
      ensures ddrb == ColsInput(old(ddrb), B) && portb == ColsPullUp(old(portb), B)
      ensures ddrd == ColsInput(old(ddrd), D) && portd == ColsPullUp(old(portd), D)
      ensures ddrf == ColsInput(old(ddrf), F) && portf == ColsPullUp(old(portf), F)
      ensures forall c :: 0 <= c < COLS ==> ColPins[c].bit < 8 && PulledUpInput(ColPins[c])
      ensures ddrf & RowMaskF == old(ddrf) & RowMaskF && portf & RowMaskF == old(portf) & RowMaskF
    {
      ColsKeepRows(ddrf, portf);
      PortColumnsInitialised(ddrb, portb, B);
      PortColumnsInitialised(ddrd, portd, D);
      PortColumnsInitialised(ddrf, portf, F);
      ddrf, portf := ColsInput(ddrf, F), ColsPullUp(portf, F);
      ddrd, portd := ColsInput(ddrd, D), ColsPullUp(portd, D);
      ddrb, portb := ColsInput(ddrb, B), ColsPullUp(portb, B);
      assert forall c :: 0 <= c < COLS ==> ColPins[c].bit < 8;
    }

    /** `unselect_rows`: every row-select pin of port F becomes a floating input. */
    method UnselectRows()
      modifies this
      ensures ddrf == ClearRows(old(ddrf)) && portf == ClearRows(old(portf))
      ensures ddrb == old(ddrb) && portb == old(portb) && ddrd == old(ddrd) && portd == old(portd)
    {
      ddrf := ddrf & !(Mask8(1) | Mask8(4) | Mask8(5) | Mask8(6) | Mask8(7));
      portf := portf & !(Mask8(1) | Mask8(4) | Mask8(5) | Mask8(6) | Mask8(7));
    }

    /** `select_row`: drive the select pin of `row` low (output, level 0); any other row number
        leaves every register as it was. */
    method SelectRow(row: nat)
      modifies this
      ensures ddrf == SelectDdr(old(ddrf), row) && portf == SelectPort(old(portf), row)
      ensures ddrb == old(ddrb) && portb == old(portb) && ddrd == old(ddrd) && portd == old(portd)
    {
      match row
      case 0 =>
        ddrf := ddrf | Mask8(7);
        portf := portf & !Mask8(7);
      case 1 =>
        ddrf := ddrf | Mask8(6);
        portf := portf & !Mask8(6);
      case 2 =>
        ddrf := ddrf | Mask8(5);
        portf := portf & !Mask8(5);
      case 3 =>
        ddrf := ddrf | Mask8(4);
        portf := portf & !Mask8(4);
      case 4 =>
        ddrf := ddrf | Mask8(1);
        portf := portf & !Mask8(1);
      case _ =>
    }
  }
}
