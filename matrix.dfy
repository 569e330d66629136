/** The matrix scanner of `src/matrix.c`: the settled matrix `matrix[]`, the candidate matrix
    `matrix_debouncing[]` and the countdown `debouncing`, with `matrix_init`, `matrix_scan` and the
    queries. `Scan` is proved to perform `Debounce.Step`, so every lemma of module Debounce
    holds of the scanner. */
module Matrix {
  import opened Bits
  import opened Pins
  import opened Debounce

  /** Number of pressed keys over a list of row bitmaps. */
  function KeySum(rows: seq<bv16>): (n: nat)
    ensures n <= COLS * |rows|
  {
    if rows == [] then 0 else KeySum(rows[..|rows| - 1]) + PopCount(rows[|rows| - 1])
  }

  /** The count is zero exactly when no row has a key pressed. */
  lemma {:induction false} KeySumZero(rows: seq<bv16>)
    ensures KeySum(rows) == 0 <==> forall i :: 0 <= i < |rows| ==> rows[i] == 0
  {
    if rows != [] {
      var n := |rows| - 1;
      KeySumZero(rows[..n]);
      PopCountRange(rows[n]);
      assert forall i :: 0 <= i < n ==> rows[..n][i] == rows[i];
    }
  }

  /** With every key pressed the count is 16 per row. */
  lemma {:induction false} KeySumAll(rows: seq<bv16>)
    requires forall i :: 0 <= i < |rows| ==> rows[i] == 0xFFFF
    ensures KeySum(rows) == COLS * |rows|
  {
    if rows != [] {
      var n := |rows| - 1;
      KeySumAll(rows[..n]);
      PopCountAll();
    }
  }

  /** Every row's keys are part of the count. */
  lemma {:induction false} KeySumCountsRow(rows: seq<bv16>, i: nat)
    requires i < |rows|
    ensures KeySum(rows) >= PopCount(rows[i])
  {
    var n := |rows| - 1;
    if i < n {
      KeySumCountsRow(rows[..n], i);
    }
  }

  /** A pressed key anywhere makes the count positive. */
  lemma KeyOnIsCounted(rows: seq<bv16>, row: nat, col: nat)
    requires row < |rows| && col < COLS && Bit(rows[row], col)
    ensures KeySum(rows) >= 1
  {
    PopCountPositive(rows[row], col);
    KeySumCountsRow(rows, row);
  }

  /** Replacing one row changes the count by the difference of the two rows' counts. */
  lemma {:induction false} KeySumUpdate(rows: seq<bv16>, row: nat, v: bv16)
    requires row < |rows|
    ensures KeySum(rows[row := v]) + PopCount(rows[row]) == KeySum(rows) + PopCount(v)
  {
    var n := |rows| - 1;
    var updated := rows[row := v];
    assert KeySum(updated) == KeySum(updated[..n]) + PopCount(updated[n]);
    assert KeySum(rows) == KeySum(rows[..n]) + PopCount(rows[n]);
    if row < n {
      KeySumUpdate(rows[..n], row, v);
      assert updated[..n] == rows[..n][row := v];
      assert updated[n] == rows[n];
    } else {
      assert updated[..n] == rows[..n];
    }
  }

  /** Pressing one more key raises the count by exactly one. */
  lemma KeySumPressKey(rows: seq<bv16>, row: nat, col: nat)
    requires row < |rows| && col < COLS && !Bit(rows[row], col)
    ensures KeySum(rows[row := rows[row] | Mask(col)]) == KeySum(rows) + 1
  {
    KeySumUpdate(rows, row, rows[row] | Mask(col));
    PopCountSetBit(rows[row], col);
  }

  /** uint8_t addition: the sum of two bytes, wrapped around at 256. */
  function AddU8(a: nat, b: nat): (r: nat)
    requires a < 256 && b < 256
    ensures r < 256 && (r == a + b || r == a + b - 256)
  {
    if a + b < 256 then a + b else a + b - 256
  }

  /** The five rows `read_cols` returns, one pin sample per selected row. */
  function ReadRows(samples: seq<PinSample>): (r: RowBitmaps)
    requires |samples| == ROWS
    ensures forall i :: 0 <= i < ROWS ==> r[i] == ReadCols(samples[i])
  {
    seq(ROWS, i requires 0 <= i < ROWS => ReadCols(samples[i]))
  }

  /** Key (i, c) is pressed in a scan's reading exactly when column c's pin reads low while row i
      is selected. */
  lemma ReadRowsKey(samples: seq<PinSample>, i: nat, c: nat)
    requires |samples| == ROWS && i < ROWS && c < COLS
    ensures Bit(ReadRows(samples)[i], c) <==> !High(samples[i], ColPins[c])
  {
    ReadColsBit(samples[i], c);
  }

  /** With every column pin high during every row's selection, the scan reads no key at all. */
  lemma ReadRowsNoKeys(samples: seq<PinSample>)
    requires |samples| == ROWS
    requires forall i, c :: 0 <= i < ROWS && 0 <= c < COLS ==> High(samples[i], ColPins[c])
    ensures ReadRows(samples) == Zeros()
  {
    forall i | 0 <= i < ROWS
      ensures ReadRows(samples)[i] == 0
    {
      ReadColsAllHigh(samples[i]);
    }
  }

  /** The scanner: the two static row arrays and the countdown, with DEBOUNCE as `debounce`. */
  class Scanner {
    const debounce: nat
    const matrix: array<bv16>
    const matrixDebouncing: array<bv16>
    var debouncing: nat

    /** The arrays hold one bitmap per row, are distinct, and the state satisfies the debounce
        invariant. */
    ghost predicate Valid()
      reads this, matrix, matrixDebouncing
    {
      matrix.Length == ROWS && matrixDebouncing.Length == ROWS && matrix != matrixDebouncing &&
      Debounce.Valid(debounce, State())
    }

    /** The scanner's state as a value. */
    function State(): Debounce.State
      reads this, matrix, matrixDebouncing
      requires matrix.Length == ROWS && matrixDebouncing.Length == ROWS
    {
      Debounce.State(matrix[..], matrixDebouncing[..], debouncing)
    }

    /** Power-on: the static arrays are zero and the countdown is DEBOUNCE. */
    constructor (debounce: nat)
      requires 1 <= debounce <= 255
      ensures Valid() && fresh(matrix) && fresh(matrixDebouncing)
      ensures this.debounce == debounce && State() == PowerOn(debounce)
    {
      this.debounce := debounce;
      matrix := new bv16[ROWS](_ => 0);
      matrixDebouncing := new bv16[ROWS](_ => 0);
      debouncing := debounce;
      new;
      assert matrix[..] == Zeros() && matrixDebouncing[..] == Zeros();
    }

    /** `matrix_init`: release the rows, make the columns pulled-up inputs, and zero both
        matrices; the countdown is left as it is. */
    method Init(io: Ports)
      requires Valid()
      modifies matrix, matrixDebouncing, io
      ensures Valid() && State() == Debounce.Init(old(State()))
      ensures io.ddrf == ColsInput(ClearRows(old(io.ddrf)), F)
      ensures io.portf == ColsPullUp(ClearRows(old(io.portf)), F)
      ensures io.ddrb == ColsInput(old(io.ddrb), B) && io.portb == ColsPullUp(old(io.portb), B)
      ensures io.ddrd == ColsInput(old(io.ddrd), D) && io.portd == ColsPullUp(old(io.portd), D)
      ensures forall c :: 0 <= c < COLS ==> ColPins[c].bit < 8 && io.PulledUpInput(ColPins[c])
      ensures forall r :: 0 <= r < ROWS ==>
                (RowPins[r] < 8 && !Bit8(io.ddrf, RowPins[r]) && !Bit8(io.portf, RowPins[r]))
      ensures RowsIdle(io.ddrf, io.portf)
    {
      IdleRows(io.ddrf, io.portf);
      IdleRows(ClearRows(io.ddrf), ClearRows(io.portf));
      io.UnselectRows();
      ghost var ddrf, portf := io.ddrf, io.portf;
      io.InitCols();
      forall r | 0 <= r < ROWS
        ensures RowPins[r] < 8 && !Bit8(io.ddrf, RowPins[r]) && !Bit8(io.portf, RowPins[r])
      {
        RowsReleased(old(io.ddrf), old(io.portf), r);
        RowBitsKept(ddrf, io.ddrf, r);
        RowBitsKept(portf, io.portf, r);
      }
      for i := 0 to ROWS
        modifies matrix, matrixDebouncing
        invariant forall j :: 0 <= j < i ==> matrix[j] == 0 && matrixDebouncing[j] == 0
      {
        matrix[i] := 0;
        matrixDebouncing[i] := 0;
      }
      assert matrix[..] == Zeros() && matrixDebouncing[..] == Zeros();
    }

    /** `matrix_scan` given the port input levels seen while each row is selected: returns 1, and
        whether the 1 ms pacing delay runs. The new state is `Step` of the rows read. Starting with
        every row select released (as `matrix_init` and every scan leave them), the scan leaves
        every register as it found it. */
    method Scan(io: Ports, samples: seq<PinSample>) returns (status: bv8, paused: bool)
      requires Valid() && |samples| == ROWS && RowsIdle(io.ddrf, io.portf)
      modifies this, matrix, matrixDebouncing, io
      ensures Valid() && status == 1
      ensures State() == Step(debounce, old(State()), ReadRows(samples)).next
      ensures paused == Step(debounce, old(State()), ReadRows(samples)).paused
      ensures io.ddrf == old(io.ddrf) && io.portf == old(io.portf)
      ensures io.ddrb == old(io.ddrb) && io.portb == old(io.portb)
      ensures io.ddrd == old(io.ddrd) && io.portd == old(io.portd)
    {
      ScanRows(io, samples);
      paused := Countdown();
      status := 1;
    }

    /** The row loop of `matrix_scan`: select each row, read its columns, release it; a row that
        differs from its candidate overwrites it and restarts the countdown at DEBOUNCE. */
    method ScanRows(io: Ports, samples: seq<PinSample>)
      requires matrix.Length == ROWS && matrixDebouncing.Length == ROWS
      requires matrix != matrixDebouncing && |samples| == ROWS && RowsIdle(io.ddrf, io.portf)
      modifies this, matrixDebouncing, io
      ensures matrixDebouncing[..] == ReadRows(samples)
      ensures debouncing == Restarted(debounce, old(State()), ReadRows(samples))
      ensures io.ddrf == old(io.ddrf) && io.portf == old(io.portf)
      ensures io.ddrb == old(io.ddrb) && io.portb == old(io.portb)
      ensures io.ddrd == old(io.ddrd) && io.portd == old(io.portd)
    {
      ghost var input := ReadRows(samples);
      ghost var before := matrixDebouncing[..];
      for i := 0 to ROWS
        invariant forall j :: 0 <= j < i ==> matrixDebouncing[j] == input[j]
        invariant forall j :: i <= j < ROWS ==> matrixDebouncing[j] == before[j]
        invariant debouncing == if exists j :: 0 <= j < i && before[j] != input[j]
                                then debounce else old(debouncing)
        invariant io.ddrb == old(io.ddrb) && io.portb == old(io.portb)
        invariant io.ddrd == old(io.ddrd) && io.portd == old(io.portd)
        invariant io.ddrf == old(io.ddrf) && io.portf == old(io.portf)
      {
        ghost var ddrSel, portSel := ScanRow(io, i, samples[i]);
      }
      assert matrixDebouncing[..] == input;
    }

    /** One pass of the row loop of `matrix_scan`: select row i, read its columns, and if they
        differ from the candidate row overwrite it and restart the countdown; release the row.
        `ddrSel` and `portSel` are DDRF and PORTF while the columns are read: exactly row i's
        pin is an output, and it is driven low. */
    method ScanRow(io: Ports, i: nat, sample: PinSample) returns (ghost ddrSel: bv8, ghost portSel: bv8)
      requires matrixDebouncing.Length == ROWS && i < ROWS && RowsIdle(io.ddrf, io.portf)
      modifies this, matrixDebouncing, io
      ensures ddrSel == SelectDdr(old(io.ddrf), i) && portSel == SelectPort(old(io.portf), i)
      ensures forall r :: 0 <= r < ROWS ==>
                RowPins[r] < 8 && (Bit8(ddrSel, RowPins[r]) <==> r == i) && !Bit8(portSel, RowPins[r])
      ensures matrixDebouncing[..] == old(matrixDebouncing[..])[i := ReadCols(sample)]
      ensures debouncing == if old(matrixDebouncing[i]) != ReadCols(sample)
                            then debounce else old(debouncing)
      ensures io.ddrf == old(io.ddrf) && io.portf == old(io.portf)
      ensures io.ddrb == old(io.ddrb) && io.portb == old(io.portb)
      ensures io.ddrd == old(io.ddrd) && io.portd == old(io.portd)
    {
      IdleRows(io.ddrf, io.portf);
      UnselectUndoesSelect(io.ddrf, io.portf, i);
      io.SelectRow(i);
      ddrSel, portSel := io.ddrf, io.portf;
      forall r | 0 <= r < ROWS
        ensures RowPins[r] < 8 && (Bit8(ddrSel, RowPins[r]) <==> r == i) && !Bit8(portSel, RowPins[r])
      {
        RowPinsWellFormed();
        OneRowSelected(old(io.ddrf), old(io.portf), i, r);
      }
      var cols := ReadCols(sample);
      if matrixDebouncing[i] != cols {
        matrixDebouncing[i] := cols;
        debouncing := debounce;
      }
      io.UnselectRows();
    }

    /** The end of `matrix_scan`: decrement a nonzero countdown; on reaching zero copy every
        candidate row into the settled matrix, otherwise report the 1 ms delay. */
    method Countdown() returns (paused: bool)
      requires matrix.Length == ROWS && matrixDebouncing.Length == ROWS
      requires matrix != matrixDebouncing
      modifies this, matrix
      ensures State() == Settle(old(State())).next && paused == Settle(old(State())).paused
    {
      paused := false;
      if debouncing != 0 {
        debouncing := debouncing - 1;
        if debouncing != 0 {
          paused := true;
        } else {
          for i := 0 to ROWS
            modifies matrix
            invariant forall j :: 0 <= j < i ==> matrix[j] == matrixDebouncing[j]
          {
            matrix[i] := matrixDebouncing[i];
          }
          assert matrix[..] == matrixDebouncing[..];
        }
      }
    }

    /** `matrix_rows`: the number of rows, the length of both matrices. */
    function Rows(): (n: bv8)
      reads this, matrix, matrixDebouncing
      requires Valid()
      ensures n as nat == matrix.Length == matrixDebouncing.Length == |RowPins|
    {
      RowPinsWellFormed();
      ROWS as bv8
    }

    /** `matrix_cols`: the number of columns, one per column pin and per bit of a row bitmap. */
    function Cols(): (n: bv8)
      ensures n as nat == |ColPins|
    {
      ColPinsWellFormed();
      COLS as bv8
    }

    /** `matrix_is_modified`: true exactly when no commit is pending; the settled matrix then
        equals the candidate matrix. */
    function IsModified(): (r: bool)
      reads this, matrix, matrixDebouncing
      requires Valid()
      ensures r <==> State().counter == 0
      ensures r ==> matrix[..] == matrixDebouncing[..]
    {
      debouncing == 0
    }

    /** `matrix_get_row`: the settled bitmap of a row; with no commit pending it is the candidate
        row. */
    function GetRow(row: nat): (r: bv16)
      reads this, matrix, matrixDebouncing
      requires Valid() && row < ROWS
      ensures r == State().settled[row]
      ensures IsModified() ==> r == matrixDebouncing[row]
    {
      matrix[row]
    }

    /** `matrix_is_on`: the key at (row, col) is pressed in the settled matrix; a key that is on
        is counted by `KeyCount`. */
    function IsOn(row: nat, col: nat): (r: bool)
      reads this, matrix, matrixDebouncing
      requires Valid() && row < ROWS && col < COLS
      ensures r <==> Bit(GetRow(row), col)
      ensures r ==> KeySum(State().settled) >= 1
    {
      var on := Bit(matrix[row], col);
      if on then KeyOnIsCounted(matrix[..], row, col); on else on
    }

    /** `matrix_key_count`: the number of pressed keys in the settled matrix, summed in a
        uint8_t (addition modulo 256); the sum is at most 80, so it never wraps. */
    method KeyCount() returns (count: nat)
      requires Valid()
      ensures count == KeySum(State().settled)
      ensures count <= ROWS * COLS < 256
    {
      count := 0;
      for i := 0 to ROWS
        invariant count == KeySum(matrix[..i])
      {
        assert matrix[..i + 1][..i] == matrix[..i];
        count := AddU8(count, PopCount(matrix[i]));
      }
      assert matrix[..ROWS] == matrix[..];
    }
  }
}
