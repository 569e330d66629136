# AMJ66 keyboard matrix scanner, modelled in Dafny

`src/matrix.c` scans the 5 x 16 key matrix of the AMJ66 keyboard (an ATmega32U4 board). It
selects one row at a time by driving a port F pin low, reads the sixteen column pins of ports B,
D and F (active low, pulled up), and debounces the result. Every row read that differs from its
candidate row (`matrix_debouncing[]`) overwrites that row and restarts one shared countdown
(`debouncing`, starting at `DEBOUNCE`). Each scan decrements a nonzero countdown. When the
countdown reaches zero, the whole candidate matrix is copied into the settled matrix
(`matrix[]`), which the query functions read. While the countdown is still running, each scan
ends with a 1 ms delay.

The project has four modules:

- `Bits` (bits.dfy): bit tests on the 16-bit row bitmaps (`matrix_row_t`) and the 8-bit port
  registers, plus `PopCount`, the population count that `matrix_key_count` takes from
  `bitpop16`.
- `Pins` (pins.dfy): the column pin table, the row select pins, `read_cols` as a function of the
  three port input registers (PINB, PIND, PINF), and the class `Ports`. `Ports` holds the DDR and
  PORT registers that `init_cols`, `unselect_rows` and `select_row` update by read-modify-write.
- `Debounce` (debounce.dfy): the debounce state machine as pure functions. `Step` is one
  `matrix_scan` given the five rows it reads. `Run` is a sequence of scans. Lemmas about whole
  histories of scans state the timing properties in numbers of scans.
- `Matrix` (matrix.dfy): the class `Scanner`. It holds the two static row arrays and the
  countdown, and has `matrix_init`, `matrix_scan` and the queries as methods and functions.
  `Scanner.Scan` is proved to perform `Debounce.Step` exactly, so every lemma of `Debounce` holds
  of the scanner. `IsModified`, `IsOn`, `GetRow`, `Rows` and `Cols` are functions, and
  `KeyCount` is a method with no `modifies` clause, so none of the queries can change state.

`DEBOUNCE` is a build-time macro with default 5 (`src/matrix.c:30-32`). The model takes it as the
scanner's constant `debounce`, anywhere in 1..255, so every property holds for every threshold.
`MATRIX_ROWS` = 5, `MATRIX_COLS` = 16 and the 16-bit `matrix_row_t` come from `matrix.h` and
`config.h`, which are not part of this model. They are fixed here by the pin tables: five row
select pins and sixteen column pins.

The hardware is modelled as follows:

- The levels on the input pins are parameters: one `PinSample` (PINB, PIND, PINF) per row,
  read while that row is selected.
- The DDR and PORT registers are the fields of a `Ports` object, which `Init` and `Scan` modify.
- The 1 ms pacing delay is the `paused` result of `Scan`.

The row select pins follow the code, not the comment above `init_rows`. The comment at
`src/matrix.c:177-179` assigns row 0 to PF1 and row 4 to PF7. `select_row`
(`src/matrix.c:196-215`) drives PF7 for row 0, PF6, PF5 and PF4 for rows 1 to 3, and PF1 for
row 4. `Pins.RowPins` is `[7, 6, 5, 4, 1]`.

`matrix_init` zeroes both matrices but does not touch `debouncing`. The countdown has the value
`DEBOUNCE` only from its static initializer (`src/matrix.c:33`). `Scanner.constructor` is that
power-on state, and `Scanner.Init` keeps whatever countdown the scanner has.

## Model

| member | source | states |
|---|---|---|
| Matrix.Scanner.constructor | src/matrix.c:30-37 | power-on state: both row arrays are zero, `debouncing` is DEBOUNCE, and the debounce invariant holds |
| Matrix.Scanner.Init | src/matrix.c:57-72 | both matrices become all zero and the countdown keeps its value; port F row selects become floating inputs, so no row is selected; every column pin becomes an input with pull-up; the exact new value of every DDR/PORT register |
| Matrix.Scanner.Scan | src/matrix.c:74-101 | returns 1; the new settled, candidate and countdown state is exactly `Debounce.Step` of the five rows read; `paused` is the 1 ms delay of `Step`; starting with no row selected, as `matrix_init` leaves it, every DDR/PORT register ends as it was |
| Matrix.Scanner.ScanRows | src/matrix.c:76-88 | after the row loop every candidate row is the row read; the countdown is DEBOUNCE if any row differed and otherwise unchanged; the registers end as they began |
| Matrix.Scanner.ScanRow | src/matrix.c:77-87 | one pass: while the columns are read, exactly row i's pin is an output and it is driven low; only candidate row i changes, to the row read; the countdown restarts exactly when that row differed; the row's select is released again |
| Matrix.Scanner.Countdown | src/matrix.c:90-98 | the end of a scan is `Debounce.Settle`: decrement a nonzero countdown; on reaching 0, copy all candidate rows into the settled matrix; otherwise report the delay |
| Matrix.Scanner.Rows | src/matrix.c:45-49 | `matrix_rows` is the length of both row arrays and the number of row select pins |
| Matrix.Scanner.Cols | src/matrix.c:51-55 | `matrix_cols` is the number of column pins |
| Matrix.Scanner.IsModified | src/matrix.c:103-107 | true exactly when the countdown is 0; it then implies that the settled matrix equals the candidate matrix |
| Matrix.Scanner.GetRow | src/matrix.c:115-119 | returns the settled row unchanged; with no commit pending that is the candidate row |
| Matrix.Scanner.IsOn | src/matrix.c:109-113 | true exactly when bit `col` of settled row `row` is set; a key that is on makes the key count at least 1 |
| Matrix.Scanner.KeyCount | src/matrix.c:131-138 | the uint8_t sum equals the number of set bits over all settled rows, which is at most 80, so it never wraps |
| Matrix.AddU8 | src/matrix.c:135 | uint8_t `+=`: the result is below 256 and is the exact sum or the sum less 256 |
| Matrix.KeySum | src/matrix.c:131-138 | the key count of n rows is at most 16 n |
| Matrix.KeySumZero | src/matrix.c:131-138 | the key count is 0 exactly when every row is 0 |
| Matrix.KeySumAll | src/matrix.c:131-138 | with every key pressed the count is 16 per row, 80 for the matrix |
| Matrix.KeySumCountsRow | src/matrix.c:134-135 | every row's set bits are part of the count |
| Matrix.KeyOnIsCounted | src/matrix.c:109-138 | a key that `matrix_is_on` reports makes `matrix_key_count` positive |
| Matrix.KeySumUpdate | src/matrix.c:131-138 | replacing one row changes the count by the difference of the two rows' counts |
| Matrix.KeySumPressKey | src/matrix.c:131-138 | pressing one more key in the matrix raises the count by exactly one |
| Matrix.ReadRowsKey | src/matrix.c:76-79 | key (i, c) is pressed in a scan's reading exactly when column c's pin reads low while row i is selected |
| Matrix.ReadRowsNoKeys | src/matrix.c:76-79 | with every column pin high during every row's selection, the scan reads all rows as 0 |
| Debounce.Step | src/matrix.c:76-98 | one scan: the invariant (countdown in 0..DEBOUNCE, and settled = candidate when it is 0) is kept; the candidate becomes the input; the delay runs exactly while the countdown is nonzero; the settled matrix either stays or becomes the whole input |
| Debounce.FastPath | src/matrix.c:90-98 | with the countdown at 0 and every row reading as before, a scan changes nothing and does not pause |
| Debounce.ChangeRestartsWindow | src/matrix.c:80-91 | any difference, in one row or several, leaves the countdown at DEBOUNCE-1; the settled matrix is kept and the delay runs when DEBOUNCE > 1 |
| Debounce.CommitOnlyFromOne | src/matrix.c:90-97 | the settled matrix changes only when the countdown goes from 1 to 0, and then it becomes the whole candidate matrix |
| Debounce.Run | src/matrix.c:74-101 | any sequence of scans keeps the invariant |
| Debounce.RunAppend | src/matrix.c:74-101 | scanning h1 and then h2 is scanning h1 + h2 |
| Debounce.StableReads | src/matrix.c:80-97 | with k scans reading the same rows r, the countdown ends at n - k, where n is the countdown after the first row loop (DEBOUNCE for a new reading); the settled matrix is unchanged until scan n, which commits r |
| Debounce.SteadyState | src/matrix.c:80-98 | a settled matrix that keeps reading the same rows stays settled, with the countdown at 0, for any number of scans |
| Debounce.FlickerRestarts | src/matrix.c:80-91 | a one-scan flicker and back restarts the whole window: the settled matrix is kept and the countdown is DEBOUNCE-1 |
| Debounce.StepWindow | src/matrix.c:80-97 | each scan keeps the window invariant: the last DEBOUNCE - countdown reads all equal the candidate |
| Debounce.RunWindow | src/matrix.c:74-101 | every sequence of scans keeps the window invariant |
| Debounce.SettledWasStable | src/matrix.c:80-97 | from power-on (countdown DEBOUNCE), whenever the countdown is 0 the last DEBOUNCE scans all read exactly the settled matrix |
| Debounce.ThresholdThreeExample | src/matrix.c:80-97 | with DEBOUNCE 3, reads 0, 0, 1, 1 after power-on leave 0 settled, and a third read of 1 commits it |
| Pins.ColPinsWellFormed | src/matrix.c:140-143 | the column table has 16 pins with bit numbers below 8; the port D columns skip PD4; the only port F column is PF0 |
| Pins.RowPinsWellFormed | src/matrix.c:192-217 | the five row selects are distinct port F bits inside the `unselect_rows` mask, and none is a column pin |
| Pins.ReadColsBit | src/matrix.c:156-175 | bit c of `read_cols` is set exactly when the pin of column c in the table at lines 141-142 reads low |
| Pins.ReadColsOnlyColumnPins | src/matrix.c:156-175 | `read_cols` depends only on the levels of the sixteen column pins |
| Pins.ReadColsIgnoresUnmapped | src/matrix.c:156-175 | the levels of PD4 and PF1..PF7 never change what `read_cols` returns |
| Pins.ReadColsAllHigh | src/matrix.c:156-175 | all column pins high (no key closed) gives 0 |
| Pins.ReadColsAllLow | src/matrix.c:156-175 | all column pins low gives 0xFFFF |
| Pins.ColMaskCovers | src/matrix.c:147-153 | the masks `init_cols` uses on B, D and F cover every bit a column uses there |
| Pins.ColPinInitialised | src/matrix.c:144-154 | after `init_cols` each column pin is an input (DDR 0) with pull-up (PORT 1), whatever the registers held |
| Pins.PortColumnsInitialised | src/matrix.c:144-154 | `init_cols` on one port initialises every column pin of that port |
| Pins.ColsKeepRows | src/matrix.c:147-148 | `init_cols` leaves the row select bits of port F as they were |
| Pins.RowsReleased | src/matrix.c:186-190 | after `unselect_rows` every row pin is DDR 0 / PORT 0, and the other port F bits are kept |
| Pins.OneRowSelected | src/matrix.c:186-217 | `select_row` after `unselect_rows` makes exactly the selected row's pin an output, and drives every row pin low |
| Pins.IdleRows | src/matrix.c:144-190 | `unselect_rows` leaves no row selected and changes nothing when none is; `init_cols` keeps an unselected matrix unselected |
| Pins.UnselectUndoesSelect | src/matrix.c:186-217 | `unselect_rows` after `select_row` gives the same port F as `unselect_rows` alone, and it is idempotent |
| Pins.Ports.InitCols | src/matrix.c:144-154 | the exact new DDR and PORT values of B, D and F; every column pin becomes a pulled-up input; the row select bits of port F are unchanged |
| Pins.Ports.UnselectRows | src/matrix.c:186-190 | clears PF1, PF4, PF5, PF6 and PF7 in DDRF and PORTF and changes no other register |
| Pins.Ports.SelectRow | src/matrix.c:192-217 | rows 0..4 set the row pin's DDRF bit and clear its PORTF bit; any other row number changes nothing; ports B and D are untouched |
| Bits.PopCountRange | src/matrix.c:135 | the count of a row is at most 16, and 0 exactly when the row is 0 |
| Bits.PopCountPositive | src/matrix.c:135 | a row with a set bit counts at least one key |
| Bits.PopCountSetBit | src/matrix.c:135 | pressing one more key in a row raises its count by exactly one |
| Bits.PopCountAll | src/matrix.c:135 | a fully pressed row counts 16 |

## Left out

- JTAG disable through `MCUCR` (`src/matrix.c:59-61`): a hardware side effect with no logical content.
- The busy-wait delays `_delay_us(30)` and `_delay_ms(1)` (`src/matrix.c:78`, `src/matrix.c:92`): there is no time in the model. The 30 µs settle delay is folded into the `PinSample` given for each row. The 1 ms delay is the `paused` result of `Scan`.
- The levels on the input pins are hardware: they are parameters of `Scan` (one `PinSample` per row), not something the model computes.
- `matrix_print` and the `debug(...)` bounce logging (`src/matrix.c:82-84`, `src/matrix.c:121-129`): console output only.
- `bitpop16` comes from `util.h`, which is not part of this model. `Bits.PopCount` is defined directly as the number of set bits.
- `src/keymap_default.c`: static keymap tables and macro constants with no behaviour.
- `init_rows` (`src/matrix.c:181-184`) only calls `unselect_rows`. `Scanner.Init` calls `Ports.UnselectRows` directly.
- Interrupts, atomicity of the bulk copy, and ghosting: nothing in the code addresses them.
- Matrix.Scanner.IsOn: requires row < 5 and col < 16. In C, a row of 5 or more reads past the array, and a column of 16 or more shifts past `matrix_row_t`. Neither case is modelled.
- Matrix.Scanner.GetRow: requires row < 5, for the same reason.
- Debounce.Valid: `debouncing` is a `uint8_t`. The model keeps it as a `nat` that the invariant bounds by DEBOUNCE <= 255, so it never wraps.
- Matrix.Scanner.Scan: requires that no row is selected on entry (`Pins.RowsIdle`). `Init` establishes this and every scan keeps it. A scan that starts from arbitrary port F row bits, before `matrix_init`, is not modelled.
