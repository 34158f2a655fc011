/*
 * 4x4 matrix keypad driver (HAL/keypad_driver.c).
 *
 * The rows are push-pull outputs held high and the columns are pulled-up
 * inputs, all on GPIOB. A scan drives one row low at a time and reads the
 * columns: a pressed key joins its row to its column, so the column reads
 * low while that row is driven. Which keys are held down is the
 * environment and is given as a set of (row, column) positions.
 */
module Keypad {
  import opened Wrappers
  import Gpio

  const KEYPAD_ROWS: nat := 4
  const KEYPAD_COLS: nat := 4

  /** The value returned when no key is pressed: the character 'F'. */
  const NO_KEY: bv8 := 0x46

  /** ROW0..ROW3: GPIO_PIN_0, GPIO_PIN_1, GPIO_PIN_12, GPIO_PIN_13. */
  const ROW0: bv32 := 0x0001
  const ROW1: bv32 := 0x0002
  const ROW2: bv32 := 0x1000
  const ROW3: bv32 := 0x2000
  /** COL0..COL3: GPIO_PIN_5 .. GPIO_PIN_8. */
  const COL0: bv32 := 0x0020
  const COL1: bv32 := 0x0040
  const COL2: bv32 := 0x0080
  const COL3: bv32 := 0x0100

  /** Keypad_ROWS_GPIO and Keypad_COLS_GPIO. */
  const ROW_PINS: seq<bv32> := [ROW0, ROW1, ROW2, ROW3]
  const COL_PINS: seq<bv32> := [COL0, COL1, COL2, COL3]

  /** The ODR bits of the rows and of the columns. */
  const ROW_MASK: bv32 := 0x3003
  const COL_MASK: bv32 := 0x01E0

  /** The pins of a pin list, as a set. */
  ghost function PinSet(pins: seq<bv32>): set<bv32> {
    set p | p in pins
  }

  /**
   * Keypad_Buttons, row by row: digits are the raw values 0..9, the
   * other keys their ASCII codes ('/', 'x', '-', 'C', '=', '+').
   */
  const BUTTONS: seq<seq<bv8>> := [
    [7, 8, 9, 0x2F],
    [4, 5, 6, 0x78],
    [1, 2, 3, 0x2D],
    [0x43, 0, 0x3D, 0x2B]
  ]

  /** A key position. */
  datatype Key = Key(row: nat, col: nat)

  /** Whether `k` is one of the sixteen keys. */
  predicate OnPad(k: Key) {
    k.row < KEYPAD_ROWS && k.col < KEYPAD_COLS
  }

  /** Whether (r, c) comes strictly before `k` in the row-major scan order. */
  predicate Before(r: nat, c: nat, k: Key) {
    r < k.row || (r == k.row && c < k.col)
  }

  /** The value Keypad_Buttons holds for key `k`. */
  function ButtonAt(k: Key): bv8
    requires OnPad(k)
  {
    BUTTONS[k.row][k.col]
  }

  /**
   * The first pressed key at or after (r, c) in scan order: rows in order,
   * and within a row the columns in order. c == KEYPAD_COLS stands for the
   * end of row r.
   */
  function FirstPressed(pressed: set<Key>, r: nat, c: nat): Option<Key>
    requires r <= KEYPAD_ROWS && c <= KEYPAD_COLS
    decreases KEYPAD_ROWS - r, KEYPAD_COLS - c
  {
    if r == KEYPAD_ROWS then None
    else if c == KEYPAD_COLS then FirstPressed(pressed, r + 1, 0)
    else if Key(r, c) in pressed then Some(Key(r, c))
    else FirstPressed(pressed, r, c + 1)
  }

  /**
   * FirstPressed finds a pressed key of the pad, no earlier key from (r, c)
   * on is pressed, and it finds nothing only when no key from (r, c) on is.
   */
  lemma {:induction false} FirstPressedIsFirst(pressed: set<Key>, r: nat, c: nat)
    requires r <= KEYPAD_ROWS && c <= KEYPAD_COLS
    decreases KEYPAD_ROWS - r, KEYPAD_COLS - c
    ensures var k := FirstPressed(pressed, r, c);
      k.Some? ==> OnPad(k.value) && k.value in pressed && !Before(k.value.row, k.value.col, Key(r, c))
    ensures var k := FirstPressed(pressed, r, c);
      k.Some? ==> forall r2: nat, c2: nat ::
        c2 < KEYPAD_COLS && !Before(r2, c2, Key(r, c)) && Before(r2, c2, k.value) ==> Key(r2, c2) !in pressed
    ensures FirstPressed(pressed, r, c).None? ==> forall r2: nat, c2: nat ::
      r2 < KEYPAD_ROWS && c2 < KEYPAD_COLS && !Before(r2, c2, Key(r, c)) ==> Key(r2, c2) !in pressed
  {
    if r == KEYPAD_ROWS {
    } else if c == KEYPAD_COLS {
      FirstPressedIsFirst(pressed, r + 1, 0);
    } else if Key(r, c) in pressed {
    } else {
      FirstPressedIsFirst(pressed, r, c + 1);
    }
  }

  /** What keypad_Get_Pressed_Key returns for the keys held down. */
  function ScanResult(pressed: set<Key>): bv8 {
    match FirstPressed(pressed, 0, 0)
    case None => NO_KEY
    case Some(k) => ButtonAt(k)
  }

  /** How many rows a scan drives: up to and including the row of the first pressed key, or all four. */
  function RowsScanned(pressed: set<Key>): nat {
    match FirstPressed(pressed, 0, 0)
    case None => KEYPAD_ROWS
    case Some(k) => k.row + 1
  }

  /** The row pin writes of a scan that drives rows 0 .. n-1: each row low, then high again. */
  function RowPulses(n: nat): (w: seq<Gpio.PinWrite>)
    requires n <= KEYPAD_ROWS
    ensures |w| == 2 * n
  {
    if n == 0 then []
    else RowPulses(n - 1) + [Gpio.PinWrite(ROW_PINS[n - 1], false), Gpio.PinWrite(ROW_PINS[n - 1], true)]
  }

  /** One more row's pulse extends the scan's writes by that row low, then high. */
  lemma RowPulsesStep(w0: seq<Gpio.PinWrite>, n: nat)
    requires n < KEYPAD_ROWS
    ensures w0 + RowPulses(n + 1) ==
      w0 + (RowPulses(n) + [Gpio.PinWrite(ROW_PINS[n], false)]) + [Gpio.PinWrite(ROW_PINS[n], true)]
  {
  }

  /** No key of the table equals the no-key value 'F'. */
  lemma NoButtonIsNoKey(k: Key)
    requires OnPad(k)
    ensures ButtonAt(k) != NO_KEY
  {
  }

  /**
   * The scan reports 'F' exactly when no key is held down; otherwise it
   * reports the table value of a pressed key before which, in row-major
   * order, no key is pressed.
   */
  lemma NoKeyIffNothingPressed(pressed: set<Key>)
    ensures ScanResult(pressed) == NO_KEY <==>
      forall r: nat, c: nat :: r < KEYPAD_ROWS && c < KEYPAD_COLS ==> Key(r, c) !in pressed
    ensures ScanResult(pressed) != NO_KEY ==>
      exists k :: OnPad(k) && k in pressed && ScanResult(pressed) == ButtonAt(k) &&
        (forall r: nat, c: nat :: c < KEYPAD_COLS && Before(r, c, k) ==> Key(r, c) !in pressed)
  {
    FirstPressedIsFirst(pressed, 0, 0);
    match FirstPressed(pressed, 0, 0)
    case None =>
    case Some(k) =>
      NoButtonIsNoKey(k);
  }

  /** The pins whose last write in `w` was low. */
  function LowPins(w: seq<Gpio.PinWrite>): set<bv32> {
    if |w| == 0 then {}
    else if w[|w| - 1].high then LowPins(w[..|w| - 1]) - {w[|w| - 1].pin}
    else LowPins(w[..|w| - 1]) + {w[|w| - 1].pin}
  }

  /** One more write moves one pin into or out of the low set. */
  lemma LowPinsAppend(w: seq<Gpio.PinWrite>, x: Gpio.PinWrite)
    ensures LowPins(w + [x]) == if x.high then LowPins(w) - {x.pin} else LowPins(w) + {x.pin}
  {
    assert (w + [x])[..|w|] == w;
  }

  /** A prefix of a shorter scan's writes is a prefix of a longer one's. */
  lemma RowPulsesPrefix(n: nat, k: nat)
    requires 0 < n <= KEYPAD_ROWS && k <= 2 * (n - 1)
    ensures RowPulses(n)[..k] == RowPulses(n - 1)[..k]
  {
  }

  /**
   * While a scan runs, at most one row is held low at any moment, and once
   * it is over every row is high again.
   */
  lemma {:induction false} OneRowAtATime(n: nat, k: nat)
    requires n <= KEYPAD_ROWS && k <= 2 * n
    ensures |LowPins(RowPulses(n)[..k])| <= 1
    ensures k == 2 * n ==> LowPins(RowPulses(n)[..k]) == {}
  {
    if n == 0 {
      assert RowPulses(n)[..k] == [];
    } else if k <= 2 * (n - 1) {
      RowPulsesPrefix(n, k);
      OneRowAtATime(n - 1, k);
    } else {
      OneRowAtATime(n - 1, 2 * (n - 1));
      LastRowPulse(n);
      if k == 2 * n - 1 {
        assert |LowPins(RowPulses(n)[..k])| == 1;
      } else {
        assert LowPins(RowPulses(n)[..k]) == {};
      }
    }
  }

  /** Driving row n-1 low adds just that row to the low set, and driving it high again removes it. */
  lemma LastRowPulse(n: nat)
    requires 0 < n <= KEYPAD_ROWS
    requires LowPins(RowPulses(n - 1)[..2 * (n - 1)]) == {}
    ensures LowPins(RowPulses(n)[..2 * n - 1]) == {ROW_PINS[n - 1]}
    ensures LowPins(RowPulses(n)[..2 * n]) == {}
  {
    var prev := RowPulses(n - 1);
    var low := Gpio.PinWrite(ROW_PINS[n - 1], false);
    var high := Gpio.PinWrite(ROW_PINS[n - 1], true);
    assert prev[..2 * (n - 1)] == prev;
    LowPinsAppend(prev, low);
    assert RowPulses(n)[..2 * n - 1] == prev + [low];
    LowPinsAppend(prev + [low], high);
    assert RowPulses(n)[..2 * n] == prev + [low] + [high];
  }

  /** ROWS_BELOW[k]: the ODR bits of rows 0 .. k-1, ROW0 | .. | ROW(k-1). */
  const ROWS_BELOW: seq<bv32> := [0x0000, 0x0001, 0x0003, 0x1003, 0x3003]

  /** ROWS_BELOW[k] holds the bit of every row before k, no bit of a later row, and nothing outside the rows. */
  lemma RowsBelowAreRows(k: nat, r: nat)
    requires k <= KEYPAD_ROWS && r < KEYPAD_ROWS
    ensures ROWS_BELOW[k] & !ROW_MASK == 0
    ensures r < k ==> ROWS_BELOW[k] & ROW_PINS[r] == ROW_PINS[r]
    ensures k <= r ==> ROWS_BELOW[k] & ROW_PINS[r] == 0
  {
    if r == 0 {
    } else if r == 1 {
    } else if r == 2 {
    } else {
    }
  }

  /** Driving a pin low and then high sets its ODR bit and nothing else. */
  lemma PulseSetsPin(odr: bv32, pin: bv32)
    requires pin <= 0xFFFF
    ensures Gpio.Written(Gpio.Written(odr, pin, false), pin, true) == odr | pin
  {
  }

  /**
   * The column loop of keypad_Get_Pressed_Key while row `row` is driven
   * low: it reads the columns in order and stops at the first one that
   * reads low. It finds a key exactly when the first pressed key from the
   * start of the row on lies in this row, and then returns that key's
   * table value.
   */
  method ScanColumns(pressed: set<Key>, row: nat) returns (found: bool, key: bv8)
    requires row < KEYPAD_ROWS
    ensures found <==> FirstPressed(pressed, row, 0).Some? && FirstPressed(pressed, row, 0).value.row == row
    ensures found ==> OnPad(FirstPressed(pressed, row, 0).value) && key == ButtonAt(FirstPressed(pressed, row, 0).value)
    ensures !found ==> FirstPressed(pressed, row, 0) == FirstPressed(pressed, row + 1, 0)
  {
    found, key := false, NO_KEY;
    var col := 0;
    while col < KEYPAD_COLS
      invariant col <= KEYPAD_COLS
      invariant FirstPressed(pressed, row, 0) == FirstPressed(pressed, row, col)
    {
      if Key(row, col) in pressed {
        return true, BUTTONS[row][col];
      }
      col := col + 1;
    }
    FirstPressedIsFirst(pressed, row + 1, 0);
  }

  /** The ODR after a scan that drove rows 0 .. n-1, starting from `odr`. */
  function RaisedOdr(odr: bv32, n: nat): bv32
    requires n <= KEYPAD_ROWS
  {
    if n == 0 then odr else RaisedOdr(odr, n - 1) | ROW_PINS[n - 1]
  }

  /** A scan over rows 0 .. n-1 sets exactly the ODR bits ROWS_BELOW[n]. */
  lemma {:induction false} RaisedOdrSetsRowsBelow(odr: bv32, n: nat)
    requires n <= KEYPAD_ROWS
    ensures RaisedOdr(odr, n) == odr | ROWS_BELOW[n]
  {
    if n == 0 {
      assert ROWS_BELOW[0] == 0;
    } else {
      RaisedOdrSetsRowsBelow(odr, n - 1);
      RowsBelowStep(odr, n - 1);
    }
  }

  /** Raising row n on top of the rows before it gives the rows up to and including n. */
  lemma RowsBelowStep(odr: bv32, n: nat)
    requires n < KEYPAD_ROWS
    ensures (odr | ROWS_BELOW[n]) | ROW_PINS[n] == odr | ROWS_BELOW[n + 1]
  {
    var below, pin := ROWS_BELOW[n], ROW_PINS[n];
    assert below | pin == ROWS_BELOW[n + 1] by {
      if n == 0 {
      } else if n == 1 {
      } else if n == 2 {
      } else {
      }
    }
  }

  /** Driving row n low and then high, after rows 0 .. n-1, gives the ODR of a scan over rows 0 .. n. */
  lemma RaisedAfterLowered(odr: bv32, n: nat)
    requires n < KEYPAD_ROWS
    ensures Gpio.Written(Gpio.Written(RaisedOdr(odr, n), ROW_PINS[n], false), ROW_PINS[n], true) == RaisedOdr(odr, n + 1)
  {
    var pin := ROW_PINS[n];
    RowPinFits(n);
    PulseSetsPin(RaisedOdr(odr, n), pin);
  }

  /** Every row pin lies in the 16 bits of a port. */
  lemma RowPinFits(n: nat)
    requires n < KEYPAD_ROWS
    ensures ROW_PINS[n] <= 0xFFFF
  {
    RowTables();
  }

  /** The entries of ROW_PINS and ROWS_BELOW, one by one. */
  lemma RowTables()
    ensures ROW_PINS[0] == 0x0001 && ROW_PINS[1] == 0x0002 && ROW_PINS[2] == 0x1000 && ROW_PINS[3] == 0x2000
    ensures ROWS_BELOW[0] == 0 && ROWS_BELOW[1] == 0x0001 && ROWS_BELOW[2] == 0x0003
    ensures ROWS_BELOW[3] == 0x1003 && ROWS_BELOW[4] == 0x3003
  {
  }

  /** The row writes of a scan that has driven rows 0 .. n-1 and now drives row n low. */
  function RowLowered(n: nat): seq<Gpio.PinWrite>
    requires n < KEYPAD_ROWS
  {
    RowPulses(n) + [Gpio.PinWrite(ROW_PINS[n], false)]
  }

  /** The ODR while row n is driven low, after rows 0 .. n-1 were pulsed. */
  function LoweredOdr(odr: bv32, n: nat): bv32
    requires n < KEYPAD_ROWS
  {
    Gpio.Written(RaisedOdr(odr, n), ROW_PINS[n], false)
  }

  /** The first write of a row's pulse in keypad_Get_Pressed_Key: the row goes low. */
  method LowerRow(port: Gpio.GpioPort, row: nat, ghost w0: seq<Gpio.PinWrite>, ghost odr0: bv32)
    requires row < KEYPAD_ROWS
    requires port.writes == w0 + RowPulses(row)
    requires port.ODR == RaisedOdr(odr0, row)
    modifies port
    ensures port.writes == w0 + RowLowered(row)
    ensures port.ODR == LoweredOdr(odr0, row)
    ensures port.CRL == old(port.CRL) && port.CRH == old(port.CRH)
  {
    port.WritePin(ROW_PINS[row], 0);
    assert w0 + RowPulses(row) + [Gpio.PinWrite(ROW_PINS[row], false)] == w0 + RowLowered(row);
  }

  /**
   * The second write of a row's pulse: the row goes high again, which
   * completes the row's pulse in the trace and sets its ODR bit.
   */
  method RaiseRow(port: Gpio.GpioPort, row: nat, ghost w0: seq<Gpio.PinWrite>, ghost odr0: bv32)
    requires row < KEYPAD_ROWS
    requires port.writes == w0 + RowLowered(row)
    requires port.ODR == LoweredOdr(odr0, row)
    modifies port
    ensures port.writes == w0 + RowPulses(row + 1)
    ensures port.ODR == RaisedOdr(odr0, row + 1)
    ensures port.CRL == old(port.CRL) && port.CRH == old(port.CRH)
  {
    port.WritePin(ROW_PINS[row], 1);
    RaisedAfterLowered(odr0, row);
    RowPulsesStep(w0, row);
  }

  /**
   * keypad_Get_Pressed_Key. A column reads low while row r is driven exactly
   * when the key (r, column) is held down; the wait for the key's release is
   * taken as finished. Every row the scan drove ends with its ODR bit set
   * again and no other ODR bit changes (RaisedOdrSetsRowsBelow,
   * RowsBelowAreRows).
   */
  method GetPressedKey(port: Gpio.GpioPort, pressed: set<Key>) returns (key: bv8)
    modifies port
    ensures key == ScanResult(pressed)
    ensures port.writes == old(port.writes) + RowPulses(RowsScanned(pressed))
    ensures port.ODR == RaisedOdr(old(port.ODR), RowsScanned(pressed))
    ensures port.CRL == old(port.CRL) && port.CRH == old(port.CRH)
  {
    var row := 0;
    while row < KEYPAD_ROWS
      invariant row <= KEYPAD_ROWS
      invariant FirstPressed(pressed, 0, 0) == FirstPressed(pressed, row, 0)
      invariant port.writes == old(port.writes) + RowPulses(row)
      invariant port.ODR == RaisedOdr(old(port.ODR), row)
      invariant port.CRL == old(port.CRL) && port.CRH == old(port.CRH)
    {
      LowerRow(port, row, old(port.writes), old(port.ODR));
      var found;
      found, key := ScanColumns(pressed, row);
      RaiseRow(port, row, old(port.writes), old(port.ODR));
      if found {
        return;
      }
      row := row + 1;
    }
    key := NO_KEY;
  }

  /** Pin configuration of the rows: push-pull output at 10 MHz. */
  const ROW_CONFIG: bv32 := Gpio.ConfigNibble(Gpio.MODE_OUTPUT_PP, Gpio.SPEED_10M)
  /** Pin configuration of the columns: input with pull resistor (the speed field is left at 10 MHz and ignored). */
  const COL_CONFIG: bv32 := Gpio.ConfigNibble(Gpio.MODE_INPUT_PU, Gpio.SPEED_10M)

  /**
   * Two steps that each set the ODR bits of a mask and keep every bit
   * outside it leave the bits of both masks set and keep every other bit.
   */
  lemma TwoMasksSet(o0: bv32, o1: bv32, o2: bv32, m: bv32, m': bv32)
    requires Gpio.OdrKept(o0, o1, m) && o1 & m == m
    requires Gpio.OdrKept(o1, o2, m') && o2 & m' == m'
    ensures Gpio.OdrKept(o0, o2, m | m')
    ensures o2 & (m | m') == m | m'
  {
  }

  /** Two pin writes in a row extend the trace by both, in order. */
  lemma AppendTwo(w: seq<Gpio.PinWrite>, x: Gpio.PinWrite, y: Gpio.PinWrite)
    ensures w + [x] + [y] == w + [x, y]
  {
  }

  /** Two pairs of writes in a row extend the trace by all four, in order. */
  lemma AppendFour(w: seq<Gpio.PinWrite>, x: Gpio.PinWrite, y: Gpio.PinWrite, u: Gpio.PinWrite, v: Gpio.PinWrite)
    ensures w + [x, y] + [u, v] == w + [x, y, u, v]
  {
  }

  /** The rows and the columns are eight distinct pins; the masks hold exactly their bits. */
  lemma KeypadPins()
    ensures PinSet(ROW_PINS) == {ROW0, ROW1} + {ROW2, ROW3}
    ensures PinSet(COL_PINS) == {COL0, COL1} + {COL2, COL3}
    ensures PinSet(ROW_PINS) !! PinSet(COL_PINS)
    ensures ROW_MASK == (ROW0 | ROW1) | (ROW2 | ROW3) && COL_MASK == (COL0 | COL1) | (COL2 | COL3)
    ensures ROW_MASK & COL_MASK == 0
  {
    assert PinSet(ROW_PINS) == {ROW0, ROW1, ROW2, ROW3};
    assert PinSet(COL_PINS) == {COL0, COL1, COL2, COL3};
  }

  /** All bits of a mask are set exactly when the bit of each of its pins is set. */
  lemma MaskSetPinsSet(odr: bv32)
    ensures odr & ROW_MASK == ROW_MASK <==>
      odr & ROW0 == ROW0 && odr & ROW1 == ROW1 && odr & ROW2 == ROW2 && odr & ROW3 == ROW3
    ensures odr & COL_MASK == COL_MASK <==>
      odr & COL0 == COL0 && odr & COL1 == COL1 && odr & COL2 == COL2 && odr & COL3 == COL3
  {
  }

  /**
   * keypad_init: every row is an output driven high, every column a
   * pulled-up input (MaskSetPinsSet reads the ODR masks pin by pin). The
   * port's other pins keep their configuration and their output bit.
   */
  method Init(port: Gpio.GpioPort)
    modifies port
    ensures Gpio.Configured(port.CRL, port.CRH, PinSet(ROW_PINS), ROW_CONFIG)
    ensures Gpio.Configured(port.CRL, port.CRH, PinSet(COL_PINS), COL_CONFIG)
    ensures port.ODR & ROW_MASK == ROW_MASK && port.ODR & COL_MASK == COL_MASK
    ensures Gpio.KeptOutside(old(port.CRL), old(port.CRH), port.CRL, port.CRH, PinSet(ROW_PINS) + PinSet(COL_PINS))
    ensures Gpio.OdrKept(old(port.ODR), port.ODR, ROW_MASK | COL_MASK)
    ensures port.writes == old(port.writes) + [
      Gpio.PinWrite(ROW0, true), Gpio.PinWrite(ROW1, true), Gpio.PinWrite(ROW2, true), Gpio.PinWrite(ROW3, true)]
  {
    ghost var l0, h0, o0 := port.CRL, port.CRH, port.ODR;
    InitRows(port);
    ghost var l1, h1, o1 := port.CRL, port.CRH, port.ODR;
    InitColumns(port);
    KeypadPins();
    Gpio.KeptOutsideTrans(l0, h0, l1, h1, port.CRL, port.CRH, PinSet(ROW_PINS), PinSet(COL_PINS));
    Gpio.ConfiguredKept(l1, h1, port.CRL, port.CRH, PinSet(ROW_PINS), ROW_CONFIG, PinSet(COL_PINS));
    Gpio.OdrKeptBit(o1, port.ODR, COL_MASK, ROW_MASK);
    Gpio.OdrKeptWiden(o0, o1, ROW_MASK, ROW_MASK | COL_MASK);
    Gpio.OdrKeptWiden(o1, port.ODR, COL_MASK, ROW_MASK | COL_MASK);
  }

  /** The row half of keypad_init: each row configured, then written high. */
  method InitRows(port: Gpio.GpioPort)
    modifies port
    ensures Gpio.Configured(port.CRL, port.CRH, PinSet(ROW_PINS), ROW_CONFIG)
    ensures port.ODR & ROW_MASK == ROW_MASK
    ensures Gpio.KeptOutside(old(port.CRL), old(port.CRH), port.CRL, port.CRH, PinSet(ROW_PINS))
    ensures Gpio.OdrKept(old(port.ODR), port.ODR, ROW_MASK)
    ensures port.writes == old(port.writes) + [
      Gpio.PinWrite(ROW0, true), Gpio.PinWrite(ROW1, true), Gpio.PinWrite(ROW2, true), Gpio.PinWrite(ROW3, true)]
  {
    ghost var l0, h0, o0, w0 := port.CRL, port.CRH, port.ODR, port.writes;
    InitRowPair(port, ROW0, ROW1, {});
    ghost var l1, h1, o1 := port.CRL, port.CRH, port.ODR;
    InitRowPair(port, ROW2, ROW3, {ROW0, ROW1});
    KeypadPins();
    Gpio.KeptOutsideTrans(l0, h0, l1, h1, port.CRL, port.CRH, {ROW0, ROW1}, {ROW2, ROW3});
    TwoMasksSet(o0, o1, port.ODR, ROW0 | ROW1, ROW2 | ROW3);
    AppendFour(w0, Gpio.PinWrite(ROW0, true), Gpio.PinWrite(ROW1, true), Gpio.PinWrite(ROW2, true), Gpio.PinWrite(ROW3, true));
  }

  /** Two rows of keypad_init, one after the other. */
  method InitRowPair(port: Gpio.GpioPort, p: bv32, q: bv32, ghost done: set<bv32>)
    requires Gpio.IsPin(p) && Gpio.IsPin(q) && Gpio.Configured(port.CRL, port.CRH, done, ROW_CONFIG)
    modifies port
    ensures Gpio.Configured(port.CRL, port.CRH, done + {p, q}, ROW_CONFIG)
    ensures port.ODR & (p | q) == p | q
    ensures Gpio.KeptOutside(old(port.CRL), old(port.CRH), port.CRL, port.CRH, {p, q})
    ensures Gpio.OdrKept(old(port.ODR), port.ODR, p | q)
    ensures port.writes == old(port.writes) + [Gpio.PinWrite(p, true), Gpio.PinWrite(q, true)]
  {
    ghost var l0, h0, o0, w0 := port.CRL, port.CRH, port.ODR, port.writes;
    InitRow(port, p, done);
    ghost var l1, h1, o1 := port.CRL, port.CRH, port.ODR;
    InitRow(port, q, done + {p});
    Gpio.KeptOutsideTrans(l0, h0, l1, h1, port.CRL, port.CRH, {p}, {q});
    assert done + {p} + {q} == done + {p, q};
    assert {p} + {q} == {p, q};
    TwoMasksSet(o0, o1, port.ODR, p, q);
    AppendTwo(w0, Gpio.PinWrite(p, true), Gpio.PinWrite(q, true));
  }

  /**
   * One row of keypad_init: configure the pin as an output, then write it
   * high; nothing else in the port changes.
   */
  method InitRow(port: Gpio.GpioPort, pin: bv32, ghost done: set<bv32>)
    requires Gpio.IsPin(pin) && Gpio.Configured(port.CRL, port.CRH, done, ROW_CONFIG)
    modifies port
    ensures Gpio.Configured(port.CRL, port.CRH, done + {pin}, ROW_CONFIG)
    ensures port.ODR & pin == pin
    ensures Gpio.KeptOutside(old(port.CRL), old(port.CRH), port.CRL, port.CRH, {pin})
    ensures Gpio.OdrKept(old(port.ODR), port.ODR, pin)
    ensures port.writes == old(port.writes) + [Gpio.PinWrite(pin, true)]
  {
    ghost var crl, crh := port.CRL, port.CRH;
    port.Init(pin, Gpio.MODE_OUTPUT_PP, Gpio.SPEED_10M);
    Gpio.ConfiguredAdd(crl, crh, port.CRL, port.CRH, done, pin, ROW_CONFIG);
    ghost var odr := port.ODR;
    port.WritePin(pin, 1);
    Gpio.WrittenKeepsOutside(odr, pin, true, pin);
    Gpio.WrittenLevel(odr, pin, true);
  }

  /** The column half of keypad_init: each column a pulled-up input; nothing else in the port changes. */
  method InitColumns(port: Gpio.GpioPort)
    modifies port
    ensures Gpio.Configured(port.CRL, port.CRH, PinSet(COL_PINS), COL_CONFIG)
    ensures port.ODR & COL_MASK == COL_MASK
    ensures Gpio.KeptOutside(old(port.CRL), old(port.CRH), port.CRL, port.CRH, PinSet(COL_PINS))
    ensures Gpio.OdrKept(old(port.ODR), port.ODR, COL_MASK)
    ensures port.writes == old(port.writes)
  {
    ghost var l0, h0, o0 := port.CRL, port.CRH, port.ODR;
    InitColumnPair(port, COL0, COL1, {});
    ghost var l1, h1, o1 := port.CRL, port.CRH, port.ODR;
    InitColumnPair(port, COL2, COL3, {COL0, COL1});
    KeypadPins();
    Gpio.KeptOutsideTrans(l0, h0, l1, h1, port.CRL, port.CRH, {COL0, COL1}, {COL2, COL3});
    TwoMasksSet(o0, o1, port.ODR, COL0 | COL1, COL2 | COL3);
  }

  /** Two columns of keypad_init, one after the other. */
  method InitColumnPair(port: Gpio.GpioPort, p: bv32, q: bv32, ghost done: set<bv32>)
    requires Gpio.IsPin(p) && Gpio.IsPin(q) && Gpio.Configured(port.CRL, port.CRH, done, COL_CONFIG)
    modifies port
    ensures Gpio.Configured(port.CRL, port.CRH, done + {p, q}, COL_CONFIG)
    ensures port.ODR & (p | q) == p | q
    ensures Gpio.KeptOutside(old(port.CRL), old(port.CRH), port.CRL, port.CRH, {p, q})
    ensures Gpio.OdrKept(old(port.ODR), port.ODR, p | q)
    ensures port.writes == old(port.writes)
  {
    ghost var l0, h0, o0 := port.CRL, port.CRH, port.ODR;
    InitColumn(port, p, done);
    ghost var l1, h1, o1 := port.CRL, port.CRH, port.ODR;
    InitColumn(port, q, done + {p});
    Gpio.KeptOutsideTrans(l0, h0, l1, h1, port.CRL, port.CRH, {p}, {q});
    assert done + {p} + {q} == done + {p, q};
    assert {p} + {q} == {p, q};
    TwoMasksSet(o0, o1, port.ODR, p, q);
  }

  /** One column of keypad_init: a pulled-up input, so its ODR bit is set; nothing else in the port changes. */
  method InitColumn(port: Gpio.GpioPort, pin: bv32, ghost done: set<bv32>)
    requires Gpio.IsPin(pin) && Gpio.Configured(port.CRL, port.CRH, done, COL_CONFIG)
    modifies port
    ensures Gpio.Configured(port.CRL, port.CRH, done + {pin}, COL_CONFIG)
    ensures port.ODR & pin == pin
    ensures Gpio.KeptOutside(old(port.CRL), old(port.CRH), port.CRL, port.CRH, {pin})
    ensures Gpio.OdrKept(old(port.ODR), port.ODR, pin)
    ensures port.writes == old(port.writes)
  {
    ghost var crl, crh := port.CRL, port.CRH;
    port.Init(pin, Gpio.MODE_INPUT_PU, Gpio.SPEED_10M);
    Gpio.ConfiguredAdd(crl, crh, port.CRL, port.CRH, done, pin, COL_CONFIG);
    Gpio.PullResistorSelected(old(port.ODR), pin, Gpio.MODE_INPUT_PU);
  }
}
