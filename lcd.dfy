/*
 * Character LCD driver (HAL/lcd_driver.c) for an HD44780-style controller.
 *
 * The driver talks to the display only through GPIO pin writes: RS selects
 * command (low) or character (high), the data lines D0..D7 (or D4..D7 in
 * 4-bit mode) carry the byte, and a high-then-low pulse on EN makes the
 * controller take the lines in. Each call is modelled by the sequence of
 * line writes it makes; the pin-level GPIO trace is that sequence mapped
 * through the configured pins. A small model of the controller's input
 * side, which samples RS and the data lines whenever EN falls, reads the
 * bytes back out of a write sequence. The millisecond delays between the
 * writes are left out.
 */
module Lcd {
  import Gpio
  import opened CString

  const CLEAR_DISPLAY: bv8 := 0x01
  const EIGHT_BIT_MODE_2_LINE: bv8 := 0x38
  const FOUR_BIT_MODE_2_LINE: bv8 := 0x28

  /** LCD_ROWS_POS_define: the set-DDRAM-address command of the first column of each row. */
  const FIRST_ROW: bv8 := 0x80
  const SECOND_ROW: bv8 := 0xC0
  const THIRD_ROW: bv8 := 0x94
  const FOURTH_ROW: bv8 := 0xD4

  /** LCD_MODE_t. */
  datatype BusMode = EightBit | FourBit

  /** LCD_ROWS_t: kept in the configuration, not used by the driver's logic. */
  datatype RowCount = TwoRows | FourRows

  /** The controller's inputs the driver drives. */
  datatype Signal = RS | EN | D(n: nat)

  /** One write of a level onto one of the controller's inputs. */
  datatype LineWrite = LineWrite(line: Signal, high: bool)

  /** LCD_t. */
  datatype LcdConfig = LcdConfig(
    mode: BusMode, rows: RowCount, displayMode: bv8, entryMode: bv8,
    port: Gpio.GpioPort, rsPin: bv32, enPin: bv32, dataPins: seq<bv32>)

  /** The pins the driver configures are real pins: RS, EN, D4..D7, and D0..D3 in 8-bit mode. */
  predicate ValidConfig(c: LcdConfig) {
    && |c.dataPins| == 8
    && Gpio.IsPin(c.rsPin) && Gpio.IsPin(c.enPin)
    && (forall i :: 4 <= i < 8 ==> Gpio.IsPin(c.dataPins[i]))
    && (c.mode == EightBit ==> forall i :: 0 <= i < 4 ==> Gpio.IsPin(c.dataPins[i]))
  }

  /** The GPIO pin wired to a controller input. */
  function PinOf(c: LcdConfig, s: Signal): bv32 {
    match s
    case RS => c.rsPin
    case EN => c.enPin
    case D(n) => if n < |c.dataPins| then c.dataPins[n] else 0
  }

  /** The GPIO pin write that makes one line write. */
  function PinWriteOf(c: LcdConfig, w: LineWrite): Gpio.PinWrite {
    Gpio.PinWrite(PinOf(c, w.line), w.high)
  }

  /** A sequence of line writes as the GPIO pin writes that make it. */
  function OnPins(c: LcdConfig, t: seq<LineWrite>): (w: seq<Gpio.PinWrite>)
    decreases |t|
  {
    if |t| == 0 then [] else [PinWriteOf(c, t[0])] + OnPins(c, t[1..])
  }

  /** The pin writes of two line sequences back to back are the pin writes of their concatenation. */
  lemma {:induction false} OnPinsAppend(c: LcdConfig, a: seq<LineWrite>, b: seq<LineWrite>)
    decreases |a|
    ensures OnPins(c, a + b) == OnPins(c, a) + OnPins(c, b)
  {
    if |a| > 0 {
      assert (a + b)[1..] == a[1..] + b;
      OnPinsAppend(c, a[1..], b);
    } else {
      assert a + b == b;
    }
  }

  /** Each line write becomes the pin write at the same position. */
  lemma {:induction false} OnPinsEach(c: LcdConfig, t: seq<LineWrite>)
    decreases |t|
    ensures |OnPins(c, t)| == |t|
    ensures forall i :: 0 <= i < |t| ==> OnPins(c, t)[i] == PinWriteOf(c, t[i])
  {
    if |t| > 0 {
      OnPinsEach(c, t[1..]);
    }
  }

  /** A trace extended by the pin writes of `a` and then of `b` is extended by those of `a + b`. */
  lemma TraceAppend(c: LcdConfig, o: seq<Gpio.PinWrite>, a: seq<LineWrite>, b: seq<LineWrite>)
    ensures o + OnPins(c, a) + OnPins(c, b) == o + OnPins(c, a + b)
  {
    OnPinsAppend(c, a, b);
  }

  lemma OnPinsOne(c: LcdConfig, w: LineWrite)
    ensures OnPins(c, [w]) == [PinWriteOf(c, w)]
  {
    assert [w][1..] == [];
  }

  // ---------------------------------------------------------------------------
  // What each call puts on the lines
  // ---------------------------------------------------------------------------

  /** Whether the bit of `b` selected by `mask` is set: the level the driver writes for it. */
  predicate Bit(b: bv8, mask: bv8) {
    b & mask != 0
  }

  /** Bits 7..4 of `b`, lowest first. */
  function HighBits(b: bv8): seq<bool> {
    [Bit(b, 0x10), Bit(b, 0x20), Bit(b, 0x40), Bit(b, 0x80)]
  }

  /** Bits 3..0 of `b`, lowest first. */
  function LowBits(b: bv8): seq<bool> {
    [Bit(b, 0x01), Bit(b, 0x02), Bit(b, 0x04), Bit(b, 0x08)]
  }

  /** Four levels onto four consecutive data lines starting at D`first`. */
  function DataWrites(first: nat, v: seq<bool>): seq<LineWrite>
    requires |v| == 4
  {
    [LineWrite(D(first), v[0]), LineWrite(D(first + 1), v[1]),
     LineWrite(D(first + 2), v[2]), LineWrite(D(first + 3), v[3])]
  }

  /** LCD_Send_Enable_Signal: EN set, then reset. */
  function Pulse(): seq<LineWrite> {
    [LineWrite(EN, true), LineWrite(EN, false)]
  }

  /**
   * The data phase of a byte: in 8-bit mode bit i onto Di; in 4-bit mode
   * bits 7..4 onto D7..D4, a pulse, then bits 3..0 onto D7..D4.
   */
  function DataPhase(mode: BusMode, b: bv8): seq<LineWrite> {
    match mode
    case EightBit => DataWrites(0, LowBits(b)) + DataWrites(4, HighBits(b))
    case FourBit => DataWrites(4, HighBits(b)) + Pulse() + DataWrites(4, LowBits(b))
  }

  /** LCD_Send_Command (rs false) and LCD_Send_Char (rs true): RS first, then the data, then a pulse. */
  function ByteWrites(mode: BusMode, rs: bool, b: bv8): seq<LineWrite> {
    [LineWrite(RS, rs)] + DataPhase(mode, b) + Pulse()
  }

  /** The characters s[0 .. n-1] sent one after another. */
  function StringWrites(mode: BusMode, s: seq<bv8>, n: nat): seq<LineWrite>
    requires n <= |s|
  {
    if n == 0 then [] else StringWrites(mode, s, n - 1) + ByteWrites(mode, true, s[n - 1])
  }

  /**
   * LCD_Set_Cursor: the column is decremented and added to the row code,
   * both as uint8, so the command wraps modulo 256.
   */
  function CursorCommand(row: bv8, column: bv8): bv8 {
    row + (column - 1)
  }

  /** One of the four row codes of LCD_ROWS_POS_define. */
  predicate IsRowStart(row: bv8) {
    row == FIRST_ROW || row == SECOND_ROW || row == THIRD_ROW || row == FOURTH_ROW
  }

  /**
   * For a row code and a column 1..16 the cursor command is a set-DDRAM-address
   * command (bit 7 set) whose address is the row's start plus column - 1.
   */
  lemma CursorAddress(row: bv8, column: bv8)
    requires IsRowStart(row) && 1 <= column <= 16
    ensures CursorCommand(row, column) & 0x80 == 0x80
    ensures CursorCommand(row, column) & 0x7F == (row & 0x7F) + (column - 1)
  {
  }

  // ---------------------------------------------------------------------------
  // The controller's side: what it latches when EN falls
  // ---------------------------------------------------------------------------

  /** The levels on the controller's inputs; lines[i] is Di. */
  datatype Bus = Bus(rs: bool, en: bool, lines: seq<bool>)

  /** RS and the data lines as sampled on a falling edge of EN. */
  datatype Latch = Latch(rs: bool, lines: seq<bool>)

  /** The bus after a write sequence, and what was latched on the way. */
  datatype Outcome = Outcome(bus: Bus, latched: seq<Latch>)

  /** The bus after one write. */
  function Sense(bus: Bus, w: LineWrite): Bus {
    match w.line
    case RS => bus.(rs := w.high)
    case EN => bus.(en := w.high)
    case D(n) => if n < |bus.lines| then bus.(lines := bus.lines[n := w.high]) else bus
  }

  /** What a change of the bus latches: a sample exactly when EN goes from high to low. */
  function Edge(before: Bus, after: Bus): seq<Latch> {
    if before.en && !after.en then [Latch(after.rs, after.lines)] else []
  }

  /** Runs a write sequence through the controller's input side. */
  function Run(bus: Bus, t: seq<LineWrite>): Outcome
    decreases |t|
  {
    if |t| == 0 then Outcome(bus, [])
    else
      var next := Sense(bus, t[0]);
      var rest := Run(next, t[1..]);
      Outcome(rest.bus, Edge(bus, next) + rest.latched)
  }

  /** Running two sequences back to back is running their concatenation. */
  lemma {:induction false} RunAppend(bus: Bus, a: seq<LineWrite>, b: seq<LineWrite>)
    decreases |a|
    ensures Run(bus, a + b).bus == Run(Run(bus, a).bus, b).bus
    ensures Run(bus, a + b).latched == Run(bus, a).latched + Run(Run(bus, a).bus, b).latched
  {
    if |a| == 0 {
      assert a + b == b;
    } else {
      var next := Sense(bus, a[0]);
      assert (a + b)[0] == a[0] && (a + b)[1..] == a[1..] + b;
      RunAppend(next, a[1..], b);
      var ra := Run(next, a[1..]);
      var rb := Run(ra.bus, b);
      assert Run(bus, a) == Outcome(ra.bus, Edge(bus, next) + ra.latched);
      assert Run(bus, a + b) == Outcome(rb.bus, Edge(bus, next) + (ra.latched + rb.latched));
      assert Edge(bus, next) + (ra.latched + rb.latched) == (Edge(bus, next) + ra.latched) + rb.latched;
    }
  }

  /** RunAppend with the outcomes of the two parts already known. */
  lemma RunThen(bus: Bus, a: seq<LineWrite>, b: seq<LineWrite>, ra: Outcome, rb: Outcome)
    requires Run(bus, a) == ra && Run(ra.bus, b) == rb
    ensures Run(bus, a + b) == Outcome(rb.bus, ra.latched + rb.latched)
  {
    RunAppend(bus, a, b);
  }

  lemma RunOne(bus: Bus, w: LineWrite)
    ensures Run(bus, [w]) == Outcome(Sense(bus, w), Edge(bus, Sense(bus, w)))
  {
    assert [w][1..] == [];
  }

  /** Four levels written onto lines[first .. first+3]. */
  function Set4(lines: seq<bool>, first: nat, v: seq<bool>): (r: seq<bool>)
    requires |v| == 4 && first + 4 <= |lines|
    ensures |r| == |lines|
  {
    lines[first := v[0]][first + 1 := v[1]][first + 2 := v[2]][first + 3 := v[3]]
  }

  /** Four data-line writes latch nothing and set the four lines. */
  lemma RunData(bus: Bus, first: nat, v: seq<bool>)
    requires |v| == 4 && first + 4 <= |bus.lines|
    ensures Run(bus, DataWrites(first, v)) == Outcome(bus.(lines := Set4(bus.lines, first, v)), [])
  {
    var w := DataWrites(first, v);
    var b1 := Sense(bus, w[0]);
    var b2 := Sense(b1, w[1]);
    var b3 := Sense(b2, w[2]);
    var b4 := Sense(b3, w[3]);
    assert b4 == bus.(lines := Set4(bus.lines, first, v));
    assert Run(bus, [w[0]]) == Outcome(b1, []) by { RunOne(bus, w[0]); }
    assert Run(b1, [w[1]]) == Outcome(b2, []) by { RunOne(b1, w[1]); }
    assert Run(b2, [w[2]]) == Outcome(b3, []) by { RunOne(b2, w[2]); }
    assert Run(b3, [w[3]]) == Outcome(b4, []) by { RunOne(b3, w[3]); }
    assert Run(bus, [w[0]] + [w[1]]) == Outcome(b2, []) by {
      RunThen(bus, [w[0]], [w[1]], Outcome(b1, []), Outcome(b2, []));
    }
    assert Run(bus, [w[0]] + [w[1]] + [w[2]]) == Outcome(b3, []) by {
      RunThen(bus, [w[0]] + [w[1]], [w[2]], Outcome(b2, []), Outcome(b3, []));
    }
    assert Run(bus, [w[0]] + [w[1]] + [w[2]] + [w[3]]) == Outcome(b4, []) by {
      RunThen(bus, [w[0]] + [w[1]] + [w[2]], [w[3]], Outcome(b3, []), Outcome(b4, []));
    }
    assert w == [w[0]] + [w[1]] + [w[2]] + [w[3]];
  }

  /** An enable pulse latches RS and the data lines as they stand, and leaves EN low. */
  lemma RunPulse(bus: Bus)
    ensures Run(bus, Pulse()) == Outcome(bus.(en := false), [Latch(bus.rs, bus.lines)])
  {
    var w := Pulse();
    var b1 := Sense(bus, w[0]);
    RunOne(bus, w[0]);
    RunOne(b1, w[1]);
    RunThen(bus, [w[0]], [w[1]], Outcome(b1, []), Outcome(bus.(en := false), [Latch(bus.rs, bus.lines)]));
    assert w == [w[0]] + [w[1]];
  }

  /** The RS write latches nothing. */
  lemma RunRs(bus: Bus, rs: bool)
    ensures Run(bus, [LineWrite(RS, rs)]) == Outcome(bus.(rs := rs), [])
  {
    RunOne(bus, LineWrite(RS, rs));
  }

  /** Whether data line i is high (a missing line reads low). */
  predicate Level(lines: seq<bool>, i: nat) {
    i < |lines| && lines[i]
  }

  /** The byte on D7..D0, as the controller reads it in 8-bit mode. */
  function ByteValue(lines: seq<bool>): bv8 {
    (if Level(lines, 0) then 0x01 else 0) | (if Level(lines, 1) then 0x02 else 0)
    | (if Level(lines, 2) then 0x04 else 0) | (if Level(lines, 3) then 0x08 else 0)
    | (if Level(lines, 4) then 0x10 else 0) | (if Level(lines, 5) then 0x20 else 0)
    | (if Level(lines, 6) then 0x40 else 0) | (if Level(lines, 7) then 0x80 else 0)
  }

  /** The nibble on D7..D4, as the controller reads it in 4-bit mode. */
  function NibbleValue(lines: seq<bool>): bv8 {
    (if Level(lines, 4) then 0x01 else 0) | (if Level(lines, 5) then 0x02 else 0)
    | (if Level(lines, 6) then 0x04 else 0) | (if Level(lines, 7) then 0x08 else 0)
  }

  /** A transfer as the controller takes it: a command (RS low) or a character (RS high). */
  datatype Transfer = Command(code: bv8) | Char(code: bv8)

  function TransferOf(rs: bool, b: bv8): Transfer {
    if rs then Char(b) else Command(b)
  }

  /** The transfers a sequence of samples makes: one per sample in 8-bit mode, one per pair in 4-bit mode. */
  function Received(mode: BusMode, l: seq<Latch>): seq<Transfer> {
    match mode
    case EightBit => Bytes(l)
    case FourBit => Pairs(l)
  }

  /** 8-bit transfers: each sample is a whole byte. */
  function Bytes(l: seq<Latch>): seq<Transfer>
    decreases |l|
  {
    if |l| == 0 then [] else [TransferOf(l[0].rs, ByteValue(l[0].lines))] + Bytes(l[1..])
  }

  /** 4-bit transfers: the first sample of a pair is the upper nibble, the second the lower. */
  function Pairs(l: seq<Latch>): seq<Transfer>
    decreases |l|
  {
    if |l| < 2 then []
    else [TransferOf(l[0].rs, (NibbleValue(l[0].lines) << 4) | NibbleValue(l[1].lines))] + Pairs(l[2..])
  }

  lemma {:induction false} BytesAppend(a: seq<Latch>, b: seq<Latch>)
    decreases |a|
    ensures Bytes(a + b) == Bytes(a) + Bytes(b)
  {
    if |a| == 0 {
      assert a + b == b;
    } else {
      assert (a + b)[1..] == a[1..] + b;
      BytesAppend(a[1..], b);
    }
  }

  lemma {:induction false} PairsAppend(a: seq<Latch>, b: seq<Latch>, k: nat)
    requires |a| == 2 * k
    decreases k
    ensures Pairs(a + b) == Pairs(a) + Pairs(b)
  {
    if k == 0 {
      assert a + b == b;
    } else {
      assert (a + b)[2..] == a[2..] + b;
      PairsAppend(a[2..], b, k - 1);
    }
  }

  /** Samples that make whole transfers concatenate transfer by transfer. */
  lemma ReceivedAppend(mode: BusMode, a: seq<Latch>, b: seq<Latch>, k: nat)
    requires mode == FourBit ==> |a| == 2 * k
    ensures Received(mode, a + b) == Received(mode, a) + Received(mode, b)
  {
    match mode
    case EightBit => BytesAppend(a, b);
    case FourBit => PairsAppend(a, b, k);
  }

  /** A byte is the sum of its set bits. */
  lemma ByteFromBits(b: bv8)
    ensures (if Bit(b, 0x01) then 0x01 else 0) | (if Bit(b, 0x02) then 0x02 else 0)
      | (if Bit(b, 0x04) then 0x04 else 0) | (if Bit(b, 0x08) then 0x08 else 0)
      | (if Bit(b, 0x10) then 0x10 else 0) | (if Bit(b, 0x20) then 0x20 else 0)
      | (if Bit(b, 0x40) then 0x40 else 0) | (if Bit(b, 0x80) then 0x80 else 0) == b
  {
  }

  /** A byte is its upper nibble shifted up, or-ed with its lower nibble. */
  lemma NibblesFromBits(b: bv8)
    ensures (((if Bit(b, 0x10) then 0x01 else 0) | (if Bit(b, 0x20) then 0x02 else 0)
      | (if Bit(b, 0x40) then 0x04 else 0) | (if Bit(b, 0x80) then 0x08 else 0)) << 4)
      | ((if Bit(b, 0x01) then 0x01 else 0) | (if Bit(b, 0x02) then 0x02 else 0)
      | (if Bit(b, 0x04) then 0x04 else 0) | (if Bit(b, 0x08) then 0x08 else 0)) == b
  {
  }

  /** Set4 puts the four levels on their lines. */
  lemma SetLevels(lines: seq<bool>, first: nat, v: seq<bool>)
    requires |v| == 4 && first + 4 <= |lines|
    ensures Level(Set4(lines, first, v), first) == v[0] && Level(Set4(lines, first, v), first + 1) == v[1]
    ensures Level(Set4(lines, first, v), first + 2) == v[2] && Level(Set4(lines, first, v), first + 3) == v[3]
  {
  }

  /** Set4 leaves every other line as it was. */
  lemma SetKeeps(lines: seq<bool>, first: nat, v: seq<bool>, i: nat)
    requires |v| == 4 && first + 4 <= |lines| && (i < first || first + 4 <= i)
    ensures Level(Set4(lines, first, v), i) == Level(lines, i)
  {
  }

  /** In 8-bit mode the controller reads back the byte whose bits were put on D0..D7. */
  lemma ByteValueOfBits(b: bv8, lines: seq<bool>)
    requires |lines| == 8
    ensures ByteValue(Set4(Set4(lines, 0, LowBits(b)), 4, HighBits(b))) == b
  {
    var low := Set4(lines, 0, LowBits(b));
    SetLevels(lines, 0, LowBits(b));
    SetLevels(low, 4, HighBits(b));
    SetKeeps(low, 4, HighBits(b), 0);
    SetKeeps(low, 4, HighBits(b), 1);
    SetKeeps(low, 4, HighBits(b), 2);
    SetKeeps(low, 4, HighBits(b), 3);
    ByteFromBits(b);
  }

  /** In 4-bit mode the two nibbles put on D4..D7 join back into the byte. */
  lemma NibblesJoin(b: bv8, first: seq<bool>, second: seq<bool>)
    requires |first| == 8 && |second| == 8
    ensures (NibbleValue(Set4(first, 4, HighBits(b))) << 4) | NibbleValue(Set4(second, 4, LowBits(b))) == b
  {
    SetLevels(first, 4, HighBits(b));
    SetLevels(second, 4, LowBits(b));
    NibblesFromBits(b);
  }

  /** 8-bit mode: one sample, taken after RS and all eight data lines are written. */
  lemma EightBitRun(bus: Bus, rs: bool, b: bv8)
    requires |bus.lines| == 8
    ensures var after := bus.(rs := rs, lines := Set4(Set4(bus.lines, 0, LowBits(b)), 4, HighBits(b)));
      Run(bus, ByteWrites(EightBit, rs, b)) == Outcome(after.(en := false), [Latch(rs, after.lines)])
  {
    var b0 := bus.(rs := rs);
    var b1 := b0.(lines := Set4(b0.lines, 0, LowBits(b)));
    var b2 := b1.(lines := Set4(b1.lines, 4, HighBits(b)));
    RunRs(bus, rs);
    RunData(b0, 0, LowBits(b));
    RunData(b1, 4, HighBits(b));
    RunPulse(b2);
    RunThen(b0, DataWrites(0, LowBits(b)), DataWrites(4, HighBits(b)), Outcome(b1, []), Outcome(b2, []));
    RunThen(bus, [LineWrite(RS, rs)], DataPhase(EightBit, b), Outcome(b0, []), Outcome(b2, []));
    RunThen(bus, [LineWrite(RS, rs)] + DataPhase(EightBit, b), Pulse(),
      Outcome(b2, []), Outcome(b2.(en := false), [Latch(rs, b2.lines)]));
  }

  /** 4-bit mode: two samples, the first after bits 7..4 are on D4..D7 and the second after bits 3..0 are. */
  lemma FourBitRun(bus: Bus, rs: bool, b: bv8)
    requires |bus.lines| == 8
    ensures var first := Set4(bus.lines, 4, HighBits(b));
      var second := Set4(first, 4, LowBits(b));
      Run(bus, ByteWrites(FourBit, rs, b))
        == Outcome(bus.(rs := rs, en := false, lines := second), [Latch(rs, first), Latch(rs, second)])
  {
    var b0 := bus.(rs := rs);
    var b1 := b0.(lines := Set4(b0.lines, 4, HighBits(b)));
    var b2 := b1.(en := false);
    var b3 := b2.(lines := Set4(b2.lines, 4, LowBits(b)));
    RunRs(bus, rs);
    RunData(b0, 4, HighBits(b));
    RunPulse(b1);
    RunData(b2, 4, LowBits(b));
    RunPulse(b3);
    RunThen(b0, DataWrites(4, HighBits(b)), Pulse(), Outcome(b1, []), Outcome(b2, [Latch(rs, b1.lines)]));
    RunThen(b0, DataWrites(4, HighBits(b)) + Pulse(), DataWrites(4, LowBits(b)),
      Outcome(b2, [Latch(rs, b1.lines)]), Outcome(b3, []));
    RunThen(bus, [LineWrite(RS, rs)], DataPhase(FourBit, b), Outcome(b0, []), Outcome(b3, [Latch(rs, b1.lines)]));
    RunThen(bus, [LineWrite(RS, rs)] + DataPhase(FourBit, b), Pulse(),
      Outcome(b3, [Latch(rs, b1.lines)]), Outcome(b3.(en := false), [Latch(rs, b3.lines)]));
  }

  /**
   * Starting from `bus`, the writes `t` deliver exactly the transfers `ts`
   * and leave eight data lines; in 4-bit mode they latch two samples per transfer.
   */
  predicate Delivers(mode: BusMode, bus: Bus, t: seq<LineWrite>, ts: seq<Transfer>) {
    var o := Run(bus, t);
    && Received(mode, o.latched) == ts
    && |o.bus.lines| == 8
    && (mode == FourBit ==> |o.latched| == 2 * |ts|)
  }

  /** Deliveries compose: `a` then `b` delivers what `a` delivers followed by what `b` delivers. */
  lemma DeliversAppend(mode: BusMode, bus: Bus, a: seq<LineWrite>, b: seq<LineWrite>, ta: seq<Transfer>, tb: seq<Transfer>)
    requires Delivers(mode, bus, a, ta) && Delivers(mode, Run(bus, a).bus, b, tb)
    ensures Delivers(mode, bus, a + b, ta + tb)
  {
    var oa := Run(bus, a);
    var ob := Run(oa.bus, b);
    RunThen(bus, a, b, oa, ob);
    ReceivedAppend(mode, oa.latched, ob.latched, |ta|);
  }

  /**
   * Whatever state the bus starts in, the writes of LCD_Send_Command and
   * LCD_Send_Char deliver exactly one transfer to the controller: the byte,
   * as a command when RS is low and as a character when it is high.
   */
  lemma ByteReceived(mode: BusMode, bus: Bus, rs: bool, b: bv8)
    requires |bus.lines| == 8
    ensures Delivers(mode, bus, ByteWrites(mode, rs, b), [TransferOf(rs, b)])
  {
    match mode
    case EightBit => EightBitReceived(bus, rs, b);
    case FourBit => FourBitReceived(bus, rs, b);
  }

  lemma BytesOne(x: Latch)
    ensures Bytes([x]) == [TransferOf(x.rs, ByteValue(x.lines))]
  {
    assert [x][1..] == [];
  }

  lemma PairsTwo(x: Latch, y: Latch)
    ensures Pairs([x, y]) == [TransferOf(x.rs, (NibbleValue(x.lines) << 4) | NibbleValue(y.lines))]
  {
    assert [x, y][2..] == [];
  }

  lemma EightBitReceived(bus: Bus, rs: bool, b: bv8)
    requires |bus.lines| == 8
    ensures Delivers(EightBit, bus, ByteWrites(EightBit, rs, b), [TransferOf(rs, b)])
  {
    var lines := Set4(Set4(bus.lines, 0, LowBits(b)), 4, HighBits(b));
    EightBitRun(bus, rs, b);
    BytesOne(Latch(rs, lines));
    ByteValueOfBits(b, bus.lines);
  }

  lemma FourBitReceived(bus: Bus, rs: bool, b: bv8)
    requires |bus.lines| == 8
    ensures Delivers(FourBit, bus, ByteWrites(FourBit, rs, b), [TransferOf(rs, b)])
  {
    var first := Set4(bus.lines, 4, HighBits(b));
    var second := Set4(first, 4, LowBits(b));
    FourBitRun(bus, rs, b);
    PairsTwo(Latch(rs, first), Latch(rs, second));
    NibblesJoin(b, bus.lines, first);
  }

  /** The characters of a string, each received as a character transfer, in order. */
  function Chars(s: seq<bv8>, n: nat): (r: seq<Transfer>)
    requires n <= |s|
    ensures |r| == n && forall i :: 0 <= i < n ==> r[i] == Char(s[i])
  {
    seq(n, i requires 0 <= i < n => Char(s[i]))
  }

  /** Sending s[0 .. n-1] delivers exactly those characters, in order. */
  lemma {:induction false} StringReceived(mode: BusMode, bus: Bus, s: seq<bv8>, n: nat)
    requires |bus.lines| == 8 && n <= |s|
    ensures Delivers(mode, bus, StringWrites(mode, s, n), Chars(s, n))
  {
    if n == 0 {
      assert Chars(s, 0) == [];
    } else {
      StringReceived(mode, bus, s, n - 1);
      StringStep(mode, bus, s, n);
    }
  }

  /** One more character: if the first n-1 are delivered, sending the n-th delivers it after them. */
  lemma StringStep(mode: BusMode, bus: Bus, s: seq<bv8>, n: nat)
    requires |bus.lines| == 8 && 0 < n <= |s|
    requires Delivers(mode, bus, StringWrites(mode, s, n - 1), Chars(s, n - 1))
    ensures Delivers(mode, bus, StringWrites(mode, s, n), Chars(s, n))
  {
    var prefix := StringWrites(mode, s, n - 1);
    var mid := Run(bus, prefix).bus;
    assert |mid.lines| == 8;
    ByteReceived(mode, mid, true, s[n - 1]);
    DeliversAppend(mode, bus, prefix, ByteWrites(mode, true, s[n - 1]), Chars(s, n - 1), [Char(s[n - 1])]);
    CharsSnoc(s, n);
  }

  lemma CharsSnoc(s: seq<bv8>, n: nat)
    requires 0 < n <= |s|
    ensures Chars(s, n) == Chars(s, n - 1) + [Char(s[n - 1])]
  {
    var a := Chars(s, n);
    var b := Chars(s, n - 1) + [Char(s[n - 1])];
    assert |a| == |b|;
    assert forall i :: 0 <= i < n ==> a[i] == b[i];
  }

  // ---------------------------------------------------------------------------
  // The driver
  // ---------------------------------------------------------------------------

  /** Pin configuration of every LCD line: push-pull output at 10 MHz. */
  const OUTPUT_CONFIG: bv32 := Gpio.ConfigNibble(Gpio.MODE_OUTPUT_PP, Gpio.SPEED_10M)

  /** Every pin of `pins` is configured as an LCD output in the given CRL/CRH. */
  predicate Outputs(crl: bv32, crh: bv32, pins: set<bv32>) {
    forall q :: q in pins ==> Gpio.IsPin(q) && Gpio.PinConfig(crl, crh, q) == OUTPUT_CONFIG
  }

  /** The four data pins from D`first` on. */
  function LinePins(c: LcdConfig, first: nat): set<bv32>
    requires first + 4 <= |c.dataPins|
  {
    {c.dataPins[first], c.dataPins[first + 1], c.dataPins[first + 2], c.dataPins[first + 3]}
  }

  /** The pins LCD_GPIO_Init configures: RS, EN, D0..D3 in 8-bit mode only, and D4..D7. */
  function UsedPins(c: LcdConfig): set<bv32>
    requires |c.dataPins| == 8
  {
    {c.rsPin, c.enPin} + (if c.mode == EightBit then LinePins(c, 0) else {}) + LinePins(c, 4)
  }

  /** Configures one pin as an output; pins that already were outputs stay so, and every other pin keeps its configuration. */
  method InitOutput(port: Gpio.GpioPort, pin: bv32, ghost done: set<bv32>)
    requires Gpio.IsPin(pin) && Outputs(port.CRL, port.CRH, done)
    modifies port
    ensures Outputs(port.CRL, port.CRH, done + {pin})
    ensures Gpio.KeptOutside(old(port.CRL), old(port.CRH), port.CRL, port.CRH, {pin})
    ensures port.ODR == old(port.ODR)
    ensures port.writes == old(port.writes)
  {
    ghost var crl, crh := port.CRL, port.CRH;
    port.Init(pin, Gpio.MODE_OUTPUT_PP, Gpio.SPEED_10M);
    forall q | Gpio.IsPin(q)
      ensures q == pin ==> Gpio.PinConfig(port.CRL, port.CRH, q) == OUTPUT_CONFIG
      ensures q != pin ==> Gpio.PinConfig(port.CRL, port.CRH, q) == Gpio.PinConfig(crl, crh, q)
    {
      Gpio.ConfigAfterInit(crl, crh, pin, OUTPUT_CONFIG, q);
    }
  }

  /** Two pins become outputs, one after the other; every pin but these two keeps its configuration. */
  method InitPair(port: Gpio.GpioPort, p: bv32, q: bv32, ghost done: set<bv32>)
    requires Gpio.IsPin(p) && Gpio.IsPin(q) && Outputs(port.CRL, port.CRH, done)
    modifies port
    ensures Outputs(port.CRL, port.CRH, done + {p, q})
    ensures Gpio.KeptOutside(old(port.CRL), old(port.CRH), port.CRL, port.CRH, {p, q})
    ensures port.ODR == old(port.ODR)
    ensures port.writes == old(port.writes)
  {
    ghost var l0, h0 := port.CRL, port.CRH;
    InitOutput(port, p, done);
    ghost var l1, h1 := port.CRL, port.CRH;
    InitOutput(port, q, done + {p});
    Gpio.KeptOutsideTrans(l0, h0, l1, h1, port.CRL, port.CRH, {p}, {q});
    assert done + {p} + {q} == done + {p, q};
    assert {p} + {q} == {p, q};
  }

  /** Four consecutive data pins from D`first` on become outputs. */
  method InitLines(c: LcdConfig, first: nat, ghost done: set<bv32>)
    requires |c.dataPins| == 8 && first + 4 <= 8
    requires forall i :: first <= i < first + 4 ==> Gpio.IsPin(c.dataPins[i])
    requires Outputs(c.port.CRL, c.port.CRH, done)
    modifies c.port
    ensures Outputs(c.port.CRL, c.port.CRH, done + LinePins(c, first))
    ensures Gpio.KeptOutside(old(c.port.CRL), old(c.port.CRH), c.port.CRL, c.port.CRH, LinePins(c, first))
    ensures c.port.ODR == old(c.port.ODR)
    ensures c.port.writes == old(c.port.writes)
  {
    var d := c.dataPins;
    ghost var l0, h0 := c.port.CRL, c.port.CRH;
    InitPair(c.port, d[first], d[first + 1], done);
    ghost var l1, h1 := c.port.CRL, c.port.CRH;
    InitPair(c.port, d[first + 2], d[first + 3], done + {d[first], d[first + 1]});
    Gpio.KeptOutsideTrans(l0, h0, l1, h1, c.port.CRL, c.port.CRH, {d[first], d[first + 1]}, {d[first + 2], d[first + 3]});
    assert {d[first], d[first + 1]} + {d[first + 2], d[first + 3]} == LinePins(c, first);
  }

  /**
   * LCD_GPIO_Init: RS, EN, D0..D3 in 8-bit mode, and D4..D7 become outputs. The
   * port's other pins (the keypad's, on a shared port) keep their configuration.
   */
  method GpioInit(c: LcdConfig)
    requires ValidConfig(c)
    modifies c.port
    ensures Outputs(c.port.CRL, c.port.CRH, UsedPins(c))
    ensures Gpio.KeptOutside(old(c.port.CRL), old(c.port.CRH), c.port.CRL, c.port.CRH, UsedPins(c))
    ensures c.port.ODR == old(c.port.ODR)
    ensures c.port.writes == old(c.port.writes)
  {
    ghost var l0, h0 := c.port.CRL, c.port.CRH;
    InitPair(c.port, c.rsPin, c.enPin, {});
    ghost var done: set<bv32> := {c.rsPin, c.enPin};
    if c.mode == EightBit {
      ghost var l1, h1 := c.port.CRL, c.port.CRH;
      InitLines(c, 0, done);
      Gpio.KeptOutsideTrans(l0, h0, l1, h1, c.port.CRL, c.port.CRH, done, LinePins(c, 0));
      done := done + LinePins(c, 0);
    }
    ghost var l2, h2 := c.port.CRL, c.port.CRH;
    InitLines(c, 4, done);
    Gpio.KeptOutsideTrans(l0, h0, l2, h2, c.port.CRL, c.port.CRH, done, LinePins(c, 4));
    assert done + LinePins(c, 4) == UsedPins(c);
  }

  /** The OR of a sequence of pin masks. */
  function DataMask(pins: seq<bv32>): bv32
    decreases |pins|
  {
    if |pins| == 0 then 0 else pins[0] | DataMask(pins[1..])
  }

  /** Every pin of the sequence lies inside its mask. */
  lemma {:induction false} DataMaskHas(pins: seq<bv32>, i: nat)
    requires i < |pins|
    decreases i
    ensures pins[i] & !DataMask(pins) == 0
  {
    if i > 0 {
      DataMaskHas(pins[1..], i - 1);
    }
  }

  /** Every ODR bit the LCD drives: RS, EN and the eight data pins. */
  function LcdMask(c: LcdConfig): bv32 {
    c.rsPin | c.enPin | DataMask(c.dataPins)
  }

  /** Each controller input is wired to a pin inside the LCD's mask. */
  lemma PinInMask(c: LcdConfig, s: Signal)
    ensures PinOf(c, s) & !LcdMask(c) == 0
  {
    if s.D? && s.n < |c.dataPins| {
      DataMaskHas(c.dataPins, s.n);
    }
  }

  /** A write onto any LCD input leaves the ODR bits outside the LCD's pins alone. */
  lemma LineWriteKeepsOthers(c: LcdConfig, s: Signal, odr: bv32, odr': bv32, high: bool)
    requires odr' == Gpio.Written(odr, PinOf(c, s), high)
    ensures Gpio.OdrKept(odr, odr', LcdMask(c))
  {
    PinInMask(c, s);
    Gpio.WrittenKeepsOutside(odr, PinOf(c, s), high, LcdMask(c));
  }

  /** One MCAL_GPIO_WritePin onto an LCD input: only that pin's ODR bit may change. */
  method PutLine(c: LcdConfig, s: Signal, value: bv8)
    modifies c.port
    ensures c.port.writes == old(c.port.writes) + [Gpio.PinWrite(PinOf(c, s), value != 0)]
    ensures c.port.CRL == old(c.port.CRL) && c.port.CRH == old(c.port.CRH) && Gpio.OdrKept(old(c.port.ODR), c.port.ODR, LcdMask(c))
  {
    ghost var odr := c.port.ODR;
    var pin := PinOf(c, s);
    c.port.WritePin(pin, value);
    LineWriteKeepsOthers(c, s, odr, c.port.ODR, value != 0);
  }

  lemma AppendFour<T>(s: seq<T>, a: T, b: T, c: T, d: T)
    ensures s + [a] + [b] + [c] + [d] == s + [a, b, c, d]
  {
  }

  /** LCD_Send_Enable_Signal. */
  method SendEnableSignal(c: LcdConfig)
    modifies c.port
    ensures c.port.writes == old(c.port.writes) + OnPins(c, Pulse())
    ensures c.port.CRL == old(c.port.CRL) && c.port.CRH == old(c.port.CRH) && Gpio.OdrKept(old(c.port.ODR), c.port.ODR, LcdMask(c))
  {
    PutLine(c, EN, 1);
    PutLine(c, EN, 0);
    OnPinsEach(c, Pulse());
    assert OnPins(c, Pulse()) == [PinWriteOf(c, Pulse()[0]), PinWriteOf(c, Pulse()[1])];
  }

  /**
   * Four data writes of LCD_Send_Command / LCD_Send_Char: lines D`first` ..
   * D`first+3` get `b & mask` for the masks 0x10 .. 0x80 (high) or 0x01 .. 0x08.
   */
  method PutNibble(c: LcdConfig, first: nat, b: bv8, high: bool)
    modifies c.port
    ensures c.port.writes == old(c.port.writes) + OnPins(c, DataWrites(first, if high then HighBits(b) else LowBits(b)))
    ensures c.port.CRL == old(c.port.CRL) && c.port.CRH == old(c.port.CRH) && Gpio.OdrKept(old(c.port.ODR), c.port.ODR, LcdMask(c))
  {
    if high {
      PutFour(c, first, b, 0x10, 0x20, 0x40, 0x80);
    } else {
      PutFour(c, first, b, 0x01, 0x02, 0x04, 0x08);
    }
  }

  /** Four MCAL_GPIO_WritePin calls onto D`first` .. D`first+3`, each with `b` masked by its own bit. */
  method PutFour(c: LcdConfig, first: nat, b: bv8, m0: bv8, m1: bv8, m2: bv8, m3: bv8)
    modifies c.port
    ensures c.port.writes == old(c.port.writes) + OnPins(c, DataWrites(first, [Bit(b, m0), Bit(b, m1), Bit(b, m2), Bit(b, m3)]))
    ensures c.port.CRL == old(c.port.CRL) && c.port.CRH == old(c.port.CRH) && Gpio.OdrKept(old(c.port.ODR), c.port.ODR, LcdMask(c))
  {
    ghost var w := c.port.writes;
    PutFourLines(c, first, b & m0, b & m1, b & m2, b & m3);
    FourOnPins(c, first, [Bit(b, m0), Bit(b, m1), Bit(b, m2), Bit(b, m3)], w);
  }

  /** The four writes of PutFour, as pin writes onto the port. */
  method PutFourLines(c: LcdConfig, first: nat, v0: bv8, v1: bv8, v2: bv8, v3: bv8)
    modifies c.port
    ensures c.port.writes == old(c.port.writes) + [Gpio.PinWrite(PinOf(c, D(first)), v0 != 0),
      Gpio.PinWrite(PinOf(c, D(first + 1)), v1 != 0), Gpio.PinWrite(PinOf(c, D(first + 2)), v2 != 0),
      Gpio.PinWrite(PinOf(c, D(first + 3)), v3 != 0)]
    ensures c.port.CRL == old(c.port.CRL) && c.port.CRH == old(c.port.CRH) && Gpio.OdrKept(old(c.port.ODR), c.port.ODR, LcdMask(c))
  {
    ghost var o0 := c.port.ODR;
    PutLine(c, D(first), v0);
    ghost var o1 := c.port.ODR;
    PutLine(c, D(first + 1), v1);
    Gpio.OdrKeptTrans(o0, o1, c.port.ODR, LcdMask(c));
    ghost var o2 := c.port.ODR;
    PutLine(c, D(first + 2), v2);
    Gpio.OdrKeptTrans(o0, o2, c.port.ODR, LcdMask(c));
    ghost var o3 := c.port.ODR;
    PutLine(c, D(first + 3), v3);
    Gpio.OdrKeptTrans(o0, o3, c.port.ODR, LcdMask(c));
    AppendFour(old(c.port.writes), Gpio.PinWrite(PinOf(c, D(first)), v0 != 0),
      Gpio.PinWrite(PinOf(c, D(first + 1)), v1 != 0), Gpio.PinWrite(PinOf(c, D(first + 2)), v2 != 0),
      Gpio.PinWrite(PinOf(c, D(first + 3)), v3 != 0));
  }

  /** The pin writes of four data-line writes, one by one. */
  lemma FourOnPins(c: LcdConfig, first: nat, v: seq<bool>, w: seq<Gpio.PinWrite>)
    requires |v| == 4
    ensures w + OnPins(c, DataWrites(first, v)) == w + [Gpio.PinWrite(PinOf(c, D(first)), v[0]),
      Gpio.PinWrite(PinOf(c, D(first + 1)), v[1]), Gpio.PinWrite(PinOf(c, D(first + 2)), v[2]),
      Gpio.PinWrite(PinOf(c, D(first + 3)), v[3])]
  {
    OnPinsEach(c, DataWrites(first, v));
  }

  /** The data phase of LCD_Send_Command / LCD_Send_Char, by bus mode. */
  method PutData(c: LcdConfig, b: bv8)
    modifies c.port
    ensures c.port.writes == old(c.port.writes) + OnPins(c, DataPhase(c.mode, b))
    ensures c.port.CRL == old(c.port.CRL) && c.port.CRH == old(c.port.CRH) && Gpio.OdrKept(old(c.port.ODR), c.port.ODR, LcdMask(c))
  {
    match c.mode {
      case EightBit =>
        ghost var o := c.port.writes;
        PutNibble(c, 0, b, false);
        PutNibble(c, 4, b, true);
        TraceAppend(c, o, DataWrites(0, LowBits(b)), DataWrites(4, HighBits(b)));
      case FourBit =>
        ghost var o := c.port.writes;
        PutNibble(c, 4, b, true);
        SendEnableSignal(c);
        TraceAppend(c, o, DataWrites(4, HighBits(b)), Pulse());
        PutNibble(c, 4, b, false);
        TraceAppend(c, o, DataWrites(4, HighBits(b)) + Pulse(), DataWrites(4, LowBits(b)));
    }
  }

  /** Writes RS: GPIO_PIN_SET for a character, GPIO_PIN_RESET for a command. */
  method PutRs(c: LcdConfig, rs: bool)
    modifies c.port
    ensures c.port.writes == old(c.port.writes) + OnPins(c, [LineWrite(RS, rs)])
    ensures c.port.CRL == old(c.port.CRL) && c.port.CRH == old(c.port.CRH) && Gpio.OdrKept(old(c.port.ODR), c.port.ODR, LcdMask(c))
  {
    PutLine(c, RS, if rs then 1 else 0);
    OnPinsOne(c, LineWrite(RS, rs));
  }

  /** The body shared by LCD_Send_Command and LCD_Send_Char, which differ only in the RS level. */
  method SendByte(c: LcdConfig, rs: bool, b: bv8)
    modifies c.port
    ensures c.port.writes == old(c.port.writes) + OnPins(c, ByteWrites(c.mode, rs, b))
    ensures c.port.CRL == old(c.port.CRL) && c.port.CRH == old(c.port.CRH) && Gpio.OdrKept(old(c.port.ODR), c.port.ODR, LcdMask(c))
  {
    ghost var o := c.port.writes;
    PutRs(c, rs);
    PutData(c, b);
    TraceAppend(c, o, [LineWrite(RS, rs)], DataPhase(c.mode, b));
    SendEnableSignal(c);
    TraceAppend(c, o, [LineWrite(RS, rs)] + DataPhase(c.mode, b), Pulse());
  }

  /** LCD_Send_Command: RS low. */
  method SendCommand(c: LcdConfig, command: bv8)
    modifies c.port
    ensures c.port.writes == old(c.port.writes) + OnPins(c, ByteWrites(c.mode, false, command))
    ensures c.port.CRL == old(c.port.CRL) && c.port.CRH == old(c.port.CRH) && Gpio.OdrKept(old(c.port.ODR), c.port.ODR, LcdMask(c))
  {
    SendByte(c, false, command);
  }

  /** LCD_Send_Char: RS high. */
  method SendChar(c: LcdConfig, ch: bv8)
    modifies c.port
    ensures c.port.writes == old(c.port.writes) + OnPins(c, ByteWrites(c.mode, true, ch))
    ensures c.port.CRL == old(c.port.CRL) && c.port.CRH == old(c.port.CRH) && Gpio.OdrKept(old(c.port.ODR), c.port.ODR, LcdMask(c))
  {
    SendByte(c, true, ch);
  }

  /** LCD_Set_Cursor. */
  method SetCursor(c: LcdConfig, row: bv8, column: bv8)
    modifies c.port
    ensures c.port.writes == old(c.port.writes) + OnPins(c, ByteWrites(c.mode, false, CursorCommand(row, column)))
    ensures c.port.CRL == old(c.port.CRL) && c.port.CRH == old(c.port.CRH) && Gpio.OdrKept(old(c.port.ODR), c.port.ODR, LcdMask(c))
  {
    var col := column - 1;
    SendCommand(c, row + col);
  }

  /** LCD_Send_String: every character before the first NUL, in order. */
  method SendString(c: LcdConfig, s: seq<bv8>)
    requires Terminated(s)
    modifies c.port
    ensures c.port.writes == old(c.port.writes) + OnPins(c, StringWrites(c.mode, s, NulIndex(s)))
    ensures c.port.CRL == old(c.port.CRL) && c.port.CRH == old(c.port.CRH) && Gpio.OdrKept(old(c.port.ODR), c.port.ODR, LcdMask(c))
  {
    ghost var end := NulIndex(s);
    ghost var o := c.port.writes;
    var count := 0;
    while s[count] != 0
      invariant count <= end < |s| && s[end] == 0
      invariant c.port.writes == o + OnPins(c, StringWrites(c.mode, s, count))
      invariant c.port.CRL == old(c.port.CRL) && c.port.CRH == old(c.port.CRH) && Gpio.OdrKept(old(c.port.ODR), c.port.ODR, LcdMask(c))
      decreases end - count
    {
      SendNextChar(c, s, count, o);
      count := count + 1;
    }
    assert count == end;
  }

  /** One pass of LCD_Send_String's loop: the trace of s[..n] grows into the trace of s[..n+1]. */
  method SendNextChar(c: LcdConfig, s: seq<bv8>, n: nat, ghost o: seq<Gpio.PinWrite>)
    requires n < |s|
    requires c.port.writes == o + OnPins(c, StringWrites(c.mode, s, n))
    modifies c.port
    ensures c.port.writes == o + OnPins(c, StringWrites(c.mode, s, n + 1))
    ensures c.port.CRL == old(c.port.CRL) && c.port.CRH == old(c.port.CRH) && Gpio.OdrKept(old(c.port.ODR), c.port.ODR, LcdMask(c))
  {
    SendChar(c, s[n]);
    TraceAppend(c, o, StringWrites(c.mode, s, n), ByteWrites(c.mode, true, s[n]));
  }

  /** LCD_Send_Char_Pos: the cursor command, then the character. */
  method SendCharPos(c: LcdConfig, ch: bv8, row: bv8, column: bv8)
    modifies c.port
    ensures c.port.writes == old(c.port.writes)
      + OnPins(c, ByteWrites(c.mode, false, CursorCommand(row, column)) + ByteWrites(c.mode, true, ch))
    ensures c.port.CRL == old(c.port.CRL) && c.port.CRH == old(c.port.CRH) && Gpio.OdrKept(old(c.port.ODR), c.port.ODR, LcdMask(c))
  {
    SetCursor(c, row, column);
    SendChar(c, ch);
    TraceAppend(c, old(c.port.writes), ByteWrites(c.mode, false, CursorCommand(row, column)), ByteWrites(c.mode, true, ch));
  }

  /** LCD_Send_string_Pos: the cursor command, then the string. */
  method SendStringPos(c: LcdConfig, s: seq<bv8>, row: bv8, column: bv8)
    requires Terminated(s)
    modifies c.port
    ensures c.port.writes == old(c.port.writes)
      + OnPins(c, ByteWrites(c.mode, false, CursorCommand(row, column)) + StringWrites(c.mode, s, NulIndex(s)))
    ensures c.port.CRL == old(c.port.CRL) && c.port.CRH == old(c.port.CRH) && Gpio.OdrKept(old(c.port.ODR), c.port.ODR, LcdMask(c))
  {
    SetCursor(c, row, column);
    SendString(c, s);
    TraceAppend(c, old(c.port.writes), ByteWrites(c.mode, false, CursorCommand(row, column)), StringWrites(c.mode, s, NulIndex(s)));
  }

  /** The function set LCD_Init sends: 0x38 in 8-bit mode, 0x28 in 4-bit mode. */
  function FunctionSet(mode: BusMode): bv8 {
    match mode
    case EightBit => EIGHT_BIT_MODE_2_LINE
    case FourBit => FOUR_BIT_MODE_2_LINE
  }

  /**
   * What LCD_Init writes before the function set: nothing in 8-bit mode; in
   * 4-bit mode RS low, the upper half of 0x28 on D7..D4 and a pulse.
   */
  function Preamble(mode: BusMode): seq<LineWrite> {
    match mode
    case EightBit => []
    case FourBit => [LineWrite(RS, false)] + DataWrites(4, HighBits(FOUR_BIT_MODE_2_LINE)) + Pulse()
  }

  /** The commands of LCD_Init, in order. */
  function InitCommands(c: LcdConfig): seq<bv8> {
    [FunctionSet(c.mode), c.displayMode, CLEAR_DISPLAY, c.entryMode]
  }

  /** The write sequence of LCD_Init after the pins are configured. */
  function InitWrites(c: LcdConfig): seq<LineWrite> {
    Preamble(c.mode) + CommandWrites(c.mode, InitCommands(c))
  }

  /** The commands `cmds` sent one after another. */
  function CommandWrites(mode: BusMode, cmds: seq<bv8>): seq<LineWrite>
    decreases |cmds|
  {
    if |cmds| == 0 then [] else CommandWrites(mode, cmds[..|cmds| - 1]) + ByteWrites(mode, false, cmds[|cmds| - 1])
  }

  /** The commands of a sequence, each received as a command transfer. */
  function Commands(cmds: seq<bv8>): (r: seq<Transfer>)
    ensures |r| == |cmds| && forall i :: 0 <= i < |cmds| ==> r[i] == Command(cmds[i])
  {
    seq(|cmds|, i requires 0 <= i < |cmds| => Command(cmds[i]))
  }

  /** Sending a sequence of commands delivers exactly those commands, in order. */
  lemma {:induction false} CommandsReceived(mode: BusMode, bus: Bus, cmds: seq<bv8>)
    requires |bus.lines| == 8
    decreases |cmds|
    ensures Delivers(mode, bus, CommandWrites(mode, cmds), Commands(cmds))
  {
    if |cmds| == 0 {
      assert Commands(cmds) == [];
    } else {
      var front := cmds[..|cmds| - 1];
      var prefix := CommandWrites(mode, front);
      CommandsReceived(mode, bus, front);
      ByteReceived(mode, Run(bus, prefix).bus, false, cmds[|cmds| - 1]);
      DeliversAppend(mode, bus, prefix, ByteWrites(mode, false, cmds[|cmds| - 1]), Commands(front), [Command(cmds[|cmds| - 1])]);
      assert Commands(cmds) == Commands(front) + [Command(cmds[|cmds| - 1])];
    }
  }

  /** The 4-bit preamble latches one sample, with RS low and 0x2 on D7..D4, and leaves EN low. */
  lemma PreambleRun(bus: Bus)
    requires |bus.lines| == 8
    ensures var o := Run(bus, Preamble(FourBit));
      |o.latched| == 1 && !o.latched[0].rs && NibbleValue(o.latched[0].lines) == 0x2 && |o.bus.lines| == 8
  {
    var nibble := HighBits(FOUR_BIT_MODE_2_LINE);
    var b0 := bus.(rs := false);
    var b1 := b0.(lines := Set4(b0.lines, 4, nibble));
    RunRs(bus, false);
    RunData(b0, 4, nibble);
    RunPulse(b1);
    RunThen(bus, [LineWrite(RS, false)], DataWrites(4, nibble), Outcome(b0, []), Outcome(b1, []));
    RunThen(bus, [LineWrite(RS, false)] + DataWrites(4, nibble), Pulse(),
      Outcome(b1, []), Outcome(b1.(en := false), [Latch(false, b1.lines)]));
    NibbleOfHighBits(b0.lines);
  }

  /** 0x28's upper nibble on D7..D4 reads back as 0x2. */
  lemma NibbleOfHighBits(lines: seq<bool>)
    requires |lines| == 8
    ensures NibbleValue(Set4(lines, 4, HighBits(FOUR_BIT_MODE_2_LINE))) == 0x2
  {
    var l := Set4(lines, 4, HighBits(FOUR_BIT_MODE_2_LINE));
    assert !l[4] && l[5] && !l[6] && !l[7];
  }

  /**
   * What LCD_Init tells the controller: in 8-bit mode the function set 0x38,
   * the display mode, clear display and the entry mode; in 4-bit mode first a
   * lone sample with RS low and 0x2 on D7..D4 (the upper half of 0x28, which
   * switches the controller to 4-bit transfers), then the function set 0x28
   * and the same three commands.
   */
  lemma InitReceived(c: LcdConfig, bus: Bus)
    requires |bus.lines| == 8
    ensures var l := Run(bus, InitWrites(c)).latched;
      match c.mode
      case EightBit => Received(EightBit, l) == Commands(InitCommands(c))
      case FourBit =>
        |l| > 0 && !l[0].rs && NibbleValue(l[0].lines) == 0x2
        && Received(FourBit, l[1..]) == Commands(InitCommands(c))
  {
    var pre := Run(bus, Preamble(c.mode));
    var cmds := CommandWrites(c.mode, InitCommands(c));
    var rest := Run(pre.bus, cmds);
    match c.mode {
      case EightBit =>
        assert InitWrites(c) == cmds;
        CommandsReceived(c.mode, bus, InitCommands(c));
      case FourBit =>
        PreambleRun(bus);
        CommandsReceived(c.mode, pre.bus, InitCommands(c));
        RunThen(bus, Preamble(c.mode), cmds, pre, rest);
        assert Run(bus, InitWrites(c)).latched[1..] == rest.latched;
    }
  }

  /** Writes the 4-bit preamble of LCD_Init: RS low, the upper half of 0x28, a pulse. */
  method SendPreamble(c: LcdConfig)
    requires c.mode == FourBit
    modifies c.port
    ensures c.port.writes == old(c.port.writes) + OnPins(c, Preamble(c.mode))
    ensures c.port.CRL == old(c.port.CRL) && c.port.CRH == old(c.port.CRH) && Gpio.OdrKept(old(c.port.ODR), c.port.ODR, LcdMask(c))
  {
    ghost var o := c.port.writes;
    ghost var nibble := DataWrites(4, HighBits(FOUR_BIT_MODE_2_LINE));
    PutRs(c, false);
    PutNibble(c, 4, FOUR_BIT_MODE_2_LINE, true);
    TraceAppend(c, o, [LineWrite(RS, false)], nibble);
    SendEnableSignal(c);
    TraceAppend(c, o, [LineWrite(RS, false)] + nibble, Pulse());
  }

  /** Sends commands one after another with LCD_Send_Command. */
  method SendCommands(c: LcdConfig, cmds: seq<bv8>)
    modifies c.port
    ensures c.port.writes == old(c.port.writes) + OnPins(c, CommandWrites(c.mode, cmds))
    ensures c.port.CRL == old(c.port.CRL) && c.port.CRH == old(c.port.CRH) && Gpio.OdrKept(old(c.port.ODR), c.port.ODR, LcdMask(c))
  {
    var i := 0;
    while i < |cmds|
      invariant i <= |cmds|
      invariant c.port.writes == old(c.port.writes) + OnPins(c, CommandWrites(c.mode, cmds[..i]))
      invariant c.port.CRL == old(c.port.CRL) && c.port.CRH == old(c.port.CRH) && Gpio.OdrKept(old(c.port.ODR), c.port.ODR, LcdMask(c))
    {
      SendNext(c, cmds, i, old(c.port.writes));
      i := i + 1;
    }
    assert cmds[..i] == cmds;
  }

  /** One pass of SendCommands: the trace of cmds[..i] grows into the trace of cmds[..i+1]. */
  method SendNext(c: LcdConfig, cmds: seq<bv8>, i: nat, ghost o: seq<Gpio.PinWrite>)
    requires i < |cmds|
    requires c.port.writes == o + OnPins(c, CommandWrites(c.mode, cmds[..i]))
    modifies c.port
    ensures c.port.writes == o + OnPins(c, CommandWrites(c.mode, cmds[..i + 1]))
    ensures c.port.CRL == old(c.port.CRL) && c.port.CRH == old(c.port.CRH) && Gpio.OdrKept(old(c.port.ODR), c.port.ODR, LcdMask(c))
  {
    SendCommand(c, cmds[i]);
    CommandWritesSnoc(c.mode, cmds, i);
    TraceAppend(c, o, CommandWrites(c.mode, cmds[..i]), ByteWrites(c.mode, false, cmds[i]));
  }

  lemma CommandWritesSnoc(mode: BusMode, cmds: seq<bv8>, i: nat)
    requires i < |cmds|
    ensures CommandWrites(mode, cmds[..i + 1]) == CommandWrites(mode, cmds[..i]) + ByteWrites(mode, false, cmds[i])
  {
    assert cmds[..i + 1][..i] == cmds[..i];
  }

  /**
   * LCD_Init: configure the pins, then in 4-bit mode the preamble, then the
   * function set, the display mode, clear display and the entry mode.
   */
  method Init(c: LcdConfig)
    requires ValidConfig(c)
    modifies c.port
    ensures Outputs(c.port.CRL, c.port.CRH, UsedPins(c))
    ensures Gpio.KeptOutside(old(c.port.CRL), old(c.port.CRH), c.port.CRL, c.port.CRH, UsedPins(c))
    ensures Gpio.OdrKept(old(c.port.ODR), c.port.ODR, LcdMask(c))
    ensures c.port.writes == old(c.port.writes) + OnPins(c, InitWrites(c))
  {
    GpioInit(c);
    SendInitWrites(c, InitCommands(c));
  }

  /** The preamble of LCD_Init: sent in 4-bit mode, nothing in 8-bit mode. */
  method SendModePreamble(c: LcdConfig)
    modifies c.port
    ensures c.port.writes == old(c.port.writes) + OnPins(c, Preamble(c.mode))
    ensures c.port.CRL == old(c.port.CRL) && c.port.CRH == old(c.port.CRH) && Gpio.OdrKept(old(c.port.ODR), c.port.ODR, LcdMask(c))
  {
    if c.mode == FourBit {
      SendPreamble(c);
    } else {
      assert OnPins(c, Preamble(c.mode)) == [];
    }
  }

  /** The part of LCD_Init after LCD_GPIO_Init: the preamble in 4-bit mode, then the commands `cmds`. */
  method SendInitWrites(c: LcdConfig, cmds: seq<bv8>)
    modifies c.port
    ensures c.port.writes == old(c.port.writes) + OnPins(c, Preamble(c.mode) + CommandWrites(c.mode, cmds))
    ensures c.port.CRL == old(c.port.CRL) && c.port.CRH == old(c.port.CRH) && Gpio.OdrKept(old(c.port.ODR), c.port.ODR, LcdMask(c))
  {
    ghost var o := c.port.writes;
    SendModePreamble(c);
    ghost var odr := c.port.ODR;
    SendCommands(c, cmds);
    Gpio.OdrKeptTrans(old(c.port.ODR), odr, c.port.ODR, LcdMask(c));
    TraceAppend(c, o, Preamble(c.mode), CommandWrites(c.mode, cmds));
  }
}
