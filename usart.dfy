/*
 * MCAL/USART_driver.c: asynchronous USART1..3 driver.
 *
 * The three USART register blocks are objects of class UsartPort; entry i of the
 * driver's file-scope configuration table Global_USART_cfg is the `config` field of
 * the port of USART(i+1). Class UsartDriver holds the three ports together with the
 * RCC, NVIC and GPIO register blocks the driver calls into. Busy-waits on status flags (TXE, TC) are taken as finished; the
 * RXNE wait ends when the line delivers the next frame, modelled by the queue
 * `incoming` of each port. The baud-rate divisor is computed with the driver's
 * own 32-bit integer formula, wrap-around written out.
 */
module Usart {
  import opened Wrappers
  import opened CString
  import Rcc
  import Nvic
  import Gpio

  // UART_Mode_define
  const MODE_RX: bv32 := 0x4
  const MODE_TX: bv32 := 0x8
  const MODE_TX_RX: bv32 := 0xC
  // UART_Payload_Length_define
  const PAYLOAD_8B: bv32 := 0
  const PAYLOAD_9B: bv32 := 0x1000
  // UART_Parity_define
  const PARITY_NONE: bv32 := 0
  const PARITY_EVEN: bv32 := 0x400
  const PARITY_ODD: bv32 := 0x600
  // UART_StopBits_define
  const STOP_HALF: bv32 := 0x1000
  const STOP_1: bv32 := 0
  const STOP_1_HALF: bv32 := 0x3000
  const STOP_2: bv32 := 0x2000
  // UART_HwFlowCtl_define
  const FLOW_NONE: bv32 := 0
  const FLOW_RTS: bv32 := 0x100
  const FLOW_CTS: bv32 := 0x200
  const FLOW_RTS_CTS: bv32 := 0x300
  // UART_IRQ_Enable_define
  const IRQ_NONE: bv32 := 0
  const IRQ_TXE: bv32 := 0x80
  const IRQ_TC: bv32 := 0x40
  const IRQ_RXNE: bv32 := 0x20
  const IRQ_PE: bv32 := 0x100
  /** CR1.UE, USART enable. */
  const CR1_UE: bv32 := 0x2000

  const U32: int := 0x1_0000_0000
  const CARRIAGE_RETURN: bv16 := 0x0D

  /** One of the three USART instances; the driver ignores any other base address. */
  datatype Instance = USART1 | USART2 | USART3

  /**
   * USART_cfg_t, with every field wide enough for the constants it is meant to hold
   * (see UsartConfigAsWritten for the struct as declared). The callback is an opaque
   * function identity; None is the NULL pointer.
   */
  datatype UsartConfig = UsartConfig(
    mode: bv32,
    baudRate: nat,
    payloadLength: bv32,
    parity: bv32,
    stopBits: bv32,
    hwFlowCtl: bv32,
    irqEnable: bv32,
    callback: Option<nat>)

  /** A zero-initialised static USART_cfg_t. */
  const EMPTY_CONFIG: UsartConfig := UsartConfig(0, 0, 0, 0, 0, 0, 0, None)

  /** The baud rates of UART_BaudRate_define, the only values the driver accepts. */
  predicate IsBaudRate(baud: nat) {
    baud == 2400 || baud == 9600 || baud == 19200 || baud == 57600 || baud == 115200 ||
    baud == 230400 || baud == 460800 || baud == 921600 || baud == 2250000 || baud == 4500000
  }

  /** The RCC peripheral id of the instance. */
  function ClockId(inst: Instance): (id: bv8)
    ensures Rcc.EnableTarget(id).Some? && Rcc.ResetTarget(id).Some?
  {
    match inst
    case USART1 => Rcc.RCC_USART1
    case USART2 => Rcc.RCC_USART2
    case USART3 => Rcc.RCC_USART3
  }

  /** The NVIC line of the instance. */
  function IrqOf(inst: Instance): (irqn: bv8)
    ensures irqn < Nvic.IP_SLOTS
  {
    match inst
    case USART1 => Nvic.USART1_IRQ
    case USART2 => Nvic.USART2_IRQ
    case USART3 => Nvic.USART3_IRQ
  }

  /** The RCC id of the GPIO port the instance's pins live on (GPIOB for USART3). */
  function PinClockId(inst: Instance): (id: bv8)
    ensures Rcc.EnableTarget(id).Some?
  {
    if inst == USART3 then Rcc.RCC_GPIOB else Rcc.RCC_GPIOA
  }

  /** The TX, RX, CTS and RTS pins of an instance. */
  datatype Pins = Pins(tx: bv32, rx: bv32, cts: bv32, rts: bv32)

  /** Four distinct single pins. */
  predicate ValidPins(p: Pins) {
    Gpio.IsPin(p.tx) && Gpio.IsPin(p.rx) && Gpio.IsPin(p.cts) && Gpio.IsPin(p.rts) &&
    p.tx != p.rx && p.tx != p.cts && p.tx != p.rts && p.rx != p.cts && p.rx != p.rts && p.cts != p.rts
  }

  function PinsOf(inst: Instance): (p: Pins)
    ensures ValidPins(p)
  {
    match inst
    case USART1 => Pins(0x0200, 0x0400, 0x0800, 0x1000)   // PA9, PA10, PA11, PA12
    case USART2 => Pins(0x0004, 0x0008, 0x0001, 0x0002)   // PA2, PA3, PA0, PA1
    case USART3 => Pins(0x0400, 0x0800, 0x2000, 0x4000)   // PB10, PB11, PB13, PB14
  }

  /** The CTS pin is configured for CTS and for RTS_CTS flow control. */
  predicate UsesCts(flow: bv32) {
    flow == FLOW_CTS || flow == FLOW_RTS_CTS
  }

  /** The RTS pin is configured for RTS and for RTS_CTS flow control. */
  predicate UsesRts(flow: bv32) {
    flow == FLOW_RTS || flow == FLOW_RTS_CTS
  }

  // ---------------------------------------------------------------------------
  // Baud rate register (UART_BRR_REGISTER)
  // ---------------------------------------------------------------------------

  /** uint32 arithmetic: reduce modulo 2^32. */
  function Wrap(x: int): (r: int)
    ensures 0 <= r < U32
  {
    x % U32
  }

  /** USARTDIV: the integer part pclk / (16 * baud). */
  function Mantissa(pclk: nat, baud: nat): int
    requires baud > 0
  {
    pclk / (16 * baud)
  }

  /** USARTDIV_MUL100: 100 * pclk / (16 * baud), computed as 25 * pclk / (4 * baud). */
  function Hundredths(pclk: nat, baud: nat): int
    requires baud > 0
  {
    (25 * pclk) / (4 * baud)
  }

  /** DIV_FRACTION without wrap-around: the hundredths beyond the mantissa, scaled to sixteenths. */
  function Fraction(pclk: nat, baud: nat): int
    requires baud > 0
  {
    ((Hundredths(pclk, baud) - 100 * Mantissa(pclk, baud)) * 16) / 100
  }

  /** UART_BRR_REGISTER given MANTISSA and USARTDIV_MUL100, every step in uint32. */
  function BrrFromParts(mantissa: int, mul100: int): int {
    var fraction := Wrap(Wrap(mul100 - Wrap(mantissa * 100)) * 16) / 100;
    Wrap(Wrap(mantissa * 16) + fraction % 16)
  }

  /** UART_BRR_REGISTER(pclk, baud), with the uint32 products of the macros. */
  function BrrValue(pclk: nat, baud: nat): int
    requires pclk < U32 && 0 < baud < 0x1000_0000
  {
    BrrFromParts(Mantissa(pclk, baud), Wrap(25 * pclk) / (4 * baud))
  }

  /** The BRR register value. */
  function BrrRegister(pclk: nat, baud: nat): bv32
    requires pclk < U32 && 0 < baud < 0x1000_0000
  {
    BrrValue(pclk, baud) as bv32
  }

  lemma MulMono(d: int, a: int, b: int)
    requires d >= 0 && a <= b
    ensures d * a <= d * b
  {
  }

  lemma DivLowerBound(x: int, d: int, k: int)
    requires d > 0 && d * k <= x
    ensures k <= x / d
  {
    var q := x / d;
    assert x == d * q + x % d;
    if q < k {
      MulMono(d, q, k - 1);
    }
  }

  lemma DivUpperBound(x: int, d: int, k: int)
    requires d > 0 && x < d * k
    ensures x / d < k
  {
    var q := x / d;
    assert x == d * q + x % d;
    if q >= k {
      MulMono(d, k, q);
    }
  }

  /** x / d brackets x between two consecutive multiples of d. */
  lemma DivBracket(x: int, d: int)
    requires d > 0
    ensures d * (x / d) <= x < d * (x / d) + d
  {
  }

  lemma DivAtMost(x: nat, d: nat)
    requires d > 0
    ensures 0 <= x / d <= x
  {
    DivBracket(x, d);
    MulMono(x / d, 1, d);
  }

  /** When nothing wraps, BrrFromParts is 16 * mantissa plus the fraction. */
  lemma BrrFromPartsNoWrap(m: int, d: int)
    requires 0 <= 100 * m <= d < 100 * m + 100 && d < U32
    ensures 0 <= ((d - 100 * m) * 16) / 100 < 16
    ensures BrrFromParts(m, d) == 16 * m + ((d - 100 * m) * 16) / 100
  {
    var f := ((d - 100 * m) * 16) / 100;
    assert Wrap(m * 100) == 100 * m;
    assert Wrap(d - 100 * m) == d - 100 * m;
    assert Wrap((d - 100 * m) * 16) == (d - 100 * m) * 16;
    assert f % 16 == f;
    assert Wrap(m * 16) == 16 * m;
  }

  /** The mantissa times 100 and USARTDIV_MUL100 differ by less than 100. */
  lemma HundredthsBracket(pclk: nat, baud: nat)
    requires baud > 0
    ensures 100 * Mantissa(pclk, baud) <= Hundredths(pclk, baud) < 100 * Mantissa(pclk, baud) + 100
  {
    var m := pclk / (16 * baud);
    DivBracket(pclk, 16 * baud);
    var bm := baud * m;
    assert 16 * baud * m == 16 * bm;
    assert 16 * bm <= pclk < 16 * bm + 16 * baud;
    assert 4 * baud * (100 * m) == 400 * bm;
    DivLowerBound(25 * pclk, 4 * baud, 100 * m);
    assert 4 * baud * (100 * m + 100) == 400 * bm + 400 * baud;
    DivUpperBound(25 * pclk, 4 * baud, 100 * m + 100);
  }

  /**
   * For every bus clock the RCC can report (25 * pclk fits in 32 bits) no step of
   * UART_BRR_REGISTER wraps: BRR holds the mantissa in bits 4 and up and a fraction
   * of 0..15 sixteenths below it.
   */
  lemma BrrNoOverflow(pclk: nat, baud: nat)
    requires 0 < baud < 0x1000_0000 && 25 * pclk < U32
    ensures 0 <= Fraction(pclk, baud) < 16
    ensures BrrValue(pclk, baud) == 16 * Mantissa(pclk, baud) + Fraction(pclk, baud)
  {
    HundredthsBracket(pclk, baud);
    DivAtMost(25 * pclk, 4 * baud);
    DivAtMost(pclk, 16 * baud);
    var m := Mantissa(pclk, baud);
    var d := Hundredths(pclk, baud);
    assert Wrap(25 * pclk) == 25 * pclk;
    assert BrrValue(pclk, baud) == BrrFromParts(m, d);
    BrrFromPartsNoWrap(m, d);
  }

  /** (x - 100 * k) / 100 == x / 100 - k. */
  lemma DivShift(x: int, k: int)
    ensures (x - 100 * k) / 100 == x / 100 - k
  {
    var q := x / 100;
    DivBracket(x, 100);
    DivLowerBound(x - 100 * k, 100, q - k);
    DivUpperBound(x - 100 * k, 100, q - k + 1);
  }

  /** Without wrap-around, BRR is USARTDIV_MUL100 scaled from hundredths to sixteenths, rounded down. */
  lemma BrrIsScaledHundredths(pclk: nat, baud: nat)
    requires 0 < baud < 0x1000_0000 && 25 * pclk < U32
    ensures BrrValue(pclk, baud) == (16 * Hundredths(pclk, baud)) / 100
  {
    BrrNoOverflow(pclk, baud);
    var m := Mantissa(pclk, baud);
    var d := Hundredths(pclk, baud);
    assert (d - 100 * m) * 16 == 16 * d - 100 * (16 * m);
    DivShift(16 * d, 16 * m);
  }

  /** The arithmetic behind BrrBounds: r sixteenth-steps of d hundredths of p / b. */
  lemma ScaledBounds(p: int, b: int, d: int, r: int)
    requires b > 0
    requires 100 * r <= 16 * d < 100 * r + 100
    requires (4 * b) * d <= 25 * p < (4 * b) * d + 4 * b
    ensures r * b <= p < (r + 2) * b
  {
    MulMono(b, 100 * r, 16 * d);
    assert b * (100 * r) == 100 * (r * b);
    assert b * (16 * d) == 4 * ((4 * b) * d);
    MulMono(b, 16 * d, 100 * r + 99);
    assert b * (100 * r + 99) == 100 * (r * b) + 99 * b;
    assert (r + 2) * b == r * b + 2 * b;
  }

  /**
   * The divisor BRR programs is pclk / baud rounded down to at most two steps:
   * baud * BRR <= pclk < baud * (BRR + 2). The USART then runs at pclk / BRR,
   * never slower than asked and less than two sixteenths of a bit fast.
   */
  lemma BrrBounds(pclk: nat, baud: nat)
    requires 0 < baud < 0x1000_0000 && 25 * pclk < U32
    ensures BrrValue(pclk, baud) * baud <= pclk < (BrrValue(pclk, baud) + 2) * baud
  {
    var d := Hundredths(pclk, baud);
    BrrIsScaledHundredths(pclk, baud);
    DivBracket(16 * d, 100);
    DivBracket(25 * pclk, 4 * baud);
    ScaledBounds(pclk, baud, d, BrrValue(pclk, baud));
  }

  /** BRR for the 8 MHz clock at the two rates the application uses. */
  lemma BrrWorkedValues()
    ensures BrrValue(8000000, 115200) == 0x45
    ensures BrrValue(8000000, 9600) == 0x341
  {
    BrrNoOverflow(8000000, 115200);
    assert Mantissa(8000000, 115200) == 4;
    assert Hundredths(8000000, 115200) == 434;
    BrrNoOverflow(8000000, 9600);
    assert Mantissa(8000000, 9600) == 52;
    assert Hundredths(8000000, 9600) == 5208;
  }

  /**
   * The bus clock MCAL_USART_Init programs BRR from: what MCAL_RCC_GetPCLK2Freq
   * (USART1) or MCAL_RCC_GetPCLK1Freq (USART2/3) report as written, which leave the
   * AHB prescaler out.
   */
  function BusClock(inst: Instance, cfgr: bv32): (pclk: nat)
    ensures 25 * pclk < U32
    ensures pclk <= Rcc.SysClkFreq(cfgr)
  {
    if inst == USART1 then Rcc.Pclk2FreqAsWritten(cfgr) else Rcc.Pclk1FreqAsWritten(cfgr)
  }

  /** While HPRE does not divide, the reported bus clock is the instance's real one. */
  lemma BusClockRealWithoutAhbDivision(inst: Instance, cfgr: bv32)
    requires Rcc.Hpre(cfgr) < 8
    ensures BusClock(inst, cfgr) == if inst == USART1 then Rcc.Pclk2Freq(cfgr) else Rcc.Pclk1Freq(cfgr)
  {
    Rcc.BusClocksAgreeWithoutAhbDivision(cfgr);
  }

  /**
   * With HSI and HPRE dividing by 2 (CFGR = 0x80), USART1 at 115200 baud gets the BRR
   * of an 8 MHz clock (0x45), while its real bus clock is 4 MHz.
   */
  lemma BrrIgnoresAhbDivision()
    ensures BusClock(USART1, 0x80) == 8000000
    ensures Rcc.Pclk2Freq(0x80) == 4000000
    ensures BrrValue(BusClock(USART1, 0x80), 115200) == 0x45
  {
    Rcc.HclkAsWrittenIgnoresDivideByTwo();
    assert Rcc.Ppre2(0x80) == 0;
    BrrWorkedValues();
  }

  // ---------------------------------------------------------------------------
  // Frames
  // ---------------------------------------------------------------------------

  /** The bits of DR that MCAL_USART_SendData keeps: nine for a 9-bit payload, else eight. */
  function TxMask(cfg: UsartConfig): bv16 {
    if cfg.payloadLength == PAYLOAD_9B then 0x1FF else 0xFF
  }

  /** What MCAL_USART_SendData writes to DR for the value `v`. */
  function TxFrame(cfg: UsartConfig, v: bv16): bv16 {
    v & TxMask(cfg)
  }

  /**
   * The data bits of a frame: the payload width less the parity bit, if any
   * (nine, eight or seven bits).
   */
  function DataMask(cfg: UsartConfig): bv16 {
    if cfg.payloadLength == PAYLOAD_9B then
      (if cfg.parity == PARITY_NONE then 0x1FF else 0xFF)
    else
      (if cfg.parity == PARITY_NONE then 0xFF else 0x7F)
  }

  /** What MCAL_USART_ReceiveData stores for DR = dr: all of DR for 9 bits without parity. */
  function Received(cfg: UsartConfig, dr: bv16): bv16 {
    if cfg.payloadLength == PAYLOAD_9B then
      (if cfg.parity == PARITY_NONE then dr else dr & 0xFF)
    else
      (if cfg.parity == PARITY_NONE then dr & 0xFF else dr & 0x7F)
  }

  /** The receiver keeps exactly the data bits of any frame the 9-bit DR can hold. */
  lemma ReceivedKeepsDataBits(cfg: UsartConfig, dr: bv16)
    requires dr < 0x200
    ensures Received(cfg, dr) == dr & DataMask(cfg)
  {
    if cfg.payloadLength == PAYLOAD_9B && cfg.parity == PARITY_NONE {
      assert dr == dr & 0x1FF;
    }
  }

  /**
   * Loopback: a value sent and received back under the same configuration
   * comes back as its data bits, and the data bits are never wider than what
   * the transmitter keeps.
   */
  lemma LoopbackKeepsData(cfg: UsartConfig, v: bv16)
    ensures TxFrame(cfg, v) < 0x200
    ensures Received(cfg, TxFrame(cfg, v)) == v & DataMask(cfg)
    ensures DataMask(cfg) & TxMask(cfg) == DataMask(cfg)
  {
  }

  // ---------------------------------------------------------------------------
  // The configuration struct as declared
  // ---------------------------------------------------------------------------

  /**
   * USART_cfg_t stores USART_Mode, Payload_Length, HwFlowCtl and IRQ_Enable in
   * uint8 fields, so assigning the 32-bit constants keeps only their low byte.
   */
  function UsartConfigAsWritten(cfg: UsartConfig): (r: UsartConfig)
    ensures r.mode < 0x100 && r.payloadLength < 0x100 && r.hwFlowCtl < 0x100 && r.irqEnable < 0x100
    ensures r.baudRate == cfg.baudRate && r.parity == cfg.parity && r.stopBits == cfg.stopBits
    ensures r.callback == cfg.callback
  {
    cfg.(mode := cfg.mode & 0xFF, payloadLength := cfg.payloadLength & 0xFF,
         hwFlowCtl := cfg.hwFlowCtl & 0xFF, irqEnable := cfg.irqEnable & 0xFF)
  }

  /** As declared, a 9-bit payload can never be selected: every frame is sent as 8 bits. */
  lemma NineBitPayloadLostAsWritten(cfg: UsartConfig)
    ensures UsartConfigAsWritten(cfg).payloadLength != PAYLOAD_9B
    ensures TxMask(UsartConfigAsWritten(cfg)) == 0xFF
  {
  }

  /**
   * The configuration {9-bit payload, RTS_CTS flow control, parity-error IRQ}
   * reaches the driver as {8-bit payload, no flow control, no IRQ}.
   */
  lemma NarrowFieldsDropSettings()
    ensures var cfg := UsartConfig(MODE_TX_RX, 9600, PAYLOAD_9B, PARITY_NONE, STOP_1, FLOW_RTS_CTS, IRQ_PE, None);
      var stored := UsartConfigAsWritten(cfg);
      stored.payloadLength == PAYLOAD_8B && stored.hwFlowCtl == FLOW_NONE && stored.irqEnable == IRQ_NONE &&
      TxMask(cfg) == 0x1FF && TxMask(stored) == 0xFF
  {
  }

  /** With the wide fields of UsartConfig a 9-bit payload keeps its ninth bit. */
  lemma NineBitPayloadKept(cfg: UsartConfig)
    requires cfg.payloadLength == PAYLOAD_9B
    ensures TxMask(cfg) == 0x1FF
    ensures cfg.parity == PARITY_NONE ==> DataMask(cfg) == 0x1FF
  {
  }

  /** The CR1 bits MCAL_USART_Init ORs in: UE, mode, word length, parity and the IRQ enables. */
  function Cr1Bits(cfg: UsartConfig): bv32 {
    CR1_UE | cfg.mode | cfg.payloadLength | cfg.parity | cfg.irqEnable
  }

  // ---------------------------------------------------------------------------
  // Strings
  // ---------------------------------------------------------------------------

  /**
   * The uint16 MCAL_USART_SendString passes for character i: the byte and the one
   * after it, little-endian (a byte past the end of `s` is taken as 0).
   */
  function CharWord(s: seq<bv8>, i: nat): bv16
    requires i < |s|
  {
    var next: bv16 := if i + 1 < |s| then s[i + 1] as bv16 else 0;
    (s[i] as bv16) | (next << 8)
  }

  /** The frames SendString puts on the line for the first n characters of s. */
  function StringFrames(cfg: UsartConfig, s: seq<bv8>, n: nat): (frames: seq<bv16>)
    requires n <= |s|
    ensures |frames| == n
  {
    seq(n, i requires 0 <= i < n => TxFrame(cfg, CharWord(s, i)))
  }

  lemma StringFramesGrow(cfg: UsartConfig, s: seq<bv8>, n: nat)
    requires n < |s|
    ensures StringFrames(cfg, s, n + 1) == StringFrames(cfg, s, n) + [TxFrame(cfg, CharWord(s, n))]
  {
  }

  /** With an 8-bit payload the frames are exactly the characters. */
  lemma EightBitFramesAreCharacters(cfg: UsartConfig, s: seq<bv8>, n: nat, i: nat)
    requires n <= |s| && i < n && cfg.payloadLength != PAYLOAD_9B
    ensures StringFrames(cfg, s, n)[i] == s[i] as bv16
  {
  }

  /** How many characters SendString sends: str_len, or up to the NUL when str_len is 0. */
  function SendCount(s: seq<bv8>, strLen: nat): nat
    requires strLen != 0 ==> strLen <= |s|
    requires strLen == 0 ==> Terminated(s)
  {
    if strLen != 0 then strLen else NulIndex(s)
  }

  // ---------------------------------------------------------------------------
  // Receive buffer
  // ---------------------------------------------------------------------------

  /** The uint8 `temp` of ReceiveBuffer's line mode holds the low byte of what was received. */
  function LowByte(v: bv16): bv16 {
    v & 0xFF
  }

  /** Some queued frame is received as a carriage return. */
  predicate HasCarriageReturn(cfg: UsartConfig, frames: seq<bv16>) {
    exists i :: 0 <= i < |frames| && LowByte(Received(cfg, frames[i])) == CARRIAGE_RETURN
  }

  /** The index of the first frame received as a carriage return. */
  function FirstCarriageReturn(cfg: UsartConfig, frames: seq<bv16>): (n: nat)
    requires HasCarriageReturn(cfg, frames)
    ensures n < |frames| && LowByte(Received(cfg, frames[n])) == CARRIAGE_RETURN
    ensures forall i :: 0 <= i < n ==> LowByte(Received(cfg, frames[i])) != CARRIAGE_RETURN
  {
    if LowByte(Received(cfg, frames[0])) == CARRIAGE_RETURN then 0
    else
      assert HasCarriageReturn(cfg, frames[1..]) by {
        var i :| 0 <= i < |frames| && LowByte(Received(cfg, frames[i])) == CARRIAGE_RETURN;
        assert frames[1..][i - 1] == frames[i];
      }
      1 + FirstCarriageReturn(cfg, frames[1..])
  }

  /** What ReceiveBuffer stores for a fixed count of frames. */
  function ReceivedFrames(cfg: UsartConfig, frames: seq<bv16>): (r: seq<bv16>)
    ensures |r| == |frames|
  {
    seq(|frames|, i requires 0 <= i < |frames| => Received(cfg, frames[i]))
  }

  /** What ReceiveBuffer stores in line mode: the low bytes before the carriage return. */
  function LineBytes(cfg: UsartConfig, frames: seq<bv16>): (r: seq<bv16>)
    ensures |r| == |frames|
  {
    seq(|frames|, i requires 0 <= i < |frames| => LowByte(Received(cfg, frames[i])))
  }

  lemma ReceivedFramesGrow(cfg: UsartConfig, frames: seq<bv16>, n: nat)
    requires n < |frames|
    ensures ReceivedFrames(cfg, frames[..n + 1]) == ReceivedFrames(cfg, frames[..n]) + [Received(cfg, frames[n])]
  {
  }

  lemma LineBytesGrow(cfg: UsartConfig, frames: seq<bv16>, n: nat)
    requires n < |frames|
    ensures LineBytes(cfg, frames[..n + 1]) == LineBytes(cfg, frames[..n]) + [LowByte(Received(cfg, frames[n]))]
  {
  }

  /** A line never contains the carriage return that ended it, and every entry is a byte. */
  lemma LineExcludesTerminator(cfg: UsartConfig, frames: seq<bv16>)
    requires HasCarriageReturn(cfg, frames)
    ensures var line := LineBytes(cfg, frames[..FirstCarriageReturn(cfg, frames)]);
      forall i :: 0 <= i < |line| ==> line[i] != CARRIAGE_RETURN && line[i] < 0x100
  {
  }

  // ---------------------------------------------------------------------------
  // Pins
  // ---------------------------------------------------------------------------

  /** TX: alternate-function push-pull output at 10 MHz. */
  const TX_PIN_CONFIG: bv32 := Gpio.ConfigNibble(Gpio.MODE_OUTPUT_AF_PP, Gpio.SPEED_10M)
  /** RX: alternate-function input. */
  const RX_PIN_CONFIG: bv32 := Gpio.ConfigNibble(Gpio.MODE_AF_INPUT, Gpio.SPEED_10M)
  /** CTS: floating input. */
  const CTS_PIN_CONFIG: bv32 := Gpio.ConfigNibble(Gpio.MODE_INPUT_FLO, Gpio.SPEED_10M)
  /** RTS: alternate-function push-pull output at 10 MHz. */
  const RTS_PIN_CONFIG: bv32 := Gpio.ConfigNibble(Gpio.MODE_OUTPUT_AF_PP, Gpio.SPEED_10M)

  /** The pins of `p` are configured for the flow control `flow`. */
  predicate PinsSetUp(g: Gpio.GpioPort, p: Pins, flow: bv32)
    reads g
  {
    ValidPins(p) &&
    g.Config(p.tx) == TX_PIN_CONFIG && g.Config(p.rx) == RX_PIN_CONFIG &&
    (UsesCts(flow) ==> g.Config(p.cts) == CTS_PIN_CONFIG) &&
    (UsesRts(flow) ==> g.Config(p.rts) == RTS_PIN_CONFIG)
  }

  /** The pins configured for flow control `flow`: TX and RX, CTS and RTS when used. */
  function PinsUsed(p: Pins, flow: bv32): (used: set<bv32>)
    ensures p.tx in used && p.rx in used && used <= {p.tx, p.rx, p.cts, p.rts}
    ensures ValidPins(p) ==> (p.cts in used <==> UsesCts(flow))
    ensures ValidPins(p) ==> (p.rts in used <==> UsesRts(flow))
  {
    {p.tx, p.rx} + FlowPins(p, flow)
  }

  /** The flow-control pins configured for `flow`. */
  function FlowPins(p: Pins, flow: bv32): set<bv32> {
    (if UsesCts(flow) then {p.cts} else {}) + (if UsesRts(flow) then {p.rts} else {})
  }

  /**
   * The GPIO part of MCAL_USART_GPIO_Set_Pins: TX and RX always, CTS and RTS only
   * when the flow control uses them. No other pin of the port changes its
   * configuration, and none of the modes used touches ODR.
   */
  method ConfigurePins(g: Gpio.GpioPort, p: Pins, flow: bv32)
    requires ValidPins(p)
    modifies g
    ensures PinsSetUp(g, p, flow)
    ensures Gpio.KeptOutside(old(g.CRL), old(g.CRH), g.CRL, g.CRH, PinsUsed(p, flow))
    ensures g.ODR == old(g.ODR) && g.writes == old(g.writes)
  {
    ghost var crl, crh := g.CRL, g.CRH;
    ConfigureDataPins(g, p);
    ghost var crl', crh' := g.CRL, g.CRH;
    ConfigureFlowPins(g, p, flow);
    Gpio.KeptOutsideTrans(crl, crh, crl', crh', g.CRL, g.CRH, {p.tx, p.rx}, FlowPins(p, flow));
    DataPinsKept(crl', crh', g.CRL, g.CRH, p, flow);
  }

  /** Setting up the flow-control pins leaves TX and RX as they were. */
  lemma DataPinsKept(crl: bv32, crh: bv32, crl': bv32, crh': bv32, p: Pins, flow: bv32)
    requires ValidPins(p) && Gpio.KeptOutside(crl, crh, crl', crh', FlowPins(p, flow))
    ensures Gpio.PinConfig(crl', crh', p.tx) == Gpio.PinConfig(crl, crh, p.tx)
    ensures Gpio.PinConfig(crl', crh', p.rx) == Gpio.PinConfig(crl, crh, p.rx)
  {
    Gpio.KeptOutsideAt(crl, crh, crl', crh', FlowPins(p, flow), p.tx);
    Gpio.KeptOutsideAt(crl, crh, crl', crh', FlowPins(p, flow), p.rx);
  }

  /** TX as alternate-function push-pull output, then RX as alternate-function input. */
  method ConfigureDataPins(g: Gpio.GpioPort, p: Pins)
    requires Gpio.IsPin(p.tx) && Gpio.IsPin(p.rx) && p.tx != p.rx
    modifies g
    ensures g.Config(p.tx) == TX_PIN_CONFIG && g.Config(p.rx) == RX_PIN_CONFIG
    ensures Gpio.KeptOutside(old(g.CRL), old(g.CRH), g.CRL, g.CRH, {p.tx, p.rx})
    ensures g.ODR == old(g.ODR) && g.writes == old(g.writes)
  {
    ghost var crl, crh := g.CRL, g.CRH;
    SetUpPin(g, p.tx, Gpio.MODE_OUTPUT_AF_PP);
    ghost var crl', crh' := g.CRL, g.CRH;
    SetUpPin(g, p.rx, Gpio.MODE_AF_INPUT);
    Gpio.KeptOutsideTrans(crl, crh, crl', crh', g.CRL, g.CRH, {p.tx}, {p.rx});
  }

  /** CTS as floating input and RTS as alternate-function output, each only when used. */
  method ConfigureFlowPins(g: Gpio.GpioPort, p: Pins, flow: bv32)
    requires Gpio.IsPin(p.cts) && Gpio.IsPin(p.rts) && p.cts != p.rts
    modifies g
    ensures UsesCts(flow) ==> g.Config(p.cts) == CTS_PIN_CONFIG
    ensures UsesRts(flow) ==> g.Config(p.rts) == RTS_PIN_CONFIG
    ensures Gpio.KeptOutside(old(g.CRL), old(g.CRH), g.CRL, g.CRH, FlowPins(p, flow))
    ensures g.ODR == old(g.ODR) && g.writes == old(g.writes)
  {
    ghost var crl, crh := g.CRL, g.CRH;
    SetUpPinIf(g, p.cts, Gpio.MODE_INPUT_FLO, UsesCts(flow));
    ghost var crl', crh' := g.CRL, g.CRH;
    SetUpPinIf(g, p.rts, Gpio.MODE_OUTPUT_AF_PP, UsesRts(flow));
    Gpio.KeptOutsideTrans(crl, crh, crl', crh', g.CRL, g.CRH,
      if UsesCts(flow) then {p.cts} else {}, if UsesRts(flow) then {p.rts} else {});
    Gpio.KeptOutsideAt(crl', crh', g.CRL, g.CRH, if UsesRts(flow) then {p.rts} else {}, p.cts);
  }

  /** SetUpPin when `used` holds; nothing otherwise. */
  method SetUpPinIf(g: Gpio.GpioPort, pin: bv32, mode: bv32, used: bool)
    requires Gpio.IsPin(pin) && mode != Gpio.MODE_INPUT_PU && mode != Gpio.MODE_INPUT_PD
    modifies g
    ensures used ==> g.Config(pin) == Gpio.ConfigNibble(mode, Gpio.SPEED_10M)
    ensures Gpio.KeptOutside(old(g.CRL), old(g.CRH), g.CRL, g.CRH, if used then {pin} else {})
    ensures g.ODR == old(g.ODR) && g.writes == old(g.writes)
  {
    if used {
      SetUpPin(g, pin, mode);
    }
  }

  /** One MCAL_GPIO_Init at 10 MHz in a mode without pull resistor: only the pin's field changes. */
  method SetUpPin(g: Gpio.GpioPort, pin: bv32, mode: bv32)
    requires Gpio.IsPin(pin) && mode != Gpio.MODE_INPUT_PU && mode != Gpio.MODE_INPUT_PD
    modifies g
    ensures g.Config(pin) == Gpio.ConfigNibble(mode, Gpio.SPEED_10M)
    ensures Gpio.KeptOutside(old(g.CRL), old(g.CRH), g.CRL, g.CRH, {pin})
    ensures g.ODR == old(g.ODR) && g.writes == old(g.writes)
  {
    g.Init(pin, mode, Gpio.SPEED_10M);
  }

  // ---------------------------------------------------------------------------
  // Registers and driver state
  // ---------------------------------------------------------------------------

  /** What data transfers leave alone: the stored configuration and the set-up registers. */
  datatype Settings = Settings(config: UsartConfig, brr: bv32, cr1: bv32, cr2: bv32, cr3: bv32)

  /**
   * A USART register block (USART_TypeDef), its entry of Global_USART_cfg
   * (`config`), and the line behind it.
   */
  class UsartPort {
    const instance: Instance
    var config: UsartConfig
    var DR: bv16
    var BRR: bv32
    var CR1: bv32
    var CR2: bv32
    var CR3: bv32
    /** Every value written to DR, in order. */
    ghost var sent: seq<bv16>
    /** Frames the line will deliver, in order; the head is latched into DR when RXNE is awaited. */
    var incoming: seq<bv16>

    constructor (instance: Instance, line: seq<bv16>)
      ensures this.instance == instance && config == EMPTY_CONFIG
      ensures DR == 0 && BRR == 0 && CR1 == 0 && CR2 == 0 && CR3 == 0
      ensures sent == [] && incoming == line
    {
      this.instance := instance;
      config := EMPTY_CONFIG;
      DR, BRR, CR1, CR2, CR3 := 0, 0, 0, 0, 0;
      sent := [];
      incoming := line;
    }

    function CurrentSettings(): Settings
      reads this
    {
      Settings(config, BRR, CR1, CR2, CR3)
    }

    /**
     * The register writes of MCAL_USART_Init for this instance, given the bus clock:
     * store the configuration, OR UE, mode, word length and parity into CR1, the stop
     * bits into CR2, the flow control into CR3, program BRR, and OR the interrupt
     * enables into CR1 when any are chosen (ORing IRQ_Enable = 0 changes nothing,
     * so the five CR1 writes are one OR of Cr1Bits).
     */
    method Configure(cfg: UsartConfig, pclk: nat)
      requires 25 * pclk < U32 && IsBaudRate(cfg.baudRate)
      modifies this
      ensures ConfiguredFrom(cfg, old(CR1), old(CR2), old(CR3), pclk)
      ensures DR == old(DR) && incoming == old(incoming) && sent == old(sent)
    {
      config := cfg;
      CR1 := CR1 | Cr1Bits(cfg);
      CR2 := CR2 | cfg.stopBits;
      CR3 := CR3 | cfg.hwFlowCtl;
      BRR := BrrRegister(pclk, cfg.baudRate);
    }

    /**
     * The stored configuration and the registers once cfg has been written over the
     * control registers cr1..cr3 with a bus clock of pclk: each control register keeps
     * its earlier bits and gains the configuration's, and BRR holds the divider.
     */
    predicate ConfiguredFrom(cfg: UsartConfig, cr1: bv32, cr2: bv32, cr3: bv32, pclk: nat)
      requires 25 * pclk < U32 && IsBaudRate(cfg.baudRate)
      reads this
    {
      && config == cfg
      && CR1 == cr1 | Cr1Bits(cfg)
      && CR2 == cr2 | cfg.stopBits
      && CR3 == cr3 | cfg.hwFlowCtl
      && BRR == BrrRegister(pclk, cfg.baudRate)
    }

    /**
     * MCAL_USART_SendData: write the value to DR, masked to the stored payload width.
     * The TXE wait of the polling mode is taken as finished.
     */
    method SendData(value: bv16, polling: bool)
      modifies this
      ensures DR == TxFrame(config, value)
      ensures sent == old(sent) + [TxFrame(config, value)]
      ensures CurrentSettings() == old(CurrentSettings()) && incoming == old(incoming)
    {
      var frame := TxFrame(config, value);
      DR := frame;
      sent := sent + [frame];
    }

    /**
     * MCAL_USART_SendString: str_len characters when str_len is non-zero, else every
     * character before the NUL, each sent as one polled SendData.
     */
    method SendString(str: seq<bv8>, strLen: nat)
      requires strLen < 0x100
      requires strLen != 0 ==> strLen <= |str|
      requires strLen == 0 ==> Terminated(str)
      modifies this
      ensures sent == old(sent) + StringFrames(config, str, SendCount(str, strLen))
      ensures CurrentSettings() == old(CurrentSettings()) && incoming == old(incoming)
    {
      if strLen != 0 {
        var i: nat := 0;
        while i < strLen
          invariant i <= strLen
          invariant sent == old(sent) + StringFrames(config, str, i)
          invariant CurrentSettings() == old(CurrentSettings()) && incoming == old(incoming)
        {
          StringFramesGrow(config, str, i);
          SendData(CharWord(str, i), true);
          i := i + 1;
        }
      } else {
        ghost var end := NulIndex(str);
        var k := 0;
        while str[k] != 0
          invariant k <= end < |str| && str[end] == 0
          invariant sent == old(sent) + StringFrames(config, str, k)
          invariant CurrentSettings() == old(CurrentSettings()) && incoming == old(incoming)
          decreases end - k
        {
          StringFramesGrow(config, str, k);
          SendData(CharWord(str, k), true);
          k := k + 1;
        }
        assert k == end;
      }
    }

    /**
     * MCAL_USART_ReceiveData. Polling waits for RXNE, which in the model latches the
     * next frame of the line into DR; without polling DR is read as it stands.
     */
    method ReceiveData(polling: bool) returns (value: bv16)
      requires polling ==> |incoming| > 0
      modifies this
      ensures polling ==> DR == old(incoming[0]) && incoming == old(incoming[1..])
      ensures !polling ==> DR == old(DR) && incoming == old(incoming)
      ensures value == Received(config, DR)
      ensures CurrentSettings() == old(CurrentSettings()) && sent == old(sent)
    {
      if polling {
        DR := incoming[0];
        incoming := incoming[1..];
      }
      value := Received(config, DR);
    }

    /**
     * MCAL_USART_ReceiveBuffer: `length` polled frames when length is non-zero;
     * otherwise frames up to a carriage return, storing the low byte of each one
     * before it and consuming the carriage return itself.
     */
    method ReceiveBuffer(length: nat) returns (buffer: seq<bv16>)
      requires length < 0x100
      requires length != 0 ==> length <= |incoming|
      requires length == 0 ==> HasCarriageReturn(config, incoming)
      modifies this
      ensures CurrentSettings() == old(CurrentSettings()) && sent == old(sent)
      ensures length != 0 ==>
        buffer == ReceivedFrames(config, old(incoming)[..length]) && incoming == old(incoming)[length..]
      ensures length == 0 ==>
        var n := FirstCarriageReturn(config, old(incoming));
        buffer == LineBytes(config, old(incoming)[..n]) && incoming == old(incoming)[n + 1..]
    {
      if length != 0 {
        buffer := ReceiveCounted(length);
      } else {
        buffer := ReceiveLine();
      }
    }

    /** ReceiveBuffer with a non-zero length: that many polled ReceiveData calls. */
    method ReceiveCounted(length: nat) returns (buffer: seq<bv16>)
      requires length <= |incoming|
      modifies this
      ensures CurrentSettings() == old(CurrentSettings()) && sent == old(sent)
      ensures buffer == ReceivedFrames(config, old(incoming)[..length]) && incoming == old(incoming)[length..]
    {
      ghost var line := incoming;
      buffer := [];
      var i: nat := 0;
      while i < length
        invariant i <= length
        invariant incoming == line[i..]
        invariant buffer == ReceivedFrames(config, line[..i])
        invariant CurrentSettings() == old(CurrentSettings()) && sent == old(sent)
      {
        ReceivedFramesGrow(config, line, i);
        var v := ReceiveData(true);
        buffer := buffer + [v];
        i := i + 1;
      }
    }

    /** ReceiveBuffer with length 0: polled ReceiveData calls until a carriage return. */
    method ReceiveLine() returns (buffer: seq<bv16>)
      requires HasCarriageReturn(config, incoming)
      modifies this
      ensures CurrentSettings() == old(CurrentSettings()) && sent == old(sent)
      ensures var n := FirstCarriageReturn(config, old(incoming));
        buffer == LineBytes(config, old(incoming)[..n]) && incoming == old(incoming)[n + 1..]
    {
      ghost var line := incoming;
      ghost var n := FirstCarriageReturn(config, line);
      ghost var k := 0;
      buffer := [];
      while true
        invariant k <= n
        invariant incoming == line[k..]
        invariant buffer == LineBytes(config, line[..k])
        invariant CurrentSettings() == old(CurrentSettings()) && sent == old(sent)
        decreases n - k
      {
        LineBytesGrow(config, line, k);
        var v := ReceiveData(true);
        var temp := LowByte(v);
        if temp == CARRIAGE_RETURN {
          break;
        }
        buffer := buffer + [temp];
        k := k + 1;
      }
    }
  }

  /** The driver's view of the chip: the three USARTs and the blocks the driver calls into. */
  class UsartDriver {
    const usart1: UsartPort
    const usart2: UsartPort
    const usart3: UsartPort
    const rcc: Rcc.RccRegs
    const nvic: Nvic.NvicRegs
    const gpioA: Gpio.GpioPort
    const gpioB: Gpio.GpioPort

    ghost predicate Valid()
      reads this, nvic
    {
      nvic.Valid() && gpioA != gpioB &&
      usart1.instance == USART1 && usart2.instance == USART2 && usart3.instance == USART3
    }

    constructor (rcc: Rcc.RccRegs, nvic: Nvic.NvicRegs, gpioA: Gpio.GpioPort, gpioB: Gpio.GpioPort,
                 line1: seq<bv16>, line2: seq<bv16>, line3: seq<bv16>)
      requires nvic.Valid() && gpioA != gpioB
      ensures Valid()
      ensures this.rcc == rcc && this.nvic == nvic && this.gpioA == gpioA && this.gpioB == gpioB
      ensures usart1.config == EMPTY_CONFIG && usart2.config == EMPTY_CONFIG && usart3.config == EMPTY_CONFIG
      ensures usart1.incoming == line1 && usart2.incoming == line2 && usart3.incoming == line3
      ensures fresh(usart1) && fresh(usart2) && fresh(usart3)
    {
      usart1 := new UsartPort(USART1, line1);
      usart2 := new UsartPort(USART2, line2);
      usart3 := new UsartPort(USART3, line3);
      this.rcc := rcc;
      this.nvic := nvic;
      this.gpioA := gpioA;
      this.gpioB := gpioB;
    }

    /** The register block of an instance. */
    function Port(inst: Instance): UsartPort {
      match inst
      case USART1 => usart1
      case USART2 => usart2
      case USART3 => usart3
    }

    /** The GPIO port an instance's pins live on. */
    function PinPort(inst: Instance): Gpio.GpioPort {
      if inst == USART3 then gpioB else gpioA
    }

    /**
     * MCAL_USART_GPIO_Set_Pins: clock the pins' GPIO port, then configure the pins
     * as ConfigurePins does for the stored flow control.
     */
    method SetPins(inst: Instance)
      requires Valid()
      modifies rcc, gpioA, gpioB
      ensures rcc.AHBENR == Rcc.WithTarget(old(rcc.AHBENR), Rcc.AHB, Rcc.EnableTarget(PinClockId(inst)).value)
      ensures rcc.APB2ENR == Rcc.WithTarget(old(rcc.APB2ENR), Rcc.APB2, Rcc.EnableTarget(PinClockId(inst)).value)
      ensures rcc.APB1ENR == Rcc.WithTarget(old(rcc.APB1ENR), Rcc.APB1, Rcc.EnableTarget(PinClockId(inst)).value)
      ensures rcc.ClockEnabled(PinClockId(inst))
      ensures forall t: Rcc.Target :: old(rcc.Enabled(t)) ==> rcc.Enabled(t)
      ensures rcc.CR == old(rcc.CR) && rcc.CFGR == old(rcc.CFGR)
      ensures rcc.APB2RSTR == old(rcc.APB2RSTR) && rcc.APB1RSTR == old(rcc.APB1RSTR)
      ensures PinsSetUp(PinPort(inst), PinsOf(inst), Port(inst).config.hwFlowCtl)
      ensures Gpio.KeptOutside(old(PinPort(inst).CRL), old(PinPort(inst).CRH), PinPort(inst).CRL, PinPort(inst).CRH,
                               PinsUsed(PinsOf(inst), Port(inst).config.hwFlowCtl))
      ensures gpioA.ODR == old(gpioA.ODR) && gpioB.ODR == old(gpioB.ODR)
      ensures gpioA.writes == old(gpioA.writes) && gpioB.writes == old(gpioB.writes)
      ensures var other := if inst == USART3 then gpioA else gpioB;
        other.CRL == old(other.CRL) && other.CRH == old(other.CRH)
    {
      EnableClock(PinClockId(inst));
      ConfigureInstancePins(inst);
    }

    /** The GPIO part of MCAL_USART_GPIO_Set_Pins on the instance's port; the other port is left alone. */
    method ConfigureInstancePins(inst: Instance)
      requires Valid()
      modifies gpioA, gpioB
      ensures PinsSetUp(PinPort(inst), PinsOf(inst), Port(inst).config.hwFlowCtl)
      ensures Gpio.KeptOutside(old(PinPort(inst).CRL), old(PinPort(inst).CRH), PinPort(inst).CRL, PinPort(inst).CRH,
                               PinsUsed(PinsOf(inst), Port(inst).config.hwFlowCtl))
      ensures gpioA.ODR == old(gpioA.ODR) && gpioB.ODR == old(gpioB.ODR)
      ensures gpioA.writes == old(gpioA.writes) && gpioB.writes == old(gpioB.writes)
      ensures var other := if inst == USART3 then gpioA else gpioB;
        other.CRL == old(other.CRL) && other.CRH == old(other.CRH)
    {
      ConfigurePins(PinPort(inst), PinsOf(inst), Port(inst).config.hwFlowCtl);
    }

    /** MCAL_RCC_Enable_Peripheral for a known id: its bit is ORed into its enable register, so its clock runs and no running clock stops. */
    method EnableClock(id: bv8)
      requires Rcc.EnableTarget(id).Some?
      modifies rcc
      ensures rcc.AHBENR == Rcc.WithTarget(old(rcc.AHBENR), Rcc.AHB, Rcc.EnableTarget(id).value)
      ensures rcc.APB2ENR == Rcc.WithTarget(old(rcc.APB2ENR), Rcc.APB2, Rcc.EnableTarget(id).value)
      ensures rcc.APB1ENR == Rcc.WithTarget(old(rcc.APB1ENR), Rcc.APB1, Rcc.EnableTarget(id).value)
      ensures rcc.ClockEnabled(id)
      ensures forall t: Rcc.Target :: old(rcc.Enabled(t)) ==> rcc.Enabled(t)
      ensures rcc.CR == old(rcc.CR) && rcc.CFGR == old(rcc.CFGR)
      ensures rcc.APB2RSTR == old(rcc.APB2RSTR) && rcc.APB1RSTR == old(rcc.APB1RSTR)
    {
      rcc.EnablePeripheral(id);
    }

    /**
     * MCAL_USART_Init: clock the instance, store the configuration, OR the UE, mode,
     * word-length and parity bits into CR1, the stop bits into CR2 and the flow
     * control into CR3, program BRR from the instance's bus clock, enable the chosen
     * interrupts in CR1 and the NVIC, and set up the pins.
     */
    method Init(inst: Instance, cfg: UsartConfig)
      requires Valid() && IsBaudRate(cfg.baudRate)
      modifies Port(inst), rcc, nvic.ISER, gpioA, gpioB
      ensures Port(inst).ConfiguredFrom(cfg, old(Port(inst).CR1), old(Port(inst).CR2), old(Port(inst).CR3),
                                        BusClock(inst, old(rcc.CFGR)))
      ensures Port(inst).DR == old(Port(inst).DR) && Port(inst).incoming == old(Port(inst).incoming)
      ensures Port(inst).sent == old(Port(inst).sent)
      ensures rcc.AHBENR == Rcc.WithTarget(Rcc.WithTarget(old(rcc.AHBENR), Rcc.AHB, Rcc.EnableTarget(ClockId(inst)).value),
                                        Rcc.AHB, Rcc.EnableTarget(PinClockId(inst)).value)
      ensures rcc.APB2ENR == Rcc.WithTarget(Rcc.WithTarget(old(rcc.APB2ENR), Rcc.APB2, Rcc.EnableTarget(ClockId(inst)).value),
                                        Rcc.APB2, Rcc.EnableTarget(PinClockId(inst)).value)
      ensures rcc.APB1ENR == Rcc.WithTarget(Rcc.WithTarget(old(rcc.APB1ENR), Rcc.APB1, Rcc.EnableTarget(ClockId(inst)).value),
                                        Rcc.APB1, Rcc.EnableTarget(PinClockId(inst)).value)
      ensures rcc.ClockEnabled(ClockId(inst)) && rcc.ClockEnabled(PinClockId(inst))
      ensures rcc.CR == old(rcc.CR) && rcc.CFGR == old(rcc.CFGR)
      ensures rcc.APB2RSTR == old(rcc.APB2RSTR) && rcc.APB1RSTR == old(rcc.APB1RSTR)
      ensures cfg.irqEnable != IRQ_NONE ==>
        nvic.ISER[..] == old(nvic.ISER[..])[Nvic.RegIndex(IrqOf(inst)) := Nvic.BitOf(IrqOf(inst))]
      ensures cfg.irqEnable == IRQ_NONE ==> nvic.ISER[..] == old(nvic.ISER[..])
      ensures PinsSetUp(PinPort(inst), PinsOf(inst), cfg.hwFlowCtl)
      ensures Gpio.KeptOutside(old(PinPort(inst).CRL), old(PinPort(inst).CRH), PinPort(inst).CRL, PinPort(inst).CRH,
                               PinsUsed(PinsOf(inst), cfg.hwFlowCtl))
      ensures gpioA.ODR == old(gpioA.ODR) && gpioB.ODR == old(gpioB.ODR)
      ensures gpioA.writes == old(gpioA.writes) && gpioB.writes == old(gpioB.writes)
      ensures var other := if inst == USART3 then gpioA else gpioB;
        other.CRL == old(other.CRL) && other.CRH == old(other.CRH)
      ensures forall t: Rcc.Target :: old(rcc.Enabled(t)) ==> rcc.Enabled(t)
    {
      SetUpInstance(inst, cfg);
      SetPins(inst);
    }

    /** MCAL_USART_Init up to the call of MCAL_USART_GPIO_Set_Pins. */
    method SetUpInstance(inst: Instance, cfg: UsartConfig)
      requires Valid() && IsBaudRate(cfg.baudRate)
      modifies Port(inst), rcc, nvic.ISER
      ensures Port(inst).ConfiguredFrom(cfg, old(Port(inst).CR1), old(Port(inst).CR2), old(Port(inst).CR3),
                                        BusClock(inst, old(rcc.CFGR)))
      ensures Port(inst).DR == old(Port(inst).DR) && Port(inst).incoming == old(Port(inst).incoming)
      ensures Port(inst).sent == old(Port(inst).sent)
      ensures rcc.AHBENR == Rcc.WithTarget(old(rcc.AHBENR), Rcc.AHB, Rcc.EnableTarget(ClockId(inst)).value)
      ensures rcc.APB2ENR == Rcc.WithTarget(old(rcc.APB2ENR), Rcc.APB2, Rcc.EnableTarget(ClockId(inst)).value)
      ensures rcc.APB1ENR == Rcc.WithTarget(old(rcc.APB1ENR), Rcc.APB1, Rcc.EnableTarget(ClockId(inst)).value)
      ensures rcc.ClockEnabled(ClockId(inst))
      ensures forall t: Rcc.Target :: old(rcc.Enabled(t)) ==> rcc.Enabled(t)
      ensures rcc.CR == old(rcc.CR) && rcc.CFGR == old(rcc.CFGR)
      ensures rcc.APB2RSTR == old(rcc.APB2RSTR) && rcc.APB1RSTR == old(rcc.APB1RSTR)
      ensures cfg.irqEnable != IRQ_NONE ==>
        nvic.ISER[..] == old(nvic.ISER[..])[Nvic.RegIndex(IrqOf(inst)) := Nvic.BitOf(IrqOf(inst))]
      ensures cfg.irqEnable == IRQ_NONE ==> nvic.ISER[..] == old(nvic.ISER[..])
    {
      ClockAndConfigure(inst, cfg);
      if cfg.irqEnable != IRQ_NONE {
        nvic.EnableIrq(IrqOf(inst));
      }
    }

    /** The first half of MCAL_USART_Init: the peripheral clock, then the control and baud-rate registers. */
    method ClockAndConfigure(inst: Instance, cfg: UsartConfig)
      requires Valid() && IsBaudRate(cfg.baudRate)
      modifies Port(inst), rcc
      ensures Port(inst).ConfiguredFrom(cfg, old(Port(inst).CR1), old(Port(inst).CR2), old(Port(inst).CR3),
                                        BusClock(inst, old(rcc.CFGR)))
      ensures Port(inst).DR == old(Port(inst).DR) && Port(inst).incoming == old(Port(inst).incoming)
      ensures Port(inst).sent == old(Port(inst).sent)
      ensures rcc.AHBENR == Rcc.WithTarget(old(rcc.AHBENR), Rcc.AHB, Rcc.EnableTarget(ClockId(inst)).value)
      ensures rcc.APB2ENR == Rcc.WithTarget(old(rcc.APB2ENR), Rcc.APB2, Rcc.EnableTarget(ClockId(inst)).value)
      ensures rcc.APB1ENR == Rcc.WithTarget(old(rcc.APB1ENR), Rcc.APB1, Rcc.EnableTarget(ClockId(inst)).value)
      ensures rcc.ClockEnabled(ClockId(inst))
      ensures forall t: Rcc.Target :: old(rcc.Enabled(t)) ==> rcc.Enabled(t)
      ensures rcc.CR == old(rcc.CR) && rcc.CFGR == old(rcc.CFGR)
      ensures rcc.APB2RSTR == old(rcc.APB2RSTR) && rcc.APB1RSTR == old(rcc.APB1RSTR)
    {
      var port := Port(inst);
      EnableClock(ClockId(inst));
      port.Configure(cfg, BusClock(inst, rcc.CFGR));
    }

    /** MCAL_USART_DeInit: set the instance's RCC reset bit and disable its NVIC line. */
    method DeInit(inst: Instance)
      requires Valid()
      modifies rcc, nvic.ICER
      ensures rcc.APB2RSTR == Rcc.WithTarget(old(rcc.APB2RSTR), Rcc.APB2, Rcc.ResetTarget(ClockId(inst)).value)
      ensures rcc.APB1RSTR == Rcc.WithTarget(old(rcc.APB1RSTR), Rcc.APB1, Rcc.ResetTarget(ClockId(inst)).value)
      ensures nvic.ICER[..] == old(nvic.ICER[..])[Nvic.RegIndex(IrqOf(inst)) := Nvic.BitOf(IrqOf(inst))]
      ensures rcc.AHBENR == old(rcc.AHBENR) && rcc.APB2ENR == old(rcc.APB2ENR) && rcc.APB1ENR == old(rcc.APB1ENR)
      ensures rcc.CR == old(rcc.CR) && rcc.CFGR == old(rcc.CFGR)
    {
      rcc.ResetPeripheral(ClockId(inst));
      nvic.DisableIrq(IrqOf(inst));
    }

    /**
     * USARTx_IRQHandler: clear the line's pending bit in the NVIC and return the
     * stored callback, which the handler then calls unless it is NULL.
     */
    method Interrupt(inst: Instance) returns (callback: Option<nat>)
      requires Valid()
      modifies nvic.ICPR
      ensures nvic.ICPR[..] == Nvic.OrBit(old(nvic.ICPR[..]), IrqOf(inst))
      ensures callback == Port(inst).config.callback
    {
      nvic.ClearPendingIrq(IrqOf(inst));
      callback := Port(inst).config.callback;
    }
  }
}
