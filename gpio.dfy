/*
 * GPIO port driver of the STM32F103 (MCAL/gpio_driver.c).
 *
 * A port is a record of 32-bit registers that the driver reads and
 * writes in place. Pins are addressed by one-bit masks GPIO_PIN_0 ..
 * GPIO_PIN_15; each pin owns a 4-bit configuration field in CRL (pins
 * 0..7) or CRH (pins 8..15).
 */
module Gpio {

  /** GPIO_PIN_n is the mask 1 << n, n = 0 .. 15. */
  const GPIO_PIN_8: bv32 := 0x0100

  /** GPIO_MODE_* values. */
  const MODE_ANALOG: bv32 := 0
  const MODE_INPUT_FLO: bv32 := 1
  const MODE_INPUT_PU: bv32 := 2
  const MODE_INPUT_PD: bv32 := 3
  const MODE_OUTPUT_PP: bv32 := 4
  const MODE_OUTPUT_OD: bv32 := 5
  const MODE_OUTPUT_AF_PP: bv32 := 6
  const MODE_OUTPUT_AF_OD: bv32 := 7
  const MODE_AF_INPUT: bv32 := 8

  /** GPIO_SPEED_* values. */
  const SPEED_10M: bv32 := 1

  /** Position reported for anything that is not a single pin mask. */
  const NO_POSITION: bv32 := 55

  /** One call of MCAL_GPIO_WritePin as an observer sees it: the pin and the level driven. */
  datatype PinWrite = PinWrite(pin: bv32, high: bool)

  /** One of GPIO_PIN_0 .. GPIO_PIN_15: a single set bit among the low sixteen. */
  predicate IsPin(pin: bv32) {
    pin != 0 && pin & (pin - 1) == 0 && pin <= 0x8000
  }

  /** Get_CRLH_Position: bit offset of a pin's 4-bit field inside CRL or CRH. */
  function CrlhPosition(pin: bv32): (pos: bv32)
    ensures IsPin(pin) ==> pos < 32 && pos % 4 == 0
    // pin n sits at 4 * n in CRL (n < 8) and at 4 * (n - 8) in CRH
    ensures IsPin(pin) && pin < GPIO_PIN_8 ==> pin == 1 << (pos / 4)
    ensures IsPin(pin) && pin >= GPIO_PIN_8 ==> pin == 1 << (pos / 4 + 8)
    ensures !IsPin(pin) ==> pos == NO_POSITION
  {
    if pin == 0x0001 || pin == 0x0100 then 0
    else if pin == 0x0002 || pin == 0x0200 then 4
    else if pin == 0x0004 || pin == 0x0400 then 8
    else if pin == 0x0008 || pin == 0x0800 then 12
    else if pin == 0x0010 || pin == 0x1000 then 16
    else if pin == 0x0020 || pin == 0x2000 then 20
    else if pin == 0x0040 || pin == 0x4000 then 24
    else if pin == 0x0080 || pin == 0x8000 then 28
    else NO_POSITION
  }

  /** The 4-bit CNF:MODE value MCAL_GPIO_Init builds for a pin mode and output speed. */
  function ConfigNibble(mode: bv32, speed: bv32): (nibble: bv32)
    ensures nibble < 16
    // input modes leave MODE[1:0] = 00 (input); outputs put the speed there
    ensures mode <= MODE_INPUT_PD || mode == MODE_AF_INPUT ==> nibble & 3 == 0
    ensures MODE_OUTPUT_PP <= mode <= MODE_OUTPUT_AF_OD ==> nibble & 3 == speed & 3
    // CNF[1:0]: analog 00, floating 01, pull-up/down 10; outputs PP/OD/AF-PP/AF-OD 00..11
    ensures mode <= MODE_INPUT_FLO ==> nibble >> 2 == mode
    ensures mode == MODE_INPUT_PU || mode == MODE_INPUT_PD ==> nibble >> 2 == 2
    ensures MODE_OUTPUT_PP <= mode <= MODE_OUTPUT_AF_OD && speed <= 3 ==> nibble >> 2 == mode - MODE_OUTPUT_PP
    // alternate-function input is configured exactly like a floating input
    ensures mode == MODE_AF_INPUT ==> nibble == ConfigNibble(MODE_INPUT_FLO, speed)
    // a mode outside GPIO_MODE_define matches no case and clears the field
    ensures mode > MODE_AF_INPUT ==> nibble == 0
  {
    if MODE_OUTPUT_PP <= mode <= MODE_OUTPUT_AF_OD then (((mode - 4) << 2) | speed) & 0x0F
    else if mode == MODE_ANALOG || mode == MODE_INPUT_FLO then (mode << 2) & 0x0F
    else if mode == MODE_INPUT_PU || mode == MODE_INPUT_PD then 0x08
    else if mode == MODE_AF_INPUT then (MODE_INPUT_FLO << 2) & 0x0F
    else 0
  }

  /** The 4-bit field at bit offset `pos` of a configuration register. */
  function Field(reg: bv32, pos: bv32): bv32
    requires pos < 32
  {
    (reg >> pos) & 0xF
  }

  /** Clear the 4-bit field at `pos`, then OR the nibble in (gpio_driver.c, lines 67 and 93). */
  function WithField(reg: bv32, pos: bv32, nibble: bv32): bv32
    requires pos < 32
  {
    (reg & !(0xF << pos)) | (nibble << pos)
  }

  /** The read-modify-write changes the addressed field to the nibble and no other field. */
  lemma WithFieldOnlyThatField(reg: bv32, pos: bv32, nibble: bv32, other: bv32)
    requires pos < 32 && pos % 4 == 0 && nibble < 16
    requires other < 32 && other % 4 == 0
    ensures Field(WithField(reg, pos, nibble), pos) == nibble
    ensures other != pos ==> Field(WithField(reg, pos, nibble), other) == Field(reg, other)
  {
  }

  /** The configuration field of `pin` given the two configuration registers. */
  function PinConfig(crl: bv32, crh: bv32, pin: bv32): bv32
    requires IsPin(pin)
  {
    Field(if pin < GPIO_PIN_8 then crl else crh, CrlhPosition(pin))
  }

  /** ODR after MCAL_GPIO_Init: only the pin's own bit may change. */
  function OdrAfterInit(odr: bv32, pin: bv32, mode: bv32): (r: bv32)
    ensures OdrKept(odr, r, pin)
  {
    if mode == MODE_INPUT_PU then odr | pin
    else if mode == MODE_INPUT_PD then odr & !pin
    else odr
  }

  /** Pull-up drives the pin's ODR bit high, pull-down low (the pin's pull resistor selection). */
  lemma PullResistorSelected(odr: bv32, pin: bv32, mode: bv32)
    ensures mode == MODE_INPUT_PU ==> OdrAfterInit(odr, pin, mode) & pin == pin
    ensures mode == MODE_INPUT_PD ==> OdrAfterInit(odr, pin, mode) & pin == 0
    ensures mode != MODE_INPUT_PU && mode != MODE_INPUT_PD ==> OdrAfterInit(odr, pin, mode) == odr
  {
  }

  /** MCAL_GPIO_Init touches no other pin's output bit. */
  lemma InitKeepsOtherOutputs(odr: bv32, pin: bv32, mode: bv32, q: bv32)
    requires IsPin(pin) && IsPin(q) && q != pin
    ensures OdrAfterInit(odr, pin, mode) & q == odr & q
  {
  }

  /** Two different pins of the same register half own different fields. */
  lemma DistinctPositions(pin: bv32, q: bv32)
    requires IsPin(pin) && IsPin(q) && pin != q && (pin < GPIO_PIN_8 <==> q < GPIO_PIN_8)
    ensures CrlhPosition(pin) != CrlhPosition(q)
  {
  }

  /** CRL after MCAL_GPIO_Init of `pin` with configuration `nibble`. */
  function CrlAfterInit(crl: bv32, pin: bv32, nibble: bv32): bv32
    requires IsPin(pin)
  {
    if pin < GPIO_PIN_8 then WithField(crl, CrlhPosition(pin), nibble) else crl
  }

  /** CRH after MCAL_GPIO_Init of `pin` with configuration `nibble`. */
  function CrhAfterInit(crh: bv32, pin: bv32, nibble: bv32): bv32
    requires IsPin(pin)
  {
    if pin < GPIO_PIN_8 then crh else WithField(crh, CrlhPosition(pin), nibble)
  }

  /** After Init the pin reads back the configuration written, and every other pin keeps its own. */
  lemma ConfigAfterInit(crl: bv32, crh: bv32, pin: bv32, nibble: bv32, q: bv32)
    requires IsPin(pin) && IsPin(q) && nibble < 16
    ensures q == pin ==>
      PinConfig(CrlAfterInit(crl, pin, nibble), CrhAfterInit(crh, pin, nibble), q) == nibble
    ensures q != pin ==>
      PinConfig(CrlAfterInit(crl, pin, nibble), CrhAfterInit(crh, pin, nibble), q) == PinConfig(crl, crh, q)
  {
    var p := CrlhPosition(pin);
    var o := CrlhPosition(q);
    if pin < GPIO_PIN_8 <==> q < GPIO_PIN_8 {
      if q != pin {
        DistinctPositions(pin, q);
      }
      WithFieldOnlyThatField(if pin < GPIO_PIN_8 then crl else crh, p, nibble, o);
    }
  }

  /** MCAL_GPIO_Init of `pin` leaves the configuration of every other pin as it was. */
  lemma InitKeptOutside(crl: bv32, crh: bv32, pin: bv32, nibble: bv32)
    requires IsPin(pin) && nibble < 16
    ensures KeptOutside(crl, crh, CrlAfterInit(crl, pin, nibble), CrhAfterInit(crh, pin, nibble), {pin})
  {
    forall q | IsPin(q) && q !in {pin}
      ensures PinConfig(CrlAfterInit(crl, pin, nibble), CrhAfterInit(crh, pin, nibble), q) == PinConfig(crl, crh, q)
    {
      ConfigAfterInit(crl, crh, pin, nibble, q);
    }
  }

  /** One GPIO port (GPIO_TypeDef) with the registers the driver uses. */
  class GpioPort {
    var CRL: bv32
    var CRH: bv32
    var IDR: bv32
    var ODR: bv32
    var BSRR: bv32
    var BRR: bv32
    /** Every MCAL_GPIO_WritePin call on this port, oldest first. */
    ghost var writes: seq<PinWrite>

    /** Configuration field of `pin` as it stands now. */
    function Config(pin: bv32): bv32
      requires IsPin(pin)
      reads this
    {
      PinConfig(CRL, CRH, pin)
    }

    /** MCAL_GPIO_Init: read-modify-write of the pin's field in CRL or CRH, plus ODR for pull-up/down. */
    method Init(pin: bv32, mode: bv32, speed: bv32)
      requires IsPin(pin)
      modifies this
      ensures CRL == CrlAfterInit(old(CRL), pin, ConfigNibble(mode, speed))
      ensures CRH == CrhAfterInit(old(CRH), pin, ConfigNibble(mode, speed))
      ensures Config(pin) == ConfigNibble(mode, speed)
      ensures forall q :: IsPin(q) && q != pin ==> Config(q) == old(Config(q))
      ensures KeptOutside(old(CRL), old(CRH), CRL, CRH, {pin})
      ensures ODR == OdrAfterInit(old(ODR), pin, mode)
      ensures OdrKept(old(ODR), ODR, pin)
      ensures IDR == old(IDR) && BSRR == old(BSRR) && BRR == old(BRR) && writes == old(writes)
    {
      var nibble := ConfigNibble(mode, speed);
      // the field is cleared and rewritten in whichever of CRL/CRH holds the pin
      CRL := CrlAfterInit(CRL, pin, nibble);
      CRH := CrhAfterInit(CRH, pin, nibble);
      ODR := OdrAfterInit(ODR, pin, mode);
      ConfigAfterInit(old(CRL), old(CRH), pin, nibble, pin);
      InitKeptOutside(old(CRL), old(CRH), pin, nibble);
      forall q | IsPin(q) && q != pin
        ensures Config(q) == old(Config(q))
      {
        ConfigAfterInit(old(CRL), old(CRH), pin, nibble, q);
      }
    }

    /** MCAL_GPIO_ReadPin: 1 when the pin's input bit is set, else 0. */
    method ReadPin(pin: bv32) returns (level: bv8)
      ensures level <= 1
      ensures level == 1 <==> IDR & pin != 0
    {
      if IDR & pin != 0 {
        level := 1;
      } else {
        level := 0;
      }
    }

    /** MCAL_GPIO_WritePin: a nonzero value goes to the set register, zero to the reset register. */
    method WritePin(pin: bv32, value: bv8)
      modifies this
      ensures value != 0 ==> BSRR == pin && BRR == old(BRR)
      ensures value == 0 ==> BRR == pin && BSRR == old(BSRR)
      ensures writes == old(writes) + [PinWrite(pin, value != 0)]
      ensures ODR == Written(old(ODR), pin, value != 0)
      ensures CRL == old(CRL) && CRH == old(CRH) && IDR == old(IDR)
    {
      // the hardware sets or clears the ODR bits named in the write
      if value != 0 {
        BSRR := pin;
      } else {
        BRR := pin;
      }
      ODR := Written(ODR, pin, value != 0);
      writes := writes + [PinWrite(pin, value != 0)];
    }

    /** MCAL_GPIO_TogglePin: flips exactly the pin's output bit. */
    method TogglePin(pin: bv32)
      modifies this
      ensures ODR == Toggled(old(ODR), pin)
      ensures CRL == old(CRL) && CRH == old(CRH) && IDR == old(IDR)
      ensures BSRR == old(BSRR) && BRR == old(BRR) && writes == old(writes)
    {
      ODR := ODR ^ pin;
    }
  }

  /**
   * ODR after MCAL_GPIO_WritePin: a write to BSRR sets, a write to BRR
   * clears, the ODR bits of the sixteen-bit pin mask.
   */
  function Written(odr: bv32, pin: bv32, high: bool): (r: bv32)
    ensures r & !(pin & 0xFFFF) == odr & !(pin & 0xFFFF)
  {
    (odr & !(pin & 0xFFFF)) | (if high then pin & 0xFFFF else 0)
  }

  /** A write of a pin inside `mask` leaves the ODR bits outside `mask` alone. */
  lemma WrittenKeepsOutside(odr: bv32, pin: bv32, high: bool, mask: bv32)
    requires pin & !mask == 0
    ensures OdrKept(odr, Written(odr, pin, high), mask)
  {
  }

  /** After writing a single pin its ODR bit holds the level written. */
  lemma WrittenLevel(odr: bv32, pin: bv32, high: bool)
    requires IsPin(pin)
    ensures Written(odr, pin, high) & pin != 0 <==> high
  {
  }

  /** Every ODR bit outside `mask` is the same in `odr` and `odr'`. */
  predicate OdrKept(odr: bv32, odr': bv32, mask: bv32) {
    odr' & !mask == odr & !mask
  }

  /** A frame over a mask also holds over any larger mask. */
  lemma OdrKeptWiden(odr: bv32, odr': bv32, mask: bv32, wider: bv32)
    requires OdrKept(odr, odr', mask) && mask & !wider == 0
    ensures OdrKept(odr, odr', wider)
  {
  }

  /** Two frames over the same mask compose. */
  lemma OdrKeptTrans(odr: bv32, odr': bv32, odr'': bv32, mask: bv32)
    requires OdrKept(odr, odr', mask) && OdrKept(odr', odr'', mask)
    ensures OdrKept(odr, odr'', mask)
  {
  }

  /** Under a frame over `mask`, every bit outside the mask keeps its value. */
  lemma OdrKeptBit(odr: bv32, odr': bv32, mask: bv32, q: bv32)
    requires OdrKept(odr, odr', mask) && q & mask == 0
    ensures odr' & q == odr & q
  {
  }

  /**
   * The configuration of every pin outside `pins` is the same under
   * (crl, crh) and (crl', crh').
   */
  ghost predicate KeptOutside(crl: bv32, crh: bv32, crl': bv32, crh': bv32, pins: set<bv32>) {
    forall q :: IsPin(q) && q !in pins ==> PinConfig(crl', crh', q) == PinConfig(crl, crh, q)
  }

  /** Keeping the pins outside `p` and then outside `p'` keeps those outside both. */
  lemma KeptOutsideTrans(crl: bv32, crh: bv32, crl': bv32, crh': bv32, crl'': bv32, crh'': bv32,
                         p: set<bv32>, p': set<bv32>)
    requires KeptOutside(crl, crh, crl', crh', p) && KeptOutside(crl', crh', crl'', crh'', p')
    ensures KeptOutside(crl, crh, crl'', crh'', p + p')
  {
  }

  /** Under a frame over `pins`, a single pin outside them keeps its configuration. */
  lemma KeptOutsideAt(crl: bv32, crh: bv32, crl': bv32, crh': bv32, pins: set<bv32>, q: bv32)
    requires KeptOutside(crl, crh, crl', crh', pins) && IsPin(q) && q !in pins
    ensures PinConfig(crl', crh', q) == PinConfig(crl, crh, q)
  {
  }

  /** Every pin of `pins` has configuration `config` in the given CRL/CRH. */
  ghost predicate Configured(crl: bv32, crh: bv32, pins: set<bv32>, config: bv32) {
    forall q :: q in pins ==> IsPin(q) && PinConfig(crl, crh, q) == config
  }

  /** Configuring one more pin, and keeping every other, extends a configured set by that pin. */
  lemma ConfiguredAdd(crl: bv32, crh: bv32, crl': bv32, crh': bv32, done: set<bv32>, pin: bv32, config: bv32)
    requires Configured(crl, crh, done, config) && KeptOutside(crl, crh, crl', crh', {pin})
    requires IsPin(pin) && PinConfig(crl', crh', pin) == config
    ensures Configured(crl', crh', done + {pin}, config)
  {
  }

  /** A configured set survives changes confined to pins outside it. */
  lemma ConfiguredKept(crl: bv32, crh: bv32, crl': bv32, crh': bv32, pins: set<bv32>, config: bv32, changed: set<bv32>)
    requires Configured(crl, crh, pins, config) && KeptOutside(crl, crh, crl', crh', changed)
    requires pins !! changed
    ensures Configured(crl', crh', pins, config)
  {
  }

  /** ODR after a toggle of `pin`. */
  function Toggled(odr: bv32, pin: bv32): (r: bv32)
    ensures r & pin == (odr & pin) ^ pin
    ensures r & !pin == odr & !pin
  {
    odr ^ pin
  }

  /** Toggling the same pin twice restores ODR. */
  lemma ToggleTwice(odr: bv32, pin: bv32)
    ensures Toggled(Toggled(odr, pin), pin) == odr
  {
  }
}
