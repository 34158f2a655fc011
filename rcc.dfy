/*
 * Reset and clock control driver of the STM32F103 (MCAL/RCC_driver.c).
 *
 * The bus-clock getters are pure functions of the CFGR register value;
 * clock selection and the peripheral enable/reset calls OR bits into the
 * RCC registers in place.
 */
module Rcc {
  import opened Wrappers

  const HSI_RC_CLK: nat := 8000000
  const HSE_CLK: nat := 8000000
  /** What the getter reports for the PLL, whose multiplier it does not read. */
  const PLL_CLK_REPORTED: nat := 16000000

  /** Right-shift amounts for PPRE1/PPRE2 (bits 10:8 and 13:11 of CFGR). */
  const APB_PRESC_TABLE: seq<nat> := [0, 0, 0, 0, 1, 2, 3, 4]
  /** Right-shift amounts for HPRE (bits 7:4 of CFGR). */
  const AHB_PRESC_TABLE: seq<nat> := [0, 0, 0, 0, 0, 0, 0, 0, 1, 2, 3, 4, 6, 7, 8, 9]

  /** RCC_SELECT_* clock sources. */
  const SELECT_HSI: bv8 := 0
  const SELECT_HSE: bv8 := 1
  const SELECT_PLL: bv8 := 2

  /** RCC_* peripheral ids. */
  const RCC_GPIOA: bv8 := 0x00
  const RCC_GPIOB: bv8 := 0x01
  const RCC_AFIO: bv8 := 0x07
  const RCC_USART1: bv8 := 0x08
  const RCC_USART2: bv8 := 0x09
  const RCC_USART3: bv8 := 0x0A
  const RCC_CRC: bv8 := 0x10

  /** 2^n: a right shift by n divides by this. */
  function Pow2(n: nat): (p: nat)
    ensures p >= 1
    ensures n >= 1 ==> p % 2 == 0
  {
    if n == 0 then 1 else 2 * Pow2(n - 1)
  }

  /** SWS, bits 3:2 of CFGR: the clock source the hardware reports in use. */
  function Sws(cfgr: bv32): bv32 {
    (cfgr >> 2) & 3
  }

  /** MCAL_RCC_GetSYS_CLKFreq. */
  function SysClkFreq(cfgr: bv32): (f: nat)
    ensures Sws(cfgr) <= 1 <==> f == 8000000
    ensures Sws(cfgr) == 2 <==> f == 16000000
    ensures Sws(cfgr) == 3 <==> f == 0
  {
    match Sws(cfgr)
    case 0 => HSI_RC_CLK
    case 1 => HSE_CLK
    case 2 => PLL_CLK_REPORTED
    case _ => 0
  }

  /** PPRE1, bits 10:8 of CFGR. */
  function Ppre1(cfgr: bv32): (i: bv32)
    ensures i < 8
  {
    (cfgr >> 8) & 7
  }

  /** PPRE2, bits 13:11 of CFGR. */
  function Ppre2(cfgr: bv32): (i: bv32)
    ensures i < 8
  {
    (cfgr >> 11) & 7
  }

  /** HPRE, the full four bits 7:4 of CFGR. */
  function Hpre(cfgr: bv32): (i: bv32)
    ensures i < 16
  {
    (cfgr >> 4) & 0xF
  }

  /** The clock division an APB prescaler field selects. */
  function ApbDivisor(ppre: bv32): (d: nat)
    requires ppre < 8
    ensures ppre < 4 <==> d == 1
    ensures ppre == 4 ==> d == 2
    ensures ppre == 5 ==> d == 4
    ensures ppre == 6 ==> d == 8
    ensures ppre == 7 ==> d == 16
  {
    Pow2(APB_PRESC_TABLE[ppre as int])
  }

  /** The clock division an AHB prescaler field selects. */
  function AhbDivisor(hpre: bv32): (d: nat)
    requires hpre < 16
    ensures hpre < 8 <==> d == 1
    ensures hpre == 8 ==> d == 2
    ensures hpre == 11 ==> d == 16
    ensures hpre == 12 ==> d == 64
    ensures hpre == 15 ==> d == 512
  {
    Pow2(AHB_PRESC_TABLE[hpre as int])
  }

  /** MCAL_RCC_GetHCLKFreq as written: the table is indexed with `(CFGR >> 4) & 0b111`. */
  function HclkFreqAsWritten(cfgr: bv32): (f: nat)
    ensures f <= SysClkFreq(cfgr)
  {
    SysClkFreq(cfgr) / AhbDivisor((cfgr >> 4) & 7)
  }

  /** As written, HCLK never differs from SYSCLK whatever HPRE holds. */
  lemma HclkAsWrittenNeverDivided(cfgr: bv32)
    ensures HclkFreqAsWritten(cfgr) == SysClkFreq(cfgr)
  {
    assert (cfgr >> 4) & 7 < 8;
  }

  /** An input on which the as-written HCLK differs from the AHB prescaler's meaning:
      HSI selected and HPRE = 1000 (divide by 2). */
  lemma HclkAsWrittenIgnoresDivideByTwo()
    ensures Hpre(0x80) == 8 && SysClkFreq(0x80) == 8000000
    ensures HclkFreqAsWritten(0x80) == 8000000
    ensures HclkFreq(0x80) == 4000000
  {
    assert Sws(0x80) == 0;
    assert (0x80 as bv32 >> 4) & 7 == 0;
  }

  /** HCLK: SYSCLK divided by the AHB prescaler that all four HPRE bits select. */
  function HclkFreq(cfgr: bv32): (f: nat)
    ensures f <= SysClkFreq(cfgr)
    ensures Hpre(cfgr) < 8 ==> f == SysClkFreq(cfgr)
    ensures Hpre(cfgr) == 8 ==> f == SysClkFreq(cfgr) / 2
  {
    SysClkFreq(cfgr) / AhbDivisor(Hpre(cfgr))
  }

  /** MCAL_RCC_GetPCLK1Freq as written: SYSCLK shifted by the PPRE1 table entry. */
  function Pclk1FreqAsWritten(cfgr: bv32): (f: nat)
    ensures f <= SysClkFreq(cfgr)
    ensures Ppre1(cfgr) < 4 ==> f == SysClkFreq(cfgr)
  {
    SysClkFreq(cfgr) / ApbDivisor(Ppre1(cfgr))
  }

  /** MCAL_RCC_GetPCLK2Freq as written: SYSCLK shifted by the PPRE2 table entry. */
  function Pclk2FreqAsWritten(cfgr: bv32): (f: nat)
    ensures f <= SysClkFreq(cfgr)
    ensures Ppre2(cfgr) < 4 ==> f == SysClkFreq(cfgr)
  {
    SysClkFreq(cfgr) / ApbDivisor(Ppre2(cfgr))
  }

  /** An input on which the as-written APB1 clock skips the AHB prescaler:
      HPRE divides by 2 and PPRE1 divides by 2, so PCLK1 should be SYSCLK / 4. */
  lemma Pclk1AsWrittenSkipsAhb()
    ensures Pclk1FreqAsWritten(0x480) == 4000000
    ensures Pclk1Freq(0x480) == 2000000
  {
    assert Sws(0x480) == 0;
    assert Hpre(0x480) == 8;
    assert Ppre1(0x480) == 4;
  }

  /** APB1 clock: HCLK divided by the PPRE1 prescaler. */
  function Pclk1Freq(cfgr: bv32): (f: nat)
    ensures f <= HclkFreq(cfgr)
    ensures Ppre1(cfgr) < 4 ==> f == HclkFreq(cfgr)
  {
    HclkFreq(cfgr) / ApbDivisor(Ppre1(cfgr))
  }

  /** APB2 clock: HCLK divided by the PPRE2 prescaler. */
  function Pclk2Freq(cfgr: bv32): (f: nat)
    ensures f <= HclkFreq(cfgr)
    ensures Ppre2(cfgr) < 4 ==> f == HclkFreq(cfgr)
  {
    HclkFreq(cfgr) / ApbDivisor(Ppre2(cfgr))
  }

  /** When HPRE does not divide (its reset value), the as-written bus clocks equal the corrected ones. */
  lemma BusClocksAgreeWithoutAhbDivision(cfgr: bv32)
    requires Hpre(cfgr) < 8
    ensures Pclk1FreqAsWritten(cfgr) == Pclk1Freq(cfgr)
    ensures Pclk2FreqAsWritten(cfgr) == Pclk2Freq(cfgr)
  {
  }

  /** CR once HSI runs alone: HSION and HSIRDY set, HSEON and PLLON clear. */
  function HsiOnly(cr: bv32): (r: bv32)
    ensures r & 3 == 3 && r & 0x0101_0000 == 0
  {
    ((cr | 3) & !0x0001_0000) & !0x0100_0000
  }

  /** CR once HSE runs alone: HSEON and HSERDY set, HSION and PLLON clear. */
  function HseOnly(cr: bv32): (r: bv32)
    ensures r & 0x0003_0000 == 0x0003_0000 && r & 0x0100_0001 == 0
  {
    ((cr | 0x0003_0000) & !1) & !0x0100_0000
  }

  /** CFGR above SW and SWS is the same: HPRE, PPRE1, PPRE2 and the rest. */
  predicate SameUpperCfgr(before: bv32, after: bv32) {
    after & !0xF == before & !0xF
  }

  /** CFGR values that agree above SW and SWS have the same AHB prescaler. */
  lemma SameUpperSameHpre(before: bv32, after: bv32)
    requires SameUpperCfgr(before, after)
    ensures Hpre(after) == Hpre(before)
  {
    assert (after >> 4) & 0xF == ((after & !0xF) >> 4) & 0xF;
    assert (before >> 4) & 0xF == ((before & !0xF) >> 4) & 0xF;
  }

  /** CFGR values that agree above SW and SWS have the same APB prescalers. */
  lemma SameUpperSamePpre(before: bv32, after: bv32)
    requires SameUpperCfgr(before, after)
    ensures Ppre1(after) == Ppre1(before) && Ppre2(after) == Ppre2(before)
  {
    assert (after >> 8) & 7 == ((after & !0xF) >> 8) & 7;
    assert (before >> 8) & 7 == ((before & !0xF) >> 8) & 7;
    assert (after >> 11) & 7 == ((after & !0xF) >> 11) & 7;
    assert (before >> 11) & 7 == ((before & !0xF) >> 11) & 7;
  }

  /**
   * After a switch to HSI the bus clocks are the HSI clock divided by the prescalers
   * that were already set.
   */
  lemma HsiSelectedBusClocks(cfgr: bv32)
    ensures HclkFreq(HsiSelected(cfgr)) == HSI_RC_CLK / AhbDivisor(Hpre(cfgr))
    ensures Pclk1Freq(HsiSelected(cfgr)) == HclkFreq(HsiSelected(cfgr)) / ApbDivisor(Ppre1(cfgr))
    ensures Pclk2Freq(HsiSelected(cfgr)) == HclkFreq(HsiSelected(cfgr)) / ApbDivisor(Ppre2(cfgr))
  {
    HsiSelectedRunsHsi(cfgr);
    SameUpperSameHpre(cfgr, HsiSelected(cfgr));
    SameUpperSamePpre(cfgr, HsiSelected(cfgr));
  }

  /** CFGR once HSI is selected: SW = 00, and the hardware reports SWS = 00. */
  function HsiSelected(cfgr: bv32): (r: bv32)
    ensures SameUpperCfgr(cfgr, r)
  {
    (cfgr & !3) & !0xC
  }

  /** CFGR once HSE is selected: SW = 01, and the hardware reports SWS = 01. */
  function HseSelected(cfgr: bv32): (r: bv32)
    ensures SameUpperCfgr(cfgr, r)
  {
    (((cfgr & !3) | 1) & !0xC) | 4
  }

  /** After the HSI switch SW selects HSI and SYSCLK is the HSI clock. */
  lemma HsiSelectedRunsHsi(cfgr: bv32)
    ensures HsiSelected(cfgr) & 3 == 0 && Sws(HsiSelected(cfgr)) == 0
    ensures SysClkFreq(HsiSelected(cfgr)) == HSI_RC_CLK
  {
  }

  /** After the HSE switch SW selects HSE and SYSCLK is the HSE clock. */
  lemma HseSelectedRunsHse(cfgr: bv32)
    ensures HseSelected(cfgr) & 3 == 1 && Sws(HseSelected(cfgr)) == 1
    ensures SysClkFreq(HseSelected(cfgr)) == HSE_CLK
  {
  }

  /** Every bit set in `before` is still set in `after`. */
  predicate BitsKept(before: bv32, after: bv32) {
    before & after == before
  }

  /** A bit set before stays set when every set bit is kept. */
  lemma BitsKeptKeepsBit(before: bv32, after: bv32, mask: bv32)
    requires BitsKept(before, after) && before & mask != 0
    ensures after & mask != 0
  {
  }

  /** Register `r` after the bit of target `t` is ORed in (unchanged when `t` lives elsewhere). */
  function WithTarget(reg: bv32, r: Register, t: Target): bv32
  {
    if t.reg == r then reg | t.mask else reg
  }

  /** ORing a target's bit in leaves that bit set and keeps every bit already set. */
  lemma WithTargetSetsBit(reg: bv32, r: Register, t: Target)
    requires t.mask != 0
    ensures t.reg == r ==> WithTarget(reg, r, t) & t.mask != 0
    ensures BitsKept(reg, WithTarget(reg, r, t))
  {
  }

  /** The three RCC registers that peripheral enable/reset bits live in. */
  datatype Register = AHB | APB2 | APB1

  /** One bit of one register, as the mask 1 << bit. */
  datatype Target = Target(reg: Register, mask: bv32)

  /** The enable bit MCAL_RCC_Enable_Peripheral sets for an id; None for unknown ids. */
  function EnableTarget(id: bv8): (t: Option<Target>)
    ensures t.Some? <==> id <= RCC_CRC
    ensures t.Some? ==> t.value.mask != 0 && t.value.mask & (t.value.mask - 1) == 0
  {
    match id
    case 0x00 => Some(Target(APB2, 0x00000004))   // GPIOA
    case 0x01 => Some(Target(APB2, 0x00000008))   // GPIOB
    case 0x02 => Some(Target(APB2, 0x00000010))   // GPIOC
    case 0x03 => Some(Target(APB2, 0x00000020))   // GPIOD
    case 0x04 => Some(Target(APB2, 0x00000040))   // GPIOE
    case 0x05 => Some(Target(APB2, 0x00000080))   // GPIOF
    case 0x06 => Some(Target(APB2, 0x00000100))   // GPIOG
    case 0x07 => Some(Target(APB2, 0x00000001))   // AFIO
    case 0x08 => Some(Target(APB2, 0x00004000))  // USART1
    case 0x09 => Some(Target(APB1, 0x00020000))  // USART2
    case 0x0A => Some(Target(APB1, 0x00040000))  // USART3
    case 0x0B => Some(Target(APB2, 0x00001000))  // SPI1
    case 0x0C => Some(Target(APB1, 0x00004000))  // SPI2
    case 0x0D => Some(Target(APB1, 0x00200000))  // I2C1
    case 0x0E => Some(Target(APB1, 0x00400000))  // I2C2
    case 0x0F => Some(Target(APB1, 0x20000000))  // DAC
    case 0x10 => Some(Target(AHB, 0x00000040))    // CRC
    case _ => None
  }

  /** The reset bit MCAL_RCC_Reset_Peripheral sets: the enable bit's twin in APB2RSTR/APB1RSTR. */
  function ResetTarget(id: bv8): (t: Option<Target>)
    ensures t.Some? ==> t == EnableTarget(id) && t.value.reg != AHB
  {
    if id < RCC_CRC then EnableTarget(id) else None
  }

  /** CRC has an enable bit but no reset case; every other known id has both. */
  lemma ResetCoversAllButCrc(id: bv8)
    ensures ResetTarget(id).Some? <==> id < RCC_CRC
    ensures EnableTarget(RCC_CRC).Some? && ResetTarget(RCC_CRC).None?
  {
  }

  /** No two peripherals share an enable bit. */
  lemma EnableTargetsDistinct(a: bv8, b: bv8)
    requires a != b && EnableTarget(a).Some? && EnableTarget(b).Some?
    ensures EnableTarget(a) != EnableTarget(b)
  {
  }

  /** The RCC registers the driver touches (RCC_TypeDef). */
  class RccRegs {
    var CR: bv32
    var CFGR: bv32
    var APB2RSTR: bv32
    var APB1RSTR: bv32
    var AHBENR: bv32
    var APB2ENR: bv32
    var APB1ENR: bv32

    constructor ()
      ensures CR == 0 && CFGR == 0
      ensures APB2RSTR == 0 && APB1RSTR == 0 && AHBENR == 0 && APB2ENR == 0 && APB1ENR == 0
    {
      CR, CFGR := 0, 0;
      APB2RSTR, APB1RSTR := 0, 0;
      AHBENR, APB2ENR, APB1ENR := 0, 0, 0;
    }

    /**
     * MCAL_RCC_Select_Clock. The driver busy-waits for the oscillator's ready flag and
     * for SWS to report the switch; the model takes both waits as finished, with the
     * hardware having set the ready flag (HSIRDY bit 1, HSERDY bit 17) and copied SW into SWS.
     * PLL and unknown selections change nothing.
     */
    method SelectClock(clock: bv8)
      modifies this
      ensures clock == SELECT_HSI ==>
        CFGR == HsiSelected(old(CFGR)) && SysClkFreq(CFGR) == HSI_RC_CLK && CFGR & 3 == 0 && CR == HsiOnly(old(CR))
      ensures clock == SELECT_HSE ==>
        CFGR == HseSelected(old(CFGR)) && SysClkFreq(CFGR) == HSE_CLK && CFGR & 3 == 1 && CR == HseOnly(old(CR))
      ensures clock != SELECT_HSI && clock != SELECT_HSE ==> CR == old(CR) && CFGR == old(CFGR)
      ensures SameUpperCfgr(old(CFGR), CFGR)
      ensures APB2RSTR == old(APB2RSTR) && APB1RSTR == old(APB1RSTR)
      ensures AHBENR == old(AHBENR) && APB2ENR == old(APB2ENR) && APB1ENR == old(APB1ENR)
    {
      ghost var cfgr := CFGR;
      if clock == SELECT_HSI {
        CR := CR | 1;
        CR := CR | 2;                    // hardware: HSIRDY
        CFGR := HsiSelected(CFGR);       // SW = 00; hardware: SWS = 00
        HsiSelectedRunsHsi(cfgr);
        CR := CR & !0x0001_0000;
        CR := CR & !0x0100_0000;
      } else if clock == SELECT_HSE {
        CR := CR | 0x0001_0000;
        CR := CR | 0x0002_0000;          // hardware: HSERDY
        CFGR := HseSelected(CFGR);       // SW = 01; hardware: SWS = 01
        HseSelectedRunsHse(cfgr);
        CR := CR & !1;
        CR := CR & !0x0100_0000;
      }
    }

    /** The enable register `r` as it stands now. */
    function EnableRegister(r: Register): bv32
      reads this
    {
      match r
      case AHB => AHBENR
      case APB2 => APB2ENR
      case APB1 => APB1ENR
    }

    /** Whether the bit of target `t` is set. */
    predicate Enabled(t: Target)
      reads this
    {
      EnableRegister(t.reg) & t.mask != 0
    }

    /** Whether the clock of peripheral `id` is enabled. */
    predicate ClockEnabled(id: bv8)
      requires EnableTarget(id).Some?
      reads this
    {
      Enabled(EnableTarget(id).value)
    }

    /** MCAL_RCC_Enable_Peripheral: OR the id's bit into its enable register; unknown ids change nothing. */
    method EnablePeripheral(id: bv8)
      modifies this
      ensures EnableTarget(id).None? ==>
        AHBENR == old(AHBENR) && APB2ENR == old(APB2ENR) && APB1ENR == old(APB1ENR)
      ensures EnableTarget(id).Some? ==>
        AHBENR == WithTarget(old(AHBENR), AHB, EnableTarget(id).value) &&
        APB2ENR == WithTarget(old(APB2ENR), APB2, EnableTarget(id).value) &&
        APB1ENR == WithTarget(old(APB1ENR), APB1, EnableTarget(id).value)
      ensures EnableTarget(id).Some? ==> ClockEnabled(id)
      ensures BitsKept(old(AHBENR), AHBENR) && BitsKept(old(APB2ENR), APB2ENR) && BitsKept(old(APB1ENR), APB1ENR)
      ensures forall t: Target :: old(Enabled(t)) ==> Enabled(t)
      ensures CR == old(CR) && CFGR == old(CFGR) && APB2RSTR == old(APB2RSTR) && APB1RSTR == old(APB1RSTR)
    {
      var target := EnableTarget(id);
      if target.Some? {
        var t := target.value;
        WithTargetSetsBit(AHBENR, AHB, t);
        WithTargetSetsBit(APB2ENR, APB2, t);
        WithTargetSetsBit(APB1ENR, APB1, t);
        AHBENR := WithTarget(AHBENR, AHB, t);
        APB2ENR := WithTarget(APB2ENR, APB2, t);
        APB1ENR := WithTarget(APB1ENR, APB1, t);
        forall u: Target | old(Enabled(u))
          ensures Enabled(u)
        {
          BitsKeptKeepsBit(old(EnableRegister(u.reg)), EnableRegister(u.reg), u.mask);
        }
      }
    }

    /** MCAL_RCC_Reset_Peripheral: OR the id's bit into APB2RSTR or APB1RSTR; CRC and unknown ids change nothing. */
    method ResetPeripheral(id: bv8)
      modifies this
      ensures ResetTarget(id).None? ==> APB2RSTR == old(APB2RSTR) && APB1RSTR == old(APB1RSTR)
      ensures ResetTarget(id).Some? ==>
        APB2RSTR == WithTarget(old(APB2RSTR), APB2, ResetTarget(id).value) &&
        APB1RSTR == WithTarget(old(APB1RSTR), APB1, ResetTarget(id).value)
      ensures CR == old(CR) && CFGR == old(CFGR)
      ensures AHBENR == old(AHBENR) && APB2ENR == old(APB2ENR) && APB1ENR == old(APB1ENR)
    {
      var target := ResetTarget(id);
      if target.Some? {
        APB2RSTR := WithTarget(APB2RSTR, APB2, target.value);
        APB1RSTR := WithTarget(APB1RSTR, APB1, target.value);
      }
    }
  }
}
