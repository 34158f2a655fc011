/*
 * Nested vectored interrupt controller driver of the Cortex-M3
 * (MCAL/NVIC_driver.c).
 *
 * The enable, clear-enable, pending, clear-pending and active registers
 * are banks of three 32-bit words, one bit per interrupt number; the
 * priorities are an array of 80 bytes. AIRCR lives in the system control
 * block. All of them are treated as plain storage: the model does not
 * model what the hardware does with a write to a set/clear register.
 */
module Nvic {

  /** Interrupt numbers the three-word banks cover. */
  const IRQ_LIMIT: bv8 := 96
  /** Entries of the IP byte array. */
  const IP_SLOTS: bv8 := 80

  const SCB_VECTKEY_MASK: bv32 := 0xFFFF_0000
  const PRIGROUP_SET_MASK: bv32 := 0x0000_0700
  const PRIGROUP_CLEAR_MASK: bv32 := 0xFFFF_F8FF

  const EXTI3_IRQ: bv8 := 9
  const USART1_IRQ: bv8 := 37
  const USART2_IRQ: bv8 := 38
  const USART3_IRQ: bv8 := 39

  /** Which word of a bank holds interrupt `irqn`. */
  function RegIndex(irqn: bv8): (i: nat)
    ensures i < 8
    ensures i as bv8 == irqn / 32
  {
    if irqn < 32 then 0
    else if irqn < 64 then 1
    else if irqn < 96 then 2
    else if irqn < 128 then 3
    else if irqn < 160 then 4
    else if irqn < 192 then 5
    else if irqn < 224 then 6
    else 7
  }

  /** The one-bit mask of interrupt `irqn` inside its word. */
  function BitOf(irqn: bv8): (b: bv32)
    ensures b != 0 && b & (b - 1) == 0
  {
    1 << (irqn % 32)
  }

  /** Different interrupts in the same word have different masks. */
  lemma BitsDistinct(m: bv8, n: bv8)
    requires m != n && RegIndex(m) == RegIndex(n)
    ensures BitOf(m) != BitOf(n)
  {
  }

  /** Whether interrupt `irqn`'s bit is set in a bank of words. */
  predicate BitSet(words: seq<bv32>, irqn: bv8)
    requires RegIndex(irqn) < |words|
  {
    words[RegIndex(irqn)] & BitOf(irqn) != 0
  }

  /** The bank after `|= BitOf(irqn)` on irqn's word. */
  function OrBit(words: seq<bv32>, irqn: bv8): (r: seq<bv32>)
    requires RegIndex(irqn) < |words|
    ensures |r| == |words|
  {
    words[RegIndex(irqn) := words[RegIndex(irqn)] | BitOf(irqn)]
  }

  /** Setting one interrupt's bit sets it. */
  lemma OrBitSetsIt(words: seq<bv32>, irqn: bv8)
    requires RegIndex(irqn) < |words|
    ensures BitSet(OrBit(words, irqn), irqn)
  {
    OwnBitSet(words[RegIndex(irqn)], BitOf(irqn));
  }

  /** Setting one interrupt's bit leaves every other interrupt's bit as it was. */
  lemma OrBitKeepsOthers(words: seq<bv32>, irqn: bv8, m: bv8)
    requires RegIndex(irqn) < |words| && RegIndex(m) < |words| && m != irqn
    ensures BitSet(OrBit(words, irqn), m) <==> BitSet(words, m)
  {
    if RegIndex(m) == RegIndex(irqn) {
      BitsDistinct(m, irqn);
      SingleBitsIndependent(words[RegIndex(irqn)], BitOf(irqn), BitOf(m));
    }
  }

  lemma OwnBitSet(w: bv32, b: bv32)
    requires b != 0
    ensures (w | b) & b != 0
  {
  }

  /** OR-ing a single bit into a word does not change whether another single bit is set. */
  lemma SingleBitsIndependent(w: bv32, b: bv32, c: bv32)
    requires b != c && b & (b - 1) == 0 && c != 0 && c & (c - 1) == 0
    ensures ((w | b) & c != 0) <==> (w & c != 0)
  {
  }

  /** AIRCR after MCAL_NVIC_SetPriorityGrouping: the key half inverted, PRIGROUP replaced. */
  function AircrWithGrouping(aircr: bv32, grouping: bv32): bv32 {
    ((aircr ^ SCB_VECTKEY_MASK) & PRIGROUP_CLEAR_MASK) | (grouping & PRIGROUP_SET_MASK)
  }

  /** MCAL_NVIC_GetPriorityGrouping on an AIRCR value. */
  function PriorityGroupingOf(aircr: bv32): (g: bv32)
    ensures g < 8
  {
    (aircr & PRIGROUP_SET_MASK) >> 8
  }

  /** Reading back the grouping gives PRIGROUP as written. */
  lemma GroupingRoundTrip(aircr: bv32, grouping: bv32)
    ensures PriorityGroupingOf(AircrWithGrouping(aircr, grouping)) == (grouping & 0x700) >> 8
  {
  }

  /** The read VECTKEYSTAT (0xFA05) becomes the write key VECTKEY (0x05FA). */
  lemma GroupingWritesVectKey(aircr: bv32, grouping: bv32)
    requires aircr >> 16 == 0xFA05
    ensures AircrWithGrouping(aircr, grouping) >> 16 == 0x05FA
  {
  }

  /** Bits 7:0 and 15:11 of AIRCR are written back unchanged. */
  lemma GroupingKeepsLowBits(aircr: bv32, grouping: bv32)
    ensures AircrWithGrouping(aircr, grouping) & 0xF8FF == aircr & 0xF8FF
  {
  }

  /**
   * The IP slot MCAL_NVIC_SetPriority/GetPriority use as written. For every IRQn
   * below 96 it lies in the first 40 bytes of IP, and below 32 it is IRQn itself.
   */
  function PrioritySlotAsWritten(irqn: bv8): (slot: bv8)
    ensures irqn < IRQ_LIMIT ==> slot < 40
    ensures irqn < 32 ==> slot == irqn
  {
    4 * (irqn / 32) + irqn % 32
  }

  /**
   * As written, no interrupt from 32 to 59 owns its priority byte: it shares it
   * with interrupt `irqn - 28`, one of the first 32.
   */
  lemma AsWrittenSlotShared(irqn: bv8)
    requires 32 <= irqn < 60
    ensures irqn - 28 < 32
    ensures PrioritySlotAsWritten(irqn) == PrioritySlotAsWritten(irqn - 28)
  {
  }

  /**
   * On a priority array, setting `n` as written and reading `m` back gives the new
   * value when the two share a slot, and the old byte otherwise.
   */
  lemma AsWrittenReadAfterSet(ip: seq<bv8>, m: bv8, n: bv8, priority: bv8)
    requires |ip| == IP_SLOTS as int && m < IRQ_LIMIT && n < IRQ_LIMIT
    ensures ip[PrioritySlotAsWritten(n) := priority][PrioritySlotAsWritten(m)] ==
            if PrioritySlotAsWritten(m) == PrioritySlotAsWritten(n) then priority else ip[PrioritySlotAsWritten(m)]
  {
  }

  /** As written, setting USART1's priority overwrites EXTI3's, whatever it was. */
  lemma Usart1PriorityOverwritesExti3(ip: seq<bv8>, priority: bv8)
    requires |ip| == IP_SLOTS as int
    ensures ip[PrioritySlotAsWritten(USART1_IRQ) := priority][PrioritySlotAsWritten(EXTI3_IRQ)] == priority
  {
    PrioritySlotsCollide();
  }

  /** As written, two interrupts share a priority byte: 5 and 33, and USART1 (37) and EXTI3 (9). */
  lemma PrioritySlotsCollide()
    ensures PrioritySlotAsWritten(5) == PrioritySlotAsWritten(33)
    ensures PrioritySlotAsWritten(USART1_IRQ) == PrioritySlotAsWritten(EXTI3_IRQ)
  {
  }

  /** The IP slot that belongs to interrupt `irqn`: one byte per interrupt. */
  function PrioritySlot(irqn: bv8): (slot: bv8)
    requires irqn < IP_SLOTS
    ensures slot < IP_SLOTS
    ensures irqn < 32 ==> slot == PrioritySlotAsWritten(irqn)
  {
    irqn
  }

  /** The corrected slots are all different. */
  lemma PrioritySlotsDistinct(m: bv8, n: bv8)
    requires m < IP_SLOTS && n < IP_SLOTS && m != n
    ensures PrioritySlot(m) != PrioritySlot(n)
  {
  }

  /** NVIC_TypeDef and the AIRCR word of SCB_TypeDef. */
  class NvicRegs {
    const ISER: array<bv32>
    const ICER: array<bv32>
    const ISPR: array<bv32>
    const ICPR: array<bv32>
    const IABR: array<bv32>
    const IP: array<bv8>
    var AIRCR: bv32

    ghost predicate Valid()
      reads this
    {
      ISER.Length == 3 && ICER.Length == 3 && ISPR.Length == 3 && ICPR.Length == 3 && IABR.Length == 3 &&
      IP.Length == IP_SLOTS as int &&
      ISER != ICER && ISER != ISPR && ISER != ICPR && ISER != IABR &&
      ICER != ISPR && ICER != ICPR && ICER != IABR &&
      ISPR != ICPR && ISPR != IABR && ICPR != IABR
    }

    constructor ()
      ensures Valid()
      ensures fresh(ISER) && fresh(ICER) && fresh(ISPR) && fresh(ICPR) && fresh(IABR) && fresh(IP)
    {
      ISER := new bv32[3](_ => 0);
      ICER := new bv32[3](_ => 0);
      ISPR := new bv32[3](_ => 0);
      ICPR := new bv32[3](_ => 0);
      IABR := new bv32[3](_ => 0);
      IP := new bv8[80](_ => 0);
      AIRCR := 0;
    }

    /** MCAL_NVIC_SetPriorityGrouping. */
    method SetPriorityGrouping(grouping: bv32)
      modifies this
      ensures AIRCR == AircrWithGrouping(old(AIRCR), grouping)
    {
      var pg := grouping & PRIGROUP_SET_MASK;
      var reg := AIRCR;
      reg := reg ^ SCB_VECTKEY_MASK;
      reg := reg & PRIGROUP_CLEAR_MASK;
      reg := reg | pg;
      AIRCR := reg;
    }

    /** MCAL_NVIC_GetPriorityGrouping. */
    method GetPriorityGrouping() returns (g: bv32)
      ensures g == PriorityGroupingOf(AIRCR)
    {
      g := (AIRCR & PRIGROUP_SET_MASK) >> 8;
    }

    /** MCAL_NVIC_EnableIRQ: the word gets exactly the interrupt's mask. */
    method EnableIrq(irqn: bv8)
      requires Valid() && irqn < IRQ_LIMIT
      modifies ISER
      ensures ISER[..] == old(ISER[..])[RegIndex(irqn) := BitOf(irqn)]
    {
      ISER[RegIndex(irqn)] := 1 << (irqn % 32);
    }

    /** MCAL_NVIC_DisableIRQ: the word gets exactly the interrupt's mask. */
    method DisableIrq(irqn: bv8)
      requires Valid() && irqn < IRQ_LIMIT
      modifies ICER
      ensures ICER[..] == old(ICER[..])[RegIndex(irqn) := BitOf(irqn)]
    {
      ICER[RegIndex(irqn)] := 1 << (irqn % 32);
    }

    /** MCAL_NVIC_GetPendingIRQ: 1 iff the interrupt's pending bit is set. */
    method GetPendingIrq(irqn: bv8) returns (r: bv8)
      requires Valid() && irqn < IRQ_LIMIT
      ensures r <= 1
      ensures r == 1 <==> BitSet(ISPR[..], irqn)
    {
      var word := ISPR[RegIndex(irqn)];
      ShiftedBitIsMask(word, irqn);
      if (word >> (irqn % 32)) & 1 != 0 {
        r := 1;
      } else {
        r := 0;
      }
    }

    /** MCAL_NVIC_SetPendingIRQ: OR the interrupt's mask into its ISPR word. */
    method SetPendingIrq(irqn: bv8)
      requires Valid() && irqn < IRQ_LIMIT
      modifies ISPR
      ensures ISPR[..] == OrBit(old(ISPR[..]), irqn)
      ensures BitSet(ISPR[..], irqn)
    {
      ISPR[RegIndex(irqn)] := ISPR[RegIndex(irqn)] | (1 << (irqn % 32));
      OrBitSetsIt(old(ISPR[..]), irqn);
    }

    /** MCAL_NVIC_ClearPendingIRQ: OR the interrupt's mask into its ICPR word. */
    method ClearPendingIrq(irqn: bv8)
      requires Valid() && irqn < IRQ_LIMIT
      modifies ICPR
      ensures ICPR[..] == OrBit(old(ICPR[..]), irqn)
    {
      ICPR[RegIndex(irqn)] := ICPR[RegIndex(irqn)] | (1 << (irqn % 32));
    }

    /** MCAL_NVIC_GetActive: 1 iff the interrupt's active bit is set. */
    method GetActive(irqn: bv8) returns (r: bv8)
      requires Valid() && irqn < IRQ_LIMIT
      ensures r <= 1
      ensures r == 1 <==> BitSet(IABR[..], irqn)
    {
      if IABR[RegIndex(irqn)] & (1 << (irqn % 32)) != 0 {
        r := 1;
      } else {
        r := 0;
      }
    }

    /**
     * MCAL_NVIC_SetPriority: the byte at the as-written slot gets `priority`. Every
     * interrupt that shares that slot now reads `priority`; every other keeps its byte.
     */
    method SetPriority(irqn: bv8, priority: bv8)
      requires Valid() && irqn < IRQ_LIMIT
      modifies IP
      ensures IP[..] == old(IP[..])[PrioritySlotAsWritten(irqn) := priority]
      ensures forall m :: m < IRQ_LIMIT && PrioritySlotAsWritten(m) == PrioritySlotAsWritten(irqn) ==>
        IP[PrioritySlotAsWritten(m)] == priority
      ensures forall m :: m < IRQ_LIMIT && PrioritySlotAsWritten(m) != PrioritySlotAsWritten(irqn) ==>
        IP[PrioritySlotAsWritten(m)] == old(IP[PrioritySlotAsWritten(m)])
    {
      var regIndex := irqn / 32;
      var irqIndex := irqn % 32;
      IP[4 * regIndex + irqIndex] := priority;
    }

    /** MCAL_NVIC_GetPriority: the byte at the as-written slot. */
    method GetPriority(irqn: bv8) returns (priority: bv8)
      requires Valid() && irqn < IRQ_LIMIT
      ensures priority == IP[PrioritySlotAsWritten(irqn)]
    {
      var regIndex := irqn / 32;
      var irqIndex := irqn % 32;
      priority := IP[4 * regIndex + irqIndex];
    }
  }

  /** Testing bit 0 of the shifted word is testing the mask on the word. */
  lemma ShiftedBitIsMask(w: bv32, irqn: bv8)
    ensures ((w >> (irqn % 32)) & 1 != 0) <==> (w & BitOf(irqn) != 0)
  {
  }
}
