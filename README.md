# Smart car parking on the STM32F103: a verified model

The firmware runs a car park with three places and two gates. An admin enrols three user
IDs on a keypad. Each gate receives a byte (an RFID ID) on its own serial line (USART1
for entry, USART2 for exit). A known ID opens that gate's barrier and counts the car in or
out. An unknown ID lowers both barriers and flashes the red LED. A car at the entry while
the park is full, or at the exit while it is empty, raises the alarm. One LCD faces the
drivers and shows the free places. The other shows the admin the enrolled IDs.

The project models, in Dafny:

- the application state machine (`app_states.dfy`, module `AppStates`). It covers the six
  handlers Init, Admin, Idle, Enter_Gate, Exit_Gate and Full. It also covers the function
  pointer `fp_App_State_Handler` with `APP_Current_State`, and `main`'s loop, which calls
  the current handler;
- the hardware layer of the application (`ecu.dfy`, module `Ecu`). It holds the globals
  `Enter_Flag`, `Exit_Flag`, `Free_Slots`, `Print_Slots_LCD_Flag` and `Users_IDs`. It
  covers `Check_ID`, the enrolment `Admin_Init`, the display refresh
  `UserLCD_PrintFreeSlots`, the gate, rejection and alarm routines, and the two USART
  callbacks. Their effects on screens, servos, LEDs and serial lines are recorded as an
  event trace;
- the HAL drivers for the keypad (`keypad.dfy`), the character LCD (`lcd.dfy`) and the
  LEDs (`led.dfy`). Each is modelled as the sequence of GPIO pin writes it makes;
- the MCAL drivers for GPIO (`gpio.dfy`), RCC (`rcc.dfy`), NVIC (`nvic.dfy`) and USART
  (`usart.dfy`). Registers are fields of register-block classes, with the C integer
  widths kept as `bv8`/`bv16`/`bv32`;
- `cstring.dfy` (NUL-terminated strings) and `wrappers.dfy` (an `Option` type).

The main results are:

- **Free_Slots never wraps.** From reset, in every run, the handler invariant holds:
  Idle or Enter_Gate has a free place, Exit_Gate has a car inside, and Full has no free
  place. This stays true whatever interrupts arrive between handler calls and whatever
  bytes and keys come in. So 0 <= Free_Slots <= 3, and the `uint8` `--` and `++` of the
  gate handlers never wrap.
- **The handler transitions are proved one by one.** This covers which handler comes next
  and which flags are cleared. It also covers the exact change of Free_Slots (exactly one
  less on entry and one more on exit when the ID is known, otherwise unchanged) and the
  events each handler produces.
- **The LCD protocol round-trips.** The pin writes of a command, a character, a string or
  the whole initialisation are run through a model of the controller's input side, which
  latches RS and D0..D7 when EN falls. The controller receives exactly the bytes that
  were sent, in 8-bit and in 4-bit mode.
- **The keypad scan is correct.** It returns the first pressed key in row-major order, or
  `'F'` exactly when nothing is pressed. At most one row is driven low at any time.
- **The register-level drivers are specified against pure functions.** This covers GPIO
  field updates, RCC enable and reset bits, NVIC bank and bit arithmetic, and the USART
  baud-rate register with its bounds and worked values, masking, strings and receive
  buffers. Each contract gives the new value of the registers the operation writes and
  names the registers it leaves unchanged. Where the operation updates one field, bit or
  pin (GPIO configuration and output, RCC enable and reset, NVIC enable, pending and
  priority), it also says that every other field, bit or pin keeps its value.
- **The drivers above GPIO keep to their own pins.** The keypad, LCD, LED and USART
  initialisations leave the configuration of every other pin of the port as it was, and
  their pin writes change ODR only on their own pins. A pin write sets or clears ODR bits
  as BSRR and BRR do on the hardware.

## Model

| member | source | states |
|---|---|---|
| Gpio.CrlhPosition | MCAL/gpio_driver.c:12-48 | For a pin mask, the offset is a multiple of 4 below 32. The mask is 1 << (offset/4) in CRL, or 1 << (offset/4 + 8) in CRH. Anything that is not a single pin gives 55. |
| Gpio.DistinctPositions | MCAL/gpio_driver.c:12-48 | Two different pins in the same register half never share a 4-bit field. |
| Gpio.ConfigNibble | MCAL/gpio_driver.c:68-92 | The nibble is below 16. Input modes put 00 in MODE[1:0] and output modes put the speed there. CNF is 00/01 for analog/floating, 10 for pull-up and pull-down, and mode-4 for the four outputs. AF input is encoded like a floating input. An unknown mode gives 0. |
| Gpio.WithFieldOnlyThatField | MCAL/gpio_driver.c:65-93 | The clear-then-OR sets the addressed field to the nibble and leaves every other field as it was. |
| Gpio.OdrAfterInit | MCAL/gpio_driver.c:81-88 | Init can change only the pin's own ODR bit. |
| Gpio.PullResistorSelected | MCAL/gpio_driver.c:81-88 | Pull-up sets the pin's ODR bit and pull-down clears it. Every other mode leaves ODR unchanged. |
| Gpio.InitKeepsOtherOutputs | MCAL/gpio_driver.c:83-87 | Every other pin keeps its ODR bit. |
| Gpio.ConfigAfterInit | MCAL/gpio_driver.c:61-94 | After Init the pin reads back the nibble written, and every other pin keeps its configuration. |
| Gpio.InitKeptOutside | MCAL/gpio_driver.c:61-94 | Init of one pin keeps the configuration of every other pin. |
| Gpio.KeptOutsideTrans | MCAL/gpio_driver.c:61-94 | Two configuration steps that keep every pin outside p and outside p' together keep every pin outside p + p'. |
| Gpio.KeptOutsideAt | MCAL/gpio_driver.c:61-94 | A pin outside the changed set keeps its configuration. |
| Gpio.ConfiguredAdd | MCAL/gpio_driver.c:61-94 | Pins already configured alike stay so when one more pin is given the same configuration and nothing else changes. |
| Gpio.ConfiguredKept | MCAL/gpio_driver.c:61-94 | A step that changes only pins disjoint from a configured set keeps that set configured. |
| Gpio.OdrKeptTrans | MCAL/gpio_driver.c:166-182 | Two output steps that both keep the ODR bits outside a mask together keep them. |
| Gpio.OdrKeptWiden | MCAL/gpio_driver.c:166-182 | Keeping the ODR bits outside a mask also keeps those outside any wider mask. |
| Gpio.GpioPort.Init | MCAL/gpio_driver.c:61-94 | CRL/CRH gain the pin's new field, and every other pin keeps its configuration (KeptOutside the pin). ODR follows OdrAfterInit, so only the pin's own ODR bit can change. IDR, BSRR, BRR and the write trace are unchanged. |
| Gpio.GpioPort.ReadPin | MCAL/gpio_driver.c:134-143 | The result is 0 or 1, and it is 1 exactly when the pin's IDR bit is set. |
| Gpio.GpioPort.WritePin | MCAL/gpio_driver.c:166-182 | A nonzero value puts the mask in BSRR and zero puts it in BRR; the other register is untouched. ODR becomes Written(old ODR, pin, level), as the hardware sets or clears the ODR bits named in the low 16 bits of BSRR/BRR. The write is appended to the port's trace, and CRL, CRH and IDR are unchanged. |
| Gpio.Written | MCAL/gpio_driver.c:166-182 | ODR after a BSRR or BRR write: every bit outside the low 16 bits of the mask keeps its value. |
| Gpio.WrittenLevel | MCAL/gpio_driver.c:166-182 | After writing a single pin, its ODR bit is set exactly when the level written is high. |
| Gpio.WrittenKeepsOutside | MCAL/gpio_driver.c:166-182 | Writing a pin that lies inside a mask keeps every ODR bit outside that mask. |
| Gpio.GpioPort.TogglePin | MCAL/gpio_driver.c:204-206 | ODR becomes Toggled(old ODR, pin). Everything else is unchanged. |
| Gpio.Toggled | MCAL/gpio_driver.c:204-206 | The pin's bits are inverted and all other bits are kept. |
| Gpio.ToggleTwice | MCAL/gpio_driver.c:204-206 | Toggling the same pin twice restores ODR. |
| Rcc.SysClkFreq | MCAL/RCC_driver.c:139-161 | SWS 0 or 1 gives 8 MHz, SWS 2 gives 16 MHz and SWS 3 gives 0. Each holds in both directions. |
| Rcc.HclkFreqAsWritten | MCAL/RCC_driver.c:171-174 | MCAL_RCC_GetHCLKFreq as written: the value reported never exceeds SYSCLK. |
| Rcc.ApbDivisor | MCAL/RCC_driver.c:12-21 | PPRE values 0xx divide by 1 (and only those do); 100..111 divide by 2, 4, 8 and 16. |
| Rcc.AhbDivisor | MCAL/RCC_driver.c:23-34 | HPRE values 0xxx divide by 1 (and only those do); 1000 divides by 2, 1011 by 16, 1100 by 64 and 1111 by 512 (the table skips 32). |
| Rcc.HclkAsWrittenNeverDivided | MCAL/RCC_driver.c:171-174 | As written, HCLK equals SYSCLK whatever HPRE holds. |
| Rcc.HclkAsWrittenIgnoresDivideByTwo | MCAL/RCC_driver.c:171-174 | With CFGR = 0x80 (HPRE = SYSCLK/2), the as-written getter reports 8 MHz while the AHB clock is 4 MHz. |
| Rcc.HclkFreq | MCAL/RCC_driver.c:23-34 | HCLK is at most SYSCLK. It equals SYSCLK when HPRE does not divide, and is half of it for HPRE = 1000. |
| Rcc.Pclk1AsWrittenSkipsAhb | MCAL/RCC_driver.c:184-187 | With CFGR = 0x480, the as-written PCLK1 is 4 MHz while HCLK/2 is 2 MHz. |
| Rcc.Pclk1FreqAsWritten | MCAL/RCC_driver.c:184-187 | MCAL_RCC_GetPCLK1Freq as written: at most SYSCLK, and equal to SYSCLK when PPRE1 does not divide, whatever HPRE holds. |
| Rcc.Pclk2FreqAsWritten | MCAL/RCC_driver.c:197-200 | MCAL_RCC_GetPCLK2Freq as written: at most SYSCLK, and equal to SYSCLK when PPRE2 does not divide, whatever HPRE holds. |
| Rcc.Pclk1Freq | MCAL/RCC_driver.c:184-187 | PCLK1 is at most HCLK, and equals it when PPRE1 does not divide. |
| Rcc.Pclk2Freq | MCAL/RCC_driver.c:197-200 | PCLK2 is at most HCLK, and equals it when PPRE2 does not divide. |
| Rcc.BusClocksAgreeWithoutAhbDivision | MCAL/RCC_driver.c:184-200 | When HPRE does not divide, the as-written PCLK1 and PCLK2 equal the corrected ones. |
| Rcc.HsiOnly | MCAL/RCC_driver.c:46-52 | After switching to HSI, HSION and HSIRDY are set and HSEON and PLLON are clear. |
| Rcc.HseOnly | MCAL/RCC_driver.c:54-61 | After switching to HSE, HSEON and HSERDY are set and HSION and PLLON are clear. |
| Rcc.HsiSelected | MCAL/RCC_driver.c:49-50 | CFGR after the HSI switch agrees with the old CFGR above SW and SWS, so HPRE, PPRE1 and PPRE2 are kept. |
| Rcc.HseSelected | MCAL/RCC_driver.c:57-59 | CFGR after the HSE switch agrees with the old CFGR above SW and SWS, so HPRE, PPRE1 and PPRE2 are kept. |
| Rcc.HsiSelectedRunsHsi | MCAL/RCC_driver.c:49-50 | After the HSI switch SW and SWS are 00 and SYSCLK reads 8 MHz. |
| Rcc.HseSelectedRunsHse | MCAL/RCC_driver.c:57-59 | After the HSE switch SW and SWS are 01 and SYSCLK reads 8 MHz. |
| Rcc.SameUpperSameHpre | MCAL/RCC_driver.c:171-174 | Two CFGR values that agree above SW and SWS have the same HPRE. |
| Rcc.SameUpperSamePpre | MCAL/RCC_driver.c:184-200 | Two CFGR values that agree above SW and SWS have the same PPRE1 and PPRE2. |
| Rcc.HsiSelectedBusClocks | MCAL/RCC_driver.c:44-52 | After the HSI switch, HCLK is 8 MHz divided by the AHB prescaler already set, and PCLK1 and PCLK2 are HCLK divided by the APB prescalers already set. |
| Rcc.WithTargetSetsBit | MCAL/RCC_driver.c:78-99 | ORing a peripheral's bit sets it in its own register and clears no bit anywhere. |
| Rcc.EnableTarget | MCAL/RCC_driver.c:78-99 | A bit exists exactly for the ids up to RCC_CRC, and it is a single-bit mask. |
| Rcc.EnableTargetsDistinct | MCAL/RCC_driver.c:78-99 | No two peripherals share an enable bit. |
| Rcc.ResetTarget | MCAL/RCC_driver.c:109-129 | A reset bit is the enable bit's twin, in APB2RSTR or APB1RSTR, never in AHB. |
| Rcc.ResetCoversAllButCrc | MCAL/RCC_driver.c:109-129 | Reset acts exactly on the ids below RCC_CRC. CRC has an enable bit but no reset bit. |
| Rcc.RccRegs.SelectClock | MCAL/RCC_driver.c:44-68 | HSI and HSE select that source in CFGR (SYSCLK reads 8 MHz) and leave CR with only that oscillator on. CFGR is otherwise kept above SW and SWS, so the AHB and APB prescalers are unchanged. PLL and unknown values change nothing. The enable and reset registers are unchanged. |
| Rcc.RccRegs.EnablePeripheral | MCAL/RCC_driver.c:78-99 | A known id gets its bit ORed into its enable register and its clock reads enabled. An unknown id changes nothing. No enabled clock is ever disabled, and CR, CFGR and the reset registers are unchanged. |
| Rcc.RccRegs.ResetPeripheral | MCAL/RCC_driver.c:109-129 | A listed id gets its bit ORed into APB2RSTR or APB1RSTR. CRC and unknown ids change nothing. The enable registers, CR and CFGR are unchanged. |
| Nvic.RegIndex | MCAL/NVIC_driver.c:62-67 | The word index is IRQn/32 and is below 8. |
| Nvic.BitOf | MCAL/NVIC_driver.c:66-69 | The mask is a single nonzero bit. |
| Nvic.BitsDistinct | MCAL/NVIC_driver.c:62-69 | Two interrupts in the same word have different masks. |
| Nvic.ShiftedBitIsMask | MCAL/NVIC_driver.c:106 | Testing bit 0 of `word >> (IRQn%32)` is the same as testing the interrupt's mask. |
| Nvic.OrBit | MCAL/NVIC_driver.c:118-126 | ORing an interrupt's bit keeps the bank's length. |
| Nvic.OrBitSetsIt | MCAL/NVIC_driver.c:118-126 | After ORing an interrupt's bit, that bit is set. |
| Nvic.OrBitKeepsOthers | MCAL/NVIC_driver.c:118-126 | Every other interrupt's bit is unchanged, in both directions. |
| Nvic.PriorityGroupingOf | MCAL/NVIC_driver.c:50-52 | The grouping read back is below 8. |
| Nvic.GroupingRoundTrip | MCAL/NVIC_driver.c:20-52 | Get after Set returns (grouping & 0x700) >> 8. |
| Nvic.GroupingWritesVectKey | MCAL/NVIC_driver.c:29-30 | A read VECTKEYSTAT of 0xFA05 is written back as the key 0x05FA. |
| Nvic.GroupingKeepsLowBits | MCAL/NVIC_driver.c:32-39 | AIRCR bits 7:0 and 15:11 are written back unchanged. |
| Nvic.PrioritySlotsCollide | MCAL/NVIC_driver.c:180-206 | As written, IRQ 5 and 33 share a priority byte, and so do USART1 (37) and EXTI3 (9). |
| Nvic.PrioritySlotAsWritten | MCAL/NVIC_driver.c:182-187 | The slot the driver computes lies in the first 40 bytes of IP for every IRQn below 96, and is IRQn itself below 32. |
| Nvic.AsWrittenSlotShared | MCAL/NVIC_driver.c:182-187 | As written, every IRQn from 32 to 59 shares its priority byte with IRQn - 28, one of the first 32 interrupts. |
| Nvic.AsWrittenReadAfterSet | MCAL/NVIC_driver.c:180-206 | Reading an interrupt after setting another (or the same) one gives the new priority exactly when their as-written slots coincide, and the old byte otherwise. |
| Nvic.Usart1PriorityOverwritesExti3 | MCAL/NVIC_driver.c:180-188 | As written, setting USART1's priority sets EXTI3's to the same value, whatever it was. |
| Nvic.PrioritySlot | MCAL/NVIC_driver.c:187 | The corrected slot is below 80, and it agrees with the as-written slot for IRQn < 32. |
| Nvic.PrioritySlotsDistinct | MCAL/NVIC_driver.c:187 | Different interrupts get different corrected slots. |
| Nvic.NvicRegs.SetPriorityGrouping | MCAL/NVIC_driver.c:20-40 | AIRCR becomes the key-inverted, PRIGROUP-replaced value. |
| Nvic.NvicRegs.GetPriorityGrouping | MCAL/NVIC_driver.c:50-52 | The result is PRIGROUP of AIRCR. |
| Nvic.NvicRegs.EnableIrq | MCAL/NVIC_driver.c:62-70 | ISER[IRQn/32] is assigned exactly the interrupt's mask, and every other word is unchanged. |
| Nvic.NvicRegs.DisableIrq | MCAL/NVIC_driver.c:80-88 | ICER[IRQn/32] is assigned exactly the interrupt's mask, and every other word is unchanged. |
| Nvic.NvicRegs.GetPendingIrq | MCAL/NVIC_driver.c:98-108 | The result is 0 or 1, and it is 1 exactly when the pending bit is set. |
| Nvic.NvicRegs.SetPendingIrq | MCAL/NVIC_driver.c:118-126 | ISPR gains the interrupt's bit, so GetPendingIrq then returns 1. |
| Nvic.NvicRegs.ClearPendingIrq | MCAL/NVIC_driver.c:136-144 | ICPR gains the interrupt's bit. |
| Nvic.NvicRegs.GetActive | MCAL/NVIC_driver.c:154-169 | The result is 0 or 1, and it is 1 exactly when the active bit is set. |
| Nvic.NvicRegs.SetPriority | MCAL/NVIC_driver.c:180-188 | For every IRQn below 96, IP gets `priority` at the as-written slot 4*(IRQn/32) + IRQn%32 and nowhere else. Every interrupt sharing that slot now reads `priority`. Every other interrupt keeps its byte. |
| Nvic.NvicRegs.GetPriority | MCAL/NVIC_driver.c:198-206 | The result is the byte at the as-written slot. So for USART1 (37) it is the byte EXTI3 (9) also uses. |
| Usart.ClockId | MCAL/USART_driver.c:35-46 | Each instance's RCC id has both an enable bit and a reset bit. |
| Usart.IrqOf | MCAL/USART_driver.c:85-94 | Each instance's NVIC line has a priority byte. |
| Usart.PinClockId | MCAL/USART_driver.c:133-245 | The GPIO port of each instance's pins has a clock enable bit. |
| Usart.PinsOf | MCAL/USART_driver.c:133-245 | TX, RX, CTS and RTS of each instance are four distinct single pins. |
| Usart.HundredthsBracket | MCAL/USART_driver.c:13-16 | 100 x MANTISSA <= USARTDIV_MUL100 < 100 x MANTISSA + 100. |
| Usart.BrrFromPartsNoWrap | MCAL/USART_driver.c:15-18 | Without wrap-around, the register is 16 x mantissa plus a fraction in 0..15. |
| Usart.BrrNoOverflow | MCAL/USART_driver.c:13-18 | For bus clocks below 2^32/25, the fraction is in 0..15 (so `& 0xF` drops nothing), and BRR = 16 x floor(pclk/(16 baud)) + fraction. |
| Usart.BrrIsScaledHundredths | MCAL/USART_driver.c:13-18 | BRR is USARTDIV_MUL100 converted from hundredths to sixteenths, rounded down. |
| Usart.BrrBounds | MCAL/USART_driver.c:13-18 | BRR x baud <= pclk < (BRR + 2) x baud: the divider is within two sixteenths of the exact one. |
| Usart.BrrWorkedValues | MCAL/USART_driver.c:13-18 | At 8 MHz, BRR is 0x45 for 115200 baud and 0x341 for 9600 baud. |
| Usart.BusClock | MCAL/USART_driver.c:67-76 | The clock BRR is programmed from is what the as-written getters report: MCAL_RCC_GetPCLK2Freq for USART1 and MCAL_RCC_GetPCLK1Freq otherwise. It is at most SYSCLK, so the 32-bit BRR arithmetic never wraps. |
| Usart.BusClockRealWithoutAhbDivision | MCAL/USART_driver.c:67-76 | While HPRE does not divide, the reported clock is the instance's real bus clock. |
| Usart.BrrIgnoresAhbDivision | MCAL/USART_driver.c:67-76 | With CFGR = 0x80 (AHB /2), USART1 at 115200 baud gets BRR 0x45, the value for 8 MHz, while its real bus clock is 4 MHz. |
| Usart.ReceivedKeepsDataBits | MCAL/USART_driver.c:347-413 | For any 9-bit DR, the value stored is exactly DR's data bits: nine, eight or seven, by payload and parity. |
| Usart.LoopbackKeepsData | MCAL/USART_driver.c:260-415 | A value sent and received under one configuration comes back as its data bits. The transmitter never keeps fewer bits than the receiver reads. |
| Usart.NineBitPayloadLostAsWritten | MCAL/Inc/USART_driver.h:28 | With the uint8 field as declared, a 9-bit payload can never be selected, and SendData always masks to 8 bits. |
| Usart.UsartConfigAsWritten | MCAL/Inc/USART_driver.h:23-39 | The uint8 fields (mode, payload length, flow control, IRQ enable) keep only their low byte. Baud rate, parity, stop bits and callback pass unchanged. |
| Usart.NarrowFieldsDropSettings | MCAL/Inc/USART_driver.h:23-39 | A 9-bit, RTS_CTS, parity-error-IRQ configuration reaches the driver as 8-bit, no flow control, no IRQ. |
| Usart.NineBitPayloadKept | MCAL/USART_driver.c:272-296 | With wide fields, a 9-bit payload keeps its ninth bit, and without parity all nine are data. |
| Usart.StringFrames | MCAL/USART_driver.c:309-325 | The frames for n characters number exactly n. |
| Usart.EightBitFramesAreCharacters | MCAL/USART_driver.c:309-325 | With an 8-bit payload, frame i is character i. |
| Usart.FirstCarriageReturn | MCAL/USART_driver.c:437-446 | The index found holds a frame received as '\r', and no earlier frame is one. |
| Usart.ReceivedFrames | MCAL/USART_driver.c:430-434 | A counted receive stores one value per frame. |
| Usart.LineBytes | MCAL/USART_driver.c:435-447 | A line receive stores one value per frame before the '\r'. |
| Usart.LineExcludesTerminator | MCAL/USART_driver.c:435-447 | No stored value of a line is '\r', and each is a byte. |
| Usart.ConfigurePins | MCAL/USART_driver.c:145-171 | TX, RX and, when the flow control uses them, CTS and RTS are configured. Every pin outside those used keeps its configuration, and ODR and the write trace are unchanged. |
| Usart.ConfigureDataPins | MCAL/USART_driver.c:145-154 | TX is an alternate-function push-pull output and RX an alternate-function input. Every other pin keeps its configuration, and ODR and the write trace are unchanged. |
| Usart.ConfigureFlowPins | MCAL/USART_driver.c:156-171 | CTS is a floating input under CTS or RTS_CTS, and RTS an AF output under RTS or RTS_CTS. Every pin outside the ones used keeps its configuration, and ODR and the write trace are unchanged. |
| Usart.SetUpPin | MCAL/USART_driver.c:145-171 | The pin gets the nibble for its mode at 10 MHz. Every other pin keeps its configuration, and ODR and the write trace are unchanged. |
| Usart.SetUpPinIf | MCAL/USART_driver.c:156-171 | As SetUpPin when the pin is used, and nothing changes otherwise. |
| Usart.PinsUsed | MCAL/USART_driver.c:145-171 | TX and RX are always used, CTS exactly under CTS or RTS_CTS, RTS exactly under RTS or RTS_CTS, and no other pin. |
| Usart.DataPinsKept | MCAL/USART_driver.c:156-171 | Configuring the flow-control pins keeps TX's and RX's configuration. |
| Usart.UsartPort.Configure | MCAL/USART_driver.c:37-82 | The stored configuration is cfg. CR1, CR2 and CR3 keep their old bits and gain cfg's. BRR holds the divider for the bus clock. DR and the lines are unchanged. |
| Usart.UsartPort.SendData | MCAL/USART_driver.c:260-297 | DR holds the value masked to the stored payload width, and that frame is appended to what was sent. The configuration and incoming line are unchanged. |
| Usart.UsartPort.SendString | MCAL/USART_driver.c:309-325 | Exactly the frames of the first str_len characters are sent, or, when str_len is 0, those of every character before the first NUL, in order. |
| Usart.UsartPort.ReceiveData | MCAL/USART_driver.c:340-415 | When polling, the next frame is taken off the line into DR. The value stored is DR masked by payload and parity. |
| Usart.UsartPort.ReceiveBuffer | MCAL/USART_driver.c:427-448 | With a length, exactly that many received values are stored and consumed. With 0, the low bytes before the first '\r' are stored and the '\r' is consumed but not stored. |
| Usart.UsartPort.ReceiveCounted | MCAL/USART_driver.c:430-434 | Exactly `length` received values are stored in order, and those frames are consumed. |
| Usart.UsartPort.ReceiveLine | MCAL/USART_driver.c:435-447 | The low bytes before the first '\r' are stored in order, and the line resumes after the '\r'. |
| Usart.UsartDriver.constructor | MCAL/USART_driver.c:21 | Every entry of the static configuration table starts zeroed, with no callback. |
| Usart.UsartDriver.SetPins | MCAL/USART_driver.c:133-245 | AHBENR, APB2ENR and APB1ENR each become their old value with exactly the pin port's enable bit ORed in (WithTarget), so that port is clocked and no clock is disabled. The instance's pins are configured for its stored flow control, and every other pin of that port keeps its configuration. ODR and the write traces of both ports, the other port's configuration, and CR, CFGR and the reset registers are unchanged. |
| Usart.UsartDriver.EnableClock | MCAL/USART_driver.c:35-46 | AHBENR, APB2ENR and APB1ENR each become their old value with exactly the id's enable bit ORed in (WithTarget), so its clock runs and no enabled clock is disabled. CR, CFGR and the reset registers are unchanged. |
| Usart.UsartDriver.ConfigureInstancePins | MCAL/USART_driver.c:145-171 | The instance's pins are set up on its port, and every other pin of both ports keeps its configuration. ODR and the write traces are unchanged. |
| Usart.UsartDriver.Init | MCAL/USART_driver.c:31-99 | The instance stores cfg and is configured with BRR from the as-written bus clock getter (PCLK2 for USART1, PCLK1 for USART2/3). Each enable register is its old value with the instance's bit and then the pin port's bit ORed in (nested WithTarget), so both clocks run and no clock is disabled, with CR, CFGR and the reset registers unchanged. Its NVIC line is enabled exactly when an IRQ is chosen. Its pins are set up, every other GPIO pin keeps its configuration, and ODR and the write traces are unchanged. |
| Usart.UsartDriver.SetUpInstance | MCAL/USART_driver.c:31-96 | Clock, configuration with BRR from the as-written bus clock getter, and NVIC enable as in Init, before the pins. Each enable register is its old value with exactly the instance's bit ORed in (WithTarget), so no clock is disabled, and CR, CFGR and the reset registers are unchanged. |
| Usart.UsartDriver.ClockAndConfigure | MCAL/USART_driver.c:34-78 | The instance's clock is enabled, then its registers are configured, with BRR from the as-written getter the source calls. Each enable register is its old value with exactly the instance's bit ORed in (WithTarget), so no clock is disabled, and CR, CFGR and the reset registers are unchanged. |
| Usart.UsartDriver.DeInit | MCAL/USART_driver.c:108-124 | The instance's RCC reset bit is set and its NVIC line is written to ICER. The enable registers, CR and CFGR are unchanged. |
| Usart.UsartDriver.Interrupt | MCAL/USART_driver.c:462-488 | The line's pending bit is cleared through ICPR, and the callback of the instance's own slot, if any, is the one called. |
| CString.NulIndex | HAL/lcd_driver.c:201-206 | The index of the first NUL: it holds 0, and nothing before it does. |
| Led.OnAndOffAgreeWithWiring | HAL/led_driver.c:20-78 | Only the two defined wirings write anything. TurnOn's level lights the LED and TurnOff's darkens it in both wirings, and the two are opposite. |
| Led.Init | HAL/led_driver.c:20-34 | The pin is configured as given and every other pin keeps its configuration. The off level is written, so the LED starts dark, and ODR changes only on the LED's pin. A NULL config does nothing. |
| Led.InitPin | HAL/led_driver.c:22-31 | For a present config: the pin configured as given, only it changed, the off level written, only its ODR bit changed, and the LED dark. |
| Led.ConfigurePin | HAL/led_driver.c:23 | The pin gets the nibble for its mode and speed. Every other pin keeps its configuration, only the pin's ODR bit may change, and no pin write is made. |
| Led.WriteLevel | HAL/led_driver.c:44-78 | The level (if any) is written to the pin, ODR becomes OdrAfter and changes only on that pin, and CRL/CRH are unchanged. |
| Led.OdrAfterKeepsOthers | HAL/led_driver.c:44-78 | Writing a level to the LED pin keeps every other ODR bit. |
| Led.LevelsShine | HAL/led_driver.c:44-78 | In either wiring, after TurnOn's level the LED shines and after TurnOff's it is dark. |
| Led.TurnOn | HAL/led_driver.c:44-56 | Exactly the lighting level is written, and nothing for LED_Mode_max or a NULL config. ODR changes only on the LED's pin, and CRL/CRH are unchanged. Afterwards the LED shines. |
| Led.TurnOff | HAL/led_driver.c:66-78 | Exactly the darkening level is written, and nothing for LED_Mode_max or a NULL config. ODR changes only on the LED's pin, and CRL/CRH are unchanged. Afterwards the LED is dark. |
| Led.Toggle | HAL/led_driver.c:88-94 | The pin's ODR bit flips, so the LED goes from lit to dark or back in either wiring. No pin write is made and CRL/CRH are unchanged. |
| Led.ToggleFlipsShining | HAL/led_driver.c:88-94 | Toggling the pin changes whether the LED shines, in either wiring. |
| Keypad.FirstPressedIsFirst | HAL/keypad_driver.c:77-85 | The key found is pressed and no pressed key precedes it in row-major order. None means no key from the start point on is pressed. |
| Keypad.NoButtonIsNoKey | HAL/keypad_driver.c:13-18 | No entry of the button table equals 'F'. |
| Keypad.NoKeyIffNothingPressed | HAL/keypad_driver.c:74-90 | The scan returns 'F' exactly when no key is pressed. Otherwise it returns the button of a pressed key with no pressed key before it. |
| Keypad.RowPulses | HAL/keypad_driver.c:78-87 | Scanning n rows makes 2n row writes. |
| Keypad.OneRowAtATime | HAL/keypad_driver.c:78-87 | At every point of a scan at most one row is low, and none is low at the end. |
| Keypad.LastRowPulse | HAL/keypad_driver.c:78-87 | Driving a row low makes it the only low row, and driving it high leaves none. |
| Keypad.GetPressedKey | HAL/keypad_driver.c:74-90 | The key returned is ScanResult of the pressed keys. The row writes are the pulses of the rows scanned: up to the row of the key found, or all four. ODR ends with the scanned rows high and every other bit as before, and CRL/CRH are unchanged. |
| Keypad.ScanColumns | HAL/keypad_driver.c:79-86 | With one row low, the column loop finds a key exactly when the first pressed key from this row on is in this row, and returns its button. Otherwise the search goes on from the next row. |
| Keypad.LowerRow | HAL/keypad_driver.c:78 | Writing the row low appends that write and leaves ODR with the earlier rows high and this row low. CRL/CRH are unchanged. |
| Keypad.RaiseRow | HAL/keypad_driver.c:83-87 | Writing the row high completes its pulse, so ODR has every row up to this one high. CRL/CRH are unchanged. |
| Keypad.RaisedOdrSetsRowsBelow | HAL/keypad_driver.c:78-87 | After n row pulses, ODR is the old ODR with the first n row bits set. |
| Keypad.RaisedAfterLowered | HAL/keypad_driver.c:78-87 | Writing row n low then high takes ODR from n raised rows to n + 1. |
| Keypad.PulseSetsPin | HAL/keypad_driver.c:78-87 | A low-then-high write of a pin leaves ODR with that pin set and every other bit as before. |
| Keypad.RowsBelowAreRows | HAL/keypad_driver.c:33-50 | ROWS_BELOW[k] holds only row pins, and it holds row r exactly when r < k. |
| Keypad.Init | HAL/keypad_driver.c:31-64 | The four rows are push-pull outputs written high, and the four columns are pulled-up inputs with their ODR bits set. No other pin's configuration or ODR bit changes. |
| Keypad.InitRows | HAL/keypad_driver.c:33-50 | The four rows are outputs, written high in order. No other pin's configuration or ODR bit changes. |
| Keypad.InitRowPair | HAL/keypad_driver.c:33-42 | Two rows are configured and written high in order. No other pin's configuration or ODR bit changes. |
| Keypad.InitRow | HAL/keypad_driver.c:36-38 | One row is configured and written high. No other pin's configuration or ODR bit changes. |
| Keypad.InitColumns | HAL/keypad_driver.c:52-63 | The four columns are pulled-up inputs with their ODR bits set. No other pin's configuration or ODR bit changes, and no pin write is made. |
| Keypad.InitColumnPair | HAL/keypad_driver.c:52-57 | Two columns are pulled-up inputs with their ODR bits set. No other pin changes and no pin write is made. |
| Keypad.InitColumn | HAL/keypad_driver.c:52-54 | One column is a pulled-up input with its ODR bit set. No other pin's configuration or ODR bit changes, and no pin write is made. |
| Keypad.KeypadPins | HAL/keypad_driver.c:31-64 | The row and column pins are disjoint, and the row and column masks are the ORs of their pins and share no bit. |
| Keypad.TwoMasksSet | HAL/keypad_driver.c:31-64 | Two steps that each set their own mask and keep the bits outside it together set both masks and keep the bits outside their union. |
| Lcd.CursorAddress | HAL/lcd_driver.c:246-249 | For a row code and a column 1..16, the command is set-DDRAM-address, with address row + column - 1. |
| Lcd.RunData | HAL/lcd_driver.c:122-125 | Four data-line writes latch nothing and set exactly those four lines. |
| Lcd.RunPulse | HAL/lcd_driver.c:230-235 | An enable pulse latches RS and the data lines as they stand, and leaves EN low. |
| Lcd.RunRs | HAL/lcd_driver.c:109 | Writing RS latches nothing. |
| Lcd.ByteValueOfBits | HAL/lcd_driver.c:111-120 | In 8-bit mode, the byte on D0..D7 reads back as the byte sent. |
| Lcd.NibblesJoin | HAL/lcd_driver.c:121-131 | In 4-bit mode, the two nibbles put on D4..D7 join back into the byte. |
| Lcd.EightBitRun | HAL/lcd_driver.c:108-137 | 8-bit mode latches once, after RS and all eight data lines are set. |
| Lcd.FourBitRun | HAL/lcd_driver.c:121-136 | 4-bit mode latches twice: the high nibble first, then the low. |
| Lcd.ByteReceived | HAL/lcd_driver.c:108-176 | Sending a command or a character delivers exactly that one transfer, in either mode. |
| Lcd.EightBitReceived | HAL/lcd_driver.c:108-120 | In 8-bit mode, the transfer delivered is the byte sent, with its RS. |
| Lcd.FourBitReceived | HAL/lcd_driver.c:121-136 | In 4-bit mode, the pair of transfers delivered is the byte sent, with its RS. |
| Lcd.StringReceived | HAL/lcd_driver.c:201-206 | Sending s[0..n-1] delivers exactly those characters, in order. |
| Lcd.StringStep | HAL/lcd_driver.c:203-204 | One more pass of the loop delivers one more character after the earlier ones. |
| Lcd.CommandsReceived | HAL/lcd_driver.c:87-97 | A sequence of commands is delivered exactly, in order. |
| Lcd.PreambleRun | HAL/lcd_driver.c:69-78 | The 4-bit preamble latches once, with RS low and 0x2 on D7..D4. |
| Lcd.NibbleOfHighBits | HAL/lcd_driver.c:73-76 | The upper half of 0x28 reads back as 0x2 on D7..D4. |
| Lcd.InitReceived | HAL/lcd_driver.c:58-98 | LCD_Init delivers function set, Display_Mode, clear and Entry_Mode in that order. In 4-bit mode they follow a single nibble 0x2 with RS low. |
| Lcd.InitOutput | HAL/lcd_driver.c:17-18 | One more pin becomes an output, and earlier outputs stay so. Every other pin keeps its configuration, and ODR is unchanged. |
| Lcd.InitPair | HAL/lcd_driver.c:17-21 | Two pins become outputs, and every other pin keeps its configuration. ODR is unchanged. |
| Lcd.InitLines | HAL/lcd_driver.c:23-48 | Four data pins become outputs. Every pin outside those four keeps its configuration, and ODR is unchanged. |
| Lcd.GpioInit | HAL/lcd_driver.c:12-49 | RS, EN, D4..D7 and, in 8-bit mode only, D0..D3 become outputs, with no pin write. Every other pin of the port (the keypad's, when they share it) keeps its configuration. The init uses MCAL_GPIO_Init's output modes only, so ODR is unchanged. |
| Lcd.SendEnableSignal | HAL/lcd_driver.c:230-235 | EN is set then reset, and nothing else is written. CRL and CRH are unchanged, and ODR changes only on the LCD's pins. |
| Lcd.PutLine | HAL/lcd_driver.c:109-131 | One MCAL_GPIO_WritePin of one LCD line: that write is appended. CRL/CRH are unchanged and ODR changes only on the LCD's pins. |
| Lcd.LineWriteKeepsOthers | HAL/lcd_driver.c:109-131 | Writing any LCD line keeps every ODR bit outside the LCD's pins. |
| Lcd.PinInMask | HAL/lcd_driver.c:109-131 | Every LCD line lies inside the mask of the LCD's pins. |
| Lcd.PutNibble | HAL/lcd_driver.c:122-131 | Four bits of the byte go onto four data lines in order. CRL and CRH are unchanged, and ODR changes only on the LCD's pins. |
| Lcd.PutFour | HAL/lcd_driver.c:122-131 | The four bits of b picked by the masks go onto four consecutive data lines in order. CRL and CRH are unchanged, and ODR changes only on the LCD's pins. |
| Lcd.PutFourLines | HAL/lcd_driver.c:122-131 | Four line writes in order, each high exactly when its value is nonzero. CRL and CRH are unchanged, and ODR changes only on the LCD's pins. |
| Lcd.FourOnPins | HAL/lcd_driver.c:122-131 | Four data writes placed on the pins are the four writes of consecutive data lines. |
| Lcd.PutData | HAL/lcd_driver.c:111-133 | The data phase by mode: bits 0..7 onto D0..D7, or high nibble, pulse, low nibble. CRL and CRH are unchanged, and ODR changes only on the LCD's pins. |
| Lcd.PutRs | HAL/lcd_driver.c:109 | RS is written low for a command and high for a character. CRL and CRH are unchanged, and ODR changes only on the LCD's pins. |
| Lcd.SendByte | HAL/lcd_driver.c:108-176 | RS, the data phase and a pulse, as one trace. CRL and CRH are unchanged, and ODR changes only on the LCD's pins. |
| Lcd.SendCommand | HAL/lcd_driver.c:108-137 | The trace is the byte's writes with RS low. CRL and CRH are unchanged, and ODR changes only on the LCD's pins. |
| Lcd.SendChar | HAL/lcd_driver.c:147-176 | The trace is the byte's writes with RS high. CRL and CRH are unchanged, and ODR changes only on the LCD's pins. |
| Lcd.SetCursor | HAL/lcd_driver.c:246-249 | Sends the command row + column - 1. CRL and CRH are unchanged, and ODR changes only on the LCD's pins. |
| Lcd.SendString | HAL/lcd_driver.c:201-206 | Sends every character before the first NUL, each once, in order. CRL and CRH are unchanged, and ODR changes only on the LCD's pins. |
| Lcd.SendNextChar | HAL/lcd_driver.c:203-204 | One pass of the string loop extends the trace by the next character. CRL and CRH are unchanged, and ODR changes only on the LCD's pins. |
| Lcd.SendCharPos | HAL/lcd_driver.c:188-191 | The cursor command, then the character. CRL and CRH are unchanged, and ODR changes only on the LCD's pins. |
| Lcd.SendStringPos | HAL/lcd_driver.c:218-221 | The cursor command, then the string. CRL and CRH are unchanged, and ODR changes only on the LCD's pins. |
| Lcd.SendPreamble | HAL/lcd_driver.c:68-78 | RS low, the upper half of 0x28 on D4..D7, then a pulse. CRL and CRH are unchanged, and ODR changes only on the LCD's pins. |
| Lcd.SendCommands | HAL/lcd_driver.c:87-97 | Sends the commands one after another. CRL and CRH are unchanged, and ODR changes only on the LCD's pins. |
| Lcd.SendNext | HAL/lcd_driver.c:87-97 | One more command extends the trace by its writes. CRL and CRH are unchanged, and ODR changes only on the LCD's pins. |
| Lcd.Init | HAL/lcd_driver.c:58-98 | The pins are outputs, and the trace is the preamble (4-bit only) followed by the commands of InitCommands. The port's other pins keep their configuration, and ODR changes only on the LCD's own pins. |
| Lcd.SendInitWrites | HAL/lcd_driver.c:68-97 | The preamble for the mode, then the given commands, as one trace. CRL/CRH are unchanged and ODR changes only on the LCD's pins. |
| Lcd.SendModePreamble | HAL/lcd_driver.c:68-78 | The preamble in 4-bit mode and nothing in 8-bit mode. CRL/CRH are unchanged and ODR changes only on the LCD's pins. |
| Ecu.SearchFinds | APP/ecu.c:217-230 | The search succeeds exactly when a slot below NO_OF_SLOTS holds the ID, and it returns the first such slot. |
| Ecu.Search | APP/ecu.c:217-230 | A slot the loop returns is below NO_OF_SLOTS, not before the start, and holds the ID. |
| Ecu.LookupIff | APP/ecu.c:217-230 | Check_ID reports ID_Found exactly when one of the first NO_OF_SLOTS entries is the ID. |
| Ecu.Lookup | APP/ecu.c:217-230 | ID_Found only for an ID among the first NO_OF_SLOTS entries. |
| Ecu.AcceptedNeverNoKey | APP/ecu.c:148-150 | The do-while filter never keeps 'F', and keeps only keys that were read. |
| Ecu.Accepted | APP/ecu.c:148-168 | The do-while filter keeps at most as many results as the keypad gave. |
| Ecu.Enrolled | APP/ecu.c:147-171 | Three IDs are stored. |
| Ecu.EnrolledNeverNoKey | APP/ecu.c:147-171 | No enrolled ID is 'F'. |
| Ecu.ReadKey | APP/ecu.c:148-150 | The poll loop consumes keys up to and including the first accepted one, and returns it (never 'F'). |
| Ecu.PrintSlotsOnce | APP/ecu.c:191-208 | The refresh lowers the flag, draws exactly when the flag was raised, changes nothing else, and a second call draws nothing. |
| Ecu.SlotsMessage | APP/ecu.c:195-205 | "Parking is full!" appears exactly when no place is free. Otherwise the glyph shown is Free_Slots + '0', which for 1..9 free places is the digit that stands for the count. |
| Ecu.EnrolmentFits | APP/ecu.c:143-170 | Example on the fixed texts: no enrolment prompt runs past column 16. |
| Ecu.SummaryFits | APP/ecu.c:174-181 | Example on the fixed texts: no line of the admin summary runs past column 16. |
| Ecu.SlotsFit | APP/ecu.c:195-205 | Example on the fixed texts: no line of the user screen runs past column 16. |
| Ecu.GateEndsDown | APP/ecu.c:239-284 | The gate routine raises its own servo, blinks only green, ends with green off, and its last event lowers the same servo. |
| Ecu.AlarmsLowerAndEcho | APP/ecu.c:293-341 | Wrong_RFID lowers both servos and raises none, and blinks only red. Trigger_Alarm's first event echoes exactly the byte read, and it echoes nothing else. |
| Ecu.Parking.constructor | APP/ecu.c:31-34 | At boot Free_Slots is 3, the flags are 0, Users_IDs is zeros, and nothing has happened. |
| Ecu.Parking.EnterCallback | APP/ecu.c:343-345 | Only Enter_Flag changes, to 1. |
| Ecu.Parking.ExitCallback | APP/ecu.c:347-349 | Only Exit_Flag changes, to 1. |
| Ecu.Parking.CheckId | APP/ecu.c:217-230 | The loop with break returns Lookup of the table: ID_Found exactly when one of the first three entries is the ID. |
| Ecu.Parking.PrintFreeSlots | APP/ecu.c:191-208 | The globals and trace change as PrintSlots says. |
| Ecu.Parking.GateOpen | APP/ecu.c:239-284 | The globals are unchanged and the gate's open-and-close events are appended. |
| Ecu.Parking.WrongRfid | APP/ecu.c:293-310 | The globals are unchanged and the rejection events are appended. |
| Ecu.Parking.TriggerAlarm | APP/ecu.c:319-341 | The globals are unchanged; the echo of the byte read and three red blinks are appended. |
| Ecu.Parking.EchoId | APP/ecu.c:327 | The byte is echoed on the gate's line. |
| Ecu.Parking.AdminInit | APP/ecu.c:139-182 | Users_IDs holds the first three accepted keypad results in order, with the enrolment and summary screens appended. The globals are unchanged. |
| Ecu.Parking.EnrolUser | APP/ecu.c:145-153 | One slot gets the next accepted key and the caption and ID are shown. Other slots are unchanged. |
| Ecu.Parking.ShowSummary | APP/ecu.c:173-181 | Clears the admin screen and lists the stored IDs. |
| AppStates.Next | APP/main.c:16-17 | One pass of the loop calls the handler fp_App_State_Handler points at: APP_Current_State becomes that handler, and the table stays three IDs long. |
| AppStates.AdminNext | APP/app_states.c:27-35 | Admin records itself and moves to Idle with three enrolled IDs. Free_Slots and both gate flags are unchanged. |
| AppStates.IdleNext | APP/app_states.c:37-61 | Idle records itself, keeps the IDs and Free_Slots, and a pending Enter_Flag always selects Enter_Gate. |
| AppStates.GateNext | APP/app_states.c:63-113 | A gate handler records itself, keeps the IDs and raises the refresh flag. It moves to Idle exactly when a place is free afterwards, and to Full otherwise. |
| AppStates.FullNext | APP/app_states.c:115-134 | Full records itself, keeps the IDs and Free_Slots, and leaves Enter_Flag cleared. |
| AppStates.Run | APP/main.c:14-18 | Any sequence of handler calls and interrupts keeps the ID table three entries long. |
| AppStates.InitialInv | APP/ecu.c:31-34 | The machine at reset satisfies the invariant. |
| AppStates.NextKeepsInv | APP/app_states.c:19-134 | Every handler preserves the invariant. |
| AppStates.ArriveKeepsInv | APP/ecu.c:343-349 | An interrupt preserves the invariant and changes neither the handler nor Free_Slots. |
| AppStates.RunKeepsInv | APP/app_states.c:37-134 | Any interleaving of handler calls and interrupts keeps the invariant and 0 <= Free_Slots <= 3. |
| AppStates.ReachableInv | APP/app_states.c:56-58 | Every reachable machine satisfies the invariant, so Idle always has a free place when Enter_Gate is chosen. |
| AppStates.GateCountsExactly | APP/app_states.c:69-112 | Across a gate handler, Free_Slots changes by exactly -1 (entry) or +1 (exit) if the ID is known, and by 0 otherwise, with no wrap. |
| AppStates.InitAndAdmin | APP/app_states.c:19-35 | Init moves to Admin and changes nothing else. Admin moves to Idle, raises the refresh flag and stores the enrolled IDs. |
| AppStates.IdleOnExit | APP/app_states.c:44-53 | With only Exit_Flag set: with a car inside, move to Exit_Gate and keep the flag. With the park empty, clear the flag, sound the alarm on the exit line and stay Idle. Free_Slots is unchanged either way. |
| AppStates.IdleOnEnter | APP/app_states.c:37-61 | With Enter_Flag set the next handler is Enter_Gate, and a pending Exit_Flag is kept while a car is inside. With no flags raised, only the refresh happens and Idle stays current. |
| AppStates.GateHandled | APP/app_states.c:63-113 | The gate's flag is cleared and the refresh flag raised. The byte is echoed first, then the gate opens or the ID is rejected. The next handler is Idle exactly when a place is free, else Full. |
| AppStates.FullHandled | APP/app_states.c:115-134 | Full never moves to Enter_Gate, clears Enter_Flag with an alarm on the entry line, moves to Exit_Gate exactly when Exit_Flag is set, and never changes Free_Slots. |
| AppStates.ArriveIdempotent | APP/ecu.c:343-349 | An arrival sets only its own flag to 1, and a repeated arrival changes nothing more. |
| AppStates.App.constructor | APP/app_states.c:16-17 | At reset both state variables are Init and the ECU globals are at boot values. |
| AppStates.App.Step | APP/main.c:16-17 | One loop pass: the machine and trace change exactly as Next says. |
| AppStates.App.AdminHandler | APP/app_states.c:27-35 | Changes the machine and trace as AdminNext says. |
| AppStates.App.IdleHandler | APP/app_states.c:37-61 | Changes the machine and trace as IdleNext says. |
| AppStates.App.GateHandler | APP/app_states.c:63-113 | Changes the machine and trace as GateNext says for that gate. |
| AppStates.App.Admit | APP/app_states.c:77-83 | Known ID: Free_Slots is counted (-1 entry, +1 exit) and the gate opens. Unknown ID: nothing changes and the rejection runs. |
| AppStates.App.FullHandler | APP/app_states.c:115-134 | Changes the machine and trace as FullNext says. |
| AppStates.App.Interrupted | APP/ecu.c:343-349 | The gate's callback raises its flag and nothing else happens. |

## Left out

- Busy-waits on hardware flags are taken as finished. These are the USART TXE, TC and RXNE waits (the RXNE wait ends when the line's queue delivers the next frame), the RCC clock-ready and switch-status waits, and the `for` delay loops of the blink routines.
- The SysTick delays inside the LCD driver are left out, and so are the SysTick, timer and servo-pulse drivers. A servo command is one event.
- NVIC_SystemReset is not modelled: it resets the chip and never returns.
- MCAL_GPIO_DeInit, MCAL_GPIO_ReadPort, MCAL_GPIO_WritePort and MCAL_GPIO_LockPin are not modelled. The application never calls them, and the lock sequence depends on hardware read-back.
- ECU_Init (the pin, port, LCD and baud wiring of the board) is not modelled. The model starts from the globals' boot values, and the handler for Init only moves to Admin.
- The USART driver is modelled for the three instances USART1..USART3 only. For any other base address the source enables no clock but still writes to the registers at that address.
- The USART status register (SR) and MCAL_USART_Wait_TC are left out; no contract depends on them.
- The `uint16` store through a pointer to a `uint8` (in Trigger_Alarm, the gate handlers and the line mode of ReceiveBuffer) is not modelled. That store overruns into the neighbouring byte. Received IDs and the line-mode `temp` are bytes: the model keeps the low byte of what was received.
- The LCD's own behaviour is left out: glyphs, the display, and timing between EN edges. Only the pin-write trace is modelled, with a model of the controller's input side that latches RS and D0..D7 when EN falls. An LCD mode outside LCD_8BIT/LCD_4BIT is not modelled, and the `Rows` field is kept but unused, as in the driver.
- Interrupts are not concurrent with handlers. An arrival happens between two handler calls, as `App.Interrupted` or an `Interrupt` action of `Run`.
- main's endless loop is modelled as repeated `App.Step`, with the pure `Run` over finite action sequences.
- Floating point and clock speeds beyond the reported constants are left out. The PLL frequency is the constant 16 MHz, as in the getter.
- Keypad.GetPressedKey: the keys held down are a set that stays fixed for one scan, and the wait for the key's release is taken as finished.
- Ecu.Parking.GateOpen: the wait for the gate's PIR sensor to read clear is taken as finished before the servo goes down.
- Ecu.Parking.AdminInit: requires the keypad to yield at least three results other than 'F'. Otherwise the source polls forever, and so AppStates.Ready and AppStates.KeysSuffice demand the same of the Admin handler's inputs.
- Ecu.Parking.TriggerAlarm: the byte read from the data register is a parameter, because reading DR is what the USART model's ReceiveData does. The application layer records the echo as an event rather than calling the driver model.
- The routines of ecu.c record the text they show as a `Message` whose characters `Wording` gives, rather than as the LCD pin trace; the two layers are proved separately.
- Usart.UsartPort.SendData: the value sent is recorded in a ghost trace `sent`. The shift register and the line itself are not modelled.
- Gpio.GpioPort.Init: requires a single pin (IsPin), while MCAL_GPIO_Init accepts any `uint16` mask. For a mask of several pins Get_CRLH_Position returns 55 and the source shifts 0xF by 55 bits, which C leaves undefined; that case is not modelled, and no caller in the firmware passes one.
- Gpio.GpioPort.WritePin: ODR is updated from the low 16 bits of the mask, as the hardware's BSRR/BRR set and reset halves do. A mask with bits above 15 would, on the hardware, reset bits through BSRR's upper half; no caller passes one, and the model ignores those bits.
- Lcd.ValidConfig: does not require RS, EN and the data pins to be distinct, as the source's configuration struct does not either. The delivery lemmas read the pin trace by signal, so they hold for any assignment; with two signals sharing a pin, the hardware would see only the last level written to it.
- Keypad.GetPressedKey: the nested `for` loops with an early `return` are modelled as a `while` over the rows that calls ScanColumns, LowerRow and RaiseRow; the order of the pin writes and reads is the source's.
- Usart.UsartDriver.Init: takes the configuration as a UsartConfig whose fields are wide enough for their constants. The `uint8` fields of the source's struct are the case cfg == UsartConfigAsWritten(c); see the findings.
- Usart.UsartPort.ReceiveData: one `DR` field stands for both the transmit and the receive data register, which the hardware keeps apart behind one address. A receive without polling therefore reads back whatever SendData last wrote, where the hardware would return the last frame received.

## Findings

| source | as written | input that shows it | evidently intended | confidence | as-written member | corrected member |
|---|---|---|---|---|---|---|
| MCAL/Inc/USART_driver.h:28 | `Payload_Length` (and `HwFlowCtl`, `IRQ_Enable`) are `uint8`, but `UART_Payload_Length_9B` is `1 << 12`, so the stored value is 0 | a configuration with `Payload_Length = UART_Payload_Length_9B` | fields wide enough for their constants, so a 9-bit payload is sent with its ninth bit | high (not executed) | Usart.NineBitPayloadLostAsWritten | Usart.NineBitPayloadKept |
| MCAL/RCC_driver.c:173 | HPRE is read with `& 0b111`, which selects only the all-zero half of `AHBPrescTable` | CFGR = 0x80 (HPRE = SYSCLK/2): HCLK reported as 8 MHz, actually 4 MHz | HPRE read with all four bits, `& 0b1111` | high (not executed) | Rcc.HclkAsWrittenIgnoresDivideByTwo | Rcc.HclkFreq |
| MCAL/RCC_driver.c:186 | PCLK1 (and PCLK2) shift SYSCLK, skipping the AHB prescaler | CFGR = 0x480 (AHB /2, APB1 /2): PCLK1 reported as 4 MHz, actually 2 MHz | shift HCLK | medium (not executed) | Rcc.Pclk1AsWrittenSkipsAhb | Rcc.Pclk1Freq |
| MCAL/NVIC_driver.c:187 | priority byte `IP[4*(IRQn/32) + IRQn%32]` | IRQn 5 and 33 share a byte, and so do USART1 (37) and EXTI3 (9) | one byte per interrupt, `IP[IRQn]` | high (not executed) | Nvic.PrioritySlotsCollide | Nvic.PrioritySlotsDistinct |

The driver methods follow the code as written: Nvic.NvicRegs.SetPriority and
GetPriority use the colliding slot, and the USART initialisation programs BRR from the
as-written bus clock getters through Usart.BusClock. The corrected definitions stand
beside them with their properties proved, for a reader who fixes the source.

The USART configuration is the one exception. Usart.UsartDriver.Init takes a UsartConfig
whose fields are wide enough for the driver's constants, which is the corrected struct.
The struct as declared in USART_driver.h is covered as the special case
cfg == UsartConfigAsWritten(c): UsartConfigAsWritten keeps only the low byte of the
`uint8` fields, and Usart.NarrowFieldsDropSettings and Usart.NineBitPayloadLostAsWritten
show what that case loses.
