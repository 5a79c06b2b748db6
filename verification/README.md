# STM32F103 board support: a verified model

The repository is the firmware of an STM32F103 board: the vendor's peripheral library, a CAN bus, uC/OS-II and
lwIP, and on top the application that manages card readers. Its difficult code keeps maps, queues and schedules
inside bit-packed registers and bitmaps, through loops, shifts, masks and handshakes with hardware and interrupt
handlers that act on their own. This project models that code register by register and proves what it is for.

Every peripheral is a class whose fields are its registers; its methods follow the C functions write by write
and are proved against functions on register values. The laws about those functions, over single calls, over
every intermediate state and over whole runs, are lemmas. Registers are 32-bit vectors, so masks, shifts and
wrap-around are the machine's own. Hardware is never assumed to be helpful: status bits come from
arbitrary sequences of words, and CAN mailboxes finish at arbitrary moments between two register accesses.
The kernel is a state machine whose steps are its critical sections, taken by tasks and interrupt handlers in any
order; its calls on bitmaps, rings and control blocks are proved to be those steps.

| module | what it models |
|---|---|
| `CanMailboxes`, `CanTransmit` | the three transmit mailboxes as a protocol between driver and hardware, and the driver running on the registers |
| `CanFrames`, `CanReceive` | message layout, transmission and reception |
| `CanFilters` | fourteen filter banks over seven registers |
| `CanModes`, `Polling` | mode handshakes, initialisation, bounded polling |
| `Adc` | regular ranks, sample times and the right-aligned injected list |
| `Gpio` | the two bit-scanning loops of port configuration, and interrupt routing |
| `Nvic` | the two priority encoders, enabling, and the order of priorities |
| `Clock` | start-up to 72 MHz and the computed frequency |
| `Exti`, `Rtc`, `TickHook` | interrupt lines, the split real-time counter, the timer tick |
| `PriorityMap` | the kernel's sets of priorities and the table that searches them |
| `MessageRing`, `MessageQueues`, `QueueCalls` | message queues, waiting with timeouts, delays, suspension and the ready list |
| `KernelRuns` | the kernel's whole memory, on which every sequence of calls is a run of that state machine |
| `Registry` | the table of card readers in the EEPROM, which it shares with the network configuration |
| `Crc8`, `Replies` | the readers' checksum, what errors it detects, and the announcement it protects |
| `Bits`, `Runs` | bit fields; sequences of calls and the last writer |

Conventions:

- Parameter checks are compiled out in this build (USER/stm32f10x_conf.h:72), so a range that the C code only asserts appears as a
  `requires`, and where the code has a meaning outside it, the result is stated for all values.
- Parameters with two legal values (bank scale, filter mode, FIFO, enable) are flags.
- One read or one write of a volatile register is one step. A read-modify-write of a register that the hardware
  also writes is two steps in the transmit path; elsewhere it acts on the bits that software owns.
- The two unbounded waits of the clock start-up are observed for `patience` further polls, and the outcome says
  whether the flag came; every statement is for all values of `patience`.
- In the kernel a task runs its own code only while it is ready, as the scheduler sees to while the ready list is not empty.
  The status bits of a control block other than those for queues and suspension are always clear here, since semaphores,
  mailboxes, flags and mutexes are left out. A message is a pointer, the null pointer included.

What was found false, with the exact condition:

- The comment on `CAN_TransmitStatus` promises failed for every outcome but success (stm32f10x_can.c:581-588). The code answers pending
  while a request is in flight, and also for a mailbox that does not exist, such as the one `CAN_Transmit` returns when none was
  free (`CanMailboxes.StatusByFlags`).
- A mode request can fail although its loop saw the acknowledgement, and succeed although it timed out: the verdict is a
  further read, which alone decides (`CanModes.SeenThenJudged`, `CanModes.TimedOutThenJudged`).
- Injected ranks are checked against four, not against the list (`Adc.LengthSurvives`).
- `NVIC_Init` shifts by a meaningless amount exactly under the groupings below three, the one after reset among them
  (`Nvic.ShiftDefined`, `Nvic.ResetGroupingShift`).
- A call of `EXTI_Init` keeps a line from being enabled without an edge, write by write, exactly if it does not enable
  that line (`Exti.SightedThroughout`, `Exti.BlindWindow`).
- The two-half counter accesses are exact only without a carry (`Rtc.TornExact` and `Rtc.TornAtCarry`, `Rtc.MendedExact`
  and `Rtc.MendedAtCarry`).
- The application's send reports failure only for a frame that had already failed at the first query
  (`CanTransmit.Bxcan.SendMsg`).
- The count of registered readers is right only while removals name used numbers (`Registry.DeleteKeepsCount`), an odd
  slot is not wholly cleared (`Registry.DeleteClears`), and table and configuration overlap (`Registry.DistributeKeepsConfig`,
  `Registry.DeleteKeepsConfig`, `Registry.FactoryRemovals`): the thirty-eighth of any readers registered in a fresh memory
  damages the configuration, and the forty-ninth the format flag, so that the next start erases the whole table
  (`Registry.FortyNinthUnformats`, `Registry.ReadersSurviveRestart`, `Registry.RunKeepsFlag`).
- There is not always a task to run: the check that keeps `OSTaskSuspend` from the idle task is compiled out
  (UCOSII/CONFIG/os_cfg.h:31), and the calls that delay or block a task have none. Suspending the idle task while no other
  task can run empties the ready list (`MessageQueues.SuspendingIdleEmpties`); `MessageQueues.ReadyListEmpties` and
  `MessageQueues.SuspensionEmpties` say exactly when.

## Model

| member | source | states |
|---|---|---|
| CanMailboxes.NeverWritesBusyMailbox | FWLIB/STM32F10x_FWLib/src/stm32f10x_can.c:515-578 | In every run in which the driver's register accesses interleave freely with the hardware, no driver access changes a mailbox whose TME flag is clear |
| CanMailboxes.AccessesEmptyMailbox | FWLIB/STM32F10x_FWLib/src/stm32f10x_can.c:515-578 | While the driver fills a mailbox, up to and including its request, that mailbox is empty by TME: not even an equal value is written to a busy one |
| CanMailboxes.RequestsWholeFrames | FWLIB/STM32F10x_FWLib/src/stm32f10x_can.c:542-575 | TXRQ rises only at the last access, when identifier, DLC and data of exactly the message being sent are in place, and exactly then the frame counts as accepted; at every other step the accepted frames stay the same |
| CanMailboxes.RequestedIsReceived | FWLIB/STM32F10x_FWLib/src/stm32f10x_can.c:542-575 | A slot that receives the frame which the requested mailbox then holds unpacks to the message that was sent |
| CanMailboxes.FramesConserved | FWLIB/STM32F10x_FWLib/src/stm32f10x_can.c:515-578 | In every reachable state the accepted frames are the waiting, sent and failed ones together, as multisets of whole frames |
| CanMailboxes.RunKeepsInv | FWLIB/STM32F10x_FWLib/src/stm32f10x_can.c:515-578 | The invariant over registers, driver position and history holds in every state of every run |
| CanMailboxes.StatusByFlags | FWLIB/STM32F10x_FWLib/src/stm32f10x_can.c:589-635 | The status answer by the three TSR flags, for every TSR word; a mailbox number above two reads as pending |
| CanMailboxes.StatusTellsFate | FWLIB/STM32F10x_FWLib/src/stm32f10x_can.c:589-635 | In every reachable state the status of a mailbox is the fate of its last request |
| CanMailboxes.StatusIsFateOfFrame | FWLIB/STM32F10x_FWLib/src/stm32f10x_can.c:589-635 | Until the mailbox is requested again, its status is the fate of the very frame requested: still waiting in it, or sent or failed by the hardware since |
| CanMailboxes.FailedStays | FWLIB/STM32F10x_FWLib/src/stm32f10x_can.c:589-635 | Once failed, the answer stays failed until the next request |
| CanTransmit.Bxcan.Transmit | FWLIB/STM32F10x_FWLib/src/stm32f10x_can.c:515-578 | On the registers, against any hardware activity: the history stays a run of the state machine; the returned mailbox is the first that was empty when tested, and is the one in which this message was requested; without one nothing is accepted |
| CanTransmit.Bxcan.Select | FWLIB/STM32F10x_FWLib/src/stm32f10x_can.c:522-539 | The mailboxes are tested in order, once each, and the first one empty at its test is answered |
| CanTransmit.Bxcan.Status | FWLIB/STM32F10x_FWLib/src/stm32f10x_can.c:589-635 | The answer is that of the TSR read at the call; every change of a mailbox during the query is the hardware's |
| CanTransmit.AnswerIsFate | FWLIB/STM32F10x_FWLib/src/stm32f10x_can.c:515-635 | From `CAN_Transmit` to the next request to the mailbox it returned, the status of that number is what has become of the message just sent since the step that requested it |
| CanTransmit.Bxcan.SendMsg | HARDWARE/BSP/bsp_can.c:101-122 | The frame accepted is a standard data frame with the caller's data, its length cut to four bits, and the identifier 0x200, or-ed with the second byte exactly if the first is 1, 7, 8 or 9; the answer is 1 exactly if the frame had already failed when its status was first asked for; a frame that is waiting, or was dropped for want of a mailbox, is answered 0 like one that was sent |
| CanFrames.RoundTrip | FWLIB/STM32F10x_FWLib/src/stm32f10x_can.c:544-575 | Transmit, copy on the wire, receive: type, identifier, RTR, masked DLC and data agree if and only if the message was in the checked ranges, whatever TXRQ, the upper TDTR bits, FMI and the old receive buffer hold |
| CanFrames.RoundTripUnmasked | FWLIB/STM32F10x_FWLib/src/stm32f10x_can.c:560-563 | Against the caller's own message the DLC must also be at most fifteen |
| CanFrames.ProgrammedMeans | FWLIB/STM32F10x_FWLib/src/stm32f10x_can.c:544-575 | A filled mailbox means exactly the message |
| CanFrames.MailboxLayout | FWLIB/STM32F10x_FWLib/src/stm32f10x_can.c:544-575 | In the mailbox of a valid message the data bytes lie in order in TDLR and TDHR, the DLC in the four low bits of TDTR, the identifier from bit 21 or bit 3 of TIR on, IDE in bit 2, RTR in bit 1 and the request in bit 0 |
| CanFrames.SlotLayout | FWLIB/STM32F10x_FWLib/src/stm32f10x_can.c:676-700 | Reception reads them from the same places, with the filter index in the second byte of RDTR |
| CanFrames.IdReadsBack | FWLIB/STM32F10x_FWLib/src/stm32f10x_can.c:544-558 | The identifier word reads back as the message's own fields if and only if the message is valid |
| CanFrames.EarlyRequest | FWLIB/STM32F10x_FWLib/src/stm32f10x_can.c:545-558 | The identifier word itself holds TXRQ exactly for an odd RTR or an odd extended IDE |
| CanFrames.ReceivedFrame | FWLIB/STM32F10x_FWLib/src/stm32f10x_can.c:676-700 | Reception depends on the frame in the slot only, and keeps the identifier field of the other type |
| CanReceive.Receive | FWLIB/STM32F10x_FWLib/src/stm32f10x_can.c:671-712 | The caller's message takes exactly the slot's fields, and the oldest message leaves the FIFO |
| CanFilters.LastRequestWins | FWLIB/STM32F10x_FWLib/src/stm32f10x_can.c:292-376 | After any sequence of calls each bank decodes to the last configuration given for it, in the layout of its scale, or is untouched |
| CanFilters.CallConfigures | FWLIB/STM32F10x_FWLib/src/stm32f10x_can.c:292-376 | One call leaves its bank with exactly the request and every other bank as it was |
| CanFilters.CallIsSafe | FWLIB/STM32F10x_FWLib/src/stm32f10x_can.c:305-375 | Each of the nine register writes touches no other bank, and touches its own bank's setup only with FINIT set and the bank inactive |
| CanFilters.InitThroughCall | FWLIB/STM32F10x_FWLib/src/stm32f10x_can.c:305-375 | FINIT is set from the first write to the last, and clear on return; the other FMR bits never change |
| CanFilters.RequestDecodes | FWLIB/STM32F10x_FWLib/src/stm32f10x_can.c:310-345 | In both layouts the bank's contents identify the whole request |
| CanFilters.CanFilterBank.FilterInit | FWLIB/STM32F10x_FWLib/src/stm32f10x_can.c:292-376 | On the registers: the state recorded after each single register write is the specified one, so every one of them is safe and the last is the result |
| CanFilters.FollowsSafely | FWLIB/STM32F10x_FWLib/src/stm32f10x_can.c:305-375 | A recorded sequence of the specified states is safe write by write, also when the activation is skipped |
| CanModes.CanControl.OperatingModeRequest | FWLIB/STM32F10x_FWLib/src/stm32f10x_can.c:774-848 | At most 65537 MSR reads; success exactly if the last of them shows the requested mode; mode 0 sets INRQ and clears SLEEP and awaits INAK alone, mode 1 clears both and awaits neither, mode 2 sets SLEEP alone and awaits SLAK alone; the other thirty MCR bits are unchanged |
| CanModes.CanControl.WakeUp | FWLIB/STM32F10x_FWLib/src/stm32f10x_can.c:882-905 | The same for leaving sleep mode, clearing one MCR bit |
| CanModes.CanControl.Init | FWLIB/STM32F10x_FWLib/src/stm32f10x_can.c:154-282 | Without an acknowledgement bit timing and options are untouched; with one, BTR is the request and each MCR bit is the option requested or what it was |
| CanModes.TimingRoundTrip | FWLIB/STM32F10x_FWLib/src/stm32f10x_can.c:252-256 | BTR decodes to the requested timing if and only if the request is in the documented ranges |
| CanModes.OptionBits | FWLIB/STM32F10x_FWLib/src/stm32f10x_can.c:192-250 | The six option bits equal the request and all other MCR bits are kept |
| CanModes.SteadyHardware | FWLIB/STM32F10x_FWLib/src/stm32f10x_can.c:790-803 | Against hardware that acknowledges and stays so, the poll succeeds if and only if the acknowledgement comes within the reads that the driver may make |
| CanModes.SeenThenJudged | FWLIB/STM32F10x_FWLib/src/stm32f10x_can.c:790-803 | If the loop sees the acknowledgement, at whichever read, the request succeeds if and only if the next read shows it too |
| CanModes.TimedOutThenJudged | FWLIB/STM32F10x_FWLib/src/stm32f10x_can.c:790-803 | If it never sees it, the request succeeds if and only if the read after the last one shows it |
| CanModes.Wait | FWLIB/STM32F10x_FWLib/src/stm32f10x_can.c:790-794 | The polling loop stops at the first acknowledgement or at the end of its budget |
| Polling.PollEndUnique | FWLIB/STM32F10x_FWLib/src/stm32f10x_can.c:790-794 | The end of a poll is determined by its reads alone |
| Adc.InjectedRun | FWLIB/STM32F10x_FWLib/src/stm32f10x_adc.c:930-984 | Configuring ranks within the list, in any order and with repeats and with other ADC calls in between, leaves for each rank the last channel given for it, and never changes the length |
| Adc.InjectedRank | FWLIB/STM32F10x_FWLib/src/stm32f10x_adc.c:969-983 | One injected call: a rank inside the list replaces that entry only; the rank just past it overwrites the length field with the channel's two low bits |
| Adc.LengthSurvives | FWLIB/STM32F10x_FWLib/src/stm32f10x_adc.c:969-983 | The injected length survives a call if and only if the rank is not the one just past the list or the bits agree |
| Adc.RankPastTheListShrinksIt | FWLIB/STM32F10x_FWLib/src/stm32f10x_adc.c:971-983 | A list of two becomes a list of one when rank three is configured with channel zero |
| Adc.ShorteningKeepsSuffix | FWLIB/STM32F10x_FWLib/src/stm32f10x_adc.c:993-1010 | A shorter length keeps a suffix of the old list, not a prefix |
| Adc.LengtheningKeepsTail | FWLIB/STM32F10x_FWLib/src/stm32f10x_adc.c:993-1010 | A longer length keeps the old list as its tail |
| Adc.LengthWritten | FWLIB/STM32F10x_FWLib/src/stm32f10x_adc.c:993-1010 | The length becomes the request and no slot changes |
| Adc.RegularRankRun | FWLIB/STM32F10x_FWLib/src/stm32f10x_adc.c:590-677 | After any sequence of calls a regular rank holds the last channel given for it |
| Adc.SampleTimeRun | FWLIB/STM32F10x_FWLib/src/stm32f10x_adc.c:598-628 | A channel keeps the last sample time given for it by either group |
| Adc.RegularLengthRun | FWLIB/STM32F10x_FWLib/src/stm32f10x_adc.c:258-267 | The regular length is the last `ADC_Init` value minus one: no channel call disturbs it |
| Adc.InitControl | FWLIB/STM32F10x_FWLib/src/stm32f10x_adc.c:231-255 | `ADC_Init` sets the requested control fields and keeps every other control bit |
| Adc.AdcPeripheral.RegularChannelConfig | FWLIB/STM32F10x_FWLib/src/stm32f10x_adc.c:590-677 | On the registers: exactly the update that sets this rank and this channel's sample time and nothing else (`AppliedRegular`, `AppliedSample`, `AppliedLength` give its meaning) |
| Adc.AdcPeripheral.InjectedChannelConfig | FWLIB/STM32F10x_FWLib/src/stm32f10x_adc.c:930-984 | On the registers: exactly the update of sample time and JSQR whose meaning `InjectedRank` gives for a rank inside, just past and beyond the list |
| Adc.AdcPeripheral.InjectedSequencerLengthConfig | FWLIB/STM32F10x_FWLib/src/stm32f10x_adc.c:993-1010 | On the register: exactly the update that `LengthWritten` describes |
| Adc.AdcPeripheral.Init | FWLIB/STM32F10x_FWLib/src/stm32f10x_adc.c:218-268 | On the registers: exactly the update that `InitControl` describes, and the length field; no rank changes |
| Gpio.LastConfigurationWins | FWLIB/STM32F10x_FWLib/src/stm32f10x_gpio.c:173-258 | After any sequence of `GPIO_Init` calls a selected pin decodes to the mode and output speed of the last call that selected it; any other pin is untouched |
| Gpio.Port.Init | FWLIB/STM32F10x_FWLib/src/stm32f10x_gpio.c:173-258 | Both scanning loops refine one per-pin map update: mode nibble and pull bit of the selected pins, nothing else |
| Gpio.Port.ConfigureLow | FWLIB/STM32F10x_FWLib/src/stm32f10x_gpio.c:195-224 | The loop over the low pins |
| Gpio.Port.ConfigureHigh | FWLIB/STM32F10x_FWLib/src/stm32f10x_gpio.c:226-257 | The loop over the high pins |
| Gpio.ScanNibble | FWLIB/STM32F10x_FWLib/src/stm32f10x_gpio.c:198-222 | After any number of iterations exactly the selected pins visited so far have the new nibble |
| Gpio.ScanOutputAt | FWLIB/STM32F10x_FWLib/src/stm32f10x_gpio.c:206-220 | After any number of iterations exactly the selected pins visited so far are pulled |
| Gpio.RequestDecodes | FWLIB/STM32F10x_FWLib/src/stm32f10x_gpio.c:183-190 | Nibble and output bit identify the mode, and the speed of an output, although IPU and IPD share a nibble |
| Gpio.Afio.EXTILineConfig | FWLIB/STM32F10x_FWLib/src/stm32f10x_gpio.c:609-619 | The chosen line is routed to the chosen port and every other line keeps its port |
| Nvic.LibrariesAgree | FWLIB/STM32F10x_FWLib/src/misc.c:122-132 | For groupings three to seven `NVIC_Init` computes the byte of `NVIC_SetPriority` after `NVIC_EncodePriority`, for every value, although it never masks the pre-emption value |
| Nvic.ShiftDefined | FWLIB/STM32F10x_FWLib/src/misc.c:124-128 | Its shift count is meaningful if and only if the grouping is at least three; the reset grouping is not |
| Nvic.DecodeEncode | CORE/core_cm3.h:1634-1676 | Decoding an encoded pair gives both values reduced to their widths |
| Nvic.EncodeDecode | CORE/core_cm3.h:1634-1676 | Encoding a decoded priority is the identity below 2^N |
| Nvic.EncodeOrders | CORE/core_cm3.h:1634-1647 | Encoded order is lexicographic order on the two values |
| Nvic.WidthsShareBits | CORE/core_cm3.h:1640-1641 | The two widths add up to the implemented bits, for every grouping |
| Nvic.InitReadsBack | CORE/core_cm3.h:1609-1676 | Reading back and decoding what `NVIC_Init` stored gives the request as far as the grouping holds it |
| Nvic.InitOrders | FWLIB/STM32F10x_FWLib/src/misc.c:122-132 | Stored bytes compare as the requested pairs do |
| Nvic.LibraryGroups | FWLIB/STM32F10x_FWLib/src/misc.c:96-103 | `NVIC_PriorityGroup_k` gives `k` pre-emption bits and `4 - k` sub-priority bits |
| Nvic.LastPriorityWins | FWLIB/STM32F10x_FWLib/src/misc.c:112-144 | After any mixture of both libraries' calls, including changes of the grouping, an interrupt has the priority byte of the last call that sets it, computed under the grouping at that moment; a disabling `NVIC_Init` does not set it |
| Nvic.LastSwitchWins | CORE/core_cm3.h:1502-1518 | And it is enabled exactly if the last call that switches it turned it on, for every grouping |
| Nvic.LastGroupingWins | CORE/core_cm3.h:1468-1479 | The grouping is that of the last call of either library that sets it |
| Nvic.ResetGroupingShift | FWLIB/STM32F10x_FWLib/src/misc.c:122-132 | Under the grouping after reset the shift count wraps to minus three |
| Nvic.Controller.Init | FWLIB/STM32F10x_FWLib/src/misc.c:112-144 | Enabling stores the byte in `IP[irq]` and sets bit `irq mod 32` of enable word `irq div 32`, disabling clears that bit and keeps the byte; all other bytes and bits are kept |
| Nvic.Controller.InitByCmsis | CORE/core_cm3.h:1586-1592 | Encoding, setting and enabling by the CMSIS calls leaves the same registers as `NVIC_Init` |
| Nvic.Controller.SetPriority | CORE/core_cm3.h:1586-1592 | A non-negative number writes byte `IP[irq]`, a negative one byte `irq + 12` of the system handlers; all others are kept |
| Nvic.StoredValue | CORE/core_cm3.h:1586-1592 | The byte stored is sixteen times the value cut to four bits |
| Nvic.Controller.Enable | CORE/core_cm3.h:1502-1505 | Sets bit `irq mod 32` of enable word `irq div 32` and nothing else |
| Nvic.Controller.Disable | CORE/core_cm3.h:1515-1518 | Clears that bit and nothing else |
| Nvic.Controller.GetPriority | CORE/core_cm3.h:1609-1616 | The answer is at most fifteen and is the value whose setting would store the byte found at `IP[irq]`, or at handler byte `irq + 12` |
| Nvic.Controller.SetPriorityGrouping | CORE/core_cm3.h:1468-1479 | The word written has the key 0x05FA, the requested grouping, reduced to three bits, in bits 8 to 10, and the other bits of the lower half as they were |
| Nvic.Controller.PriorityGroupConfig | FWLIB/STM32F10x_FWLib/src/misc.c:96-103 | The word written is the key 0x05FA and the grouping alone, which decodes to the widths that the constant names |
| Clock.Rcc.SystemInit | USER/system_stm32f10x.c:212-269 | From any register contents and any hardware: from the second write on every state that runs from the PLL has two wait states, a crystal that is on and was seen ready and a PLL seen locked at HSE times nine, and every step obeys the rules for changing them; on success the registers describe 72 MHz, without a crystal 8 MHz; in every outcome HSION and HSEON are set, HSEBYP, CSSON, MCO, USBPRE and ADCPRE clear, and flash register, CIR and all remaining bits are given |
| Clock.Rcc.SetSysClockTo72 | USER/system_stm32f10x.c:980-1080 | The same for this function alone, called as its note demands only after reset, that is with the PLL neither on nor selected; its first step switches the crystal on, which stays on in every outcome, and its outcome is determined by the hardware's words |
| Clock.ReachesPll | USER/system_stm32f10x.c:993-1074 | The PLL is reached if and only if the read after the crystal's poll shows it ready and both later flags appear in their waits |
| Clock.CrystalWindow | USER/system_stm32f10x.c:995-1009 | The crystal's poll makes at most 0x500 reads, up to the first that shows HSERDY |
| Clock.SeventyTwo | USER/system_stm32f10x.c:306-412 | With HSE times nine selected the computed frequency is 72 MHz if and only if HPRE's top bit is clear |
| Clock.WithoutReset | USER/system_stm32f10x.c:1021-1028 | Called without the reset writes, the result is 72 MHz if and only if that bit was clear before |
| Clock.ComputesNamedTree | USER/system_stm32f10x.c:306-412 | For every clock source, factor and divider the header names, the computed frequency is the tree's, whatever the other bits hold |
| Clock.NamesAreComplete | USER/system_stm32f10x.c:306-412 | The header's names leave out nothing but the factor field of all ones, and seven AHB fields that divide by one |
| Clock.UnnamedFactor | USER/system_stm32f10x.c:331-336 | The one factor field without a name is taken as seventeen |
| Clock.Rcc.SystemCoreClockUpdate | USER/system_stm32f10x.c:306-412 | Although CFGR is read up to five times, the result is the frequency of one word |
| Clock.Rcc.WaitForCrystal | USER/system_stm32f10x.c:995-1009 | With the crystal on: at most 0x500 polls and one deciding read |
| Exti.LinesStaySound | FWLIB/STM32F10x_FWLib/src/stm32f10x_exti.c:85-149 | In every state between calls reachable from `EXTI_DeInit` no line has both outputs, and an enabled line has an edge |
| Exti.LastCallDecides | FWLIB/STM32F10x_FWLib/src/stm32f10x_exti.c:101-149 | A line drives an output exactly if the last call that decides it enabled that mode |
| Exti.LastEnableSetsEdges | FWLIB/STM32F10x_FWLib/src/stm32f10x_exti.c:123-141 | Its edges are those of the last call that enabled it |
| Exti.CallConfigures | FWLIB/STM32F10x_FWLib/src/stm32f10x_exti.c:101-149 | Every line after a call; lines outside the mask keep all four bits |
| Exti.NeverBoth | FWLIB/STM32F10x_FWLib/src/stm32f10x_exti.c:112-141 | Not even between two writes does a call give a line both outputs |
| Exti.BlindWindow | FWLIB/STM32F10x_FWLib/src/stm32f10x_exti.c:115-127 | But an enabling call passes through a state in which its lines are enabled without any edge |
| Exti.SightedThroughout | FWLIB/STM32F10x_FWLib/src/stm32f10x_exti.c:101-149 | A line that has an edge whenever it is enabled stays so after every single write of a call if and only if the call does not enable it |
| Exti.ExtiPeripheral.Init | FWLIB/STM32F10x_FWLib/src/stm32f10x_exti.c:101-149 | On the registers, at computed addresses: exactly the specified intermediate states, in order; at the end each line of the mask has the bits asked for in IMR, EMR, RTSR and FTSR, and every other line keeps its four |
| Exti.ExtiPeripheral.DeInit | FWLIB/STM32F10x_FWLib/src/stm32f10x_exti.c:85-92 | All four configuration registers are zero, PR is written with ones for all twenty lines, and the software trigger register is kept |
| Rtc.TornValue | FWLIB/STM32F10x_FWLib/src/stm32f10x_rtc.c:133-138 | The counter read in two halves is the first value plus 2^16 for every carry in between, modulo 2^32 |
| Rtc.TornExact | FWLIB/STM32F10x_FWLib/src/stm32f10x_rtc.c:133-138 | It is exact if and only if the number of carries is a multiple of 2^16 |
| Rtc.HeldUnlessCarried | FWLIB/STM32F10x_FWLib/src/stm32f10x_rtc.c:133-138 | With fewer than 2^16 ticks in between it is a value the counter held if and only if nothing carried |
| Rtc.TornAtCarry | FWLIB/STM32F10x_FWLib/src/stm32f10x_rtc.c:133-138 | A counter at 0xFFFF that ticks once between the two reads is read as 0x1FFFF |
| Rtc.MendedAtCarry | FWLIB/STM32F10x_FWLib/src/stm32f10x_rtc.c:145-153 | Setting a counter at 0xFFFF to zero with one tick between the two writes leaves it at 0x10000 |
| Rtc.MendedExact | FWLIB/STM32F10x_FWLib/src/stm32f10x_rtc.c:145-153 | A value written in two halves arrives if and only if nothing carried, up to multiples of 2^16 carries |
| Rtc.SetThenGet | FWLIB/STM32F10x_FWLib/src/stm32f10x_rtc.c:133-153 | Without ticks, what is set is what is read |
| Rtc.RealTimeClock.GetCounter | FWLIB/STM32F10x_FWLib/src/stm32f10x_rtc.c:133-138 | The result is the two-half value for the ticks that pass before and between the reads, whose meaning `TornValue` gives |
| Rtc.RealTimeClock.SetCounter | FWLIB/STM32F10x_FWLib/src/stm32f10x_rtc.c:145-153 | Each half-word write is recorded with its value and with whether CNF was set: both halves are written with CNF set, CNF is clear on return, and the counter holds the value but for carries and later ticks; of CRL only CNF changes |
| Rtc.RealTimeClock.SetPrescaler | FWLIB/STM32F10x_FWLib/src/stm32f10x_rtc.c:160-171 | The low twenty bits, each half recorded as written with CNF set; no other register changes; of CRL only CNF changes |
| Rtc.RealTimeClock.SetAlarm | FWLIB/STM32F10x_FWLib/src/stm32f10x_rtc.c:178-186 | The whole value, each half recorded as written with CNF set; no other register changes; of CRL only CNF changes |
| TickHook.SignalsOncePerPeriod | UCOSII/PORT/os_cpu_c.c:283-296 | After n ticks with a period of 1 to 65535 the timer was signalled n div period times and the counter holds n mod period |
| TickHook.ServedExactly | UCOSII/PORT/os_cpu_c.c:289-294 | The timer is served at its rate if and only if the period fits the 16-bit counter |
| TickHook.UnreachablePeriod | UCOSII/PORT/os_cpu_c.c:289-294 | A longer period never signals: the counter wraps first |
| TickHook.ZeroPeriod | UCOSII/PORT/os_cpu_c.c:289-294 | A period of zero signals on every tick |
| TickHook.Kernel.TimeTickHook | UCOSII/PORT/os_cpu_c.c:283-296 | After every tick the counter is the number of ticks modulo the period and the signals their quotient |
| PriorityMap.TableFindsLowest | UCOSII/CORE/os_core.c:38-55 | Each of the 256 entries is the position of the lowest bit, and the first is zero |
| PriorityMap.InsertedHolds | UCOSII/CORE/os_core.c:949-950 | Insertion adds exactly that priority and keeps the summary byte true |
| PriorityMap.RemovedHolds | UCOSII/CORE/os_core.c:1187-1190 | Removal takes out exactly that priority and keeps the summary byte true |
| PriorityMap.HighestIsLeast | UCOSII/CORE/os_core.c:1672-1681 | Two look-ups find the least priority in the map; the summary byte is zero exactly for the empty map |
| PriorityMap.MapAfterRun | UCOSII/CORE/os_core.c:1103-1191 | After any sequence of insertions and removals the map holds exactly the priorities whose last change was an insertion, and the look-ups find the least of them |
| PriorityMap.PriorityList.First | UCOSII/CORE/os_core.c:1672-1681 | On grp and tbl: the least element, or zero for an empty list |
| PriorityMap.PriorityList.Discard | UCOSII/CORE/os_core.c:1180-1191 | On grp and tbl: the set without that priority |
| MessageRing.Ring.Take | UCOSII/CORE/os_q.c:438-450 | The oldest message leaves the ring and the rest keep their order |
| MessageRing.Ring.Append | UCOSII/CORE/os_q.c:621-631 | Refused exactly when the ring is full, otherwise the message is last |
| MessageRing.Ring.Prepend | UCOSII/CORE/os_q.c:684-695 | Refused exactly when the ring is full, otherwise the message is first |
| MessageQueues.RunKeepsInv | UCOSII/CORE/os_core.c:889-1191 | The invariant over task control blocks, ready list, wait lists, rings and history holds in every state of every run of tasks and interrupt handlers |
| MessageQueues.SchedulerFindsHighest | UCOSII/CORE/os_core.c:1672-1681 | In every reachable state the ready list is empty exactly if no task can run; otherwise its least priority belongs to a task that neither waits, nor delays, nor is suspended, and no task of a higher priority is such |
| MessageQueues.ReadyListEmpties | UCOSII/CORE/os_task.c:947-997 | A ready list with tasks in it is emptied by a step if and only if the step suspends, delays or blocks its only task |
| MessageQueues.SuspensionEmpties | UCOSII/CORE/os_task.c:947-997 | As long as nothing has suspended, delayed or blocked the idle task, `OSTaskSuspend` empties it if and only if it names the idle task and no other task can run |
| MessageQueues.SuspendingIdleEmpties | UCOSII/CORE/os_task.c:947-997 | Suspending priority 63 before any other task exists leaves nobody ready |
| MessageQueues.IdleStaysReady | UCOSII/CORE/os_core.c:932-957 | In a run that never suspends, delays or blocks the idle task, it is always ready |
| MessageQueues.NoMissedMessage | UCOSII/CORE/os_q.c:401-483 | In every reachable state a queue with a waiter is empty, and a pending task is in the wait list of its queue |
| MessageQueues.MessagesConserved | UCOSII/CORE/os_q.c:594-783 | In every reachable state the messages accepted are those taken, stored and flushed together |
| MessageQueues.FirstInFirstOut | UCOSII/CORE/os_q.c:401-632 | Without posts to the front and flushes, messages leave a queue in exactly the order in which they were accepted, over any run and with any mixture of stored and directly handed messages |
| MessageQueues.OrderKept | UCOSII/CORE/os_q.c:401-632 | The same from any state on: what is accepted lines up behind what was there, and leaves from the front |
| MessageQueues.FrontLeavesFirst | UCOSII/CORE/os_q.c:684-695 | A message accepted by a post to the front of a queue without waiters is the next to leave it, until another such post or a flush, and what was stored follows in its old order |
| MessageQueues.HandedIsReturned | UCOSII/CORE/os_q.c:456-483 | In every reachable state what a task was given is what its calls of `OSQPend` have returned, in order, and then the one message it still carries |
| MessageQueues.VerdictIsExact | UCOSII/CORE/os_q.c:456-483 | `OSQPend` times out exactly if its task is still in the wait list when it runs again; otherwise it returns the message it was given, or was aborted |
| MessageQueues.PostWakesFirst | UCOSII/CORE/os_core.c:1028-1085 | A post to a queue with waiters hands the message to the highest priority waiter and touches no other task, no ring slot and no other queue, even if that waiter has timed out but not run yet |
| MessageQueues.BroadcastWakesAll | UCOSII/CORE/os_q.c:750-757 | A broadcast hands it to every waiter and leaves all other tasks alone |
| MessageQueues.ResumeLifts | UCOSII/CORE/os_task.c:795-839 | Over runs: after `OSTaskResume` the task is not suspended, is ready exactly if it neither pends nor delays, keeps everything else, and no other task, queue or list changes |
| MessageQueues.SuspendStops | UCOSII/CORE/os_task.c:947-997 | After `OSTaskSuspend` the task is suspended and off the ready list, and nothing else changes |
| MessageQueues.SuspendedUntilResumed | UCOSII/CORE/os_task.c:795-997 | It stays so until the next `OSTaskResume` for it, whatever is posted, aborted or ticks meanwhile |
| MessageQueues.DelayResumeEnds | UCOSII/CORE/os_time.c:162-205 | `OSTimeDlyResume` ends a delay at once, and a wait with a timeout as its last tick would; without a delay it changes nothing |
| MessageQueues.DelayStops | UCOSII/CORE/os_time.c:44-70 | `OSTimeDly` takes the calling task off the ready list for its ticks and changes nothing else |
| MessageQueues.TickCounts | UCOSII/CORE/os_core.c:932-957 | One tick shortens a delay or timeout by one, and the last one ends it; no other task is touched |
| MessageQueues.PendBlocks | UCOSII/CORE/os_q.c:452-455 | `OSQPend` on an empty queue leaves the task pending with its timeout, in this wait list and off the ready list |
| MessageQueues.ReturnFrees | UCOSII/CORE/os_q.c:456-483 | After the call has returned the task waits for nothing and is in no wait list |
| MessageQueues.AbortWakes | UCOSII/CORE/os_q.c:518-570 | `OSQPendAbort` wakes the highest priority waiter or all of them, without a message and with the verdict aborted, and nobody else |
| MessageQueues.FlushEmpties | UCOSII/CORE/os_q.c:337-361 | A flush empties the ring and changes nothing else |
| MessageQueues.CreateReadies | UCOSII/CORE/os_core.c:1940-2027 | A new task is ready, and nothing else changes |
| MessageQueues.DelayIsExact | UCOSII/CORE/os_core.c:932-957 | A delay lasts exactly its ticks whatever else happens: until the last of them the task is ready exactly when all have come and it is not suspended |
| MessageQueues.TimeoutIsExact | UCOSII/CORE/os_core.c:932-957 | A blocked `OSQPend` never times out before its ticks, never pends after them, and never times out with timeout zero |
| MessageQueues.TimesOutWithLastTick | UCOSII/CORE/os_core.c:932-957 | A call that still pends before its last tick has timed out after it, and its task is ready exactly if it is not suspended |
| QueueCalls.Kernel.EventTaskRdy | UCOSII/CORE/os_core.c:1028-1085 | On bitmaps, ring and control blocks: wakes exactly the highest priority waiter |
| QueueCalls.Kernel.Post | UCOSII/CORE/os_q.c:594-632 | On bitmaps, ring and control blocks: the post of the state machine, refused exactly when there is no waiter and no room |
| QueueCalls.Kernel.PostFront | UCOSII/CORE/os_q.c:657-696 | The same at the front: without waiters and with room, the ring holds the message and then what it held before |
| QueueCalls.Kernel.PostOpt | UCOSII/CORE/os_q.c:729-783 | The same with all options, the broadcast loop and both ends of the ring included |
| QueueCalls.Kernel.Pend | UCOSII/CORE/os_q.c:438-455 | Takes the oldest message, or leaves the task blocked in the wait list and off the ready list |
| QueueCalls.Kernel.PendReturn | UCOSII/CORE/os_q.c:456-483 | Returns the message, abort or timeout, and leaves the wait list only in the last case |
| QueueCalls.Kernel.PendAbort | UCOSII/CORE/os_q.c:518-570 | Wakes one or all waiters without a message and counts them |
| QueueCalls.Kernel.TimeTick | UCOSII/CORE/os_core.c:932-957 | One task's share of a clock tick |
| QueueCalls.Kernel.TimeDlyResume | UCOSII/CORE/os_time.c:162-205 | Ends a delay or a timeout early |
| QueueCalls.Kernel.TaskResume | UCOSII/CORE/os_task.c:795-839 | Lifts a suspension, and makes the task ready exactly if nothing else holds it |
| QueueCalls.Kernel.SchedNew | UCOSII/CORE/os_core.c:1672-1681 | The highest priority in the ready list, or zero for an empty one |
| KernelRuns.System.Post | UCOSII/CORE/os_q.c:594-632 | On the whole memory: exactly one step of the state machine is added to a run that starts at initialisation, and the memory again shows its last state; so everything proved of runs holds of the bitmaps, rings and control blocks |
| KernelRuns.System.PostFront | UCOSII/CORE/os_q.c:657-696 | The same for a post to the front, the message being first in the ring unless a waiter takes it |
| KernelRuns.System.PostOpt | UCOSII/CORE/os_q.c:729-783 | The same for a post with options, broadcasts and both ends of the ring included |
| KernelRuns.System.PendAbort | UCOSII/CORE/os_q.c:518-570 | The same, with the number of tasks woken |
| KernelRuns.System.Accept | UCOSII/CORE/os_q.c:61-104 | The same, answering the oldest message or none |
| KernelRuns.System.Flush | UCOSII/CORE/os_q.c:337-361 | The same for emptying the ring |
| KernelRuns.System.Pend | UCOSII/CORE/os_q.c:438-455 | The same for the first half of the call, by any task that is running |
| KernelRuns.System.PendReturn | UCOSII/CORE/os_q.c:456-483 | The same for the second half, with verdict and message |
| KernelRuns.System.TimeTick | UCOSII/CORE/os_core.c:932-957 | The same for one task's share of a tick |
| KernelRuns.System.TimeDly | UCOSII/CORE/os_time.c:44-70 | The same for a delay |
| KernelRuns.System.TimeDlyResume | UCOSII/CORE/os_time.c:162-205 | The same exactly if the task exists, is not the idle task and has a delay to end, and otherwise no step |
| KernelRuns.System.TaskSuspend | UCOSII/CORE/os_task.c:947-997 | The same exactly if the task exists, the idle task included, and otherwise no step |
| KernelRuns.System.TaskResume | UCOSII/CORE/os_task.c:795-839 | The same exactly if the task exists and is suspended, and otherwise no step |
| KernelRuns.System.SchedNew | UCOSII/CORE/os_core.c:1672-1681 | After any calls, the answer is the highest priority among the tasks that can run, or zero if none can |
| KernelRuns.System.WaitersFindNothing | UCOSII/CORE/os_q.c:401-483 | After any calls, no queue has both a waiter in its bitmap and a message in its ring |
| KernelRuns.System.RingHoldsTheRest | UCOSII/CORE/os_q.c:401-632 | After any calls without posts to the front and flushes, the ring holds what was accepted and not yet taken, in order |
| Registry.RunKeepsUnique | HARDWARE/BSP/bsp_useadd.c:26-94 | In every state of every run of registrations and removals a card reader has at most one logical address |
| Registry.RunKeepsCount | HARDWARE/BSP/bsp_useadd.c:26-94 | The stored count is the number of used slots throughout a run that removes only numbers in use |
| Registry.DistributeRegisters | HARDWARE/BSP/bsp_useadd.c:26-68 | The answered address is the reader's, and the answer is 0xF3 exactly if the table is full of other readers |
| Registry.DistributeKeepsOthers | HARDWARE/BSP/bsp_useadd.c:26-68 | Every other reader keeps its address |
| Registry.DistributeTwice | HARDWARE/BSP/bsp_useadd.c:26-68 | Asking again gives the same answer and writes nothing |
| Registry.DeletedSlot | HARDWARE/BSP/bsp_useadd.c:78-94 | Every slot whose first byte equals the number is wiped, whichever slot it is, and no other |
| Registry.DeleteKeepsCount | HARDWARE/BSP/bsp_useadd.c:78-94 | The count stays right if and only if the deleted number was in use |
| Registry.DeleteClears | HARDWARE/BSP/bsp_useadd.c:84-90 | A deleted slot is zero if and only if its number is even or its last address byte was zero |
| Registry.DistributeKeepsConfig | HARDWARE/BSP/bsp_useadd.c:26-68 | A registration leaves the network configuration in the same memory alone if and only if the reader is known already or the lowest free number is not one of the twelve shared slots |
| Registry.DeleteKeepsConfig | HARDWARE/BSP/bsp_useadd.c:78-94 | A removal of any number, zero included, leaves it alone if and only if each shared slot that starts with that number is wiped without a change inside the configuration |
| Registry.FortyNinthUnformats | HARDWARE/BSP/bsp_useadd.c:26-68 | From a fresh memory any number of different readers get the numbers 1, 2, 3 and so on up to 80; the configuration survives exactly up to the thirty-seventh of them and the format flag exactly up to the forty-eighth |
| Registry.ReadersSurviveRestart | HARDWARE/BSP/bsp_24cxx.c:186-234 | All readers still have their numbers after the next start if and only if there are at most forty-eight of them |
| Registry.RunKeepsFlag | HARDWARE/BSP/bsp_useadd.c:26-94 | Over any run of registrations and removals the flag is there exactly if it was there before and no call registered a reader in slot 49 or removed the number 0x55 that the flag spells |
| Registry.FactoryRemovals | HARDWARE/BSP/bsp_useadd.c:78-94 | A removal damages a factory configuration if and only if the number is 32, 48, 49, 54, 85, 123, 241 or 255 |
| Registry.FormattedIsEmpty | HARDWARE/BSP/bsp_24cxx.c:186-234 | A freshly formatted memory is an empty, rightly counted table |
| Registry.Eeprom.Distribute | HARDWARE/BSP/bsp_useadd.c:26-68 | On the memory: the answer and the new contents are those of the specified search |
| Registry.Eeprom.Delete | HARDWARE/BSP/bsp_useadd.c:78-94 | On the memory: the specified loop of wipes, and the lowered count |
| Registry.Eeprom.PowerUpCheck | HARDWARE/BSP/bsp_useadd.c:105-157 | Exactly the readers that answer within two offers stay, with their addresses; the count of readers online is the number of used slots, and a right count stays right |
| Registry.Eeprom.Check | HARDWARE/BSP/bsp_24cxx.c:186-234 | A memory without the flag becomes the factory configuration with an empty table, any other is left alone |
| Crc8.TableIsRegister | HARDWARE/BSP/bsp_crc8.c:2-35 | Each of the 256 entries is the shift register after eight steps |
| Crc8.TableComputesSerial | HARDWARE/BSP/bsp_crc8.c:36-46 | Table look-up computes the bit-serial checksum of every message |
| Crc8.SelfChecking | HARDWARE/BSP/bsp_crc8.c:36-46 | A message with one more byte has checksum zero if and only if that byte is its checksum |
| Crc8.ByteErrorDetected | HARDWARE/BSP/bsp_crc8.c:36-46 | Any change confined to one byte changes the checksum, for messages of any length |
| Crc8.BurstDetected | HARDWARE/BSP/bsp_crc8.c:36-46 | So does any burst of at most eight bits across two bytes |
| Crc8.Compute | HARDWARE/BSP/bsp_crc8.c:36-46 | The loop computes the checksum that both definitions give |
| Replies.WrongByteRejected | HARDWARE/BSP/bsp_canapp.c:99-107 | An announcement with one wrong byte in its address or checksum is never believed |
| Replies.WrongBurstRejected | HARDWARE/BSP/bsp_canapp.c:99-107 | Nor is one with a burst of at most eight wrong bits across two neighbouring bytes |
| Replies.ReadUnregistered | HARDWARE/BSP/bsp_canapp.c:82-112 | The first message within twenty tries decides; the buffer takes the address of any announcement, also of a wrong one |

## Left out

- CAN arbitration, acceptance matching, error counters, FIFO overrun and the bus checksum: decided by the hardware, which is
  reduced to mailbox completion, status bits and a queue of received messages.
- CAN transmit cancellation, the CAN interrupt and flag functions, DMA, DAC, FSMC, BKP, PWR, watchdog and debug functions,
  structure defaults and single-bit enables: one-branch code.
- CanTransmit.Bxcan.Transmit: the caller's structure is a value, and the DLC that the driver masks in place is an out-parameter, so
  aliasing between messages is not modelled.
- CanModes.CanControl.Init: MCR is taken to hold what software wrote; hardware that changes SLEEP on bus activity is not modelled.
- CanFilters.CanFilterBank.FilterInit: fourteen banks, as on the high-density part; the twenty-eight of the connectivity line are not modelled.
- The clock settings other than 72 MHz, and the connectivity and value lines: not compiled for this part.
- Clock.Rcc.SystemInit: the hardware's own write protection (it refuses to stop a PLL that drives the system) and the
  clock security system are not modelled; the vector table write is left out.
- Nvic.Controller.Init: pending and active bits, vector relocation and low-power bits are left out.
- Exti.ExtiPeripheral.DeInit: PR is written but pending requests are not modelled.
- Rtc.RealTimeClock.SetCounter: whether the counter pauses during configuration is not stated in the code, so ticks are
  allowed between all accesses; the waits for RTOFF and for synchronisation are left out.
- TickHook.Kernel.TimeTickHook: the application hook is left out. The configuration at hand compiles the timer code out (UCOSII/CONFIG/os_cfg.h:139);
  the model is of the code as it runs with timers on, for every period.
- The rest of the application under HARDWARE/BSP, the server connection, lwIP and memory allocation: text formatting, device
  drivers and third-party stacks.
- The kernel's semaphores, mailboxes, mutexes, event flags and memory partitions: each repeats the wait-list protocol modelled for
  queues. Deletion of tasks and queues, priority changes, waiting on several objects, scheduler locking and interrupt nesting
  are left out, as are the context switch and OSTaskStkInit: the restoring assembly is not part of this model.
- MessageQueues.TimeoutIsExact: counts the ticks that the kernel processes for the task; ticks that it skips in stepping mode do not count.
- QueueCalls.Kernel.Pend: the control block of the calling task is named by its priority, and `OSTCBEventPtr` by the queue's number.
- MessageQueues.SchedulerFindsHighest: once the ready list is empty the kernel switches to priority zero, whatever that task is doing;
  what that task then does is not modelled, only interrupts and the tick go on.
- Registry.Eeprom.Delete: the status byte `g_RUNDate[Logic_no][0]`, which the code also clears, is not modelled; that index lies outside its
  array for numbers above eighty.
- Registry.Eeprom.Distribute: the EEPROM read repeats its start with the fixed device byte 0xA1, without page bits (bsp_24cxx.c:91); here a byte
  written at any of the 1024 addresses is the byte read there, which covers the slots from the fiftieth on.
- Registry.Eeprom.Check: the bus protocol of the EEPROM and write delays are left out; the memory is an array of bytes.
